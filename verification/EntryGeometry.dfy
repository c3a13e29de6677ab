/** Where an armed entry waits: the zone, the structural stop beyond it, and the prices that decide. */
module EntryGeometry {
  import opened Collections
  import opened Directions

  datatype Policy = Policy(confirmPts: real, invalidatePts: real, zoneTouchPts: real, stopBuffer: real,
                           zoneMin: real, zoneMax: real, maxStop: real, expiryMinutes: string -> real,
                           maxHoldHours: real, dayBoundaryClose: bool, tpR: real, targetPts: real,
                           maxRiskFrac: real, volume: real)

  /** A signal's level fields, already numbers; absent or unreadable ones are None. */
  datatype Signal = Signal(direction: string, timeframe: string, session: string,
                           supportPrice: Option<real>, supportPts: Option<real>,
                           resistancePrice: Option<real>, resistancePts: Option<real>)

  datatype Source = LevelPrice | LevelPts | HourlySwing

  datatype Zone = Zone(zonePrice: real, stopPrice: real, source: Source, distancePts: real)

  function Number(raw: Option<real>): Option<real> {
    if raw.Some? && raw.value > 0.0 then raw else None
  }

  predicate SignalIsBuy(s: Signal) { IsBuyWord(Lower(Strip(s.direction))) }

  function Abs(x: real): real { if x >= 0.0 then x else -x }

  /** The level to use: the absolute price, else the distance, else the swing found in hourly bars. */
  function LevelOf(s: Signal, price: real, swing: Option<real>): Option<(real, Source)> {
    var absolute := Number(if SignalIsBuy(s) then s.supportPrice else s.resistancePrice);
    var distance := Number(if SignalIsBuy(s) then s.supportPts else s.resistancePts);
    if absolute.Some? then Some((absolute.value, LevelPrice))
    else if distance.Some? then
      Some((if SignalIsBuy(s) then price - distance.value else price + distance.value, LevelPts))
    else if swing.Some? then Some((swing.value, HourlySwing))
    else None
  }

  /** A level field that can be used. */
  predicate Usable(raw: Option<real>) { raw.Some? && raw.value > 0.0 }

  /** The signal's own absolute price wins, then its distance from the current price, then the swing; else none. */
  lemma LevelPrecedence(s: Signal, price: real, swing: Option<real>)
    ensures var buy := Lower(Strip(s.direction)) in {"up", "buy", "long"};
            var absolute := if buy then s.supportPrice else s.resistancePrice;
            var distance := if buy then s.supportPts else s.resistancePts;
            var level := LevelOf(s, price, swing);
            && (level == None <==> !Usable(absolute) && !Usable(distance) && swing == None)
            && (level.Some? ==>
                  && (level.value.1 == LevelPrice <==> Usable(absolute))
                  && (level.value.1 == HourlySwing <==> !Usable(absolute) && !Usable(distance))
                  && (level.value.1 == LevelPrice ==> absolute == Some(level.value.0))
                  && (level.value.1 == HourlySwing ==> swing == Some(level.value.0))
                  && (level.value.1 == LevelPts ==>
                        distance == Some(if buy then price - level.value.0 else level.value.0 - price)))
  {
  }

  /**
   * There is a zone exactly when the level is within reach, on the right side
   * of price, and the buffer is under the ceiling; the stop lies the buffer
   * beyond it.
   */
  function Derive(p: Policy, s: Signal, price: real, swing: Option<real>): (zone: Option<Zone>)
    ensures var level := LevelOf(s, price, swing);
            && (zone.Some? <==>
                  && level.Some?
                  && p.zoneMin <= Abs(price - level.value.0) <= p.zoneMax
                  && (if SignalIsBuy(s) then level.value.0 < price else price < level.value.0)
                  && Abs(p.stopBuffer) <= p.maxStop)
            && (zone.Some? ==> zone.value.zonePrice == level.value.0 && zone.value.source == level.value.1
                               && zone.value.distancePts == Abs(price - level.value.0))
    ensures zone.Some? ==>
              var z := zone.value;
              && p.zoneMin <= Abs(price - z.zonePrice) <= p.zoneMax
              && (SignalIsBuy(s) ==> z.zonePrice < price && z.zonePrice - z.stopPrice == p.stopBuffer)
              && (!SignalIsBuy(s) ==> price < z.zonePrice && z.stopPrice - z.zonePrice == p.stopBuffer)
              && Abs(z.zonePrice - z.stopPrice) <= p.maxStop
  {
    var level := LevelOf(s, price, swing);
    if level.None? then None
    else
      var zone := level.value.0;
      var gap := Abs(price - zone);
      if gap < p.zoneMin || gap > p.zoneMax then None
      else if SignalIsBuy(s) && zone >= price then None
      else if !SignalIsBuy(s) && zone <= price then None
      else
        var stop := if SignalIsBuy(s) then zone - p.stopBuffer else zone + p.stopBuffer;
        if Abs(zone - stop) > p.maxStop then None
        else Some(Zone(zone, stop, level.value.1, gap))
  }

  // ── one armed entry ───────────────────────────────────────────────────────

  /** What is fixed when an entry is armed. */
  datatype Plan = Plan(signalId: string, direction: string, zonePrice: real, stopPrice: real, timeframe: string,
                       session: string, routeKind: string, tpHint: Option<real>, createdTs: real, expiryMin: real,
                       confirmPts: real, invalidatePts: real, zoneTouchPts: real)
  {
    predicate IsBuy() { IsBuyWord(Lower(direction)) }

    function ConfirmPrice(): real { if IsBuy() then zonePrice + confirmPts else zonePrice - confirmPts }

    function InvalidatePrice(): real { if IsBuy() then zonePrice - invalidatePts else zonePrice + invalidatePts }

    function StopPts(): real { Abs(zonePrice - stopPrice) }

    predicate Expired(now: real) { now - createdTs > expiryMin * 60.0 }
  }

  /** What price has done to it so far. */
  datatype Progress = Progress(reachedZone: bool, swept: bool)

  datatype Verdict = Wait | Fill | Cancel

  const UNTOUCHED := Progress(false, false)

  class PendingEntry {
    const plan: Plan
    var reachedZone: bool
    var swept: bool

    constructor (plan: Plan)
      ensures this.plan == plan && State() == UNTOUCHED
    {
      this.plan, reachedZone, swept := plan, false, false;
    }

    function State(): Progress
      reads this
    {
      Progress(reachedZone, swept)
    }

    method Evaluate(price: real) returns (v: Verdict)
      modifies this
      ensures (State(), v) == Evaluated(plan, old(State()), price)
    {
      if plan.routeKind == "exhaustion" {
        v := Exhaustion(price);
      } else {
        v := Fresh(price);
      }
    }

    method Exhaustion(price: real) returns (v: Verdict)
      requires plan.routeKind == "exhaustion"
      modifies this
      ensures (State(), v) == Evaluated(plan, old(State()), price)
    {
      if plan.IsBuy() {
        if price <= plan.zonePrice {
          swept, reachedZone := true, true;
        }
        if price <= plan.InvalidatePrice() - plan.invalidatePts {
          return Cancel;
        }
        return if swept && price >= plan.ConfirmPrice() then Fill else Wait;
      }
      if price >= plan.zonePrice {
        swept, reachedZone := true, true;
      }
      if price >= plan.InvalidatePrice() + plan.invalidatePts {
        return Cancel;
      }
      return if swept && price <= plan.ConfirmPrice() then Fill else Wait;
    }

    method Fresh(price: real) returns (v: Verdict)
      requires plan.routeKind != "exhaustion"
      modifies this
      ensures (State(), v) == Evaluated(plan, old(State()), price)
    {
      if plan.IsBuy() {
        if !reachedZone {
          if price <= plan.zonePrice + plan.zoneTouchPts {
            reachedZone := true;
          }
          return Wait;
        }
        if price <= plan.InvalidatePrice() {
          return Cancel;
        }
        return if price >= plan.ConfirmPrice() then Fill else Wait;
      }
      if !reachedZone {
        if price >= plan.zonePrice - plan.zoneTouchPts {
          reachedZone := true;
        }
        return Wait;
      }
      if price >= plan.InvalidatePrice() {
        return Cancel;
      }
      return if price <= plan.ConfirmPrice() then Fill else Wait;
    }
  }

  // ── the automaton, side-free ──────────────────────────────────────────────

  /** How far price is on the winning side of the zone: a sell is a buy seen from below. */
  function Gain(plan: Plan, price: real): real {
    if plan.IsBuy() then price - plan.zonePrice else plan.zonePrice - price
  }

  /** One price, in distances from the zone. */
  function Judged(plan: Plan, s: Progress, gain: real): (Progress, Verdict) {
    if plan.routeKind == "exhaustion" then
      var s' := if gain <= 0.0 then Progress(true, true) else s;
      (s', if gain <= -2.0 * plan.invalidatePts then Cancel
           else if s'.swept && gain >= plan.confirmPts then Fill else Wait)
    else if !s.reachedZone then
      (if gain <= plan.zoneTouchPts then s.(reachedZone := true) else s, Wait)
    else
      (s, if gain <= -plan.invalidatePts then Cancel else if gain >= plan.confirmPts then Fill else Wait)
  }

  function Evaluated(plan: Plan, s: Progress, price: real): (Progress, Verdict) {
    Judged(plan, s, Gain(plan, price))
  }

  function After(plan: Plan, prices: seq<real>): Progress {
    if prices == [] then UNTOUCHED
    else Evaluated(plan, After(plan, prices[..|prices| - 1]), prices[|prices| - 1]).0
  }

  function VerdictAt(plan: Plan, prices: seq<real>, i: nat): Verdict
    requires i < |prices|
  {
    Evaluated(plan, After(plan, prices[..i]), prices[i]).1
  }

  /** The run over prices ends at step i with a fill. */
  ghost predicate FillsAt(plan: Plan, prices: seq<real>, i: nat) {
    i < |prices| && VerdictAt(plan, prices, i) == Fill && forall k :: 0 <= k < i ==> VerdictAt(plan, prices, k) == Wait
  }

  ghost predicate Touches(plan: Plan, price: real) { Gain(plan, price) <= plan.zoneTouchPts }

  ghost predicate Sweeps(plan: Plan, price: real) { Gain(plan, price) <= 0.0 }

  /** Strictly between the invalidation and the confirmation. */
  ghost predicate Inside(plan: Plan, price: real) { -plan.invalidatePts < Gain(plan, price) < plan.confirmPts }

  lemma {:induction false} ReachedWhenTouched(plan: Plan, prices: seq<real>)
    requires plan.routeKind != "exhaustion"
    ensures After(plan, prices).reachedZone <==> exists j :: 0 <= j < |prices| && Touches(plan, prices[j])
  {
    if prices != [] {
      var n := |prices| - 1;
      ReachedWhenTouched(plan, prices[..n]);
      assert forall j :: 0 <= j < n ==> prices[..n][j] == prices[j];
    }
  }

  lemma {:induction false} SweptWhenSwept(plan: Plan, prices: seq<real>)
    requires plan.routeKind == "exhaustion"
    ensures After(plan, prices).swept <==> exists j :: 0 <= j < |prices| && Sweeps(plan, prices[j])
  {
    if prices != [] {
      var n := |prices| - 1;
      SweptWhenSwept(plan, prices[..n]);
      assert forall j :: 0 <= j < n ==> prices[..n][j] == prices[j];
    }
  }

  lemma FreshVerdict(plan: Plan, prices: seq<real>, i: nat)
    requires plan.routeKind != "exhaustion" && i < |prices|
    ensures var touched := exists j :: 0 <= j < i && Touches(plan, prices[j]);
            var gain := Gain(plan, prices[i]);
            VerdictAt(plan, prices, i) ==
              if !touched then Wait else if gain <= -plan.invalidatePts then Cancel
              else if gain >= plan.confirmPts then Fill else Wait
  {
    ReachedWhenTouched(plan, prices[..i]);
    assert forall j :: 0 <= j < i ==> prices[..i][j] == prices[j];
  }

  ghost predicate TouchedBefore(plan: Plan, prices: seq<real>, i: nat)
    requires i <= |prices|
  {
    exists j :: 0 <= j < i && Touches(plan, prices[j])
  }

  /** Step j is the first touch, and every price after it and before i stayed inside the band. */
  ghost predicate FirstTouched(plan: Plan, prices: seq<real>, j: nat, i: nat)
    requires i <= |prices|
  {
    && j < i && Touches(plan, prices[j])
    && (forall k :: 0 <= k < j ==> !Touches(plan, prices[k]))
    && (forall k :: j < k < i ==> Inside(plan, prices[k]))
  }

  lemma FreshWaits(plan: Plan, prices: seq<real>, k: nat)
    requires plan.routeKind != "exhaustion" && k < |prices|
    ensures VerdictAt(plan, prices, k) == Wait <==> (TouchedBefore(plan, prices, k) ==> Inside(plan, prices[k]))
    ensures VerdictAt(plan, prices, k) == Fill <==>
              && TouchedBefore(plan, prices, k)
              && -plan.invalidatePts < Gain(plan, prices[k]) && plan.confirmPts <= Gain(plan, prices[k])
  {
    FreshVerdict(plan, prices, k);
  }

  lemma FillMeansTouched(plan: Plan, prices: seq<real>, i: nat) returns (j: nat)
    requires plan.routeKind != "exhaustion" && i < |prices| && FillsAt(plan, prices, i)
    ensures FirstTouched(plan, prices, j, i)
    ensures -plan.invalidatePts < Gain(plan, prices[i]) && plan.confirmPts <= Gain(plan, prices[i])
  {
    FreshWaits(plan, prices, i);
    j := FirstTouch(plan, prices, i);
    forall k | j < k < i ensures Inside(plan, prices[k]) {
      FreshWaits(plan, prices, k);
      assert TouchedBefore(plan, prices, k);
    }
  }

  lemma TouchedMeansFill(plan: Plan, prices: seq<real>, i: nat, j: nat)
    requires plan.routeKind != "exhaustion" && i < |prices| && FirstTouched(plan, prices, j, i)
    requires -plan.invalidatePts < Gain(plan, prices[i]) && plan.confirmPts <= Gain(plan, prices[i])
    ensures FillsAt(plan, prices, i)
  {
    FreshWaits(plan, prices, i);
    assert TouchedBefore(plan, prices, i);
    forall k | 0 <= k < i ensures VerdictAt(plan, prices, k) == Wait {
      FreshWaits(plan, prices, k);
      assert k <= j ==> !TouchedBefore(plan, prices, k);
    }
  }

  /**
   * A fresh entry fills at step i exactly when, after the first touch at some
   * earlier step j, every price strictly between stayed inside the band and the
   * i-th reached the confirmation without breaking the level.
   */
  lemma FreshFillsIff(plan: Plan, prices: seq<real>, i: nat)
    requires plan.routeKind != "exhaustion" && i < |prices|
    ensures FillsAt(plan, prices, i) <==>
              && plan.confirmPts <= Gain(plan, prices[i])
              && -plan.invalidatePts < Gain(plan, prices[i])
              && exists j :: 0 <= j < i && FirstTouched(plan, prices, j, i)
  {
    if FillsAt(plan, prices, i) {
      var j := FillMeansTouched(plan, prices, i);
    } else if j: nat :| j < i && FirstTouched(plan, prices, j, i) {
      if -plan.invalidatePts < Gain(plan, prices[i]) && plan.confirmPts <= Gain(plan, prices[i]) {
        TouchedMeansFill(plan, prices, i, j);
      }
    }
  }

  lemma FirstTouch(plan: Plan, prices: seq<real>, i: nat) returns (j: nat)
    requires i < |prices| && exists k :: 0 <= k < i && Touches(plan, prices[k])
    ensures j < i && Touches(plan, prices[j]) && forall k :: 0 <= k < j ==> !Touches(plan, prices[k])
  {
    j := 0;
    while !Touches(plan, prices[j])
      invariant j < i && forall k :: 0 <= k < j ==> !Touches(plan, prices[k])
      decreases i - j
    {
      j := j + 1;
    }
  }

  /** Twice as far past the level as an ordinary invalidation. */
  ghost predicate Collapses(plan: Plan, price: real) { Gain(plan, price) <= -2.0 * plan.invalidatePts }

  lemma ExhaustionVerdict(plan: Plan, prices: seq<real>, i: nat)
    requires plan.routeKind == "exhaustion" && plan.confirmPts > 0.0 && i < |prices|
    ensures var swept := exists j :: 0 <= j < i && Sweeps(plan, prices[j]);
            VerdictAt(plan, prices, i) ==
              if Collapses(plan, prices[i]) then Cancel
              else if swept && plan.confirmPts <= Gain(plan, prices[i]) then Fill else Wait
  {
    SweptWhenSwept(plan, prices[..i]);
    assert forall j :: 0 <= j < i ==> prices[..i][j] == prices[j];
  }

  ghost predicate SweptBefore(plan: Plan, prices: seq<real>, i: nat)
    requires i <= |prices|
  {
    exists j :: 0 <= j < i && Sweeps(plan, prices[j])
  }

  ghost predicate NoCollapse(plan: Plan, prices: seq<real>, n: nat)
    requires n <= |prices|
  {
    forall k :: 0 <= k < n ==> !Collapses(plan, prices[k])
  }

  /** Step j is the first sweep, and no price after it and before i reached the confirmation. */
  ghost predicate FirstSwept(plan: Plan, prices: seq<real>, j: nat, i: nat)
    requires i <= |prices|
  {
    && j < i && Sweeps(plan, prices[j])
    && (forall k :: 0 <= k < j ==> !Sweeps(plan, prices[k]))
    && (forall k :: j < k < i ==> Gain(plan, prices[k]) < plan.confirmPts)
  }

  lemma ExhaustionWaits(plan: Plan, prices: seq<real>, k: nat)
    requires plan.routeKind == "exhaustion" && plan.confirmPts > 0.0 && k < |prices|
    ensures VerdictAt(plan, prices, k) == Wait <==>
              !Collapses(plan, prices[k]) && (SweptBefore(plan, prices, k) ==> Gain(plan, prices[k]) < plan.confirmPts)
    ensures VerdictAt(plan, prices, k) == Fill <==>
              !Collapses(plan, prices[k]) && SweptBefore(plan, prices, k) && plan.confirmPts <= Gain(plan, prices[k])
  {
    ExhaustionVerdict(plan, prices, k);
  }

  lemma FillMeansSwept(plan: Plan, prices: seq<real>, i: nat) returns (j: nat)
    requires plan.routeKind == "exhaustion" && plan.confirmPts > 0.0 && i < |prices| && FillsAt(plan, prices, i)
    ensures FirstSwept(plan, prices, j, i) && NoCollapse(plan, prices, i + 1)
    ensures plan.confirmPts <= Gain(plan, prices[i])
  {
    ExhaustionWaits(plan, prices, i);
    j := FirstSweep(plan, prices, i);
    forall k | 0 <= k < i ensures !Collapses(plan, prices[k]) { ExhaustionWaits(plan, prices, k); }
    forall k | j < k < i ensures Gain(plan, prices[k]) < plan.confirmPts {
      ExhaustionWaits(plan, prices, k);
      assert SweptBefore(plan, prices, k);
    }
  }

  lemma SweptMeansFill(plan: Plan, prices: seq<real>, i: nat, j: nat)
    requires plan.routeKind == "exhaustion" && plan.confirmPts > 0.0 && i < |prices|
    requires FirstSwept(plan, prices, j, i) && NoCollapse(plan, prices, i + 1)
    requires plan.confirmPts <= Gain(plan, prices[i])
    ensures FillsAt(plan, prices, i)
  {
    ExhaustionWaits(plan, prices, i);
    assert SweptBefore(plan, prices, i);
    forall k | 0 <= k < i ensures VerdictAt(plan, prices, k) == Wait {
      ExhaustionWaits(plan, prices, k);
      assert k <= j ==> !SweptBefore(plan, prices, k);
    }
  }

  /**
   * An exhaustion entry fills at step i exactly when the level was first swept
   * at a strictly earlier step j, no price up to i collapsed, the i-th reached
   * the confirmation and none since the sweep had.
   */
  lemma ExhaustionFillsIff(plan: Plan, prices: seq<real>, i: nat)
    requires plan.routeKind == "exhaustion" && plan.confirmPts > 0.0 && i < |prices|
    ensures FillsAt(plan, prices, i) <==>
              && plan.confirmPts <= Gain(plan, prices[i])
              && NoCollapse(plan, prices, i + 1)
              && exists j :: 0 <= j < i && FirstSwept(plan, prices, j, i)
  {
    if FillsAt(plan, prices, i) {
      var j := FillMeansSwept(plan, prices, i);
    } else if j: nat :| j < i && FirstSwept(plan, prices, j, i) {
      if NoCollapse(plan, prices, i + 1) && plan.confirmPts <= Gain(plan, prices[i]) {
        SweptMeansFill(plan, prices, i, j);
      }
    }
  }

  lemma FirstSweep(plan: Plan, prices: seq<real>, i: nat) returns (j: nat)
    requires i < |prices| && exists k :: 0 <= k < i && Sweeps(plan, prices[k])
    ensures j < i && Sweeps(plan, prices[j]) && forall k :: 0 <= k < j ==> !Sweeps(plan, prices[k])
  {
    j := 0;
    while !Sweeps(plan, prices[j])
      invariant j < i && forall k :: 0 <= k < j ==> !Sweeps(plan, prices[k])
      decreases i - j
    {
      j := j + 1;
    }
  }

  function Mirror(prices: seq<real>, zone: real): (r: seq<real>)
    ensures |r| == |prices|
  {
    seq(|prices|, i requires 0 <= i < |prices| => 2.0 * zone - prices[i])
  }

  predicate Mirrors(sell: Plan, buy: Plan) {
    !sell.IsBuy() && buy.IsBuy() && buy == sell.(direction := buy.direction)
  }

  lemma EvaluatedMirrors(sell: Plan, buy: Plan, s: Progress, price: real)
    requires Mirrors(sell, buy)
    ensures Evaluated(sell, s, price) == Evaluated(buy, s, 2.0 * sell.zonePrice - price)
  {
    assert Gain(sell, price) == Gain(buy, 2.0 * sell.zonePrice - price);
  }

  lemma AfterNext(plan: Plan, prices: seq<real>, i: nat)
    requires i < |prices|
    ensures After(plan, prices[..i + 1]) == Evaluated(plan, After(plan, prices[..i]), prices[i]).0
  {
    assert prices[..i + 1][..i] == prices[..i];
  }

  lemma {:induction false} ProgressMirrors(sell: Plan, buy: Plan, prices: seq<real>, i: nat)
    requires Mirrors(sell, buy) && i <= |prices|
    ensures After(sell, prices[..i]) == After(buy, Mirror(prices, sell.zonePrice)[..i])
  {
    if i > 0 {
      ProgressMirrors(sell, buy, prices, i - 1);
      AfterNext(sell, prices, i - 1);
      AfterNext(buy, Mirror(prices, sell.zonePrice), i - 1);
      EvaluatedMirrors(sell, buy, After(sell, prices[..i - 1]), prices[i - 1]);
    }
  }

  /** A sell entry on some prices is, step for step, the buy entry on those prices mirrored in the zone. */
  lemma SellIsMirroredBuy(sell: Plan, buy: Plan, prices: seq<real>, i: nat)
    requires Mirrors(sell, buy) && i <= |prices|
    ensures After(sell, prices[..i]) == After(buy, Mirror(prices, sell.zonePrice)[..i])
    ensures i < |prices| ==> VerdictAt(sell, prices, i) == VerdictAt(buy, Mirror(prices, sell.zonePrice), i)
  {
    ProgressMirrors(sell, buy, prices, i);
    if i < |prices| {
      EvaluatedMirrors(sell, buy, After(sell, prices[..i]), prices[i]);
    }
  }
}
