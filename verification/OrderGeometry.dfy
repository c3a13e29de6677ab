/** From signal to order: where the stop, the fill and the target of every watcher order lie. */
module OrderGeometry {
  import opened Collections
  import opened Directions
  import opened EntryGeometry
  import opened Watcher

  /** Positive buffer, confirmation and target distance. */
  predicate Positive(p: Policy) {
    p.stopBuffer > 0.0 && p.confirmPts > 0.0 && (p.targetPts > 0.0 || (p.targetPts == 0.0 && p.tpR > 0.0))
  }

  /** The signal's direction and the derived one are the same side. */
  predicate Agrees(s: Signal, direction: string) { SignalIsBuy(s) == IsBuyWord(Lower(direction)) }

  /** The stop is the buffer beyond the zone, on the losing side, and under the ceiling. */
  predicate Structural(p: Policy, plan: Plan) {
    && plan.confirmPts == p.confirmPts
    && plan.tpHint == None
    && (if plan.IsBuy() then plan.zonePrice - plan.stopPrice else plan.stopPrice - plan.zonePrice) == p.stopBuffer
    && plan.StopPts() <= p.maxStop
  }

  /** What the trader may rely on when an order goes out. */
  predicate WellPlaced(p: Policy, plan: Plan, o: Order, balance: real) {
    && o.buy == plan.IsBuy()
    && o.stop == plan.stopPrice
    && (o.buy ==> o.stop == plan.zonePrice - p.stopBuffer && plan.zonePrice + p.confirmPts <= o.price
                  && o.stop < o.price < o.target)
    && (!o.buy ==> o.stop == plan.zonePrice + p.stopBuffer && o.price <= plan.zonePrice - p.confirmPts
                   && o.target < o.price < o.stop)
    && plan.StopPts() <= p.maxStop
    && balance > 0.0 && plan.StopPts() * p.volume <= p.maxRiskFrac * balance
  }

  lemma LowerTwice(s: string)
    ensures Lower(Lower(s)) == Lower(s)
  {
  }

  /** Arming puts the stop on the losing side of the zone exactly when the two directions agree. */
  lemma StopIsBeyondZoneIff(p: Policy, id: string, s: Signal, direction: string, routeKind: string, price: real,
                            swing: Option<real>, now: real)
    requires p.stopBuffer > 0.0 && Derive(p, s, price, swing).Some?
    ensures var plan := PlanOf(p, id, s, direction, routeKind, Derive(p, s, price, swing).value, now);
            && ((if plan.IsBuy() then plan.stopPrice < plan.zonePrice else plan.zonePrice < plan.stopPrice)
                 <==> Agrees(s, direction))
            && (Agrees(s, direction) ==> Structural(p, plan))
  {
    LowerTwice(direction);
  }

  // ── where the two readings of a direction come from ───────────────────────

  /** The direction an entry is armed with: the one the gates derived, or else the signal's own word, unstripped. */
  function ArmingWord(s: Signal,
                      derived: Option<string>): string { if derived.Some? then derived.value else s.direction }

  /** What the direction gate derives always agrees with the signal. */
  lemma GateWordAgrees(s: Signal)
    ensures Agrees(s, ArmingWord(s, Some(Upper(Strip(s.direction)))))
  {
    LowerUpper(Strip(s.direction));
  }

  /** Without a derived direction the two readings agree unless the signal is a buy written with blanks around it. */
  lemma OwnWordAgreesIff(s: Signal)
    ensures Agrees(s, ArmingWord(s, None)) <==> !(SignalIsBuy(s) && Strip(s.direction) != s.direction)
  {
    if IsBuyWord(Lower(s.direction)) {
      BuyWordIsBare(s.direction);
    }
  }

  /** The failing input: " buy" with no derived direction is armed as a sell whose stop is below its zone. */
  lemma BlankBuyIsArmedBackwards(p: Policy, id: string, price: real, gap: real, now: real)
    requires 0.0 < gap < price && p.zoneMin <= gap <= p.zoneMax && 0.0 < p.stopBuffer <= p.maxStop
    ensures var s := Signal(" buy", "1h", "", Some(price - gap), None, None, None);
            var zone := Derive(p, s, price, None);
            && zone.Some?
            && var plan := PlanOf(p, id, s, ArmingWord(s, None), "fresh", zone.value, now);
               !plan.IsBuy() && plan.stopPrice < plan.zonePrice
  {
    var s := Signal(" buy", "1h", "", Some(price - gap), None, None, None);
    BlankBuyIsABuy();
    LowerTwice(" buy");
    assert Lower(" buy")[0] == ' ';
  }

  lemma BlankBuyIsABuy()
    ensures IsBuyWord(Lower(Strip(" buy")))
  {
    assert " buy"[1..] == "buy" && Strip("buy") == "buy" && Lower("buy") == "buy";
  }

  // ── one order ─────────────────────────────────────────────────────────────

  lemma RiskIsCapped(p: Policy, plan: Plan, q: Quote)
    requires Viable(p, plan, q)
    ensures plan.StopPts() * p.volume <= p.maxRiskFrac * q.balance.value
  {
    var risk, balance := plan.StopPts() * p.volume, q.balance.value;
    assert risk == risk / balance * balance;
    TimesPositive(risk / balance, p.maxRiskFrac, balance);
  }

  lemma TimesPositive(a: real, b: real, c: real)
    requires a <= b && c > 0.0
    ensures a * c <= b * c
  {
  }

  lemma FillIsWellPlaced(p: Policy, plan: Plan, s: Progress, price: real, q: Quote)
    requires Positive(p) && Structural(p, plan) && Evaluated(plan, s, price).1.Fill?
    requires WayOut(p, plan, price, q).Filled?
    ensures WellPlaced(p, plan, OrderOf(p, plan, price), q.balance.value)
  {
    RiskIsCapped(p, plan, q);
    assert plan.StopPts() == p.stopBuffer;
    if p.targetPts == 0.0 {
      assert TargetDistance(p, plan) == p.stopBuffer * p.tpR;
      TimesPositive(0.0, p.tpR, p.stopBuffer);
    }
  }

  // ── over runs ─────────────────────────────────────────────────────────────

  ghost predicate Placed(p: Policy, w: Watch) {
    && (forall id :: id in w.pending.at ==> Structural(p, w.pending.at[id].plan))
    && (forall x :: x in w.exits && x.way.Filled? ==> WellPlaced(p, x.plan, x.way.order, x.way.balance))
  }

  lemma LeavingKeepsPlaced(p: Policy, w: Watch, id: string, at: real, way: Way)
    requires Placed(p, w)
    requires id in w.pending.at && way.Filled? ==> WellPlaced(p, w.pending.at[id].plan, way.order, way.balance)
    ensures Placed(p, Left(w, id, at, way))
  {
  }

  lemma RoundKeepsPlaced(p: Policy, w: Watch, id: string, now: real, tick: Tick, q: Quote)
    requires Positive(p) && Placed(p, w)
    ensures Placed(p, Round(p, w, id, now, tick, q))
  {
    if id in w.pending.at && !w.pending.at[id].plan.Expired(now) {
      var e := w.pending.at[id];
      var price := if e.plan.IsBuy() then tick.ask else tick.bid;
      var (s, v) := Evaluated(e.plan, e.progress, price);
      assert Placed(p, Moved(w, id, s));
      if v.Fill? {
        if WayOut(p, e.plan, price, q).Filled? {
          FillIsWellPlaced(p, e.plan, e.progress, price, q);
        }
        LeavingKeepsPlaced(p, Moved(w, id, s), id, now, WayOut(p, e.plan, price, q));
      }
    }
  }

  lemma {:induction false} RoundsKeepPlaced(p: Policy, w: Watch, ids: seq<string>, now: real, tick: Tick, venue: Venue)
    requires Positive(p) && Placed(p, w)
    ensures Placed(p, Rounds(p, w, ids, now, tick, venue))
  {
    if ids != [] {
      var n := |ids| - 1;
      RoundsKeepPlaced(p, w, ids[..n], now, tick, venue);
      RoundKeepsPlaced(p, Rounds(p, w, ids[..n], now, tick, venue), ids[n], now, tick, venue(n));
    }
  }

  lemma {:induction false} AllLeftKeepsPlaced(p: Policy, w: Watch, ids: seq<string>, at: real, reason: string)
    requires Placed(p, w)
    ensures Placed(p, AllLeft(w, ids, at, reason))
  {
    if ids != [] {
      AllLeftKeepsPlaced(p, w, ids[..|ids| - 1], at, reason);
      LeavingKeepsPlaced(p, AllLeft(w, ids[..|ids| - 1], at, reason), ids[|ids| - 1], at, Closed(reason));
    }
  }

  lemma StepKeepsPlaced(p: Policy, w: World, event: Event)
    requires Positive(p) && Placed(p, w.watch)
    requires event.Arm? ==> Agrees(event.signal, event.direction)
    ensures Placed(p, Step(p, w, event).watch)
  {
    match event
    case Arm(id, s, direction, routeKind, price, swing, now) =>
      if CanArm(p, w.watch, id, s, price, swing) {
        StopIsBeyondZoneIff(p, id, s, direction, routeKind, price, swing, now);
      }
    case Poll(now, today, tick, venue) =>
      var w1 := AllLeft(w.watch, Stale(p, w.watch.pending, w.watch.pending.keys, now), now, "max_hold");
      AllLeftKeepsPlaced(p, w.watch, Stale(p, w.watch.pending, w.watch.pending.keys, now), now, "max_hold");
      AllLeftKeepsPlaced(p, w1, w1.pending.keys, now, "day_boundary");
      var w2 := Swept(p, w.watch, now, today);
      if tick.Some? {
        RoundsKeepPlaced(p, w2, w2.pending.keys, now, tick.value, venue);
      }
    case Cancel(id, now, reason) => LeavingKeepsPlaced(p, w.watch, id, now, Closed(reason));
  }

  /**
   * Every order of every run: the stop strictly on the losing side and exactly
   * the buffer beyond the zone, the target strictly on the winning side, the
   * fill at least the confirmation beyond the zone, and the risk under its cap.
   */
  lemma {:induction false} EveryOrderIsWellPlaced(p: Policy, today: string, events: seq<Event>)
    requires Positive(p) && forall event :: event in events && event.Arm? ==> Agrees(event.signal, event.direction)
    ensures forall x :: x in Run(p, today, events).watch.exits && x.way.Filled? ==>
              WellPlaced(p, x.plan, x.way.order, x.way.balance)
    ensures Placed(p, Run(p, today, events).watch)
  {
    if events != [] {
      var init, last := events[..|events| - 1], events[|events| - 1];
      assert last in events && forall event :: event in init ==> event in events;
      EveryOrderIsWellPlaced(p, today, init);
      StepKeepsPlaced(p, Run(p, today, init), last);
    }
  }

  // ── risk from the fill ────────────────────────────────────────────────────

  lemma QuotientBound(x: real, v: real, cap: real)
    requires v > 0.0
    ensures x * v <= cap <==> x <= cap / v
  {
    var q := cap / v;
    assert q * v == cap;
    if x <= q {
      TimesPositive(x, q, v);
    } else {
      StrictTimes(q, x, v);
    }
  }

  lemma StrictTimes(a: real, b: real, c: real)
    requires a < b && c > 0.0
    ensures a * c < b * c
  {
  }

  /** The fill is the buffer and the confirmation or more from the stop, further than what the cap was checked on. */
  predicate RisksMore(p: Policy, plan: Plan, o: Order) {
    && Abs(o.price - o.stop) == p.stopBuffer + Abs(o.price - plan.zonePrice)
    && Abs(o.price - o.stop) >= p.stopBuffer + p.confirmPts > plan.StopPts()
  }

  /** The cap covers the distance from the fill exactly when price has not run further than this. */
  predicate CoveredIff(p: Policy, o: Order, balance: real)
    requires p.volume > 0.0
  {
    var reach := p.maxRiskFrac * balance / p.volume;
    Abs(o.price - o.stop) * p.volume <= p.maxRiskFrac * balance
    <==> if o.buy then o.price <= o.stop + reach else o.stop - reach <= o.price
  }

  lemma RiskFromTheFill(p: Policy, plan: Plan, o: Order, balance: real)
    requires Positive(p) && WellPlaced(p, plan, o, balance) && p.volume > 0.0
    ensures RisksMore(p, plan, o) && CoveredIff(p, o, balance)
  {
    CapFromTheFill(p, plan, o, balance);
  }

  lemma CapFromTheFill(p: Policy, plan: Plan, o: Order, balance: real)
    requires WellPlaced(p, plan, o, balance) && p.volume > 0.0
    ensures CoveredIff(p, o, balance)
  {
    QuotientBound(Abs(o.price - o.stop), p.volume, p.maxRiskFrac * balance);
  }

  /**
   * For every order of every run, what is at risk from the fill is more than
   * the distance the cap was checked on, and exactly when the cap still covers it.
   */
  lemma EveryRiskFromTheFill(p: Policy, today: string, events: seq<Event>, x: Exit)
    requires Positive(p) && p.volume > 0.0
    requires forall event :: event in events && event.Arm? ==> Agrees(event.signal, event.direction)
    requires x in Run(p, today, events).watch.exits && x.way.Filled?
    ensures RisksMore(p, x.plan, x.way.order) && CoveredIff(p, x.way.order, x.way.balance)
    ensures NeedsRoom(p, x.plan, x.way.order, x.way.balance)
  {
    EveryOrderIsWellPlaced(p, today, events);
    RiskFromTheFill(p, x.plan, x.way.order, x.way.balance);
    CoverNeedsRoom(p, x.plan, x.way.order, x.way.balance);
  }

  /** The cap covers an order only if it has room for the buffer and the confirmation. */
  predicate NeedsRoom(p: Policy, plan: Plan, o: Order, balance: real) {
    Covers(p, plan, o.price, balance) ==> (p.stopBuffer + p.confirmPts) * p.volume <= p.maxRiskFrac * balance
  }

  lemma CoverNeedsRoom(p: Policy, plan: Plan, o: Order, balance: real)
    requires WellPlaced(p, plan, o, balance) && RisksMore(p, plan, o) && p.volume > 0.0
    ensures NeedsRoom(p, plan, o, balance)
  {
    TimesPositive(p.stopBuffer + p.confirmPts, Abs(o.price - o.stop), p.volume);
  }

  // ── what a plan can still cost ────────────────────────────────────────────

  /** The automaton, in some state, fires the plan at this price. */
  ghost predicate Fillable(plan: Plan, price: real) { exists s :: Evaluated(plan, s, price).1.Fill? }

  lemma FillableIff(plan: Plan, price: real)
    requires plan.confirmPts > 0.0 && plan.invalidatePts >= 0.0
    ensures Fillable(plan, price) <==> plan.confirmPts <= Gain(plan, price)
  {
    if plan.confirmPts <= Gain(plan, price) {
      assert Evaluated(plan, Progress(true, true), price).1.Fill?;
    }
  }

  /** What a fill at this price risks, against the cap. */
  predicate Covers(p: Policy, plan: Plan, price: real, balance: real) {
    Abs(price - plan.stopPrice) * p.volume <= p.maxRiskFrac * balance
  }

  /** The price that is this far on the winning side of the zone. */
  function PriceAt(plan: Plan, gain: real): real {
    if plan.IsBuy() then plan.zonePrice + gain else plan.zonePrice - gain
  }

  lemma RiskAt(p: Policy, plan: Plan, price: real)
    requires p.stopBuffer > 0.0 && Structural(p, plan) && Gain(plan, price) >= 0.0
    ensures Abs(price - plan.stopPrice) == p.stopBuffer + Gain(plan, price)
  {
  }

  /**
   * Known before any price: some admissible fill of the plan is within the cap
   * exactly when the buffer and the confirmation together are.
   */
  lemma SomeFillIsCoveredIff(p: Policy, plan: Plan, balance: real)
    requires Positive(p) && Structural(p, plan) && plan.invalidatePts >= 0.0 && p.volume > 0.0
    ensures (exists price :: Fillable(plan, price) && Covers(p, plan, price, balance))
       <==> (p.stopBuffer + p.confirmPts) * p.volume <= p.maxRiskFrac * balance
  {
    if price :| Fillable(plan, price) && Covers(p, plan, price, balance) {
      FillableIff(plan, price);
      CoveredLeavesRoom(p, plan, price, balance);
    }
    if (p.stopBuffer + p.confirmPts) * p.volume <= p.maxRiskFrac * balance {
      LeastFillIsCovered(p, plan, balance);
    }
  }

  lemma CoveredLeavesRoom(p: Policy, plan: Plan, price: real, balance: real)
    requires Positive(p) && Structural(p, plan) && p.volume > 0.0
    requires p.confirmPts <= Gain(plan, price) && Covers(p, plan, price, balance)
    ensures (p.stopBuffer + p.confirmPts) * p.volume <= p.maxRiskFrac * balance
  {
    RiskAt(p, plan, price);
    TimesPositive(p.stopBuffer + p.confirmPts, p.stopBuffer + Gain(plan, price), p.volume);
  }

  lemma LeastFillIsCovered(p: Policy, plan: Plan, balance: real)
    requires Positive(p) && Structural(p, plan) && plan.invalidatePts >= 0.0
    requires (p.stopBuffer + p.confirmPts) * p.volume <= p.maxRiskFrac * balance
    ensures Fillable(plan, PriceAt(plan, p.confirmPts)) && Covers(p, plan, PriceAt(plan, p.confirmPts), balance)
  {
    FillableIff(plan, PriceAt(plan, p.confirmPts));
    RiskAt(p, plan, PriceAt(plan, p.confirmPts));
  }

  /** The risk check passes and the venue accepts. */
  predicate Goes(p: Policy, plan: Plan, q: Quote) { Viable(p, plan, q) && q.accepts }

  /** No policy keeps every fill within the cap: any plan that passes the check can be filled beyond it. */
  lemma EveryPlanCanExceed(p: Policy, plan: Plan, q: Quote) returns (price: real)
    requires Positive(p) && Structural(p, plan) && plan.invalidatePts >= 0.0 && p.volume > 0.0 && Goes(p, plan, q)
    ensures Fillable(plan, price) && WayOut(p, plan, price, q).Filled?
    ensures !Covers(p, plan, price, q.balance.value)
  {
    var cap := p.maxRiskFrac * q.balance.value;
    var gain := p.confirmPts + (if cap >= 0.0 then cap / p.volume else 0.0);
    if cap >= 0.0 {
      QuotientBound(0.0, p.volume, cap);
    }
    price := PriceAt(plan, gain);
    FillableIff(plan, price);
    RiskAt(p, plan, price);
    QuotientBound(p.stopBuffer + gain, p.volume, cap);
    if cap < 0.0 {
      TimesPositive(0.0, p.stopBuffer + gain, p.volume);
    }
  }

  /**
   * The failing input: a cap that the zone-to-stop distance just meets. Every
   * admissible fill is then placed, and every one of them exceeds the cap.
   */
  lemma TightCapIsAlwaysExceeded(p: Policy, plan: Plan, q: Quote, price: real)
    requires Positive(p) && Structural(p, plan) && plan.invalidatePts >= 0.0 && p.volume > 0.0
    requires p.maxRiskFrac == p.stopBuffer * p.volume && q == Quote(Some(1.0), Some(1.0), true)
    requires Fillable(plan, price)
    ensures WayOut(p, plan, price, q).Filled? && !Covers(p, plan, price, q.balance.value)
  {
    FillableIff(plan, price);
    RiskAt(p, plan, price);
    assert plan.StopPts() == p.stopBuffer;
    StrictTimes(p.stopBuffer, p.stopBuffer + Gain(plan, price), p.volume);
  }
}
