/** Classifying what price did: a first-hit scan over bars, stop before target, spread where it is paid. */
module Classifier {
  import opened Collections
  import opened Directions

  datatype Bar = Bar(high: real, low: real, close: real)

  datatype Outcome = StopHit | TargetHit | Timeout

  /** A signal to be judged; target is the effective one. */
  datatype Call = Call(refPrice: real, buy: bool, stop: real, target: real, spread: real) {
    function Entry(): real { if buy then refPrice + spread else refPrice }

    /** Both ends must be set for the scan to run at all. */
    predicate Scanned() { stop > 0.0 && target > 0.0 }

    predicate TouchesStop(bar: Bar) {
      if buy then bar.low <= Entry() - stop else bar.high + spread >= Entry() + stop
    }

    predicate TouchesTarget(bar: Bar) {
      if buy then bar.high >= Entry() + target else bar.low + spread <= Entry() - target
    }

    predicate Touches(bar: Bar) { TouchesStop(bar) || TouchesTarget(bar) }

    /** Marked to the last close, paying the spread. */
    function Marked(close: real): real {
      if buy then close - Entry() else Entry() - close - spread
    }
  }

  datatype Verdict = Verdict(outcome: Outcome, netPts: real, netUsd: real, won: bool, correct: bool, closePts: real,
                             mfePts: real, maePts: real, rAchieved: real, bars: nat)

  function IsBuy(direction: string): bool { IsBuyWord(Lower(Strip(direction))) }

  /** Round half to even. */
  function Round(x: real): int {
    var n := x.Floor;
    var rest := x - n as real;
    if rest < 0.5 || (rest == 0.5 && n % 2 == 0) then n else n + 1
  }

  /** A signal with a stop and no target gets one from the stop. */
  function EffectiveTarget(stop: real, target: real, defaultRr: real): real {
    if stop > 0.0 && target <= 0.0 then Round(stop * defaultRr) as real else target
  }

  // ── what a verdict says, in the numbers handed in ─────────────────────────

  /** n is x to the nearest integer, and of two equally near the even one. */
  predicate IsNearest(n: int, x: real) {
    n as real - 0.5 <= x <= n as real + 0.5 && ((x == n as real - 0.5 || x == n as real + 0.5) ==> n % 2 == 0)
  }

  lemma RoundIsNearest(x: real, n: int)
    ensures Round(x) == n <==> IsNearest(n, x)
  {
    assert IsNearest(Round(x), x);
  }

  /** The target in force: the caller's, unless there is a stop and no target. */
  ghost predicate IsTarget(t: real, stop: real, target: real, rr: real) {
    if stop > 0.0 && target <= 0.0 then t == t.Floor as real && IsNearest(t.Floor, stop * rr) else t == target
  }

  lemma EffectiveTargetIsTarget(stop: real, target: real, rr: real)
    ensures IsTarget(EffectiveTarget(stop, target, rr), stop, target, rr)
  {
    RoundIsNearest(stop * rr, Round(stop * rr));
  }

  predicate StopAt(bar: Bar, refPrice: real, buy: bool, stop: real, spread: real) {
    if buy then bar.low <= refPrice + spread - stop else bar.high + spread >= refPrice + stop
  }

  predicate TargetAt(bar: Bar, refPrice: real, buy: bool, target: real, spread: real) {
    if buy then bar.high >= refPrice + spread + target else bar.low + spread <= refPrice - target
  }

  /** Bar i is the first to reach either end. */
  ghost predicate DecidedAt(bars: seq<Bar>, i: int, refPrice: real, buy: bool, stop: real, target: real, spread: real) {
    && 0 <= i < |bars|
    && (StopAt(bars[i], refPrice, buy, stop, spread) || TargetAt(bars[i], refPrice, buy, target, spread))
    && forall j :: 0 <= j < i ==>
         !StopAt(bars[j], refPrice, buy, stop, spread) && !TargetAt(bars[j], refPrice, buy, target, spread)
  }

  /** The bar that decides decides for the stop if it reaches that too, and no bar decides a timeout. */
  ghost predicate FollowsTouches(o: Outcome, bars: seq<Bar>, refPrice: real, buy: bool, stop: real, target: real,
                                 spread: real) {
    && (o == Timeout <==> stop <= 0.0 || target <= 0.0
                          || forall i :: !DecidedAt(bars, i, refPrice, buy, stop, target, spread))
    && (stop > 0.0 && target > 0.0 ==>
          forall i :: DecidedAt(bars, i, refPrice, buy, stop, target, spread) ==>
            o == if StopAt(bars[i], refPrice, buy, stop, spread) then StopHit else TargetHit)
  }

  /** Money and both kinds of being right: a stop is never won, a target always is, the close decides direction. */
  ghost predicate Scores(v: Verdict, refPrice: real, buy: bool, close: real, stop: real, target: real, spread: real,
                         volume: real) {
    && (v.outcome == StopHit ==> v.netPts == -stop && !v.won)
    && (v.outcome == TargetHit ==> v.netPts == target && v.won)
    && (v.outcome == Timeout ==> v.netPts == if buy then close - refPrice - spread else refPrice - close - spread)
    && (v.won <==> v.netPts > 0.0)
    && (v.correct <==> if buy then close > refPrice else close < refPrice)
    && v.closePts == (if buy then close - refPrice else refPrice - close)
    && v.netUsd == v.netPts * volume
    && (stop > 0.0 ==> v.rAchieved * stop == v.mfePts) && (stop <= 0.0 ==> v.rAchieved == 0.0)
  }

  /** How far the bar went up from the price, or down. */
  function Reach(bar: Bar, refPrice: real, up: bool): real {
    if up then bar.high - refPrice else refPrice - bar.low
  }

  /** x is the furthest any bar went that way, or 0. */
  ghost predicate IsFurthest(x: real, bars: seq<Bar>, refPrice: real, up: bool) {
    && x >= 0.0
    && (forall i :: 0 <= i < |bars| ==> Reach(bars[i], refPrice, up) <= x)
    && (x == 0.0 || exists i :: 0 <= i < |bars| && Reach(bars[i], refPrice, up) == x)
  }

  /** Everything a verdict says about the bars. */
  ghost predicate Tells(v: Verdict, bars: seq<Bar>, refPrice: real, buy: bool, stop: real, target: real, spread: real,
                        volume: real) {
    && bars != [] && v.bars == |bars|
    && FollowsTouches(v.outcome, bars, refPrice, buy, stop, target, spread)
    && Scores(v, refPrice, buy, bars[|bars| - 1].close, stop, target, spread, volume)
    && IsFurthest(v.mfePts, bars, refPrice, buy)
    && IsFurthest(v.maePts, bars, refPrice, !buy)
  }

  lemma VerdictTells(c: Call, bars: seq<Bar>, volume: real)
    requires bars != []
    ensures Tells(VerdictOf(c, bars, volume), bars, c.refPrice, c.buy, c.stop, c.target, c.spread, volume)
  {
    VerdictScores(c, OutcomeOf(c, bars), bars[|bars| - 1].close, CloseDistance(c, bars),
                  Favourable(c, bars), Adverse(c, bars), volume, |bars|);
    OutcomeFollowsTouches(c, bars);
    FavourableIsFurthest(c, bars);
    AdverseIsFurthest(c, bars);
  }

  lemma VerdictScores(c: Call, o: Outcome, last: real, close: real, mfe: real, mae: real, volume: real, bars: nat)
    requires o != Timeout ==> c.Scanned()
    requires close == if c.buy then last - c.refPrice else c.refPrice - last
    ensures var net := match o case StopHit => -c.stop case TargetHit => c.target case Timeout => c.Marked(last);
            Scores(Report(c, o, net, close, mfe, mae, volume, bars),
                   c.refPrice, c.buy, last, c.stop, c.target, c.spread, volume)
  {
    if c.stop > 0.0 {
      DivideBack(mfe, c.stop);
    }
  }

  lemma DivideBack(x: real, y: real)
    requires y != 0.0
    ensures x / y * y == x
  {
  }

  lemma OutcomeFollowsTouches(c: Call, bars: seq<Bar>)
    ensures FollowsTouches(OutcomeOf(c, bars), bars, c.refPrice, c.buy, c.stop, c.target, c.spread)
  {
    if c.Scanned() {
      var k := FirstTouchDecides(c, bars);
      if k < |bars| {
        forall j | 0 <= j < k ensures !c.Touches(bars[j]) {
          assert bars[..k][j] == bars[j];
        }
        assert DecidedAt(bars, k, c.refPrice, c.buy, c.stop, c.target, c.spread);
      } else {
        forall j | 0 <= j < |bars| ensures !c.Touches(bars[j]) {
          assert bars[..k][j] == bars[j];
        }
      }
    }
  }

  lemma FavourableIsFurthest(c: Call, bars: seq<Bar>)
    requires bars != []
    ensures IsFurthest(Favourable(c, bars), bars, c.refPrice, c.buy)
  {
    if c.buy { PeakIsFurthest(bars, c.refPrice); } else { TroughIsFurthest(bars, c.refPrice); }
  }

  lemma AdverseIsFurthest(c: Call, bars: seq<Bar>)
    requires bars != []
    ensures IsFurthest(Adverse(c, bars), bars, c.refPrice, !c.buy)
  {
    if c.buy { TroughIsFurthest(bars, c.refPrice); } else { PeakIsFurthest(bars, c.refPrice); }
  }

  lemma PeakIsFurthest(bars: seq<Bar>, price: real)
    requires bars != []
    ensures IsFurthest(Max(0.0, Peak(bars) - price), bars, price, true)
  {
    var i :| 0 <= i < |bars| && bars[i].high == Peak(bars);
    assert Reach(bars[i], price, true) == Peak(bars) - price;
  }

  lemma TroughIsFurthest(bars: seq<Bar>, price: real)
    requires bars != []
    ensures IsFurthest(Max(0.0, price - Trough(bars)), bars, price, false)
  {
    var i :| 0 <= i < |bars| && bars[i].low == Trough(bars);
    assert Reach(bars[i], price, false) == price - Trough(bars);
  }

  // ── the scan ──────────────────────────────────────────────────────────────

  function Scan(c: Call, bars: seq<Bar>): Outcome {
    if bars == [] then Timeout
    else if c.TouchesStop(bars[0]) then StopHit
    else if c.TouchesTarget(bars[0]) then TargetHit
    else Scan(c, bars[1..])
  }

  function OutcomeOf(c: Call, bars: seq<Bar>): Outcome {
    if c.Scanned() then Scan(c, bars) else Timeout
  }

  function NetOf(c: Call, bars: seq<Bar>): real
    requires bars != []
  {
    match OutcomeOf(c, bars)
    case StopHit => -c.stop
    case TargetHit => c.target
    case Timeout => c.Marked(bars[|bars| - 1].close)
  }

  function Peak(bars: seq<Bar>): (p: real)
    requires bars != []
    ensures forall i :: 0 <= i < |bars| ==> bars[i].high <= p
    ensures exists i :: 0 <= i < |bars| && bars[i].high == p
  {
    if |bars| == 1 then bars[0].high
    else
      assert forall i :: 0 <= i < |bars| - 1 ==> bars[1..][i] == bars[i + 1];
      Max(bars[0].high, Peak(bars[1..]))
  }

  function Trough(bars: seq<Bar>): (t: real)
    requires bars != []
    ensures forall i :: 0 <= i < |bars| ==> t <= bars[i].low
    ensures exists i :: 0 <= i < |bars| && bars[i].low == t
  {
    if |bars| == 1 then bars[0].low
    else
      assert forall i :: 0 <= i < |bars| - 1 ==> bars[1..][i] == bars[i + 1];
      Min(bars[0].low, Trough(bars[1..]))
  }

  function Favourable(c: Call, bars: seq<Bar>): real
    requires bars != []
  {
    Max(0.0, if c.buy then Peak(bars) - c.refPrice else c.refPrice - Trough(bars))
  }

  function Adverse(c: Call, bars: seq<Bar>): real
    requires bars != []
  {
    Max(0.0, if c.buy then c.refPrice - Trough(bars) else Peak(bars) - c.refPrice)
  }

  function CloseDistance(c: Call, bars: seq<Bar>): real
    requires bars != []
  {
    if c.buy then bars[|bars| - 1].close - c.refPrice else c.refPrice - bars[|bars| - 1].close
  }

  function Report(c: Call, outcome: Outcome, net: real, close: real, mfe: real, mae: real, volume: real,
                  bars: nat): Verdict {
    Verdict(outcome, net, net * volume, net > 0.0, close > 0.0, close, mfe, mae,
            if c.stop > 0.0 then mfe / c.stop else 0.0, bars)
  }

  function VerdictOf(c: Call, bars: seq<Bar>, volume: real): Verdict
    requires bars != []
  {
    Report(c, OutcomeOf(c, bars), NetOf(c, bars), CloseDistance(c, bars),
           Favourable(c, bars), Adverse(c, bars), volume, |bars|)
  }

  /** The loop over bars; no net means that neither end was reached. */
  method FirstHit(c: Call, rates: seq<Bar>) returns (outcome: Outcome, net: Option<real>)
    requires c.Scanned()
    ensures outcome == Scan(c, rates)
    ensures net == (match outcome case StopHit => Some(-c.stop) case TargetHit => Some(c.target) case Timeout => None)
  {
    outcome, net := Timeout, None;
    var i := 0;
    while i < |rates|
      invariant 0 <= i <= |rates|
      invariant Scan(c, rates) == Scan(c, rates[i..])
    {
      var high, low := rates[i].high, rates[i].low;
      assert rates[i..][0] == rates[i] && rates[i..][1..] == rates[i + 1..];
      if c.buy {
        if low <= c.Entry() - c.stop {
          return StopHit, Some(-c.stop);
        }
        if high >= c.Entry() + c.target {
          return TargetHit, Some(c.target);
        }
      } else {
        if high + c.spread >= c.Entry() + c.stop {
          return StopHit, Some(-c.stop);
        }
        if low + c.spread <= c.Entry() - c.target {
          return TargetHit, Some(c.target);
        }
      }
      i := i + 1;
    }
  }

  /** None when there is nothing to judge from: that is "cannot say yet", never a loss. */
  method Classify(refPrice: real, direction: string, rates: seq<Bar>, slPts: real, tpPts: real, spreadPts: real,
                  volume: real, defaultRr: real) returns (v: Option<Verdict>)
    ensures v.None? <==> rates == []
    ensures v.Some? ==>
              v.value == VerdictOf(Call(refPrice, IsBuy(direction), slPts,
                                        EffectiveTarget(slPts, tpPts, defaultRr), spreadPts),
                                   rates, volume)
    ensures v.Some? ==>
              exists tp: real :: IsTarget(tp, slPts, tpPts, defaultRr)
                && Tells(v.value, rates, refPrice, Lower(Strip(direction)) in {"up", "buy", "long"},
                         slPts, tp, spreadPts, volume)
  {
    if rates == [] {
      return None;
    }
    var buy := IsBuy(direction);
    var entry := refPrice + if buy then spreadPts else 0.0;
    var tp := if slPts > 0.0 && tpPts <= 0.0 then Round(slPts * defaultRr) as real else tpPts;
    var c := Call(refPrice, buy, slPts, tp, spreadPts);
    var outcome, net := Timeout, None;
    if slPts > 0.0 && tp > 0.0 {
      outcome, net := FirstHit(c, rates);
    }
    var close := rates[|rates| - 1].close;
    var netPts := if net.Some? then net.value else if buy then close - entry else entry - close - spreadPts;
    var mfe := Max(0.0, if buy then Peak(rates) - refPrice else refPrice - Trough(rates));
    var mae := Max(0.0, if buy then refPrice - Trough(rates) else Peak(rates) - refPrice);
    var closePts := if buy then close - refPrice else refPrice - close;
    assert netPts == NetOf(c, rates) && mfe == Favourable(c, rates) && mae == Adverse(c, rates);
    v := Some(Report(c, outcome, netPts, closePts, mfe, mae, volume, |rates|));
    VerdictTells(c, rates, volume);
    EffectiveTargetIsTarget(slPts, tpPts, defaultRr);
  }

  // ── what an outcome means ─────────────────────────────────────────────────

  ghost predicate Untouched(c: Call, bars: seq<Bar>) {
    forall bar :: bar in bars ==> !c.Touches(bar)
  }

  /**
   * The scan, without recursion: the first bar to touch either end decides, and
   * if it touches both it is the stop.
   */
  lemma {:induction false} FirstTouchDecides(c: Call, bars: seq<Bar>) returns (i: nat)
    requires c.Scanned()
    ensures i <= |bars| && Untouched(c, bars[..i])
    ensures i == |bars| ==> OutcomeOf(c, bars) == Timeout
    ensures i < |bars| ==>
              c.Touches(bars[i]) && OutcomeOf(c, bars) == (if c.TouchesStop(bars[i]) then StopHit else TargetHit)
  {
    if bars == [] || c.Touches(bars[0]) {
      i := 0;
    } else {
      var k := FirstTouchDecides(c, bars[1..]);
      i := k + 1;
      assert bars[..i] == [bars[0]] + bars[1..][..k];
    }
  }

  lemma {:induction false} ScanStaysDecided(c: Call, bars: seq<Bar>, more: seq<Bar>)
    requires Scan(c, bars) != Timeout
    ensures Scan(c, bars + more) == Scan(c, bars)
  {
    if !c.Touches(bars[0]) {
      assert (bars + more)[1..] == bars[1..] + more;
      ScanStaysDecided(c, bars[1..], more);
    }
  }

  /** Once an end has been reached, later bars change neither the outcome nor the net. */
  lemma DecidedStaysDecided(c: Call, bars: seq<Bar>, more: seq<Bar>)
    requires bars != [] && OutcomeOf(c, bars) != Timeout
    ensures OutcomeOf(c, bars + more) == OutcomeOf(c, bars) && NetOf(c, bars + more) == NetOf(c, bars)
  {
    ScanStaysDecided(c, bars, more);
  }

  /** A bar's extremes contain its close. */
  ghost predicate Coherent(bars: seq<Bar>) {
    forall bar :: bar in bars ==> bar.low <= bar.close <= bar.high
  }

  /**
   * The net lies between the stop and the target, and reaches an end only by a
   * hit: being marked to the close never looks like one.
   */
  lemma NetIsBounded(c: Call, bars: seq<Bar>)
    requires c.Scanned() && bars != [] && Coherent(bars)
    ensures -c.stop <= NetOf(c, bars) <= c.target
    ensures OutcomeOf(c, bars) == StopHit <==> NetOf(c, bars) == -c.stop
    ensures OutcomeOf(c, bars) == TargetHit <==> NetOf(c, bars) == c.target
  {
    var i := FirstTouchDecides(c, bars);
    if i == |bars| {
      assert bars[..i] == bars && bars[|bars| - 1] in bars;
    }
  }

  /**
   * The excursions bear the outcome out: price went as far as the score says, and no score
   * beats the best price seen.
   */
  lemma ExcursionsBearOutTheOutcome(c: Call, bars: seq<Bar>)
    requires c.spread >= 0.0 && bars != [] && Coherent(bars)
    ensures -Adverse(c, bars) <= CloseDistance(c, bars) <= Favourable(c, bars)
    ensures OutcomeOf(c, bars) == TargetHit ==> Favourable(c, bars) >= c.target + c.spread
    ensures OutcomeOf(c, bars) == StopHit ==> Adverse(c, bars) >= c.stop - c.spread
    ensures NetOf(c, bars) <= Favourable(c, bars)
  {
    var last := bars[|bars| - 1];
    assert Trough(bars) <= last.low <= last.close <= last.high <= Peak(bars);
    if c.Scanned() {
      var i := FirstTouchDecides(c, bars);
      if i < |bars| {
        assert Trough(bars) <= bars[i].low && bars[i].high <= Peak(bars);
      }
    }
  }

  /** Whether bar i settles the call before any other does, and how, depends on the spread one way only. */
  lemma {:induction false} WiderScan(c: Call, d: Call, bars: seq<Bar>)
    requires d == c.(spread := d.spread) && c.spread <= d.spread
    ensures Scan(c, bars) == StopHit ==> Scan(d, bars) == StopHit
    ensures Scan(d, bars) == TargetHit ==> Scan(c, bars) == TargetHit
  {
    if bars != [] {
      WiderScan(c, d, bars[1..]);
    }
  }

  /** A wider spread never improves the result, and a stopped-out call stays stopped out. */
  lemma WiderSpreadNeverFlatters(c: Call, d: Call, bars: seq<Bar>)
    requires d == c.(spread := d.spread) && c.spread <= d.spread
    requires bars != [] && Coherent(bars)
    ensures NetOf(d, bars) <= NetOf(c, bars)
    ensures OutcomeOf(c, bars) == StopHit ==> OutcomeOf(d, bars) == StopHit
    ensures OutcomeOf(d, bars) == TargetHit ==> OutcomeOf(c, bars) == TargetHit
  {
    if c.Scanned() {
      WiderScan(c, d, bars);
      NetIsBounded(c, bars);
      NetIsBounded(d, bars);
    }
  }

  // ── a sell is a buy in the mirror ─────────────────────────────────────────

  function ReflectBar(b: Bar, about: real): Bar {
    Bar(2.0 * about - b.low, 2.0 * about - b.high, 2.0 * about - b.close)
  }

  function Reflect(bars: seq<Bar>, about: real): (r: seq<Bar>)
    ensures |r| == |bars|
  {
    seq(|bars|, i requires 0 <= i < |bars| => ReflectBar(bars[i], about))
  }

  lemma {:induction false} MirrorScan(c: Call, bars: seq<Bar>)
    requires !c.buy
    ensures Scan(c.(buy := true), Reflect(bars, c.refPrice)) == Scan(c, bars)
  {
    if bars != [] {
      MirrorScan(c, bars[1..]);
      assert Reflect(bars, c.refPrice)[1..] == Reflect(bars[1..], c.refPrice);
    }
  }

  lemma {:induction false} MirrorExtremes(bars: seq<Bar>, about: real)
    requires bars != []
    ensures Peak(Reflect(bars, about)) == 2.0 * about - Trough(bars)
    ensures Trough(Reflect(bars, about)) == 2.0 * about - Peak(bars)
  {
    if |bars| > 1 {
      MirrorExtremes(bars[1..], about);
      assert Reflect(bars, about)[1..] == Reflect(bars[1..], about);
    }
  }

  /** A sell verdict is, in every field, the buy verdict on the bars reflected about the reference price. */
  lemma SellIsMirroredBuy(c: Call, bars: seq<Bar>, volume: real)
    requires !c.buy && bars != []
    ensures VerdictOf(c, bars, volume) == VerdictOf(c.(buy := true), Reflect(bars, c.refPrice), volume)
  {
    var d, mirrored := c.(buy := true), Reflect(bars, c.refPrice);
    MirrorScan(c, bars);
    MirrorExtremes(bars, c.refPrice);
    assert OutcomeOf(c, bars) == OutcomeOf(d, mirrored) && NetOf(c, bars) == NetOf(d, mirrored);
    assert CloseDistance(c, bars) == CloseDistance(d, mirrored);
    assert Favourable(c, bars) == Favourable(d, mirrored) && Adverse(c, bars) == Adverse(d, mirrored);
  }
}
