/** Stop and target distances: clamps and blends, with bounds that hold for every signal. */
module Targets {
  import opened Collections

  datatype Timeframe = M5 | M15 | M30 | H1 | H4

  datatype Phase = Fresh | Active | Exhausting

  datatype Direction = Up | Down | Neither

  datatype Tables = Tables(minRr: real, slRange: map<Timeframe, (real, real)>, tpCeiling: map<Timeframe, real>,
                           phaseFraction: map<Phase, real>, sessionRr: map<string, real>,
                           regimeAtrBias: map<string, real>, regimeRrCap: map<string, real>,
                           rrCapTimeframes: set<Timeframe>,
                           srBuffer: real, phaseBlend: real, srBlend: real, atrWeight: real)

  /** A signal with its words read; regime and session stay the tables' own keys. */
  datatype Signal = Signal(direction: Direction, timeframe: Timeframe, phase: Phase, atr: Option<real>, regime: string,
                           session: string, entryPrice: Option<real>,
                           supportPts: Option<real>, resistancePts: Option<real>)

  /** The tables the policy ships with. */
  const SHIPPED := Tables(
    1.5,
    map[M5 := (400.0, 500.0), M15 := (400.0, 600.0), M30 := (450.0, 700.0),
        H1 := (500.0, 900.0), H4 := (700.0, 1400.0)],
    map[M5 := 900.0, M15 := 1200.0, M30 := 1500.0, H1 := 2200.0, H4 := 4000.0],
    map[Fresh := 0.9, Active := 0.65, Exhausting := 0.3],
    map["London" := 2.0, "NY Open" := 1.5, "Asian" := 1.5, "Pre-London" := 1.5, "NY PM" := 1.2, "NY Close" := 1.2,
        "Overnight" := 1.2, "CME Gap" := 1.2],
    map["trending" := 1.0, "volatile" := 1.3, "ranging" := 0.7, "unknown" := 1.0],
    map["ranging" := 1.5, "volatile" := 1.2],
    {M5, M15},
    15.0, 0.6, 0.7, 0.5)

  function Get<K, V>(m: map<K, V>, key: K, default: V): V { if key in m then m[key] else default }

  function Bounds(t: Tables, tf: Timeframe): (real, real) { Get(t.slRange, tf, (180.0, 350.0)) }

  /** Absent, unreadable and non-positive levels are all "no level". */
  function Level(raw: Option<real>): real { if raw.Some? && raw.value > 0.0 then raw.value else 0.0 }

  /** A number that is missing or zero falls back. */
  function OrElse(x: Option<real>, default: real): real { if x.Some? && x.value != 0.0 then x.value else default }

  function Clamp(lo: real, hi: real, x: real): real { Max(lo, Min(hi, x)) }

  function Mix(w: real, x: real, y: real): real { w * x + (1.0 - w) * y }

  function Along(lo: real, hi: real, share: real): real { lo + (hi - lo) * share }

  /** Phase and volatility, blended inside [lo, hi]. */
  function Plain(lo: real, hi: real, fraction: real, atrMove: real, weight: real): (plain: real)
    ensures lo <= plain && (lo <= hi ==> plain <= hi)
  {
    Clamp(lo, hi, Mix(weight, Along(lo, hi, fraction), Clamp(lo, hi, atrMove)))
  }

  /** Pulled to an opposing level that lies in range with its buffer. */
  function Pulled(lo: real, hi: real, plain: real, opposing: real, buffer: real, weight: real): (stop: real)
    requires lo <= plain && (lo <= hi ==> plain <= hi)
    ensures lo <= stop && (lo <= hi ==> stop <= hi)
  {
    if opposing > 0.0 && lo <= opposing + buffer <= hi then Clamp(lo, hi, Mix(weight, opposing + buffer, plain))
    else plain
  }

  /** The stop inside [lo, hi]. */
  function Stop(lo: real, hi: real, fraction: real, atrMove: real, opposing: real, t: Tables): (stop: real)
    ensures lo <= stop && (lo <= hi ==> stop <= hi)
  {
    Pulled(lo, hi, Plain(lo, hi, fraction, atrMove, t.phaseBlend), opposing, t.srBuffer, t.srBlend)
  }

  function AtrMove(t: Tables, s: Signal): real {
    OrElse(s.atr, 200.0) * t.atrWeight * Get(t.regimeAtrBias, s.regime, 1.0)
  }

  /** The level that shelters the stop. */
  function Behind(s: Signal): real { Level(if s.direction.Up? then s.supportPts else s.resistancePts) }

  function SlPts(t: Tables, s: Signal): (stop: real)
    ensures var (lo, hi) := Bounds(t, s.timeframe); lo <= stop && (lo <= hi ==> stop <= hi)
  {
    var (lo, hi) := Bounds(t, s.timeframe);
    Stop(lo, hi, Get(t.phaseFraction, s.phase, 0.9), AtrMove(t, s), Behind(s), t)
  }

  function EntryOf(s: Signal, fallback: Option<real>): real { OrElse(fallback, OrElse(s.entryPrice, 0.0)) }

  function ComputeSl(t: Tables, s: Signal, fallback: Option<real>): Option<real> {
    var entry := EntryOf(s, fallback);
    if entry <= 0.0 || s.direction.Neither? then None
    else if s.direction.Up? then Some(entry - SlPts(t, s))
    else Some(entry + SlPts(t, s))
  }

  function Ceiling(t: Tables, s: Signal): real { Get(t.tpCeiling, s.timeframe, 800.0) }

  /** The structural level less its buffer if that clears the floor, else a multiple of the stop. */
  function Base(stop: real, floor: real, ratio: real, level: real, buffer: real): real {
    if level > 0.0 && level - buffer >= floor then level - buffer else stop * ratio
  }

  function Scaled(stop: real, cap: Option<real>): Option<real> {
    if cap.Some? then Some(stop * cap.value) else None
  }

  /** Under the ceiling, under the cap if there is one, and over the floor whatever those say. */
  function Picked(floor: real, base: real, ceiling: real, cap: Option<real>): real {
    var target := Max(Min(base, ceiling), floor);
    var capped := if cap.Some? then Max(Min(target, cap.value), floor) else target;
    if capped <= 0.0 then floor else capped
  }

  function Target(stop: real, minRr: real, sessionRr: real, level: real, buffer: real, ceiling: real,
                  cap: Option<real>): real
  {
    Picked(stop * minRr, Base(stop, stop * minRr, Max(sessionRr, minRr), level, buffer), ceiling, Scaled(stop, cap))
  }

  /** The level the target may use. */
  function Ahead(s: Signal): real { Level(if s.direction.Up? then s.resistancePts else s.supportPts) }

  function CapOf(t: Tables, s: Signal): Option<real> {
    if s.regime in t.regimeRrCap && s.timeframe in t.rrCapTimeframes then Some(t.regimeRrCap[s.regime]) else None
  }

  function TargetFor(t: Tables, s: Signal, stop: real): real {
    Target(stop, t.minRr, Get(t.sessionRr, s.session, t.minRr),
           Ahead(s), t.srBuffer, Ceiling(t, s), CapOf(t, s))
  }

  function TpPts(t: Tables, s: Signal): real { TargetFor(t, s, SlPts(t, s)) }

  function ComputeTp(t: Tables, s: Signal, fallback: Option<real>): Option<real> {
    var entry := EntryOf(s, fallback);
    if entry <= 0.0 || s.direction.Neither? then None
    else if s.direction.Up? then Some(entry + TpPts(t, s))
    else Some(entry - TpPts(t, s))
  }

  // ── bounds ────────────────────────────────────────────────────────────────

  /** Tables with positive stops and a positive minimum ratio. */
  predicate Sensible(t: Tables) {
    t.minRr > 0.0 && forall tf | tf in t.slRange :: 0.0 < t.slRange[tf].0 <= t.slRange[tf].1
  }

  lemma StopIsPositive(t: Tables, s: Signal)
    requires Sensible(t)
    ensures 0.0 < SlPts(t, s) <= Bounds(t, s.timeframe).1
  {
  }

  lemma TargetBounds(stop: real, minRr: real, sessionRr: real, level: real, buffer: real, ceiling: real,
                     cap: Option<real>)
    requires stop > 0.0 && minRr > 0.0
    ensures 0.0 < stop * minRr <=
            Target(stop, minRr, sessionRr, level, buffer, ceiling, cap) <= Max(ceiling, stop * minRr)
  {
  }

  lemma CapPins(stop: real, minRr: real, sessionRr: real, level: real, buffer: real, ceiling: real, cap: real)
    requires stop > 0.0 && minRr > 0.0 && cap <= minRr
    ensures Target(stop, minRr, sessionRr, level, buffer, ceiling, Some(cap)) == stop * minRr
  {
    assert stop * cap <= stop * minRr;
    assert stop * minRr > 0.0;
  }

  lemma Product(a: real, b: real)
    requires a > 0.0 && b > 0.0
    ensures a * b > 0.0
  {
  }

  /** At least the minimum ratio, and at most the ceiling unless the minimum itself is more. */
  predicate Sized(target: real, stop: real, minRr: real, ceiling: real) {
    0.0 < stop * minRr <= target <= Max(ceiling, stop * minRr)
  }

  lemma TargetForStop(t: Tables, s: Signal, stop: real)
    requires t.minRr > 0.0 && stop > 0.0
    ensures Sized(TargetFor(t, s, stop), stop, t.minRr, Ceiling(t, s))
  {
    TargetBounds(stop, t.minRr, Get(t.sessionRr, s.session, t.minRr), Ahead(s), t.srBuffer, Ceiling(t, s), CapOf(t, s));
  }

  lemma CappedTargetForStop(t: Tables, s: Signal, stop: real)
    requires t.minRr > 0.0 && stop > 0.0 && CapOf(t, s).Some? && CapOf(t, s).value <= t.minRr
    ensures TargetFor(t, s, stop) == stop * t.minRr
  {
    CapPins(stop, t.minRr, Get(t.sessionRr, s.session, t.minRr), Ahead(s), t.srBuffer,
            Ceiling(t, s), CapOf(t, s).value);
  }

  /** The stop inside its timeframe's bounds and the target sized to it, for every signal. */
  lemma TargetIsBounded(t: Tables, s: Signal)
    requires Sensible(t)
    ensures var (lo, hi) := Bounds(t, s.timeframe); lo <= SlPts(t, s) <= hi
    ensures Sized(TpPts(t, s), SlPts(t, s), t.minRr, Ceiling(t, s))
  {
    StopIsPositive(t, s);
    TargetForStop(t, s, SlPts(t, s));
  }

  /** A regime cap at or below the minimum ratio pins the target to the minimum. */
  lemma LowCapPinsTarget(t: Tables, s: Signal, stop: real)
    requires Sensible(t) && CapOf(t, s).Some? && CapOf(t, s).value <= t.minRr && stop == SlPts(t, s)
    ensures TpPts(t, s) == stop * t.minRr
  {
    StopIsPositive(t, s);
    CappedTargetForStop(t, s, stop);
  }

  /** The widest stop still earns the minimum ratio under its ceiling. */
  predicate Roomy(t: Tables, tf: Timeframe) {
    && tf in t.slRange && tf in t.tpCeiling
    && 0.0 < t.slRange[tf].0 <= t.slRange[tf].1 && t.slRange[tf].1 * t.minRr <= t.tpCeiling[tf]
  }

  predicate AllRoomy(t: Tables) { forall tf: Timeframe :: Roomy(t, tf) }

  /** No cap asks for more than the minimum ratio. */
  predicate CapsAreLow(t: Tables) { forall regime | regime in t.regimeRrCap :: t.regimeRrCap[regime] <= t.minRr }

  predicate Under(target: real, stop: real, minRr: real, ceiling: real) { stop * minRr <= target <= ceiling }

  lemma WidestStopFits(stop: real, widest: real, target: real, minRr: real, ceiling: real)
    requires 0.0 < stop <= widest && 0.0 < minRr && widest * minRr <= ceiling && Sized(target, stop, minRr, ceiling)
    ensures Under(target, stop, minRr, ceiling)
  {
    assert stop * minRr <= widest * minRr;
  }

  lemma RoomyFits(t: Tables, tf: Timeframe, stop: real, target: real)
    requires t.minRr > 0.0 && Roomy(t, tf) && t.slRange[tf].0 <= stop <= t.slRange[tf].1
    requires Sized(target, stop, t.minRr, t.tpCeiling[tf])
    ensures Under(target, stop, t.minRr, t.tpCeiling[tf])
  {
    WidestStopFits(stop, t.slRange[tf].1, target, t.minRr, t.tpCeiling[tf]);
  }

  /** With roomy tables and low caps no target is above its ceiling. */
  lemma RoomyTargets(t: Tables, s: Signal)
    requires t.minRr > 0.0 && AllRoomy(t)
    ensures Roomy(t, s.timeframe) && t.slRange[s.timeframe].0 <= SlPts(t, s) <= t.slRange[s.timeframe].1
    ensures Under(TpPts(t, s), SlPts(t, s), t.minRr, t.tpCeiling[s.timeframe])
  {
    assert forall tf | tf in t.slRange :: Roomy(t, tf);
    TargetIsBounded(t, s);
    RoomyFits(t, s.timeframe, SlPts(t, s), TpPts(t, s));
  }

  lemma ShippedTablesAreRoomy()
    ensures SHIPPED.minRr == 1.5 && AllRoomy(SHIPPED)
  {
    forall tf: Timeframe ensures Roomy(SHIPPED, tf) {
      match tf { case M5 => case M15 => case M30 => case H1 => case H4 => }
    }
  }

  lemma ShippedCapsAreLow()
    ensures CapsAreLow(SHIPPED)
  {
  }

  /** Under the shipped tables no target is above its ceiling, and every regime cap pins the target to the minimum. */
  lemma ShippedTargets(s: Signal, stop: real)
    requires stop == SlPts(SHIPPED, s)
    ensures s.timeframe in SHIPPED.tpCeiling
    ensures Under(TpPts(SHIPPED, s), stop, SHIPPED.minRr, SHIPPED.tpCeiling[s.timeframe])
    ensures CapOf(SHIPPED, s).Some? ==> TpPts(SHIPPED, s) == stop * SHIPPED.minRr
  {
    ShippedTablesAreRoomy();
    ShippedCapsAreLow();
    RoomyTargets(SHIPPED, s);
    if CapOf(SHIPPED, s).Some? {
      assert forall tf | tf in SHIPPED.slRange :: Roomy(SHIPPED, tf);
      LowCapPinsTarget(SHIPPED, s, stop);
    }
  }

  // ── what the distances are made of ────────────────────────────────────────

  /** z lies the fraction w of the way from y to x. */
  predicate Blends(z: real, x: real, y: real, w: real) { z - y == w * (x - y) }

  /** The point of [lo, hi] nearest to x. */
  predicate IsNearest(y: real, lo: real, hi: real, x: real) {
    lo <= y <= hi && (lo <= x <= hi ==> y == x) && (x < lo ==> y == lo) && (x > hi ==> y == hi)
  }

  predicate IsShare(w: real) { 0.0 <= w <= 1.0 }

  /** The stop before any level: between the volatility's and the phase's places in the range, by the phase's weight. */
  ghost predicate IsPlain(plain: real, lo: real, hi: real, fraction: real, atrMove: real, weight: real) {
    exists phase: real, move: real ::
      Blends(phase, hi, lo, fraction) && IsNearest(move, lo, hi, atrMove) && Blends(plain, phase, move, weight)
  }

  lemma Nonnegative(w: real, d: real)
    requires w >= 0.0 && d >= 0.0
    ensures w * d >= 0.0
  {
  }

  lemma MixGrows(w: real, x: real, y: real, u: real, v: real)
    requires IsShare(w) && x <= u && y <= v
    ensures Mix(w, x, y) <= Mix(w, u, v)
  {
    Nonnegative(w, u - x);
    Nonnegative(1.0 - w, v - y);
    assert Mix(w, u, v) - Mix(w, x, y) == w * (u - x) + (1.0 - w) * (v - y);
  }

  lemma MixOfSame(w: real, x: real)
    ensures Mix(w, x, x) == x
  {
  }

  lemma MixBlends(w: real, x: real, y: real)
    ensures Blends(Mix(w, x, y), x, y, w)
  {
  }

  lemma MixStays(w: real, x: real, y: real, lo: real, hi: real)
    requires IsShare(w) && lo <= x <= hi && lo <= y <= hi
    ensures lo <= Mix(w, x, y) <= hi
  {
    MixGrows(w, lo, lo, x, y);
    MixGrows(w, x, y, hi, hi);
    MixOfSame(w, lo);
    MixOfSame(w, hi);
  }

  lemma PhasePlace(lo: real, hi: real, fraction: real)
    requires lo <= hi && IsShare(fraction)
    ensures lo <= Along(lo, hi, fraction) <= hi && Blends(Along(lo, hi, fraction), hi, lo, fraction)
  {
    var d := hi - lo;
    Nonnegative(fraction, d);
    Nonnegative(1.0 - fraction, d);
    assert d * fraction == fraction * d;
    assert (1.0 - fraction) * d == d - fraction * d;
  }

  lemma PlainFrom(plain: real, lo: real, hi: real, phase: real, move: real, weight: real)
    requires lo <= phase <= hi && lo <= move <= hi && IsShare(weight)
    requires plain == Clamp(lo, hi, Mix(weight, phase, move))
    ensures Blends(plain, phase, move, weight)
  {
    MixStays(weight, phase, move, lo, hi);
    MixBlends(weight, phase, move);
  }

  lemma PlainIs(lo: real, hi: real, fraction: real, atrMove: real, weight: real)
    requires lo <= hi && IsShare(fraction) && IsShare(weight)
    ensures IsPlain(Plain(lo, hi, fraction, atrMove, weight), lo, hi, fraction, atrMove, weight)
  {
    var phase, move := Along(lo, hi, fraction), Clamp(lo, hi, atrMove);
    PhasePlace(lo, hi, fraction);
    PlainFrom(Plain(lo, hi, fraction, atrMove, weight), lo, hi, phase, move, weight);
    assert IsNearest(move, lo, hi, atrMove);
  }

  lemma PulledIs(lo: real, hi: real, plain: real, opposing: real, buffer: real, weight: real)
    requires lo <= plain <= hi && IsShare(weight)
    ensures IsPulled(Pulled(lo, hi, plain, opposing, buffer, weight), lo, hi, plain, opposing > 0.0, opposing + buffer,
                     weight)
  {
    if opposing > 0.0 && lo <= opposing + buffer <= hi {
      MixStays(weight, opposing + buffer, plain, lo, hi);
      MixBlends(weight, opposing + buffer, plain);
    }
  }

  /** A level counts exactly when there is one and it lies in range, its buffer included; it never clamps. */
  predicate IsPulled(stop: real, lo: real, hi: real, plain: real, level: bool, anchored: real, weight: real) {
    if level && lo <= anchored <= hi then Blends(stop, anchored, plain, weight) else stop == plain
  }

  /** Weights and phase fractions are shares, and every range is one. */
  predicate Weighted(t: Tables) {
    && IsShare(t.phaseBlend) && IsShare(t.srBlend)
    && (forall phase | phase in t.phaseFraction :: IsShare(t.phaseFraction[phase]))
    && forall tf | tf in t.slRange :: t.slRange[tf].0 <= t.slRange[tf].1
  }

  /** A usable level: a positive number. */
  predicate Usable(raw: Option<real>) { raw.Some? && raw.value > 0.0 }

  /**
   * The stop of a signal: its phase's share of its timeframe's range blended
   * with half its volatility under its regime's bias, and pulled to the level
   * behind it, support for a long signal, when that level is in range.
   */
  lemma StopOfSignal(t: Tables, s: Signal) returns (move: real, plain: real)
    requires Weighted(t)
    ensures IsMove(move, t, s)
    ensures var (lo, hi) := if s.timeframe in t.slRange then t.slRange[s.timeframe] else (180.0, 350.0);
            var fraction := if s.phase in t.phaseFraction then t.phaseFraction[s.phase] else 0.9;
            var level := if s.direction.Up? then s.supportPts else s.resistancePts;
            && IsPlain(plain, lo, hi, fraction, move, t.phaseBlend)
            && IsPulled(SlPts(t, s), lo, hi, plain, Usable(level),
                        if Usable(level) then level.value + t.srBuffer else t.srBuffer, t.srBlend)
  {
    var (lo, hi) := Bounds(t, s.timeframe);
    var fraction := Get(t.phaseFraction, s.phase, 0.9);
    move := AtrMove(t, s);
    plain := Plain(lo, hi, fraction, move, t.phaseBlend);
    AtrMoveIs(t, s);
    StopParts(lo, hi, fraction, move, Behind(s), t);
    SlPtsIs(t, s, lo, hi, fraction, move);
  }

  /** Half the volatility, 200 if it is missing or zero, under the regime's bias, 1 if it has none. */
  predicate IsMove(move: real, t: Tables, s: Signal) {
    var atr := if s.atr.Some? && s.atr.value != 0.0 then s.atr.value else 200.0;
    move == atr * t.atrWeight * if s.regime in t.regimeAtrBias then t.regimeAtrBias[s.regime] else 1.0
  }

  lemma AtrMoveIs(t: Tables, s: Signal)
    ensures IsMove(AtrMove(t, s), t, s)
  {
  }

  lemma StopParts(lo: real, hi: real, fraction: real, move: real, opposing: real, t: Tables)
    requires lo <= hi && IsShare(fraction) && IsShare(t.phaseBlend) && IsShare(t.srBlend)
    ensures var plain := Plain(lo, hi, fraction, move, t.phaseBlend);
            && IsPlain(plain, lo, hi, fraction, move, t.phaseBlend)
            && IsPulled(Stop(lo, hi, fraction, move, opposing, t), lo, hi, plain, opposing > 0.0, opposing + t.srBuffer,
                        t.srBlend)
  {
    PlainIs(lo, hi, fraction, move, t.phaseBlend);
    PulledIs(lo, hi, Plain(lo, hi, fraction, move, t.phaseBlend), opposing, t.srBuffer, t.srBlend);
  }

  /** A deeper share of the range never tightens the stop. */
  lemma StopGrows(lo: real, hi: real, f: real, g: real, atrMove: real, opposing: real, t: Tables)
    requires lo <= hi && f <= g && IsShare(t.phaseBlend) && IsShare(t.srBlend)
    ensures Stop(lo, hi, f, atrMove, opposing, t) <= Stop(lo, hi, g, atrMove, opposing, t)
  {
    PlainGrows(lo, hi, f, g, atrMove, t.phaseBlend);
    var x, y := Plain(lo, hi, f, atrMove, t.phaseBlend), Plain(lo, hi, g, atrMove, t.phaseBlend);
    MixGrows(t.srBlend, opposing + t.srBuffer, x, opposing + t.srBuffer, y);
  }

  lemma PlainGrows(lo: real, hi: real, f: real, g: real, atrMove: real, weight: real)
    requires lo <= hi && f <= g && IsShare(weight)
    ensures Plain(lo, hi, f, atrMove, weight) <= Plain(lo, hi, g, atrMove, weight)
  {
    var u, v, move := Along(lo, hi, f), Along(lo, hi, g), Clamp(lo, hi, atrMove);
    Nonnegative(hi - lo, g - f);
    assert v - u == (hi - lo) * (g - f);
    MixGrows(weight, u, move, v, move);
  }

  lemma SlPtsIs(t: Tables, s: Signal, lo: real, hi: real, fraction: real, atrMove: real)
    requires (lo, hi) == Bounds(t, s.timeframe) && fraction == Get(t.phaseFraction, s.phase, 0.9)
    requires atrMove == AtrMove(t, s)
    ensures SlPts(t, s) == Stop(lo, hi, fraction, atrMove, Behind(s), t)
  {
  }

  /** The least of base, ceiling and cap if that reaches the floor, else the floor. */
  predicate Picks(target: real, floor: real, base: real, ceiling: real, cap: Option<real>) {
    var fits := base >= floor && ceiling >= floor && (cap.Some? ==> cap.value >= floor);
    && (fits ==> target <= base && target <= ceiling && (cap.Some? ==> target <= cap.value)
                 && (target == base || target == ceiling || cap == Some(target)))
    && (!fits ==> target == floor)
  }

  /** The structural level less its buffer if that clears the minimum, else this many times the stop. */
  predicate IsBase(base: real, stop: real, floor: real, level: Option<real>, buffer: real, ratio: real) {
    if Usable(level) && level.value - buffer >= floor then base == level.value - buffer else base == stop * ratio
  }

  predicate IsScaled(scaled: Option<real>, stop: real, cap: Option<real>) {
    if cap.Some? then scaled == Some(stop * cap.value) else scaled == None
  }

  lemma PickedPicks(floor: real, base: real, ceiling: real, cap: Option<real>)
    requires floor > 0.0
    ensures Picks(Picked(floor, base, ceiling, cap), floor, base, ceiling, cap)
  {
  }

  lemma TargetPicks(stop: real, minRr: real, sessionRr: real, level: Option<real>, buffer: real, ceiling: real,
                    cap: Option<real>) returns (base: real, scaled: Option<real>)
    requires stop > 0.0 && minRr > 0.0
    ensures IsBase(base, stop, stop * minRr, level, buffer, Max(sessionRr, minRr)) && IsScaled(scaled, stop, cap)
    ensures Picks(Target(stop, minRr, sessionRr, Level(level), buffer, ceiling, cap), stop * minRr, base, ceiling,
                  scaled)
  {
    Product(stop, minRr);
    base, scaled := Base(stop, stop * minRr, Max(sessionRr, minRr), Level(level), buffer), Scaled(stop, cap);
    PickedPicks(stop * minRr, base, ceiling, scaled);
  }

  /**
   * The target of a signal: the level ahead of it, resistance for a long signal,
   * less the buffer, if that earns the minimum; else the session's multiple of
   * the stop or the minimum if that is more; under the timeframe's ceiling, and
   * under the regime's cap in the timeframes that have one.
   */
  lemma TargetOfSignal(t: Tables, s: Signal, stop: real) returns (base: real, scaled: Option<real>)
    requires Sensible(t) && stop == SlPts(t, s)
    ensures var level := if s.direction.Up? then s.resistancePts else s.supportPts;
            var session := if s.session in t.sessionRr then t.sessionRr[s.session] else t.minRr;
            IsBase(base, stop, stop * t.minRr, level, t.srBuffer, if session >= t.minRr then session else t.minRr)
    ensures IsScaled(scaled, stop,
                     if s.regime in t.regimeRrCap && s.timeframe in t.rrCapTimeframes
                     then Some(t.regimeRrCap[s.regime]) else None)
    ensures Picks(TpPts(t, s), stop * t.minRr, base,
                  if s.timeframe in t.tpCeiling then t.tpCeiling[s.timeframe] else 800.0, scaled)
  {
    StopIsPositive(t, s);
    base, scaled := TargetFromStop(t, s, stop);
  }

  lemma TargetFromStop(t: Tables, s: Signal, stop: real) returns (base: real, scaled: Option<real>)
    requires stop > 0.0 && t.minRr > 0.0
    ensures var level := if s.direction.Up? then s.resistancePts else s.supportPts;
            IsBase(base, stop, stop * t.minRr, level, t.srBuffer, Max(Get(t.sessionRr, s.session, t.minRr), t.minRr))
    ensures IsScaled(scaled, stop, CapOf(t, s))
    ensures Picks(TargetFor(t, s, stop), stop * t.minRr, base, Ceiling(t, s), scaled)
  {
    base, scaled := TargetPicks(stop, t.minRr, Get(t.sessionRr, s.session, t.minRr),
                                if s.direction.Up? then s.resistancePts else s.supportPts, t.srBuffer, Ceiling(t, s),
                                CapOf(t, s));
  }

  /**
   * A long signal's stop is below the entry price and its target above, a short
   * signal's the other way round, each its own distance away; the caller's price
   * is the entry if it gives one, else the signal's own; no price, no side, none.
   */
  lemma StopAndTargetTakeSides(t: Tables, s: Signal, fallback: Option<real>)
    requires Sensible(t)
    ensures var entry := if fallback.Some? && fallback.value != 0.0 then fallback.value
                         else if s.entryPrice.Some? then s.entryPrice.value else 0.0;
            var sl, tp := ComputeSl(t, s, fallback), ComputeTp(t, s, fallback);
            && (sl.Some? <==> tp.Some?)
            && (sl.Some? <==> entry > 0.0 && !s.direction.Neither?)
            && (sl.Some? && s.direction.Up? ==>
                  && sl.value < entry < tp.value
                  && entry - sl.value == SlPts(t, s) && tp.value - entry == TpPts(t, s))
            && (sl.Some? && s.direction.Down? ==>
                  && tp.value < entry < sl.value
                  && sl.value - entry == SlPts(t, s) && entry - tp.value == TpPts(t, s))
  {
    TargetIsBounded(t, s);
  }

  // ── symmetry ──────────────────────────────────────────────────────────────

  function Flipped(d: Direction): Direction { match d case Up => Down case Down => Up case Neither => Neither }

  /** The same market seen upside down: the other direction, support and resistance exchanged. */
  function Mirrored(s: Signal): Signal {
    s.(direction := Flipped(s.direction), supportPts := s.resistancePts, resistancePts := s.supportPts)
  }

  function Reflected(price: Option<real>, about: real): Option<real> {
    if price.Some? then Some(2.0 * about - price.value) else None
  }

  /** A mirrored signal gets the mirrored stop and target about the entry price. */
  lemma MirroredTargets(t: Tables, s: Signal, fallback: Option<real>)
    ensures ComputeSl(t, Mirrored(s), fallback) == Reflected(ComputeSl(t, s, fallback), EntryOf(s, fallback))
    ensures ComputeTp(t, Mirrored(s), fallback) == Reflected(ComputeTp(t, s, fallback), EntryOf(s, fallback))
  {
    if !s.direction.Neither? {
      var m := Mirrored(s);
      assert AtrMove(t, m) == AtrMove(t, s) && Behind(m) == Behind(s);
      assert SlPts(t, m) == SlPts(t, s);
      assert Ahead(m) == Ahead(s) && CapOf(t, m) == CapOf(t, s) && Ceiling(t, m) == Ceiling(t, s);
      assert TpPts(t, m) == TpPts(t, s);
    }
  }

  // ── the gate downstream ───────────────────────────────────────────────────

  function Distance(a: real, b: real): real { if a >= b then a - b else b - a }

  /** What the risk-reward gate does with the distances that the target stage measured from the execution price. */
  predicate RiskRewardAllows(tp: real, sl: real, executionPrice: real, minimum: real) {
    var tpPts, slPts := Distance(tp, executionPrice), Distance(executionPrice, sl);
    (if slPts > 0.0 then tpPts / slPts else 0.0) >= minimum
  }

  lemma Cancel(q: real, ratio: real, sl: real)
    requires sl > 0.0 && sl * ratio <= q * sl
    ensures ratio <= q
  {
    if q < ratio {
      Product(ratio - q, sl);
    }
  }

  lemma RatioAtLeast(tp: real, sl: real, ratio: real)
    requires sl > 0.0 && sl * ratio <= tp
    ensures tp / sl >= ratio
  {
    Cancel(tp / sl, ratio, sl);
  }

  /** The gate on distances alone. */
  lemma GateOnDistances(entry: real, stop: real, target: real, up: bool, ratio: real, ceiling: real, minimum: real)
    requires 0.0 < stop && minimum <= ratio && Sized(target, stop, ratio, ceiling)
    ensures if up then RiskRewardAllows(entry + target, entry - stop, entry, minimum)
            else RiskRewardAllows(entry - target, entry + stop, entry, minimum)
  {
    RatioAtLeast(target, stop, ratio);
  }

  /**
   * The gate never refuses the optimiser's own targets, as long as it asks for no more than
   * the optimiser's minimum.
   */
  lemma OptimiserPassesRiskReward(t: Tables, s: Signal, executionPrice: real, minimum: real)
    requires Sensible(t) && executionPrice > 0.0 && !s.direction.Neither? && minimum <= t.minRr
    ensures var tp, sl := ComputeTp(t, s, Some(executionPrice)), ComputeSl(t, s, Some(executionPrice));
            tp.Some? && sl.Some? && RiskRewardAllows(tp.value, sl.value, executionPrice, minimum)
  {
    TargetIsBounded(t, s);
    GateOnDistances(executionPrice, SlPts(t, s), TpPts(t, s), s.direction.Up?, t.minRr, Ceiling(t, s), minimum);
  }
}
