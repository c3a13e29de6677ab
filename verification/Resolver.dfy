/** The registry of signals awaiting measurement, its two files, and what a crash can do to them. */
module Resolver {
  import opened Collections
  import opened Directions
  import opened Classifier

  datatype Record = Record(signalId: string, direction: string, refPrice: real, timeframe: string, session: string,
                           action: string, slPts: real, tpPts: real, spreadPts: real,
                           registeredTs: real, dueTs: real, horizonMin: real, attempts: nat)

  /** One line of the outcomes file. */
  datatype Measured = Measured(signalId: string, direction: string, timeframe: string, session: string, action: string,
                               refPrice: real, resolvedTs: real, verdict: Verdict)

  /** The policy's numbers and the lookup of a timeframe's horizon in minutes. */
  datatype Settings = Settings(defaultSpread: real, defaultRr: real, giveUpSeconds: real, volume: real,
                               horizon: string -> real)

  /** Memory, the pending file and the outcomes file. */
  datatype Desk = Desk(pending: seq<Record>, saved: seq<Record>, outcomes: seq<Measured>)

  /** Bars for a record, or None when they cannot be fetched. */
  type Market = (nat, Record) -> Option<seq<Bar>>

  ghost predicate Unique(rs: seq<Record>) {
    forall i, j :: 0 <= i < j < |rs| ==> rs[i].signalId != rs[j].signalId
  }

  function Drop(rs: seq<Record>, id: string): (out: seq<Record>)
    ensures forall r :: r in out <==> r in rs && r.signalId != id
    ensures Unique(rs) ==> Unique(out)
  {
    if rs == [] then []
    else
      assert forall r :: r in rs <==> r == rs[0] || r in rs[1..];
      assert Unique(rs) ==> Unique(rs[1..]) && forall r :: r in rs[1..] ==> r.signalId != rs[0].signalId;
      if rs[0].signalId == id then Drop(rs[1..], id) else [rs[0]] + Drop(rs[1..], id)
  }

  /** A stalled record is tried again later; nothing but its attempt count changes. */
  function Retry(rs: seq<Record>, id: string): (out: seq<Record>)
    ensures |out| == |rs|
    ensures forall i :: 0 <= i < |rs| ==>
              out[i] == if rs[i].signalId == id then rs[i].(attempts := rs[i].attempts + 1) else rs[i]
  {
    seq(|rs|, i requires 0 <= i < |rs| =>
      if rs[i].signalId == id then rs[i].(attempts := rs[i].attempts + 1) else rs[i])
  }

  function NewRecord(s: Settings, now: real, signalId: string, direction: string, refPrice: real, timeframe: string,
                     session: string, action: string, slPts: real, tpPts: real, spreadPts: Option<real>): Record {
    Record(signalId, Upper(direction), refPrice, timeframe, session, action, slPts, tpPts,
           if spreadPts.Some? then spreadPts.value else s.defaultSpread,
           now, now + s.horizon(timeframe) * 60.0, s.horizon(timeframe), 0)
  }

  predicate Registered(rs: seq<Record>, id: string) { exists r | r in rs :: r.signalId == id }

  predicate Accepts(d: Desk, r: Record) { r.refPrice > 0.0 && !Registered(d.pending, r.signalId) }

  function Accepted(d: Desk, r: Record): Desk {
    if Accepts(d, r) then Desk(d.pending + [r], d.pending + [r], d.outcomes) else d
  }

  /** What is written out and handed to the hook. */
  function MeasuredOf(r: Record, now: real, verdict: Verdict): Measured {
    Measured(r.signalId, r.direction, r.timeframe, r.session, r.action, r.refPrice, now, verdict)
  }

  function Judge(s: Settings, r: Record, bars: seq<Bar>): Verdict
    requires bars != []
  {
    VerdictOf(Call(r.refPrice, IsBuy(r.direction), r.slPts,
                    EffectiveTarget(r.slPts, r.tpPts, s.defaultRr), r.spreadPts),
              bars, s.volume)
  }

  /**
   * The line m tells of the record r, by its own numbers, what the bars say: its
   * reference price, stop and spread, its target or the one made from its stop.
   */
  ghost predicate Reports(s: Settings, r: Record, m: Measured, bars: seq<Bar>) {
    && m.signalId == r.signalId && m.direction == r.direction && m.timeframe == r.timeframe
    && m.session == r.session && m.action == r.action && m.refPrice == r.refPrice
    && exists tp :: IsTarget(tp, r.slPts, r.tpPts, s.defaultRr)
                    && Tells(m.verdict, bars, r.refPrice, Lower(Strip(r.direction)) in {"up", "buy", "long"},
                             r.slPts, tp, r.spreadPts, s.volume)
  }

  lemma JudgedReports(s: Settings, r: Record, now: real, bars: seq<Bar>)
    requires bars != []
    ensures Reports(s, r, MeasuredOf(r, now, Judge(s, r, bars)), bars)
  {
    var tp := EffectiveTarget(r.slPts, r.tpPts, s.defaultRr);
    EffectiveTargetIsTarget(r.slPts, r.tpPts, s.defaultRr);
    VerdictTells(Call(r.refPrice, IsBuy(r.direction), r.slPts, tp, r.spreadPts), bars, s.volume);
  }

  /** The record of a registration at this time: due a horizon later, with the default spread only if none is given. */
  predicate RegisteredAs(r: Record, s: Settings, now: real, signalId: string, direction: string, refPrice: real,
                         timeframe: string, session: string, action: string, slPts: real, tpPts: real,
                         spreadPts: Option<real>) {
    && r.signalId == signalId && r.refPrice == refPrice && r.timeframe == timeframe && r.session == session
    && r.action == action && r.slPts == slPts && r.tpPts == tpPts
    && |r.direction| == |direction|
    && (forall i :: 0 <= i < |direction| ==> r.direction[i] == UpperChar(direction[i]))
    && (spreadPts == None ==> r.spreadPts == s.defaultSpread) && (spreadPts.Some? ==> spreadPts == Some(r.spreadPts))
    && r.registeredTs == now && r.horizonMin == s.horizon(timeframe)
    && r.dueTs == r.registeredTs + 60.0 * r.horizonMin && r.attempts == 0
  }

  datatype Fate = Abandoned | Stalled | Resolved(bars: seq<Bar>)

  function FateOf(s: Settings, r: Record, now: real, rates: Option<seq<Bar>>): (f: Fate)
    ensures f.Resolved? ==> f.bars != []
  {
    if now - r.registeredTs > s.giveUpSeconds then Abandoned
    else if rates.None? || rates.value == [] then Stalled
    else Resolved(rates.value)
  }

  /** One due record, taken by a tick. The pending file is not written here. */
  function Settled(s: Settings, d: Desk, r: Record, now: real, rates: Option<seq<Bar>>): Desk {
    match FateOf(s, r, now, rates)
    case Abandoned => d.(pending := Drop(d.pending, r.signalId))
    case Stalled => d.(pending := Retry(d.pending, r.signalId))
    case Resolved(bars) =>
      d.(pending := Drop(d.pending, r.signalId), outcomes := d.outcomes + [MeasuredOf(r, now, Judge(s, r, bars))])
  }

  function Due(rs: seq<Record>, now: real): (due: seq<Record>)
    ensures forall r :: r in due <==> r in rs && r.dueTs <= now
    ensures Unique(rs) ==> Unique(due)
  {
    if rs == [] then []
    else
      assert forall r :: r in rs <==> r == rs[0] || r in rs[1..];
      assert Unique(rs) ==> Unique(rs[1..]) && forall r :: r in rs[1..] ==> r.signalId != rs[0].signalId;
      if rs[0].dueTs <= now then [rs[0]] + Due(rs[1..], now) else Due(rs[1..], now)
  }

  datatype Tally = Tally(desk: Desk, resolved: nat, abandoned: nat, stalled: nat)

  function SettledAll(s: Settings, d: Desk, due: seq<Record>, now: real, market: Market): Tally {
    if due == [] then Tally(d, 0, 0, 0)
    else
      var n := |due| - 1;
      Round(s, SettledAll(s, d, due[..n], now, market), due[n], now, market(n, due[n]))
  }

  function Round(s: Settings, t: Tally, r: Record, now: real, rates: Option<seq<Bar>>): Tally {
    Counted(t.(desk := Settled(s, t.desk, r, now, rates)), FateOf(s, r, now, rates))
  }

  lemma SettledNext(s: Settings, d: Desk, due: seq<Record>, i: nat, now: real, market: Market)
    requires i < |due|
    ensures SettledAll(s, d, due[..i + 1], now, market)
         == Round(s, SettledAll(s, d, due[..i], now, market), due[i], now, market(i, due[i]))
  {
    assert due[..i + 1][..i] == due[..i];
  }

  /** What a round counts: given up if too old, stalled if there are no bars, resolved otherwise. */
  lemma RoundCounts(s: Settings, t: Tally, r: Record, now: real, rates: Option<seq<Bar>>)
    ensures var t' := Round(s, t, r, now, rates);
            var late, bare := now - r.registeredTs > s.giveUpSeconds, rates in {None, Some([])};
            && t'.abandoned == t.abandoned + (if late then 1 else 0)
            && t'.stalled == t.stalled + (if !late && bare then 1 else 0)
            && t'.resolved == t.resolved + (if !late && !bare then 1 else 0)
  {
  }

  /** What is due keeps its order. */
  lemma {:induction false} DueInOrder(xs: seq<Record>, ys: seq<Record>, now: real)
    ensures Due(xs + ys, now) == Due(xs, now) + Due(ys, now)
  {
    var all := xs + ys;
    if xs == [] {
      assert all == ys;
    } else {
      assert all[0] == xs[0] && all[1..] == xs[1..] + ys;
      DueInOrder(xs[1..], ys, now);
      Reassociate([xs[0]], Due(xs[1..], now), Due(ys, now));
    }
  }

  /** What is left when a record goes keeps its order. */
  lemma {:induction false} DropInOrder(xs: seq<Record>, ys: seq<Record>, id: string)
    ensures Drop(xs + ys, id) == Drop(xs, id) + Drop(ys, id)
  {
    var all := xs + ys;
    if xs == [] {
      assert all == ys;
    } else {
      assert all[0] == xs[0] && all[1..] == xs[1..] + ys;
      DropInOrder(xs[1..], ys, id);
      Reassociate([xs[0]], Drop(xs[1..], id), Drop(ys, id));
    }
  }

  /** Only the attempt count of the records with this id changes. */
  predicate TriedOnce(rs: seq<Record>, rs': seq<Record>, id: string) {
    |rs'| == |rs| && forall i :: 0 <= i < |rs| ==>
      rs'[i] == if rs[i].signalId == id then rs[i].(attempts := rs[i].attempts + 1) else rs[i]
  }

  ghost predicate OnlyLoses(rs: seq<Record>, rs': seq<Record>, id: string) {
    forall r :: r in rs' <==> r in rs && r.signalId != id
  }

  /**
   * One due record: past the give-up age it leaves without a line; with no bars
   * it stays, tried once more; otherwise it leaves and one line reports what the
   * bars say of it, stamped with the time of the tick.
   */
  lemma SettlingReports(s: Settings, d: Desk, r: Record, now: real, rates: Option<seq<Bar>>)
    ensures var d', late, bare := Settled(s, d, r, now, rates), now - r.registeredTs > s.giveUpSeconds,
                                  rates in {None, Some([])};
            && d'.saved == d.saved
            && (late || !bare ==> OnlyLoses(d.pending, d'.pending, r.signalId))
            && (!late && bare ==> TriedOnce(d.pending, d'.pending, r.signalId))
            && (late || bare ==> d'.outcomes == d.outcomes)
            && (!late && !bare ==>
                  exists m :: d'.outcomes == d.outcomes + [m] && m.resolvedTs == now && Reports(s, r, m, rates.value))
  {
    if FateOf(s, r, now, rates).Resolved? {
      JudgedReports(s, r, now, rates.value);
    }
  }

  function Counted(t: Tally, f: Fate): Tally {
    match f
    case Abandoned => t.(abandoned := t.abandoned + 1)
    case Stalled => t.(stalled := t.stalled + 1)
    case Resolved(_) => t.(resolved := t.resolved + 1)
  }

  function Saved(t: Tally): Desk {
    if t.resolved > 0 || t.abandoned > 0 then t.desk.(saved := t.desk.pending) else t.desk
  }

  class OutcomeResolver {
    const settings: Settings
    var pending: seq<Record>
    var pendingFile: seq<Record>
    var outcomesFile: seq<Measured>

    function State(): Desk
      reads this
    {
      Desk(pending, pendingFile, outcomesFile)
    }

    constructor (settings: Settings, pendingFile: seq<Record>, outcomesFile: seq<Measured>)
      ensures this.settings == settings && State() == Desk(pendingFile, pendingFile, outcomesFile)
    {
      this.settings := settings;
      this.pending, this.pendingFile, this.outcomesFile := pendingFile, pendingFile, outcomesFile;
    }

    method Register(now: real, signalId: string, direction: string, refPrice: real, timeframe: string, session: string,
                    action: string, slPts: real, tpPts: real, spreadPts: Option<real>)
      modifies this
      ensures State() == Accepted(old(State()),
              NewRecord(settings, now, signalId, direction, refPrice, timeframe, session,
                                                          action, slPts, tpPts, spreadPts))
      ensures if refPrice <= 0.0 || exists r :: r in old(pending) && r.signalId == signalId then
                State() == old(State())
              else
                && |pending| == |old(pending)| + 1 && pending[..|old(pending)|] == old(pending)
                && RegisteredAs(pending[|old(pending)|], settings, now, signalId, direction, refPrice, timeframe,
                                session, action, slPts, tpPts, spreadPts)
                && pendingFile == pending && outcomesFile == old(outcomesFile)
    {
      if refPrice <= 0.0 {
        return;
      }
      var record := NewRecord(settings, now, signalId, direction, refPrice, timeframe, session,
                                    action, slPts, tpPts, spreadPts);
      if Registered(pending, signalId) {
        return;
      }
      pending := pending + [record];
      pendingFile := pending;
    }

    /** One cycle over everything that is due; hooked is what the on_resolved hook has been handed, in order. */
    method Tick(now: real, market: Market)
        returns (resolved: nat, abandoned: nat, stalled: nat, remaining: nat, hooked: seq<Measured>)
      modifies this
      ensures var t := SettledAll(settings, old(State()), Due(old(pending), now), now, market);
              State() == Saved(t) && resolved == t.resolved && abandoned == t.abandoned && stalled == t.stalled
      ensures remaining == |pending| && outcomesFile == old(outcomesFile) + hooked && |hooked| == resolved
    {
      var due := Due(pending, now);
      resolved, abandoned, stalled, hooked := 0, 0, 0, [];
      var i := 0;
      while i < |due|
        invariant 0 <= i <= |due| && outcomesFile == old(outcomesFile) + hooked && |hooked| == resolved
        invariant Tally(State(), resolved, abandoned, stalled) ==
                  SettledAll(settings, old(State()), due[..i], now, market)
      {
        SettledNext(settings, old(State()), due, i, now, market);
        ghost var before := hooked;
        var fate, written := Settle(due[i], now, market(i, due[i]));
        hooked := hooked + written;
        Reassociate(old(outcomesFile), before, written);
        match fate {
          case Abandoned => abandoned := abandoned + 1;
          case Stalled => stalled := stalled + 1;
          case Resolved(_) => resolved := resolved + 1;
        }
        i := i + 1;
      }
      assert due[..i] == due;
      if resolved > 0 || abandoned > 0 {
        pendingFile := pending;
      }
      remaining := |pending|;
    }

    /** One due record: given up, left for later, or measured and written out. */
    method Settle(record: Record, now: real, rates: Option<seq<Bar>>) returns (fate: Fate, written: seq<Measured>)
      modifies this`pending, this`outcomesFile
      ensures State() == Settled(settings, old(State()), record, now, rates)
      ensures fate == FateOf(settings, record, now, rates)
      ensures outcomesFile == old(outcomesFile) + written && |written| == if fate.Resolved? then 1 else 0
    {
      if now - record.registeredTs > settings.giveUpSeconds {
        pending := Drop(pending, record.signalId);
        return Abandoned, [];
      }
      if rates.None? || rates.value == [] {
        pending := Retry(pending, record.signalId);
        return Stalled, [];
      }
      var verdict := Classify(record.refPrice, record.direction, rates.value, record.slPts, record.tpPts,
                              record.spreadPts, settings.volume, settings.defaultRr);
      written := [MeasuredOf(record, now, verdict.value)];
      outcomesFile := outcomesFile + written;
      pending := Drop(pending, record.signalId);
      fate := Resolved(rates.value);
    }
  }

  // ── runs ──────────────────────────────────────────────────────────────────

  /** Register and one atomic piece of a tick each; a restart may fall between any two. */
  datatype Event =
    | Register(record: Record)
    | Settle(id: string, now: real, rates: Option<seq<Bar>>)
    | Save
    | Restart

  /**
   * What happened: records accepted by id, ids given up (with when), and ids
   * that a restart brought back after they had left memory.
   */
  datatype World = World(desk: Desk, accepted: map<string, Record>,
                         abandoned: seq<(string, real)>, revived: seq<string>)

  const START := World(Desk([], [], []), map[], [], [])

  ghost function Find(rs: seq<Record>, id: string): Option<Record> {
    if exists r :: r in rs && r.signalId == id then (var r :| r in rs && r.signalId == id; Some(r)) else None
  }

  function IdsGone(saved: seq<Record>, pending: seq<Record>): seq<string> {
    if saved == [] then []
    else (if Registered(pending, saved[0].signalId) then [] else [saved[0].signalId]) + IdsGone(saved[1..], pending)
  }

  /** Ids are fresh: a record is offered under an id once. */
  ghost function Step(s: Settings, w: World, event: Event): World {
    match event
    case Register(r) =>
      if r.signalId in w.accepted || !Accepts(w.desk, r) then w
      else w.(desk := Accepted(w.desk, r), accepted := w.accepted[r.signalId := r])
    case Settle(id, now, rates) =>
      var found := Find(w.desk.pending, id);
      if found.None? || found.value.dueTs > now then w
      else
        var w' := w.(desk := Settled(s, w.desk, found.value, now, rates));
        if FateOf(s, found.value, now, rates).Abandoned? then w'.(abandoned := w.abandoned + [(id, now)]) else w'
    case Save => w.(desk := w.desk.(saved := w.desk.pending))
    case Restart =>
      w.(desk := w.desk.(pending := w.desk.saved), revived := w.revived + IdsGone(w.desk.saved, w.desk.pending))
  }

  ghost function RunFrom(s: Settings, w: World, events: seq<Event>): World {
    if events == [] then w else Step(s, RunFrom(s, w, events[..|events| - 1]), events[|events| - 1])
  }

  ghost function Run(s: Settings, events: seq<Event>): World { RunFrom(s, START, events) }

  function MeasuredTimes(outcomes: seq<Measured>, id: string): nat {
    if outcomes == [] then 0
    else MeasuredTimes(outcomes[..|outcomes| - 1], id) + if outcomes[|outcomes| - 1].signalId == id then 1 else 0
  }

  function AbandonedTimes(abandoned: seq<(string, real)>, id: string): nat {
    if abandoned == [] then 0
    else AbandonedTimes(abandoned[..|abandoned| - 1], id) + if abandoned[|abandoned| - 1].0 == id then 1 else 0
  }

  function RevivedTimes(revived: seq<string>, id: string): nat { multiset(revived)[id] }

  ghost predicate Held(rs: seq<Record>, id: string) { exists r :: r in rs && r.signalId == id }

  /** Each acceptance, and each revival, is answered by exactly one measurement, abandonment, or place in the queue. */
  ghost predicate Balanced(w: World, id: string) {
    MeasuredTimes(w.desk.outcomes, id) + AbandonedTimes(w.abandoned, id) + (if Held(w.desk.pending, id) then 1 else 0)
      == (if id in w.accepted then 1 else 0) + RevivedTimes(w.revived, id)
  }

  /** Stored records are the accepted ones, attempts aside, each id once. */
  ghost predicate Genuine(rs: seq<Record>, accepted: map<string, Record>) {
    && Unique(rs)
    && forall r :: r in rs ==> r.signalId in accepted && r == accepted[r.signalId].(attempts := r.attempts)
  }

  /** Whatever is queued in memory is also in the pending file. */
  ghost predicate Durable(d: Desk) {
    forall r :: r in d.pending ==> Held(d.saved, r.signalId)
  }

  ghost predicate Reported(s: Settings, r: Record, m: Measured) {
    exists bars :: bars != [] && Reports(s, r, m, bars)
  }

  ghost predicate Timely(s: Settings, w: World) {
    && (forall m :: m in w.desk.outcomes ==>
          && m.signalId in w.accepted
          && w.accepted[m.signalId].dueTs <= m.resolvedTs
          && m.resolvedTs - w.accepted[m.signalId].registeredTs <= s.giveUpSeconds
          && Reported(s, w.accepted[m.signalId], m))
    && (forall a :: a in w.abandoned ==>
          a.0 in w.accepted && a.1 - w.accepted[a.0].registeredTs > s.giveUpSeconds)
  }

  ghost predicate Inv(s: Settings, w: World) {
    && Genuine(w.desk.pending, w.accepted)
    && Genuine(w.desk.saved, w.accepted)
    && Durable(w.desk)
    && Timely(s, w)
    && forall id :: Balanced(w, id)
  }

  lemma DropGenuine(rs: seq<Record>, id: string, accepted: map<string, Record>)
    requires Genuine(rs, accepted)
    ensures Genuine(Drop(rs, id), accepted)
    ensures forall x :: Held(Drop(rs, id), x) <==> Held(rs, x) && x != id
  {
    forall x ensures Held(Drop(rs, id), x) <==> Held(rs, x) && x != id { DropHolds(rs, id, x); }
  }

  lemma RetryGenuine(rs: seq<Record>, id: string, accepted: map<string, Record>)
    requires Genuine(rs, accepted)
    ensures Genuine(Retry(rs, id), accepted)
    ensures forall x :: Held(Retry(rs, id), x) <==> Held(rs, x)
  {
    forall x ensures Held(Retry(rs, id), x) <==> Held(rs, x) { RetryHolds(rs, id, x); }
  }

  lemma AppendGenuine(rs: seq<Record>, r: Record, accepted: map<string, Record>)
    requires Genuine(rs, accepted) && r.signalId !in accepted
    ensures Genuine(rs + [r], accepted[r.signalId := r])
    ensures forall x :: Held(rs + [r], x) <==> Held(rs, x) || x == r.signalId
  {
    var out := rs + [r];
    assert out[|rs|] in out;
    forall x | Held(rs, x) ensures Held(out, x) {
      var q :| q in rs && q.signalId == x;
      assert q in out;
    }
  }

  lemma MeasuredMore(outcomes: seq<Measured>, m: Measured, id: string)
    ensures MeasuredTimes(outcomes + [m], id) == MeasuredTimes(outcomes, id) + if m.signalId == id then 1 else 0
  {
    assert (outcomes + [m])[..|outcomes|] == outcomes;
  }

  lemma AbandonedMore(abandoned: seq<(string, real)>, a: (string, real), id: string)
    ensures AbandonedTimes(abandoned + [a], id) == AbandonedTimes(abandoned, id) + if a.0 == id then 1 else 0
  {
    assert (abandoned + [a])[..|abandoned|] == abandoned;
  }

  lemma RegisterKeepsInv(s: Settings, w: World, r: Record)
    requires Inv(s, w)
    ensures Inv(s, Step(s, w, Event.Register(r)))
  {
    if r.signalId !in w.accepted && Accepts(w.desk, r) {
      var w' := Step(s, w, Event.Register(r));
      AppendGenuine(w.desk.pending, r, w.accepted);
      forall q | q in w'.desk.pending ensures Held(w'.desk.saved, q.signalId) {}
      forall id ensures Balanced(w', id) {
        assert Balanced(w, id);
        assert Held(w'.desk.pending, id) <==> Held(w.desk.pending, id) || id == r.signalId;
      }
    }
  }

  lemma FoundIsHeld(rs: seq<Record>, id: string)
    ensures Find(rs, id).Some? <==> Held(rs, id)
    ensures Find(rs, id).Some? ==> Find(rs, id).value in rs && Find(rs, id).value.signalId == id
  {
  }

  lemma DropHolds(rs: seq<Record>, id: string, x: string)
    ensures Held(Drop(rs, id), x) <==> Held(rs, x) && x != id
  {
    if Held(rs, x) && x != id {
      var r :| r in rs && r.signalId == x;
      assert r in Drop(rs, id);
    }
  }

  lemma RetryHolds(rs: seq<Record>, id: string, x: string)
    ensures Held(Retry(rs, id), x) <==> Held(rs, x)
  {
    if Held(rs, x) {
      var i :| 0 <= i < |rs| && rs[i].signalId == x;
      assert Retry(rs, id)[i].signalId == x;
    }
    if Held(Retry(rs, id), x) {
      var i :| 0 <= i < |rs| && Retry(rs, id)[i].signalId == x;
      assert rs[i].signalId == x;
    }
  }

  lemma AbandonKeepsBalance(w: World, id: string, now: real, x: string)
    requires Balanced(w, x) && Held(w.desk.pending, id)
    ensures Balanced(w.(desk := w.desk.(pending := Drop(w.desk.pending, id)),
                           abandoned := w.abandoned + [(id, now)]), x)
  {
    DropHolds(w.desk.pending, id, x);
    AbandonedMore(w.abandoned, (id, now), x);
  }

  lemma StallKeepsBalance(w: World, id: string, x: string)
    requires Balanced(w, x)
    ensures Balanced(w.(desk := w.desk.(pending := Retry(w.desk.pending, id))), x)
  {
    RetryHolds(w.desk.pending, id, x);
  }

  lemma ResolveKeepsBalance(w: World, id: string, m: Measured, x: string)
    requires Balanced(w, x) && Held(w.desk.pending, id) && m.signalId == id
    ensures Balanced(w.(desk := w.desk.(pending := Drop(w.desk.pending, id), outcomes := w.desk.outcomes + [m])), x)
  {
    DropHolds(w.desk.pending, id, x);
    MeasuredMore(w.desk.outcomes, m, x);
  }

  lemma SettleKeepsBalance(s: Settings, w: World, id: string, now: real, rates: Option<seq<Bar>>, x: string)
    requires Balanced(w, x)
    ensures Balanced(Step(s, w, Event.Settle(id, now, rates)), x)
  {
    FoundIsHeld(w.desk.pending, id);
    var found := Find(w.desk.pending, id);
    if found.Some? && found.value.dueTs <= now {
      match FateOf(s, found.value, now, rates)
      case Abandoned => AbandonKeepsBalance(w, id, now, x);
      case Stalled => StallKeepsBalance(w, id, x);
      case Resolved(bars) =>
        ResolveKeepsBalance(w, id, MeasuredOf(found.value, now, Judge(s, found.value, bars)), x);
    }
  }

  lemma FewerStayDurable(d: Desk, d': Desk)
    requires Durable(d) && d'.saved == d.saved && forall x :: Held(d'.pending, x) ==> Held(d.pending, x)
    ensures Durable(d')
  {
    forall r | r in d'.pending ensures Held(d'.saved, r.signalId) {
      assert Held(d'.pending, r.signalId);
      var q :| q in d.pending && q.signalId == r.signalId;
    }
  }

  lemma SettleKeepsRecords(s: Settings, w: World, id: string, now: real, rates: Option<seq<Bar>>)
    requires Inv(s, w)
    ensures var w' := Step(s, w, Event.Settle(id, now, rates));
            Genuine(w'.desk.pending, w'.accepted) && Genuine(w'.desk.saved, w'.accepted) && Durable(w'.desk)
  {
    DropGenuine(w.desk.pending, id, w.accepted);
    RetryGenuine(w.desk.pending, id, w.accepted);
    FoundIsHeld(w.desk.pending, id);
    var w' := Step(s, w, Event.Settle(id, now, rates));
    assert w'.desk.pending in {w.desk.pending, Drop(w.desk.pending, id), Retry(w.desk.pending, id)};
    FewerStayDurable(w.desk, w'.desk);
  }

  lemma SettleIsTimely(s: Settings, w: World, id: string, now: real, rates: Option<seq<Bar>>)
    requires Inv(s, w)
    ensures Timely(s, Step(s, w, Event.Settle(id, now, rates)))
  {
    FoundIsHeld(w.desk.pending, id);
    var found := Find(w.desk.pending, id);
    if found.Some? && found.value.dueTs <= now && FateOf(s, found.value, now, rates).Resolved? {
      var bars := rates.value;
      assert Judge(s, found.value, bars) == Judge(s, w.accepted[id], bars);
      JudgedReports(s, w.accepted[id], now, bars);
      assert Reported(s, w.accepted[id], MeasuredOf(found.value, now, Judge(s, found.value, bars)));
    }
  }

  lemma {:induction false} GoneCounts(saved: seq<Record>, pending: seq<Record>, id: string)
    requires Unique(saved)
    ensures multiset(IdsGone(saved, pending))[id] == if Held(saved, id) && !Held(pending, id) then 1 else 0
  {
    if saved != [] {
      var rest := saved[1..];
      assert saved == [saved[0]] + rest;
      assert Held(saved, id) <==> saved[0].signalId == id || Held(rest, id);
      assert Held(rest, id) ==> saved[0].signalId != id;
      GoneCounts(rest, pending, id);
      assert Registered(pending, saved[0].signalId) <==> Held(pending, saved[0].signalId);
    }
  }

  lemma RestartKeepsInv(s: Settings, w: World)
    requires Inv(s, w)
    ensures Inv(s, Step(s, w, Restart))
  {
    var w' := Step(s, w, Restart);
    forall id ensures Balanced(w', id) {
      assert Balanced(w, id);
      GoneCounts(w.desk.saved, w.desk.pending, id);
      assert Held(w.desk.pending, id) ==> Held(w.desk.saved, id);
    }
    forall r | r in w'.desk.pending ensures Held(w'.desk.saved, r.signalId) {}
  }

  lemma SaveKeepsInv(s: Settings, w: World)
    requires Inv(s, w)
    ensures Inv(s, Step(s, w, Save))
  {
    var w' := Step(s, w, Save);
    forall id ensures Balanced(w', id) {
      assert Balanced(w, id);
    }
    forall r | r in w'.desk.pending ensures Held(w'.desk.saved, r.signalId) {}
  }

  lemma {:induction false} RunKeepsInv(s: Settings, events: seq<Event>)
    ensures Inv(s, Run(s, events))
  {
    if events != [] {
      var w := Run(s, events[..|events| - 1]);
      RunKeepsInv(s, events[..|events| - 1]);
      match events[|events| - 1]
      case Register(r) => RegisterKeepsInv(s, w, r);
      case Settle(id, now, rates) => SettleKeepsAll(s, w, id, now, rates);
      case Save => SaveKeepsInv(s, w);
      case Restart => RestartKeepsInv(s, w);
    }
  }

  /**
   * Conservation, with crashes anywhere: an accepted signal has been measured,
   * given up or is still queued, once in all plus once for each restart that
   * brought it back. So it is never lost, and only a restart can duplicate it.
   */
  lemma EveryRegistrationIsAccountedFor(s: Settings, events: seq<Event>, id: string)
    requires id in Run(s, events).accepted
    ensures var w := Run(s, events);
            && MeasuredTimes(w.desk.outcomes, id) + AbandonedTimes(w.abandoned, id)
                 + (if Held(w.desk.pending, id) then 1 else 0) == 1 + RevivedTimes(w.revived, id)
            && (Held(w.desk.pending, id) ==> Held(w.desk.saved, id))
            && Unique(w.desk.pending)
  {
    RunKeepsInv(s, events);
    var w := Run(s, events);
    assert Balanced(w, id);
    if Held(w.desk.pending, id) {
      var r :| r in w.desk.pending && r.signalId == id;
      assert Held(w.desk.saved, r.signalId);
    }
  }

  lemma {:induction false} NothingRevivedWithoutRestart(s: Settings, events: seq<Event>)
    requires forall e :: e in events ==> !e.Restart?
    ensures Run(s, events).revived == []
  {
    if events != [] {
      NothingRevivedWithoutRestart(s, events[..|events| - 1]);
      assert events[|events| - 1] in events;
    }
  }

  /** Without a restart, exactly one of the three. */
  lemma ExactlyOneFate(s: Settings, events: seq<Event>, id: string)
    requires id in Run(s, events).accepted && forall e :: e in events ==> !e.Restart?
    ensures var w := Run(s, events);
            MeasuredTimes(w.desk.outcomes, id) + AbandonedTimes(w.abandoned, id)
              + (if Held(w.desk.pending, id) then 1 else 0) == 1
  {
    EveryRegistrationIsAccountedFor(s, events, id);
    NothingRevivedWithoutRestart(s, events);
  }

  /** An outcome is never written early, late, from no bars, or about a signal that was not registered. */
  lemma OutcomesAreTimely(s: Settings, events: seq<Event>, m: Measured) returns (bars: seq<Bar>)
    requires m in Run(s, events).desk.outcomes
    ensures var w := Run(s, events);
            && m.signalId in w.accepted
            && w.accepted[m.signalId].dueTs <= m.resolvedTs
            && m.resolvedTs - w.accepted[m.signalId].registeredTs <= s.giveUpSeconds
            && bars != [] && Reports(s, w.accepted[m.signalId], m, bars)
  {
    RunKeepsInv(s, events);
    var r := Run(s, events).accepted[m.signalId];
    assert Reported(s, r, m);
    bars :| bars != [] && Reports(s, r, m, bars);
  }

  // ── a tick is a run ───────────────────────────────────────────────────────

  ghost function TickEvents(due: seq<Record>, now: real, market: Market): (events: seq<Event>)
    ensures |events| == |due|
  {
    seq(|due|, i requires 0 <= i < |due| => Event.Settle(due[i].signalId, now, market(i, due[i])))
  }

  /** Records are told apart by their ids. */
  lemma UniqueFind(rs: seq<Record>, r: Record)
    requires Unique(rs) && r in rs
    ensures Find(rs, r.signalId) == Some(r)
  {
    FoundIsHeld(rs, r.signalId);
    assert Held(rs, r.signalId);
  }

  lemma SettleKeepsOthers(s: Settings, d: Desk, r: Record, now: real, rates: Option<seq<Bar>>, q: Record)
    requires q in d.pending && q.signalId != r.signalId
    ensures q in Settled(s, d, r, now, rates).pending
  {
    var i :| 0 <= i < |d.pending| && d.pending[i] == q;
    assert Retry(d.pending, r.signalId)[i] == q;
  }

  lemma RoundIsAnEvent(s: Settings, w: World, r: Record, now: real, rates: Option<seq<Bar>>)
    requires Inv(s, w) && r in w.desk.pending && r.dueTs <= now
    ensures var w' := Step(s, w, Event.Settle(r.signalId, now, rates));
            w'.desk == Settled(s, w.desk, r, now, rates) && Inv(s, w')
  {
    UniqueFind(w.desk.pending, r);
    SettleKeepsAll(s, w, r.signalId, now, rates);
  }

  /** Queued before, not among the records taken, hence queued after. */
  ghost predicate Spared(taken: seq<Record>, d: Desk, d': Desk) {
    forall q :: q in d.pending && !Held(taken, q.signalId) ==> q in d'.pending
  }

  lemma SparedNext(s: Settings, taken: seq<Record>, d: Desk, d': Desk, r: Record, now: real, rates: Option<seq<Bar>>)
    requires Spared(taken, d, d')
    ensures Spared(taken + [r], d, Settled(s, d', r, now, rates))
  {
    var after := Settled(s, d', r, now, rates);
    forall q | q in d.pending && !Held(taken + [r], q.signalId) ensures q in after.pending {
      assert r in taken + [r];
      assert forall p :: p in taken ==> p in taken + [r];
      SettleKeepsOthers(s, d', r, now, rates, q);
    }
  }

  lemma NextRound(s: Settings, d: Desk, w: World, taken: seq<Record>, r: Record, now: real, rates: Option<seq<Bar>>)
    requires Inv(s, w) && Spared(taken, d, w.desk)
    requires r in d.pending && !Held(taken, r.signalId) && r.dueTs <= now
    ensures var w' := Step(s, w, Event.Settle(r.signalId, now, rates));
            w'.desk == Settled(s, w.desk, r, now, rates) && Inv(s, w') && Spared(taken + [r], d, w'.desk)
  {
    RoundIsAnEvent(s, w, r, now, rates);
    SparedNext(s, taken, d, w.desk, r, now, rates);
  }

  /** A snapshot of due records, each still queued. */
  ghost predicate Snapshot(due: seq<Record>, pending: seq<Record>, now: real) {
    Unique(due) && forall i :: 0 <= i < |due| ==> due[i] in pending && due[i].dueTs <= now
  }

  lemma SnapshotPrefix(due: seq<Record>, pending: seq<Record>, now: real)
    requires Snapshot(due, pending, now) && due != []
    ensures Snapshot(due[..|due| - 1], pending, now)
    ensures !Held(due[..|due| - 1], due[|due| - 1].signalId)
    ensures due[..|due| - 1] + [due[|due| - 1]] == due
  {
  }

  /** The rounds of a tick are a run of settle events, so what runs keep covers every crash inside a tick. */
  lemma {:induction false} TickRoundsAreARun(s: Settings, w: World, due: seq<Record>, now: real, market: Market)
    requires Inv(s, w) && Snapshot(due, w.desk.pending, now)
    ensures RunFrom(s, w, TickEvents(due, now, market)).desk == SettledAll(s, w.desk, due, now, market).desk
    ensures Inv(s, RunFrom(s, w, TickEvents(due, now, market)))
    ensures Spared(due, w.desk, RunFrom(s, w, TickEvents(due, now, market)).desk)
  {
    if due != [] {
      var n := |due| - 1;
      SnapshotPrefix(due, w.desk.pending, now);
      TickRoundsAreARun(s, w, due[..n], now, market);
      TickEventsNext(s, w, due, now, market);
      NextRound(s, w.desk, RunFrom(s, w, TickEvents(due[..n], now, market)), due[..n], due[n], now, market(n, due[n]));
    }
  }

  lemma {:induction false} DueIsSnapshot(rs: seq<Record>, now: real)
    requires Unique(rs)
    ensures Snapshot(Due(rs, now), rs, now)
  {
    var due := Due(rs, now);
    forall i | 0 <= i < |due| ensures due[i] in rs && due[i].dueTs <= now { assert due[i] in due; }
  }

  /** A whole tick is one too, its save included: it takes the records that are due when it starts. */
  lemma TickIsARun(s: Settings, w: World, now: real, market: Market)
    requires Inv(s, w)
    ensures var due := Due(w.desk.pending, now);
            var t := SettledAll(s, w.desk, due, now, market);
            var events := TickEvents(due, now, market) + if t.resolved > 0 || t.abandoned > 0 then [Save] else [];
            RunFrom(s, w, events).desk == Saved(t) && Inv(s, RunFrom(s, w, events))
  {
    var due := Due(w.desk.pending, now);
    var t, rounds := SettledAll(s, w.desk, due, now, market), TickEvents(due, now, market);
    DueIsSnapshot(w.desk.pending, now);
    TickRoundsAreARun(s, w, due, now, market);
    if t.resolved > 0 || t.abandoned > 0 {
      SaveAfter(s, w, rounds);
    } else {
      assert rounds + [] == rounds;
    }
  }

  lemma SaveAfter(s: Settings, w: World, events: seq<Event>)
    requires Inv(s, RunFrom(s, w, events))
    ensures var w' := RunFrom(s, w, events);
            && RunFrom(s, w, events + [Save]).desk == w'.desk.(saved := w'.desk.pending)
            && Inv(s, RunFrom(s, w, events + [Save]))
  {
    RunSnoc(s, w, events, Save);
    SaveKeepsInv(s, RunFrom(s, w, events));
  }

  lemma TickEventsNext(s: Settings, w: World, due: seq<Record>, now: real, market: Market)
    requires due != []
    ensures var n, last := |due| - 1, due[|due| - 1];
            && RunFrom(s, w, TickEvents(due, now, market))
                 == Step(s, RunFrom(s, w, TickEvents(due[..n], now, market)),
                         Event.Settle(last.signalId, now, market(n, last)))
            && SettledAll(s, w.desk, due, now, market).desk
                 == Settled(s, SettledAll(s, w.desk, due[..n], now, market).desk, last, now, market(n, last))
  {
    var n, last := |due| - 1, due[|due| - 1];
    var init := TickEvents(due[..n], now, market);
    assert TickEvents(due, now, market) == init + [Event.Settle(last.signalId, now, market(n, last))];
    RunSnoc(s, w, init, Event.Settle(last.signalId, now, market(n, last)));
  }

  lemma RunSnoc(s: Settings, w: World, events: seq<Event>, event: Event)
    ensures RunFrom(s, w, events + [event]) == Step(s, RunFrom(s, w, events), event)
  {
    assert (events + [event])[..|events|] == events;
  }

  lemma SettleKeepsAll(s: Settings, w: World, id: string, now: real, rates: Option<seq<Bar>>)
    requires Inv(s, w)
    ensures Inv(s, Step(s, w, Event.Settle(id, now, rates)))
  {
    forall x ensures Balanced(Step(s, w, Event.Settle(id, now, rates)), x) {
      SettleKeepsBalance(s, w, id, now, rates, x);
    }
    SettleKeepsRecords(s, w, id, now, rates);
    SettleIsTimely(s, w, id, now, rates);
  }
}
