/** What the log guarantees over runs: it rebuilds memory, it loses nothing, and compaction is invisible. */
module OutboxRefinement {
  import opened Collections
  import opened AnchorBase
  import opened AnchorOutbox
  import opened OutboxReplay
  import opened OutboxRuns

  // ── replay rebuilds memory ────────────────────────────────────────────────

  ghost predicate SameUpToRetries(x: Dict<nat, Entry>, y: Dict<nat, Entry>) {
    && x.keys == y.keys
    && x.at.Keys == y.at.Keys
    && forall id :: id in x.at ==> x.at[id].Core() == y.at[id].Core()
  }

  /** r, rebuilt from the log, agrees with memory b: order included, retry fields excluded. */
  ghost predicate Rebuilds(r: Box, b: Box) {
    && SameUpToRetries(r.pending, b.pending)
    && r.done == b.done
    && (forall id :: id in b.parked.at ==> id in r.parked.at && r.parked.at[id].Core() == b.parked.at[id].Core())
    && (forall id :: id in r.parked.at ==>
          id in b.parked.at || id in b.pending.at || r.parked.at[id].DedupeKey() in b.done)
  }

  /** In terms of ids; the contents follow from Inv. */
  ghost predicate SameQueue(w: World) {
    && w.box.pending.keys == Load(w.log).pending.keys
    && w.box.pending.at.Keys == Load(w.log).pending.at.Keys
    && w.box.parked.at.Keys <= Load(w.log).parked.at.Keys
  }

  lemma SameQueueRebuilds(w: World)
    requires Inv(w) && SameQueue(w)
    ensures Rebuilds(Load(w.log), w.box)
  {
    var r := Load(w.log);
    forall id | id in r.parked.at
      ensures id in w.box.parked.at || id in w.box.pending.at || r.parked.at[id].DedupeKey() in w.box.done
    {
      assert r.parked.at[id].Core() == w.born[id];
    }
  }

  lemma SetBoth(b: Dict<nat, Entry>, r: Dict<nat, Entry>, e: Entry)
    requires b.keys == r.keys && b.at.Keys == r.at.Keys
    ensures b.Set(e.id, e).keys == r.Set(e.id, e).keys
    ensures b.Set(e.id, e).at.Keys == r.Set(e.id, e).at.Keys
  {
  }

  lemma AddKeepsQueue(w: World, e: Entry, now: real)
    requires Inv(w) && SameQueue(w) && Offers(w, Add(e))
    ensures SameQueue(Moved(w, Add(e), now))
  {
    LoadAppend(w.log, Enqueued(e));
    SetBoth(w.box.pending, Load(w.log).pending, e);
  }

  lemma ReviveKeepsQueue(w: World, e: Entry, now: real)
    requires Inv(w) && SameQueue(w) && Offers(w, Revive(e))
    ensures SameQueue(Moved(w, Revive(e), now))
  {
    LoadAppend(w.log, Enqueued(e));
    SetBoth(w.box.pending, Load(w.log).pending, e);
  }

  lemma PopBoth(b: Dict<nat, Entry>, r: Dict<nat, Entry>, id: nat)
    requires b.keys == r.keys && b.at.Keys == r.at.Keys
    ensures b.Pop(id).keys == r.Pop(id).keys && b.Pop(id).at.Keys == r.Pop(id).at.Keys
  {
  }

  lemma LandKeepsQueue(w: World, e: Entry, r: AnchorResult, now: real)
    requires SameQueue(w) && Offers(w, Land(e, r))
    ensures SameQueue(Moved(w, Land(e, r), now))
  {
    var line, before := SentLine(e, r, now), Load(w.log);
    LoadAppend(w.log, line);
    PopBoth(w.box.pending, before.pending, e.id);
    assert Replay(before, line).pending == before.pending.Pop(e.id) && Replay(before, line).parked == before.parked;
  }

  lemma ShelveKeepsQueue(w: World, e: Entry, error: string, now: real)
    requires SameQueue(w) && Offers(w, Shelve(e, error))
    ensures SameQueue(Moved(w, Shelve(e, error), now))
  {
    var r := Load(w.log);
    var r' := Replay(r, Parked(e.id, error, now));
    LoadAppend(w.log, Parked(e.id, error, now));
    PopBoth(w.box.pending, r.pending, e.id);
    assert r'.pending == r.pending.Pop(e.id) && r'.parked.at.Keys == r.parked.at.Keys + {e.id};
  }

  lemma RetryKeepsQueue(w: World, e: Entry, now: real)
    requires SameQueue(w) && Offers(w, Retry(e))
    ensures SameQueue(Moved(w, Retry(e), now))
  {
  }

  lemma DropKeepsQueue(w: World, id: nat, now: real)
    requires SameQueue(w)
    ensures SameQueue(Moved(w, Drop(id), now))
  {
  }

  lemma MoveKeepsQueue(w: World, m: Move, now: real)
    requires Inv(w) && SameQueue(w) && Offers(w, m)
    ensures SameQueue(Moved(w, m, now))
  {
    match m
    case Add(e) => AddKeepsQueue(w, e, now);
    case Revive(e) => ReviveKeepsQueue(w, e, now);
    case Land(e, r) => LandKeepsQueue(w, e, r, now);
    case Shelve(e, error) => ShelveKeepsQueue(w, e, error, now);
    case Retry(e) => RetryKeepsQueue(w, e, now);
    case Drop(id) => DropKeepsQueue(w, id, now);
    case Stay =>
  }

  lemma StepKeepsQueue(w: World, event: Event, maxAttempts: nat)
    requires Inv(w) && SameQueue(w)
    requires event.Compact? ==> w.box.parked.keys == []
    ensures SameQueue(Step(w, event, maxAttempts))
  {
    if Moves(event) {
      StepIsMove(w, event, maxAttempts);
      MoveKeepsQueue(w, MoveOf(w, event, maxAttempts), Now(event));
    } else if event.Compact? && Enumerates(event.keys, w.box.done) {
      CompactionIsFaithfulIffNothingParked(w.box, event.keys);
    }
  }

  /** Every compaction of the run happens while nothing is parked. */
  ghost predicate CompactsOnlyUnparked(events: seq<Event>, maxAttempts: nat) {
    forall i :: 0 <= i < |events| ==> UnparkedAt(events, i, maxAttempts)
  }

  ghost predicate UnparkedAt(events: seq<Event>, i: nat, maxAttempts: nat)
    requires i < |events|
  {
    events[i].Compact? ==> Run(START, events[..i], maxAttempts).box.parked.keys == []
  }

  lemma UnparkedPrefix(events: seq<Event>, n: nat, maxAttempts: nat)
    requires n <= |events| && CompactsOnlyUnparked(events, maxAttempts)
    ensures CompactsOnlyUnparked(events[..n], maxAttempts)
  {
    forall i | 0 <= i < n ensures UnparkedAt(events[..n], i, maxAttempts) {
      assert events[..n][..i] == events[..i] && UnparkedAt(events, i, maxAttempts);
    }
  }

  lemma UnparkedThen(events: seq<Event>, event: Event, maxAttempts: nat)
    requires CompactsOnlyUnparked(events, maxAttempts) && !event.Compact?
    ensures CompactsOnlyUnparked(events + [event], maxAttempts)
  {
    forall i | 0 <= i < |events| + 1 ensures UnparkedAt(events + [event], i, maxAttempts) {
      if i < |events| {
        assert (events + [event])[..i] == events[..i] && UnparkedAt(events, i, maxAttempts);
      }
    }
  }

  lemma {:induction false} RunKeepsQueue(events: seq<Event>, maxAttempts: nat)
    requires CompactsOnlyUnparked(events, maxAttempts)
    ensures SameQueue(Run(START, events, maxAttempts))
  {
    if events != [] {
      var n := |events| - 1;
      UnparkedPrefix(events, n, maxAttempts);
      assert UnparkedAt(events, n, maxAttempts);
      RunKeepsQueue(events[..n], maxAttempts);
      RunKeepsInv(events[..n], maxAttempts);
      StepKeepsQueue(Run(START, events[..n], maxAttempts), events[n], maxAttempts);
    }
  }

  /** Replaying the log after any such run rebuilds memory. */
  lemma {:induction false} ReplayRebuildsMemory(events: seq<Event>, maxAttempts: nat)
    requires CompactsOnlyUnparked(events, maxAttempts)
    ensures Rebuilds(Load(Run(START, events, maxAttempts).log), Run(START, events, maxAttempts).box)
  {
    RunKeepsInv(events, maxAttempts);
    RunKeepsQueue(events, maxAttempts);
    SameQueueRebuilds(Run(START, events, maxAttempts));
  }

  /** The first crash inside an append reloads to the state before or after the interrupted event. */
  lemma {:induction false} FirstTornAppendIsHarmless(events: seq<Event>, event: Event, maxAttempts: nat,
                                                     file: seq<Line>)
    requires CompactsOnlyUnparked(events, maxAttempts) && !event.Compact?
    requires var w, w' := Run(START, events, maxAttempts), Run(START, events + [event], maxAttempts);
             file == w.log || file == w.log + [Torn] || file == w'.log
    ensures || Rebuilds(Load(file), Run(START, events, maxAttempts).box)
            || Rebuilds(Load(file), Run(START, events + [event], maxAttempts).box)
  {
    ReplayRebuildsMemory(events, maxAttempts);
    UnparkedThen(events, event, maxAttempts);
    ReplayRebuildsMemory(events + [event], maxAttempts);
    LoadAppend(Run(START, events, maxAttempts).log, Torn);
  }

  // ── nothing accepted is lost ──────────────────────────────────────────────

  ghost function KeysHeld(s: Shape, born: map<nat, Entry>): set<Key>
    requires Born(s, born)
  {
    s.done + set id | id in s.pending + s.parked :: born[id].DedupeKey()
  }

  ghost predicate HoldsAll(s: Shape, born: map<nat, Entry>) {
    Born(s, born) && forall id :: id in born ==> born[id].DedupeKey() in KeysHeld(s, born)
  }

  ghost predicate NothingLost(w: World) {
    HoldsAll(ShapeOf(w.box), w.born) && HoldsAll(ShapeOf(Load(w.log)), w.born)
  }

  lemma KeysHeldAreOutstanding(b: Box, born: map<nat, Entry>)
    requires Genuine(b, born)
    ensures KeysHeld(ShapeOf(b), born) == b.Outstanding()
  {
    forall id | id in b.pending.at.Keys ensures b.pending.at[id].DedupeKey() == born[id].DedupeKey() {
      assert b.pending.at[id].Core() == born[id];
    }
    forall id | id in b.parked.at.Keys ensures b.parked.at[id].DedupeKey() == born[id].DedupeKey() {
      assert b.parked.at[id].Core() == born[id];
    }
  }

  lemma HoldsAllMoves(s: Shape, id: nat, born: map<nat, Entry>)
    requires HoldsAll(s, born) && id in born
    ensures HoldsAll(s.(pending := s.pending + {id}), born)
    ensures HoldsAll(s.(pending := s.pending - {id}, done := s.done + {born[id].DedupeKey()}), born)
    ensures HoldsAll(s.(pending := s.pending - {id}, parked := s.parked + {id}), born)
    ensures HoldsAll(s.(pending := s.pending + {id}, parked := s.parked - {id}), born)
    ensures born[id].DedupeKey() in s.done ==> HoldsAll(s.(parked := s.parked - {id}), born)
  {
  }

  lemma HoldsAllGrows(s: Shape, born: map<nat, Entry>, e: Entry)
    requires HoldsAll(s, born) && e.id !in born
    ensures HoldsAll(s.(pending := s.pending + {e.id}), born[e.id := e])
  {
    var s', born' := s.(pending := s.pending + {e.id}), born[e.id := e];
    forall id | id in born' ensures born'[id].DedupeKey() in KeysHeld(s', born') {
      if id != e.id && born[id].DedupeKey() !in s.done {
        var j :| j in s.pending + s.parked && born[j].DedupeKey() == born[id].DedupeKey();
        assert born'[j] == born[j];
      }
    }
  }

  lemma RetryLosesNothing(w: World, e: Entry, now: real)
    requires Inv(w) && NothingLost(w) && Offers(w, Retry(e))
    ensures NothingLost(Moved(w, Retry(e), now))
  {
    SetPending(w.box, e, w.born);
    HoldsAllMoves(ShapeOf(w.box), e.id, w.born);
  }

  lemma DropLosesNothing(w: World, id: nat, now: real)
    requires Inv(w) && NothingLost(w) && Offers(w, Drop(id))
    ensures NothingLost(Moved(w, Drop(id), now))
  {
    PopParked(w.box, id, w.born);
    assert w.box.parked.at[id].Core() == w.born[id];
    HoldsAllMoves(ShapeOf(w.box), id, w.born);
  }

  lemma MoveLosesNothing(w: World, m: Move, now: real)
    requires Inv(w) && NothingLost(w) && Offers(w, m)
    ensures NothingLost(Moved(w, m, now))
  {
    match m
    case Stay =>
    case Add(e) => AddLosesNothing(w, e, now);
    case Land(e, result) => LandLosesNothing(w, e, result, now);
    case Shelve(e, error) => ShelveLosesNothing(w, e, error, now);
    case Retry(e) => RetryLosesNothing(w, e, now);
    case Drop(id) => DropLosesNothing(w, id, now);
    case Revive(e) => ReviveLosesNothing(w, e, now);
  }

  lemma AddLosesNothing(w: World, e: Entry, now: real)
    requires Inv(w) && NothingLost(w) && Offers(w, Add(e))
    ensures NothingLost(Moved(w, Add(e), now))
  {
    var born := w.born[e.id := e];
    GenuineWhenMoreAreBorn(w.box, w.born, e);
    GenuineWhenMoreAreBorn(Load(w.log), w.born, e);
    SetPending(w.box, e, born);
    LoadAppend(w.log, Enqueued(e));
    ReplayEnqueued(Load(w.log), e, born);
    HoldsAllGrows(ShapeOf(w.box), w.born, e);
    HoldsAllGrows(ShapeOf(Load(w.log)), w.born, e);
  }

  lemma LandLosesNothing(w: World, e: Entry, result: AnchorResult, now: real)
    requires Inv(w) && NothingLost(w) && Offers(w, Land(e, result))
    ensures NothingLost(Moved(w, Land(e, result), now))
  {
    var line := SentLine(e, result, now);
    assert e.Core() == w.born[e.id] && e.DedupeKey() == w.born[e.id].DedupeKey();
    PopPending(w.box, e.id, w.born);
    LoadAppend(w.log, line);
    ReplaySent(Load(w.log), e.id, line, w.born);
    HoldsAllMoves(ShapeOf(w.box), e.id, w.born);
    HoldsAllMoves(ShapeOf(Load(w.log)), e.id, w.born);
  }

  lemma ShelveLosesNothing(w: World, e: Entry, error: string, now: real)
    requires Inv(w) && NothingLost(w) && Offers(w, Shelve(e, error))
    ensures NothingLost(Moved(w, Shelve(e, error), now))
  {
    var line := Parked(e.id, error, now);
    PopPending(w.box, e.id, w.born);
    SetParked(w.box.(pending := w.box.pending.Pop(e.id)), e.(lastError := error), w.born);
    LoadAppend(w.log, line);
    ReplayParked(Load(w.log), e.id, line, w.born);
    HoldsAllMoves(ShapeOf(w.box), e.id, w.born);
    HoldsAllMoves(ShapeOf(Load(w.log)), e.id, w.born);
  }

  lemma ReviveLosesNothing(w: World, e: Entry, now: real)
    requires Inv(w) && NothingLost(w) && Offers(w, Revive(e))
    ensures NothingLost(Moved(w, Revive(e), now))
  {
    assert e.Core() == w.born[e.id] && e.DedupeKey() == w.born[e.id].DedupeKey();
    PopParked(w.box, e.id, w.born);
    SetPending(w.box.(parked := w.box.parked.Pop(e.id)), e, w.born);
    LoadAppend(w.log, Enqueued(e));
    ReplayEnqueued(Load(w.log), e, w.born);
    HoldsAllMoves(ShapeOf(w.box), e.id, w.born);
    HoldsAllMoves(ShapeOf(Load(w.log)), e.id, w.born);
  }

  /** Compacting now drops no key: whatever is parked is also pending or finished. */
  ghost predicate ParkedIsCovered(b: Box) {
    b.ParkedKeys() <= b.PendingKeys() + b.done
  }

  /**
   * A compaction followed by a reload keeps exactly the pending and finished
   * keys, so it loses a key if and only if that key was only parked.
   */
  lemma {:induction false} CompactionLosesExactly(events: seq<Event>, keys: seq<Key>, maxAttempts: nat, key: Key)
    requires Enumerates(keys, Run(START, events, maxAttempts).box.done)
    requires key in Run(START, events, maxAttempts).box.Outstanding()
    ensures var b := Run(START, events, maxAttempts).box;
            var r := Run(START, events + [Compact(keys)] + [Restart], maxAttempts).box;
            key !in r.Outstanding() <==> key in b.ParkedKeys() && key !in b.PendingKeys() && key !in b.done
  {
    var w := Run(START, events, maxAttempts);
    RunKeepsInv(events, maxAttempts);
    CompactThenRestart(w, events, keys, maxAttempts);
    CompactedKeys(w.box, keys, w.born);
  }

  lemma CompactThenRestart(w: World, events: seq<Event>, keys: seq<Key>, maxAttempts: nat)
    requires w == Run(START, events, maxAttempts) && w.box.Valid() && Enumerates(keys, w.box.done)
    ensures Run(START, events + [Compact(keys)] + [Restart], maxAttempts)
         == w.(box := Load(CompactLines(w.box, keys)), log := CompactLines(w.box, keys))
  {
    RunSnoc(START, events, Compact(keys), maxAttempts);
    RunSnoc(START, events + [Compact(keys)], Restart, maxAttempts);
    CompactStepThenRestart(w, keys, maxAttempts);
  }

  lemma CompactStepThenRestart(w: World, keys: seq<Key>, maxAttempts: nat)
    requires w.box.Valid() && Enumerates(keys, w.box.done)
    ensures Step(Step(w, Compact(keys), maxAttempts), Restart, maxAttempts)
         == w.(box := Load(CompactLines(w.box, keys)), log := CompactLines(w.box, keys))
  {
  }

  lemma KeysOfIds(b: Box, r: Box, born: map<nat, Entry>)
    requires Genuine(b, born) && Genuine(r, born)
    requires r.done == b.done && r.pending.at.Keys + r.parked.at.Keys == b.pending.at.Keys
    ensures r.Outstanding() == b.done + b.PendingKeys()
  {
    KeysHeldAreOutstanding(r, born);
    forall id | id in b.pending.at ensures b.pending.at[id].DedupeKey() == born[id].DedupeKey() {
      assert b.pending.at[id].Core() == born[id];
    }
  }

  lemma CompactedKeys(b: Box, keys: seq<Key>, born: map<nat, Entry>)
    requires Genuine(b, born) && Enumerates(keys, b.done)
    ensures Load(CompactLines(b, keys)).Outstanding() == b.done + b.PendingKeys()
  {
    var r := Load(CompactLines(b, keys));
    CompactedShape(b, keys, born);
    assert ShapeOf(r).pending + ShapeOf(r).parked == b.pending.at.Keys;
    KeysOfIds(b, r, born);
  }

  /** A compaction that really rewrites the log. */
  ghost predicate Rewrites(w: World, event: Event) { event.Compact? && Enumerates(event.keys, w.box.done) }

  /** No such compaction finds a key that is parked only. */
  ghost predicate CompactsOnlyCovered(events: seq<Event>, maxAttempts: nat) {
    forall i :: 0 <= i < |events| ==> CoveredAt(events, i, maxAttempts)
  }

  ghost predicate CoveredAt(events: seq<Event>, i: nat, maxAttempts: nat)
    requires i < |events|
  {
    var w := Run(START, events[..i], maxAttempts);
    Rewrites(w, events[i]) ==> ParkedIsCovered(w.box)
  }

  lemma StepLosesNothing(w: World, event: Event, maxAttempts: nat)
    requires Inv(w) && NothingLost(w)
    requires Rewrites(w, event) ==> ParkedIsCovered(w.box)
    ensures NothingLost(Step(w, event, maxAttempts))
  {
    if Moves(event) {
      StepIsMove(w, event, maxAttempts);
      MoveLosesNothing(w, MoveOf(w, event, maxAttempts), Now(event));
    } else if event.Compact? && Enumerates(event.keys, w.box.done) {
      CompactKeepsInv(w, event.keys, maxAttempts);
      CompactedKeys(w.box, event.keys, w.born);
      KeysHeldAreOutstanding(w.box, w.born);
      KeysHeldAreOutstanding(Load(CompactLines(w.box, event.keys)), w.born);
    }
  }

  lemma {:induction false} RunLosesNothing(events: seq<Event>, maxAttempts: nat)
    requires CompactsOnlyCovered(events, maxAttempts)
    ensures NothingLost(Run(START, events, maxAttempts))
  {
    if events != [] {
      var n := |events| - 1;
      CoveredPrefix(events, n, maxAttempts);
      assert CoveredAt(events, n, maxAttempts);
      RunLosesNothing(events[..n], maxAttempts);
      RunKeepsInv(events[..n], maxAttempts);
      StepLosesNothing(Run(START, events[..n], maxAttempts), events[n], maxAttempts);
    }
  }

  /** A record handed to the outbox stays queued, parked or anchored, in memory and after any reload. */
  lemma {:induction false} AcceptedIsNeverLost(events: seq<Event>, maxAttempts: nat, id: nat)
    requires CompactsOnlyCovered(events, maxAttempts) && id in Run(START, events, maxAttempts).born
    ensures var w := Run(START, events, maxAttempts);
            w.born[id].DedupeKey() in w.box.Outstanding() && w.born[id].DedupeKey() in Load(w.log).Outstanding()
  {
    RunLosesNothing(events, maxAttempts);
    RunKeepsInv(events, maxAttempts);
    var w := Run(START, events, maxAttempts);
    KeysHeldAreOutstanding(w.box, w.born);
    KeysHeldAreOutstanding(Load(w.log), w.born);
  }

  // ── nothing is accepted twice ─────────────────────────────────────────────

  ghost predicate KeysOnce(born: map<nat, Entry>) {
    forall i, j :: i in born && j in born && born[i].DedupeKey() == born[j].DedupeKey() ==> i == j
  }

  /** The memory and the log hold every accepted key, and no key was accepted twice. */
  ghost predicate Single(w: World) { Inv(w) && NothingLost(w) && KeysOnce(w.born) }

  lemma StepBears(w: World, event: Event, maxAttempts: nat)
    ensures var w' := Step(w, event, maxAttempts);
            if event.Enqueue? && Fresh(w, event.entry) && !Known(w.box, event.entry.DedupeKey())
            then w'.born == w.born[event.entry.id := event.entry]
            else w'.born == w.born
  {
  }

  lemma OutstandingIsKnown(b: Box, key: Key)
    requires key in b.Outstanding()
    ensures Known(b, key)
  {
  }

  lemma BornIsKnown(w: World, id: nat)
    requires Inv(w) && NothingLost(w) && id in w.born
    ensures Known(w.box, w.born[id].DedupeKey())
  {
    KeysHeldAreOutstanding(w.box, w.born);
    OutstandingIsKnown(w.box, w.born[id].DedupeKey());
  }

  lemma NewKeyStaysOnce(w: World, e: Entry)
    requires Single(w) && e.id !in w.born && !Known(w.box, e.DedupeKey())
    ensures KeysOnce(w.born[e.id := e])
  {
    forall id | id in w.born ensures w.born[id].DedupeKey() != e.DedupeKey() {
      BornIsKnown(w, id);
    }
  }

  lemma StepKeepsSingle(w: World, event: Event, maxAttempts: nat)
    requires Single(w) && (Rewrites(w, event) ==> ParkedIsCovered(w.box))
    ensures Single(Step(w, event, maxAttempts))
  {
    StepKeepsInv(w, event, maxAttempts);
    StepLosesNothing(w, event, maxAttempts);
    StepBears(w, event, maxAttempts);
    if event.Enqueue? && Fresh(w, event.entry) && !Known(w.box, event.entry.DedupeKey()) {
      NewKeyStaysOnce(w, event.entry);
    }
  }

  lemma {:induction false} RunKeepsSingle(events: seq<Event>, maxAttempts: nat)
    requires CompactsOnlyCovered(events, maxAttempts)
    ensures Single(Run(START, events, maxAttempts))
  {
    if events != [] {
      var n := |events| - 1;
      CoveredPrefix(events, n, maxAttempts);
      assert CoveredAt(events, n, maxAttempts);
      RunKeepsSingle(events[..n], maxAttempts);
      StepKeepsSingle(Run(START, events[..n], maxAttempts), events[n], maxAttempts);
    }
  }

  /** No two entries that the outbox ever accepts have the same dedupe key, crashes and reloads included. */
  lemma NoKeyIsAcceptedTwice(events: seq<Event>, maxAttempts: nat, i: nat, j: nat)
    requires CompactsOnlyCovered(events, maxAttempts)
    requires i in Run(START, events, maxAttempts).born && j in Run(START, events, maxAttempts).born
    ensures var born := Run(START, events, maxAttempts).born;
            born[i].DedupeKey() == born[j].DedupeKey() <==> i == j
  {
    RunKeepsSingle(events, maxAttempts);
  }

  /** Every accepted key is queued, parked or anchored, in memory and after a reload. */
  ghost predicate KeepsEverything(w: World) {
    forall id :: id in w.born ==> KeepsKeyOf(w, id)
  }

  lemma ParkedKeyIsBorn(w: World, key: Key) returns (id: nat)
    requires Inv(w) && key in w.box.ParkedKeys()
    ensures id in w.born && w.born[id].DedupeKey() == key
  {
    id :| id in w.box.parked.at && w.box.parked.at[id].DedupeKey() == key;
    assert w.box.parked.at[id].Core() == w.born[id];
  }

  lemma UncoveredCompactionDrops(w: World, event: Event, maxAttempts: nat)
    requires Inv(w) && Rewrites(w, event) && KeepsEverything(Step(w, event, maxAttempts))
    ensures ParkedIsCovered(w.box)
  {
    var w' := Step(w, event, maxAttempts);
    assert w'.born == w.born && w'.log == CompactLines(w.box, event.keys);
    CompactedKeys(w.box, event.keys, w.born);
    forall key | key in w.box.ParkedKeys() ensures key in w.box.PendingKeys() + w.box.done {
      var id := ParkedKeyIsBorn(w, key);
      assert KeepsKeyOf(w', id);
    }
  }

  lemma EverythingIsKept(events: seq<Event>, maxAttempts: nat)
    requires CompactsOnlyCovered(events, maxAttempts)
    ensures KeepsEverything(Run(START, events, maxAttempts))
  {
    var w := Run(START, events, maxAttempts);
    forall id | id in w.born ensures KeepsKeyOf(w, id) {
      AcceptedIsNeverLost(events, maxAttempts, id);
    }
  }

  ghost predicate KeptAt(events: seq<Event>, n: nat, maxAttempts: nat)
    requires n <= |events|
  {
    KeepsEverything(Run(START, events[..n], maxAttempts))
  }

  lemma CoveredMeansKept(events: seq<Event>, n: nat, maxAttempts: nat)
    requires n <= |events| && CompactsOnlyCovered(events, maxAttempts)
    ensures KeptAt(events, n, maxAttempts)
  {
    CoveredPrefix(events, n, maxAttempts);
    EverythingIsKept(events[..n], maxAttempts);
  }

  lemma RunNext(events: seq<Event>, i: nat, maxAttempts: nat)
    requires i < |events|
    ensures Run(START, events[..i + 1], maxAttempts) ==
            Step(Run(START, events[..i], maxAttempts), events[i], maxAttempts)
  {
    assert events[..i + 1] == events[..i] + [events[i]];
    RunSnoc(START, events[..i], events[i], maxAttempts);
  }

  lemma KeptMeansCovered(events: seq<Event>, i: nat, maxAttempts: nat)
    requires i < |events| && KeptAt(events, i + 1, maxAttempts)
    ensures CoveredAt(events, i, maxAttempts)
  {
    var w := Run(START, events[..i], maxAttempts);
    RunNext(events, i, maxAttempts);
    RunKeepsInv(events[..i], maxAttempts);
    if Rewrites(w, events[i]) {
      UncoveredCompactionDrops(w, events[i], maxAttempts);
    }
  }

  /**
   * The condition is exact: at every point of a run nothing accepted is lost,
   * in memory or in the log, if and only if no compaction of the run found a
   * key that was parked only.
   */
  lemma NothingIsEverLostIff(events: seq<Event>, maxAttempts: nat)
    ensures (forall n :: 0 <= n <= |events| ==> KeptAt(events, n, maxAttempts))
       <==> (forall i :: 0 <= i < |events| ==> CoveredAt(events, i, maxAttempts))
  {
    if forall i :: 0 <= i < |events| ==> CoveredAt(events, i, maxAttempts) {
      forall n | 0 <= n <= |events| ensures KeptAt(events, n, maxAttempts) {
        CoveredMeansKept(events, n, maxAttempts);
      }
    }
    if forall n :: 0 <= n <= |events| ==> KeptAt(events, n, maxAttempts) {
      forall i | 0 <= i < |events| ensures CoveredAt(events, i, maxAttempts) {
        KeptMeansCovered(events, i, maxAttempts);
      }
    }
  }

  lemma CoveredPrefix(events: seq<Event>, n: nat, maxAttempts: nat)
    requires n <= |events| && CompactsOnlyCovered(events, maxAttempts)
    ensures CompactsOnlyCovered(events[..n], maxAttempts)
  {
    forall i | 0 <= i < n ensures CoveredAt(events[..n], i, maxAttempts) {
      assert events[..n][..i] == events[..i] && CoveredAt(events, i, maxAttempts);
    }
  }

  ghost predicate KeepsKeyOf(w: World, id: nat)
    requires id in w.born
  {
    w.born[id].DedupeKey() in w.box.Outstanding() && w.born[id].DedupeKey() in Load(w.log).Outstanding()
  }

  /** The condition is needed: accepted, refused, compacted, restarted, gone. */
  lemma CompactionCanLoseParkedWork(e: Entry, error: string)
    requires e == e.Core() && e.op == "add_record"
    ensures var events := [Enqueue(e), Attempt(e.id, 0.0, Refused(error))];
            && e.DedupeKey() in Run(START, events, 0).box.Outstanding()
            && e.DedupeKey() !in Run(START, events + [Compact([])] + [Restart], 0).box.Outstanding()
  {
    var refused := Attempt(e.id, 0.0, Refused(error));
    RunSnoc(START, [], Enqueue(e), 0);
    RunSnoc(START, [Enqueue(e)], refused, 0);
    assert [] + [Enqueue(e)] == [Enqueue(e)];
    assert [Enqueue(e)] + [refused] == [Enqueue(e), refused];
    RefusedBox(e, error);
    CompactionLosesExactly([Enqueue(e), refused], [], 0, e.DedupeKey());
  }

  lemma RefusedBox(e: Entry, error: string)
    requires e == e.Core() && e.op == "add_record"
    ensures var w := Step(Step(START, Enqueue(e), 0), Attempt(e.id, 0.0, Refused(error)), 0);
            w.box.PendingKeys() == {} && w.box.done == {} && e.DedupeKey() in w.box.ParkedKeys()
  {
    var w1 := Step(START, Enqueue(e), 0);
    assert w1.box.pending.at == map[e.id := e] && w1.born == map[e.id := e];
    assert w1.box.pending.at - {e.id} == map[];
    var w := Step(w1, Attempt(e.id, 0.0, Refused(error)), 0);
    assert w.box.parked.at == map[e.id := e.(lastError := error)];
    assert w.box.parked.at[e.id].DedupeKey() in w.box.ParkedKeys();
  }

  // ── compaction is invisible ───────────────────────────────────────────────

  /** Equal memory but for the completed-line counter, which no operation but maybe_compact reads. */
  ghost predicate SameMemory(a: World, b: World) {
    && a.box.(completed := 0) == b.box.(completed := 0)
    && a.born == b.born
    && a.returned == b.returned
  }

  lemma StepIsBlindToTheLog(a: World, b: World, event: Event, maxAttempts: nat) returns (lines: seq<Line>)
    requires SameMemory(a, b) && Moves(event)
    ensures var a', b' := Step(a, event, maxAttempts), Step(b, event, maxAttempts);
            SameMemory(a', b') && a'.log == a.log + lines && b'.log == b.log + lines
  {
    assert a.log + [] == a.log && b.log + [] == b.log;
    assert event.Enqueue? ==> Known(a.box, event.entry.DedupeKey()) == Known(b.box, event.entry.DedupeKey());
    lines :=
      if event.Enqueue? && Fresh(a, event.entry) then EnqueueEffect(a.box, event.entry).lines
      else if event.Attempt? && event.id in a.box.pending.at then
        AttemptEffect(a.box, a.box.pending.at[event.id], event.now, maxAttempts, event.reply).lines
      else if event.Requeue? && event.id in a.box.parked.at then
        RequeueEffect(a.box, a.box.parked.at[event.id]).lines
      else [];
  }

  lemma {:induction false} RunIsBlindToTheLog(a: World, b: World, events: seq<Event>,
                                              maxAttempts: nat) returns (lines: seq<Line>)
    requires SameMemory(a, b) && forall event :: event in events ==> Moves(event)
    ensures var a', b' := Run(a, events, maxAttempts), Run(b, events, maxAttempts);
            SameMemory(a', b') && a'.log == a.log + lines && b'.log == b.log + lines
  {
    if events == [] {
      lines := [];
    } else {
      var init := events[..|events| - 1];
      var x := RunIsBlindToTheLog(a, b, init, maxAttempts);
      var a1, b1 := Run(a, init, maxAttempts), Run(b, init, maxAttempts);
      var y := StepIsBlindToTheLog(a1, b1, events[|events| - 1], maxAttempts);
      lines := x + y;
      Reassociate(a.log, x, y);
      Reassociate(b.log, x, y);
    }
  }

  /**
   * With nothing parked, compacting and reloading is a bisimulation: every later
   * sequence of enqueue, drain and requeue rounds leaves the same memory, the
   * same submissions and the same appended lines as without it.
   */
  lemma CompactionIsInvisible(events: seq<Event>, keys: seq<Key>, later: seq<Event>, maxAttempts: nat)
      returns (lines: seq<Line>)
    requires var b := Run(START, events, maxAttempts).box; b.parked.keys == [] && Enumerates(keys, b.done)
    requires forall event :: event in later ==> Moves(event)
    ensures var plain := Run(START, events, maxAttempts);
            var compacted := Run(START, events + [Compact(keys)] + [Restart], maxAttempts);
            var p, c := Run(plain, later, maxAttempts), Run(compacted, later, maxAttempts);
            SameMemory(p, c) && p.log == plain.log + lines && c.log == compacted.log + lines
  {
    var plain := Run(START, events, maxAttempts);
    RunKeepsInv(events, maxAttempts);
    CompactThenRestart(plain, events, keys, maxAttempts);
    CompactionIsFaithfulIffNothingParked(plain.box, keys);
    lines := RunIsBlindToTheLog(plain, Run(START, events + [Compact(keys)] + [Restart], maxAttempts),
                                   later, maxAttempts);
  }
}
