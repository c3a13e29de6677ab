/** How long an entry waits while the chain stays unavailable. */
module OutboxBackoff {
  import opened Collections
  import opened AnchorBase
  import opened AnchorOutbox
  import opened OutboxRuns

  lemma {:induction false} Pow2Grows(m: nat, n: nat)
    requires m <= n
    ensures 1.0 <= Pow2(m) <= Pow2(n)
    decreases n
  {
    if m < n {
      Pow2Grows(m, n - 1);
    } else if n > 0 {
      Pow2Grows(n - 1, n - 1);
    }
  }

  /** The delay never shrinks and is capped, and from the ninth failure on it sits at the cap. */
  lemma DelayIsMonotoneAndCapped(m: nat, n: nat)
    requires 0 < m <= n
    ensures 5.0 <= Delay(m) <= Delay(n) <= 900.0
    ensures 9 <= m ==> Delay(m) == 900.0
    ensures Delay(1) == 5.0 && Delay(m + 1) == if 2.0 * Delay(m) < 900.0 then 2.0 * Delay(m) else 900.0
  {
    Pow2Grows(m - 1, n - 1);
    if 9 <= m {
      Pow2Grows(8, m - 1);
      PowersOfTwo();
    }
  }

  lemma PowersOfTwo()
    ensures Pow2(0) == 1.0 && Pow2(1) == 2.0 && Pow2(2) == 4.0 && Pow2(3) == 8.0 && Pow2(4) == 16.0
    ensures Pow2(5) == 32.0 && Pow2(6) == 64.0 && Pow2(7) == 128.0 && Pow2(8) == 256.0
  {
    assert Pow2(2) == 2.0 * Pow2(1);
    assert Pow2(4) == 2.0 * Pow2(3);
    assert Pow2(6) == 2.0 * Pow2(5);
  }

  /** The least time from the first attempt to the (n + 1)-st. */
  function Waited(n: nat): real { if n == 0 then 0.0 else Waited(n - 1) + Delay(n) }

  lemma {:induction false} WaitedIsLinearAfterNine(k: nat)
    requires k >= 9
    ensures Waited(k - 1) == 1275.0 + 900.0 * (k - 9) as real
  {
    if k == 9 {
      PowersOfTwo();
      assert Waited(2) == 15.0;
      assert Waited(4) == 75.0;
      assert Waited(6) == 315.0;
      assert Waited(8) == 1275.0;
    } else {
      WaitedIsLinearAfterNine(k - 1);
      DelayIsMonotoneAndCapped(k - 1, k - 1);
    }
  }

  /** When the backend was asked about id, in order. */
  ghost function Tries(w: World, events: seq<Event>, id: nat, maxAttempts: nat): seq<real> {
    if events == [] then []
    else
      var init, last := events[..|events| - 1], events[|events| - 1];
      AfterEvent(Tries(w, init, id, maxAttempts), Run(w, init, maxAttempts).box, last, id)
  }

  ghost function AfterEvent(tries: seq<real>, b: Box, event: Event, id: nat): seq<real> {
    if event.Attempt? && event.id == id && id in b.pending.at && Submits(b, b.pending.at[id], event.now)
    then tries + [event.now]
    else tries
  }

  /** One process, no requeue of this entry, and the chain always unavailable for it. */
  ghost predicate ChainIsDownFor(id: nat, events: seq<Event>) {
    forall event :: event in events ==>
      && Moves(event)
      && (event.Requeue? ==> event.id != id)
      && (event.Attempt? && event.id == id ==> event.reply.Unavailable?)
  }

  ghost predicate Spaced(tries: seq<real>) {
    forall i :: 0 < i < |tries| ==> tries[i - 1] + Delay(i) <= tries[i]
  }

  /** Queued and never tried. */
  ghost predicate Untried(w: World, id: nat) {
    && Inv(w)
    && id in w.box.pending.at
    && w.box.pending.at[id] == w.box.pending.at[id].Core()
    && w.box.pending.at[id].op in {"add_record", "update_status"}
    && id !in w.box.parked.at
  }

  ghost predicate Waiting(b: Box, id: nat, tries: seq<real>, maxAttempts: nat) {
    && (id in b.pending.at <==> maxAttempts == 0 || |tries| < maxAttempts)
    && (id in b.pending.at ==>
          && b.pending.at[id].attempts == |tries|
          && b.pending.at[id].op in {"add_record", "update_status"}
          && (tries != [] ==> b.pending.at[id].nextAttemptAt == tries[|tries| - 1] + Delay(|tries|)))
    && Spaced(tries)
  }

  ghost predicate SamePending(b: Box, b': Box, id: nat) {
    && (id in b'.pending.at <==> id in b.pending.at)
    && (id in b.pending.at ==> b'.pending.at[id] == b.pending.at[id])
  }

  lemma LandKeepsOthers(w: World, e: Entry, r: AnchorResult, now: real, id: nat)
    requires e.id != id
    ensures SamePending(w.box, Moved(w, Land(e, r), now).box, id)
  {
  }

  lemma ShelveKeepsOthers(w: World, e: Entry, error: string, now: real, id: nat)
    requires e.id != id
    ensures SamePending(w.box, Moved(w, Shelve(e, error), now).box, id)
  {
  }

  lemma SetKeepsOthers(w: World, m: Move, now: real, id: nat)
    requires (m.Add? || m.Retry? || m.Revive?) && m.entry.id != id
    ensures SamePending(w.box, Moved(w, m, now).box, id)
  {
  }

  lemma MoveKeepsOthers(w: World, m: Move, now: real, id: nat)
    requires Offers(w, m) && id in w.born
    requires (m.Land? || m.Shelve? || m.Retry? || m.Revive?) ==> m.entry.id != id
    ensures SamePending(w.box, Moved(w, m, now).box, id)
  {
    match m
    case Land(e, r) => LandKeepsOthers(w, e, r, now, id);
    case Shelve(e, error) => ShelveKeepsOthers(w, e, error, now, id);
    case Add(_) => SetKeepsOthers(w, m, now, id);
    case Retry(_) => SetKeepsOthers(w, m, now, id);
    case Revive(_) => SetKeepsOthers(w, m, now, id);
    case _ =>
  }

  lemma MoveEntryId(w: World, event: Event, maxAttempts: nat)
    requires Inv(w) && (event.Attempt? || event.Requeue?)
    ensures var m := MoveOf(w, event, maxAttempts);
            m.Land? || m.Shelve? || m.Retry? || m.Revive? ==> m.entry.id == event.id
  {
    if event.Attempt? && event.id in w.box.pending.at {
      assert w.box.pending.at[event.id].Core().id == event.id;
    }
  }

  lemma OtherEventKeepsWaiting(w: World, event: Event, id: nat, tries: seq<real>, maxAttempts: nat)
    requires Inv(w) && id in w.born && Moves(event) && Waiting(w.box, id, tries, maxAttempts)
    requires (event.Attempt? || event.Requeue?) ==> event.id != id
    ensures Waiting(Step(w, event, maxAttempts).box, id, tries, maxAttempts)
  {
    StepIsMove(w, event, maxAttempts);
    if !event.Enqueue? {
      MoveEntryId(w, event, maxAttempts);
    }
    MoveKeepsOthers(w, MoveOf(w, event, maxAttempts), Now(event), id);
  }

  lemma BackoffKeepsWaiting(b: Box, id: nat, error: string, now: real, tries: seq<real>, maxAttempts: nat)
    requires id in b.pending.at && b.pending.at[id].id == id && Waiting(b, id, tries, maxAttempts)
    requires b.pending.at[id].nextAttemptAt <= now
    ensures Waiting(BackoffEffect(b, b.pending.at[id], error, now, maxAttempts).box, id, tries + [now], maxAttempts)
  {
    var e' := Retried(b.pending.at[id], error, now);
    assert e'.id == e'.Core().id == b.pending.at[id].Core().id == id;
    assert e'.op == e'.Core().op == b.pending.at[id].Core().op;
    assert e'.attempts == |tries + [now]|;
  }

  lemma EventKeepsWaiting(w: World, event: Event, id: nat, tries: seq<real>, maxAttempts: nat)
    requires Inv(w) && id in w.born && Moves(event) && Waiting(w.box, id, tries, maxAttempts)
    requires event.Requeue? ==> event.id != id
    requires event.Attempt? && event.id == id ==> event.reply.Unavailable?
    ensures Waiting(Step(w, event, maxAttempts).box, id, AfterEvent(tries, w.box, event, id), maxAttempts)
  {
    if !event.Attempt? || event.id != id {
      OtherEventKeepsWaiting(w, event, id, tries, maxAttempts);
    } else if id in w.box.pending.at && w.box.pending.at[id].nextAttemptAt <= event.now {
      var e := w.box.pending.at[id];
      assert e.Core() == w.born[id] && e.id == id && e.DedupeKey() !in w.box.done;
      BackoffKeepsWaiting(w.box, id, event.reply.error, event.now, tries, maxAttempts);
    }
  }

  ghost predicate WaitsThrough(w: World, id: nat, events: seq<Event>, maxAttempts: nat) {
    var w' := Run(w, events, maxAttempts);
    Inv(w') && id in w'.born && Waiting(w'.box, id, Tries(w, events, id, maxAttempts), maxAttempts)
  }

  lemma WaitsThroughOneMore(w: World, id: nat, events: seq<Event>, last: Event, maxAttempts: nat)
    requires WaitsThrough(w, id, events, maxAttempts) && ChainIsDownFor(id, [last])
    ensures WaitsThrough(w, id, events + [last], maxAttempts)
  {
    var w' := Run(w, events, maxAttempts);
    assert last in [last];
    RunSnoc(w, events, last, maxAttempts);
    StepKeepsInv(w', last, maxAttempts);
    StepBears(w', last, id, maxAttempts);
    EventKeepsWaiting(w', last, id, Tries(w, events, id, maxAttempts), maxAttempts);
    TriesSnoc(w, events, last, id, maxAttempts);
  }

  lemma TriesSnoc(w: World, events: seq<Event>, last: Event, id: nat, maxAttempts: nat)
    ensures Tries(w, events + [last], id, maxAttempts)
         == AfterEvent(Tries(w, events, id, maxAttempts), Run(w, events, maxAttempts).box, last, id)
  {
    assert (events + [last])[..|events|] == events;
  }

  lemma StepBears(w: World, event: Event, id: nat, maxAttempts: nat)
    requires id in w.born
    ensures id in Step(w, event, maxAttempts).born
  {
  }

  lemma {:induction false} WaitingOverARun(w: World, id: nat, events: seq<Event>, maxAttempts: nat)
    requires Untried(w, id) && ChainIsDownFor(id, events)
    ensures WaitsThrough(w, id, events, maxAttempts)
    decreases |events|
  {
    if events != [] {
      var init, last := events[..|events| - 1], events[|events| - 1];
      InitAndLast(events);
      assert last in events;
      WaitingOverARun(w, id, init, maxAttempts);
      WaitsThroughOneMore(w, id, init, last, maxAttempts);
    }
  }

  lemma {:induction false} SpacedTriesAddUp(tries: seq<real>, n: nat)
    requires Spaced(tries) && n < |tries|
    ensures tries[n] - tries[0] >= Waited(n)
  {
    if n > 0 {
      SpacedTriesAddUp(tries, n - 1);
    }
  }

  lemma SpacedTriesTakeTime(tries: seq<real>, k: nat)
    requires Spaced(tries) && 9 <= k <= |tries|
    ensures tries[k - 1] - tries[0] >= 1275.0 + 900.0 * (k - 9) as real
  {
    SpacedTriesAddUp(tries, k - 1);
    WaitedIsLinearAfterNine(k);
  }

  /**
   * While the chain is down, the k-th attempt on an entry starts at least
   * 1275 + 900 (k - 9) seconds after the first, for k from 9 on; and the entry
   * is still queued exactly as long as no attempt limit has been reached.
   */
  lemma DeadChainIsNotHammered(w: World, id: nat, events: seq<Event>, maxAttempts: nat, k: nat)
    requires Untried(w, id) && ChainIsDownFor(id, events)
    ensures var tries := Tries(w, events, id, maxAttempts);
            && (9 <= k <= |tries| ==> tries[k - 1] - tries[0] >= 1275.0 + 900.0 * (k - 9) as real)
            && (id in Run(w, events, maxAttempts).box.pending.at <==> maxAttempts == 0 || |tries| < maxAttempts)
  {
    WaitingOverARun(w, id, events, maxAttempts);
    var tries := Tries(w, events, id, maxAttempts);
    if 9 <= k <= |tries| {
      SpacedTriesTakeTime(tries, k);
    }
  }
}
