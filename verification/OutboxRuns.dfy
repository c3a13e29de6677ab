/**
 * Whole runs of the outbox. An event is one atomic piece of an operation, so a
 * crash may fall between any two of them; two more events put a crash inside one.
 */
module OutboxRuns {
  import opened Collections
  import opened AnchorBase
  import opened AnchorOutbox
  import opened OutboxReplay

  datatype Event =
    | Enqueue(entry: Entry)
    | Attempt(id: nat, now: real, reply: Reply)                      // one round of a drain
    | DieAfterReturn(id: nat, now: real, result: AnchorResult)       // landed, but the process died before logging it
    | Requeue(id: nat)                                               // one round of requeue_parked
    | Compact(keys: seq<Key>)
    | Restart                                                        // memory is lost, the log is replayed

  /**
   * born, returned and lost only record history: the entry accepted under each
   * id, how often submit returned normally per key, and how many of those
   * returns a crash kept out of the log.
   */
  datatype World = World(box: Box, log: seq<Line>, born: map<nat, Entry>,
                         returned: multiset<Key>, lost: multiset<Key>)

  const START := World(EMPTY, [], map[], multiset{}, multiset{})

  function Apply(w: World, effect: Effect): World {
    w.(box := effect.box, log := w.log + effect.lines)
  }

  /** A new entry has a fresh id and untouched retry fields. */
  predicate Fresh(w: World, e: Entry) {
    e.id !in w.born && e == e.Core()
  }

  predicate Returns(b: Box, e: Entry, now: real, reply: Reply) {
    Submits(b, e, now) && Submit(e, reply).Accepted?
  }

  /** Events that the state does not offer change nothing. */
  ghost function Step(w: World, event: Event, maxAttempts: nat): World {
    match event
    case Enqueue(e) =>
      if !Fresh(w, e) || Known(w.box, e.DedupeKey()) then w
      else Apply(w, EnqueueEffect(w.box, e)).(born := w.born[e.id := e])
    case Attempt(id, now, reply) =>
      if id !in w.box.pending.at then w
      else
        var e := w.box.pending.at[id];
        var w' := Apply(w, AttemptEffect(w.box, e, now, maxAttempts, reply));
        if Returns(w.box, e, now, reply) then w'.(returned := w.returned + multiset{e.DedupeKey()}) else w'
    case DieAfterReturn(id, now, result) =>
      if id !in w.box.pending.at || !Returns(w.box, w.box.pending.at[id], now, Accepted(result)) then w
      else
        var key := w.box.pending.at[id].DedupeKey();
        w.(box := Load(w.log), returned := w.returned + multiset{key}, lost := w.lost + multiset{key})
    case Requeue(id) =>
      if id !in w.box.parked.at then w else Apply(w, RequeueEffect(w.box, w.box.parked.at[id]))
    case Compact(keys) =>
      if !w.box.Valid() || !Enumerates(keys, w.box.done) then w
      else w.(box := w.box.(completed := 0), log := CompactLines(w.box, keys))
    case Restart => w.(box := Load(w.log))
  }

  ghost function Run(w: World, events: seq<Event>, maxAttempts: nat): World {
    if events == [] then w
    else Step(Run(w, events[..|events| - 1], maxAttempts), events[|events| - 1], maxAttempts)
  }

  lemma RunSnoc(w: World, events: seq<Event>, event: Event, maxAttempts: nat)
    ensures Run(w, events + [event], maxAttempts) == Step(Run(w, events, maxAttempts), event, maxAttempts)
  {
    assert (events + [event])[..|events|] == events;
  }

  // ── events as moves ───────────────────────────────────────────────────────

  /** What an event that appends to the log, or touches one entry, comes down to. */
  datatype Move =
    | Stay
    | Add(entry: Entry)                              // accepted into the queue
    | Land(entry: Entry, result: AnchorResult)       // submit returned and was logged
    | Shelve(entry: Entry, error: string)            // parked
    | Retry(entry: Entry)                            // kept, with new retry fields
    | Drop(id: nat)                                  // parked copy of finished work forgotten
    | Revive(entry: Entry)                           // parked work requeued

  ghost function Moved(w: World, m: Move, now: real): World {
    match m
    case Stay => w
    case Add(e) =>
      Apply(w, Effect(w.box.(pending := w.box.pending.Set(e.id, e)), [Enqueued(e)])).(born := w.born[e.id := e])
    case Land(e, r) =>
      Apply(w, CompleteEffect(w.box, e, r, now)).(returned := w.returned + multiset{e.DedupeKey()})
    case Shelve(e, error) => Apply(w, ParkEffect(w.box, e, error, now))
    case Retry(e) => w.(box := w.box.(pending := w.box.pending.Set(e.id, e)))
    case Drop(id) => w.(box := w.box.(parked := w.box.parked.Pop(id)))
    case Revive(e) =>
      Apply(w, Effect(w.box.(pending := w.box.pending.Set(e.id, e), parked := w.box.parked.Pop(e.id)), [Enqueued(e)]))
  }

  /** The state offers the move. */
  ghost predicate Offers(w: World, m: Move) {
    match m
    case Stay => true
    case Add(e) => Fresh(w, e) && !Known(w.box, e.DedupeKey())
    case Land(e, _) => Pends(w.box, e)
    case Shelve(e, _) => Pends(w.box, e)
    case Retry(e) => Pends(w.box, e)
    case Drop(id) => id in w.box.parked.at && w.box.parked.at[id].DedupeKey() in w.box.done
    case Revive(e) =>
      e.id in w.box.parked.at && e.Core() == w.box.parked.at[e.id].Core() && e.DedupeKey() !in w.box.done
  }

  ghost predicate Pends(b: Box, e: Entry) {
    e.id in b.pending.at && e.Core() == b.pending.at[e.id].Core()
  }

  ghost function MoveOf(w: World, event: Event, maxAttempts: nat): Move {
    match event
    case Enqueue(e) => if Fresh(w, e) && !Known(w.box, e.DedupeKey()) then Add(e) else Stay
    case Attempt(id, now, reply) =>
      if id !in w.box.pending.at || !Submits(w.box, w.box.pending.at[id], now) then Stay
      else
        var e := w.box.pending.at[id];
        (match Submit(e, reply)
         case Accepted(r) => Land(e, r)
         case Refused(error) => Shelve(e, error)
         case Unavailable(error) =>
           var e' := Retried(e, error, now);
           if GivesUp(e'.attempts, maxAttempts) then Shelve(e', error) else Retry(e'))
    case Requeue(id) =>
      if id !in w.box.parked.at then Stay
      else if w.box.parked.at[id].DedupeKey() in w.box.done then Drop(id)
      else Revive(w.box.parked.at[id].(attempts := 0, nextAttemptAt := 0.0))
    case _ => Stay
  }

  predicate Moves(event: Event) { event.Enqueue? || event.Attempt? || event.Requeue? }

  function Now(event: Event): real { if event.Attempt? then event.now else 0.0 }

  // ── the invariant of every run ────────────────────────────────────────────

  ghost predicate Born(s: Shape, born: map<nat, Entry>) { s.pending + s.parked <= born.Keys }

  ghost predicate NothingPendingIsDone(s: Shape, born: map<nat, Entry>)
    requires Born(s, born)
  {
    forall id :: id in s.pending ==> born[id].DedupeKey() !in s.done
  }

  /** A reload may keep a parked copy of work that was requeued, but of nothing else. */
  ghost predicate StaleParkedIsAccounted(s: Shape, r: Shape, born: map<nat, Entry>)
    requires Born(r, born)
  {
    forall id :: id in r.parked ==> id in s.parked || id in s.pending || born[id].DedupeKey() in s.done
  }

  /** No two live ids share a key, in memory or after a reload. */
  ghost predicate OneIdPerKey(live: set<nat>, born: map<nat, Entry>)
    requires live <= born.Keys
  {
    forall i, j :: i in live && j in live && born[i].DedupeKey() == born[j].DedupeKey() ==> i == j
  }

  /** Memory (s) against what the log would rebuild (r). */
  ghost predicate Agree(s: Shape, r: Shape, born: map<nat, Entry>) {
    && Born(s, born)
    && Born(r, born)
    && r.done == s.done
    && r.pending <= s.pending
    && StaleParkedIsAccounted(s, r, born)
    && NothingPendingIsDone(s, born)
    && OneIdPerKey(s.pending + s.parked + r.parked, born)
  }

  ghost predicate Counted(w: World) {
    forall k :: w.returned[k] == w.lost[k] + (if k in w.box.done then 1 else 0)
  }

  ghost predicate Inv(w: World) {
    && (forall id :: id in w.born ==> w.born[id].id == id)
    && Genuine(w.box, w.born)
    && Genuine(Load(w.log), w.born)
    && Agree(ShapeOf(w.box), ShapeOf(Load(w.log)), w.born)
    && Counted(w)
  }

  // The same steps on shapes.

  lemma AgreeEnqueued(s: Shape, r: Shape, id: nat, born: map<nat, Entry>)
    requires Agree(s, r, born) && id in born && born[id].DedupeKey() !in s.done
    requires forall i :: i in s.pending + s.parked && born[i].DedupeKey() == born[id].DedupeKey() ==> i == id
    ensures Agree(s.(pending := s.pending + {id}), r.(pending := r.pending + {id}), born)
  {
  }

  lemma AgreeRevived(s: Shape, r: Shape, id: nat, born: map<nat, Entry>)
    requires Agree(s, r, born) && id in s.parked && born[id].DedupeKey() !in s.done
    ensures Agree(s.(pending := s.pending + {id}, parked := s.parked - {id}), r.(pending := r.pending + {id}), born)
  {
    var s', r' := s.(pending := s.pending + {id}, parked := s.parked - {id}), r.(pending := r.pending + {id});
    assert s'.pending + s'.parked + r'.parked == s.pending + s.parked + r.parked;
  }

  lemma AgreeSent(s: Shape, r: Shape, id: nat, born: map<nat, Entry>)
    requires Agree(s, r, born) && id in s.pending
    ensures var done' := s.done + {born[id].DedupeKey()};
            Agree(s.(pending := s.pending - {id}, done := done'),
                  r.(pending := r.pending - {id}, done := done'), born)
  {
  }

  lemma AgreeParked(s: Shape, r: Shape, id: nat, born: map<nat, Entry>)
    requires Agree(s, r, born) && id in s.pending
    ensures var s' := s.(pending := s.pending - {id}, parked := s.parked + {id});
            && Agree(s', r.(pending := r.pending - {id}, parked := r.parked + {id}), born)
            && Agree(s', r.(pending := r.pending - {id}), born)
  {
  }

  lemma AgreeDropped(s: Shape, r: Shape, id: nat, born: map<nat, Entry>)
    requires Agree(s, r, born) && id in s.parked && born[id].DedupeKey() in s.done
    ensures Agree(s.(parked := s.parked - {id}), r, born)
  {
  }

  lemma AgreeReloaded(s: Shape, r: Shape, born: map<nat, Entry>)
    requires Agree(s, r, born)
    ensures Agree(r, r, born)
  {
  }

  // Each move.

  ghost predicate IsMove(w: World, event: Event, maxAttempts: nat) {
    var m := MoveOf(w, event, maxAttempts);
    Offers(w, m) && Step(w, event, maxAttempts) == Moved(w, m, Now(event))
  }

  /** What an attempt needs to know of its entry. */
  ghost predicate Awaits(b: Box, id: nat) {
    id in b.pending.at && b.pending.at[id].id == id && b.pending.at[id].DedupeKey() !in b.done
  }

  lemma PendingAwaits(w: World, id: nat)
    requires Inv(w) && id in w.box.pending.at
    ensures Awaits(w.box, id) && w.box.pending.at[id].Core() == w.born[id]
  {
    assert w.box.pending.at[id].Core() == w.born[id];
  }

  lemma AcceptedIsLand(w: World, id: nat, now: real, reply: Reply, maxAttempts: nat)
    requires Awaits(w.box, id) && Submits(w.box, w.box.pending.at[id], now)
    requires Submit(w.box.pending.at[id], reply).Accepted?
    ensures IsMove(w, Attempt(id, now, reply), maxAttempts)
  {
    assert MoveOf(w, Attempt(id, now, reply), maxAttempts).Land?;
  }

  lemma RefusedIsShelve(w: World, id: nat, now: real, reply: Reply, maxAttempts: nat)
    requires Awaits(w.box, id) && Submits(w.box, w.box.pending.at[id], now)
    requires Submit(w.box.pending.at[id], reply).Refused?
    ensures IsMove(w, Attempt(id, now, reply), maxAttempts)
  {
    assert MoveOf(w, Attempt(id, now, reply), maxAttempts).Shelve?;
  }

  lemma UnavailableIsRetryOrShelve(w: World, id: nat, now: real, reply: Reply, maxAttempts: nat)
    requires Awaits(w.box, id) && Submits(w.box, w.box.pending.at[id], now)
    requires Submit(w.box.pending.at[id], reply).Unavailable?
    ensures IsMove(w, Attempt(id, now, reply), maxAttempts)
  {
    var e := w.box.pending.at[id];
    var e' := Retried(e, Submit(e, reply).error, now);
    assert e'.id == e'.Core().id == id;
    assert w.log + [] == w.log;
  }

  lemma AttemptIsMove(w: World, id: nat, now: real, reply: Reply, maxAttempts: nat)
    requires Awaits(w.box, id)
    ensures IsMove(w, Attempt(id, now, reply), maxAttempts)
  {
    var e := w.box.pending.at[id];
    if Submits(w.box, e, now) {
      match Submit(e, reply)
      case Accepted(_) => AcceptedIsLand(w, id, now, reply, maxAttempts);
      case Refused(_) => RefusedIsShelve(w, id, now, reply, maxAttempts);
      case Unavailable(_) => UnavailableIsRetryOrShelve(w, id, now, reply, maxAttempts);
    } else {
      assert w.log + [] == w.log;
    }
  }

  predicate KnownOp(op: string) { op == "add_record" || op == "update_status" }

  /** An entry with an unknown operation is parked at its first due attempt, whatever the backend would answer. */
  lemma UnknownOpIsParked(w: World, id: nat, now: real, reply: Reply, maxAttempts: nat)
    requires Inv(w) && id in w.box.pending.at && !KnownOp(w.box.pending.at[id].op)
    requires w.box.pending.at[id].nextAttemptAt <= now
    ensures var w' := Step(w, Attempt(id, now, reply), maxAttempts);
            && w'.returned == w.returned && w'.box.done == w.box.done
            && id !in w'.box.pending.at && id in w'.box.parked.at
            && w'.box.parked.at[id].Core() == w.born[id]
    ensures forall answer: Reply ::
              Step(w, Attempt(id, now, answer), maxAttempts) == Step(w, Attempt(id, now, reply), maxAttempts)
  {
    PendingAwaits(w, id);
  }

  // ── what one attempt settles ──────────────────────────────────────────────

  /** Not yet due: nothing happens. Already done: dropped, with a line that says so, and not submitted. */
  ghost predicate Unasked(b: Box, e: Entry, now: real, b': Box, lines: seq<Line>) {
    && (e.nextAttemptAt > now ==> b' == b && lines == [])
    && (e.nextAttemptAt <= now && e.DedupeKey() in b.done ==>
          && b'.pending == b.pending.Pop(e.id) && b'.parked == b.parked && b'.done == b.done
          && |lines| == 1 && lines[0].Sent? && lines[0].id == Uuid(e.id) && lines[0].dedupe == Some(e.DedupeKey()))
  }

  /** The answer was final: the entry leaves the queue, for done or for parked, and the log says which. */
  ghost predicate Settled(b: Box, e: Entry, now: real, answer: Reply, b': Box, lines: seq<Line>) {
    && b'.pending == b.pending.Pop(e.id)
    && (answer.Accepted? ==>
          && b'.done == b.done + {e.DedupeKey()} && b'.parked == b.parked
          && lines == [Sent(Uuid(e.id), Some(e.DedupeKey()), answer.result.transaction, answer.result.recordId, now)])
    && (!answer.Accepted? ==>
          && b'.done == b.done && b'.parked.at == b.parked.at[e.id := e.(lastError := answer.error)]
          && lines == [Parked(e.id, answer.error, now)])
  }

  /** The chain was not there: e1 is the entry after one more failure, kept unless that was its last attempt. */
  ghost predicate Waits(b: Box, e1: Entry, error: string, now: real, maxAttempts: nat, b': Box, lines: seq<Line>) {
    if maxAttempts != 0 && e1.attempts >= maxAttempts then Settled(b, e1, now, Refused(error), b', lines)
    else
      && b'.pending.at == b.pending.at[e1.id := e1] && b'.pending.keys == b.pending.keys
      && b'.done == b.done && b'.parked == b.parked && lines == []
  }

  /** A transient failure waits, any other answer is final, and an unknown operation counts as refused. */
  lemma AttemptSettles(b: Box, e: Entry, now: real, maxAttempts: nat, reply: Reply)
    requires e.id in b.pending.at
    ensures var effect := AttemptEffect(b, e, now, maxAttempts, reply);
            && Unasked(b, e, now, effect.box, effect.lines)
            && (Submits(b, e, now) && KnownOp(e.op) && !reply.Unavailable? ==>
                  Settled(b, e, now, reply, effect.box, effect.lines))
            && (Submits(b, e, now) && !KnownOp(e.op) ==>
                  exists error :: Settled(b, e, now, Refused(error), effect.box, effect.lines))
            && (Submits(b, e, now) && KnownOp(e.op) && reply.Unavailable? ==>
                  var e1 := e.(attempts := e.attempts + 1, lastError := reply.error,
                               nextAttemptAt := now + Delay(e.attempts + 1));
                  Waits(b, e1, reply.error, now, maxAttempts, effect.box, effect.lines))
    ensures Submits(b, e, now) <==> e.nextAttemptAt <= now && e.DedupeKey() !in b.done
  {
    var effect := AttemptEffect(b, e, now, maxAttempts, reply);
    if Submits(b, e, now) && !KnownOp(e.op) {
      assert Settled(b, e, now, Submit(e, reply), effect.box, effect.lines);
    }
  }

  lemma LandedIsKnownOp(w: World, event: Event, maxAttempts: nat)
    requires MoveOf(w, event, maxAttempts).Land?
    ensures event.Attempt? && KnownOp(MoveOf(w, event, maxAttempts).entry.op)
  {
  }

  lemma RequeueIsMove(w: World, id: nat, maxAttempts: nat)
    requires id in w.box.parked.at ==> w.box.parked.at[id].id == id
    ensures IsMove(w, Requeue(id), maxAttempts)
  {
    assert w.log + [] == w.log;
  }

  lemma StepIsMove(w: World, event: Event, maxAttempts: nat)
    requires Inv(w) && Moves(event)
    ensures Offers(w, MoveOf(w, event, maxAttempts))
    ensures Step(w, event, maxAttempts) == Moved(w, MoveOf(w, event, maxAttempts), Now(event))
  {
    match event
    case Enqueue(e) =>
      assert IsMove(w, event, maxAttempts);
    case Attempt(id, now, reply) =>
      if id in w.box.pending.at {
        PendingAwaits(w, id);
        AttemptIsMove(w, id, now, reply, maxAttempts);
      }
      assert IsMove(w, event, maxAttempts);
    case Requeue(id) =>
      RequeueIsMove(w, id, maxAttempts);
      assert IsMove(w, event, maxAttempts);
    case _ =>
  }

  lemma GenuineWhenMoreAreBorn(b: Box, born: map<nat, Entry>, e: Entry)
    requires Genuine(b, born) && e.id !in born
    ensures Genuine(b, born[e.id := e])
  {
  }

  lemma AgreeWhenMoreAreBorn(s: Shape, r: Shape, born: map<nat, Entry>, e: Entry)
    requires Agree(s, r, born) && e.id !in born
    ensures Agree(s, r, born[e.id := e])
  {
  }

  lemma UnknownMeansUnused(b: Box, born: map<nat, Entry>, key: Key, i: nat)
    requires Genuine(b, born) && !Known(b, key) && Live(b, i)
    ensures born[i].DedupeKey() != key
  {
    if i in b.pending.at {
      assert b.pending.at[i].Core() == born[i];
    } else {
      assert b.parked.at[i].Core() == born[i];
    }
  }

  lemma UnknownKeyIsNew(b: Box, born: map<nat, Entry>, e: Entry)
    requires Genuine(b, born) && !Known(b, e.DedupeKey()) && e.id !in born
    ensures forall i :: i in ShapeOf(b).pending + ShapeOf(b).parked ==> born[e.id := e][i].DedupeKey() != e.DedupeKey()
  {
    forall i | i in ShapeOf(b).pending + ShapeOf(b).parked ensures born[e.id := e][i].DedupeKey() != e.DedupeKey() {
      UnknownMeansUnused(b, born, e.DedupeKey(), i);
    }
  }

  lemma AddKeepsInv(w: World, e: Entry, now: real)
    requires Inv(w) && Offers(w, Add(e))
    ensures Inv(Moved(w, Add(e), now))
  {
    var born := w.born[e.id := e];
    var s, r := ShapeOf(w.box), ShapeOf(Load(w.log));
    GenuineWhenMoreAreBorn(w.box, w.born, e);
    GenuineWhenMoreAreBorn(Load(w.log), w.born, e);
    AgreeWhenMoreAreBorn(s, r, w.born, e);
    SetPending(w.box, e, born);
    LoadAppend(w.log, Enqueued(e));
    ReplayEnqueued(Load(w.log), e, born);
    UnknownKeyIsNew(w.box, w.born, e);
    AgreeEnqueued(s, r, e.id, born);
  }

  lemma LandCounts(w: World, e: Entry, r: AnchorResult, now: real)
    requires Counted(w) && e.DedupeKey() !in w.box.done
    ensures Counted(Moved(w, Land(e, r), now))
  {
    assert w.returned[e.DedupeKey()] == w.lost[e.DedupeKey()];
  }

  lemma LandShape(b: Box, e: Entry, r: AnchorResult, now: real, born: map<nat, Entry>)
    requires Genuine(b, born)
    ensures var b' := CompleteEffect(b, e, r, now).box;
            && Genuine(b', born)
            && ShapeOf(b') == ShapeOf(b).(pending := ShapeOf(b).pending - {e.id}, done := b.done + {e.DedupeKey()})
  {
    PopPending(b, e.id, born);
  }

  lemma OfferedEntry(b: Box, e: Entry, born: map<nat, Entry>)
    requires Genuine(b, born) && Pends(b, e)
    ensures e.id in born && e.Core() == born[e.id] && e.DedupeKey() == born[e.id].DedupeKey()
  {
    assert e.DedupeKey() == e.Core().DedupeKey() == b.pending.at[e.id].Core().DedupeKey();
  }

  lemma LandKeepsInv(w: World, e: Entry, r: AnchorResult, now: real)
    requires Inv(w) && Offers(w, Land(e, r))
    ensures Inv(Moved(w, Land(e, r), now))
  {
    var line := SentLine(e, r, now);
    OfferedEntry(w.box, e, w.born);
    LandShape(w.box, e, r, now, w.born);
    LoadAppend(w.log, line);
    ReplaySent(Load(w.log), e.id, line, w.born);
    AgreeSent(ShapeOf(w.box), ShapeOf(Load(w.log)), e.id, w.born);
    LandCounts(w, e, r, now);
  }

  lemma ShelveKeepsInv(w: World, e: Entry, error: string, now: real)
    requires Inv(w) && Offers(w, Shelve(e, error))
    ensures Inv(Moved(w, Shelve(e, error), now))
  {
    var line := Parked(e.id, error, now);
    PopPending(w.box, e.id, w.born);
    SetParked(w.box.(pending := w.box.pending.Pop(e.id)), e.(lastError := error), w.born);
    LoadAppend(w.log, line);
    ReplayParked(Load(w.log), e.id, line, w.born);
    AgreeParked(ShapeOf(w.box), ShapeOf(Load(w.log)), e.id, w.born);
  }

  lemma RetryKeepsInv(w: World, e: Entry, now: real)
    requires Inv(w) && Offers(w, Retry(e))
    ensures Inv(Moved(w, Retry(e), now))
  {
    SetPending(w.box, e, w.born);
    assert ShapeOf(w.box).pending + {e.id} == ShapeOf(w.box).pending;
  }

  lemma DropKeepsInv(w: World, id: nat, now: real)
    requires Inv(w) && Offers(w, Drop(id))
    ensures Inv(Moved(w, Drop(id), now))
  {
    assert w.box.parked.at[id].Core() == w.born[id];
    PopParked(w.box, id, w.born);
    AgreeDropped(ShapeOf(w.box), ShapeOf(Load(w.log)), id, w.born);
  }

  lemma ReviveKeepsInv(w: World, e: Entry, now: real)
    requires Inv(w) && Offers(w, Revive(e))
    ensures Inv(Moved(w, Revive(e), now))
  {
    assert e.Core() == w.born[e.id] && e.DedupeKey() == w.born[e.id].DedupeKey();
    PopParked(w.box, e.id, w.born);
    SetPending(w.box.(parked := w.box.parked.Pop(e.id)), e, w.born);
    LoadAppend(w.log, Enqueued(e));
    ReplayEnqueued(Load(w.log), e, w.born);
    AgreeRevived(ShapeOf(w.box), ShapeOf(Load(w.log)), e.id, w.born);
  }

  lemma MoveKeepsInv(w: World, m: Move, now: real)
    requires Inv(w) && Offers(w, m)
    ensures Inv(Moved(w, m, now))
  {
    match m
    case Stay =>
    case Add(e) => AddKeepsInv(w, e, now);
    case Land(e, r) => LandKeepsInv(w, e, r, now);
    case Shelve(e, error) => ShelveKeepsInv(w, e, error, now);
    case Retry(e) => RetryKeepsInv(w, e, now);
    case Drop(id) => DropKeepsInv(w, id, now);
    case Revive(e) => ReviveKeepsInv(w, e, now);
  }

  lemma ReloadKeepsInv(w: World, key: multiset<Key>)
    requires Inv(w)
    ensures Inv(w.(box := Load(w.log), returned := w.returned + key, lost := w.lost + key))
  {
    AgreeReloaded(ShapeOf(w.box), ShapeOf(Load(w.log)), w.born);
  }

  lemma AgreeCompacted(s: Shape, r: Shape, born: map<nat, Entry>)
    requires Agree(s, r, born)
    ensures Agree(s, Shape(s.pending - s.parked, s.pending * s.parked, s.done), born)
  {
  }

  lemma RewrittenKeepsInv(w: World, keys: seq<Key>)
    requires Inv(w) && Enumerates(keys, w.box.done)
    ensures Inv(w.(box := w.box.(completed := 0), log := CompactLines(w.box, keys)))
  {
    var b := w.box.(completed := 0);
    CompactedShape(w.box, keys, w.born);
    AgreeCompacted(ShapeOf(w.box), ShapeOf(Load(w.log)), w.born);
    assert Genuine(b, w.born) && ShapeOf(b) == ShapeOf(w.box);
  }

  lemma CompactKeepsInv(w: World, keys: seq<Key>, maxAttempts: nat)
    requires Inv(w)
    ensures Inv(Step(w, Compact(keys), maxAttempts))
  {
    if Enumerates(keys, w.box.done) {
      RewrittenKeepsInv(w, keys);
    }
  }

  lemma StepKeepsInv(w: World, event: Event, maxAttempts: nat)
    requires Inv(w)
    ensures Inv(Step(w, event, maxAttempts))
  {
    if Moves(event) {
      StepIsMove(w, event, maxAttempts);
      MoveKeepsInv(w, MoveOf(w, event, maxAttempts), Now(event));
    }
    match event
    case DieAfterReturn(id, now, result) =>
      if id in w.box.pending.at {
        ReloadKeepsInv(w, multiset{w.box.pending.at[id].DedupeKey()});
      }
    case Compact(keys) => CompactKeepsInv(w, keys, maxAttempts);
    case Restart =>
      ReloadKeepsInv(w, multiset{});
      assert w.returned + multiset{} == w.returned && w.lost + multiset{} == w.lost;
    case _ =>
  }

  lemma {:induction false} RunKeepsInv(events: seq<Event>, maxAttempts: nat)
    ensures Inv(Run(START, events, maxAttempts))
  {
    if events == [] {
    } else {
      RunKeepsInv(events[..|events| - 1], maxAttempts);
      StepKeepsInv(Run(START, events[..|events| - 1], maxAttempts), events[|events| - 1], maxAttempts);
    }
  }

  // ── what every run keeps ──────────────────────────────────────────────────

  /** A sent line that names an entry names one whose operation the backend was asked for. */
  ghost predicate SentIsKnownOp(line: Line, born: map<nat, Entry>) {
    line.Sent? && line.id.Uuid? ==> line.id.id in born && KnownOp(born[line.id.id].op)
  }

  ghost predicate OnlyKnownOpsSent(log: seq<Line>, born: map<nat, Entry>) {
    forall i :: 0 <= i < |log| ==> SentIsKnownOp(log[i], born)
  }

  lemma MoveSendsKnownOps(w: World, m: Move, now: real)
    requires Inv(w) && Offers(w, m) && OnlyKnownOpsSent(w.log, w.born) && (m.Land? ==> KnownOp(m.entry.op))
    ensures OnlyKnownOpsSent(Moved(w, m, now).log, Moved(w, m, now).born)
  {
    match m
    case Land(e, r) => LandSendsKnownOp(w, e, r, now);
    case Add(e) => AddSendsNothing(w, e, now);
    case _ => OtherMoveSendsNothing(w, m, now);
  }

  lemma AddSendsNothing(w: World, e: Entry, now: real)
    requires OnlyKnownOpsSent(w.log, w.born) && e.id !in w.born
    ensures OnlyKnownOpsSent(Moved(w, Add(e), now).log, Moved(w, Add(e), now).born)
  {
  }

  lemma OtherMoveSendsNothing(w: World, m: Move, now: real)
    requires OnlyKnownOpsSent(w.log, w.born) && !m.Land? && !m.Add?
    ensures OnlyKnownOpsSent(Moved(w, m, now).log, Moved(w, m, now).born)
  {
  }

  lemma LandSendsKnownOp(w: World, e: Entry, r: AnchorResult, now: real)
    requires Inv(w) && Pends(w.box, e) && OnlyKnownOpsSent(w.log, w.born) && KnownOp(e.op)
    ensures OnlyKnownOpsSent(w.log + [SentLine(e, r, now)], w.born)
  {
    OfferedEntry(w.box, e, w.born);
    assert e.op == e.Core().op;
  }

  lemma StepSendsKnownOps(w: World, event: Event, maxAttempts: nat)
    requires Inv(w) && OnlyKnownOpsSent(w.log, w.born)
    ensures OnlyKnownOpsSent(Step(w, event, maxAttempts).log, Step(w, event, maxAttempts).born)
  {
    if Moves(event) {
      StepIsMove(w, event, maxAttempts);
      if MoveOf(w, event, maxAttempts).Land? {
        LandedIsKnownOp(w, event, maxAttempts);
      }
      MoveSendsKnownOps(w, MoveOf(w, event, maxAttempts), Now(event));
    }
  }

  /** Over every run: a line that says an entry was sent is about an accepted entry with one of the two operations. */
  lemma {:induction false} OnlyKnownOperationsAreSent(events: seq<Event>, maxAttempts: nat)
    ensures OnlyKnownOpsSent(Run(START, events, maxAttempts).log, Run(START, events, maxAttempts).born)
  {
    if events != [] {
      var init := events[..|events| - 1];
      OnlyKnownOperationsAreSent(init, maxAttempts);
      RunKeepsInv(init, maxAttempts);
      StepSendsKnownOps(Run(START, init, maxAttempts), events[|events| - 1], maxAttempts);
    }
  }

  /**
   * At most once, exactly: after any run of enqueue, drain, requeue, compaction
   * and crashes, submit has returned normally for a key once if the key is
   * finished, not at all if it is not, and one more time for each crash that
   * fell between a return and its durable line.
   */
  lemma {:induction false} SubmissionsPerKey(events: seq<Event>, maxAttempts: nat, key: Key)
    ensures var w := Run(START, events, maxAttempts);
            && w.returned[key] == w.lost[key] + (if key in w.box.done then 1 else 0)
            && w.returned[key] <= 1 + w.lost[key]
            && Load(w.log).done == w.box.done
  {
    RunKeepsInv(events, maxAttempts);
  }

  /** Equal keys mean equal ids across pending and parked, and no pending key is finished. */
  lemma {:induction false} LiveKeysAreUnique(events: seq<Event>, maxAttempts: nat, e: Entry, f: Entry)
    requires var b := Run(START, events, maxAttempts).box;
             && e in b.pending.at.Values + b.parked.at.Values
             && f in b.pending.at.Values + b.parked.at.Values
    ensures e.DedupeKey() == f.DedupeKey() <==> e.id == f.id
    ensures e in Run(START, events, maxAttempts).box.pending.at.Values
            ==> e.DedupeKey() !in Run(START, events, maxAttempts).box.done
  {
    RunKeepsInv(events, maxAttempts);
    var w := Run(START, events, maxAttempts);
    GenuineEntry(w.box, w.born, e);
    GenuineEntry(w.box, w.born, f);
  }

  lemma GenuineEntry(b: Box, born: map<nat, Entry>, e: Entry)
    requires Genuine(b, born) && e in b.pending.at.Values + b.parked.at.Values
    ensures Live(b, e.id) && e.Core() == born[e.id] && e.DedupeKey() == born[e.id].DedupeKey()
    ensures e in b.pending.at.Values ==> e.id in b.pending.at
  {
  }
}
