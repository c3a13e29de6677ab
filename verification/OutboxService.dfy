/** The outbox as the program runs it: fields updated in place, each method against its effect. */
module OutboxService {
  import opened Collections
  import opened AnchorBase
  import opened AnchorOutbox
  import opened OutboxReplay
  import opened OutboxRuns

  // ── the loops, as functions of how many entries they have taken ───────────

  /** What a drain has done so far; anchored is what the on_anchored hook is handed, in order. */
  datatype Tally = Tally(box: Box, lines: seq<Line>, sent: nat, failed: nat, skipped: nat,
                         anchored: seq<(Entry, AnchorResult)>)

  datatype Outcome = Skipped | Failed | Anchored(result: AnchorResult)

  function OutcomeOf(b: Box, e: Entry, now: real, reply: Reply): Outcome {
    if !Submits(b, e, now) then Skipped
    else if Submit(e, reply).Accepted? then Anchored(Submit(e, reply).result)
    else Failed
  }

  function Counted(t: Tally, e: Entry, outcome: Outcome): Tally {
    match outcome
    case Skipped => t.(skipped := t.skipped + 1)
    case Failed => t.(failed := t.failed + 1)
    case Anchored(r) => t.(sent := t.sent + 1, anchored := t.anchored + [(e, r)])
  }

  function Round(t: Tally, id: nat, i: nat, now: real, maxAttempts: nat, backend: Backend): Tally {
    if id !in t.box.pending.at then t
    else
      var e := t.box.pending.at[id];
      var effect := AttemptEffect(t.box, e, now, maxAttempts, backend(i, e));
      Counted(t.(box := effect.box, lines := t.lines + effect.lines), e, OutcomeOf(t.box, e, now, backend(i, e)))
  }

  function Drained(b: Box, ids: seq<nat>, now: real, maxAttempts: nat, backend: Backend): Tally {
    if ids == [] then Tally(b, [], 0, 0, 0, [])
    else
      var n := |ids| - 1;
      Round(Drained(b, ids[..n], now, maxAttempts, backend), ids[n], n, now, maxAttempts, backend)
  }

  datatype Requeued = Requeued(box: Box, lines: seq<Line>, count: nat)

  function RequeueRound(r: Requeued, id: nat): Requeued {
    if id !in r.box.parked.at then r
    else
      var effect := RequeueEffect(r.box, r.box.parked.at[id]);
      Requeued(effect.box, r.lines + effect.lines, r.count + |effect.lines|)
  }

  function RequeuedAll(b: Box, ids: seq<nat>): Requeued {
    if ids == [] then Requeued(b, [], 0)
    else RequeueRound(RequeuedAll(b, ids[..|ids| - 1]), ids[|ids| - 1])
  }

  // ── a loop is a run of rounds ─────────────────────────────────────────────

  ghost function DrainEvents(b: Box, ids: seq<nat>, now: real, maxAttempts: nat, backend: Backend): seq<Event> {
    if ids == [] then []
    else
      var n, id := |ids| - 1, ids[|ids| - 1];
      var t := Drained(b, ids[..n], now, maxAttempts, backend);
      DrainEvents(b, ids[..n], now, maxAttempts, backend) +
        [Attempt(id, now, if id in t.box.pending.at then backend(n, t.box.pending.at[id]) else Unavailable(""))]
  }

  /** A drain is the run of its rounds, so every invariant of runs, crashes between rounds included, covers it. */
  lemma {:induction false} DrainIsARun(w: World, ids: seq<nat>, now: real, maxAttempts: nat, backend: Backend)
    ensures Follows(w, Run(w, DrainEvents(w.box, ids, now, maxAttempts, backend), maxAttempts),
                    Drained(w.box, ids, now, maxAttempts, backend))
  {
    if ids != [] {
      var n, id := |ids| - 1, ids[|ids| - 1];
      DrainIsARun(w, ids[..n], now, maxAttempts, backend);
      var events := DrainEvents(w.box, ids[..n], now, maxAttempts, backend);
      var t := Drained(w.box, ids[..n], now, maxAttempts, backend);
      var last := Attempt(id, now,
                                if id in t.box.pending.at then backend(n, t.box.pending.at[id]) else Unavailable(""));
      RunSnoc(w, events, last, maxAttempts);
      RoundIsAnAttempt(w, Run(w, events, maxAttempts), t, id, n, now, maxAttempts, backend);
    } else {
      assert w.log + [] == w.log;
    }
  }

  /**
   * What a round counts: sent if the chain took the entry, skipped if it was not
   * asked because the entry was not due or its work was already done, failed
   * otherwise; and what was sent is handed to the hook with its own answer.
   */
  lemma RoundCounts(t: Tally, id: nat, i: nat, now: real, maxAttempts: nat, backend: Backend)
    requires id in t.box.pending.at
    ensures var e, t' := t.box.pending.at[id], Round(t, id, i, now, maxAttempts, backend);
            var asked := e.nextAttemptAt <= now && e.DedupeKey() !in t.box.done;
            var taken := asked && KnownOp(e.op) && backend(i, e).Accepted?;
            && t'.skipped == t.skipped + (if asked then 0 else 1)
            && t'.sent == t.sent + (if taken then 1 else 0)
            && t'.failed == t.failed + (if asked && !taken then 1 else 0)
            && t'.anchored == t.anchored + (if taken then [(e, backend(i, e).result)] else [])
  {
  }

  /** w1 is w after what the tally counts. */
  ghost predicate Follows(w: World, w1: World, t: Tally) {
    && w1.box == t.box && w1.log == w.log + t.lines && w1.born == w.born && w1.lost == w.lost
    && |w1.returned| == |w.returned| + t.sent && |t.anchored| == t.sent
  }

  lemma RoundIsAnAttempt(w: World, w1: World, t: Tally, id: nat, i: nat, now: real, maxAttempts: nat, backend: Backend)
    requires Follows(w, w1, t)
    ensures var reply := if id in t.box.pending.at then backend(i, t.box.pending.at[id]) else Unavailable("");
            Follows(w, Step(w1, Attempt(id, now, reply), maxAttempts), Round(t, id, i, now, maxAttempts, backend))
  {
    if id in t.box.pending.at {
      var e := t.box.pending.at[id];
      Reassociate(w.log, t.lines, AttemptEffect(t.box, e, now, maxAttempts, backend(i, e)).lines);
    }
  }

  ghost function RequeueEvents(ids: seq<nat>): (events: seq<Event>)
    ensures |events| == |ids|
  {
    seq(|ids|, i requires 0 <= i < |ids| => Requeue(ids[i]))
  }

  lemma {:induction false} RequeueIsARun(w: World, ids: seq<nat>, maxAttempts: nat)
    ensures var r := RequeuedAll(w.box, ids);
            Run(w, RequeueEvents(ids), maxAttempts) == w.(box := r.box, log := w.log + r.lines)
  {
    if ids == [] {
      assert w.log + [] == w.log;
    } else {
      var n := |ids| - 1;
      RequeueIsARun(w, ids[..n], maxAttempts);
      RunSnoc(w, RequeueEvents(ids[..n]), Requeue(ids[n]), maxAttempts);
      assert RequeueEvents(ids) == RequeueEvents(ids[..n]) + [Requeue(ids[n])];
      var r := RequeuedAll(w.box, ids[..n]);
      if ids[n] in r.box.parked.at {
        Reassociate(w.log, r.lines, RequeueEffect(r.box, r.box.parked.at[ids[n]]).lines);
      }
    }
  }

  /** Every other pending entry is as it was. */
  ghost predicate OthersKept(b: Box, b': Box, id: nat) {
    b'.Valid() && forall j :: j != id && j in b.pending.at ==> j in b'.pending.at && b'.pending.at[j] == b.pending.at[j]
  }

  lemma ParkKeepsOthers(b: Box, e: Entry, error: string, now: real)
    requires b.Valid()
    ensures OthersKept(b, ParkEffect(b, e, error, now).box, e.id)
  {
  }

  lemma AttemptKeepsOthers(b: Box, e: Entry, now: real, maxAttempts: nat, reply: Reply)
    requires b.Valid()
    ensures OthersKept(b, AttemptEffect(b, e, now, maxAttempts, reply).box, e.id)
  {
    if Submits(b, e, now) {
      match Submit(e, reply)
      case Accepted(_) =>
      case Refused(error) => ParkKeepsOthers(b, e, error, now);
      case Unavailable(error) =>
        var e' := Retried(e, error, now);
        assert e'.id == e'.Core().id == e.Core().id == e.id;
        if GivesUp(e'.attempts, maxAttempts) {
          ParkKeepsOthers(b, e', error, now);
        }
    }
  }

  /** A round touches no other pending entry, so the snapshot a drain takes stays accurate. */
  lemma RoundKeepsOthers(t: Tally, id: nat, i: nat, now: real, maxAttempts: nat, backend: Backend)
    requires t.box.Valid()
    ensures OthersKept(t.box, Round(t, id, i, now, maxAttempts, backend).box, id)
  {
    if id in t.box.pending.at {
      var e := t.box.pending.at[id];
      AttemptKeepsOthers(t.box, e, now, maxAttempts, backend(i, e));
    }
  }

  lemma DrainedNext(b: Box, ids: seq<nat>, i: nat, now: real, maxAttempts: nat, backend: Backend)
    requires i < |ids|
    ensures Drained(b, ids[..i + 1], now, maxAttempts, backend)
         == Round(Drained(b, ids[..i], now, maxAttempts, backend), ids[i], i, now, maxAttempts, backend)
  {
    assert ids[..i + 1][..i] == ids[..i];
  }

  /** t is the drain after i of the ids; the rest are still pending, unchanged. */
  ghost predicate DrainedUpTo(b: Box, ids: seq<nat>, i: nat, t: Tally, now: real, maxAttempts: nat, backend: Backend) {
    && i <= |ids|
    && NoDup(ids)
    && t == Drained(b, ids[..i], now, maxAttempts, backend)
    && t.box.Valid()
    && t.sent == |t.anchored| && t.sent + t.failed + t.skipped == i
    && forall j :: i <= j < |ids| ==> Holds(t.box.pending, ids[j], b.pending)
  }

  ghost predicate Holds(d: Dict<nat, Entry>, id: nat, original: Dict<nat, Entry>) {
    id in d.at && id in original.at && d.at[id] == original.at[id]
  }

  lemma RoundAdvances(b: Box, ids: seq<nat>, i: nat, t: Tally, now: real, maxAttempts: nat, backend: Backend)
    requires DrainedUpTo(b, ids, i, t, now, maxAttempts, backend) && i < |ids|
    ensures DrainedUpTo(b, ids, i + 1, Round(t, ids[i], i, now, maxAttempts, backend), now, maxAttempts, backend)
  {
    DrainedNext(b, ids, i, now, maxAttempts, backend);
    RoundKeepsOthers(t, ids[i], i, now, maxAttempts, backend);
    var t' := Round(t, ids[i], i, now, maxAttempts, backend);
    forall j | i + 1 <= j < |ids| ensures Holds(t'.box.pending, ids[j], b.pending) {
      assert Holds(t.box.pending, ids[j], b.pending) && ids[j] != ids[i];
    }
  }

  /** The next round, in terms of the entry that the snapshot holds for it. */
  lemma RoundEffect(b: Box, ids: seq<nat>, i: nat, t: Tally, log: seq<Line>, now: real, maxAttempts: nat,
                    backend: Backend)
    requires DrainedUpTo(b, ids, i, t, now, maxAttempts, backend) && i < |ids|
    ensures ids[i] in b.pending.at
    ensures var e := b.pending.at[ids[i]];
            var effect := AttemptEffect(t.box, e, now, maxAttempts, backend(i, e));
            var lines := t.lines + effect.lines;
            && Round(t, ids[i], i, now, maxAttempts, backend)
                 == Counted(t.(box := effect.box, lines := lines), e, OutcomeOf(t.box, e, now, backend(i, e)))
            && log + t.lines + effect.lines == log + lines
    ensures DrainedUpTo(b, ids, i + 1, Round(t, ids[i], i, now, maxAttempts, backend), now, maxAttempts, backend)
  {
    assert Holds(t.box.pending, ids[i], b.pending);
    RoundAdvances(b, ids, i, t, now, maxAttempts, backend);
    var e := b.pending.at[ids[i]];
    Reassociate(log, t.lines, AttemptEffect(t.box, e, now, maxAttempts, backend(i, e)).lines);
  }

  lemma DrainEnds(b: Box, ids: seq<nat>, t: Tally, now: real, maxAttempts: nat, backend: Backend)
    requires DrainedUpTo(b, ids, |ids|, t, now, maxAttempts, backend)
    ensures t == Drained(b, ids, now, maxAttempts, backend) && t.box.Valid()
    ensures t.sent == |t.anchored| && t.sent + t.failed + t.skipped == |ids|
  {
    assert ids[..|ids|] == ids;
  }

  lemma RequeuedNext(b: Box, ids: seq<nat>, i: nat)
    requires i < |ids|
    ensures RequeuedAll(b, ids[..i + 1]) == RequeueRound(RequeuedAll(b, ids[..i]), ids[i])
  {
    assert ids[..i + 1][..i] == ids[..i];
  }

  /** r is the requeue loop after i of the parked ids; the rest are still parked, unchanged. */
  ghost predicate RequeuedUpTo(b: Box, ids: seq<nat>, i: nat, r: Requeued) {
    && i <= |ids|
    && NoDup(ids)
    && r == RequeuedAll(b, ids[..i])
    && r.box.Valid()
    && r.box.parked.keys == ids[i..]
    && forall j :: i <= j < |ids| ==> Holds(r.box.parked, ids[j], b.parked)
  }

  lemma RequeueUnparks(r: Requeued, id: nat)
    requires id in r.box.parked.at && r.box.parked.at[id].id == id
    ensures RequeueRound(r, id).box.parked == r.box.parked.Pop(id)
    ensures r.box.Valid() ==> RequeueRound(r, id).box.Valid()
  {
  }

  lemma RestStaysParked(b: Box, ids: seq<nat>, i: nat, r: Requeued, r': Requeued)
    requires RequeuedUpTo(b, ids, i, r) && i < |ids| && r'.box.parked == r.box.parked.Pop(ids[i])
    ensures r'.box.parked.keys == ids[i + 1..]
    ensures forall j :: i + 1 <= j < |ids| ==> Holds(r'.box.parked, ids[j], b.parked)
  {
    assert ids[i..][0] == ids[i] && ids[i..][1..] == ids[i + 1..];
    WithoutFirst(ids[i..]);
    forall j | i + 1 <= j < |ids| ensures Holds(r'.box.parked, ids[j], b.parked) {
      assert Holds(r.box.parked, ids[j], b.parked) && ids[j] != ids[i];
    }
  }

  lemma RequeueRoundAdvances(b: Box, ids: seq<nat>, i: nat, r: Requeued)
    requires RequeuedUpTo(b, ids, i, r) && i < |ids|
    ensures RequeuedUpTo(b, ids, i + 1, RequeueRound(r, ids[i]))
  {
    assert Holds(r.box.parked, ids[i], b.parked);
    RequeuedNext(b, ids, i);
    RequeueUnparks(r, ids[i]);
    RestStaysParked(b, ids, i, r, RequeueRound(r, ids[i]));
  }

  lemma RequeueStarts(b: Box)
    requires b.Valid()
    ensures RequeuedUpTo(b, b.parked.keys, 0, Requeued(b, [], 0))
  {
    assert b.parked.keys[..0] == [] && b.parked.keys[0..] == b.parked.keys;
  }

  lemma RequeueEnds(b: Box, ids: seq<nat>, r: Requeued)
    requires RequeuedUpTo(b, ids, |ids|, r)
    ensures r == RequeuedAll(b, ids) && r.box.parked.keys == []
  {
    assert ids[..|ids|] == ids && ids[|ids|..] == [];
  }

  lemma RequeueRoundEffect(b: Box, ids: seq<nat>, i: nat, r: Requeued, log: seq<Line>)
    requires RequeuedUpTo(b, ids, i, r) && i < |ids|
    ensures RequeuedUpTo(b, ids, i + 1, RequeueRound(r, ids[i]))
    ensures ids[i] in b.parked.at
    ensures var effect := RequeueEffect(r.box, b.parked.at[ids[i]]);
            && RequeueRound(r, ids[i]) == Requeued(effect.box, r.lines + effect.lines, r.count + |effect.lines|)
            && log + r.lines + effect.lines == log + (r.lines + effect.lines)
            && |effect.lines| <= 1
  {
    RequeueRoundAdvances(b, ids, i, r);
    assert Holds(r.box.parked, ids[i], b.parked);
    Reassociate(log, r.lines, RequeueEffect(r.box, b.parked.at[ids[i]]).lines);
  }

  lemma WithoutFirst(ids: seq<nat>)
    requires NoDup(ids) && ids != []
    ensures Without(ids, ids[0]) == ids[1..]
  {
    assert ids[0] !in ids[1..];
  }

  function Bare(digest: string): string {
    if "sha256:" <= digest then digest[7..] else digest
  }

  // ── one document, however its digest is spelled ───────────────────────────

  /** What handing over e, under this very checksum, does to memory and log. */
  ghost predicate TakesAs(b: Box, log: seq<Line>, e: Entry, b': Box, log': seq<Line>, accepted: Option<Entry>) {
    if e.DedupeKey() in b.Outstanding() then b' == b && log' == log && accepted == None
    else b' == b.(pending := b.pending.Set(e.id, e)) && log' == log + [Enqueued(e)] && accepted == Some(e)
  }

  /** What handing over an entry does: a digest written "sha256:h" is taken as h, any other as it is. */
  ghost predicate Takes(b: Box, log: seq<Line>, e: Entry, b': Box, log': seq<Line>, accepted: Option<Entry>) {
    && (forall h :: e.checksum == "sha256:" + h ==> TakesAs(b, log, e.(checksum := h), b', log', accepted))
    && (!("sha256:" <= e.checksum) ==> TakesAs(b, log, e, b', log', accepted))
  }

  lemma KnownIsOutstanding(b: Box, key: Key)
    ensures Known(b, key) <==> key in b.Outstanding()
  {
  }

  lemma BareIsTaken(b: Box, log: seq<Line>, entry: Entry)
    ensures var e := entry.(checksum := Bare(entry.checksum));
            var effect := EnqueueEffect(b, e);
            Takes(b, log, entry, effect.box, log + effect.lines, if Known(b, e.DedupeKey()) then None else Some(e))
  {
    var e := entry.(checksum := Bare(entry.checksum));
    KnownIsOutstanding(b, e.DedupeKey());
    assert log + [] == log;
    forall h | entry.checksum == "sha256:" + h ensures h == Bare(entry.checksum) {
      assert ("sha256:" + h)[7..] == h;
    }
  }

  lemma TakenIsOutstanding(b: Box, log: seq<Line>, e: Entry, b': Box, log': seq<Line>, accepted: Option<Entry>)
    requires TakesAs(b, log, e, b', log', accepted)
    ensures e.DedupeKey() in b'.Outstanding()
  {
    if accepted.Some? {
      assert b'.pending.at[e.id].DedupeKey() == e.DedupeKey();
    }
  }

  /** Handed over with the prefix and without it, in either order, one document is queued once. */
  lemma BothSpellingsAreOneDocument(b: Box, log: seq<Line>, x: Entry, b1: Box, log1: seq<Line>, first: Option<Entry>,
                                    y: Entry, b2: Box, log2: seq<Line>, second: Option<Entry>, h: string)
    requires Takes(b, log, x, b1, log1, first) && Takes(b1, log1, y, b2, log2, second)
    requires !("sha256:" <= h) && x.checksum in {h, "sha256:" + h} && y.checksum in {h, "sha256:" + h}
    requires x.op == y.op == "add_record" && x.registry == y.registry
    ensures second == None && b2 == b1 && log2 == log1
    ensures first.Some? ==> first.value == x.(checksum := h)
  {
    assert TakesAs(b, log, x.(checksum := h), b1, log1, first);
    TakenIsOutstanding(b, log, x.(checksum := h), b1, log1, first);
    assert TakesAs(b1, log1, y.(checksum := h), b2, log2, second);
  }

  // ── the class ─────────────────────────────────────────────────────────────

  class Outbox {
    const maxAttempts: nat
    var log: seq<Line>
    var pending: Dict<nat, Entry>
    var done: set<Key>
    var parked: Dict<nat, Entry>
    var completedLines: nat

    function Memory(): Box
      reads this
    {
      Box(pending, done, parked, completedLines)
    }

    ghost predicate Valid()
      reads this
    {
      Memory().Valid()
    }

    /** Opening the outbox replays its file. */
    constructor (file: seq<Line>, maxAttempts: nat)
      ensures log == file && this.maxAttempts == maxAttempts
      ensures Memory() == Load(file)
    {
      this.maxAttempts := maxAttempts;
      log := file;
      pending, done, parked, completedLines := Empty(), {}, Empty(), 0;
      new;
      var i := 0;
      while i < |file|
        invariant 0 <= i <= |file| && log == file
        invariant Memory() == Load(file[..i])
      {
        ReplayLine(file[i]);
        LoadAppend(file[..i], file[i]);
        assert file[..i] + [file[i]] == file[..i + 1];
        i := i + 1;
      }
      assert file[..i] == file;
    }

    method ReplayLine(line: Line)
      modifies this`pending, this`done, this`parked, this`completedLines
      ensures Memory() == Replay(old(Memory()), line)
    {
      match line
      case Enqueued(e) =>
        if e.DedupeKey() !in done {
          pending := pending.Set(e.id, e);
        }
      case Sent(id, dedupe, _, _, _) =>
        if id.Uuid? && id.id in pending.at {
          done := done + {pending.at[id.id].DedupeKey()};
          pending := pending.Pop(id.id);
        } else if dedupe.Some? {
          done := done + {dedupe.value};
        }
        completedLines := completedLines + 1;
      case Parked(id, error, _) =>
        if id in pending.at {
          parked := parked.Set(id, pending.at[id].(lastError := error));
          pending := pending.Pop(id);
        }
        completedLines := completedLines + 1;
      case Torn =>
    }

    method Append(line: Line)
      modifies this`log
      ensures log == old(log) + [line]
    {
      log := log + [line];
    }

    /** None when this exact unit is already anchored, queued or parked. */
    method Enqueue(entry: Entry) returns (accepted: Option<Entry>)
      requires entry == entry.Core()
      modifies this`log, this`pending
      ensures var e := entry.(checksum := Bare(entry.checksum));
              var effect := EnqueueEffect(old(Memory()), e);
              && Memory() == effect.box
              && log == old(log) + effect.lines
              && accepted == (if Known(old(Memory()), e.DedupeKey()) then None else Some(e))
      ensures Takes(old(Memory()), old(log), entry, Memory(), log, accepted)
    {
      BareIsTaken(Memory(), log, entry);
      var e := entry.(checksum := Bare(entry.checksum));
      accepted := None;
      if Known(Memory(), e.DedupeKey()) {
        return;
      }
      Append(Enqueued(e));
      pending := pending.Set(e.id, e);
      accepted := Some(e);
    }

    /** Sends what is due, oldest first, up to limit entries. The hook's calls are returned, in order. */
    method Drain(backend: Backend, now: real, limit: nat)
        returns (sent: nat, failed: nat, skipped: nat, anchored: seq<(Entry, AnchorResult)>)
      requires Valid()
      modifies this`log, this`pending, this`done, this`parked, this`completedLines
      ensures Valid()
      ensures var ids := old(pending.keys)[..if limit < |old(pending.keys)| then limit else |old(pending.keys)|];
              var t := Drained(old(Memory()), ids, now, maxAttempts, backend);
              && Memory() == t.box
              && log == old(log) + t.lines
              && sent == t.sent && failed == t.failed && skipped == t.skipped && anchored == t.anchored
      ensures sent == |anchored|
      ensures sent + failed + skipped == if limit < |old(pending.keys)| then limit else |old(pending.keys)|
    {
      ghost var b := Memory();
      var n := if limit < |pending.keys| then limit else |pending.keys|;
      var snapshot, ids := pending, pending.keys[..n];
      ghost var t := Tally(b, [], 0, 0, 0, []);
      sent, failed, skipped, anchored := 0, 0, 0, [];
      var i := 0;
      while i < n
        invariant i <= n == |ids| && DrainedUpTo(b, ids, i, t, now, maxAttempts, backend)
        invariant Memory() == t.box && log == old(log) + t.lines
        invariant Tally(t.box, t.lines, sent, failed, skipped, anchored) == t
      {
        RoundEffect(b, ids, i, t, old(log), now, maxAttempts, backend);
        var entry := snapshot.at[ids[i]];
        var outcome := Offer(entry, backend(i, entry), now);
        match outcome {
          case Skipped => skipped := skipped + 1;
          case Failed => failed := failed + 1;
          case Anchored(result) =>
            anchored := anchored + [(entry, result)];
            sent := sent + 1;
        }
        t, i := Round(t, ids[i], i, now, maxAttempts, backend), i + 1;
      }
      DrainEnds(b, ids, t, now, maxAttempts, backend);
    }

    /** One round: skip, drop a duplicate, or submit and settle the entry by what the backend answers. */
    method Offer(entry: Entry, reply: Reply, now: real) returns (outcome: Outcome)
      modifies this`log, this`pending, this`done, this`parked, this`completedLines
      ensures var effect := AttemptEffect(old(Memory()), entry, now, maxAttempts, reply);
              Memory() == effect.box && log == old(log) + effect.lines
      ensures outcome == OutcomeOf(old(Memory()), entry, now, reply)
    {
      if entry.nextAttemptAt > now {
        return Skipped;
      }
      if entry.DedupeKey() in done {
        pending := pending.Pop(entry.id);
        Append(Sent(Uuid(entry.id), Some(entry.DedupeKey()), "duplicate", 0, now));
        return Skipped;
      }
      match Submit(entry, reply)
      case Unavailable(error) =>
        Backoff(entry, error, now);
        outcome := Failed;
      case Refused(error) =>
        Park(entry, error, now);
        outcome := Failed;
      case Accepted(result) =>
        Complete(entry, result, now);
        outcome := Anchored(result);
    }

    method Complete(entry: Entry, result: AnchorResult, now: real)
      modifies this`log, this`pending, this`done, this`completedLines
      ensures var effect := CompleteEffect(old(Memory()), entry, result, now);
              Memory() == effect.box && log == old(log) + effect.lines
    {
      Append(SentLine(entry, result, now));
      pending := pending.Pop(entry.id);
      done := done + {entry.DedupeKey()};
      completedLines := completedLines + 1;
    }

    method Backoff(entry: Entry, error: string, now: real)
      modifies this`log, this`pending, this`parked
      ensures var effect := BackoffEffect(old(Memory()), entry, error, now, maxAttempts);
              Memory() == effect.box && log == old(log) + effect.lines
    {
      var tried := Retried(entry, error, now);
      if GivesUp(tried.attempts, maxAttempts) {
        Park(tried, error, now);
      } else {
        pending := pending.Set(tried.id, tried);
      }
    }

    method Park(entry: Entry, error: string, now: real)
      modifies this`log, this`pending, this`parked
      ensures var effect := ParkEffect(old(Memory()), entry, error, now);
              Memory() == effect.box && log == old(log) + effect.lines
    {
      Append(Parked(entry.id, error, now));
      pending := pending.Pop(entry.id);
      parked := parked.Set(entry.id, entry.(lastError := error));
    }

    method RequeueParked() returns (n: nat)
      requires Valid()
      modifies this`log, this`pending, this`parked
      ensures var r := RequeuedAll(old(Memory()), old(parked.keys));
              Memory() == r.box && log == old(log) + r.lines && n == r.count
      ensures parked.keys == []
    {
      ghost var b := Memory();
      var snapshot, ids := parked, parked.keys;
      ghost var r := Requeued(b, [], 0);
      RequeueStarts(b);
      n := 0;
      var i := 0;
      while i < |ids|
        invariant i <= |ids| && RequeuedUpTo(b, ids, i, r)
        invariant Memory() == r.box && log == old(log) + r.lines && n == r.count
      {
        RequeueRoundEffect(b, ids, i, r, old(log));
        var requeued := RequeueOne(snapshot.at[ids[i]]);
        n := if requeued then n + 1 else n;
        r, i := RequeueRound(r, ids[i]), i + 1;
      }
      RequeueEnds(b, ids, r);
    }

    method RequeueOne(entry: Entry) returns (requeued: bool)
      modifies this`log, this`pending, this`parked
      ensures var effect := RequeueEffect(old(Memory()), entry);
              Memory() == effect.box && log == old(log) + effect.lines && requeued == (effect.lines != [])
    {
      if entry.DedupeKey() in done {
        parked := parked.Pop(entry.id);
        return false;
      }
      var e := entry.(attempts := 0, nextAttemptAt := 0.0);
      Append(Enqueued(e));
      pending := pending.Set(e.id, e);
      parked := parked.Pop(entry.id);
      return true;
    }

    /** The rewritten log replaces the old one in a single rename. */
    method CompactLog() returns (ghost keys: seq<Key>)
      requires Valid()
      modifies this`log, this`completedLines
      ensures Enumerates(keys, done) && log == CompactLines(old(Memory()), keys) && completedLines == 0
    {
      var rest, listed := done, [];
      while rest != {}
        invariant rest <= done && NoDup(listed)
        invariant forall k :: k in listed <==> k in done && k !in rest
        decreases |rest|
      {
        var k :| k in rest;
        rest := rest - {k};
        listed := listed + [k];
      }
      keys := listed;
      log := EnqueuedLines(pending) + SentKeys(listed) + ParkedLines(parked);
      completedLines := 0;
    }
  }
}
