/** The durable outbox: an append-only log, the queue rebuilt from it, and the class over both. */
module AnchorOutbox {
  import opened Collections
  import opened AnchorBase

  const MAX_BACKOFF_SECONDS := 900.0
  const BASE_BACKOFF_SECONDS := 5.0

  /** Line identifiers: an entry's own, or the placeholder that compaction writes for a finished key. */
  datatype LineId = Uuid(id: nat) | Compacted(key: Key)

  datatype Line =
    | Enqueued(entry: Entry)
    | Sent(id: LineId, dedupe: Option<Key>, transaction: string, recordId: int, at: real)
    | Parked(entryId: nat, error: string, at: real)
    | Torn

  /** What the process holds in memory. */
  datatype Box = Box(pending: Dict<nat, Entry>, done: set<Key>, parked: Dict<nat, Entry>, completed: nat) {
    ghost predicate Valid() {
      && pending.Valid()
      && parked.Valid()
      && (forall id :: id in pending.at ==> pending.at[id].id == id)
      && (forall id :: id in parked.at ==> parked.at[id].id == id)
    }

    ghost function PendingKeys(): set<Key> { set id | id in pending.at :: pending.at[id].DedupeKey() }

    ghost function ParkedKeys(): set<Key> { set id | id in parked.at :: parked.at[id].DedupeKey() }

    /** Every key that is queued, parked or anchored. */
    ghost function Outstanding(): set<Key> { done + PendingKeys() + ParkedKeys() }
  }

  const EMPTY := Box(Empty(), {}, Empty(), 0)

  // ── replay ────────────────────────────────────────────────────────────────

  function Replay(b: Box, line: Line): Box {
    match line
    case Enqueued(e) =>
      if e.DedupeKey() !in b.done then b.(pending := b.pending.Set(e.id, e)) else b
    case Sent(id, dedupe, _, _, _) =>
      var done' :=
        if id.Uuid? && id.id in b.pending.at then b.done + {b.pending.at[id.id].DedupeKey()}
        else if dedupe.Some? then b.done + {dedupe.value}
        else b.done;
      b.(pending := if id.Uuid? && id.id in b.pending.at then b.pending.Pop(id.id) else b.pending,
         done := done', completed := b.completed + 1)
    case Parked(id, error, _) =>
      if id in b.pending.at then
        b.(pending := b.pending.Pop(id),
           parked := b.parked.Set(id, b.pending.at[id].(lastError := error)),
           completed := b.completed + 1)
      else b.(completed := b.completed + 1)
    case Torn => b
  }

  function ReplayAll(b: Box, log: seq<Line>): Box {
    if log == [] then b else Replay(ReplayAll(b, log[..|log| - 1]), log[|log| - 1])
  }

  function Load(log: seq<Line>): Box { ReplayAll(EMPTY, log) }

  // ── operations, as new memory and appended lines ──────────────────────────

  datatype Effect = Effect(box: Box, lines: seq<Line>)

  predicate Known(b: Box, key: Key) {
    key in b.done
    || (exists id | id in b.pending.at :: b.pending.at[id].DedupeKey() == key)
    || (exists id | id in b.parked.at :: b.parked.at[id].DedupeKey() == key)
  }

  function EnqueueEffect(b: Box, e: Entry): Effect {
    if Known(b, e.DedupeKey()) then Effect(b, [])
    else Effect(b.(pending := b.pending.Set(e.id, e)), [Enqueued(e)])
  }

  function Pow2(n: nat): real { if n == 0 then 1.0 else 2.0 * Pow2(n - 1) }

  /** Seconds to wait after the n-th failed attempt. */
  function Delay(attempts: nat): real
    requires attempts > 0
  {
    Min(BASE_BACKOFF_SECONDS * Pow2(attempts - 1), MAX_BACKOFF_SECONDS)
  }

  function ParkEffect(b: Box, e: Entry, error: string, now: real): Effect {
    Effect(b.(pending := b.pending.Pop(e.id), parked := b.parked.Set(e.id, e.(lastError := error))),
           [Parked(e.id, error, now)])
  }

  /** The entry after one more transient failure. */
  function Retried(e: Entry, error: string, now: real): (r: Entry)
    ensures r.Core() == e.Core() && r.attempts == e.attempts + 1
  {
    e.(attempts := e.attempts + 1, lastError := error, nextAttemptAt := now + Delay(e.attempts + 1))
  }

  predicate GivesUp(attempts: nat, maxAttempts: nat) {
    maxAttempts != 0 && attempts >= maxAttempts
  }

  function BackoffEffect(b: Box, e: Entry, error: string, now: real, maxAttempts: nat): Effect {
    var e' := Retried(e, error, now);
    if GivesUp(e'.attempts, maxAttempts) then ParkEffect(b, e', error, now)
    else Effect(b.(pending := b.pending.Set(e.id, e')), [])
  }

  function SentLine(e: Entry, r: AnchorResult, now: real): Line {
    Sent(Uuid(e.id), Some(e.DedupeKey()), r.transaction, r.recordId, now)
  }

  function CompleteEffect(b: Box, e: Entry, r: AnchorResult, now: real): Effect {
    Effect(b.(pending := b.pending.Pop(e.id), done := b.done + {e.DedupeKey()}, completed := b.completed + 1),
           [SentLine(e, r, now)])
  }

  /** The entry is due and its work has not landed yet, so the backend is asked. */
  predicate Submits(b: Box, e: Entry, now: real) {
    e.nextAttemptAt <= now && e.DedupeKey() !in b.done
  }

  /** One round of the drain loop. */
  function AttemptEffect(b: Box, e: Entry, now: real, maxAttempts: nat, reply: Reply): Effect {
    if e.nextAttemptAt > now then Effect(b, [])
    else if e.DedupeKey() in b.done then
      Effect(b.(pending := b.pending.Pop(e.id)),
             [Sent(Uuid(e.id), Some(e.DedupeKey()), "duplicate", 0, now)])
    else
      match Submit(e, reply)
      case Accepted(r) => CompleteEffect(b, e, r, now)
      case Unavailable(error) => BackoffEffect(b, e, error, now, maxAttempts)
      case Refused(error) => ParkEffect(b, e, error, now)
  }

  /** One round of the requeue loop. */
  function RequeueEffect(b: Box, e: Entry): Effect {
    if e.DedupeKey() in b.done then Effect(b.(parked := b.parked.Pop(e.id)), [])
    else
      var e' := e.(attempts := 0, nextAttemptAt := 0.0);
      Effect(b.(pending := b.pending.Set(e.id, e'), parked := b.parked.Pop(e.id)), [Enqueued(e')])
  }

  function SentKeys(keys: seq<Key>): (lines: seq<Line>)
    ensures |lines| == |keys|
  {
    seq(|keys|, i requires 0 <= i < |keys| => Sent(Compacted(keys[i]), Some(keys[i]), "", 0, 0.0))
  }

  function EnqueuedLines(d: Dict<nat, Entry>): (lines: seq<Line>)
    requires d.Valid()
    ensures |lines| == |d.keys|
  {
    seq(|d.keys|, i requires 0 <= i < |d.keys| => Enqueued(d.at[d.keys[i]]))
  }

  function ParkedLines(d: Dict<nat, Entry>): (lines: seq<Line>)
    requires d.Valid()
    ensures |lines| == |d.keys|
  {
    seq(|d.keys|, i requires 0 <= i < |d.keys| =>
      Parked(d.keys[i], d.at[d.keys[i]].lastError, 0.0))
  }

  /** keys lists the finished set, each key once; the order is the caller's. */
  ghost predicate Enumerates(keys: seq<Key>, done: set<Key>) {
    NoDup(keys) && forall k :: k in keys <==> k in done
  }

  function CompactLines(b: Box, keys: seq<Key>): seq<Line>
    requires b.pending.Valid() && b.parked.Valid()
  {
    EnqueuedLines(b.pending) + SentKeys(keys) + ParkedLines(b.parked)
  }
}
