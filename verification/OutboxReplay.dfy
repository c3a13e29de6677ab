/** Replaying log lines: what each line does to a box, and what a compacted log rebuilds. */
module OutboxReplay {
  import opened Collections
  import opened AnchorBase
  import opened AnchorOutbox

  /** Each stored entry is the one accepted under its id, up to the retry fields. */
  ghost predicate Genuine(b: Box, born: map<nat, Entry>) {
    && b.Valid()
    && (forall id :: id in b.pending.at ==> id in born && b.pending.at[id].Core() == born[id])
    && (forall id :: id in b.parked.at ==> id in born && b.parked.at[id].Core() == born[id])
  }

  ghost predicate Live(b: Box, id: nat) { id in b.pending.at || id in b.parked.at }

  /** A box seen through ids and keys only. */
  datatype Shape = Shape(pending: set<nat>, parked: set<nat>, done: set<Key>)

  ghost function ShapeOf(b: Box): Shape { Shape(b.pending.at.Keys, b.parked.at.Keys, b.done) }

  lemma LoadAppend(log: seq<Line>, line: Line)
    ensures Load(log + [line]) == Replay(Load(log), line)
  {
    assert (log + [line])[..|log|] == log;
  }

  // Boxes under one dictionary operation.

  lemma SetPending(b: Box, e: Entry, born: map<nat, Entry>)
    requires Genuine(b, born) && e.id in born && e.Core() == born[e.id]
    ensures Genuine(b.(pending := b.pending.Set(e.id, e)), born)
    ensures ShapeOf(b.(pending := b.pending.Set(e.id, e)))
         == ShapeOf(b).(pending := ShapeOf(b).pending + {e.id})
  {
  }

  lemma PopPending(b: Box, id: nat, born: map<nat, Entry>)
    requires Genuine(b, born)
    ensures Genuine(b.(pending := b.pending.Pop(id)), born)
    ensures ShapeOf(b.(pending := b.pending.Pop(id)))
         == ShapeOf(b).(pending := ShapeOf(b).pending - {id})
  {
  }

  lemma SetParked(b: Box, e: Entry, born: map<nat, Entry>)
    requires Genuine(b, born) && e.id in born && e.Core() == born[e.id]
    ensures Genuine(b.(parked := b.parked.Set(e.id, e)), born)
    ensures ShapeOf(b.(parked := b.parked.Set(e.id, e)))
         == ShapeOf(b).(parked := ShapeOf(b).parked + {e.id})
  {
  }

  lemma PopParked(b: Box, id: nat, born: map<nat, Entry>)
    requires Genuine(b, born)
    ensures Genuine(b.(parked := b.parked.Pop(id)), born)
    ensures ShapeOf(b.(parked := b.parked.Pop(id)))
         == ShapeOf(b).(parked := ShapeOf(b).parked - {id})
  {
  }

  // Each kind of line, replayed.

  lemma ReplayEnqueued(b: Box, e: Entry, born: map<nat, Entry>)
    requires Genuine(b, born) && e.id in born && e.Core() == born[e.id]
    ensures Genuine(Replay(b, Enqueued(e)), born)
    ensures ShapeOf(Replay(b, Enqueued(e)))
         == (if born[e.id].DedupeKey() in b.done then ShapeOf(b)
             else ShapeOf(b).(pending := ShapeOf(b).pending + {e.id}))
  {
    SetPending(b, e, born);
  }

  lemma ReplaySent(b: Box, id: nat, line: Line, born: map<nat, Entry>)
    requires Genuine(b, born) && id in born
    requires line.Sent? && line.id == Uuid(id) && line.dedupe == Some(born[id].DedupeKey())
    ensures Genuine(Replay(b, line), born)
    ensures ShapeOf(Replay(b, line))
         == ShapeOf(b).(pending := ShapeOf(b).pending - {id}, done := b.done + {born[id].DedupeKey()})
  {
    PopPending(b, id, born);
    if id in b.pending.at {
      assert b.pending.at[id].Core() == born[id];
    }
  }

  lemma ReplayParked(b: Box, id: nat, line: Line, born: map<nat, Entry>)
    requires line.Parked? && line.entryId == id
    ensures Genuine(b, born) ==> Genuine(Replay(b, line), born)
    ensures ShapeOf(Replay(b, line))
         == (if id in ShapeOf(b).pending
             then ShapeOf(b).(pending := ShapeOf(b).pending - {id}, parked := ShapeOf(b).parked + {id})
             else ShapeOf(b))
  {
    if id in b.pending.at && Genuine(b, born) {
      PopPending(b, id, born);
      SetParked(b.(pending := b.pending.Pop(id)), b.pending.at[id].(lastError := line.error), born);
    }
  }

  // A compacted log, replayed.

  lemma ReplayOneMore(b: Box, log: seq<Line>, line: Line)
    ensures ReplayAll(b, log + [line]) == Replay(ReplayAll(b, log), line)
  {
    assert (log + [line])[..|log|] == log;
  }

  ghost predicate Splits(b: Box, x: seq<Line>, y: seq<Line>) { ReplayAll(b, x + y) == ReplayAll(ReplayAll(b, x), y) }

  lemma SplitsNothing(b: Box, x: seq<Line>)
    ensures Splits(b, x, [])
  {
    assert x + [] == x;
  }

  lemma SplitsOneMore(b: Box, x: seq<Line>, y: seq<Line>, line: Line)
    requires Splits(b, x, y)
    ensures Splits(b, x, y + [line])
  {
    Reassociate(x, y, [line]);
    ReplayOneMore(b, x + y, line);
    ReplayOneMore(ReplayAll(b, x), y, line);
  }

  lemma {:induction false} ReplayAllConcat(b: Box, x: seq<Line>, y: seq<Line>)
    ensures Splits(b, x, y)
    decreases |y|
  {
    if |y| == 0 {
      SplitsNothing(b, x);
    } else {
      ReplayAllConcat(b, x, y[..|y| - 1]);
      SplitsOneMore(b, x, y[..|y| - 1], y[|y| - 1]);
      InitAndLast(y);
    }
  }

  /** The first n entries of a dictionary, in its order. */
  ghost function Prefix(d: Dict<nat, Entry>, n: nat): Dict<nat, Entry>
    requires d.Valid() && n <= |d.keys|
  {
    Dict(d.keys[..n], map id | id in d.keys[..n] :: d.at[id])
  }

  lemma PrefixNext(d: Dict<nat, Entry>, n: nat)
    requires d.Valid() && n < |d.keys|
    ensures d.keys[n] !in d.keys[..n]
    ensures Prefix(d, n + 1) == Prefix(d, n).Set(d.keys[n], d.at[d.keys[n]])
  {
    assert d.keys[..n + 1] == d.keys[..n] + [d.keys[n]];
  }

  lemma PrefixAll(d: Dict<nat, Entry>)
    requires d.Valid()
    ensures Prefix(d, |d.keys|) == d
  {
    assert d.keys[..|d.keys|] == d.keys;
    assert (map id | id in d.keys :: d.at[id]) == d.at;
  }

  lemma ReplayOntoPrefix(d: Dict<nat, Entry>, n: nat, e: Entry)
    requires d.Valid() && n < |d.keys| && e == d.at[d.keys[n]] && e.id == d.keys[n]
    ensures Replay(EMPTY.(pending := Prefix(d, n)), Enqueued(e)) == EMPTY.(pending := Prefix(d, n + 1))
  {
    PrefixNext(d, n);
  }

  lemma EnqueuedLinesNext(d: Dict<nat, Entry>, n: nat)
    requires d.Valid() && n < |d.keys|
    ensures EnqueuedLines(d)[..n + 1] == EnqueuedLines(d)[..n] + [Enqueued(d.at[d.keys[n]])]
  {
  }

  lemma {:induction false} ReplayEnqueuedLines(d: Dict<nat, Entry>, n: nat)
    requires d.Valid() && n <= |d.keys| && forall id :: id in d.at ==> d.at[id].id == id
    ensures Load(EnqueuedLines(d)[..n]) == EMPTY.(pending := Prefix(d, n))
  {
    if n > 0 {
      var e := d.at[d.keys[n - 1]];
      ReplayEnqueuedLines(d, n - 1);
      EnqueuedLinesNext(d, n - 1);
      LoadAppend(EnqueuedLines(d)[..n - 1], Enqueued(e));
      ReplayOntoPrefix(d, n - 1, e);
    }
  }

  lemma {:induction false} ReplaySentLines(b: Box, keys: seq<Key>, n: nat)
    requires n <= |keys|
    ensures ReplayAll(b, SentKeys(keys)[..n])
         == b.(done := b.done + (set k | k in keys[..n]), completed := b.completed + n)
  {
    if n > 0 {
      ReplaySentLines(b, keys, n - 1);
      assert SentKeys(keys)[..n][..n - 1] == SentKeys(keys)[..n - 1];
      assert keys[..n] == keys[..n - 1] + [keys[n - 1]];
    }
  }

  ghost function ParkedIds(lines: seq<Line>): set<nat> {
    set line | line in lines && line.Parked? :: line.entryId
  }

  ghost function Reparked(s: Shape, ids: set<nat>): Shape {
    Shape(s.pending - ids, s.parked + s.pending * ids, s.done)
  }

  lemma OneMoreParked(lines: seq<Line>, last: Line)
    requires last.Parked?
    ensures ParkedIds(lines + [last]) == ParkedIds(lines) + {last.entryId}
  {
  }

  lemma ReparkedOneMore(s: Shape, ids: set<nat>, id: nat)
    ensures var r := Reparked(s, ids);
            Reparked(s, ids + {id}) ==
            if id in r.pending then r.(pending := r.pending - {id}, parked := r.parked + {id}) else r
  {
  }

  lemma ReplayOneMoreParked(b: Box, lines: seq<Line>, last: Line, born: map<nat, Entry>)
    requires last.Parked? && ShapeOf(ReplayAll(b, lines)) == Reparked(ShapeOf(b), ParkedIds(lines))
    ensures Genuine(ReplayAll(b, lines), born) ==> Genuine(ReplayAll(b, lines + [last]), born)
    ensures ShapeOf(ReplayAll(b, lines + [last])) == Reparked(ShapeOf(b), ParkedIds(lines + [last]))
  {
    ReplayOneMore(b, lines, last);
    ReplayParked(ReplayAll(b, lines), last.entryId, last, born);
    OneMoreParked(lines, last);
    ReparkedOneMore(ShapeOf(b), ParkedIds(lines), last.entryId);
  }

  lemma {:induction false} ReplayParkedLines(b: Box, lines: seq<Line>, born: map<nat, Entry>)
    requires forall i :: 0 <= i < |lines| ==> lines[i].Parked?
    ensures Genuine(b, born) ==> Genuine(ReplayAll(b, lines), born)
    ensures ShapeOf(ReplayAll(b, lines)) == Reparked(ShapeOf(b), ParkedIds(lines))
    decreases |lines|
  {
    if lines != [] {
      var init, last := lines[..|lines| - 1], lines[|lines| - 1];
      assert lines == init + [last];
      ReplayParkedLines(b, init, born);
      ReplayOneMoreParked(b, init, last, born);
    }
  }

  /** Without its parked lines, a compacted log rebuilds the pending queue and the finished set exactly. */
  lemma ReplayLiveLines(b: Box, keys: seq<Key>)
    requires b.Valid() && Enumerates(keys, b.done)
    ensures Load(EnqueuedLines(b.pending) + SentKeys(keys)) == LiveBox(b, keys)
  {
    var n := |b.pending.keys|;
    ReplayAllConcat(EMPTY, EnqueuedLines(b.pending), SentKeys(keys));
    ReplayEnqueuedLines(b.pending, n);
    PrefixAll(b.pending);
    assert EnqueuedLines(b.pending)[..n] == EnqueuedLines(b.pending);
    var r := Load(EnqueuedLines(b.pending));
    ReplaySentLines(r, keys, |keys|);
    assert SentKeys(keys)[..|keys|] == SentKeys(keys) && keys[..|keys|] == keys;
    assert (set k | k in keys) == b.done;
  }

  /**
   * The parked lines carry no entry, so a reload keeps a parked entry only if
   * the same id was also pending, and then takes it off the pending queue.
   */
  lemma CompactedShape(b: Box, keys: seq<Key>, born: map<nat, Entry>)
    requires b.Valid() && Enumerates(keys, b.done)
    ensures Genuine(b, born) ==> Genuine(Load(CompactLines(b, keys)), born)
    ensures ShapeOf(Load(CompactLines(b, keys)))
         == Shape(b.pending.at.Keys - b.parked.at.Keys, b.pending.at.Keys * b.parked.at.Keys, b.done)
  {
    var lines := ParkedLines(b.parked);
    ParkedIdsOf(b.parked);
    ParkedLast(b, keys);
    ReplayParkedLines(LiveBox(b, keys), lines, born);
  }

  /** What the live part of a compacted log rebuilds. */
  function LiveBox(b: Box, keys: seq<Key>): Box { Box(b.pending, b.done, Empty(), |keys|) }

  lemma ParkedLast(b: Box, keys: seq<Key>)
    requires b.Valid() && Enumerates(keys, b.done)
    ensures Load(CompactLines(b, keys)) == ReplayAll(LiveBox(b, keys), ParkedLines(b.parked))
  {
    ReplayAllConcat(EMPTY, EnqueuedLines(b.pending) + SentKeys(keys), ParkedLines(b.parked));
    ReplayLiveLines(b, keys);
  }

  lemma ParkedIdsOf(d: Dict<nat, Entry>)
    requires d.Valid()
    ensures ParkedIds(ParkedLines(d)) == d.at.Keys
  {
    forall id | id in d.at.Keys ensures id in ParkedIds(ParkedLines(d)) {
      var i :| 0 <= i < |d.keys| && d.keys[i] == id;
      assert ParkedLines(d)[i].entryId == id;
    }
  }

  /**
   * Compaction followed by a reload gives back the same pending sequence (retry
   * fields included), finished set and parked set exactly when nothing is parked.
   */
  lemma CompactionIsFaithfulIffNothingParked(b: Box, keys: seq<Key>)
    requires b.Valid() && Enumerates(keys, b.done)
    ensures var r := Load(CompactLines(b, keys));
            (r.pending == b.pending && r.done == b.done && r.parked == b.parked) <==> b.parked.keys == []
  {
    if b.parked.keys == [] {
      ReplayLiveLines(b, keys);
      assert CompactLines(b, keys) == EnqueuedLines(b.pending) + SentKeys(keys);
      assert b.parked.at == map[];
    } else {
      CompactedShape(b, keys, map[]);
      assert b.parked.keys[0] in b.parked.at;
    }
  }
}
