/** The anchor index: one entry per signal, rebuilt from rows that are only ever added. */
module AnchorIndexing {
  import opened Collections
  import opened AnchorBase

  datatype Anchored = Anchored(registry: string, registryId: int, recordId: int, index: int, checksum: string,
                               transaction: string, uri: string, kind: string, environment: string)

  /** A status row may come first in a hand-edited file, hence the optional part. */
  datatype IndexEntry = IndexEntry(anchored: Option<Anchored>, status: string, statusTransaction: Option<string>)

  datatype Row =
    | AnchoredRow(signalId: string, anchored: Anchored, status: string)
    | StatusRow(signalId: string, status: string, transaction: string)

  type Index = Dict<string, IndexEntry>

  function Updated(existing: Option<IndexEntry>, row: Row): IndexEntry {
    match row
    case AnchoredRow(_, anchored, status) =>
      IndexEntry(Some(anchored), status, if existing.Some? then existing.value.statusTransaction else None)
    case StatusRow(_, status, transaction) =>
      IndexEntry(if existing.Some? then existing.value.anchored else None, status, Some(transaction))
  }

  function Lookup(d: Index, signalId: string): Option<IndexEntry> {
    if signalId in d.at then Some(d.at[signalId]) else None
  }

  /** A later row supersedes an earlier one, field by field; a row without a signal is skipped. */
  function LoadRow(d: Index, row: Row): Index {
    if row.signalId == "" then d else d.Set(row.signalId, Updated(Lookup(d, row.signalId), row))
  }

  function LoadRows(rows: seq<Row>): (d: Index)
    ensures d.Valid()
  {
    if rows == [] then Empty() else LoadRow(LoadRows(rows[..|rows| - 1]), rows[|rows| - 1])
  }

  /** In memory an empty transaction leaves the old one standing; in the row it is written out. */
  function WithStatus(d: Index, signalId: string, status: string, transaction: string): Index {
    if signalId !in d.at then d
    else
      var e := d.at[signalId];
      d.Set(signalId, e.(status := status,
                         statusTransaction := if transaction != "" then Some(transaction) else e.statusTransaction))
  }

  function RemoveAll(s: string, prefix: string): string
    requires prefix != ""
  {
    if |s| < |prefix| then s
    else if s[..|prefix|] == prefix then RemoveAll(s[|prefix|..], prefix)
    else [s[0]] + RemoveAll(s[1..], prefix)
  }

  function FirstChars(s: string, n: nat): string { if |s| <= n then s else s[..n] }

  /** Records without a signal are keyed by the start of their checksum. */
  function SignalKey(signalId: string, checksum: string): (k: string)
    ensures k != "" && (signalId != "" ==> k == signalId)
  {
    if signalId != "" then signalId else "checksum:" + FirstChars(RemoveAll(checksum, "sha256:"), 16)
  }

  /** Everything a reader of the index acts on; only the transaction of the status change is left out. */
  ghost predicate SameRecords(a: Index, b: Index) {
    && a.keys == b.keys
    && a.at.Keys == b.at.Keys
    && forall s :: s in a.at ==> a.at[s].anchored == b.at[s].anchored && a.at[s].status == b.at[s].status
  }

  lemma RowsAppend(rows: seq<Row>, row: Row)
    ensures LoadRows(rows + [row]) == LoadRow(LoadRows(rows), row)
  {
    assert (rows + [row])[..|rows|] == rows;
  }

  /** The same row read into both keeps an index and its reload alike. */
  lemma SameAfterRow(a: Index, b: Index, row: Row)
    requires SameRecords(a, b)
    ensures SameRecords(LoadRow(a, row), LoadRow(b, row))
  {
  }

  // ── what a loaded index says, row by row ──────────────────────────────────

  ghost predicate LastRow(rows: seq<Row>, s: string, i: int) {
    0 <= i < |rows| && rows[i].signalId == s && forall j :: i < j < |rows| ==> rows[j].signalId != s
  }

  ghost predicate LastAnchoring(rows: seq<Row>, s: string, i: int) {
    && 0 <= i < |rows| && rows[i].signalId == s && rows[i].AnchoredRow?
    && forall j :: i < j < |rows| && rows[j].signalId == s ==> rows[j].StatusRow?
  }

  ghost predicate LastMarking(rows: seq<Row>, s: string, i: int) {
    && 0 <= i < |rows| && rows[i].signalId == s && rows[i].StatusRow?
    && forall j :: i < j < |rows| && rows[j].signalId == s ==> rows[j].AnchoredRow?
  }

  /** e says of s what the last row of each kind says. */
  ghost predicate Latest(rows: seq<Row>, s: string, e: IndexEntry) {
    && (forall i :: LastRow(rows, s, i) ==> e.status == rows[i].status)
    && (forall i :: LastAnchoring(rows, s, i) ==> e.anchored == Some(rows[i].anchored))
    && (forall i :: LastMarking(rows, s, i) ==> e.statusTransaction == Some(rows[i].transaction))
    && ((forall i :: 0 <= i < |rows| && rows[i].signalId == s ==> rows[i].StatusRow?) ==> e.anchored == None)
    && ((forall i :: 0 <= i < |rows| && rows[i].signalId == s ==> rows[i].AnchoredRow?) ==> e.statusTransaction == None)
  }

  ghost predicate Mentioned(rows: seq<Row>, s: string) {
    exists i :: 0 <= i < |rows| && rows[i].signalId == s
  }

  lemma UnmentionedRows(init: seq<Row>, row: Row, s: string, e: IndexEntry)
    requires row.signalId != s
    ensures Mentioned(init + [row], s) <==> Mentioned(init, s)
    ensures Latest(init, s, e) ==> Latest(init + [row], s, e)
  {
    var rows := init + [row];
    assert forall i :: 0 <= i < |init| ==> rows[i] == init[i];
    forall i | LastRow(rows, s, i) ensures LastRow(init, s, i) {}
    forall i | LastAnchoring(rows, s, i) ensures LastAnchoring(init, s, i) {}
    forall i | LastMarking(rows, s, i) ensures LastMarking(init, s, i) {}
  }

  lemma OneMoreRow(init: seq<Row>, row: Row, s: string, before: Option<IndexEntry>)
    requires row.signalId == s
    requires before.Some? <==> Mentioned(init, s)
    requires before.Some? ==> Latest(init, s, before.value)
    ensures Latest(init + [row], s, Updated(before, row))
  {
    var rows, n := init + [row], |init|;
    assert rows[n] == row && forall i :: 0 <= i < n ==> rows[i] == init[i];
    forall i | LastRow(rows, s, i) ensures i == n {}
    if row.AnchoredRow? {
      forall i | LastAnchoring(rows, s, i) ensures i == n {}
      forall i | LastMarking(rows, s, i) ensures LastMarking(init, s, i) {}
    } else {
      forall i | LastMarking(rows, s, i) ensures i == n {}
      forall i | LastAnchoring(rows, s, i) ensures LastAnchoring(init, s, i) {}
    }
  }

  /** Later rows supersede earlier ones field by field: each part of an entry is the last one written for it. */
  lemma {:induction false} LaterRowsWin(rows: seq<Row>, s: string)
    ensures s in LoadRows(rows).at <==> s != "" && Mentioned(rows, s)
    ensures s in LoadRows(rows).at ==> Latest(rows, s, LoadRows(rows).at[s])
  {
    if rows != [] {
      var init, row := rows[..|rows| - 1], rows[|rows| - 1];
      InitAndLast(rows);
      LaterRowsWin(init, s);
      var before := Lookup(LoadRows(init), s);
      if row.signalId == s {
        assert rows[|init|] == row;
        if s != "" {
          OneMoreRow(init, row, s, before);
        }
      } else {
        UnmentionedRows(init, row, s, if before.Some? then before.value else IndexEntry(None, "", None));
      }
    }
  }

  // ── the key of a record without a signal ──────────────────────────────────

  ghost predicate Occurs(prefix: string, s: string) {
    exists i :: 0 <= i <= |s| && prefix <= s[i..]
  }

  lemma {:induction false} NothingToRemove(s: string, prefix: string)
    requires prefix != "" && !Occurs(prefix, s)
    ensures RemoveAll(s, prefix) == s
  {
    if |s| >= |prefix| {
      assert s[0..] == s;
      forall i | 0 <= i <= |s[1..]| ensures !(prefix <= s[1..][i..]) {
        assert s[1..][i..] == s[i + 1..];
      }
      NothingToRemove(s[1..], prefix);
    }
  }

  /** However its digest is spelled, a record without a signal is found under the digest's first sixteen characters. */
  lemma UnsignedKey(h: string)
    requires !Occurs("sha256:", h)
    ensures SignalKey("", "sha256:" + h) == SignalKey("", h) == "checksum:" + (if |h| < 16 then h else h[..16])
  {
    NothingToRemove(h, "sha256:");
    assert ("sha256:" + h)[..7] == "sha256:" && ("sha256:" + h)[7..] == h;
  }

  lemma SignalsAreNamed(rows: seq<Row>)
    ensures "" !in LoadRows(rows).at
  {
  }

  /** The Active entries among the first n signals, in order. */
  function ActiveOf(d: Index, n: nat): seq<(string, IndexEntry)>
    requires d.Valid() && n <= |d.keys|
  {
    if n == 0 then []
    else
      var s := d.keys[n - 1];
      ActiveOf(d, n - 1) + if d.at[s].status == STATUS_ACTIVE then [(s, d.at[s])] else []
  }

  lemma {:induction false} ActiveIsAmong(d: Index, n: nat, s: string, e: IndexEntry)
    requires d.Valid() && n <= |d.keys|
    ensures (s, e) in ActiveOf(d, n) <==> s in d.keys[..n] && d.at[s] == e && e.status == STATUS_ACTIVE
  {
    if n > 0 {
      ActiveIsAmong(d, n - 1, s, e);
      assert d.keys[..n] == d.keys[..n - 1] + [d.keys[n - 1]];
    }
  }

  /** Exactly the entries marked Active are listed. */
  lemma ActiveIsExactly(d: Index, s: string, e: IndexEntry)
    requires d.Valid()
    ensures (s, e) in ActiveOf(d, |d.keys|) <==> s in d.at && d.at[s] == e && e.status == STATUS_ACTIVE
  {
    ActiveIsAmong(d, |d.keys|, s, e);
    assert d.keys[..|d.keys|] == d.keys;
  }

  /** They are listed in the order in which their signals were first indexed, each once. */
  lemma {:induction false} ActiveInOrder(d: Index, n: nat, i: nat, j: nat) returns (a: nat, b: nat)
    requires d.Valid() && n <= |d.keys| && i < j < |ActiveOf(d, n)|
    ensures a < b < n && d.keys[a] == ActiveOf(d, n)[i].0 && d.keys[b] == ActiveOf(d, n)[j].0
    ensures d.keys[a] != d.keys[b]
  {
    if j < |ActiveOf(d, n - 1)| {
      a, b := ActiveInOrder(d, n - 1, i, j);
    } else {
      b := n - 1;
      ActiveIsAmong(d, n - 1, ActiveOf(d, n)[i].0, ActiveOf(d, n)[i].1);
      assert ActiveOf(d, n)[i] == ActiveOf(d, n - 1)[i];
      a :| 0 <= a < n - 1 && d.keys[a] == ActiveOf(d, n)[i].0;
    }
  }

  class AnchorIndex {
    var rows: seq<Row>
    var bySignal: Index

    ghost predicate Valid()
      reads this
    {
      bySignal.Valid() && SameRecords(bySignal, LoadRows(rows))
    }

    constructor (file: seq<Row>)
      ensures Valid() && rows == file && bySignal == LoadRows(file)
    {
      rows := file;
      bySignal := Empty();
      new;
      var i := 0;
      while i < |file|
        invariant 0 <= i <= |file| && rows == file && bySignal == LoadRows(file[..i])
      {
        assert file[..i + 1] == file[..i] + [file[i]];
        RowsAppend(file[..i], file[i]);
        if file[i].signalId != "" {
          bySignal := bySignal.Set(file[i].signalId, Updated(Lookup(bySignal, file[i].signalId), file[i]));
        }
        i := i + 1;
      }
      assert file[..i] == file;
    }

    /** What was recorded survives a reload, and no other signal is touched. */
    method RecordAnchored(signalId: string, anchored: Anchored, status: string)
      requires Valid()
      modifies this
      ensures Valid()
      ensures var row := AnchoredRow(SignalKey(signalId, anchored.checksum), anchored, status);
              rows == old(rows) + [row] && bySignal == LoadRow(old(bySignal), row)
    {
      var row := AnchoredRow(SignalKey(signalId, anchored.checksum), anchored, status);
      RowsAppend(rows, row);
      SameAfterRow(bySignal, LoadRows(rows), row);
      bySignal := bySignal.Set(row.signalId, Updated(Lookup(bySignal, row.signalId), row));
      rows := rows + [row];
    }

    method RecordStatus(signalId: string, status: string, transaction: string) returns (known: bool)
      requires Valid()
      modifies this
      ensures Valid() && known == (signalId in old(bySignal).at)
      ensures bySignal == WithStatus(old(bySignal), signalId, status, transaction)
      ensures known ==>
                var e, e' := old(bySignal).at[signalId], bySignal.at[signalId];
                && e'.anchored == e.anchored && e'.status == status
                && e'.statusTransaction == if transaction == "" then e.statusTransaction else Some(transaction)
      ensures known ==> bySignal.at == old(bySignal).at[signalId := bySignal.at[signalId]]
      ensures rows == old(rows) + (if known then [StatusRow(signalId, status, transaction)] else [])
    {
      if signalId !in bySignal.at {
        return false;
      }
      var row := StatusRow(signalId, status, transaction);
      SignalsAreNamed(rows);
      bySignal := WithStatus(bySignal, signalId, status, transaction);
      RowsAppend(rows, row);
      rows := rows + [row];
      return true;
    }

    method Get(signalId: string) returns (entry: Option<IndexEntry>)
      ensures entry == Lookup(bySignal, signalId)
      ensures entry.Some? <==> signalId in bySignal.at
      ensures entry.Some? ==> bySignal.at[signalId] == entry.value
    {
      entry := if signalId in bySignal.at then Some(bySignal.at[signalId]) else None;
    }

    /** The entries still marked Active, under their signals, in the order these were first indexed. */
    method Active() returns (entries: seq<(string, IndexEntry)>)
      requires Valid()
      ensures entries == ActiveOf(bySignal, |bySignal.keys|)
    {
      entries := [];
      for i := 0 to |bySignal.keys|
        invariant entries == ActiveOf(bySignal, i)
      {
        var s := bySignal.keys[i];
        if bySignal.at[s].status == STATUS_ACTIVE {
          entries := entries + [(s, bySignal.at[s])];
        }
      }
    }
  }
}
