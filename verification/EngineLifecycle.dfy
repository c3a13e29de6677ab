/** The engine's lifecycle handlers, as effects on the outbox and the index in sequence. */
module EngineLifecycle {
  import opened Collections
  import opened AnchorBase
  import opened AnchorOutbox
  import opened OutboxService
  import opened AnchorIndexing
  import opened Lifecycle

  function RowsOf(anchored: seq<(Entry, AnchorResult)>, environment: string): (rows: seq<Row>)
    ensures |rows| == |anchored|
  {
    seq(|anchored|, i requires 0 <= i < |anchored| => AnchoredRowOf(anchored[i].0, anchored[i].1, environment))
  }

  function LoadMore(index: Index, rows: seq<Row>): Index {
    if rows == [] then index else LoadRow(LoadMore(index, rows[..|rows| - 1]), rows[|rows| - 1])
  }

  lemma NextRow(index: Index, anchored: seq<(Entry, AnchorResult)>, i: nat, environment: string)
    requires i < |anchored|
    ensures var row := AnchoredRowOf(anchored[i].0, anchored[i].1, environment);
            var rows := RowsOf(anchored[..i], environment);
            && RowsOf(anchored[..i + 1], environment) == rows + [row]
            && LoadMore(index, rows + [row]) == LoadRow(LoadMore(index, rows), row)
  {
    var row := AnchoredRowOf(anchored[i].0, anchored[i].1, environment);
    var rows := RowsOf(anchored[..i], environment);
    assert (rows + [row])[..|rows|] == rows;
    assert RowsOf(anchored[..i + 1], environment) == rows + [row];
  }

  /** The row says what the entry was and where the answer put it. */
  predicate Tells(row: Row, e: Entry, r: AnchorResult, environment: string) {
    && row.AnchoredRow? && row.status == e.status
    && (e.metadata.signalId != "" ==> row.signalId == e.metadata.signalId)
    && var a := row.anchored;
    && a.registry == e.registry && a.registryId == e.registryId
    && a.recordId == r.recordId && a.index == r.index && a.transaction == r.transaction
    && a.checksum == e.checksum && a.uri == e.uri && a.environment == environment
    && (e.metadata.kind == None ==> a.kind == "dossier") && (e.metadata.kind.Some? ==> e.metadata.kind == Some(a.kind))
  }

  /** Readers find under s what the row says; every other signal is as it was. */
  ghost predicate NowReads(index: Index, index': Index, s: string, anchored: Option<Anchored>, status: string) {
    && s in index'.at && index'.at[s].anchored == anchored && index'.at[s].status == status
    && index'.at == index.at[s := index'.at[s]]
  }

  /** u asks the chain to supersede the very version of the record that a describes. */
  predicate Retires(u: Entry, signalId: string, a: Anchored) {
    && u.op == "update_status" && u.status == "Superseded" && u.agent == "oracle"
    && u.registry == a.registry && u.registryId == a.registryId && u.recordId == a.recordId && u.index == a.index
    && u.checksum == "" && u.uri == "" && u.metadata == Metadata(signalId, Some("status"))
    && u.attempts == 0 && u.nextAttemptAt == 0.0 && u.lastError == ""
  }

  /** The update is queued under id and logged, unless one for the same record is already outstanding. */
  ghost predicate Queues(b: Box, log: seq<Line>, id: nat, signalId: string, a: Anchored, b': Box, log': seq<Line>) {
    if UpdateKey(a.registry, a.recordId, "Superseded") in b.Outstanding() then b' == b && log' == log
    else
      && id in b'.pending.at && Retires(b'.pending.at[id], signalId, a)
      && b'.pending.at == b.pending.at[id := b'.pending.at[id]]
      && b'.done == b.done && b'.parked == b.parked && log' == log + [Enqueued(b'.pending.at[id])]
  }

  lemma UpdateIsQueued(b: Box, log: seq<Line>, id: nat, signalId: string, a: Anchored, createdAt: string)
    ensures var effect := EnqueueEffect(b, UpdateEntry(id, signalId, a, createdAt));
            Queues(b, log, id, signalId, a, effect.box, log + effect.lines)
  {
    KnownIsOutstanding(b, UpdateKey(a.registry, a.recordId, "Superseded"));
    assert log + [] == log;
  }

  class Engine {
    const outbox: Outbox
    const index: AnchorIndex
    const environment: string

    ghost predicate Valid()
      reads this, outbox, index
    {
      outbox.Valid() && index.Valid()
    }

    constructor (outbox: Outbox, index: AnchorIndex, environment: string)
      requires outbox.Valid() && index.Valid()
      ensures Valid() && this.outbox == outbox && this.index == index && this.environment == environment
    {
      this.outbox, this.index, this.environment := outbox, index, environment;
    }

    /** The hook after a landing: the index gets the row that outcomes look up. */
    method OnAnchored(entry: Entry, result: AnchorResult)
      requires index.Valid()
      modifies index
      ensures index.Valid()
      ensures var row := AnchoredRowOf(entry, result, environment);
              index.rows == old(index.rows) + [row] && index.bySignal == LoadRow(old(index.bySignal), row)
      ensures |index.rows| == |old(index.rows)| + 1
      ensures var row := index.rows[|index.rows| - 1];
              && Tells(row, entry, result, environment)
              && NowReads(old(index.bySignal), index.bySignal, row.signalId, Some(row.anchored), row.status)
    {
      index.RecordAnchored(
        entry.metadata.signalId,
        Anchored.Anchored(entry.registry, entry.registryId,
                          result.recordId, result.index, entry.checksum, result.transaction,
                 entry.uri, if entry.metadata.kind.Some? then entry.metadata.kind.value else "dossier", environment),
        entry.status);
    }

    /** The hook's calls after a drain: one index row per record sent, in sending order. */
    method IndexAll(anchored: seq<(Entry, AnchorResult)>)
      requires index.Valid()
      modifies index
      ensures index.Valid()
      ensures index.rows == old(index.rows) + RowsOf(anchored, environment)
      ensures index.bySignal == LoadMore(old(index.bySignal), RowsOf(anchored, environment))
    {
      var i := 0;
      while i < |anchored|
        invariant 0 <= i <= |anchored| && index.Valid()
        invariant index.rows == old(index.rows) + RowsOf(anchored[..i], environment)
        invariant index.bySignal == LoadMore(old(index.bySignal), RowsOf(anchored[..i], environment))
      {
        NextRow(old(index.bySignal), anchored, i, environment);
        Reassociate(old(index.rows), RowsOf(anchored[..i], environment),
                    [AnchoredRowOf(anchored[i].0, anchored[i].1, environment)]);
        OnAnchored(anchored[i].0, anchored[i].1);
        i := i + 1;
      }
      assert anchored[..i] == anchored;
    }

    method DrainOutbox(backend: Backend, now: real, limit: nat) returns (anchored: seq<(Entry, AnchorResult)>)
      requires Valid()
      modifies outbox, index
      ensures Valid()
      ensures index.rows == old(index.rows) + RowsOf(anchored, environment)
      ensures index.bySignal == LoadMore(old(index.bySignal), RowsOf(anchored, environment))
      ensures var n := |old(outbox.pending.keys)|;
              var ids := old(outbox.pending.keys)[..if limit < n then limit else n];
              var t := Drained(old(outbox.Memory()), ids, now, outbox.maxAttempts, backend);
              outbox.Memory() == t.box && outbox.log == old(outbox.log) + t.lines && anchored == t.anchored
    {
      var sent, failed, skipped;
      sent, failed, skipped, anchored := outbox.Drain(backend, now, limit);
      IndexAll(anchored);
    }

    /**
     * The outcome is known: queue the update that names the anchored record and
     * mark the signal, or do nothing if there is no Active record to supersede.
     */
    method OnOutcomeResolved(signalId: string, id: nat, createdAt: string)
      requires Valid()
      modifies outbox`log, outbox`pending, index
      ensures index.Valid()
      ensures var a := Resolvable(old(index.bySignal), signalId);
              && (a.None? ==>
                    && outbox.Memory() == old(outbox.Memory()) && outbox.log == old(outbox.log)
                    && index.bySignal == old(index.bySignal) && index.rows == old(index.rows))
              && (a.Some? ==>
                    var effect := EnqueueEffect(old(outbox.Memory()), UpdateEntry(id, signalId, a.value, createdAt));
                    && outbox.Memory() == effect.box && outbox.log == old(outbox.log) + effect.lines
                    && index.bySignal == WithStatus(old(index.bySignal), signalId, STATUS_SUPERSEDED, "")
                    && index.rows == old(index.rows) + [StatusRow(signalId, STATUS_SUPERSEDED, "")])
      ensures var d := old(index.bySignal).at;
              if signalId in d && d[signalId].status == "Active" && d[signalId].anchored.Some? then
                var a := d[signalId].anchored;
                && Queues(old(outbox.Memory()), old(outbox.log), id, signalId, a.value, outbox.Memory(), outbox.log)
                && NowReads(old(index.bySignal), index.bySignal, signalId, a, "Superseded")
                && index.rows == old(index.rows) + [StatusRow(signalId, "Superseded", "")]
              else
                && outbox.Memory() == old(outbox.Memory()) && outbox.log == old(outbox.log)
                && index.bySignal == old(index.bySignal) && index.rows == old(index.rows)
    {
      var entry := index.Get(signalId);
      if entry.None? || entry.value.status != STATUS_ACTIVE || entry.value.anchored.None? {
        return;
      }
      var update := UpdateEntry(id, signalId, entry.value.anchored.value, createdAt);
      assert update.(checksum := Bare(update.checksum)) == update;
      UpdateIsQueued(outbox.Memory(), outbox.log, id, signalId, entry.value.anchored.value, createdAt);
      var _ := outbox.Enqueue(update);
      var _ := index.RecordStatus(signalId, STATUS_SUPERSEDED, "");
    }
  }
}
