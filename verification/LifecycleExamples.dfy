/** Stories that show what the lifecycle theorems' conditions are for. */
module LifecycleExamples {
  import opened Collections
  import opened AnchorBase
  import opened AnchorOutbox
  import opened OutboxReplay
  import opened OutboxRuns
  import opened OutboxRefinement
  import opened AnchorIndexing
  import opened Lifecycle
  import opened LifecycleUpdates

  // ── steps ─────────────────────────────────────────────────────────────────

  /** What the example needs to know of the books; nothing is parked in it. */
  ghost predicate Holding(l: Books, pending: map<nat, Entry>, done: set<Key>, born: map<nat, Entry>,
                          signals: set<string>) {
    && l.w.box.pending.at == pending && l.w.box.parked.at == map[] && l.w.box.done == done
    && l.w.born == born && l.signals == signals
  }

  lemma OpenStep(l: Books, e: Entry, c: Config)
    requires Holding(l, l.w.box.pending.at, l.w.box.done, l.w.born, l.signals)
    requires IsDossier(e) && Fresh(l.w, e) && e.metadata.signalId !in l.signals && !Known(l.w.box, e.DedupeKey())
    ensures Holding(Happen(l, Open(e), c), l.w.box.pending.at[e.id := e], l.w.box.done, l.w.born[e.id := e],
                    l.signals + {e.metadata.signalId})
    ensures Happen(l, Open(e), c).index == l.index
  {
  }

  lemma DeliverStep(l: Books, id: nat, r: AnchorResult, c: Config)
    requires Holding(l, l.w.box.pending.at, l.w.box.done, l.w.born, l.signals)
    requires id in l.w.box.pending.at && l.w.box.pending.at[id].id == id && IsDossier(l.w.box.pending.at[id])
    requires Submits(l.w.box, l.w.box.pending.at[id], 0.0)
    ensures var e := l.w.box.pending.at[id];
            var l' := Happen(l, Deliver(id, 0.0, Accepted(r), true), c);
            && Holding(l', l.w.box.pending.at - {id}, l.w.box.done + {e.DedupeKey()}, l.w.born, l.signals)
            && l'.index == LoadRow(l.index, AnchoredRowOf(e, r, c.environment))
  {
  }

  lemma ResolveStep(l: Books, s: string, id: nat, c: Config, e: Entry)
    requires Holding(l, l.w.box.pending.at, l.w.box.done, l.w.born, l.signals)
    requires Resolvable(l.index, s).Some? && id !in l.w.born
    requires e == UpdateEntry(id, s, Resolvable(l.index, s).value, "")
    ensures var l' := Happen(l, Resolve(s, id, "", true), c);
            && l'.index == WithStatus(l.index, s, STATUS_SUPERSEDED, "")
            && if Known(l.w.box, e.DedupeKey()) then l'.w.born == l.w.born && l'.w.box == l.w.box
               else Holding(l', l.w.box.pending.at[id := e], l.w.box.done, l.w.born[id := e], l.signals)
  {
    MarkedBooks(l, s, id, "", c, e);
  }

  const FIRST := DossierEntry(0, "a", "r", 0, "x", "", "1", "")
  const SECOND := DossierEntry(1, "b", "r", 0, "x", "", "2", "")
  const SHARED := AnchorResult("t", 7, 0)
  const BORN := map[0 := FIRST, 1 := SECOND]
  const OPENED := [Open(FIRST), Open(SECOND)]
  const LANDED_FIRST := OPENED + [Deliver(0, 0.0, Accepted(SHARED), true)]
  const LANDED_BOTH := LANDED_FIRST + [Deliver(1, 0.0, Accepted(SHARED), true)]
  const RESOLVED_FIRST := LANDED_BOTH + [Resolve("a", 2, "", true)]
  const RESOLVED_BOTH := RESOLVED_FIRST + [Resolve("b", 3, "", true)]

  function IndexedAs(e: Entry, c: Config): IndexEntry {
    IndexEntry(Some(AnchoredRowOf(e, SHARED, c.environment).anchored), STATUS_ACTIVE, None)
  }

  lemma BothOpen(c: Config)
    ensures Holding(Story(OPENED, c), BORN, {}, BORN, {"a", "b"}) && Story(OPENED, c).index == Empty()
  {
    StorySnoc([], Open(FIRST), c);
    OpenStep(BLANK, FIRST, c);
    StorySnoc([Open(FIRST)], Open(SECOND), c);
    OpenStep(Story([Open(FIRST)], c), SECOND, c);
    assert [] + [Open(FIRST)] == [Open(FIRST)] && [Open(FIRST)] + [Open(SECOND)] == OPENED;
  }

  lemma IndexedBy(index: Index, e: Entry, c: Config)
    requires e.metadata.signalId != "" && e.metadata.signalId !in index.at && e.metadata.kind.None?
    requires e.status == STATUS_ACTIVE
    ensures LoadRow(index, AnchoredRowOf(e, SHARED, c.environment)).at ==
            index.at[e.metadata.signalId := IndexedAs(e, c)]
  {
  }

  lemma FirstLeavesPending()
    ensures BORN - {0} == map[1 := SECOND] && map[1 := SECOND] - {1} == map[]
  {
  }

  lemma FirstLands(c: Config)
    ensures Holding(Story(LANDED_FIRST, c), map[1 := SECOND], {FIRST.DedupeKey()}, BORN, {"a", "b"})
    ensures Story(LANDED_FIRST, c).index.at == map["a" := IndexedAs(FIRST, c)]
  {
    BothOpen(c);
    StorySnoc(OPENED, Deliver(0, 0.0, Accepted(SHARED), true), c);
    FirstLeavesPending();
    IndexedBy(Empty(), FIRST, c);
    DeliverStep(Story(OPENED, c), 0, SHARED, c);
  }

  lemma BothLand(c: Config)
    ensures Holding(Story(LANDED_BOTH, c), map[], {FIRST.DedupeKey(), SECOND.DedupeKey()}, BORN, {"a", "b"})
    ensures Story(LANDED_BOTH, c).index.at == map["a" := IndexedAs(FIRST, c), "b" := IndexedAs(SECOND, c)]
  {
    FirstLands(c);
    StorySnoc(LANDED_FIRST, Deliver(1, 0.0, Accepted(SHARED), true), c);
    FirstLeavesPending();
    IndexedBy(Story(LANDED_FIRST, c).index, SECOND, c);
    DeliverStep(Story(LANDED_FIRST, c), 1, SHARED, c);
  }

  function UpdateOf(id: nat, s: string, e: Entry, c: Config): Entry {
    UpdateEntry(id, s, AnchoredRowOf(e, SHARED, c.environment).anchored, "")
  }

  lemma OtherStaysResolvable(index: Index, s: string, t: string)
    requires s != t
    ensures Resolvable(WithStatus(index, s, STATUS_SUPERSEDED, ""), t) == Resolvable(index, t)
  {
  }

  /** Nothing is queued or parked and only dossiers are done, so any update is new. */
  lemma UpdateIsUnknown(b: Box, u: Entry)
    requires b.pending.at == map[] && b.parked.at == map[] && u.op == "update_status"
    requires forall key :: key in b.done ==> key.AddKey?
    ensures !Known(b, u.DedupeKey())
  {
  }

  lemma FirstResolves(c: Config)
    ensures var u := UpdateOf(2, "a", FIRST, c);
            Holding(Story(RESOLVED_FIRST, c), map[2 := u], {FIRST.DedupeKey(), SECOND.DedupeKey()},
                    BORN[2 := u], {"a", "b"})
    ensures Resolvable(Story(RESOLVED_FIRST, c).index, "b") ==
            Some(AnchoredRowOf(SECOND, SHARED, c.environment).anchored)
  {
    BothLand(c);
    OtherStaysResolvable(Story(LANDED_BOTH, c).index, "a", "b");
    StorySnoc(LANDED_BOTH, Resolve("a", 2, "", true), c);
    UpdateIsUnknown(Story(LANDED_BOTH, c).w.box, UpdateOf(2, "a", FIRST, c));
    ResolveStep(Story(LANDED_BOTH, c), "a", 2, c, UpdateOf(2, "a", FIRST, c));
  }

  /**
   * Two dossiers that landed under the same record id: both signals end up
   * Superseded, but the second one's update was refused as already queued.
   */
  lemma SharedRecordIdHidesAnUpdate(c: Config)
    ensures Superseded(Story(RESOLVED_BOTH, c).index, "b") && !UpdateBorn(Story(RESOLVED_BOTH, c).w.born, "b")
  {
    var l, u := Story(RESOLVED_FIRST, c), UpdateOf(3, "b", SECOND, c);
    FirstResolves(c);
    assert l.w.box.pending.at[2].DedupeKey() == u.DedupeKey();
    StorySnoc(RESOLVED_FIRST, Resolve("b", 3, "", true), c);
    ResolveStep(l, "b", 3, c, u);
  }

  // ── a refused update and an uncovered compaction ──────────────────────────

  const FIRST_KEY := FIRST.DedupeKey()
  const LANDED := [Open(FIRST)] + [Deliver(0, 0.0, Accepted(SHARED), true)]
  const OPENED_LOG := [Enqueued(FIRST)]
  const LANDED_LOG := OPENED_LOG + [SentLine(FIRST, SHARED, 0.0)]

  lemma OneOpen(c: Config)
    ensures var l := Story([Open(FIRST)], c);
            && Holding(l, map[0 := FIRST], {}, map[0 := FIRST], {"a"})
            && l.index == Empty() && l.w.log == OPENED_LOG
  {
    StorySnoc([], Open(FIRST), c);
    OpenStep(BLANK, FIRST, c);
    assert [] + [Open(FIRST)] == [Open(FIRST)];
  }

  lemma FirstLeavesNothing()
    ensures map[0 := FIRST] - {0} == map[]
  {
  }

  lemma OneLands(c: Config)
    ensures Holding(Story(LANDED, c), map[], {FIRST_KEY}, map[0 := FIRST], {"a"})
    ensures Story(LANDED, c).index.at == map["a" := IndexedAs(FIRST, c)]
  {
    OneOpen(c);
    FirstLeavesNothing();
    IndexedBy(Empty(), FIRST, c);
    DeliverStep(Story([Open(FIRST)], c), 0, SHARED, c);
    StorySnoc([Open(FIRST)], Deliver(0, 0.0, Accepted(SHARED), true), c);
  }

  const REFUSAL := Deliver(2, 0.0, Refused("no"), true)
  const COMPACTION := Other(Compact([FIRST_KEY]))
  const RESTART := Other(Restart)

  /** The update is refused and parked. */
  lemma RefusalStep(l: Books, u: Entry, c: Config)
    requires Holding(l, map[2 := u], {FIRST_KEY}, l.w.born, l.signals)
    requires u.id == 2 && u.op == "update_status" && u.nextAttemptAt <= 0.0
    ensures var l' := Happen(l, REFUSAL, c);
            && l'.w.box.pending.at == map[] && l'.w.box.parked.at == map[2 := u.(lastError := "no")]
            && l'.w.box.done == {FIRST_KEY} && l'.w.born == l.w.born && l'.index == l.index
  {
    assert map[2 := u] - {2} == map[];
  }

  /** Compaction writes the parked line without its entry, and the restart finds nothing. */
  lemma CompactionStep(l: Books, c: Config)
    requires Sound(l) && l.w.box.pending.at == map[] && l.w.box.done == {FIRST_KEY}
    ensures var l' := Happen(Happen(l, COMPACTION, c), RESTART, c);
            && l'.w.box.pending.at == map[] && l'.w.box.parked.at == map[] && l'.w.box.done == {FIRST_KEY}
            && l'.w.born == l.w.born && l'.index == LoadRows(l.rows)
  {
    var keys := [FIRST_KEY];
    assert Enumerates(keys, l.w.box.done);
    CompactedShape(l.w.box, keys, l.w.born);
    CompactStepThenRestart(l.w, keys, c.maxAttempts);
    OtherIsStep(l, Compact(keys), c);
    OtherIsStep(Happen(l, COMPACTION, c), Restart, c);
    var r := Load(CompactLines(l.w.box, keys));
    assert r.pending.at.Keys == {} && r.parked.at.Keys == {};
  }

  /** After both nothing is queued or parked; readers of the index see no difference. */
  lemma RefusedAndForgotten(hs: seq<Happening>, u: Entry, c: Config)
    requires Holding(Story(hs, c), map[2 := u], {FIRST_KEY}, Story(hs, c).w.born, Story(hs, c).signals)
    requires u.id == 2 && u.op == "update_status" && u.nextAttemptAt <= 0.0
    ensures var l, l' := Story(hs, c), Story(hs + [REFUSAL] + [COMPACTION] + [RESTART], c);
            && Holding(l', map[], {FIRST_KEY}, l.w.born, l'.signals)
            && SameRecords(l.index, l'.index)
  {
    StorySnoc(hs, REFUSAL, c);
    StorySnoc(hs + [REFUSAL], COMPACTION, c);
    StorySnoc(hs + [REFUSAL] + [COMPACTION], RESTART, c);
    RefusalStep(Story(hs, c), u, c);
    StoryIsSound(hs + [REFUSAL], c);
    CompactionStep(Story(hs + [REFUSAL], c), c);
  }

  const MARKED := LANDED + [Resolve("a", 2, "", true)]

  lemma MarkedOnce(c: Config)
    ensures var u := UpdateOf(2, "a", FIRST, c);
            Holding(Story(MARKED, c), map[2 := u], {FIRST_KEY}, map[0 := FIRST, 2 := u], {"a"})
    ensures Superseded(Story(MARKED, c).index, "a")
  {
    OneLands(c);
    StorySnoc(LANDED, Resolve("a", 2, "", true), c);
    UpdateIsUnknown(Story(LANDED, c).w.box, UpdateOf(2, "a", FIRST, c));
    ResolveStep(Story(LANDED, c), "a", 2, c, UpdateOf(2, "a", FIRST, c));
  }

  /** Superseded in the index, and the chain never hears of it: the update was refused, parked and compacted away. */
  lemma SupersededCanBeForgotten(c: Config)
    ensures var l := Story(MARKED + [REFUSAL] + [COMPACTION] + [RESTART], c);
            && Superseded(l.index, "a") && UpdateBorn(l.w.born, "a")
            && l.w.box.pending.at == map[] && l.w.box.parked.at == map[]
            && UpdateOf(2, "a", FIRST, c).DedupeKey() !in l.w.box.Outstanding()
  {
    var u := UpdateOf(2, "a", FIRST, c);
    MarkedOnce(c);
    RefusedAndForgotten(MARKED, u, c);
    assert Story(MARKED, c).w.born[2] == u;
  }

  // ── and two updates for one signal ────────────────────────────────────────

  const UNMARKED := LANDED + [Resolve("a", 2, "", false)]
  const FORGOTTEN := UNMARKED + [REFUSAL] + [COMPACTION] + [RESTART]
  const RESOLVED_AGAIN := FORGOTTEN + [Resolve("a", 3, "", true)]

  lemma LogOfOne(c: Config)
    ensures Story(LANDED, c).w.log == LANDED_LOG
  {
    OneOpen(c);
    StorySnoc([Open(FIRST)], Deliver(0, 0.0, Accepted(SHARED), true), c);
  }

  lemma ReplayOfSent(b: Box)
    requires b.pending.at == map[0 := FIRST] && b.parked.at == map[] && b.done == {}
    ensures var r := Replay(b, SentLine(FIRST, SHARED, 0.0));
            r.pending.at == map[] && r.parked.at == map[] && r.done == {FIRST_KEY}
  {
    assert map[0 := FIRST] - {0} == map[];
  }

  lemma ReplayOfQueued(b: Box, u: Entry)
    requires b.pending.at == map[] && b.parked.at == map[] && b.done == {FIRST_KEY} && u.DedupeKey() != FIRST_KEY
    ensures var r := Replay(b, Enqueued(u));
            r.pending.at == map[u.id := u] && r.parked.at == map[] && r.done == {FIRST_KEY}
  {
  }

  /** What the three lines reload to. */
  lemma ReloadOfThree(u: Entry)
    requires u.DedupeKey() != FIRST_KEY
    ensures var r := Load(LANDED_LOG + [Enqueued(u)]);
            r.pending.at == map[u.id := u] && r.parked.at == map[] && r.done == {FIRST_KEY}
  {
    ReloadOfFirst();
    LoadAppend(OPENED_LOG, SentLine(FIRST, SHARED, 0.0));
    ReplayOfSent(Load(OPENED_LOG));
    LoadAppend(LANDED_LOG, Enqueued(u));
    ReplayOfQueued(Load(LANDED_LOG), u);
  }

  lemma ReloadOfFirst()
    ensures var r := Load(OPENED_LOG); r.pending.at == map[0 := FIRST] && r.parked.at == map[] && r.done == {}
  {
    LoadAppend([], Enqueued(FIRST));
    assert [] + [Enqueued(FIRST)] == OPENED_LOG;
  }

  lemma QueuedStep(l: Books, u: Entry, c: Config)
    requires Fresh(l.w, u) && !Known(l.w.box, u.DedupeKey())
    ensures var l' := Outboxed(l, Enqueue(u), c);
            && l'.w.log == l.w.log + [Enqueued(u)] && l'.w.born == l.w.born[u.id := u]
            && l'.rows == l.rows && l'.signals == l.signals
  {
  }

  lemma CrashStep(l: Books, c: Config)
    ensures var l' := Crashed(l, c);
            && l'.w.box == Load(l.w.log) && l'.w.born == l.w.born && l'.signals == l.signals
            && l'.index == LoadRows(l.rows)
  {
  }

  lemma ReloadStaysResolvable(l: Books, s: string)
    requires Sound(l)
    ensures Resolvable(LoadRows(l.rows), s) == Resolvable(l.index, s)
  {
  }

  lemma UpdateIsNew(l: Books, u: Entry)
    requires Holding(l, map[], {FIRST_KEY}, map[0 := FIRST], {"a"})
    requires u == u.Core() && u.id == 2 && u.op == "update_status"
    ensures Fresh(l.w, u) && !Known(l.w.box, u.DedupeKey()) && u.DedupeKey() != FIRST_KEY
  {
    UpdateIsUnknown(l.w.box, u);
  }

  /** The outcome is reported, the update queued, and the process dies before the mark. */
  lemma MarkLostFrom(l: Books, u: Entry, c: Config)
    requires Sound(l) && Holding(l, map[], {FIRST_KEY}, map[0 := FIRST], {"a"})
    requires l.w.log == LANDED_LOG
    requires u == u.Core() && u.id == 2 && u.op == "update_status"
    ensures var l' := Crashed(Outboxed(l, Enqueue(u), c), c);
            && Holding(l', map[2 := u], {FIRST_KEY}, map[0 := FIRST, 2 := u], {"a"})
            && Resolvable(l'.index, "a") == Resolvable(l.index, "a")
  {
    UpdateIsNew(l, u);
    QueuedStep(l, u, c);
    CrashStep(Outboxed(l, Enqueue(u), c), c);
    ReloadOfThree(u);
    ReloadStaysResolvable(l, "a");
  }

  lemma MarkLost(c: Config)
    ensures var l, u := Story(UNMARKED, c), UpdateOf(2, "a", FIRST, c);
            && Holding(l, map[2 := u], {FIRST_KEY}, map[0 := FIRST, 2 := u], {"a"})
            && Resolvable(l.index, "a") == Some(AnchoredRowOf(FIRST, SHARED, c.environment).anchored)
  {
    var l, u := Story(LANDED, c), UpdateOf(2, "a", FIRST, c);
    OneLands(c);
    LogOfOne(c);
    StoryIsSound(LANDED, c);
    MarkLostFrom(l, u, c);
    StorySnoc(LANDED, Resolve("a", 2, "", false), c);
    ResolvedBooks(l, "a", 2, "", false, c, u);
  }

  /**
   * Covered compactions are needed for one update per signal: the mark is lost
   * in a crash, the queued update refused and parked, compacted away, and the
   * outcome reported again.
   */
  lemma TwoUpdatesAfterUncoveredCompaction(c: Config)
    ensures var born := Story(RESOLVED_AGAIN, c).w.born;
            && 2 in born && 3 in born
            && born[2].op == "update_status" && born[3].op == "update_status"
            && born[2].metadata.signalId == born[3].metadata.signalId == "a"
  {
    var u, l := UpdateOf(2, "a", FIRST, c), Story(FORGOTTEN, c);
    MarkLost(c);
    RefusedAndForgotten(UNMARKED, u, c);
    StorySnoc(FORGOTTEN, Resolve("a", 3, "", true), c);
    UpdateIsUnknown(l.w.box, UpdateOf(3, "a", FIRST, c));
    ResolveStep(l, "a", 3, c, UpdateOf(3, "a", FIRST, c));
  }
}
