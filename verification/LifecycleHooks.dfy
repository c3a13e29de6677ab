/** Which landed signals the index knows: the hook that runs after a landing has one chance. */
module LifecycleHooks {
  import opened Collections
  import opened AnchorBase
  import opened OutboxRuns
  import opened OutboxRefinement
  import opened AnchorIndexing
  import opened Lifecycle
  import opened LifecycleUpdates

  /** This drain round lands the dossier of s. */
  ghost predicate LandsDossier(l: Books, h: Happening, c: Config, s: string) {
    && h.Deliver?
    && var m := MoveOf(l.w, Attempt(h.id, h.now, h.reply), c.maxAttempts);
       m.Land? && IsDossier(m.entry) && m.entry.metadata.signalId == s
  }

  /** Only what is indexed was ever updated. */
  ghost predicate UpdatesIndexed(l: Books) {
    forall id :: id in l.w.born && IsUpdate(l.w.born[id]) ==> l.w.born[id].metadata.signalId in l.index.at
  }

  // ── the index's signals, happening by happening ───────────────────────────

  lemma RowKeys(index: Index, row: Row)
    requires row.signalId != ""
    ensures LoadRow(index, row).at.Keys == index.at.Keys + {row.signalId}
  {
  }

  lemma LandedIsDossierOrIndexed(l: Books, event: Event, c: Config)
    requires Sound(l) && UpdatesIndexed(l) && event.Attempt? && MoveOf(l.w, event, c.maxAttempts).Land?
    ensures var e := MoveOf(l.w, event, c.maxAttempts).entry;
            e.metadata.signalId != "" && (IsDossier(e) || e.metadata.signalId in l.index.at)
  {
    var m := MoveOf(l.w, event, c.maxAttempts);
    OutboxedIsMoved(l, event, c);
    OfferedIsBorn(l.w, m);
    BornRole(l, m.entry);
    assert m.entry.Core().metadata == m.entry.metadata;
  }

  lemma DeliveredKeys(l: Books, h: Happening, c: Config, s: string)
    requires Sound(l) && UpdatesIndexed(l) && h.Deliver? && h.indexed
    ensures s in Happen(l, h, c).index.at <==> s in l.index.at || LandsDossier(l, h, c, s)
  {
    var event := Attempt(h.id, h.now, h.reply);
    var m := MoveOf(l.w, event, c.maxAttempts);
    DeliveredIndex(l, event, c);
    if m.Land? {
      LandedIsDossierOrIndexed(l, event, c);
      RowKeys(l.index, AnchoredRowOf(m.entry, m.result, c.environment));
    }
  }

  lemma MarkKeys(index: Index, s: string)
    ensures WithStatus(index, s, STATUS_SUPERSEDED, "").at.Keys == index.at.Keys
  {
  }

  lemma ReloadKeys(l: Books)
    requires Sound(l)
    ensures LoadRows(l.rows).at.Keys == l.index.at.Keys
  {
  }

  lemma OtherKeys(l: Books, h: Happening, c: Config)
    requires !(h.Deliver? && h.indexed) && Sound(l)
    ensures Happen(l, h, c).index.at.Keys == l.index.at.Keys
  {
    IndexAfter(l, h, c);
    ReloadKeys(l);
    if h.Resolve? {
      MarkKeys(l.index, h.signalId);
    }
  }

  lemma KeysAfter(l: Books, h: Happening, c: Config, s: string)
    requires Sound(l) && UpdatesIndexed(l)
    ensures s in Happen(l, h, c).index.at <==> s in l.index.at || (LandsDossier(l, h, c, s) && h.indexed)
  {
    if h.Deliver? && h.indexed {
      DeliveredKeys(l, h, c, s);
    } else {
      OtherKeys(l, h, c);
    }
  }

  lemma LandedAfter(l: Books, h: Happening, c: Config, s: string)
    ensures s in Happen(l, h, c).landed <==> s in l.landed || LandsDossier(l, h, c, s)
  {
    HappenLanded(l, h, c);
    if h.Deliver? {
      LandingOf(l, Attempt(h.id, h.now, h.reply), c);
    }
  }

  lemma NewUpdateIsIndexed(l: Books, h: Happening, c: Config, id: nat)
    requires id in Happen(l, h, c).w.born && id !in l.w.born && IsUpdate(Happen(l, h, c).w.born[id])
    ensures Happen(l, h, c).w.born[id].metadata.signalId in l.index.at
  {
    HappenWorld(l, h, c);
    NewEntry(l, h, c, id);
  }

  /** A new entry is what was offered. */
  lemma NewEntry(l: Books, h: Happening, c: Config, id: nat)
    requires id in WorldAfter(l, h, c).born && id !in l.w.born
    ensures h.Open? ==> WorldAfter(l, h, c).born[id] == h.dossier && IsDossier(h.dossier)
    ensures h.Open? || h.Resolve?
    ensures h.Resolve? ==>
              && Resolvable(l.index, h.signalId).Some?
              && WorldAfter(l, h, c).born[id].metadata.signalId == h.signalId
  {
    match h
    case Open(e) => StepBears(l.w, Enqueue(e), c.maxAttempts);
    case Deliver(i, now, reply, indexed) => RestartBears(l.w, Attempt(i, now, reply), !indexed, c.maxAttempts);
    case Resolve(s, i, createdAt, marked) =>
      if Resolvable(l.index, s).Some? {
        RestartBears(l.w, Enqueue(UpdateEntry(i, s, Resolvable(l.index, s).value, createdAt)), !marked, c.maxAttempts);
        StepBears(l.w, Enqueue(UpdateEntry(i, s, Resolvable(l.index, s).value, createdAt)), c.maxAttempts);
      }
    case Other(event) => StepBears(l.w, event, c.maxAttempts);
  }

  lemma RestartBears(w: World, event: Event, crashed: bool, maxAttempts: nat)
    ensures RestartedIf(crashed, Step(w, event, maxAttempts), maxAttempts).born == Step(w, event, maxAttempts).born
    ensures event.Attempt? ==> Step(w, event, maxAttempts).born == w.born
  {
    StepBears(w, event, maxAttempts);
    StepBears(Step(w, event, maxAttempts), Restart, maxAttempts);
  }

  lemma HappenKeepsUpdatesIndexed(l: Books, h: Happening, c: Config)
    requires Sound(l) && UpdatesIndexed(l)
    ensures UpdatesIndexed(Happen(l, h, c))
  {
    var l' := Happen(l, h, c);
    HappenBearsMore(l, h, c);
    forall id | id in l'.w.born && IsUpdate(l'.w.born[id]) ensures l'.w.born[id].metadata.signalId in l'.index.at {
      KeysAfter(l, h, c, l'.w.born[id].metadata.signalId);
      if id !in l.w.born {
        NewUpdateIsIndexed(l, h, c, id);
      }
    }
  }

  lemma {:induction false} StoryIndexesUpdates(hs: seq<Happening>, c: Config)
    ensures UpdatesIndexed(Story(hs, c))
    decreases |hs|
  {
    if hs != [] {
      StoryIndexesUpdates(hs[..|hs| - 1], c);
      StoryIsSound(hs[..|hs| - 1], c);
      HappenKeepsUpdatesIndexed(Story(hs[..|hs| - 1], c), hs[|hs| - 1], c);
    }
  }

  // ── over stories ──────────────────────────────────────────────────────────

  /** At some point of the story the dossier of s lands. */
  ghost predicate EverLanded(hs: seq<Happening>, c: Config, s: string) {
    hs != [] &&
      var init, last := hs[..|hs| - 1], hs[|hs| - 1];
      EverLanded(init, c, s) || LandsDossier(Story(init, c), last, c, s)
  }

  /** At some point of the story it lands in a round that lives to write the hook's row. */
  ghost predicate EverHooked(hs: seq<Happening>, c: Config, s: string) {
    hs != [] &&
      var init, last := hs[..|hs| - 1], hs[|hs| - 1];
      EverHooked(init, c, s) || (LandsDossier(Story(init, c), last, c, s) && last.indexed)
  }

  /** A signal is indexed exactly when its dossier ever landed in a round that lived to write the hook's row. */
  lemma {:induction false} IndexedIff(hs: seq<Happening>, c: Config, s: string)
    ensures s in Story(hs, c).index.at <==> EverHooked(hs, c, s)
    ensures s in Story(hs, c).landed <==> EverLanded(hs, c, s)
    decreases |hs|
  {
    if hs != [] {
      var n := |hs| - 1;
      IndexedIff(hs[..n], c, s);
      StoryIsSound(hs[..n], c);
      StoryIndexesUpdates(hs[..n], c);
      KeysAfter(Story(hs[..n], c), hs[n], c, s);
      LandedAfter(Story(hs[..n], c), hs[n], c, s);
    }
  }

  lemma MissedStaysMissed(l: Books, h: Happening, c: Config, s: string)
    requires Sound(l) && UpdatesIndexed(l) && s in l.landed && s !in l.index.at
    ensures s in Happen(l, h, c).landed && s !in Happen(l, h, c).index.at
  {
    KeysAfter(l, h, c, s);
    LandedAfter(l, h, c, s);
    if LandsDossier(l, h, c, s) {
      LandingIsNew(l, Attempt(h.id, h.now, h.reply), c);
    }
  }

  /**
   * A landing that died before its hook is never made up for: whatever happens
   * later the signal stays out of the index, and every report of its outcome
   * changes nothing.
   */
  lemma {:induction false} MissedHookIsNeverMadeUp(hs: seq<Happening>, more: seq<Happening>, c: Config, s: string,
                                                   id: nat, createdAt: string, marked: bool)
    requires s in Story(hs, c).landed && s !in Story(hs, c).index.at
    ensures var l := Story(hs + more, c);
            && s in l.landed && s !in l.index.at
            && Happen(l, Resolve(s, id, createdAt, marked), c) == l
    decreases |more|
  {
    if more == [] {
      assert hs + more == hs;
    } else {
      var init, last := more[..|more| - 1], more[|more| - 1];
      MissedHookIsNeverMadeUp(hs, init, c, s, id, createdAt, marked);
      StoryIsSound(hs + init, c);
      StoryIndexesUpdates(hs + init, c);
      MissedStaysMissed(Story(hs + init, c), last, c, s);
      StorySnoc(hs + init, last, c);
      InitAndLast(more);
      Reassociate(hs, init, [last]);
    }
  }
}
