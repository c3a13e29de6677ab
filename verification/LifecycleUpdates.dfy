/** The converse of thesis before outcome: what a Superseded status says about the updates that were accepted. */
module LifecycleUpdates {
  import opened AnchorBase
  import opened AnchorOutbox
  import opened OutboxReplay
  import opened OutboxRuns
  import opened OutboxRefinement
  import opened AnchorIndexing
  import opened Lifecycle

  // ── every key the outbox knows was once accepted ──────────────────────────

  ghost predicate KeyBorn(born: map<nat, Entry>, key: Key) {
    exists id :: id in born && born[id].DedupeKey() == key
  }

  ghost predicate DoneIsBorn(w: World) { forall key :: key in w.box.done ==> KeyBorn(w.born, key) }

  lemma MoveKeepsDoneBorn(w: World, m: Move, now: real)
    requires Inv(w) && Offers(w, m) && DoneIsBorn(w)
    ensures DoneIsBorn(Moved(w, m, now))
  {
    match m
    case Land(e, _) => OfferedEntry(w.box, e, w.born);
    case Add(e) => AddKeepsDoneBorn(w, e, now);
    case _ =>
  }

  lemma AddKeepsDoneBorn(w: World, e: Entry, now: real)
    requires DoneIsBorn(w) && e.id !in w.born
    ensures DoneIsBorn(Moved(w, Add(e), now))
  {
    var born := w.born[e.id := e];
    forall key | key in w.box.done ensures KeyBorn(born, key) {
      var id :| id in w.born && w.born[id].DedupeKey() == key;
      assert id in born && born[id].DedupeKey() == key;
    }
  }

  lemma StepKeepsDoneBorn(w: World, event: Event, maxAttempts: nat)
    requires Inv(w) && DoneIsBorn(w)
    ensures DoneIsBorn(Step(w, event, maxAttempts))
  {
    if Moves(event) {
      StepIsMove(w, event, maxAttempts);
      MoveKeepsDoneBorn(w, MoveOf(w, event, maxAttempts), Now(event));
    } else {
      StillKeeps(w, event, maxAttempts);
    }
  }

  lemma KnownIsBorn(b: Box, born: map<nat, Entry>, key: Key)
    requires Genuine(b, born) && Known(b, key)
    ensures key in b.done || KeyBorn(born, key)
  {
    if id :| id in b.pending.at && b.pending.at[id].DedupeKey() == key {
      CoreKey(b.pending.at[id], born[id]);
    } else if id :| id in b.parked.at && b.parked.at[id].DedupeKey() == key {
      CoreKey(b.parked.at[id], born[id]);
    }
  }

  lemma CoreKey(e: Entry, core: Entry)
    requires e.Core() == core
    ensures core.DedupeKey() == e.DedupeKey()
  {
  }

  lemma RestartKeepsDoneBorn(crashed: bool, w: World, maxAttempts: nat)
    requires Inv(w) && DoneIsBorn(w)
    ensures DoneIsBorn(RestartedIf(crashed, w, maxAttempts))
  {
    if crashed {
      StepKeepsDoneBorn(w, Restart, maxAttempts);
    }
  }

  lemma EventThenRestart(w: World, event: Event, crashed: bool, maxAttempts: nat)
    requires Inv(w) && DoneIsBorn(w)
    ensures DoneIsBorn(RestartedIf(crashed, Step(w, event, maxAttempts), maxAttempts))
  {
    StepKeepsInv(w, event, maxAttempts);
    StepKeepsDoneBorn(w, event, maxAttempts);
    RestartKeepsDoneBorn(crashed, Step(w, event, maxAttempts), maxAttempts);
  }

  lemma HappenKeepsDoneBorn(l: Books, h: Happening, c: Config)
    requires Inv(l.w) && DoneIsBorn(l.w)
    ensures DoneIsBorn(Happen(l, h, c).w)
  {
    HappenWorld(l, h, c);
    match h
    case Open(e) => StepKeepsDoneBorn(l.w, Enqueue(e), c.maxAttempts);
    case Deliver(id, now, reply, indexed) => EventThenRestart(l.w, Attempt(id, now, reply), !indexed, c.maxAttempts);
    case Resolve(s, id, createdAt, marked) =>
      if Resolvable(l.index, s).Some? {
        var e := UpdateEntry(id, s, Resolvable(l.index, s).value, createdAt);
        EventThenRestart(l.w, Enqueue(e), !marked, c.maxAttempts);
      }
    case Other(event) => StepKeepsDoneBorn(l.w, event, c.maxAttempts);
  }

  // ── superseded means updated ──────────────────────────────────────────────

  ghost predicate UpdateBorn(born: map<nat, Entry>, s: string) {
    exists id :: id in born && IsUpdate(born[id]) && born[id].metadata.signalId == s
  }

  /** No two signals' records share a registry and a record id. */
  ghost predicate Distinct(landed: map<string, Landing>) {
    forall s, t :: s in landed && t in landed && SameRecord(landed[s], landed[t]) ==> s == t
  }

  predicate SameRecord(p: Landing, q: Landing) { p.registry == q.registry && p.recordId == q.recordId }

  ghost predicate Superseded(index: Index, s: string) { s in index.at && index.at[s].status == STATUS_SUPERSEDED }

  /** An update was accepted for t, whose record is also the one under which s landed. */
  ghost predicate Sharer(landed: map<string, Landing>, born: map<nat, Entry>, s: string, t: string) {
    s in landed && t in landed && SameRecord(landed[s], landed[t]) && UpdateBorn(born, t)
  }

  /** The signal itself, or one that shares its record, had its update accepted. */
  ghost predicate Answered(landed: map<string, Landing>, born: map<nat, Entry>, s: string) {
    exists t :: Sharer(landed, born, s, t)
  }

  ghost predicate Explained(l: Books) {
    forall s :: Superseded(l.index, s) ==> Answered(l.landed, l.w.born, s)
  }

  ghost predicate BornGrows(born: map<nat, Entry>, born': map<nat, Entry>) {
    forall id :: id in born ==> id in born' && born'[id] == born[id]
  }

  lemma StepBearsMore(w: World, event: Event, maxAttempts: nat)
    ensures BornGrows(w.born, Step(w, event, maxAttempts).born)
  {
    StepBears(w, event, maxAttempts);
  }

  lemma EventThenRestartBearsMore(w: World, event: Event, crashed: bool, maxAttempts: nat)
    ensures BornGrows(w.born, RestartedIf(crashed, Step(w, event, maxAttempts), maxAttempts).born)
  {
    StepBearsMore(w, event, maxAttempts);
    StepBears(Step(w, event, maxAttempts), Restart, maxAttempts);
  }

  lemma HappenBearsMore(l: Books, h: Happening, c: Config)
    ensures BornGrows(l.w.born, Happen(l, h, c).w.born)
  {
    HappenWorld(l, h, c);
    match h
    case Open(e) => StepBearsMore(l.w, Enqueue(e), c.maxAttempts);
    case Deliver(id, now, reply, indexed) =>
      EventThenRestartBearsMore(l.w, Attempt(id, now, reply), !indexed, c.maxAttempts);
    case Resolve(s, id, createdAt, marked) =>
      if Resolvable(l.index, s).Some? {
        var e := UpdateEntry(id, s, Resolvable(l.index, s).value, createdAt);
        EventThenRestartBearsMore(l.w, Enqueue(e), !marked, c.maxAttempts);
      }
    case Other(event) => StepBearsMore(l.w, event, c.maxAttempts);
  }

  lemma HappenLanded(l: Books, h: Happening, c: Config)
    ensures Happen(l, h, c).landed ==
            if h.Deliver? then Landed(l, Attempt(h.id, h.now, h.reply), c).landed else l.landed
  {
  }

  /** Landings are never overwritten. */
  lemma LandingsStay(l: Books, h: Happening, c: Config)
    requires Sound(l)
    ensures l.landed.Keys <= Happen(l, h, c).landed.Keys
    ensures forall s :: s in l.landed ==> Happen(l, h, c).landed[s] == l.landed[s]
  {
    HappenLanded(l, h, c);
    if h.Deliver? {
      LandingStays(l, Attempt(h.id, h.now, h.reply), c);
    }
  }

  lemma LandingOf(l: Books, event: Event, c: Config)
    requires event.Attempt?
    ensures var m := MoveOf(l.w, event, c.maxAttempts);
            Landed(l, event, c).landed ==
            if m.Land? && IsDossier(m.entry)
            then l.landed[m.entry.metadata.signalId := LandingFor(m.entry, m.result)]
            else l.landed
  {
  }

  lemma LandingStays(l: Books, event: Event, c: Config)
    requires Sound(l) && event.Attempt?
    ensures l.landed.Keys <= Landed(l, event, c).landed.Keys
    ensures forall s :: s in l.landed ==> Landed(l, event, c).landed[s] == l.landed[s]
  {
    var m := MoveOf(l.w, event, c.maxAttempts);
    LandingOf(l, event, c);
    if m.Land? && IsDossier(m.entry) {
      LandingIsNew(l, event, c);
    }
  }

  lemma LandingIsNew(l: Books, event: Event, c: Config)
    requires Sound(l) && event.Attempt?
    requires var m := MoveOf(l.w, event, c.maxAttempts); m.Land? && IsDossier(m.entry)
    ensures MoveOf(l.w, event, c.maxAttempts).entry.metadata.signalId !in l.landed
  {
    OutboxedIsMoved(l, event, c);
    DossierLandsOnce(l, MoveOf(l.w, event, c.maxAttempts));
  }

  /** If the update is refused as known, what is known is an update of the signal or of one that shares its record. */
  lemma KnownUpdateIsShared(l: Books, s: string, e: Entry)
    requires Sound(l) && DoneIsBorn(l.w) && Resolvable(l.index, s).Some?
    requires IsUpdate(e) && e.registry == Resolvable(l.index, s).value.registry
    requires e.recordId == Resolvable(l.index, s).value.recordId && Known(l.w.box, e.DedupeKey())
    ensures Answered(l.landed, l.w.born, s)
  {
    ResolvedIsLanded(l, s);
    KnownIsBorn(l.w.box, l.w.born, e.DedupeKey());
    var id :| id in l.w.born && l.w.born[id].DedupeKey() == e.DedupeKey();
    UpdateRole(l, id);
    assert Sharer(l.landed, l.w.born, s, l.w.born[id].metadata.signalId);
  }

  lemma UpdateRole(l: Books, id: nat)
    requires Sound(l) && id in l.w.born && l.w.born[id].DedupeKey().UpdateKey?
    ensures var u := l.w.born[id];
            var s := u.metadata.signalId;
            IsUpdate(u) && s in l.landed && u.registry == l.landed[s].registry && u.recordId == l.landed[s].recordId
  {
  }

  // ── each happening ────────────────────────────────────────────────────────

  lemma DeliveredIndex(l: Books, event: Event, c: Config)
    requires event.Attempt?
    ensures var m := MoveOf(l.w, event, c.maxAttempts);
            Happen(l, Deliver(event.id, event.now, event.reply, true), c).index ==
            if m.Land? then LoadRow(l.index, AnchoredRowOf(m.entry, m.result, c.environment)) else l.index
  {
  }

  lemma RowSupersedes(index: Index, row: Row, s: string)
    requires row.AnchoredRow? && Superseded(LoadRow(index, row), s)
    ensures Superseded(index, s) || (row.signalId == s && row.status == STATUS_SUPERSEDED)
  {
  }

  lemma LandedUpdateIsBorn(l: Books, event: Event, c: Config)
    requires Sound(l) && event.Attempt? && MoveOf(l.w, event, c.maxAttempts).Land?
    requires MoveOf(l.w, event, c.maxAttempts).entry.status == STATUS_SUPERSEDED
    ensures var s := MoveOf(l.w, event, c.maxAttempts).entry.metadata.signalId;
            s != "" && s in l.landed && UpdateBorn(l.w.born, s)
  {
    var m := MoveOf(l.w, event, c.maxAttempts);
    OutboxedIsMoved(l, event, c);
    OfferedIsBorn(l.w, m);
    BornRole(l, m.entry);
    assert m.entry.Core().metadata == m.entry.metadata;
    assert IsUpdate(l.w.born[m.entry.id]);
  }

  lemma DeliveryExplained(l: Books, id: nat, now: real, reply: Reply, c: Config, s: string)
    requires Sound(l) && Superseded(Happen(l, Deliver(id, now, reply, true), c).index, s)
    ensures Superseded(l.index, s) || Answered(l.landed, l.w.born, s)
  {
    var event := Attempt(id, now, reply);
    var m := MoveOf(l.w, event, c.maxAttempts);
    DeliveredIndex(l, event, c);
    if m.Land? {
      RowSupersedes(l.index, AnchoredRowOf(m.entry, m.result, c.environment), s);
      if m.entry.status == STATUS_SUPERSEDED {
        LandedUpdateIsBorn(l, event, c);
        var t := m.entry.metadata.signalId;
        assert Sharer(l.landed, l.w.born, t, t);
      }
    }
  }

  /** The accepted update is the signal's own; the one it duplicates is that or a sharer's. */
  lemma EnqueuedUpdateAnswers(l: Books, t: string, e: Entry, maxAttempts: nat)
    requires Sound(l) && DoneIsBorn(l.w) && Resolvable(l.index, t).Some?
    requires e.id !in l.w.born && e == UpdateEntry(e.id, t, Resolvable(l.index, t).value, e.createdAt)
    ensures Answered(l.landed, Step(l.w, Enqueue(e), maxAttempts).born, t)
  {
    var born' := Step(l.w, Enqueue(e), maxAttempts).born;
    ResolvedIsLanded(l, t);
    StepBears(l.w, Enqueue(e), maxAttempts);
    if Known(l.w.box, e.DedupeKey()) {
      KnownUpdateIsShared(l, t, e);
    } else {
      assert born'[e.id] == e;
      assert Sharer(l.landed, born', t, t);
    }
  }

  lemma MarkedBooks(l: Books, t: string, id: nat, createdAt: string, c: Config, e: Entry)
    requires Resolvable(l.index, t).Some? && id !in l.w.born
    requires e == UpdateEntry(id, t, Resolvable(l.index, t).value, createdAt)
    ensures var l' := Happen(l, Resolve(t, id, createdAt, true), c);
            && l'.index == WithStatus(l.index, t, STATUS_SUPERSEDED, "")
            && l'.w == Step(l.w, Enqueue(e), c.maxAttempts)
    ensures forall s ::
              Superseded(WithStatus(l.index, t, STATUS_SUPERSEDED, ""), s) ==> s == t || Superseded(l.index, s)
  {
    ResolvedBooks(l, t, id, createdAt, true, c, e);
  }

  lemma MarkExplained(l: Books, t: string, id: nat, createdAt: string, c: Config, s: string)
    requires Sound(l) && DoneIsBorn(l.w) && Resolvable(l.index, t).Some? && id !in l.w.born
    requires Superseded(Happen(l, Resolve(t, id, createdAt, true), c).index, s)
    ensures Superseded(l.index, s) || Answered(l.landed, Happen(l, Resolve(t, id, createdAt, true), c).w.born, s)
  {
    var e := UpdateEntry(id, t, Resolvable(l.index, t).value, createdAt);
    MarkedBooks(l, t, id, createdAt, c, e);
    if s == t {
      EnqueuedUpdateAnswers(l, t, e, c.maxAttempts);
    }
  }

  /** Each Superseded signal was so before, or is answered by the books before or by the entries after. */
  lemma NewlySuperseded(l: Books, h: Happening, c: Config, s: string)
    requires Sound(l) && DoneIsBorn(l.w) && Superseded(Happen(l, h, c).index, s)
    ensures || Superseded(l.index, s)
            || Answered(l.landed, l.w.born, s)
            || Answered(l.landed, Happen(l, h, c).w.born, s)
  {
    if h.Deliver? && h.indexed {
      DeliveryExplained(l, h.id, h.now, h.reply, c, s);
    } else if h.Resolve? && h.marked && Resolvable(l.index, h.signalId).Some? && h.id !in l.w.born {
      MarkExplained(l, h.signalId, h.id, h.createdAt, c, s);
    } else {
      UnmarkedIndex(l, h, c);
    }
  }

  lemma HappenExplained(l: Books, h: Happening, c: Config)
    requires Sound(l) && DoneIsBorn(l.w) && Explained(l)
    ensures Explained(Happen(l, h, c))
  {
    var l' := Happen(l, h, c);
    HappenBearsMore(l, h, c);
    LandingsStay(l, h, c);
    forall s | Superseded(l'.index, s) ensures Answered(l'.landed, l'.w.born, s) {
      NewlySuperseded(l, h, c, s);
      if Answered(l.landed, l.w.born, s) {
        AnsweredGrows(l.landed, l'.landed, l.w.born, l'.w.born, s);
      } else {
        AnsweredGrows(l.landed, l'.landed, l'.w.born, l'.w.born, s);
      }
    }
  }

  lemma AnsweredGrows(landed: map<string, Landing>, landed': map<string, Landing>,
                      born: map<nat, Entry>, born': map<nat, Entry>, s: string)
    requires Answered(landed, born, s) && BornGrows(born, born') && landed.Keys <= landed'.Keys
    requires forall t :: t in landed ==> landed'[t] == landed[t]
    ensures Answered(landed', born', s)
  {
    var t :| Sharer(landed, born, s, t);
    UpdateStaysBorn(born, born', t);
    assert Sharer(landed', born', s, t);
  }

  lemma UpdateStaysBorn(born: map<nat, Entry>, born': map<nat, Entry>, s: string)
    requires UpdateBorn(born, s) && BornGrows(born, born')
    ensures UpdateBorn(born', s)
  {
    var id :| id in born && IsUpdate(born[id]) && born[id].metadata.signalId == s;
    assert id in born' && born'[id] == born[id];
  }

  lemma UnmarkedIndex(l: Books, h: Happening, c: Config)
    requires !(h.Deliver? && h.indexed)
    requires !(h.Resolve? && h.marked && Resolvable(l.index, h.signalId).Some? && h.id !in l.w.born)
    ensures Happen(l, h, c).index == l.index || Happen(l, h, c).index == LoadRows(l.rows)
    ensures Sound(l) ==> forall s :: Superseded(Happen(l, h, c).index, s) ==> Superseded(l.index, s)
  {
  }

  ghost predicate Accounted(l: Books) { Sound(l) && DoneIsBorn(l.w) && Explained(l) }

  lemma {:induction false} StoryIsAccounted(hs: seq<Happening>, c: Config)
    ensures Accounted(Story(hs, c))
    decreases |hs|
  {
    if hs != [] {
      var l := Story(hs[..|hs| - 1], c);
      StoryIsAccounted(hs[..|hs| - 1], c);
      HappenKeepsSound(l, hs[|hs| - 1], c);
      HappenKeepsDoneBorn(l, hs[|hs| - 1], c);
      HappenExplained(l, hs[|hs| - 1], c);
    }
  }

  /** Outcome only through an update: of the signal itself, or of one that landed under the same record. */
  lemma SupersededIsAnswered(hs: seq<Happening>, c: Config, s: string)
    requires Superseded(Story(hs, c).index, s)
    ensures var l := Story(hs, c); Answered(l.landed, l.w.born, s)
  {
    StoryIsAccounted(hs, c);
  }

  /** Two updates for one record would be one key accepted twice. */
  lemma SharersExclude(l: Books, s: string, t: string)
    requires Sound(l) && KeysOnce(l.w.born) && Sharer(l.landed, l.w.born, s, t) && UpdateBorn(l.w.born, s)
    ensures s == t
  {
    var i :| i in l.w.born && IsUpdate(l.w.born[i]) && l.w.born[i].metadata.signalId == s;
    var j :| j in l.w.born && IsUpdate(l.w.born[j]) && l.w.born[j].metadata.signalId == t;
    UpdateHasItsKey(l, i);
    UpdateHasItsKey(l, j);
  }

  /**
   * Exactly when a Superseded signal had its own update accepted: when no other
   * signal that landed under the same record id of the same registry did.
   */
  lemma SupersededHasItsUpdateIff(hs: seq<Happening>, c: Config, s: string)
    requires CompactsCovered(hs, c) && Superseded(Story(hs, c).index, s)
    ensures var l := Story(hs, c);
            UpdateBorn(l.w.born, s) <==> !exists t :: t != s && Sharer(l.landed, l.w.born, s, t)
  {
    var l := Story(hs, c);
    StoryIsAccounted(hs, c);
    StoryIsSingle(hs, c);
    if UpdateBorn(l.w.born, s) {
      forall t | Sharer(l.landed, l.w.born, s, t) ensures t == s {
        SharersExclude(l, s, t);
      }
    } else {
      var t :| Sharer(l.landed, l.w.born, s, t);
    }
  }

  /** In particular, and whatever is compacted, when record ids differ. */
  lemma SupersededHasItsUpdate(hs: seq<Happening>, c: Config, s: string) returns (id: nat)
    requires Distinct(Story(hs, c).landed) && Superseded(Story(hs, c).index, s)
    ensures var born := Story(hs, c).w.born;
            id in born && born[id].op == "update_status" && born[id].metadata.signalId == s
  {
    var l := Story(hs, c);
    SupersededIsAnswered(hs, c, s);
    var t :| Sharer(l.landed, l.w.born, s, t);
    id :| id in l.w.born && IsUpdate(l.w.born[id]) && l.w.born[id].metadata.signalId == t;
  }

  /**
   * The chain hears of it: the update that a Superseded status stands for is
   * queued, parked or anchored, in memory and in what the log reloads to.
   */
  lemma SupersededIsOutstanding(hs: seq<Happening>, c: Config, s: string)
    requires CompactsCovered(hs, c) && Superseded(Story(hs, c).index, s)
    ensures var l := Story(hs, c);
            && s in l.landed
            && UpdateKeyOf(l.landed[s]) in l.w.box.Outstanding()
            && UpdateKeyOf(l.landed[s]) in Load(l.w.log).Outstanding()
  {
    var l := Story(hs, c);
    StoryIsAccounted(hs, c);
    StoryIsSingle(hs, c);
    var t :| Sharer(l.landed, l.w.born, s, t);
    var id :| id in l.w.born && IsUpdate(l.w.born[id]) && l.w.born[id].metadata.signalId == t;
    UpdateHasItsKey(l, id);
    KeysHeldAreOutstanding(l.w.box, l.w.born);
    KeysHeldAreOutstanding(Load(l.w.log), l.w.born);
  }
}
