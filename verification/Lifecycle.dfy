/**
 * Thesis before outcome: the outbox, the anchor index and the engine's two
 * lifecycle handlers, over whole runs with crashes between any two appends.
 */
module Lifecycle {
  import opened Collections
  import opened AnchorBase
  import opened AnchorOutbox
  import opened OutboxRuns
  import opened OutboxRefinement
  import opened AnchorIndexing

  // ── the handlers ──────────────────────────────────────────────────────────

  function AnchoredRowOf(e: Entry, r: AnchorResult, environment: string): Row {
    AnchoredRow(SignalKey(e.metadata.signalId, e.checksum),
                Anchored(e.registry, e.registryId, r.recordId, r.index, e.checksum, r.transaction, e.uri,
                         if e.metadata.kind.Some? then e.metadata.kind.value else "dossier", environment),
                e.status)
  }

  function DossierEntry(id: nat, signalId: string, registry: string, registryId: int, agent: string, uri: string,
                        checksum: string, createdAt: string): Entry {
    Entry(id, "add_record", registry, registryId, agent, uri, checksum, Metadata(signalId, None), STATUS_ACTIVE,
          0, 0, createdAt, 0, 0.0, "")
  }

  function UpdateEntry(id: nat, signalId: string, a: Anchored, createdAt: string): Entry {
    Entry(id, "update_status", a.registry, a.registryId, "oracle", "", "", Metadata(signalId, Some("status")),
          STATUS_SUPERSEDED, a.recordId, a.index, createdAt, 0, 0.0, "")
  }

  /** The record whose outcome may be written now, if there is one. */
  function Resolvable(index: Index, signalId: string): Option<Anchored> {
    if signalId in index.at && index.at[signalId].status == STATUS_ACTIVE then index.at[signalId].anchored else None
  }

  // ── runs ──────────────────────────────────────────────────────────────────

  datatype Happening =
    | Open(dossier: Entry)                                     // enqueue_dossier_for, once per signal
    | Deliver(id: nat, now: real, reply: Reply, indexed: bool) // drain round; false: crash before the hook's row
    | Resolve(signalId: string, id: nat, createdAt: string,
              marked: bool)                                    // false: crash before record_status
    | Other(event: Event)                                      // requeue, compaction, crash

  /** Where a signal's record landed, and which entry put it there. */
  datatype Landing = Landing(id: nat, registry: string, registryId: int, recordId: int, index: int)

  function LandingFor(e: Entry, r: AnchorResult): Landing {
    Landing(e.id, e.registry, e.registryId, r.recordId, r.index)
  }

  /** The landing happened in this entry's registry, by both of its names. */
  predicate In(e: Entry, p: Landing) { e.registry == p.registry && e.registryId == p.registryId }

  /** The entry names the record and the version that landed. */
  predicate Names(e: Entry, p: Landing) { In(e, p) && e.recordId == p.recordId && e.index == p.index }

  /** What the index holds is what landed. */
  predicate Recalls(a: Anchored, p: Landing) {
    a.registry == p.registry && a.registryId == p.registryId && a.recordId == p.recordId && a.index == p.index
  }

  /** landed, signals and journal only record history; the journal keeps every line ever appended. */
  datatype Books = Books(w: World, index: Index, rows: seq<Row>,
                         landed: map<string, Landing>, signals: set<string>, journal: seq<Line>)

  datatype Config = Config(maxAttempts: nat, environment: string)

  const BLANK := Books(START, Empty(), [], map[], {}, [])

  function LinesOf(m: Move, now: real): seq<Line> {
    match m
    case Add(e) => [Enqueued(e)]
    case Revive(e) => [Enqueued(e)]
    case Land(e, r) => [SentLine(e, r, now)]
    case Shelve(e, error) => [Parked(e.id, error, now)]
    case _ => []
  }

  lemma MoveAppends(w: World, event: Event, maxAttempts: nat)
    requires Inv(w) && Moves(event)
    ensures Step(w, event, maxAttempts).log == w.log + LinesOf(MoveOf(w, event, maxAttempts), Now(event))
  {
    StepIsMove(w, event, maxAttempts);
    assert w.log + [] == w.log;
  }

  /** One event of the outbox, with its lines kept in the journal. */
  ghost function Outboxed(l: Books, event: Event, c: Config): Books {
    l.(w := Step(l.w, event, c.maxAttempts),
       journal := l.journal + LinesOf(MoveOf(l.w, event, c.maxAttempts), Now(event)))
  }

  ghost function Crashed(l: Books, c: Config): Books {
    l.(w := Step(l.w, Restart, c.maxAttempts), index := LoadRows(l.rows))
  }

  function Noted(l: Books, row: Row): Books {
    l.(index := LoadRow(l.index, row), rows := l.rows + [row])
  }

  function Marked(l: Books, signalId: string): Books {
    l.(index := WithStatus(l.index, signalId, STATUS_SUPERSEDED, ""),
       rows := l.rows + [StatusRow(signalId, STATUS_SUPERSEDED, "")])
  }

  ghost function MarkedOrCrashed(l: Books, signalId: string, marked: bool, c: Config): Books {
    if marked then Marked(l, signalId) else Crashed(l, c)
  }

  predicate IsDossier(e: Entry) {
    e.op == "add_record" && e.metadata.signalId != "" && e.status == STATUS_ACTIVE
  }

  predicate IsUpdate(e: Entry) {
    e.op == "update_status" && e.metadata.signalId != "" && e.status == STATUS_SUPERSEDED
  }

  /** A drain round, remembering where a dossier landed. */
  ghost function Landed(l: Books, event: Event, c: Config): Books {
    var m := MoveOf(l.w, event, c.maxAttempts);
    var l1 := Outboxed(l, event, c);
    if m.Land? && IsDossier(m.entry)
    then l1.(landed := l.landed[m.entry.metadata.signalId := LandingFor(m.entry, m.result)])
    else l1
  }

  ghost function Happen(l: Books, h: Happening, c: Config): Books {
    match h
    case Open(e) =>
      if !IsDossier(e) || e.metadata.signalId in l.signals || !Fresh(l.w, e) then l
      else Outboxed(l, Enqueue(e), c).(signals := l.signals + {e.metadata.signalId})
    case Deliver(id, now, reply, indexed) =>
      var m := MoveOf(l.w, Attempt(id, now, reply), c.maxAttempts);
      var l2 := Landed(l, Attempt(id, now, reply), c);
      if !indexed then Crashed(l2, c)
      else if m.Land? then Noted(l2, AnchoredRowOf(m.entry, m.result, c.environment))
      else l2
    case Resolve(s, id, createdAt, marked) =>
      if Resolvable(l.index, s).None? || id in l.w.born then l
      else
        var l1 := Outboxed(l, Enqueue(UpdateEntry(id, s, Resolvable(l.index, s).value, createdAt)), c);
        MarkedOrCrashed(l1, s, marked, c)
    case Other(event) =>
      if event.Enqueue? || event.Attempt? then l
      else if event.Restart? || event.DieAfterReturn? then Outboxed(l, event, c).(index := LoadRows(l.rows))
      else Outboxed(l, event, c)
  }

  ghost function Story(hs: seq<Happening>, c: Config): Books {
    if hs == [] then BLANK else Happen(Story(hs[..|hs| - 1], c), hs[|hs| - 1], c)
  }

  lemma StorySnoc(hs: seq<Happening>, h: Happening, c: Config)
    ensures Story(hs + [h], c) == Happen(Story(hs, c), h, c)
  {
    assert (hs + [h])[..|hs|] == hs;
  }

  // ── the invariant ─────────────────────────────────────────────────────────

  ghost predicate Roles(born: map<nat, Entry>, signals: set<string>, landed: map<string, Landing>) {
    forall id :: id in born ==>
      var e := born[id];
      var s := e.metadata.signalId;
      || (IsDossier(e) && s in signals)
      || (IsUpdate(e) && s in landed && Names(e, landed[s]))
  }

  ghost predicate OneDossierEach(born: map<nat, Entry>) {
    forall i, j :: i in born && j in born && IsDossier(born[i]) && IsDossier(born[j])
      && born[i].metadata.signalId == born[j].metadata.signalId
      ==> i == j
  }

  ghost predicate LandedIsDone(landed: map<string, Landing>, born: map<nat, Entry>, done: set<Key>) {
    forall s :: s in landed ==>
      var p := landed[s];
      && p.id in born
      && IsDossier(born[p.id])
      && born[p.id].metadata.signalId == s
      && In(born[p.id], p)
      && born[p.id].DedupeKey() in done
  }

  ghost predicate IndexMatches(index: Index, landed: map<string, Landing>) {
    forall s :: s in index.at ==>
      var e := index.at[s];
      && s in landed
      && s != ""
      && e.anchored.Some?
      && (e.status == STATUS_ACTIVE || e.status == STATUS_SUPERSEDED)
      && (e.status == STATUS_ACTIVE ==> Recalls(e.anchored.value, landed[s]))
  }

  ghost predicate IsThesisLine(line: Line, p: Landing) {
    line.Sent? && line.id == Uuid(p.id) && line.recordId == p.recordId
  }

  ghost predicate ThesisLogged(journal: seq<Line>, p: Landing) {
    exists j :: 0 <= j < |journal| && IsThesisLine(journal[j], p)
  }

  ghost predicate Journaled(journal: seq<Line>, landed: map<string, Landing>) {
    && (forall s :: s in landed ==> ThesisLogged(journal, landed[s]))
    && (forall i :: 0 <= i < |journal| && journal[i].Enqueued? && !IsDossier(journal[i].entry) ==>
          UpdateFollowsThesis(journal, i, landed))
  }

  ghost predicate UpdateFollowsThesis(journal: seq<Line>, i: nat, landed: map<string, Landing>)
    requires i < |journal| && journal[i].Enqueued?
  {
    var u := journal[i].entry;
    var s := u.metadata.signalId;
    IsUpdate(u) && s in landed && Names(u, landed[s]) && ThesisLogged(journal[..i], landed[s])
  }

  ghost predicate History(born: map<nat, Entry>, done: set<Key>, signals: set<string>, landed: map<string, Landing>) {
    && Roles(born, signals, landed)
    && OneDossierEach(born)
    && LandedIsDone(landed, born, done)
  }

  ghost predicate Indexed(index: Index, rows: seq<Row>, landed: map<string, Landing>) {
    && index.Valid()
    && SameRecords(index, LoadRows(rows))
    && IndexMatches(index, landed)
  }

  ghost predicate Sound(l: Books) {
    && Inv(l.w)
    && History(l.w.born, l.w.box.done, l.signals, l.landed)
    && Indexed(l.index, l.rows, l.landed)
    && Journaled(l.journal, l.landed)
  }

  // Pieces of the journal, the index and the history.

  lemma JournalAppend(journal: seq<Line>, line: Line, landed: map<string, Landing>)
    requires Journaled(journal, landed)
    requires line.Enqueued? && !IsDossier(line.entry) ==>
               IsUpdate(line.entry) && line.entry.metadata.signalId in landed
               && Names(line.entry, landed[line.entry.metadata.signalId])
    ensures Journaled(journal + [line], landed)
  {
    var j' := journal + [line];
    forall s | s in landed ensures ThesisLogged(j', landed[s]) {
      var j :| 0 <= j < |journal| && IsThesisLine(journal[j], landed[s]);
      assert IsThesisLine(j'[j], landed[s]);
    }
    forall i | 0 <= i < |j'| && j'[i].Enqueued? && !IsDossier(j'[i].entry) ensures UpdateFollowsThesis(j', i, landed) {
      if i < |journal| {
        assert UpdateFollowsThesis(journal, i, landed);
        assert j'[..i] == journal[..i];
      } else {
        assert j'[..i] == journal;
      }
    }
  }

  lemma JournalLanding(journal: seq<Line>, line: Line, landed: map<string, Landing>, s: string, p: Landing)
    requires Journaled(journal, landed) && s !in landed && IsThesisLine(line, p)
    ensures Journaled(journal + [line], landed[s := p])
  {
    JournalAppend(journal, line, landed);
    var j', landed' := journal + [line], landed[s := p];
    assert IsThesisLine(j'[|journal|], p);
    forall i | 0 <= i < |j'| && j'[i].Enqueued? && !IsDossier(j'[i].entry) ensures UpdateFollowsThesis(j', i, landed') {
      assert UpdateFollowsThesis(j', i, landed);
    }
  }

  // Pieces of the history.

  lemma HistoryWithDossier(born: map<nat, Entry>, done: set<Key>, signals: set<string>, landed: map<string, Landing>,
                           e: Entry)
    requires History(born, done, signals, landed)
    requires IsDossier(e) && e.id !in born && e.metadata.signalId !in signals
    ensures History(born[e.id := e], done, signals + {e.metadata.signalId}, landed)
  {
  }

  lemma HistoryWithUpdate(born: map<nat, Entry>, done: set<Key>, signals: set<string>, landed: map<string, Landing>,
                          e: Entry)
    requires History(born, done, signals, landed)
    requires IsUpdate(e) && e.id !in born && e.metadata.signalId in landed
    requires Names(e, landed[e.metadata.signalId])
    ensures History(born[e.id := e], done, signals, landed)
  {
  }

  lemma HistoryWithLanding(born: map<nat, Entry>, done: set<Key>, signals: set<string>, landed: map<string, Landing>,
                           s: string, p: Landing)
    requires History(born, done, signals, landed) && s !in landed
    requires p.id in born && IsDossier(born[p.id]) && born[p.id].metadata.signalId == s
    requires In(born[p.id], p)
    ensures History(born, done + {born[p.id].DedupeKey()}, signals, landed[s := p])
  {
  }

  // Pieces of the index.

  lemma IndexWithLanding(index: Index, rows: seq<Row>, landed: map<string, Landing>, s: string, p: Landing)
    requires Indexed(index, rows, landed) && s !in landed
    ensures Indexed(index, rows, landed[s := p])
  {
  }

  lemma SameAfterSet(a: Index, b: Index, s: string, x: IndexEntry, y: IndexEntry)
    requires SameRecords(a, b) && x.anchored == y.anchored && x.status == y.status
    ensures SameRecords(a.Set(s, x), b.Set(s, y))
  {
  }

  lemma IndexWithEntry(index: Index, rows: seq<Row>, landed: map<string, Landing>, row: Row, x: IndexEntry)
    requires Indexed(index, rows, landed) && row.signalId in landed && row.signalId != ""
    requires var y := Updated(Lookup(LoadRows(rows), row.signalId), row);
             x.anchored == y.anchored && x.status == y.status
    requires x.anchored.Some?
    requires x.status == STATUS_SUPERSEDED
          || (x.status == STATUS_ACTIVE && Recalls(x.anchored.value, landed[row.signalId]))
    ensures Indexed(index.Set(row.signalId, x), rows + [row], landed)
  {
    RowsAppend(rows, row);
    SameAfterSet(index, LoadRows(rows), row.signalId, x, Updated(Lookup(LoadRows(rows), row.signalId), row));
  }

  lemma IndexWithRow(index: Index, rows: seq<Row>, landed: map<string, Landing>, row: Row)
    requires Indexed(index, rows, landed) && row.AnchoredRow? && row.signalId in landed && row.signalId != ""
    requires row.status == STATUS_SUPERSEDED
          || (row.status == STATUS_ACTIVE && Recalls(row.anchored, landed[row.signalId]))
    ensures Indexed(LoadRow(index, row), rows + [row], landed)
  {
    IndexWithEntry(index, rows, landed, row, Updated(Lookup(index, row.signalId), row));
  }

  lemma IndexWithMark(index: Index, rows: seq<Row>, landed: map<string, Landing>, s: string)
    requires Indexed(index, rows, landed) && s in index.at
    ensures Indexed(WithStatus(index, s, STATUS_SUPERSEDED, ""), rows + [StatusRow(s, STATUS_SUPERSEDED, "")], landed)
  {
    IndexWithEntry(index, rows, landed, StatusRow(s, STATUS_SUPERSEDED, ""),
                   WithStatus(index, s, STATUS_SUPERSEDED, "").at[s]);
  }

  lemma IndexReloaded(index: Index, rows: seq<Row>, landed: map<string, Landing>)
    requires Indexed(index, rows, landed)
    ensures Indexed(LoadRows(rows), rows, landed)
  {
  }

  // Entries and their roles.

  lemma BornRole(l: Books, e: Entry)
    requires Sound(l) && e.id in l.w.born && e.Core() == l.w.born[e.id]
    ensures IsDossier(e) == IsDossier(l.w.born[e.id]) && IsUpdate(e) == IsUpdate(l.w.born[e.id])
    ensures IsDossier(e) || IsUpdate(e)
    ensures e.DedupeKey() == l.w.born[e.id].DedupeKey()
    ensures IsUpdate(e) ==>
              e.metadata.signalId in l.landed && Names(e, l.landed[e.metadata.signalId])
  {
  }

  lemma OfferedIsBorn(w: World, m: Move)
    requires Inv(w) && Offers(w, m) && (m.Land? || m.Shelve? || m.Retry? || m.Revive?)
    ensures m.entry.id in w.born && m.entry.Core() == w.born[m.entry.id]
  {
  }

  // Each kind of happening.

  /** Outbox events that neither accept a new entry nor land a dossier. */
  lemma QuietEventKeepsSound(l: Books, event: Event, c: Config)
    requires Sound(l) && Moves(event)
    requires var m := MoveOf(l.w, event, c.maxAttempts); !m.Add? && !(m.Land? && IsDossier(m.entry))
    ensures Sound(Outboxed(l, event, c))
  {
    var m := MoveOf(l.w, event, c.maxAttempts);
    StepIsMove(l.w, event, c.maxAttempts);
    QuietJournal(l, m, Now(event));
    MoveKeepsHistory(l.w, m, Now(event));
    MoveKeepsInv(l.w, m, Now(event));
  }

  lemma MoveKeepsHistory(w: World, m: Move, now: real)
    ensures !m.Add? ==> Moved(w, m, now).born == w.born
    ensures w.box.done <= Moved(w, m, now).box.done
  {
  }

  lemma QuietJournal(l: Books, m: Move, now: real)
    requires Sound(l) && Offers(l.w, m) && !m.Add?
    ensures Journaled(l.journal + LinesOf(m, now), l.landed)
  {
    if m.Revive? {
      OfferedIsBorn(l.w, m);
      BornRole(l, m.entry);
    }
    if LinesOf(m, now) == [] {
      assert l.journal + [] == l.journal;
    } else {
      JournalAppend(l.journal, LinesOf(m, now)[0], l.landed);
    }
  }

  /** A world that has forgotten nothing the books speak of. */
  lemma SoundAfter(l: Books, w: World)
    requires Sound(l) && Inv(w) && w.born == l.w.born && l.w.box.done <= w.box.done
    ensures Sound(l.(w := w))
  {
  }

  lemma SoundReloaded(l: Books)
    requires Sound(l)
    ensures Sound(l.(index := LoadRows(l.rows)))
  {
    IndexReloaded(l.index, l.rows, l.landed);
  }

  /** Compactions and crashes neither accept nor finish anything. */
  lemma StillKeeps(w: World, event: Event, maxAttempts: nat)
    requires Inv(w) && !Moves(event)
    ensures var w' := Step(w, event, maxAttempts); w'.born == w.born && w'.box.done == w.box.done
  {
  }

  lemma StillKeepsSound(l: Books, event: Event, maxAttempts: nat)
    requires Sound(l) && !Moves(event)
    ensures Sound(l.(w := Step(l.w, event, maxAttempts)))
  {
    StepKeepsInv(l.w, event, maxAttempts);
    StillKeeps(l.w, event, maxAttempts);
    SoundAfter(l, Step(l.w, event, maxAttempts));
  }

  lemma CrashKeepsSound(l: Books, c: Config)
    requires Sound(l)
    ensures Sound(Crashed(l, c))
  {
    StillKeepsSound(l, Restart, c.maxAttempts);
    SoundReloaded(l.(w := Step(l.w, Restart, c.maxAttempts)));
  }

  lemma AddKeepsSound(l: Books, e: Entry, now: real, signals: set<string>)
    requires Sound(l) && Offers(l.w, Add(e))
    requires History(l.w.born[e.id := e], l.w.box.done, signals, l.landed)
    requires Journaled(l.journal + [Enqueued(e)], l.landed)
    ensures Sound(l.(w := Moved(l.w, Add(e), now), journal := l.journal + [Enqueued(e)], signals := signals))
  {
    MoveKeepsInv(l.w, Add(e), now);
  }

  lemma OutboxedIsMoved(l: Books, event: Event, c: Config)
    requires Inv(l.w) && Moves(event)
    ensures var m := MoveOf(l.w, event, c.maxAttempts);
            && Offers(l.w, m)
            && Outboxed(l, event, c)
                 == l.(w := Moved(l.w, m, Now(event)), journal := l.journal + LinesOf(m, Now(event)))
  {
    StepIsMove(l.w, event, c.maxAttempts);
  }

  lemma OpenKeepsSound(l: Books, e: Entry, c: Config)
    requires Sound(l)
    ensures Sound(Happen(l, Open(e), c))
  {
    if IsDossier(e) && e.metadata.signalId !in l.signals && Fresh(l.w, e) {
      OutboxedIsMoved(l, Enqueue(e), c);
      if Known(l.w.box, e.DedupeKey()) {
        assert l.journal + [] == l.journal;
      } else {
        JournalAppend(l.journal, Enqueued(e), l.landed);
        HistoryWithDossier(l.w.born, l.w.box.done, l.signals, l.landed, e);
        AddKeepsSound(l, e, 0.0, l.signals + {e.metadata.signalId});
      }
    }
  }

  /** A dossier lands: this is the first and only time its signal does. */
  lemma DossierLandsOnce(l: Books, m: Move)
    requires Sound(l) && Offers(l.w, m) && m.Land? && IsDossier(m.entry)
    ensures m.entry.metadata.signalId !in l.landed && m.entry.metadata.signalId !in l.index.at
  {
    var e := m.entry;
    OfferedIsBorn(l.w, m);
    BornRole(l, e);
    PendingIsNotDone(l.w, e.id);
  }

  lemma PendingIsNotDone(w: World, id: nat)
    requires Inv(w) && id in w.box.pending.at
    ensures id in w.born && w.born[id].DedupeKey() !in w.box.done
  {
  }

  lemma DossierLandingKeepsSound(l: Books, m: Move, now: real)
    requires Sound(l) && Offers(l.w, m) && m.Land? && IsDossier(m.entry)
    ensures var s := m.entry.metadata.signalId;
            Sound(l.(w := Moved(l.w, m, now), journal := l.journal + LinesOf(m, now),
                     landed := l.landed[s := LandingFor(m.entry, m.result)]))
  {
    var e, s := m.entry, m.entry.metadata.signalId;
    var p := LandingFor(e, m.result);
    DossierLandsOnce(l, m);
    OfferedIsBorn(l.w, m);
    BornRole(l, e);
    JournalLanding(l.journal, SentLine(e, m.result, now), l.landed, s, p);
    HistoryWithLanding(l.w.born, l.w.box.done, l.signals, l.landed, s, p);
    IndexWithLanding(l.index, l.rows, l.landed, s, p);
    MoveKeepsInv(l.w, m, now);
  }

  lemma LandedIsMoved(l: Books, event: Event, c: Config)
    requires Sound(l) && event.Attempt?
    requires var m := MoveOf(l.w, event, c.maxAttempts); m.Land? && IsDossier(m.entry)
    ensures var m := MoveOf(l.w, event, c.maxAttempts);
            var p := LandingFor(m.entry, m.result);
            && Offers(l.w, m)
            && Landed(l, event, c)
                 == l.(w := Moved(l.w, m, event.now), journal := l.journal + LinesOf(m, event.now),
                       landed := l.landed[m.entry.metadata.signalId := p])
  {
    OutboxedIsMoved(l, event, c);
  }

  lemma DossierLandedKeepsSound(l: Books, event: Event, c: Config)
    requires Sound(l) && event.Attempt?
    requires var m := MoveOf(l.w, event, c.maxAttempts); m.Land? && IsDossier(m.entry)
    ensures Sound(Landed(l, event, c))
  {
    LandedIsMoved(l, event, c);
    DossierLandingKeepsSound(l, MoveOf(l.w, event, c.maxAttempts), event.now);
  }

  lemma SoundIfOutboxed(l: Books, event: Event, c: Config, l': Books)
    requires Sound(l) && Moves(event) && l' == Outboxed(l, event, c)
    requires var m := MoveOf(l.w, event, c.maxAttempts); !m.Add? && !(m.Land? && IsDossier(m.entry))
    ensures Sound(l')
  {
    QuietEventKeepsSound(l, event, c);
  }

  lemma OtherLandedIsQuiet(l: Books, event: Event, c: Config)
    requires event.Attempt?
    requires var m := MoveOf(l.w, event, c.maxAttempts); !(m.Land? && IsDossier(m.entry))
    ensures !MoveOf(l.w, event, c.maxAttempts).Add? && Landed(l, event, c) == Outboxed(l, event, c)
  {
  }

  lemma OtherLandedKeepsSound(l: Books, event: Event, c: Config)
    requires Sound(l) && event.Attempt?
    requires var m := MoveOf(l.w, event, c.maxAttempts); !(m.Land? && IsDossier(m.entry))
    ensures Sound(Landed(l, event, c))
  {
    OtherLandedIsQuiet(l, event, c);
    SoundIfOutboxed(l, event, c, Landed(l, event, c));
  }

  lemma LandingKeepsSound(l: Books, event: Event, c: Config)
    requires Sound(l) && event.Attempt?
    ensures Sound(Landed(l, event, c))
  {
    var m := MoveOf(l.w, event, c.maxAttempts);
    if m.Land? && IsDossier(m.entry) {
      DossierLandedKeepsSound(l, event, c);
    } else {
      OtherLandedKeepsSound(l, event, c);
    }
  }

  lemma NotingKeepsSound(l: Books, row: Row)
    requires Sound(l) && Indexed(LoadRow(l.index, row), l.rows + [row], l.landed)
    ensures Sound(Noted(l, row))
  {
  }

  lemma LandedEntry(l: Books, event: Event, c: Config)
    requires Sound(l) && event.Attempt? && MoveOf(l.w, event, c.maxAttempts).Land?
    ensures var m := MoveOf(l.w, event, c.maxAttempts);
            var s := m.entry.metadata.signalId;
            && (IsDossier(m.entry) || IsUpdate(m.entry))
            && s in Landed(l, event, c).landed
            && (IsDossier(m.entry) ==> Landed(l, event, c).landed[s] == LandingFor(m.entry, m.result))
  {
    var m := MoveOf(l.w, event, c.maxAttempts);
    StepIsMove(l.w, event, c.maxAttempts);
    OfferedIsBorn(l.w, m);
    BornRole(l, m.entry);
  }

  /** The row that the hook writes for what has just landed. */
  lemma HookKeepsSound(l: Books, event: Event, c: Config)
    requires Sound(l) && event.Attempt? && MoveOf(l.w, event, c.maxAttempts).Land?
    requires Sound(Landed(l, event, c))
    ensures var m := MoveOf(l.w, event, c.maxAttempts);
            Sound(Noted(Landed(l, event, c), AnchoredRowOf(m.entry, m.result, c.environment)))
  {
    var m, l2 := MoveOf(l.w, event, c.maxAttempts), Landed(l, event, c);
    var row := AnchoredRowOf(m.entry, m.result, c.environment);
    LandedEntry(l, event, c);
    IndexWithRow(l2.index, l2.rows, l2.landed, row);
    NotingKeepsSound(l2, row);
  }

  lemma IndexedDeliveryKeepsSound(l: Books, event: Event, c: Config)
    requires Sound(l) && event.Attempt? && Sound(Landed(l, event, c))
    ensures Sound(Happen(l, Deliver(event.id, event.now, event.reply, true), c))
  {
    if MoveOf(l.w, event, c.maxAttempts).Land? {
      HookKeepsSound(l, event, c);
    }
  }

  lemma DeliverKeepsSound(l: Books, id: nat, now: real, reply: Reply, indexed: bool, c: Config)
    requires Sound(l)
    ensures Sound(Happen(l, Deliver(id, now, reply, indexed), c))
  {
    var event := Attempt(id, now, reply);
    LandingKeepsSound(l, event, c);
    if indexed {
      IndexedDeliveryKeepsSound(l, event, c);
    } else {
      CrashKeepsSound(Landed(l, event, c), c);
    }
  }

  lemma UpdateIsSound(l: Books, s: string, id: nat, createdAt: string, c: Config)
    requires Sound(l) && Resolvable(l.index, s).Some? && id !in l.w.born
    ensures Sound(Outboxed(l, Enqueue(UpdateEntry(id, s, Resolvable(l.index, s).value, createdAt)), c))
  {
    var e := UpdateEntry(id, s, Resolvable(l.index, s).value, createdAt);
    if Known(l.w.box, e.DedupeKey()) {
      QuietEventKeepsSound(l, Enqueue(e), c);
    } else {
      ResolvedIsLanded(l, s);
      NewUpdateIsSound(l, e);
      OutboxedIsMoved(l, Enqueue(e), c);
    }
  }

  lemma ResolvedIsLanded(l: Books, s: string)
    requires Sound(l) && Resolvable(l.index, s).Some?
    ensures var a := Resolvable(l.index, s).value;
            s != "" && s in l.landed && Recalls(a, l.landed[s])
  {
  }

  lemma NewUpdateIsSound(l: Books, e: Entry)
    requires Sound(l) && Offers(l.w, Add(e)) && IsUpdate(e) && e.metadata.signalId in l.landed
    requires Names(e, l.landed[e.metadata.signalId])
    ensures Sound(l.(w := Moved(l.w, Add(e), 0.0), journal := l.journal + [Enqueued(e)]))
  {
    JournalAppend(l.journal, Enqueued(e), l.landed);
    HistoryWithUpdate(l.w.born, l.w.box.done, l.signals, l.landed, e);
    AddKeepsSound(l, e, 0.0, l.signals);
  }

  lemma MarkingKeepsSound(l: Books, s: string)
    requires Sound(l) && s in l.index.at
    ensures Sound(Marked(l, s))
  {
    IndexWithMark(l.index, l.rows, l.landed, s);
  }

  lemma MarkOrCrashKeepsSound(l: Books, s: string, marked: bool, c: Config)
    requires Sound(l) && s in l.index.at
    ensures Sound(MarkedOrCrashed(l, s, marked, c))
  {
    if marked {
      MarkingKeepsSound(l, s);
    } else {
      CrashKeepsSound(l, c);
    }
  }

  lemma ResolvedBooks(l: Books, s: string, id: nat, createdAt: string, marked: bool, c: Config, e: Entry)
    requires Resolvable(l.index, s).Some? && id !in l.w.born
    requires e == UpdateEntry(id, s, Resolvable(l.index, s).value, createdAt)
    ensures Happen(l, Resolve(s, id, createdAt, marked), c) == MarkedOrCrashed(Outboxed(l, Enqueue(e), c), s, marked, c)
  {
  }

  lemma ResolveKeepsSound(l: Books, s: string, id: nat, createdAt: string, marked: bool, c: Config)
    requires Sound(l)
    ensures Sound(Happen(l, Resolve(s, id, createdAt, marked), c))
  {
    if Resolvable(l.index, s).Some? && id !in l.w.born {
      var e := UpdateEntry(id, s, Resolvable(l.index, s).value, createdAt);
      ResolvedBooks(l, s, id, createdAt, marked, c, e);
      UpdateIsSound(l, s, id, createdAt, c);
      MarkOrCrashKeepsSound(Outboxed(l, Enqueue(e), c), s, marked, c);
    }
  }

  lemma OtherIsStep(l: Books, event: Event, c: Config)
    requires !Moves(event)
    ensures var l1 := l.(w := Step(l.w, event, c.maxAttempts));
            Happen(l, Other(event), c) == if event.Compact? then l1 else l1.(index := LoadRows(l1.rows))
  {
    assert l.journal + [] == l.journal;
  }

  lemma StillHappeningKeepsSound(l: Books, event: Event, c: Config)
    requires Sound(l) && !Moves(event)
    ensures Sound(Happen(l, Other(event), c))
  {
    var l1 := l.(w := Step(l.w, event, c.maxAttempts));
    OtherIsStep(l, event, c);
    StillKeepsSound(l, event, c.maxAttempts);
    SoundReloaded(l1);
  }

  lemma OtherKeepsSound(l: Books, event: Event, c: Config)
    requires Sound(l)
    ensures Sound(Happen(l, Other(event), c))
  {
    if event.Requeue? {
      SoundIfOutboxed(l, event, c, Happen(l, Other(event), c));
    } else if !Moves(event) {
      StillHappeningKeepsSound(l, event, c);
    }
  }

  lemma HappenKeepsSound(l: Books, h: Happening, c: Config)
    requires Sound(l)
    ensures Sound(Happen(l, h, c))
  {
    match h
    case Open(e) => OpenKeepsSound(l, e, c);
    case Deliver(id, now, reply, indexed) => DeliverKeepsSound(l, id, now, reply, indexed, c);
    case Resolve(s, id, createdAt, marked) => ResolveKeepsSound(l, s, id, createdAt, marked, c);
    case Other(event) => OtherKeepsSound(l, event, c);
  }

  lemma {:induction false} StoryIsSound(hs: seq<Happening>, c: Config)
    ensures Sound(Story(hs, c))
  {
    if hs == [] {
    } else {
      StoryIsSound(hs[..|hs| - 1], c);
      HappenKeepsSound(Story(hs[..|hs| - 1], c), hs[|hs| - 1], c);
    }
  }

  // ── what every story keeps ────────────────────────────────────────────────

  /** 0: not anchored, 1: Active, 2: Superseded. */
  function Stage(index: Index, s: string): nat {
    if s !in index.at then 0 else if index.at[s].status == STATUS_ACTIVE then 1 else 2
  }

  /** A crash shows readers the same records. */
  lemma ReloadKeepsStage(l: Books, s: string)
    requires Sound(l)
    ensures Stage(LoadRows(l.rows), s) == Stage(l.index, s)
  {
  }

  lemma DeliveryAdvances(l: Books, h: Happening, c: Config, s: string)
    requires Sound(l) && h.Deliver? && h.indexed
    ensures Stage(l.index, s) <= Stage(Happen(l, h, c).index, s)
  {
    var event := Attempt(h.id, h.now, h.reply);
    var m := MoveOf(l.w, event, c.maxAttempts);
    if m.Land? {
      OutboxedIsMoved(l, event, c);
      LandedEntry(l, event, c);
      RowAdvances(l.index, AnchoredRowOf(m.entry, m.result, c.environment), s);
      if IsDossier(m.entry) {
        DossierLandsOnce(l, m);
      }
    }
  }

  lemma RowAdvances(index: Index, row: Row, s: string)
    requires row.AnchoredRow? && row.signalId != ""
    ensures row.status == STATUS_SUPERSEDED || row.signalId !in index.at ==>
              Stage(index, s) <= Stage(LoadRow(index, row), s)
  {
  }

  lemma MarkAdvances(index: Index, t: string, s: string)
    ensures Stage(index, s) <= Stage(WithStatus(index, t, STATUS_SUPERSEDED, ""), s)
  {
  }

  /** The four indexes a happening can leave behind, apart from a delivery's own row. */
  lemma IndexAfter(l: Books, h: Happening, c: Config)
    requires !(h.Deliver? && h.indexed)
    ensures Happen(l, h, c).index in {l.index, LoadRows(l.rows)}
         || (h.Resolve? && Happen(l, h, c).index == WithStatus(l.index, h.signalId, STATUS_SUPERSEDED, ""))
  {
  }

  lemma StageNeverDrops(l: Books, h: Happening, c: Config, s: string)
    requires Sound(l)
    ensures Stage(l.index, s) <= Stage(Happen(l, h, c).index, s)
  {
    if h.Deliver? && h.indexed {
      DeliveryAdvances(l, h, c, s);
    } else {
      IndexAfter(l, h, c);
      ReloadKeepsStage(l, s);
      if h.Resolve? {
        MarkAdvances(l.index, h.signalId, s);
      }
    }
  }

  /**
   * A signal is unanchored, then Active, then Superseded, and never goes back,
   * whatever else happens and wherever the process dies.
   */
  lemma {:induction false} StatusOnlyAdvances(hs: seq<Happening>, more: seq<Happening>, c: Config, s: string)
    ensures Stage(Story(hs, c).index, s) <= Stage(Story(hs + more, c).index, s) <= 2
    ensures StatusIsKnown(Story(hs, c).index, s)
    decreases |more|
  {
    StoryIsSound(hs, c);
    if more == [] {
      assert hs + more == hs;
    } else {
      var init, last := more[..|more| - 1], more[|more| - 1];
      StatusOnlyAdvances(hs, init, c, s);
      StoryIsSound(hs + init, c);
      StageNeverDrops(Story(hs + init, c), last, c, s);
      StorySnoc(hs + init, last, c);
      InitAndLast(more);
      Reassociate(hs, init, [last]);
    }
  }

  predicate StatusIsKnown(index: Index, s: string) {
    s in index.at ==> index.at[s].status == STATUS_ACTIVE || index.at[s].status == STATUS_SUPERSEDED
  }

  /**
   * Thesis before outcome: wherever a status update enters the log, an earlier
   * line already says that the same signal's dossier was sent, and the update
   * names that dossier's registry and the record id that the backend returned.
   */
  lemma {:induction false} UpdateNamesTheAnchoredThesis(hs: seq<Happening>, c: Config, i: nat) returns (j: nat)
    requires var l := Story(hs, c);
             i < |l.journal| && l.journal[i].Enqueued? && l.journal[i].entry.op == "update_status"
    ensures var l := Story(hs, c);
            && j < i
            && l.journal[j].Sent? && l.journal[j].id.Uuid?
            && l.journal[j].id.id in l.w.born
            && var d, u := l.w.born[l.journal[j].id.id], l.journal[i].entry;
            && d.op == "add_record" && d.metadata.signalId == u.metadata.signalId
            && u.registry == d.registry && u.registryId == d.registryId
            && u.recordId == l.journal[j].recordId
  {
    StoryIsSound(hs, c);
    j := ThesisBefore(Story(hs, c), i);
    LandedDossier(Story(hs, c), Story(hs, c).journal[i].entry.metadata.signalId);
  }

  lemma ThesisBefore(l: Books, i: nat) returns (j: nat)
    requires Sound(l)
    requires i < |l.journal| && l.journal[i].Enqueued? && l.journal[i].entry.op == "update_status"
    ensures var u := l.journal[i].entry;
            var s := u.metadata.signalId;
            IsUpdate(u) && s in l.landed && Names(u, l.landed[s]) && j < i && IsThesisLine(l.journal[j], l.landed[s])
  {
    assert UpdateFollowsThesis(l.journal, i, l.landed);
    var p := l.landed[l.journal[i].entry.metadata.signalId];
    j :| 0 <= j < |l.journal[..i]| && IsThesisLine(l.journal[..i][j], p);
  }

  lemma LandedDossier(l: Books, s: string)
    requires Sound(l) && s in l.landed
    ensures var p := l.landed[s];
            && p.id in l.w.born && In(l.w.born[p.id], p)
            && l.w.born[p.id].op == "add_record" && l.w.born[p.id].metadata.signalId == s
  {
  }

  // ── at most one update per signal ─────────────────────────────────────────

  /** No compaction that rewrites the log finds a key that is parked only. */
  ghost predicate CompactsCovered(hs: seq<Happening>, c: Config) {
    forall i :: 0 <= i < |hs| ==> SafeAt(hs, i, c)
  }

  ghost predicate SafeAt(hs: seq<Happening>, i: nat, c: Config)
    requires i < |hs|
  {
    SafeFor(Story(hs[..i], c).w, hs[i])
  }

  ghost predicate SafeFor(w: World, h: Happening) {
    h.Other? && Rewrites(w, h.event) ==> ParkedIsCovered(w.box)
  }

  ghost function RestartedIf(crashed: bool, w: World, maxAttempts: nat): World {
    if crashed then Step(w, Restart, maxAttempts) else w
  }

  lemma RestartKeepsSingle(crashed: bool, w: World, maxAttempts: nat)
    requires Single(w)
    ensures Single(RestartedIf(crashed, w, maxAttempts))
  {
    if crashed {
      StepKeepsSingle(w, Restart, maxAttempts);
    }
  }

  /** The outbox half of a happening: at most one event, then perhaps a restart. */
  ghost function WorldAfter(l: Books, h: Happening, c: Config): World {
    match h
    case Open(e) =>
      if !IsDossier(e) || e.metadata.signalId in l.signals || !Fresh(l.w, e) then l.w
      else Step(l.w, Enqueue(e), c.maxAttempts)
    case Deliver(id, now, reply, indexed) =>
      RestartedIf(!indexed, Step(l.w, Attempt(id, now, reply), c.maxAttempts), c.maxAttempts)
    case Resolve(s, id, createdAt, marked) =>
      if Resolvable(l.index, s).None? || id in l.w.born then l.w
      else
        var e := UpdateEntry(id, s, Resolvable(l.index, s).value, createdAt);
        RestartedIf(!marked, Step(l.w, Enqueue(e), c.maxAttempts), c.maxAttempts)
    case Other(event) =>
      if event.Enqueue? || event.Attempt? then l.w else Step(l.w, event, c.maxAttempts)
  }

  lemma HappenWorld(l: Books, h: Happening, c: Config)
    ensures Happen(l, h, c).w == WorldAfter(l, h, c)
  {
  }

  lemma EventThenRestartKeepsSingle(w: World, event: Event, crashed: bool, maxAttempts: nat)
    requires Single(w) && !event.Compact?
    ensures Single(RestartedIf(crashed, Step(w, event, maxAttempts), maxAttempts))
  {
    StepKeepsSingle(w, event, maxAttempts);
    RestartKeepsSingle(crashed, Step(w, event, maxAttempts), maxAttempts);
  }

  lemma HappenKeepsSingle(l: Books, h: Happening, c: Config)
    requires Single(l.w) && SafeFor(l.w, h)
    ensures Single(Happen(l, h, c).w)
  {
    HappenWorld(l, h, c);
    match h
    case Open(e) => StepKeepsSingle(l.w, Enqueue(e), c.maxAttempts);
    case Deliver(id, now, reply, indexed) =>
      EventThenRestartKeepsSingle(l.w, Attempt(id, now, reply), !indexed, c.maxAttempts);
    case Resolve(s, id, createdAt, marked) =>
      if Resolvable(l.index, s).Some? {
        var e := UpdateEntry(id, s, Resolvable(l.index, s).value, createdAt);
        EventThenRestartKeepsSingle(l.w, Enqueue(e), !marked, c.maxAttempts);
      }
    case Other(event) => StepKeepsSingle(l.w, event, c.maxAttempts);
  }

  lemma CoveredBefore(hs: seq<Happening>, c: Config) returns (before: seq<Happening>, last: Happening)
    requires CompactsCovered(hs, c) && hs != []
    ensures hs == before + [last] && CompactsCovered(before, c) && Story(hs, c) == Happen(Story(before, c), last, c)
    ensures SafeFor(Story(before, c).w, last)
  {
    before, last := hs[..|hs| - 1], hs[|hs| - 1];
    InitAndLast(hs);
    StorySnoc(before, last, c);
    assert SafeAt(hs, |hs| - 1, c);
    forall i | 0 <= i < |before| ensures SafeAt(before, i, c) {
      assert before[..i] == hs[..i] && SafeAt(hs, i, c);
    }
  }

  lemma {:induction false} StoryIsSingle(hs: seq<Happening>, c: Config)
    requires CompactsCovered(hs, c)
    ensures Single(Story(hs, c).w)
    decreases |hs|
  {
    if hs != [] {
      var before, last := CoveredBefore(hs, c);
      StoryIsSingle(before, c);
      HappenKeepsSingle(Story(before, c), last, c);
    }
  }

  /** Updates of one signal, or of two signals whose records coincide, carry one key. */
  lemma UpdateHasItsKey(l: Books, id: nat)
    requires Sound(l) && id in l.w.born && l.w.born[id].op == "update_status"
    ensures var u := l.w.born[id];
            var s := u.metadata.signalId;
            IsUpdate(u) && s in l.landed && u.DedupeKey() == UpdateKeyOf(l.landed[s])
  {
  }

  /** The dedupe key of the update that supersedes a landed record. */
  function UpdateKeyOf(p: Landing): Key { UpdateKey(p.registry, p.recordId, STATUS_SUPERSEDED) }

  /** However often an outcome is reported and wherever the process dies, one update per signal is ever accepted. */
  lemma {:induction false} AtMostOneUpdatePerSignal(hs: seq<Happening>, c: Config)
    requires CompactsCovered(hs, c)
    ensures var born := Story(hs, c).w.born;
            forall i, j :: i in born && j in born
              && born[i].op == "update_status" && born[j].op == "update_status"
              && born[i].metadata.signalId == born[j].metadata.signalId
              ==> i == j
  {
    StoryIsSound(hs, c);
    StoryIsSingle(hs, c);
    var l := Story(hs, c);
    forall i, j | i in l.w.born && j in l.w.born
        && l.w.born[i].op == "update_status" && l.w.born[j].op == "update_status"
        && l.w.born[i].metadata.signalId == l.w.born[j].metadata.signalId
      ensures i == j
    {
      UpdateHasItsKey(l, i);
      UpdateHasItsKey(l, j);
    }
  }
}
