/** What the engine's handlers do is a story, so what every story keeps holds of the running engine. */
module EngineStory {
  import opened Collections
  import opened AnchorBase
  import opened AnchorOutbox
  import opened OutboxRuns
  import opened OutboxService
  import opened AnchorIndexing
  import opened Lifecycle
  import opened EngineLifecycle

  /** Books after more happenings. */
  ghost function Told(l: Books, hs: seq<Happening>, c: Config): Books {
    if hs == [] then l else Happen(Told(l, hs[..|hs| - 1], c), hs[|hs| - 1], c)
  }

  lemma ToldSnoc(l: Books, hs: seq<Happening>, h: Happening, c: Config)
    ensures Told(l, hs + [h], c) == Happen(Told(l, hs, c), h, c)
  {
    assert (hs + [h])[..|hs|] == hs;
  }

  /** A story told further is a story. */
  lemma {:induction false} StoryGoesOn(hs: seq<Happening>, more: seq<Happening>, c: Config)
    ensures Story(hs + more, c) == Told(Story(hs, c), more, c)
    decreases |more|
  {
    if more == [] {
      assert hs + more == hs;
    } else {
      var init, last := more[..|more| - 1], more[|more| - 1];
      StoryGoesOn(hs, init, c);
      StorySnoc(hs + init, last, c);
      InitAndLast(more);
      Reassociate(hs, init, [last]);
    }
  }

  // ── a drain ───────────────────────────────────────────────────────────────

  /** The answer to the i-th entry of a drain, if that entry is still there. */
  function AnswerTo(b: Box, id: nat, i: nat, backend: Backend): Reply {
    if id in b.pending.at then backend(i, b.pending.at[id]) else Unavailable("")
  }

  /** The happenings of a drain: every round, with the hook's row written. */
  function Deliveries(b: Box, ids: seq<nat>, now: real, maxAttempts: nat, backend: Backend): seq<Happening> {
    if ids == [] then []
    else
      var n := |ids| - 1;
      var t := Drained(b, ids[..n], now, maxAttempts, backend);
      Deliveries(b, ids[..n], now, maxAttempts, backend) +
              [Deliver(ids[n], now, AnswerTo(t.box, ids[n], n, backend), true)]
  }

  /** The row of one outcome, if it has one. */
  function HookRows(e: Entry, outcome: Outcome, environment: string): seq<Row> {
    match outcome
    case Anchored(r) => [AnchoredRowOf(e, r, environment)]
    case _ => []
  }

  /** l' is l after the lines, rows and box of one round. */
  ghost predicate After(l: Books, l': Books, b: Box, lines: seq<Line>, rows: seq<Row>) {
    l'.w.box == b && l'.w.log == l.w.log + lines && l'.rows == l.rows + rows && l'.index == LoadMore(l.index, rows)
  }

  lemma AbsentIsIdle(l: Books, id: nat, now: real, reply: Reply, c: Config)
    requires id !in l.w.box.pending.at
    ensures After(l, Happen(l, Deliver(id, now, reply, true), c), l.w.box, [], [])
  {
    assert l.w.log + [] == l.w.log && l.rows + [] == l.rows;
  }

  lemma LandIsAnchored(w: World, id: nat, now: real, reply: Reply, maxAttempts: nat)
    requires id in w.box.pending.at
    ensures var e, m := w.box.pending.at[id], MoveOf(w, Attempt(id, now, reply), maxAttempts);
            var outcome := OutcomeOf(w.box, e, now, reply);
            && (m.Land? <==> outcome.Anchored?)
            && (m.Land? ==> m.entry == e && m.result == outcome.result)
  {
  }

  lemma DeliveryIsARound(l: Books, id: nat, now: real, reply: Reply, c: Config)
    requires id in l.w.box.pending.at
    ensures var e := l.w.box.pending.at[id];
            var effect := AttemptEffect(l.w.box, e, now, c.maxAttempts, reply);
            After(l, Happen(l, Deliver(id, now, reply, true), c), effect.box, effect.lines,
                  HookRows(e, OutcomeOf(l.w.box, e, now, reply), c.environment))
  {
    var e := l.w.box.pending.at[id];
    LandIsAnchored(l.w, id, now, reply, c.maxAttempts);
    var rows := HookRows(e, OutcomeOf(l.w.box, e, now, reply), c.environment);
    if rows == [] {
      assert l.rows + [] == l.rows;
    } else {
      assert LoadMore(l.index, rows) == LoadRow(LoadMore(l.index, []), rows[0]);
    }
  }

  lemma {:induction false} LoadMoreConcat(index: Index, x: seq<Row>, y: seq<Row>)
    ensures LoadMore(index, x + y) == LoadMore(LoadMore(index, x), y)
    decreases |y|
  {
    if y == [] {
      assert x + y == x;
    } else {
      LoadMoreConcat(index, x, y[..|y| - 1]);
      assert (x + y)[..|x + y| - 1] == x + y[..|y| - 1];
    }
  }

  lemma AfterTwo(l: Books, l1: Books, l2: Books, b1: Box, x: seq<Line>, r: seq<Row>, b2: Box, y: seq<Line>, s: seq<Row>)
    requires After(l, l1, b1, x, r) && After(l1, l2, b2, y, s)
    ensures After(l, l2, b2, x + y, r + s)
  {
    Reassociate(l.w.log, x, y);
    Reassociate(l.rows, r, s);
    LoadMoreConcat(l.index, r, s);
  }

  /** One more round of the tally. */
  lemma RoundRows(t: Tally, id: nat, i: nat, now: real, maxAttempts: nat, backend: Backend, environment: string)
    requires id in t.box.pending.at
    ensures var e := t.box.pending.at[id];
            var effect := AttemptEffect(t.box, e, now, maxAttempts, backend(i, e));
            var t' := Round(t, id, i, now, maxAttempts, backend);
            && t'.box == effect.box
            && t'.lines == t.lines + effect.lines
            && RowsOf(t'.anchored, environment)
                 == RowsOf(t.anchored, environment) + HookRows(e, OutcomeOf(t.box, e, now, backend(i, e)), environment)
  {
  }

  ghost predicate Matches(l: Books, l': Books, t: Tally, environment: string) {
    After(l, l', t.box, t.lines, RowsOf(t.anchored, environment))
  }

  lemma RoundIsADelivery(l: Books, l1: Books, t: Tally, id: nat, i: nat, now: real, backend: Backend, c: Config)
    requires Matches(l, l1, t, c.environment)
    ensures Matches(l, Happen(l1, Deliver(id, now, AnswerTo(t.box, id, i, backend), true), c),
                    Round(t, id, i, now, c.maxAttempts, backend), c.environment)
  {
    var reply := AnswerTo(t.box, id, i, backend);
    var l2 := Happen(l1, Deliver(id, now, reply, true), c);
    var rows := RowsOf(t.anchored, c.environment);
    if id in t.box.pending.at {
      var e := t.box.pending.at[id];
      var effect := AttemptEffect(t.box, e, now, c.maxAttempts, reply);
      DeliveryIsARound(l1, id, now, reply, c);
      RoundRows(t, id, i, now, c.maxAttempts, backend, c.environment);
      AfterTwo(l, l1, l2, t.box, t.lines, rows, effect.box, effect.lines,
               HookRows(e, OutcomeOf(t.box, e, now, reply), c.environment));
    } else {
      AbsentIsIdle(l1, id, now, reply, c);
      AfterTwo(l, l1, l2, t.box, t.lines, rows, t.box, [], []);
      assert t.lines + [] == t.lines && rows + [] == rows;
    }
  }

  /**
   * From any sound books, a drain with its hook is a stretch of story: it ends
   * in sound books with the memory, lines, index and rows that DrainOutbox leaves.
   */
  lemma {:induction false} DrainIsAStory(l: Books, ids: seq<nat>, now: real, backend: Backend, c: Config)
    requires Sound(l)
    ensures var t := Drained(l.w.box, ids, now, c.maxAttempts, backend);
            var l' := Told(l, Deliveries(l.w.box, ids, now, c.maxAttempts, backend), c);
            && Sound(l')
            && l'.w.box == t.box && l'.w.log == l.w.log + t.lines
            && l'.rows == l.rows + RowsOf(t.anchored, c.environment)
            && l'.index == LoadMore(l.index, RowsOf(t.anchored, c.environment))
    decreases |ids|
  {
    if ids == [] {
      assert l.w.log + [] == l.w.log && l.rows + [] == l.rows;
    } else {
      var n := |ids| - 1;
      DrainIsAStory(l, ids[..n], now, backend, c);
      var t := Drained(l.w.box, ids[..n], now, c.maxAttempts, backend);
      var init := Deliveries(l.w.box, ids[..n], now, c.maxAttempts, backend);
      var last := Deliver(ids[n], now, AnswerTo(t.box, ids[n], n, backend), true);
      ToldSnoc(l, init, last, c);
      HappenKeepsSound(Told(l, init, c), last, c);
      RoundIsADelivery(l, Told(l, init, c), t, ids[n], n, now, backend, c);
    }
  }

  // ── an outcome ────────────────────────────────────────────────────────────

  lemma EnqueueStep(w: World, e: Entry, maxAttempts: nat)
    requires Fresh(w, e)
    ensures var effect := EnqueueEffect(w.box, e);
            Step(w, Enqueue(e), maxAttempts).box == effect.box
            && Step(w, Enqueue(e), maxAttempts).log == w.log + effect.lines
  {
    assert w.log + [] == w.log;
  }

  /** The outcome handler, called with a fresh id, is the happening that resolves and marks. */
  lemma OutcomeIsAStory(l: Books, signalId: string, id: nat, createdAt: string, c: Config)
    requires Sound(l) && id !in l.w.born
    ensures var a := Resolvable(l.index, signalId);
            var l' := Happen(l, Resolve(signalId, id, createdAt, true), c);
            && Sound(l')
            && (a.None? ==> l' == l)
            && (a.Some? ==>
                  var effect := EnqueueEffect(l.w.box, UpdateEntry(id, signalId, a.value, createdAt));
                  && l'.w.box == effect.box && l'.w.log == l.w.log + effect.lines
                  && l'.index == WithStatus(l.index, signalId, STATUS_SUPERSEDED, "")
                  && l'.rows == l.rows + [StatusRow(signalId, STATUS_SUPERSEDED, "")])
  {
    HappenKeepsSound(l, Resolve(signalId, id, createdAt, true), c);
    if Resolvable(l.index, signalId).Some? {
      var e := UpdateEntry(id, signalId, Resolvable(l.index, signalId).value, createdAt);
      EnqueueStep(l.w, e, c.maxAttempts);
      ResolvedBooks(l, signalId, id, createdAt, true, c, e);
    }
  }
}
