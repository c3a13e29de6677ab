/** The gate pipeline: a loop with two flags, and what it means. */
module Pipeline {
  import opened Collections
  import opened Gates

  /** An answer read as a decision: failing is never consent. */
  function ReadAnswer(gateName: string, answer: Answer): Decision {
    match answer
    case Decided(d) => d
    case Raised(error) => Decision(SUPPRESS, "gate_error:" + gateName, "", error)
    case Junk => Decision(SUPPRESS, "gate_contract:" + gateName, "", "")
  }

  // ── the meaning, without flags ────────────────────────────────────────────

  /** What one gate contributed: nothing, an observation, or a decision. */
  datatype Turn = Skipped | Noted(decision: Decision) | Said(decision: Decision)

  predicate Says(t: Turn, v: Verdict) { t.Said? && t.decision.verdict == v }

  ghost predicate SomeSays(turns: seq<Turn>, v: Verdict) { exists i :: 0 <= i < |turns| && Says(turns[i], v) }

  ghost predicate FirstSays(turns: seq<Turn>, i: int, v: Verdict) {
    0 <= i < |turns| && Says(turns[i], v) && forall j :: 0 <= j < i ==> !Says(turns[j], v)
  }

  ghost predicate LastSays(turns: seq<Turn>, i: int, v: Verdict) {
    0 <= i < |turns| && Says(turns[i], v) && forall j :: i < j < |turns| ==> !Says(turns[j], v)
  }

  /** Some gate suppressed. */
  ghost predicate Bound(turns: seq<Turn>) { SomeSays(turns, SUPPRESS) }

  /** Some gate routed and none suppressed. */
  ghost predicate Routed(turns: seq<Turn>) { SomeSays(turns, ROUTE) && !Bound(turns) }

  /** The gate is not asked, given what was said before it. */
  ghost predicate Skips<D>(g: Gate<D>, before: seq<Turn>) {
    (Routed(before) && !g.runsWhenRouted) || (Bound(before) && g.expensive)
  }

  ghost predicate AnsweredBy<D>(t: Turn, g: Gate<D>, answer: Answer) {
    t == if g.advisory then Noted(ReadAnswer(g.name, answer)) else Said(ReadAnswer(g.name, answer))
  }

  /** One turn: skipped with the derived values untouched, or the gate's own answer. */
  ghost predicate TurnIs<D>(g: Gate<D>, before: seq<Turn>, t: Turn, d: D, d': D) {
    if Skips(g, before) then t == Skipped && d' == d
    else d' == g.evaluate(d).0 && AnsweredBy(t, g, g.evaluate(d).1)
  }

  /**
   * turns is the whole hearing over gates from derived values ds[0]: one turn
   * per gate in order, ended early only by a rejection, which is then the last.
   */
  ghost predicate Hearing<D>(gates: seq<Gate<D>>, turns: seq<Turn>, ds: seq<D>) {
    && |turns| <= |gates|
    && |ds| == |turns| + 1
    && (forall i :: 0 <= i < |turns| ==> TurnIs(gates[i], turns[..i], turns[i], ds[i], ds[i + 1]))
    && (forall i :: 0 <= i < |turns| && Says(turns[i], REJECT) ==> i == |turns| - 1)
  }

  ghost predicate Finished<D>(gates: seq<Gate<D>>, turns: seq<Turn>) {
    |turns| == |gates| || SomeSays(turns, REJECT)
  }

  /** Rejected, else suppressed for the first reason given, else routed the last way named, else allowed. */
  ghost predicate Means(turns: seq<Turn>, action: Verdict, reason: string) {
    match action
    case REJECT => exists i :: FirstSays(turns, i, REJECT) && reason == turns[i].decision.reason
    case SUPPRESS =>
      !SomeSays(turns, REJECT) && exists i :: FirstSays(turns, i, SUPPRESS) && reason == turns[i].decision.reason
    case ROUTE =>
      !SomeSays(turns, REJECT) && !Bound(turns)
      && exists i :: LastSays(turns, i, ROUTE) && reason == turns[i].decision.reason
    case ALLOW =>
      !SomeSays(turns, REJECT) && !Bound(turns) && !SomeSays(turns, ROUTE) && reason == ""
  }

  /** The route kind: the last one named, unless some gate suppressed. */
  ghost predicate MeansKind(turns: seq<Turn>, kind: string) {
    if Routed(turns) then exists i :: LastSays(turns, i, ROUTE) && kind == turns[i].decision.routeKind
    else kind == ""
  }

  /** Only the first suppression binds; a route binds unless something suppressed before it. */
  ghost function StatusOf(before: seq<Turn>, t: Turn): Status {
    match t
    case Skipped => SKIPPED
    case Noted(_) => ADVISORY
    case Said(d) =>
      match d.verdict
      case ALLOW => PASSED
      case REJECT => BINDING
      case _ => if Bound(before) then SHADOW else BINDING
  }

  ghost predicate Records(r: GateResult, name: string, before: seq<Turn>, t: Turn) {
    && r.name == name
    && r.status == StatusOf(before, t)
    && r.verdict == (if t.Skipped? then ALLOW else t.decision.verdict)
    && (!t.Skipped? ==> r.reason == (if Says(t, ALLOW) then "" else t.decision.reason) && r.detail == t.decision.detail)
  }

  /** One result per turn, in order. */
  ghost predicate Recorded<D>(gates: seq<Gate<D>>, turns: seq<Turn>, results: seq<GateResult>) {
    && |results| == |turns| <= |gates|
    && forall i :: 0 <= i < |turns| ==> Records(results[i], gates[i].name, turns[..i], turns[i])
  }

  // ── the loop ──────────────────────────────────────────────────────────────

  /** The loop's variables, after the turns it has heard. */
  ghost predicate Tracks(turns: seq<Turn>, routed: bool, bound: Option<Decision>) {
    && (routed <==> Routed(turns))
    && (bound.Some? <==> Bound(turns))
  }

  lemma SaysNext(turns: seq<Turn>, t: Turn, v: Verdict)
    ensures SomeSays(turns + [t], v) <==> SomeSays(turns, v) || Says(t, v)
    ensures forall i :: FirstSays(turns, i, v) ==> FirstSays(turns + [t], i, v)
    ensures !SomeSays(turns, v) && Says(t, v) ==> FirstSays(turns + [t], |turns|, v)
    ensures forall i :: LastSays(turns, i, v) && !Says(t, v) ==> LastSays(turns + [t], i, v)
    ensures Says(t, v) ==> LastSays(turns + [t], |turns|, v)
  {
    var all := turns + [t];
    assert all[|turns|] == t && forall i :: 0 <= i < |turns| ==> all[i] == turns[i];
    if SomeSays(turns, v) {
      var i :| 0 <= i < |turns| && Says(turns[i], v);
      assert Says(all[i], v);
    }
    if Says(t, v) {
      assert Says(all[|turns|], v);
    }
  }

  /** A turn that decides nothing new leaves the meaning alone. */
  lemma QuietTurn(turns: seq<Turn>, t: Turn, action: Verdict, reason: string, kind: string)
    requires Means(turns, action, reason) && MeansKind(turns, kind)
    requires !Says(t, REJECT) && (Says(t, SUPPRESS) ==> Bound(turns)) && (Says(t, ROUTE) ==> Bound(turns))
    ensures Means(turns + [t], action, reason) && MeansKind(turns + [t], kind)
    ensures Bound(turns + [t]) == Bound(turns) && Routed(turns + [t]) == Routed(turns)
  {
    SaysNext(turns, t, REJECT);
    SaysNext(turns, t, SUPPRESS);
    SaysNext(turns, t, ROUTE);
    match action {
      case REJECT =>
        var i :| FirstSays(turns, i, REJECT) && reason == turns[i].decision.reason;
        assert (turns + [t])[i] == turns[i];
      case SUPPRESS =>
        var i :| FirstSays(turns, i, SUPPRESS) && reason == turns[i].decision.reason;
        assert (turns + [t])[i] == turns[i];
      case ROUTE =>
        var i :| LastSays(turns, i, ROUTE) && reason == turns[i].decision.reason;
        assert (turns + [t])[i] == turns[i];
      case ALLOW =>
    }
    if Routed(turns) {
      var i :| LastSays(turns, i, ROUTE) && kind == turns[i].decision.routeKind;
      assert (turns + [t])[i] == turns[i];
    }
  }

  lemma SuppressingTurn(turns: seq<Turn>, t: Turn)
    requires !Bound(turns) && !SomeSays(turns, REJECT) && Says(t, SUPPRESS)
    ensures Means(turns + [t], SUPPRESS, t.decision.reason) && MeansKind(turns + [t], "")
    ensures Bound(turns + [t]) && !Routed(turns + [t])
  {
    SaysNext(turns, t, REJECT);
    SaysNext(turns, t, SUPPRESS);
    assert (turns + [t])[|turns|] == t;
  }

  lemma RoutingTurn(turns: seq<Turn>, t: Turn)
    requires !Bound(turns) && !SomeSays(turns, REJECT) && Says(t, ROUTE)
    ensures Means(turns + [t], ROUTE, t.decision.reason) && MeansKind(turns + [t], t.decision.routeKind)
    ensures !Bound(turns + [t]) && Routed(turns + [t])
  {
    SaysNext(turns, t, REJECT);
    SaysNext(turns, t, SUPPRESS);
    SaysNext(turns, t, ROUTE);
    assert (turns + [t])[|turns|] == t;
  }

  lemma RejectingTurn(turns: seq<Turn>, t: Turn, kind: string)
    requires !SomeSays(turns, REJECT) && Says(t, REJECT) && MeansKind(turns, kind)
    ensures Means(turns + [t], REJECT, t.decision.reason) && MeansKind(turns + [t], kind)
  {
    SaysNext(turns, t, REJECT);
    SaysNext(turns, t, SUPPRESS);
    SaysNext(turns, t, ROUTE);
    assert (turns + [t])[|turns|] == t;
    if Routed(turns) {
      var i :| LastSays(turns, i, ROUTE) && kind == turns[i].decision.routeKind;
      assert (turns + [t])[i] == turns[i];
    }
  }

  lemma HearingNext<D>(gates: seq<Gate<D>>, turns: seq<Turn>, ds: seq<D>, t: Turn, d: D)
    requires Hearing(gates, turns, ds) && |turns| < |gates| && !SomeSays(turns, REJECT)
    requires TurnIs(gates[|turns|], turns, t, ds[|turns|], d)
    ensures Hearing(gates, turns + [t], ds + [d])
  {
    var turns', ds' := turns + [t], ds + [d];
    forall i | 0 <= i < |turns'| ensures TurnIs(gates[i], turns'[..i], turns'[i], ds'[i], ds'[i + 1]) {
      assert turns'[..i] == turns[..i];
      assert ds'[|turns|] == ds[|turns|] && ds'[|turns| + 1] == d;
      if i < |turns| {
        assert TurnIs(gates[i], turns[..i], turns[i], ds[i], ds[i + 1]);
      } else {
        assert turns[..i] == turns;
      }
    }
    assert forall i :: 0 <= i < |turns| ==> turns'[i] == turns[i] && !Says(turns[i], REJECT);
  }

  lemma RecordedNext<D>(gates: seq<Gate<D>>, turns: seq<Turn>, results: seq<GateResult>, t: Turn, r: GateResult)
    requires Recorded(gates, turns, results) && |turns| < |gates|
    requires Records(r, gates[|turns|].name, turns, t)
    ensures Recorded(gates, turns + [t], results + [r])
  {
    var turns', results' := turns + [t], results + [r];
    forall i | 0 <= i < |turns'| ensures Records(results'[i], gates[i].name, turns'[..i], turns'[i]) {
      assert turns'[..i] == turns[..i];
      assert i == |turns| ==> turns[..i] == turns;
    }
  }

  method Evaluate<D>(g: Gate<D>, ctx: GateContext<D>) returns (decision: Decision)
    modifies ctx
    ensures ctx.derived == g.evaluate(old(ctx.derived)).0
    ensures decision == ReadAnswer(g.name, g.evaluate(old(ctx.derived)).1)
    ensures match g.evaluate(old(ctx.derived)).1
            case Decided(d) => decision == d
            case Raised(error) =>
              decision.verdict == SUPPRESS && decision.reason == "gate_error:" + g.name && decision.detail == error
            case Junk =>
              decision.verdict == SUPPRESS && decision.reason == "gate_contract:" + g.name && decision.detail == ""
  {
    var (derived, answer) := g.evaluate(ctx.derived);
    ctx.derived := derived;
    match answer
    case Decided(d) => decision := d;
    case Raised(error) => decision := Decision(SUPPRESS, "gate_error:" + g.name, "", error);
    case Junk => decision := Decision(SUPPRESS, "gate_contract:" + g.name, "", "");
  }

  /** What a trace says is what its hearing means, recorded gate by gate. */
  ghost predicate Reports<D>(gates: seq<Gate<D>>, turns: seq<Turn>, ds: seq<D>,
                             results: seq<GateResult>, action: Verdict, reason: string, routeKind: string) {
    && Hearing(gates, turns, ds)
    && Recorded(gates, turns, results)
    && Means(turns, action, reason)
    && MeansKind(turns, routeKind)
  }

  lemma ReportsNext<D>(gates: seq<Gate<D>>, turns: seq<Turn>, ds: seq<D>, results: seq<GateResult>,
                       t: Turn, d: D, results': seq<GateResult>)
    requires Hearing(gates, turns, ds) && Recorded(gates, turns, results)
    requires |turns| < |gates| && !SomeSays(turns, REJECT)
    requires TurnIs(gates[|turns|], turns, t, ds[|turns|], d)
    requires |results'| == |results| + 1 && results'[..|results|] == results
    requires Records(results'[|results|], gates[|turns|].name, turns, t)
    ensures Hearing(gates, turns + [t], ds + [d]) && Recorded(gates, turns + [t], results')
    ensures SomeSays(turns + [t], REJECT) <==> Says(t, REJECT)
  {
    SaysNext(turns, t, REJECT);
    RecordedNext(gates, turns, results, t, results'[|results|]);
    HearingNext(gates, turns, ds, t, d);
    assert results + [results'[|results|]] == results';
  }

  /** One pass of the loop body: the gate's turn t, and the flags and trace after it. */
  method Hear<D>(gate: Gate<D>, ctx: GateContext<D>, trace: DecisionTrace, routed: bool, bound: Option<Decision>,
                 ghost turns: seq<Turn>) returns (routed': bool, bound': Option<Decision>, ghost t: Turn)
    requires Tracks(turns, routed, bound) && !SomeSays(turns, REJECT)
    requires Means(turns, trace.action, trace.reason) && MeansKind(turns, trace.routeKind)
    modifies ctx, trace
    ensures TurnIs(gate, turns, t, old(ctx.derived), ctx.derived)
    ensures Means(turns + [t], trace.action, trace.reason) && MeansKind(turns + [t], trace.routeKind)
    ensures |trace.results| == |old(trace.results)| + 1 && trace.results[..|old(trace.results)|] == old(trace.results)
    ensures Records(trace.results[|old(trace.results)|], gate.name, turns, t)
    ensures trace.action == REJECT <==> Says(t, REJECT)
    ensures !Says(t, REJECT) ==> Tracks(turns + [t], routed', bound')
  {
    routed', bound' := routed, bound;
    if routed && !gate.runsWhenRouted {
      t := Skipped;
      QuietTurn(turns, t, trace.action, trace.reason, trace.routeKind);
      Add(trace, GateResult(gate.name, SKIPPED, ALLOW, "skipped: routed to watcher", ""));
      return;
    }
    if bound.Some? && gate.expensive {
      var why := "skipped: already suppressed (" + bound.value.reason + ")";
      t := Skipped;
      QuietTurn(turns, t, trace.action, trace.reason, trace.routeKind);
      Add(trace, GateResult(gate.name, SKIPPED, ALLOW, why, ""));
      return;
    }
    var decision := Evaluate(gate, ctx);
    if gate.advisory {
      t := Noted(decision);
      QuietTurn(turns, t, trace.action, trace.reason, trace.routeKind);
      Add(trace, GateResult(gate.name, ADVISORY, decision.verdict, decision.reason, decision.detail));
      return;
    }
    t := Said(decision);
    match decision.verdict
    case REJECT =>
      RejectingTurn(turns, t, trace.routeKind);
      Add(trace, GateResult(gate.name, BINDING, REJECT, decision.reason, decision.detail));
      trace.action, trace.reason := REJECT, decision.reason;
    case SUPPRESS =>
      var status := if bound.None? then BINDING else SHADOW;
      Add(trace, GateResult(gate.name, status, SUPPRESS, decision.reason, decision.detail));
      if bound.None? {
        SuppressingTurn(turns, t);
        bound', routed' := Some(decision), false;
        trace.action, trace.reason, trace.routeKind := SUPPRESS, decision.reason, "";
      } else {
        QuietTurn(turns, t, trace.action, trace.reason, trace.routeKind);
      }
    case ROUTE =>
      var status := if bound.Some? then SHADOW else BINDING;
      Add(trace, GateResult(gate.name, status, ROUTE, decision.reason, decision.detail));
      if bound.Some? {
        QuietTurn(turns, t, trace.action, trace.reason, trace.routeKind);
      } else {
        RoutingTurn(turns, t);
        routed' := true;
        trace.action, trace.reason, trace.routeKind := ROUTE, decision.reason, decision.routeKind;
      }
    case ALLOW =>
      QuietTurn(turns, t, trace.action, trace.reason, trace.routeKind);
      Add(trace, GateResult(gate.name, PASSED, ALLOW, "", decision.detail));
  }

  method Run<D>(gates: seq<Gate<D>>,
                ctx: GateContext<D>) returns (trace: DecisionTrace, ghost turns: seq<Turn>, ghost ds: seq<D>)
    modifies ctx
    ensures fresh(trace)
    ensures Reports(gates, turns, ds, trace.results, trace.action, trace.reason, trace.routeKind)
    ensures Finished(gates, turns)
    ensures ds[0] == old(ctx.derived) && ds[|ds| - 1] == ctx.derived
  {
    trace := new DecisionTrace();
    var routed := false;
    var bound: Option<Decision> := None;
    turns, ds := [], [ctx.derived];
    var i := 0;
    while i < |gates|
      invariant 0 <= i <= |gates| && |turns| == i && fresh(trace)
      invariant Reports(gates, turns, ds, trace.results, trace.action, trace.reason, trace.routeKind)
      invariant !SomeSays(turns, REJECT) && Tracks(turns, routed, bound)
      invariant ds[0] == old(ctx.derived) && ds[i] == ctx.derived
    {
      ghost var results, t := trace.results, Skipped;
      routed, bound, t := Hear(gates[i], ctx, trace, routed, bound, turns);
      ReportsNext(gates, turns, ds, results, t, ctx.derived, trace.results);
      turns, ds := turns + [t], ds + [ctx.derived];
      i := i + 1;
      if trace.action == REJECT {
        return;
      }
    }
  }

  method Add(trace: DecisionTrace, r: GateResult)
    modifies trace`results
    ensures trace.results == old(trace.results) + [r]
  {
    trace.results := trace.results + [r];
  }

  // ── what every hearing keeps ──────────────────────────────────────────────

  /** The gates and their inputs fix the hearing: there is nothing else to choose. */
  lemma {:induction false} HearingIsDetermined<D>(gates: seq<Gate<D>>, turns: seq<Turn>, ds: seq<D>, turns': seq<Turn>,
                                                  ds': seq<D>)
    requires Hearing(gates, turns, ds) && Hearing(gates, turns', ds') && ds[0] == ds'[0] && |turns| <= |turns'|
    ensures turns == turns'[..|turns|] && ds == ds'[..|ds|]
    ensures Finished(gates, turns) ==> turns == turns'
  {
    if turns != [] {
      var n := |turns| - 1;
      assert Hearing(gates, turns[..n], ds[..n + 1]) by {
        forall i | 0 <= i < n
          ensures TurnIs(gates[i], turns[..n][..i], turns[..n][i], ds[..n + 1][i], ds[..n + 1][i + 1])
        {
          assert turns[..n][..i] == turns[..i];
          assert TurnIs(gates[i], turns[..i], turns[i], ds[i], ds[i + 1]);
        }
      }
      HearingIsDetermined(gates, turns[..n], ds[..n + 1], turns', ds');
      assert turns[..n] == turns'[..n] && ds[n] == ds[..n + 1][n] == ds'[n];
      assert TurnIs(gates[n], turns[..n], turns[n], ds[n], ds[n + 1]);
      assert TurnIs(gates[n], turns'[..n], turns'[n], ds'[n], ds'[n + 1]);
    }
    if SomeSays(turns, REJECT) {
      var i :| 0 <= i < |turns| && Says(turns[i], REJECT);
      assert turns'[..|turns|][i] == turns'[i];
      assert Says(turns'[i], REJECT);
    }
  }

  lemma MeaningIsUnique(turns: seq<Turn>, action: Verdict, reason: string, action': Verdict, reason': string)
    requires Means(turns, action, reason) && Means(turns, action', reason')
    ensures action == action' && reason == reason'
  {
    forall i, j, v | FirstSays(turns, i, v) && FirstSays(turns, j, v) ensures i == j {}
    forall i, j, v | LastSays(turns, i, v) && LastSays(turns, j, v) ensures i == j {}
  }

  /** A run that is not a rejection has one result per gate in order; a rejection ends the results at its own gate. */
  lemma OneResultPerGate<D>(gates: seq<Gate<D>>, turns: seq<Turn>, ds: seq<D>,
                            results: seq<GateResult>, action: Verdict, reason: string, routeKind: string)
    requires Reports(gates, turns, ds, results, action, reason, routeKind) && Finished(gates, turns)
    ensures |results| <= |gates| && forall i :: 0 <= i < |results| ==> results[i].name == gates[i].name
    ensures action != REJECT ==> |results| == |gates|
    ensures action == REJECT <==>
              results != [] && results[|results| - 1].verdict == REJECT && results[|results| - 1].status == BINDING
    ensures forall i ::
              0 <= i < |results| && results[i].verdict == REJECT && results[i].status == BINDING ==> i == |results| - 1
  {
    forall i | 0 <= i < |turns|
      ensures Says(turns[i], REJECT) <==> results[i].verdict == REJECT && results[i].status == BINDING
      ensures results[i].name == gates[i].name
    {
      assert Records(results[i], gates[i].name, turns[..i], turns[i]);
    }
    if results != [] && Says(turns[|turns| - 1], REJECT) {
      assert SomeSays(turns, REJECT);
    }
  }

  /** In the trace itself: a suppression that took effect, and a route that did. */
  ghost predicate BindsAt(results: seq<GateResult>, j: int) {
    0 <= j < |results| && results[j].status == BINDING && results[j].verdict == SUPPRESS
  }

  ghost predicate RoutesAt(results: seq<GateResult>, j: int) {
    0 <= j < |results| && results[j].status == BINDING && results[j].verdict == ROUTE
  }

  lemma FirstOf(turns: seq<Turn>, v: Verdict) returns (i: int)
    requires SomeSays(turns, v)
    ensures FirstSays(turns, i, v)
  {
    i := 0;
    while !Says(turns[i], v)
      invariant 0 <= i < |turns| && forall j :: 0 <= j < i ==> !Says(turns[j], v)
      decreases |turns| - i
    {
      i := i + 1;
    }
  }

  lemma BoundInResults<D>(gates: seq<Gate<D>>, turns: seq<Turn>, results: seq<GateResult>, i: nat)
    requires Recorded(gates, turns, results) && i <= |turns|
    ensures Bound(turns[..i]) <==> exists j :: j < i && BindsAt(results, j)
  {
    if Bound(turns[..i]) {
      var j := FirstOf(turns[..i], SUPPRESS);
      assert turns[..i][..j] == turns[..j] && Says(turns[j], SUPPRESS);
      assert !Bound(turns[..j]);
      assert Records(results[j], gates[j].name, turns[..j], turns[j]);
      assert BindsAt(results, j);
    }
    forall j | j < i && BindsAt(results, j) ensures Bound(turns[..i]) {
      assert Records(results[j], gates[j].name, turns[..j], turns[j]);
      assert Says(turns[..i][j], SUPPRESS);
    }
  }

  lemma BoundGrows(turns: seq<Turn>, j: nat, i: nat)
    requires j <= i <= |turns| && Bound(turns[..j])
    ensures Bound(turns[..i])
  {
    var k :| 0 <= k < j && Says(turns[..j][k], SUPPRESS);
    assert turns[..j][k] == turns[..i][k];
  }

  lemma RoutedInResults<D>(gates: seq<Gate<D>>, turns: seq<Turn>, results: seq<GateResult>, i: nat)
    requires Recorded(gates, turns, results) && i <= |turns|
    ensures Routed(turns[..i]) <==>
                  (exists j :: j < i && RoutesAt(results, j)) && !exists j :: j < i && BindsAt(results, j)
  {
    BoundInResults(gates, turns, results, i);
    if Routed(turns[..i]) {
      var j :| 0 <= j < i && Says(turns[..i][j], ROUTE);
      if Bound(turns[..j]) {
        BoundGrows(turns, j, i);
      }
      assert Says(turns[j], ROUTE) && !Bound(turns[..j]);
      assert Records(results[j], gates[j].name, turns[..j], turns[j]);
      assert RoutesAt(results, j);
    }
    forall j | j < i && RoutesAt(results, j) ensures SomeSays(turns[..i], ROUTE) {
      assert Records(results[j], gates[j].name, turns[..j], turns[j]);
      assert Says(turns[..i][j], ROUTE);
    }
  }

  /**
   * Read off the trace: a gate is skipped exactly when a suppression took effect
   * before it and it is expensive, or a route did, no suppression since, and it
   * does not run when routed.
   */
  lemma SkippedExactlyWhen<D>(gates: seq<Gate<D>>, turns: seq<Turn>, ds: seq<D>, results: seq<GateResult>,
                              action: Verdict, reason: string, routeKind: string, i: nat)
    requires Reports(gates, turns, ds, results, action, reason, routeKind) && i < |results|
    ensures results[i].status == SKIPPED <==>
              || ((exists j :: j < i && BindsAt(results, j)) && gates[i].expensive)
              || ((exists j :: j < i && RoutesAt(results, j)) && !(exists j :: j < i && BindsAt(results, j))
                  && !gates[i].runsWhenRouted)
  {
    assert Records(results[i], gates[i].name, turns[..i], turns[i]);
    assert TurnIs(gates[i], turns[..i], turns[i], ds[i], ds[i + 1]);
    BoundInResults(gates, turns, results, i);
    RoutedInResults(gates, turns, results, i);
  }

  /** The result tells what the gate answered: its own decision, or a suppression that names the failing gate. */
  ghost predicate TellsAnswer(r: GateResult, name: string, advisory: bool, answer: Answer) {
    match answer
    case Decided(d) =>
      && r.verdict == d.verdict && r.detail == d.detail
      && r.reason == (if d.verdict == ALLOW && !advisory then "" else d.reason)
    case Raised(error) => r.verdict == SUPPRESS && r.reason == "gate_error:" + name && r.detail == error
    case Junk => r.verdict == SUPPRESS && r.reason == "gate_contract:" + name && r.detail == ""
  }

  /** Every gate that was asked has its own answer in the trace, and the derived values it left. */
  lemma AnswersAreOnTheTrace<D>(gates: seq<Gate<D>>, turns: seq<Turn>, ds: seq<D>, results: seq<GateResult>,
                                action: Verdict, reason: string, routeKind: string, i: nat)
    requires Reports(gates, turns, ds, results, action, reason, routeKind) && i < |results|
    ensures results[i].status == SKIPPED ==> results[i].verdict == ALLOW && ds[i + 1] == ds[i]
    ensures results[i].status != SKIPPED ==>
              && TellsAnswer(results[i], gates[i].name, gates[i].advisory, gates[i].evaluate(ds[i]).1)
              && (results[i].status == ADVISORY <==> gates[i].advisory)
              && ds[i + 1] == gates[i].evaluate(ds[i]).0
  {
    assert Records(results[i], gates[i].name, turns[..i], turns[i]);
    assert TurnIs(gates[i], turns[..i], turns[i], ds[i], ds[i + 1]);
  }

  /** Gate i was asked, is not advisory, and decided v; failing in either way is deciding to suppress. */
  ghost predicate Decides<D>(gates: seq<Gate<D>>, ds: seq<D>, results: seq<GateResult>, i: int, v: Verdict) {
    && 0 <= i < |results| && i < |gates| && i < |ds|
    && results[i].status != SKIPPED && !gates[i].advisory
    && match gates[i].evaluate(ds[i]).1
       case Decided(d) => d.verdict == v
       case _ => v == SUPPRESS
  }

  ghost predicate SomeDecides<D>(gates: seq<Gate<D>>, ds: seq<D>, results: seq<GateResult>, v: Verdict) {
    exists i :: Decides(gates, ds, results, i, v)
  }

  lemma DecidesIsSays<D>(gates: seq<Gate<D>>, turns: seq<Turn>, ds: seq<D>, results: seq<GateResult>, v: Verdict)
    requires Hearing(gates, turns, ds) && Recorded(gates, turns, results)
    ensures forall i :: 0 <= i < |turns| ==> (Decides(gates, ds, results, i, v) <==> Says(turns[i], v))
    ensures SomeDecides(gates, ds, results, v) <==> SomeSays(turns, v)
  {
    forall i | 0 <= i < |turns| ensures Decides(gates, ds, results, i, v) <==> Says(turns[i], v) {
      assert Records(results[i], gates[i].name, turns[..i], turns[i]);
      assert TurnIs(gates[i], turns[..i], turns[i], ds[i], ds[i + 1]);
    }
    if SomeSays(turns, v) {
      var i :| 0 <= i < |turns| && Says(turns[i], v);
      assert Decides(gates, ds, results, i, v);
    }
    if SomeDecides(gates, ds, results, v) {
      var i :| Decides(gates, ds, results, i, v);
      assert Says(turns[i], v);
    }
  }

  /**
   * The action, from the gates' own answers: rejected if and only if an asked,
   * deciding gate answered with a rejection; else suppressed if and only if one
   * suppressed or failed; else routed if and only if one routed.
   */
  lemma ActionFromAnswers<D>(gates: seq<Gate<D>>, turns: seq<Turn>, ds: seq<D>, results: seq<GateResult>,
                             action: Verdict, reason: string, routeKind: string)
    requires Reports(gates, turns, ds, results, action, reason, routeKind)
    ensures action == REJECT <==> SomeDecides(gates, ds, results, REJECT)
    ensures action == SUPPRESS <==>
              SomeDecides(gates, ds, results, SUPPRESS) && !SomeDecides(gates, ds, results, REJECT)
    ensures action == ROUTE <==>
              && SomeDecides(gates, ds, results, ROUTE)
              && !SomeDecides(gates, ds, results, SUPPRESS) && !SomeDecides(gates, ds, results, REJECT)
  {
    DecidesIsSays(gates, turns, ds, results, REJECT);
    DecidesIsSays(gates, turns, ds, results, SUPPRESS);
    DecidesIsSays(gates, turns, ds, results, ROUTE);
    MeansFrom(turns, action, reason);
  }

  lemma MeansFrom(turns: seq<Turn>, action: Verdict, reason: string)
    requires Means(turns, action, reason)
    ensures action == REJECT <==> SomeSays(turns, REJECT)
    ensures action == SUPPRESS <==> SomeSays(turns, SUPPRESS) && !SomeSays(turns, REJECT)
    ensures action == ROUTE <==> SomeSays(turns, ROUTE) && !SomeSays(turns, SUPPRESS) && !SomeSays(turns, REJECT)
  {
  }

  /** A gate that was asked, may bind, and failed suppresses: no run passes it, and only another's answer rejects. */
  lemma FailureNeverPasses<D>(gates: seq<Gate<D>>, turns: seq<Turn>, ds: seq<D>, results: seq<GateResult>,
                              action: Verdict, reason: string, routeKind: string, i: nat)
    requires Reports(gates, turns, ds, results, action, reason, routeKind) && i < |results|
    requires results[i].status != SKIPPED && !gates[i].advisory && !gates[i].evaluate(ds[i]).1.Decided?
    ensures results[i].verdict == SUPPRESS && results[i].status in {BINDING, SHADOW}
    ensures action == SUPPRESS || action == REJECT
    ensures action == REJECT ==> exists j :: j != i && Decides(gates, ds, results, j, REJECT)
  {
    AnswersAreOnTheTrace(gates, turns, ds, results, action, reason, routeKind, i);
    ActionFromAnswers(gates, turns, ds, results, action, reason, routeKind);
    assert Decides(gates, ds, results, i, SUPPRESS);
    assert Records(results[i], gates[i].name, turns[..i], turns[i]);
    if action == REJECT {
      var j :| Decides(gates, ds, results, j, REJECT);
      assert j != i;
    }
  }

  /** If its suppression is the one that took effect, the run's reason names the failing gate. */
  lemma FailureIsNamed<D>(gates: seq<Gate<D>>, turns: seq<Turn>, ds: seq<D>, results: seq<GateResult>,
                          reason: string, routeKind: string, i: nat)
    requires Reports(gates, turns, ds, results, SUPPRESS, reason, routeKind) && BindsAt(results, i)
    requires !gates[i].evaluate(ds[i]).1.Decided?
    ensures reason == (if gates[i].evaluate(ds[i]).1.Raised? then "gate_error:" else "gate_contract:") + gates[i].name
  {
    AnswersAreOnTheTrace(gates, turns, ds, results, SUPPRESS, reason, routeKind, i);
    var k := ReasonFromAnswers(gates, turns, ds, results, SUPPRESS, reason, routeKind);
    BindOnce(gates, turns, results, k, i);
  }

  lemma BindOnce<D>(gates: seq<Gate<D>>, turns: seq<Turn>, results: seq<GateResult>, i: int, j: int)
    requires Recorded(gates, turns, results) && BindsAt(results, i) && BindsAt(results, j)
    ensures i == j
  {
    assert Records(results[i], gates[i].name, turns[..i], turns[i]);
    assert Records(results[j], gates[j].name, turns[..j], turns[j]);
    if i < j {
      assert Says(turns[..j][i], SUPPRESS);
    } else if j < i {
      assert Says(turns[..i][j], SUPPRESS);
    }
  }

  /** The reason is that of the first gate to decide so, or for a route the last, whose kind is the route kind. */
  lemma ReasonFromAnswers<D>(gates: seq<Gate<D>>, turns: seq<Turn>, ds: seq<D>, results: seq<GateResult>,
                             action: Verdict, reason: string, routeKind: string) returns (i: int)
    requires Reports(gates, turns, ds, results, action, reason, routeKind) && action != ALLOW
    ensures Decides(gates, ds, results, i, action)
    ensures results[i].status == BINDING && results[i].verdict == action && results[i].reason == reason
    ensures action != ROUTE ==> forall j :: Decides(gates, ds, results, j, action) ==> i <= j
    ensures action == ROUTE ==>
              && (forall j :: Decides(gates, ds, results, j, ROUTE) ==> j <= i)
              && gates[i].evaluate(ds[i]).1.decision.routeKind == routeKind
  {
    DecidesIsSays(gates, turns, ds, results, action);
    if action == ROUTE {
      i :| LastSays(turns, i, ROUTE) && reason == turns[i].decision.reason;
      RouteIsLast(turns, i, routeKind, reason);
    } else {
      i :| FirstSays(turns, i, action) && reason == turns[i].decision.reason;
    }
    NotBoundBefore(turns, i, action, reason);
    assert Records(results[i], gates[i].name, turns[..i], turns[i]);
    assert TurnIs(gates[i], turns[..i], turns[i], ds[i], ds[i + 1]);
  }

  /** The route kind, from the answers: the last routing gate's, unless a gate suppressed or failed; else none. */
  lemma KindFromAnswers<D>(gates: seq<Gate<D>>, turns: seq<Turn>, ds: seq<D>, results: seq<GateResult>,
                           action: Verdict, reason: string, routeKind: string)
    requires Reports(gates, turns, ds, results, action, reason, routeKind)
    ensures SomeDecides(gates, ds, results, SUPPRESS) || !SomeDecides(gates, ds, results, ROUTE) ==> routeKind == ""
    ensures SomeDecides(gates, ds, results, ROUTE) && !SomeDecides(gates, ds, results, SUPPRESS) ==>
              exists i :: Decides(gates, ds, results, i, ROUTE)
                && (forall j :: Decides(gates, ds, results, j, ROUTE) ==> j <= i)
                && gates[i].evaluate(ds[i]).1.decision.routeKind == routeKind
  {
    DecidesIsSays(gates, turns, ds, results, ROUTE);
    DecidesIsSays(gates, turns, ds, results, SUPPRESS);
    if Routed(turns) {
      var i :| LastSays(turns, i, ROUTE) && routeKind == turns[i].decision.routeKind;
      assert Records(results[i], gates[i].name, turns[..i], turns[i]);
      assert TurnIs(gates[i], turns[..i], turns[i], ds[i], ds[i + 1]);
      assert Decides(gates, ds, results, i, ROUTE);
    }
  }

  lemma RouteIsLast(turns: seq<Turn>, i: int, kind: string, reason: string)
    requires LastSays(turns, i, ROUTE) && Means(turns, ROUTE, reason) && MeansKind(turns, kind)
    ensures kind == turns[i].decision.routeKind
  {
    var j :| LastSays(turns, j, ROUTE) && kind == turns[j].decision.routeKind;
    assert i == j;
  }

  /** A gate whose decision stood spoke before any suppression did. */
  lemma NotBoundBefore(turns: seq<Turn>, i: int, action: Verdict, reason: string)
    requires Means(turns, action, reason) && 0 <= i < |turns| && Says(turns[i], action)
    requires action == SUPPRESS ==> FirstSays(turns, i, SUPPRESS)
    ensures action in {SUPPRESS, ROUTE} ==> !Bound(turns[..i])
  {
  }

  // ── an advisory gate can be taken out ─────────────────────────────────────

  function Cut<T>(s: seq<T>, k: nat): (r: seq<T>)
    requires k < |s|
    ensures |r| == |s| - 1
    ensures forall i :: 0 <= i < |r| ==> r[i] == s[if i < k then i else i + 1]
  {
    s[..k] + s[k + 1..]
  }

  lemma SaysAfterCut(turns: seq<Turn>, k: nat, v: Verdict)
    requires k < |turns| && !turns[k].Said?
    ensures SomeSays(Cut(turns, k), v) <==> SomeSays(turns, v)
    ensures forall i :: FirstSays(turns, i, v) ==> i != k && FirstSays(Cut(turns, k), if i < k then i else i - 1, v)
    ensures forall i :: LastSays(turns, i, v) ==> i != k && LastSays(Cut(turns, k), if i < k then i else i - 1, v)
  {
    var cut := Cut(turns, k);
    forall i | 0 <= i < |turns| && Says(turns[i], v) ensures SomeSays(cut, v) {
      assert Says(cut[if i < k then i else i - 1], v);
    }
    forall i | 0 <= i < |cut| && Says(cut[i], v) ensures SomeSays(turns, v) {
      assert Says(turns[if i < k then i else i + 1], v);
    }
  }

  lemma KindAfterCut(turns: seq<Turn>, k: nat, kind: string)
    requires k < |turns| && !turns[k].Said? && MeansKind(turns, kind)
    ensures MeansKind(Cut(turns, k), kind)
  {
    SaysAfterCut(turns, k, SUPPRESS);
    SaysAfterCut(turns, k, ROUTE);
    if Routed(turns) {
      var i :| LastSays(turns, i, ROUTE) && kind == turns[i].decision.routeKind;
      var c := if i < k then i else i - 1;
      assert LastSays(Cut(turns, k), c, ROUTE) && Cut(turns, k)[c] == turns[i];
    }
  }

  lemma MeansAfterCut(turns: seq<Turn>, k: nat, action: Verdict, reason: string)
    requires k < |turns| && !turns[k].Said? && Means(turns, action, reason)
    ensures Means(Cut(turns, k), action, reason)
  {
    var cut := Cut(turns, k);
    SaysAfterCut(turns, k, REJECT);
    SaysAfterCut(turns, k, SUPPRESS);
    SaysAfterCut(turns, k, ROUTE);
    if action == ROUTE {
      var i :| LastSays(turns, i, ROUTE) && reason == turns[i].decision.reason;
      var c := if i < k then i else i - 1;
      assert LastSays(cut, c, ROUTE) && cut[c] == turns[i];
    } else if action != ALLOW {
      var i :| FirstSays(turns, i, action) && reason == turns[i].decision.reason;
      var c := if i < k then i else i - 1;
      assert FirstSays(cut, c, action) && cut[c] == turns[i];
    }
  }

  lemma BeforeAfterCut(turns: seq<Turn>, k: nat, i: nat)
    requires k < |turns| && !turns[k].Said? && i <= |turns| - 1
    ensures var before := turns[..if i <= k then i else i + 1];
            Bound(Cut(turns, k)[..i]) == Bound(before) && Routed(Cut(turns, k)[..i]) == Routed(before)
  {
    if i <= k {
      assert Cut(turns, k)[..i] == turns[..i];
    } else {
      assert Cut(turns, k)[..i] == Cut(turns[..i + 1], k);
      SaysAfterCut(turns[..i + 1], k, SUPPRESS);
      SaysAfterCut(turns[..i + 1], k, ROUTE);
    }
  }

  lemma HearingAfterCut<D>(gates: seq<Gate<D>>, turns: seq<Turn>, ds: seq<D>, k: nat)
    requires Hearing(gates, turns, ds) && k < |turns| && gates[k].advisory && ds[k + 1] == ds[k]
    ensures Hearing(Cut(gates, k), Cut(turns, k), Cut(ds, k)) && !turns[k].Said?
    ensures Finished(gates, turns) ==> Finished(Cut(gates, k), Cut(turns, k))
  {
    assert TurnIs(gates[k], turns[..k], turns[k], ds[k], ds[k + 1]);
    forall i | 0 <= i < |turns| - 1
      ensures TurnIs(Cut(gates, k)[i], Cut(turns, k)[..i], Cut(turns, k)[i], Cut(ds, k)[i], Cut(ds, k)[i + 1])
    {
      var j := if i < k then i else i + 1;
      assert TurnIs(gates[j], turns[..j], turns[j], ds[j], ds[j + 1]);
      BeforeAfterCut(turns, k, i);
      if i == k {
        assert turns[..k + 1] == turns[..k] + [turns[k]];
        SaysNext(turns[..k], turns[k], SUPPRESS);
        SaysNext(turns[..k], turns[k], ROUTE);
      }
    }
    forall i | 0 <= i < |turns| - 1 && Says(Cut(turns, k)[i], REJECT) ensures i == |turns| - 2 {
      assert Says(turns[if i < k then i else i + 1], REJECT);
    }
    SaysAfterCut(turns, k, REJECT);
  }

  /**
   * Non-interference: taking out an advisory gate that leaves the derived values
   * alone leaves the same action, reason and route kind, and the same results
   * but its own.
   */
  lemma AdvisoryGateIsInert<D>(gates: seq<Gate<D>>, turns: seq<Turn>, ds: seq<D>, results: seq<GateResult>,
                               action: Verdict, reason: string, routeKind: string, k: nat)
    requires Reports(gates, turns, ds, results, action, reason, routeKind) && Finished(gates, turns)
    requires k < |results| && gates[k].advisory && ds[k + 1] == ds[k]
    ensures Reports(Cut(gates, k), Cut(turns, k), Cut(ds, k), Cut(results, k), action, reason, routeKind)
    ensures Finished(Cut(gates, k), Cut(turns, k))
  {
    HearingAfterCut(gates, turns, ds, k);
    MeansAfterCut(turns, k, action, reason);
    KindAfterCut(turns, k, routeKind);
    RecordedAfterCut(gates, turns, results, k);
  }

  lemma RecordedAfterCut<D>(gates: seq<Gate<D>>, turns: seq<Turn>, results: seq<GateResult>, k: nat)
    requires Recorded(gates, turns, results) && k < |turns| && !turns[k].Said?
    ensures Recorded(Cut(gates, k), Cut(turns, k), Cut(results, k))
  {
    forall i | 0 <= i < |turns| - 1
      ensures Records(Cut(results, k)[i], Cut(gates, k)[i].name, Cut(turns, k)[..i], Cut(turns, k)[i])
    {
      RecordAfterCut(gates, turns, results, k, i);
    }
  }

  lemma RecordAfterCut<D>(gates: seq<Gate<D>>, turns: seq<Turn>, results: seq<GateResult>, k: nat, i: nat)
    requires Recorded(gates, turns, results) && k < |turns| && !turns[k].Said? && i < |turns| - 1
    ensures Records(Cut(results, k)[i], Cut(gates, k)[i].name, Cut(turns, k)[..i], Cut(turns, k)[i])
  {
    var j := if i < k then i else i + 1;
    assert Records(results[j], gates[j].name, turns[..j], turns[j]);
    BeforeAfterCut(turns, k, i);
    if i == k {
      assert turns[..k + 1] == turns[..k] + [turns[k]];
      SaysNext(turns[..k], turns[k], SUPPRESS);
    }
  }
}
