/** Reading a published record back by the names of its elements: every fact is found where it was put. */
module RecordReading {
  import opened Collections
  import opened Dgml
  import opened DecisionRecord

  // ── a reader that knows names only ────────────────────────────────────────

  /** The first element with this tag. */
  function Child(s: seq<Element>, tag: string): Option<Element> {
    if s == [] then None else if s[0].tag == tag then Some(s[0]) else Child(s[1..], tag)
  }

  /** The type and the machine form that a value element states; none if it is null or states none. */
  function Stated(e: Element): Option<(string, string)> {
    if Attr("type") in e.attrs && Attr("value") in e.attrs then Some((e.attrs[Attr("type")], e.attrs[Attr("value")]))
    else None
  }

  function Read(s: seq<Element>, tag: string): Option<(string, string)> {
    var child := Child(s, tag);
    if child.Some? then Stated(child.value) else None
  }

  function ReadIn(root: Element, section: string, tag: string): Option<(string, string)> {
    var e := Child(root.children, section);
    if e.Some? then Read(e.value.children, tag) else None
  }

  /** A value of this type, or none. */
  function As(kind: string, raw: Option<string>): Option<(string, string)> {
    if raw.Some? then Some((kind, raw.value)) else None
  }

  lemma {:induction false} ChildAt(s: seq<Element>, i: nat, tag: string)
    requires i < |s| && s[i].tag == tag && forall j :: 0 <= j < i ==> s[j].tag != tag
    ensures Child(s, tag) == Some(s[i])
  {
    if i > 0 {
      ChildAt(s[1..], i - 1, tag);
    }
  }

  lemma {:induction false} ChildAbsent(s: seq<Element>, tag: string)
    requires forall j :: 0 <= j < |s| ==> s[j].tag != tag
    ensures Child(s, tag) == None
  {
    if s != [] {
      ChildAbsent(s[1..], tag);
    }
  }

  lemma ReadAt(s: seq<Element>, i: nat, tag: string)
    requires i < |s| && s[i].tag == tag && forall j :: 0 <= j < i ==> s[j].tag != tag
    ensures Read(s, tag) == Stated(s[i])
  {
    ChildAt(s, i, tag);
  }

  // ── the sections of a record ──────────────────────────────────────────────

  predicate Distinct(words: seq<string>) { forall i, j :: 0 <= i < j < |words| ==> words[i] != words[j] }

  const SECTIONS := ["Identity", "Proof", "Versions", "Thesis", "Decision", "Execution", "Outcome"]

  lemma SectionNamesDiffer()
    ensures Distinct(SECTIONS)
  {
  }

  /** The elements in this order, the last two only if they are there. */
  ghost predicate InOrder(s: seq<Element>, parts: seq<Element>, x: Option<Element>, o: Option<Element>) {
    && |parts| == 5
    && s == parts + (if x.Some? then [x.value] else []) + (if o.Some? then [o.value] else [])
  }

  ghost predicate Tagged(parts: seq<Element>, x: Option<Element>, o: Option<Element>, words: seq<string>) {
    && |parts| == 5 && |words| == 7
    && (forall i :: 0 <= i < 5 ==> parts[i].tag == words[i])
    && (x.Some? ==> x.value.tag == words[5]) && (o.Some? ==> o.value.tag == words[6])
  }

  lemma FoundInOrder(s: seq<Element>, parts: seq<Element>, x: Option<Element>, o: Option<Element>, words: seq<string>)
    requires InOrder(s, parts, x, o) && Tagged(parts, x, o, words) && Distinct(words)
    ensures forall i :: 0 <= i < 5 ==> Child(s, words[i]) == Some(parts[i])
    ensures Child(s, words[5]) == x && Child(s, words[6]) == o
  {
    forall i | 0 <= i < 5 ensures Child(s, words[i]) == Some(parts[i]) {
      ChildAt(s, i, words[i]);
    }
    if x.Some? {
      ChildAt(s, 5, words[5]);
    } else {
      ChildAbsent(s, words[5]);
    }
    if o.Some? {
      ChildAt(s, |s| - 1, words[6]);
    } else {
      ChildAbsent(s, words[6]);
    }
  }

  function ThesisOf(d: Digest, f: Facts): Element { Sealed(d, Thesis(f.signalId, f.thesis)) }

  function ExecutionOf(f: Facts): Option<Element> { if f.execution.Some? then Some(Middle(f)[1]) else None }

  function OutcomeOf(d: Digest, f: Facts): Option<Element> {
    if f.outcome.Some? then Some(Sealed(d, Settlement(f.signalId, f.outcome.value))) else None
  }

  lemma PartsInOrder(d: Digest, f: Facts)
    ensures InOrder(Record(d, f).children, Preamble(f) + [ThesisOf(d, f)] + [Decided(f)],
                    ExecutionOf(f), OutcomeOf(d, f))
  {
    SealedLayout(d, LayoutOf(f));
    MiddleParts(f);
    EndingParts(d, f);
    Reassociate(Preamble(f) + [ThesisOf(d, f)], [Decided(f)], Tail(ExecutionOf(f)));
  }

  function Tail(x: Option<Element>): seq<Element> { if x.Some? then [x.value] else [] }

  lemma MiddleParts(f: Facts)
    ensures Middle(f) == [Decided(f)] + Tail(ExecutionOf(f))
  {
  }

  lemma EndingParts(d: Digest, f: Facts)
    ensures SealedParts(d, Ending(f)) == Tail(OutcomeOf(d, f))
  {
  }

  lemma PreambleTags(f: Facts)
    ensures |Preamble(f)| == 3
    ensures Preamble(f)[0].tag == "Identity" && Preamble(f)[1].tag == "Proof" && Preamble(f)[2].tag == "Versions"
  {
  }

  lemma SealedKeeps(d: Digest, e: Element)
    requires Claim(e)
    ensures Sealed(d, e).tag == e.tag && Sealed(d, e).children == e.children
    ensures forall name :: name != Hash ==>
              (name in Sealed(d, e).attrs <==> name in e.attrs)
              && (name in e.attrs ==> Sealed(d, e).attrs[name] == e.attrs[name])
  {
    SealedClaimIsPlainInside(d, e);
  }

  lemma ThesisTag(d: Digest, f: Facts)
    ensures ThesisOf(d, f).tag == "Thesis"
  {
    SealedKeeps(d, Thesis(f.signalId, f.thesis));
  }

  lemma OutcomeTag(d: Digest, f: Facts)
    ensures OutcomeOf(d, f).Some? ==> OutcomeOf(d, f).value.tag == "Outcome"
  {
    if f.outcome.Some? {
      SealedKeeps(d, Settlement(f.signalId, f.outcome.value));
    }
  }

  lemma MiddleTags(f: Facts)
    ensures Decided(f).tag == "Decision" && (ExecutionOf(f).Some? ==> ExecutionOf(f).value.tag == "Execution")
  {
  }

  lemma TaggedBy(before: seq<Element>, claim: Element, decision: Element, x: Option<Element>, o: Option<Element>)
    requires |before| == 3
    requires before[0].tag == "Identity" && before[1].tag == "Proof" && before[2].tag == "Versions"
    requires claim.tag == "Thesis" && decision.tag == "Decision"
    requires (x.Some? ==> x.value.tag == "Execution") && (o.Some? ==> o.value.tag == "Outcome")
    ensures Tagged(before + [claim] + [decision], x, o, SECTIONS)
  {
  }

  /** Every section is found under its name, sealed or not, and an execution or outcome only if there was one. */
  lemma SectionsAreFound(d: Digest, f: Facts)
    ensures var s := Record(d, f).children;
            && Child(s, "Identity") == Some(Preamble(f)[0])
            && Child(s, "Proof") == Some(Preamble(f)[1])
            && Child(s, "Versions") == Some(Preamble(f)[2])
            && Child(s, "Thesis") == Some(ThesisOf(d, f))
            && Child(s, "Decision") == Some(Decided(f))
            && Child(s, "Execution") == ExecutionOf(f)
            && Child(s, "Outcome") == OutcomeOf(d, f)
  {
    PreambleTags(f);
    ThesisTag(d, f);
    MiddleTags(f);
    OutcomeTag(d, f);
    TaggedBy(Preamble(f), ThesisOf(d, f), Decided(f), ExecutionOf(f), OutcomeOf(d, f));
    PartsInOrder(d, f);
    SectionNamesDiffer();
    FoundByName(Record(d, f).children, Preamble(f), ThesisOf(d, f), Decided(f), ExecutionOf(f), OutcomeOf(d, f));
  }

  lemma FoundByName(s: seq<Element>, before: seq<Element>, claim: Element, decision: Element, x: Option<Element>,
                    o: Option<Element>)
    requires |before| == 3 && InOrder(s, before + [claim] + [decision], x, o)
    requires Tagged(before + [claim] + [decision], x, o, SECTIONS) && Distinct(SECTIONS)
    ensures && Child(s, "Identity") == Some(before[0])
            && Child(s, "Proof") == Some(before[1])
            && Child(s, "Versions") == Some(before[2])
            && Child(s, "Thesis") == Some(claim)
            && Child(s, "Decision") == Some(decision)
            && Child(s, "Execution") == x
            && Child(s, "Outcome") == o
  {
    FoundInOrder(s, before + [claim] + [decision], x, o, SECTIONS);
    assert forall i :: 0 <= i < 5 ==> Child(s, SECTIONS[i]) == Some((before + [claim] + [decision])[i]);
    assert SECTIONS[0] == "Identity" && SECTIONS[1] == "Proof" && SECTIONS[2] == "Versions" && SECTIONS[3] == "Thesis";
    assert SECTIONS[4] == "Decision" && SECTIONS[5] == "Execution" && SECTIONS[6] == "Outcome";
  }

  // ── what each section says ────────────────────────────────────────────────

  lemma IdentityReads(f: Facts)
    ensures var s := Preamble(f)[0].children;
            && Read(s, "SignalId") == Some(("string", f.signalId))
            && Read(s, "EmittedAt") == Some(("dateTime", f.emittedAt))
            && Read(s, "Agent") == Some(("string", f.agent))
  {
    ThreeRead(Preamble(f)[0].children, "SignalId", "EmittedAt", "Agent");
  }

  lemma ThreeRead(s: seq<Element>, a: string, b: string, c: string)
    requires |s| >= 3 && s[0].tag == a && s[1].tag == b && s[2].tag == c && a != b && a != c && b != c
    ensures Read(s, a) == Stated(s[0]) && Read(s, b) == Stated(s[1]) && Read(s, c) == Stated(s[2])
  {
    ReadAt(s, 0, a);
    ReadAt(s, 1, b);
    ReadAt(s, 2, c);
  }

  lemma ProofReads(f: Facts)
    ensures var s := Preamble(f)[1].children;
            && Read(s, "OriginHash") == Some(("string", f.origin))
            && Read(s, "ProcessHash") == Some(("string", f.process))
            && Read(s, "StateHash") == Some(("string", f.state))
  {
    ThreeRead(Preamble(f)[1].children, "OriginHash", "ProcessHash", "StateHash");
  }

  lemma VersionsRead(f: Facts)
    ensures var s := Preamble(f)[2].children;
            && Read(s, "PolicyVersion") == Some(("string", f.policyVersion))
            && Read(s, "DashboardVersion") == Some(("string", f.dashboardVersion))
            && Read(s, "CodeVersion") == Some(("string", f.codeVersion))
  {
    ThreeRead(Preamble(f)[2].children, "PolicyVersion", "DashboardVersion", "CodeVersion");
  }

  lemma {:induction false} ClaimAbsent(thesis: map<string, string>, fields: seq<(string, string, string)>, name: string)
    requires forall i :: 0 <= i < |fields| ==> fields[i].0 != name
    ensures Child(Claims(thesis, fields), name) == None
  {
    if fields != [] {
      ClaimAbsent(thesis, fields[1..], name);
      ClaimsNext(thesis, fields, name);
    }
  }

  lemma ClaimsNext(thesis: map<string, string>, fields: seq<(string, string, string)>, name: string)
    requires fields != []
    ensures var (first, key, kind) := fields[0];
            Child(Claims(thesis, fields), name) ==
            if first == name && key in thesis then Some(Typed(first, thesis[key], kind))
            else Child(Claims(thesis, fields[1..]), name)
  {
    var (first, key, kind) := fields[0];
    if key in thesis {
      assert Claims(thesis, fields)[1..] == Claims(thesis, fields[1..]);
    } else {
      assert Claims(thesis, fields) == Claims(thesis, fields[1..]);
    }
  }

  /** Each claimed field is read back under its own name, with its type, and is absent when the thesis lacks it. */
  lemma {:induction false} ClaimReads(thesis: map<string, string>, fields: seq<(string, string, string)>, i: nat)
    requires i < |fields| && forall j, k :: 0 <= j < k < |fields| ==> fields[j].0 != fields[k].0
    ensures Read(Claims(thesis, fields), fields[i].0) == As(fields[i].2, Said(thesis, fields[i].1))
  {
    ClaimsNext(thesis, fields, fields[i].0);
    if i == 0 {
      ClaimAbsent(thesis, fields[1..], fields[0].0);
    } else {
      ClaimReads(thesis, fields[1..], i - 1);
    }
  }

  lemma ClaimNamesDiffer()
    ensures |CLAIMS| == 9 && forall j, k :: 0 <= j < k < |CLAIMS| ==> CLAIMS[j].0 != CLAIMS[k].0
  {
  }

  lemma ThesisReads(signalId: string, thesis: map<string, string>)
    ensures var s := Thesis(signalId, thesis).children;
            && Read(s, "Direction") == As("string", Said(thesis, "direction"))
            && Read(s, "Timeframe") == As("string", Said(thesis, "timeframe"))
            && Read(s, "EntryPrice") == As("decimal", Said(thesis, "entry_price"))
            && Read(s, "Target") == As("decimal", Said(thesis, "target"))
            && Read(s, "Stop") == As("decimal", Said(thesis, "stop"))
            && Read(s, "StopDistance") == As("integer", Said(thesis, "stop_pts"))
            && Read(s, "RiskReward") == As("decimal", Said(thesis, "risk_reward"))
            && Read(s, "Action") == As("string", Said(thesis, "action"))
            && Read(s, "RouteKind") == As("string", Said(thesis, "route_kind"))
  {
    ClaimNamesDiffer();
    forall i: nat | i < 9
      ensures Read(Claims(thesis, CLAIMS), CLAIMS[i].0) == As(CLAIMS[i].2, Said(thesis, CLAIMS[i].1))
    {
      ClaimReads(thesis, CLAIMS, i);
    }
    assert CLAIMS[0] == ("Direction", "direction", "string") && CLAIMS[1] == ("Timeframe", "timeframe", "string");
    assert CLAIMS[2] == ("EntryPrice", "entry_price", "decimal") && CLAIMS[3] == ("Target", "target", "decimal");
    assert CLAIMS[4] == ("Stop", "stop", "decimal") && CLAIMS[5] == ("StopDistance", "stop_pts", "integer");
    assert CLAIMS[6] == ("RiskReward", "risk_reward", "decimal") && CLAIMS[7] == ("Action", "action", "string");
    assert CLAIMS[8] == ("RouteKind", "route_kind", "string");
  }

  /** One gate's verdict: its name as an attribute, its reason only if it gave one. */
  ghost predicate TellsGate(e: Element, gate: GateLine) {
    && Attr("name") in e.attrs && e.attrs[Attr("name")] == gate.name
    && Read(e.children, "Status") == Some(("string", gate.status))
    && Read(e.children, "Verdict") == Some(("string", gate.verdict))
    && Read(e.children, "Reason") == As("string", gate.reason)
  }

  lemma GateReads(gate: GateLine)
    ensures TellsGate(GateVerdict(gate), gate)
  {
    var s := GateVerdict(gate).children;
    ReadAt(s, 0, "Status");
    ReadAt(s, 1, "Verdict");
    if gate.reason.Some? {
      ReadAt(s, 2, "Reason");
    } else {
      ChildAbsent(s, "Reason");
    }
  }

  lemma DecisionReads(f: Facts)
    ensures var s := Decided(f).children;
            && Read(s, "Action") == Some(("string", f.action))
            && Read(s, "Reason") == Some(("string", f.reason))
            && Read(s, "BoundAt") == Some(("string", f.boundAt))
  {
    ThreeRead(Decided(f).children, "Action", "Reason", "BoundAt");
  }

  /** Every gate has its verdict, those that did not bind included, in the order in which the gates were heard. */
  lemma GatesRead(f: Facts)
    ensures var gates := Child(Decided(f).children, "GateVerdicts");
            && gates.Some? && |gates.value.children| == |f.gates|
            && forall i :: 0 <= i < |f.gates| ==> TellsGate(gates.value.children[i], f.gates[i])
  {
    ChildAt(Decided(f).children, 3, "GateVerdicts");
    forall i | 0 <= i < |f.gates| ensures TellsGate(GateVerdict(f.gates[i]), f.gates[i]) {
      GateReads(f.gates[i]);
    }
  }

  lemma ExecutionReads(f: Facts)
    requires f.execution.Some?
    ensures var s, x := ExecutionOf(f).value.children, f.execution.value;
            && Read(s, "Ticket") == As("integer", x.ticket)
            && Read(s, "Side") == Some(("string", x.side))
            && Read(s, "FillPrice") == As("decimal", x.price)
  {
    ThreeRead(ExecutionOf(f).value.children, "Ticket", "Side", "FillPrice");
  }

  lemma OutcomeReads(signalId: string, o: Outcome)
    ensures var s := Settlement(signalId, o).children;
            && Read(s, "Result") == Some(("string", o.result))
            && Read(s, "DirectionCorrect") == Some(("boolean", if o.correct then "true" else "false"))
            && Read(s, "NetPoints") == As("decimal", o.netPts)
            && Read(s, "ClosePoints") == As("decimal", o.closePts)
  {
    FourRead(Settlement(signalId, o).children, "Result", "DirectionCorrect", "NetPoints", "ClosePoints");
  }

  /** The same behind a first element with another name. */
  lemma FourRead(s: seq<Element>, a: string, b: string, c: string, e: string)
    requires |s| == 5 && s[1].tag == a && s[2].tag == b && s[3].tag == c && s[4].tag == e
    requires Distinct([s[0].tag, a, b, c, e])
    ensures Read(s, a) == Stated(s[1]) && Read(s, b) == Stated(s[2]) && Read(s, c) == Stated(s[3])
    ensures Read(s, e) == Stated(s[4])
  {
    var words := [s[0].tag, a, b, c, e];
    assert forall i :: 0 <= i < 5 ==> s[i].tag == words[i];
    ReadAt(s, 1, words[1]);
    ReadAt(s, 2, words[2]);
    ReadAt(s, 3, words[3]);
    ReadAt(s, 4, words[4]);
  }

  // ── the whole record ──────────────────────────────────────────────────────

  /** Who, when, what it was derived from, and under which versions. */
  ghost predicate TellsOrigin(root: Element, f: Facts) {
    && ReadIn(root, "Identity", "SignalId") == Some(("string", f.signalId))
    && ReadIn(root, "Identity", "EmittedAt") == Some(("dateTime", f.emittedAt))
    && ReadIn(root, "Identity", "Agent") == Some(("string", f.agent))
    && ReadIn(root, "Proof", "OriginHash") == Some(("string", f.origin))
    && ReadIn(root, "Proof", "ProcessHash") == Some(("string", f.process))
    && ReadIn(root, "Proof", "StateHash") == Some(("string", f.state))
    && ReadIn(root, "Versions", "PolicyVersion") == Some(("string", f.policyVersion))
    && ReadIn(root, "Versions", "DashboardVersion") == Some(("string", f.dashboardVersion))
    && ReadIn(root, "Versions", "CodeVersion") == Some(("string", f.codeVersion))
  }

  /** The nine fields of the claim, each under its own name and only if the thesis has it. */
  ghost predicate TellsThesis(root: Element, thesis: map<string, string>) {
    && ReadIn(root, "Thesis", "Direction") == As("string", Said(thesis, "direction"))
    && ReadIn(root, "Thesis", "Timeframe") == As("string", Said(thesis, "timeframe"))
    && ReadIn(root, "Thesis", "EntryPrice") == As("decimal", Said(thesis, "entry_price"))
    && ReadIn(root, "Thesis", "Target") == As("decimal", Said(thesis, "target"))
    && ReadIn(root, "Thesis", "Stop") == As("decimal", Said(thesis, "stop"))
    && ReadIn(root, "Thesis", "StopDistance") == As("integer", Said(thesis, "stop_pts"))
    && ReadIn(root, "Thesis", "RiskReward") == As("decimal", Said(thesis, "risk_reward"))
    && ReadIn(root, "Thesis", "Action") == As("string", Said(thesis, "action"))
    && ReadIn(root, "Thesis", "RouteKind") == As("string", Said(thesis, "route_kind"))
  }

  /** The decision, with every gate's verdict in order, and the execution if there was one. */
  ghost predicate TellsDecision(root: Element, f: Facts) {
    && ReadIn(root, "Decision", "Action") == Some(("string", f.action))
    && ReadIn(root, "Decision", "Reason") == Some(("string", f.reason))
    && ReadIn(root, "Decision", "BoundAt") == Some(("string", f.boundAt))
    && var decision := Child(root.children, "Decision");
    && decision.Some?
    && var gates := Child(decision.value.children, "GateVerdicts");
    && gates.Some? && |gates.value.children| == |f.gates|
    && forall i :: 0 <= i < |f.gates| ==> TellsGate(gates.value.children[i], f.gates[i])
  }

  ghost predicate TellsExecution(root: Element, execution: Option<Execution>) {
    match execution
    case None => Child(root.children, "Execution") == None
    case Some(x) =>
      && ReadIn(root, "Execution", "Ticket") == As("integer", x.ticket)
      && ReadIn(root, "Execution", "Side") == Some(("string", x.side))
      && ReadIn(root, "Execution", "FillPrice") == As("decimal", x.price)
  }

  ghost predicate TellsOutcome(root: Element, outcome: Option<Outcome>) {
    match outcome
    case None => Child(root.children, "Outcome") == None
    case Some(o) =>
      && ReadIn(root, "Outcome", "Result") == Some(("string", o.result))
      && ReadIn(root, "Outcome", "DirectionCorrect") == Some(("boolean", if o.correct then "true" else "false"))
      && ReadIn(root, "Outcome", "NetPoints") == As("decimal", o.netPts)
      && ReadIn(root, "Outcome", "ClosePoints") == As("decimal", o.closePts)
  }

  /** A published record read back by names gives every fact that it was built from, under that fact's own name. */
  lemma RecordReadsBack(d: Digest, f: Facts)
    ensures TellsOrigin(Record(d, f), f) && TellsThesis(Record(d, f), f.thesis) && TellsDecision(Record(d, f), f)
    ensures TellsExecution(Record(d, f), f.execution) && TellsOutcome(Record(d, f), f.outcome)
  {
    OriginReadsBack(d, f);
    ThesisReadsBack(d, f);
    DecisionReadsBack(d, f);
    ExecutionReadsBack(d, f);
    OutcomeReadsBack(d, f);
  }

  /** The document names its schema and version, bears the signal's id and says that it was never a page. */
  lemma HeadingReads(d: Digest, f: Facts)
    ensures var attrs := Record(d, f).attrs;
            && Lookup(attrs, Attr("schema")) == "afritensor/decisions"
            && Lookup(attrs, Attr("schemaVersion")) == "1.0.0-draft"
            && Lookup(attrs, Id) == f.signalId && Lookup(attrs, Attr("bornDigital")) == "true"
  {
    SealKeepsAttributes(d, Assembled(LayoutOf(f)));
    HeadingSays(f.signalId);
  }

  lemma SealKeepsAttributes(d: Digest, e: Element)
    ensures forall name :: name != Hash ==> Lookup(Sealed(d, e).attrs, name) == Lookup(e.attrs, name)
  {
  }

  lemma HeadingSays(signalId: string)
    ensures var attrs := Heading(signalId);
            && Lookup(attrs, Attr("schema")) == "afritensor/decisions"
            && Lookup(attrs, Attr("schemaVersion")) == "1.0.0-draft"
            && Lookup(attrs, Id) == signalId && Lookup(attrs, Attr("bornDigital")) == "true"
  {
  }

  lemma OriginReadsBack(d: Digest, f: Facts)
    ensures TellsOrigin(Record(d, f), f)
  {
    SectionsAreFound(d, f);
    IdentityReads(f);
    ProofReads(f);
    VersionsRead(f);
  }

  lemma ThesisReadsBack(d: Digest, f: Facts)
    ensures TellsThesis(Record(d, f), f.thesis)
  {
    SectionsAreFound(d, f);
    SealedKeeps(d, Thesis(f.signalId, f.thesis));
    ThesisReads(f.signalId, f.thesis);
  }

  lemma DecisionReadsBack(d: Digest, f: Facts)
    ensures TellsDecision(Record(d, f), f)
  {
    SectionsAreFound(d, f);
    DecisionReads(f);
    GatesRead(f);
  }

  lemma ExecutionReadsBack(d: Digest, f: Facts)
    ensures TellsExecution(Record(d, f), f.execution)
  {
    SectionsAreFound(d, f);
    if f.execution.Some? {
      ExecutionReads(f);
    }
  }

  lemma OutcomeReadsBack(d: Digest, f: Facts)
    ensures TellsOutcome(Record(d, f), f.outcome)
  {
    SectionsAreFound(d, f);
    if f.outcome.Some? {
      OutcomeSectionTells(Record(d, f), d, f.signalId, f.outcome.value);
    }
  }

  lemma OutcomeSectionTells(root: Element, d: Digest, signalId: string, o: Outcome)
    requires Child(root.children, "Outcome") == Some(Sealed(d, Settlement(signalId, o)))
    ensures TellsOutcome(root, Some(o))
  {
    SealedKeeps(d, Settlement(signalId, o));
    OutcomeReads(signalId, o);
  }

  /** The outcome has an id of its own and points at the thesis that it settles, by that element's very id. */
  lemma OutcomePointsAtItsThesis(d: Digest, f: Facts)
    requires f.outcome.Some?
    ensures var outcome, thesis := Child(Record(d, f).children, "Outcome"), Child(Record(d, f).children, "Thesis");
            && outcome.Some? && thesis.Some?
            && Lookup(thesis.value.attrs, Id) == f.signalId + "-thesis"
            && Lookup(outcome.value.attrs, Id) == f.signalId + "-outcome"
            && var link := Child(outcome.value.children, "chunk");
            && link.Some? && Lookup(link.value.attrs, Attr("itemprop")) == "settles"
            && Lookup(link.value.attrs, Attr("href")) == "#" + Lookup(thesis.value.attrs, Id)
  {
    SectionsAreFound(d, f);
    SealedKeeps(d, Settlement(f.signalId, f.outcome.value));
    SealedKeeps(d, Thesis(f.signalId, f.thesis));
    LinkReads(f.signalId, f.outcome.value);
  }

  lemma LinkReads(signalId: string, o: Outcome)
    ensures var e := Settlement(signalId, o);
            && Lookup(e.attrs, Id) == signalId + "-outcome" && Child(e.children, "chunk") == Some(e.children[0])
            && Lookup(e.children[0].attrs, Attr("itemprop")) == "settles"
            && Lookup(e.children[0].attrs, Attr("href")) == "#" + ThesisId(signalId)
  {
    ChildAt(Settlement(signalId, o).children, 0, "chunk");
  }

  // ── the form people read ──────────────────────────────────────────────────

  function WithoutCommas(s: string): string {
    if s == "" then "" else WithoutCommas(s[..|s| - 1]) + if s[|s| - 1] == ',' then "" else [s[|s| - 1]]
  }

  lemma {:induction false} CommasConcat(a: string, b: string)
    ensures WithoutCommas(a + b) == WithoutCommas(a) + WithoutCommas(b)
  {
    if b == "" {
      assert a + b == a && WithoutCommas(a) + "" == WithoutCommas(a);
    } else {
      var n := |b| - 1;
      assert (a + b)[..|a + b| - 1] == a + b[..n];
      CommasConcat(a, b[..n]);
    }
  }

  lemma {:induction false} NoCommas(s: string)
    requires ',' !in s
    ensures WithoutCommas(s) == s
  {
    if s != "" {
      InitAndLast(s);
      NoCommas(s[..|s| - 1]);
    }
  }

  /** Counted from the right, exactly every fourth place holds a comma. */
  ghost predicate InThrees(s: string) {
    forall k :: 0 <= k < |s| ==> (s[|s| - 1 - k] == ',' <==> k % 4 == 3)
  }

  lemma NextGroup(digits: string)
    requires |digits| > 3
    ensures var n := |digits| - 3;
            && Grouped(digits) == Grouped(digits[..n]) + "," + digits[n..]
            && digits == digits[..n] + digits[n..]
  {
  }

  lemma {:induction false} GroupedInThrees(digits: string)
    requires ',' !in digits
    ensures InThrees(Grouped(digits))
  {
    if |digits| > 3 {
      var n := |digits| - 3;
      NextGroup(digits);
      GroupedInThrees(digits[..n]);
      OneMoreGroup(Grouped(digits[..n]), digits[n..]);
    }
  }

  lemma {:induction false} GroupedKeepsDigits(digits: string)
    requires ',' !in digits
    ensures WithoutCommas(Grouped(digits)) == digits
  {
    if |digits| <= 3 {
      NoCommas(digits);
    } else {
      var n := |digits| - 3;
      NextGroup(digits);
      GroupedKeepsDigits(digits[..n]);
      NoCommas(digits[n..]);
      CommaBetween(Grouped(digits[..n]), digits[n..]);
    }
  }

  lemma CommaBetween(a: string, b: string)
    ensures WithoutCommas(a + "," + b) == WithoutCommas(a) + WithoutCommas(b)
  {
    CommasConcat(a + ",", b);
    CommasConcat(a, ",");
    assert WithoutCommas(",") == "" && WithoutCommas(a) + "" == WithoutCommas(a);
  }

  lemma OneMoreGroup(head: string, three: string)
    requires InThrees(head) && |three| == 3 && ',' !in three
    ensures InThrees(head + "," + three)
  {
    var s := head + "," + three;
    forall k | 0 <= k < |s| ensures s[|s| - 1 - k] == ',' <==> k % 4 == 3 {
      if k >= 4 {
        assert s[|s| - 1 - k] == head[|head| - 1 - (k - 4)] && k % 4 == (k - 4) % 4;
      } else if k < 3 {
        assert s[|s| - 1 - k] == three[2 - k] && three[2 - k] in three;
      }
    }
  }

  lemma UnsignedSeparators(digits: string, rest: string)
    requires ',' !in digits && ',' !in rest
    ensures WithoutCommas(Grouped(digits) + rest) == digits + rest
  {
    GroupedKeepsDigits(digits);
    NoCommas(rest);
    CommasConcat(Grouped(digits), rest);
  }

  lemma SignKept(number: string, rest: string)
    requires WithoutCommas(rest) == number
    ensures WithoutCommas("-" + rest) == "-" + number
  {
    CommasConcat("-", rest);
    NoCommas("-");
  }

  lemma {:induction false} SeparatorsAreOnlyAdded(number: string)
    requires ',' !in number
    ensures WithoutCommas(WithSeparators(number)) == number
  {
    if number != "" && number[0] == '-' {
      SeparatorsAreOnlyAdded(number[1..]);
      SignKept(number[1..], WithSeparators(number[1..]));
      assert "-" + number[1..] == number;
    } else {
      var n := UpToDot(number);
      UnsignedSeparators(number[..n], number[n..]);
      assert number[..n] + number[n..] == number;
    }
  }

  /** What a reader sees is the machine form, with separators in a decimal and a word for a truth value. */
  lemma HumanForm(kind: string, machine: string)
    requires ',' !in machine
    ensures kind == "decimal" ==> WithoutCommas(Human(kind, machine)) == machine
    ensures kind == "boolean" ==> Human(kind, machine) == if machine == "true" then "yes" else "no"
    ensures kind !in {"decimal", "boolean"} ==> Human(kind, machine) == machine
  {
    SeparatorsAreOnlyAdded(machine);
  }
}
