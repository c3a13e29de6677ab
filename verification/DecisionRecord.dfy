/** The published decision record: what it is built from, and what its seals vouch for. */
module DecisionRecord {
  import opened Collections
  import opened Dgml
  import Directions

  datatype GateLine = GateLine(name: string, status: string, verdict: string, reason: Option<string>)

  /** Numbers come in the machine form of the type they are emitted with; absent ones are null. */
  datatype Execution = Execution(ticket: Option<string>, side: string, price: Option<string>)

  datatype Outcome = Outcome(result: string, correct: bool, netPts: Option<string>, closePts: Option<string>)

  datatype Facts = Facts(signalId: string, emittedAt: string, agent: string,
                         origin: string, process: string, state: string,
                         policyVersion: string, dashboardVersion: string, codeVersion: string,
                         thesis: map<string, string>,
                         action: string, reason: string, boundAt: string, gates: seq<GateLine>,
                         execution: Option<Execution>, outcome: Option<Outcome>)

  /** Attested and identified, not yet hashed, with only plain elements inside. */
  predicate Claim(e: Element) { Attested(e) && Id in e.attrs && Hash !in e.attrs && PlainInside(e) }

  predicate AllClaims(s: seq<Element>) { forall i | 0 <= i < |s| :: Claim(s[i]) }

  predicate AllPlain(s: seq<Element>) { forall i | 0 <= i < |s| :: Plain(s[i]) }

  // ── building blocks ───────────────────────────────────────────────────────

  /** The integer digits of a number in groups of three. */
  function Grouped(digits: string): string {
    if |digits| <= 3 then digits else Grouped(digits[..|digits| - 3]) + "," + digits[|digits| - 3..]
  }

  function UpToDot(s: string): nat
    ensures UpToDot(s) <= |s|
  {
    if s == "" || s[0] == '.' then 0 else 1 + UpToDot(s[1..])
  }

  function WithSeparators(number: string): string {
    if number != "" && number[0] == '-' then "-" + WithSeparators(number[1..])
    else Grouped(number[..UpToDot(number)]) + number[UpToDot(number)..]
  }

  /** What a reader sees, as a function of the machine form. */
  function Human(kind: string, machine: string): string {
    if kind == "decimal" then WithSeparators(machine)
    else if kind == "boolean" then if machine == "true" then "yes" else "no"
    else machine
  }

  function Typed(name: string, machine: string, kind: string): (e: Element)
    ensures Plain(e)
  {
    Element(name, map[Attr("type") := kind, Attr("value") := machine], Human(kind, machine), [])
  }

  function Text(name: string, s: string): (e: Element)
    ensures Plain(e)
  {
    Typed(name, s, "string")
  }

  function Value(name: string, raw: Option<string>, kind: string): (e: Element)
    ensures Plain(e)
  {
    if raw.None? then Element(name, map[Attr("null") := "true"], "", []) else Typed(name, raw.value, kind)
  }

  function Section(name: string, children: seq<Element>): Element { Element(name, map[], "", children) }

  function Link(itemprop: string, href: string, text: string): (e: Element)
    ensures Plain(e)
  {
    Element("chunk", map[Attr("itemprop") := itemprop, Attr("href") := href], text, [])
  }

  /** An element with an id of its own, marked for sealing. */
  function Attestable(name: string, id: string, children: seq<Element>): Element {
    Element(name, map[Attest := "true", Id := id], "", children)
  }

  // ── the document ──────────────────────────────────────────────────────────

  /** Element name, key in the thesis, and type, in the order they are emitted. */
  const CLAIMS: seq<(string, string, string)> := [
    ("Direction", "direction", "string"),
    ("Timeframe", "timeframe", "string"),
    ("EntryPrice", "entry_price", "decimal"),
    ("Target", "target", "decimal"),
    ("Stop", "stop", "decimal"),
    ("StopDistance", "stop_pts", "integer"),
    ("RiskReward", "risk_reward", "decimal"),
    ("Action", "action", "string"),
    ("RouteKind", "route_kind", "string")]

  /** What a thesis says under a key. */
  function Said(thesis: map<string, string>, key: string): Option<string> {
    if key in thesis then Some(thesis[key]) else None
  }

  /** The fields the thesis has, in order; what it lacks is left out. */
  function Claims(thesis: map<string, string>, fields: seq<(string, string, string)>): (s: seq<Element>)
    ensures AllPlain(s)
  {
    if fields == [] then []
    else
      var (name, key, kind) := fields[0];
      (if key in thesis then [Typed(name, thesis[key], kind)] else []) + Claims(thesis, fields[1..])
  }

  function ThesisId(signalId: string): string { signalId + "-thesis" }

  function OutcomeId(signalId: string): string { signalId + "-outcome" }

  function Thesis(signalId: string, thesis: map<string, string>): (e: Element)
    ensures Claim(e)
  {
    Attestable("Thesis", ThesisId(signalId), Claims(thesis, CLAIMS))
  }

  function GateVerdict(gate: GateLine): (e: Element)
    ensures Plain(e)
  {
    Element("GateVerdict", map[Attr("name") := gate.name], "",
            [Text("Status", gate.status), Text("Verdict", gate.verdict)]
            + if gate.reason.Some? then [Text("Reason", gate.reason.value)] else [])
  }

  function Decided(f: Facts): (e: Element)
    ensures Plain(e)
  {
    var verdicts := seq(|f.gates|, i requires 0 <= i < |f.gates| => GateVerdict(f.gates[i]));
    Section("Decision", [Text("Action", f.action), Text("Reason", f.reason), Text("BoundAt", f.boundAt),
                         Section("GateVerdicts", verdicts)])
  }

  /** The sections before the thesis. */
  function Preamble(f: Facts): (s: seq<Element>)
    ensures AllPlain(s) && |s| == 3
  {
    [Section("Identity", [Text("SignalId", f.signalId),
                         Typed("EmittedAt", f.emittedAt, "dateTime"), Text("Agent", f.agent)]),
     Section("Proof", [Text("OriginHash", f.origin), Text("ProcessHash", f.process), Text("StateHash", f.state)]),
     Section("Versions", [Text("PolicyVersion", f.policyVersion), Text("DashboardVersion", f.dashboardVersion),
                          Text("CodeVersion", f.codeVersion)])]
  }

  /** The decision, and the execution if there was one. */
  function Middle(f: Facts): (s: seq<Element>)
    ensures AllPlain(s)
  {
    [Decided(f)] +
    if f.execution.None? then []
    else
      var x := f.execution.value;
      [Section("Execution",
               [Value("Ticket", x.ticket, "integer"), Text("Side", x.side), Value("FillPrice", x.price, "decimal")])]
  }

  function Settlement(signalId: string, o: Outcome): (e: Element)
    ensures Claim(e)
  {
    Attestable("Outcome", OutcomeId(signalId),
               [Link("settles", "#" + ThesisId(signalId), "the thesis above"),
                Text("Result", o.result), Typed("DirectionCorrect", if o.correct then "true" else "false", "boolean"),
                Value("NetPoints", o.netPts, "decimal"), Value("ClosePoints", o.closePts, "decimal")])
  }

  function Ending(f: Facts): (s: seq<Element>)
    ensures AllClaims(s)
  {
    if f.outcome.Some? then [Settlement(f.signalId, f.outcome.value)] else []
  }

  /** A document's own attributes and its four stretches: plain sections, one claim, plain sections, later claims. */
  datatype Layout = Layout(attrs: map<Name, string>, before: seq<Element>,
                           claim: Element, after: seq<Element>, later: seq<Element>)

  function Assembled(l: Layout): Element {
    Element("chunk", l.attrs, "", l.before + [l.claim] + l.after + l.later)
  }

  function Heading(signalId: string): (attrs: map<Name, string>)
    ensures Hash !in attrs && Attest !in attrs && Id in attrs && attrs[Id] == signalId
  {
    map[Attr("schema") := "afritensor/decisions", Attr("schemaVersion") := "1.0.0-draft", Id := signalId,
        Attr("bornDigital") := "true"]
  }

  function LayoutOf(f: Facts): (l: Layout)
    ensures Proper(l)
  {
    Layout(Heading(f.signalId),
           Preamble(f), Thesis(f.signalId, f.thesis), Middle(f), Ending(f))
  }

  function Record(d: Digest, f: Facts): Element { Sealed(d, Assembled(LayoutOf(f))) }

  // ── what the seals vouch for ──────────────────────────────────────────────

  predicate Proper(l: Layout) {
    && Hash !in l.attrs && Attest !in l.attrs && Id in l.attrs
    && AllPlain(l.before) && Claim(l.claim) && AllPlain(l.after) && AllClaims(l.later)
  }

  predicate AllParts(s: seq<Element>) { forall i | 0 <= i < |s| :: Plain(s[i]) || Claim(s[i]) }

  lemma PartsConcat(a: seq<Element>, b: seq<Element>)
    requires AllParts(a) && AllParts(b)
    ensures AllParts(a + b)
  {
  }

  lemma PartIsNestedAndUnhashed(e: Element)
    requires Plain(e) || Claim(e)
    ensures Unhashed(e) && PlainInside(e) && if Attested(e) then Nested(e) else NoneAttested(e)
  {
    if Plain(e) {
      PlainIsUnhashedAndUnattested(e);
    } else {
      forall i | 0 <= i < |e.children| ensures Unhashed(e.children[i]) && NoneAttested(e.children[i]) {
        PlainIsUnhashedAndUnattested(e.children[i]);
      }
    }
  }

  /** A document made of such parts is sealed throughout. */
  lemma PartsAreSealed(d: Digest, e: Element)
    requires Hash !in e.attrs && AllParts(e.children)
    ensures Unhashed(e) && AllVerify(d, Sealed(d, e)) && Verified(d, Sealed(d, e))
  {
    forall i | 0 <= i < |e.children|
      ensures Unhashed(e.children[i]) &&
                if Attested(e.children[i]) then Nested(e.children[i]) else NoneAttested(e.children[i])
    {
      PartIsNestedAndUnhashed(e.children[i]);
    }
    SealReachesAllIffNested(d, e);
    SealedVerifies(d, e);
  }

  function SealedPart(d: Digest, e: Element): Element { if Attested(e) then Sealed(d, e) else e }

  function SealedParts(d: Digest, s: seq<Element>): seq<Element> {
    seq(|s|, i requires 0 <= i < |s| => SealedPart(d, s[i]))
  }

  lemma SealedPartsConcat(d: Digest, a: seq<Element>, b: seq<Element>)
    ensures SealedParts(d, a + b) == SealedParts(d, a) + SealedParts(d, b)
  {
  }

  lemma SealingLeavesPlainAlone(d: Digest, s: seq<Element>)
    requires AllPlain(s)
    ensures SealedParts(d, s) == s
  {
  }

  lemma {:induction false} PlainBearsNothing(s: seq<Element>)
    requires AllPlain(s)
    ensures Bearers(s) == []
  {
    if s != [] {
      PlainBearsNothing(s[..|s| - 1]);
    }
  }

  lemma {:induction false} ClaimsAllBear(s: seq<Element>)
    requires forall i | 0 <= i < |s| :: Id in s[i].attrs
    ensures Bearers(s) == s
  {
    if s != [] {
      ClaimsAllBear(s[..|s| - 1]);
      assert s == s[..|s| - 1] + [s[|s| - 1]];
    }
  }

  /** The four stretches of a document, sealed. */
  lemma SealedStretches(d: Digest, pre: seq<Element>, claim: Element, mid: seq<Element>, ends: seq<Element>)
    requires AllPlain(pre) && Claim(claim) && AllPlain(mid)
    ensures SealedParts(d, pre + [claim] + mid + ends) == pre + [Sealed(d, claim)] + mid + SealedParts(d, ends)
  {
    SealedPartsConcat(d, pre + [claim] + mid, ends);
    SealedPartsConcat(d, pre + [claim], mid);
    SealedPartsConcat(d, pre, [claim]);
    SealingLeavesPlainAlone(d, pre);
    SealingLeavesPlainAlone(d, mid);
    assert SealedParts(d, [claim]) == [Sealed(d, claim)];
  }

  lemma BearersOfStretches(before: seq<Element>, claim: Element, after: seq<Element>, later: seq<Element>)
    requires AllPlain(before) && Id in claim.attrs && AllPlain(after)
    requires forall i | 0 <= i < |later| :: Id in later[i].attrs
    ensures Bearers(before + [claim] + after + later) == [claim] + later
  {
    PlainBearsNothing(before);
    OneMore(before, claim, "");
    var first := before + [claim];
    assert Bearers(first) == [claim];
    PlainBearsNothing(after);
    BearersConcat(first, after);
    var second := first + after;
    assert Bearers(second) == [claim];
    ClaimsAllBear(later);
    BearersConcat(second, later);
  }

  lemma AssembledParts(l: Layout)
    requires Proper(l)
    ensures AllParts(Assembled(l).children)
  {
    PartsConcat(l.before, [l.claim]);
    PartsConcat(l.before + [l.claim], l.after);
    PartsConcat(l.before + [l.claim] + l.after, l.later);
  }

  /** What a sealed document looks like: its own seal aside, only the claims have changed. */
  lemma SealedLayout(d: Digest, l: Layout)
    requires Proper(l)
    ensures Sealed(d, Assembled(l)).children == l.before + [Sealed(d, l.claim)] + l.after + SealedParts(d, l.later)
  {
    SealedStretches(d, l.before, l.claim, l.after, l.later);
    assert Sealed(d, Assembled(l)).children == SealedParts(d, Assembled(l).children);
  }

  /** The elements of a sealed document that carry an id: the document, the claim, the later claims, in that order. */
  ghost function Vouched(d: Digest, l: Layout): seq<Element> {
    [Sealed(d, Assembled(l))] + ([Sealed(d, l.claim)] + SealedParts(d, l.later))
  }

  lemma SealedClaimIsPlainInside(d: Digest, e: Element)
    requires Claim(e)
    ensures Sealed(d, e).children == e.children && PlainInside(Sealed(d, e)) && Id in Sealed(d, e).attrs
  {
    forall i | 0 <= i < |e.children| ensures Sealed(d, e).children[i] == e.children[i] {
      ChildOfSealed(d, e, i);
    }
  }

  lemma SealedChildrenAreShallow(d: Digest, l: Layout)
    requires Proper(l)
    ensures forall i | 0 <= i < |Sealed(d, Assembled(l)).children| :: PlainInside(Sealed(d, Assembled(l)).children[i])
  {
    var e := Assembled(l);
    AssembledParts(l);
    forall i | 0 <= i < |e.children| ensures PlainInside(Sealed(d, e).children[i]) {
      ChildOfSealed(d, e, i);
      PartIsNestedAndUnhashed(e.children[i]);
      if Attested(e.children[i]) {
        SealedClaimIsPlainInside(d, e.children[i]);
      }
    }
  }

  lemma SealedLaterBear(d: Digest, later: seq<Element>)
    requires AllClaims(later)
    ensures forall i | 0 <= i < |later| :: Id in SealedParts(d, later)[i].attrs
  {
    forall i | 0 <= i < |later| ensures Id in SealedParts(d, later)[i].attrs {
      SealedClaimIsPlainInside(d, later[i]);
    }
  }

  lemma ChildrenThatBear(d: Digest, l: Layout)
    requires Proper(l)
    ensures Bearers(Sealed(d, Assembled(l)).children) == [Sealed(d, l.claim)] + SealedParts(d, l.later)
  {
    SealedLayout(d, l);
    SealedClaimIsPlainInside(d, l.claim);
    SealedLaterBear(d, l.later);
    BearersOfStretches(l.before, Sealed(d, l.claim), l.after, SealedParts(d, l.later));
  }

  lemma VouchedAreTheBearers(d: Digest, l: Layout)
    requires Proper(l)
    ensures Bearers(Walk(Sealed(d, Assembled(l)))) == Vouched(d, l)
  {
    var root := Sealed(d, Assembled(l));
    SealedChildrenAreShallow(d, l);
    BearersOfTwoLevels(root, |root.children|);
    assert root.children[..|root.children|] == root.children;
    ChildrenThatBear(d, l);
    BearersConcat([root], WalkChildren(root, |root.children|));
    OneMore([], root, "");
    assert [] + [root] == [root];
  }

  lemma AttestedCarryIds(d: Digest, l: Layout)
    requires Proper(l)
    ensures forall x | x in Walk(Sealed(d, Assembled(l))) :: Attested(x) ==> Id in x.attrs
  {
    var e := Assembled(l);
    var root := Sealed(d, e);
    SealedChildrenAreShallow(d, l);
    BearersOfTwoLevels(root, |root.children|);
    AssembledParts(l);
    forall x | x in root.children && Attested(x) ensures Id in x.attrs {
      var i :| 0 <= i < |root.children| && root.children[i] == x;
      ChildOfSealed(d, e, i);
      if Attested(e.children[i]) {
        SealedClaimIsPlainInside(d, e.children[i]);
      }
    }
  }

  /** Every attested element of a published record verifies, and so does the record. */
  lemma RecordVerifies(d: Digest, f: Facts)
    ensures AllVerify(d, Record(d, f)) && Verified(d, Record(d, f))
  {
    var l := LayoutOf(f);
    AssembledParts(l);
    PartsAreSealed(d, Assembled(l));
  }

  // ── what a recipient can check, and what goes on chain ────────────────────

  function IdOf(e: Element): string { Lookup(e.attrs, Id) }

  lemma VouchedVerify(d: Digest, l: Layout, x: Element)
    requires Proper(l) && x in Vouched(d, l)
    ensures Verified(d, x) && Id in x.attrs
  {
    SealedVerifies(d, Assembled(l));
    SealedVerifies(d, l.claim);
    if x != Sealed(d, Assembled(l)) && x != Sealed(d, l.claim) {
      var i :| 0 <= i < |l.later| && SealedParts(d, l.later)[i] == x;
      SealedVerifies(d, l.later[i]);
    }
  }

  ghost predicate SomeBears(s: seq<Element>, id: string) { exists i :: 0 <= i < |s| && IdOf(s[i]) == id }

  lemma FoundMeansBorne(s: seq<Element>, id: string)
    requires forall x | x in s :: Id in x.attrs
    ensures FirstNamed(s, id).Some? <==> SomeBears(s, id)
  {
    var found := FirstNamed(s, id);
    if found.Some? {
      var i :| 0 <= i < |s| && s[i] == found.value;
      assert IdOf(s[i]) == id;
    } else {
      forall i | 0 <= i < |s| ensures IdOf(s[i]) != id {
        assert s[i] in s && !Named(s[i], id);
      }
    }
  }

  /** An id is accepted exactly when one of those elements bears it. */
  lemma AcceptsExactlyTheVouched(d: Digest, l: Layout, id: string)
    requires Proper(l)
    ensures Accepts(d, Walk(Sealed(d, Assembled(l))), id) <==> SomeBears(Vouched(d, l), id)
  {
    VouchedAreTheBearers(d, l);
    LookupOnBearers(Walk(Sealed(d, Assembled(l))), id);
    forall x | x in Vouched(d, l) ensures Verified(d, x) && Id in x.attrs {
      VouchedVerify(d, l, x);
    }
    FoundMeansBorne(Vouched(d, l), id);
  }

  lemma SealedKeepsId(d: Digest, e: Element)
    ensures IdOf(Sealed(d, e)) == IdOf(e)
  {
  }

  /** The ids that the sealed elements bear, in order. */
  lemma VouchedIds(d: Digest, l: Layout, i: nat)
    requires Proper(l) && i < |l.later|
    ensures |Vouched(d, l)| == |l.later| + 2 && IdOf(Vouched(d, l)[i + 2]) == IdOf(l.later[i])
  {
    assert Vouched(d, l)[i + 2] == SealedParts(d, l.later)[i];
    SealedKeepsId(d, l.later[i]);
  }

  lemma VouchedFirstIds(d: Digest, l: Layout)
    requires Proper(l)
    ensures |Vouched(d, l)| == |l.later| + 2
    ensures IdOf(Vouched(d, l)[0]) == l.attrs[Id] && IdOf(Vouched(d, l)[1]) == IdOf(l.claim)
  {
    assert Vouched(d, l)[0] == Sealed(d, Assembled(l)) && Vouched(d, l)[1] == Sealed(d, l.claim);
    SealedKeepsId(d, Assembled(l));
    SealedKeepsId(d, l.claim);
  }

  lemma BearsByIndex(s: seq<Element>, id: string)
    requires 2 <= |s| <= 3
    ensures SomeBears(s, id) <==> id == IdOf(s[0]) || id == IdOf(s[1]) || (|s| == 3 && id == IdOf(s[2]))
  {
  }

  /** The document's id, the claim's and the later claim's are accepted, and no other. */
  lemma LayoutAcceptsExactly(d: Digest, l: Layout, id: string)
    requires Proper(l) && |l.later| <= 1
    ensures Accepts(d, Walk(Sealed(d, Assembled(l))), id)
       <==> id == l.attrs[Id] || id == IdOf(l.claim) || (l.later != [] && IdOf(l.later[0]) == id)
  {
    AcceptsExactlyTheVouched(d, l, id);
    VouchedFirstIds(d, l);
    if l.later != [] {
      VouchedIds(d, l, 0);
    }
    BearsByIndex(Vouched(d, l), id);
  }

  function Anchor(d: Digest, e: Element): (string, string) { (IdOf(e), d(e)) }

  function AnchorsOf(d: Digest, claims: seq<Element>): seq<(string, string)> {
    seq(|claims|, i requires 0 <= i < |claims| => Anchor(d, claims[i]))
  }

  lemma SealOfClaim(d: Digest, e: Element)
    requires Claim(e)
    ensures Attested(Sealed(d, e)) && Lookup(Sealed(d, e).attrs, Hash) == d(e) && IdOf(Sealed(d, e)) == IdOf(e)
  {
    PartIsNestedAndUnhashed(e);
    UnhashedIsItsOwnContent(e);
    SealedVerifies(d, e);
  }

  lemma AnchorOfOneMore(d: Digest, rest: seq<Element>, last: Element)
    requires Claim(last)
    ensures Anchors(SealedParts(d, rest + [last])) == Anchors(SealedParts(d, rest)) + [Anchor(d, last)]
    ensures AnchorsOf(d, rest + [last]) == AnchorsOf(d, rest) + [Anchor(d, last)]
  {
    SealOfClaim(d, last);
    OneMore(SealedParts(d, rest), Sealed(d, last), "");
    assert SealedParts(d, rest + [last]) == SealedParts(d, rest) + [Sealed(d, last)];
  }

  lemma {:induction false} AnchorsOfClaims(d: Digest, claims: seq<Element>)
    requires AllClaims(claims)
    ensures Anchors(SealedParts(d, claims)) == AnchorsOf(d, claims)
  {
    if claims != [] {
      var rest, last := claims[..|claims| - 1], claims[|claims| - 1];
      assert claims == rest + [last];
      AnchorsOfClaims(d, rest);
      AnchorOfOneMore(d, rest, last);
    }
  }

  lemma {:induction false} FirstHasNoAnchor(root: Element, rest: seq<Element>)
    requires !Attested(root)
    ensures Anchors([root] + rest) == Anchors(rest)
  {
    if rest == [] {
      OneMore([], root, "");
      assert [] + [root] == [root] && [root] + rest == [root];
    } else {
      var last := rest[|rest| - 1];
      FirstHasNoAnchor(root, rest[..|rest| - 1]);
      OneMore([root] + rest[..|rest| - 1], last, "");
      assert [root] + rest == [root] + rest[..|rest| - 1] + [last];
    }
  }

  lemma SealedPartsFirst(d: Digest, claim: Element, later: seq<Element>)
    requires Attested(claim)
    ensures [Sealed(d, claim)] + SealedParts(d, later) == SealedParts(d, [claim] + later)
  {
  }

  lemma RootHasNoAnchor(d: Digest, l: Layout)
    requires Proper(l)
    ensures Anchors(Vouched(d, l)) == Anchors([Sealed(d, l.claim)] + SealedParts(d, l.later))
  {
    SealedVerifies(d, Assembled(l));
    FirstHasNoAnchor(Sealed(d, Assembled(l)), [Sealed(d, l.claim)] + SealedParts(d, l.later));
  }

  lemma ClaimsHaveAnchors(d: Digest, claim: Element, later: seq<Element>)
    requires Claim(claim) && AllClaims(later)
    ensures Anchors([Sealed(d, claim)] + SealedParts(d, later)) == AnchorsOf(d, [claim] + later)
  {
    SealedPartsFirst(d, claim, later);
    AnchorsOfClaims(d, [claim] + later);
  }

  lemma AnchorsOfVouched(d: Digest, l: Layout)
    requires Proper(l)
    ensures Anchors(Vouched(d, l)) == AnchorsOf(d, [l.claim] + l.later)
  {
    RootHasNoAnchor(d, l);
    ClaimsHaveAnchors(d, l.claim, l.later);
  }

  lemma AnchorsOfLayout(d: Digest, l: Layout)
    requires Proper(l)
    ensures Anchors(Walk(Sealed(d, Assembled(l)))) == AnchorsOf(d, [l.claim] + l.later)
  {
    AttestedCarryIds(d, l);
    VouchedAreTheBearers(d, l);
    AnchorsOnBearers(Walk(Sealed(d, Assembled(l))));
    AnchorsOfVouched(d, l);
  }

  /** The recipient's check accepts the record's id, its thesis' and, once there is one, its outcome's, and no other. */
  lemma RecordAcceptsExactly(d: Digest, f: Facts, id: string)
    ensures Accepts(d, Walk(Record(d, f)), id)
       <==> id == f.signalId || id == ThesisId(f.signalId) || (f.outcome.Some? && id == OutcomeId(f.signalId))
  {
    EndingIds(f);
    LayoutAcceptsExactly(d, LayoutOf(f), id);
  }

  lemma EndingIds(f: Facts)
    ensures IdOf(Thesis(f.signalId, f.thesis)) == ThesisId(f.signalId)
    ensures |Ending(f)| == if f.outcome.Some? then 1 else 0
    ensures f.outcome.Some? ==> IdOf(Ending(f)[0]) == OutcomeId(f.signalId)
  {
  }

  /**
   * The anchors of a record: each is a function of the signal and of what its own element
   * says, and of nothing else in it.
   */
  lemma AnchorsStandAlone(d: Digest, f: Facts)
    ensures Anchors(Walk(Record(d, f))) == AnchorsOf(d, [Thesis(f.signalId, f.thesis)] + Ending(f))
    ensures AnchorsAre(d, f, Anchors(Walk(Record(d, f))))
  {
    AnchorsOfLayout(d, LayoutOf(f));
    ThesisAndOutcomeAnchors(d, f);
  }

  /** The thesis' anchor and then, if there was an outcome, its own: each an id and a digest of that element alone. */
  predicate AnchorsAre(d: Digest, f: Facts, anchors: seq<(string, string)>) {
    && |anchors| == (if f.outcome.Some? then 2 else 1)
    && anchors[0] == (f.signalId + "-thesis", d(Thesis(f.signalId, f.thesis)))
    && (f.outcome.Some? ==> anchors[1] == (f.signalId + "-outcome", d(Settlement(f.signalId, f.outcome.value))))
  }

  lemma ThesisAndOutcomeAnchors(d: Digest, f: Facts)
    ensures AnchorsAre(d, f, AnchorsOf(d, [Thesis(f.signalId, f.thesis)] + Ending(f)))
  {
    EndingIds(f);
    TwoAnchors(d, Thesis(f.signalId, f.thesis), Ending(f));
  }

  lemma TwoAnchors(d: Digest, claim: Element, later: seq<Element>)
    requires |later| <= 1
    ensures var anchors := AnchorsOf(d, [claim] + later);
            && |anchors| == 1 + |later| && anchors[0] == (IdOf(claim), d(claim))
            && (later != [] ==> anchors[1] == (IdOf(later[0]), d(later[0])))
  {
  }

  lemma FirstAnchor(d: Digest, claim: Element, later: seq<Element>)
    ensures AnchorsOf(d, [claim] + later) != [] && AnchorsOf(d, [claim] + later)[0] == Anchor(d, claim)
  {
  }

  /** The anchor that the thesis gets, first in the list. */
  lemma ThesisAnchor(d: Digest, f: Facts)
    ensures var anchors := Anchors(Walk(Record(d, f)));
            anchors != [] && anchors[0] == Anchor(d, Thesis(f.signalId, f.thesis))
  {
    AnchorsStandAlone(d, f);
    FirstAnchor(d, Thesis(f.signalId, f.thesis), Ending(f));
  }

  /** The same signal, and the same value or none under each of the claimed keys. */
  predicate SameClaim(a: Facts, b: Facts) {
    a.signalId == b.signalId && SaysTheSame(a.thesis, b.thesis, CLAIMS)
  }

  predicate SaysTheSame(a: map<string, string>, b: map<string, string>, fields: seq<(string, string, string)>) {
    forall i | 0 <= i < |fields| :: Said(a, fields[i].1) == Said(b, fields[i].1)
  }

  lemma {:induction false} SameSayingsSameClaims(a: map<string, string>, b: map<string, string>,
                                                 fields: seq<(string, string, string)>)
    requires SaysTheSame(a, b, fields)
    ensures Claims(a, fields) == Claims(b, fields)
  {
    if fields != [] {
      assert Said(a, fields[0].1) == Said(b, fields[0].1);
      SameSayingsSameClaims(a, b, fields[1..]);
    }
  }

  /** The same claim gets the same anchor, whatever the digest and whatever else the records say. */
  lemma SameClaimSameAnchor(d: Digest, early: Facts, late: Facts)
    requires SameClaim(early, late)
    ensures Anchors(Walk(Record(d, early))) != [] && Anchors(Walk(Record(d, late))) != []
    ensures Anchors(Walk(Record(d, early)))[0] == Anchors(Walk(Record(d, late)))[0]
  {
    ThesisAnchor(d, early);
    ThesisAnchor(d, late);
    SameSayingsSameClaims(early.thesis, late.thesis, CLAIMS);
  }

  // ── and back: what an anchor says about the claim ─────────────────────────

  /** What canonicalisation makes of an element: surrounding blanks of texts are gone, at any depth. */
  function Trimmed(e: Element): Element {
    Element(e.tag, e.attrs, Directions.Strip(e.text), TrimmedAll(e.children))
  }

  function TrimmedAll(s: seq<Element>): (r: seq<Element>)
    ensures |r| == |s| && forall i | 0 <= i < |s| :: r[i] == Trimmed(s[i])
  {
    seq(|s|, i requires 0 <= i < |s| => Trimmed(s[i]))
  }

  /** The program's digest: a hash of the canonical form. */
  function DigestOf(h: Element -> string): Digest { (e: Element) => h(Trimmed(e)) }

  /** No two canonical forms share a hash. */
  ghost predicate CollisionFree(h: Element -> string) { forall x, y :: h(x) == h(y) ==> x == y }

  /**
   * Tampering is found: in whatever document it is met, an element under the
   * thesis' id that carries the anchored hash is accepted if and only if it is,
   * canonically, the thesis that was published.
   */
  lemma TamperingIsFound(h: Element -> string, f: Facts, root: Element, x: Element)
    requires CollisionFree(h) && FirstNamed(Walk(root), ThesisId(f.signalId)) == Some(x)
    requires Hash in x.attrs
    requires var anchors := Anchors(Walk(Record(DigestOf(h), f))); anchors != [] && anchors[0].1 == x.attrs[Hash]
    ensures Accepts(DigestOf(h), Walk(root), ThesisId(f.signalId))
       <==> Trimmed(Strip(x)) == Trimmed(Thesis(f.signalId, f.thesis))
  {
    var d, thesis := DigestOf(h), Thesis(f.signalId, f.thesis);
    AnchorsStandAlone(d, f);
    SealOfClaim(d, thesis);
    PartIsNestedAndUnhashed(thesis);
    UnhashedIsItsOwnContent(thesis);
    VerifiesIff(d, thesis, x);
  }

  predicate NamesDiffer(fields: seq<(string, string, string)>) {
    forall i, j | 0 <= i < j < |fields| :: fields[i].0 != fields[j].0
  }

  lemma {:induction false} ClaimsAreNamed(thesis: map<string, string>, fields: seq<(string, string, string)>, i: nat)
    returns (j: nat)
    requires i < |Claims(thesis, fields)|
    ensures j < |fields| && Claims(thesis, fields)[i].tag == fields[j].0
  {
    var head := if fields[0].1 in thesis then 1 else 0;
    if i < head {
      j := 0;
    } else {
      j := ClaimsAreNamed(thesis, fields[1..], i - head);
      j := j + 1;
    }
  }

  /** A field present in one and absent in the other shows in the first element's name. */
  lemma FirstClaimTells(a: map<string, string>, b: map<string, string>, fields: seq<(string, string, string)>)
    requires fields != [] && NamesDiffer(fields) && fields[0].1 in a && fields[0].1 !in b
    ensures TrimmedAll(Claims(a, fields)) != TrimmedAll(Claims(b, fields))
  {
    var x, y := Claims(a, fields), Claims(b, fields);
    assert x[0] == Typed(fields[0].0, a[fields[0].1], fields[0].2) && y == Claims(b, fields[1..]);
    if y != [] {
      var j := ClaimsAreNamed(b, fields[1..], 0);
      assert y[0].tag == fields[j + 1].0;
    }
  }

  /** Blanks around texts hide nothing: every claimed value stands in an attribute too. */
  lemma {:induction false} TrimmedClaimsTell(a: map<string, string>, b: map<string, string>,
                                             fields: seq<(string, string, string)>)
    requires NamesDiffer(fields) && TrimmedAll(Claims(a, fields)) == TrimmedAll(Claims(b, fields))
    ensures SaysTheSame(a, b, fields)
  {
    if fields != [] {
      var key, rest := fields[0].1, fields[1..];
      if key in a && key !in b {
        FirstClaimTells(a, b, fields);
      } else if key in b && key !in a {
        FirstClaimTells(b, a, fields);
      } else {
        RestTells(a, b, fields);
        TrimmedClaimsTell(a, b, rest);
        forall i | 0 <= i < |fields| ensures Said(a, fields[i].1) == Said(b, fields[i].1) {
          assert i > 0 ==> fields[i] == rest[i - 1];
        }
      }
    }
  }

  lemma TrimmedFirst(x: Element, s: seq<Element>)
    ensures TrimmedAll([x] + s) == [Trimmed(x)] + TrimmedAll(s)
  {
  }

  lemma PresentTells(x: Element, y: Element, s: seq<Element>, t: seq<Element>)
    requires TrimmedAll([x] + s) == TrimmedAll([y] + t)
    ensures x.attrs == y.attrs && TrimmedAll(s) == TrimmedAll(t)
  {
    TrimmedFirst(x, s);
    TrimmedFirst(y, t);
    var a, b := [Trimmed(x)] + TrimmedAll(s), [Trimmed(y)] + TrimmedAll(t);
    assert a[0] == b[0] && a[1..] == TrimmedAll(s) && b[1..] == TrimmedAll(t);
  }

  lemma RestTells(a: map<string, string>, b: map<string, string>, fields: seq<(string, string, string)>)
    requires fields != [] && (fields[0].1 in a <==> fields[0].1 in b)
    requires TrimmedAll(Claims(a, fields)) == TrimmedAll(Claims(b, fields))
    ensures Said(a, fields[0].1) == Said(b, fields[0].1)
    ensures TrimmedAll(Claims(a, fields[1..])) == TrimmedAll(Claims(b, fields[1..]))
  {
    var (name, key, kind) := fields[0];
    var s, t := Claims(a, fields[1..]), Claims(b, fields[1..]);
    if key in a {
      var x, y := Typed(name, a[key], kind), Typed(name, b[key], kind);
      PresentTells(x, y, s, t);
      assert x.attrs[Attr("value")] == y.attrs[Attr("value")];
    } else {
      assert [] + s == s && [] + t == t;
    }
  }

  lemma ClaimNamesDiffer()
    ensures NamesDiffer(CLAIMS)
  {
  }

  lemma ThesisTells(a: Facts, b: Facts)
    requires Trimmed(Thesis(a.signalId, a.thesis)) == Trimmed(Thesis(b.signalId, b.thesis))
    ensures SameClaim(a, b)
  {
    var x, y := Thesis(a.signalId, a.thesis), Thesis(b.signalId, b.thesis);
    assert x.attrs[Id] == y.attrs[Id];
    assert ThesisId(a.signalId)[..|a.signalId|] == a.signalId && ThesisId(b.signalId)[..|b.signalId|] == b.signalId;
    ClaimNamesDiffer();
    TrimmedClaimsTell(a.thesis, b.thesis, CLAIMS);
  }

  /**
   * With the program's digest and no hash collision, two records carry the same
   * thesis anchor exactly when they make the same claim about the same signal,
   * whatever else they say.
   */
  lemma PredictionPrecedesResult(h: Element -> string, early: Facts, late: Facts)
    requires CollisionFree(h)
    ensures var x, y := Anchors(Walk(Record(DigestOf(h), early))), Anchors(Walk(Record(DigestOf(h), late)));
            x != [] && y != [] && (x[0] == y[0] <==> SameClaim(early, late))
  {
    var d := DigestOf(h);
    ThesisAnchor(d, early);
    ThesisAnchor(d, late);
    if SameClaim(early, late) {
      SameClaimSameAnchor(d, early, late);
    }
    if d(Thesis(early.signalId, early.thesis)) == d(Thesis(late.signalId, late.thesis)) {
      ThesisTells(early, late);
    }
  }
}
