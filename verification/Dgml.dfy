/** Sealed decision records: an element tree whose attested parts carry hashes of their own content. */
module Dgml {
  import opened Collections

  /** Attribute names; the three the sealing looks at are named. */
  datatype Name = Hash | Attest | Id | Attr(word: string)

  datatype Element = Element(tag: string, attrs: map<Name, string>, text: string, children: seq<Element>)

  /** Canonical form and hash of an element, as one function of the element. */
  type Digest = Element -> string

  // ── hashing and sealing ───────────────────────────────────────────────────

  /** A copy without any hash attribute, at any depth. */
  function Strip(e: Element): Element {
    Element(e.tag, e.attrs - {Hash}, e.text,
            seq(|e.children|, i requires 0 <= i < |e.children| => Strip(e.children[i])))
  }

  function ElementHash(d: Digest, e: Element): string { d(Strip(e)) }

  predicate Attested(e: Element) { Attest in e.attrs && e.attrs[Attest] == "true" }

  predicate Verified(d: Digest, e: Element) { Hash in e.attrs && e.attrs[Hash] == ElementHash(d, e) }

  function Stamped(d: Digest, e: Element): Element { e.(attrs := e.attrs[Hash := ElementHash(d, e)]) }

  /** The children after sealing: only the attested ones are entered. */
  function SealedChildren(d: Digest, e: Element): (r: seq<Element>)
    decreases e, 0
    ensures |r| == |e.children|
  {
    seq(|e.children|, i requires 0 <= i < |e.children| =>
      if Attested(e.children[i]) then Sealed(d, e.children[i]) else e.children[i])
  }

  function Sealed(d: Digest, e: Element): Element
    decreases e, 1
  {
    Stamped(d, e.(children := SealedChildren(d, e)))
  }

  lemma ChildOfSealed(d: Digest, e: Element, i: nat)
    requires i < |e.children|
    ensures |Sealed(d, e).children| == |e.children|
    ensures Sealed(d, e).children[i] == if Attested(e.children[i]) then Sealed(d, e.children[i]) else e.children[i]
  {
  }

  /** An element that carries the hash of e's seal verifies if and only if its content has the same digest. */
  lemma VerifiesIff(d: Digest, e: Element, x: Element)
    requires Hash in x.attrs && x.attrs[Hash] == Sealed(d, e).attrs[Hash]
    ensures Verified(d, x) <==> d(Strip(x)) == d(Strip(e))
  {
    SealedVerifies(d, e);
    SealingKeepsContent(d, e);
  }

  /** Sealing changes nothing but hashes. */
  lemma {:induction false} SealingKeepsContent(d: Digest, e: Element)
    ensures Strip(Sealed(d, e)) == Strip(e)
  {
    forall i | 0 <= i < |e.children|
      ensures Strip(SealedChildren(d, e)[i]) == Strip(e.children[i])
    {
      if Attested(e.children[i]) {
        SealingKeepsContent(d, e.children[i]);
      }
    }
    assert Strip(Sealed(d, e)).children == Strip(e).children;
  }

  lemma SealedVerifies(d: Digest, e: Element)
    ensures Verified(d, Sealed(d, e)) && Sealed(d, e).attrs[Hash] == ElementHash(d, e)
    ensures Attested(Sealed(d, e)) == Attested(e)
  {
    SealingKeepsContent(d, e);
    var body := e.(children := SealedChildren(d, e));
    assert Strip(Sealed(d, e)) == Strip(body);
  }

  /** Sealing twice is sealing once. */
  lemma {:induction false} SealingIsIdempotent(d: Digest, e: Element)
    ensures Sealed(d, Sealed(d, e)) == Sealed(d, e)
  {
    var once := Sealed(d, e);
    forall i | 0 <= i < |e.children|
      ensures SealedChildren(d, once)[i] == once.children[i]
    {
      ChildOfSealed(d, e, i);
      if Attested(e.children[i]) {
        SealedVerifies(d, e.children[i]);
        SealingIsIdempotent(d, e.children[i]);
      }
    }
    assert SealedChildren(d, once) == once.children;
    SealedVerifies(d, e);
  }

  // ── which elements end up verifiable ──────────────────────────────────────

  predicate AllVerify(d: Digest, e: Element) {
    (Attested(e) ==> Verified(d, e)) && forall i | 0 <= i < |e.children| :: AllVerify(d, e.children[i])
  }

  predicate NoneAttested(e: Element) {
    !Attested(e) && forall i | 0 <= i < |e.children| :: NoneAttested(e.children[i])
  }

  predicate Unhashed(e: Element) {
    Hash !in e.attrs && forall i | 0 <= i < |e.children| :: Unhashed(e.children[i])
  }

  /** No attested element hides under one that is not attested. */
  predicate Nested(e: Element) {
    forall i | 0 <= i < |e.children| ::
      if Attested(e.children[i]) then Nested(e.children[i]) else NoneAttested(e.children[i])
  }

  lemma {:induction false} UnhashedVerifiesOnlyVacuously(d: Digest, e: Element)
    requires Unhashed(e)
    ensures AllVerify(d, e) <==> NoneAttested(e)
  {
    forall i | 0 <= i < |e.children| ensures AllVerify(d, e.children[i]) <==> NoneAttested(e.children[i]) {
      UnhashedVerifiesOnlyVacuously(d, e.children[i]);
    }
  }

  /** Sealing a fresh tree leaves every attested element verifiable exactly when none hides under an unattested one. */
  lemma {:induction false} SealReachesAllIffNested(d: Digest, e: Element)
    requires Unhashed(e)
    ensures AllVerify(d, Sealed(d, e)) <==> Nested(e)
  {
    SealedVerifies(d, e);
    forall i | 0 <= i < |e.children|
      ensures AllVerify(d, Sealed(d, e).children[i])
         <==> if Attested(e.children[i]) then Nested(e.children[i]) else NoneAttested(e.children[i])
    {
      if Attested(e.children[i]) {
        SealReachesAllIffNested(d, e.children[i]);
      } else {
        UnhashedVerifiesOnlyVacuously(d, e.children[i]);
      }
    }
  }

  /** The shape is needed: a claim inside a plain section is passed by. Only a direct call of seal can meet one. */
  lemma SealMissesHiddenClaim(d: Digest)
    ensures var hidden := Element("Thesis", map[Attest := "true"], "", []);
            var root := Element("chunk", map[], "", [Element("Section", map[], "", [hidden])]);
            && Unhashed(root)
            && Sealed(d, root).children[0].children[0] == hidden
            && !Verified(d, hidden) && !AllVerify(d, Sealed(d, root))
  {
    var hidden := Element("Thesis", map[Attest := "true"], "", []);
    var section := Element("Section", map[], "", [hidden]);
    var root := Element("chunk", map[], "", [section]);
    assert section.children[0] == hidden && root.children[0] == section;
    assert !NoneAttested(section);
    SealReachesAllIffNested(d, root);
    ChildOfSealed(d, root, 0);
  }

  // ── walking a document ────────────────────────────────────────────────────

  /** The element and everything in it, in document order. */
  function Walk(e: Element): seq<Element>
    decreases e, |e.children| + 1
  {
    [e] + WalkChildren(e, |e.children|)
  }

  function WalkChildren(e: Element, n: nat): seq<Element>
    requires n <= |e.children|
    decreases e, n
  {
    if n == 0 then [] else WalkChildren(e, n - 1) + Walk(e.children[n - 1])
  }

  /** In terms of the walk: every attested element of the document verifies. */
  lemma {:induction false} AllVerifyMeansEachVerifies(d: Digest, e: Element)
    requires AllVerify(d, e)
    ensures forall x | x in Walk(e) :: Attested(x) ==> Verified(d, x)
    decreases e, |e.children| + 1
  {
    ChildrenVerify(d, e, |e.children|);
  }

  lemma {:induction false} ChildrenVerify(d: Digest, e: Element, n: nat)
    requires AllVerify(d, e) && n <= |e.children|
    ensures forall x | x in WalkChildren(e, n) :: Attested(x) ==> Verified(d, x)
    decreases e, n
  {
    if n > 0 {
      ChildrenVerify(d, e, n - 1);
      AllVerifyMeansEachVerifies(d, e.children[n - 1]);
    }
  }

  function Lookup(attrs: map<Name, string>, name: Name): string { if name in attrs then attrs[name] else "" }

  /** The (id, hash) pairs of the attested elements of a walk. */
  function Anchors(walk: seq<Element>): seq<(string, string)> {
    if walk == [] then []
    else
      var last := walk[|walk| - 1];
      Anchors(walk[..|walk| - 1]) + if Attested(last) then [(Lookup(last.attrs, Id), Lookup(last.attrs, Hash))] else []
  }

  /** Exactly the elements whose mark says "true" are listed, each by its id and its hash. */
  lemma {:induction false} AnchorsAreTheMarked(walk: seq<Element>, id: string, hash: string)
    ensures (id, hash) in Anchors(walk) <==>
              exists e :: e in walk && Lookup(e.attrs, Attest) == "true"
                && Lookup(e.attrs, Id) == id && Lookup(e.attrs, Hash) == hash
  {
    if walk != [] {
      var rest, last := walk[..|walk| - 1], walk[|walk| - 1];
      assert walk == rest + [last];
      AnchorsAreTheMarked(rest, id, hash);
    }
  }

  method AttestedElements(root: Element) returns (out: seq<(string, string)>)
    ensures out == Anchors(Walk(root))
  {
    out := [];
    var walk := Walk(root);
    for i := 0 to |walk|
      invariant out == Anchors(walk[..i])
    {
      assert walk[..i + 1][..i] == walk[..i];
      if Attested(walk[i]) {
        out := out + [(Lookup(walk[i].attrs, Id), Lookup(walk[i].attrs, Hash))];
      }
    }
    assert walk[..|walk|] == walk;
  }

  predicate Named(e: Element, id: string) { Id in e.attrs && e.attrs[Id] == id }

  /** The first element of that name. */
  function FirstNamed(walk: seq<Element>, id: string): (found: Option<Element>)
    ensures found.Some? ==> found.value in walk && Named(found.value, id)
    ensures found.None? ==> forall x | x in walk :: !Named(x, id)
  {
    if walk == [] then None
    else
      var rest, last := walk[..|walk| - 1], walk[|walk| - 1];
      assert walk == rest + [last];
      var earlier := FirstNamed(rest, id);
      if earlier.Some? then earlier else if Named(last, id) then Some(last) else None
  }

  predicate Accepts(d: Digest, walk: seq<Element>, id: string) {
    var found := FirstNamed(walk, id);
    found.Some? && Verified(d, found.value)
  }

  method VerifyElement(d: Digest, root: Element, id: string) returns (ok: bool)
    ensures ok == Accepts(d, Walk(root), id)
  {
    var walk := Walk(root);
    for i := 0 to |walk|
      invariant FirstNamed(walk[..i], id) == None
    {
      assert walk[..i + 1][..i] == walk[..i];
      if Named(walk[i], id) {
        FirstIsKept(walk, i + 1, id);
        return Verified(d, walk[i]);
      }
    }
    assert walk[..|walk|] == walk;
    ok := false;
  }

  lemma {:induction false} FirstIsKept(walk: seq<Element>, n: nat, id: string)
    requires n <= |walk| && FirstNamed(walk[..n], id).Some?
    ensures FirstNamed(walk, id) == FirstNamed(walk[..n], id)
  {
    if n < |walk| {
      assert walk[..|walk| - 1][..n] == walk[..n];
      FirstIsKept(walk[..|walk| - 1], n, id);
    } else {
      assert walk[..n] == walk;
    }
  }

  // ── elements that carry an id ─────────────────────────────────────────────

  function Bearers(walk: seq<Element>): seq<Element> {
    if walk == [] then []
    else Bearers(walk[..|walk| - 1]) + if Id in walk[|walk| - 1].attrs then [walk[|walk| - 1]] else []
  }

  lemma {:induction false} BearersConcat(a: seq<Element>, b: seq<Element>)
    ensures Bearers(a + b) == Bearers(a) + Bearers(b)
  {
    if b == [] {
      assert a + b == a;
    } else {
      assert (a + b)[..|a + b| - 1] == a + b[..|b| - 1];
      BearersConcat(a, b[..|b| - 1]);
    }
  }

  /** One more element. */
  lemma OneMore(walk: seq<Element>, x: Element, id: string)
    ensures Bearers(walk + [x]) == Bearers(walk) + if Id in x.attrs then [x] else []
    ensures Anchors(walk + [x]) == Anchors(walk) +
            if Attested(x) then [(Lookup(x.attrs, Id), Lookup(x.attrs, Hash))] else []
    ensures FirstNamed(walk + [x], id) ==
            if FirstNamed(walk, id).Some? then FirstNamed(walk, id) else if Named(x, id) then Some(x) else None
  {
    assert (walk + [x])[..|walk + [x]| - 1] == walk;
  }

  /** Looking an id up needs only the elements that carry one. */
  lemma {:induction false} LookupOnBearers(walk: seq<Element>, id: string)
    ensures FirstNamed(walk, id) == FirstNamed(Bearers(walk), id)
  {
    if walk != [] {
      var rest, last := walk[..|walk| - 1], walk[|walk| - 1];
      assert walk == rest + [last];
      LookupOnBearers(rest, id);
      OneMore(rest, last, id);
      OneMore(Bearers(rest), last, id);
      assert Bearers(walk) == if Id in last.attrs then Bearers(rest) + [last] else Bearers(rest);
    }
  }

  /** So does listing the anchors, when attested elements carry ids. */
  lemma {:induction false} AnchorsOnBearers(walk: seq<Element>)
    requires forall x | x in walk :: Attested(x) ==> Id in x.attrs
    ensures Anchors(walk) == Anchors(Bearers(walk))
  {
    if walk != [] {
      var rest, last := walk[..|walk| - 1], walk[|walk| - 1];
      assert walk == rest + [last];
      AnchorsOnBearers(rest);
      OneMore(rest, last, "");
      OneMore(Bearers(rest), last, "");
      assert Bearers(walk) == if Id in last.attrs then Bearers(rest) + [last] else Bearers(rest);
      assert last in walk;
    }
  }

  /** Neither ids nor attestations nor hashes, at any depth. */
  predicate Plain(e: Element) {
    && Hash !in e.attrs && Attest !in e.attrs && Id !in e.attrs
    && forall i | 0 <= i < |e.children| :: Plain(e.children[i])
  }

  predicate PlainInside(e: Element) { forall i | 0 <= i < |e.children| :: Plain(e.children[i]) }

  lemma {:induction false} PlainHasNoBearers(e: Element)
    requires Plain(e)
    ensures Bearers(Walk(e)) == [] && forall x | x in Walk(e) :: !Attested(x)
    decreases e, |e.children| + 1
  {
    PlainChildrenHaveNone(e, |e.children|);
    BearersConcat([e], WalkChildren(e, |e.children|));
  }

  lemma {:induction false} PlainChildrenHaveNone(e: Element, n: nat)
    requires PlainInside(e) && n <= |e.children|
    ensures Bearers(WalkChildren(e, n)) == [] && forall x | x in WalkChildren(e, n) :: !Attested(x)
    decreases e, n
  {
    if n > 0 {
      PlainChildrenHaveNone(e, n - 1);
      PlainHasNoBearers(e.children[n - 1]);
      BearersConcat(WalkChildren(e, n - 1), Walk(e.children[n - 1]));
    }
  }

  lemma {:induction false} PlainIsUnhashedAndUnattested(e: Element)
    requires Plain(e)
    ensures Unhashed(e) && NoneAttested(e)
  {
    forall i | 0 <= i < |e.children| ensures Unhashed(e.children[i]) && NoneAttested(e.children[i]) {
      PlainIsUnhashedAndUnattested(e.children[i]);
    }
  }

  lemma {:induction false} UnhashedIsItsOwnContent(e: Element)
    requires Unhashed(e)
    ensures Strip(e) == e
  {
    forall i | 0 <= i < |e.children| ensures Strip(e.children[i]) == e.children[i] {
      UnhashedIsItsOwnContent(e.children[i]);
    }
    assert Strip(e).children == e.children;
    assert e.attrs - {Hash} == e.attrs;
  }

  /** A child with nothing but plain elements inside is the only candidate of its own walk. */
  lemma ShallowWalk(child: Element)
    requires PlainInside(child)
    ensures Bearers(Walk(child)) == if Id in child.attrs then [child] else []
    ensures forall x | x in Walk(child) :: Attested(x) ==> x == child
  {
    PlainChildrenHaveNone(child, |child.children|);
    BearersConcat([child], WalkChildren(child, |child.children|));
    OneMore([], child, "");
    assert [] + [child] == [child];
  }

  predicate Covers(walk: seq<Element>, children: seq<Element>) {
    && Bearers(walk) == Bearers(children)
    && forall x | x in walk :: Attested(x) ==> x in children
  }

  lemma CoversOneMore(walk: seq<Element>, children: seq<Element>, child: Element)
    requires PlainInside(child) && Covers(walk, children)
    ensures Covers(walk + Walk(child), children + [child])
  {
    ShallowWalk(child);
    BearersConcat(walk, Walk(child));
    OneMore(children, child, "");
  }

  /** In a document two levels deep in ids, the walk meets the root and then those of its children that carry one. */
  lemma {:induction false} BearersOfTwoLevels(e: Element, n: nat)
    requires n <= |e.children| && forall i | 0 <= i < |e.children| :: PlainInside(e.children[i])
    ensures Covers(WalkChildren(e, n), e.children[..n])
  {
    if n > 0 {
      BearersOfTwoLevels(e, n - 1);
      CoversOneMore(WalkChildren(e, n - 1), e.children[..n - 1], e.children[n - 1]);
      assert e.children[..n] == e.children[..n - 1] + [e.children[n - 1]];
    }
  }
}
