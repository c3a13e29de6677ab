/** The element tree as the program holds it: sealing writes hashes into the nodes themselves. */
module SealedTree {
  import opened Dgml

  class Node {
    const tag: string
    const text: string
    const children: seq<Node>
    var attrs: map<Name, string>
    /** This node and every node below it. */
    ghost const repr: set<Node>

    /** A tree: no node is below itself or under two parents. */
    ghost predicate Valid()
      decreases repr
    {
      && this in repr
      && (forall i | 0 <= i < |children| :: children[i].repr < repr && this !in children[i].repr && children[i].Valid())
      && forall i, j | 0 <= i < j < |children| :: children[i].repr !! children[j].repr
    }

    constructor (tag: string, attrs: map<Name, string>, text: string, children: seq<Node>)
      requires forall i | 0 <= i < |children| :: children[i].Valid()
      requires forall i, j | 0 <= i < j < |children| :: children[i].repr !! children[j].repr
      ensures Valid() && this.tag == tag && this.attrs == attrs && this.text == text && this.children == children
    {
      this.tag := tag;
      this.attrs := attrs;
      this.text := text;
      this.children := children;
      this.repr := {this} + set i, x | 0 <= i < |children| && x in children[i].repr :: x;
    }

    /** The element this node is the root of. */
    function Tree(): (e: Element)
      requires Valid()
      reads repr
      ensures e.tag == tag && e.attrs == attrs && e.text == text && |e.children| == |children|
      ensures forall i | 0 <= i < |children| :: e.children[i] == children[i].Tree()
      decreases repr, |children| + 1
    {
      Element(tag, attrs, text, Trees(|children|))
    }

    function Trees(n: nat): (es: seq<Element>)
      requires Valid() && n <= |children|
      reads repr
      ensures |es| == n && forall i | 0 <= i < n :: es[i] == children[i].Tree()
      decreases repr, n
    {
      if n == 0 then [] else Trees(n - 1) + [children[n - 1].Tree()]
    }

    /** Whether sealing enters this node. */
    predicate IsAttested()
      reads this
    {
      Attest in attrs && attrs[Attest] == "true"
    }

    /** Seals one child if it is attested; its siblings do not notice. */
    method SealChild(d: Digest, i: nat)
      requires Valid() && i < |children|
      modifies children[i].repr
      ensures children[i].Tree() ==
              old(if Attested(children[i].Tree()) then Sealed(d, children[i].Tree()) else children[i].Tree())
      ensures forall j | 0 <= j < |children| && j != i :: children[j].Tree() == old(children[j].Tree())
      ensures attrs == old(attrs)
      decreases repr, 0
    {
      if children[i].IsAttested() {
        var _ := children[i].Seal(d);
      }
    }

    method SealChildren(d: Digest)
      requires Valid()
      modifies repr
      ensures Tree() == old(Tree().(children := SealedChildren(d, Tree())))
      decreases repr, 1
    {
      ghost var before := Tree();
      for i := 0 to |children|
        invariant attrs == before.attrs
        invariant forall j | 0 <= j < i :: children[j].Tree() == SealedChildren(d, before)[j]
        invariant forall j | i <= j < |children| :: children[j].Tree() == before.children[j]
      {
        SealChild(d, i);
      }
      assert Tree().children == SealedChildren(d, before);
    }

    /** Seals the attested children, then this node. */
    method Seal(d: Digest) returns (digest: string)
      requires Valid()
      modifies repr
      ensures Tree() == Sealed(d, old(Tree()))
      ensures digest == ElementHash(d, old(Tree()))
      decreases repr, 2
    {
      SealedBody(d, Tree());
      SealChildren(d);
      digest := ElementHash(d, Tree());
      SetHash(digest);
    }

    method SetHash(digest: string)
      requires Valid()
      modifies this
      ensures Tree() == old(Tree().(attrs := Tree().attrs[Hash := digest]))
    {
      attrs := attrs[Hash := digest];
      assert Tree().children == old(Tree().children);
    }
  }

  lemma SealedBody(d: Digest, e: Element)
    ensures ElementHash(d, e.(children := SealedChildren(d, e))) == ElementHash(d, e)
  {
    SealedVerifies(d, e);
  }
}
