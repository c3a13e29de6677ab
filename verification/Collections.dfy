/** Shared value types: an optional value and Python's insertion-ordered dictionary. */
module Collections {

  datatype Option<+T> = None | Some(value: T)

  function Max(a: real, b: real): real { if a >= b then a else b }

  function Min(a: real, b: real): real { if a <= b then a else b }

  /** Truncation toward zero. */
  function Truncate(x: real): int { if x >= 0.0 then x.Floor else -((-x).Floor) }

  /** The whole number between 0 and x that is nearest to x. */
  lemma TowardZero(x: real, n: int)
    ensures x >= 0.0 ==> (Truncate(x) == n <==> n as real <= x < n as real + 1.0)
    ensures x < 0.0 ==> (Truncate(x) == n <==> n as real - 1.0 < x <= n as real)
  {
  }

  ghost predicate NoDup<K>(s: seq<K>) {
    forall i, j :: 0 <= i < j < |s| ==> s[i] != s[j]
  }

  /** s with every k removed, order kept. */
  function Without<K(==,!new)>(s: seq<K>, k: K): (r: seq<K>)
    ensures forall x :: x in r <==> x in s && x != k
    ensures NoDup(s) ==> NoDup(r)
    ensures k !in s ==> r == s
  {
    if s == [] then []
    else if s[0] == k then
      assert forall x :: x in s <==> x == k || x in s[1..];
      Without(s[1..], k)
    else
      assert forall x :: x in s <==> x == s[0] || x in s[1..];
      var rest := Without(s[1..], k);
      assert k !in s ==> [s[0]] + rest == s;
      assert NoDup(s) ==> NoDup(s[1..]) && s[0] !in rest;
      [s[0]] + rest
  }

  /**
   * A dictionary that remembers insertion order: assigning to a present key
   * keeps its position, popping and re-inserting moves it to the end.
   */
  datatype Dict<K(==,!new), V> = Dict(keys: seq<K>, at: map<K, V>) {

    ghost predicate Valid() {
      NoDup(keys) && forall k :: k in keys <==> k in at
    }

    function Set(k: K, v: V): (d: Dict<K, V>)
      ensures Valid() ==> d.Valid()
      ensures d.at == at[k := v]
    {
      Dict(if k in at then keys else keys + [k], at[k := v])
    }

    function Pop(k: K): (d: Dict<K, V>)
      ensures Valid() ==> d.Valid()
      ensures d.at == at - {k}
    {
      Dict(Without(keys, k), at - {k})
    }

    function Values(): (vs: seq<V>)
      requires Valid()
      ensures |vs| == |keys|
    {
      seq(|keys|, i requires 0 <= i < |keys| => at[keys[i]])
    }
  }

  function Empty<K(==,!new), V>(): (d: Dict<K, V>)
    ensures d.Valid()
  {
    Dict([], map[])
  }

  lemma InitAndLast<T>(s: seq<T>)
    requires s != []
    ensures s == s[..|s| - 1] + [s[|s| - 1]]
  {
  }

  lemma Reassociate<T>(x: seq<T>, y: seq<T>, z: seq<T>)
    ensures x + y + z == x + (y + z)
  {
  }
}
