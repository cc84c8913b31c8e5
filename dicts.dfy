/**
  Python's `dict` with string keys, as the container builder uses it: an
  insertion-ordered list of key/value bindings.  Reading a key finds its
  (last) binding, `d[k] = v` replaces an existing binding where it stands or
  appends a new one at the end, and `d.update(other)` stores the bindings of
  `other` one after another, so a later binding of a key wins.
 */
module Dicts {
  import opened Wrappers

  type Items<V> = seq<(string, V)>

  /** The keys of `d`, in insertion order. */
  function Keys<V>(d: Items<V>): seq<string> {
    if d == [] then [] else Keys(d[..|d| - 1]) + [d[|d| - 1].0]
  }

  predicate HasKey<V>(d: Items<V>, k: string) {
    k in Keys(d)
  }

  /** No key is bound twice: the invariant every Python dict keeps. */
  predicate UniqueKeys<V>(d: Items<V>) {
    forall i, j :: 0 <= i < j < |Keys(d)| ==> Keys(d)[i] != Keys(d)[j]
  }

  /** `d.get(k)`: the value of the last binding of `k`, if any; there is one exactly when `k` is bound. */
  function Get<V>(d: Items<V>, k: string): (r: Option<V>)
    ensures r.Some? <==> HasKey(d, k)
  {
    if d == [] then None
    else if d[|d| - 1].0 == k then Some(d[|d| - 1].1)
    else Get(d[..|d| - 1], k)
  }

  /**
    Rebinds the last binding of `k` to `v` where it stands: the keys and their
    order stay, `k` reads `v` and every other key reads as before.
   */
  function Replace<V>(d: Items<V>, k: string, v: V): (r: Items<V>)
    ensures Keys(r) == Keys(d)
    ensures HasKey(d, k) ==> forall j :: Get(r, j) == if j == k then Some(v) else Get(d, j)
  {
    if d == [] then []
    else if d[|d| - 1].0 == k then
      var front := d[..|d| - 1];
      assert (front + [(k, v)])[..|front|] == front;
      front + [(k, v)]
    else
      var front := Replace(d[..|d| - 1], k, v);
      assert (front + [d[|d| - 1]])[..|front|] == front;
      front + [d[|d| - 1]]
  }

  /**
    `d[k] = v`: binds `k` to `v` and leaves every other key's value as it was;
    an existing key keeps its position, a new key goes last, and a dict stays
    a dict.
   */
  function Set<V>(d: Items<V>, k: string, v: V): (r: Items<V>)
    ensures forall j :: Get(r, j) == if j == k then Some(v) else Get(d, j)
    ensures Keys(r) == if HasKey(d, k) then Keys(d) else Keys(d) + [k]
    ensures UniqueKeys(d) ==> UniqueKeys(r)
  {
    if HasKey(d, k) then Replace(d, k, v)
    else
      assert (d + [(k, v)])[..|d|] == d;
      d + [(k, v)]
  }

  /** The keys of `other` that are not in `ks`, each once, in the order they first appear. */
  function NewKeys<V>(ks: seq<string>, other: Items<V>): (r: seq<string>)
    ensures forall j :: j in r <==> j !in ks && HasKey(other, j)
  {
    if other == [] then []
    else
      var earlier := NewKeys(ks, other[..|other| - 1]);
      var k := other[|other| - 1].0;
      if k in ks || k in earlier then earlier else earlier + [k]
  }

  /**
    `d.update(other)`: every binding of `other`, in order, is stored into `d`.
    Override precedence: a key of `other` takes its (last) value from `other`,
    any other key keeps its value from `d`.  Key order: the keys of `d` where
    they were, then the keys `other` introduces, in the order it introduces
    them.  A dict stays a dict.
   */
  function UpdateAll<V>(d: Items<V>, other: Items<V>): (r: Items<V>)
    ensures forall j :: Get(r, j) == if HasKey(other, j) then Get(other, j) else Get(d, j)
    ensures Keys(r) == Keys(d) + NewKeys(Keys(d), other)
    ensures UniqueKeys(d) ==> UniqueKeys(r)
  {
    if other == [] then d
    else
      var last := other[|other| - 1];
      Set(UpdateAll(d, other[..|other| - 1]), last.0, last.1)
  }

  /** A two-entry dict literal `{k1: v1, k2: v2}` with distinct keys. */
  lemma PairLiteral<V>(k1: string, v1: V, k2: string, v2: V, j: string)
    requires k1 != k2
    ensures Keys([(k1, v1), (k2, v2)]) == [k1, k2]
    ensures UniqueKeys([(k1, v1), (k2, v2)])
    ensures Get([(k1, v1), (k2, v2)], j) == if j == k2 then Some(v2) else if j == k1 then Some(v1) else None
  {
    var d := [(k1, v1), (k2, v2)];
    assert d[..1] == [(k1, v1)];
    assert d[..1][..0] == [];
    assert Keys(d[..1]) == [k1];
    assert Get(d[..1], j) == if j == k1 then Some(v1) else None;
  }

  /** The keys after `d.update(other)` are exactly the keys of `d` and of `other`. */
  lemma UpdateAllHasKey<V>(d: Items<V>, other: Items<V>, j: string)
    ensures HasKey(UpdateAll(d, other), j) <==> HasKey(d, j) || HasKey(other, j)
  {
    var ks := Keys(d) + NewKeys(Keys(d), other);
    assert j in ks <==> j in Keys(d) || j in NewKeys(Keys(d), other);
  }

  /** A mutable Python dict. */
  class Dict<V> {
    var items: Items<V>

    ghost predicate Valid()
      reads this
    {
      UniqueKeys(items)
    }

    /** A dict literal. */
    constructor (items: Items<V>)
      requires UniqueKeys(items)
      ensures Valid() && this.items == items
    {
      this.items := items;
    }

    /** `d[k] = v`. */
    method SetItem(k: string, v: V)
      requires Valid()
      modifies this
      ensures Valid()
      ensures items == Set(old(items), k, v)
    {
      items := Set(items, k, v);
    }

    /** `d.update(other)`, in place. */
    method Update(other: Items<V>)
      requires Valid()
      modifies this
      ensures Valid()
      ensures items == UpdateAll(old(items), other)
    {
      var i := 0;
      while i < |other|
        invariant 0 <= i <= |other|
        invariant Valid()
        invariant items == UpdateAll(old(items), other[..i])
      {
        SetItem(other[i].0, other[i].1);
        assert other[..i + 1][..i] == other[..i];
        i := i + 1;
      }
      assert other[..|other|] == other;
    }
  }
}
