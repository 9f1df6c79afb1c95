/**
 * JavaScript's `Map`: a finite map that remembers the order in which its keys were first set.
 * Setting a present key keeps its place; deleting and setting it again moves it to the end.
 */
module OrderedMaps {

  predicate Distinct<T(==)>(s: seq<T>) {
    forall i, j :: 0 <= i < j < |s| ==> s[i] != s[j]
  }

  /** `s` without any `x`. */
  function Without<T(==)>(s: seq<T>, x: T): (r: seq<T>)
    ensures x !in r
    ensures forall y :: y in r ==> y in s && y != x
    ensures forall y :: y in s ==> y == x || y in r
    ensures |r| <= |s|
    ensures Distinct(s) ==> Distinct(r)
  {
    if s == [] then []
    else if s[0] == x then Without(s[1..], x)
    else
      var rest := Without(s[1..], x);
      assert Distinct(s) ==> Distinct(s[1..]) && s[0] !in rest;
      [s[0]] + rest
  }

  lemma DistinctConcat<T>(a: seq<T>, b: seq<T>)
    requires Distinct(a) && Distinct(b)
    requires forall x :: x in b ==> x !in a
    ensures Distinct(a + b)
  {
    forall i, j | 0 <= i < j < |a + b| ensures (a + b)[i] != (a + b)[j] {
      if i < |a| <= j {
        assert (a + b)[j] == b[j - |a|] && b[j - |a|] in b;
        assert a[i] in a;
      }
    }
  }

  datatype OrderedMap<K(==), V> = OrderedMap(order: seq<K>, items: map<K, V>) {

    predicate Valid() {
      && Distinct(order)
      && (forall k :: k in order ==> k in items)
      && (forall k :: k in items ==> k in order)
    }

    predicate Has(k: K) {
      k in items
    }

    function Size(): nat {
      |order|
    }

    function Put(k: K, v: V): (r: OrderedMap<K, V>)
      ensures r.items == items[k := v]
      ensures Valid() ==> r.Valid()
    {
      OrderedMap(if k in items then order else order + [k], items[k := v])
    }

    function Remove(k: K): (r: OrderedMap<K, V>)
      ensures r.items == items - {k}
      ensures Valid() ==> r.Valid()
      ensures |r.order| <= |order|
    {
      OrderedMap(Without(order, k), items - {k})
    }
  }

  function Empty<K, V>(): (r: OrderedMap<K, V>)
    ensures r.Valid() && r.Size() == 0
  {
    OrderedMap([], map[])
  }

  /** The last `n` elements. */
  function LastN<T>(s: seq<T>, n: nat): (r: seq<T>)
    ensures |r| == if |s| <= n then |s| else n
  {
    if |s| <= n then s else s[|s| - n..]
  }

  /** What is left of `m` when its oldest keys are evicted down to `n`. */
  function Newest<K, V>(m: OrderedMap<K, V>, n: nat): (r: OrderedMap<K, V>)
    requires m.Valid()
    ensures r.Valid() && r.Size() <= n
    ensures r.order == LastN(m.order, n)
    ensures forall k :: k in r.order ==> k in m.items && k in r.items && r.items[k] == m.items[k]
  {
    var kept := LastN(m.order, n);
    OrderedMap(kept, Restrict(m.items, kept))
  }

  function Restrict<K, V>(items: map<K, V>, kept: seq<K>): (r: map<K, V>)
    ensures forall k :: k in r ==> k in items && k in kept && r[k] == items[k]
    ensures forall k :: k in kept ==> k in items ==> k in r
  {
    map k | k in items && k in kept :: items[k]
  }

  /** The eviction loop the source runs after every insertion. */
  method EvictOldest<K(==), V>(m: OrderedMap<K, V>, n: nat) returns (r: OrderedMap<K, V>)
    requires m.Valid()
    ensures r == Newest(m, n)
  {
    r := m;
    while r.Size() > n
      invariant r.Valid()
      invariant Newest(r, n) == Newest(m, n)
      decreases r.Size()
    {
      RemoveOldest(r, n);
      r := r.Remove(r.order[0]);
    }
    NewestOfSmall(r, n);
  }

  lemma {:induction false} WithoutAbsent<T>(s: seq<T>, x: T)
    requires x !in s
    ensures Without(s, x) == s
  {
    if s != [] {
      WithoutAbsent(s[1..], x);
    }
  }

  lemma WithoutFirst<T>(s: seq<T>)
    requires s != [] && Distinct(s)
    ensures Without(s, s[0]) == s[1..]
  {
    WithoutAbsent(s[1..], s[0]);
  }

  lemma RemoveOldest<K, V>(m: OrderedMap<K, V>, n: nat)
    requires m.Valid() && m.Size() > n
    ensures Newest(m.Remove(m.order[0]), n) == Newest(m, n)
    ensures m.Remove(m.order[0]).Size() == m.Size() - 1
  {
    WithoutFirst(m.order);
    var kept := LastN(m.order, n);
    assert LastN(m.order[1..], n) == kept;
    RestrictIgnores(m.items, m.order[0], kept);
  }

  lemma RestrictIgnores<K, V>(items: map<K, V>, x: K, kept: seq<K>)
    requires x !in kept
    ensures Restrict(items - {x}, kept) == Restrict(items, kept)
  {
  }

  lemma NewestOfSmall<K, V>(m: OrderedMap<K, V>, n: nat)
    requires m.Valid() && m.Size() <= n
    ensures Newest(m, n) == m
  {
    assert Newest(m, n).items == m.items;
  }

  /** The size of a valid map is the number of its keys. */
  lemma SizeIsCount<K, V>(m: OrderedMap<K, V>)
    requires m.Valid()
    ensures m.Size() == |m.items|
  {
    DistinctCount(m.order);
    assert (set k | k in m.order) == m.items.Keys;
  }

  lemma {:induction false} DistinctCount<K>(order: seq<K>)
    requires Distinct(order)
    ensures |set k | k in order| == |order|
  {
    if order != [] {
      DistinctCount(order[1..]);
      assert (set k | k in order) == {order[0]} + (set k | k in order[1..]);
    }
  }
}
