/** Sequences as JavaScript's insertion-ordered collections use them: a `Set` is held as
    its iteration order, a `Map` as its key order beside a key-to-value map, and
    `Array.prototype.filter` keeps the order of what it keeps. */
module Ordered {

  /** No element occurs twice. */
  predicate Distinct<T(==)>(s: seq<T>)
  {
    forall i, j :: 0 <= i < j < |s| ==> s[i] != s[j]
  }

  /** `set.add(x)` on a set held as its iteration order. */
  function SetAdd<T(==,!new)>(s: seq<T>, x: T): (r: seq<T>)
    ensures forall y :: y in r <==> y in s || y == x
    ensures Distinct(s) ==> Distinct(r)
    ensures |s| <= |r| <= |s| + 1 && r[..|s|] == s
  {
    if x in s then s else s + [x]
  }

  /** `Array.from(new Set(xs))`: the distinct elements of `xs`, each once. */
  function Dedup<T(==,!new)>(xs: seq<T>): (r: seq<T>)
    ensures Distinct(r)
    ensures forall y :: y in r <==> y in xs
    ensures |r| <= |xs|
    decreases |xs|
  {
    if xs == [] then [] else SetAdd(Dedup(xs[..|xs| - 1]), xs[|xs| - 1])
  }

  /** The position of the first occurrence of `x` in `xs`. */
  function FirstIndex<T(==)>(xs: seq<T>, x: T): (i: nat)
    requires x in xs
    ensures i < |xs| && xs[i] == x
    ensures forall j :: 0 <= j < i ==> xs[j] != x
  {
    if xs[0] == x then 0
    else
      assert x in xs[1..] by { var k :| 0 <= k < |xs| && xs[k] == x; assert xs[1..][k - 1] == x; }
      1 + FirstIndex(xs[1..], x)
  }

  /** The first occurrence is the only index with the element and none before it. */
  lemma FirstIndexUnique<T>(xs: seq<T>, x: T, k: nat)
    requires k < |xs| && xs[k] == x
    requires forall j :: 0 <= j < k ==> xs[j] != x
    ensures FirstIndex(xs, x) == k
  {
  }

  /** Appending an element does not move the first occurrence of an earlier one. */
  lemma FirstIndexAppend<T>(xs: seq<T>, z: T, x: T)
    requires x in xs
    ensures FirstIndex(xs + [z], x) == FirstIndex(xs, x)
  {
    FirstIndexUnique(xs + [z], x, FirstIndex(xs, x));
  }

  /** `Array.from(new Set(xs))` lists the elements of `xs` in the order of their first
      occurrences. */
  lemma {:induction false} DedupFirstOccurrenceOrder<T(!new)>(xs: seq<T>, i: nat, j: nat)
    requires i < j < |Dedup(xs)|
    ensures FirstIndex(xs, Dedup(xs)[i]) < FirstIndex(xs, Dedup(xs)[j])
    decreases |xs|
  {
    var n := |xs|;
    var p, z := xs[..n - 1], xs[n - 1];
    assert xs == p + [z];
    var d := Dedup(p);
    assert d[i] in p;
    FirstIndexAppend(p, z, d[i]);
    if z in d || j < |d| {
      assert d[j] in p;
      FirstIndexAppend(p, z, d[j]);
      DedupFirstOccurrenceOrder(p, i, j);
    } else {
      assert Dedup(xs)[j] == z && z !in p;
      FirstIndexUnique(xs, z, n - 1);
    }
  }

  /** A non-empty sequence holds its first element. */
  lemma HeadIn<T>(s: seq<T>)
    ensures s != [] ==> s[0] in s
  {
  }

  /** Adding one more element to the stream adds it to the ordered set. */
  lemma DedupSnoc<T(!new)>(xs: seq<T>, x: T)
    ensures Dedup(xs + [x]) == SetAdd(Dedup(xs), x)
  {
    assert (xs + [x])[..|xs|] == xs;
  }

  lemma {:induction false} DedupOfDistinct<T(!new)>(xs: seq<T>)
    requires Distinct(xs)
    ensures Dedup(xs) == xs
    decreases |xs|
  {
    if xs != [] {
      var p := xs[..|xs| - 1];
      DedupOfDistinct(p);
      assert xs[|xs| - 1] !in p;
      assert p + [xs[|xs| - 1]] == xs;
    }
  }

  /** `r` can be obtained from `s` by deleting elements, without reordering the rest. */
  predicate IsSubsequence<T(==)>(r: seq<T>, s: seq<T>)
    decreases |s|
  {
    if r == [] then true
    else if s == [] then false
    else if r[|r| - 1] == s[|s| - 1] then IsSubsequence(r[..|r| - 1], s[..|s| - 1])
    else IsSubsequence(r, s[..|s| - 1])
  }

  /** `s.filter(p)`. */
  function Filter<T(!new)>(s: seq<T>, p: T -> bool): (r: seq<T>)
    ensures forall x :: x in r <==> x in s && p(x)
    ensures IsSubsequence(r, s)
    ensures |r| <= |s|
    decreases |s|
  {
    if s == [] then []
    else
      var rest := Filter(s[..|s| - 1], p);
      var last := s[|s| - 1];
      assert (s[..|s| - 1] + [last]) == s;
      if p(last) then
        assert (rest + [last])[..|rest|] == rest;
        rest + [last]
      else
        assert rest != [] ==> rest[|rest| - 1] in rest;
        rest
  }

  /** The filter's `i`-th and `j`-th results come from positions of `s` in the same order. */
  lemma {:induction false} FilterPicksInOrder<T(!new)>(s: seq<T>, p: T -> bool, i: nat, j: nat)
    requires i < j < |Filter(s, p)|
    ensures exists a, b :: 0 <= a < b < |s| && Filter(s, p)[i] == s[a] && Filter(s, p)[j] == s[b]
    decreases |s|
  {
    var n := |s|;
    var front := s[..n - 1];
    var rest := Filter(front, p);
    var r := Filter(s, p);
    assert r == if p(s[n - 1]) then rest + [s[n - 1]] else rest;
    if j < |rest| {
      FilterPicksInOrder(front, p, i, j);
      var a, b :| 0 <= a < b < |front| && rest[i] == front[a] && rest[j] == front[b];
      assert r[i] == s[a] && r[j] == s[b];
    } else {
      assert r[j] == s[n - 1] && r[i] == rest[i];
      assert rest[i] in front;
      var k :| 0 <= k < n - 1 && front[k] == rest[i];
      assert r[i] == s[k];
    }
  }

  /** A filter that keeps everything returns its input. */
  lemma {:induction false} FilterKeepsAll<T(!new)>(s: seq<T>, p: T -> bool)
    requires forall x :: x in s ==> p(x)
    ensures Filter(s, p) == s
    decreases |s|
  {
    if s != [] {
      FilterKeepsAll(s[..|s| - 1], p);
      assert s[..|s| - 1] + [s[|s| - 1]] == s;
    }
  }

  /** A filter that keeps nothing returns the empty sequence. */
  lemma FilterKeepsNone<T(!new)>(s: seq<T>, p: T -> bool)
    requires forall x :: x in s ==> !p(x)
    ensures Filter(s, p) == []
  {
    if Filter(s, p) != [] {
      assert Filter(s, p)[0] in Filter(s, p);
    }
  }

  /** Filtering distinct elements leaves them distinct. */
  lemma {:induction false} FilterDistinct<T(!new)>(s: seq<T>, p: T -> bool)
    requires Distinct(s)
    ensures Distinct(Filter(s, p))
    decreases |s|
  {
    if s != [] {
      FilterDistinct(s[..|s| - 1], p);
    }
  }

  /** A JavaScript `Map` with its keys in insertion order. */
  datatype OrderedMap<K(!new), V> = OrderedMap(keys: seq<K>, vals: map<K, V>)
  {
    /** The keys are listed once each and are exactly the map's domain. */
    ghost predicate Valid()
    {
      Distinct(keys) && forall k :: k in vals <==> k in keys
    }
  }

  function EmptyMap<K(!new), V>(): (m: OrderedMap<K, V>)
    ensures m.Valid() && m.keys == []
  {
    OrderedMap([], map[])
  }

  /** `m.set(k, v)`: a new key goes to the end of the order, an existing key keeps its place. */
  function Put<K(!new), V>(m: OrderedMap<K, V>, k: K, v: V): (r: OrderedMap<K, V>)
    requires m.Valid()
    ensures r.Valid()
    ensures r.keys == SetAdd(m.keys, k)
    ensures k in r.vals && r.vals[k] == v
    ensures forall j :: j in m.vals && j != k ==> j in r.vals && r.vals[j] == m.vals[j]
  {
    OrderedMap(SetAdd(m.keys, k), m.vals[k := v])
  }

  /** Appending is associative. */
  lemma AppendAssoc<T>(p: seq<T>, q: seq<T>, r: seq<T>)
    ensures p + (q + r) == (p + q) + r
  {
  }

  /** The pieces `f` gives each element, concatenated in order. */
  function FlatMap<T, U>(s: seq<T>, f: T -> seq<U>): seq<U>
    decreases |s|
  {
    if s == [] then [] else FlatMap(s[..|s| - 1], f) + f(s[|s| - 1])
  }

  /** Mapping two runs maps the first, then the second. */
  lemma {:induction false} FlatMapConcat<T, U>(a: seq<T>, b: seq<T>, f: T -> seq<U>)
    ensures FlatMap(a + b, f) == FlatMap(a, f) + FlatMap(b, f)
    decreases |b|
  {
    if b == [] {
      assert a + b == a;
    } else {
      var b', x := b[..|b| - 1], b[|b| - 1];
      FlatMapConcat(a, b', f);
      var ab := a + b;
      assert ab[..|ab| - 1] == a + b' && ab[|ab| - 1] == x;
      AppendAssoc(FlatMap(a, f), FlatMap(b', f), f(x));
    }
  }

  /** An element of the result comes from the piece of some element. */
  lemma {:induction false} FlatMapMembers<T, U>(s: seq<T>, f: T -> seq<U>, u: U)
    ensures u in FlatMap(s, f) <==> exists i :: 0 <= i < |s| && u in f(s[i])
    decreases |s|
  {
    if s != [] {
      var p := s[..|s| - 1];
      FlatMapMembers(p, f, u);
      assert forall i :: 0 <= i < |p| ==> p[i] == s[i];
    }
  }
}
