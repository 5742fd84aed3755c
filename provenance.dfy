/** Provenance bookkeeping shared by the three merges of the aggregator: the stream of
    (item, document index) occurrences that the nested `forEach` loops visit, and the
    reference definition of "the documents that mention a key". */
module Provenance {
  import opened Ordered
  import opened KnowledgeGraph

  predicate NonDecreasing(s: seq<nat>)
  {
    forall i, j :: 0 <= i < j < |s| ==> s[i] <= s[j]
  }

  /** Ascending with no repeats. */
  predicate StrictlyIncreasing(s: seq<nat>)
  {
    forall i, j :: 0 <= i < j < |s| ==> s[i] < s[j]
  }

  /** Pairs every item with the index of the analysis it came from. */
  function Tagged<T>(items: seq<T>, idx: nat): (r: seq<(T, nat)>)
    ensures |r| == |items|
    ensures forall k :: 0 <= k < |r| ==> r[k] == (items[k], idx)
  {
    seq(|items|, k requires 0 <= k < |items| => (items[k], idx))
  }

  /** `analyses.forEach((res, idx) => pick(res).forEach(x => ...))` visits these pairs, in this order. */
  function Occurrences<T>(analyses: seq<Analysis>, pick: Analysis -> seq<T>): seq<(T, nat)>
    decreases |analyses|
  {
    if analyses == [] then []
    else Occurrences(analyses[..|analyses| - 1], pick) + Tagged(pick(analyses[|analyses| - 1]), |analyses| - 1)
  }

  /** The keys of a sequence of items. */
  function KeysIn<T>(items: seq<T>, key: T -> string): (r: seq<string>)
    ensures |r| == |items|
    ensures forall i :: 0 <= i < |items| ==> r[i] == key(items[i])
  {
    seq(|items|, i requires 0 <= i < |items| => key(items[i]))
  }

  /** The keys of the items of a stream of occurrences, in stream order. */
  function OccurrenceKeys<T>(occs: seq<(T, nat)>, key: T -> string): (r: seq<string>)
    ensures |r| == |occs|
    ensures forall i :: 0 <= i < |occs| ==> r[i] == key(occs[i].0)
  {
    seq(|occs|, i requires 0 <= i < |occs| => key(occs[i].0))
  }

  /** The document indices of the occurrences whose key is `k`, repeats included. */
  function IndicesOf<T>(occs: seq<(T, nat)>, key: T -> string, k: string): seq<nat>
    decreases |occs|
  {
    if occs == [] then []
    else IndicesOf(occs[..|occs| - 1], key, k) + (if key(occs[|occs| - 1].0) == k then [occs[|occs| - 1].1] else [])
  }

  /** Reference definition: the indices of the analyses having an item with key `k`, ascending. */
  function DocsWith<T>(analyses: seq<Analysis>, pick: Analysis -> seq<T>, key: T -> string, k: string): seq<nat>
    decreases |analyses|
  {
    if analyses == [] then []
    else
      DocsWith(analyses[..|analyses| - 1], pick, key, k)
      + (if k in KeysIn(pick(analyses[|analyses| - 1]), key) then [|analyses| - 1] else [])
  }

  /** `DocsWith` holds each analysis having an item with key `k`, once, ascending. */
  lemma {:induction false} DocsWithSpec<T>(analyses: seq<Analysis>, pick: Analysis -> seq<T>, key: T -> string, k: string)
    ensures StrictlyIncreasing(DocsWith(analyses, pick, key, k))
    ensures forall i: nat :: i in DocsWith(analyses, pick, key, k) <==> i < |analyses| && k in KeysIn(pick(analyses[i]), key)
    decreases |analyses|
  {
    if analyses != [] {
      var n := |analyses|;
      var p := analyses[..n - 1];
      DocsWithSpec(p, pick, key, k);
      assert forall i :: 0 <= i < n - 1 ==> analyses[i] == p[i];
      var dp := DocsWith(p, pick, key, k);
      forall j | 0 <= j < |dp| ensures dp[j] < n - 1 {
        assert dp[j] in dp;
      }
    }
  }

  lemma {:induction false} IndicesOfAppend<T>(xs: seq<(T, nat)>, ys: seq<(T, nat)>, key: T -> string, k: string)
    ensures IndicesOf(xs + ys, key, k) == IndicesOf(xs, key, k) + IndicesOf(ys, key, k)
    decreases |ys|
  {
    if ys != [] {
      var ys' := ys[..|ys| - 1];
      assert (xs + ys)[..|xs + ys| - 1] == xs + ys';
      assert (xs + ys)[|xs + ys| - 1] == ys[|ys| - 1];
      IndicesOfAppend(xs, ys', key, k);
    } else {
      assert xs + ys == xs;
    }
  }

  /** The occurrences of one document contribute its index, once per item with key `k`. */
  lemma {:induction false} IndicesOfTagged<T>(items: seq<T>, idx: nat, key: T -> string, k: string)
    ensures forall i :: i in IndicesOf(Tagged(items, idx), key, k) ==> i == idx
    ensures IndicesOf(Tagged(items, idx), key, k) != [] <==> k in KeysIn(items, key)
    decreases |items|
  {
    if items != [] {
      var p := items[..|items| - 1];
      assert Tagged(items, idx)[..|items| - 1] == Tagged(p, idx);
      IndicesOfTagged(p, idx, key, k);
      assert KeysIn(items, key) == KeysIn(p, key) + [key(items[|items| - 1])];
    }
  }

  /** The indices met while streaming occurrences with key `k` are exactly the documents
      that have an item with key `k`. */
  lemma {:induction false} OccurrenceIndicesMembers<T>(analyses: seq<Analysis>, pick: Analysis -> seq<T>, key: T -> string, k: string)
    ensures forall i: nat :: i in IndicesOf(Occurrences(analyses, pick), key, k) <==> i < |analyses| && k in KeysIn(pick(analyses[i]), key)
    decreases |analyses|
  {
    if analyses != [] {
      var n := |analyses|;
      var p := analyses[..n - 1];
      var items := pick(analyses[n - 1]);
      OccurrenceIndicesMembers(p, pick, key, k);
      assert Occurrences(analyses, pick) == Occurrences(p, pick) + Tagged(items, n - 1);
      IndicesOfAppend(Occurrences(p, pick), Tagged(items, n - 1), key, k);
      IndicesOfTagged(items, n - 1, key, k);
      var xs := IndicesOf(Occurrences(p, pick), key, k);
      var ys := IndicesOf(Tagged(items, n - 1), key, k);
      assert IndicesOf(Occurrences(analyses, pick), key, k) == xs + ys;
      forall i: nat ensures i in xs + ys <==> i < n && k in KeysIn(pick(analyses[i]), key) {
        if i < n - 1 {
          assert analyses[i] == p[i];
          assert i !in ys;
        } else if i == n - 1 {
          assert i !in xs;
          if ys != [] { assert ys[0] in ys; }
        } else {
          assert i !in xs && i !in ys;
        }
      }
    }
  }

  /** The indices met while streaming occurrences never decrease. */
  lemma {:induction false} OccurrenceIndicesSorted<T>(analyses: seq<Analysis>, pick: Analysis -> seq<T>, key: T -> string, k: string)
    ensures NonDecreasing(IndicesOf(Occurrences(analyses, pick), key, k))
    decreases |analyses|
  {
    if analyses != [] {
      var n := |analyses|;
      var p := analyses[..n - 1];
      var items := pick(analyses[n - 1]);
      OccurrenceIndicesSorted(p, pick, key, k);
      OccurrenceIndicesMembers(p, pick, key, k);
      IndicesOfAppend(Occurrences(p, pick), Tagged(items, n - 1), key, k);
      IndicesOfTagged(items, n - 1, key, k);
      var xs := IndicesOf(Occurrences(p, pick), key, k);
      var ys := IndicesOf(Tagged(items, n - 1), key, k);
      forall i | 0 <= i < |xs| ensures xs[i] < n - 1 {
        assert xs[i] in xs;
      }
      forall j | 0 <= j < |ys| ensures ys[j] == n - 1 {
        assert ys[j] in ys;
      }
    }
  }

  /** Adding the elements of a non-decreasing sequence to an ordered set yields them ascending. */
  lemma {:induction false} DedupOfNonDecreasing(xs: seq<nat>)
    requires NonDecreasing(xs)
    ensures StrictlyIncreasing(Dedup(xs))
    decreases |xs|
  {
    if xs != [] {
      var p := xs[..|xs| - 1];
      DedupOfNonDecreasing(p);
      var d := Dedup(p);
      forall i | 0 <= i < |d| ensures d[i] <= xs[|xs| - 1] {
        assert d[i] in p;
      }
    }
  }

  /** The last element of an ascending sequence is above all the others. */
  lemma LastIsLargest(xs: seq<nat>)
    requires StrictlyIncreasing(xs) && xs != []
    ensures forall j :: 0 <= j < |xs| - 1 ==> xs[j] < xs[|xs| - 1]
  {
  }

  /** Two ascending sequences with the same elements are equal. */
  lemma {:induction false} AscendingUnique(xs: seq<nat>, ys: seq<nat>)
    requires StrictlyIncreasing(xs) && StrictlyIncreasing(ys)
    requires forall i :: i in xs <==> i in ys
    ensures xs == ys
    decreases |xs| + |ys|
  {
    if xs == [] || ys == [] {
      HeadIn(xs);
      HeadIn(ys);
    } else {
      var xs', a := xs[..|xs| - 1], xs[|xs| - 1];
      var ys', b := ys[..|ys| - 1], ys[|ys| - 1];
      assert a == b by {
        LastIsLargest(xs);
        LastIsLargest(ys);
        assert a in ys && b in xs;
      }
      assert xs == xs' + [a] && ys == ys' + [b];
      DropLargest(xs', ys', a);
      AscendingUnique(xs', ys');
    }
  }

  /** Removing the same largest element from two ascending sequences with the same elements
      leaves two ascending sequences with the same elements. */
  lemma DropLargest(xs': seq<nat>, ys': seq<nat>, a: nat)
    requires StrictlyIncreasing(xs' + [a]) && StrictlyIncreasing(ys' + [a])
    requires forall i :: i in xs' + [a] <==> i in ys' + [a]
    ensures StrictlyIncreasing(xs') && StrictlyIncreasing(ys')
    ensures forall i :: i in xs' <==> i in ys'
  {
    var xs, ys := xs' + [a], ys' + [a];
    forall i | i in xs' ensures i in ys' {
      var j :| 0 <= j < |xs'| && xs'[j] == i;
      assert xs[|xs'|] == a;
      assert xs[j] == i && i in ys && i < a;
    }
    forall i | i in ys' ensures i in xs' {
      var j :| 0 <= j < |ys'| && ys'[j] == i;
      assert ys[|ys'|] == a;
      assert ys[j] == i && i in xs && i < a;
    }
    forall i, j | 0 <= i < j < |xs'| ensures xs'[i] < xs'[j] {
      assert xs[i] < xs[j];
    }
    forall i, j | 0 <= i < j < |ys'| ensures ys'[i] < ys'[j] {
      assert ys[i] < ys[j];
    }
  }

  /** The ordered set of the indices met while streaming is the reference list of documents. */
  lemma FilesAreDocuments<T>(analyses: seq<Analysis>, pick: Analysis -> seq<T>, key: T -> string, k: string)
    ensures Dedup(IndicesOf(Occurrences(analyses, pick), key, k)) == DocsWith(analyses, pick, key, k)
  {
    OccurrenceIndicesMembers(analyses, pick, key, k);
    OccurrenceIndicesSorted(analyses, pick, key, k);
    DedupOfNonDecreasing(IndicesOf(Occurrences(analyses, pick), key, k));
    DocsWithSpec(analyses, pick, key, k);
    AscendingUnique(Dedup(IndicesOf(Occurrences(analyses, pick), key, k)), DocsWith(analyses, pick, key, k));
  }

  /** The keys met while streaming are, in order, the keys of every document's items. */
  lemma {:induction false} OccurrenceKeysSpec<T>(analyses: seq<Analysis>, pick: Analysis -> seq<T>, key: T -> string, k: string)
    ensures k in OccurrenceKeys(Occurrences(analyses, pick), key) <==> exists i :: 0 <= i < |analyses| && k in KeysIn(pick(analyses[i]), key)
    decreases |analyses|
  {
    if analyses != [] {
      var n := |analyses|;
      var p := analyses[..n - 1];
      var items := pick(analyses[n - 1]);
      OccurrenceKeysSpec(p, pick, key, k);
      var o := Occurrences(analyses, pick);
      assert OccurrenceKeys(o, key) == OccurrenceKeys(Occurrences(p, pick), key) + KeysIn(items, key);
      assert forall i :: 0 <= i < n - 1 ==> analyses[i] == p[i];
    }
  }
}
