/** The array methods the handlers use, `find` and `filter`, over sequences. */
module Seqs {
  import opened Wrappers

  /** The index `arr.find(p)` stops at: the first element satisfying `p`, if any. */
  function FindFirst<T>(s: seq<T>, p: T -> bool): (r: Option<nat>)
    ensures r.Some? ==> r.value < |s| && p(s[r.value])
    ensures r.Some? ==> forall j :: 0 <= j < r.value ==> !p(s[j])
    ensures r.None? <==> forall j :: 0 <= j < |s| ==> !p(s[j])
  {
    if s == [] then None
    else if p(s[0]) then Some(0)
    else match FindFirst(s[1..], p)
      case None => None
      case Some(k) => Some(k + 1)
  }

  /** `arr.filter(p)`: the elements satisfying `p`, in their original order. */
  function Filter<T(==)>(s: seq<T>, p: T -> bool): (r: seq<T>)
    ensures |r| <= |s|
    ensures forall i :: 0 <= i < |r| ==> p(r[i]) && r[i] in s
    ensures forall i :: 0 <= i < |s| && p(s[i]) ==> s[i] in r
  {
    if s == [] then []
    else (if p(s[0]) then [s[0]] else []) + Filter(s[1..], p)
  }

  /** Filtering a concatenation filters each part: the kept elements of `a` all
      come before the kept elements of `b`. */
  lemma {:induction false} FilterAppend<T>(a: seq<T>, b: seq<T>, p: T -> bool)
    ensures Filter(a + b, p) == Filter(a, p) + Filter(b, p)
  {
    if a == [] {
      assert a + b == b;
    } else {
      assert (a + b)[1..] == a[1..] + b;
      FilterAppend(a[1..], b, p);
    }
  }

  /** A filter that rejects nothing returns its input. */
  lemma {:induction false} FilterKeepsAll<T>(s: seq<T>, p: T -> bool)
    requires forall i :: 0 <= i < |s| ==> p(s[i])
    ensures Filter(s, p) == s
  {
    if s != [] {
      FilterKeepsAll(s[1..], p);
    }
  }

  /** Filtering twice by the same predicate is filtering once. */
  lemma FilterIdempotent<T>(s: seq<T>, p: T -> bool)
    ensures Filter(Filter(s, p), p) == Filter(s, p)
  {
    FilterKeepsAll(Filter(s, p), p);
  }

  /** Where a kept element lands: `s[i]` is at index `|Filter(s[..i], p)|` of the
      result, and that index grows with `i`, strictly past each kept element.
      So the relative order of the kept elements is that of `s`. */
  lemma FilterPosition<T>(s: seq<T>, p: T -> bool, i: nat)
    requires i < |s| && p(s[i])
    ensures |Filter(s[..i], p)| < |Filter(s, p)|
    ensures Filter(s, p)[|Filter(s[..i], p)|] == s[i]
  {
    assert s == s[..i] + ([s[i]] + s[i + 1..]);
    FilterAppend(s[..i], [s[i]] + s[i + 1..], p);
    FilterAppend([s[i]], s[i + 1..], p);
    assert Filter([s[i]], p) == [s[i]];
  }

  lemma FilterRankMonotone<T>(s: seq<T>, p: T -> bool, i: nat, j: nat)
    requires i < j <= |s|
    ensures |Filter(s[..i], p)| <= |Filter(s[..j], p)|
    ensures p(s[i]) ==> |Filter(s[..i], p)| < |Filter(s[..j], p)|
  {
    assert s[..j] == s[..i] + s[i..j];
    FilterAppend(s[..i], s[i..j], p);
    if p(s[i]) {
      assert s[i..j][0] == s[i];
      assert s[i] in Filter(s[i..j], p);
    }
  }

  /** Removing what fails `p` from a sequence in which exactly the element at `k`
      fails shortens it by one. */
  lemma FilterDropsOne<T>(s: seq<T>, p: T -> bool, k: nat)
    requires k < |s| && !p(s[k])
    requires forall j :: 0 <= j < |s| && j != k ==> p(s[j])
    ensures |Filter(s, p)| == |s| - 1
  {
    var front, back := s[..k], s[k + 1..];
    assert s == front + ([s[k]] + back);
    FilterAppend(front, [s[k]] + back, p);
    FilterAppend([s[k]], back, p);
    assert Filter([s[k]], p) == [];
    forall j | 0 <= j < |front| ensures p(front[j]) { assert front[j] == s[j]; }
    forall j | 0 <= j < |back| ensures p(back[j]) { assert back[j] == s[k + 1 + j]; }
    FilterKeepsAll(front, p);
    FilterKeepsAll(back, p);
  }

  /** No two elements share a key. */
  predicate DistinctBy<T, K(==)>(s: seq<T>, key: T -> K) {
    forall i, j :: 0 <= i < j < |s| ==> key(s[i]) != key(s[j])
  }

  /** Keys stay distinct when an element with an unused key is appended. */
  lemma DistinctByAppend<T, K>(s: seq<T>, x: T, key: T -> K)
    requires DistinctBy(s, key)
    requires forall i :: 0 <= i < |s| ==> key(s[i]) != key(x)
    ensures DistinctBy(s + [x], key)
  {
  }

  /** Keys stay distinct when an element is replaced by one with the same key. */
  lemma DistinctByUpdate<T, K>(s: seq<T>, i: nat, x: T, key: T -> K)
    requires DistinctBy(s, key) && i < |s| && key(x) == key(s[i])
    ensures DistinctBy(s[i := x], key)
  {
  }

  /** Keys stay distinct under any filter. */
  lemma {:induction false} DistinctByFilter<T, K>(s: seq<T>, p: T -> bool, key: T -> K)
    requires DistinctBy(s, key)
    ensures DistinctBy(Filter(s, p), key)
  {
    if s != [] {
      DistinctByFilter(s[1..], p, key);
      var rest := Filter(s[1..], p);
      forall j | 0 <= j < |rest| ensures key(rest[j]) != key(s[0]) {
        assert rest[j] in s[1..];
      }
    }
  }
}
