/** Sequence helpers shared by the reducers: Swift's `filter`,
    `first(where:)` and `firstIndex(where:)`, with their specifications. */
module Seqs {
  import opened Wrappers

  /** `a` is obtained from `b` by deleting elements, keeping the order of
      the rest (the usual, nondeterministic definition of "subsequence"). */
  predicate Embeds<T(==)>(a: seq<T>, b: seq<T>)
    decreases |b|
  {
    if |a| == 0 then true
    else if |b| == 0 then false
    else (a[0] == b[0] && Embeds(a[1..], b[1..])) || Embeds(a, b[1..])
  }

  /** No element occurs twice. */
  predicate Distinct<T(==)>(s: seq<T>) {
    forall i, j :: 0 <= i < j < |s| ==> s[i] != s[j]
  }

  /** A sequence without repeats has as many distinct elements as entries. */
  lemma {:induction false} DistinctElementCount<T>(s: seq<T>)
    requires Distinct(s)
    ensures |set x | x in s| == |s|
  {
    if |s| > 0 {
      DistinctElementCount(s[1..]);
      assert (set x | x in s) == {s[0]} + (set x | x in s[1..]);
      assert s[0] !in s[1..];
    }
  }

  /** A sequence has at most as many distinct elements as entries, and
      exactly as many only when it has no repeats. */
  lemma {:induction false} ElementCountBound<T>(s: seq<T>)
    ensures |set x | x in s| <= |s|
    ensures |set x | x in s| == |s| ==> Distinct(s)
  {
    if |s| > 0 {
      ElementCountBound(s[1..]);
      assert (set x | x in s) == {s[0]} + (set x | x in s[1..]);
      if s[0] !in s[1..] && |set x | x in s| == |s| {
        forall i, j | 0 <= i < j < |s| ensures s[i] != s[j] {
          if i > 0 {
            assert s[i] == s[1..][i - 1] && s[j] == s[1..][j - 1];
          } else {
            assert s[j] in s[1..];
          }
        }
      }
    }
  }

  /** Swift's `Array.filter`: the elements satisfying `p`, in their order.
      The three properties below determine the result uniquely. */
  function Filter<T(!new)>(p: T -> bool, s: seq<T>): (r: seq<T>)
    ensures forall x :: x in r <==> x in s && p(x)
    ensures forall x :: multiset(r)[x] == if p(x) then multiset(s)[x] else 0
    ensures Embeds(r, s)
  {
    if |s| == 0 then []
    else
      var rest := Filter(p, s[1..]);
      assert s == [s[0]] + s[1..];
      assert multiset(s) == multiset{s[0]} + multiset(s[1..]);
      if p(s[0]) then
        assert ([s[0]] + rest)[1..] == rest;
        [s[0]] + rest
      else
        assert |rest| == 0 || Embeds(rest, s[1..]);
        rest
  }

  /** Filtering a sequence whose elements all pass keeps it whole. */
  lemma {:induction false} FilterKeepsAll<T(!new)>(p: T -> bool, s: seq<T>)
    requires forall x :: x in s ==> p(x)
    ensures Filter(p, s) == s
  {
    if |s| > 0 {
      FilterKeepsAll(p, s[1..]);
    }
  }

  /** Filtering twice with the same predicate is filtering once. */
  lemma FilterIdempotent<T(!new)>(p: T -> bool, s: seq<T>)
    ensures Filter(p, Filter(p, s)) == Filter(p, s)
  {
    FilterKeepsAll(p, Filter(p, s));
  }

  /** Filtering a distinct sequence gives a distinct sequence. */
  lemma FilterDistinct<T(!new)>(p: T -> bool, s: seq<T>)
    requires Distinct(s)
    ensures Distinct(Filter(p, s))
  {
    var r := Filter(p, s);
    forall i, j | 0 <= i < j < |r|
      ensures r[i] != r[j]
    {
      if r[i] == r[j] {
        MultisetCountOfTwo(r, i, j);
        DistinctCountAtMostOne(s, r[i]);
        assert false;
      }
    }
  }

  /** Two equal entries make a multiplicity of at least two. */
  lemma MultisetCountOfTwo<T>(s: seq<T>, i: nat, j: nat)
    requires i < j < |s| && s[i] == s[j]
    ensures multiset(s)[s[i]] >= 2
  {
    assert s == s[..i] + [s[i]] + (s[i+1..j] + [s[j]] + s[j+1..]);
  }

  /** In a distinct sequence nothing occurs twice. */
  lemma {:induction false} DistinctCountAtMostOne<T>(s: seq<T>, x: T)
    requires Distinct(s)
    ensures multiset(s)[x] <= 1
  {
    if |s| > 0 {
      assert s == [s[0]] + s[1..];
      DistinctCountAtMostOne(s[1..], x);
      if s[0] == x {
        assert x !in s[1..];
      }
    }
  }

  /** A sequence in which nothing occurs twice is distinct. */
  lemma CountAtMostOneDistinct<T>(s: seq<T>)
    requires forall x :: multiset(s)[x] <= 1
    ensures Distinct(s)
  {
    forall i, j | 0 <= i < j < |s|
      ensures s[i] != s[j]
    {
      if s[i] == s[j] {
        MultisetCountOfTwo(s, i, j);
      }
    }
  }

  /** Swift's `firstIndex(where:)`. */
  function FirstIndex<T>(p: T -> bool, s: seq<T>): (r: Option<nat>)
    ensures r.None? <==> forall i :: 0 <= i < |s| ==> !p(s[i])
    ensures r.Some? ==> r.value < |s| && p(s[r.value])
    ensures r.Some? ==> forall j :: 0 <= j < r.value ==> !p(s[j])
  {
    if |s| == 0 then None
    else if p(s[0]) then Some(0)
    else
      match FirstIndex(p, s[1..])
      case None => None
      case Some(k) => Some(k + 1)
  }

  /** Swift's `first(where:)`. */
  function FirstWhere<T(!new)>(p: T -> bool, s: seq<T>): (r: Option<T>)
    ensures r.None? <==> forall x :: x in s ==> !p(x)
    ensures r.Some? ==> r.value in s && p(r.value)
    ensures r.Some? ==> exists i :: 0 <= i < |s| && s[i] == r.value && forall j :: 0 <= j < i ==> !p(s[j])
  {
    match FirstIndex(p, s)
    case None => None
    case Some(i) => Some(s[i])
  }

  /** Every sequence embeds in itself. */
  lemma {:induction false} EmbedsRefl<T>(s: seq<T>)
    ensures Embeds(s, s)
    decreases |s|
  {
    if |s| > 0 {
      EmbedsRefl(s[1..]);
    }
  }

  /** `FirstIndex` depends only on where the predicate holds. */
  lemma {:induction false} FirstIndexFrame<T>(p: T -> bool, a: seq<T>, b: seq<T>)
    requires |a| == |b|
    requires forall i :: 0 <= i < |a| ==> p(a[i]) == p(b[i])
    ensures FirstIndex(p, a) == FirstIndex(p, b)
    decreases |a|
  {
    if |a| > 0 && !p(a[0]) {
      FirstIndexFrame(p, a[1..], b[1..]);
    }
  }

  /** A predicate first holding at an appended element. */
  lemma {:induction false} FirstIndexOfLast<T>(p: T -> bool, a: seq<T>, x: T)
    requires forall y :: y in a ==> !p(y)
    requires p(x)
    ensures FirstIndex(p, a + [x]) == Some(|a|)
    decreases |a|
  {
    if |a| > 0 {
      assert (a + [x])[1..] == a[1..] + [x];
      FirstIndexOfLast(p, a[1..], x);
    }
  }

  /** The first index where the predicate holds, found by the caller. */
  lemma FirstIndexAt<T>(p: T -> bool, s: seq<T>, k: nat)
    requires k < |s| && p(s[k])
    requires forall j :: 0 <= j < k ==> !p(s[j])
    ensures FirstIndex(p, s) == Some(k)
  {
  }
}
