/** The JavaScript array operations the core builds on: `filter`, `reduce`
    to a sum, and `slice(0, end)`. Lists are sequences and are defined from
    their last element, as a left-to-right loop or `reduce` builds them. */
module Seqs {

  /** `s.filter(p)`. */
  function Filter<T>(s: seq<T>, p: T -> bool): (r: seq<T>)
    ensures |r| <= |s|
  {
    if s == [] then [] else Filter(s[..|s| - 1], p) + (if p(s[|s| - 1]) then [s[|s| - 1]] else [])
  }

  /** `filter` keeps exactly the elements that pass. */
  lemma {:induction false} FilterMembers<T>(s: seq<T>, p: T -> bool)
    ensures forall i :: 0 <= i < |Filter(s, p)| ==> Filter(s, p)[i] in s && p(Filter(s, p)[i])
    ensures forall i :: 0 <= i < |s| && p(s[i]) ==> s[i] in Filter(s, p)
  {
    if s != [] {
      var init := s[..|s| - 1];
      FilterMembers(init, p);
      forall i | 0 <= i < |s| && p(s[i]) ensures s[i] in Filter(s, p) {
        if i < |init| { assert s[i] == init[i]; }
      }
    }
  }

  /** `filter` returns nothing exactly when no element passes. */
  lemma {:induction false} FilterEmpty<T>(s: seq<T>, p: T -> bool)
    ensures Filter(s, p) == [] <==> forall i :: 0 <= i < |s| ==> !p(s[i])
  {
    if s != [] {
      var init := s[..|s| - 1];
      FilterEmpty(init, p);
      assert Filter(s, p) == Filter(init, p) + (if p(s[|s| - 1]) then [s[|s| - 1]] else []);
      assert forall i :: 0 <= i < |init| ==> init[i] == s[i];
    }
  }

  /** `a` is `b` with some elements left out, the rest in their order. */
  predicate IsSubseq<T(==)>(a: seq<T>, b: seq<T>)
  {
    if a == [] then true
    else if b == [] then false
    else if a[|a| - 1] == b[|b| - 1] then IsSubseq(a[..|a| - 1], b[..|b| - 1])
    else IsSubseq(a, b[..|b| - 1])
  }

  /** `filter` keeps order: its result is a subsequence of its input. */
  lemma {:induction false} FilterIsSubseq<T>(s: seq<T>, p: T -> bool)
    ensures IsSubseq(Filter(s, p), s)
  {
    if s != [] {
      var init, last := s[..|s| - 1], s[|s| - 1];
      assert s == init + [last];
      FilterIsSubseq(init, p);
      if p(last) {
        var r := Filter(init, p) + [last];
        assert r[..|r| - 1] == Filter(init, p);
      } else {
        assert Filter(s, p) == Filter(init, p);
        SubseqExtend(Filter(init, p), init, last);
      }
    }
  }

  /** Appending to the longer sequence keeps a subsequence a subsequence. */
  lemma {:induction false} SubseqExtend<T>(a: seq<T>, b: seq<T>, x: T)
    requires IsSubseq(a, b)
    ensures IsSubseq(a, b + [x])
    decreases |a| + |b|, 1
  {
    assert (b + [x])[..|b|] == b;
    if a != [] && a[|a| - 1] == x {
      SubseqDropLast(a, b);
    }
  }

  lemma {:induction false} SubseqDropLast<T>(a: seq<T>, b: seq<T>)
    requires a != [] && IsSubseq(a, b)
    ensures IsSubseq(a[..|a| - 1], b)
    decreases |a| + |b|, 0
  {
    var b' := b[..|b| - 1];
    assert b' + [b[|b| - 1]] == b;
    if a[|a| - 1] != b[|b| - 1] {
      SubseqDropLast(a, b');
    }
    SubseqExtend(a[..|a| - 1], b', b[|b| - 1]);
  }

  /** `filter` keeps every element that passes, as many times as it occurs,
      and drops every element that fails. */
  lemma {:induction false} FilterMultiplicity<T>(s: seq<T>, p: T -> bool, x: T)
    ensures multiset(Filter(s, p))[x] == if p(x) then multiset(s)[x] else 0
  {
    if s != [] {
      FilterMultiplicity(s[..|s| - 1], p, x);
      assert s == s[..|s| - 1] + [s[|s| - 1]];
    }
  }

  /** An element is in the filtered sequence exactly when it is in the
      input and passes. */
  lemma FilterIn<T>(s: seq<T>, p: T -> bool, x: T)
    ensures x in Filter(s, p) <==> x in s && p(x)
  {
    FilterMultiplicity(s, p, x);
    assert x in Filter(s, p) <==> multiset(Filter(s, p))[x] > 0;
    assert x in s <==> multiset(s)[x] > 0;
  }

  /** Filtering a sequence extended by one element. */
  lemma FilterSnoc<T>(s: seq<T>, x: T, p: T -> bool)
    ensures Filter(s + [x], p) == Filter(s, p) + (if p(x) then [x] else [])
  {
    assert (s + [x])[..|s|] == s;
  }

  lemma {:induction false} FilterAppend<T>(a: seq<T>, b: seq<T>, p: T -> bool)
    ensures Filter(a + b, p) == Filter(a, p) + Filter(b, p)
  {
    if b != [] {
      assert (a + b)[..|a + b| - 1] == a + b[..|b| - 1];
      assert (a + b)[|a + b| - 1] == b[|b| - 1];
      FilterAppend(a, b[..|b| - 1], p);
    } else {
      assert a + b == a;
    }
  }

  /** Filtering twice is filtering once by both conditions. */
  lemma {:induction false} FilterFilter<T>(s: seq<T>, p: T -> bool, q: T -> bool)
    ensures Filter(Filter(s, p), q) == Filter(s, x => p(x) && q(x))
  {
    if s != [] {
      var init := s[..|s| - 1];
      FilterFilter(init, p, q);
      var last := if p(s[|s| - 1]) then [s[|s| - 1]] else [];
      FilterAppend(Filter(init, p), last, q);
      assert Filter(last, q) == Filter(last[..0], q) + (if |last| == 1 && q(last[0]) then [s[|s| - 1]] else []);
    }
  }

  /** `s.reduce((sum, x) => sum + f(x), 0)`. */
  function SumBy<T>(s: seq<T>, f: T -> real): real
  {
    if s == [] then 0.0 else SumBy(s[..|s| - 1], f) + f(s[|s| - 1])
  }

  lemma SumBySnoc<T>(s: seq<T>, x: T, f: T -> real)
    ensures SumBy(s + [x], f) == SumBy(s, f) + f(x)
  {
    assert (s + [x])[..|s|] == s;
  }

  lemma {:induction false} SumByAppend<T>(a: seq<T>, b: seq<T>, f: T -> real)
    ensures SumBy(a + b, f) == SumBy(a, f) + SumBy(b, f)
  {
    if b != [] {
      assert (a + b)[..|a + b| - 1] == a + b[..|b| - 1];
      assert (a + b)[|a + b| - 1] == b[|b| - 1];
      SumByAppend(a, b[..|b| - 1], f);
    } else {
      assert a + b == a;
    }
  }

  /** The end index `slice(0, end)` uses: a negative end counts back from the
      length, and the result is clamped to `[0, n]`. */
  function SliceEnd(n: nat, end: int): (k: nat)
    ensures k <= n
    ensures 0 <= end ==> k == if end < n then end else n
    ensures end < 0 ==> k == if n + end < 0 then 0 else n + end
  {
    if end < 0 then (if n + end < 0 then 0 else n + end)
    else if end < n then end else n
  }

  /** `s.slice(0, end)`. */
  function Take<T>(s: seq<T>, end: int): (r: seq<T>)
    ensures r <= s
    ensures 0 <= end ==> |r| == if end < |s| then end else |s|
  {
    s[..SliceEnd(|s|, end)]
  }

  /** `s.findIndex(p)`: the first index whose element passes, or -1. */
  function FindIndex<T>(s: seq<T>, p: T -> bool): (r: int)
    ensures -1 <= r < |s|
    ensures 0 <= r ==> p(s[r]) && forall j :: 0 <= j < r ==> !p(s[j])
    ensures r == -1 <==> forall j :: 0 <= j < |s| ==> !p(s[j])
  {
    if s == [] then -1
    else if p(s[0]) then 0
    else var k := FindIndex(s[1..], p); if k < 0 then -1 else k + 1
  }

  /** Two filters whose conditions never hold together keep, between them,
      as many elements as one filter by their disjunction. */
  lemma {:induction false} FilterCountDisjointUnion<T>(s: seq<T>, p: T -> bool, q: T -> bool, r: T -> bool)
    requires forall i :: 0 <= i < |s| ==> !(p(s[i]) && q(s[i])) && (r(s[i]) <==> p(s[i]) || q(s[i]))
    ensures |Filter(s, p)| + |Filter(s, q)| == |Filter(s, r)|
  {
    if s != [] {
      FilterCountDisjointUnion(s[..|s| - 1], p, q, r);
    }
  }

  /** Searching with a weaker condition stops no later. */
  lemma {:induction false} FindIndexWeaker<T>(s: seq<T>, p: T -> bool, q: T -> bool)
    requires forall i :: 0 <= i < |s| && p(s[i]) ==> q(s[i])
    ensures 0 <= FindIndex(s, p) ==> 0 <= FindIndex(s, q) <= FindIndex(s, p)
  {
    if s != [] && !p(s[0]) && !q(s[0]) {
      FindIndexWeaker(s[1..], p, q);
    }
  }
}
