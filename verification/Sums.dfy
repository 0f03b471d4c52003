/** Finite sums of reals, over a whole list or over chosen positions of it. */
module Sums {

  function Sum(v: seq<real>): real {
    if v == [] then 0.0 else Sum(v[..|v| - 1]) + v[|v| - 1]
  }

  ghost predicate Indices(idx: seq<nat>, n: nat) {
    forall k | 0 <= k < |idx| :: idx[k] < n
  }

  function SumAt(v: seq<real>, idx: seq<nat>): real
    requires Indices(idx, |v|)
  {
    if idx == [] then 0.0 else SumAt(v, idx[..|idx| - 1]) + v[idx[|idx| - 1]]
  }

  lemma {:induction false} SumUpdate(v: seq<real>, i: nat, x: real)
    requires i < |v|
    ensures Sum(v[i := x]) == Sum(v) - v[i] + x
  {
    if i < |v| - 1 {
      SumUpdate(v[..|v| - 1], i, x);
      assert v[i := x][..|v| - 1] == v[..|v| - 1][i := x];
    } else {
      assert v[i := x][..|v| - 1] == v[..|v| - 1];
    }
  }

  lemma {:induction false} SumMonotone(a: seq<real>, b: seq<real>)
    requires |a| == |b| && forall i | 0 <= i < |a| :: a[i] <= b[i]
    ensures Sum(a) <= Sum(b)
    ensures Sum(a) == Sum(b) ==> a == b
  {
    if a != [] {
      SumMonotone(a[..|a| - 1], b[..|b| - 1]);
      assert a == a[..|a| - 1] + [a[|a| - 1]] && b == b[..|b| - 1] + [b[|b| - 1]];
    }
  }

  lemma {:induction false} SumZero(v: seq<real>)
    requires forall i | 0 <= i < |v| :: v[i] == 0.0
    ensures Sum(v) == 0.0
  {
    if v != [] {
      SumZero(v[..|v| - 1]);
    }
  }

  lemma {:induction false} SumBound(v: seq<real>, i: nat)
    requires i < |v| && forall k | 0 <= k < |v| :: v[k] >= 0.0
    ensures v[i] <= Sum(v)
  {
    if i < |v| - 1 {
      SumBound(v[..|v| - 1], i);
    } else {
      SumMonotone(seq(|v| - 1, _ => 0.0), v[..|v| - 1]);
      SumZero(seq(|v| - 1, _ => 0.0));
    }
  }

  /** The positions of `s` that satisfy `p`, in order. */
  function Filter(s: seq<nat>, p: nat -> bool): (r: seq<nat>)
    ensures forall i :: i in r <==> i in s && p(i)
  {
    if s == [] then []
    else
      assert s == s[..|s| - 1] + [s[|s| - 1]];
      if p(s[|s| - 1]) then Filter(s[..|s| - 1], p) + [s[|s| - 1]] else Filter(s[..|s| - 1], p)
  }

  ghost predicate Distinct(s: seq<nat>) {
    forall i, j | 0 <= i < j < |s| :: s[i] != s[j]
  }

  lemma {:induction false} FilterDistinct(s: seq<nat>, p: nat -> bool)
    requires Distinct(s)
    ensures Distinct(Filter(s, p)) && |Filter(s, p)| <= |s|
  {
    if s != [] {
      var init, last := s[..|s| - 1], s[|s| - 1];
      FilterDistinct(init, p);
      assert last !in init;
    }
  }

  /** Complementary filters share the length and every sum between them. */
  lemma {:induction false} FilterSplits(v: seq<real>, s: seq<nat>, p: nat -> bool, q: nat -> bool)
    requires Indices(s, |v|) && forall i | i in s :: p(i) <==> !q(i)
    ensures Indices(Filter(s, p), |v|) && Indices(Filter(s, q), |v|)
    ensures SumAt(v, Filter(s, p)) + SumAt(v, Filter(s, q)) == SumAt(v, s)
    ensures |Filter(s, p)| + |Filter(s, q)| == |s|
  {
    if s != [] {
      var init, last := s[..|s| - 1], s[|s| - 1];
      assert last in s;
      FilterSplits(v, init, p, q);
      if p(last) {
        assert (Filter(init, p) + [last])[..|Filter(init, p)|] == Filter(init, p);
      } else {
        assert (Filter(init, q) + [last])[..|Filter(init, q)|] == Filter(init, q);
      }
    }
  }

  lemma {:induction false} SumAtPositive(v: seq<real>, idx: seq<nat>)
    requires Indices(idx, |v|) && forall k | 0 <= k < |idx| :: v[idx[k]] > 0.0
    ensures SumAt(v, idx) >= 0.0
    ensures idx != [] ==> SumAt(v, idx) > 0.0
  {
    if idx != [] {
      SumAtPositive(v, idx[..|idx| - 1]);
    }
  }
}
