/** Cutting a common time axis into contiguous cross-validation folds. */
module Folds {

  /** The number of folds on an axis of `t` points: at least one, at most one per point. */
  function FoldCount(folds: nat, t: nat): (k: nat)
    requires t > 0
    ensures 1 <= k <= t
    ensures (folds <= 1 ==> k == 1) && (1 <= folds <= t ==> k == folds) && (folds >= t ==> k == t)
  {
    var k := if folds < 1 then 1 else folds;
    if t < k then t else k
  }

  /** Where fold `f` of `k` starts, and fold `f - 1` ends. */
  function Cut(f: nat, t: nat, k: nat): nat
    requires k > 0
  {
    f * t / k
  }

  /** The length of the shortest fold. */
  function FoldLength(t: nat, k: nat): nat
    requires k > 0
  {
    t / k
  }

  predicate Quotient(a: nat, k: nat, q: nat) {
    q * k <= a < q * k + k
  }

  lemma DivisionQuotient(a: nat, k: nat)
    requires k > 0
    ensures Quotient(a, k, a / k)
  {
  }

  lemma WholeStep(p: nat, q: nat, k: nat)
    requires p < q
    ensures p * k + k <= q * k
  {
    var d := q - p;
    assert q * k == p * k + d * k;
    assert (d - 1) * k >= 0;
  }

  lemma QuotientIsUnique(a: nat, k: nat, p: nat, q: nat)
    requires Quotient(a, k, p) && Quotient(a, k, q)
    ensures p == q
  {
    if p < q {
      WholeStep(p, q, k);
    } else if q < p {
      WholeStep(q, p, k);
    }
  }

  lemma QuotientIs(a: nat, k: nat, q: nat)
    requires k > 0 && Quotient(a, k, q)
    ensures a / k == q
  {
    hide Quotient;
    DivisionQuotient(a, k);
    QuotientIsUnique(a, k, a / k, q);
  }

  lemma QuotientsAdd(a: nat, t: nat, k: nat, p: nat, q: nat)
    requires Quotient(a, k, p) && Quotient(t, k, q)
    ensures Quotient(a + t, k, p + q) || Quotient(a + t, k, p + q + 1)
  {
  }

  lemma AddedQuotient(a: nat, t: nat, k: nat)
    requires k > 0
    ensures a / k + t / k <= (a + t) / k <= a / k + t / k + 1
  {
    hide Quotient;
    var p, q := a / k, t / k;
    DivisionQuotient(a, k);
    DivisionQuotient(t, k);
    QuotientsAdd(a, t, k, p, q);
    if Quotient(a + t, k, p + q) {
      QuotientIs(a + t, k, p + q);
    } else {
      QuotientIs(a + t, k, p + q + 1);
    }
  }

  lemma MultipleQuotient(t: nat, k: nat)
    requires k > 0
    ensures k * t / k == t && t / k >= (if t >= k then 1 else 0)
  {
    QuotientIs(k * t, k, t);
    var q := t / k;
    assert Quotient(t, k, q);
  }

  /** A cut is the point nearest below its share of the axis, and the shortest fold that of one fold's. */
  lemma CutMeaning(f: nat, t: nat, k: nat)
    requires k > 0
    ensures Cut(f, t, k) * k <= f * t < Cut(f, t, k) * k + k
    ensures FoldLength(t, k) * k <= t < FoldLength(t, k) * k + k
  {
    DivisionQuotient(f * t, k);
    DivisionQuotient(t, k);
  }

  /** The cuts start at zero and end at `t`; every fold is non-empty, and its length is the integer
      quotient or one more. */
  lemma FoldsAreBalanced(f: nat, t: nat, k: nat)
    requires 1 <= k <= t && f < k
    ensures Cut(0, t, k) == 0 && Cut(k, t, k) == t
    ensures 1 <= FoldLength(t, k) <= Cut(f + 1, t, k) - Cut(f, t, k) <= FoldLength(t, k) + 1
    ensures Cut(1, t, k) == FoldLength(t, k)
  {
    MultipleQuotient(t, k);
    assert (f + 1) * t == f * t + t;
    AddedQuotient(f * t, t, k);
    assert 0 * t == 0 && 1 * t == t;
  }

  lemma {:induction false} CutsAscend(f: nat, g: nat, t: nat, k: nat)
    requires 1 <= k <= t && f <= g <= k
    ensures Cut(f, t, k) <= Cut(g, t, k) <= t
    decreases k - f
  {
    FoldsAreBalanced(0, t, k);
    if f < g {
      FoldsAreBalanced(f, t, k);
      CutsAscend(f + 1, g, t, k);
    } else if g < k {
      FoldsAreBalanced(g, t, k);
      CutsAscend(g + 1, k, t, k);
    }
  }

  /** The part of a series that falls in fold `f`. */
  function FoldOf<T>(s: seq<T>, f: nat, t: nat, k: nat): (r: seq<T>)
    requires 1 <= k <= t <= |s| && f < k
  {
    CutsAscend(f, f + 1, t, k);
    CutsAscend(f + 1, k, t, k);
    s[Cut(f, t, k)..Cut(f + 1, t, k)]
  }

  function Joined<T>(s: seq<T>, f: nat, t: nat, k: nat): seq<T>
    requires 1 <= k <= t <= |s| && f <= k
  {
    if f == 0 then [] else Joined(s, f - 1, t, k) + FoldOf(s, f - 1, t, k)
  }

  lemma {:induction false} JoinedIsPrefix<T>(s: seq<T>, f: nat, t: nat, k: nat)
    requires 1 <= k <= t <= |s| && f <= k
    ensures Cut(f, t, k) <= t && Joined(s, f, t, k) == s[..Cut(f, t, k)]
  {
    FoldsAreBalanced(0, t, k);
    CutsAscend(f, k, t, k);
    if f > 0 {
      JoinedIsPrefix(s, f - 1, t, k);
      CutsAscend(f - 1, f, t, k);
      assert s[..Cut(f, t, k)] == s[..Cut(f - 1, t, k)] + s[Cut(f - 1, t, k)..Cut(f, t, k)];
    }
  }

  /** The folds tile the axis: joined in order they are the first `t` points of the series, each once. */
  lemma FoldsTile<T>(s: seq<T>, folds: nat, t: nat)
    requires 0 < t <= |s|
    ensures Joined(s, FoldCount(folds, t), t, FoldCount(folds, t)) == s[..t]
  {
    var k := FoldCount(folds, t);
    JoinedIsPrefix(s, k, t, k);
    FoldsAreBalanced(0, t, k);
  }
}
