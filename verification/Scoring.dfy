/** The robust-basin score: the worst fold, with the worst member dropped, of an ensemble objective. */
module Scoring {
  import opened Domain
  import opened Folds
  import opened Scores
  import opened Series
  import Sums

  /** One net-of-cost return series per strategy. */
  type Pool = seq<seq<real>>

  // ----- Leave one out -----

  function Without(members: seq<nat>, drop: nat): seq<nat>
    requires drop < |members|
  {
    members[..drop] + members[drop + 1..]
  }

  /** The memberships the wide-basin floor looks at: each member dropped in turn, or a lone one kept. */
  function Drops(members: seq<nat>): seq<seq<nat>> {
    if |members| <= 1 then [members]
    else seq(|members|, (drop: nat) requires drop < |members| => Without(members, drop))
  }

  /** Every drop keeps all the other members in order; a lone or empty membership is kept whole. */
  lemma DropsMeaning(members: seq<nat>, d: nat)
    requires d < |Drops(members)|
    ensures |Drops(members)| == if |members| <= 1 then 1 else |members|
    ensures |members| <= 1 ==> Drops(members)[d] == members
    ensures |members| > 1 ==>
              && |Drops(members)[d]| == |members| - 1
              && forall j | 0 <= j < |members| - 1 :: Drops(members)[d][j] == members[if j < d then j else j + 1]
  {
  }

  function Each<D>(objective: (D, seq<nat>) -> Score, data: D, memberships: seq<seq<nat>>): (r: seq<Score>)
    ensures |r| == |memberships|
  {
    seq(|memberships|, (i: nat) requires i < |memberships| => objective(data, memberships[i]))
  }

  function WideBasin<D>(objective: (D, seq<nat>) -> Score, data: D, members: seq<nat>): Score {
    Lowest(Each(objective, data, Drops(members)))
  }

  /** Drops each member in turn and keeps the worst objective; an empty or lone membership is scored whole. */
  method LeaveOneOutMin<D>(objective: (D, seq<nat>) -> Score, data: D, members: seq<nat>) returns (worst: Score)
    ensures worst == WideBasin(objective, data, members)
  {
    if |members| <= 1 {
      assert Each(objective, data, Drops(members)) == [objective(data, members)];
      return objective(data, members);
    }
    worst := PosInf;
    ghost var scores := Each(objective, data, Drops(members));
    for drop := 0 to |members|
      invariant worst == Lowest(scores[..drop])
    {
      assert scores[..drop + 1][..drop] == scores[..drop];
      worst := Lower(worst, objective(data, Without(members, drop)));
    }
    assert scores[..|members|] == scores;
  }

  // ----- Folds -----

  function PoolSlice(pool: Pool, lo: nat, hi: nat): (r: Pool)
    requires lo <= hi <= CommonLength(pool)
    ensures |r| == |pool|
  {
    seq(|pool|, (j: nat) requires j < |pool| => pool[j][lo..hi])
  }

  function PoolFold(pool: Pool, f: nat, t: nat, k: nat): (r: Pool)
    requires 1 <= k <= t <= CommonLength(pool) && f < k
    ensures |r| == |pool|
  {
    CutsAscend(f, f + 1, t, k);
    CutsAscend(f + 1, k, t, k);
    PoolSlice(pool, Cut(f, t, k), Cut(f + 1, t, k))
  }

  /** The pool cut into folds of the common time axis; with no time axis, the whole pool once. */
  function PoolFolds(pool: Pool, folds: nat): seq<Pool> {
    var t := CommonLength(pool);
    if t == 0 then [pool]
    else
      var k := FoldCount(folds, t);
      seq(k, (f: nat) requires f < k => PoolFold(pool, f, t, k))
  }

  function JoinedSeries(windows: seq<Pool>, j: nat): seq<real>
    requires forall i | 0 <= i < |windows| :: j < |windows[i]|
  {
    if windows == [] then [] else JoinedSeries(windows[..|windows| - 1], j) + windows[|windows| - 1][j]
  }

  lemma {:induction false} JoinedSeriesIsJoined(pool: Pool, t: nat, k: nat, windows: seq<Pool>, j: nat)
    requires 1 <= k <= t <= CommonLength(pool) && j < |pool| && |windows| <= k
    requires forall f | 0 <= f < |windows| :: |windows[f]| == |pool| && windows[f] == PoolFold(pool, f, t, k)
    ensures JoinedSeries(windows, j) == Joined(pool[j], |windows|, t, k)
  {
    if windows != [] {
      JoinedSeriesIsJoined(pool, t, k, windows[..|windows| - 1], j);
    }
  }

  /** No observation of the common time axis is lost, repeated or moved: joined over the folds, every
      series is its first `t` points. */
  lemma PoolFoldsTile(pool: Pool, folds: nat, j: nat)
    requires CommonLength(pool) > 0 && j < |pool|
    ensures JoinedSeries(PoolFolds(pool, folds), j) == pool[j][..CommonLength(pool)]
    ensures |PoolFolds(pool, folds)| == FoldCount(folds, CommonLength(pool))
  {
    var t := CommonLength(pool);
    JoinedSeriesIsJoined(pool, t, FoldCount(folds, t), PoolFolds(pool, folds), j);
    FoldsTile(pool[j], folds, t);
  }

  /** Fold `f` of `k` is the stretch of every series from `f` k-ths of the axis to the next k-th, rounded down. */
  lemma PoolFoldMeaning(pool: Pool, folds: nat, f: nat, j: nat)
    requires CommonLength(pool) > 0 && j < |pool|
    requires f < if folds <= 1 then 1 else if folds <= CommonLength(pool) then folds else CommonLength(pool)
    ensures var t := CommonLength(pool);
            var k := if folds <= 1 then 1 else if folds <= t then folds else t;
            var lo, hi := f * t / k, (f + 1) * t / k;
            && |PoolFolds(pool, folds)| == k && lo < hi <= t
            && |PoolFolds(pool, folds)[f]| == |pool| && PoolFolds(pool, folds)[f][j] == pool[j][lo..hi]
  {
    var t := CommonLength(pool);
    var k := FoldCount(folds, t);
    FoldsAreBalanced(f, t, k);
    CutsAscend(f + 1, k, t, k);
  }

  function Scored<D>(objective: (D, seq<nat>) -> Score, windows: seq<D>, members: seq<nat>): (r: seq<Score>)
    ensures |r| == |windows|
  {
    seq(|windows|, (i: nat) requires i < |windows| => WideBasin(objective, windows[i], members))
  }

  /** The worst window's wide-basin floor; an empty ensemble scores negative infinity. */
  function RobustBasin<D>(objective: (D, seq<nat>) -> Score, windows: seq<D>, members: seq<nat>): Score {
    if members == [] then NegInf else Lowest(Scored(objective, windows, members))
  }

  /** Scores every fold and keeps the worst. The branch that skips an empty fold is never taken. */
  method CrossValScore(objective: (Pool, seq<nat>) -> Score, pool: Pool, members: seq<nat>, folds: nat)
    returns (worst: Score)
    ensures worst == RobustBasin(objective, PoolFolds(pool, folds), members)
  {
    hide Cut, FoldLength, CommonLength, PoolSlice, WideBasin;
    if members == [] {
      return NegInf;
    }
    ghost var scores := Scored(objective, PoolFolds(pool, folds), members);
    var t := CommonLength(pool);
    if t == 0 {
      worst := LeaveOneOutMin(objective, pool, members);
      assert scores == [worst];
      return;
    }
    var k := FoldCount(folds, t);
    worst := PosInf;
    for f := 0 to k
      invariant worst == Lowest(scores[..f])
    {
      FoldsAreBalanced(f, t, k);
      CutsAscend(f + 1, k, t, k);
      var lo, hi := Cut(f, t, k), Cut(f + 1, t, k);
      if lo < hi {
        var floor := LeaveOneOutMin(objective, PoolSlice(pool, lo, hi), members);
        assert scores[..f + 1][..f] == scores[..f];
        worst := Lower(worst, floor);
      }
    }
    assert scores[..k] == scores;
  }

  /** A non-empty ensemble scores at least `x` exactly when every window does with every member dropped. */
  lemma RobustBasinIff<D>(objective: (D, seq<nat>) -> Score, windows: seq<D>, members: seq<nat>, x: Score)
    requires members != []
    ensures x.AtMost(RobustBasin(objective, windows, members)) <==>
            forall i, d | 0 <= i < |windows| && 0 <= d < |Drops(members)| ::
              x.AtMost(objective(windows[i], Drops(members)[d]))
  {
    var scores := Scored(objective, windows, members);
    var holds := x.AtMost(Lowest(scores));
    forall i | 0 <= i < |windows|
      ensures x.AtMost(scores[i]) <==>
              forall d | 0 <= d < |Drops(members)| :: x.AtMost(objective(windows[i], Drops(members)[d]))
    {
      var each := Each(objective, windows[i], Drops(members));
      assert scores[i] == Lowest(each);
      LowestIff(each, x);
      assert forall d | 0 <= d < |each| :: each[d] == objective(windows[i], Drops(members)[d]);
    }
    LowestIff(scores, x);
  }

  lemma LowestIff(s: seq<Score>, x: Score)
    ensures x.AtMost(Lowest(s)) <==> forall i | 0 <= i < |s| :: x.AtMost(s[i])
  {
  }

  /** An objective that is nowhere above another, window by window, never gives a higher score. */
  lemma BasinMonotone<D, E>(
      low: (D, seq<nat>) -> Score, lowWindows: seq<D>, high: (E, seq<nat>) -> Score, highWindows: seq<E>, members: seq<nat>)
    requires |lowWindows| == |highWindows|
    requires forall i, d | 0 <= i < |lowWindows| && 0 <= d < |Drops(members)| ::
               low(lowWindows[i], Drops(members)[d]).AtMost(high(highWindows[i], Drops(members)[d]))
    ensures RobustBasin(low, lowWindows, members).AtMost(RobustBasin(high, highWindows, members))
  {
    forall i | 0 <= i < |lowWindows|
      ensures Scored(low, lowWindows, members)[i].AtMost(Scored(high, highWindows, members)[i])
    {
      LowestMonotone(Each(low, lowWindows[i], Drops(members)), Each(high, highWindows[i], Drops(members)));
    }
    LowestMonotone(Scored(low, lowWindows, members), Scored(high, highWindows, members));
  }

  // ----- The correlation penalty and the sample it rests on -----

  datatype CorrPenalty = CorrPenalty(value: real, effectiveN: nat)

  function PairLength(series: Pool, a: nat, b: nat): nat
    requires a < |series| && b < |series|
  {
    if |series[a]| < |series[b]| then |series[a]| else |series[b]|
  }

  function PairTerm(series: Pool, deflated: (seq<real>, seq<real>) -> real, a: nat, b: nat): real
    requires a < |series| && b < |series|
  {
    var n := PairLength(series, a, b);
    Max(deflated(series[a][..n], series[b][..n]), 0.0)
  }

  /** A pair's term is the deflated correlation of the two series over the stretch they share, never below zero. */
  lemma PairTermMeaning(series: Pool, deflated: (seq<real>, seq<real>) -> real, a: nat, b: nat, n: nat)
    requires a < |series| && b < |series|
    requires n <= |series[a]| && n <= |series[b]| && (n == |series[a]| || n == |series[b]|)
    ensures var corr := deflated(series[a][..n], series[b][..n]);
            PairTerm(series, deflated, a, b) == if corr > 0.0 then corr else 0.0
  {
    assert PairLength(series, a, b) == n;
  }

  /** The terms of the pairs visited before `(a, b)`, row by row. */
  function PairTerms(series: Pool, deflated: (seq<real>, seq<real>) -> real, a: nat, b: nat): seq<real>
    requires a < b <= |series|
    decreases a, b
  {
    if b > a + 1 then PairTerms(series, deflated, a, b - 1) + [PairTerm(series, deflated, a, b - 1)]
    else if a > 0 then PairTerms(series, deflated, a - 1, |series|)
    else []
  }

  function AllTerms(series: Pool, deflated: (seq<real>, seq<real>) -> real): seq<real> {
    if series == [] then [] else PairTerms(series, deflated, |series| - 1, |series|)
  }

  lemma {:induction false} TermsBefore(series: Pool, deflated: (seq<real>, seq<real>) -> real, a: nat, b: nat)
    requires a < b <= |series|
    ensures 2 * |PairTerms(series, deflated, a, b)| == a * (2 * |series| - a - 1) + 2 * (b - a - 1)
    decreases a, b
  {
    if b > a + 1 {
      TermsBefore(series, deflated, a, b - 1);
    } else if a > 0 {
      TermsBefore(series, deflated, a - 1, |series|);
      RowCount(a, |series|);
    }
  }

  lemma RowCount(a: int, n: int)
    ensures (a - 1) * (2 * n - a) + 2 * (n - a) == a * (2 * n - a - 1)
  {
  }

  /** What is visited earlier stays where it was put. */
  lemma {:induction false} TermsGrow(
      series: Pool, deflated: (seq<real>, seq<real>) -> real, a: nat, b: nat, c: nat, d: nat)
    requires a < b <= |series| && c < d <= |series| && (a < c || (a == c && b <= d))
    ensures PairTerms(series, deflated, a, b) <= PairTerms(series, deflated, c, d)
    decreases c, d
  {
    if d > c + 1 && (a < c || b < d) {
      TermsGrow(series, deflated, a, b, c, d - 1);
    } else if a < c {
      TermsGrow(series, deflated, a, b, c - 1, |series|);
    }
  }

  lemma PairIsNext(series: Pool, deflated: (seq<real>, seq<real>) -> real, a: nat, b: nat, c: nat, d: nat)
    requires a < b < |series| && c < d <= |series| && (a < c || (a == c && b < d))
    ensures |PairTerms(series, deflated, a, b)| < |PairTerms(series, deflated, c, d)|
    ensures PairTerms(series, deflated, c, d)[|PairTerms(series, deflated, a, b)|] == PairTerm(series, deflated, a, b)
  {
    TermsGrow(series, deflated, a, b + 1, c, d);
    var before := PairTerms(series, deflated, a, b);
    assert PairTerms(series, deflated, a, b + 1) == before + [PairTerm(series, deflated, a, b)];
  }

  /** Every unordered pair has its term, at its own place in row order, and there is no other term. */
  lemma AllPairsOnce(series: Pool, deflated: (seq<real>, seq<real>) -> real)
    ensures 2 * |AllTerms(series, deflated)| == if series == [] then 0 else |series| * (|series| - 1)
    ensures forall a: nat, b: nat | a < b < |series| ::
              && |PairTerms(series, deflated, a, b)| < |AllTerms(series, deflated)|
              && AllTerms(series, deflated)[|PairTerms(series, deflated, a, b)|] == PairTerm(series, deflated, a, b)
    ensures forall a: nat, b: nat, c: nat, d: nat |
              a < b < |series| && c < d < |series| && (a < c || (a == c && b < d)) ::
              |PairTerms(series, deflated, a, b)| < |PairTerms(series, deflated, c, d)|
  {
    var n := |series|;
    if n > 0 {
      TermsBefore(series, deflated, n - 1, n);
      LastRow(n);
    }
    forall a: nat, b: nat | a < b < n
      ensures |PairTerms(series, deflated, a, b)| < |AllTerms(series, deflated)|
      ensures AllTerms(series, deflated)[|PairTerms(series, deflated, a, b)|] == PairTerm(series, deflated, a, b)
    {
      PairIsNext(series, deflated, a, b, n - 1, n);
    }
    forall a: nat, b: nat, c: nat, d: nat | a < b < n && c < d < n && (a < c || (a == c && b < d))
      ensures |PairTerms(series, deflated, a, b)| < |PairTerms(series, deflated, c, d)|
    {
      PairIsNext(series, deflated, a, b, c, d);
    }
  }

  lemma LastRow(n: int)
    ensures (n - 1) * (2 * n - (n - 1) - 1) == n * (n - 1)
  {
  }

  function Smaller(a: Option<nat>, n: nat): Option<nat> {
    Some(if a.Some? && a.value < n then a.value else n)
  }

  /** The smallest sample among the pairs visited before `(a, b)`: the first row already meets every series. */
  function SmallestBefore(series: Pool, a: nat, b: nat): Option<nat>
    requires a < b <= |series|
  {
    if a > 0 then Some(CommonLength(series))
    else if b < 2 then None
    else Some(CommonLength(series[..b]))
  }

  lemma SmallestStep(series: Pool, a: nat, b: nat)
    requires a < b < |series|
    ensures Smaller(SmallestBefore(series, a, b), PairLength(series, a, b)) == SmallestBefore(series, a, b + 1)
  {
    if a == 0 {
      assert series[..b + 1][..b] == series[..b];
      if b == 1 {
        assert series[..1][0] == series[0];
      } else {
        assert CommonLength(series[..b]) <= |series[..b][0]|;
      }
    }
  }

  /** The mean of the floored, deflated correlation over every pair's common prefix, and the smallest
      sample any pair rested on, which is the shortest series. */
  method PairwiseCorrPenalty(series: Pool, deflated: (seq<real>, seq<real>) -> real) returns (p: CorrPenalty)
    ensures p.effectiveN == if |series| < 2 then 0 else CommonLength(series)
    ensures var terms := AllTerms(series, deflated);
            p.value == if terms == [] then 0.0 else Sums.Sum(terms) / |terms| as real
  {
    hide CommonLength, PairLength, PairTerm;
    var sum, pairs := 0.0, 0;
    var smallest: Option<nat> := None;
    ghost var n := |series|;
    for i := 0 to |series|
      invariant sum == Sums.Sum(if i == 0 then [] else PairTerms(series, deflated, i - 1, n))
      invariant pairs == if i == 0 then 0 else |PairTerms(series, deflated, i - 1, n)|
      invariant smallest == if i == 0 then None else SmallestBefore(series, i - 1, n)
      invariant pairs == 0 <==> smallest.None?
    {
      assert series[..n] == series;
      for j := i + 1 to |series|
        invariant sum == Sums.Sum(PairTerms(series, deflated, i, j))
        invariant pairs == |PairTerms(series, deflated, i, j)|
        invariant smallest == SmallestBefore(series, i, j)
        invariant pairs == 0 <==> smallest.None?
      {
        SumOfOneMore(PairTerms(series, deflated, i, j), PairTerm(series, deflated, i, j));
        SmallestStep(series, i, j);
        sum := sum + PairTerm(series, deflated, i, j);
        pairs := pairs + 1;
        smallest := Smaller(smallest, PairLength(series, i, j));
      }
    }
    assert series[..n] == series;
    p := if pairs == 0 then CorrPenalty(0.0, 0) else CorrPenalty(sum / pairs as real, smallest.value);
  }

  lemma SumOfOneMore(v: seq<real>, x: real)
    ensures Sums.Sum(v + [x]) == Sums.Sum(v) + x
  {
  }

  /** The member series over one stretch of time. */
  function MemberSlices(pool: Pool, members: seq<nat>, lo: nat, hi: nat): Pool
    requires forall i | 0 <= i < |members| :: members[i] < |pool| && lo <= |pool[members[i]]| && lo <= hi
  {
    seq(|members|, (i: nat) requires i < |members| =>
      var s := pool[members[i]]; s[lo..if hi < |s| then hi else |s|])
  }

  function LongestLength(pool: Pool): (t: nat)
    ensures forall i | 0 <= i < |pool| :: |pool[i]| <= t
  {
    if pool == [] then 0
    else
      var rest := LongestLength(pool[..|pool| - 1]);
      if rest < |pool[|pool| - 1]| then |pool[|pool| - 1]| else rest
  }

  /** The smallest sample the penalty rests on over the folds. With a time axis and a pair to correlate it
      is exactly the axis length divided by the number of folds, rounded down. */
  method CorrPenaltyEffectiveN(pool: Pool, members: seq<nat>, folds: nat, deflated: (seq<real>, seq<real>) -> real)
    returns (n: nat)
    requires forall i | 0 <= i < |members| :: members[i] < |pool|
    ensures |members| < 2 ==> n == 0
    ensures |members| >= 2 && CommonLength(pool) > 0 ==>
              n == FoldLength(CommonLength(pool), FoldCount(folds, CommonLength(pool)))
    ensures |members| >= 2 && CommonLength(pool) == 0 ==>
              n == CommonLength(seq(|members|, (i: nat) requires i < |members| => pool[members[i]]))
  {
    hide Cut, FoldLength, LongestLength, AllTerms;
    if |members| < 2 {
      return 0;
    }
    var t := CommonLength(pool);
    if t == 0 {
      var slices := MemberSlices(pool, members, 0, LongestLength(pool));
      forall i | 0 <= i < |members| ensures slices[i] == pool[members[i]] {
        assert |pool[members[i]]| <= LongestLength(pool);
      }
      assert slices == seq(|members|, (i: nat) requires i < |members| => pool[members[i]]);
      var p := PairwiseCorrPenalty(slices, deflated);
      return p.effectiveN;
    }
    var k := FoldCount(folds, t);
    var smallest: Option<nat> := None;
    for f := 0 to k
      invariant smallest == if f == 0 then None else Some(FoldLength(t, k))
    {
      FoldsAreBalanced(f, t, k);
      CutsAscend(f + 1, k, t, k);
      var lo, hi := Cut(f, t, k), Cut(f + 1, t, k);
      if lo < hi {
        var slices := MemberSlices(pool, members, lo, hi);
        assert forall i | 0 <= i < |slices| :: |slices[i]| == hi - lo;
        var p := PairwiseCorrPenalty(slices, deflated);
        smallest := Some(if smallest.Some? && smallest.value < p.effectiveN then smallest.value else p.effectiveN);
      }
    }
    n := smallest.value;
  }
}
