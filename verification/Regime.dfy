/** The regime-aware score: the objective less a penalty on the worst regime's shortfall. */
module Regime {
  import opened Domain
  import opened Folds
  import opened Scores
  import opened Scoring
  import opened Series

  /** A stretch of time: the strategies' returns with the regime label of each bar, if any. */
  datatype Labelled<R> = Labelled(pool: Pool, labels: seq<Option<R>>)

  /** The regime half of the configuration. The base objective and the table of mean combined returns per
      labelled regime belong to other components. */
  datatype RegimeModel<!R> = RegimeModel(
    base: (Pool, seq<nat>) -> Score,
    regimeMeans: (Labelled<R>, seq<nat>) -> seq<real>,
    floor: real,
    weight: real)

  /** The weakest regime's mean; positive infinity when no bar is labelled. */
  function WorstRegime(means: seq<real>): Score {
    Lowest(seq(|means|, (i: nat) requires i < |means| => Fin(means[i])))
  }

  function Shortfall(floor: real, worst: Score): real {
    if worst.Fin? then Max(floor - worst.value, 0.0) else 0.0
  }

  /** The base objective less the weighted shortfall; an infinite base or an empty ensemble is left alone. */
  function RegimeObjective<R>(m: RegimeModel<R>, data: Labelled<R>, members: seq<nat>): Score {
    var base := m.base(data.pool, members);
    if members == [] || !base.Fin? then base
    else Fin(base.value - m.weight * Shortfall(m.floor, WorstRegime(m.regimeMeans(data, members))))
  }

  lemma ShortfallIff(floor: real, means: seq<real>)
    ensures Shortfall(floor, WorstRegime(means)) >= 0.0
    ensures Shortfall(floor, WorstRegime(means)) == 0.0 <==> forall i | 0 <= i < |means| :: means[i] >= floor
    ensures forall i | 0 <= i < |means| :: floor - means[i] <= Shortfall(floor, WorstRegime(means))
    ensures Shortfall(floor, WorstRegime(means)) > 0.0 ==>
              exists i :: 0 <= i < |means| && Shortfall(floor, WorstRegime(means)) == floor - means[i]
  {
    var scores := seq(|means|, (i: nat) requires i < |means| => Fin(means[i]));
    LowestIff(scores, Fin(floor));
    assert forall i | 0 <= i < |means| :: Fin(floor).AtMost(scores[i]) <==> means[i] >= floor;
    assert forall i | 0 <= i < |means| :: Lowest(scores).AtMost(scores[i]) && scores[i] == Fin(means[i]);
    if means != [] {
      var i :| 0 <= i < |scores| && scores[i] == Lowest(scores);
      assert WorstRegime(means) == Fin(means[i]);
    }
  }

  /** With a non-negative weight the penalty never raises the objective, and leaves it alone exactly when
      the base is infinite, the ensemble empty, the weight zero or every labelled regime at the floor. */
  lemma RegimePenaltyIff<R>(m: RegimeModel<R>, data: Labelled<R>, members: seq<nat>)
    requires m.weight >= 0.0
    ensures RegimeObjective(m, data, members).AtMost(m.base(data.pool, members))
    ensures var means := m.regimeMeans(data, members);
            RegimeObjective(m, data, members) == m.base(data.pool, members) <==>
              || !m.base(data.pool, members).Fin? || members == [] || m.weight == 0.0
              || forall i | 0 <= i < |means| :: means[i] >= m.floor
  {
    var means := m.regimeMeans(data, members);
    ShortfallIff(m.floor, means);
    PenaltySign(m.weight, Shortfall(m.floor, WorstRegime(means)));
  }

  /** The penalty is exact: the weighted distance of the weakest regime below the floor, and nothing when it is
      not below, no bar is labelled, or there is nothing finite to charge. */
  lemma RegimePenaltyIs<R>(m: RegimeModel<R>, data: Labelled<R>, members: seq<nat>, weakest: nat)
    requires var means := m.regimeMeans(data, members);
             weakest < |means| && forall i | 0 <= i < |means| :: means[weakest] <= means[i]
    ensures var base, mean := m.base(data.pool, members), m.regimeMeans(data, members)[weakest];
            RegimeObjective(m, data, members)
            == if base.Fin? && members != [] && mean < m.floor then Fin(base.value - m.weight * (m.floor - mean)) else base
  {
    var means := m.regimeMeans(data, members);
    ShortfallIff(m.floor, means);
  }

  lemma PenaltySign(w: real, s: real)
    requires w >= 0.0 && s >= 0.0
    ensures w * s >= 0.0 && (w * s == 0.0 <==> w == 0.0 || s == 0.0)
  {
  }

  // ----- Folds -----

  /** The labels of a stretch, cut short where the label list is. */
  function LabelSlice<R>(labels: seq<Option<R>>, lo: nat, hi: nat): seq<Option<R>>
    requires lo <= hi
  {
    var n := |labels|;
    labels[if lo < n then lo else n..if hi < n then hi else n]
  }

  function LabelledFold<R>(data: Labelled<R>, f: nat, t: nat, k: nat): Labelled<R>
    requires 1 <= k <= t <= CommonLength(data.pool) && f < k
  {
    CutsAscend(f, f + 1, t, k);
    Labelled(PoolFold(data.pool, f, t, k), LabelSlice(data.labels, Cut(f, t, k), Cut(f + 1, t, k)))
  }

  function LabelledFolds<R>(data: Labelled<R>, folds: nat): seq<Labelled<R>> {
    var t := CommonLength(data.pool);
    if t == 0 then [data]
    else
      var k := FoldCount(folds, t);
      seq(k, (f: nat) requires f < k => LabelledFold(data, f, t, k))
  }

  /** The labels of a window are those of its own bars: bar `b` of fold `f` keeps the label it had on the axis,
      if the list reaches that far. */
  lemma LabelsFollowBars<R>(data: Labelled<R>, folds: nat, f: nat, b: nat)
    requires CommonLength(data.pool) > 0 && f < |LabelledFolds(data, folds)|
    ensures var t := CommonLength(data.pool);
            var k := if folds <= 1 then 1 else if folds <= t then folds else t;
            var lo, hi := f * t / k, (f + 1) * t / k;
            var window := LabelledFolds(data, folds)[f];
            && (b < |window.labels| <==> b < hi - lo && lo + b < |data.labels|)
            && (b < |window.labels| ==> window.labels[b] == data.labels[lo + b])
            && window.pool == PoolFolds(data.pool, folds)[f]
  {
    var t := CommonLength(data.pool);
    var k := FoldCount(folds, t);
    FoldsAreBalanced(f, t, k);
    CutsAscend(f + 1, k, t, k);
  }

  function Objective<R>(m: RegimeModel<R>): (Labelled<R>, seq<nat>) -> Score {
    (data: Labelled<R>, members: seq<nat>) => RegimeObjective(m, data, members)
  }

  /** The window of fold `f`, slice by slice. */
  lemma FoldWindow<R>(data: Labelled<R>, folds: nat, f: nat)
    requires CommonLength(data.pool) > 0 && f < FoldCount(folds, CommonLength(data.pool))
    ensures var t := CommonLength(data.pool);
            var k := FoldCount(folds, t);
            var lo, hi := Cut(f, t, k), Cut(f + 1, t, k);
            && lo < hi <= t && |LabelledFolds(data, folds)| == k
            && LabelledFolds(data, folds)[f] == Labelled(PoolSlice(data.pool, lo, hi), LabelSlice(data.labels, lo, hi))
  {
    hide Cut, FoldLength, CommonLength, PoolSlice, LabelSlice;
    var t := CommonLength(data.pool);
    var k := FoldCount(folds, t);
    FoldsAreBalanced(f, t, k);
    CutsAscend(f + 1, k, t, k);
  }

  /** Slices both the pool and the labels fold by fold and keeps the worst wide-basin floor. */
  method RegimeAwareCvScore<R>(m: RegimeModel<R>, data: Labelled<R>, members: seq<nat>, folds: nat)
    returns (worst: Score)
    ensures worst == RobustBasin(Objective(m), LabelledFolds(data, folds), members)
  {
    hide Cut, FoldLength, CommonLength, PoolSlice, WideBasin, LabelSlice, Objective, LabelledFold;
    if members == [] {
      return NegInf;
    }
    ghost var scores := Scored(Objective(m), LabelledFolds(data, folds), members);
    var t := CommonLength(data.pool);
    if t == 0 {
      worst := LeaveOneOutMin(Objective(m), data, members);
      assert scores == [worst];
      return;
    }
    var k := FoldCount(folds, t);
    worst := PosInf;
    hide LabelledFolds;
    for f := 0 to k
      invariant worst == Lowest(scores[..f])
    {
      FoldWindow(data, folds, f);
      var lo, hi := Cut(f, t, k), Cut(f + 1, t, k);
      if lo < hi {
        var sliced := Labelled(PoolSlice(data.pool, lo, hi), LabelSlice(data.labels, lo, hi));
        var floor := LeaveOneOutMin(Objective(m), sliced, members);
        assert scores[..f + 1][..f] == scores[..f];
        worst := Lower(worst, floor);
      }
    }
    assert scores[..k] == scores;
  }

  lemma SameWindows<R>(data: Labelled<R>, folds: nat)
    ensures |LabelledFolds(data, folds)| == |PoolFolds(data.pool, folds)|
    ensures forall i | 0 <= i < |LabelledFolds(data, folds)| ::
              LabelledFolds(data, folds)[i].pool == PoolFolds(data.pool, folds)[i]
  {
  }

  /** The regime-aware score never exceeds the plain cross-validated one. */
  lemma RegimeAwareBelowPlain<R>(m: RegimeModel<R>, data: Labelled<R>, members: seq<nat>, folds: nat)
    requires m.weight >= 0.0
    ensures RobustBasin(Objective(m), LabelledFolds(data, folds), members)
              .AtMost(RobustBasin(m.base, PoolFolds(data.pool, folds), members))
  {
    var aware, plain := LabelledFolds(data, folds), PoolFolds(data.pool, folds);
    SameWindows(data, folds);
    forall i, d | 0 <= i < |aware| && 0 <= d < |Drops(members)|
      ensures Objective(m)(aware[i], Drops(members)[d]).AtMost(m.base(plain[i], Drops(members)[d]))
    {
      RegimePenaltyIff(m, aware[i], Drops(members)[d]);
    }
    BasinMonotone(Objective(m), aware, m.base, plain, members);
  }

  /** What the penalty leaves of the objective of one window and membership is still at least `x`. */
  predicate PenaltyLeaves<R>(m: RegimeModel<R>, data: Labelled<R>, members: seq<nat>, x: Score) {
    var base := m.base(data.pool, members);
    if base.Fin? && members != [] then
      x.AtMost(Fin(base.value - m.weight * Shortfall(m.floor, WorstRegime(m.regimeMeans(data, members)))))
    else x.AtMost(base)
  }

  /** The two scores agree exactly when no fold and no dropped member is penalised below the plain score:
      a shortfall that leaves a window at or above the score costs nothing. */
  lemma RegimeKeepsScoreIff<R>(m: RegimeModel<R>, data: Labelled<R>, members: seq<nat>, folds: nat)
    requires m.weight >= 0.0 && members != []
    ensures var aware, plain := LabelledFolds(data, folds), RobustBasin(m.base, PoolFolds(data.pool, folds), members);
            RobustBasin(Objective(m), aware, members) == plain <==>
            forall i, d | 0 <= i < |aware| && 0 <= d < |Drops(members)| ::
              PenaltyLeaves(m, aware[i], Drops(members)[d], plain)
  {
    var aware, plain := LabelledFolds(data, folds), RobustBasin(m.base, PoolFolds(data.pool, folds), members);
    RegimeAwareBelowPlain(m, data, members, folds);
    RobustBasinIff(Objective(m), aware, members, plain);
    hide RobustBasin, LabelledFolds, WorstRegime, Shortfall, Drops;
    forall i, d | 0 <= i < |aware| && 0 <= d < |Drops(members)|
      ensures PenaltyLeaves(m, aware[i], Drops(members)[d], plain)
              <==> plain.AtMost(Objective(m)(aware[i], Drops(members)[d]))
    {
    }
  }

  /** When no dropped-member ensemble falls below the floor in any regime of any fold, the two scores agree. */
  lemma RegimePositiveKeepsScore<R>(m: RegimeModel<R>, data: Labelled<R>, members: seq<nat>, folds: nat)
    requires m.weight >= 0.0
    requires forall i, d, r | 0 <= i < |LabelledFolds(data, folds)| && 0 <= d < |Drops(members)|
                 && 0 <= r < |m.regimeMeans(LabelledFolds(data, folds)[i], Drops(members)[d])| ::
               m.regimeMeans(LabelledFolds(data, folds)[i], Drops(members)[d])[r] >= m.floor
    ensures RobustBasin(Objective(m), LabelledFolds(data, folds), members)
            == RobustBasin(m.base, PoolFolds(data.pool, folds), members)
  {
    var aware, plain := LabelledFolds(data, folds), PoolFolds(data.pool, folds);
    SameWindows(data, folds);
    forall i, d | 0 <= i < |aware| && 0 <= d < |Drops(members)|
      ensures m.base(plain[i], Drops(members)[d]).AtMost(Objective(m)(aware[i], Drops(members)[d]))
    {
      RegimePenaltyIff(m, aware[i], Drops(members)[d]);
    }
    BasinMonotone(m.base, plain, Objective(m), aware, members);
    RegimeAwareBelowPlain(m, data, members, folds);
  }
}
