/** The return series an ensemble actually deploys, and what its stress report may rely on. */
module Deployment {
  import Capacity
  import opened Scoring
  import Stress
  import Sums

  function MemberSeries(pool: Pool, members: seq<nat>): (r: Pool)
    requires forall i | 0 <= i < |members| :: members[i] < |pool|
    ensures |r| == |members|
  {
    seq(|members|, (i: nat) requires i < |members| => pool[members[i]])
  }

  ghost predicate NeverWipesOut(pool: Pool) {
    forall i, k | 0 <= i < |pool| && 0 <= k < |pool[i]| :: pool[i][k] > -1.0
  }

  lemma {:induction false} EquityStaysPositive(path: seq<real>, j: nat)
    requires j <= |path| && forall k | 0 <= k < |path| :: path[k] > -1.0
    ensures Stress.Equity(path, j) > 0.0
  {
    if j > 0 {
      EquityStaysPositive(path, j - 1);
      PositiveProduct(Stress.Equity(path, j - 1), 1.0 + path[j - 1]);
    }
  }

  lemma PositiveProduct(a: real, b: real)
    requires a > 0.0 && b > 0.0
    ensures a * b > 0.0 && a / b > 0.0
  {
  }

  /** A path that never loses everything in a period never draws down by everything. */
  lemma DrawdownBelowOne(path: seq<real>)
    requires forall k | 0 <= k < |path| :: path[k] > -1.0
    ensures 0.0 <= Stress.PathDrawdown(path) < 1.0
  {
    Stress.DrawdownMeaning(path, |path|);
    var j: nat :| j <= |path| && Stress.Loss(path, j) == Stress.Drawdown(path, |path|);
    EquityStaysPositive(path, j);
    PositiveProduct(Stress.Equity(path, j), Stress.Peak(path, j));
  }

  /** The members' series combined under their deployed weights. However the caps bind, members that never
      lose everything in a period make an ensemble that never does, so its drawdown is below one. */
  method CombinedReturns(pool: Pool, members: seq<nat>, w: Capacity.Weighting) returns (out: seq<real>, ghost weights: seq<real>)
    requires forall i | 0 <= i < |members| :: members[i] < |pool|
    ensures members == [] ==> out == []
    ensures |weights| == |members| && out == Stress.Combined(MemberSeries(pool, members), weights)
    ensures members != [] ==>
              && (forall i | 0 <= i < |weights| :: weights[i] >= 0.0) && Sums.Sum(weights) <= 1.0
              && (weights == Capacity.Equal(|members|) <==> Capacity.NoCapBinds(w, members))
    ensures w.CapacityCapped? && w.targetAum > 0.0 && members != [] ==>
              var equal := Capacity.Equal(|members|);
              var caps := Capacity.CapFractions(Capacity.MemberCapacities(w.capacities, members), w.targetAum);
              (exists level :: Capacity.WaterFill(equal, caps, weights, level))
              && Sums.Sum(weights) == Capacity.Total(equal, caps)
    ensures forall i | w.CapacityCapped? && w.targetAum > 0.0 && 0 <= i < |weights| && members[i] < |w.capacities| ::
              Capacity.Holds(w.capacities[members[i]], w.targetAum, weights[i])
    ensures forall i, j |
              w.CapacityCapped? && w.targetAum > 0.0 && 0 <= i < |weights| && 0 <= j < |weights| && weights[i] < weights[j] ::
              members[i] < |w.capacities| && Capacity.Fills(w.capacities[members[i]], w.targetAum, weights[i])
    ensures forall i | w.CapacityCapped? && w.targetAum > 0.0 && 0 <= i < |weights| && Sums.Sum(weights) < 1.0 ::
              members[i] < |w.capacities| && Capacity.Fills(w.capacities[members[i]], w.targetAum, weights[i])
    ensures NeverWipesOut(pool) ==>
              (forall k | 0 <= k < |out| :: out[k] > -1.0) && 0.0 <= Stress.PathDrawdown(out) < 1.0
  {
    var series := MemberSeries(pool, members);
    if members == [] {
      weights := [];
      out := [];
      assert Stress.Combined(series, weights) == [];
      DrawdownBelowOne(out);
      return;
    }
    var deployed := Capacity.MemberWeights(w, members);
    weights := deployed;
    out := Stress.WeightedCombined(series, deployed);
    if NeverWipesOut(pool) {
      assert deployed[..|deployed|] == deployed;
      Stress.EnsembleStaysAbove(series, deployed);
      DrawdownBelowOne(out);
    }
  }
}
