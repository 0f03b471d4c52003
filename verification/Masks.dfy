/** Binary ensemble masks and the differential-evolution operators on them. */
module Masks {

  /** Bit `i` says whether strategy `i` of the pool is a member. */
  type Mask = seq<bool>

  function Members(m: Mask): seq<nat> {
    if m == [] then []
    else Members(m[..|m| - 1]) + if m[|m| - 1] then [|m| - 1] else []
  }

  function Count(m: Mask): nat {
    if m == [] then 0 else Count(m[..|m| - 1]) + if m[|m| - 1] then 1 else 0
  }

  lemma MembersOfOneMore(m: Mask)
    requires m != []
    ensures Members(m) == Members(m[..|m| - 1]) + if m[|m| - 1] then [|m| - 1] else []
    ensures Count(m) == Count(m[..|m| - 1]) + if m[|m| - 1] then 1 else 0
  {
  }

  /** The members are exactly the set bits, each once, in ascending order. */
  lemma {:induction false} MembersAreTheSetBits(m: Mask)
    ensures |Members(m)| == Count(m)
    ensures forall j: nat :: j in Members(m) <==> j < |m| && m[j]
    ensures forall i, j | 0 <= i < j < |Members(m)| :: Members(m)[i] < Members(m)[j]
  {
    if m == [] {
    } else {
      var n := |m| - 1;
      var ms := Members(m[..n]);
      MembersAreTheSetBits(m[..n]);
      hide Members, Count;
      MembersOfOneMore(m);
      forall j: nat ensures j in Members(m) <==> j < |m| && m[j] {
        assert j in ms <==> j < n && m[..n][j];
      }
      assert forall i | 0 <= i < |ms| :: ms[i] in ms;
    }
  }

  lemma {:induction false} CountIsPositiveIff(m: Mask)
    ensures Count(m) > 0 <==> exists j :: 0 <= j < |m| && m[j]
  {
    MembersAreTheSetBits(m);
    if Count(m) > 0 {
      assert Members(m)[0] in Members(m);
    }
    if j :| 0 <= j < |m| && m[j] {
      assert j in Members(m);
    }
  }

  lemma {:induction false} CountOfOneMoreBit(m: Mask, j: nat)
    requires j < |m| && !m[j]
    ensures Count(m[j := true]) == Count(m) + 1
  {
    var n := |m| - 1;
    if j < n {
      CountOfOneMoreBit(m[..n], j);
      assert m[j := true][..n] == m[..n][j := true];
    } else {
      assert m[j := true][..n] == m[..n];
    }
  }

  /** A mask is fixed by its length and its members, so scoring the members scores the mask. */
  lemma MembersDetermineTheMask(a: Mask, b: Mask)
    requires |a| == |b| && Members(a) == Members(b)
    ensures a == b
  {
    MembersAreTheSetBits(a);
    MembersAreTheSetBits(b);
    forall j: nat | j < |a| ensures a[j] == b[j] {
      assert a[j] <==> j in Members(a);
    }
  }

  // ----- Mutation -----

  function Shorter(a: nat, b: nat): nat {
    if a < b then a else b
  }

  function Xor(a: bool, b: bool): bool {
    a != b
  }

  /** The base with the loci toggled where the other two donors differ, cut to the shortest donor. */
  function Mutant(a: Mask, b: Mask, c: Mask): (v: Mask)
    ensures |v| == Shorter(Shorter(|a|, |b|), |c|)
    ensures forall i | 0 <= i < |v| :: v[i] != a[i] <==> b[i] != c[i]
  {
    seq(Shorter(Shorter(|a|, |b|), |c|), (i: nat) requires i < |a| && i < |b| && i < |c| => Xor(a[i], Xor(b[i], c[i])))
  }

  /** Equal donors leave the base alone, mutating twice undoes it, and the three donors are interchangeable. */
  lemma MutationLaws(a: Mask, b: Mask, c: Mask)
    requires |a| == |b| == |c|
    ensures Mutant(a, b, b) == a
    ensures Mutant(Mutant(a, b, c), b, c) == a
    ensures Mutant(a, b, c) == Mutant(b, a, c) == Mutant(c, b, a)
  {
  }

  // ----- Crossover -----

  function Clamp01(x: real): real {
    if x < 0.0 then 0.0 else if x > 1.0 then 1.0 else x
  }

  /** Whether locus `i` comes from the mutant: always at the guaranteed locus, else by its draw. */
  predicate FromMutant(cr: real, jRand: nat, draws: seq<real>, i: nat)
    requires i < |draws|
  {
    i == jRand || draws[i] < Clamp01(cr)
  }

  function Crossed(target: Mask, mutant: Mask, cr: real, jRand: nat, draws: seq<real>): (v: Mask)
    requires |draws| == Shorter(|target|, |mutant|)
    ensures |v| == |draws|
  {
    seq(|draws|, (i: nat) requires i < |draws| => if FromMutant(cr, jRand, draws, i) then mutant[i] else target[i])
  }

  ghost predicate UnitDraws(draws: seq<real>) {
    forall i | 0 <= i < |draws| :: 0.0 <= draws[i] < 1.0
  }

  /** For given draws the trial differs from the target exactly when the parents disagree at some locus
      that is taken from the mutant. */
  lemma TrialDiffersIff(target: Mask, mutant: Mask, cr: real, jRand: nat, draws: seq<real>)
    requires |target| == |mutant| == |draws|
    ensures Crossed(target, mutant, cr, jRand, draws) != target <==>
            exists i :: 0 <= i < |draws| && FromMutant(cr, jRand, draws, i) && mutant[i] != target[i]
  {
    var v := Crossed(target, mutant, cr, jRand, draws);
    if v != target {
      var i :| 0 <= i < |v| && v[i] != target[i];
      assert FromMutant(cr, jRand, draws, i);
    }
  }

  /** The guaranteed locus does not make the trial differ: the parents may agree there. */
  lemma TrialCanEqualTarget()
    ensures Crossed([true, false], [true, true], 0.0, 0, [0.5, 0.5]) == [true, false]
  {
    assert !FromMutant(0.0, 0, [0.5, 0.5], 1);
  }

  /** Before any draw: the trial is sure to differ from the target exactly when the crossover rate is at
      least one and the parents differ somewhere, or the parents differ at every locus. */
  lemma TrialAlwaysDiffersIff(target: Mask, mutant: Mask, cr: real)
    requires |target| == |mutant| > 0
    ensures (forall jRand: nat, draws: seq<real> | jRand < |draws| == |target| && UnitDraws(draws) ::
               Crossed(target, mutant, cr, jRand, draws) != target) <==>
            if cr >= 1.0 then mutant != target else forall i | 0 <= i < |target| :: mutant[i] != target[i]
  {
    forall jRand: nat, draws: seq<real> | jRand < |draws| == |target| && UnitDraws(draws)
      ensures cr >= 1.0 ==> Crossed(target, mutant, cr, jRand, draws) == mutant
      ensures (forall i | 0 <= i < |target| :: mutant[i] != target[i]) ==> Crossed(target, mutant, cr, jRand, draws) != target
    {
      var v := Crossed(target, mutant, cr, jRand, draws);
      assert v[jRand] == mutant[jRand];
      assert cr >= 1.0 ==> forall i | 0 <= i < |draws| :: FromMutant(cr, jRand, draws, i);
    }
    var n := |target|;
    var draws := seq(n, (i: nat) requires i < n => if cr >= 1.0 then 0.5 else Clamp01(cr));
    if cr < 1.0 {
      forall i | 0 <= i < n && mutant[i] == target[i] ensures Crossed(target, mutant, cr, i, draws) == target {
        assert forall j | 0 <= j < n && j != i :: !FromMutant(cr, i, draws, j);
      }
      assert forall i | 0 <= i < n :: draws[i] == Clamp01(cr);
    } else {
      assert UnitDraws(draws) && Crossed(target, mutant, cr, 0, draws) == mutant;
    }
  }
}
