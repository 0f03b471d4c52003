/** Capacity-capped ensemble weights: the cap-and-redistribute loop, proved to be a water-fill. */
module Capacity {
  import opened Domain
  import opened Sums

  /** A modelled capacity in dollars; infinite when there is no modellable size cap. */
  datatype Dollars = Finite(amount: real) | Unbounded

  /** A capacity as a fraction of the target assets, clamped to [0, 1]. */
  function CapFraction(c: Dollars, targetAum: real): (r: real)
    requires targetAum > 0.0
    ensures 0.0 <= r <= 1.0
  {
    match c
    case Unbounded => 1.0
    case Finite(x) => Min(Max(x / targetAum, 0.0), 1.0)
  }

  function CapFractions(capacities: seq<Dollars>, targetAum: real): (r: seq<real>)
    requires targetAum > 0.0
    ensures |r| == |capacities| && forall i | 0 <= i < |r| :: 0.0 <= r[i] <= 1.0
  {
    seq(|capacities|, i requires 0 <= i < |capacities| => CapFraction(capacities[i], targetAum))
  }

  function PositivePart(weights: seq<real>): (r: seq<real>)
    ensures |r| == |weights| && forall i | 0 <= i < |r| :: r[i] == if weights[i] > 0.0 then weights[i] else 0.0
  {
    seq(|weights|, i requires 0 <= i < |weights| => Max(weights[i], 0.0))
  }

  /** The caps of the members that take part: those with a positive weight. */
  function UsableCaps(weights: seq<real>, caps: seq<real>): (r: seq<real>)
    requires |weights| == |caps|
    ensures |r| == |weights|
  {
    seq(|weights|, i requires 0 <= i < |weights| => if weights[i] > 0.0 then caps[i] else 0.0)
  }

  /** One water level for everybody: a member holds its proportional share of the level or its cap,
      whichever is less, and nothing if its weight is not positive. */
  ghost predicate WaterFill(weights: seq<real>, caps: seq<real>, alloc: seq<real>, level: real) {
    && |weights| == |caps| == |alloc| && level >= 0.0
    && forall i | 0 <= i < |alloc| ::
         alloc[i] == if weights[i] > 0.0 then Min(caps[i], level * weights[i]) else 0.0
  }

  /** What the loop distributes: the unit budget, or less if the positive weights or their caps sum to less. */
  function Total(weights: seq<real>, caps: seq<real>): real
    requires |weights| == |caps|
  {
    Min(Min(Sum(PositivePart(weights)), 1.0), Sum(UsableCaps(weights, caps)))
  }

  // ----- The loop -----

  /** Every member's proportional share when the water stands at `level`. */
  ghost function Water(weights: seq<real>, level: real): (r: seq<real>)
    ensures |r| == |weights|
  {
    seq(|weights|, i requires 0 <= i < |weights| => level * weights[i])
  }

  /** The state between two rounds, `water` being the shares at the last level: members off the active
      list sit at caps the water covers, and what remains keeps the level from falling. */
  ghost predicate Round(
      weights: seq<real>, caps: seq<real>, budget: real, alloc: seq<real>, active: seq<nat>, remaining: real, water: seq<real>)
  {
    && |weights| == |caps| == |alloc| == |water|
    && Distinct(active) && Indices(active, |weights|)
    && (forall k | 0 <= k < |active| :: TakesPart(weights, caps, active[k]) && alloc[active[k]] == 0.0)
    && (forall i: nat | i < |weights| && i !in active :: OffActive(weights, caps, alloc, water, i))
    && remaining == budget - Sum(alloc)
    && remaining >= SumAt(water, active) && remaining >= 0.0
    && (active != [] ==> remaining > 0.0)
  }

  ghost predicate OffActive(weights: seq<real>, caps: seq<real>, alloc: seq<real>, water: seq<real>, i: nat)
    requires i < |weights| == |caps| == |alloc| == |water|
  {
    if weights[i] > 0.0 then alloc[i] == caps[i] <= water[i] else alloc[i] == 0.0
  }

  function ActiveWeight(weights: seq<real>, active: seq<nat>): real
    requires Indices(active, |weights|)
  {
    SumAt(weights, active)
  }

  predicate TakesPart(weights: seq<real>, caps: seq<real>, i: nat) {
    i < |weights| && i < |caps| && weights[i] > 0.0 && caps[i] > 0.0
  }

  predicate ReachesCap(weights: seq<real>, caps: seq<real>, remaining: real, activeWeight: real, i: nat)
    requires activeWeight != 0.0
  {
    i < |weights| && i < |caps| && remaining * weights[i] / activeWeight >= caps[i]
  }

  /** Fixes the newly capped members at their caps and takes them out of the budget. */
  method FixAtCaps(caps: seq<real>, alloc: seq<real>, newly: seq<nat>, remaining: real)
    returns (alloc': seq<real>, remaining': real)
    requires Distinct(newly) && Indices(newly, |caps|) && |alloc| == |caps|
    requires forall k | 0 <= k < |newly| :: alloc[newly[k]] == 0.0
    ensures Fixed(caps, alloc, newly, alloc')
    ensures remaining' == remaining - SumAt(caps, newly)
    ensures Sum(alloc') == Sum(alloc) + SumAt(caps, newly)
  {
    alloc', remaining' := alloc, remaining;
    for k := 0 to |newly|
      invariant |alloc'| == |alloc|
      invariant forall i: nat | i < |alloc| :: alloc'[i] == if i in newly[..k] then caps[i] else alloc[i]
      invariant remaining' == remaining - SumAt(caps, newly[..k])
      invariant Sum(alloc') == Sum(alloc) + SumAt(caps, newly[..k])
    {
      assert newly[..k + 1][..k] == newly[..k] && newly[..k + 1] == newly[..k] + [newly[k]];
      assert newly[k] !in newly[..k];
      SumUpdate(alloc', newly[k], caps[newly[k]]);
      alloc' := alloc'[newly[k] := caps[newly[k]]];
      remaining' := remaining' - caps[newly[k]];
    }
    assert newly[..|newly|] == newly;
  }

  /** Gives every active member its proportional share of what remains. */
  method Share(weights: seq<real>, alloc: seq<real>, active: seq<nat>, remaining: real, ghost water: seq<real>)
    returns (alloc': seq<real>)
    requires Distinct(active) && Indices(active, |weights|) && |alloc| == |weights| == |water|
    requires SumAt(weights, active) > 0.0
    requires forall i | 0 <= i < |water| :: water[i] == remaining * weights[i] / SumAt(weights, active)
    requires forall k | 0 <= k < |active| :: alloc[active[k]] == 0.0
    ensures |alloc'| == |alloc|
    ensures forall i: nat | i < |alloc| ::
              alloc'[i] == if i in active then water[i] else alloc[i]
    ensures Sum(alloc') == Sum(alloc) + SumAt(water, active)
  {
    var activeWeight := SumAt(weights, active);
    alloc' := alloc;
    for k := 0 to |active|
      invariant |alloc'| == |alloc|
      invariant forall i: nat | i < |alloc| :: alloc'[i] == if i in active[..k] then water[i] else alloc[i]
      invariant Sum(alloc') == Sum(alloc) + SumAt(water, active[..k])
    {
      assert active[..k + 1][..k] == active[..k] && active[..k + 1] == active[..k] + [active[k]];
      assert active[k] !in active[..k];
      SumUpdate(alloc', active[k], water[active[k]]);
      alloc' := alloc'[active[k] := remaining * weights[active[k]] / activeWeight];
    }
    assert active[..|active|] == active;
  }

  lemma ScaleMonotone(a: real, b: real, w: real)
    requires a <= b && w >= 0.0
    ensures a * w <= b * w
  {
  }

  lemma {:induction false} WaterSum(weights: seq<real>, level: real, idx: seq<nat>)
    requires Indices(idx, |weights|)
    ensures SumAt(Water(weights, level), idx) == level * SumAt(weights, idx)
  {
    if idx != [] {
      var a, b := SumAt(weights, idx[..|idx| - 1]), weights[idx[|idx| - 1]];
      WaterSum(weights, level, idx[..|idx| - 1]);
      assert level * (a + b) == level * a + level * b;
    }
  }

  /** Spending what remains proportionally puts the water at a level no lower than before. */
  lemma LevelRises(level: real, remaining: real, activeWeight: real)
    requires activeWeight > 0.0 && remaining >= level * activeWeight && remaining > 0.0
    ensures remaining / activeWeight >= level && remaining / activeWeight > 0.0
    ensures (remaining / activeWeight) * activeWeight == remaining
  {
  }

  lemma WaterRises(weights: seq<real>, level: real, next: real)
    requires level <= next && next > 0.0
    ensures Rises(weights, Water(weights, level), Water(weights, next))
  {
  }

  lemma SharesAreWater(weights: seq<real>, remaining: real, activeWeight: real)
    requires activeWeight > 0.0
    ensures forall i | 0 <= i < |weights| ::
              Water(weights, remaining / activeWeight)[i] == remaining * weights[i] / activeWeight
  {
  }

  /** The next level is no lower, and the shares at it spend exactly what remains. */
  lemma NextWater(weights: seq<real>, active: seq<nat>, remaining: real, level: real)
    requires Indices(active, |weights|) && SumAt(weights, active) > 0.0
    requires remaining >= SumAt(Water(weights, level), active) && remaining > 0.0
    ensures var next := remaining / SumAt(weights, active);
            next >= level && next > 0.0 && SumAt(Water(weights, next), active) == remaining
  {
    var W := SumAt(weights, active);
    WaterSum(weights, level, active);
    LevelRises(level, remaining, W);
    WaterSum(weights, remaining / W, active);
  }

  lemma {:induction false} SumAtBelow(a: seq<real>, b: seq<real>, idx: seq<nat>)
    requires Indices(idx, |a|) && Indices(idx, |b|) && forall k | 0 <= k < |idx| :: a[idx[k]] <= b[idx[k]]
    ensures SumAt(a, idx) <= SumAt(b, idx)
  {
    if idx != [] {
      SumAtBelow(a, b, idx[..|idx| - 1]);
    }
  }

  /** `newly` and `rest` share out the active members. */
  ghost predicate Splits(active: seq<nat>, newly: seq<nat>, rest: seq<nat>) {
    && (forall i :: i in active <==> i in newly || i in rest)
    && (forall i | i in newly :: i !in rest)
  }

  /** `alloc'` is `alloc` with the `newly` members at their caps. */
  ghost predicate Fixed(caps: seq<real>, alloc: seq<real>, newly: seq<nat>, alloc': seq<real>) {
    && |alloc'| == |alloc| == |caps|
    && forall i: nat | i < |alloc| :: alloc'[i] == if i in newly then caps[i] else alloc[i]
  }

  /** The new water stands no lower for anybody with a weight, and nowhere at zero. */
  ghost predicate Rises(weights: seq<real>, water: seq<real>, water': seq<real>) {
    && |weights| == |water| == |water'|
    && forall i | 0 <= i < |weights| && weights[i] > 0.0 :: water[i] <= water'[i] && water'[i] > 0.0
  }

  lemma RestStaysActive(
      weights: seq<real>, caps: seq<real>, budget: real, alloc: seq<real>, active: seq<nat>, remaining: real, water: seq<real>,
      newly: seq<nat>, rest: seq<nat>, alloc': seq<real>, water': seq<real>, k: nat)
    requires Round(weights, caps, budget, alloc, active, remaining, water)
    requires Splits(active, newly, rest) && Fixed(caps, alloc, newly, alloc') && Rises(weights, water, water')
    requires k < |rest|
    ensures TakesPart(weights, caps, rest[k]) && alloc'[rest[k]] == 0.0 && water'[rest[k]] > 0.0
  {
    assert rest[k] in rest;
    var j :| 0 <= j < |active| && active[j] == rest[k];
  }

  lemma CappedIsOff(
      weights: seq<real>, caps: seq<real>, budget: real, alloc: seq<real>, active: seq<nat>, remaining: real, water: seq<real>,
      newly: seq<nat>, rest: seq<nat>, alloc': seq<real>, water': seq<real>, i: nat)
    requires Round(weights, caps, budget, alloc, active, remaining, water)
    requires Splits(active, newly, rest) && Fixed(caps, alloc, newly, alloc') && Rises(weights, water, water')
    requires Indices(newly, |caps|) && forall k | 0 <= k < |newly| :: caps[newly[k]] <= water'[newly[k]]
    requires i < |weights| && i !in rest
    ensures OffActive(weights, caps, alloc', water', i)
  {
  }

  lemma CappedAreOff(
      weights: seq<real>, caps: seq<real>, budget: real, alloc: seq<real>, active: seq<nat>, remaining: real, water: seq<real>,
      newly: seq<nat>, rest: seq<nat>, alloc': seq<real>, water': seq<real>)
    requires Round(weights, caps, budget, alloc, active, remaining, water)
    requires Splits(active, newly, rest) && Fixed(caps, alloc, newly, alloc') && Rises(weights, water, water')
    requires Indices(newly, |caps|) && forall k | 0 <= k < |newly| :: caps[newly[k]] <= water'[newly[k]]
    ensures forall i: nat | i < |weights| && i !in rest :: OffActive(weights, caps, alloc', water', i)
  {
    hide OffActive, TakesPart, Distinct, Splits;
    forall i: nat | i < |weights| && i !in rest ensures OffActive(weights, caps, alloc', water', i) {
      CappedIsOff(weights, caps, budget, alloc, active, remaining, water, newly, rest, alloc', water', i);
    }
  }

  lemma RestStays(
      weights: seq<real>, caps: seq<real>, budget: real, alloc: seq<real>, active: seq<nat>, remaining: real, water: seq<real>,
      newly: seq<nat>, rest: seq<nat>, alloc': seq<real>, water': seq<real>)
    requires Round(weights, caps, budget, alloc, active, remaining, water)
    requires Splits(active, newly, rest) && Fixed(caps, alloc, newly, alloc') && Rises(weights, water, water')
    requires Indices(rest, |caps|)
    ensures forall k | 0 <= k < |rest| :: TakesPart(weights, caps, rest[k]) && alloc'[rest[k]] == 0.0
    ensures SumAt(water', rest) >= 0.0 && (rest != [] ==> SumAt(water', rest) > 0.0)
  {
    hide Splits, OffActive;
    forall k | 0 <= k < |rest|
      ensures TakesPart(weights, caps, rest[k]) && alloc'[rest[k]] == 0.0 && water'[rest[k]] > 0.0
    {
      RestStaysActive(weights, caps, budget, alloc, active, remaining, water, newly, rest, alloc', water', k);
    }
    SumAtPositive(water', rest);
  }

  lemma CapsLeave(caps: seq<real>, water': seq<real>, newly: seq<nat>, rest: seq<nat>, remaining: real)
    requires |caps| == |water'| && Indices(newly, |caps|) && Indices(rest, |caps|)
    requires forall k | 0 <= k < |newly| :: caps[newly[k]] <= water'[newly[k]]
    requires SumAt(water', newly) + SumAt(water', rest) == remaining
    ensures remaining - SumAt(caps, newly) >= SumAt(water', rest)
  {
    SumAtBelow(caps, water', newly);
  }

  /** A round that caps `newly` at caps the new water covers keeps the invariant. */
  lemma CappingRound(
      weights: seq<real>, caps: seq<real>, budget: real, alloc: seq<real>, active: seq<nat>, remaining: real, water: seq<real>,
      newly: seq<nat>, rest: seq<nat>, alloc': seq<real>, water': seq<real>)
    requires Round(weights, caps, budget, alloc, active, remaining, water)
    requires Splits(active, newly, rest) && Fixed(caps, alloc, newly, alloc') && Rises(weights, water, water')
    requires Distinct(rest) && Indices(newly, |caps|) && Indices(rest, |caps|)
    requires SumAt(water', newly) + SumAt(water', rest) == remaining
    requires forall k | 0 <= k < |newly| :: caps[newly[k]] <= water'[newly[k]]
    requires Sum(alloc') == Sum(alloc) + SumAt(caps, newly)
    ensures Round(weights, caps, budget, alloc', rest, remaining - SumAt(caps, newly), water')
  {
    hide Splits, Sum, SumAt, TakesPart, OffActive, Distinct;
    CapsLeave(caps, water', newly, rest, remaining);
    RestStays(weights, caps, budget, alloc, active, remaining, water, newly, rest, alloc', water');
    CappedAreOff(weights, caps, budget, alloc, active, remaining, water, newly, rest, alloc', water');
  }

  /** With nobody left to cap, the proportional shares complete the water-fill. */
  lemma SharingRound(
      weights: seq<real>, caps: seq<real>, budget: real, alloc: seq<real>, active: seq<nat>, remaining: real, water: seq<real>,
      alloc': seq<real>, level': real)
    requires Round(weights, caps, budget, alloc, active, remaining, water) && level' >= 0.0
    requires Rises(weights, water, Water(weights, level'))
    requires forall k | 0 <= k < |active| :: Water(weights, level')[active[k]] < caps[active[k]]
    requires |alloc'| == |alloc| && forall i: nat | i < |alloc| ::
               alloc'[i] == if i in active then Water(weights, level')[i] else alloc[i]
    ensures WaterFill(weights, caps, alloc', level')
  {
  }

  /** With nobody active, everybody who takes part sits at a cap the last water covers. */
  lemma AllCapped(weights: seq<real>, caps: seq<real>, budget: real, alloc: seq<real>, remaining: real, level: real)
    requires Round(weights, caps, budget, alloc, [], remaining, Water(weights, level)) && level >= 0.0
    ensures WaterFill(weights, caps, alloc, level) && alloc == UsableCaps(weights, caps)
  {
    var water := Water(weights, level);
    forall i: nat | i < |alloc|
      ensures alloc[i] == (if weights[i] > 0.0 then Min(caps[i], water[i]) else 0.0) == UsableCaps(weights, caps)[i]
    {
      assert i !in [];
      assert OffActive(weights, caps, alloc, water, i);
    }
  }

  lemma TotalReached(weights: seq<real>, caps: seq<real>, alloc: seq<real>, level: real, budget: real)
    requires WaterFill(weights, caps, alloc, level) && budget == Min(Sum(PositivePart(weights)), 1.0)
    requires forall i | 0 <= i < |caps| :: caps[i] >= 0.0
    requires Sum(alloc) == budget || (Sum(alloc) <= budget && alloc == UsableCaps(weights, caps))
    ensures Sum(alloc) == Total(weights, caps)
  {
    SumMonotone(alloc, UsableCaps(weights, caps));
  }

  lemma BudgetFacts(weights: seq<real>, i: nat)
    requires i < |weights| && weights[i] > 0.0
    ensures Sum(PositivePart(weights)) > 0.0
  {
    SumBound(PositivePart(weights), i);
  }

  /** The members whose proportional share reaches their cap, and the others. */
  lemma SplitActive(weights: seq<real>, caps: seq<real>, active: seq<nat>, remaining: real, water: seq<real>)
    requires |weights| == |caps| == |water| && Indices(active, |weights|) && Distinct(active)
    requires SumAt(weights, active) > 0.0
    requires forall i | 0 <= i < |weights| :: water[i] == remaining * weights[i] / SumAt(weights, active)
    ensures var newly := Filter(active, (i: nat) => ReachesCap(weights, caps, remaining, SumAt(weights, active), i));
            var rest := Filter(active, (i: nat) => i !in newly);
            && Indices(newly, |caps|) && Indices(rest, |caps|) && Distinct(newly) && Distinct(rest)
            && (forall k | 0 <= k < |newly| :: caps[newly[k]] <= water[newly[k]])
            && (forall k | 0 <= k < |active| && active[k] !in newly :: water[active[k]] < caps[active[k]])
            && SumAt(water, newly) + SumAt(water, rest) == SumAt(water, active)
            && |newly| + |rest| == |active| && Splits(active, newly, rest)
  {
    var p := (i: nat) => ReachesCap(weights, caps, remaining, SumAt(weights, active), i);
    var newly := Filter(active, p);
    var q := (i: nat) => i !in newly;
    FilterSplits(water, active, p, q);
    FilterDistinct(active, p);
    FilterDistinct(active, q);
    forall k | 0 <= k < |newly| ensures caps[newly[k]] <= water[newly[k]] {
      assert newly[k] in newly && p(newly[k]);
    }
    forall k | 0 <= k < |active| && active[k] !in newly ensures water[active[k]] < caps[active[k]] {
      assert active[k] in active && !p(active[k]);
    }
  }

  /** The capped weights for a positive amount of assets, over equally long lists. */
  method Fill(weights: seq<real>, caps: seq<real>) returns (alloc: seq<real>, ghost level: real)
    requires |weights| == |caps| && forall i | 0 <= i < |caps| :: 0.0 <= caps[i] <= 1.0
    ensures WaterFill(weights, caps, alloc, level)
    ensures Sum(alloc) == Total(weights, caps)
  {
    hide Sum, SumAt, Water, ReachesCap, TakesPart, Total, WaterFill, OffActive, Fixed, Splits, Rises;
    var n := |weights|;
    alloc := seq(n, _ => 0.0);
    SumZero(alloc);
    var remaining := Min(Sum(PositivePart(weights)), 1.0);
    ghost var budget := remaining;
    var all := seq(n, i => i);
    var active := Filter(all, (i: nat) => TakesPart(weights, caps, i));
    level := 0.0;
    FirstRound(weights, caps, all, active, alloc);
    while true
      invariant Round(weights, caps, budget, alloc, active, remaining, Water(weights, level)) && level >= 0.0
      decreases |active|
    {
      var activeWeight := ActiveWeight(weights, active);
      ActiveIsPositive(weights, caps, active);
      if active == [] || activeWeight <= 0.0 || remaining <= 0.0 {
        AllCapped(weights, caps, budget, alloc, remaining, level);
        break;
      }
      ghost var next := remaining / activeWeight;
      ghost var water, water' := Water(weights, level), Water(weights, next);
      NextWater(weights, active, remaining, level);
      WaterRises(weights, level, next);
      SharesAreWater(weights, remaining, activeWeight);
      SplitActive(weights, caps, active, remaining, water');
      var newly := Filter(active, (i: nat) => ReachesCap(weights, caps, remaining, activeWeight, i));
      if newly == [] {
        ghost var before := alloc;
        alloc := Share(weights, alloc, active, remaining, water');
        SharingRound(weights, caps, budget, before, active, remaining, water, alloc, next);
        level := next;
        break;
      }
      var rest := Filter(active, (i: nat) => i !in newly);
      ghost var before, remaining0 := alloc, remaining;
      NewlyUnallocated(weights, caps, budget, alloc, active, remaining, water, newly);
      alloc, remaining := FixAtCaps(caps, alloc, newly, remaining);
      CappingRound(weights, caps, budget, before, active, remaining0, water, newly, rest, alloc, water');
      level := next;
      active := rest;
    }
    TotalReached(weights, caps, alloc, level, budget);
  }

  lemma ActiveIsPositive(weights: seq<real>, caps: seq<real>, active: seq<nat>)
    requires Indices(active, |weights|) && forall k | 0 <= k < |active| :: TakesPart(weights, caps, active[k])
    ensures active != [] ==> SumAt(weights, active) > 0.0
  {
  }

  lemma NewlyUnallocated(
      weights: seq<real>, caps: seq<real>, budget: real, alloc: seq<real>, active: seq<nat>, remaining: real, water: seq<real>,
      newly: seq<nat>)
    requires Round(weights, caps, budget, alloc, active, remaining, water)
    requires Indices(newly, |caps|) && forall i | i in newly :: i in active
    ensures forall k | 0 <= k < |newly| :: alloc[newly[k]] == 0.0
  {
    forall k | 0 <= k < |newly| ensures alloc[newly[k]] == 0.0 {
      assert newly[k] in newly;
      var j :| 0 <= j < |active| && active[j] == newly[k];
    }
  }

  /** Nobody is active unless the budget is positive. */
  lemma FirstBudget(weights: seq<real>, caps: seq<real>, active: seq<nat>)
    requires |weights| == |caps| && forall k | 0 <= k < |active| :: TakesPart(weights, caps, active[k])
    ensures Sum(PositivePart(weights)) >= 0.0
    ensures active != [] ==> Sum(PositivePart(weights)) > 0.0
  {
    SumMonotone(seq(|weights|, _ => 0.0), PositivePart(weights));
    SumZero(seq(|weights|, _ => 0.0));
    if active != [] {
      BudgetFacts(weights, active[0]);
    }
  }

  lemma NoWater(weights: seq<real>, active: seq<nat>)
    requires Indices(active, |weights|)
    ensures forall i | 0 <= i < |weights| :: Water(weights, 0.0)[i] == 0.0
    ensures SumAt(Water(weights, 0.0), active) == 0.0
  {
  }

  lemma FirstRound(weights: seq<real>, caps: seq<real>, all: seq<nat>, active: seq<nat>, alloc: seq<real>)
    requires |weights| == |caps| == |alloc| && forall i | 0 <= i < |caps| :: 0.0 <= caps[i] <= 1.0
    requires all == seq(|weights|, i => i) && Sum(alloc) == 0.0 && forall i | 0 <= i < |alloc| :: alloc[i] == 0.0
    requires active == Filter(all, (i: nat) => TakesPart(weights, caps, i))
    ensures Round(weights, caps, Min(Sum(PositivePart(weights)), 1.0), alloc, active,
                  Min(Sum(PositivePart(weights)), 1.0), Water(weights, 0.0))
  {
    FilterDistinct(all, (i: nat) => TakesPart(weights, caps, i));
    forall k | 0 <= k < |active| ensures TakesPart(weights, caps, active[k]) {
      assert active[k] in active;
    }
    NoWater(weights, active);
    FirstBudget(weights, caps, active);
    forall i: nat | i < |weights| && i !in active ensures OffActive(weights, caps, alloc, Water(weights, 0.0), i) {
      assert all[i] == i && i in all;
    }
  }

  /** Water-fills the unit budget so that no strategy holds more than its capacity at `targetAum`; a
      non-positive amount disables capping. Weights beyond the shorter list get nothing. */
  method CapWeights(weights: seq<real>, capacities: seq<Dollars>, targetAum: real)
    returns (alloc: seq<real>, ghost level: real)
    ensures |alloc| == |weights|
    ensures var n := if |weights| <= |capacities| then |weights| else |capacities|;
            && (forall i | n <= i < |alloc| :: alloc[i] == 0.0)
            && (targetAum <= 0.0 ==> alloc[..n] == weights[..n])
            && (targetAum > 0.0 ==>
                  && WaterFill(weights[..n], CapFractions(capacities[..n], targetAum), alloc[..n], level)
                  && Sum(alloc[..n]) == Total(weights[..n], CapFractions(capacities[..n], targetAum)))
  {
    var n := if |weights| <= |capacities| then |weights| else |capacities|;
    var idle := seq(|weights| - n, _ => 0.0);
    level := 0.0;
    if targetAum <= 0.0 {
      alloc := weights[..n] + idle;
      return;
    }
    var filled;
    filled, level := Fill(weights[..n], CapFractions(capacities[..n], targetAum));
    alloc := filled + idle;
    assert alloc[..n] == filled;
  }

  // ----- What a water-fill is -----

  /** The level is not a free parameter: two water-fills of the same weights and caps with the same
      total are the same allocation. */
  lemma WaterFillIsUnique(weights: seq<real>, caps: seq<real>, a: seq<real>, la: real, b: seq<real>, lb: real)
    requires WaterFill(weights, caps, a, la) && WaterFill(weights, caps, b, lb) && Sum(a) == Sum(b)
    ensures a == b
  {
    if la <= lb {
      LowerLevelHoldsLess(weights, caps, a, la, b, lb);
      SumMonotone(a, b);
    } else {
      LowerLevelHoldsLess(weights, caps, b, lb, a, la);
      SumMonotone(b, a);
    }
  }

  lemma LowerLevelHoldsLess(weights: seq<real>, caps: seq<real>, a: seq<real>, la: real, b: seq<real>, lb: real)
    requires WaterFill(weights, caps, a, la) && WaterFill(weights, caps, b, lb) && la <= lb
    ensures forall i | 0 <= i < |a| :: a[i] <= b[i]
  {
  }

  /** Every share is non-negative and within its cap, and the shares sum to at most one. */
  lemma WaterFillIsSafe(weights: seq<real>, caps: seq<real>, alloc: seq<real>, level: real)
    requires WaterFill(weights, caps, alloc, level) && Sum(alloc) == Total(weights, caps)
    requires forall i | 0 <= i < |caps| :: 0.0 <= caps[i]
    ensures forall i | 0 <= i < |alloc| :: 0.0 <= alloc[i] <= caps[i]
    ensures Sum(alloc) <= 1.0
  {
    forall i | 0 <= i < |alloc| ensures 0.0 <= alloc[i] <= caps[i] {
      if weights[i] > 0.0 {
        ScaleMonotone(0.0, level, weights[i]);
      }
    }
  }

  // ----- Deployed member weights -----

  datatype Weighting = EqualWeight | CapacityCapped(capacities: seq<Dollars>, targetAum: real)

  function Equal(k: nat): (r: seq<real>)
    requires k > 0
    ensures |r| == k
  {
    seq(k, _ => 1.0 / (k as real))
  }

  function MemberCapacities(capacities: seq<Dollars>, members: seq<nat>): (r: seq<Dollars>)
    ensures |r| == |members|
    ensures forall i | 0 <= i < |members| && members[i] < |capacities| :: r[i] == capacities[members[i]]
    ensures forall i | 0 <= i < |members| && members[i] >= |capacities| :: r[i] == Unbounded
  {
    seq(|members|, i requires 0 <= i < |members| =>
      if members[i] < |capacities| then capacities[members[i]] else Unbounded)
  }

  /** No member's modelled capacity, as a fraction of the target, is below its equal share. */
  predicate NoCapBinds(w: Weighting, members: seq<nat>)
    requires members != []
  {
    w.CapacityCapped? && w.targetAum > 0.0 ==>
      forall i | 0 <= i < |members| && members[i] < |w.capacities| && w.capacities[members[i]].Finite? ::
        w.capacities[members[i]].amount / w.targetAum >= 1.0 / (|members| as real)
  }

  lemma {:induction false} SumConstant(v: seq<real>, x: real)
    requires forall i | 0 <= i < |v| :: v[i] == x
    ensures Sum(v) == (|v| as real) * x
  {
    if v != [] {
      SumConstant(v[..|v| - 1], x);
    }
  }

  lemma EqualSumsToOne(k: nat)
    requires k > 0
    ensures Sum(Equal(k)) == 1.0 && Sum(PositivePart(Equal(k))) == 1.0
  {
    SumConstant(Equal(k), 1.0 / (k as real));
    assert PositivePart(Equal(k)) == Equal(k);
  }

  /** Equal weights survive the water-fill unchanged exactly when no cap is below the equal share. */
  lemma EqualSurvivesIff(k: nat, caps: seq<real>, alloc: seq<real>, level: real)
    requires k > 0 && |caps| == k && (forall i | 0 <= i < k :: 0.0 <= caps[i] <= 1.0)
    requires WaterFill(Equal(k), caps, alloc, level) && Sum(alloc) == Total(Equal(k), caps)
    ensures alloc == Equal(k) <==> forall i | 0 <= i < k :: caps[i] >= 1.0 / (k as real)
  {
    var share := 1.0 / (k as real);
    EqualSumsToOne(k);
    if forall i | 0 <= i < k :: caps[i] >= share {
      SumMonotone(Equal(k), UsableCaps(Equal(k), caps));
      assert WaterFill(Equal(k), caps, Equal(k), 1.0);
      WaterFillIsUnique(Equal(k), caps, alloc, level, Equal(k), 1.0);
    } else {
      var i :| 0 <= i < k && caps[i] < share;
      assert alloc[i] <= caps[i] && Equal(k)[i] == share;
    }
  }

  /** A share of the target whose dollars a capacity holds: a negative capacity holds nothing, an unbounded
      one anything. */
  predicate Holds(c: Dollars, targetAum: real, share: real) {
    c.Finite? ==> share * targetAum <= if c.amount > 0.0 then c.amount else 0.0
  }

  /** A share whose dollars fill a finite capacity exactly. */
  predicate Fills(c: Dollars, targetAum: real, share: real) {
    c.Finite? && share * targetAum == if c.amount > 0.0 then c.amount else 0.0
  }

  lemma FractionMeaning(c: Dollars, targetAum: real, share: real)
    requires targetAum > 0.0
    ensures share <= CapFraction(c, targetAum) <==> share <= 1.0 && Holds(c, targetAum, share)
    ensures share == CapFraction(c, targetAum) && share < 1.0 ==> Fills(c, targetAum, share)
  {
    if c.Finite? {
      DollarsOfShare(c.amount, targetAum, share);
    }
  }

  lemma DollarsOfShare(amount: real, targetAum: real, share: real)
    requires targetAum > 0.0
    ensures amount / targetAum > 0.0 <==> amount > 0.0
    ensures share <= amount / targetAum <==> share * targetAum <= amount
    ensures share == amount / targetAum <==> share * targetAum == amount
    ensures share <= 0.0 <==> share * targetAum <= 0.0
  {
    assert (amount / targetAum) * targetAum == amount;
  }

  /** No vector within the caps, with nothing where the weight is not positive and within the budget,
      allocates more than a water-fill that reaches `Total`. */
  lemma NothingHoldsMore(weights: seq<real>, caps: seq<real>, alloc: seq<real>, other: seq<real>)
    requires |weights| == |caps| == |alloc| == |other| && Sum(alloc) == Total(weights, caps)
    requires forall i | 0 <= i < |other| :: other[i] <= if weights[i] > 0.0 then caps[i] else 0.0
    requires Sum(other) <= 1.0 && Sum(other) <= Sum(PositivePart(weights))
    ensures Sum(other) <= Sum(alloc)
  {
    SumMonotone(other, UsableCaps(weights, caps));
  }

  lemma LevelIsShared(k: nat, caps: seq<real>, r: seq<real>, level: real)
    requires k > 0 && WaterFill(Equal(k), caps, r, level)
    ensures forall i, j | 0 <= i < |r| && 0 <= j < |r| && r[i] < r[j] :: r[i] == caps[i]
  {
    assert forall i | 0 <= i < |r| :: Equal(k)[i] == 1.0 / (k as real) > 0.0;
  }

  lemma ShortOfOneFillsCaps(k: nat, caps: seq<real>, r: seq<real>)
    requires k > 0 && |caps| == |r| == k && forall i | 0 <= i < |r| :: r[i] <= caps[i]
    requires Sum(r) == Total(Equal(k), caps) && Sum(r) < 1.0
    ensures r == caps
  {
    EqualSumsToOne(k);
    assert UsableCaps(Equal(k), caps) == caps;
    SumMonotone(r, caps);
  }

  /** What an equal-weight water-fill means in dollars: no share exceeds the capacity behind it, one that is
      below another fills its capacity exactly, and if less than everything is deployed every share does. */
  lemma EqualFillMeaning(own: seq<Dollars>, targetAum: real, r: seq<real>, level: real)
    requires own != [] && targetAum > 0.0
    requires WaterFill(Equal(|own|), CapFractions(own, targetAum), r, level)
    requires Sum(r) == Total(Equal(|own|), CapFractions(own, targetAum))
    ensures forall i | 0 <= i < |r| :: 0.0 <= r[i] <= 1.0 && Holds(own[i], targetAum, r[i])
    ensures forall i, j | 0 <= i < |r| && 0 <= j < |r| && r[i] < r[j] :: Fills(own[i], targetAum, r[i])
    ensures Sum(r) < 1.0 ==> forall i | 0 <= i < |r| :: Fills(own[i], targetAum, r[i])
  {
    var caps := CapFractions(own, targetAum);
    assert |r| == |own|;
    WaterFillIsSafe(Equal(|own|), caps, r, level);
    LevelIsShared(|own|, caps, r, level);
    hide CapFraction, Holds, Fills, WaterFill, Sum, Total, Equal;
    forall i | 0 <= i < |r|
      ensures r[i] <= 1.0 && Holds(own[i], targetAum, r[i])
      ensures r[i] == caps[i] && r[i] < 1.0 ==> Fills(own[i], targetAum, r[i])
    {
      FractionMeaning(own[i], targetAum, r[i]);
    }
    if Sum(r) < 1.0 {
      ShortOfOneFillsCaps(|own|, caps, r);
      forall i | 0 <= i < |r| ensures Fills(own[i], targetAum, r[i]) {
        SumBound(r, i);
      }
    }
  }

  /** The deployed weight vector: equal weights, water-filled by the members' own capacities. No member holds
      more than its own capacity at the target amount; one that holds less than another fills its capacity,
      and so does every member if less than everything is deployed. It is exactly equal weight iff no
      member's cap binds. */
  method MemberWeights(w: Weighting, members: seq<nat>) returns (r: seq<real>)
    ensures |r| == |members|
    ensures members != [] ==> (r == Equal(|members|) <==> NoCapBinds(w, members))
    ensures w.CapacityCapped? && w.targetAum > 0.0 && members != [] ==>
              var caps := CapFractions(MemberCapacities(w.capacities, members), w.targetAum);
              (exists level :: WaterFill(Equal(|members|), caps, r, level)) && Sum(r) == Total(Equal(|members|), caps)
    ensures members != [] && (w.EqualWeight? || w.targetAum <= 0.0) ==>
              forall i | 0 <= i < |r| :: r[i] == 1.0 / (|members| as real)
    ensures members != [] ==> (forall i | 0 <= i < |r| :: 0.0 <= r[i] <= 1.0) && Sum(r) <= 1.0
    ensures forall i | w.CapacityCapped? && w.targetAum > 0.0 && 0 <= i < |r| && members[i] < |w.capacities| ::
              Holds(w.capacities[members[i]], w.targetAum, r[i])
    ensures forall i, j | w.CapacityCapped? && w.targetAum > 0.0 && 0 <= i < |r| && 0 <= j < |r| && r[i] < r[j] ::
              members[i] < |w.capacities| && Fills(w.capacities[members[i]], w.targetAum, r[i])
    ensures forall i | w.CapacityCapped? && w.targetAum > 0.0 && 0 <= i < |r| && Sum(r) < 1.0 ::
              members[i] < |w.capacities| && Fills(w.capacities[members[i]], w.targetAum, r[i])
  {
    hide Sum, Total, WaterFill, CapFraction;
    var k := |members|;
    if k == 0 {
      return [];
    }
    var equal := Equal(k);
    EqualSumsToOne(k);
    ShareFitsOne(k);
    if w.EqualWeight? {
      return equal;
    }
    var own := MemberCapacities(w.capacities, members);
    ghost var level;
    r, level := CapWeights(equal, own, w.targetAum);
    assert equal[..k] == equal && own[..k] == own && r[..k] == r;
    if w.targetAum > 0.0 {
      EqualSurvivesIff(k, CapFractions(own, w.targetAum), r, level);
      WaterFillIsSafe(equal, CapFractions(own, w.targetAum), r, level);
      EqualFillMeaning(own, w.targetAum, r, level);
      CapsInDollars(w, members);
    }
  }

  lemma ShareFitsOne(k: nat)
    requires k > 0
    ensures 0.0 < 1.0 / (k as real) <= 1.0
  {
  }

  lemma CapsInDollars(w: Weighting, members: seq<nat>)
    requires members != [] && w.CapacityCapped? && w.targetAum > 0.0
    ensures NoCapBinds(w, members) <==>
              forall i | 0 <= i < |members| ::
                CapFractions(MemberCapacities(w.capacities, members), w.targetAum)[i] >= 1.0 / (|members| as real)
  {
    var own := MemberCapacities(w.capacities, members);
    ShareFitsOne(|members|);
    forall i | 0 <= i < |members|
      ensures CapFraction(own[i], w.targetAum) >= 1.0 / (|members| as real)
              <==> (own[i].Finite? ==> own[i].amount / w.targetAum >= 1.0 / (|members| as real))
    {
    }
    assert forall i | 0 <= i < |members| :: CapFractions(own, w.targetAum)[i] == CapFraction(own[i], w.targetAum);
    assert forall i | 0 <= i < |members| && own[i].Finite? ::
        members[i] < |w.capacities| && w.capacities[members[i]] == own[i];
  }
}
