/** The live circuit-breaker layer: latched per-strategy and ensemble gating over abstract breakers,
    and the clamp that flattens gated strategies before netting. */
module Breakers {
  import opened Domain
  import opened Evaluator

  datatype Tier = Slow | Med | Fast

  /** The breaker primitive the layer only drives. */
  datatype BreakerKit<!C> = BreakerKit(observe: (C, real) -> (C, Option<Tier>), rearm: C -> C)

  datatype LayerState<C> = LayerState(
    strategy: seq<C>, ensemble: C, strategyGated: seq<bool>, preGated: seq<bool>, ensembleGated: bool)
  {
    predicate WellFormed() {
      && |strategy| == |strategyGated| == |preGated|
      && forall i | 0 <= i < |preGated| :: preGated[i] ==> strategyGated[i]
    }

    predicate IsGated(index: nat) {
      ensembleGated || (index < |strategyGated| && strategyGated[index])
    }
  }

  function Clamped<C>(s: LayerState<C>, decisions: seq<ChromosomeDecision>): (r: seq<ChromosomeDecision>)
    ensures |r| == |decisions|
    ensures forall i | 0 <= i < |r| ::
              r[i] == if s.IsGated(decisions[i].index) then decisions[i].(decision := Exit) else decisions[i]
  {
    seq(|decisions|, i requires 0 <= i < |decisions| =>
      if s.IsGated(decisions[i].index) then ChromosomeDecision(decisions[i].index, Exit) else decisions[i])
  }

  datatype Tick = StrategyTick(index: nat, equity: real) | EnsembleTick(equity: real) | Rollover

  function TickStep<C>(kit: BreakerKit<C>, s: LayerState<C>, t: Tick): (r: (LayerState<C>, Option<Tier>))
    requires s.WellFormed()
    ensures r.0.WellFormed() && |r.0.strategy| == |s.strategy| && r.0.preGated == s.preGated
  {
    match t
    case StrategyTick(i, equity) =>
      if i < |s.strategy| then
        var (next, tier) := kit.observe(s.strategy[i], equity);
        (s.(strategy := s.strategy[i := next],
            strategyGated := if tier.Some? then s.strategyGated[i := true] else s.strategyGated), tier)
      else (s, None)
    case EnsembleTick(equity) =>
      var (next, tier) := kit.observe(s.ensemble, equity);
      (s.(ensemble := next, ensembleGated := s.ensembleGated || tier.Some?), tier)
    case Rollover =>
      (LayerState(seq(|s.strategy|, i requires 0 <= i < |s.strategy| => kit.rearm(s.strategy[i])),
                  kit.rearm(s.ensemble), s.preGated, s.preGated, false), None)
  }

  function TickRun<C>(kit: BreakerKit<C>, s: LayerState<C>, ts: seq<Tick>): (r: LayerState<C>)
    requires s.WellFormed()
    ensures r.WellFormed() && |r.strategy| == |s.strategy| && r.preGated == s.preGated
  {
    if ts == [] then s else TickStep(kit, TickRun(kit, s, ts[..|ts| - 1]), ts[|ts| - 1]).0
  }

  /** The `k`-th tick tripped strategy `i`, directly or through the ensemble. */
  ghost predicate Tripped<C>(kit: BreakerKit<C>, s: LayerState<C>, ts: seq<Tick>, k: nat, i: nat)
    requires s.WellFormed() && k < |ts|
  {
    && TickStep(kit, TickRun(kit, s, ts[..k]), ts[k]).1.Some?
    && (ts[k].EnsembleTick? || ts[k] == StrategyTick(i, ts[k].equity))
  }

  /** `k` is a tripping tick of strategy `i` with no rollover after it. */
  ghost predicate TrippedSinceRollover<C>(kit: BreakerKit<C>, s: LayerState<C>, ts: seq<Tick>, k: nat, i: nat)
    requires s.WellFormed()
  {
    k < |ts| && Tripped(kit, s, ts, k, i) && Rollover !in ts[k..]
  }

  /** A tripping tick before the last one still counts, unless the last one is a rollover. */
  lemma TripSurvives<C>(kit: BreakerKit<C>, s: LayerState<C>, ts: seq<Tick>, k: nat, i: nat)
    requires s.WellFormed() && ts != [] && k < |ts| - 1
    ensures TrippedSinceRollover(kit, s, ts, k, i)
            <==> TrippedSinceRollover(kit, s, ts[..|ts| - 1], k, i) && ts[|ts| - 1] != Rollover
  {
    var init, t := ts[..|ts| - 1], ts[|ts| - 1];
    assert ts[..k] == init[..k] && ts[k..] == init[k..] + [t];
  }

  /** What one more tick does to one strategy's gate. */
  lemma GateStep<C>(kit: BreakerKit<C>, s: LayerState<C>, ts: seq<Tick>, i: nat)
    requires s.WellFormed() && i < |s.strategy| && ts != []
    ensures TickRun(kit, s, ts).IsGated(i) <==>
              || s.preGated[i]
              || (TickRun(kit, s, ts[..|ts| - 1]).IsGated(i) && ts[|ts| - 1] != Rollover)
              || TrippedSinceRollover(kit, s, ts, |ts| - 1, i)
  {
  }

  /** Gating is exactly a latch: a strategy is gated iff it is uncalibrated, or it was gated at the
      start and there was no rollover, or a tick tripped it since the last rollover. */
  lemma {:induction false} GatedIff<C>(kit: BreakerKit<C>, s: LayerState<C>, ts: seq<Tick>, i: nat)
    requires s.WellFormed() && i < |s.strategy|
    ensures TickRun(kit, s, ts).IsGated(i) <==>
              || s.preGated[i]
              || (s.IsGated(i) && Rollover !in ts)
              || (exists k: nat :: TrippedSinceRollover(kit, s, ts, k, i))
  {
    if ts != [] {
      var init, t := ts[..|ts| - 1], ts[|ts| - 1];
      GatedIff(kit, s, init, i);
      GateStep(kit, s, ts, i);
      assert ts == init + [t];
      forall k: nat | k < |init|
        ensures TrippedSinceRollover(kit, s, ts, k, i) <==> TrippedSinceRollover(kit, s, init, k, i) && t != Rollover
      {
        TripSurvives(kit, s, ts, k, i);
      }
      assert forall k: nat :: TrippedSinceRollover(kit, s, init, k, i) ==> k < |init|;
      assert forall k: nat :: TrippedSinceRollover(kit, s, ts, k, i) ==> k <= |init|;
      hide TickRun, Tripped, TrippedSinceRollover;
    }
  }

  /** One strategy's breaker, driven by its own equity ticks and re-armed at every rollover. */
  function StrategyBreaker<C>(kit: BreakerKit<C>, c: C, ts: seq<Tick>, i: nat): C {
    if ts == [] then c
    else
      var before := StrategyBreaker(kit, c, ts[..|ts| - 1], i);
      match ts[|ts| - 1]
      case StrategyTick(j, equity) => if j == i then kit.observe(before, equity).0 else before
      case EnsembleTick(_) => before
      case Rollover => kit.rearm(before)
  }

  function EnsembleBreaker<C>(kit: BreakerKit<C>, c: C, ts: seq<Tick>): C {
    if ts == [] then c
    else
      var before := EnsembleBreaker(kit, c, ts[..|ts| - 1]);
      match ts[|ts| - 1]
      case StrategyTick(_, _) => before
      case EnsembleTick(equity) => kit.observe(before, equity).0
      case Rollover => kit.rearm(before)
  }

  /** Every breaker is fed its own ticks and no other: over every run, each is what it would be had its own
      ticks and the rollovers been all there was. */
  lemma {:induction false} BreakersAreSeparate<C>(kit: BreakerKit<C>, s: LayerState<C>, ts: seq<Tick>, i: nat)
    requires s.WellFormed() && i < |s.strategy|
    ensures TickRun(kit, s, ts).strategy[i] == StrategyBreaker(kit, s.strategy[i], ts, i)
    ensures TickRun(kit, s, ts).ensemble == EnsembleBreaker(kit, s.ensemble, ts)
  {
    if ts != [] {
      BreakersAreSeparate(kit, s, ts[..|ts| - 1], i);
    }
  }

  /** A gated strategy's clamped decision leaves it flat, whatever it held and decided. */
  lemma ClampFlattens<C>(s: LayerState<C>, decisions: seq<ChromosomeDecision>, positions: seq<PositionState>)
    requires |positions| == |decisions|
    ensures forall i | 0 <= i < |decisions| && s.IsGated(decisions[i].index) ::
              AdvanceAll(positions, Clamped(s, decisions))[i] == FLAT
  {
  }

  class BreakerLayer<C> {
    const kit: BreakerKit<C>
    var strategy: seq<C>
    var ensemble: C
    var strategyGated: seq<bool>
    var preGated: seq<bool>
    var ensembleGated: bool

    ghost function State(): LayerState<C>
      reads this
    {
      LayerState(strategy, ensemble, strategyGated, preGated, ensembleGated)
    }

    ghost predicate Valid()
      reads this
    {
      State().WellFormed()
    }

    /** `calibrated[i]` is strategy `i`'s breaker; `None` pre-gates it and gives it the `failSafe` breaker. */
    constructor FromCalibration(kit: BreakerKit<C>, calibrated: seq<Option<C>>, failSafe: C, ensemble: C)
      ensures Valid() && this.kit == kit && this.ensemble == ensemble && |strategy| == |calibrated| && !ensembleGated
      ensures forall i | 0 <= i < |calibrated| :: preGated[i] == strategyGated[i] == calibrated[i].None?
      ensures forall i | 0 <= i < |calibrated| ::
                strategy[i] == if calibrated[i].Some? then calibrated[i].value else failSafe
    {
      this.kit, this.ensemble, ensembleGated := kit, ensemble, false;
      strategy := seq(|calibrated|, i requires 0 <= i < |calibrated| =>
        if calibrated[i].Some? then calibrated[i].value else failSafe);
      var gates := seq(|calibrated|, i requires 0 <= i < |calibrated| => calibrated[i].None?);
      preGated, strategyGated := gates, gates;
    }

    method ObserveStrategy(index: nat, equity: real) returns (tier: Option<Tier>)
      requires Valid()
      modifies this
      ensures Valid() && (State(), tier) == TickStep(kit, old(State()), StrategyTick(index, equity))
      ensures index >= old(|strategy|) ==> tier.None? && State() == old(State())
      ensures index < old(|strategy|) ==>
                && |strategy| == old(|strategy|)
                && (strategy[index], tier) == kit.observe(old(strategy)[index], equity)
                && (strategyGated[index] <==> old(strategyGated)[index] || tier.Some?)
                && ensemble == old(ensemble) && ensembleGated == old(ensembleGated) && preGated == old(preGated)
                && forall i | 0 <= i < |strategy| && i != index ::
                     strategy[i] == old(strategy)[i] && strategyGated[i] == old(strategyGated)[i]
    {
      if index >= |strategy| {
        return None;
      }
      var observed := kit.observe(strategy[index], equity);
      strategy, tier := strategy[index := observed.0], observed.1;
      if tier.Some? {
        strategyGated := strategyGated[index := true];
      }
    }

    method ObserveEnsemble(equity: real) returns (tier: Option<Tier>)
      requires Valid()
      modifies this
      ensures Valid() && (State(), tier) == TickStep(kit, old(State()), EnsembleTick(equity))
      ensures (ensemble, tier) == kit.observe(old(ensemble), equity)
      ensures ensembleGated <==> old(ensembleGated) || tier.Some?
      ensures strategy == old(strategy) && strategyGated == old(strategyGated) && preGated == old(preGated)
    {
      var observed := kit.observe(ensemble, equity);
      ensemble, tier := observed.0, observed.1;
      if tier.Some? {
        ensembleGated := true;
      }
    }

    function IsGated(index: nat): bool
      reads this
    {
      ensembleGated || (index < |strategyGated| && strategyGated[index])
    }

    function Clamp(decisions: seq<ChromosomeDecision>): (r: seq<ChromosomeDecision>)
      reads this
      ensures r == Clamped(State(), decisions)
      ensures |r| == |decisions| && forall i | 0 <= i < |r| ::
                && r[i].index == decisions[i].index
                && r[i].decision ==
                     if ensembleGated || (r[i].index < |strategyGated| && strategyGated[r[i].index])
                     then Exit else decisions[i].decision
    {
      seq(|decisions|, i requires 0 <= i < |decisions| reads this =>
        if IsGated(decisions[i].index) then ChromosomeDecision(decisions[i].index, Exit) else decisions[i])
    }

    /** Re-arms every breaker and clears tripped gates; the uncalibrated fail-safe is re-applied. */
    method Reset()
      requires Valid()
      modifies this
      ensures Valid() && State() == TickStep(kit, old(State()), Rollover).0
      ensures |strategy| == old(|strategy|) && forall i | 0 <= i < |strategy| :: strategy[i] == kit.rearm(old(strategy)[i])
      ensures ensemble == kit.rearm(old(ensemble)) && !ensembleGated
      ensures strategyGated == preGated == old(preGated)
    {
      ghost var before := strategy;
      for i := 0 to |strategy|
        invariant |strategy| == |before|
        invariant forall k | 0 <= k < i :: strategy[k] == kit.rearm(before[k])
        invariant forall k | i <= k < |before| :: strategy[k] == before[k]
        modifies this`strategy
      {
        strategy := strategy[i := kit.rearm(strategy[i])];
      }
      ensemble := kit.rearm(ensemble);
      for i := 0 to |preGated|
        invariant |strategyGated| == |preGated|
        invariant strategyGated[..i] == preGated[..i]
        modifies this`strategyGated
      {
        strategyGated := strategyGated[i := preGated[i]];
      }
      assert strategyGated == preGated;
      ensembleGated := false;
    }
  }
}
