/** Netting post-breaker positions into one sized target, and planning it as an absolute notional. */
module Netting {
  import opened Domain
  import opened Evaluator
  import opened Breakers

  datatype NetLeg = NetLeg(direction: Option<Direction>, weight: real, sizeBps: nat)

  datatype NetTarget = NetTarget(net: real, long: real, short: real)

  function Magnitude(leg: NetLeg): real {
    if leg.direction.None? then 0.0 else leg.weight * (leg.sizeBps as real) / 10000.0
  }

  function SignedTarget(leg: NetLeg): real {
    match leg.direction
    case Some(Long) => Magnitude(leg)
    case Some(Short) => -Magnitude(leg)
    case None => 0.0
  }

  function SideTotal(legs: seq<NetLeg>, side: Direction): real {
    if legs == [] then 0.0
    else
      SideTotal(legs[..|legs| - 1], side)
        + if legs[|legs| - 1].direction == Some(side) then Magnitude(legs[|legs| - 1]) else 0.0
  }

  function SignedTotal(legs: seq<NetLeg>): real {
    if legs == [] then 0.0 else SignedTotal(legs[..|legs| - 1]) + SignedTarget(legs[|legs| - 1])
  }

  /** Accumulates the two sides leg by leg; the net is their difference. */
  method Net(legs: seq<NetLeg>) returns (r: NetTarget)
    ensures r == NetOf(legs)
    ensures r.net == SignedTotal(legs)
  {
    var long, short := 0.0, 0.0;
    for i := 0 to |legs|
      invariant long == SideTotal(legs[..i], Long) && short == SideTotal(legs[..i], Short)
    {
      assert legs[..i + 1][..i] == legs[..i];
      match legs[i].direction {
        case Some(Long) => long := long + Magnitude(legs[i]);
        case Some(Short) => short := short + Magnitude(legs[i]);
        case None =>
      }
    }
    assert legs[..|legs|] == legs;
    r := NetTarget(long - short, long, short);
    NetIsSignedTotal(legs);
  }

  function NetOf(legs: seq<NetLeg>): NetTarget {
    NetTarget(SideTotal(legs, Long) - SideTotal(legs, Short), SideTotal(legs, Long), SideTotal(legs, Short))
  }

  lemma {:induction false} NetIsSignedTotal(legs: seq<NetLeg>)
    ensures NetOf(legs).net == SignedTotal(legs)
  {
    if legs != [] {
      NetIsSignedTotal(legs[..|legs| - 1]);
    }
  }

  lemma {:induction false} SidesNonNegative(legs: seq<NetLeg>)
    requires forall i | 0 <= i < |legs| :: legs[i].weight >= 0.0
    ensures SideTotal(legs, Long) >= 0.0 && SideTotal(legs, Short) >= 0.0
  {
    if legs != [] {
      SidesNonNegative(legs[..|legs| - 1]);
      var leg := legs[|legs| - 1];
      assert leg.weight * (leg.sizeBps as real) >= 0.0;
    }
  }

  /** One more leg moves its own side, and only that, by its weight times its size in basis points. */
  lemma OneMoreLeg(legs: seq<NetLeg>, leg: NetLeg)
    ensures NetOf([]) == NetTarget(0.0, 0.0, 0.0)
    ensures var before, after := NetOf(legs), NetOf(legs + [leg]);
            && (after.long - before.long) * 10000.0
               == (if leg.direction == Some(Long) then leg.weight * (leg.sizeBps as real) else 0.0)
            && (after.short - before.short) * 10000.0
               == (if leg.direction == Some(Short) then leg.weight * (leg.sizeBps as real) else 0.0)
            && after.net == after.long - after.short
  {
    assert (legs + [leg])[..|legs|] == legs;
  }

  function Legs(positions: seq<PositionState>, weights: seq<real>, sizes: seq<nat>): (r: seq<NetLeg>)
    requires |positions| == |weights| == |sizes|
    ensures |r| == |positions|
    ensures forall i | 0 <= i < |r| ::
              r[i].direction == positions[i].dir && r[i].weight == weights[i] && r[i].sizeBps == sizes[i]
  {
    seq(|positions|, i requires 0 <= i < |positions| => NetLeg(positions[i].dir, weights[i], sizes[i]))
  }

  // ----- Sizing -----

  predicate Book(r: NetTarget) {
    r.net == r.long - r.short && r.long >= 0.0 && r.short >= 0.0
  }

  function Gross(r: NetTarget): real {
    r.long + r.short
  }

  /** Scales a netted book by the advisory multiplier, then clamps its net leverage. */
  method ApplySizer(base: NetTarget, multiplier: real, leverageCap: Option<real>) returns (r: NetTarget)
    requires multiplier >= 0.0
    ensures r == Sized(base, multiplier, leverageCap)
  {
    r := Scaled(base, multiplier);
    if leverageCap.Some? {
      var cap := Max(leverageCap.value, 0.0);
      var mag := Abs(r.net);
      if mag > cap {
        r := Scaled(r, cap / mag);
      }
    }
  }

  function Scaled(r: NetTarget, f: real): NetTarget {
    NetTarget(r.net * f, r.long * f, r.short * f)
  }

  function Sized(base: NetTarget, multiplier: real, leverageCap: Option<real>): NetTarget
    requires multiplier >= 0.0
  {
    var big := Scaled(base, multiplier);
    if leverageCap.None? || Abs(big.net) <= Max(leverageCap.value, 0.0) then big
    else Scaled(big, Max(leverageCap.value, 0.0) / Abs(big.net))
  }

  lemma ScaledBook(r: NetTarget, f: real)
    requires Book(r) && f >= 0.0
    ensures Book(Scaled(r, f)) && Abs(Scaled(r, f).net) <= Gross(Scaled(r, f))
  {
  }

  lemma ClampedMagnitude(x: real, cap: real)
    requires cap >= 0.0 && Abs(x) > cap
    ensures Abs(x * (cap / Abs(x))) == cap && cap / Abs(x) >= 0.0
  {
  }

  /** Sizing keeps a book a book and its net within the cap, and an identity sizer changes nothing. */
  lemma SizedBook(base: NetTarget, multiplier: real, leverageCap: Option<real>)
    requires Book(base) && multiplier >= 0.0
    ensures var r := Sized(base, multiplier, leverageCap);
            && Book(r) && Abs(r.net) <= Gross(r)
            && (leverageCap.Some? ==> Abs(r.net) <= Max(leverageCap.value, 0.0))
    ensures Sized(base, 1.0, None) == base
  {
    var big := Scaled(base, multiplier);
    ScaledBook(base, multiplier);
    if leverageCap.Some? && Abs(big.net) > Max(leverageCap.value, 0.0) {
      ClampedMagnitude(big.net, Max(leverageCap.value, 0.0));
      ScaledBook(big, Max(leverageCap.value, 0.0) / Abs(big.net));
    }
  }

  /** Sizing only scales the whole book, by one factor: the multiplier, while that stays within the cap. */
  lemma SizingScales(base: NetTarget, multiplier: real, leverageCap: Option<real>) returns (f: real)
    requires multiplier >= 0.0
    ensures var r := Sized(base, multiplier, leverageCap);
            f >= 0.0 && r.net == base.net * f && r.long == base.long * f && r.short == base.short * f
    ensures leverageCap.None? || Abs(base.net * multiplier) <= Max(leverageCap.value, 0.0) ==> f == multiplier
  {
    f := multiplier;
    var big := Scaled(base, multiplier);
    if leverageCap.Some? && Abs(big.net) > Max(leverageCap.value, 0.0) {
      var g := Max(leverageCap.value, 0.0) / Abs(big.net);
      ClampedMagnitude(big.net, Max(leverageCap.value, 0.0));
      ScaledTwice(base, multiplier, g);
      f := multiplier * g;
    }
  }

  /** Sizing gives nothing away: the book is scaled by one factor, and the net magnitude is the multiplied
      one, or the cap when that is smaller. */
  lemma SizingIsExact(base: NetTarget, multiplier: real, leverageCap: Option<real>) returns (f: real)
    requires multiplier >= 0.0
    ensures var r, wanted := Sized(base, multiplier, leverageCap), Abs(base.net * multiplier);
            && f >= 0.0 && r.net == base.net * f && r.long == base.long * f && r.short == base.short * f
            && Abs(r.net) == if leverageCap.None? then wanted else Min(wanted, Max(leverageCap.value, 0.0))
    ensures leverageCap.None? || Abs(base.net * multiplier) <= Max(leverageCap.value, 0.0) ==> f == multiplier
  {
    f := SizingScales(base, multiplier, leverageCap);
    NetWithinCap(base, multiplier, leverageCap);
    hide Sized;
  }

  lemma NetWithinCap(base: NetTarget, multiplier: real, leverageCap: Option<real>)
    requires multiplier >= 0.0
    ensures Abs(Sized(base, multiplier, leverageCap).net)
            == if leverageCap.None? then Abs(base.net * multiplier)
               else Min(Abs(base.net * multiplier), Max(leverageCap.value, 0.0))
  {
    var big := Scaled(base, multiplier);
    if leverageCap.Some? && Abs(big.net) > Max(leverageCap.value, 0.0) {
      ClampedMagnitude(big.net, Max(leverageCap.value, 0.0));
    }
  }

  lemma ScaledTwice(r: NetTarget, f: real, g: real)
    requires f >= 0.0 && g >= 0.0
    ensures f * g >= 0.0 && Scaled(Scaled(r, f), g) == Scaled(r, f * g)
  {
  }

  /** The book the planner receives: aligned slices, netted and sized. */
  method NetPositionsSized(
      positions: seq<PositionState>, weights: seq<real>, sizes: seq<nat>, multiplier: real, leverageCap: Option<real>)
    returns (r: NetTarget)
    requires |positions| == |weights| == |sizes| && multiplier >= 0.0
    ensures r == Sized(NetOf(Legs(positions, weights, sizes)), multiplier, leverageCap)
    ensures (forall i | 0 <= i < |weights| :: weights[i] >= 0.0) ==>
              && Book(r) && Abs(r.net) <= Gross(r)
              && (leverageCap.Some? ==> Abs(r.net) <= Max(leverageCap.value, 0.0))
  {
    var base := Net(Legs(positions, weights, sizes));
    r := ApplySizer(base, multiplier, leverageCap);
    if forall i | 0 <= i < |weights| :: weights[i] >= 0.0 {
      SidesNonNegative(Legs(positions, weights, sizes));
      SizedBook(base, multiplier, leverageCap);
    }
  }

  // ----- Gated strategies -----

  /** The weights with every gated strategy's set to zero. */
  function Ungated<C>(s: LayerState<C>, weights: seq<real>): (r: seq<real>)
    ensures |r| == |weights|
  {
    seq(|weights|, i requires 0 <= i < |weights| => if s.IsGated(i) then 0.0 else weights[i])
  }

  lemma {:induction false} SameMagnitudesSameSides(a: seq<NetLeg>, b: seq<NetLeg>)
    requires |a| == |b|
    requires forall i | 0 <= i < |a| ::
               (a[i].direction == b[i].direction && Magnitude(a[i]) == Magnitude(b[i]))
               || (Magnitude(a[i]) == 0.0 && Magnitude(b[i]) == 0.0)
    ensures NetOf(a) == NetOf(b)
  {
    if a != [] {
      SameMagnitudesSameSides(a[..|a| - 1], b[..|b| - 1]);
    }
  }

  /** A gated strategy contributes nothing: netting the positions the clamped decisions leave is
      netting what the unclamped decisions leave with the gated weights struck out. */
  lemma GatedContributeNothing<C>(
      s: LayerState<C>, positions: seq<PositionState>, decisions: seq<ChromosomeDecision>, weights: seq<real>, sizes: seq<nat>)
    requires |positions| == |decisions| == |weights| == |sizes|
    requires forall i | 0 <= i < |decisions| :: decisions[i].index == i
    ensures NetOf(Legs(AdvanceAll(positions, Clamped(s, decisions)), weights, sizes))
            == NetOf(Legs(AdvanceAll(positions, decisions), Ungated(s, weights), sizes))
  {
    var a := Legs(AdvanceAll(positions, Clamped(s, decisions)), weights, sizes);
    var b := Legs(AdvanceAll(positions, decisions), Ungated(s, weights), sizes);
    forall i | 0 <= i < |a|
      ensures (a[i].direction == b[i].direction && Magnitude(a[i]) == Magnitude(b[i]))
              || (Magnitude(a[i]) == 0.0 && Magnitude(b[i]) == 0.0)
    {
      if s.IsGated(i) {
        assert a[i].direction == None;
        assert 0.0 * (b[i].sizeBps as real) / 10000.0 == 0.0;
      } else {
        assert a[i] == b[i];
      }
    }
    SameMagnitudesSameSides(a, b);
  }

  // ----- Planning -----

  /** The absolute target: it reads equity and nothing of the current venue position. */
  function Plan(net: NetTarget, capital: CapitalView): TargetPosition {
    TargetPosition(net.net * capital.equity, Gross(net) * capital.equity)
  }
}
