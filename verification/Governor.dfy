/** The pre-trade governor: caps that clamp, caps that reject, and the verdict by severity. */
module Governor {
  import opened Domain
  import opened Netting

  type Leverage = x: real | x >= 0.0

  type Fraction = x: real | 0.0 <= x <= 1.0

  datatype LimitKind =
    | MaxNotional | MaxLeverage | MaxGrossExposure | MaxNetExposure
    | LiquidationDistanceFloor | MarginUtilisationCeiling | MaxParticipation | DrawdownCap

  datatype LimitOutcome = Clamp | Reject | Halt

  function DefaultOutcome(k: LimitKind): LimitOutcome {
    match k
    case MaxNotional => Clamp
    case MaxLeverage => Clamp
    case DrawdownCap => Halt
    case _ => Reject
  }

  /** Every cap is optional; the notional ones are unvalidated and may be negative. */
  datatype RiskLimits = RiskLimits(
    maxNotional: Option<real>,
    maxLeverage: Option<Leverage>,
    maxGrossExposure: Option<real>,
    maxNetExposure: Option<real>,
    liquidationDistanceFloor: Option<Fraction>,
    marginUtilisationCeiling: Option<Fraction>,
    maxParticipation: Option<Fraction>)

  datatype LimitBreach = LimitBreach(kind: LimitKind, outcome: LimitOutcome)

  function BreachOf(k: LimitKind): LimitBreach {
    LimitBreach(k, DefaultOutcome(k))
  }

  datatype Verdict = Send(notional: real) | Refuse | Flatten

  datatype Decision = Decision(verdict: Verdict, breaches: seq<LimitBreach>)

  function Severity(o: LimitOutcome): nat {
    match o
    case Clamp => 0
    case Reject => 1
    case Halt => 2
  }

  /** The most severe outcome among the breaches. */
  method MostSevere(breaches: seq<LimitBreach>) returns (r: Option<LimitOutcome>)
    ensures r.None? <==> breaches == []
    ensures r.Some? ==>
              && (exists b :: b in breaches && b.outcome == r.value)
              && (forall b | b in breaches :: Severity(b.outcome) <= Severity(r.value))
  {
    r := None;
    for i := 0 to |breaches|
      invariant r.None? <==> i == 0
      invariant r.Some? ==>
                  && (exists b :: b in breaches[..i] && b.outcome == r.value)
                  && (forall b | b in breaches[..i] :: Severity(b.outcome) <= Severity(r.value))
    {
      assert breaches[..i + 1] == breaches[..i] + [breaches[i]];
      assert breaches[i] in breaches[..i + 1];
      if r.None? || Severity(breaches[i].outcome) >= Severity(r.value) {
        r := Some(breaches[i].outcome);
      }
    }
    assert breaches[..|breaches|] == breaches;
  }

  /** A governor at one plan: its limits, the maintenance rate, the rolling volume if known, and capital. */
  datatype Context = Context(limits: RiskLimits, mmr: Fraction, adv: Option<real>, capital: CapitalView)

  // ----- When each cap is breached -----

  predicate OverNotional(g: Context, mag: real) {
    g.limits.maxNotional.Some? && mag > g.limits.maxNotional.value
  }

  /** With no positive equity any position is infinitely leveraged. */
  predicate OverLeverage(g: Context, mag: real) {
    g.limits.maxLeverage.Some? &&
    if g.capital.equity > 0.0 then mag > g.limits.maxLeverage.value * g.capital.equity else mag > 0.0
  }

  predicate OverGross(g: Context, gross: real) {
    g.limits.maxGrossExposure.Some? && gross > g.limits.maxGrossExposure.value
  }

  predicate OverNet(g: Context, mag: real) {
    g.limits.maxNetExposure.Some? && mag > g.limits.maxNetExposure.value
  }

  predicate TooCloseToLiquidation(g: Context, mag: real) {
    && g.limits.liquidationDistanceFloor.Some? && mag > 0.0
    && g.capital.equity / mag - g.mmr < g.limits.liquidationDistanceFloor.value
  }

  predicate OverMargin(g: Context, mag: real) {
    g.limits.marginUtilisationCeiling.Some? &&
    if g.capital.availableMargin > 0.0
    then (mag * g.mmr) / g.capital.availableMargin > g.limits.marginUtilisationCeiling.value
    else mag > 0.0
  }

  /** An unknown or non-positive volume fails closed. */
  predicate OverParticipation(g: Context, mag: real) {
    && g.limits.maxParticipation.Some? && mag > 0.0
    && (g.adv.Some? && g.adv.value > 0.0 ==> mag / g.adv.value > g.limits.maxParticipation.value)
  }

  predicate Rejects(g: Context, mag: real, gross: real) {
    OverGross(g, gross) || OverNet(g, mag) || TooCloseToLiquidation(g, mag) || OverMargin(g, mag) || OverParticipation(g, mag)
  }

  predicate Breached(g: Context, mag: real, gross: real, k: LimitKind) {
    match k
    case MaxNotional => OverNotional(g, mag)
    case MaxLeverage => OverLeverage(g, mag)
    case MaxGrossExposure => OverGross(g, gross)
    case MaxNetExposure => OverNet(g, mag)
    case LiquidationDistanceFloor => TooCloseToLiquidation(g, mag)
    case MarginUtilisationCeiling => OverMargin(g, mag)
    case MaxParticipation => OverParticipation(g, mag)
    case DrawdownCap => false
  }

  /** The magnitude left after every clamp cap that is hit. */
  function ClampedTo(g: Context, mag: real): real {
    var a := if OverNotional(g, mag) then Min(mag, g.limits.maxNotional.value) else mag;
    if !OverLeverage(g, mag) then a
    else if g.capital.equity > 0.0 then Min(a, g.limits.maxLeverage.value * g.capital.equity)
    else 0.0
  }

  function Noted(breached: bool, k: LimitKind): seq<LimitBreach> {
    if breached then [BreachOf(k)] else []
  }

  /** The breaches in the order the caps are checked. */
  function BreachList(g: Context, mag: real, gross: real): seq<LimitBreach> {
    Noted(OverNotional(g, mag), MaxNotional) + Noted(OverLeverage(g, mag), MaxLeverage)
      + Noted(OverGross(g, gross), MaxGrossExposure) + Noted(OverNet(g, mag), MaxNetExposure)
      + Noted(TooCloseToLiquidation(g, mag), LiquidationDistanceFloor)
      + Noted(OverMargin(g, mag), MarginUtilisationCeiling) + Noted(OverParticipation(g, mag), MaxParticipation)
  }

  /** Exactly the broken caps are listed, each with its own outcome. */
  lemma ListedIffBreached(g: Context, mag: real, gross: real)
    ensures forall b :: b in BreachList(g, mag, gross) <==> b == BreachOf(b.kind) && Breached(g, mag, gross, b.kind)
  {
    hide OverNotional, OverLeverage, OverGross, OverNet, TooCloseToLiquidation, OverMargin, OverParticipation;
  }

  /** The two clamp caps: what they note and what they leave. */
  method CheckClamps(g: Context, mag: real) returns (breaches: seq<LimitBreach>, clampMag: real)
    ensures breaches == Noted(OverNotional(g, mag), MaxNotional) + Noted(OverLeverage(g, mag), MaxLeverage)
    ensures clampMag == ClampedTo(g, mag)
  {
    breaches, clampMag := [], mag;
    if g.limits.maxNotional.Some? {
      var cap := g.limits.maxNotional.value;
      if mag > cap {
        breaches := breaches + [BreachOf(MaxNotional)];
        clampMag := Min(clampMag, cap);
      }
    }
    if g.limits.maxLeverage.Some? {
      if g.capital.equity > 0.0 {
        var cap := g.limits.maxLeverage.value * g.capital.equity;
        if mag > cap {
          breaches := breaches + [BreachOf(MaxLeverage)];
          clampMag := Min(clampMag, cap);
        }
      } else if mag > 0.0 {
        breaches := breaches + [BreachOf(MaxLeverage)];
        clampMag := 0.0;
      }
    }
  }

  /** Checks every cap in turn. The breaches are exactly the caps the target breaks; a reject cap
      refuses the order; otherwise the target is sent, shrunk to the clamped magnitude with its sign. */
  method Check(g: Context, target: TargetPosition) returns (d: Decision)
    ensures forall b :: b in d.breaches <==>
              b == BreachOf(b.kind) && Breached(g, Abs(target.notional), Abs(target.gross), b.kind)
    ensures d.breaches == BreachList(g, Abs(target.notional), Abs(target.gross))
    ensures d.verdict == VerdictOf(g, target)
  {
    hide OverNotional, OverLeverage, OverGross, OverNet, TooCloseToLiquidation, OverMargin, OverParticipation;
    hide ClampedTo, Breached;
    var mag, gross := Abs(target.notional), Abs(target.gross);
    var breaches, clampMag := CheckClamps(g, mag);
    breaches := breaches + Noted(OverGross(g, gross), MaxGrossExposure);
    breaches := breaches + Noted(OverNet(g, mag), MaxNetExposure);
    breaches := breaches + Noted(TooCloseToLiquidation(g, mag), LiquidationDistanceFloor);
    breaches := breaches + Noted(OverMargin(g, mag), MarginUtilisationCeiling);
    breaches := breaches + Noted(OverParticipation(g, mag), MaxParticipation);
    assert breaches == BreachList(g, mag, gross);
    hide BreachList, Noted;
    ListedIffBreached(g, mag, gross);
    var worst := MostSevere(breaches);
    WorstDecides(g, mag, gross, breaches, worst);
    var verdict := Send(target.notional);
    if worst == Some(Halt) {
      verdict := Flatten;
    } else if worst == Some(Reject) {
      verdict := Refuse;
    } else if worst == Some(Clamp) {
      verdict := Send(if target.notional < 0.0 then -clampMag else clampMag);
    }
    d := Decision(verdict, breaches);
  }

  /** What the governor decides, by which caps are broken. */
  function VerdictOf(g: Context, target: TargetPosition): Verdict {
    var mag := Abs(target.notional);
    if Rejects(g, mag, Abs(target.gross)) then Refuse
    else if OverNotional(g, mag) || OverLeverage(g, mag) then
      Send(if target.notional < 0.0 then -ClampedTo(g, mag) else ClampedTo(g, mag))
    else Send(target.notional)
  }

  lemma WorstDecides(g: Context, mag: real, gross: real, breaches: seq<LimitBreach>, worst: Option<LimitOutcome>)
    requires forall b :: b in breaches <==> b == BreachOf(b.kind) && Breached(g, mag, gross, b.kind)
    requires worst.None? <==> breaches == []
    requires worst.Some? ==>
               && (exists b :: b in breaches && b.outcome == worst.value)
               && (forall b | b in breaches :: Severity(b.outcome) <= Severity(worst.value))
    ensures worst == Some(Reject) <==> Rejects(g, mag, gross)
    ensures worst == Some(Clamp) <==>
              !Rejects(g, mag, gross) && (OverNotional(g, mag) || OverLeverage(g, mag))
    ensures worst != Some(Halt)
  {
    hide OverNotional, OverLeverage, OverGross, OverNet, TooCloseToLiquidation, OverMargin, OverParticipation;
    forall k | Breached(g, mag, gross, k) ensures BreachOf(k) in breaches {
    }
    assert Rejects(g, mag, gross) ==> exists k :: Breached(g, mag, gross, k) && DefaultOutcome(k) == Reject by {
      assert OverGross(g, gross) ==> Breached(g, mag, gross, MaxGrossExposure);
      assert OverNet(g, mag) ==> Breached(g, mag, gross, MaxNetExposure);
      assert TooCloseToLiquidation(g, mag) ==> Breached(g, mag, gross, LiquidationDistanceFloor);
      assert OverMargin(g, mag) ==> Breached(g, mag, gross, MarginUtilisationCeiling);
      assert OverParticipation(g, mag) ==> Breached(g, mag, gross, MaxParticipation);
    }
    assert OverNotional(g, mag) ==> Breached(g, mag, gross, MaxNotional);
    assert OverLeverage(g, mag) ==> Breached(g, mag, gross, MaxLeverage);
    assert breaches != [] ==> breaches[0] in breaches;
  }

  // ----- What a verdict promises -----

  predicate NotionalCapSane(g: Context) {
    g.limits.maxNotional.Some? ==> g.limits.maxNotional.value >= 0.0
  }

  predicate SameSide(a: real, b: real) {
    (a > 0.0 ==> b > 0.0) && (a < 0.0 ==> b < 0.0)
  }

  lemma ClampedFacts(g: Context, mag: real)
    requires mag >= 0.0 && NotionalCapSane(g)
    ensures 0.0 <= ClampedTo(g, mag) <= mag
    ensures !OverNotional(g, ClampedTo(g, mag)) && !OverLeverage(g, ClampedTo(g, mag))
  {
  }

  /** An order is sent exactly when no reject cap is broken. What is sent is never larger than the
      target or any clamp cap, never changes side, and is the target itself when no clamp cap is hit. */
  lemma SendIsWithinCaps(g: Context, target: TargetPosition)
    requires NotionalCapSane(g)
    ensures VerdictOf(g, target).Send? <==> !Rejects(g, Abs(target.notional), Abs(target.gross))
    ensures VerdictOf(g, target) != Flatten
    ensures VerdictOf(g, target).Send? ==>
              var n := VerdictOf(g, target).notional;
              && Abs(n) <= Abs(target.notional) && SameSide(n, target.notional)
              && !OverNotional(g, Abs(n)) && !OverLeverage(g, Abs(n))
              && (!OverNotional(g, Abs(target.notional)) && !OverLeverage(g, Abs(target.notional)) ==> n == target.notional)
  {
    ClampedFacts(g, Abs(target.notional));
  }

  /** Refusal in the limits' own figures: exactly when the gross or the net exceeds its cap, the equity does
      not cover the floor and the maintenance rate on the position, the maintenance margin exceeds its share
      of the margin, or the position exceeds its share of a volume that must be known and positive. */
  lemma RefusedIff(g: Context, target: TargetPosition)
    ensures var l, mag := g.limits, Abs(target.notional);
            VerdictOf(g, target) != Refuse <==>
              && (l.maxGrossExposure.Some? ==> Abs(target.gross) <= l.maxGrossExposure.value)
              && (l.maxNetExposure.Some? ==> mag <= l.maxNetExposure.value)
              && (l.liquidationDistanceFloor.Some? && mag > 0.0 ==>
                    g.capital.equity >= (g.mmr + l.liquidationDistanceFloor.value) * mag)
              && (l.marginUtilisationCeiling.Some? && mag > 0.0 ==>
                    && g.capital.availableMargin > 0.0
                    && mag * g.mmr <= l.marginUtilisationCeiling.value * g.capital.availableMargin)
              && (l.maxParticipation.Some? && mag > 0.0 ==>
                    g.adv.Some? && g.adv.value > 0.0 && mag <= l.maxParticipation.value * g.adv.value)
  {
    var mag := Abs(target.notional);
    LiquidationIff(g, mag);
    MarginIff(g, mag);
    ParticipationIff(g, mag);
    hide TooCloseToLiquidation, OverMargin, OverParticipation, OverNotional, OverLeverage, ClampedTo;
  }

  lemma LiquidationIff(g: Context, mag: real)
    ensures TooCloseToLiquidation(g, mag) <==>
              g.limits.liquidationDistanceFloor.Some? && mag > 0.0
              && g.capital.equity < (g.mmr + g.limits.liquidationDistanceFloor.value) * mag
  {
    if g.limits.liquidationDistanceFloor.Some? && mag > 0.0 {
      QuotientLess(g.capital.equity, mag, g.mmr + g.limits.liquidationDistanceFloor.value);
    }
  }

  lemma MarginIff(g: Context, mag: real)
    requires mag >= 0.0
    ensures OverMargin(g, mag) <==>
              g.limits.marginUtilisationCeiling.Some? && mag > 0.0
              && (g.capital.availableMargin > 0.0 ==>
                    mag * g.mmr > g.limits.marginUtilisationCeiling.value * g.capital.availableMargin)
  {
    if g.limits.marginUtilisationCeiling.Some? && g.capital.availableMargin > 0.0 {
      QuotientLess(mag * g.mmr, g.capital.availableMargin, g.limits.marginUtilisationCeiling.value);
      ShareNonNegative(g.limits.marginUtilisationCeiling.value, g.capital.availableMargin);
    }
  }

  lemma ParticipationIff(g: Context, mag: real)
    ensures OverParticipation(g, mag) <==>
              g.limits.maxParticipation.Some? && mag > 0.0
              && (g.adv.Some? && g.adv.value > 0.0 ==> mag > g.limits.maxParticipation.value * g.adv.value)
  {
    if g.limits.maxParticipation.Some? && g.adv.Some? && g.adv.value > 0.0 {
      QuotientLess(mag, g.adv.value, g.limits.maxParticipation.value);
    }
  }

  /** What is sent keeps its side, and its size is the least of the target, the notional cap and the leverage
      cap on the equity, which allows nothing without equity. */
  lemma SentMeaning(g: Context, target: TargetPosition)
    requires NotionalCapSane(g) && VerdictOf(g, target).Send?
    ensures var n, l, mag := VerdictOf(g, target).notional, g.limits, Abs(target.notional);
            var lent := if g.capital.equity > 0.0 && l.maxLeverage.Some? then l.maxLeverage.value * g.capital.equity else 0.0;
            && (n > 0.0 ==> target.notional > 0.0) && (n < 0.0 ==> target.notional < 0.0)
            && Abs(n) <= mag && (l.maxNotional.Some? ==> Abs(n) <= l.maxNotional.value)
            && (l.maxLeverage.Some? ==> Abs(n) <= lent)
            && (Abs(n) == mag || (l.maxNotional.Some? && Abs(n) == l.maxNotional.value)
                || (l.maxLeverage.Some? && Abs(n) == lent))
  {
    if g.limits.maxLeverage.Some? && g.capital.equity > 0.0 {
      ShareNonNegative(g.limits.maxLeverage.value, g.capital.equity);
    }
    ClampedFacts(g, Abs(target.notional));
    hide Rejects;
  }

  lemma QuotientLess(x: real, d: real, y: real)
    requires d > 0.0
    ensures x / d < y <==> x < y * d
    ensures x / d > y <==> x > y * d
  {
    assert (x / d) * d == x;
  }

  lemma ShareNonNegative(x: real, y: real)
    requires x >= 0.0 && y >= 0.0
    ensures x * y >= 0.0
  {
  }

  /** Nothing is given away: any size within the target and every clamp cap is at most what is sent. */
  lemma SentIsLargest(g: Context, target: TargetPosition, size: real)
    requires NotionalCapSane(g) && VerdictOf(g, target).Send?
    requires 0.0 <= size <= Abs(target.notional) && !OverNotional(g, size) && !OverLeverage(g, size)
    ensures size <= Abs(VerdictOf(g, target).notional)
  {
    ClampedFacts(g, Abs(target.notional));
  }

  lemma SmallerIsSafer(g: Context, mag: real, smaller: real, gross: real)
    requires 0.0 <= smaller <= mag <= gross
    requires !Rejects(g, mag, gross)
    ensures !Rejects(g, smaller, smaller)
  {
    if g.limits.liquidationDistanceFloor.Some? && smaller > 0.0 {
      DistanceGrows(g.capital.equity, mag, smaller, g.mmr, g.limits.liquidationDistanceFloor.value);
    }
    if g.limits.marginUtilisationCeiling.Some? && g.capital.availableMargin > 0.0 {
      RatioShrinks(mag * g.mmr, smaller * g.mmr, g.capital.availableMargin) by {
        assert (mag - smaller) * g.mmr >= 0.0;
      }
    }
    if g.adv.Some? && g.adv.value > 0.0 {
      RatioShrinks(mag, smaller, g.adv.value);
    }
  }

  lemma RatioShrinks(a: real, b: real, d: real)
    requires b <= a && d > 0.0
    ensures b / d <= a / d
  {
  }

  lemma DistanceGrows(equity: real, mag: real, smaller: real, mmr: real, floor: real)
    requires 0.0 < smaller <= mag && mmr >= 0.0 && floor >= 0.0 && equity / mag - mmr >= floor
    ensures equity / smaller - mmr >= floor
  {
    var q := equity / mag;
    assert q >= 0.0 && equity == q * mag;
    assert q * smaller <= q * mag;
    var p := equity / smaller;
    assert p * smaller == equity;
    assert (p - q) * smaller >= 0.0;
    if p < q {
      assert (q - p) * smaller > 0.0;
    }
  }

  /** A sent order is a fixed point: checked again on its own it is sent unchanged, with no breach. */
  lemma SentIsStable(g: Context, target: TargetPosition, k: LimitKind)
    requires NotionalCapSane(g) && Abs(target.notional) <= Abs(target.gross)
    requires VerdictOf(g, target).Send?
    ensures var sent := VerdictOf(g, target).notional;
            VerdictOf(g, Single(sent)) == Send(sent) && !Breached(g, Abs(sent), Abs(Single(sent).gross), k)
  {
    var sent := VerdictOf(g, target).notional;
    SendIsWithinCaps(g, target);
    SmallerIsSafer(g, Abs(target.notional), Abs(sent), Abs(target.gross));
    hide OverNotional, OverLeverage, OverGross, OverNet, TooCloseToLiquidation, OverMargin, OverParticipation;
    assert Abs(Single(sent).gross) == Abs(sent);
  }

  /** Every target: the governor never sends an order that changes side exactly when its notional cap is not
      negative, or a negative gross or net cap refuses everything. A negative notional cap by itself turns
      even a flat target into a short. */
  lemma KeepsSideIff(g: Context)
    ensures (forall t: TargetPosition ::
               VerdictOf(g, t).Send? ==> SameSide(VerdictOf(g, t).notional, t.notional)) <==>
            || NotionalCapSane(g)
            || (g.limits.maxGrossExposure.Some? && g.limits.maxGrossExposure.value < 0.0)
            || (g.limits.maxNetExposure.Some? && g.limits.maxNetExposure.value < 0.0)
  {
    if NotionalCapSane(g) {
      forall t: TargetPosition | VerdictOf(g, t).Send? ensures SameSide(VerdictOf(g, t).notional, t.notional) {
        SendIsWithinCaps(g, t);
      }
    }
    var flat := Single(0.0);
    assert VerdictOf(g, flat).Send? && !NotionalCapSane(g) ==>
             VerdictOf(g, flat).notional == g.limits.maxNotional.value;
  }

  // ----- The pipeline: netted, sized, planned, governed -----

  /** A book sized against a leverage cap and planned at the current equity breaks the governor's equal
      leverage cap exactly when equity is negative and the book is not flat. */
  lemma SizedBookMeetsLeverageIff(base: NetTarget, multiplier: real, cap: Leverage, g: Context)
    requires Book(base) && multiplier >= 0.0 && g.limits.maxLeverage == Some(cap)
    ensures var net := Sized(base, multiplier, Some(cap));
            OverLeverage(g, Abs(Plan(net, g.capital).notional)) <==> g.capital.equity < 0.0 && net.net != 0.0
  {
    SizedBook(base, multiplier, Some(cap));
    WithinLeverageIff(Sized(base, multiplier, Some(cap)).net, cap, g.capital.equity);
  }

  lemma WithinLeverageIff(net: real, cap: real, equity: real)
    requires Abs(net) <= cap
    ensures Abs(net * equity) > 0.0 <==> net != 0.0 && equity != 0.0
    ensures equity > 0.0 ==> Abs(net * equity) <= cap * equity
  {
  }

  /** The plan carries the book's two-sided exposure: its gross is never below its net, so a planned
      target meets what re-checking a sent order needs. */
  lemma PlannedGrossCoversNet(r: NetTarget, capital: CapitalView)
    requires Abs(r.net) <= Gross(r)
    ensures Abs(Plan(r, capital).notional) <= Abs(Plan(r, capital).gross)
  {
    ScaledCover(r.net, Gross(r), capital.equity);
  }

  /** The book is read back from its plan by dividing by the equity; without equity the plan is flat. */
  lemma PlanReadsBack(r: NetTarget, capital: CapitalView)
    ensures if capital.equity == 0.0 then Plan(r, capital) == TargetPosition(0.0, 0.0)
            else Plan(r, capital).notional / capital.equity == r.net
                 && Plan(r, capital).gross / capital.equity == r.long + r.short
  {
    if capital.equity != 0.0 {
      UnScales(r.net, capital.equity);
      UnScales(Gross(r), capital.equity);
    }
  }

  lemma UnScales(x: real, e: real)
    requires e != 0.0
    ensures x * e / e == x
  {
  }

  lemma ScaledCover(a: real, b: real, e: real)
    requires Abs(a) <= b
    ensures Abs(a * e) <= Abs(b * e)
  {
  }
}
