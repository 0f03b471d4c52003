/** Worst-case loss of a candidate ensemble: one-pass drawdown, stress scenarios, and the report. */
module Stress {
  import opened Domain
  import opened Series
  import opened Sums

  // ----- Drawdown -----

  /** Growth of capital over periods `i` up to `j`. */
  function Growth(path: seq<real>, i: nat, j: nat): real
    requires i <= j <= |path|
  {
    if i == j then 1.0 else Growth(path, i, j - 1) * (1.0 + path[j - 1])
  }

  function Equity(path: seq<real>, j: nat): real
    requires j <= |path|
  {
    Growth(path, 0, j)
  }

  /** The highest equity reached by time `j`. */
  function Peak(path: seq<real>, j: nat): (p: real)
    requires j <= |path|
    ensures p >= 1.0
  {
    if j == 0 then 1.0 else Max(Peak(path, j - 1), Equity(path, j))
  }

  lemma {:induction false} PeakMeaning(path: seq<real>, j: nat)
    requires j <= |path|
    ensures forall i: nat | i <= j :: Equity(path, i) <= Peak(path, j)
    ensures exists i: nat :: i <= j && Equity(path, i) == Peak(path, j)
  {
    if j == 0 {
      assert Equity(path, 0) == 1.0;
    } else {
      PeakMeaning(path, j - 1);
      var i: nat :| i <= j - 1 && Equity(path, i) == Peak(path, j - 1);
      assert Equity(path, if Peak(path, j) == Peak(path, j - 1) then i else j) == Peak(path, j);
    }
  }

  /** The loss at `j` from the highest equity reached by then. */
  function Loss(path: seq<real>, j: nat): real
    requires j <= |path|
  {
    1.0 - Equity(path, j) / Peak(path, j)
  }

  /** The running worst loss. */
  function Drawdown(path: seq<real>, n: nat): (worst: real)
    requires n <= |path|
    ensures worst >= 0.0
  {
    if n == 0 then 0.0 else Max(Drawdown(path, n - 1), Loss(path, n))
  }

  function PathDrawdown(path: seq<real>): (worst: real)
    ensures worst >= 0.0
  {
    Drawdown(path, |path|)
  }

  /** For every path, the result is the greatest loss from the running peak. */
  lemma {:induction false} DrawdownMeaning(path: seq<real>, n: nat)
    requires n <= |path|
    ensures forall j: nat | j <= n :: Loss(path, j) <= Drawdown(path, n)
    ensures exists j: nat :: j <= n && Loss(path, j) == Drawdown(path, n)
  {
    if n == 0 {
      assert Loss(path, 0) == 0.0;
    } else {
      DrawdownMeaning(path, n - 1);
      var j: nat :| j <= n - 1 && Loss(path, j) == Drawdown(path, n - 1);
      assert Loss(path, if Drawdown(path, n) == Drawdown(path, n - 1) then j else n) == Drawdown(path, n);
    }
  }

  /** The one-pass loop computes it. */
  method MaxDrawdown(path: seq<real>) returns (worst: real)
    ensures worst == PathDrawdown(path)
    ensures forall j: nat | j <= |path| :: Loss(path, j) <= worst
    ensures exists j: nat :: j <= |path| && Loss(path, j) == worst
  {
    var equity, peak := 1.0, 1.0;
    worst := 0.0;
    for k := 0 to |path|
      invariant equity == Equity(path, k) && peak == Peak(path, k)
      invariant worst == Drawdown(path, k)
    {
      equity := equity * (1.0 + path[k]);
      peak := Max(peak, equity);
      var dd := if peak > 0.0 then 1.0 - equity / peak else 1.0;
      worst := Max(worst, dd);
    }
    DrawdownMeaning(path, |path|);
  }

  /** Every period keeps some of the capital, or loses exactly all of it. */
  predicate NeverBelowZero(path: seq<real>) {
    forall k | 0 <= k < |path| :: path[k] >= -1.0
  }

  lemma {:induction false} GrowthSplits(path: seq<real>, i: nat, m: nat, j: nat)
    requires i <= m <= j <= |path|
    ensures Growth(path, i, j) == Growth(path, i, m) * Growth(path, m, j)
  {
    if m < j {
      GrowthSplits(path, i, m, j - 1);
      assert (Growth(path, i, m) * Growth(path, m, j - 1)) * (1.0 + path[j - 1])
          == Growth(path, i, m) * (Growth(path, m, j - 1) * (1.0 + path[j - 1]));
    }
  }

  lemma {:induction false} GrowthNonNegative(path: seq<real>, i: nat, j: nat)
    requires i <= j <= |path| && NeverBelowZero(path)
    ensures Growth(path, i, j) >= 0.0
  {
    if i < j {
      GrowthNonNegative(path, i, j - 1);
    }
  }

  lemma RatioBelow(before: real, growth: real, after: real, peak: real)
    requires before > 0.0 && growth >= 0.0 && after == before * growth && peak >= before
    ensures after / peak <= growth
  {
  }

  lemma WipedOut(path: seq<real>, j: nat)
    requires j <= |path| && Equity(path, j) == 0.0
    ensures 1.0 <= PathDrawdown(path)
  {
    DrawdownMeaning(path, |path|);
    assert Loss(path, j) <= PathDrawdown(path);
  }

  lemma EquityRatio(path: seq<real>, i: nat, j: nat, peak: real)
    requires i <= j <= |path| && NeverBelowZero(path) && 0.0 < Equity(path, i) <= peak
    ensures Equity(path, j) / peak <= Growth(path, i, j)
  {
    hide Growth;
    var before, growth, after := Equity(path, i), Growth(path, i, j), Equity(path, j);
    assert growth >= 0.0 by {
      GrowthNonNegative(path, i, j);
    }
    assert after == before * growth by {
      GrowthSplits(path, 0, i, j);
    }
    RatioBelow(before, growth, after, peak);
  }

  lemma LossNotLess(path: seq<real>, i: nat, j: nat)
    requires i <= j <= |path| && NeverBelowZero(path) && Equity(path, i) > 0.0
    ensures 1.0 - Growth(path, i, j) <= Loss(path, j)
  {
    PeakMeaning(path, j);
    EquityRatio(path, i, j, Peak(path, j));
  }

  lemma PairBelow(path: seq<real>, i: nat, j: nat)
    requires i <= j <= |path| && NeverBelowZero(path)
    ensures 1.0 - Growth(path, i, j) <= PathDrawdown(path)
  {
    GrowthNonNegative(path, 0, i);
    if Equity(path, i) == 0.0 {
      WipedOut(path, i);
      GrowthNonNegative(path, i, j);
    } else {
      LossNotLess(path, i, j);
      DrawdownMeaning(path, |path|);
    }
  }

  lemma Ratio(before: real, growth: real, after: real)
    requires before > 0.0 && after == before * growth
    ensures after / before == growth
  {
  }

  /** With no period losing more than everything, the one-pass answer is the greatest fall between any
      two times: the maximum of 1 - E_j / E_i over all i <= j, stated on growth so that it also covers
      a wiped-out path. */
  lemma DrawdownIsWorstFall(path: seq<real>)
    requires NeverBelowZero(path)
    ensures forall i: nat, j: nat | i <= j <= |path| :: 1.0 - Growth(path, i, j) <= PathDrawdown(path)
    ensures exists i: nat, j: nat :: i <= j <= |path| && 1.0 - Growth(path, i, j) == PathDrawdown(path)
  {
    forall i: nat, j: nat | i <= j <= |path| ensures 1.0 - Growth(path, i, j) <= PathDrawdown(path) {
      PairBelow(path, i, j);
    }
    var i, j := WorstPair(path);
  }

  lemma WorstPair(path: seq<real>) returns (i: nat, j: nat)
    ensures i <= j <= |path| && 1.0 - Growth(path, i, j) == PathDrawdown(path)
  {
    DrawdownMeaning(path, |path|);
    j :| j <= |path| && Loss(path, j) == PathDrawdown(path);
    i := PeakTime(path, j);
  }

  lemma PeakTime(path: seq<real>, j: nat) returns (i: nat)
    requires j <= |path|
    ensures i <= j && Loss(path, j) == 1.0 - Growth(path, i, j)
  {
    PeakMeaning(path, j);
    i :| i <= j && Equity(path, i) == Peak(path, j);
    var before, growth, after := Equity(path, i), Growth(path, i, j), Equity(path, j);
    assert after == before * growth by {
      GrowthSplits(path, 0, i, j);
    }
    Ratio(before, growth, after);
  }

  lemma {:induction false} WindowGrowth(path: seq<real>, lo: nat, hi: nat, i: nat, j: nat)
    requires lo <= hi <= |path| && i <= j <= hi - lo
    ensures Growth(path[lo..hi], i, j) == Growth(path, lo + i, lo + j)
  {
    if i < j {
      WindowGrowth(path, lo, hi, i, j - 1);
    }
  }

  /** Replaying any slice of the path loses at most what the whole path loses. */
  lemma WindowBelowPath(path: seq<real>, lo: nat, hi: nat)
    requires lo <= hi <= |path| && NeverBelowZero(path)
    ensures PathDrawdown(path[lo..hi]) <= PathDrawdown(path)
  {
    var i, j := WorstPair(path[lo..hi]);
    WindowGrowth(path, lo, hi, i, j);
    PairBelow(path, lo + i, lo + j);
  }

  ghost predicate AtLeast(path: seq<real>, bound: real) {
    forall k | 0 <= k < |path| :: path[k] >= bound
  }

  ghost predicate WindowsStayWithin(path: seq<real>) {
    forall lo, hi | 0 <= lo <= hi <= |path| :: PathDrawdown(path[lo..hi]) <= PathDrawdown(path)
  }

  lemma HalvedThen(b: real)
    ensures PathDrawdown([-0.5, b]) == Max(0.5, 0.5 - 0.5 * b) || b > 0.0
    ensures PathDrawdown([-0.5, b][1..2]) == Max(0.0, -b) || b > 0.0
  {
    var path := [-0.5, b];
    var w := path[1..2];
    assert w == [b];
    assert Growth(path, 0, 0) == 1.0 && Growth(path, 0, 1) == 0.5 && Growth(path, 0, 2) == 0.5 * (1.0 + b);
    assert Peak(path, 0) == 1.0 && Peak(path, 1) == 1.0;
    assert Drawdown(path, 0) == 0.0 && Drawdown(path, 1) == 0.5;
    assert Growth(w, 0, 0) == 1.0 && Growth(w, 0, 1) == 1.0 + b && Peak(w, 0) == 1.0;
    assert Drawdown(w, 0) == 0.0;
  }

  /** A period that loses more than everything breaks this: halve, then lose 300 %. The whole path
      measures the fall from its first peak (2), the window from its own start (3). */
  lemma LeveragedWindowCanExceedPath()
    ensures var path := [-0.5, -3.0];
            PathDrawdown(path) == 2.0 && PathDrawdown(path[1..2]) == 3.0
  {
    HalvedThen(-3.0);
  }

  /** The bound is tight: no window of any path with returns at least `bound` loses more than its path
      exactly when `bound` is at least losing everything. */
  lemma WindowsStayWithinIff(bound: real)
    ensures (forall path: seq<real> | AtLeast(path, bound) :: WindowsStayWithin(path)) <==> bound >= -1.0
  {
    if bound >= -1.0 {
      forall path: seq<real> | AtLeast(path, bound) ensures WindowsStayWithin(path) {
        forall lo, hi | 0 <= lo <= hi <= |path| ensures PathDrawdown(path[lo..hi]) <= PathDrawdown(path) {
          WindowBelowPath(path, lo, hi);
        }
      }
    } else {
      var path := [-0.5, bound];
      HalvedThen(bound);
      assert AtLeast(path, bound) && !(PathDrawdown(path[1..2]) <= PathDrawdown(path));
      assert !WindowsStayWithin(path);
    }
  }

  // ----- Scenarios -----

  datatype Scenario =
    | HistoricalWindow(name: string, start: nat, len: nat)
    | Gap(name: string, adverseReturn: real)
    | FundingSpike(name: string, perPeriod: real, periods: nat)
    | Adl(name: string, haircut: real)

  function Compound(d0: real, e: real): real {
    1.0 - (1.0 - d0) * (1.0 - e)
  }

  /** The extra loss of a synthetic shock, scaled by exposure. */
  function Extra(s: Scenario, gross: real): real
    requires !s.HistoricalWindow?
  {
    match s
    case Gap(_, r) => Max(r, 0.0) * gross
    case FundingSpike(_, r, n) => Max(r, 0.0) * (n as real) * gross
    case Adl(_, h) => Max(h, 0.0) * gross
  }

  function WindowOf(base: seq<real>, start: nat, len: nat): seq<real> {
    var hi := if start + len < |base| then start + len else |base|;
    var lo := if start < |base| then start else |base|;
    if lo <= hi then base[lo..hi] else []
  }

  function ScenarioLoss(base: seq<real>, gross: real, s: Scenario): real {
    if s.HistoricalWindow? then PathDrawdown(WindowOf(base, s.start, s.len))
    else Compound(PathDrawdown(base), Extra(s, gross))
  }

  lemma ExtraNonNegative(s: Scenario, gross: real)
    requires !s.HistoricalWindow? && gross >= 0.0
    ensures Extra(s, gross) >= 0.0
  {
  }

  /** What a synthetic shock adds: a gap or a haircut takes its own size times the exposure from what the path
      has left, a negative one nothing; every period of a funding spike takes once more what a gap of its
      rate does, and a spike of no periods nothing. */
  lemma ShockMeaning(base: seq<real>, gross: real, name: string, size: real, n: nat)
    ensures var left := 1.0 - PathDrawdown(base);
            var gap := ScenarioLoss(base, gross, Gap(name, size)) - PathDrawdown(base);
            && gap == (if size > 0.0 then left * (size * gross) else 0.0)
            && ScenarioLoss(base, gross, Adl(name, size)) == PathDrawdown(base) + gap
            && ScenarioLoss(base, gross, FundingSpike(name, size, 0)) == PathDrawdown(base)
            && ScenarioLoss(base, gross, FundingSpike(name, size, n + 1))
               == ScenarioLoss(base, gross, FundingSpike(name, size, n)) + gap
  {
    hide PathDrawdown;
    var d, m := PathDrawdown(base), Max(size, 0.0);
    CompoundAdds(d, m * gross);
    CompoundAdds(d, m * 0.0 * gross);
    OneMoreFunding(d, m, gross, n);
  }

  lemma CompoundAdds(d: real, e: real)
    ensures Compound(d, e) == d + (1.0 - d) * e
  {
  }

  lemma OneMoreFunding(d: real, m: real, gross: real, n: nat)
    ensures Compound(d, m * ((n + 1) as real) * gross) == Compound(d, m * (n as real) * gross) + (1.0 - d) * (m * gross)
  {
    var x := m * (n as real) * gross;
    assert m * ((n + 1) as real) == m * (n as real) + m;
    assert m * ((n + 1) as real) * gross == x + m * gross;
    CompoundAdds(d, x);
    CompoundAdds(d, x + m * gross);
  }

  /** A window holds the periods of the path from its start, as many as it asks for and the path has. */
  lemma WindowMeaning(base: seq<real>, start: nat, len: nat, k: nat)
    ensures k < |WindowOf(base, start, len)| <==> k < len && start + k < |base|
    ensures k < |WindowOf(base, start, len)| ==> WindowOf(base, start, len)[k] == base[start + k]
  {
  }

  /** A synthetic shock is conservative, losing at least what the path already lost, exactly when the
      path has not lost more than everything or the shock adds nothing. */
  lemma ShockIsConservativeIff(base: seq<real>, gross: real, s: Scenario)
    requires !s.HistoricalWindow? && gross >= 0.0
    ensures ScenarioLoss(base, gross, s) >= PathDrawdown(base)
            <==> PathDrawdown(base) <= 1.0 || Extra(s, gross) == 0.0
  {
    ExtraNonNegative(s, gross);
    CompoundIsConservativeIff(PathDrawdown(base), Extra(s, gross));
  }

  lemma {:induction false} SamePrefix(p: seq<real>, q: seq<real>, j: nat)
    requires j <= |p| && j <= |q| && forall k | 0 <= k < j :: p[k] == q[k]
    ensures Equity(p, j) == Equity(q, j) && Peak(p, j) == Peak(q, j) && Drawdown(p, j) == Drawdown(q, j)
  {
    if j > 0 {
      SamePrefix(p, q, j - 1);
    }
  }

  lemma {:induction false} DrawdownGrows(path: seq<real>, j: nat, n: nat)
    requires j <= n <= |path|
    ensures Drawdown(path, j) <= Drawdown(path, n)
  {
    if j < n {
      DrawdownGrows(path, j, n - 1);
    }
  }

  lemma Cancels(x: real, peak: real)
    requires peak > 0.0
    ensures x * peak / peak == x
  {
  }

  lemma ProductBound(a: real, e: real)
    requires a >= 0.0 && e >= 0.0
    ensures a * (1.0 - e) <= a
  {
    assert a * e >= 0.0 && a * (1.0 - e) == a - a * e;
  }

  lemma CompoundOnRatio(q: real, e: real)
    requires q >= 0.0 && e >= 0.0
    ensures Compound(1.0 - q, e) == 1.0 - q * (1.0 - e) >= 1.0 - q
  {
    ProductBound(q, e);
  }

  lemma Regroup(q: real, peak: real, f: real)
    ensures (q * peak) * f == (q * f) * peak
  {
  }

  lemma OneMoreLoss(equity: real, peak: real, e: real, q: real, next: real)
    requires 0.0 <= equity <= peak && peak > 0.0 && e >= 0.0
    requires q == equity / peak && next == equity * (1.0 - e)
    ensures next <= peak && q >= 0.0 && next / peak == q * (1.0 - e)
  {
    assert q * peak == equity;
    ProductBound(equity, e);
    var f := 1.0 - e;
    Regroup(q, peak, f);
    Cancels(q * f, peak);
  }

  lemma OneMorePeriod(base: seq<real>, j: nat, e: real)
    requires j <= |base|
    ensures var p := base[..j] + [-e];
            && Equity(p, j + 1) == Equity(base, j) * (1.0 - e)
            && Peak(p, j + 1) == Max(Peak(base, j), Equity(p, j + 1))
            && PathDrawdown(p) == Max(Drawdown(base, j), Loss(p, j + 1))
  {
    hide Loss;
    var p := base[..j] + [-e];
    SamePrefix(p, base, j);
  }

  lemma LossAt(path: seq<real>, j: nat, equity: real, peak: real)
    requires j <= |path| && equity == Equity(path, j) && peak == Peak(path, j)
    ensures Loss(path, j) == 1.0 - equity / peak && peak >= 1.0
  {
  }

  lemma ShockedLoss(equity: real, peak: real, e: real, next: real, d0: real)
    requires 0.0 <= equity <= peak && peak > 0.0 && e >= 0.0
    requires next == equity * (1.0 - e) && d0 == 1.0 - equity / peak
    ensures Max(peak, next) == peak && Max(d0, 1.0 - next / peak) == Compound(d0, e)
  {
    var q := equity / peak;
    OneMoreLoss(equity, peak, e, q, next);
    CompoundOnRatio(q, e);
  }

  lemma TroughFacts(base: seq<real>, j: nat)
    requires NeverBelowZero(base) && j <= |base| && Loss(base, j) == PathDrawdown(base)
    ensures Drawdown(base, j) == PathDrawdown(base) && 0.0 <= Equity(base, j) <= Peak(base, j)
  {
    DrawdownMeaning(base, j);
    DrawdownGrows(base, j, |base|);
    GrowthNonNegative(base, 0, j);
    PeakMeaning(base, j);
  }

  lemma ShockedPath(base: seq<real>, j: nat, e: real)
    requires NeverBelowZero(base) && j <= |base| && Loss(base, j) == PathDrawdown(base) && e >= 0.0
    ensures PathDrawdown(base[..j] + [-e]) == Compound(PathDrawdown(base), e)
  {
    hide Drawdown, PathDrawdown, Loss, Growth, Equity, Peak, Compound;
    var p := base[..j] + [-e];
    var equity, peak, next := Equity(base, j), Peak(base, j), Equity(p, j + 1);
    TroughFacts(base, j);
    OneMorePeriod(base, j, e);
    LossAt(base, j, equity, peak);
    ShockedLoss(equity, peak, e, next, PathDrawdown(base));
    LossAt(p, j + 1, next, peak);
  }

  /** What a synthetic shock loses is what the path loses when it is cut at its trough and the shock is
      the next period. */
  lemma ShockLandsAtTheTrough(base: seq<real>, gross: real, s: Scenario) returns (trough: nat)
    requires NeverBelowZero(base) && gross >= 0.0 && !s.HistoricalWindow?
    ensures trough <= |base| && Loss(base, trough) == PathDrawdown(base)
    ensures ScenarioLoss(base, gross, s) == PathDrawdown(base[..trough] + [-Extra(s, gross)])
  {
    DrawdownMeaning(base, |base|);
    var j: nat :| j <= |base| && Loss(base, j) == Drawdown(base, |base|);
    trough := j;
    ExtraNonNegative(s, gross);
    hide Drawdown, Loss, Extra, Compound;
    ShockedPath(base, j, Extra(s, gross));
  }

  lemma CompoundIsConservativeIff(d0: real, e: real)
    requires e >= 0.0
    ensures Compound(d0, e) >= d0 <==> d0 <= 1.0 || e == 0.0
  {
  }

  lemma LossWithinOneIff(path: seq<real>, j: nat)
    requires j <= |path|
    ensures Loss(path, j) <= 1.0 <==> Equity(path, j) >= 0.0
  {
  }

  /** The path has lost more than everything exactly when its equity went negative. */
  lemma RuinIff(base: seq<real>)
    ensures PathDrawdown(base) <= 1.0 <==> forall j: nat | j <= |base| :: Equity(base, j) >= 0.0
  {
    DrawdownMeaning(base, |base|);
    forall j: nat | j <= |base| ensures Loss(base, j) <= 1.0 <==> Equity(base, j) >= 0.0 {
      LossWithinOneIff(base, j);
    }
    var worst: nat :| worst <= |base| && Loss(base, worst) == PathDrawdown(base);
  }

  lemma PathWithinOne(base: seq<real>)
    requires NeverBelowZero(base)
    ensures PathDrawdown(base) <= 1.0
  {
    forall j: nat | j <= |base| ensures Equity(base, j) >= 0.0 {
      GrowthNonNegative(base, 0, j);
    }
    RuinIff(base);
  }

  // ----- The ensemble's path and the report -----

  /** Period `k` of the weighted ensemble, over its first `n` members. */
  function CombinedAt(series: seq<seq<real>>, weights: seq<real>, n: nat, k: nat): real
    requires n <= |series| && n <= |weights| && forall i | 0 <= i < n :: k < |series[i]|
  {
    if n == 0 then 0.0 else CombinedAt(series, weights, n - 1, k) + weights[n - 1] * series[n - 1][k]
  }

  function Members(series: seq<seq<real>>, weights: seq<real>): nat {
    if |series| <= |weights| then |series| else |weights|
  }

  /** The members' series combined by weight, over the shortest member's periods. */
  method WeightedCombined(series: seq<seq<real>>, weights: seq<real>) returns (out: seq<real>)
    ensures out == Combined(series, weights)
  {
    var n := Members(series, weights);
    if n == 0 {
      return [];
    }
    var len := CommonLength(series[..n]);
    forall i | 0 <= i < n ensures len <= |series[i]| {
      assert CommonLength(series[..n]) <= |series[..n][i]|;
    }
    out := seq(len, _ => 0.0);
    for i := 0 to n
      invariant |out| == len
      invariant forall k | 0 <= k < len :: out[k] == CombinedAt(series, weights, i, k)
    {
      ghost var before := out;
      for k := 0 to len
        invariant |out| == len
        invariant forall m | 0 <= m < k :: out[m] == CombinedAt(series, weights, i + 1, m)
        invariant forall m | k <= m < len :: out[m] == before[m]
      {
        out := out[k := out[k] + weights[i] * series[i][k]];
      }
    }
  }

  function Combined(series: seq<seq<real>>, weights: seq<real>): (r: seq<real>)
    ensures Members(series, weights) == 0 ==> r == []
    ensures Members(series, weights) > 0 ==> |r| == CommonLength(series[..Members(series, weights)])
  {
    var n := Members(series, weights);
    if n == 0 then []
    else
      var len := CommonLength(series[..n]);
      assert forall i | 0 <= i < n :: len <= |series[i]| by {
        forall i | 0 <= i < n ensures len <= |series[i]| {
          assert CommonLength(series[..n]) <= |series[..n][i]|;
        }
      }
      seq(len, k requires 0 <= k < len => CombinedAt(series, weights, n, k))
  }

  lemma {:induction false} CombinedAtIsSum(series: seq<seq<real>>, weights: seq<real>, n: nat, k: nat, terms: seq<real>)
    requires n <= |series| && n <= |weights| && forall i | 0 <= i < n :: k < |series[i]|
    requires |terms| == n && forall i | 0 <= i < n :: terms[i] == weights[i] * series[i][k]
    ensures CombinedAt(series, weights, n, k) == Sum(terms)
  {
    if n > 0 {
      CombinedAtIsSum(series, weights, n - 1, k, terms[..n - 1]);
    }
  }

  /** Period by period the combined return is the sum of every member's weight times its return. */
  lemma CombinedMeaning(series: seq<seq<real>>, weights: seq<real>, k: nat, terms: seq<real>)
    requires k < |Combined(series, weights)| && |terms| == (if |series| <= |weights| then |series| else |weights|)
    requires forall i | 0 <= i < |terms| :: k < |series[i]| ==> terms[i] == weights[i] * series[i][k]
    ensures Combined(series, weights)[k] == Sum(terms) && forall i | 0 <= i < |terms| :: k < |series[i]|
  {
    var n := Members(series, weights);
    forall i | 0 <= i < n ensures k < |series[i]| {
      assert CommonLength(series[..n]) <= |series[..n][i]|;
    }
    CombinedAtIsSum(series, weights, n, k, terms);
  }

  /** One more member keeps the weighted margin above losing everything. */
  lemma MarginStep(c: real, sum: real, w: real, r: real)
    requires w >= 0.0 && r > -1.0 && sum >= 0.0 && c + sum >= 0.0 && (sum > 0.0 ==> c + sum > 0.0)
    ensures (c + w * r) + (sum + w) >= 0.0
    ensures sum + w > 0.0 ==> (c + w * r) + (sum + w) > 0.0
  {
    var margin := r + 1.0;
    assert w * r + w == w * margin;
    assert w * margin >= 0.0 && (w > 0.0 ==> w * margin > 0.0);
  }

  lemma {:induction false} CombinedAtAbove(series: seq<seq<real>>, weights: seq<real>, n: nat, k: nat)
    requires n <= |series| && n <= |weights| && forall i | 0 <= i < n :: k < |series[i]|
    requires forall i | 0 <= i < n :: weights[i] >= 0.0 && series[i][k] > -1.0
    ensures CombinedAt(series, weights, n, k) + Sum(weights[..n]) >= 0.0
    ensures Sum(weights[..n]) >= 0.0
    ensures Sum(weights[..n]) > 0.0 ==> CombinedAt(series, weights, n, k) + Sum(weights[..n]) > 0.0
  {
    if n > 0 {
      CombinedAtAbove(series, weights, n - 1, k);
      assert weights[..n][..n - 1] == weights[..n - 1];
      assert Sum(weights[..n]) == Sum(weights[..n - 1]) + weights[n - 1];
      MarginStep(CombinedAt(series, weights, n - 1, k), Sum(weights[..n - 1]), weights[n - 1], series[n - 1][k]);
    }
  }

  /** Non-negative weights that sum to at most one keep the ensemble's path from losing everything in a
      period, if no member does. */
  lemma EnsembleStaysAbove(series: seq<seq<real>>, weights: seq<real>)
    requires forall i | 0 <= i < |weights| :: weights[i] >= 0.0
    requires Sum(weights[..Members(series, weights)]) <= 1.0
    requires forall i, k | 0 <= i < |series| && 0 <= k < |series[i]| :: series[i][k] > -1.0
    ensures forall k | 0 <= k < |Combined(series, weights)| :: Combined(series, weights)[k] > -1.0
    ensures NeverBelowZero(Combined(series, weights))
  {
    var n := Members(series, weights);
    forall k | 0 <= k < |Combined(series, weights)| ensures Combined(series, weights)[k] > -1.0 {
      forall i | 0 <= i < n ensures k < |series[i]| {
        assert CommonLength(series[..n]) <= |series[..n][i]|;
      }
      CombinedAtAbove(series, weights, n, k);
    }
  }

  datatype NamedLoss = NamedLoss(name: string, loss: real)

  datatype StressReport = StressReport(worstCaseLoss: real, bindingScenario: string, perScenario: seq<NamedLoss>)

  function AbsAll(weights: seq<real>): (r: seq<real>)
    ensures |r| == |weights| && forall i | 0 <= i < |r| :: r[i] == Abs(weights[i])
  {
    seq(|weights|, i requires 0 <= i < |weights| => Abs(weights[i]))
  }

  function Gross(series: seq<seq<real>>, weights: seq<real>): real {
    Sum(AbsAll(weights[..Members(series, weights)]))
  }

  /** The exposure is the sum of the magnitudes of the weights in use. */
  lemma GrossMeaning(series: seq<seq<real>>, weights: seq<real>, terms: seq<real>)
    requires |terms| == (if |series| <= |weights| then |series| else |weights|)
    requires forall i | 0 <= i < |terms| :: terms[i] == if weights[i] < 0.0 then -weights[i] else weights[i]
    ensures Gross(series, weights) == Sum(terms)
  {
    assert AbsAll(weights[..|terms|]) == terms;
  }

  function LossOf(base: seq<real>, gross: real, s: Scenario): NamedLoss {
    NamedLoss(s.name, ScenarioLoss(base, gross, s))
  }

  function LossesOf(base: seq<real>, gross: real, scenarios: seq<Scenario>): (r: seq<NamedLoss>)
    ensures |r| == |scenarios|
  {
    seq(|scenarios|, i requires 0 <= i < |scenarios| => LossOf(base, gross, scenarios[i]))
  }

  /** The last of the greatest losses. */
  method LastMax(losses: seq<NamedLoss>) returns (best: nat)
    requires losses != []
    ensures best < |losses|
    ensures forall i | 0 <= i < |losses| :: losses[i].loss <= losses[best].loss
    ensures forall i | best < i < |losses| :: losses[i].loss < losses[best].loss
  {
    best := 0;
    for i := 1 to |losses|
      invariant best < i
      invariant forall k | 0 <= k < i :: losses[k].loss <= losses[best].loss
      invariant forall k | best < k < i :: losses[k].loss < losses[best].loss
    {
      if losses[i].loss >= losses[best].loss {
        best := i;
      }
    }
  }

  /** The report: every scenario's loss, their maximum, and the last scenario that attains it. */
  method WorstCaseLoss(series: seq<seq<real>>, weights: seq<real>, scenarios: seq<Scenario>)
    returns (report: StressReport)
    ensures report.perScenario == LossesOf(Combined(series, weights), Gross(series, weights), scenarios)
    ensures scenarios == [] ==> report.worstCaseLoss == 0.0 && report.bindingScenario == ""
    ensures scenarios != [] ==>
              exists b :: 0 <= b < |scenarios|
                && report.perScenario[b] == NamedLoss(report.bindingScenario, report.worstCaseLoss)
                && (forall i | 0 <= i < |scenarios| :: report.perScenario[i].loss <= report.worstCaseLoss)
                && (forall i | b < i < |scenarios| :: report.perScenario[i].loss < report.worstCaseLoss)
  {
    var base := WeightedCombined(series, weights);
    var gross := Gross(series, weights);
    var losses: seq<NamedLoss> := [];
    for i := 0 to |scenarios|
      invariant losses == LossesOf(base, gross, scenarios)[..i]
    {
      losses := losses + [LossOf(base, gross, scenarios[i])];
    }
    if losses == [] {
      return StressReport(0.0, "", losses);
    }
    var best := LastMax(losses);
    report := StressReport(losses[best].loss, losses[best].name, losses);
    assert report.perScenario[best] == NamedLoss(report.bindingScenario, report.worstCaseLoss);
  }

  lemma WindowOfBelowPath(base: seq<real>, start: nat, len: nat)
    requires NeverBelowZero(base)
    ensures PathDrawdown(WindowOf(base, start, len)) <= PathDrawdown(base)
  {
    var hi := if start + len < |base| then start + len else |base|;
    var lo := if start < |base| then start else |base|;
    WindowBelowPath(base, lo, hi);
  }

  /** With one synthetic shock in the set, no historical window whatever, listed or not, loses more than
      the greatest scenario loss: the shock compounds on the worst fall of the whole path. */
  lemma ShockBoundsEveryWindow(base: seq<real>, gross: real, scenarios: seq<Scenario>, shock: nat, start: nat, len: nat, worst: real)
    requires NeverBelowZero(base) && gross >= 0.0
    requires shock < |scenarios| && !scenarios[shock].HistoricalWindow?
    requires forall i | 0 <= i < |scenarios| :: LossesOf(base, gross, scenarios)[i].loss <= worst
    ensures ScenarioLoss(base, gross, HistoricalWindow("", start, len)) <= PathDrawdown(base) <= worst
  {
    PathWithinOne(base);
    ShockIsConservativeIff(base, gross, scenarios[shock]);
    WindowOfBelowPath(base, start, len);
    assert LossesOf(base, gross, scenarios)[shock] == LossOf(base, gross, scenarios[shock]);
  }

  ghost predicate BoundsEveryWindow(base: seq<real>, gross: real, shock: Scenario) {
    forall start: nat, len: nat ::
      ScenarioLoss(base, gross, HistoricalWindow("", start, len)) <= ScenarioLoss(base, gross, shock)
  }

  /** The premise is needed, and no weaker bound on the returns would do: whatever the path, the exposure
      and the shock, the shock bounds every window exactly when no period can lose more than everything. */
  lemma ShocksBoundWindowsIff(bound: real)
    ensures (forall base: seq<real>, gross: real, shock: Scenario |
               AtLeast(base, bound) && gross >= 0.0 && !shock.HistoricalWindow? :: BoundsEveryWindow(base, gross, shock))
            <==> bound >= -1.0
  {
    if bound >= -1.0 {
      forall base: seq<real>, gross: real, shock: Scenario |
        AtLeast(base, bound) && gross >= 0.0 && !shock.HistoricalWindow?
        ensures BoundsEveryWindow(base, gross, shock)
      {
        forall start: nat, len: nat
          ensures ScenarioLoss(base, gross, HistoricalWindow("", start, len)) <= ScenarioLoss(base, gross, shock)
        {
          WindowOfBelowPath(base, start, len);
          PathWithinOne(base);
          ShockIsConservativeIff(base, gross, shock);
        }
      }
    } else {
      var base, nothing := [-0.5, bound], Gap("", 0.0);
      HalvedThen(bound);
      assert WindowOf(base, 1, 1) == base[1..2];
      assert ScenarioLoss(base, 0.0, nothing) == PathDrawdown(base);
      assert AtLeast(base, bound) && !BoundsEveryWindow(base, 0.0, nothing) by {
        assert !(ScenarioLoss(base, 0.0, HistoricalWindow("", 1, 1)) <= ScenarioLoss(base, 0.0, nothing));
      }
    }
  }
}
