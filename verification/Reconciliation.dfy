/** The debounced divergence alarm that can trip the kill. */
module Reconciliation {
  import opened Domain
  import opened KillGate

  datatype AlarmAction = AlarmOnly | HaltAfter(consecutive: nat)

  datatype Divergence = Divergence(expected: real, venue: real, delta: real, consecutive: nat, halted: bool)

  datatype ReconOutcome = Reconciled | Diverged(divergence: Divergence)

  datatype GuardState = GuardState(tolerance: real, action: AlarmAction, kill: KillState, alarms: nat, streak: nat)

  /** The text of the latched reason; the source also prints the quantities. */
  const REASON := "reconciliation divergence"

  /** How many consecutive breaches halt; zero is treated as one. */
  function Threshold(consecutive: nat): (n: nat)
    ensures n >= 1
  {
    if consecutive < 1 then 1 else consecutive
  }

  function CheckStep(g: GuardState, expected: real, venue: real): (GuardState, ReconOutcome) {
    var delta := Abs(expected - venue);
    if delta <= g.tolerance then (g.(streak := 0), Reconciled)
    else
      var streak := g.streak + 1;
      var halted := g.action.HaltAfter? && streak >= Threshold(g.action.consecutive);
      (g.(streak := streak, alarms := g.alarms + 1, kill := if halted then Trip(g.kill, REASON) else g.kill),
       Diverged(Divergence(expected, venue, delta, streak, halted)))
  }

  class ReconciliationGuard {
    const tolerance: real
    const action: AlarmAction
    const kill: KillHandle
    var alarms: nat
    var streak: nat

    constructor (tolerance: real, action: AlarmAction, kill: KillHandle)
      ensures this.kill == kill
      ensures Value() == GuardState(Max(tolerance, 0.0), action, kill.Value(), 0, 0)
    {
      this.tolerance, this.action, this.kill := Max(tolerance, 0.0), action, kill;
      alarms, streak := 0, 0;
    }

    function Value(): GuardState
      reads this, kill
    {
      GuardState(tolerance, action, kill.Value(), alarms, streak)
    }

    method CheckQty(expected: real, venue: real) returns (r: ReconOutcome)
      modifies this, kill
      ensures (Value(), r) == CheckStep(old(Value()), expected, venue)
      ensures r.Reconciled? <==> -tolerance <= expected - venue <= tolerance
      ensures r.Reconciled? ==> streak == 0 && alarms == old(alarms) && kill.Value() == old(kill.Value())
      ensures r.Diverged? ==>
                && streak == r.divergence.consecutive == old(streak) + 1 && alarms == old(alarms) + 1
                && r.divergence.expected == expected && r.divergence.venue == venue
                && r.divergence.delta == (if expected < venue then venue - expected else expected - venue)
                && (r.divergence.halted <==> action.HaltAfter? && streak >= action.consecutive)
                && (kill.tripped <==> old(kill.tripped) || r.divergence.halted)
                && kill.reason == (if r.divergence.halted && old(kill.reason).None? then Some(REASON) else old(kill.reason))
    {
      var delta := Abs(expected - venue);
      if delta <= tolerance {
        streak := 0;
        return Reconciled;
      }
      streak := streak + 1;
      alarms := alarms + 1;
      var halted := false;
      if action.HaltAfter? {
        halted := streak >= Threshold(action.consecutive);
      }
      if halted {
        kill.TripWith(REASON);
      }
      r := Diverged(Divergence(expected, venue, delta, streak, halted));
    }
  }

  // ----- Runs of checks -----

  datatype Check = Check(expected: real, venue: real)

  predicate Breach(tolerance: real, c: Check) {
    Abs(c.expected - c.venue) > tolerance
  }

  function GuardRun(g: GuardState, cs: seq<Check>): GuardState {
    if cs == [] then g
    else CheckStep(GuardRun(g, cs[..|cs| - 1]), cs[|cs| - 1].expected, cs[|cs| - 1].venue).0
  }

  function Breaches(tolerance: real, cs: seq<Check>): nat {
    if cs == [] then 0
    else Breaches(tolerance, cs[..|cs| - 1]) + if Breach(tolerance, cs[|cs| - 1]) then 1 else 0
  }

  /** The `n` consecutive checks from index `start` all breached. */
  ghost predicate BreachRun(tolerance: real, cs: seq<Check>, start: nat, n: nat) {
    && start + n <= |cs|
    && forall i | start <= i < start + n :: Breach(tolerance, cs[i])
  }

  /** The last `n` checks all breached, and `n` cannot be longer. */
  ghost predicate LongestBreachingSuffix(tolerance: real, cs: seq<Check>, n: nat) {
    && n <= |cs| && BreachRun(tolerance, cs, |cs| - n, n)
    && (n < |cs| ==> !Breach(tolerance, cs[|cs| - n - 1]))
  }

  /** A sustained divergence: `n` consecutive checks breached somewhere in the run. */
  ghost predicate Sustained(tolerance: real, cs: seq<Check>, n: nat) {
    exists start: nat :: BreachRun(tolerance, cs, start, n)
  }

  /** Over every run the streak is the longest breaching suffix and every breach is counted. */
  lemma {:induction false} StreakIsSuffix(g: GuardState, cs: seq<Check>)
    requires g.streak == 0
    ensures var end := GuardRun(g, cs);
            && LongestBreachingSuffix(g.tolerance, cs, end.streak)
            && end.alarms == g.alarms + Breaches(g.tolerance, cs)
            && end.tolerance == g.tolerance && end.action == g.action
  {
    if cs != [] {
      StreakIsSuffix(g, cs[..|cs| - 1]);
    }
  }

  /** The kill trips exactly on a sustained divergence: under `HaltAfter(k)`, iff some max(k, 1)
      consecutive checks breached; under `AlarmOnly`, never. */
  lemma {:induction false} TripsExactlyWhenSustained(g: GuardState, cs: seq<Check>)
    requires g.streak == 0
    ensures GuardRun(g, cs).kill.tripped <==>
              g.kill.tripped || (g.action.HaltAfter? && Sustained(g.tolerance, cs, if g.action.consecutive < 1 then 1 else g.action.consecutive))
  {
    if cs == [] {
    } else if g.action.AlarmOnly? {
      TripsExactlyWhenSustained(g, cs[..|cs| - 1]);
      StreakIsSuffix(g, cs[..|cs| - 1]);
    } else {
      var init, n := cs[..|cs| - 1], Threshold(g.action.consecutive);
      TripsExactlyWhenSustained(g, init);
      StreakIsSuffix(g, init);
      StreakIsSuffix(g, cs);
      var streak := GuardRun(g, cs).streak;
      if Sustained(g.tolerance, init, n) {
        var start: nat :| BreachRun(g.tolerance, init, start, n);
        assert BreachRun(g.tolerance, cs, start, n);
      }
      if streak >= n {
        assert BreachRun(g.tolerance, cs, |cs| - n, n);
      }
      if Sustained(g.tolerance, cs, n) && streak < n {
        var start: nat :| BreachRun(g.tolerance, cs, start, n);
        assert start + n < |cs| by {
          assert streak < |cs| && !Breach(g.tolerance, cs[|cs| - streak - 1]);
        }
        assert BreachRun(g.tolerance, init, start, n);
      }
    }
  }
}
