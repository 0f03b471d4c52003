/** The dry-run twin of the edge and the gate that reconciles it with a submitting reference. */
module Shadow {
  import opened Domain
  import opened Edge
  import opened KillGate
  import opened Transport
  import opened Reconciliation

  datatype WouldBeOrder = WouldBeOrder(seqNo: nat, side: Side, qty: NonNeg, eventTimeMs: int)

  datatype ShadowState = ShadowState(mark: NonNeg, qty: real, wouldBe: seq<WouldBeOrder>)

  function ShadowObserve(s: ShadowState, rev: TargetRevision): ShadowState {
    match PlanDelta(rev.target.notional, s.qty, s.mark)
    case None => s
    case Some(i) =>
      s.(qty := s.qty + SignedQty(i.side, i.qty),
         wouldBe := s.wouldBe + [WouldBeOrder(rev.seqNo, i.side, i.qty, rev.eventTimeMs)])
  }

  class ShadowGateway {
    var mark: NonNeg
    var shadowQty: real
    var wouldBe: seq<WouldBeOrder>

    constructor (mark: NonNeg)
      ensures Value() == ShadowState(mark, 0.0, [])
    {
      this.mark, shadowQty, wouldBe := mark, 0.0, [];
    }

    function Value(): ShadowState
      reads this
    {
      ShadowState(mark, shadowQty, wouldBe)
    }

    method ObserveMark(mark: NonNeg)
      modifies this
      ensures Value() == old(Value()).(mark := mark)
    {
      this.mark := mark;
    }

    /** Logs the order it would send and advances as if it had filled. */
    method Observe(rev: TargetRevision)
      modifies this
      ensures Value() == ShadowObserve(old(Value()), rev)
      ensures mark == old(mark)
      ensures mark == 0.0 || old(shadowQty) * mark == rev.target.notional ==>
                shadowQty == old(shadowQty) && wouldBe == old(wouldBe)
      ensures mark != 0.0 && old(shadowQty) * mark != rev.target.notional ==>
                && shadowQty * mark == rev.target.notional && |wouldBe| == |old(wouldBe)| + 1 && old(wouldBe) <= wouldBe
                && var o := wouldBe[|old(wouldBe)|];
                   && o.seqNo == rev.seqNo && o.eventTimeMs == rev.eventTimeMs
                   && shadowQty == if o.side == Buy then old(shadowQty) + o.qty else old(shadowQty) - o.qty
    {
      PlanReachesTarget(rev.target.notional, shadowQty, mark);
      if mark != 0.0 {
        AtTargetIff(rev.target.notional, shadowQty, mark);
      }
      var intent := PlanDelta(rev.target.notional, shadowQty, mark);
      if intent.None? {
        return;
      }
      if intent.value.side == Buy {
        shadowQty := shadowQty + intent.value.qty;
      } else {
        shadowQty := shadowQty - intent.value.qty;
      }
      wouldBe := wouldBe + [WouldBeOrder(rev.seqNo, intent.value.side, intent.value.qty, rev.eventTimeMs)];
    }
  }

  datatype RunState = RunState(
    shadow: ShadowState, reference: LinkState, guard: GuardState, reconciled: bool, maxDivergence: real)

  function NewRun(instrument: string, mark: NonNeg, tolerance: real): RunState {
    RunState(ShadowState(mark, 0.0, []),
      LinkState(KeeperState(instrument, 0.0, mark, 1000000.0, 1000000.0),
                GateState(LIVE, SimState(instrument, 1, 1, 0.0, 0.0, 0), false),
                None, None, true, 0, 0, None),
      GuardState(Max(tolerance, 0.0), AlarmOnly, LIVE, 0, 0), true, 0.0)
  }

  function ObserveStep(s: RunState, rev: TargetRevision): RunState {
    var shadow := ShadowObserve(s.shadow, rev);
    var reference := PumpStep(SubmitTarget(s.reference, rev).0, true).0;
    var (guard, outcome) := CheckStep(s.guard, shadow.qty, reference.keeper.signedQty);
    match outcome
    case Reconciled => s.(shadow := shadow, reference := reference, guard := guard)
    case Diverged(d) => RunState(shadow, reference, guard, false, Max(s.maxDivergence, d.delta))
  }

  class ShadowRun {
    const shadow: ShadowGateway
    const reference: PlannerAdapterLink
    const guard: ReconciliationGuard
    var reconciled: bool
    var maxDivergence: real

    function Value(): RunState
      reads this, shadow, reference, reference.keeper, reference.gate, reference.gate.kill, reference.gate.sim,
            guard, guard.kill
    {
      RunState(shadow.Value(), reference.Value(), guard.Value(), reconciled, maxDivergence)
    }

    constructor (instrument: string, mark: NonNeg, tolerance: real)
      ensures Value() == NewRun(instrument, mark, tolerance)
      ensures fresh(shadow) && fresh(reference) && fresh(reference.keeper) && fresh(reference.gate)
      ensures fresh(reference.gate.kill) && fresh(reference.gate.sim) && fresh(guard) && fresh(guard.kill)
      ensures guard.kill != reference.gate.kill
    {
      var keeper := new VenueKeeper(instrument, 1000000.0);
      keeper.ObserveMark(mark);
      var handle := new KillHandle();
      var sim := new VenueSimulator(instrument);
      var gate := new VenueKillGate(handle, sim);
      shadow := new ShadowGateway(mark);
      reference := new PlannerAdapterLink(keeper, gate);
      var own := new KillHandle();
      guard := new ReconciliationGuard(tolerance, AlarmOnly, own);
      reconciled, maxDivergence := true, 0.0;
    }

    method ObserveMarks(shadowMark: NonNeg, referenceMark: NonNeg)
      modifies shadow, reference.keeper
      ensures Value() == MarksStep(old(Value()), shadowMark, referenceMark)
    {
      shadow.ObserveMark(shadowMark);
      reference.ObserveMark(referenceMark);
    }

    method Observe(rev: TargetRevision)
      requires reference.connected && guard.kill != reference.gate.kill
      modifies this, shadow, reference, reference.keeper, reference.gate.sim, guard, guard.kill
      ensures Value() == ObserveStep(old(Value()), rev)
      ensures var gap := shadow.shadowQty - reference.keeper.signedQty;
              var within := -guard.tolerance <= gap <= guard.tolerance;
              && (reconciled <==> old(reconciled) && within)
              && maxDivergence == (if within then old(maxDivergence)
                                   else if Abs(gap) > old(maxDivergence) then Abs(gap) else old(maxDivergence))
    {
      hide PumpStep, SubmitTarget, ShadowObserve;
      shadow.Observe(rev);
      var sent := reference.Submit(rev);
      var reports := reference.Pump(true);
      var outcome := guard.CheckQty(shadow.shadowQty, reference.keeper.signedQty);
      if outcome.Diverged? {
        reconciled := false;
        maxDivergence := Max(maxDivergence, outcome.divergence.delta);
      }
    }
  }

  // ----- Whole runs -----

  datatype ShadowEvent = Marks(shadowMark: NonNeg, referenceMark: NonNeg) | Target(rev: TargetRevision)

  function MarksStep(s: RunState, shadowMark: NonNeg, referenceMark: NonNeg): RunState {
    s.(shadow := s.shadow.(mark := shadowMark),
       reference := s.reference.(keeper := s.reference.keeper.(mark := referenceMark)))
  }

  function ShadowStep(s: RunState, e: ShadowEvent): RunState {
    match e
    case Marks(sm, rm) => MarksStep(s, sm, rm)
    case Target(rev) => ObserveStep(s, rev)
  }

  function RunShadow(s: RunState, es: seq<ShadowEvent>): RunState {
    if es == [] then s else ShadowStep(RunShadow(s, es[..|es| - 1]), es[|es| - 1])
  }

  /** The divergence after each target of a run. */
  function Deltas(s: RunState, es: seq<ShadowEvent>): seq<real> {
    if es == [] then []
    else
      var end := RunShadow(s, es);
      Deltas(s, es[..|es| - 1]) +
        if es[|es| - 1].Target? then [Abs(end.shadow.qty - end.reference.keeper.signedQty)] else []
  }

  /** A reference that nobody can disconnect or kill, with nothing left pending. */
  predicate Sound(s: RunState) {
    && s.reference.connected && s.reference.pending.None? && !s.reference.gate.kill.tripped
    && InStep(s.reference)
  }

  lemma {:induction false} StaysSound(s: RunState, es: seq<ShadowEvent>)
    requires Sound(s)
    ensures Sound(RunShadow(s, es)) && RunShadow(s, es).guard.tolerance == s.guard.tolerance
  {
    if es != [] {
      StaysSound(s, es[..|es| - 1]);
    }
  }

  /** The pair holds one position, has sent as many orders as it logged, and has seen no breach. */
  predicate Agrees(s: RunState) {
    && Sound(s) && s.shadow.mark == s.reference.keeper.mark
    && s.shadow.qty == s.reference.keeper.signedQty
    && |s.shadow.wouldBe| == s.reference.gate.sim.submitted
    && s.reconciled && s.maxDivergence == 0.0 && s.guard.tolerance >= 0.0 && s.guard.alarms == 0
  }

  /** Fed equal marks, the dry run holds the reference's position after every step, logs one would-be
      order per order the reference sends, and reconciles with zero divergence. */
  lemma {:induction false} DryRunAgrees(instrument: string, mark: NonNeg, tolerance: real, es: seq<ShadowEvent>)
    requires forall e | e in es && e.Marks? :: e.shadowMark == e.referenceMark
    ensures Agrees(RunShadow(NewRun(instrument, mark, tolerance), es))
  {
    if es != [] {
      assert es[|es| - 1] in es;
      DryRunAgrees(instrument, mark, tolerance, es[..|es| - 1]);
    }
  }

  predicate Within(deltas: seq<real>, tolerance: real) {
    forall d | d in deltas :: d <= tolerance
  }

  /** In general the report is exact: the run reconciles iff no target breached the tolerance, and the
      reported divergence is the greatest breaching one (zero if none breached). */
  lemma {:induction false} ReportIsExact(instrument: string, mark: NonNeg, tolerance: real, es: seq<ShadowEvent>)
    ensures var start := NewRun(instrument, mark, tolerance);
            var end, deltas, tol := RunShadow(start, es), Deltas(start, es), Max(tolerance, 0.0);
            && (end.reconciled <==> Within(deltas, tol))
            && (forall d | d in deltas && d > tol :: d <= end.maxDivergence)
            && (if end.reconciled then end.maxDivergence == 0.0
                else end.maxDivergence in deltas && end.maxDivergence > tol)
  {
    if es != [] {
      var start := NewRun(instrument, mark, tolerance);
      var before, deltas := Deltas(start, es[..|es| - 1]), Deltas(start, es);
      ReportIsExact(instrument, mark, tolerance, es[..|es| - 1]);
      StaysSound(start, es[..|es| - 1]);
      if es[|es| - 1].Target? {
        var d := deltas[|before|];
        assert deltas == before + [d] && d in deltas;
        var tol := start.guard.tolerance;
        assert forall x | x in before :: x in deltas;
        assert Within(deltas, tol) <==> Within(before, tol) && d <= tol;
      } else {
        assert deltas == before;
      }
    }
  }

  /** With both marks known, the divergence after a target is exactly the gap the two marks open. */
  lemma DivergenceIsTheMarkGap(s: RunState, rev: TargetRevision)
    requires Sound(s) && s.shadow.mark != 0.0 && s.reference.keeper.mark != 0.0
    ensures var s', n := ObserveStep(s, rev), rev.target.notional;
            Abs(s'.shadow.qty - s'.reference.keeper.signedQty) == Abs(n / s.shadow.mark - n / s.reference.keeper.mark)
  {
    PlanReachesTarget(rev.target.notional, s.shadow.qty, s.shadow.mark);
    PumpReachesTarget(SubmitTarget(s.reference, rev).0, true);
  }
}
