/** The planner-to-adapter link: a one-slot coalescing queue, disconnect and reconnect, and a kill that
    any step may find tripped. */
module Transport {
  import opened Domain
  import opened Edge
  import opened KillGate

  datatype TargetRevision = TargetRevision(seqNo: nat, target: TargetPosition, eventTimeMs: int)

  datatype VenueHealth = Up | Degraded(why: string) | Down(why: string)

  datatype AdapterReport =
    | FillDone(fill: SimFill)
    | PositionTruth(report: PositionReport)
    | Beat(ackSeq: Option<nat>, health: VenueHealth, eventTimeMs: int)

  datatype TransportError = Disconnected

  datatype Disposition = Continue | Retry | Halt

  datatype LinkState = LinkState(
    keeper: KeeperState,
    gate: GateState,
    pending: Option<TargetRevision>,
    lastApplied: Option<TargetRevision>,
    connected: bool,
    appendFailures: nat,
    droppedSuperseded: nat,
    lastDisposition: Option<Disposition>)

  function SubmitTarget(s: LinkState, rev: TargetRevision): (LinkState, Result<(), TransportError>) {
    if !s.connected then (s.(lastDisposition := Some(Retry)), Err(Disconnected))
    else
      (s.(pending := Some(rev),
          droppedSuperseded := if s.pending.Some? then s.droppedSuperseded + 1 else s.droppedSuperseded), Ok(()))
  }

  function Health(k: KillState): VenueHealth {
    if k.tripped then Down(KillReason(k)) else Up
  }

  /** Translates a revision into a delta, sends it through the gate and absorbs the fill. */
  function RouteDelta(s: LinkState, rev: TargetRevision): (LinkState, seq<AdapterReport>) {
    match PlanDelta(rev.target.notional, s.keeper.signedQty, s.keeper.mark)
    case None => (s, [])
    case Some(intent) =>
      var (gate, sent) := GateSubmit(s.gate, intent, s.keeper.mark, rev.eventTimeMs);
      if sent.Ok? then
        (s.(gate := gate, keeper := Absorb(s.keeper, FillEvent(sent.value.fill))), [FillDone(sent.value)])
      else (s.(lastDisposition := Some(Halt)), [])
  }

  /** The venue's position and the acknowledging heartbeat. */
  function Closing(gate: GateState, rev: TargetRevision): seq<AdapterReport> {
    [PositionTruth(ReportOf(gate.sim, rev.eventTimeMs)), Beat(Some(rev.seqNo), Health(gate.kill), rev.eventTimeMs)]
  }

  function ApplyRevision(s: LinkState, rev: TargetRevision): (r: (LinkState, seq<AdapterReport>)) {
    var (s', fills) := RouteDelta(s, rev);
    (s', fills + Closing(s'.gate, rev))
  }

  /** The last report acknowledges the revision, and says the venue is up exactly while the switch is live;
      a tripped switch is reported down with the reason it latched. */
  predicate AcksLast(reports: seq<AdapterReport>, rev: TargetRevision, kill: KillState) {
    && reports != []
    && var last := reports[|reports| - 1];
       && last.Beat? && last.ackSeq == Some(rev.seqNo) && last.eventTimeMs == rev.eventTimeMs
       && (last.health == Up <==> !kill.tripped)
       && (kill.tripped ==> last.health.Down? && (kill.reason.Some? ==> last.health.why == kill.reason.value))
  }

  /** A report of exactly what the simulator holds: signed by direction, absolute in quantity. */
  predicate StatesPosition(r: PositionReport, sim: SimState) {
    && r.instrument == sim.instrument && r.entryPrice == sim.lastPrice
    && (r.direction == Some(Long) <==> sim.signedQty > 0.0) && (r.direction == Some(Short) <==> sim.signedQty < 0.0)
    && r.qty as real == if sim.signedQty < 0.0 then -sim.signedQty else sim.signedQty
  }

  /** One adapter tick; `appendOk` is what the journal sink answers. */
  function PumpStep(s: LinkState, appendOk: bool): (LinkState, seq<AdapterReport>) {
    if !s.connected || s.pending.None? then (s, [])
    else
      var rev := s.pending.value;
      var (s', reports) := ApplyRevision(s.(pending := None, lastApplied := Some(rev)), rev);
      (if appendOk then s'
       else s'.(appendFailures := s'.appendFailures + 1, lastDisposition := Some(Continue)), reports)
  }

  function ReconnectStep(s: LinkState): (LinkState, seq<AdapterReport>) {
    var report := ReportOf(s.gate.sim, if s.lastApplied.Some? then s.lastApplied.value.eventTimeMs else 0);
    (s.(connected := true, keeper := Absorb(s.keeper, Position(report))), [PositionTruth(report)])
  }

  class PlannerAdapterLink {
    const keeper: VenueKeeper
    const gate: VenueKillGate
    var pending: Option<TargetRevision>
    var lastApplied: Option<TargetRevision>
    var connected: bool
    var appendFailures: nat
    var droppedSuperseded: nat
    var lastDisposition: Option<Disposition>

    function Value(): LinkState
      reads this, keeper, gate, gate.kill, gate.sim
    {
      LinkState(keeper.Value(), gate.Value(), pending, lastApplied, connected, appendFailures,
                droppedSuperseded, lastDisposition)
    }

    constructor (keeper: VenueKeeper, gate: VenueKillGate)
      ensures this.keeper == keeper && this.gate == gate
      ensures Value() == LinkState(keeper.Value(), gate.Value(), None, None, true, 0, 0, None)
    {
      this.keeper, this.gate := keeper, gate;
      pending, lastApplied, connected := None, None, true;
      appendFailures, droppedSuperseded, lastDisposition := 0, 0, None;
    }

    method ObserveMark(mark: NonNeg)
      modifies keeper
      ensures Value() == old(Value()).(keeper := old(keeper.Value()).(mark := mark))
    {
      keeper.ObserveMark(mark);
    }

    method ObserveBalance(equity: real, margin: real)
      modifies keeper
      ensures Value() == old(Value()).(keeper := old(keeper.Value()).(equity := equity, availableMargin := margin))
    {
      keeper.ObserveBalance(equity, margin);
    }

    method Submit(rev: TargetRevision) returns (r: Result<(), TransportError>)
      modifies this
      ensures (Value(), r) == SubmitTarget(old(Value()), rev)
      ensures r.Ok? <==> connected
      ensures r.Ok? ==> pending == Some(rev) && lastDisposition == old(lastDisposition)
      ensures droppedSuperseded == old(droppedSuperseded) + if connected && old(pending).Some? then 1 else 0
      ensures r.Err? ==> pending == old(pending) && lastDisposition == Some(Retry)
      ensures connected == old(connected) && lastApplied == old(lastApplied) && appendFailures == old(appendFailures)
    {
      if !connected {
        lastDisposition := Some(Retry);
        return Err(Disconnected);
      }
      if pending.Some? {
        droppedSuperseded := droppedSuperseded + 1;
      }
      pending := Some(rev);
      r := Ok(());
    }

    method Apply(rev: TargetRevision) returns (reports: seq<AdapterReport>)
      modifies this, keeper, gate.sim
      ensures (Value(), reports) == ApplyRevision(old(Value()), rev)
      ensures pending == old(pending) && lastApplied == old(lastApplied) && connected == old(connected)
      ensures appendFailures == old(appendFailures) && droppedSuperseded == old(droppedSuperseded)
      ensures AcksLast(reports, rev, gate.kill.Value())
    {
      hide PlanDelta, Absorb, ReportOf, SimSubmit, FillOf;
      var mark, current := keeper.mark, keeper.signedQty;
      reports := [];
      var intent := PlanDelta(rev.target.notional, current, mark);
      if intent.Some? {
        var sent := gate.Submit(intent.value, mark, rev.eventTimeMs);
        if sent.Ok? {
          keeper.Apply(FillEvent(sent.value.fill));
          reports := reports + [FillDone(sent.value)];
        } else {
          lastDisposition := Some(Halt);
        }
      }
      assert Value() == RouteDelta(old(Value()), rev).0;
      assert reports == RouteDelta(old(Value()), rev).1;
      hide RouteDelta;
      var closing := [PositionTruth(gate.sim.PositionReportAt(rev.eventTimeMs))];
      closing := closing + [Beat(Some(rev.seqNo), Health(gate.kill.Value()), rev.eventTimeMs)];
      assert closing == Closing(gate.Value(), rev);
      reports := reports + closing;
      assert reports[|reports| - 1] == closing[1];
    }

    method Pump(appendOk: bool) returns (reports: seq<AdapterReport>)
      modifies this, keeper, gate.sim
      ensures (Value(), reports) == PumpStep(old(Value()), appendOk)
      ensures !connected || old(pending).None? ==> reports == [] && Value() == old(Value())
      ensures connected && old(pending).Some? ==>
                && pending.None? && lastApplied == old(pending)
                && AcksLast(reports, old(pending).value, gate.kill.Value())
                && appendFailures == old(appendFailures) + (if appendOk then 0 else 1)
                && (!appendOk ==> lastDisposition == Some(Continue))
      ensures connected == old(connected) && droppedSuperseded == old(droppedSuperseded)
    {
      if !connected || pending.None? {
        return [];
      }
      var rev := pending.value;
      pending, lastApplied := None, Some(rev);
      reports := Apply(rev);
      if !appendOk {
        lastDisposition := Some(Continue);
        appendFailures := appendFailures + 1;
      }
    }

    method Disconnect()
      modifies this
      ensures Value() == old(Value()).(connected := false)
    {
      connected := false;
    }

    method Reconnect() returns (reports: seq<AdapterReport>)
      modifies this, keeper
      ensures (Value(), reports) == ReconnectStep(old(Value()))
      ensures connected && pending == old(pending) && lastApplied == old(lastApplied)
      ensures |reports| == 1 && reports[0].PositionTruth?
      ensures StatesPosition(reports[0].report, gate.sim.Value())
      ensures reports[0].report.eventTimeMs == if lastApplied.Some? then lastApplied.value.eventTimeMs else 0
      ensures keeper.instrument == gate.sim.instrument ==> keeper.signedQty == gate.sim.signedQty
    {
      connected := true;
      var t := if lastApplied.Some? then lastApplied.value.eventTimeMs else 0;
      var report := gate.sim.PositionReportAt(t);
      keeper.Apply(Position(report));
      reports := [PositionTruth(report)];
    }
  }

  // ----- Runs of the link, with kill trips interleaved -----

  datatype LinkEvent =
    | SubmitRev(rev: TargetRevision)
    | Pump(appendOk: bool)
    | Mark(mark: NonNeg)
    | Balance(equity: real, margin: real)
    | Disconnect
    | Reconnect
    | TripKill(reason: string)

  function Step(s: LinkState, e: LinkEvent): (LinkState, seq<AdapterReport>) {
    match e
    case SubmitRev(rev) => (SubmitTarget(s, rev).0, [])
    case Pump(ok) => PumpStep(s, ok)
    case Mark(m) => (s.(keeper := s.keeper.(mark := m)), [])
    case Balance(equity, margin) => (s.(keeper := s.keeper.(equity := equity, availableMargin := margin)), [])
    case Disconnect => (s.(connected := false), [])
    case Reconnect => ReconnectStep(s)
    case TripKill(reason) => (s.(gate := s.gate.(kill := Trip(s.gate.kill, reason))), [])
  }

  function Run(s: LinkState, es: seq<LinkEvent>): (LinkState, seq<AdapterReport>) {
    if es == [] then (s, [])
    else
      var (s', reports) := Run(s, es[..|es| - 1]);
      var (s'', more) := Step(s', es[|es| - 1]);
      (s'', reports + more)
  }

  /** The revisions the link accepted, oldest first. */
  function Accepted(s: LinkState, es: seq<LinkEvent>): seq<TargetRevision> {
    if es == [] then []
    else
      var e := es[|es| - 1];
      if e.SubmitRev? && Run(s, es[..|es| - 1]).0.connected
      then Accepted(s, es[..|es| - 1]) + [e.rev] else Accepted(s, es[..|es| - 1])
  }

  predicate LivePump(s: LinkState, e: LinkEvent) {
    e.Pump? && s.connected && s.pending.Some?
  }

  function Applied(s: LinkState, es: seq<LinkEvent>): nat {
    if es == [] then 0
    else Applied(s, es[..|es| - 1]) + if LivePump(Run(s, es[..|es| - 1]).0, es[|es| - 1]) then 1 else 0
  }

  function FillsIn(reports: seq<AdapterReport>): nat {
    if reports == [] then 0
    else FillsIn(reports[..|reports| - 1]) + if reports[|reports| - 1].FillDone? then 1 else 0
  }

  function Held(o: Option<TargetRevision>): nat {
    if o.Some? then 1 else 0
  }

  /** Keeper and simulator are wired to one instrument and hold one position. */
  predicate InStep(s: LinkState) {
    s.keeper.instrument == s.gate.sim.instrument && s.keeper.signedQty == s.gate.sim.signedQty
  }

  lemma {:induction false} FillsInConcat(a: seq<AdapterReport>, b: seq<AdapterReport>)
    ensures FillsIn(a + b) == FillsIn(a) + FillsIn(b)
  {
    if b == [] {
      assert a + b == a;
    } else {
      assert (a + b)[..|a + b| - 1] == a + b[..|b| - 1];
      FillsInConcat(a, b[..|b| - 1]);
    }
  }

  lemma ApplyFills(s: LinkState, rev: TargetRevision)
    ensures var (s', reports) := ApplyRevision(s, rev);
            s'.gate.sim.submitted == s.gate.sim.submitted + FillsIn(reports)
  {
    var (s', reports) := ApplyRevision(s, rev);
    var tail := reports[|reports| - 2..];
    assert FillsIn(tail) == 0 by {
      assert tail[..1][..0] == [] && !tail[0].FillDone? && !tail[1].FillDone?;
      assert FillsIn(tail[..1]) == 0;
    }
    FillsInConcat(reports[..|reports| - 2], tail);
    assert reports == reports[..|reports| - 2] + tail;
    if |reports| == 3 {
      assert reports[..1] == [reports[0]] && reports[..1][..0] == [];
    } else {
      assert reports[..0] == [];
    }
  }

  lemma StepInvariants(s: LinkState, e: LinkEvent)
    requires InStep(s)
    ensures var (s', reports) := Step(s, e);
            && InStep(s')
            && s'.gate.sim.submitted == s.gate.sim.submitted + FillsIn(reports)
            && s.droppedSuperseded + Held(s.pending) + (if e.SubmitRev? && s.connected then 1 else 0)
                 == s'.droppedSuperseded + Held(s'.pending) + if LivePump(s, e) then 1 else 0
  {
    if LivePump(s, e) {
      ApplyFills(s.(pending := None, lastApplied := s.pending), s.pending.value);
    } else if e.Reconnect? {
      ReportRoundTrip(s.gate.sim, s.keeper, 0);
      assert Step(s, e).1[..0] == [];
    }
  }

  /** Every run: the keeper stays in step with the simulator, every order submitted was returned as a
      fill, and every accepted revision was applied, superseded, or is still pending. */
  lemma {:induction false} LinkInvariants(s: LinkState, es: seq<LinkEvent>)
    requires InStep(s)
    ensures var (s', reports) := Run(s, es);
            && InStep(s')
            && s'.gate.sim.submitted == s.gate.sim.submitted + FillsIn(reports)
            && |Accepted(s, es)| + s.droppedSuperseded + Held(s.pending)
                 == Applied(s, es) + s'.droppedSuperseded + Held(s'.pending)
  {
    if es != [] {
      hide InStep, Step, LivePump, Held;
      var init, e := es[..|es| - 1], es[|es| - 1];
      LinkInvariants(s, init);
      var (s', reports) := Run(s, init);
      StepInvariants(s', e);
      FillsInConcat(reports, Step(s', e).1);
    }
  }

  // ----- Coalescing -----

  lemma {:induction false} PendingIsLatest(s: LinkState, es: seq<LinkEvent>)
    requires s.pending.None?
    ensures var s' := Run(s, es).0;
            s'.pending.Some? ==> Accepted(s, es) != [] && s'.pending.value == Accepted(s, es)[|Accepted(s, es)| - 1]
  {
    if es != [] {
      PendingIsLatest(s, es[..|es| - 1]);
    }
  }

  /** A live pump at a known mark, with the kill not tripped, leaves exactly the pending target. */
  lemma PumpReachesTarget(s: LinkState, appendOk: bool)
    requires InStep(s) && s.connected && s.pending.Some? && !s.gate.kill.tripped && s.keeper.mark != 0.0
    ensures var s' := PumpStep(s, appendOk).0;
            && s'.keeper.signedQty == s.pending.value.target.notional / s.keeper.mark
            && s'.lastApplied == s.pending && s'.pending.None? && s'.keeper.mark == s.keeper.mark
  {
    PlanReachesTarget(s.pending.value.target.notional, s.keeper.signedQty, s.keeper.mark);
  }

  /** A live pump reports the truth: last an acknowledgement of the revision it took, up exactly while the
      kill is not tripped and otherwise down with the latched reason; before it the position the venue and the
      keeper now hold; and before that one fill, at the mark and for exactly the difference, exactly when the
      switch is live, the mark known and the link not yet at target. A refused order is routed to `Halt`. */
  lemma PumpReportsTruth(s: LinkState, appendOk: bool)
    requires InStep(s) && s.connected && s.pending.Some?
    ensures var rev := s.pending.value;
            var (s', reports) := PumpStep(s, appendOk);
            var n := |reports|;
            var trades := s.keeper.mark != 0.0 && s.keeper.signedQty * s.keeper.mark != rev.target.notional;
            && 2 <= n <= 3
            && AcksLast(reports, rev, s.gate.kill)
            && reports[n - 2].PositionTruth? && reports[n - 2].report.eventTimeMs == rev.eventTimeMs
            && StatesPosition(reports[n - 2].report, s'.gate.sim) && s'.keeper.signedQty == s'.gate.sim.signedQty
            && (n == 3 <==> trades && !s.gate.kill.tripped)
            && (n == 3 ==>
                  && reports[0].FillDone? && reports[0].fill.fill.price == s.keeper.mark == s'.gate.sim.lastPrice
                  && reports[0].fill.fill.eventTimeMs == rev.eventTimeMs
                  && reports[0].fill.order.state == Filled && reports[0].fill.order.qty == reports[0].fill.fill.qty
                  && (reports[0].fill.fill.side == Buy <==> s'.keeper.signedQty > s.keeper.signedQty)
                  && reports[0].fill.fill.qty as real == Abs(s'.keeper.signedQty - s.keeper.signedQty))
            && (n == 2 ==> s'.gate == s.gate && s'.keeper == s.keeper)
            && (appendOk ==> s'.lastDisposition == if trades && s.gate.kill.tripped then Some(Halt) else s.lastDisposition)
            && s'.pending.None? && s'.lastApplied == Some(rev)
  {
    var target, mark := s.pending.value.target.notional, s.keeper.mark;
    StepInvariants(s, Pump(appendOk));
    PlanReachesTarget(target, s.keeper.signedQty, mark);
    if mark != 0.0 {
      AtTargetIff(target, s.keeper.signedQty, mark);
    }
  }

  lemma AtTargetIff(target: real, current: real, mark: real)
    requires mark != 0.0
    ensures current == target / mark <==> current * mark == target
  {
    assert (target / mark) * mark == target;
    assert current * mark == target ==> current == (current * mark) / mark;
  }

  /** While nobody trips the switch, over any run, every heartbeat reports the venue up and the switch stays
      live: the other half of `TripFreezes`. */
  lemma {:induction false} UntrippedStaysUp(s: LinkState, es: seq<LinkEvent>)
    requires !s.gate.kill.tripped && forall e | e in es :: !e.TripKill?
    ensures var (s', reports) := Run(s, es);
            && s'.gate.kill == s.gate.kill && s'.gate.flattened == s.gate.flattened
            && forall r | r in reports && r.Beat? :: r.health == Up && r.ackSeq.Some?
  {
    if es != [] {
      assert es[|es| - 1] in es;
      UntrippedStaysUp(s, es[..|es| - 1]);
    }
  }

  /** Coalescing is lossless: two schedules that accepted the same revisions and end in a live pump at
      the same known mark hold the same position, whatever either dropped on the way. */
  lemma CoalescingIsLossless(s1: LinkState, es1: seq<LinkEvent>, s2: LinkState, es2: seq<LinkEvent>, ok1: bool, ok2: bool)
    requires InStep(s1) && InStep(s2) && s1.pending.None? && s2.pending.None?
    requires Accepted(s1, es1) == Accepted(s2, es2)
    requires LivePump(Run(s1, es1).0, Pump(ok1)) && LivePump(Run(s2, es2).0, Pump(ok2))
    requires !Run(s1, es1).0.gate.kill.tripped && !Run(s2, es2).0.gate.kill.tripped
    requires Run(s1, es1).0.keeper.mark == Run(s2, es2).0.keeper.mark != 0.0
    ensures Run(s1, es1 + [Pump(ok1)]).0.keeper.signedQty == Run(s2, es2 + [Pump(ok2)]).0.keeper.signedQty
    ensures Accepted(s1, es1) != [] && Run(s1, es1 + [Pump(ok1)]).0.keeper.signedQty
            == Accepted(s1, es1)[|Accepted(s1, es1)| - 1].target.notional / Run(s1, es1).0.keeper.mark
  {
    LinkInvariants(s1, es1);
    LinkInvariants(s2, es2);
    PendingIsLatest(s1, es1);
    PendingIsLatest(s2, es2);
    PumpReachesTarget(Run(s1, es1).0, ok1);
    PumpReachesTarget(Run(s2, es2).0, ok2);
    assert (es1 + [Pump(ok1)])[..|es1|] == es1 && (es2 + [Pump(ok2)])[..|es2|] == es2;
  }

  // ----- Reconnecting -----

  /** The kept position is the last applied target at the current mark. */
  predicate AtTarget(s: LinkState) {
    && s.keeper.mark != 0.0 && s.lastApplied.Some?
    && s.keeper.signedQty == s.lastApplied.value.target.notional / s.keeper.mark
  }

  /** Once at target, only a new mark or a kill can take the link off its last applied target. */
  lemma {:induction false} StaysAtTarget(s: LinkState, es: seq<LinkEvent>)
    requires InStep(s) && AtTarget(s) && !s.gate.kill.tripped
    requires forall e | e in es :: !e.Mark? && !e.TripKill?
    ensures InStep(Run(s, es).0) && AtTarget(Run(s, es).0) && !Run(s, es).0.gate.kill.tripped
  {
    if es != [] {
      assert es[|es| - 1] in es;
      StaysAtTarget(s, es[..|es| - 1]);
      var s' := Run(s, es[..|es| - 1]).0;
      if LivePump(s', es[|es| - 1]) {
        PumpReachesTarget(s', es[|es| - 1].appendOk);
      }
    }
  }

  function Resend(s: LinkState, appendOk: bool): (LinkState, seq<AdapterReport>)
    requires s.lastApplied.Some?
  {
    PumpStep(SubmitTarget(ReconnectStep(s).0, s.lastApplied.value).0, appendOk)
  }

  /** Reconnect, resend the latest target, pump, with nothing pending: no order is sent exactly when the
      switch is tripped, the mark is unknown, or the link is still at its target. Then nothing moves. A mark
      that moved since the target was applied makes the resend trade. */
  lemma ResendIsIdempotentIff(s: LinkState, appendOk: bool)
    requires InStep(s) && s.lastApplied.Some? && s.pending.None?
    ensures var (s', reports) := Resend(s, appendOk);
            && (FillsIn(reports) == 0 <==> s.gate.kill.tripped || s.keeper.mark == 0.0 || AtTarget(s))
            && (FillsIn(reports) == 0 ==>
                  s'.keeper == s.keeper && s'.gate == s.gate && s'.lastApplied == s.lastApplied && s'.pending.None?)
  {
    var rev := s.lastApplied.value;
    ReportRoundTrip(s.gate.sim, s.keeper, rev.eventTimeMs);
    PlanReachesTarget(rev.target.notional, s.keeper.signedQty, s.keeper.mark);
    ApplyFills(s.(connected := true), rev);
  }

  /** The slot is overwritten without comparing sequence numbers, and a disconnect keeps it. So a
      resend delivers the newest accepted target exactly when nothing is pending, or what is pending
      asks for the same notional as the revision resent. */
  lemma ResendKeepsNewestIff(s: LinkState, appendOk: bool)
    requires InStep(s) && s.lastApplied.Some? && !s.gate.kill.tripped && s.keeper.mark != 0.0
    ensures var newest := if s.pending.Some? then s.pending.value else s.lastApplied.value;
            Resend(s, appendOk).0.keeper.signedQty == newest.target.notional / s.keeper.mark
            <==> (s.pending.None? || s.pending.value.target.notional == s.lastApplied.value.target.notional)
  {
    var resent := SubmitTarget(ReconnectStep(s).0, s.lastApplied.value).0;
    ReportRoundTrip(s.gate.sim, s.keeper, s.lastApplied.value.eventTimeMs);
    PumpReachesTarget(resent, appendOk);
    var m, a := s.keeper.mark, s.lastApplied.value.target.notional;
    if s.pending.Some? {
      var b := s.pending.value.target.notional;
      assert a / m == b / m ==> a == (a / m) * m == (b / m) * m == b;
    }
  }

  /** Revision 1 is applied, 2 is accepted, the link drops and comes back, and 1 is resent: 2 is gone. */
  lemma ResendCanLoseNewer(s: LinkState, older: TargetRevision, newer: TargetRevision)
    requires InStep(s) && s.connected && !s.gate.kill.tripped && s.keeper.mark == 1.0 && s.pending.None?
    requires older == TargetRevision(1, Single(10.0), 1) && newer == TargetRevision(2, Single(20.0), 2)
    ensures var dropped := SubmitTarget(PumpStep(SubmitTarget(s, older).0, true).0, newer).0.(connected := false);
            && dropped.pending == Some(newer) && dropped.lastApplied == Some(older)
            && Resend(dropped, true).0.keeper.signedQty == 10.0 && Resend(dropped, true).0.pending.None?
  {
    PumpReachesTarget(SubmitTarget(s, older).0, true);
    var dropped := SubmitTarget(PumpStep(SubmitTarget(s, older).0, true).0, newer).0.(connected := false);
    ReportRoundTrip(dropped.gate.sim, dropped.keeper, 1);
    PumpReachesTarget(SubmitTarget(ReconnectStep(dropped).0, older).0, true);
  }

  // ----- Kill and journal -----

  /** A trip freezes the link: no order is sent and no position moves whatever is submitted, pumped or
      reconnected, and every later heartbeat reports the venue down with the latched reason. */
  lemma {:induction false} TripFreezes(s: LinkState, es: seq<LinkEvent>)
    requires InStep(s) && s.gate.kill.tripped && s.gate.kill.reason.Some?
    ensures var (s', reports) := Run(s, es);
            && s'.gate == s.gate && s'.keeper.signedQty == s.keeper.signedQty && InStep(s')
            && forall r | r in reports :: !r.FillDone? && (r.Beat? ==> r.health == Down(s.gate.kill.reason.value))
  {
    if es != [] {
      TripFreezes(s, es[..|es| - 1]);
      var s' := Run(s, es[..|es| - 1]).0;
      if es[|es| - 1].Reconnect? {
        ReportRoundTrip(s'.gate.sim, s'.keeper, 0);
      }
    }
  }

  function JournalUp(es: seq<LinkEvent>): (r: seq<LinkEvent>)
    ensures |r| == |es|
  {
    seq(|es|, i requires 0 <= i < |es| => if es[i].Pump? then Pump(true) else es[i])
  }

  function FailedAppends(s: LinkState, es: seq<LinkEvent>): nat {
    if es == [] then 0
    else
      FailedAppends(s, es[..|es| - 1]) +
        if LivePump(Run(s, es[..|es| - 1]).0, es[|es| - 1]) && !es[|es| - 1].appendOk then 1 else 0
  }

  /** Two links that differ at most in how journal failures were recorded. */
  predicate SameButJournal(a: LinkState, b: LinkState) {
    a == b.(appendFailures := a.appendFailures, lastDisposition := a.lastDisposition)
  }

  lemma ApplyIgnoresJournal(a: LinkState, b: LinkState, rev: TargetRevision)
    requires SameButJournal(a, b)
    ensures SameButJournal(ApplyRevision(a, rev).0, ApplyRevision(b, rev).0)
    ensures ApplyRevision(a, rev).1 == ApplyRevision(b, rev).1
    ensures ApplyRevision(a, rev).0.appendFailures == a.appendFailures
  {
  }

  lemma StepIgnoresJournal(a: LinkState, b: LinkState, e: LinkEvent)
    requires SameButJournal(a, b)
    ensures var e' := if e.Pump? then Pump(true) else e;
            && SameButJournal(Step(a, e).0, Step(b, e').0) && Step(a, e).1 == Step(b, e').1
            && Step(b, e').0.appendFailures == b.appendFailures
            && Step(a, e).0.appendFailures == a.appendFailures + if LivePump(a, e) && !e.appendOk then 1 else 0
  {
    if LivePump(a, e) {
      var rev := a.pending.value;
      ApplyIgnoresJournal(a.(pending := None, lastApplied := Some(rev)),
                          b.(pending := None, lastApplied := Some(rev)), rev);
      ApplyIgnoresJournal(b.(pending := None, lastApplied := Some(rev)),
                          b.(pending := None, lastApplied := Some(rev)), rev);
    }
  }

  /** Journal failures never gate dispatch: with any pattern of failures the link sends, holds and
      reports exactly what it would with a journal that always succeeds; failures are only counted. */
  lemma {:induction false} AppendNeverGates(s: LinkState, es: seq<LinkEvent>)
    ensures Run(s, es).1 == Run(s, JournalUp(es)).1
    ensures SameButJournal(Run(s, es).0, Run(s, JournalUp(es)).0)
    ensures Run(s, es).0.appendFailures == s.appendFailures + FailedAppends(s, es)
    ensures Run(s, JournalUp(es)).0.appendFailures == s.appendFailures
  {
    if es != [] {
      var init, e := es[..|es| - 1], es[|es| - 1];
      AppendNeverGates(s, init);
      assert JournalUp(es)[..|es| - 1] == JournalUp(init);
      StepIgnoresJournal(Run(s, init).0, Run(s, JournalUp(init)).0, e);
    }
  }
}
