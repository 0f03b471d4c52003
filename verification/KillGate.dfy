/** The out-of-band kill, enforced where orders leave for the venue. */
module KillGate {
  import opened Domain
  import opened Edge

  datatype KillState = KillState(tripped: bool, reason: Option<string>)

  const LIVE := KillState(false, None)

  /** The latch: the first reason wins and the switch stays tripped. */
  function Trip(k: KillState, reason: string): KillState {
    KillState(true, if k.reason.None? then Some(reason) else k.reason)
  }

  function KillReason(k: KillState): string {
    if k.reason.Some? then k.reason.value else "kill switch tripped"
  }

  class KillHandle {
    var tripped: bool
    var reason: Option<string>

    constructor ()
      ensures Value() == LIVE
    {
      tripped, reason := false, None;
    }

    function Value(): KillState
      reads this
    {
      KillState(tripped, reason)
    }

    method TripWith(why: string)
      modifies this
      ensures Value() == Trip(old(Value()), why)
      ensures tripped && reason == if old(reason).Some? then old(reason) else Some(why)
    {
      if reason.None? {
        reason := Some(why);
      }
      tripped := true;
    }
  }

  /** The closing order for a kept position; it needs neither a mark nor a target. */
  function FlattenIntent(current: real): Option<OrderIntent> {
    if current == 0.0 then None
    else Some(OrderIntent(if current < 0.0 then Buy else Sell, Abs(current)))
  }

  datatype GateState = GateState(kill: KillState, sim: SimState, flattened: bool)

  datatype KillHalt = KillHalt(reason: string)

  datatype KillOutcome = Live | Flattened(fill: Option<SimFill>) | Halted

  function GateSubmit(g: GateState, i: OrderIntent, price: NonNeg, t: int): (GateState, Result<SimFill, KillHalt>) {
    if g.kill.tripped then (g, Err(KillHalt(KillReason(g.kill))))
    else (g.(sim := SimSubmit(g.sim, i, price)), Ok(FillOf(g.sim, i, price, t)))
  }

  function Enforce(g: GateState, current: real, price: NonNeg, t: int): (GateState, KillOutcome) {
    if !g.kill.tripped then (g, Live)
    else if g.flattened then (g, Halted)
    else
      match FlattenIntent(current)
      case Some(i) => (g.(sim := SimSubmit(g.sim, i, price), flattened := true), Flattened(Some(FillOf(g.sim, i, price, t))))
      case None => (g, Flattened(None))
  }

  class VenueKillGate {
    const kill: KillHandle
    const sim: VenueSimulator
    var flattened: bool

    constructor (kill: KillHandle, sim: VenueSimulator)
      ensures this.kill == kill && this.sim == sim && !flattened
    {
      this.kill, this.sim, flattened := kill, sim, false;
    }

    function Value(): GateState
      reads this, kill, sim
    {
      GateState(kill.Value(), sim.Value(), flattened)
    }

    method Submit(i: OrderIntent, price: NonNeg, t: int) returns (r: Result<SimFill, KillHalt>)
      modifies sim
      ensures (Value(), r) == GateSubmit(old(Value()), i, price, t)
      ensures kill.tripped ==>
                && sim.Value() == old(sim.Value()) && r.Err?
                && (kill.reason.Some? ==> r.error.reason == kill.reason.value)
      ensures !kill.tripped ==>
                && r.Ok? && r.value.fill.qty == i.qty && r.value.fill.side == i.side
                && r.value.fill.price == price && r.value.fill.eventTimeMs == t
                && sim.submitted == old(sim.submitted) + 1
                && sim.signedQty == if i.side == Buy then old(sim.signedQty) + i.qty else old(sim.signedQty) - i.qty
    {
      if kill.tripped {
        return Err(KillHalt(KillReason(kill.Value())));
      }
      var fill := sim.Submit(i, price, t);
      r := Ok(fill);
    }

    method EnforceKill(current: real, price: NonNeg, t: int) returns (r: KillOutcome)
      modifies this, sim
      ensures (Value(), r) == Enforce(old(Value()), current, price, t)
      ensures r == Live <==> !kill.tripped
      ensures r == Halted <==> kill.tripped && old(flattened)
      ensures r == Flattened(None) <==> kill.tripped && !old(flattened) && current == 0.0
      ensures !r.Flattened? || r.fill.None? ==> sim.Value() == old(sim.Value()) && flattened == old(flattened)
      ensures r.Flattened? && r.fill.Some? ==>
                && flattened && sim.submitted == old(sim.submitted) + 1
                && sim.signedQty == old(sim.signedQty) - current
                && r.fill.value.fill.price == price && r.fill.value.fill.eventTimeMs == t
                && r.fill.value.fill.side == (if current < 0.0 then Buy else Sell)
    {
      if !kill.tripped {
        return Live;
      }
      if flattened {
        return Halted;
      }
      var intent := FlattenIntent(current);
      if intent.None? {
        return Flattened(None);
      }
      var fill := sim.Submit(intent.value, price, t);
      flattened := true;
      r := Flattened(Some(fill));
    }
  }

  // ----- Runs of the gate, with the switch tripped from anywhere -----

  datatype GateEvent =
    | SubmitOrder(intent: OrderIntent, price: NonNeg, t: int)
    | EnforceTick(current: real, price: NonNeg, t: int)
    | TripSwitch(reason: string)

  function GateStep(g: GateState, e: GateEvent): GateState {
    match e
    case SubmitOrder(i, price, t) => GateSubmit(g, i, price, t).0
    case EnforceTick(current, price, t) => Enforce(g, current, price, t).0
    case TripSwitch(reason) => g.(kill := Trip(g.kill, reason))
  }

  function GateRun(g: GateState, es: seq<GateEvent>): GateState {
    if es == [] then g else GateStep(GateRun(g, es[..|es| - 1]), es[|es| - 1])
  }

  function FirstReason(es: seq<GateEvent>): Option<string> {
    if es == [] then None
    else if FirstReason(es[..|es| - 1]).Some? then FirstReason(es[..|es| - 1])
    else if es[|es| - 1].TripSwitch? then Some(es[|es| - 1].reason) else None
  }

  /** Over every run from an untripped switch: it is tripped exactly when some event tripped it, with the
      first such event's reason; until then every order offered is sent and nothing is flattened. */
  lemma {:induction false} SwitchLatches(g: GateState, es: seq<GateEvent>)
    requires g.kill == LIVE
    ensures var end := GateRun(g, es);
            && (end.kill.tripped <==> exists k :: 0 <= k < |es| && es[k].TripSwitch?)
            && end.kill.reason == FirstReason(es) && (end.kill.tripped <==> FirstReason(es).Some?)
            && (!end.kill.tripped ==> end.sim.submitted == g.sim.submitted + Offered(es) && end.flattened == g.flattened)
  {
    if es != [] {
      var init := es[..|es| - 1];
      SwitchLatches(g, init);
      assert (exists k :: 0 <= k < |es| && es[k].TripSwitch?) <==>
          (exists k :: 0 <= k < |init| && init[k].TripSwitch?) || es[|es| - 1].TripSwitch? by {
        assert forall k | 0 <= k < |init| :: es[k] == init[k];
      }
    }
  }

  function Offered(es: seq<GateEvent>): nat {
    if es == [] then 0 else Offered(es[..|es| - 1]) + if es[|es| - 1].SubmitOrder? then 1 else 0
  }

  /** The quantity a tripped, armed gate will close: the first non-zero one it is offered. */
  function FirstOffered(es: seq<GateEvent>): (r: Option<GateEvent>)
    ensures r.Some? ==> r.value.EnforceTick? && r.value.current != 0.0
  {
    if es == [] then None
    else if FirstOffered(es[..|es| - 1]).Some? then FirstOffered(es[..|es| - 1])
    else
      var e := es[|es| - 1];
      if e.EnforceTick? && e.current != 0.0 then Some(e) else None
  }

  /** After a trip, whatever is submitted: no normal order is sent; at most one further order is sent,
      and it is exactly the close of the first non-zero quantity offered; nothing else touches the
      simulator; the switch never resets. */
  lemma {:induction false} KilledGate(g: GateState, es: seq<GateEvent>)
    requires g.kill.tripped && !g.flattened
    ensures var end := GateRun(g, es);
            && end.kill.tripped && (g.kill.reason.Some? ==> end.kill.reason == g.kill.reason)
            && end.flattened == FirstOffered(es).Some?
            && match FirstOffered(es)
               case None => end.sim == g.sim
               case Some(e) =>
                 && end.sim == SimSubmit(g.sim, FlattenIntent(e.current).value, e.price)
                 && end.sim.submitted == g.sim.submitted + 1
                 && end.sim.signedQty == g.sim.signedQty - e.current
  {
    if es != [] {
      KilledGate(g, es[..|es| - 1]);
    }
  }

  /** If the quantity the gate closes is the simulator's own, the simulator is flat from then on. */
  lemma KilledGateFlattens(g: GateState, es: seq<GateEvent>, more: seq<GateEvent>)
    requires g.kill.tripped && !g.flattened
    requires FirstOffered(es).Some? && FirstOffered(es).value.current == g.sim.signedQty
    ensures GateRun(g, es + more).sim.signedQty == 0.0
    ensures GateRun(g, es + more).sim == GateRun(g, es).sim
  {
    FirstOfferedStands(es, more);
    KilledGate(g, es);
    KilledGate(g, es + more);
  }

  lemma {:induction false} FirstOfferedStands(es: seq<GateEvent>, more: seq<GateEvent>)
    requires FirstOffered(es).Some?
    ensures FirstOffered(es + more) == FirstOffered(es)
  {
    if more == [] {
      assert es + more == es;
    } else {
      FirstOfferedStands(es, more[..|more| - 1]);
      assert (es + more)[..|es + more| - 1] == es + more[..|more| - 1];
    }
  }

  /** A gate that already closed a position stays exactly as it is, whatever is offered. */
  lemma {:induction false} HaltedForever(g: GateState, es: seq<GateEvent>)
    requires g.kill.tripped && g.flattened
    ensures GateRun(g, es).sim == g.sim && GateRun(g, es).flattened && GateRun(g, es).kill.tripped
  {
    if es != [] {
      HaltedForever(g, es[..|es| - 1]);
    }
  }
}
