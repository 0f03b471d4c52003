/** The edge gateway's parts: order lifecycle, the delta planner, the position keeper and the venue
    simulator. Each mutable part is a class tied to a function on its value. */
module Edge {
  import opened Domain

  type NonNeg = r: real | 0.0 <= r

  // ----- Order lifecycle -----

  datatype OrderState = New | Submitted | PartiallyFilled | Filled | Rejected | Cancelled

  datatype OrderValue = OrderValue(id: nat, side: Side, qty: NonNeg, filled: NonNeg, state: OrderState)
  {
    predicate Terminal() {
      state.Filled? || state.Rejected? || state.Cancelled?
    }
  }

  datatype OrderEvent = Submit | OnFill(qty: NonNeg) | Reject | Cancel

  function OrderStep(o: OrderValue, e: OrderEvent): OrderValue {
    if o.Terminal() then o
    else
      match e
      case Submit => if o.state.New? then o.(state := Submitted) else o
      case OnFill(q) =>
        o.(filled := o.filled + q, state := if o.filled + q >= o.qty then Filled else PartiallyFilled)
      case Reject => o.(state := Rejected)
      case Cancel => o.(state := Cancelled)
  }

  function OrderRun(o: OrderValue, es: seq<OrderEvent>): OrderValue {
    if es == [] then o else OrderStep(OrderRun(o, es[..|es| - 1]), es[|es| - 1])
  }

  /** The fills an order absorbs: those before it becomes terminal. */
  function Absorbed(o: OrderValue, es: seq<OrderEvent>): real {
    if es == [] then 0.0
    else
      var before := Absorbed(o, es[..|es| - 1]);
      if es[|es| - 1].OnFill? && !OrderRun(o, es[..|es| - 1]).Terminal() then before + es[|es| - 1].qty else before
  }

  predicate AbsorbsAFill(o: OrderValue, es: seq<OrderEvent>) {
    es != [] &&
    (AbsorbsAFill(o, es[..|es| - 1]) || (es[|es| - 1].OnFill? && !OrderRun(o, es[..|es| - 1]).Terminal()))
  }

  /** Over every run of a new order: the filled quantity is the sum of the absorbed fills, the order is
      `Filled` exactly when that sum reaches its quantity (for an order of nothing, when any fill is
      absorbed) and partial only below it, and once terminal it never changes again. */
  lemma {:induction false} OrderLifecycle(id: nat, side: Side, qty: NonNeg, es: seq<OrderEvent>, k: nat)
    requires k <= |es|
    ensures var o := OrderValue(id, side, qty, 0.0, New);
            var end := OrderRun(o, es);
            && end.filled == Absorbed(o, es)
            && (end.state.Filled? <==> end.filled >= qty && (qty > 0.0 || AbsorbsAFill(o, es)))
            && (end.state.PartiallyFilled? ==> end.filled < qty)
            && (OrderRun(o, es[..k]).Terminal() ==> end == OrderRun(o, es[..k]))
            && end.id == id && end.side == side && end.qty == qty
  {
    if k == |es| {
      assert es[..k] == es;
    }
    if es != [] {
      if k < |es| {
        OrderLifecycle(id, side, qty, es[..|es| - 1], k);
        assert es[..|es| - 1][..k] == es[..k];
      } else {
        OrderLifecycle(id, side, qty, es[..|es| - 1], 0);
      }
    }
  }

  /** Event `k` reaches the order before it is terminal. */
  ghost predicate ReachesOpen(o: OrderValue, es: seq<OrderEvent>, k: nat) {
    k < |es| && !OrderRun(o, es[..k]).Terminal()
  }

  lemma StillReaches(o: OrderValue, es: seq<OrderEvent>, k: nat)
    requires k < |es| - 1
    ensures ReachesOpen(o, es, k) <==> ReachesOpen(o, es[..|es| - 1], k)
  {
    assert es[..|es| - 1][..k] == es[..k];
  }

  /** How a new order ends, over every run: rejected or cancelled exactly when such an event reached it open;
      still open and new exactly when nothing but ignored events came, submitted when a submission did and no
      fill, partially filled when a fill did. */
  lemma {:induction false} OrderEnds(id: nat, side: Side, qty: NonNeg, es: seq<OrderEvent>)
    ensures var o := OrderValue(id, side, qty, 0.0, New);
            var end := OrderRun(o, es);
            && (end.state.Rejected? <==> exists k: nat :: ReachesOpen(o, es, k) && es[k].Reject?)
            && (end.state.Cancelled? <==> exists k: nat :: ReachesOpen(o, es, k) && es[k].Cancel?)
            && (end.state.Filled? || end.state.PartiallyFilled? ==> AbsorbsAFill(o, es))
            && (end.state.New? || end.state.Submitted? ==> !AbsorbsAFill(o, es))
            && (end.state.New? || end.state.Submitted? ==> (end.state.Submitted? <==> exists k :: 0 <= k < |es| && es[k].Submit?))
  {
    var o := OrderValue(id, side, qty, 0.0, New);
    if es != [] {
      var init, e := es[..|es| - 1], es[|es| - 1];
      OrderEnds(id, side, qty, init);
      forall k: nat | k < |init| ensures ReachesOpen(o, es, k) <==> ReachesOpen(o, init, k) {
        StillReaches(o, es, k);
      }
      hide AbsorbsAFill;
      AbsorbsOneMore(o, es);
      assert forall k: nat :: ReachesOpen(o, init, k) ==> ReachesOpen(o, es, k) && es[k] == init[k];
      assert ReachesOpen(o, es, |init|) <==> !OrderRun(o, init).Terminal();
      assert forall k: nat :: ReachesOpen(o, es, k) ==> k == |init| || ReachesOpen(o, init, k);
    }
  }

  lemma AbsorbsOneMore(o: OrderValue, es: seq<OrderEvent>)
    requires es != []
    ensures AbsorbsAFill(o, es) <==>
              AbsorbsAFill(o, es[..|es| - 1]) || (es[|es| - 1].OnFill? && !OrderRun(o, es[..|es| - 1]).Terminal())
  {
  }

  class Order {
    var value: OrderValue

    constructor (id: nat, side: Side, qty: NonNeg)
      ensures value == OrderValue(id, side, qty, 0.0, New)
    {
      value := OrderValue(id, side, qty, 0.0, New);
    }

    method Submit()
      modifies this
      ensures value == OrderStep(old(value), OrderEvent.Submit)
    {
      if value.state.New? {
        value := value.(state := Submitted);
      }
    }

    method OnFill(q: NonNeg)
      modifies this
      ensures value == OrderStep(old(value), OrderEvent.OnFill(q))
    {
      if value.Terminal() {
        return;
      }
      value := value.(filled := value.filled + q);
      value := value.(state := if value.filled >= value.qty then Filled else PartiallyFilled);
    }

    method Reject()
      modifies this
      ensures value == OrderStep(old(value), OrderEvent.Reject)
    {
      if !value.Terminal() {
        value := value.(state := Rejected);
      }
    }

    method Cancel()
      modifies this
      ensures value == OrderStep(old(value), OrderEvent.Cancel)
    {
      if !value.Terminal() {
        value := value.(state := Cancelled);
      }
    }
  }

  // ----- Planning a delta -----

  datatype OrderIntent = OrderIntent(side: Side, qty: NonNeg)

  function SignedQty(side: Side, qty: NonNeg): real {
    if side == Buy then qty as real else -(qty as real)
  }

  /** The order that moves `current` contracts to the absolute `target` notional at `mark`. */
  function PlanDelta(target: real, current: real, mark: NonNeg): Option<OrderIntent> {
    if mark == 0.0 then None
    else
      var delta := target / mark - current;
      if delta == 0.0 then None
      else Some(OrderIntent(if delta < 0.0 then Sell else Buy, Abs(delta)))
  }

  /** A planned order is never empty and fills the position exactly to target; there is none exactly
      when the mark is unknown or the position is already at target. */
  lemma PlanReachesTarget(target: real, current: real, mark: NonNeg)
    ensures PlanDelta(target, current, mark).None? <==> mark == 0.0 || current == target / mark
    ensures match PlanDelta(target, current, mark)
            case Some(i) =>
              && i.qty > 0.0 && (i.side == Buy <==> current < target / mark)
              && (current + (if i.side == Buy then i.qty as real else -(i.qty as real))) * mark == target
              && (current + SignedQty(i.side, i.qty)) * mark == target
            case None => true
  {
    if mark != 0.0 {
      assert (target / mark) * mark == target;
    }
  }

  // ----- Venue events -----

  datatype Fill = Fill(
    instrument: string, side: Side, price: NonNeg, qty: NonNeg, orderId: nat, tradeId: nat, eventTimeMs: int)

  datatype PositionReport = PositionReport(
    instrument: string, direction: Option<Direction>, qty: NonNeg, entryPrice: NonNeg, eventTimeMs: int)

  datatype UserDataEvent =
    | FillEvent(fill: Fill)
    | Position(report: PositionReport)
    | Heartbeat(eventTimeMs: int)
    | ListenKeyExpired(eventTimeMs: int)
    | Snapshot(positions: seq<PositionReport>)

  function SignedFromReport(r: PositionReport): real {
    match r.direction
    case Some(Long) => r.qty as real
    case Some(Short) => -(r.qty as real)
    case None => 0.0
  }

  /** The signed quantity a report states: positive when long, negative when short, zero when flat. */
  predicate Says(r: PositionReport, signed: real) {
    && (r.direction == Some(Long) ==> signed == r.qty)
    && (r.direction == Some(Short) ==> signed == -(r.qty as real))
    && (r.direction == None ==> signed == 0.0)
  }

  // ----- The position keeper -----

  datatype KeeperState = KeeperState(
    instrument: string, signedQty: real, mark: NonNeg, equity: real, availableMargin: real)

  function FindReport(positions: seq<PositionReport>, instrument: string): real {
    if positions == [] then 0.0
    else if positions[0].instrument == instrument then SignedFromReport(positions[0])
    else FindReport(positions[1..], instrument)
  }

  function Absorb(k: KeeperState, e: UserDataEvent): KeeperState {
    match e
    case FillEvent(f) =>
      if f.instrument == k.instrument then k.(signedQty := k.signedQty + SignedQty(f.side, f.qty)) else k
    case Position(r) => if r.instrument == k.instrument then k.(signedQty := SignedFromReport(r)) else k
    case Snapshot(ps) => k.(signedQty := FindReport(ps, k.instrument))
    case Heartbeat(_) => k
    case ListenKeyExpired(_) => k
  }

  class VenueKeeper {
    const instrument: string
    var signedQty: real
    var mark: NonNeg
    var equity: real
    var availableMargin: real

    constructor (instrument: string, initialEquity: real)
      ensures Value() == KeeperState(instrument, 0.0, 0.0, initialEquity, initialEquity)
    {
      this.instrument := instrument;
      signedQty, mark := 0.0, 0.0;
      equity, availableMargin := initialEquity, initialEquity;
    }

    function Value(): KeeperState
      reads this
    {
      KeeperState(instrument, signedQty, mark, equity, availableMargin)
    }

    /** Fills adjust the position; reports and snapshots set it; everything else is ignored. */
    method Apply(e: UserDataEvent)
      modifies this
      ensures Value() == Absorb(old(Value()), e)
      ensures mark == old(mark) && equity == old(equity) && availableMargin == old(availableMargin)
      ensures e.FillEvent? && e.fill.instrument == instrument ==>
                signedQty == if e.fill.side == Buy then old(signedQty) + e.fill.qty else old(signedQty) - e.fill.qty
      ensures e.Position? && e.report.instrument == instrument ==> Says(e.report, signedQty)
      ensures e.Snapshot? && (forall i | 0 <= i < |e.positions| :: e.positions[i].instrument != instrument) ==>
                signedQty == 0.0
      ensures forall i | e.Snapshot? && 0 <= i < |e.positions| && e.positions[i].instrument == instrument
                  && (forall j | 0 <= j < i :: e.positions[j].instrument != instrument) ::
                Says(e.positions[i], signedQty)
      ensures e.FillEvent? && e.fill.instrument != instrument ==> signedQty == old(signedQty)
      ensures e.Position? && e.report.instrument != instrument ==> signedQty == old(signedQty)
      ensures e.Heartbeat? || e.ListenKeyExpired? ==> signedQty == old(signedQty)
    {
      match e {
        case FillEvent(f) =>
          if f.instrument == instrument {
            if f.side == Buy {
              signedQty := signedQty + f.qty;
            } else {
              signedQty := signedQty - f.qty;
            }
          }
        case Position(r) =>
          if r.instrument == instrument {
            signedQty := SignedFromReport(r);
          }
        case Snapshot(positions) =>
          for i := 0 to |positions|
            invariant FindReport(positions, instrument) == FindReport(positions[i..], instrument)
            invariant forall j | 0 <= j < i :: positions[j].instrument != instrument
          {
            assert positions[i..][1..] == positions[i + 1..];
            if positions[i].instrument == instrument {
              signedQty := SignedFromReport(positions[i]);
              return;
            }
          }
          signedQty := 0.0;
        case Heartbeat(_) =>
        case ListenKeyExpired(_) =>
      }
    }

    method ObserveMark(mark: NonNeg)
      modifies this
      ensures Value() == old(Value()).(mark := mark)
    {
      this.mark := mark;
    }

    method ObserveBalance(equity: real, availableMargin: real)
      modifies this
      ensures Value() == old(Value()).(equity := equity, availableMargin := availableMargin)
    {
      this.equity, this.availableMargin := equity, availableMargin;
    }
  }

  // ----- The venue simulator -----

  datatype SimState = SimState(
    instrument: string, nextOrderId: nat, nextTradeId: nat, signedQty: real, lastPrice: NonNeg, submitted: nat)

  datatype SimFill = SimFill(order: OrderValue, fill: Fill)

  function FillOf(s: SimState, i: OrderIntent, price: NonNeg, t: int): SimFill {
    SimFill(OrderValue(s.nextOrderId, i.side, i.qty, i.qty, Filled),
            Fill(s.instrument, i.side, price, i.qty, s.nextOrderId, s.nextTradeId, t))
  }

  function SimSubmit(s: SimState, i: OrderIntent, price: NonNeg): SimState {
    SimState(s.instrument, s.nextOrderId + 1, s.nextTradeId + 1, s.signedQty + SignedQty(i.side, i.qty),
             price, s.submitted + 1)
  }

  function ReportOf(s: SimState, t: int): PositionReport {
    PositionReport(s.instrument,
      if s.signedQty == 0.0 then None else if s.signedQty < 0.0 then Some(Short) else Some(Long),
      Abs(s.signedQty), s.lastPrice, t)
  }

  /** Report and re-absorb is the identity: a keeper that absorbs the simulator's report holds the
      simulator's position, and one already in step is unchanged. */
  lemma ReportRoundTrip(s: SimState, k: KeeperState, t: int)
    requires s.instrument == k.instrument
    ensures Absorb(k, Position(ReportOf(s, t))).signedQty == s.signedQty
    ensures k.signedQty == s.signedQty ==> Absorb(k, Position(ReportOf(s, t))) == k
  {
  }

  class VenueSimulator {
    const instrument: string
    var nextOrderId: nat
    var nextTradeId: nat
    var signedQty: real
    var lastPrice: NonNeg
    var submitted: nat

    constructor (instrument: string)
      ensures Value() == SimState(instrument, 1, 1, 0.0, 0.0, 0)
    {
      this.instrument := instrument;
      nextOrderId, nextTradeId, signedQty, lastPrice, submitted := 1, 1, 0.0, 0.0, 0;
    }

    function Value(): SimState
      reads this
    {
      SimState(instrument, nextOrderId, nextTradeId, signedQty, lastPrice, submitted)
    }

    /** Fills the order at once: the order driven through its lifecycle ends `Filled`. */
    method Submit(i: OrderIntent, price: NonNeg, t: int) returns (r: SimFill)
      modifies this
      ensures Value() == SimSubmit(old(Value()), i, price)
      ensures r == FillOf(old(Value()), i, price, t)
      ensures signedQty == if i.side == Buy then old(signedQty) + i.qty else old(signedQty) - i.qty
      ensures nextOrderId == old(nextOrderId) + 1 && nextTradeId == old(nextTradeId) + 1
      ensures submitted == old(submitted) + 1 && lastPrice == price
      ensures r.order.state == Filled && r.order.filled == r.order.qty == r.fill.qty == i.qty
      ensures r.order.side == r.fill.side == i.side && r.order.id == r.fill.orderId == old(nextOrderId)
      ensures r.fill.tradeId == old(nextTradeId) && r.fill.price == price
      ensures r.fill.eventTimeMs == t && r.fill.instrument == instrument
    {
      var orderId, tradeId := nextOrderId, nextTradeId;
      nextOrderId, nextTradeId := nextOrderId + 1, nextTradeId + 1;
      submitted := submitted + 1;
      lastPrice := price;
      var order := new Order(orderId, i.side, i.qty);
      order.Submit();
      order.OnFill(i.qty);
      if i.side == Buy {
        signedQty := signedQty + i.qty;
      } else {
        signedQty := signedQty - i.qty;
      }
      r := SimFill(order.value, Fill(instrument, i.side, price, i.qty, orderId, tradeId, t));
    }

    function PositionReportAt(t: int): (r: PositionReport)
      reads this
      ensures r == ReportOf(Value(), t)
      ensures Says(r, signedQty) && (r.direction == None <==> signedQty == 0.0) && (r.direction == Some(Long) <==> signedQty > 0.0)
      ensures r.instrument == instrument && r.entryPrice == lastPrice && r.eventTimeMs == t
    {
      if signedQty == 0.0 then PositionReport(instrument, None, 0.0, lastPrice, t)
      else if signedQty < 0.0 then PositionReport(instrument, Some(Short), -signedQty, lastPrice, t)
      else PositionReport(instrument, Some(Long), signedQty, lastPrice, t)
    }
  }
}
