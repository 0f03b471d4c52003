/** The in-process handoff from replay to live: overlap is dropped, gaps are rejected, and the same
    session continues; a wired breaker layer rewrites only what is reported. */
module Cutover {
  import opened Domain
  import opened Evaluator
  import opened Breakers
  import opened Stitch
  import Bootstrap

  datatype CutoverError = EmptyReplay | Gap(expectedOpenMs: int, gotOpenMs: int)

  datatype CutoverStep = Duplicate | Evaluated(out: EvalOutput)

  /** The value of a cutover between two calls. */
  datatype CutoverState<A, C> = CutoverState(
    session: SessionState<A>, lastOpenMs: int, live: bool, breaker: Option<LayerState<C>>)

  function Report<C>(breaker: Option<LayerState<C>>, out: EvalOutput): EvalOutput {
    if breaker.Some? then out.(decisions := Clamped(breaker.value, out.decisions)) else out
  }

  function FeedBar<A, F, G, C>(
      cat: Catalogue<A, F, G>, genomes: seq<G>, interval: nat, s: CutoverState<A, C>, bar: Bar)
    : (r: (CutoverState<A, C>, Result<CutoverStep, CutoverError>))
    requires |s.session.positions| == |genomes|
    ensures |r.0.session.positions| == |genomes| && r.0.breaker == s.breaker
    ensures r.1 != Ok(Duplicate) && r.1.Ok? ==> bar.openTime == s.lastOpenMs + interval
    ensures (r.1 == Ok(Duplicate) || r.1.Err?) ==> r.0 == s
  {
    if bar.openTime <= s.lastOpenMs then (s, Ok(Duplicate))
    else if bar.openTime != s.lastOpenMs + interval then (s, Err(Gap(s.lastOpenMs + interval, bar.openTime)))
    else
      var session := if s.live then s.session else s.session.(mode := Live);
      var (session', out) := Evaluate(cat, genomes, session, bar);
      (CutoverState(session', bar.openTime, true, s.breaker), Ok(Evaluated(Report(s.breaker, out))))
  }

  class CutoverLink<A, F, G, C> {
    const session: EvaluatorSession<A, F, G>
    const intervalMs: nat
    const breaker: BreakerLayer?<C>
    var lastOpenMs: int
    var live: bool

    ghost predicate Valid()
      reads this, session, breaker
    {
      session.Valid() && (breaker != null ==> breaker.Valid())
    }

    ghost function State(): CutoverState<A, C>
      reads this, session, session.join, breaker
    {
      CutoverState(session.State(), lastOpenMs, live, if breaker == null then None else Some(breaker.State()))
    }

    constructor WithBreaker(session: EvaluatorSession<A, F, G>, lastOpenMs: int, base: Resolution, breaker: BreakerLayer?<C>)
      requires session.Valid() && (breaker != null ==> breaker.Valid())
      ensures Valid() && this.session == session && this.breaker == breaker && intervalMs == IntervalMs(base)
      ensures State() == CutoverState(session.State(), lastOpenMs, false,
                           if breaker == null then None else Some(breaker.State()))
    {
      this.session, this.breaker, this.lastOpenMs, live := session, breaker, lastOpenMs, false;
      intervalMs := IntervalMs(base);
    }

    /** Continues a replay from its last evaluated bar; a replay without bars has no boundary. */
    static method FromReconstructed(r: Bootstrap.Reconstructed<A, F, G>, base: Resolution, breaker: BreakerLayer?<C>)
      returns (c: Result<CutoverLink<A, F, G, C>, CutoverError>)
      requires r.session.Valid() && (breaker != null ==> breaker.Valid())
      ensures r.decisions == [] ==> c == Err(EmptyReplay)
      ensures r.decisions != [] ==>
                && c.Ok? && fresh(c.value) && c.value.Valid()
                && c.value.session == r.session && c.value.breaker == breaker && c.value.intervalMs == IntervalMs(base)
                && c.value.lastOpenMs == r.decisions[|r.decisions| - 1].timeMs && !c.value.live
    {
      if r.decisions == [] {
        return Err(EmptyReplay);
      }
      var cutover := new CutoverLink.WithBreaker(r.session, r.decisions[|r.decisions| - 1].timeMs, base, breaker);
      c := Ok(cutover);
    }

    method FeedLiveBar(bar: Bar) returns (r: Result<CutoverStep, CutoverError>)
      requires Valid()
      modifies this, session, session.join
      ensures Valid()
      ensures (State(), r) == FeedBar(session.cat, session.genomes, intervalMs, old(State()), bar)
      ensures bar.openTime <= old(lastOpenMs) ==> r == Ok(Duplicate) && State() == old(State())
      ensures old(lastOpenMs) < bar.openTime != old(lastOpenMs) + intervalMs ==>
                r == Err(Gap(old(lastOpenMs) + intervalMs, bar.openTime)) && State() == old(State())
      ensures old(lastOpenMs) < bar.openTime == old(lastOpenMs) + intervalMs ==>
                var (assembler, row) := old(session.cat.push(session.join.assembler, Sample(bar, session.join.Snapshot())));
                && live && lastOpenMs == bar.openTime
                && session.join.assembler == assembler && session.join.Snapshot() == old(session.join.Snapshot())
                && (session.mode == if old(live) then old(session.mode) else Live)
                && r.Ok? && r.value.Evaluated? && r.value.out.timeMs == bar.openTime
                && |r.value.out.decisions| == |session.genomes|
                && forall i | 0 <= i < |session.genomes| ::
                     var made := session.cat.decide(session.genomes[i], row, old(session.positions)[i]);
                     && session.positions[i] == Advance(old(session.positions)[i], made)
                     && r.value.out.decisions[i].index == i
                     && r.value.out.decisions[i].decision ==
                          if breaker != null && breaker.State().IsGated(i) then Exit else made
    {
      if bar.openTime <= lastOpenMs {
        return Ok(Duplicate);
      }
      var expected := lastOpenMs + intervalMs;
      if bar.openTime != expected {
        return Err(Gap(expected, bar.openTime));
      }
      if !live {
        session.GoLive();
        live := true;
      }
      var out := session.OnBar(bar);
      ghost var made := out;
      if breaker != null {
        out := out.(decisions := breaker.Clamp(out.decisions));
      }
      lastOpenMs := bar.openTime;
      r := Ok(Evaluated(out));
    }

    method ObserveStrategyEquity(index: nat, equity: real) returns (tier: Option<Tier>)
      requires Valid()
      modifies breaker
      ensures Valid()
      ensures breaker == null ==> tier.None? && State() == old(State())
      ensures breaker != null ==>
                && (State().breaker, tier)
                     == (Some(TickStep(breaker.kit, old(breaker.State()), StrategyTick(index, equity)).0),
                         TickStep(breaker.kit, old(breaker.State()), StrategyTick(index, equity)).1)
                && State() == old(State()).(breaker := State().breaker)
    {
      tier := None;
      if breaker != null {
        tier := breaker.ObserveStrategy(index, equity);
      }
    }

    method ObserveEnsembleEquity(equity: real) returns (tier: Option<Tier>)
      requires Valid()
      modifies breaker
      ensures Valid()
      ensures breaker == null ==> tier.None? && State() == old(State())
      ensures breaker != null ==>
                && (State().breaker, tier)
                     == (Some(TickStep(breaker.kit, old(breaker.State()), EnsembleTick(equity)).0),
                         TickStep(breaker.kit, old(breaker.State()), EnsembleTick(equity)).1)
                && State() == old(State()).(breaker := State().breaker)
    {
      tier := None;
      if breaker != null {
        tier := breaker.ObserveEnsemble(equity);
      }
    }
  }

  // ----- Whole live runs -----

  /** What the runtime delivers after the cutover, in any order and with any overlap or gap. */
  datatype LiveEvent =
    | BarDelivered(bar: Bar)
    | ContextObserved(channel: Bootstrap.Channel, value: real)
    | EquityTick(tick: Tick)

  function Step<A, F, G, C>(
      cat: Catalogue<A, F, G>, genomes: seq<G>, kit: BreakerKit<C>, interval: nat, s: CutoverState<A, C>, e: LiveEvent)
    : (r: (CutoverState<A, C>, Option<EvalOutput>))
    requires |s.session.positions| == |genomes| && (s.breaker.Some? ==> s.breaker.value.WellFormed())
    ensures |r.0.session.positions| == |genomes| && (r.0.breaker.Some? ==> r.0.breaker.value.WellFormed())
  {
    match e
    case BarDelivered(bar) =>
      var (s', step) := FeedBar(cat, genomes, interval, s, bar);
      (s', if step.Ok? && step.value.Evaluated? then Some(step.value.out) else None)
    case ContextObserved(c, v) =>
      (s.(session := s.session.(context := Bootstrap.Observe(s.session.context, c, v))), None)
    case EquityTick(t) =>
      (s.(breaker := if s.breaker.Some? then Some(TickStep(kit, s.breaker.value, t).0) else None), None)
  }

  function Run<A, F, G, C>(
      cat: Catalogue<A, F, G>, genomes: seq<G>, kit: BreakerKit<C>, interval: nat, s: CutoverState<A, C>, es: seq<LiveEvent>)
    : (r: (CutoverState<A, C>, seq<EvalOutput>))
    requires |s.session.positions| == |genomes| && (s.breaker.Some? ==> s.breaker.value.WellFormed())
    ensures |r.0.session.positions| == |genomes| && (r.0.breaker.Some? ==> r.0.breaker.value.WellFormed())
    ensures r.0.breaker.Some? <==> s.breaker.Some?
  {
    if es == [] then (s, [])
    else
      var (s', outs) := Run(cat, genomes, kit, interval, s, es[..|es| - 1]);
      var (s'', out) := Step(cat, genomes, kit, interval, s', es[|es| - 1]);
      (s'', if out.Some? then outs + [out.value] else outs)
  }

  // ----- The specification: one continuous session on a clean feed -----

  /** The delivered bars that continue the series from `last` without a hole. */
  function Contiguous(last: int, interval: nat, es: seq<LiveEvent>): seq<Bar> {
    if es == [] then []
    else
      var bars := Contiguous(last, interval, es[..|es| - 1]);
      var e := es[|es| - 1];
      if e.BarDelivered? && e.bar.openTime == last + interval * (|bars| + 1) then bars + [e.bar] else bars
  }

  function TicksOf(es: seq<LiveEvent>): seq<Tick> {
    if es == [] then []
    else if es[|es| - 1].EquityTick? then TicksOf(es[..|es| - 1]) + [es[|es| - 1].tick]
    else TicksOf(es[..|es| - 1])
  }

  function LayerAfter<C>(kit: BreakerKit<C>, breaker: Option<LayerState<C>>, es: seq<LiveEvent>): (r: Option<LayerState<C>>)
    requires breaker.Some? ==> breaker.value.WellFormed()
  {
    if breaker.Some? then Some(TickRun(kit, breaker.value, TicksOf(es))) else None
  }

  /** One session that never stops and never sees an overlap, a gap or a breaker: it takes every
      observation, and exactly the contiguous bars, in live mode. */
  function Continuous<A, F, G>(
      cat: Catalogue<A, F, G>, genomes: seq<G>, last: int, interval: nat, s: SessionState<A>, es: seq<LiveEvent>)
    : (r: (SessionState<A>, seq<EvalOutput>))
    requires |s.positions| == |genomes|
    ensures |r.0.positions| == |genomes|
    ensures |r.1| == |Contiguous(last, interval, es)|
  {
    if es == [] then (s, [])
    else
      var e := es[|es| - 1];
      var (s', outs) := Continuous(cat, genomes, last, interval, s, es[..|es| - 1]);
      if e.ContextObserved? then (s'.(context := Bootstrap.Observe(s'.context, e.channel, e.value)), outs)
      else if e.BarDelivered? && e.bar.openTime == last + interval * (|outs| + 1) then
        var (s'', out) := Evaluate(cat, genomes, s'.(mode := Live), e.bar);
        (s'', outs + [out])
      else (s', outs)
  }

  /** What the reports of the continuous session become behind the breaker in force at each bar. */
  function Reports<A, F, G, C>(
      cat: Catalogue<A, F, G>, genomes: seq<G>, kit: BreakerKit<C>, last: int, interval: nat,
      s: SessionState<A>, breaker: Option<LayerState<C>>, es: seq<LiveEvent>) : (r: seq<EvalOutput>)
    requires |s.positions| == |genomes| && (breaker.Some? ==> breaker.value.WellFormed())
    ensures |r| == |Continuous(cat, genomes, last, interval, s, es).1|
  {
    if es == [] then []
    else
      var before := Continuous(cat, genomes, last, interval, s, es[..|es| - 1]).1;
      var after := Continuous(cat, genomes, last, interval, s, es).1;
      var reports := Reports(cat, genomes, kit, last, interval, s, breaker, es[..|es| - 1]);
      if |before| < |after| then reports + [Report(LayerAfter(kit, breaker, es[..|es| - 1]), after[|after| - 1])]
      else reports
  }

  /** A cutover state and its reports so far are those of the continuous session. */
  ghost predicate Tracks<A, F, G, C>(
      cat: Catalogue<A, F, G>, genomes: seq<G>, kit: BreakerKit<C>, interval: nat, s: CutoverState<A, C>,
      es: seq<LiveEvent>, s': CutoverState<A, C>, outs: seq<EvalOutput>)
    requires |s.session.positions| == |genomes| && (s.breaker.Some? ==> s.breaker.value.WellFormed())
  {
    var n := |Contiguous(s.lastOpenMs, interval, es)|;
    && s'.session == Continuous(cat, genomes, s.lastOpenMs, interval, s.session, es).0
    && outs == Reports(cat, genomes, kit, s.lastOpenMs, interval, s.session, s.breaker, es)
    && s'.lastOpenMs == s.lastOpenMs + interval * n
    && s'.live == (n > 0)
    && (s'.live ==> s'.session.mode == Live)
    && s'.breaker == LayerAfter(kit, s.breaker, es)
  }

  /** An event that is not a bar adds no bar and no report. */
  lemma QuietEvent<A, F, G, C>(
      cat: Catalogue<A, F, G>, genomes: seq<G>, kit: BreakerKit<C>, last: int, interval: nat,
      s: SessionState<A>, breaker: Option<LayerState<C>>, es: seq<LiveEvent>)
    requires |s.positions| == |genomes| && (breaker.Some? ==> breaker.value.WellFormed())
    requires es != [] && !es[|es| - 1].BarDelivered?
    ensures var init, e := es[..|es| - 1], es[|es| - 1];
            var (s', outs) := Continuous(cat, genomes, last, interval, s, init);
            && Contiguous(last, interval, es) == Contiguous(last, interval, init)
            && Continuous(cat, genomes, last, interval, s, es) ==
                 (if e.ContextObserved? then s'.(context := Bootstrap.Observe(s'.context, e.channel, e.value)) else s', outs)
            && Reports(cat, genomes, kit, last, interval, s, breaker, es)
               == Reports(cat, genomes, kit, last, interval, s, breaker, init)
  {
    hide Evaluate, LayerAfter, Report, Bootstrap.Observe;
  }

  lemma OtherEventTracks<A, F, G, C>(
      cat: Catalogue<A, F, G>, genomes: seq<G>, kit: BreakerKit<C>, interval: nat, s: CutoverState<A, C>,
      es: seq<LiveEvent>, s': CutoverState<A, C>, outs: seq<EvalOutput>)
    requires |s.session.positions| == |genomes| && (s.breaker.Some? ==> s.breaker.value.WellFormed())
    requires |s'.session.positions| == |genomes| && (s'.breaker.Some? ==> s'.breaker.value.WellFormed())
    requires es != [] && !es[|es| - 1].BarDelivered?
    requires Tracks(cat, genomes, kit, interval, s, es[..|es| - 1], s', outs)
    ensures Tracks(cat, genomes, kit, interval, s, es, Step(cat, genomes, kit, interval, s', es[|es| - 1]).0, outs)
  {
    QuietEvent(cat, genomes, kit, s.lastOpenMs, interval, s.session, s.breaker, es);
    hide FeedBar, Evaluate, TickStep, Report, Bootstrap.Observe, Contiguous, Continuous, Reports;
    if es[|es| - 1].EquityTick? {
      var ticks := TicksOf(es[..|es| - 1]);
      assert TicksOf(es)[..|ticks|] == ticks;
    }
  }

  /** A delivered bar adds itself and one report of it, or nothing at all. */
  lemma BarAdds<A, F, G, C>(
      cat: Catalogue<A, F, G>, genomes: seq<G>, kit: BreakerKit<C>, last: int, interval: nat,
      s: SessionState<A>, breaker: Option<LayerState<C>>, es: seq<LiveEvent>)
    requires |s.positions| == |genomes| && (breaker.Some? ==> breaker.value.WellFormed())
    requires es != [] && es[|es| - 1].BarDelivered?
    ensures var init, bar := es[..|es| - 1], es[|es| - 1].bar;
            var bars, bars' := Contiguous(last, interval, init), Contiguous(last, interval, es);
            var reports := Reports(cat, genomes, kit, last, interval, s, breaker, init);
            var reports' := Reports(cat, genomes, kit, last, interval, s, breaker, es);
            if bar.openTime == last + interval * (|bars| + 1) then
              && bars' == bars + [bar] && |reports'| == |reports| + 1 && reports'[..|reports|] == reports
              && reports'[|reports|].timeMs == bar.openTime && reports'[|reports|].mode == Live
            else bars' == bars && reports' == reports
  {
    hide Evaluate, LayerAfter, Clamped;
  }

  lemma BarTracks<A, F, G, C>(
      cat: Catalogue<A, F, G>, genomes: seq<G>, kit: BreakerKit<C>, interval: nat, s: CutoverState<A, C>,
      es: seq<LiveEvent>, s': CutoverState<A, C>, outs: seq<EvalOutput>)
    requires |s.session.positions| == |genomes| && (s.breaker.Some? ==> s.breaker.value.WellFormed())
    requires |s'.session.positions| == |genomes| && (s'.breaker.Some? ==> s'.breaker.value.WellFormed())
    requires interval > 0 && es != [] && es[|es| - 1].BarDelivered?
    requires Tracks(cat, genomes, kit, interval, s, es[..|es| - 1], s', outs)
    ensures var (s'', out) := Step(cat, genomes, kit, interval, s', es[|es| - 1]);
            Tracks(cat, genomes, kit, interval, s, es, s'', if out.Some? then outs + [out.value] else outs)
  {
    var init, bar := es[..|es| - 1], es[|es| - 1].bar;
    var n := |Contiguous(s.lastOpenMs, interval, init)|;
    var next := s.lastOpenMs + interval * (n + 1);
    assert interval * (n + 1) == interval * n + interval;
    assert TicksOf(es) == TicksOf(init);
    if bar.openTime == next {
      var session := s'.session.(mode := Live);
      assert s'.live ==> session == s'.session;
      var (session', out) := Evaluate(cat, genomes, session, bar);
      assert Continuous(cat, genomes, s.lastOpenMs, interval, s.session, es).0 == session';
      assert Contiguous(s.lastOpenMs, interval, es) == Contiguous(s.lastOpenMs, interval, init) + [bar];
      assert Reports(cat, genomes, kit, s.lastOpenMs, interval, s.session, s.breaker, es)
          == outs + [Report(s'.breaker, out)];
    } else {
      assert Contiguous(s.lastOpenMs, interval, es) == Contiguous(s.lastOpenMs, interval, init);
    }
  }

  /** The handoff: for any delivery of live events, the cutover's session is the continuous session, its
      reports are that session's outputs clamped by the breaker in force, the boundary is the last
      contiguous open time, and it is live iff some contiguous bar arrived. */
  lemma {:induction false} HandoffIsContinuous<A, F, G, C>(
      cat: Catalogue<A, F, G>, genomes: seq<G>, kit: BreakerKit<C>, interval: nat, s: CutoverState<A, C>, es: seq<LiveEvent>)
    requires |s.session.positions| == |genomes| && (s.breaker.Some? ==> s.breaker.value.WellFormed())
    requires interval > 0 && !s.live
    ensures var (s', outs) := Run(cat, genomes, kit, interval, s, es);
            Tracks(cat, genomes, kit, interval, s, es, s', outs)
  {
    if es != [] {
      HandoffIsContinuous(cat, genomes, kit, interval, s, es[..|es| - 1]);
      var (s', outs) := Run(cat, genomes, kit, interval, s, es[..|es| - 1]);
      if es[|es| - 1].BarDelivered? {
        BarTracks(cat, genomes, kit, interval, s, es, s', outs);
      } else {
        OtherEventTracks(cat, genomes, kit, interval, s, es, s', outs);
      }
    }
  }

  /** The evaluated bars open at `last + interval`, `last + 2 * interval`, ... — none skipped, none
      repeated — and each report carries its bar's open time. */
  lemma {:induction false} EvaluatedBarsTile<A, F, G, C>(
      cat: Catalogue<A, F, G>, genomes: seq<G>, kit: BreakerKit<C>, last: int, interval: nat,
      s: SessionState<A>, breaker: Option<LayerState<C>>, es: seq<LiveEvent>)
    requires |s.positions| == |genomes| && (breaker.Some? ==> breaker.value.WellFormed())
    ensures var bars := Contiguous(last, interval, es);
            var outs := Reports(cat, genomes, kit, last, interval, s, breaker, es);
            && |outs| == |bars|
            && forall k | 0 <= k < |bars| ::
                 bars[k].openTime == last + interval * (k + 1) && outs[k].timeMs == bars[k].openTime && outs[k].mode == Live
  {
    if es != [] {
      EvaluatedBarsTile(cat, genomes, kit, last, interval, s, breaker, es[..|es| - 1]);
      if es[|es| - 1].BarDelivered? {
        BarAdds(cat, genomes, kit, last, interval, s, breaker, es);
      } else {
        QuietEvent(cat, genomes, kit, last, interval, s, breaker, es);
      }
      hide Contiguous, Continuous, Reports;
    }
  }

  /** No delivered bar that would extend the series is left out: whatever is delivered at the next
      open time is evaluated. */
  lemma NextBarIsTaken(last: int, interval: nat, es: seq<LiveEvent>, bar: Bar)
    requires bar.openTime == last + interval * (|Contiguous(last, interval, es)| + 1)
    ensures Contiguous(last, interval, es + [BarDelivered(bar)]) == Contiguous(last, interval, es) + [bar]
  {
    assert (es + [BarDelivered(bar)])[..|es|] == es;
  }

  /** The same session with the phase label erased: a replay that simply went on. */
  function Unflipped<A, F, G>(
      cat: Catalogue<A, F, G>, genomes: seq<G>, s: SessionState<A>, feed: seq<LiveEvent>)
    : (r: (SessionState<A>, seq<EvalOutput>))
    requires |s.positions| == |genomes|
    ensures |r.0.positions| == |genomes|
  {
    if feed == [] then (s, [])
    else
      var (s', outs) := Unflipped(cat, genomes, s, feed[..|feed| - 1]);
      match feed[|feed| - 1]
      case BarDelivered(bar) =>
        var (s'', out) := Evaluate(cat, genomes, s', bar);
        (s'', outs + [out])
      case ContextObserved(c, v) => (s'.(context := Bootstrap.Observe(s'.context, c, v)), outs)
      case EquityTick(_) => (s', outs)
  }

  /** The delivery with every bar that does not continue the series removed. */
  function Cleaned(last: int, interval: nat, es: seq<LiveEvent>): seq<LiveEvent> {
    if es == [] then []
    else
      var e := es[|es| - 1];
      var clean := Cleaned(last, interval, es[..|es| - 1]);
      if e.BarDelivered? && e.bar.openTime != last + interval * (|Contiguous(last, interval, es[..|es| - 1])| + 1)
      then clean else clean + [e]
  }

  predicate SameDecisions(a: seq<EvalOutput>, b: seq<EvalOutput>) {
    && |a| == |b|
    && forall k | 0 <= k < |a| :: a[k].decisions == b[k].decisions && a[k].timeMs == b[k].timeMs
  }

  /** Going live changes nothing but the label: the continuous session decides exactly as the replay
      session would if it were never flipped and were fed the cleaned delivery. */
  lemma {:induction false} ModeIsOnlyALabel<A, F, G>(
      cat: Catalogue<A, F, G>, genomes: seq<G>, last: int, interval: nat, s: SessionState<A>, es: seq<LiveEvent>)
    requires |s.positions| == |genomes|
    ensures var (live, outs) := Continuous(cat, genomes, last, interval, s, es);
            var (replay, outs') := Unflipped(cat, genomes, s, Cleaned(last, interval, es));
            SameDecisions(outs, outs') && live.(mode := s.mode) == replay && replay.mode == s.mode
  {
    if es != [] {
      var init, e := es[..|es| - 1], es[|es| - 1];
      ModeIsOnlyALabel(cat, genomes, last, interval, s, init);
      var clean := Cleaned(last, interval, init);
      assert (clean + [e])[..|clean|] == clean;
    }
  }

  function AsEvents(tl: seq<Bootstrap.Entry>): (r: seq<LiveEvent>)
    ensures |r| == |tl|
  {
    seq(|tl|, i requires 0 <= i < |tl| =>
      match tl[i].event
      case BarEvent(bar) => BarDelivered(bar)
      case Reading(c, v) => ContextObserved(c, v))
  }

  lemma {:induction false} ReplayIsUnflipped<A, F, G>(
      cat: Catalogue<A, F, G>, genomes: seq<G>, tl: seq<Bootstrap.Entry>)
    ensures var r := Bootstrap.Push(cat, genomes, tl);
            (r.session, r.outs) == Unflipped(cat, genomes, FreshState(cat, genomes), AsEvents(tl))
  {
    if tl != [] {
      ReplayIsUnflipped(cat, genomes, tl[..|tl| - 1]);
      assert AsEvents(tl)[..|tl| - 1] == AsEvents(tl[..|tl| - 1]);
    }
  }

  lemma {:induction false} UnflippedConcat<A, F, G>(
      cat: Catalogue<A, F, G>, genomes: seq<G>, s: SessionState<A>, a: seq<LiveEvent>, b: seq<LiveEvent>)
    requires |s.positions| == |genomes|
    ensures var (s', outs) := Unflipped(cat, genomes, s, a);
            var (s'', outs') := Unflipped(cat, genomes, s', b);
            Unflipped(cat, genomes, s, a + b) == (s'', outs + outs')
  {
    var (s', outs) := Unflipped(cat, genomes, s, a);
    if b == [] {
      assert a + b == a && outs + [] == outs;
    } else {
      UnflippedConcat(cat, genomes, s, a, b[..|b| - 1]);
      assert (a + b)[..|a + b| - 1] == a + b[..|b| - 1];
      var (s'', outs') := Unflipped(cat, genomes, s', b[..|b| - 1]);
      if b[|b| - 1].BarDelivered? {
        var out := Evaluate(cat, genomes, s'', b[|b| - 1].bar).1;
        assert (outs + outs') + [out] == outs + (outs' + [out]);
      }
    }
  }

  /** Cold start to live is one run: a session fed the merged history and then the cleaned live
      delivery, with no handoff at all, decides what replay followed by the cutover decides. */
  lemma OneContinuousRun<A, F, G>(
      cat: Catalogue<A, F, G>, genomes: seq<G>, tl: seq<Bootstrap.Entry>, last: int, interval: nat, es: seq<LiveEvent>)
    ensures var replay := Bootstrap.Push(cat, genomes, tl);
            var live := Continuous(cat, genomes, last, interval, replay.session, es).1;
            var whole := Unflipped(cat, genomes, FreshState(cat, genomes), AsEvents(tl) + Cleaned(last, interval, es)).1;
            SameDecisions(replay.outs + live, whole)
  {
    var replay := Bootstrap.Push(cat, genomes, tl);
    ReplayIsUnflipped(cat, genomes, tl);
    UnflippedConcat(cat, genomes, FreshState(cat, genomes), AsEvents(tl), Cleaned(last, interval, es));
    ModeIsOnlyALabel(cat, genomes, last, interval, replay.session, es);
  }

  /** The bars of a feed, each with the last reading of every channel before it. */
  function FeedSamples(context: Context, feed: seq<LiveEvent>): (r: (Context, seq<Sample>)) {
    if feed == [] then (context, [])
    else
      var (c, samples) := FeedSamples(context, feed[..|feed| - 1]);
      match feed[|feed| - 1]
      case BarDelivered(bar) => (c, samples + [Sample(bar, c)])
      case ContextObserved(channel, v) => (Bootstrap.Observe(c, channel, v), samples)
      case EquityTick(_) => (c, samples)
  }

  /** The uninterrupted session, genome by genome: on every bar each genome decides the row of the samples so
      far against the position its own earlier decisions left. */
  lemma {:induction false} UnflippedDecides<A, F, G>(cat: Catalogue<A, F, G>, genomes: seq<G>, feed: seq<LiveEvent>)
    ensures var (s, outs) := Unflipped(cat, genomes, FreshState(cat, genomes), feed);
            var (context, samples) := FeedSamples(NO_CONTEXT, feed);
            Decided(cat, genomes, samples, s, outs) && s.context == context
  {
    if feed != [] {
      var init, e := feed[..|feed| - 1], feed[|feed| - 1];
      UnflippedDecides(cat, genomes, init);
      var (s, outs) := Unflipped(cat, genomes, FreshState(cat, genomes), init);
      var (context, samples) := FeedSamples(NO_CONTEXT, init);
      hide Decided, Evaluate;
      match e {
        case BarDelivered(bar) => DecidedOneMore(cat, genomes, samples, s, outs, bar);
        case ContextObserved(c, v) =>
          Bootstrap.DecidedInContext(cat, genomes, samples, s, outs, Bootstrap.Observe(context, c, v));
        case EquityTick(_) =>
      }
    }
  }

  // ----- From a window of history and a live delivery to the clamped reports -----

  function AsLive(outs: seq<EvalOutput>): (r: seq<EvalOutput>)
    ensures |r| == |outs|
  {
    seq(|outs|, (i: nat) requires i < |outs| => outs[i].(mode := Live))
  }

  /** The outputs of the contiguous bars, each as the breaker in force when its bar arrived lets it through. */
  function Behind<C>(
      kit: BreakerKit<C>, breaker: Option<LayerState<C>>, last: int, interval: nat, es: seq<LiveEvent>, outs: seq<EvalOutput>)
    : (r: seq<EvalOutput>)
    requires breaker.Some? ==> breaker.value.WellFormed()
    requires |outs| == |Contiguous(last, interval, es)|
    ensures |r| == |outs|
  {
    if es == [] then []
    else
      var init := es[..|es| - 1];
      if |Contiguous(last, interval, init)| < |Contiguous(last, interval, es)| then
        Behind(kit, breaker, last, interval, init, outs[..|outs| - 1])
          + [Report(LayerAfter(kit, breaker, init), outs[|outs| - 1])]
      else Behind(kit, breaker, last, interval, init, outs)
  }

  lemma {:induction false} ReportsAreBehind<A, F, G, C>(
      cat: Catalogue<A, F, G>, genomes: seq<G>, kit: BreakerKit<C>, last: int, interval: nat,
      s: SessionState<A>, breaker: Option<LayerState<C>>, es: seq<LiveEvent>)
    requires |s.positions| == |genomes| && (breaker.Some? ==> breaker.value.WellFormed())
    ensures Reports(cat, genomes, kit, last, interval, s, breaker, es)
            == Behind(kit, breaker, last, interval, es, Continuous(cat, genomes, last, interval, s, es).1)
  {
    hide Evaluate, LayerAfter, Report;
    if es != [] {
      var init := es[..|es| - 1];
      ReportsAreBehind(cat, genomes, kit, last, interval, s, breaker, init);
      var before := Continuous(cat, genomes, last, interval, s, init).1;
      var after := Continuous(cat, genomes, last, interval, s, es).1;
      assert after[..|before|] == before;
    }
  }

  /** The reports, one by one, over every run. Report `k` belongs to the delivery `j` of the bar that opens
      `k + 1` intervals after the boundary. Without a breaker it is what the continuous session decided on
      that bar. With one, each strategy gated by the ticks delivered before `j` exits, and every other does
      what the session decided. */
  lemma {:induction false} ReportsRespectTheGates<A, F, G, C>(
      cat: Catalogue<A, F, G>, genomes: seq<G>, kit: BreakerKit<C>, interval: nat, s: CutoverState<A, C>,
      es: seq<LiveEvent>, k: nat) returns (j: nat)
    requires |s.session.positions| == |genomes| && (s.breaker.Some? ==> s.breaker.value.WellFormed())
    requires interval > 0 && !s.live
    requires k < |Run(cat, genomes, kit, interval, s, es).1|
    ensures j < |es| && es[j].BarDelivered? && es[j].bar.openTime == s.lastOpenMs + interval * (k + 1)
    ensures var outs := Continuous(cat, genomes, s.lastOpenMs, interval, s.session, es).1;
            var report := Run(cat, genomes, kit, interval, s, es).1[k];
            && |Run(cat, genomes, kit, interval, s, es).1| == |outs|
            && report.timeMs == outs[k].timeMs == es[j].bar.openTime && |report.decisions| == |outs[k].decisions|
            && (s.breaker.None? ==> report.decisions == outs[k].decisions)
            && (s.breaker.Some? ==>
                  var layer := TickRun(kit, s.breaker.value, TicksOf(es[..j]));
                  forall d | 0 <= d < |report.decisions| ::
                    && report.decisions[d].index == outs[k].decisions[d].index
                    && (layer.IsGated(report.decisions[d].index) ==> report.decisions[d].decision == Exit)
                    && (!layer.IsGated(report.decisions[d].index) ==> report.decisions[d] == outs[k].decisions[d]))
  {
    HandoffIsContinuous(cat, genomes, kit, interval, s, es);
    j := ReportAt(cat, genomes, kit, s.lastOpenMs, interval, s.session, s.breaker, es, k);
  }

  lemma {:induction false} ReportAt<A, F, G, C>(
      cat: Catalogue<A, F, G>, genomes: seq<G>, kit: BreakerKit<C>, last: int, interval: nat,
      s: SessionState<A>, breaker: Option<LayerState<C>>, es: seq<LiveEvent>, k: nat) returns (j: nat)
    requires |s.positions| == |genomes| && (breaker.Some? ==> breaker.value.WellFormed())
    requires k < |Reports(cat, genomes, kit, last, interval, s, breaker, es)|
    ensures j < |es| && es[j].BarDelivered? && es[j].bar.openTime == last + interval * (k + 1)
    ensures var outs := Continuous(cat, genomes, last, interval, s, es).1;
            && Reports(cat, genomes, kit, last, interval, s, breaker, es)[k] == Report(LayerAfter(kit, breaker, es[..j]), outs[k])
            && outs[k].timeMs == es[j].bar.openTime
  {
    hide Evaluate, LayerAfter, Report;
    var init := es[..|es| - 1];
    var before := Continuous(cat, genomes, last, interval, s, init).1;
    if k < |before| {
      j := ReportAt(cat, genomes, kit, last, interval, s, breaker, init, k);
      assert es[..j] == init[..j];
    } else {
      j := |es| - 1;
    }
  }

  lemma {:induction false} ContinuousIsLive<A, F, G>(
      cat: Catalogue<A, F, G>, genomes: seq<G>, last: int, interval: nat, s: SessionState<A>, es: seq<LiveEvent>)
    requires |s.positions| == |genomes|
    ensures forall k | 0 <= k < |Continuous(cat, genomes, last, interval, s, es).1| ::
              Continuous(cat, genomes, last, interval, s, es).1[k].mode == Live
  {
    if es != [] {
      ContinuousIsLive(cat, genomes, last, interval, s, es[..|es| - 1]);
    }
  }

  lemma {:induction false} PullTimes<A, F, G>(
      cat: Catalogue<A, F, G>, genomes: seq<G>, w: Bootstrap.HistoricalWindow, bars: seq<Bar>, k: nat)
    requires k < |bars|
    ensures Bootstrap.Pull(cat, genomes, w, bars).1[k].timeMs == bars[k].openTime
  {
    if k < |bars| - 1 {
      PullTimes(cat, genomes, w, bars[..|bars| - 1], k);
    }
  }

  /** What a cutover anchored on a replay's last bar starts from. */
  function Anchored<A, F, G, C>(
      cat: Catalogue<A, F, G>, genomes: seq<G>, w: Bootstrap.HistoricalWindow, breaker: Option<LayerState<C>>)
    : (s: CutoverState<A, C>)
    requires Stitched(w.bars) != []
    ensures |s.session.positions| == |genomes| && s.breaker == breaker && !s.live
  {
    var (session, decisions) := Bootstrap.Pull(cat, genomes, w, Stitched(w.bars));
    var warmed := session.(context := Bootstrap.ContextAsOf(w, Bootstrap.EndOf(w)));
    CutoverState(warmed, decisions[|decisions| - 1].timeMs, false, breaker)
  }

  lemma LiveHalf<A, F, G, C>(
      cat: Catalogue<A, F, G>, genomes: seq<G>, kit: BreakerKit<C>, interval: nat, s: CutoverState<A, C>, es: seq<LiveEvent>)
    requires |s.session.positions| == |genomes| && (s.breaker.Some? ==> s.breaker.value.WellFormed())
    requires interval > 0 && !s.live
    ensures var (end, reports) := Run(cat, genomes, kit, interval, s, es);
            var (replayed, outs) := Unflipped(cat, genomes, s.session, Cleaned(s.lastOpenMs, interval, es));
            && |outs| == |Contiguous(s.lastOpenMs, interval, es)|
            && reports == Behind(kit, s.breaker, s.lastOpenMs, interval, es, AsLive(outs))
            && end.session.(mode := s.session.mode) == replayed
  {
    HandoffIsContinuous(cat, genomes, kit, interval, s, es);
    ReportsAreBehind(cat, genomes, kit, s.lastOpenMs, interval, s.session, s.breaker, es);
    ModeIsOnlyALabel(cat, genomes, s.lastOpenMs, interval, s.session, es);
    ContinuousIsLive(cat, genomes, s.lastOpenMs, interval, s.session, es);
    var live := Continuous(cat, genomes, s.lastOpenMs, interval, s.session, es).1;
    var outs := Unflipped(cat, genomes, s.session, Cleaned(s.lastOpenMs, interval, es)).1;
    assert AsLive(outs) == live;
  }

  /** Cold start to live, end to end. For every window of history and every live delivery, replay the window,
      anchor the cutover on it and deliver: one session that is fed the merged history and then the cleaned
      delivery, with no handoff, ends in the same state (but for the label); its first outputs are the per-bar
      lookups on the stitched bars, and the reports are its remaining outputs, labelled live, each behind the
      breaker in force when its bar arrived. */
  lemma ColdStartToLive<A, F, G, C>(
      cat: Catalogue<A, F, G>, genomes: seq<G>, kit: BreakerKit<C>, w: Bootstrap.HistoricalWindow,
      breaker: Option<LayerState<C>>, es: seq<LiveEvent>)
    requires Stitched(w.bars) != [] && (breaker.Some? ==> breaker.value.WellFormed())
    ensures var bars, interval := Stitched(w.bars), IntervalMs(w.base);
            var s := Anchored(cat, genomes, w, breaker);
            var (end, reports) := Run(cat, genomes, kit, interval, s, es);
            var feed := AsEvents(Bootstrap.Timeline(w, bars)) + Cleaned(s.lastOpenMs, interval, es);
            var (whole, outs) := Unflipped(cat, genomes, FreshState(cat, genomes), feed);
            && s.lastOpenMs == bars[|bars| - 1].openTime
            && |outs| == |bars| + |Contiguous(s.lastOpenMs, interval, es)|
            && outs[..|bars|] == Bootstrap.Pull(cat, genomes, w, bars).1
            && reports == Behind(kit, breaker, s.lastOpenMs, interval, es, AsLive(outs[|bars|..]))
            && end.session.(mode := Replay) == whole
            && Decided(cat, genomes, FeedSamples(NO_CONTEXT, feed).1, whole, outs)
  {
    UnflippedDecides(cat, genomes,
      AsEvents(Bootstrap.Timeline(w, Stitched(w.bars)))
        + Cleaned(Anchored(cat, genomes, w, breaker).lastOpenMs, IntervalMs(w.base), es));
    hide Unflipped, Continuous, Run, Behind, Cleaned, Contiguous, FeedSamples, Decided;
    var bars, interval := Stitched(w.bars), IntervalMs(w.base);
    var tl := Bootstrap.Timeline(w, bars);
    var s := Anchored(cat, genomes, w, breaker);
    Bootstrap.EndOfEnds(w);
    Bootstrap.PushEqualsPull(cat, genomes, w, Bootstrap.EndOf(w));
    PullTimes(cat, genomes, w, bars, |bars| - 1);
    ReplayIsUnflipped(cat, genomes, tl);
    UnflippedConcat(cat, genomes, FreshState(cat, genomes), AsEvents(tl), Cleaned(s.lastOpenMs, interval, es));
    LiveHalf(cat, genomes, kit, interval, s, es);
    PullIsReplay(cat, genomes, w, bars);
  }

  lemma {:induction false} PullIsReplay<A, F, G>(
      cat: Catalogue<A, F, G>, genomes: seq<G>, w: Bootstrap.HistoricalWindow, bars: seq<Bar>)
    ensures Bootstrap.Pull(cat, genomes, w, bars).0.mode == Replay
  {
    if bars != [] {
      PullIsReplay(cat, genomes, w, bars[..|bars| - 1]);
    }
  }
}
