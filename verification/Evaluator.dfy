/** One evaluator session over a sealed vintage, shared by replay and live. The feature catalogue and
    the genomes' rules are parameters (`Catalogue`); the factor join and the session are modelled. */
module Evaluator {
  import opened Domain

  /** A base bar with the scalar context in force when it is evaluated. */
  datatype Sample = Sample(bar: Bar, context: Context)

  datatype Context = Context(funding: Option<real>, openInterest: Option<real>, premium: Option<real>)

  const NO_CONTEXT := Context(None, None, None)

  datatype PositionState = PositionState(dir: Option<Direction>, barsHeld: nat)

  const FLAT := PositionState(None, 0)

  datatype Decision = Hold | Enter(dir: Direction) | Exit

  function Advance(p: PositionState, d: Decision): PositionState {
    match d
    case Enter(dir) => PositionState(Some(dir), 0)
    case Exit => FLAT
    case Hold => if p.dir.Some? then p.(barsHeld := p.barsHeld + 1) else FLAT
  }

  datatype Mode = Replay | Live

  datatype ChromosomeDecision = ChromosomeDecision(index: nat, decision: Decision)

  datatype EvalOutput = EvalOutput(timeMs: int, mode: Mode, decisions: seq<ChromosomeDecision>)

  /** The parts of the catalogue and the genomes the session only calls. */
  datatype Catalogue<!A, !F, !G> = Catalogue(
    coldStart: A,
    push: (A, Sample) -> (A, F),
    decide: (G, F, PositionState) -> Decision)

  /** The value of a session between two calls. */
  datatype SessionState<A> = SessionState(
    assembler: A, context: Context, positions: seq<PositionState>, mode: Mode)

  function Decide<A, F, G>(cat: Catalogue<A, F, G>, genomes: seq<G>, row: F, positions: seq<PositionState>)
    : (r: seq<ChromosomeDecision>)
    requires |genomes| == |positions|
    ensures |r| == |genomes|
  {
    seq(|genomes|, i requires 0 <= i < |genomes| =>
      ChromosomeDecision(i, cat.decide(genomes[i], row, positions[i])))
  }

  function AdvanceAll(positions: seq<PositionState>, decisions: seq<ChromosomeDecision>): (r: seq<PositionState>)
    requires |positions| == |decisions|
    ensures |r| == |positions|
  {
    seq(|positions|, i requires 0 <= i < |positions| => Advance(positions[i], decisions[i].decision))
  }

  /** What evaluating one closed base bar does to a session, and what it reports. */
  function Evaluate<A, F, G>(cat: Catalogue<A, F, G>, genomes: seq<G>, s: SessionState<A>, bar: Bar)
    : (r: (SessionState<A>, EvalOutput))
    requires |genomes| == |s.positions|
    ensures |r.0.positions| == |genomes|
    ensures r.0.context == s.context && r.0.mode == s.mode
    ensures r.1.timeMs == bar.openTime && r.1.mode == s.mode
  {
    var (assembler, row) := cat.push(s.assembler, Sample(bar, s.context));
    var decisions := Decide(cat, genomes, row, s.positions);
    (SessionState(assembler, s.context, AdvanceAll(s.positions, decisions), s.mode),
     EvalOutput(bar.openTime, s.mode, decisions))
  }

  function FreshState<A, F, G>(cat: Catalogue<A, F, G>, genomes: seq<G>): (s: SessionState<A>)
    ensures |s.positions| == |genomes|
  {
    SessionState(cat.coldStart, NO_CONTEXT, seq(|genomes|, _ => FLAT), Replay)
  }

  // ----- What a session decides, genome by genome and bar by bar -----

  /** The position a run of decisions leaves, from flat. */
  function PositionAfter(ds: seq<Decision>): PositionState {
    if ds == [] then FLAT else Advance(PositionAfter(ds[..|ds| - 1]), ds[|ds| - 1])
  }

  /** Decision `e` entered, and everything since only held. */
  ghost predicate HeldSince(ds: seq<Decision>, e: nat) {
    e < |ds| && ds[e].Enter? && forall k | e < k < |ds| :: ds[k].Hold?
  }

  /** A position is held exactly when some entry was followed only by holds; it is then that entry's
      direction, held for as many bars as there were holds. Otherwise it is flat. */
  lemma {:induction false} PositionMeaning(ds: seq<Decision>)
    ensures forall e: nat | HeldSince(ds, e) :: PositionAfter(ds) == PositionState(Some(ds[e].dir), |ds| - 1 - e)
    ensures (forall e: nat :: !HeldSince(ds, e)) ==> PositionAfter(ds) == PositionState(None, 0)
  {
    if ds != [] {
      var init, last := ds[..|ds| - 1], ds[|ds| - 1];
      PositionMeaning(init);
      forall e: nat | e < |init| ensures HeldSince(ds, e) <==> HeldSince(init, e) && last.Hold? {
        assert forall k | e < k < |init| :: ds[k] == init[k];
        assert last == ds[|ds| - 1];
      }
      assert HeldSince(ds, |ds| - 1) <==> last.Enter?;
      assert last.Hold? ==> forall e: nat :: HeldSince(init, e) ==> HeldSince(ds, e);
    }
  }

  /** The assembler after a run of samples, and the rows it gave. */
  function Rows<A, F, G>(cat: Catalogue<A, F, G>, samples: seq<Sample>): (r: (A, seq<F>))
    ensures |r.1| == |samples|
  {
    if samples == [] then (cat.coldStart, [])
    else
      var (before, rows) := Rows(cat, samples[..|samples| - 1]);
      var (after, row) := cat.push(before, samples[|samples| - 1]);
      (after, rows + [row])
  }

  /** What one genome decides on a run of rows: each row against the position its own earlier decisions left. */
  function Solo<A, F, G>(cat: Catalogue<A, F, G>, genome: G, rows: seq<F>): (r: seq<Decision>)
    ensures |r| == |rows|
  {
    if rows == [] then []
    else
      var before := Solo(cat, genome, rows[..|rows| - 1]);
      before + [cat.decide(genome, rows[|rows| - 1], PositionAfter(before))]
  }

  /** A session and its trace are those of the samples: every genome decided each row against the position
      its own earlier decisions left, and holds the position all of them leave. */
  ghost predicate Decided<A, F, G>(
      cat: Catalogue<A, F, G>, genomes: seq<G>, samples: seq<Sample>, s: SessionState<A>, outs: seq<EvalOutput>)
  {
    var (assembler, rows) := Rows(cat, samples);
    && s.assembler == assembler && |s.positions| == |genomes| && |outs| == |samples|
    && (forall i | 0 <= i < |genomes| :: s.positions[i] == PositionAfter(Solo(cat, genomes[i], rows)))
    && (forall k | 0 <= k < |outs| :: outs[k].timeMs == samples[k].bar.openTime && |outs[k].decisions| == |genomes|)
    && forall k, i | 0 <= k < |outs| && 0 <= i < |genomes| ::
         outs[k].decisions[i] == ChromosomeDecision(i, Solo(cat, genomes[i], rows)[k])
  }

  lemma DecidedOneMore<A, F, G>(
      cat: Catalogue<A, F, G>, genomes: seq<G>, samples: seq<Sample>, s: SessionState<A>, outs: seq<EvalOutput>, bar: Bar)
    requires Decided(cat, genomes, samples, s, outs)
    ensures var (s', out) := Evaluate(cat, genomes, s, bar);
            Decided(cat, genomes, samples + [Sample(bar, s.context)], s', outs + [out])
  {
    var (s', out) := Evaluate(cat, genomes, s, bar);
    var more := samples + [Sample(bar, s.context)];
    assert more[..|samples|] == samples;
    var rows, rows' := Rows(cat, samples).1, Rows(cat, more).1;
    assert rows'[..|rows|] == rows;
    forall i | 0 <= i < |genomes|
      ensures s'.positions[i] == PositionAfter(Solo(cat, genomes[i], rows'))
      ensures forall k | 0 <= k < |rows| :: Solo(cat, genomes[i], rows')[k] == Solo(cat, genomes[i], rows)[k]
      ensures out.decisions[i] == ChromosomeDecision(i, Solo(cat, genomes[i], rows')[|rows|])
    {
      var solo, solo' := Solo(cat, genomes[i], rows), Solo(cat, genomes[i], rows');
      assert solo'[..|rows|] == solo;
    }
  }

  /** Joins the last-known scalar context onto each base bar and drives the assembler. */
  class LiveFactorJoin<A, F> {
    const push: (A, Sample) -> (A, F)
    var assembler: A
    var funding: Option<real>
    var openInterest: Option<real>
    var premium: Option<real>

    constructor (start: A, push: (A, Sample) -> (A, F))
      ensures this.push == push && assembler == start && Snapshot() == NO_CONTEXT
    {
      this.push, assembler := push, start;
      funding, openInterest, premium := None, None, None;
    }

    function Snapshot(): Context
      reads this
    {
      Context(funding, openInterest, premium)
    }

    method ObserveFunding(value: real)
      modifies this
      ensures Snapshot() == old(Snapshot()).(funding := Some(value)) && assembler == old(assembler)
    {
      funding := Some(value);
    }

    method ObserveOpenInterest(value: real)
      modifies this
      ensures Snapshot() == old(Snapshot()).(openInterest := Some(value)) && assembler == old(assembler)
    {
      openInterest := Some(value);
    }

    method ObservePremium(value: real)
      modifies this
      ensures Snapshot() == old(Snapshot()).(premium := Some(value)) && assembler == old(assembler)
    {
      premium := Some(value);
    }

    method OnBar(bar: Bar) returns (row: F)
      modifies this
      ensures (assembler, row) == old(push(assembler, Sample(bar, Snapshot())))
      ensures Snapshot() == old(Snapshot())
    {
      var next := push(assembler, Sample(bar, Context(funding, openInterest, premium)));
      assembler, row := next.0, next.1;
    }
  }

  class EvaluatorSession<A, F, G> {
    const cat: Catalogue<A, F, G>
    const genomes: seq<G>
    const join: LiveFactorJoin<A, F>
    var positions: seq<PositionState>
    var mode: Mode

    ghost predicate Valid()
      reads this
    {
      |positions| == |genomes| && join.push == cat.push
    }

    ghost function State(): SessionState<A>
      reads this, join
    {
      SessionState(join.assembler, join.Snapshot(), positions, mode)
    }

    constructor (cat: Catalogue<A, F, G>, genomes: seq<G>)
      ensures Valid() && fresh(join)
      ensures this.cat == cat && this.genomes == genomes
      ensures State() == FreshState(cat, genomes)
      ensures join.assembler == cat.coldStart && join.Snapshot() == NO_CONTEXT && mode == Replay
      ensures forall i | 0 <= i < |genomes| :: positions[i] == FLAT
    {
      this.cat, this.genomes := cat, genomes;
      join := new LiveFactorJoin(cat.coldStart, cat.push);
      positions := seq(|genomes|, _ => FLAT);
      mode := Replay;
    }

    /** Flips the phase label and nothing else. */
    method GoLive()
      requires Valid()
      modifies this
      ensures Valid() && State() == old(State()).(mode := Live)
    {
      mode := Live;
    }

    method ObserveFunding(value: real)
      requires Valid()
      modifies join
      ensures Valid()
      ensures State() == old(State()).(context := old(State()).context.(funding := Some(value)))
    {
      join.ObserveFunding(value);
    }

    method ObserveOpenInterest(value: real)
      requires Valid()
      modifies join
      ensures Valid()
      ensures State() == old(State()).(context := old(State()).context.(openInterest := Some(value)))
    {
      join.ObserveOpenInterest(value);
    }

    method ObservePremium(value: real)
      requires Valid()
      modifies join
      ensures Valid()
      ensures State() == old(State()).(context := old(State()).context.(premium := Some(value)))
    {
      join.ObservePremium(value);
    }

    /** Decides chromosome by chromosome against the running positions. */
    method OnBar(bar: Bar) returns (out: EvalOutput)
      requires Valid()
      modifies this, join
      ensures Valid()
      ensures (State(), out) == Evaluate(cat, genomes, old(State()), bar)
      ensures var (assembler, row) := old(cat.push(join.assembler, Sample(bar, join.Snapshot())));
              && join.assembler == assembler && join.Snapshot() == old(join.Snapshot()) && mode == old(mode)
              && out.timeMs == bar.openTime && out.mode == mode && |out.decisions| == |genomes|
              && forall i | 0 <= i < |genomes| ::
                   && out.decisions[i] == ChromosomeDecision(i, cat.decide(genomes[i], row, old(positions)[i]))
                   && positions[i] == Advance(old(positions)[i], out.decisions[i].decision)
    {
      ghost var before := positions;
      var row := join.OnBar(bar);
      var decisions: seq<ChromosomeDecision> := [];
      for i := 0 to |genomes|
        invariant |positions| == |before| && |decisions| == i
        invariant forall k | 0 <= k < i ::
                    && decisions[k] == ChromosomeDecision(k, cat.decide(genomes[k], row, before[k]))
                    && positions[k] == Advance(before[k], decisions[k].decision)
        invariant forall k | i <= k < |genomes| :: positions[k] == before[k]
        modifies this`positions
      {
        var decision := cat.decide(genomes[i], row, positions[i]);
        positions := positions[i := Advance(positions[i], decision)];
        decisions := decisions + [ChromosomeDecision(i, decision)];
      }
      assert decisions == Decide(cat, genomes, row, before);
      assert positions == AdvanceAll(before, decisions);
      out := EvalOutput(bar.openTime, mode, decisions);
    }
  }
}
