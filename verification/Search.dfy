/** The differential-evolution loop over ensemble masks, with greedy replacement slot by slot. */
module Search {
  import opened Draws
  import opened Folds
  import opened Masks
  import opened Regime
  import opened Scores
  import opened Scoring
  import opened Series

  /** One run's generator stream, crossover rate and score. */
  datatype Engine = Engine(stream: Stream, cr: real, score: seq<nat> -> Score)

  /** The population, the stored scores and the generator's position. */
  datatype Population = Population(masks: seq<Mask>, scores: seq<Score>, at: nat)

  ghost predicate Evolvable(e: Engine, p: Population) {
    |p.masks| == |p.scores| >= 4 && NeverStarves(e.stream, |p.masks|)
  }

  /** What every step keeps: masks of the pool's length with a member, each stored with its own score. */
  ghost predicate Sound(e: Engine, p: Population, poolSize: nat) {
    && |p.masks| == |p.scores|
    && forall i | 0 <= i < |p.masks| ::
         |p.masks[i]| == poolSize && Count(p.masks[i]) > 0 && p.scores[i] == e.score(Members(p.masks[i]))
  }

  // ----- The steps -----

  /** The challenger of slot `i`: three donors, the mutant, the crossover with the slot, the repair. */
  ghost function Trial(e: Engine, p: Population, i: nat): Drawn<Mask>
    requires Evolvable(e, p) && i < |p.masks|
  {
    var np := |p.masks|;
    var end := PicksEnd(e.stream, np, i, p.at);
    PicksAreDonors(e.stream, np, i, p.at, end);
    var donors := Picks(e.stream, np, i, p.at, end);
    var mutant := Mutant(p.masks[donors[0]], p.masks[donors[1]], p.masks[donors[2]]);
    var crossed := CrossedFrom(e.stream, p.masks[i], mutant, e.cr, end);
    Repaired(e.stream, crossed.value, crossed.at)
  }

  /** The slot takes its challenger when that scores at least as well. */
  function Challenged(e: Engine, p: Population, i: nat, trial: Drawn<Mask>): (q: Population)
    requires i < |p.masks| == |p.scores|
    ensures |q.masks| == |p.masks| && |q.scores| == |p.scores|
  {
    var ts := e.score(Members(trial.value));
    if p.scores[i].AtMost(ts) then Population(p.masks[i := trial.value], p.scores[i := ts], trial.at)
    else p.(at := trial.at)
  }

  /** The population after the first `n` slots of a generation. */
  ghost function Sweep(e: Engine, p: Population, n: nat): (q: Population)
    requires Evolvable(e, p) && n <= |p.masks|
    ensures Evolvable(e, q) && |q.masks| == |q.scores| == |p.masks|
  {
    if n == 0 then p
    else
      var before := Sweep(e, p, n - 1);
      Challenged(e, before, n - 1, Trial(e, before, n - 1))
  }

  ghost function After(e: Engine, p: Population, generations: nat): (q: Population)
    requires Evolvable(e, p)
    ensures Evolvable(e, q) && |q.masks| == |q.scores| == |p.masks|
  {
    if generations == 0 then p else Sweep(e, After(e, p, generations - 1), |p.masks|)
  }

  // ----- What the steps keep -----

  /** No slot's stored score falls. */
  ghost predicate NoSlotFalls(p: Population, q: Population) {
    && |p.scores| == |q.scores|
    && forall i | 0 <= i < |p.scores| :: p.scores[i].AtMost(q.scores[i])
  }

  lemma TrialHasAMember(e: Engine, p: Population, i: nat, poolSize: nat)
    requires Evolvable(e, p) && Sound(e, p, poolSize) && i < |p.masks| && poolSize > 0
    ensures |Trial(e, p, i).value| == poolSize && Count(Trial(e, p, i).value) > 0
  {
    hide Repaired, CrossedFrom, Count, Members;
    var np := |p.masks|;
    var end := PicksEnd(e.stream, np, i, p.at);
    PicksAreDonors(e.stream, np, i, p.at, end);
  }

  lemma StepKeeps(e: Engine, p: Population, i: nat, trial: Drawn<Mask>, poolSize: nat)
    requires Sound(e, p, poolSize) && i < |p.masks|
    requires |trial.value| == poolSize && Count(trial.value) > 0
    ensures Sound(e, Challenged(e, p, i, trial), poolSize) && NoSlotFalls(p, Challenged(e, p, i, trial))
    ensures e.score(Members(trial.value)).AtMost(Challenged(e, p, i, trial).scores[i])
  {
    hide Count, Members;
  }

  lemma {:induction false} SweepKeeps(e: Engine, p: Population, from: nat, n: nat, poolSize: nat)
    requires Evolvable(e, p) && Sound(e, p, poolSize) && from <= n <= |p.masks| && poolSize > 0
    ensures Sound(e, Sweep(e, p, n), poolSize) && NoSlotFalls(Sweep(e, p, from), Sweep(e, p, n))
    decreases n
  {
    hide Sound, Challenged, Trial, Evolvable;
    if n == 0 {
    } else {
      var before := Sweep(e, p, n - 1);
      SweepKeeps(e, p, if from < n then from else n - 1, n - 1, poolSize);
      assert Sweep(e, p, n) == Challenged(e, before, n - 1, Trial(e, before, n - 1));
      TrialHasAMember(e, before, n - 1, poolSize);
      StepKeeps(e, before, n - 1, Trial(e, before, n - 1), poolSize);
    }
  }

  lemma {:induction false} AfterKeeps(e: Engine, p: Population, from: nat, g: nat, poolSize: nat)
    requires Evolvable(e, p) && Sound(e, p, poolSize) && from <= g && poolSize > 0
    ensures Sound(e, After(e, p, g), poolSize) && NoSlotFalls(After(e, p, from), After(e, p, g))
    decreases g
  {
    hide Sound, Sweep, Evolvable;
    if g == 0 {
    } else {
      AfterKeeps(e, p, if from < g then from else g - 1, g - 1, poolSize);
      SweepFromStart(e, After(e, p, g - 1), |p.masks|, poolSize);
    }
  }

  lemma SweepFromStart(e: Engine, p: Population, n: nat, poolSize: nat)
    requires Evolvable(e, p) && Sound(e, p, poolSize) && n <= |p.masks| && poolSize > 0
    ensures Sound(e, Sweep(e, p, n), poolSize) && NoSlotFalls(p, Sweep(e, p, n))
  {
    SweepKeeps(e, p, 0, n, poolSize);
  }

  lemma BestNeverFalls(p: Population, q: Population)
    requires NoSlotFalls(p, q)
    ensures Highest(p.scores).AtMost(Highest(q.scores))
  {
  }

  lemma TrialIsBounded(e: Engine, p: Population, i: nat, poolSize: nat)
    requires Evolvable(e, p) && Sound(e, p, poolSize) && i < |p.masks| && poolSize > 0
    ensures var trial := Trial(e, Sweep(e, p, i), i);
            e.score(Members(trial.value)).AtMost(Highest(Sweep(e, p, |p.masks|).scores))
  {
    hide Sound, Trial, Evolvable;
    var before := Sweep(e, p, i);
    var trial := Trial(e, before, i);
    var swept := Sweep(e, p, |p.masks|);
    SweepKeeps(e, p, i, i, poolSize);
    TrialHasAMember(e, before, i, poolSize);
    StepKeeps(e, before, i, trial, poolSize);
    SweepKeeps(e, p, i + 1, |p.masks|, poolSize);
    hide Challenged;
    assert Sweep(e, p, i + 1) == Challenged(e, before, i, trial);
    hide Sweep;
    assert swept.scores[i].AtMost(Highest(swept.scores));
  }

  /** The best at the end is at least as good as every challenger ever tried, taken or not. */
  lemma BestOfEveryTrial(e: Engine, p: Population, poolSize: nat, g: nat, i: nat, generations: nat)
    requires Evolvable(e, p) && Sound(e, p, poolSize) && poolSize > 0
    requires g < generations && i < |p.masks|
    ensures var trial := Trial(e, Sweep(e, After(e, p, g), i), i);
            e.score(Members(trial.value)).AtMost(Highest(After(e, p, generations).scores))
  {
    hide Sound, Trial, Sweep, Evolvable;
    var start := After(e, p, g);
    AfterKeeps(e, p, g, g, poolSize);
    TrialIsBounded(e, start, i, poolSize);
    AfterKeeps(e, p, g + 1, generations, poolSize);
    assert After(e, p, g + 1) == Sweep(e, start, |p.masks|);
    BestNeverFalls(After(e, p, g + 1), After(e, p, generations));
  }

  // ----- What a challenger is -----

  /** The challenger of slot `i`, read from the stream: the first three donors drawn; at every locus taken from
      the mutant the unrepaired mask differs from the first donor exactly where the other two differ, and at
      every other it is the slot's own; and only a mask left without a member gains one drawn locus. */
  ghost predicate Challenges(e: Engine, p: Population, i: nat, trial: Drawn<Mask>, donors: seq<nat>, qs: seq<nat>, raw: Mask)
    requires i < |p.masks| && p.masks[i] != []
  {
    var n := |p.masks[i]|;
    && FirstDonors(e.stream, |p.masks|, i, p.at, donors, qs)
    && (forall k | 0 <= k < 3 :: donors[k] < |p.masks| && |p.masks[donors[k]]| == n)
    && |raw| == |trial.value| == n
    && (forall j | 0 <= j < n ::
          if Taken(e.stream, e.cr, qs[2] + 1, n, j)
          then raw[j] != p.masks[donors[0]][j] <==> p.masks[donors[1]][j] != p.masks[donors[2]][j]
          else raw[j] == p.masks[i][j])
    && if exists j :: 0 <= j < n && raw[j] then trial == Drawn(raw, qs[2] + 2 + n)
       else trial.at == qs[2] + 3 + n
            && forall j: nat | j < n :: trial.value[j] <==> j == Residue(e.stream(qs[2] + 2 + n), n)
  }

  lemma TrialMeaning(e: Engine, p: Population, i: nat, poolSize: nat)
    returns (donors: seq<nat>, qs: seq<nat>, raw: Mask)
    requires Evolvable(e, p) && i < |p.masks| && poolSize > 0 && forall k | 0 <= k < |p.masks| :: |p.masks[k]| == poolSize
    ensures Challenges(e, p, i, Trial(e, p, i), donors, qs, raw)
  {
    hide Evolvable, Picks, Residue, CrossedFrom, Repaired, Taken, FirstDonors, Mutant;
    var np := |p.masks|;
    assert DonorsTurnUp(e.stream, np, i, p.at) by { EvolvableDraws(e, p, i); }
    var end := PicksEnd(e.stream, np, i, p.at);
    qs := ThirdPickMeaning(e.stream, np, i, p.at, end);
    PicksAreDonors(e.stream, np, i, p.at, end);
    donors := Picks(e.stream, np, i, p.at, end);
    var mutant := Mutant(p.masks[donors[0]], p.masks[donors[1]], p.masks[donors[2]]);
    CrossedMeaning(e.stream, p.masks[i], mutant, e.cr, end);
    var crossed := CrossedFrom(e.stream, p.masks[i], mutant, e.cr, end);
    raw := crossed.value;
    RepairMeaning(e.stream, raw, crossed.at);
  }

  lemma EvolvableDraws(e: Engine, p: Population, i: nat)
    requires Evolvable(e, p) && i < |p.masks|
    ensures |p.masks| >= 4 && DonorsTurnUp(e.stream, |p.masks|, i, p.at)
  {
  }

  /** Every step of a run, slot by slot through the generations: slot `i` meets the challenger the stream
      names, takes it with its score when that is at least the slot's own, and keeps both otherwise; no other
      slot changes. A generation starts where the one before it ended. */
  lemma StepOfARun(e: Engine, start: Population, g: nat, i: nat, poolSize: nat)
    returns (trial: Drawn<Mask>, donors: seq<nat>, qs: seq<nat>, raw: Mask)
    requires Evolvable(e, start) && Sound(e, start, poolSize) && i < |start.masks| && poolSize > 0
    ensures var before, after := Sweep(e, After(e, start, g), i), Sweep(e, After(e, start, g), i + 1);
            var ts := e.score(Members(trial.value));
            && |before.masks| == |before.scores| == |after.masks| == |after.scores| == |start.masks|
            && |before.masks[i]| == poolSize && Challenges(e, before, i, trial, donors, qs, raw)
            && after.at == trial.at
            && (forall k | 0 <= k < |start.masks| && k != i ::
                  after.masks[k] == before.masks[k] && after.scores[k] == before.scores[k])
            && (if before.scores[i].AtMost(ts) then after.masks[i] == trial.value && after.scores[i] == ts
                else after.masks[i] == before.masks[i] && after.scores[i] == before.scores[i])
    ensures Sweep(e, After(e, start, g), 0) == After(e, start, g)
    ensures Sweep(e, After(e, start, g), |start.masks|) == After(e, start, g + 1)
    ensures After(e, start, 0) == start
  {
    var p := After(e, start, g);
    AfterKeeps(e, start, g, g, poolSize);
    SweepFromStart(e, p, i, poolSize);
    var before := Sweep(e, p, i);
    SoundLengths(e, before, poolSize);
    hide Sound, Trial, Evolvable, Challenges, NoSlotFalls;
    trial := Trial(e, before, i);
    donors, qs, raw := TrialMeaning(e, before, i, poolSize);
    assert Sweep(e, p, i + 1) == Challenged(e, before, i, trial);
  }

  lemma SoundLengths(e: Engine, p: Population, poolSize: nat)
    requires Sound(e, p, poolSize)
    ensures forall k | 0 <= k < |p.masks| :: |p.masks[k]| == poolSize
  {
  }

  // ----- The run -----

  function FirstMasks(stream: Stream, poolSize: nat, density: real, n: nat): (d: Drawn<seq<Mask>>)
    ensures |d.value| == n
    ensures forall i | 0 <= i < n :: |d.value[i]| == poolSize && (poolSize > 0 ==> Count(d.value[i]) > 0)
  {
    if n == 0 then Drawn([], 0)
    else
      var rest := FirstMasks(stream, poolSize, density, n - 1);
      var m := RandomMaskFrom(stream, poolSize, density, rest.at);
      Drawn(rest.value + [m.value], m.at)
  }

  function ScoresOf(e: Engine, masks: seq<Mask>): (r: seq<Score>)
    ensures |r| == |masks|
  {
    seq(|masks|, (i: nat) requires i < |masks| => e.score(Members(masks[i])))
  }

  /** The population size in use: at least four, so that three donors always exist. */
  function Clamped(popSize: nat): (np: nat)
    ensures np >= 4
  {
    if popSize < 4 then 4 else popSize
  }

  function Seeded(e: Engine, poolSize: nat, popSize: nat, density: real): (p: Population)
    ensures |p.masks| == |p.scores| == Clamped(popSize)
  {
    var first := FirstMasks(e.stream, poolSize, density, Clamped(popSize));
    Population(first.value, ScoresOf(e, first.value), first.at)
  }

  /** The first population: one mask after another, each drawn where the last one ended, and scored. */
  lemma SeededMeaning(e: Engine, poolSize: nat, popSize: nat, density: real) returns (ats: seq<nat>)
    ensures var start := Seeded(e, poolSize, popSize, density);
            && |start.masks| == |start.scores| == (if popSize > 4 then popSize else 4)
            && |ats| == |start.masks| + 1 && ats[0] == 0 && ats[|start.masks|] == start.at
            && forall k | 0 <= k < |start.masks| ::
                 && RandomMaskFrom(e.stream, poolSize, density, ats[k]) == Drawn(start.masks[k], ats[k + 1])
                 && start.scores[k] == e.score(Members(start.masks[k]))
  {
    hide RandomMaskFrom, Members;
    ats := FirstMasksAt(e.stream, poolSize, density, Clamped(popSize));
  }

  lemma {:induction false} FirstMasksAt(stream: Stream, poolSize: nat, density: real, n: nat) returns (ats: seq<nat>)
    ensures var first := FirstMasks(stream, poolSize, density, n);
            && |ats| == n + 1 && ats[0] == 0 && ats[n] == first.at
            && forall k | 0 <= k < n ::
                 RandomMaskFrom(stream, poolSize, density, ats[k]) == Drawn(first.value[k], ats[k + 1])
  {
    ats := [0];
    if n > 0 {
      hide RandomMaskFrom;
      ats := FirstMasksAt(stream, poolSize, density, n - 1);
      ats := ats + [FirstMasks(stream, poolSize, density, n).at];
    }
  }

  datatype SearchResult = SearchResult(
    best: Mask, score: Score, generationsRun: nat, history: seq<Score>, corrEffectiveN: nat)

  /** The last slot among those with the greatest score. */
  method LastBest(scores: seq<Score>) returns (b: nat)
    requires scores != []
    ensures b < |scores| && scores[b] == Highest(scores)
    ensures forall i | b < i < |scores| :: !scores[b].AtMost(scores[i])
  {
    b := 0;
    for i := 1 to |scores|
      invariant b < i
      invariant forall k | 0 <= k < i :: scores[k].AtMost(scores[b])
      invariant forall k | b < k < i :: !scores[b].AtMost(scores[k])
    {
      if scores[b].AtMost(scores[i]) {
        b := i;
      }
    }
    assert Highest(scores) in scores;
  }

  ghost predicate Ascends(history: seq<Score>) {
    forall i, j | 0 <= i < j < |history| :: history[i].AtMost(history[j])
  }

  /** What a finished run reports, in terms of the population it ends with. */
  ghost predicate Reports(e: Engine, start: Population, generations: nat, r: SearchResult)
    requires Evolvable(e, start)
  {
    var end := After(e, start, generations);
    && (exists b :: 0 <= b < |end.masks| && r.best == end.masks[b] && end.scores[b] == r.score
          && forall i | b < i < |end.scores| :: !end.scores[b].AtMost(end.scores[i]))
    && r.score == Highest(end.scores)
    && r.generationsRun == generations == |r.history|
    && forall g | 0 <= g < generations :: r.history[g] == Highest(After(e, start, g + 1).scores)
  }

  lemma HistoryAscends(e: Engine, start: Population, generations: nat, poolSize: nat, history: seq<Score>)
    requires Evolvable(e, start) && Sound(e, start, poolSize) && poolSize > 0 && |history| == generations
    requires forall g | 0 <= g < generations :: history[g] == Highest(After(e, start, g + 1).scores)
    ensures Ascends(history)
    ensures forall g | 0 <= g < generations :: history[g].AtMost(Highest(After(e, start, generations).scores))
  {
    hide After, Evolvable, Sound, NoSlotFalls, Highest;
    forall i, j | 0 <= i <= j < |history| ensures history[i].AtMost(history[j]) {
      AfterKeeps(e, start, i + 1, j + 1, poolSize);
      BestNeverFalls(After(e, start, i + 1), After(e, start, j + 1));
    }
    if generations > 0 {
      assert history[generations - 1] == Highest(After(e, start, generations).scores);
    }
  }

  /** Whatever the draws: the reported score is the score of the reported mask, which has a member; the
      history never falls, never exceeds the score, and ends at it. */
  lemma ReportsAreSound(e: Engine, start: Population, generations: nat, poolSize: nat, r: SearchResult)
    requires Evolvable(e, start) && Sound(e, start, poolSize) && poolSize > 0
    requires Reports(e, start, generations, r)
    ensures |r.best| == poolSize && Count(r.best) > 0 && r.score == e.score(Members(r.best))
    ensures Ascends(r.history)
    ensures forall g | 0 <= g < generations :: r.history[g].AtMost(r.score)
    ensures generations > 0 ==> r.history[generations - 1] == r.score
    ensures Highest(start.scores).AtMost(r.score)
  {
    hide After, Evolvable, NoSlotFalls, Highest, Ascends;
    HistoryAscends(e, start, generations, poolSize, r.history);
    AfterKeeps(e, start, 0, generations, poolSize);
    FirstIsStart(e, start);
    BestNeverFalls(start, After(e, start, generations));
    if generations > 0 {
      assert r.history[generations - 1] == Highest(After(e, start, generations).scores);
    }
  }

  lemma FirstIsStart(e: Engine, p: Population)
    requires Evolvable(e, p)
    ensures After(e, p, 0) == p
  {
  }

  lemma SeededIsSound(e: Engine, poolSize: nat, popSize: nat, density: real)
    requires poolSize > 0 && NeverStarves(e.stream, Clamped(popSize))
    ensures var start := Seeded(e, poolSize, popSize, density); Evolvable(e, start) && Sound(e, start, poolSize)
  {
  }

  /** One generation: every slot is challenged in turn against the population as it then stands. */
  method Generation(e: Engine, masks: seq<Mask>, scores: seq<Score>, rng: DetRng)
    returns (nextMasks: seq<Mask>, nextScores: seq<Score>)
    requires Evolvable(e, Population(masks, scores, rng.at)) && rng.stream == e.stream
    modifies rng
    ensures Population(nextMasks, nextScores, rng.at)
            == Sweep(e, old(Population(masks, scores, rng.at)), |masks|)
  {
    hide DonorsTurnUp, Count, Members, CrossedFrom, Repaired, Picks, FirstDonors, Taken, Residue, ThirdPickAt;
    var np := |masks|;
    ghost var p := Population(masks, scores, rng.at);
    nextMasks, nextScores := masks, scores;
    for i := 0 to np
      invariant |nextMasks| == |nextScores| == np
      invariant Population(nextMasks, nextScores, rng.at) == Sweep(e, p, i)
    {
      ghost var before := Sweep(e, p, i);
      var a, b, c := PickThreeDistinct(np, i, rng);
      var mutant := Mutant(nextMasks[a], nextMasks[b], nextMasks[c]);
      var crossed := BinomialCrossover(nextMasks[i], mutant, e.cr, rng);
      var trial := RepairNonempty(crossed, rng);
      assert Drawn(trial, rng.at) == Trial(e, before, i);
      var ts := e.score(Members(trial));
      if nextScores[i].AtMost(ts) {
        nextMasks := nextMasks[i := trial];
        nextScores := nextScores[i := ts];
      }
    }
  }

  /** Draws and scores the first population. */
  method Seed(e: Engine, poolSize: nat, popSize: nat, density: real) returns (masks: seq<Mask>, scores: seq<Score>, rng: DetRng)
    ensures fresh(rng) && rng.stream == e.stream
    ensures Population(masks, scores, rng.at) == Seeded(e, poolSize, popSize, density)
  {
    var np := Clamped(popSize);
    rng := new DetRng(e.stream);
    masks := [];
    for i := 0 to np
      invariant rng.stream == e.stream && Drawn(masks, rng.at) == FirstMasks(e.stream, poolSize, density, i)
    {
      var m := RandomMask(poolSize, density, rng);
      masks := masks + [m];
    }
    scores := ScoresOf(e, masks);
  }

  /** Runs the generations, recording the best score after each. */
  method Evolve(e: Engine, generations: nat, masks: seq<Mask>, scores: seq<Score>, rng: DetRng)
    returns (lastMasks: seq<Mask>, lastScores: seq<Score>, history: seq<Score>)
    requires Evolvable(e, Population(masks, scores, rng.at)) && rng.stream == e.stream
    modifies rng
    ensures Population(lastMasks, lastScores, rng.at) == After(e, old(Population(masks, scores, rng.at)), generations)
    ensures |history| == generations
    ensures forall h | 0 <= h < generations ::
              history[h] == Highest(After(e, old(Population(masks, scores, rng.at)), h + 1).scores)
  {
    hide Evolvable, Sweep, Highest;
    ghost var start := Population(masks, scores, rng.at);
    lastMasks, lastScores, history := masks, scores, [];
    for g := 0 to generations
      invariant Population(lastMasks, lastScores, rng.at) == After(e, start, g)
      invariant |history| == g
      invariant forall h | 0 <= h < g :: history[h] == Highest(After(e, start, h + 1).scores)
    {
      lastMasks, lastScores := Generation(e, lastMasks, lastScores, rng);
      assert Population(lastMasks, lastScores, rng.at) == After(e, start, g + 1);
      history := history + [Highest(lastScores)];
    }
  }

  /** Runs the search. An empty pool scores negative infinity; otherwise the result is that of the
      population after the last generation, and is sound whatever the stream. */
  method RunDe(poolSize: nat, popSize: nat, generations: nat, density: real, e: Engine) returns (r: SearchResult)
    requires poolSize > 0 ==> NeverStarves(e.stream, Clamped(popSize))
    ensures poolSize == 0 ==> r == SearchResult([], NegInf, 0, [], 0)
    ensures poolSize > 0 ==>
              var start := Seeded(e, poolSize, popSize, density);
              Evolvable(e, start) && Reports(e, start, generations, r) && r.corrEffectiveN == 0
    ensures poolSize > 0 ==>
              && |r.best| == poolSize && Count(r.best) > 0 && r.score == e.score(Members(r.best))
              && Ascends(r.history) && (generations > 0 ==> r.history[generations - 1] == r.score)
              && forall g | 0 <= g < |r.history| :: r.history[g].AtMost(r.score)
  {
    hide Seeded, NeverStarves, Count, Members, After, Evolvable, Sound, Ascends, Highest;
    if poolSize == 0 {
      return SearchResult([], NegInf, 0, [], 0);
    }
    ghost var start := Seeded(e, poolSize, popSize, density);
    SeededIsSound(e, poolSize, popSize, density);
    var masks, scores, rng := Seed(e, poolSize, popSize, density);
    SizeIsKept(e, start, generations);
    var lastMasks, lastScores, history := Evolve(e, generations, masks, scores, rng);
    var b := LastBest(lastScores);
    r := SearchResult(lastMasks[b], lastScores[b], generations, history, 0);
    ghost var end := After(e, start, generations);
    assert r.best == end.masks[b] && end.scores[b] == r.score;
    ReportsAreSound(e, start, generations, poolSize, r);
  }

  lemma SizeIsKept(e: Engine, p: Population, generations: nat)
    requires Evolvable(e, p)
    ensures |After(e, p, generations).masks| == |After(e, p, generations).scores| == |p.masks| >= 4
  {
  }

  // ----- The portfolio searches -----

  datatype SearchConfig = SearchConfig(popSize: nat, generations: nat, cr: real, folds: nat, initDensity: real)

  /** Searches on the robust-basin score and records the sample the winner's penalty rests on. */
  method SearchPortfolio(
      pool: Pool, cfg: SearchConfig, objective: (Pool, seq<nat>) -> Score,
      deflated: (seq<real>, seq<real>) -> real, stream: Stream)
    returns (r: SearchResult)
    requires pool != [] ==> NeverStarves(stream, Clamped(cfg.popSize))
    ensures |r.best| == |pool| && (pool != [] ==> Count(r.best) > 0)
    ensures r.score == RobustBasin(objective, PoolFolds(pool, cfg.folds), Members(r.best))
    ensures Ascends(r.history) && forall g | 0 <= g < |r.history| :: r.history[g].AtMost(r.score)
    ensures Count(r.best) < 2 ==> r.corrEffectiveN == 0
    ensures Count(r.best) >= 2 && CommonLength(pool) > 0 ==>
              r.corrEffectiveN == FoldLength(CommonLength(pool), FoldCount(cfg.folds, CommonLength(pool)))
  {
    var score := (members: seq<nat>) => RobustBasin(objective, PoolFolds(pool, cfg.folds), members);
    r := RunDe(|pool|, cfg.popSize, cfg.generations, cfg.initDensity, Engine(stream, cfg.cr, score));
    r := WithEffectiveN(pool, cfg.folds, deflated, r);
  }

  method WithEffectiveN(pool: Pool, folds: nat, deflated: (seq<real>, seq<real>) -> real, found: SearchResult)
    returns (r: SearchResult)
    requires |found.best| == |pool|
    ensures r == found.(corrEffectiveN := r.corrEffectiveN)
    ensures Count(r.best) < 2 ==> r.corrEffectiveN == 0
    ensures Count(r.best) >= 2 && CommonLength(pool) > 0 ==>
              r.corrEffectiveN == FoldLength(CommonLength(pool), FoldCount(folds, CommonLength(pool)))
  {
    MembersAreTheSetBits(found.best);
    var members := Members(found.best);
    assert forall i | 0 <= i < |members| :: members[i] in members;
    var n := CorrPenaltyEffectiveN(pool, members, folds, deflated);
    r := found.(corrEffectiveN := n);
  }

  /** The regime-aware search: what it reports never exceeds the plain score of the mask it found. */
  method SearchPortfolioRegimeAware<R>(
      data: Labelled<R>, cfg: SearchConfig, m: RegimeModel<R>,
      deflated: (seq<real>, seq<real>) -> real, stream: Stream)
    returns (r: SearchResult)
    requires data.pool != [] ==> NeverStarves(stream, Clamped(cfg.popSize))
    ensures |r.best| == |data.pool| && (data.pool != [] ==> Count(r.best) > 0)
    ensures r.score == RobustBasin(Objective(m), LabelledFolds(data, cfg.folds), Members(r.best))
    ensures m.weight >= 0.0 ==>
              r.score.AtMost(RobustBasin(m.base, PoolFolds(data.pool, cfg.folds), Members(r.best)))
    ensures Ascends(r.history) && forall g | 0 <= g < |r.history| :: r.history[g].AtMost(r.score)
    ensures Count(r.best) < 2 ==> r.corrEffectiveN == 0
    ensures Count(r.best) >= 2 && CommonLength(data.pool) > 0 ==>
              r.corrEffectiveN == FoldLength(CommonLength(data.pool), FoldCount(cfg.folds, CommonLength(data.pool)))
  {
    var score := (members: seq<nat>) => RobustBasin(Objective(m), LabelledFolds(data, cfg.folds), members);
    r := RunDe(|data.pool|, cfg.popSize, cfg.generations, cfg.initDensity, Engine(stream, cfg.cr, score));
    r := WithEffectiveN(data.pool, cfg.folds, deflated, r);
    if m.weight >= 0.0 {
      RegimeAwareBelowPlain(m, data, Members(r.best), cfg.folds);
    }
  }
}
