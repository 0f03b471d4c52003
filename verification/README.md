# Verified model of the trading runtime

A Dafny model of the five places in this repository where the logic, not the I/O, decides whether the
system is right, with proofs of what each promises:

- **Cold start to live** — `StableSort`, `Stitch`, `LiveKline`, `Evaluator`, `Bootstrap`, `Breakers`, `Cutover`.
  Replay merges four context series with the bars and drives a stateful session; the cutover continues that
  session live. Both equal a simple specification: a per-bar as-of lookup, and one continuous run.
- **The order gateway** — `Edge`, `KillGate`, `Transport`, `Reconciliation`, `Shadow`. A one-slot coalescing
  queue, disconnect and reconnect, a latched kill that may trip between any two steps, a keeper fed by venue
  events, a simulator, a dry-run twin and a debounced guard, as classes and as runs of steps.
- **Ensemble numerics** — `Sums`, `Series`, `Capacity`, `Stress`, `Deployment`, `Scores`, `Folds`, `Scoring`, `Regime`,
  `Masks`, `Draws`, `Search`. The capacity water-fill, drawdown and stress, fold tiling and robust-basin
  scoring, and the differential-evolution loop.
- **The risk pipeline** — `Netting`, `Governor`. Clamped decisions are netted, sized, planned and governed.
- **Exact integers and graphs** — `Calendar`, `SeedMix`, `Firewall`, `Fingerprint`.

Where the source updates an object, the model is a class whose methods are tied to a step function on the
object's value; runs are folds of those steps, and the theorems quantify over every run. Loops are loops with
invariants. Component boundaries the model does not open are parameters: the feature catalogue and genome
rules (`Evaluator.Catalogue`), the breaker tiers (`Breakers.BreakerKit`), the ensemble objective, the
deflated correlation and the per-regime means (function parameters of `Scoring` and `Regime`), the journal
sink (a boolean per pump) and the random stream (`Draws.Stream`).

Premises that the theorems state: link runs start with keeper and simulator on one instrument and in step;
governor results need a non-negative notional cap (`KeepsSideIff` says exactly why); netting results need
non-negative weights; drawdown over windows needs periods that lose at most everything
(`WindowsStayWithinIff` shows that no weaker bound will do); the donor loop needs four residues to keep turning
up in the stream (`NeverStarvesIff`). The evaluation time of a bar is its open time.

Run `dafny verify dfyconfig.toml` here.

## Main results

- Cold start to live: `Bootstrap.PushEqualsPull`, `Bootstrap.ReplayPageInvariance`, `Bootstrap.CoarseBarsAreBatch`,
  `LiveKline.FanOutIsSolo`, `LiveKline.TierIsBatch`, `Bootstrap.PullDecides`, `Breakers.GatedIff`,
  `Cutover.HandoffIsContinuous`,  `Cutover.ReportsRespectTheGates`, `Cutover.ColdStartToLive`.
- Order gateway: `Edge.OrderLifecycle`, `KillGate.KilledGate`, `Transport.LinkInvariants`,
  `Transport.CoalescingIsLossless`, `Transport.ResendKeepsNewestIff`, `Transport.ResendIsIdempotentIff`,
  `Transport.TripFreezes`, `Transport.PumpReportsTruth`, `Transport.AppendNeverGates`, `Reconciliation.TripsExactlyWhenSustained`,
  `Shadow.DryRunAgrees`, `Shadow.ReportIsExact`.
- Ensemble numerics: `Capacity.Fill`, `Capacity.WaterFillIsUnique`, `Capacity.MemberWeights`,
  `Stress.DrawdownIsWorstFall`, `Stress.ShockLandsAtTheTrough`, `Stress.WindowsStayWithinIff`,
  `Stress.ShocksBoundWindowsIff`, `Folds.FoldsTile`, `Scoring.RobustBasinIff`, `Regime.RegimeKeepsScoreIff`,
  `Masks.TrialAlwaysDiffersIff`, `Draws.NeverStarvesIff`, `Search.TrialMeaning`, `Search.BestOfEveryTrial`,
  `Search.RunDe`.
- Risk pipeline: `Netting.SizingIsExact`, `Netting.GatedContributeNothing`, `Governor.Check`,
  `Governor.RefusedIff`, `Governor.SentIsLargest`, `Governor.SentIsStable`, `Governor.KeepsSideIff`, `Governor.SizedBookMeetsLeverageIff`.
- Exact integers and graphs: `Calendar.CountsDays`, `Calendar.UndoesCounting`, `Calendar.ParseAcceptsExactly`,
  `SeedMix.MixIsBijective`, `SeedMix.DerivationInverts`, `Firewall.Reachable`, `Firewall.CheckFirewall`,
  `Fingerprint.DecodeUndoesEncode`, `Fingerprint.SubsetsCollideIff`.

The other rows of the table are the operations tied to their specifications and the steps these results rest on.

## Where the code and its own words differ

The model follows the code, and each difference is a lemma:

- `reachable` says it excludes its start; it includes it on a cycle (`Firewall.StartCanBeReached`,
  exact condition in `Firewall.StartOnCycleIff`).
- The crossover comment says the trial differs from the target; it need not (`Masks.TrialCanEqualTarget`,
  exact condition in `Masks.TrialAlwaysDiffersIff`).
- A resend of the latest target is described as idempotent; with a newer revision pending it loses that
  revision (`Transport.ResendCanLoseNewer`, exact condition in `Transport.ResendKeepsNewestIff`), and after the
  mark has moved it trades (exact condition in `Transport.ResendIsIdempotentIff`).
- The run fingerprint is described as distinct whenever a parameter differs; the joined indicator list is not
  (`Fingerprint.IndicatorSubsetsCanCollide`, exact condition in `Fingerprint.SubsetsCollideIff`).
- The advisory sizer is meant to keep a book inside the pre-trade leverage cap; at negative equity it cannot
  (`Governor.SizedBookMeetsLeverageIff`), and a negative notional cap turns even a flat target
  into a short (exact condition in `Governor.KeepsSideIff`).

## Model

| member | source | states |
|---|---|---|
| StableSort.SortIsStable | crates/hedger/src/bootstrap.rs:121 | sorting by key orders the entries and keeps the input order inside every key class |
| StableSort.StableSortIsUnique | crates/hedger/src/bootstrap.rs:157-158 | order by (time, ordinal) plus input order inside each class leaves exactly one result, so the stable merge is determined by the inputs |
| Stitch.KeepsWholeIffIncreasing | crates/hedger/src/live_kline.rs:57-79 | keep-if-later drops nothing exactly when the delivery is strictly increasing, so the kline source takes the stitched bars whole |
| Stitch.StitchedIsStitch | crates/hedger/src/bootstrap.rs:118-130 | sort then keep-increasing yields, for every open time delivered, its first delivery, once, in ascending order, and nothing else |
| Stitch.AscendingListingIsUnique | crates/hedger/src/bootstrap.rs:118-130 | a set of bars has only one strictly increasing listing |
| Stitch.ConsistentStitchKeepsAll | crates/hedger/src/bootstrap.rs:118-130 | when equal open times carry equal bars, no delivered bar is lost |
| Stitch.PageInvariance | crates/hedger/src/bootstrap.rs:118-130 | permuting, repeating or overlapping pages of consistent bars leaves the stitched series unchanged |
| LiveKline.BarReconstructor.constructor | crates/signal/src/reconstruct.rs:117-130 | a reconstructor for a strictly coarser target starts with no open window |
| LiveKline.BarReconstructor.Push | crates/signal/src/reconstruct.rs:142-161 | refuses a bar of another resolution untouched; otherwise folds it in or closes the window and opens the next |
| LiveKline.BarReconstructor.Finish | crates/signal/src/reconstruct.rs:167-174 | flushes the open window once |
| LiveKline.SummaryMeaning | crates/signal/src/reconstruct.rs:58-94 | a window's bar opens with the first bar, closes with the last, spans exactly the extremes, and conserves volume and trade count |
| LiveKline.EmittedBarMeaning | crates/signal/src/reconstruct.rs:58-110 | the bar emitted for a run opens at the aligned target interval that holds the whole run, and carries its first open, extremes, last close, volume and trade count |
| LiveKline.WindowIsAligned | crates/signal/src/reconstruct.rs:132-135 | a bar falls into the one epoch-aligned target interval that holds its open time, before the epoch too |
| LiveKline.GroupsFlatten | crates/signal/src/reconstruct.rs:142-161 | the windows partition the base series in order: no bar lost, repeated or moved |
| LiveKline.GroupsAscend | crates/signal/src/reconstruct.rs:133-161 | each run lies in one epoch-aligned window and the windows strictly ascend: one coarse bar per window |
| LiveKline.RollUpIsGroups | crates/signal/src/reconstruct.rs:182-201 | streaming equals batch: completed bars summarise every run but the last, which is the open window |
| LiveKline.LiveKlineSource.New | crates/hedger/src/live_kline.rs:31-41 | one reconstructor per tier, or the first invalid tier's error |
| LiveKline.TierErrorIff | crates/signal/src/reconstruct.rs:117-130 | a tier is sound iff its interval is two or more whole base intervals; the error says whether it is too short |
| LiveKline.FirstTierErrorAt | crates/hedger/src/live_kline.rs:31-41 | the tier error reported is the first |
| LiveKline.LiveKlineSource.Accept | crates/hedger/src/live_kline.rs:57-79 | a covered bar changes nothing; another advances the marker and steps every tier, emitting exactly the completed bars in tier order |
| LiveKline.LiveKlineSource.Prime | crates/hedger/src/live_kline.rs:86-92 | priming is the fold of the deliveries; it stops at the first bar of another resolution |
| LiveKline.LiveKlineSource.Finish | crates/hedger/src/live_kline.rs:108-116 | flushes every tier's open window, in tier order |
| LiveKline.FanOutIsSolo | crates/hedger/src/live_kline.rs:57-79 | however deliveries overlap or repeat, each tier ends in the state and with the output of its own reconstructor run alone on the strictly increasing subsequence |
| LiveKline.TierIsBatch | crates/hedger/src/live_kline.rs:103-116 | the rows of completed bars, projected to a tier, plus its flush are one bar per window of the stitched series, each rolling up exactly its base bars: aligned open time, first open, extremes, last close, volume, trades |
| LiveKline.FlatStreamIsBatch | crates/hedger/src/live_kline.rs:57-116 | with distinct tiers, the bars of one resolution in the flat list the source emits and flushes are exactly that tier's roll-ups, in order |
| LiveKline.PresentInOrder | crates/hedger/src/live_kline.rs:68-77 | the bars one delivery completes are listed in tier order |
| LiveKline.PrimeThenLive | crates/hedger/src/live_kline.rs:81-101 | any split of the deliveries into primed and live is one run |
| Evaluator.LiveFactorJoin.OnBar | crates/hedger/src/factor_join.rs:63-71 | pushes the bar with the current snapshot and leaves the snapshot alone |
| Evaluator.EvaluatorSession.constructor | crates/hedger/src/evaluator.rs:63-71 | a new session is in replay mode, all positions flat, the snapshot empty |
| Evaluator.EvaluatorSession.GoLive | crates/hedger/src/evaluator.rs:82-84 | changes the mode label and nothing else |
| Evaluator.EvaluatorSession.OnBar | crates/hedger/src/evaluator.rs:104-119 | pushes the bar with the current snapshot; every chromosome decides that row against the position it held, each position then advances by its own decision, and nothing else changes |
| Evaluator.PositionMeaning | crates/signal/src/genome.rs:203-212 | over any decisions a position is held iff some entry was followed only by holds: that entry's direction, for as many bars as there were holds; otherwise it is flat |
| Bootstrap.AsOfMeaning | crates/hedger/src/bootstrap.rs:411-417 | the as-of lookup returns the observation with the greatest time not after the bar, the last in input order on ties, and none iff every one is later |
| Bootstrap.ChromosomesAreIndependent | crates/hedger/src/evaluator.rs:104-119 | over any bars each chromosome decides and holds exactly what it would in a vintage of its own |
| Bootstrap.PullDecides | crates/hedger/src/evaluator.rs:104-119 | over any bars every genome decides the as-of row of each bar against the position its own earlier decisions left, and holds the position all of them leave |
| Bootstrap.SnapshotAtBar | crates/hedger/src/bootstrap.rs:138-171 | when the sorted merge reaches a bar, each channel holds the as-of value of its raw, unsorted series |
| Bootstrap.TimelineServesAsOf | crates/hedger/src/bootstrap.rs:160-171 | every bar of the merged timeline finds, per channel, the as-of value of the raw series at its own open time |
| Bootstrap.PushEqualsPullPrefix | crates/hedger/src/bootstrap.rs:160-171 | at every point of a timeline that does so, the session has decided what the per-bar lookup decides on the bars so far |
| Bootstrap.PushEqualsPull | crates/hedger/src/bootstrap.rs:138-171 | for every window, series and bars in any order, the merge gives exactly the decisions, positions and assembler state of a per-bar as-of lookup, and the last mark is the latest mark |
| Bootstrap.BootstrapPipeline.Dedup | crates/hedger/src/bootstrap.rs:122-130 | the in-order loop keeps exactly the strictly increasing subsequence |
| Bootstrap.BootstrapPipeline.BuildTimeline | crates/hedger/src/bootstrap.rs:138-158 | the merged timeline is the stable sort of the four series and the bars |
| Bootstrap.BootstrapPipeline.Drive | crates/hedger/src/bootstrap.rs:160-171 | driving a new session through a timeline is the fold of its events |
| Bootstrap.BootstrapPipeline.Coarsen | crates/hedger/src/bootstrap.rs:132-136 | the coarse bars are those of every tier primed with and flushed after the stitched bars, or the first error |
| Bootstrap.BootstrapPipeline.Replay | crates/hedger/src/bootstrap.rs:113-180 | replay refuses exactly invalid tiers or foreign bars; otherwise its trace, warmed session, counts and last mark are those of the pull specification on the stitched bars, genome by genome decided against the position its own decisions left |
| Bootstrap.CoarseBarsAreBatch | crates/hedger/src/bootstrap.rs:132-136 | with distinct tiers, the coarse bars replay returns, filtered to one resolution, are exactly the roll-ups of the windows of the stitched series |
| Bootstrap.ReplayPageInvariance | crates/hedger/src/bootstrap.rs:118-130 | permuting or repeating consistent pages changes neither the errors nor the result of replay |
| Breakers.BreakerLayer.FromCalibration | crates/hedger/src/live_breakers.rs:100-124 | a strategy with no calibration starts gated with the fail-safe breaker, every other keeps its own, and the ensemble breaker is the one given |
| Breakers.BreakerLayer.ObserveStrategy | crates/hedger/src/live_breakers.rs:154-160 | one tick steps only that strategy's breaker and latches only its gate |
| Breakers.BreakerLayer.ObserveEnsemble | crates/hedger/src/live_breakers.rs:163-169 | one tick steps the ensemble breaker and latches the ensemble gate |
| Breakers.BreakerLayer.Clamp | crates/hedger/src/live_breakers.rs:206-220 | exactly the gated strategies' decisions become exits; indices and order are kept |
| Breakers.BreakerLayer.Reset | crates/hedger/src/live_breakers.rs:224-233 | re-arms every breaker, clears tripped gates, re-applies the uncalibrated fail-safe |
| Breakers.GatedIff | crates/hedger/src/live_breakers.rs:154-233 | over every run of ticks and rollovers: gated iff uncalibrated, or gated at the start with no rollover since, or tripped since the last rollover |
| Breakers.BreakersAreSeparate | crates/hedger/src/live_breakers.rs:154-233 | over every run each breaker is what its own ticks and the rollovers alone make it |
| Breakers.ClampFlattens | crates/hedger/src/live_breakers.rs:206-220 | a gated decision leaves the strategy flat whatever it held or decided |
| Cutover.CutoverLink.FromReconstructed | crates/hedger/src/cutover.rs:91-103 | anchors on the open time of the last replayed bar; a replay with no bars is refused |
| Cutover.CutoverLink.FeedLiveBar | crates/hedger/src/cutover.rs:184-220 | a covered bar and a gap leave all state unchanged; the next contiguous bar flips live once and is evaluated, every chromosome against its own position; in the report exactly the gated strategies' decisions become exits, while the session keeps what it decided |
| Cutover.CutoverLink.ObserveStrategyEquity | crates/hedger/src/cutover.rs:226-234 | routes the tick to the breaker layer, returns the tier it fires, and touches nothing else; no tier without a breaker |
| Cutover.CutoverLink.ObserveEnsembleEquity | crates/hedger/src/cutover.rs:239-246 | the same for the ensemble breaker |
| Cutover.HandoffIsContinuous | crates/hedger/src/cutover.rs:184-220 | for every delivery of bars, observations and equity ticks, the session is that of one continuous session on the contiguous bars, the reports are its outputs clamped by the breaker in force, and it is live iff a contiguous bar arrived |
| Cutover.ReportsRespectTheGates | crates/hedger/src/cutover.rs:205-219 | over every run, report by report: the report is that of the bar one interval further on; every strategy gated by the ticks delivered before that bar exits, every other does what the continuous session decided |
| Cutover.UnflippedDecides | crates/hedger/src/evaluator.rs:104-119 | in the uninterrupted session every genome decides each row, with the readings observed by then, against the position its own earlier decisions left |
| Cutover.EvaluatedBarsTile | crates/hedger/src/cutover.rs:198-204 | the evaluated bars open at last + interval, last + 2·interval, …; none skipped, none repeated, each report carrying its own open time |
| Cutover.NextBarIsTaken | crates/hedger/src/cutover.rs:192-204 | a delivered bar at the next open time is always evaluated, after any deliveries |
| Cutover.ModeIsOnlyALabel | crates/hedger/src/evaluator.rs:78-84 | going live changes no decision and no position |
| Cutover.OneContinuousRun | crates/hedger/src/cutover.rs:1-24 | for any merged history and any boundary, a session fed the history and then the cleaned live delivery decides what replay followed by the continuous session decides |
| Cutover.ColdStartToLive | crates/hedger/src/cutover.rs:1-24 | end to end, for every window and live delivery: replay, the cutover anchored on its last bar and the delivery are one session with no handoff, whose first outputs are the per-bar lookups and whose remaining outputs, behind the breaker in force at each bar, are the reports |
| Edge.Order.OnFill | crates/edge/src/edge.rs:90-101 | a fill on a terminal order is ignored; otherwise it is added and the state follows the comparison with the quantity |
| Edge.OrderLifecycle | crates/edge/src/edge.rs:45-115 | over every run the filled quantity is the sum of the fills absorbed before the order became terminal; `Filled` iff it reached the quantity and, for an order of nothing, some fill was absorbed; partial only below it; terminal states are final |
| Edge.OrderEnds | crates/edge/src/edge.rs:45-115 | over every run a new order ends rejected or cancelled iff such an event reached it open, filled or partially filled only by an absorbed fill, and otherwise submitted iff it was submitted |
| Edge.PlanReachesTarget | crates/edge/src/edge.rs:131-151 | a planned order is non-empty, on the side of the gap, and fills exactly to target / mark; none is planned iff the mark is zero or the position is already there |
| Edge.VenueKeeper.Apply | crates/edge/src/edge.rs:192-210 | fills move the position, reports set it to their signed quantity, other instruments' events are ignored, snapshots without the instrument flatten it |
| Edge.VenueSimulator.Submit | crates/edge/src/edge.rs:297-330 | advances the ids and the position, returns an order that ended `Filled` and the matching fill event |
| Edge.ReportRoundTrip | crates/edge/src/edge.rs:333-348 | absorbing the simulator's own report gives the keeper the simulator's position, and changes nothing if it was in step |
| KillGate.KillHandle.TripWith | crates/risk/src/kill.rs:48-66 | the latch: tripping again changes nothing, the first reason stands |
| KillGate.VenueKillGate.Submit | crates/edge/src/kill_gate.rs:103-116 | a tripped gate refuses with the latched reason and touches nothing; otherwise the simulator fills |
| KillGate.VenueKillGate.EnforceKill | crates/edge/src/kill_gate.rs:125-148 | not tripped: nothing; tripped: the first non-zero position is closed once, and later calls only say so |
| KillGate.SwitchLatches | crates/edge/src/kill_gate.rs:103-148 | over every run from a live switch it is tripped iff some event tripped it, with the first one's reason; until then every order offered is sent |
| KillGate.KilledGate | crates/edge/src/kill_gate.rs:103-148 | over every run after a trip: no normal order is sent, at most one order in all, exactly the close of the first non-zero quantity offered |
| KillGate.KilledGateFlattens | crates/edge/src/kill_gate.rs:125-148 | if that quantity was the simulator's own, the simulator is flat after every continuation |
| KillGate.FirstOfferedStands | crates/edge/src/kill_gate.rs:125-148 | what is offered later never changes which quantity was closed |
| KillGate.HaltedForever | crates/edge/src/kill_gate.rs:103-148 | a gate that has closed a position never changes again |
| Transport.PlannerAdapterLink.Submit | crates/edge/src/transport.rs:230-241 | refused with `Retry` recorded and the slot untouched when disconnected; otherwise the slot holds the new revision, counting a superseded one |
| Transport.PlannerAdapterLink.Apply | crates/edge/src/transport.rs:291-332 | plans the delta at the kept position and mark, sends it through the gate and absorbs the fill, then reports position and an acknowledging heartbeat, up iff the kill is not tripped and else down with the latched reason; a refusal sends nothing |
| Transport.PlannerAdapterLink.Pump | crates/edge/src/transport.rs:248-267 | disconnected or nothing pending: nothing; otherwise the pending revision is taken, applied and acknowledged as `Apply` says, and a failed journal is only counted |
| Transport.PlannerAdapterLink.Disconnect | crates/edge/src/transport.rs:270-272 | keeps the pending slot |
| Transport.PlannerAdapterLink.Reconnect | crates/edge/src/transport.rs:281-287 | returns the venue's own signed position, stamped with the last applied revision's time, and leaves the keeper at it |
| Transport.LinkInvariants | crates/edge/src/transport.rs:230-332 | over every run with kill trips interleaved: keeper and simulator agree, orders submitted equal fills returned, accepted = applied + superseded + pending |
| Transport.PendingIsLatest | crates/edge/src/transport.rs:230-241 | what is pending is always the newest accepted revision |
| Transport.PumpReachesTarget | crates/edge/src/transport.rs:248-332 | a live pump at a known mark leaves exactly pending target / mark |
| Transport.PumpReportsTruth | crates/edge/src/transport.rs:291-332 | a live pump reports one fill, at the mark and for exactly the gap, iff the kill is not tripped, the mark is known and the link is not at target; then the position the venue and the keeper hold; then an acknowledgement of exactly the revision taken, up iff the kill is not tripped and else down with the latched reason; a refused order records `Halt` |
| Transport.CoalescingIsLossless | crates/edge/src/transport.rs:223-267 | any two schedules that accepted the same revisions and end in a live pump at the same non-zero mark hold the same position |
| Transport.StaysAtTarget | crates/edge/src/transport.rs:248-332 | a link at its last applied target is at its then last applied target after any run without a new mark or a kill |
| Transport.ResendIsIdempotentIff | crates/edge/src/transport.rs:274-287 | with nothing pending, reconnect, resend of the latest target and pump send no order iff the switch is tripped, the mark is unknown or the link is still at its target; then nothing moves |
| Transport.ResendKeepsNewestIff | crates/edge/src/transport.rs:230-241 | a resend delivers the newest accepted target iff nothing was pending or the pending one asks for the same notional |
| Transport.ResendCanLoseNewer | crates/edge/src/transport.rs:230-241 | a concrete run in which resending the latest applied target loses a newer accepted one |
| Transport.TripFreezes | crates/edge/src/transport.rs:248-332 | after a trip: no order, no position change, and every later heartbeat is down with the latched reason |
| Transport.UntrippedStaysUp | crates/edge/src/transport.rs:248-332 | over every run from an untripped kill with no trip, every heartbeat is up: the other half of `TripFreezes` |
| Transport.AppendNeverGates | crates/edge/src/transport.rs:84-95 | any pattern of journal failures leaves reports, orders and positions as with a journal that never fails; only the failure count and the recorded disposition differ |
| Reconciliation.ReconciliationGuard.CheckQty | crates/edge/src/reconciliation.rs:154-181 | reconciles iff the gap is within tolerance both ways, resetting the streak; a breach reports the gap, lengthens the streak, raises the alarm, and halts iff the action is `HaltAfter(k)` and the streak reached k, latching the kill |
| Reconciliation.StreakIsSuffix | crates/edge/src/reconciliation.rs:154-181 | over every run the streak is the longest breaching suffix and the alarms count every breach |
| Reconciliation.TripsExactlyWhenSustained | crates/edge/src/reconciliation.rs:28-47 | `HaltAfter(k)` trips iff max(k, 1) consecutive checks breached; `AlarmOnly` never trips |
| Shadow.ShadowGateway.Observe | crates/edge/src/shadow.rs:85-98 | off target at a known mark, logs one order of exactly the gap and stands at the target; otherwise changes nothing |
| Shadow.ShadowRun.Observe | crates/edge/src/shadow.rs:165-178 | feeds both sides and compares them: stays reconciled iff the gap is within tolerance, and keeps the greatest breach |
| Shadow.StaysSound | crates/edge/src/shadow.rs:165-178 | the reference stays in step with its simulator and its kill untripped |
| Shadow.DryRunAgrees | crates/edge/src/shadow.rs:165-178 | with equal marks fed to both sides, the dry run holds the reference position after every step, logs one order per order sent, and reconciles with zero divergence |
| Shadow.ReportIsExact | crates/edge/src/shadow.rs:165-203 | for any marks: reconciled iff no step breached the tolerance, and the reported divergence is the greatest breaching one |
| Shadow.DivergenceIsTheMarkGap | crates/edge/src/shadow.rs:150-160 | with both marks known the divergence is exactly the distance between target / shadow mark and target / reference mark |
| Capacity.Fill | crates/ensemble/src/capacity.rs:171-210 | the cap-and-redistribute loop terminates at one water level with alloc = min(cap, level · weight) for every positive weight with a cap, 0 otherwise, and total min(min(1, Σ positive weights), Σ their caps) |
| Capacity.NextWater | crates/ensemble/src/capacity.rs:186-209 | the level never falls between rounds and the shares at it spend exactly what remains |
| Capacity.CapWeights | crates/ensemble/src/capacity.rs:159-211 | the water-fill on the common prefix; a non-positive target disables capping; missing capacities give zero |
| Capacity.WaterFillIsUnique | crates/ensemble/src/capacity.rs:140-157 | weights, caps and total determine the allocation |
| Capacity.WaterFillIsSafe | crates/ensemble/src/capacity.rs:140-157 | every share is within [0, cap] and they sum to at most one |
| Capacity.NothingHoldsMore | crates/ensemble/src/capacity.rs:171-210 | no vector within the caps and the budget allocates more than the water-fill |
| Capacity.EqualFillMeaning | crates/ensemble/src/capacity.rs:171-210 | the water-fill of equal weights in dollars: no share above the capacity behind it, a smaller share than another fills its capacity, and so does every share if less than everything is deployed |
| Capacity.EqualSurvivesIff | crates/ensemble/src/objective.rs:384-387 | equal weights pass unchanged iff no cap is below 1/k |
| Capacity.MemberWeights | crates/ensemble/src/objective.rs:388-407 | the deployed weights: no member holds more than its own capacity at the target, one that holds less than another fills its capacity, and all do if less than everything is deployed; equal weights iff no listed capacity over the target is below 1/k |
| Deployment.CombinedReturns | crates/ensemble/src/objective.rs:416-427 | the deployed series is the members' series under those weights, each within its own member's capacity; members that never lose everything in a period make an ensemble that never does, with drawdown below one |
| Stress.MaxDrawdown | crates/ensemble/src/stress.rs:119-128 | the one-pass loop returns the greatest loss from the running peak |
| Stress.DrawdownIsWorstFall | crates/ensemble/src/stress.rs:114-128 | with returns ≥ −1 it equals the maximum of 1 − E_j / E_i over all i ≤ j |
| Stress.WindowBelowPath | crates/ensemble/src/stress.rs:158-174 | any slice of such a path loses at most what the whole path loses |
| Stress.WindowsStayWithinIff | crates/ensemble/src/stress.rs:158-174 | for every bound b: no slice of any path with returns at least b loses more than its path iff b is at least −1 |
| Stress.LeveragedWindowCanExceedPath | crates/ensemble/src/stress.rs:158-174 | a concrete path with a return below −1 on which a slice loses more than the whole |
| Stress.RuinIff | crates/ensemble/src/stress.rs:119-128 | the drawdown exceeds one iff equity went negative |
| Stress.ShockIsConservativeIff | crates/ensemble/src/stress.rs:151-174 | a synthetic shock loses at least what the path lost iff the path lost at most everything or the shock adds nothing |
| Stress.ShockLandsAtTheTrough | crates/ensemble/src/stress.rs:149-153 | what a synthetic shock loses is the drawdown of the path cut at its trough with the shock as the next period |
| Stress.ShockMeaning | crates/ensemble/src/stress.rs:158-174 | a gap or haircut takes its size times the exposure from what the path has left, a negative one nothing; each period of a funding spike takes once more what a gap of its rate does |
| Stress.WindowMeaning | crates/ensemble/src/stress.rs:161-165 | a window holds the periods of the path from its start, as many as it asks for and the path has |
| Stress.WeightedCombined | crates/ensemble/src/stress.rs:134-147 | the accumulating loops compute the weighted sum of the series, period by period, over the shortest |
| Stress.CombinedMeaning | crates/ensemble/src/stress.rs:134-147 | period by period the combination is the sum of weight times return over the members in use |
| Stress.EnsembleStaysAbove | crates/ensemble/src/stress.rs:134-147 | non-negative weights summing to at most one over series above −1 keep the combination above −1 |
| Stress.WorstCaseLoss | crates/ensemble/src/stress.rs:182-210 | every scenario is reported; the worst is their maximum and the binding one is the last to attain it; no scenario reports zero |
| Stress.ShockBoundsEveryWindow | crates/ensemble/src/stress.rs:182-210 | with at least one synthetic shock no historical window, listed or not, can exceed the reported worst case |
| Stress.ShocksBoundWindowsIff | crates/ensemble/src/stress.rs:158-210 | for every bound b: over paths with returns at least b, every synthetic shock at every exposure bounds every window iff b is at least −1 |
| Folds.FoldsAreBalanced | crates/ensemble/src/search.rs:108-114 | every fold is non-empty and its length is ⌊t/k⌋ or one more, so the skip branch is dead |
| Folds.CutMeaning | crates/ensemble/src/search.rs:109-110 | a cut is the last point not beyond its share of the axis, and the shortest fold the last not beyond one fold's |
| Folds.FoldsTile | crates/ensemble/src/search.rs:108-114 | joined in order the folds are the first t points, each once |
| Scoring.PoolFoldsTile | crates/ensemble/src/search.rs:108-119 | slicing the pool loses, repeats and moves no observation of the common axis |
| Scoring.PoolFoldMeaning | crates/ensemble/src/search.rs:108-119 | with k folds, one at least and at most one a point, fold f is every series from ⌊f·t/k⌋ to ⌊(f+1)·t/k⌋, never empty |
| Scoring.LeaveOneOutMin | crates/ensemble/src/objective.rs:614-634 | the loop returns the worst objective over the memberships with one member dropped; a lone or empty membership is scored whole |
| Scoring.DropsMeaning | crates/ensemble/src/objective.rs:614-634 | a drop keeps all the other members in order; a lone or empty membership is kept whole |
| Scoring.CrossValScore | crates/ensemble/src/search.rs:92-126 | the loop returns the worst wide-basin floor over the folds; no time axis means the whole pool once; empty membership −∞ |
| Scoring.RobustBasinIff | crates/ensemble/src/search.rs:84-126 | a non-empty ensemble scores at least x iff every fold does with every member dropped |
| Scoring.PairwiseCorrPenalty | crates/ensemble/src/objective.rs:175-203 | the nested loops return the mean of the floored pair terms on common prefixes, and as sample size the shortest series' length (0 below two series) |
| Scoring.AllPairsOnce | crates/ensemble/src/objective.rs:176-190 | every pair a < b has its own term, at its place in row order, the places strictly increase, and there are n(n − 1)/2 terms in all |
| Scoring.CorrPenaltyEffectiveN | crates/ensemble/src/search.rs:238-270 | exactly ⌊t/k⌋ for two or more members, 0 below two, the shortest member series with no time axis |
| Regime.ShortfallIff | crates/ensemble/src/regime.rs:66-94 | the shortfall is the greatest one over the labelled regimes, zero iff every one is at the floor; no labelled regime means none |
| Regime.RegimePenaltyIff | crates/ensemble/src/regime.rs:80-94 | with non-negative weight the penalty never raises the objective and leaves it alone iff the base is infinite, the ensemble empty, the weight zero, or every regime is at the floor |
| Regime.RegimePenaltyIs | crates/ensemble/src/regime.rs:80-94 | the penalty is exactly the weight times the weakest regime's distance below the floor, and nothing when it is not below or the base is infinite |
| Regime.LabelsFollowBars | crates/ensemble/src/regime.rs:137-157 | the labels of a fold are those of its own bars, as far as the label list reaches, and its pool is the plain fold |
| Regime.RegimeAwareCvScore | crates/ensemble/src/regime.rs:126-160 | the loop returns the worst regime-aware floor with pool and labels cut alike, short label lists included |
| Regime.RegimeAwareBelowPlain | crates/ensemble/src/regime.rs:122-160 | with non-negative weight the regime-aware score never exceeds the plain cross-validated score |
| Regime.RegimeKeepsScoreIff | crates/ensemble/src/regime.rs:74-160 | the two scores agree iff no fold and no dropped member is penalised below the plain score |
| Regime.RegimePositiveKeepsScore | crates/ensemble/src/regime.rs:74-79 | with no shortfall in any fold and drop, in particular, the two scores agree |
| Masks.MembersAreTheSetBits | crates/ensemble/src/de.rs:32-44 | members are the set bits, ascending, once each, as many as the count |
| Masks.MembersDetermineTheMask | crates/ensemble/src/de.rs:36-44 | scoring the members scores the mask |
| Masks.Mutant | crates/ensemble/src/de.rs:51-55 | differs from the base exactly where the other two donors differ, cut to the shortest donor |
| Masks.MutationLaws | crates/ensemble/src/de.rs:47-55 | equal donors change nothing, mutating twice recovers the base, the three donors are interchangeable |
| Masks.TrialDiffersIff | crates/ensemble/src/de.rs:57-84 | the trial differs from the target iff the parents disagree at a locus taken from the mutant |
| Masks.TrialCanEqualTarget | crates/ensemble/src/de.rs:57-60 | concrete parents and draws for which it does not differ, contrary to the comment |
| Masks.TrialAlwaysDiffersIff | crates/ensemble/src/de.rs:57-84 | it differs for every draw iff the rate is at least one and the parents differ, or the parents differ at every locus |
| Draws.PickThreeDistinct | crates/ensemble/src/search.rs:156-167 | whenever three donors turn up at all, ends just after the third, with the first three residues drawn that differ from the target and from each other; every draw in between repeats one of those |
| Draws.NeverStarvesIff | crates/ensemble/src/search.rs:156-167 | the loop ends for every target from every position of a stream iff four residues keep turning up in it |
| Draws.RepairNonempty | crates/ensemble/src/search.rs:147-153 | an empty pool or a mask with a member costs no draw and is unchanged; otherwise one draw names the one locus set |
| Draws.RandomMask | crates/ensemble/src/search.rs:141-144 | one draw a locus, then the repair |
| Draws.RandomMaskMeaning | crates/ensemble/src/search.rs:135-153 | a locus is set iff the top 53 bits of its own draw fall below the density; if none does, exactly the locus the next draw names is |
| Draws.BinomialCrossover | crates/ensemble/src/de.rs:61-84 | one draw names the guaranteed locus, then one draw a locus: a locus comes from the mutant iff it is the guaranteed one or its draw falls below the rate |
| Draws.BelowIffUniform | crates/ensemble/src/de.rs:72-79 | comparing the 53-bit fraction with the rate clamped to [0, 1] is comparing the draw's top bits with that share of 2^53 |
| Search.StepKeeps | crates/ensemble/src/search.rs:207-217 | a challenge keeps every mask at the pool's length with a member, every stored score the score of its mask, lets no slot score fall, and the slot ends at least as good as the challenger |
| Search.SweepKeeps | crates/ensemble/src/search.rs:207-217 | the same for any part of a generation, with the slots challenged in order against the population as it then stands |
| Search.AfterKeeps | crates/ensemble/src/search.rs:206-219 | the same over any number of generations |
| Search.TrialMeaning | crates/ensemble/src/search.rs:207-210 | for every population and slot: the donors are the first three distinct other slots drawn; at each locus taken from the mutant the unrepaired challenger differs from the first donor iff the other two differ, at every other it is the slot's own; an empty one gains exactly the locus drawn |
| Search.StepOfARun | crates/ensemble/src/search.rs:206-217 | every step of every generation: the slot takes that challenger with its score iff it scores at least as well, no other slot changes, and a generation starts where the one before it ended |
| Search.SeededMeaning | crates/ensemble/src/search.rs:193-198 | the first population has at least four masks, each drawn where the last ended from position zero, and scored |
| Search.BestOfEveryTrial | crates/ensemble/src/search.rs:206-231 | the best at the end is at least as good as every challenger ever tried, taken or not |
| Search.ReportsAreSound | crates/ensemble/src/search.rs:206-231 | the reported score is the score of the reported mask; the history never falls, never exceeds it and ends at it |
| Search.Generation | crates/ensemble/src/search.rs:206-217 | the loop over slots is the specified sweep, draw for draw, whose every step `StepOfARun` spells out |
| Search.Evolve | crates/ensemble/src/search.rs:205-219 | the loop over generations is the specified run; the history holds the best after each |
| Search.RunDe | crates/ensemble/src/search.rs:173-231 | the whole run is a function of the stream (deterministic in the seed), an empty pool scores −∞, and the report is sound for every stream; ties go to the last best slot |
| Search.SearchPortfolio | crates/ensemble/src/search.rs:279-296 | the reported score is the robust-basin score of the reported mask, and its sample size is ⌊t/k⌋ for two or more members |
| Search.SearchPortfolioRegimeAware | crates/ensemble/src/regime.rs:166-183 | the reported score is the regime-aware score of the reported mask, with non-negative weight never above its plain score, and its sample size is ⌊t/k⌋ for two or more members |
| Netting.Net | crates/hedger/src/live_netter.rs:112-127 | the accumulated net is the sum of the signed leg targets |
| Netting.OneMoreLeg | crates/hedger/src/live_netter.rs:69-127 | a leg moves its own side, and only that, by weight times basis points over ten thousand; no legs is a flat book |
| Netting.ApplySizer | crates/hedger/src/live_netter.rs:183-205 | the reassigned book is the scaled, clamped one |
| Netting.SizedBook | crates/hedger/src/live_netter.rs:183-205 | sizing keeps net = long − short and the net magnitude at most the gross, puts that magnitude within the cap, and an identity sizer changes nothing |
| Netting.SizingIsExact | crates/hedger/src/live_netter.rs:183-205 | net, long and short are scaled by one factor, the multiplier itself while that stays within the cap, and the net magnitude is exactly the multiplied one or the cap, whichever is smaller |
| Netting.NetPositionsSized | crates/hedger/src/live_netter.rs:169-178 | with non-negative weights the netted, sized book is a two-sided book within the cap |
| Netting.GatedContributeNothing | crates/hedger/src/live_netter.rs:129-154 | netting clamped decisions is netting the unclamped ones with the gated strategies' weights struck out |
| Governor.MostSevere | crates/hedger/src/pretrade.rs:74-79 | returns an outcome present among the breaches that none outranks; none iff there is no breach |
| Governor.ListedIffBreached | crates/hedger/src/pretrade.rs:106-232 | a breach is listed iff its cap is broken, each with its own outcome |
| Governor.CheckClamps | crates/hedger/src/pretrade.rs:111-146 | the two clamp caps narrow the magnitude step by step to the least cap hit |
| Governor.Check | crates/hedger/src/pretrade.rs:106-247 | the breaches are exactly the caps broken, in order; any reject refuses; otherwise the clamped magnitude is sent with the sign of the target |
| Governor.WorstDecides | crates/hedger/src/pretrade.rs:233-246 | reject iff a reject cap is broken, clamp iff only clamp caps are, never halt |
| Governor.SendIsWithinCaps | crates/hedger/src/pretrade.rs:106-247 | with non-negative caps: sent iff no reject cap is broken; never larger than the target or a clamp cap; never the other side; unchanged when no clamp cap is hit |
| Governor.RefusedIff | crates/hedger/src/pretrade.rs:148-246 | refused iff the gross or net exceeds its cap, equity does not cover floor plus maintenance rate times the position, maintenance margin exceeds its share of the margin, or the position exceeds its share of a volume that must be known and positive |
| Governor.SentMeaning | crates/hedger/src/pretrade.rs:111-146 | what is sent keeps its side, and its size is the least of the target, the notional cap and the leverage cap times equity, zero without equity |
| Governor.SentIsLargest | crates/hedger/src/pretrade.rs:111-146 | nothing is given away: any size within the target and both clamp caps is at most what is sent |
| Governor.SentIsStable | crates/hedger/src/pretrade.rs:106-247 | a sent order checked again on its own is sent unchanged with no breach, given a gross at least the net magnitude |
| Governor.KeepsSideIff | crates/hedger/src/pretrade.rs:111-121 | for every governor: no target is ever sent on the other side iff the notional cap is not negative, or a negative gross or net cap refuses everything |
| Governor.SizedBookMeetsLeverageIff | crates/hedger/src/live_netter.rs:156-168 | a book sized against a leverage cap and planned breaks the equal pre-trade cap iff equity is negative and the book is not flat |
| Governor.PlannedGrossCoversNet | crates/hedger/src/hedger.rs:48-56 | the planned gross is never below the planned net |
| Governor.PlanReadsBack | crates/hedger/src/hedger.rs:48-56 | net and gross are read back from the plan by dividing by the equity; without equity the plan is flat |
| Calendar.NextDayIsOneMore | crates/config/src/universe.rs:177-203 | for every valid date, the next calendar day by month lengths and the leap rule is one more |
| Calendar.EpochIsZero | crates/config/src/universe.rs:192-203 | 1970-01-01 is day 0 |
| Calendar.CountsDays | crates/config/src/universe.rs:192-203 | stepping n days from the epoch, either way, gives day number n: the era arithmetic is naive day counting |
| Calendar.UndoesCounting | crates/config/src/universe.rs:192-203 | every valid date is recovered from its day number |
| Calendar.OrderIsCalendarOrder | crates/config/src/universe.rs:192-203 | day numbers order dates as the calendar does; distinct dates get distinct numbers |
| Calendar.ParseUndoesIso | crates/config/src/universe.rs:154-174 | printing a four-digit-year date and parsing it gives its midnight |
| Calendar.ParseAcceptsExactly | crates/config/src/universe.rs:154-174 | a text parses to a value iff it is the ten-character form of a valid date (`full-date`, section 5.6 of RFC 3339) and the value is that date's midnight |
| Calendar.ParseIsInjective | crates/config/src/universe.rs:154-174 | two accepted texts with one midnight are one text |
| SeedMix.XorShiftInverts | crates/determinism/src/rng.rs:46-51 | z ^ (z >> k) loses nothing on 64-bit words |
| SeedMix.MixIsBijective | crates/determinism/src/rng.rs:46-51 | `splitmix64` is a bijection on 64-bit words, with its inverse written out |
| SeedMix.DerivationInverts | crates/determinism/src/rng.rs:31-33 | the index can be read back given the master, and the master given the index |
| SeedMix.SeedsNeverCollide | crates/determinism/src/rng.rs:25-33 | distinct indices under one master, or one index under distinct masters, never share a seed |
| Firewall.Reachable | crates/architecture/src/lib.rs:399-410 | the worklist terminates on cyclic graphs and returns exactly the crates joined to the start by a non-empty path |
| Firewall.StartOnCycleIff | crates/architecture/src/lib.rs:396-410 | the start itself is included iff it lies on a cycle |
| Firewall.StartCanBeReached | crates/architecture/src/lib.rs:396-410 | a concrete graph whose start is included, contrary to the comment |
| Firewall.CheckFirewall | crates/architecture/src/lib.rs:549-563 | the list is exactly the breaches, in rule and listing order; empty iff no upstream has a path to a crate it forbids |
| Firewall.FewerEdgesReachLess | crates/architecture/src/lib.rs:399-410 | adding dependencies can only add breaches |
| Fingerprint.RunFingerprint | crates/cli/src/lib.rs:109-125 | the bytes fed to the hash are the length-prefixed kind, keys and values in order |
| Fingerprint.FieldMeaning | crates/cli/src/lib.rs:109-115 | a field is the decimal length, a colon and the bytes |
| Fingerprint.FieldsInOrder | crates/cli/src/lib.rs:116-125 | the kind is fed first, then the parameters in order, each key before its value |
| Fingerprint.DecodeUndoesEncode | crates/cli/src/lib.rs:104-121 | those bytes decode to the kind and the ordered parameters, for arbitrary bytes |
| Fingerprint.EncodingIsInjective | crates/cli/src/lib.rs:104-121 | equal bytes mean equal kind and parameters |
| Fingerprint.SubsetsCollideIff | crates/cli/src/lib.rs:203-208 | runs that differ in the indicator subset alone feed the same bytes iff the subsets have the same atoms: their names split at commas, one empty name for an absent or empty list |
| Fingerprint.PlainSubsetsNeverCollide | crates/cli/src/lib.rs:203-208 | absent subsets and non-empty lists of non-empty, comma-free names are told apart |
| Fingerprint.JoinReadsBackIff | crates/cli/src/lib.rs:203-208 | splitting at commas recovers a list iff it is non-empty and no name holds a comma |
| Fingerprint.IndicatorSubsetsCanCollide | crates/cli/src/lib.rs:203-208 | concrete distinct subsets that reach the hash as the same bytes |

## Left out

- Decimal and floating-point rounding, NaN, infinite weights and signed zeros: decimals and floats are exact reals; scores add the two infinities.
- Integer widths of counters and times (`bars_held`, sequence and trade numbers, streaks, alarms, millisecond times): unbounded integers, so their overflow is not modelled. Seeds are exact 64-bit words.
- The feature catalogue, the genome decision rules and the circuit-breaker tiers: parameters, used only as functions of their own state and inputs.
- Seeding the breakers with committed peaks (`seed_committed_peaks`) and the constructor that combines it with the cutover: the breaker a cutover is given may be in any state.
- The mark smoothing upstream of the link and the kill gate's order-limit interface (`admit_within_limits`): marks arrive as given, and only the kill gates an order.
- The human-readable detail texts of breaches, divergences and kill reasons built from numbers: the kind, outcome and quantities are modelled, the formatting is not.
- The debug-only check that a live bar has the base resolution: the cutover takes any bar, as the release build does.
- REST pagination, clocks, configuration and manifest parsing, persistence, the command line and the web server: I/O. Page order and repetition enter as arbitrary order and repetition of the window's bars.
- SHA-256 and ChaCha8: the fingerprint is modelled up to the bytes fed to the hash, the generator as an arbitrary stream of words. No claim of collision freedom or of statistical quality is made.
- Square-root-impact capacity, slippage cost, inverse-volatility seeding, CVaR, CDaR, Pearson correlation and its deflation: transcendental or statistical formulas, with no state to get wrong.
- Ensemble provenance clustering, pool sealing, vintage rollover, promotion thresholds, clock skew, money newtypes and enum conversions: would add only easy members.
- `Vec` capacity and in-place moves: the vectors of replay and of the search are sequences reassigned by the methods, so aliasing is not a question there.
- Search.RunDe: asks that the stream never starves the donor loop at any position, including positions the run does not reach; `Draws.NeverStarvesIff` says which streams those are.
- Stress.ShockBoundsEveryWindow: over paths whose periods lose at most everything; `Stress.ShocksBoundWindowsIff` shows that no weaker bound on the returns would do.
- Bootstrap.CoarseBarsAreBatch: for distinct tiers; repeated tiers emit the same bars more than once, interleaved.
