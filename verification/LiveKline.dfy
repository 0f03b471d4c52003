/** Streaming multi-resolution reconstruction: the roll-up of one tier, and the live kline source that
    stitches base bars and fans them out to every tier. */
module LiveKline {
  import opened Domain
  import opened Stitch

  datatype ReconError =
    | TargetNotCoarser(base: Resolution, target: Resolution)
    | TargetNotMultiple(base: Resolution, target: Resolution)
    | UnexpectedResolution(expected: Resolution, found: Resolution)
    | InvalidBar

  /** What creating a roll-up of `base` to `target` reports. */
  function TierError(base: Resolution, target: Resolution): Option<ReconError> {
    if Minutes(target) <= Minutes(base) then Some(TargetNotCoarser(base, target))
    else if Minutes(target) % Minutes(base) != 0 then Some(TargetNotMultiple(base, target))
    else None
  }

  /** A tier is sound exactly when its interval is two or more whole base intervals; otherwise the error says
      whether it is too short. */
  lemma TierErrorIff(base: Resolution, target: Resolution)
    ensures TierError(base, target) == None <==> exists k: nat :: k >= 2 && k * IntervalMs(base) == IntervalMs(target)
    ensures TierError(base, target) == Some(TargetNotCoarser(base, target)) <==> IntervalMs(target) <= IntervalMs(base)
    ensures TierError(base, target).Some? ==>
              TierError(base, target).value == TargetNotCoarser(base, target)
              || TierError(base, target).value == TargetNotMultiple(base, target)
  {
    var b, t := Minutes(base), Minutes(target);
    if TierError(base, target) == None {
      var k := t / b;
      assert t == k * b;
      assert k * (b * 60000) == (k * b) * 60000;
      assert k * IntervalMs(base) == IntervalMs(target);
    }
    if k: nat :| k >= 2 && k * IntervalMs(base) == IntervalMs(target) {
      assert k * (b * 60000) == (k * b) * 60000;
      MultipleGap(k - 1, b);
      WholeMultiple(k, b);
    }
  }

  lemma WholeMultiple(k: nat, b: nat)
    requires b > 0
    ensures (k * b) % b == 0
  {
    var q := (k * b) / b;
    assert k * b == q * b + (k * b) % b;
    MultiplesApart(q, k, b);
  }

  /** The in-progress aggregate of one target window. */
  datatype RawWindow = RawWindow(startMs: int, open: real, high: real, low: real, close: real, volume: real, trades: nat)

  function AsRawBar(w: RawWindow, target: Resolution): RawBar {
    RawBar(w.startMs, target, w.open, w.high, w.low, w.close, w.volume, w.trades)
  }

  /** A roll-up of valid bars always passes the validation of `Bar::new`. */
  type Window = w: RawWindow | ValidOhlc(AsRawBar(w, M1)) witness RawWindow(0, 0.0, 0.0, 0.0, 0.0, 0.0, 0)

  function WindowStart(openTime: int, target: Resolution): int {
    (openTime / IntervalMs(target)) * IntervalMs(target)
  }

  /** A bar's window is the only epoch-aligned target interval that holds its open time. */
  lemma WindowIsAligned(openTime: int, target: Resolution, k: int)
    ensures WindowStart(openTime, target) == k * IntervalMs(target)
            <==> k * IntervalMs(target) <= openTime < (k + 1) * IntervalMs(target)
  {
    var n := IntervalMs(target);
    var q := openTime / n;
    hide IntervalMs;
    assert q * n <= openTime < q * n + n;
    assert (k + 1) * n == k * n + n;
    MultiplesApart(q, k, n);
  }

  lemma MultiplesApart(p: int, q: int, n: int)
    requires n > 0
    ensures p < q ==> p * n + n <= q * n
    ensures p > q ==> q * n + n <= p * n
  {
    if p < q {
      MultipleGap(q - p, n);
    } else if p > q {
      MultipleGap(p - q, n);
    }
  }

  lemma MultipleGap(d: int, n: int)
    requires d >= 1 && n > 0
    ensures d * n >= n
  {
  }

  function OpenFrom(bar: Bar, startMs: int): Window {
    RawWindow(startMs, bar.open, bar.high, bar.low, bar.close, bar.volume, bar.trades)
  }

  function Fold(w: Window, bar: Bar): Window {
    RawWindow(w.startMs, w.open, Max(w.high, bar.high), Min(w.low, bar.low), bar.close,
              w.volume + bar.volume, w.trades + bar.trades)
  }

  function FinishWindow(w: RawWindow, target: Resolution): (r: Result<Option<Bar>, ReconError>)
    ensures r.Ok? <==> ValidOhlc(AsRawBar(w, M1))
  {
    var raw := AsRawBar(w, target);
    if ValidOhlc(raw) then Ok(Some(raw)) else Err(InvalidBar)
  }

  /** Assigns every bar to the window it falls into. */
  type Slotting = Bar -> int

  function SlotOf(target: Resolution): Slotting {
    (bar: Bar) => WindowStart(bar.openTime, target)
  }

  /** One step of a roll-up: the window it leaves open and the bar it completes. */
  function PushStep(slot: Slotting, target: Resolution, current: Option<Window>, bar: Bar)
    : (Option<Window>, Option<Bar>)
  {
    if current.Some? && current.value.startMs == slot(bar) then
      (Some(Fold(current.value, bar)), None)
    else
      (Some(OpenFrom(bar, slot(bar))), Completed(current, target))
  }

  function Completed(current: Option<Window>, target: Resolution): Option<Bar> {
    if current.Some? then Some(AsRawBar(current.value, target)) else None
  }

  function TierStep(tier: Resolution, window: Option<Window>, bar: Bar): (Option<Window>, Option<Bar>) {
    PushStep(SlotOf(tier), tier, window, bar)
  }

  function With(s: seq<Bar>, b: Option<Bar>): seq<Bar> {
    if b.Some? then s + [b.value] else s
  }

  class BarReconstructor {
    const base: Resolution
    const target: Resolution
    var current: Option<Window>

    constructor (base: Resolution, target: Resolution)
      requires TierError(base, target).None?
      ensures this.base == base && this.target == target && current == None
    {
      this.base, this.target := base, target;
      current := None;
    }

    method Push(bar: Bar) returns (r: Result<Option<Bar>, ReconError>)
      modifies this
      ensures bar.resolution != base ==> r == Err(UnexpectedResolution(base, bar.resolution)) && unchanged(this)
      ensures bar.resolution == base ==> r.Ok? && (current, r.value) == TierStep(target, old(current), bar)
    {
      if bar.resolution != base {
        return Err(UnexpectedResolution(base, bar.resolution));
      }
      var start := WindowStart(bar.openTime, target);
      if current.Some? && current.value.startMs == start {
        current := Some(Fold(current.value, bar));
        return Ok(None);
      }
      var completed := current;
      current := Some(OpenFrom(bar, start));
      if completed.None? {
        return Ok(None);
      }
      r := FinishWindow(completed.value, target);
    }

    method Finish() returns (r: Result<Option<Bar>, ReconError>)
      modifies this
      ensures current == None
      ensures r == Ok(Completed(old(current), target))
    {
      var completed := current;
      current := None;
      if completed.None? {
        return Ok(None);
      }
      r := FinishWindow(completed.value, target);
    }
  }

  // ----- What one tier computes: base bars grouped by target window -----

  /** Maximal runs of consecutive bars that fall into the same target window. */
  function Groups(s: seq<Bar>, slot: Slotting): (g: seq<seq<Bar>>)
    ensures (s == []) == (g == [])
    ensures forall i | 0 <= i < |g| :: g[i] != []
  {
    if s == [] then []
    else
      var g := Groups(s[..|s| - 1], slot);
      var b := s[|s| - 1];
      if g != [] && slot(g[|g| - 1][0]) == slot(b)
      then g[..|g| - 1] + [g[|g| - 1] + [b]]
      else g + [[b]]
  }

  /** The roll-up of one non-empty run. */
  function Summary(g: seq<Bar>, slot: Slotting): (w: Window)
    requires g != []
    ensures w.startMs == slot(g[0])
  {
    if |g| == 1 then OpenFrom(g[0], slot(g[0]))
    else Fold(Summary(g[..|g| - 1], slot), g[|g| - 1])
  }

  ghost predicate Aligned(t: int, target: Resolution) {
    exists k: int :: t == k * IntervalMs(target)
  }

  /** A bar that rolls up one run: it opens at the aligned target interval that holds every bar of the run, and
      carries the run's first open, extremes, last close, and its whole volume and trade count. */
  ghost predicate RollsUp(bar: Bar, g: seq<Bar>, target: Resolution)
    requires g != []
  {
    && bar.resolution == target && Aligned(bar.openTime, target)
    && (forall b | b in g :: bar.openTime <= b.openTime < bar.openTime + IntervalMs(target))
    && bar.open == g[0].open && bar.close == g[|g| - 1].close
    && (forall b | b in g :: bar.low <= b.low && b.high <= bar.high)
    && (exists b :: b in g && b.high == bar.high) && (exists b :: b in g && b.low == bar.low)
    && bar.volume == TotalVolume(g) && bar.trades == TotalTrades(g)
  }

  lemma WindowHolds(openTime: int, target: Resolution)
    ensures var start := WindowStart(openTime, target);
            Aligned(start, target) && start <= openTime < start + IntervalMs(target)
  {
    WindowIsAligned(openTime, target, openTime / IntervalMs(target));
    var n := IntervalMs(target);
    hide IntervalMs;
    assert (openTime / n + 1) * n == (openTime / n) * n + n;
  }

  /** What the source emits for a run of one window rolls that run up. */
  lemma {:induction false} EmittedBarMeaning(g: seq<Bar>, target: Resolution)
    requires g != [] && OneWindow(g, SlotOf(target))
    ensures RollsUp(AsRawBar(Summary(g, SlotOf(target)), target), g, target)
  {
    hide Summary, TotalVolume, TotalTrades, IntervalMs, WindowStart, Aligned;
    SummaryMeaning(g, SlotOf(target));
    forall b | b in g
      ensures var start := WindowStart(g[0].openTime, target);
              Aligned(start, target) && start <= b.openTime < start + IntervalMs(target)
    {
      assert SlotOf(target)(b) == WindowStart(b.openTime, target);
      WindowHolds(b.openTime, target);
    }
    assert g[0] in g;
  }

  function TotalVolume(g: seq<Bar>): real {
    if g == [] then 0.0 else TotalVolume(g[..|g| - 1]) + g[|g| - 1].volume
  }

  function TotalTrades(g: seq<Bar>): nat {
    if g == [] then 0 else TotalTrades(g[..|g| - 1]) + g[|g| - 1].trades
  }

  /** The roll-up opens with the first bar, closes with the last, spans exactly the extremes, and
      conserves volume and trade count. */
  lemma {:induction false} SummaryMeaning(g: seq<Bar>, slot: Slotting)
    requires g != []
    ensures var w := Summary(g, slot);
            && w.open == g[0].open && w.close == g[|g| - 1].close
            && (forall b | b in g :: w.low <= b.low && b.high <= w.high)
            && (exists b :: b in g && b.high == w.high)
            && (exists b :: b in g && b.low == w.low)
            && w.volume == TotalVolume(g) && w.trades == TotalTrades(g)
  {
    if |g| == 1 {
      assert g[0] in g;
      assert TotalVolume(g) == TotalVolume(g[..0]) + g[0].volume;
    } else {
      var init, last := g[..|g| - 1], g[|g| - 1];
      SummaryMeaning(init, slot);
      assert last in g;
      var w := Summary(init, slot);
      var hi :| hi in init && hi.high == w.high;
      var lo :| lo in init && lo.low == w.low;
      assert hi in g && lo in g;
    }
  }

  function Flatten(g: seq<seq<Bar>>): seq<Bar> {
    if g == [] then [] else Flatten(g[..|g| - 1]) + g[|g| - 1]
  }

  lemma FlattenAppend(g: seq<seq<Bar>>, last: seq<Bar>)
    ensures Flatten(g + [last]) == Flatten(g) + last
  {
  }

  /** How one more bar extends the runs. */
  lemma GroupsStep(s: seq<Bar>, slot: Slotting)
    requires |s| > 1
    ensures var g, g', b := Groups(s[..|s| - 1], slot), Groups(s, slot), s[|s| - 1];
            var init, last := g[..|g| - 1], g[|g| - 1];
            g == init + [last] &&
            if StartOf(last, slot) == slot(b)
            then g' == init + [last + [b]] else g' == init + [last] + [[b]]
  {
  }

  /** The runs partition the series in order. */
  lemma {:induction false} GroupsFlatten(s: seq<Bar>, slot: Slotting)
    ensures Flatten(Groups(s, slot)) == s
  {
    if |s| == 1 {
      assert s == [s[0]] && Groups(s[..0], slot) == [];
      FlattenAppend([], s);
    } else if s != [] {
      hide Groups, Flatten;
      var before, b := s[..|s| - 1], s[|s| - 1];
      var g := Groups(before, slot);
      GroupsFlatten(before, slot);
      GroupsStep(s, slot);
      FlattenOneMore(g[..|g| - 1], g[|g| - 1], b);
      assert s == before + [b];
    }
  }

  lemma FlattenOneMore(init: seq<seq<Bar>>, last: seq<Bar>, b: Bar)
    ensures Flatten(init + [last + [b]]) == Flatten(init + [last]) + [b] == Flatten(init + [last] + [[b]])
  {
    hide Flatten;
    FlattenAppend(init, last);
    FlattenAppend(init, last + [b]);
    FlattenAppend(init + [last], [b]);
  }

  function StartOf(g: seq<Bar>, slot: Slotting): int
    requires g != []
  {
    slot(g[0])
  }

  ghost predicate OneWindow(g: seq<Bar>, slot: Slotting)
    requires g != []
  {
    forall b | b in g :: slot(b) == StartOf(g, slot)
  }

  ghost predicate Ascend(g: seq<seq<Bar>>, slot: Slotting)
    requires forall i | 0 <= i < |g| :: g[i] != []
  {
    && (forall i | 0 <= i < |g| :: OneWindow(g[i], slot))
    && (forall i, j | 0 <= i < j < |g| :: StartOf(g[i], slot) < StartOf(g[j], slot))
  }

  lemma AscendAppend(g: seq<seq<Bar>>, last: seq<Bar>, slot: Slotting)
    requires last != [] && forall i | 0 <= i < |g| :: g[i] != []
    requires Ascend(g, slot) && OneWindow(last, slot)
    requires g == [] || StartOf(g[|g| - 1], slot) < StartOf(last, slot)
    ensures Ascend(g + [last], slot)
  {
  }

  lemma AscendExtend(init: seq<seq<Bar>>, last: seq<Bar>, b: Bar, slot: Slotting)
    requires last != [] && forall i | 0 <= i < |init| :: init[i] != []
    requires Ascend(init + [last], slot) && StartOf(last, slot) == slot(b)
    ensures Ascend(init + [last + [b]], slot)
  {
    var g, g' := init + [last], init + [last + [b]];
    assert g[|init|] == last;
    assert OneWindow(last + [b], slot) by {
      assert OneWindow(last, slot);
    }
    forall i | 0 <= i < |g'| ensures OneWindow(g'[i], slot) && StartOf(g'[i], slot) == StartOf(g[i], slot) {
      assert i < |init| ==> g'[i] == g[i];
    }
  }

  lemma SingletonAscends(b: Bar, slot: Slotting)
    ensures OneWindow([b], slot) && Ascend([[b]], slot)
  {
  }

  /** A later bar falls into the last run's window or a later one. */
  lemma NextWindow(s: seq<Bar>, slot: Slotting)
    requires |s| > 1 && StrictlyIncreasing(s) && Monotone(slot)
    requires Ascend(Groups(s[..|s| - 1], slot), slot)
    ensures var g := Groups(s[..|s| - 1], slot);
            StartOf(g[|g| - 1], slot) <= slot(s[|s| - 1])
  {
  }

  /** Each run lies in one target window, and windows ascend: one completed bar per window. */
  lemma {:induction false} GroupsAscend(s: seq<Bar>, slot: Slotting)
    requires StrictlyIncreasing(s) && Monotone(slot)
    ensures Ascend(Groups(s, slot), slot)
  {
    if |s| == 1 {
      assert Groups(s[..0], slot) == [] && s == [s[0]];
      SingletonAscends(s[0], slot);
    } else if s != [] {
      var b := s[|s| - 1];
      var g := Groups(s[..|s| - 1], slot);
      var init, last := g[..|g| - 1], g[|g| - 1];
      GroupsAscend(s[..|s| - 1], slot);
      NextWindow(s, slot);
      GroupsStep(s, slot);
      hide Ascend, Groups, Monotone, StrictlyIncreasing;
      if StartOf(last, slot) == slot(b) {
        AscendExtend(init, last, b, slot);
      } else {
        SingletonAscends(b, slot);
        AscendAppend(g, [b], slot);
      }
    }
  }

  ghost predicate Monotone(slot: Slotting) {
    forall a: Bar, b: Bar | a.openTime < b.openTime :: slot(a) <= slot(b)
  }

  lemma SlotsAreMonotone(target: Resolution)
    ensures Monotone(SlotOf(target))
  {
    forall a: Bar, b: Bar | a.openTime < b.openTime ensures SlotOf(target)(a) <= SlotOf(target)(b) {
      var n := IntervalMs(target);
      assert a.openTime / n <= b.openTime / n;
    }
  }

  /** A roll-up fed a series: the bars completed so far and the window still open. */
  function RollUp(s: seq<Bar>, slot: Slotting, target: Resolution): (r: (seq<Bar>, Option<Window>)) {
    if s == [] then ([], None)
    else
      var (done, current) := RollUp(s[..|s| - 1], slot, target);
      var (next, completed) := PushStep(slot, target, current, s[|s| - 1]);
      (With(done, completed), next)
  }

  function SummaryBars(g: seq<seq<Bar>>, slot: Slotting, target: Resolution): (r: seq<Bar>)
    requires forall i | 0 <= i < |g| :: g[i] != []
    ensures |r| == |g|
  {
    seq(|g|, i requires 0 <= i < |g| => AsRawBar(Summary(g[i], slot), target))
  }

  lemma SummaryBarsAppend(g: seq<seq<Bar>>, last: seq<Bar>, slot: Slotting, target: Resolution)
    requires last != [] && forall i | 0 <= i < |g| :: g[i] != []
    ensures SummaryBars(g + [last], slot, target) == SummaryBars(g, slot, target) + [AsRawBar(Summary(last, slot), target)]
  {
  }

  lemma SummaryAppend(g: seq<Bar>, b: Bar, slot: Slotting)
    requires g != []
    ensures Summary(g + [b], slot) == Fold(Summary(g, slot), b)
  {
  }

  lemma PushSameWindow(last: seq<Bar>, b: Bar, slot: Slotting, target: Resolution)
    requires last != [] && slot(last[0]) == slot(b)
    ensures PushStep(slot, target, Some(Summary(last, slot)), b) == (Some(Summary(last + [b], slot)), None)
  {
    SummaryAppend(last, b, slot);
  }

  lemma PushNextWindow(last: seq<Bar>, b: Bar, slot: Slotting, target: Resolution)
    requires last != [] && slot(last[0]) != slot(b)
    ensures PushStep(slot, target, Some(Summary(last, slot)), b)
            == (Some(Summary([b], slot)), Some(AsRawBar(Summary(last, slot), target)))
  {
  }

  lemma AllButLast(before: seq<seq<Bar>>, last: seq<Bar>)
    ensures var g := before + [last]; g[..|g| - 1] == before && g[|g| - 1] == last
  {
  }

  lemma RollUpStep(s: seq<Bar>, slot: Slotting, target: Resolution)
    requires s != []
    ensures var (done, current) := RollUp(s[..|s| - 1], slot, target);
            var (next, completed) := PushStep(slot, target, current, s[|s| - 1]);
            RollUp(s, slot, target) == (With(done, completed), next)
  {
  }

  /** Streaming equals batch: the completed bars summarise every run but the last, whose summary is
      the open window. */
  lemma {:induction false} RollUpIsGroups(s: seq<Bar>, slot: Slotting, target: Resolution)
    requires s != []
    ensures var g := Groups(s, slot);
            RollUp(s, slot, target) == (SummaryBars(g[..|g| - 1], slot, target), Some(Summary(g[|g| - 1], slot)))
  {
    if |s| == 1 {
      RollUpOfOne(s[0], slot, target);
      assert s == [s[0]];
    } else {
      hide Summary, SummaryBars, Groups, RollUp, PushStep;
      var init, b := s[..|s| - 1], s[|s| - 1];
      RollUpIsGroups(init, slot, target);
      RollUpStep(s, slot, target);
      GroupsStep(s, slot);
      var g, g' := Groups(init, slot), Groups(s, slot);
      var before, last := g[..|g| - 1], g[|g| - 1];
      if slot(last[0]) == slot(b) {
        AllButLast(before, last + [b]);
        PushSameWindow(last, b, slot, target);
      } else {
        AllButLast(before + [last], [b]);
        PushNextWindow(last, b, slot, target);
        SummaryBarsAppend(before, last, slot, target);
      }
    }
  }

  lemma RollUpOfOne(b: Bar, slot: Slotting, target: Resolution)
    ensures Groups([b], slot) == [[b]] && RollUp([b], slot, target) == ([], Some(Summary([b], slot)))
  {
    assert [b][..0] == [];
    assert Groups([b][..0], slot) == [] && RollUp([b][..0], slot, target) == ([], None);
  }

  // ----- The source: stitch, then fan out to every tier -----

  /** The value of a source between two calls: the stitch marker and each tier's open window. */
  datatype KlineState = KlineState(lastOpenMs: Option<int>, windows: seq<Option<Window>>)

  function NoBarsYet(tiers: seq<Resolution>): KlineState {
    KlineState(None, seq(|tiers|, _ => None))
  }

  function Present(row: seq<Option<Bar>>): seq<Bar> {
    if row == [] then []
    else With(Present(row[..|row| - 1]), row[|row| - 1])
  }

  lemma PresentAppend(row: seq<Option<Bar>>, last: Option<Bar>)
    ensures Present(row + [last]) == With(Present(row), last)
  {
  }

  /** A row lists its bars in place order: a present bar comes right after those of the places before it. */
  lemma {:induction false} PresentInOrder(row: seq<Option<Bar>>, i: nat)
    requires i < |row|
    ensures var before := |Present(row[..i])|;
            if row[i].Some? then before < |Present(row)| && Present(row)[before] == row[i].value
            else Present(row[..i + 1]) == Present(row[..i])
    ensures Present(row[..i]) <= Present(row) && (i == |row| - 1 && row[i].None? ==> Present(row) == Present(row[..i]))
  {
    assert row[..i + 1][..i] == row[..i];
    if i < |row| - 1 {
      PresentInOrder(row[..|row| - 1], i);
      assert row[..|row| - 1][..i] == row[..i] && row[..|row| - 1][..i + 1] == row[..i + 1];
    } else {
      assert row[..i + 1] == row;
    }
  }

  predicate Covered(s: KlineState, bar: Bar) {
    s.lastOpenMs.Some? && bar.openTime <= s.lastOpenMs.value
  }

  /** One base bar through the source: the new state and, per tier, the bar it completes. */
  function AcceptStep(tiers: seq<Resolution>, s: KlineState, bar: Bar): (r: (KlineState, seq<Option<Bar>>))
    requires |s.windows| == |tiers|
    ensures |r.0.windows| == |tiers|
  {
    if Covered(s, bar) then (s, [])
    else
      (KlineState(Some(bar.openTime),
        seq(|tiers|, i requires 0 <= i < |tiers| => TierStep(tiers[i], s.windows[i], bar).0)),
       seq(|tiers|, i requires 0 <= i < |tiers| => TierStep(tiers[i], s.windows[i], bar).1))
  }

  /** A run of deliveries: the state after it and the rows of completed bars, oldest first. */
  function Deliver(tiers: seq<Resolution>, s: KlineState, ds: seq<Bar>): (r: (KlineState, seq<seq<Option<Bar>>>))
    requires |s.windows| == |tiers|
    ensures |r.0.windows| == |tiers|
    ensures forall k | 0 <= k < |r.1| :: |r.1[k]| == |tiers| || r.1[k] == []
  {
    if ds == [] then (s, [])
    else
      var (s', rows) := Deliver(tiers, s, ds[..|ds| - 1]);
      var (s'', row) := AcceptStep(tiers, s', ds[|ds| - 1]);
      (s'', rows + [row])
  }

  function Emitted(rows: seq<seq<Option<Bar>>>): seq<Bar> {
    if rows == [] then [] else Emitted(rows[..|rows| - 1]) + Present(rows[|rows| - 1])
  }

  /** The bars tier `i` contributed to the emitted stream. */
  function OfTier(rows: seq<seq<Option<Bar>>>, i: nat): seq<Bar> {
    if rows == [] then []
    else
      var row := rows[|rows| - 1];
      With(OfTier(rows[..|rows| - 1], i), if i < |row| then row[i] else None)
  }

  lemma RollUpAppend(s: seq<Bar>, bar: Bar, tier: Resolution)
    ensures var (done, current) := RollUp(s, SlotOf(tier), tier);
            var (next, completed) := TierStep(tier, current, bar);
            RollUp(s + [bar], SlotOf(tier), tier) ==
              (With(done, completed), next)
  {
  }

  lemma OfTierAppend(rows: seq<seq<Option<Bar>>>, row: seq<Option<Bar>>, i: nat)
    ensures OfTier(rows + [row], i) == With(OfTier(rows, i), if i < |row| then row[i] else None)
  {
  }

  /** Whatever way deliveries overlap or repeat, and wherever priming ends and live begins, each tier
      sees exactly the strictly increasing subsequence, as if it ran alone on it. */
  lemma {:induction false} FanOutIsSolo(tiers: seq<Resolution>, ds: seq<Bar>, i: nat)
    requires i < |tiers|
    ensures var kept := KeepIncreasing(ds);
            var (s, rows) := Deliver(tiers, NoBarsYet(tiers), ds);
            && s.lastOpenMs == (if kept == [] then None else Some(kept[|kept| - 1].openTime))
            && (OfTier(rows, i), s.windows[i]) == RollUp(kept, SlotOf(tiers[i]), tiers[i])
  {
    if ds != [] {
      var init, bar := ds[..|ds| - 1], ds[|ds| - 1];
      FanOutIsSolo(tiers, init, i);
      var (s, rows) := Deliver(tiers, NoBarsYet(tiers), init);
      var row := AcceptStep(tiers, s, bar).1;
      OfTierAppend(rows, row, i);
      RollUpAppend(KeepIncreasing(init), bar, tiers[i]);
    }
  }

  function FinishRow(tiers: seq<Resolution>, s: KlineState): (r: seq<Option<Bar>>)
    requires |s.windows| == |tiers|
    ensures |r| == |tiers|
  {
    seq(|tiers|, i requires 0 <= i < |tiers| => Completed(s.windows[i], tiers[i]))
  }

  /** Live output plus the final flush of a tier is one bar per target window of the stitched series,
      in ascending order, each the roll-up of exactly the base bars of its window. */
  lemma TierIsBatch(tiers: seq<Resolution>, ds: seq<Bar>, i: nat)
    requires i < |tiers|
    ensures var slot := SlotOf(tiers[i]);
            var g := Groups(KeepIncreasing(ds), slot);
            var (s, rows) := Deliver(tiers, NoBarsYet(tiers), ds);
            && With(OfTier(rows, i), FinishRow(tiers, s)[i]) == SummaryBars(g, slot, tiers[i])
            && Flatten(g) == KeepIncreasing(ds) && Ascend(g, slot)
            && forall k | 0 <= k < |g| :: RollsUp(SummaryBars(g, slot, tiers[i])[k], g[k], tiers[i])
  {
    var slot, kept := SlotOf(tiers[i]), KeepIncreasing(ds);
    var g := Groups(kept, slot);
    FanOutIsSolo(tiers, ds, i);
    GroupsFlatten(kept, slot);
    SlotsAreMonotone(tiers[i]);
    GroupsAscend(kept, slot);
    if kept != [] {
      RollUpIsGroups(kept, slot, tiers[i]);
      SummaryBarsAppend(g[..|g| - 1], g[|g| - 1], slot, tiers[i]);
      assert g == g[..|g| - 1] + [g[|g| - 1]];
    }
    forall k | 0 <= k < |g| ensures RollsUp(SummaryBars(g, slot, tiers[i])[k], g[k], tiers[i]) {
      EmittedBarMeaning(g[k], tiers[i]);
    }
  }

  // ----- The flat stream the source emits -----

  function OfResolution(s: seq<Bar>, r: Resolution): seq<Bar> {
    if s == [] then []
    else With(OfResolution(s[..|s| - 1], r), if s[|s| - 1].resolution == r then Some(s[|s| - 1]) else None)
  }

  lemma {:induction false} OfResolutionConcat(a: seq<Bar>, b: seq<Bar>, r: Resolution)
    ensures OfResolution(a + b, r) == OfResolution(a, r) + OfResolution(b, r)
  {
    if b == [] {
      assert a + b == a;
    } else {
      OfResolutionConcat(a, b[..|b| - 1], r);
      assert (a + b)[..|a + b| - 1] == a + b[..|b| - 1];
    }
  }

  /** A row of completed bars: empty, or at most one bar of each tier, in its place. */
  ghost predicate TierRow(tiers: seq<Resolution>, row: seq<Option<Bar>>) {
    row == [] || (|row| == |tiers| && forall j | 0 <= j < |row| && row[j].Some? :: row[j].value.resolution == tiers[j])
  }

  ghost predicate DistinctTiers(tiers: seq<Resolution>) {
    forall i, j | 0 <= i < j < |tiers| :: tiers[i] != tiers[j]
  }

  lemma OfResolutionOneMore(s: seq<Bar>, b: Bar, r: Resolution)
    ensures OfResolution(s + [b], r) == if b.resolution == r then OfResolution(s, r) + [b] else OfResolution(s, r)
  {
    assert (s + [b])[..|s|] == s;
  }

  lemma {:induction false} RowOfTier(tiers: seq<Resolution>, row: seq<Option<Bar>>, n: nat, i: nat)
    requires TierRow(tiers, row) && DistinctTiers(tiers) && i < |tiers| && n <= |row|
    ensures OfResolution(Present(row[..n]), tiers[i]) == if i < n && row[i].Some? then [row[i].value] else []
  {
    if n > 0 {
      hide OfResolution, Present;
      RowOfTier(tiers, row, n - 1, i);
      assert row[..n] == row[..n - 1] + [row[n - 1]];
      PresentAppend(row[..n - 1], row[n - 1]);
      if row[n - 1].Some? {
        OfResolutionOneMore(Present(row[..n - 1]), row[n - 1].value, tiers[i]);
        assert n - 1 == i || tiers[n - 1] != tiers[i];
      }
    }
  }

  lemma {:induction false} DeliverGivesTierRows(tiers: seq<Resolution>, s: KlineState, ds: seq<Bar>, k: nat)
    requires |s.windows| == |tiers| && k < |Deliver(tiers, s, ds).1|
    ensures TierRow(tiers, Deliver(tiers, s, ds).1[k])
  {
    var init := ds[..|ds| - 1];
    if k < |Deliver(tiers, s, init).1| {
      DeliverGivesTierRows(tiers, s, init, k);
    }
  }

  lemma {:induction false} EmittedOfTier(tiers: seq<Resolution>, rows: seq<seq<Option<Bar>>>, i: nat)
    requires DistinctTiers(tiers) && i < |tiers| && forall k | 0 <= k < |rows| :: TierRow(tiers, rows[k])
    ensures OfResolution(Emitted(rows), tiers[i]) == OfTier(rows, i)
  {
    if rows != [] {
      var row := rows[|rows| - 1];
      EmittedOfTier(tiers, rows[..|rows| - 1], i);
      OfResolutionConcat(Emitted(rows[..|rows| - 1]), Present(row), tiers[i]);
      RowOfTier(tiers, row, |row|, i);
      assert row[..|row|] == row;
    }
  }

  /** What the source emits and flushes is one flat list. With distinct tiers, its bars of one tier's
      resolution, in order, are exactly the roll-ups of that tier's windows. */
  lemma FlatStreamIsBatch(tiers: seq<Resolution>, ds: seq<Bar>, i: nat)
    requires DistinctTiers(tiers) && i < |tiers|
    ensures var (s, rows) := Deliver(tiers, NoBarsYet(tiers), ds);
            OfResolution(Emitted(rows) + Present(FinishRow(tiers, s)), tiers[i])
            == SummaryBars(Groups(KeepIncreasing(ds), SlotOf(tiers[i])), SlotOf(tiers[i]), tiers[i])
  {
    var (s, rows) := Deliver(tiers, NoBarsYet(tiers), ds);
    var last := FinishRow(tiers, s);
    forall k | 0 <= k < |rows| ensures TierRow(tiers, rows[k]) {
      DeliverGivesTierRows(tiers, NoBarsYet(tiers), ds, k);
    }
    EmittedOfTier(tiers, rows, i);
    OfResolutionConcat(Emitted(rows), Present(last), tiers[i]);
    RowOfTier(tiers, last, |last|, i);
    assert last[..|last|] == last;
    TierIsBatch(tiers, ds, i);
  }

  /** Priming with one part of the deliveries and going live with the rest is one run. */
  lemma {:induction false} PrimeThenLive(tiers: seq<Resolution>, s: KlineState, a: seq<Bar>, b: seq<Bar>)
    requires |s.windows| == |tiers|
    ensures var (s', rows) := Deliver(tiers, s, a);
            Deliver(tiers, s, a + b) == (Deliver(tiers, s', b).0, rows + Deliver(tiers, s', b).1)
  {
    if b == [] {
      assert a + b == a;
      var rows := Deliver(tiers, s, a).1;
      assert rows + [] == rows;
    } else {
      PrimeThenLive(tiers, s, a, b[..|b| - 1]);
      assert (a + b)[..|a + b| - 1] == a + b[..|b| - 1];
      var (s', rows) := Deliver(tiers, s, a);
      var (s'', rows') := Deliver(tiers, s', b[..|b| - 1]);
      var row := AcceptStep(tiers, s'', b[|b| - 1]).1;
      assert (rows + rows') + [row] == rows + (rows' + [row]);
    }
  }

  function FirstTierError(base: Resolution, tiers: seq<Resolution>): Option<ReconError> {
    if tiers == [] then None
    else if TierError(base, tiers[0]).Some? then TierError(base, tiers[0])
    else FirstTierError(base, tiers[1..])
  }

  /** The first delivery whose resolution is not the base. */
  function FirstStranger(base: Resolution, bars: seq<Bar>): (r: Option<Bar>)
    ensures r.None? <==> forall b | b in bars :: b.resolution == base
  {
    if bars == [] then None
    else if bars[0].resolution != base then Some(bars[0])
    else
      assert bars == [bars[0]] + bars[1..];
      FirstStranger(base, bars[1..])
  }

  /** The tier error reported is the first: every tier before it is sound. */
  lemma {:induction false} FirstTierErrorAt(base: Resolution, tiers: seq<Resolution>) returns (i: nat)
    ensures i <= |tiers| && forall j | 0 <= j < i :: TierError(base, tiers[j]) == None
    ensures if i == |tiers| then FirstTierError(base, tiers) == None
            else FirstTierError(base, tiers) == TierError(base, tiers[i]) != None
  {
    hide TierError;
    i := 0;
    if tiers != [] && TierError(base, tiers[0]) == None {
      i := FirstTierErrorAt(base, tiers[1..]);
      assert forall j | 0 < j <= i && j < |tiers| :: tiers[j] == tiers[1..][j - 1];
      i := i + 1;
    }
  }

  /** The foreign delivery reported is the first: every delivery before it has the base resolution. */
  lemma {:induction false} FirstStrangerAt(base: Resolution, bars: seq<Bar>) returns (i: nat)
    ensures i <= |bars| && forall j | 0 <= j < i :: bars[j].resolution == base
    ensures if i == |bars| then FirstStranger(base, bars) == None
            else FirstStranger(base, bars) == Some(bars[i]) && bars[i].resolution != base
  {
    i := 0;
    if bars != [] && bars[0].resolution == base {
      i := FirstStrangerAt(base, bars[1..]);
      assert forall j | 0 < j <= i && j < |bars| :: bars[j] == bars[1..][j - 1];
      i := i + 1;
    }
  }

  class LiveKlineSource {
    const base: Resolution
    const reconstructors: seq<BarReconstructor>
    var lastOpenMs: Option<int>

    ghost predicate Valid()
      reads this
    {
      && (forall i | 0 <= i < |reconstructors| :: reconstructors[i].base == base)
      && (forall i, j | 0 <= i < j < |reconstructors| :: reconstructors[i] != reconstructors[j])
    }

    ghost function Tiers(): (t: seq<Resolution>)
      ensures |t| == |reconstructors|
    {
      seq(|reconstructors|, i requires 0 <= i < |reconstructors| => reconstructors[i].target)
    }

    ghost function State(): (s: KlineState)
      reads this, reconstructors
      ensures |s.windows| == |reconstructors|
    {
      KlineState(lastOpenMs,
        seq(|reconstructors|, i requires 0 <= i < |reconstructors| reads reconstructors => reconstructors[i].current))
    }

    constructor (base: Resolution, reconstructors: seq<BarReconstructor>)
      ensures this.base == base && this.reconstructors == reconstructors && lastOpenMs == None
    {
      this.base, this.reconstructors, lastOpenMs := base, reconstructors, None;
    }

    /** One reconstructor per tier, or the first invalid tier's error. */
    static method New(base: Resolution, tiers: seq<Resolution>) returns (r: Result<LiveKlineSource, ReconError>)
      ensures r.Err? <==> FirstTierError(base, tiers).Some?
      ensures r.Err? ==> r.error == FirstTierError(base, tiers).value
      ensures r.Ok? ==> fresh(r.value) && fresh(r.value.reconstructors) && r.value.base == base
      ensures r.Ok? ==> r.value.Valid() && r.value.Tiers() == tiers && r.value.State() == NoBarsYet(tiers)
    {
      var recons: seq<BarReconstructor> := [];
      for i := 0 to |tiers|
        invariant |recons| == i && fresh(recons)
        invariant FirstTierError(base, tiers) == FirstTierError(base, tiers[i..])
        invariant forall k | 0 <= k < i ::
                    recons[k].base == base && recons[k].target == tiers[k] && recons[k].current == None
        invariant forall j, k | 0 <= j < k < i :: recons[j] != recons[k]
      {
        assert tiers[i..][1..] == tiers[i + 1..];
        var error := TierError(base, tiers[i]);
        if error.Some? {
          return Err(error.value);
        }
        var recon := new BarReconstructor(base, tiers[i]);
        recons := recons + [recon];
      }
      var source := new LiveKlineSource(base, recons);
      r := Ok(source);
    }

    /** Drops a covered bar; otherwise advances the marker and pushes the bar into every tier. */
    method Accept(bar: Bar) returns (r: Result<seq<Bar>, ReconError>)
      requires Valid()
      modifies this, reconstructors
      ensures Valid()
      ensures bar.resolution != base ==>
                r == Err(UnexpectedResolution(base, bar.resolution)) && State() == old(State())
      ensures bar.resolution == base ==>
                && State() == AcceptStep(Tiers(), old(State()), bar).0
                && r == Ok(Present(AcceptStep(Tiers(), old(State()), bar).1))
    {
      hide PushStep, TierStep, WindowStart;
      if bar.resolution != base {
        return Err(UnexpectedResolution(base, bar.resolution));
      }
      if lastOpenMs.Some? && bar.openTime <= lastOpenMs.value {
        return Ok([]);
      }
      ghost var before := State();
      ghost var row := AcceptStep(Tiers(), before, bar).1;
      lastOpenMs := Some(bar.openTime);
      var completed: seq<Bar> := [];
      for i := 0 to |reconstructors|
        invariant completed == Present(row[..i])
        invariant forall k | 0 <= k < i ::
                    reconstructors[k].current == TierStep(reconstructors[k].target, before.windows[k], bar).0
        invariant forall k | i <= k < |reconstructors| :: reconstructors[k].current == before.windows[k]
        modifies reconstructors
      {
        var done := reconstructors[i].Push(bar);
        assert done == Ok(row[i]);
        PresentAppend(row[..i], row[i]);
        assert row[..i + 1] == row[..i] + [row[i]];
        if done.value.Some? {
          completed := completed + [done.value.value];
        }
      }
      assert row[..|row|] == row;
      assert State().windows == AcceptStep(Tiers(), before, bar).0.windows;
      r := Ok(completed);
    }

    /** Feeds closed historical bars in order; stops at the first bar of another resolution. */
    method Prime(bars: seq<Bar>) returns (r: Result<seq<Bar>, ReconError>)
      requires Valid()
      modifies this, reconstructors
      ensures Valid()
      ensures match FirstStranger(base, bars)
              case Some(b) => r == Err(UnexpectedResolution(base, b.resolution))
              case None =>
                && State() == Deliver(Tiers(), old(State()), bars).0
                && r == Ok(Emitted(Deliver(Tiers(), old(State()), bars).1))
    {
      var out: seq<Bar> := [];
      ghost var before := State();
      for i := 0 to |bars|
        invariant Valid()
        invariant FirstStranger(base, bars) == FirstStranger(base, bars[i..])
        invariant State() == Deliver(Tiers(), before, bars[..i]).0
        invariant out == Emitted(Deliver(Tiers(), before, bars[..i]).1)
      {
        assert bars[i..][1..] == bars[i + 1..];
        assert bars[..i + 1][..i] == bars[..i];
        var done := Accept(bars[i]);
        if done.Err? {
          return Err(done.error);
        }
        ghost var rows := Deliver(Tiers(), before, bars[..i]).1;
        ghost var rows' := Deliver(Tiers(), before, bars[..i + 1]).1;
        assert rows'[..|rows|] == rows;
        out := out + done.value;
      }
      assert bars[..|bars|] == bars;
      r := Ok(out);
    }

    /** Flushes every tier's open window, in tier order. */
    method Finish() returns (out: seq<Bar>)
      requires Valid()
      modifies reconstructors
      ensures Valid()
      ensures out == Present(FinishRow(Tiers(), old(State())))
      ensures State() == KlineState(old(lastOpenMs), NoBarsYet(Tiers()).windows)
    {
      out := [];
      ghost var before := State();
      ghost var row := FinishRow(Tiers(), before);
      for i := 0 to |reconstructors|
        invariant out == Present(row[..i])
        invariant forall k | 0 <= k < i :: reconstructors[k].current == None
        invariant forall k | i <= k < |reconstructors| :: reconstructors[k].current == before.windows[k]
      {
        var done := reconstructors[i].Finish();
        assert done == Ok(row[i]);
        PresentAppend(row[..i], row[i]);
        assert row[..i + 1] == row[..i] + [row[i]];
        if done.value.Some? {
          out := out + [done.value.value];
        }
      }
      assert row[..|row|] == row;
    }
  }
}
