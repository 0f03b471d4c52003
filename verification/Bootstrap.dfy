/** Cold-start replay: context series and base bars are merged into one timeline and pushed through the
    evaluator. The merge is proved equal to a per-bar as-of lookup on the raw series. */
module Bootstrap {
  import opened Domain
  import opened Evaluator
  import opened LiveKline
  import opened StableSort
  import opened Stitch

  datatype Observation = Observation(ts: int, value: real)

  /** The decoded inputs of one cold start, each list in any order. */
  datatype HistoricalWindow = HistoricalWindow(
    base: Resolution,
    bars: seq<Bar>,
    funding: seq<Observation>,
    openInterest: seq<Observation>,
    premium: seq<Observation>,
    markPrice: seq<Observation>)

  datatype Channel = Funding | OpenInterest | Premium | Mark

  function SeriesOf(w: HistoricalWindow, c: Channel): seq<Observation> {
    match c
    case Funding => w.funding
    case OpenInterest => w.openInterest
    case Premium => w.premium
    case Mark => w.markPrice
  }

  // ----- Pull: the value a series has at a time -----

  /** The observation with the greatest timestamp not after `t`; the last one in input order on ties. */
  function AsOf(series: seq<Observation>, t: int): Option<Observation> {
    if series == [] then None
    else Newer(AsOf(series[..|series| - 1], t), series[|series| - 1], t)
  }

  function Newer(best: Option<Observation>, o: Observation, t: int): Option<Observation> {
    if o.ts <= t && (best.None? || best.value.ts <= o.ts) then Some(o) else best
  }

  /** Nothing at index `j` is preferred to index `i` at time `t`. */
  ghost predicate Preferred(series: seq<Observation>, t: int, i: nat)
    requires i < |series|
  {
    && series[i].ts <= t
    && forall j | 0 <= j < |series| && series[j].ts <= t ::
         series[j].ts < series[i].ts || (series[j].ts == series[i].ts && j <= i)
  }

  /** The chosen observation is the preferred one, and there is none only if every one is later. */
  lemma {:induction false} AsOfMeaning(series: seq<Observation>, t: int)
    ensures AsOf(series, t).None? <==> forall j | 0 <= j < |series| :: t < series[j].ts
    ensures AsOf(series, t).Some? ==>
              exists i :: 0 <= i < |series| && series[i] == AsOf(series, t).value && Preferred(series, t, i)
    decreases |series|, 1
  {
    if series != [] {
      AsOfMeaning(series[..|series| - 1], t);
    }
    if AsOf(series, t).Some? {
      var i := AsOfIndex(series, t);
    }
  }

  lemma {:induction false} AsOfIndex(series: seq<Observation>, t: int) returns (i: nat)
    requires AsOf(series, t).Some?
    ensures i < |series| && series[i] == AsOf(series, t).value && Preferred(series, t, i)
    decreases |series|, 0
  {
    var n := |series| - 1;
    var before := AsOf(series[..n], t);
    i := n;
    if before.Some? {
      var k := AsOfIndex(series[..n], t);
      if !(series[n].ts <= t && before.value.ts <= series[n].ts) {
        i := k;
      }
    } else {
      AsOfMeaning(series[..n], t);
    }
  }

  function ValueAsOf(series: seq<Observation>, t: int): Option<real> {
    var o := AsOf(series, t);
    if o.Some? then Some(o.value.value) else None
  }

  function ContextAsOf(w: HistoricalWindow, t: int): Context {
    Context(ValueAsOf(w.funding, t), ValueAsOf(w.openInterest, t), ValueAsOf(w.premium, t))
  }

  /** The pull specification of replay: each bar is evaluated against an as-of lookup of its own. */
  function Pull<A, F, G>(cat: Catalogue<A, F, G>, genomes: seq<G>, w: HistoricalWindow, bars: seq<Bar>)
    : (r: (SessionState<A>, seq<EvalOutput>))
    ensures |r.0.positions| == |genomes| && |r.1| == |bars|
  {
    if bars == [] then (FreshState(cat, genomes), [])
    else
      var (s, outs) := Pull(cat, genomes, w, bars[..|bars| - 1]);
      var bar := bars[|bars| - 1];
      var (s', out) := Evaluate(cat, genomes, s.(context := ContextAsOf(w, bar.openTime)), bar);
      (s', outs + [out])
  }

  /** The chromosomes of a vintage do not affect each other: over any bars, each decides what a vintage of
      that genome alone decides, and holds what it holds. */
  lemma {:induction false} ChromosomesAreIndependent<A, F, G>(
      cat: Catalogue<A, F, G>, genomes: seq<G>, w: HistoricalWindow, bars: seq<Bar>, i: nat)
    requires i < |genomes|
    ensures var (s, outs) := Pull(cat, genomes, w, bars);
            var (alone, solo) := Pull(cat, [genomes[i]], w, bars);
            && s.positions[i] == alone.positions[0] && s.assembler == alone.assembler && s.mode == alone.mode
            && forall k | 0 <= k < |bars| ::
                 && |outs[k].decisions| == |genomes| && |solo[k].decisions| == 1
                 && outs[k].decisions[i] == ChromosomeDecision(i, solo[k].decisions[0].decision)
  {
    if bars != [] {
      ChromosomesAreIndependent(cat, genomes, w, bars[..|bars| - 1], i);
    }
  }

  /** Each bar with the as-of value of every context series at its open time. */
  function SamplesOf(w: HistoricalWindow, bars: seq<Bar>): (r: seq<Sample>)
    ensures |r| == |bars|
    ensures forall k | 0 <= k < |r| ::
              && r[k].bar == bars[k]
              && r[k].context.funding == ValueAsOf(w.funding, bars[k].openTime)
              && r[k].context.openInterest == ValueAsOf(w.openInterest, bars[k].openTime)
              && r[k].context.premium == ValueAsOf(w.premium, bars[k].openTime)
  {
    seq(|bars|, (k: nat) requires k < |bars| => Sample(bars[k], ContextAsOf(w, bars[k].openTime)))
  }

  /** The pull specification, genome by genome: on every bar each genome decides the row of the as-of samples
      so far against the position its own earlier decisions left. */
  lemma {:induction false} PullDecides<A, F, G>(
      cat: Catalogue<A, F, G>, genomes: seq<G>, w: HistoricalWindow, bars: seq<Bar>)
    ensures var (s, outs) := Pull(cat, genomes, w, bars);
            Decided(cat, genomes, SamplesOf(w, bars), s, outs) && forall k | 0 <= k < |outs| :: outs[k].mode == Replay
    ensures Pull(cat, genomes, w, bars).0.mode == Replay
  {
    if bars != [] {
      var init, bar := bars[..|bars| - 1], bars[|bars| - 1];
      PullDecides(cat, genomes, w, init);
      var (s, outs) := Pull(cat, genomes, w, init);
      hide Evaluate, Decided;
      DecidedInContext(cat, genomes, SamplesOf(w, init), s, outs, ContextAsOf(w, bar.openTime));
      DecidedOneMore(cat, genomes, SamplesOf(w, init), s.(context := ContextAsOf(w, bar.openTime)), outs, bar);
      assert SamplesOf(w, bars) == SamplesOf(w, init) + [Sample(bar, ContextAsOf(w, bar.openTime))];
    }
  }

  lemma DecidedInContext<A, F, G>(
      cat: Catalogue<A, F, G>, genomes: seq<G>, samples: seq<Sample>, s: SessionState<A>, outs: seq<EvalOutput>, c: Context)
    requires Decided(cat, genomes, samples, s, outs)
    ensures Decided(cat, genomes, samples, s.(context := c), outs)
  {
  }

  // ----- Push: one merged timeline -----

  datatype Event = BarEvent(bar: Bar) | Reading(channel: Channel, value: real)

  datatype Entry = Entry(ts: int, ord: nat, event: Event)

  function EntryKey(e: Entry): Key {
    Key(e.ts, e.ord)
  }

  function Readings(c: Channel, series: seq<Observation>): (r: seq<Entry>)
    ensures |r| == |series|
  {
    seq(|series|, i requires 0 <= i < |series| => Entry(series[i].ts, 0, Reading(c, series[i].value)))
  }

  function BarEntries(bars: seq<Bar>): (r: seq<Entry>)
    ensures |r| == |bars|
  {
    seq(|bars|, i requires 0 <= i < |bars| => Entry(bars[i].openTime, 1, BarEvent(bars[i])))
  }

  function Unsorted(w: HistoricalWindow, bars: seq<Bar>): seq<Entry> {
    Readings(Funding, w.funding) + Readings(OpenInterest, w.openInterest) + Readings(Premium, w.premium)
      + Readings(Mark, w.markPrice) + BarEntries(bars)
  }

  function Timeline(w: HistoricalWindow, bars: seq<Bar>): seq<Entry> {
    Sort(Unsorted(w, bars), EntryKey)
  }

  function Observe(context: Context, c: Channel, v: real): Context {
    match c
    case Funding => context.(funding := Some(v))
    case OpenInterest => context.(openInterest := Some(v))
    case Premium => context.(premium := Some(v))
    case Mark => context
  }

  /** The state of a replay part-way through its timeline. */
  datatype ReplayState<A> = ReplayState(session: SessionState<A>, outs: seq<EvalOutput>, lastMark: Option<real>)

  function PushEvent<A, F, G>(cat: Catalogue<A, F, G>, genomes: seq<G>, r: ReplayState<A>, e: Event)
    : (r': ReplayState<A>)
    requires |r.session.positions| == |genomes|
    ensures |r'.session.positions| == |genomes|
  {
    match e
    case BarEvent(bar) =>
      var (s, out) := Evaluate(cat, genomes, r.session, bar);
      r.(session := s, outs := r.outs + [out])
    case Reading(c, v) =>
      r.(session := r.session.(context := Observe(r.session.context, c, v)),
         lastMark := if c == Mark then Some(v) else r.lastMark)
  }

  function Push<A, F, G>(cat: Catalogue<A, F, G>, genomes: seq<G>, timeline: seq<Entry>): (r: ReplayState<A>)
    ensures |r.session.positions| == |genomes|
  {
    if timeline == [] then ReplayState(FreshState(cat, genomes), [], None)
    else
      PushEvent(cat, genomes, Push(cat, genomes, timeline[..|timeline| - 1]), timeline[|timeline| - 1].event)
  }

  // ----- The streaming snapshot equals the as-of lookup -----

  predicate IsReading(e: Entry, c: Channel) {
    e.event.Reading? && e.event.channel == c
  }

  /** The as-of rule on a timeline, for one channel. */
  function TimelineAsOf(tl: seq<Entry>, c: Channel, t: int): Option<Observation> {
    if tl == [] then None else NewerEntry(TimelineAsOf(tl[..|tl| - 1], c, t), tl[|tl| - 1], c, t)
  }

  function NewerEntry(best: Option<Observation>, e: Entry, c: Channel, t: int): Option<Observation> {
    if IsReading(e, c) then Newer(best, Observation(e.ts, e.event.value), t) else best
  }

  lemma {:induction false} NoReadingsNoChange(a: seq<Entry>, b: seq<Entry>, c: Channel, t: int)
    requires forall e | e in b :: !IsReading(e, c) || t < e.ts
    ensures TimelineAsOf(a + b, c, t) == TimelineAsOf(a, c, t)
  {
    if b == [] {
      assert a + b == a;
    } else {
      assert (a + b)[..|a + b| - 1] == a + b[..|b| - 1];
      assert b[|b| - 1] in b;
      NoReadingsNoChange(a, b[..|b| - 1], c, t);
    }
  }

  ghost predicate Silent(tl: seq<Entry>, c: Channel) {
    forall e | e in tl :: !IsReading(e, c)
  }

  lemma {:induction false} ReadingsAsOf(a: seq<Entry>, c: Channel, series: seq<Observation>, t: int)
    requires Silent(a, c)
    ensures TimelineAsOf(a + Readings(c, series), c, t) == AsOf(series, t)
  {
    if series == [] {
      NoReadingsNoChange([], a, c, t);
      assert [] + a == a && a + Readings(c, series) == a;
    } else {
      var tl := a + Readings(c, series);
      ReadingsAsOf(a, c, series[..|series| - 1], t);
      assert tl[..|tl| - 1] == a + Readings(c, series[..|series| - 1]);
    }
  }

  /** Appending the block of another channel changes nothing for `c`. */
  lemma OtherBlock(a: seq<Entry>, d: Channel, series: seq<Observation>, c: Channel, t: int)
    requires c != d
    ensures TimelineAsOf(a + Readings(d, series), c, t) == TimelineAsOf(a, c, t)
    ensures Silent(a, c) ==> Silent(a + Readings(d, series), c)
  {
    NoReadingsNoChange(a, Readings(d, series), c, t);
  }

  /** Before sorting, each channel's readings are exactly its series. */
  lemma UnsortedAsOf(w: HistoricalWindow, bars: seq<Bar>, c: Channel, t: int)
    ensures TimelineAsOf(Unsorted(w, bars), c, t) == AsOf(SeriesOf(w, c), t)
  {
    var f := Readings(Funding, w.funding);
    var fo := f + Readings(OpenInterest, w.openInterest);
    var fop := fo + Readings(Premium, w.premium);
    var fopm := fop + Readings(Mark, w.markPrice);
    NoReadingsNoChange(fopm, BarEntries(bars), c, t);
    assert [] + f == f;
    if c == Funding { ReadingsAsOf([], c, w.funding, t); } else { OtherBlock([], Funding, w.funding, c, t); }
    if c == OpenInterest { ReadingsAsOf(f, c, w.openInterest, t); } else { OtherBlock(f, OpenInterest, w.openInterest, c, t); }
    if c == Premium { ReadingsAsOf(fo, c, w.premium, t); } else { OtherBlock(fo, Premium, w.premium, c, t); }
    if c == Mark { ReadingsAsOf(fop, c, w.markPrice, t); } else { OtherBlock(fop, Mark, w.markPrice, c, t); }
  }

  /** Every reading carries ordinal 0, every bar ordinal 1 and its own open time. */
  ghost predicate WellTagged(tl: seq<Entry>) {
    forall e | e in tl ::
      match e.event
      case Reading(_, _) => e.ord == 0
      case BarEvent(bar) => e.ord == 1 && e.ts == bar.openTime
  }

  /** Two readings with different timestamps can be taken in either order. */
  lemma NewerCommutes(best: Option<Observation>, x: Entry, y: Entry, c: Channel, t: int)
    requires x.ts != y.ts || !IsReading(x, c) || !IsReading(y, c)
    ensures NewerEntry(NewerEntry(best, x, c, t), y, c, t) == NewerEntry(NewerEntry(best, y, c, t), x, c, t)
  {
  }

  lemma {:induction false} InsertKeepsAsOf(tl: seq<Entry>, x: Entry, c: Channel, t: int)
    requires WellTagged(tl + [x])
    ensures TimelineAsOf(Insert(tl, x, EntryKey), c, t) == NewerEntry(TimelineAsOf(tl, c, t), x, c, t)
  {
    if tl == [] || Leq(EntryKey(tl[|tl| - 1]), EntryKey(x)) {
      assert (tl + [x])[..|tl|] == tl;
    } else {
      var init, last := tl[..|tl| - 1], tl[|tl| - 1];
      assert last in tl + [x] && x in tl + [x];
      assert forall e | e in init + [x] :: e in tl + [x];
      InsertKeepsAsOf(init, x, c, t);
      assert (Insert(init, x, EntryKey) + [last])[..|tl|] == Insert(init, x, EntryKey);
      NewerCommutes(TimelineAsOf(init, c, t), x, last, c, t);
    }
  }

  lemma {:induction false} SortKeepsAsOf(tl: seq<Entry>, c: Channel, t: int)
    requires WellTagged(tl)
    ensures TimelineAsOf(Sort(tl, EntryKey), c, t) == TimelineAsOf(tl, c, t)
  {
    if tl != [] {
      var init, last := tl[..|tl| - 1], tl[|tl| - 1];
      SortKeepsAsOf(init, c, t);
      MembersKept(Sort(init, EntryKey), init);
      assert WellTagged(Sort(init, EntryKey) + [last]);
      InsertKeepsAsOf(Sort(init, EntryKey), last, c, t);
    }
  }

  ghost predicate NotAfter(tl: seq<Entry>, t: int) {
    forall e | e in tl :: e.ts <= t
  }

  /** The last reading of a channel: what the streaming snapshot holds. */
  function Latest(tl: seq<Entry>, c: Channel): Option<real> {
    if tl == [] then None
    else if IsReading(tl[|tl| - 1], c) then Some(tl[|tl| - 1].event.value)
    else Latest(tl[..|tl| - 1], c)
  }

  /** On a sorted timeline whose entries are not after `t`, the last reading is the as-of reading. */
  lemma {:induction false} LatestIsAsOf(tl: seq<Entry>, c: Channel, t: int)
    requires Sorted(tl, EntryKey) && NotAfter(tl, t)
    ensures var o := TimelineAsOf(tl, c, t);
            && Latest(tl, c) == (if o.Some? then Some(o.value.value) else None)
            && (o.Some? ==> exists e :: e in tl && e.ts == o.value.ts)
  {
    if tl != [] {
      var init, last := tl[..|tl| - 1], tl[|tl| - 1];
      assert last in tl;
      LatestIsAsOf(init, c, t);
      var o := TimelineAsOf(init, c, t);
      if o.Some? {
        var e :| e in init && e.ts == o.value.ts;
        assert e in tl;
        var k :| 0 <= k < |init| && init[k] == e;
        assert Leq(EntryKey(tl[k]), EntryKey(last));
      }
    }
  }

  lemma UnsortedWellTagged(w: HistoricalWindow, bars: seq<Bar>)
    ensures WellTagged(Unsorted(w, bars))
  {
  }

  lemma TimelineFacts(w: HistoricalWindow, bars: seq<Bar>)
    ensures WellTagged(Unsorted(w, bars)) && WellTagged(Timeline(w, bars))
    ensures Sorted(Timeline(w, bars), EntryKey)
  {
    hide Unsorted, Sort;
    UnsortedWellTagged(w, bars);
    SortIsStable(Unsorted(w, bars), EntryKey);
    MembersKept(Timeline(w, bars), Unsorted(w, bars));
  }

  lemma TooLateToSee(tl: seq<Entry>, k: nat, i: nat, c: Channel)
    requires Sorted(tl, EntryKey) && WellTagged(tl) && k <= i < |tl| && tl[k].event.BarEvent?
    ensures !IsReading(tl[i], c) || tl[k].ts < tl[i].ts
  {
    assert tl[k] in tl && tl[i] in tl;
    assert i == k || Leq(EntryKey(tl[k]), EntryKey(tl[i]));
  }

  /** Nothing at or after a bar in a sorted timeline is a reading the bar could see. */
  lemma NothingAfterBar(tl: seq<Entry>, k: nat, c: Channel)
    requires Sorted(tl, EntryKey) && WellTagged(tl) && k < |tl| && tl[k].event.BarEvent?
    ensures TimelineAsOf(tl, c, tl[k].ts) == TimelineAsOf(tl[..k], c, tl[k].ts)
  {
    hide Sorted, WellTagged, IsReading;
    forall e | e in tl[k..] ensures !IsReading(e, c) || tl[k].ts < e.ts {
      var i :| k <= i < |tl| && tl[i] == e;
      TooLateToSee(tl, k, i, c);
    }
    NoReadingsNoChange(tl[..k], tl[k..], c, tl[k].ts);
    assert tl[..k] + tl[k..] == tl;
  }

  lemma PrefixNotAfter(tl: seq<Entry>, k: nat)
    requires Sorted(tl, EntryKey) && k < |tl|
    ensures Sorted(tl[..k], EntryKey) && NotAfter(tl[..k], tl[k].ts)
  {
  }

  /** Every bar reached in the sorted timeline sees, per channel, the as-of value of the raw series. */
  lemma SnapshotAtBar(w: HistoricalWindow, bars: seq<Bar>, c: Channel)
    ensures var tl := Timeline(w, bars);
            forall k | 0 <= k < |tl| && tl[k].event.BarEvent? ::
              Latest(tl[..k], c) == ValueAsOf(SeriesOf(w, c), tl[k].ts)
  {
    var tl := Timeline(w, bars);
    TimelineFacts(w, bars);
    hide Sort, Unsorted, Latest, TimelineAsOf, AsOf, Sorted, WellTagged;
    forall k | 0 <= k < |tl| && tl[k].event.BarEvent? ensures Latest(tl[..k], c) == ValueAsOf(SeriesOf(w, c), tl[k].ts) {
      PrefixNotAfter(tl, k);
      LatestIsAsOf(tl[..k], c, tl[k].ts);
      NothingAfterBar(tl, k, c);
      SortKeepsAsOf(Unsorted(w, bars), c, tl[k].ts);
      UnsortedAsOf(w, bars, c, tl[k].ts);
    }
  }

  /** After the whole timeline, each channel holds the latest value of its raw series. */
  lemma SnapshotAtEnd(w: HistoricalWindow, bars: seq<Bar>, c: Channel, t: int)
    ensures NotAfter(Timeline(w, bars), t) ==> Latest(Timeline(w, bars), c) == ValueAsOf(SeriesOf(w, c), t)
  {
    TimelineFacts(w, bars);
    if NotAfter(Timeline(w, bars), t) {
      LatestIsAsOf(Timeline(w, bars), c, t);
      SortKeepsAsOf(Unsorted(w, bars), c, t);
      UnsortedAsOf(w, bars, c, t);
    }
  }

  // ----- Bars keep their order in the timeline -----

  function BarsOf(tl: seq<Entry>): seq<Bar> {
    if tl == [] then []
    else if tl[|tl| - 1].event.BarEvent? then BarsOf(tl[..|tl| - 1]) + [tl[|tl| - 1].event.bar]
    else BarsOf(tl[..|tl| - 1])
  }

  lemma {:induction false} BarsOfConcat(a: seq<Entry>, b: seq<Entry>)
    ensures BarsOf(a + b) == BarsOf(a) + BarsOf(b)
  {
    if b == [] {
      assert a + b == a;
    } else {
      assert (a + b)[..|a + b| - 1] == a + b[..|b| - 1];
      BarsOfConcat(a, b[..|b| - 1]);
    }
  }

  lemma {:induction false} NoBarsInReadings(tl: seq<Entry>)
    requires forall e | e in tl :: e.event.Reading?
    ensures BarsOf(tl) == []
  {
    if tl != [] {
      assert tl[|tl| - 1] in tl;
      NoBarsInReadings(tl[..|tl| - 1]);
    }
  }

  lemma {:induction false} BarsOfEntries(bars: seq<Bar>)
    ensures BarsOf(BarEntries(bars)) == bars
  {
    if bars != [] {
      BarsOfEntries(bars[..|bars| - 1]);
      assert BarEntries(bars)[..|bars| - 1] == BarEntries(bars[..|bars| - 1]);
    }
  }

  lemma UnsortedBars(w: HistoricalWindow, bars: seq<Bar>)
    ensures BarsOf(Unsorted(w, bars)) == bars
  {
    var readings := Readings(Funding, w.funding) + Readings(OpenInterest, w.openInterest)
      + Readings(Premium, w.premium) + Readings(Mark, w.markPrice);
    NoBarsInReadings(readings);
    BarsOfConcat(readings, BarEntries(bars));
    BarsOfEntries(bars);
  }

  lemma {:induction false} InsertKeepsBars(tl: seq<Entry>, x: Entry)
    requires x.event.BarEvent? ==> forall e | e in tl && e.event.BarEvent? :: Leq(EntryKey(e), EntryKey(x))
    ensures BarsOf(Insert(tl, x, EntryKey)) == BarsOf(tl + [x])
  {
    assert (tl + [x])[..|tl|] == tl;
    if tl == [] || Leq(EntryKey(tl[|tl| - 1]), EntryKey(x)) {
    } else {
      var init, last := tl[..|tl| - 1], tl[|tl| - 1];
      assert last in tl;
      InsertKeepsBars(init, x);
      assert (init + [x])[..|init|] == init;
      assert (Insert(init, x, EntryKey) + [last])[..|tl|] == Insert(init, x, EntryKey);
    }
  }

  ghost predicate BarsAscend(tl: seq<Entry>) {
    forall i, j | 0 <= i < j < |tl| && tl[i].event.BarEvent? && tl[j].event.BarEvent? ::
      Leq(EntryKey(tl[i]), EntryKey(tl[j]))
  }

  lemma EarlierBarsAreBelow(tl: seq<Entry>)
    requires BarsAscend(tl) && tl != [] && tl[|tl| - 1].event.BarEvent?
    ensures forall e | e in Sort(tl[..|tl| - 1], EntryKey) && e.event.BarEvent? ::
              Leq(EntryKey(e), EntryKey(tl[|tl| - 1]))
  {
    var init := tl[..|tl| - 1];
    MembersKept(Sort(init, EntryKey), init);
    forall e | e in Sort(init, EntryKey) && e.event.BarEvent? ensures Leq(EntryKey(e), EntryKey(tl[|tl| - 1])) {
      assert e in init;
      var i :| 0 <= i < |init| && init[i] == e;
      assert tl[i] == e;
    }
  }

  lemma {:induction false} SortKeepsBars(tl: seq<Entry>)
    requires BarsAscend(tl)
    ensures BarsOf(Sort(tl, EntryKey)) == BarsOf(tl)
  {
    if tl != [] {
      var init, last := tl[..|tl| - 1], tl[|tl| - 1];
      assert BarsAscend(init);
      SortKeepsBars(init);
      if last.event.BarEvent? {
        EarlierBarsAreBelow(tl);
      }
      var sorted := Sort(init, EntryKey);
      assert init + [last] == tl && Sort(tl, EntryKey) == Insert(sorted, last, EntryKey);
      InsertKeepsBars(sorted, last);
      BarsOfConcat(sorted, [last]);
      BarsOfConcat(init, [last]);
    }
  }

  lemma TimelineBars(w: HistoricalWindow, bars: seq<Bar>)
    requires StrictlyIncreasing(bars)
    ensures BarsOf(Timeline(w, bars)) == bars
  {
    var tl := Unsorted(w, bars);
    var n := |tl| - |bars|;
    forall i, j | 0 <= i < j < |tl| && tl[i].event.BarEvent? && tl[j].event.BarEvent?
      ensures Leq(EntryKey(tl[i]), EntryKey(tl[j]))
    {
      assert tl[i] == BarEntries(bars)[i - n] && tl[j] == BarEntries(bars)[j - n];
    }
    SortKeepsBars(tl);
    UnsortedBars(w, bars);
  }

  // ----- Push equals pull -----

  lemma {:induction false} PushContext<A, F, G>(cat: Catalogue<A, F, G>, genomes: seq<G>, tl: seq<Entry>)
    ensures var r := Push(cat, genomes, tl);
            && r.session.context == Context(Latest(tl, Funding), Latest(tl, OpenInterest), Latest(tl, Premium))
            && r.lastMark == Latest(tl, Mark) && r.session.mode == Replay
  {
    if tl != [] {
      PushContext(cat, genomes, tl[..|tl| - 1]);
    }
  }

  /** A replay state that has decided what the pull specification decides on `bars`. */
  ghost predicate Agrees<A, F, G>(
      cat: Catalogue<A, F, G>, genomes: seq<G>, w: HistoricalWindow, r: ReplayState<A>, bars: seq<Bar>)
  {
    var (s, outs) := Pull(cat, genomes, w, bars);
    && r.outs == outs
    && r.session.assembler == s.assembler && r.session.positions == s.positions && r.session.mode == s.mode
  }

  lemma BarStepAgrees<A, F, G>(
      cat: Catalogue<A, F, G>, genomes: seq<G>, w: HistoricalWindow, r: ReplayState<A>, bars: seq<Bar>, bar: Bar)
    requires |r.session.positions| == |genomes|
    requires Agrees(cat, genomes, w, r, bars)
    requires r.session.context == ContextAsOf(w, bar.openTime)
    ensures Agrees(cat, genomes, w, PushEvent(cat, genomes, r, BarEvent(bar)), bars + [bar])
  {
  }

  lemma ReadingAgrees<A, F, G>(
      cat: Catalogue<A, F, G>, genomes: seq<G>, w: HistoricalWindow, r: ReplayState<A>, bars: seq<Bar>, e: Event)
    requires |r.session.positions| == |genomes|
    requires Agrees(cat, genomes, w, r, bars) && e.Reading?
    ensures Agrees(cat, genomes, w, PushEvent(cat, genomes, r, e), bars)
  {
  }

  lemma PushAppend<A, F, G>(cat: Catalogue<A, F, G>, genomes: seq<G>, tl: seq<Entry>, k: nat)
    requires k < |tl|
    ensures Push(cat, genomes, tl[..k + 1]) == PushEvent(cat, genomes, Push(cat, genomes, tl[..k]), tl[k].event)
    ensures BarsOf(tl[..k + 1]) ==
              if tl[k].event.BarEvent? then BarsOf(tl[..k]) + [tl[k].event.bar] else BarsOf(tl[..k])
  {
    assert tl[..k + 1][..k] == tl[..k];
  }

  /** Every bar of the timeline finds, per channel, the as-of value at its own open time. */
  ghost predicate ServesAsOf(w: HistoricalWindow, tl: seq<Entry>) {
    forall k | 0 <= k < |tl| && tl[k].event.BarEvent? ::
      && tl[k].event.bar.openTime == tl[k].ts
      && forall c :: Latest(tl[..k], c) == ValueAsOf(SeriesOf(w, c), tl[k].ts)
  }

  lemma TimelineServesAsOf(w: HistoricalWindow, bars: seq<Bar>)
    ensures ServesAsOf(w, Timeline(w, bars))
  {
    var tl := Timeline(w, bars);
    TimelineFacts(w, bars);
    hide Timeline, Latest, AsOf;
    forall k | 0 <= k < |tl| && tl[k].event.BarEvent? ensures tl[k].event.bar.openTime == tl[k].ts {
      assert tl[k] in tl;
    }
    SnapshotAtBar(w, bars, Funding);
    SnapshotAtBar(w, bars, OpenInterest);
    SnapshotAtBar(w, bars, Premium);
    SnapshotAtBar(w, bars, Mark);
  }

  /** The context a bar is evaluated in is its as-of context. */
  lemma ContextAtBar<A, F, G>(
      cat: Catalogue<A, F, G>, genomes: seq<G>, w: HistoricalWindow, tl: seq<Entry>, k: nat)
    requires ServesAsOf(w, tl) && k < |tl| && tl[k].event.BarEvent?
    ensures Push(cat, genomes, tl[..k]).session.context == ContextAsOf(w, tl[k].event.bar.openTime)
  {
    hide AsOf;
    PushContext(cat, genomes, tl[..k]);
  }

  lemma PrefixStep<A, F, G>(
      cat: Catalogue<A, F, G>, genomes: seq<G>, w: HistoricalWindow, tl: seq<Entry>, k: nat)
    requires ServesAsOf(w, tl) && k < |tl|
    requires Agrees(cat, genomes, w, Push(cat, genomes, tl[..k]), BarsOf(tl[..k]))
    ensures Agrees(cat, genomes, w, Push(cat, genomes, tl[..k + 1]), BarsOf(tl[..k + 1]))
  {
    hide ServesAsOf, Pull, Push, PushEvent, BarsOf, Agrees, ContextAsOf;
    PushAppend(cat, genomes, tl, k);
    if tl[k].event.BarEvent? {
      ContextAtBar(cat, genomes, w, tl, k);
      BarStepAgrees(cat, genomes, w, Push(cat, genomes, tl[..k]), BarsOf(tl[..k]), tl[k].event.bar);
    } else {
      ReadingAgrees(cat, genomes, w, Push(cat, genomes, tl[..k]), BarsOf(tl[..k]), tl[k].event);
    }
  }

  /** Part-way through any timeline that serves every bar its as-of values, the session has decided exactly
      what the pull specification decides on the bars reached so far. */
  lemma {:induction false} PushEqualsPullPrefix<A, F, G>(
      cat: Catalogue<A, F, G>, genomes: seq<G>, w: HistoricalWindow, tl: seq<Entry>, k: nat)
    requires ServesAsOf(w, tl) && k <= |tl|
    ensures Agrees(cat, genomes, w, Push(cat, genomes, tl[..k]), BarsOf(tl[..k]))
  {
    hide ServesAsOf;
    if k > 0 {
      PushEqualsPullPrefix(cat, genomes, w, tl, k - 1);
      PrefixStep(cat, genomes, w, tl, k - 1);
    }
  }

  /** `t` is not before any observation or bar of the window. */
  ghost predicate EndsBy(w: HistoricalWindow, t: int) {
    && (forall c, o | o in SeriesOf(w, c) :: o.ts <= t)
    && (forall b | b in w.bars :: b.openTime <= t)
  }

  function LastTs(series: seq<Observation>, t: int): (r: int)
    ensures t <= r && forall o | o in series :: o.ts <= r
  {
    if series == [] then t
    else
      assert series == series[..|series| - 1] + [series[|series| - 1]];
      LastTs(series[..|series| - 1], if t < series[|series| - 1].ts then series[|series| - 1].ts else t)
  }

  function LastOpen(bars: seq<Bar>, t: int): (r: int)
    ensures t <= r && forall b | b in bars :: b.openTime <= r
  {
    if bars == [] then t
    else
      assert bars == bars[..|bars| - 1] + [bars[|bars| - 1]];
      LastOpen(bars[..|bars| - 1], if t < bars[|bars| - 1].openTime then bars[|bars| - 1].openTime else t)
  }

  /** A time by which everything in the window has happened. */
  function EndOf(w: HistoricalWindow): int {
    LastTs(w.funding, LastTs(w.openInterest, LastTs(w.premium, LastTs(w.markPrice, LastOpen(w.bars, 0)))))
  }

  lemma EndOfEnds(w: HistoricalWindow)
    ensures EndsBy(w, EndOf(w))
  {
  }

  lemma NotAfterConcat(a: seq<Entry>, b: seq<Entry>, t: int)
    requires NotAfter(a, t) && NotAfter(b, t)
    ensures NotAfter(a + b, t)
  {
  }

  lemma ReadingsNotAfter(w: HistoricalWindow, c: Channel, t: int)
    requires EndsBy(w, t)
    ensures NotAfter(Readings(c, SeriesOf(w, c)), t)
  {
  }

  lemma StitchedNotAfter(w: HistoricalWindow, t: int)
    requires EndsBy(w, t)
    ensures NotAfter(BarEntries(Stitched(w.bars)), t)
  {
    var bars := Stitched(w.bars);
    MembersKept(Sort(w.bars, OpenKey), w.bars);
    forall e | e in BarEntries(bars) ensures e.ts <= t {
      var i :| 0 <= i < |bars| && BarEntries(bars)[i] == e;
      assert bars[i] in Sort(w.bars, OpenKey);
    }
  }

  lemma TimelineEndsBy(w: HistoricalWindow, t: int)
    requires EndsBy(w, t)
    ensures NotAfter(Timeline(w, Stitched(w.bars)), t)
  {
    hide Readings, BarEntries, Sort, EndsBy, Stitched;
    var f, o := Readings(Funding, w.funding), Readings(OpenInterest, w.openInterest);
    var p, m := Readings(Premium, w.premium), Readings(Mark, w.markPrice);
    var bars := BarEntries(Stitched(w.bars));
    ReadingsNotAfter(w, Funding, t);
    ReadingsNotAfter(w, OpenInterest, t);
    ReadingsNotAfter(w, Premium, t);
    ReadingsNotAfter(w, Mark, t);
    StitchedNotAfter(w, t);
    assert NotAfter(f + o + p + m + bars, t) by {
      NotAfterConcat(f, o, t);
      NotAfterConcat(f + o, p, t);
      NotAfterConcat(f + o + p, m, t);
      NotAfterConcat(f + o + p + m, bars, t);
    }
    MembersKept(Timeline(w, Stitched(w.bars)), Unsorted(w, Stitched(w.bars)));
  }

  /** Replay's merge gives exactly the decisions of a per-bar as-of lookup, for every window: all four
      series and the bars in any order. The warmed session and the last mark price agree too. */
  lemma PushEqualsPull<A, F, G>(cat: Catalogue<A, F, G>, genomes: seq<G>, w: HistoricalWindow, t: int)
    requires EndsBy(w, t)
    ensures var bars := Stitched(w.bars);
            var (s, outs) := Pull(cat, genomes, w, bars);
            Push(cat, genomes, Timeline(w, bars)) ==
              ReplayState(s.(context := ContextAsOf(w, t)), outs, ValueAsOf(w.markPrice, t))
  {
    hide Stitched, Timeline, Push, Pull, ValueAsOf, Latest;
    var bars := Stitched(w.bars);
    var tl := Timeline(w, bars);
    assert tl[..|tl|] == tl;
    TimelineServesAsOf(w, bars);
    PushEqualsPullPrefix(cat, genomes, w, tl, |tl|);
    TimelineBars(w, bars);
    PushContext(cat, genomes, tl);
    TimelineEndsBy(w, t);
    SnapshotAtEnd(w, bars, Funding, t);
    SnapshotAtEnd(w, bars, OpenInterest, t);
    SnapshotAtEnd(w, bars, Premium, t);
    SnapshotAtEnd(w, bars, Mark, t);
  }

  // ----- The pipeline -----

  /** Priming and flushing the kline source over the stitched bars. */
  function CoarseBars(tiers: seq<Resolution>, bars: seq<Bar>): seq<Bar> {
    var (s, rows) := Deliver(tiers, NoBarsYet(tiers), bars);
    Emitted(rows) + Present(FinishRow(tiers, s))
  }

  /** With distinct tiers, the coarse bars of one resolution are exactly the roll-ups of the windows of the
      stitched series, whatever order and repetition the bars arrived in. */
  lemma CoarseBarsAreBatch(tiers: seq<Resolution>, delivered: seq<Bar>, i: nat)
    requires DistinctTiers(tiers) && i < |tiers|
    ensures var bars := Stitched(delivered);
            OfResolution(CoarseBars(tiers, bars), tiers[i])
            == SummaryBars(Groups(bars, SlotOf(tiers[i])), SlotOf(tiers[i]), tiers[i])
  {
    KeepsWholeIffIncreasing(Stitched(delivered));
    hide Stitched, Groups, SummaryBars;
    FlatStreamIsBatch(tiers, Stitched(delivered), i);
  }

  datatype Reconstructed<A, F, G> = Reconstructed(
    session: EvaluatorSession<A, F, G>,
    decisions: seq<EvalOutput>,
    coarseBars: seq<Bar>,
    barsReplayed: nat,
    lastMarkPrice: Option<real>)

  /** Why a replay of `w` is refused, if it is: an invalid tier first, then a bar of another resolution. */
  function ReplayError(tiers: seq<Resolution>, w: HistoricalWindow): Option<ReconError> {
    if FirstTierError(w.base, tiers).Some? then FirstTierError(w.base, tiers)
    else
      var stranger := FirstStranger(w.base, Stitched(w.bars));
      if stranger.Some? then Some(UnexpectedResolution(w.base, stranger.value.resolution)) else None
  }

  class BootstrapPipeline<A, F, G> {
    const cat: Catalogue<A, F, G>
    const tiers: seq<Resolution>

    constructor (cat: Catalogue<A, F, G>, tiers: seq<Resolution>)
      ensures this.cat == cat && this.tiers == tiers
    {
      this.cat, this.tiers := cat, tiers;
    }

    method Dedup(sorted: seq<Bar>) returns (deduped: seq<Bar>)
      ensures deduped == KeepIncreasing(sorted)
    {
      deduped := [];
      for i := 0 to |sorted|
        invariant deduped == KeepIncreasing(sorted[..i])
      {
        assert sorted[..i + 1][..i] == sorted[..i];
        if deduped == [] || deduped[|deduped| - 1].openTime < sorted[i].openTime {
          deduped := deduped + [sorted[i]];
        }
      }
      assert sorted[..|sorted|] == sorted;
    }

    method PushReadings(timeline: seq<Entry>, c: Channel, series: seq<Observation>) returns (r: seq<Entry>)
      ensures r == timeline + Readings(c, series)
    {
      r := timeline;
      for i := 0 to |series|
        invariant r == timeline + Readings(c, series)[..i]
      {
        r := r + [Entry(series[i].ts, 0, Reading(c, series[i].value))];
      }
    }

    method BuildTimeline(w: HistoricalWindow, bars: seq<Bar>) returns (timeline: seq<Entry>)
      ensures timeline == Timeline(w, bars)
    {
      timeline := PushReadings([], Funding, w.funding);
      timeline := PushReadings(timeline, OpenInterest, w.openInterest);
      timeline := PushReadings(timeline, Premium, w.premium);
      timeline := PushReadings(timeline, Mark, w.markPrice);
      ghost var readings := timeline;
      for i := 0 to |bars|
        invariant timeline == readings + BarEntries(bars)[..i]
      {
        timeline := timeline + [Entry(bars[i].openTime, 1, BarEvent(bars[i]))];
      }
      assert timeline == Unsorted(w, bars);
      timeline := Sort(timeline, EntryKey);
    }

    /** Drives a new session through a sorted timeline in replay mode. */
    method Drive(timeline: seq<Entry>, genomes: seq<G>)
      returns (session: EvaluatorSession<A, F, G>, decisions: seq<EvalOutput>, lastMarkPrice: Option<real>)
      ensures fresh(session) && fresh(session.join) && session.Valid()
      ensures session.cat == cat && session.genomes == genomes
      ensures ReplayState(session.State(), decisions, lastMarkPrice) == Push(cat, genomes, timeline)
    {
      session := new EvaluatorSession(cat, genomes);
      decisions, lastMarkPrice := [], None;
      for i := 0 to |timeline|
        invariant session.Valid()
        invariant ReplayState(session.State(), decisions, lastMarkPrice) == Push(cat, genomes, timeline[..i])
      {
        PushAppend(cat, genomes, timeline, i);
        match timeline[i].event {
          case BarEvent(bar) =>
            var out := session.OnBar(bar);
            decisions := decisions + [out];
          case Reading(Funding, v) => session.ObserveFunding(v);
          case Reading(OpenInterest, v) => session.ObserveOpenInterest(v);
          case Reading(Premium, v) => session.ObservePremium(v);
          case Reading(Mark, v) => lastMarkPrice := Some(v);
        }
      }
      assert timeline[..|timeline|] == timeline;
    }

    /** Multi-resolution replay of the stitched bars. */
    method Coarsen(base: Resolution, bars: seq<Bar>) returns (r: Result<seq<Bar>, ReconError>)
      ensures FirstTierError(base, tiers).Some? ==> r == Err(FirstTierError(base, tiers).value)
      ensures FirstTierError(base, tiers).None? ==>
                match FirstStranger(base, bars)
                case Some(b) => r == Err(UnexpectedResolution(base, b.resolution))
                case None => r == Ok(CoarseBars(tiers, bars))
    {
      var klines := LiveKlineSource.New(base, tiers);
      if klines.Err? {
        return Err(klines.error);
      }
      var primed := klines.value.Prime(bars);
      if primed.Err? {
        return Err(primed.error);
      }
      var flushed := klines.value.Finish();
      r := Ok(primed.value + flushed);
    }

    /** Replays a window through a new session. The trace and the warmed session are those of the
        pull specification on the stitched bars, whatever order the inputs arrived in. */
    method Replay(w: HistoricalWindow, genomes: seq<G>) returns (r: Result<Reconstructed<A, F, G>, ReconError>)
      ensures r.Err? <==> ReplayError(tiers, w).Some?
      ensures r.Err? ==> r.error == ReplayError(tiers, w).value
      ensures r.Ok? ==>
                && fresh(r.value.session) && fresh(r.value.session.join) && r.value.session.Valid()
                && r.value.session.cat == cat && r.value.session.genomes == genomes
                && r.value.barsReplayed == |Stitched(w.bars)|
                && r.value.coarseBars == CoarseBars(tiers, Stitched(w.bars))
                && r.value.lastMarkPrice == ValueAsOf(w.markPrice, EndOf(w))
                && r.value.decisions == Pull(cat, genomes, w, Stitched(w.bars)).1
                && r.value.session.State() ==
                     Pull(cat, genomes, w, Stitched(w.bars)).0.(context := ContextAsOf(w, EndOf(w)))
      ensures r.Ok? ==>
                && Decided(cat, genomes, SamplesOf(w, Stitched(w.bars)), r.value.session.State(), r.value.decisions)
                && r.value.session.mode == Mode.Replay
                && r.value.session.join.funding == ValueAsOf(w.funding, EndOf(w))
                && r.value.session.join.openInterest == ValueAsOf(w.openInterest, EndOf(w))
                && r.value.session.join.premium == ValueAsOf(w.premium, EndOf(w))
    {
      var deduped := Dedup(Sort(w.bars, OpenKey));
      var coarse := Coarsen(w.base, deduped);
      if coarse.Err? {
        return Err(coarse.error);
      }
      var timeline := BuildTimeline(w, deduped);
      EndOfEnds(w);
      PushEqualsPull(cat, genomes, w, EndOf(w));
      var session, decisions, lastMarkPrice := Drive(timeline, genomes);
      PullDecides(cat, genomes, w, deduped);
      DecidedInContext(cat, genomes, SamplesOf(w, deduped), Pull(cat, genomes, w, deduped).0, decisions,
        ContextAsOf(w, EndOf(w)));
      hide Decided, Pull, Timeline, Push, AsOf;
      r := Ok(Reconstructed(session, decisions, coarse.value, |deduped|, lastMarkPrice));
    }
  }

  /** Pages of consistent bars may be permuted or repeated: neither the outcome nor any error changes. */
  lemma ReplayPageInvariance<A, F, G>(
      cat: Catalogue<A, F, G>, genomes: seq<G>, tiers: seq<Resolution>, w: HistoricalWindow, bars: seq<Bar>)
    requires Consistent(w.bars) && SameBars(w.bars, bars)
    ensures var w' := w.(bars := bars);
            && ReplayError(tiers, w') == ReplayError(tiers, w)
            && CoarseBars(tiers, Stitched(w'.bars)) == CoarseBars(tiers, Stitched(w.bars))
            && Pull(cat, genomes, w', Stitched(w'.bars)) == Pull(cat, genomes, w, Stitched(w.bars))
            && ContextAsOf(w', EndOf(w')) == ContextAsOf(w, EndOf(w))
            && ValueAsOf(w'.markPrice, EndOf(w')) == ValueAsOf(w.markPrice, EndOf(w))
  {
    hide Stitched, Pull, Deliver;
    PageInvariance(w.bars, bars);
    var t, t' := EndOf(w), EndOf(w.(bars := bars));
    AsOfPastTheEnd(w.funding, t, t');
    AsOfPastTheEnd(w.openInterest, t, t');
    AsOfPastTheEnd(w.premium, t, t');
    AsOfPastTheEnd(w.markPrice, t, t');
    PullIgnoresBarList(cat, genomes, w, w.(bars := bars), Stitched(w.bars));
  }

  lemma {:induction false} AsOfPastTheEnd(series: seq<Observation>, t: int, t': int)
    requires forall o | o in series :: o.ts <= t && o.ts <= t'
    ensures AsOf(series, t) == AsOf(series, t')
  {
    if series != [] {
      assert series[|series| - 1] in series;
      AsOfPastTheEnd(series[..|series| - 1], t, t');
    }
  }

  lemma {:induction false} PullIgnoresBarList<A, F, G>(
      cat: Catalogue<A, F, G>, genomes: seq<G>, w: HistoricalWindow, w': HistoricalWindow, bars: seq<Bar>)
    requires w' == w.(bars := w'.bars)
    ensures Pull(cat, genomes, w', bars) == Pull(cat, genomes, w, bars)
  {
    if bars != [] {
      PullIgnoresBarList(cat, genomes, w, w', bars[..|bars| - 1]);
    }
  }
}
