/** Stitching overlapping pages of bars: the monotonic open-time rule that replay and the live kline
    source both apply. */
module Stitch {
  import opened Domain
  import opened StableSort

  predicate StrictlyIncreasing(s: seq<Bar>) {
    forall i, j | 0 <= i < j < |s| :: s[i].openTime < s[j].openTime
  }

  /** Keeps a bar only if it opens after the last kept one. */
  function KeepIncreasing(s: seq<Bar>): (r: seq<Bar>)
    ensures StrictlyIncreasing(r)
    ensures forall b | b in r :: b in s
    ensures s != [] ==> r != [] && s[|s| - 1].openTime <= r[|r| - 1].openTime
  {
    if s == [] then []
    else
      var r := KeepIncreasing(s[..|s| - 1]);
      if r == [] || r[|r| - 1].openTime < s[|s| - 1].openTime then r + [s[|s| - 1]] else r
  }

  /** The rule drops nothing exactly when the delivery is already strictly increasing. */
  lemma {:induction false} KeepsWholeIffIncreasing(s: seq<Bar>)
    ensures KeepIncreasing(s) == s <==> StrictlyIncreasing(s)
  {
    if StrictlyIncreasing(s) && s != [] {
      var init := s[..|s| - 1];
      assert StrictlyIncreasing(init);
      KeepsWholeIffIncreasing(init);
      assert s == init + [s[|s| - 1]];
    }
  }

  function OpenKey(b: Bar): Key {
    Key(b.openTime, 0)
  }

  /** The stitched base series of a window of bars in any order: sort by open time, keep increasing. */
  function Stitched(bars: seq<Bar>): (r: seq<Bar>)
    ensures StrictlyIncreasing(r)
  {
    KeepIncreasing(Sort(bars, OpenKey))
  }

  /** The deliveries that open at time `t`, in input order. */
  function OpeningAt(bars: seq<Bar>, t: int): (r: seq<Bar>)
    ensures forall b | b in r :: b in bars && b.openTime == t
  {
    WithKey(bars, OpenKey, Key(t, 0))
  }

  ghost predicate Lists(r: seq<Bar>, t: int) {
    exists i :: 0 <= i < |r| && r[i].openTime == t
  }

  /** `r` lists, in ascending order, the first delivered bar of every delivered open time. */
  ghost predicate IsStitch(bars: seq<Bar>, r: seq<Bar>) {
    && StrictlyIncreasing(r)
    && (forall t :: Lists(r, t) <==> OpeningAt(bars, t) != [])
    && (forall b | b in r :: OpeningAt(bars, b.openTime) != [] && OpeningAt(bars, b.openTime)[0] == b)
  }

  lemma OpeningAtLast(s: seq<Bar>, t: int)
    requires s != []
    ensures OpeningAt(s, t) == OpeningAt(s[..|s| - 1], t) + if s[|s| - 1].openTime == t then [s[|s| - 1]] else []
  {
  }

  /** On sorted input the rule drops exactly the bars whose open time is already listed. */
  lemma KeepsUnlisted(s: seq<Bar>)
    requires Sorted(s, OpenKey) && s != []
    ensures var r, last := KeepIncreasing(s[..|s| - 1]), s[|s| - 1];
            KeepIncreasing(s) == if Lists(r, last.openTime) then r else r + [last]
  {
    var r, last := KeepIncreasing(s[..|s| - 1]), s[|s| - 1];
    if r != [] {
      assert r[|r| - 1] in s[..|s| - 1];
      var k :| 0 <= k < |s| - 1 && s[k] == r[|r| - 1];
      assert Leq(OpenKey(s[k]), OpenKey(last));
    }
  }

  lemma {:induction false} KeepIncreasingLists(s: seq<Bar>, t: int)
    requires Sorted(s, OpenKey)
    ensures Lists(KeepIncreasing(s), t) <==> OpeningAt(s, t) != []
  {
    if s != [] {
      var r, last := KeepIncreasing(s[..|s| - 1]), s[|s| - 1];
      KeepIncreasingLists(s[..|s| - 1], t);
      OpeningAtLast(s, t);
      KeepsUnlisted(s);
      if Lists(r, t) {
        var i :| 0 <= i < |r| && r[i].openTime == t;
        assert KeepIncreasing(s)[i].openTime == t;
      }
      if last.openTime == t && !Lists(r, t) {
        assert KeepIncreasing(s)[|r|].openTime == t;
      }
    }
  }

  lemma {:induction false} KeepIncreasingKeepsFirst(s: seq<Bar>, b: Bar)
    requires Sorted(s, OpenKey) && b in KeepIncreasing(s)
    ensures OpeningAt(s, b.openTime) != [] && OpeningAt(s, b.openTime)[0] == b
  {
    var init, last := s[..|s| - 1], s[|s| - 1];
    OpeningAtLast(s, b.openTime);
    KeepsUnlisted(s);
    if b in KeepIncreasing(init) {
      KeepIncreasingKeepsFirst(init, b);
    } else {
      KeepIncreasingLists(init, last.openTime);
    }
  }

  lemma KeepIncreasingIsStitch(s: seq<Bar>)
    requires Sorted(s, OpenKey)
    ensures IsStitch(s, KeepIncreasing(s))
  {
    forall t ensures Lists(KeepIncreasing(s), t) <==> OpeningAt(s, t) != [] {
      KeepIncreasingLists(s, t);
    }
    forall b | b in KeepIncreasing(s)
      ensures OpeningAt(s, b.openTime) != [] && OpeningAt(s, b.openTime)[0] == b
    {
      KeepIncreasingKeepsFirst(s, b);
    }
  }

  /** The stitched series is the first delivery of each open time, in ascending order. */
  lemma StitchedIsStitch(bars: seq<Bar>)
    ensures IsStitch(bars, Stitched(bars))
  {
    SortIsStable(bars, OpenKey);
    KeepIncreasingIsStitch(Sort(bars, OpenKey));
    forall t ensures OpeningAt(Sort(bars, OpenKey), t) == OpeningAt(bars, t) {
    }
  }

  ghost predicate SameBars(a: seq<Bar>, b: seq<Bar>) {
    forall x :: x in a <==> x in b
  }

  lemma LastIsGreatest(a: seq<Bar>, x: Bar)
    requires StrictlyIncreasing(a) && x in a
    ensures x.openTime <= a[|a| - 1].openTime
    ensures x.openTime == a[|a| - 1].openTime ==> x == a[|a| - 1]
  {
  }

  lemma SameLast(a: seq<Bar>, b: seq<Bar>)
    requires StrictlyIncreasing(a) && StrictlyIncreasing(b) && SameBars(a, b) && a != [] && b != []
    ensures a[|a| - 1] == b[|b| - 1]
  {
    assert a[|a| - 1] in b && b[|b| - 1] in a;
    LastIsGreatest(a, b[|b| - 1]);
    LastIsGreatest(b, a[|a| - 1]);
  }

  lemma MembersBeforeLast(a: seq<Bar>, x: Bar)
    requires StrictlyIncreasing(a) && a != []
    ensures x in a[..|a| - 1] <==> x in a && x != a[|a| - 1]
  {
  }

  lemma EmptyOrInhabited(s: seq<Bar>)
    ensures s == [] || exists x :: x in s
  {
    assert s == [] || s[0] in s;
  }

  /** Two strictly increasing lists of the same bars are the same list. */
  lemma {:induction false} AscendingListingIsUnique(a: seq<Bar>, b: seq<Bar>)
    requires StrictlyIncreasing(a) && StrictlyIncreasing(b) && SameBars(a, b)
    ensures a == b
    decreases |a|
  {
    EmptyOrInhabited(a);
    EmptyOrInhabited(b);
    if a != [] && b != [] {
      var a', b' := a[..|a| - 1], b[..|b| - 1];
      SameLast(a, b);
      forall x ensures x in a' <==> x in b' {
        MembersBeforeLast(a, x);
        MembersBeforeLast(b, x);
      }
      AscendingListingIsUnique(a', b');
      assert a == a' + [a[|a| - 1]] && b == b' + [b[|b| - 1]];
    }
  }

  /** Deliveries with equal open times carry the same bar. */
  ghost predicate Consistent(bars: seq<Bar>) {
    forall x, y | x in bars && y in bars && x.openTime == y.openTime :: x == y
  }

  lemma ConsistentStitchKeepsAll(bars: seq<Bar>)
    requires Consistent(bars)
    ensures forall x :: x in Stitched(bars) <==> x in bars
  {
    StitchedIsStitch(bars);
    forall x ensures x in Stitched(bars) <==> x in bars {
      if x in bars {
        InItsClass(bars, x);
      }
    }
  }

  lemma {:induction false} InItsClass(bars: seq<Bar>, x: Bar)
    requires x in bars
    ensures x in OpeningAt(bars, x.openTime)
  {
    OpeningAtLast(bars, x.openTime);
    if x != bars[|bars| - 1] {
      assert x in bars[..|bars| - 1];
      InItsClass(bars[..|bars| - 1], x);
    }
  }

  /** Page invariance: permuting or repeating consistent deliveries leaves the base series unchanged. */
  lemma PageInvariance(a: seq<Bar>, b: seq<Bar>)
    requires Consistent(a) && SameBars(a, b)
    ensures Stitched(a) == Stitched(b)
  {
    ConsistentStitchKeepsAll(a);
    ConsistentStitchKeepsAll(b);
    AscendingListingIsUnique(Stitched(a), Stitched(b));
  }
}
