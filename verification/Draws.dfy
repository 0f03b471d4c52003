/** A seeded generator as a fixed stream of words and a position in it, and what the search draws from it. */
module Draws {
  import opened Masks
  import opened SeedMix

  type Stream = nat -> Word

  class DetRng {
    const stream: Stream
    var at: nat

    constructor (stream: Stream)
      ensures this.stream == stream && at == 0
    {
      this.stream := stream;
      at := 0;
    }

    method NextU64() returns (w: Word)
      modifies this
      ensures w == stream(old(at)) && at == old(at) + 1
    {
      w := stream(at);
      at := at + 1;
    }
  }

  /** The top 53 bits of a word as a fraction. */
  function Uniform(w: Word): (u: real)
    ensures 0.0 <= u < 1.0
  {
    (w / 2048) as real / 9007199254740992.0
  }

  /** The draw falls below a rate: its top 53 bits, as a count, are fewer than that share of all of them. */
  predicate Below(w: Word, rate: real) {
    (w / 2048) as real < rate * 9007199254740992.0
  }

  lemma QuotientBelow(x: real, d: real, y: real)
    requires d > 0.0
    ensures x / d < y <==> x < y * d
  {
    assert (x / d) * d == x;
  }

  /** Clamping the rate to [0, 1] changes no outcome: a draw is in [0, 1) already. */
  lemma BelowIffUniform(w: Word, rate: real)
    ensures Uniform(w) < rate <==> Below(w, rate)
    ensures Uniform(w) < Clamp01(rate) <==> Below(w, rate)
  {
    QuotientBelow((w / 2048) as real, 9007199254740992.0, rate);
  }

  function Uniforms(stream: Stream, at: nat, n: nat): (u: seq<real>)
    ensures |u| == n && UnitDraws(u) && forall i | 0 <= i < n :: u[i] == Uniform(stream(at + i))
  {
    var u := seq(n, (i: nat) => Uniform(stream(at + i)));
    assert forall i | 0 <= i < n :: u[i] == Uniform(stream(at + i));
    u
  }

  // ----- Three distinct donors -----

  function Residue(w: Word, n: nat): (r: nat)
    requires n > 0
    ensures r < n
  {
    w % n
  }

  /** The residue is the remainder. */
  lemma ResidueMeaning(w: Word, n: nat)
    requires n > 0
    ensures exists q: nat :: w == q * n + Residue(w, n)
  {
    assert w == (w / n) * n + Residue(w, n);
  }

  /** The distinct residues other than the target drawn at positions `[from, to)`, in order of appearance. */
  function Picks(stream: Stream, np: nat, target: nat, from: nat, upTo: nat): (r: seq<nat>)
    requires np > 0 && from <= upTo
    decreases upTo
  {
    if from == upTo then []
    else
      var prev := Picks(stream, np, target, from, upTo - 1);
      var cand := Residue(stream(upTo - 1), np);
      if cand != target && cand !in prev then prev + [cand] else prev
  }

  /** Distinct indices below `np`, none of them the target. */
  ghost predicate Donors(r: seq<nat>, np: nat, target: nat) {
    && (forall i | 0 <= i < |r| :: r[i] < np && r[i] != target)
    && (forall i, j | 0 <= i < j < |r| :: r[i] != r[j])
  }

  lemma OneMoreDonor(r: seq<nat>, np: nat, target: nat, cand: nat)
    requires Donors(r, np, target) && cand < np && cand != target && cand !in r
    ensures Donors(r + [cand], np, target)
  {
  }

  lemma {:induction false} PicksAreDonors(stream: Stream, np: nat, target: nat, from: nat, upTo: nat)
    requires np > 0 && from <= upTo
    ensures Donors(Picks(stream, np, target, from, upTo), np, target)
    decreases upTo
  {
    if from < upTo {
      hide Residue, Donors;
      PicksAreDonors(stream, np, target, from, upTo - 1);
      var prev, cand := Picks(stream, np, target, from, upTo - 1), Residue(stream(upTo - 1), np);
      if cand != target && cand !in prev {
        OneMoreDonor(prev, np, target, cand);
      }
    }
  }

  lemma {:induction false} PicksGrow(stream: Stream, np: nat, target: nat, from: nat, mid: nat, upTo: nat)
    requires np > 0 && from <= mid <= upTo
    ensures Picks(stream, np, target, from, mid) <= Picks(stream, np, target, from, upTo)
    decreases upTo
  {
    if mid < upTo {
      PicksGrow(stream, np, target, from, mid, upTo - 1);
    }
  }

  /** Three donors turn up from this position on: exactly what the rejection loop needs to end. */
  ghost predicate DonorsTurnUp(stream: Stream, np: nat, target: nat, from: nat)
    requires np > 0
  {
    exists upTo: nat :: from <= upTo && |Picks(stream, np, target, from, upTo)| >= 3
  }

  /** The stream hypothesis of a run: whatever the target and the position, the loop ends. */
  ghost predicate NeverStarves(stream: Stream, np: nat)
    requires np > 0
  {
    forall target: nat, from: nat | target < np :: DonorsTurnUp(stream, np, target, from)
  }

  ghost predicate ThirdPickAt(stream: Stream, np: nat, target: nat, from: nat, upTo: nat)
    requires np > 0
  {
    && from <= upTo && |Picks(stream, np, target, from, upTo)| == 3
    && forall m | from <= m < upTo :: |Picks(stream, np, target, from, m)| < 3
  }

  lemma {:induction false} FirstFull(stream: Stream, np: nat, target: nat, from: nat, bound: nat) returns (upTo: nat)
    requires np > 0 && from <= bound && |Picks(stream, np, target, from, bound)| >= 3
    ensures ThirdPickAt(stream, np, target, from, upTo)
    decreases bound - from
  {
    upTo := from;
    while |Picks(stream, np, target, from, upTo)| < 3
      invariant from <= upTo <= bound
      invariant forall m | from <= m < upTo :: |Picks(stream, np, target, from, m)| < 3
      invariant |Picks(stream, np, target, from, upTo)| <= 3
      decreases bound - upTo
    {
      upTo := upTo + 1;
    }
  }

  /** The position just after the draw that completes the three donors. */
  ghost function PicksEnd(stream: Stream, np: nat, target: nat, from: nat): (upTo: nat)
    requires np > 0 && DonorsTurnUp(stream, np, target, from)
    ensures ThirdPickAt(stream, np, target, from, upTo)
  {
    assert exists upTo: nat :: ThirdPickAt(stream, np, target, from, upTo) by {
      var bound: nat :| from <= bound && |Picks(stream, np, target, from, bound)| >= 3;
      var upTo := FirstFull(stream, np, target, from, bound);
    }
    var upTo: nat :| ThirdPickAt(stream, np, target, from, upTo);
    upTo
  }

  /** The three donors are the first drawn: each is new at its own position, and every draw in between only
      repeats the target or a donor already drawn. */
  ghost predicate FirstDonors(stream: Stream, np: nat, target: nat, from: nat, donors: seq<nat>, qs: seq<nat>)
    requires np > 0
  {
    && |donors| == |qs| == 3 && from <= qs[0] < qs[1] < qs[2]
    && (forall k | 0 <= k < 3 :: Residue(stream(qs[k]), np) == donors[k] && donors[k] != target)
    && donors[0] != donors[1] && donors[0] != donors[2] && donors[1] != donors[2]
    && (forall q: nat | from <= q < qs[0] :: Residue(stream(q), np) == target)
    && (forall q: nat | qs[0] < q < qs[1] :: Residue(stream(q), np) == target || Residue(stream(q), np) == donors[0])
    && (forall q: nat | qs[1] < q < qs[2] ::
          Residue(stream(q), np) == target || Residue(stream(q), np) == donors[0] || Residue(stream(q), np) == donors[1])
  }

  /** A pick drawn no later than position `q` is the residue `r`. */
  ghost predicate PickedBy(r: nat, q: nat, picks: seq<nat>, qs: seq<nat>)
    requires |qs| == |picks|
  {
    exists k :: 0 <= k < |qs| && qs[k] <= q && picks[k] == r
  }

  /** Where each pick was drawn, in order. */
  ghost predicate DrawnAt(stream: Stream, np: nat, from: nat, upTo: nat, picks: seq<nat>, qs: seq<nat>)
    requires np > 0
  {
    && |qs| == |picks|
    && (forall k | 0 <= k < |qs| :: from <= qs[k] < upTo && Residue(stream(qs[k]), np) == picks[k])
    && (forall j, k | 0 <= j < k < |qs| :: qs[j] < qs[k])
  }

  /** Why no other draw was picked. */
  ghost predicate NoneMissed(stream: Stream, np: nat, target: nat, from: nat, upTo: nat, picks: seq<nat>, qs: seq<nat>)
    requires np > 0 && |qs| == |picks|
  {
    forall q: nat | from <= q < upTo ::
      Residue(stream(q), np) == target || PickedBy(Residue(stream(q), np), q, picks, qs)
  }

  lemma PickedByGrows(r: nat, q: nat, picks: seq<nat>, qs: seq<nat>, cand: nat, at: nat)
    requires |qs| == |picks| && (PickedBy(r, q, picks, qs) || (r == cand && q == at))
    ensures PickedBy(r, q, picks + [cand], qs + [at])
  {
    if PickedBy(r, q, picks, qs) {
      var k :| 0 <= k < |qs| && qs[k] <= q && picks[k] == r;
      assert (qs + [at])[k] == qs[k] && (picks + [cand])[k] == picks[k];
    } else {
      assert (qs + [at])[|qs|] == at && (picks + [cand])[|picks|] == cand;
    }
  }

  lemma NewPick(stream: Stream, np: nat, target: nat, from: nat, at: nat, picks: seq<nat>, qs: seq<nat>)
    requires np > 0 && from <= at && |qs| == |picks|
    requires DrawnAt(stream, np, from, at, picks, qs) && NoneMissed(stream, np, target, from, at, picks, qs)
    ensures DrawnAt(stream, np, from, at + 1, picks + [Residue(stream(at), np)], qs + [at])
    ensures NoneMissed(stream, np, target, from, at + 1, picks + [Residue(stream(at), np)], qs + [at])
  {
    hide Residue, PickedBy;
    var cand := Residue(stream(at), np);
    forall q: nat | from <= q < at + 1
      ensures Residue(stream(q), np) == target || PickedBy(Residue(stream(q), np), q, picks + [cand], qs + [at])
    {
      if Residue(stream(q), np) != target {
        PickedByGrows(Residue(stream(q), np), q, picks, qs, cand, at);
      }
    }
  }

  lemma NoPick(stream: Stream, np: nat, target: nat, from: nat, at: nat, picks: seq<nat>, qs: seq<nat>)
    requires np > 0 && from <= at && |qs| == |picks|
    requires DrawnAt(stream, np, from, at, picks, qs) && NoneMissed(stream, np, target, from, at, picks, qs)
    requires Residue(stream(at), np) == target || Residue(stream(at), np) in picks
    ensures DrawnAt(stream, np, from, at + 1, picks, qs) && NoneMissed(stream, np, target, from, at + 1, picks, qs)
  {
    hide Residue;
    var cand := Residue(stream(at), np);
    if cand != target {
      var k :| 0 <= k < |picks| && picks[k] == cand;
      assert qs[k] <= at;
      assert PickedBy(cand, at, picks, qs);
    }
  }

  ghost predicate History(stream: Stream, np: nat, target: nat, from: nat, upTo: nat, picks: seq<nat>, qs: seq<nat>)
    requires np > 0
  {
    && |qs| == |picks| && DrawnAt(stream, np, from, upTo, picks, qs)
    && NoneMissed(stream, np, target, from, upTo, picks, qs)
  }

  lemma NextHistory(stream: Stream, np: nat, target: nat, from: nat, upTo: nat, qs: seq<nat>)
    requires np > 0 && from <= upTo
    requires History(stream, np, target, from, upTo, Picks(stream, np, target, from, upTo), qs)
    ensures var picks, next := Picks(stream, np, target, from, upTo), Picks(stream, np, target, from, upTo + 1);
            History(stream, np, target, from, upTo + 1, next, if |picks| < |next| then qs + [upTo] else qs)
  {
    hide DrawnAt, NoneMissed, Residue;
    var picks, cand := Picks(stream, np, target, from, upTo), Residue(stream(upTo), np);
    if cand != target && cand !in picks {
      NewPick(stream, np, target, from, upTo, picks, qs);
    } else {
      NoPick(stream, np, target, from, upTo, picks, qs);
    }
  }

  lemma FirstHistory(stream: Stream, np: nat, target: nat, from: nat)
    requires np > 0
    ensures History(stream, np, target, from, from, Picks(stream, np, target, from, from), [])
  {
  }

  lemma {:induction false} PicksHistory(stream: Stream, np: nat, target: nat, from: nat, upTo: nat) returns (qs: seq<nat>)
    requires np > 0 && from <= upTo
    ensures History(stream, np, target, from, upTo, Picks(stream, np, target, from, upTo), qs)
    ensures from < upTo && |Picks(stream, np, target, from, upTo - 1)| < |Picks(stream, np, target, from, upTo)| ==>
              qs != [] && qs[|qs| - 1] == upTo - 1
    decreases upTo
  {
    hide Picks, History;
    qs := [];
    if from == upTo {
      FirstHistory(stream, np, target, from);
    } else {
      var before := PicksHistory(stream, np, target, from, upTo - 1);
      NextHistory(stream, np, target, from, upTo - 1, before);
      qs := if |Picks(stream, np, target, from, upTo - 1)| < |Picks(stream, np, target, from, upTo)|
            then before + [upTo - 1] else before;
    }
  }

  lemma ThirdPickMeaning(stream: Stream, np: nat, target: nat, from: nat, end: nat) returns (qs: seq<nat>)
    requires np > 0 && ThirdPickAt(stream, np, target, from, end)
    ensures FirstDonors(stream, np, target, from, Picks(stream, np, target, from, end), qs) && qs[2] == end - 1
  {
    hide Residue;
    PicksAreDonors(stream, np, target, from, end);
    qs := PicksHistory(stream, np, target, from, end);
    assert |Picks(stream, np, target, from, from)| == 0;
    assert from < end;
  }

  /** Draws until three distinct indices other than the target have turned up: the first three that do. */
  method PickThreeDistinct(np: nat, target: nat, rng: DetRng) returns (a: nat, b: nat, c: nat)
    requires np > 0 && DonorsTurnUp(rng.stream, np, target, rng.at)
    modifies rng
    ensures rng.at == PicksEnd(rng.stream, np, target, old(rng.at))
    ensures [a, b, c] == Picks(rng.stream, np, target, old(rng.at), rng.at)
    ensures a < np && b < np && c < np && a != target && b != target && c != target
    ensures a != b && a != c && b != c
    ensures exists qs :: FirstDonors(rng.stream, np, target, old(rng.at), [a, b, c], qs) && rng.at == qs[2] + 1
  {
    hide Residue, FirstDonors;
    ghost var from := rng.at;
    ghost var end := PicksEnd(rng.stream, np, target, from);
    var picks := [];
    while |picks| < 3
      invariant from <= rng.at <= end
      invariant picks == Picks(rng.stream, np, target, from, rng.at)
      decreases end - rng.at
    {
      var w := rng.NextU64();
      var cand := Residue(w, np);
      if cand != target && cand !in picks {
        picks := picks + [cand];
      }
    }
    PicksAreDonors(rng.stream, np, target, from, rng.at);
    ghost var qs := ThirdPickMeaning(rng.stream, np, target, from, end);
    a, b, c := picks[0], picks[1], picks[2];
    assert picks == [a, b, c];
  }

  // ----- Which streams never starve the loop -----

  ghost predicate Hits(stream: Stream, np: nat, at: nat, r: nat)
    requires np > 0
  {
    exists q: nat :: at <= q && Residue(stream(q), np) == r
  }

  /** The residue turns up again after any position. */
  ghost predicate Recurs(stream: Stream, np: nat, r: nat)
    requires np > 0
  {
    forall at: nat :: Hits(stream, np, at, r)
  }

  ghost predicate FourRecur(stream: Stream, np: nat, rs: seq<nat>)
    requires np > 0
  {
    && |rs| == 4 && (forall i, j | 0 <= i < j < 4 :: rs[i] != rs[j])
    && forall i | 0 <= i < 4 :: rs[i] < np && Recurs(stream, np, rs[i])
  }

  lemma OneIsNew(rs: seq<nat>, target: nat, taken: seq<nat>) returns (i: nat)
    requires |rs| == 4 && |taken| < 3 && forall i, j | 0 <= i < j < 4 :: rs[i] != rs[j]
    ensures i < 4 && rs[i] != target && rs[i] !in taken
  {
    i := if rs[0] != target && rs[0] !in taken then 0
         else if rs[1] != target && rs[1] !in taken then 1
         else if rs[2] != target && rs[2] !in taken then 2 else 3;
  }

  lemma LongerByAMember(a: seq<nat>, b: seq<nat>, x: nat)
    requires a <= b && x in b && x !in a
    ensures |a| < |b|
  {
  }

  lemma HitIsPicked(stream: Stream, np: nat, target: nat, from: nat, q: nat)
    requires np > 0 && from <= q && Residue(stream(q), np) != target
    ensures Residue(stream(q), np) in Picks(stream, np, target, from, q + 1)
  {
    hide Residue;
  }

  lemma OneMorePick(stream: Stream, np: nat, target: nat, from: nat, at: nat, rs: seq<nat>) returns (upTo: nat)
    requires np > 0 && FourRecur(stream, np, rs) && from <= at && |Picks(stream, np, target, from, at)| < 3
    ensures at <= upTo && |Picks(stream, np, target, from, upTo)| > |Picks(stream, np, target, from, at)|
  {
    hide Picks, Residue;
    var taken := Picks(stream, np, target, from, at);
    var i := OneIsNew(rs, target, taken);
    assert Recurs(stream, np, rs[i]) && Hits(stream, np, at, rs[i]);
    var q: nat :| at <= q && Residue(stream(q), np) == rs[i];
    upTo := q + 1;
    HitIsPicked(stream, np, target, from, q);
    PicksGrow(stream, np, target, from, at, upTo);
    LongerByAMember(taken, Picks(stream, np, target, from, upTo), rs[i]);
  }

  lemma FourRecurringSuffice(stream: Stream, np: nat, target: nat, from: nat, rs: seq<nat>)
    requires np > 0 && FourRecur(stream, np, rs)
    ensures DonorsTurnUp(stream, np, target, from)
  {
    var upTo := from;
    while |Picks(stream, np, target, from, upTo)| < 3
      invariant from <= upTo
      decreases 3 - |Picks(stream, np, target, from, upTo)|
    {
      upTo := OneMorePick(stream, np, target, from, upTo, rs);
    }
  }

  /** After some position, of the residues below `n`, only the recurring ones turn up. */
  lemma {:induction false} OnlyRecurringAfter(stream: Stream, np: nat, n: nat) returns (after: nat)
    requires np > 0
    ensures forall q: nat | after <= q && Residue(stream(q), np) < n :: Recurs(stream, np, Residue(stream(q), np))
  {
    if n == 0 {
      after := 0;
    } else {
      after := OnlyRecurringAfter(stream, np, n - 1);
      if !Recurs(stream, np, n - 1) {
        var at: nat :| !Hits(stream, np, at, n - 1);
        after := if after < at then at else after;
      }
    }
  }

  lemma {:induction false} PicksRecur(stream: Stream, np: nat, target: nat, from: nat, upTo: nat)
    requires np > 0 && from <= upTo
    requires forall q: nat | from <= q :: Recurs(stream, np, Residue(stream(q), np))
    ensures forall i | 0 <= i < |Picks(stream, np, target, from, upTo)| ::
              Recurs(stream, np, Picks(stream, np, target, from, upTo)[i])
    decreases upTo
  {
    if from < upTo {
      hide Residue, Recurs;
      PicksRecur(stream, np, target, from, upTo - 1);
    }
  }

  /** The loop ends for every target from every position exactly when four residues keep turning up. */
  lemma NeverStarvesIff(stream: Stream, np: nat)
    requires np > 0
    ensures NeverStarves(stream, np) <==> exists rs :: FourRecur(stream, np, rs)
  {
    if rs :| FourRecur(stream, np, rs) {
      forall target: nat, from: nat | target < np ensures DonorsTurnUp(stream, np, target, from) {
        FourRecurringSuffice(stream, np, target, from, rs);
      }
    }
    if NeverStarves(stream, np) {
      var from := OnlyRecurringAfter(stream, np, np);
      var target := Residue(stream(from), np);
      assert DonorsTurnUp(stream, np, target, from);
      var upTo: nat :| from <= upTo && |Picks(stream, np, target, from, upTo)| >= 3;
      PicksRecur(stream, np, target, from, upTo);
      PicksAreDonors(stream, np, target, from, upTo);
      var picks := Picks(stream, np, target, from, upTo);
      assert FourRecur(stream, np, [target, picks[0], picks[1], picks[2]]);
    }
  }

  // ----- Masks drawn from the stream -----

  /** A value and the stream position after drawing it. */
  datatype Drawn<T> = Drawn(value: T, at: nat)

  function Repaired(stream: Stream, m: Mask, at: nat): (d: Drawn<Mask>)
    ensures |d.value| == |m|
    ensures m != [] ==> Count(d.value) > 0
    ensures Count(m) > 0 ==> d == Drawn(m, at)
    ensures m != [] && Count(m) == 0 ==>
              d.at == at + 1 && Count(d.value) == 1
  {
    if m != [] && Count(m) == 0 then
      var j := Residue(stream(at), |m|);
      CountIsPositiveIff(m);
      CountOfOneMoreBit(m, j);
      Drawn(m[j := true], at + 1)
    else Drawn(m, at)
  }

  /** Sets one random locus of a mask with no member. */
  method RepairNonempty(m: Mask, rng: DetRng) returns (r: Mask)
    modifies rng
    ensures Drawn(r, rng.at) == Repaired(rng.stream, m, old(rng.at))
    ensures m == [] || (exists j :: 0 <= j < |m| && m[j]) ==> r == m && rng.at == old(rng.at)
    ensures m != [] && (forall j | 0 <= j < |m| :: !m[j]) ==>
              rng.at == old(rng.at) + 1 && r == m[Residue(rng.stream(old(rng.at)), |m|) := true]
  {
    CountIsPositiveIff(m);
    r := m;
    if m != [] && Count(m) == 0 {
      var w := rng.NextU64();
      r := r[Residue(w, |m|) := true];
    }
  }

  function RandomMaskFrom(stream: Stream, poolSize: nat, density: real, at: nat): (d: Drawn<Mask>)
    ensures |d.value| == poolSize && (poolSize > 0 ==> Count(d.value) > 0)
  {
    Repaired(stream, seq(poolSize, (i: nat) => Uniform(stream(at + i)) < density), at + poolSize)
  }

  method RandomMask(poolSize: nat, density: real, rng: DetRng) returns (r: Mask)
    modifies rng
    ensures Drawn(r, rng.at) == RandomMaskFrom(rng.stream, poolSize, density, old(rng.at))
  {
    ghost var start := rng.at;
    var bits: Mask := [];
    for i := 0 to poolSize
      invariant rng.at == start + i && |bits| == i
      invariant forall j | 0 <= j < i :: bits[j] == (Uniform(rng.stream(start + j)) < density)
    {
      var w := rng.NextU64();
      bits := bits + [Uniform(w) < density];
    }
    assert bits == seq(poolSize, (i: nat) => Uniform(rng.stream(start + i)) < density);
    r := RepairNonempty(bits, rng);
  }

  /** A repair leaves a mask with a member, and an empty one, alone; otherwise it spends one draw on the
      one locus it sets. */
  lemma RepairMeaning(stream: Stream, m: Mask, at: nat)
    ensures var d := Repaired(stream, m, at);
            if m == [] || exists j :: 0 <= j < |m| && m[j] then d == Drawn(m, at)
            else d.at == at + 1 && forall j: nat | j < |m| :: d.value[j] <==> j == Residue(stream(at), |m|)
  {
    CountIsPositiveIff(m);
  }

  /** The draw of locus `j`, the draws starting at `at`, falls below the rate. */
  predicate LocusBelow(stream: Stream, at: nat, rate: real, j: nat) {
    Below(stream(at + j), rate)
  }

  /** A locus is set exactly when its own draw falls below the density; if none does, exactly the one that
      the next draw names. */
  lemma RandomMaskMeaning(stream: Stream, poolSize: nat, density: real, at: nat)
    ensures var d := RandomMaskFrom(stream, poolSize, density, at);
            if poolSize == 0 || exists j: nat :: j < poolSize && LocusBelow(stream, at, density, j)
            then d.at == at + poolSize && forall j: nat | j < poolSize :: d.value[j] <==> LocusBelow(stream, at, density, j)
            else d.at == at + poolSize + 1
                 && forall j: nat | j < poolSize :: d.value[j] <==> j == Residue(stream(at + poolSize), poolSize)
  {
    var bits := seq(poolSize, (i: nat) => Uniform(stream(at + i)) < density);
    hide Repaired, Residue, Uniform, Below;
    forall j: nat | j < poolSize ensures bits[j] == LocusBelow(stream, at, density, j) {
      BelowIffUniform(stream(at + j), density);
    }
    RepairMeaning(stream, bits, at + poolSize);
    if j: nat :| j < poolSize && LocusBelow(stream, at, density, j) {
      assert bits[j];
    }
  }

  function CrossedFrom(stream: Stream, target: Mask, mutant: Mask, cr: real, at: nat): (d: Drawn<Mask>)
    ensures |d.value| == Shorter(|target|, |mutant|)
  {
    var n := Shorter(|target|, |mutant|);
    if n == 0 then Drawn([], at)
    else Drawn(Crossed(target, mutant, cr, Residue(stream(at), n), Uniforms(stream, at + 1, n)), at + 1 + n)
  }

  /** A locus comes from the mutant: it is the guaranteed one, or its own draw falls below the rate. */
  ghost predicate Taken(stream: Stream, cr: real, at: nat, n: nat, j: nat)
    requires n > 0
  {
    j == Residue(stream(at), n) || LocusBelow(stream, at + 1, cr, j)
  }

  /** One guaranteed locus, then one draw a locus. */
  method BinomialCrossover(target: Mask, mutant: Mask, cr: real, rng: DetRng) returns (r: Mask)
    modifies rng
    ensures Drawn(r, rng.at) == CrossedFrom(rng.stream, target, mutant, cr, old(rng.at))
    ensures |r| == (if |target| < |mutant| then |target| else |mutant|)
    ensures rng.at == old(rng.at) + if |r| == 0 then 0 else |r| + 1
    ensures forall j | 0 <= j < |r| ::
              r[j] == if Taken(rng.stream, cr, old(rng.at), |r|, j) then mutant[j] else target[j]
  {
    ghost var start := rng.at;
    var n := Shorter(|target|, |mutant|);
    if n == 0 {
      return [];
    }
    var rate := Clamp01(cr);
    var w := rng.NextU64();
    var jRand := Residue(w, n);
    r := [];
    ghost var draws := Uniforms(rng.stream, start + 1, n);
    for i := 0 to n
      invariant rng.at == start + 1 + i && |r| == i
      invariant forall j | 0 <= j < i :: r[j] == if FromMutant(cr, jRand, draws, j) then mutant[j] else target[j]
      invariant forall j | 0 <= j < i :: r[j] == if Taken(rng.stream, cr, start, n, j) then mutant[j] else target[j]
    {
      var v := rng.NextU64();
      var u := Uniform(v);
      BelowIffUniform(v, cr);
      assert u == draws[i];
      r := r + [if i == jRand || u < rate then mutant[i] else target[i]];
    }
    assert r == Crossed(target, mutant, cr, jRand, draws);
  }

  /** The crossover spends one draw on the guaranteed locus and one a locus, and takes from the mutant
      exactly the loci so drawn. */
  lemma CrossedMeaning(stream: Stream, target: Mask, mutant: Mask, cr: real, at: nat)
    requires |target| == |mutant| > 0
    ensures var d := CrossedFrom(stream, target, mutant, cr, at);
            && |d.value| == |target| && d.at == at + 1 + |target|
            && forall j | 0 <= j < |target| ::
                 d.value[j] == if Taken(stream, cr, at, |target|, j) then mutant[j] else target[j]
  {
    hide Residue, Uniform, Below;
    var draws := Uniforms(stream, at + 1, |target|);
    forall j: nat | j < |target|
      ensures FromMutant(cr, Residue(stream(at), |target|), draws, j) == Taken(stream, cr, at, |target|, j)
    {
      BelowIffUniform(stream(at + 1 + j), cr);
    }
  }
}
