/** Scores: reals with the two infinities the search uses. */
module Scores {

  datatype Score = NegInf | Fin(value: real) | PosInf {
    predicate AtMost(that: Score) {
      NegInf? || that.PosInf? || (Fin? && that.Fin? && value <= that.value)
    }
  }

  /** A total order that agrees with the reals, between the two infinities. */
  lemma AtMostIsAnOrder(a: Score, b: Score, c: Score)
    ensures a.AtMost(b) || b.AtMost(a)
    ensures a.AtMost(b) && b.AtMost(a) ==> a == b
    ensures a.AtMost(b) && b.AtMost(c) ==> a.AtMost(c)
    ensures NegInf.AtMost(a) && a.AtMost(PosInf)
    ensures a.Fin? && b.Fin? ==> (a.AtMost(b) <==> a.value <= b.value)
  {
  }

  function Lower(a: Score, b: Score): Score {
    if a.AtMost(b) then a else b
  }

  function Higher(a: Score, b: Score): Score {
    if b.AtMost(a) then a else b
  }

  /** The least of the scores, positive infinity when there is none. */
  function Lowest(s: seq<Score>): (r: Score)
    ensures forall i | 0 <= i < |s| :: r.AtMost(s[i])
    ensures if s == [] then r == PosInf else r in s
  {
    if s == [] then PosInf else Lower(Lowest(s[..|s| - 1]), s[|s| - 1])
  }

  /** The greatest of the scores, negative infinity when there is none. */
  function Highest(s: seq<Score>): (r: Score)
    ensures forall i | 0 <= i < |s| :: s[i].AtMost(r)
    ensures if s == [] then r == NegInf else r in s
  {
    if s == [] then NegInf else Higher(Highest(s[..|s| - 1]), s[|s| - 1])
  }

  lemma LowestMonotone(a: seq<Score>, b: seq<Score>)
    requires |a| == |b| && forall i | 0 <= i < |a| :: a[i].AtMost(b[i])
    ensures Lowest(a).AtMost(Lowest(b))
  {
  }
}
