/** Families of return series over one time axis. */
module Series {

  /** The length of the shortest series, zero for an empty pool. */
  function CommonLength(pool: seq<seq<real>>): (t: nat)
    ensures forall i | 0 <= i < |pool| :: t <= |pool[i]|
    ensures if pool == [] then t == 0 else exists i :: 0 <= i < |pool| && t == |pool[i]|
  {
    if pool == [] then 0
    else if |pool| == 1 then |pool[0]|
    else
      var rest := CommonLength(pool[..|pool| - 1]);
      if rest < |pool[|pool| - 1]| then rest else |pool[|pool| - 1]|
  }
}
