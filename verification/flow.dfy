/**
 * The control discipline every route follows: remote steps run strictly one after another, and a step
 * runs only when every earlier one succeeded. This is the reference the routes are compared against.
 */
module Flow {

  /** How many of a planned sequence of steps run when step i would report `ok[i]`. */
  function Performed(ok: seq<bool>): (n: nat)
    ensures n <= |ok|
    ensures |ok| > 0 ==> n > 0
    ensures forall i :: 0 <= i < n - 1 ==> ok[i]
    ensures n < |ok| ==> !ok[n - 1]
  {
    if |ok| == 0 then 0
    else if !ok[0] then 1
    else 1 + Performed(ok[1..])
  }

  /** The flow ends in failure: one of the steps that ran failed (it can only be the last one). */
  predicate Failed(ok: seq<bool>)
  {
    exists i :: 0 <= i < Performed(ok) && !ok[i]
  }
}
