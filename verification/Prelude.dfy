/** Failure-compatible datatypes shared by every other module. */
module Prelude {

  datatype Option<+T> = None | Some(value: T) {
    function GetOr(default: T): T {
      if Some? then value else default
    }
  }

  datatype Result<+T, +E> = Ok(value: T) | Err(error: E) {
    predicate IsFailure() { Err? }

    function PropagateFailure<U>(): Result<U, E>
      requires Err?
    {
      Err(error)
    }

    function Extract(): T
      requires Ok?
    {
      value
    }
  }

  /** A number outside a finite set: the stand-in for a freshly generated identifier. */
  ghost function Fresh(used: set<nat>): (n: nat)
    ensures n !in used
  {
    var bound := UpperBound(used);
    assert bound + 1 !in used;
    bound + 1
  }

  ghost predicate Bounds(used: set<nat>, bound: nat) {
    forall n :: n in used ==> n <= bound
  }

  ghost function UpperBound(used: set<nat>): (bound: nat)
    ensures Bounds(used, bound)
  {
    BoundExists(used);
    var bound :| Bounds(used, bound);
    bound
  }

  lemma BoundExists(used: set<nat>)
    ensures exists bound: nat :: Bounds(used, bound)
  {
    if used == {} {
      assert Bounds(used, 0);
    } else {
      var n :| n in used;
      BoundExists(used - {n});
      var smaller: nat :| Bounds(used - {n}, smaller);
      assert Bounds(used, smaller + n) by {
        forall k | k in used ensures k <= smaller + n {
          if k != n { assert k in used - {n}; }
        }
      }
    }
  }
}
