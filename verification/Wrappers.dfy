/** Optional values and success-or-error results, standing for Python's None and exceptions. */
module Wrappers {
  datatype Option<+T> = None | Some(value: T) {
    predicate IsFailure() {
      None?
    }

    function PropagateFailure<U>(): Option<U>
      requires None?
    {
      None
    }

    function Extract(): T
      requires Some?
    {
      value
    }
  }

  datatype Result<+T, +E> = Ok(value: T) | Err(error: E)

  /** Positions in a list, from front to back. */
  predicate IsAscending(at: seq<nat>) {
    forall i, j | 0 <= i < j < |at| :: at[i] < at[j]
  }

  /** The picked elements are those at these positions, in the order of the list. */
  ghost predicate IsPicked<T>(picked: seq<T>, all: seq<T>, at: seq<nat>) {
    && IsAscending(at) && |at| == |picked|
    && forall k | 0 <= k < |at| :: at[k] < |all| && picked[k] == all[at[k]]
  }

  lemma PickSnoc<T>(picked: seq<T>, all: seq<T>, at: seq<nat>, last: T)
    requires IsPicked(picked, all, at)
    ensures IsPicked(picked, all + [last], at) && IsPicked(picked + [last], all + [last], at + [|all|])
  {
  }
}
