/** Failure-compatible wrappers shared by the role model.
    - Option<T>: a value that may be unset (a Go nil pointer, map or slice)
    - Result<T, E>: a value or an error (a Go `(T, error)` pair)
    - Outcome<E>: success or an error (a Go function returning only `error`)
 */
module Wrappers {

  datatype Option<+T> = None | Some(value: T) {

    /** The wrapped value, or `default` when unset. */
    function GetOr(default: T): T {
      match this
      case Some(v) => v
      case None => default
    }
  }

  datatype Result<+T, +E> = Success(value: T) | Failure(error: E) {

    predicate IsFailure() {
      Failure?
    }

    function PropagateFailure<U>(): Result<U, E>
      requires Failure?
    {
      Failure(error)
    }

    function Extract(): T
      requires Success?
    {
      value
    }
  }

  datatype Outcome<+E> = Pass | Fail(error: E) {

    /** Lifts a value-less outcome into a result carrying `v` on success. */
    function ToResult<T>(v: T): (r: Result<T, E>)
      ensures r.Success? <==> Pass?
      ensures r.Success? ==> r.value == v
      ensures r.Failure? ==> r.error == error
    {
      match this
      case Pass => Success(v)
      case Fail(e) => Failure(e)
    }

    /** This check, then `next`: the first failure wins. */
    function Then(next: Outcome<E>): (o: Outcome<E>)
      ensures o.Pass? <==> Pass? && next.Pass?
      ensures Fail? ==> o == this
      ensures Pass? ==> o == next
    {
      if Fail? then this else next
    }
  }

  /** Pass when `condition` holds, otherwise fail with `error`. */
  function Need<E>(condition: bool, error: E): (o: Outcome<E>)
    ensures o.Pass? <==> condition
    ensures o.Fail? ==> o.error == error
  {
    if condition then Pass else Fail(error)
  }
}

/** The early-exit loop the source uses for every list it validates:
    `for _, x := range xs { if err := check(x); err != nil { return err } }`. */
module SeqChecks {
  import opened Wrappers

  /** Index of the first element of `s` that `check` rejects, if any. */
  function FirstFailure<T, E>(s: seq<T>, check: T -> Outcome<E>): (r: Option<nat>)
    ensures r.None? <==> forall i :: 0 <= i < |s| ==> check(s[i]).Pass?
    ensures r.Some? ==> r.value < |s| && check(s[r.value]).Fail?
    ensures r.Some? ==> forall j :: 0 <= j < r.value ==> check(s[j]).Pass?
    decreases |s|
  {
    if |s| == 0 then None
    else if check(s[0]).Fail? then Some(0)
    else
      match FirstFailure(s[1..], check)
      case None => None
      case Some(i) => Some(i + 1)
  }

  /** Runs `check` over `s` in order and returns the first error. */
  function CheckAll<T, E(==)>(s: seq<T>, check: T -> Outcome<E>): (o: Outcome<E>)
    ensures o.Pass? <==> forall i :: 0 <= i < |s| ==> check(s[i]).Pass?
    ensures o.Fail? ==> exists i :: 0 <= i < |s| && check(s[i]) == o
                                   && forall j :: 0 <= j < i ==> check(s[j]).Pass?
  {
    match FirstFailure(s, check)
    case None => Pass
    case Some(i) => check(s[i])
  }
}
