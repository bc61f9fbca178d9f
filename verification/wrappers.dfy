/** Optional values and results with an error, used wherever the source
    reads a field that may be `undefined` or answers with an error status. */
module Wrappers {

  datatype Option<+T> = None | Some(value: T) {

    /** The value, or `default` when absent (the source's `x ?? default`). */
    function GetOr(default: T): T {
      match this
      case Some(v) => v
      case None => default
    }
  }

  datatype Result<+T, +E> = Success(value: T) | Failure(error: E) {

    predicate IsFailure() {
      Failure?
    }

    function PropagateFailure<U>(): Result<U, E>
      requires Failure?
    {
      Failure(error)
    }

    function Extract(): T
      requires Success?
    {
      value
    }
  }

  /** Applies `f` to every element in order, stopping at the first failure
      (a loop whose body may throw). */
  function MapAll<A, B, E>(xs: seq<A>, f: A -> Result<B, E>): (r: Result<seq<B>, E>)
    ensures r.Success? <==> forall k :: 0 <= k < |xs| ==> f(xs[k]).Success?
    ensures r.Success? ==> && |r.value| == |xs|
                           && forall k :: 0 <= k < |xs| ==> r.value[k] == f(xs[k]).value
    ensures r.Failure? ==> exists k :: 0 <= k < |xs| && f(xs[k]).Failure? && f(xs[k]).error == r.error
  {
    if xs == [] then Success([])
    else
      var first := f(xs[0]);
      if first.Failure? then Failure(first.error)
      else
        var rest := MapAll(xs[1..], f);
        if rest.Failure? then
          assert forall k :: 0 <= k < |xs[1..]| ==> xs[1..][k] == xs[k + 1];
          Failure(rest.error)
        else
          var plans := [first.value] + rest.value;
          assert forall k :: 1 <= k < |xs| ==> plans[k] == rest.value[k - 1] && xs[k] == xs[1..][k - 1];
          Success(plans)
  }
}
