/** Failure-compatible helper types shared by every module of the model. */
module Wrappers {

  /** An optional value: a Python `None`, a JavaScript `undefined`, or a key missing from a record. */
  datatype Option<+T> = None | Some(value: T) {
    function GetOr(default: T): T {
      match this
      case Some(v) => v
      case None => default
    }
  }

  /** The outcome of an operation that can raise. */
  datatype Result<+T, +E> = Success(value: T) | Failure(error: E) {
    predicate IsFailure() {
      Failure?
    }

    function PropagateFailure<U>(): Result<U, E>
      requires Failure?
    {
      Failure(error)
    }

    function Extract(): T
      requires Success?
    {
      value
    }
  }

  /**
   * Converting every element, as a loop that appends each converted element and stops at the
   * first element whose conversion raises.
   */
  function MapAll<A, B>(f: A -> Result<B, string>, xs: seq<A>): (r: Result<seq<B>, string>)
    ensures r.Success? <==> forall i :: 0 <= i < |xs| ==> f(xs[i]).Success?
    ensures r.Success? ==> (|r.value| == |xs| && forall i :: 0 <= i < |xs| ==> r.value[i] == f(xs[i]).value)
    decreases |xs|
  {
    if xs == [] then Success([])
    else
      var init := MapAll(f, xs[..|xs| - 1]);
      var last := f(xs[|xs| - 1]);
      assert forall i :: 0 <= i < |xs| - 1 ==> xs[..|xs| - 1][i] == xs[i];
      if init.Failure? then Failure(init.error)
      else if last.Failure? then Failure(last.error)
      else Success(init.value + [last.value])
  }

  /** One more converted element, as the loop body appends it. */
  lemma MapAllStep<A, B>(f: A -> Result<B, string>, xs: seq<A>, i: nat)
    requires i < |xs| && MapAll(f, xs[..i]).Success? && f(xs[i]).Success?
    ensures MapAll(f, xs[..i + 1]) == Success(MapAll(f, xs[..i]).value + [f(xs[i]).value])
  {
    assert xs[..i + 1][..i] == xs[..i];
  }

  /** The error is that of the first element whose conversion raises. */
  lemma {:induction false} MapAllFirstFailure<A, B>(f: A -> Result<B, string>, xs: seq<A>, i: nat)
    requires i < |xs| && MapAll(f, xs[..i]).Success? && f(xs[i]).Failure?
    ensures MapAll(f, xs) == Failure(f(xs[i]).error)
    decreases |xs|
  {
    var init := xs[..|xs| - 1];
    if |xs| == i + 1 {
      assert init == xs[..i];
    } else {
      assert init[..i] == xs[..i];
      MapAllFirstFailure(f, init, i);
    }
  }
}
