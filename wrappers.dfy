/** Option and Result, the failure-compatible wrappers used throughout the model.
    A Python `None` becomes `None`; a raised exception becomes `Failure`. */
module Wrappers {

  datatype Option<+T> = None | Some(value: T) {
    predicate IsFailure() { None? }

    function PropagateFailure<U>(): Option<U>
      requires None?
    {
      None
    }

    function Extract(): T
      requires Some?
    {
      value
    }
  }

  datatype Result<+R, +E> = Success(value: R) | Failure(error: E) {
    predicate IsFailure() { Failure? }

    function PropagateFailure<U>(): Result<U, E>
      requires Failure?
    {
      Failure(error)
    }

    function Extract(): R
      requires Success?
    {
      value
    }
  }

  /** Applies `f` to every element in order and collects the results; the first
      element that fails decides the error. */
  function MapResult<A, B, E>(xs: seq<A>, f: A -> Result<B, E>): (r: Result<seq<B>, E>)
    ensures r.Success? <==> forall i :: 0 <= i < |xs| ==> f(xs[i]).Success?
    ensures r.Success? ==> |r.value| == |xs|
    ensures r.Success? ==> forall i :: 0 <= i < |xs| ==> f(xs[i]) == Success(r.value[i])
  {
    if xs == [] then Success([])
    else match MapResult(xs[..|xs| - 1], f)
      case Failure(e) => Failure(e)
      case Success(init) =>
        match f(xs[|xs| - 1])
        case Failure(e) => Failure(e)
        case Success(b) => Success(init + [b])
  }

  /** Once a prefix fails, every extension fails with the same error. */
  lemma {:induction false} MapResultFailureExtends<A, B, E>(xs: seq<A>, ys: seq<A>, f: A -> Result<B, E>)
    requires MapResult(xs, f).Failure?
    ensures MapResult(xs + ys, f) == MapResult(xs, f)
    decreases |ys|
  {
    if ys == [] {
      assert xs + ys == xs;
    } else {
      var ys' := ys[..|ys| - 1];
      assert (xs + ys)[..|xs + ys| - 1] == xs + ys';
      MapResultFailureExtends(xs, ys', f);
    }
  }

  /** The error reported is that of the first element that fails. */
  lemma MapResultFirstFailure<A, B, E>(xs: seq<A>, i: nat, f: A -> Result<B, E>)
    requires i < |xs|
    requires MapResult(xs[..i], f).Success?
    requires f(xs[i]).Failure?
    ensures MapResult(xs, f) == Failure(f(xs[i]).error)
  {
    assert xs[..i + 1][..i] == xs[..i];
    assert xs[..i + 1][i] == xs[i];
    assert xs[..i + 1] + xs[i + 1..] == xs;
    MapResultFailureExtends(xs[..i + 1], xs[i + 1..], f);
  }

  /** A one-element sequence maps to the one result. */
  lemma MapResultSingleton<A, B, E>(x: A, f: A -> Result<B, E>)
    ensures MapResult([x], f) == match f(x) case Success(y) => Success([y]) case Failure(e) => Failure(e)
  {
    var xs := [x];
    assert xs[..|xs| - 1] == [];
    assert MapResult(xs[..|xs| - 1], f) == Success([]);
    assert xs[|xs| - 1] == x;
    if f(x).Success? {
      assert [] + [f(x).value] == [f(x).value];
    }
  }

  /** A `for ... append` loop that stops at the first failure: computes `MapResult`. */
  method CollectResults<A, B, E>(xs: seq<A>, f: A -> Result<B, E>) returns (r: Result<seq<B>, E>)
    ensures r == MapResult(xs, f)
  {
    var done: seq<B> := [];
    for i := 0 to |xs|
      invariant MapResult(xs[..i], f) == Success(done)
    {
      var y := f(xs[i]);
      if y.Failure? {
        MapResultFirstFailure(xs, i, f);
        return Failure(y.error);
      }
      assert xs[..i + 1][..i] == xs[..i];
      done := done + [y.value];
    }
    assert xs[..|xs|] == xs;
    return Success(done);
  }
}
