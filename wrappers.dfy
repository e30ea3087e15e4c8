/** Option and Result, used for PHP's `null` returns and for the runtime
    errors that abort an operation. */
module Wrappers {

  datatype Option<+T> = None | Some(value: T)

  datatype Result<+T, +E> = Ok(value: T) | Err(error: E)

  /** Applies `f` to each element from first to last, collecting the results;
      the first error stops the run and is the result. */
  function Collect<T, U, E>(f: T -> Result<U, E>, xs: seq<T>): Result<seq<U>, E>
  {
    if xs == [] then Ok([])
    else
      match Collect(f, xs[..|xs| - 1])
      case Err(e) => Err(e)
      case Ok(us) =>
        match f(xs[|xs| - 1])
        case Err(e) => Err(e)
        case Ok(u) => Ok(us + [u])
  }

  /** Collect succeeds exactly when `f` succeeds on every element, and then
      yields `f`'s value for each element, position by position. */
  lemma {:induction false} CollectPerElement<T, U, E>(f: T -> Result<U, E>, xs: seq<T>)
    ensures Collect(f, xs).Ok? <==> forall i :: 0 <= i < |xs| ==> f(xs[i]).Ok?
    ensures Collect(f, xs).Ok? ==>
      |Collect(f, xs).value| == |xs| &&
      forall i :: 0 <= i < |xs| ==> Collect(f, xs).value[i] == f(xs[i]).value
    decreases |xs|
  {
    if xs != [] {
      var init := xs[..|xs| - 1];
      CollectPerElement(f, init);
      assert forall i :: 0 <= i < |init| ==> init[i] == xs[i];
    }
  }

  /** Once a prefix fails, the whole run fails with the same error. */
  lemma {:induction false} CollectPrefixError<T, U, E>(f: T -> Result<U, E>, xs: seq<T>, k: nat)
    requires k <= |xs| && Collect(f, xs[..k]).Err?
    ensures Collect(f, xs) == Collect(f, xs[..k])
    decreases |xs| - k
  {
    if k < |xs| {
      var init := xs[..|xs| - 1];
      assert init[..k] == xs[..k];
      CollectPrefixError(f, init, k);
    } else {
      assert xs[..k] == xs;
    }
  }

  /** One more element: extends a successful prefix run by `f`'s value, or
      ends the whole run with `f`'s error. */
  lemma CollectStep<T, U, E>(f: T -> Result<U, E>, xs: seq<T>, i: nat)
    requires i < |xs| && Collect(f, xs[..i]).Ok?
    ensures f(xs[i]).Ok? ==> Collect(f, xs[..i + 1]) == Ok(Collect(f, xs[..i]).value + [f(xs[i]).value])
    ensures f(xs[i]).Err? ==> Collect(f, xs) == Err(f(xs[i]).error)
  {
    assert xs[..i + 1][..i] == xs[..i];
    if f(xs[i]).Err? {
      CollectPrefixError(f, xs, i + 1);
    }
  }
}
