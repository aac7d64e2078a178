/**
 * The absent-or-present value used throughout the model (NaN cells, failed
 * polls, missing keys) and the exceptions the bots raise or let escape.
 */
module Wrappers {
  datatype Option<T> = None | Some(value: T)
  {
    predicate IsSome() { Some? }

    function GetOr(default: T): T
    {
      match this
      case None => default
      case Some(v) => v
    }
  }

  /** The Python exception classes that reach the bots' `except` clauses. */
  datatype Raised =
    | MyException
    | IndexError
    | KeyError
    | TypeError
    | ValueError
    | AttributeError
    | NameError
    | OverflowError
    | ZeroDivisionError
    | OSError           // a file that cannot be opened
    | GeneralException  // a bare `Exception(...)`

  /** A computation that returns a value or raises one of `Raised`. */
  datatype Result<T> = Ok(value: T) | Err(error: Raised)
  {
    predicate IsOk() { Ok? }
  }

  /** A list comprehension whose element computation may raise: the first exception wins. */
  function MapAll<A, B>(f: A -> Result<B>, xs: seq<A>): (r: Result<seq<B>>)
    ensures r.Ok? ==> |r.value| == |xs| && forall k :: 0 <= k < |xs| ==> f(xs[k]) == Ok(r.value[k])
    ensures r.Err? ==> exists k :: 0 <= k < |xs| && f(xs[k]) == Err(r.error)
  {
    if |xs| == 0 then Ok([])
    else match f(xs[0])
      case Err(e) => Err(e)
      case Ok(y) =>
        match MapAll(f, xs[1..])
        case Err(e) => Err(e)
        case Ok(ys) => Ok([y] + ys)
  }

  /** Every element computing its value makes the comprehension compute the list of them. */
  lemma {:induction false} MapAllOk<A, B>(f: A -> Result<B>, xs: seq<A>, ys: seq<B>)
    requires |xs| == |ys| && forall k :: 0 <= k < |xs| ==> f(xs[k]) == Ok(ys[k])
    ensures MapAll(f, xs) == Ok(ys)
  {
    if |xs| > 0 {
      MapAllOk(f, xs[1..], ys[1..]);
      assert [ys[0]] + ys[1..] == ys;
    }
  }
}
