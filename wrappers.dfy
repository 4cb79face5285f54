/** Optional values and results with an error case, used across the model
    for Python's `None` and for operations that raise. */
module Wrappers {

  datatype Option<+T> = None | Some(value: T) {
    function GetOr(default: T): T {
      match this
      case Some(v) => v
      case None => default
    }
  }

  datatype Result<+T, +E> = Ok(value: T) | Err(error: E)

  /** A fallible step applied to each element in order: all the results, or
      the error of the first element that fails. */
  function MapAll<T, U, E>(f: T -> Result<U, E>, xs: seq<T>): (r: Result<seq<U>, E>)
    ensures r.Ok? <==> forall i :: 0 <= i < |xs| ==> f(xs[i]).Ok?
    ensures r.Ok? ==> |r.value| == |xs| && forall i :: 0 <= i < |xs| ==> f(xs[i]) == Ok(r.value[i])
    ensures r.Err? ==> exists i :: 0 <= i < |xs| && f(xs[i]) == Err(r.error)
                                   && forall j :: 0 <= j < i ==> f(xs[j]).Ok?
  {
    if xs == [] then Ok([])
    else
      var prefix := xs[..|xs| - 1];
      match MapAll(f, prefix)
      case Err(e) => Err(e)
      case Ok(ys) =>
        match f(xs[|xs| - 1])
        case Err(e) => Err(e)
        case Ok(y) => Ok(ys + [y])
  }

  /** When every element before `i` succeeds and element `i` fails, the whole
      fails with element `i`'s error. */
  lemma MapAllFirstError<T, U, E>(f: T -> Result<U, E>, xs: seq<T>, i: nat)
    requires i < |xs| && f(xs[i]).Err?
    requires forall j :: 0 <= j < i ==> f(xs[j]).Ok?
    ensures MapAll(f, xs) == Err(f(xs[i]).error)
  {
    var r := MapAll(f, xs);
    var k :| 0 <= k < |xs| && f(xs[k]) == Err(r.error) && forall j :: 0 <= j < k ==> f(xs[j]).Ok?;
    assert k == i;
  }

  /** Extending the elements by one that succeeds extends the results by its
      result. */
  lemma MapAllAppend<T, U, E>(f: T -> Result<U, E>, xs: seq<T>, x: T)
    requires MapAll(f, xs).Ok? && f(x).Ok?
    ensures MapAll(f, xs + [x]) == Ok(MapAll(f, xs).value + [f(x).value])
  {
    assert (xs + [x])[..|xs|] == xs;
  }

  /** A walk over a prefix that succeeded stops at the next element when that
      element fails. */
  lemma MapAllStops<T, U, E>(f: T -> Result<U, E>, xs: seq<T>, i: nat)
    requires i < |xs| && MapAll(f, xs[..i]).Ok? && f(xs[i]).Err?
    ensures MapAll(f, xs) == Err(f(xs[i]).error)
  {
    forall j | 0 <= j < i
      ensures f(xs[j]).Ok?
    {
      assert xs[..i][j] == xs[j];
    }
    MapAllFirstError(f, xs, i);
  }

  /** A walk over a prefix that succeeded extends by the next element's
      result when that element succeeds. */
  lemma MapAllExtends<T, U, E>(f: T -> Result<U, E>, xs: seq<T>, i: nat)
    requires i < |xs| && MapAll(f, xs[..i]).Ok? && f(xs[i]).Ok?
    ensures MapAll(f, xs[..i + 1]) == Ok(MapAll(f, xs[..i]).value + [f(xs[i]).value])
  {
    assert xs[..i + 1] == xs[..i] + [xs[i]];
    MapAllAppend(f, xs[..i], xs[i]);
  }
}
