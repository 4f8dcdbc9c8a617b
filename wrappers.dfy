/** Option and Result values, and the kinds of Python exception the model tells apart. */
module Wrappers {

  datatype Option<T> = None | Some(value: T)

  datatype Result<T, E> = Ok(value: T) | Err(error: E) {
    predicate IsFailure() { Err? }

    function PropagateFailure<U>(): Result<U, E>
      requires Err?
    {
      Err(error)
    }

    function Extract(): T
      requires Ok?
    {
      value
    }
  }

  /** The Python exception classes that the modelled code raises or catches.
      NotModelled stands for a value of a JSON type the model does not carry
      in that position (for example a number where a text is stored). */
  datatype Failure = ValueError | TypeError | AttributeError | KeyError | IndexError | NotModelled

  /** [f(x) for x in xs] where f may raise: the results in order, or the
      error of the first element that fails. */
  function TryMap<A, B, E>(xs: seq<A>, f: A -> Result<B, E>): (r: Result<seq<B>, E>)
    ensures r.Ok? ==> |r.value| == |xs|
    ensures r.Ok? ==> forall i :: 0 <= i < |xs| ==> f(xs[i]) == Ok(r.value[i])
  {
    if xs == [] then Ok([])
    else
      match f(xs[0])
      case Err(e) => Err(e)
      case Ok(y) =>
        match TryMap(xs[1..], f)
        case Err(e) => Err(e)
        case Ok(ys) => Ok([y] + ys)
  }

  /** The comprehension fails exactly when some element fails, with the
      error of the first element that does. */
  lemma {:induction false} TryMapFirstError<A, B, E>(xs: seq<A>, f: A -> Result<B, E>)
    ensures TryMap(xs, f).Err? <==> exists i :: 0 <= i < |xs| && f(xs[i]).Err?
    ensures TryMap(xs, f).Err? ==>
      exists i :: 0 <= i < |xs| && f(xs[i]) == Err(TryMap(xs, f).error)
                  && forall j :: 0 <= j < i ==> f(xs[j]).Ok?
  {
    if xs != [] && f(xs[0]).Ok? {
      var tail := xs[1..];
      TryMapFirstError(tail, f);
      if TryMap(tail, f).Err? {
        var i :| 0 <= i < |tail| && f(tail[i]) == Err(TryMap(tail, f).error)
                 && forall j :: 0 <= j < i ==> f(tail[j]).Ok?;
        assert xs[i + 1] == tail[i];
        forall j | 0 <= j < i + 1 ensures f(xs[j]).Ok? {
          if j > 0 { assert xs[j] == tail[j - 1]; }
        }
      } else {
        forall i | 0 <= i < |xs| ensures f(xs[i]).Ok? {
          if i > 0 { assert xs[i] == tail[i - 1]; }
        }
      }
    }
  }

  /** When every element succeeds with a known result, the comprehension
      yields those results in order. */
  lemma {:induction false} TryMapAllOk<A, B, E>(xs: seq<A>, f: A -> Result<B, E>, ys: seq<B>)
    requires |xs| == |ys|
    requires forall i :: 0 <= i < |xs| ==> f(xs[i]) == Ok(ys[i])
    ensures TryMap(xs, f) == Ok(ys)
  {
    if xs != [] {
      assert f(xs[0]) == Ok(ys[0]);
      TryMapAllOk(xs[1..], f, ys[1..]);
      assert ys == [ys[0]] + ys[1..];
    }
  }
}
