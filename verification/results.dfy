/** Optional values and results, used to model the exceptions and assertion
    failures of the original program as ordinary values. */
module Results {

  /** A value that may be absent (Python's `None`). */
  datatype Option<+T> = None | Some(value: T)

  /** Either a computed value or the error the original program raises. */
  datatype Result<+T, +E> = Ok(value: T) | Err(error: E)

  /** Applies f to every element in order and stops at the first error
      (a loop whose body may raise). */
  function MapResult<A, B, E>(xs: seq<A>, f: A -> Result<B, E>): (r: Result<seq<B>, E>)
    ensures r.Ok? <==> forall i :: 0 <= i < |xs| ==> f(xs[i]).Ok?
    ensures r.Ok? ==> |r.value| == |xs| && forall i :: 0 <= i < |xs| ==> f(xs[i]) == Ok(r.value[i])
    ensures r.Err? ==>
      exists i :: 0 <= i < |xs| && f(xs[i]) == Err(r.error) && (forall j :: 0 <= j < i ==> f(xs[j]).Ok?)
  {
    if |xs| == 0 then Ok([])
    else
      match f(xs[0])
      case Err(e) => Err(e)
      case Ok(y) =>
        match MapResult(xs[1..], f)
        case Err(e) =>
          ghost var i :| 0 <= i < |xs[1..]| && f(xs[1..][i]) == Err(e) && forall j :: 0 <= j < i ==> f(xs[1..][j]).Ok?;
          assert f(xs[i + 1]) == Err(e);
          assert forall j :: 0 < j < i + 1 ==> f(xs[j]) == f(xs[1..][j - 1]);
          Err(e)
        case Ok(ys) =>
          assert forall i :: 0 < i < |xs| ==> f(xs[i]) == f(xs[1..][i - 1]) && ([y] + ys)[i] == ys[i - 1];
          Ok([y] + ys)
  }
}
