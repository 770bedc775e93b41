/** Optional values and results with a human-readable error, as the source's
    `null`/`undefined` values and thrown `Error`s are modelled. */
module Wrappers {

  datatype Option<+T> = None | Some(value: T) {
    function GetOr(default: T): T {
      match this
      case Some(v) => v
      case None => default
    }
  }

  /** The outcome of an operation that may throw an `Error(message)`. */
  datatype Result<+T> = Ok(value: T) | Err(message: string)

  /** A list of optional values as an optional list: `None` as soon as one is `None`
      (the first exception thrown by a `map` callback aborts the whole `map`). */
  function AllSome<T>(xs: seq<Option<T>>): (r: Option<seq<T>>)
    ensures r.Some? <==> forall i :: 0 <= i < |xs| ==> xs[i].Some?
    ensures r.Some? ==> |r.value| == |xs| && forall i :: 0 <= i < |xs| ==> r.value[i] == xs[i].value
    decreases |xs|
  {
    if xs == [] then Some([])
    else
      match xs[0]
      case None => None
      case Some(x) =>
        match AllSome(xs[1..])
        case None => None
        case Some(rest) => Some([x] + rest)
  }
}
