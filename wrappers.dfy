/** Option and Result values: Go's nil-or-pointer and (value, error) pairs. */
module Wrappers {

  datatype Option<+T> = None | Some(value: T)

  datatype Result<+R, +E> = Success(value: R) | Failure(error: E)

  /** The error half of a Go (value, err) pair: None stands for a nil error. */
  function ErrorOf<R, E>(r: Result<R, E>): (e: Option<E>)
    ensures e.None? <==> r.Success?
    ensures r.Failure? ==> e == Some(r.error)
  {
    match r
    case Success(_) => None
    case Failure(err) => Some(err)
  }
}
