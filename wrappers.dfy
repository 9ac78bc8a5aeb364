/** Rust's `Option` and `Result`, the two sum types every part of the client returns. */
module Wrappers {

  datatype Option<+T> = None | Some(value: T)

  datatype Result<+T, +E> = Ok(value: T) | Err(error: E)

  /** `Result::map`: transforms the success value and passes any error through. */
  function MapOk<T, U, E>(r: Result<T, E>, f: T -> U): (r': Result<U, E>)
    ensures r'.Ok? <==> r.Ok?
    ensures r.Ok? ==> r'.value == f(r.value)
    ensures r.Err? ==> r' == Err(r.error)
  {
    match r
    case Ok(v) => Ok(f(v))
    case Err(e) => Err(e)
  }
}
