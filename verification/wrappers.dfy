/** Rust's `Option` and `Result`, the two standard library types the boolean
    combinators produce. Constructor names follow Rust so that the branch
    tables of the combinators read as in the library's documentation. */
module Wrappers {

  /** `core::option::Option<T>` */
  datatype Option<+T> = None | Some(value: T)

  /** `core::result::Result<T, E>` */
  datatype Result<+T, +E> = Ok(value: T) | Err(error: E) {

    /** `Result::map`: transforms a success value, passes an error through */
    function Map<U>(f: T -> U): (r: Result<U, E>)
      ensures r.Ok? <==> Ok?
      ensures r.Ok? ==> r.value == f(value)
      ensures r.Err? ==> r.error == error
    {
      match this
      case Ok(v) => Ok(f(v))
      case Err(e) => Err(e)
    }
  }
}
