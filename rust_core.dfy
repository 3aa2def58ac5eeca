/** The parts of Rust's core library that the registry's signatures and tests use. */
module RustCore {

  /** A 32-bit signed integer, Rust's `i32`. */
  type I32 = x: int | -0x8000_0000 <= x < 0x8000_0000

  datatype Option<T> = None | Some(value: T)

  datatype Result<T, E> = Ok(value: T) | Err(error: E) {

    /** `Result::map`: transforms a success value and leaves an error alone. */
    function Map<U>(f: T -> U): (r: Result<U, E>)
      ensures r.Ok? <==> Ok?
      ensures Ok? ==> r.value == f(value)
      ensures Err? ==> r.error == error
    {
      match this
      case Ok(v) => Ok(f(v))
      case Err(e) => Err(e)
    }

    /** `Result::map_err`: transforms an error and leaves a success value alone. */
    function MapErr<F>(f: E -> F): (r: Result<T, F>)
      ensures r.Ok? <==> Ok?
      ensures Ok? ==> r.value == value
      ensures Err? ==> r.error == f(error)
    {
      match this
      case Ok(v) => Ok(v)
      case Err(e) => Err(f(e))
    }
  }
}
