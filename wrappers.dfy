/** Failure-compatible wrappers shared by the modules of this model: a value that may
    be absent (JavaScript `null`/`undefined`, a C++ null smart pointer), a result that
    may be an error (a thrown exception), and an outcome that carries no value. */
module Wrappers {

  datatype Option<+T> = None | Some(value: T)

  datatype Result<+T, +E> = Ok(value: T) | Err(error: E)

  datatype Outcome<+E> = Pass | Fail(error: E)
}
