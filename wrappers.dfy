/** Failure-carrying values used in place of Python's None returns and exceptions. */
module Wrappers {

  datatype Option<+T> = None | Some(value: T)

  /** The Python exception that escapes the modelled code: a name that was
      never defined or imported. Exceptions the code catches itself are
      folded into its fallback values. */
  datatype PyError = NameError(name: string)

  /** The outcome of Python code that either returns a value or raises. */
  datatype Result<+T> = Ok(value: T) | Err(error: PyError)
}
