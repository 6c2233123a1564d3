/** Failure-carrying values. Every error the modelled Go code produces is an
    `error` whose only observable content is its text, so `Result` carries the
    error message as a string. */
module Wrappers {

  datatype Option<+T> = None | Some(value: T)

  datatype Result<+T> = Ok(value: T) | Err(error: string) {
    predicate IsFailure() { Err? }
  }
}
