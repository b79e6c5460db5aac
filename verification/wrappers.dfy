/** Failure-carrying values shared by every module of the model.
    `Outcome` stands for an awaited call (a backend request, a driver call) that either
    returns a value or throws an error whose message the caller reads. */
module Wrappers {

  datatype Option<+T> = None | Some(value: T)

  /** The settled result of an awaited call: a value, or the thrown error's message. */
  datatype Outcome<+T> = Ok(value: T) | Err(msg: string)

  /** The empty tuple as the value of a call whose result is ignored. */
  datatype Unit = Unit
}
