/** Failure-carrying values shared by every module of the storefront model. */
module Wrappers {

  /** An optional value: the source's `T | null | undefined`. */
  datatype Option<+T> = None | Some(value: T)

  /** The outcome of a call that can throw: the source's `try { … } catch (error)`. */
  datatype Result<+T> = Ok(value: T) | Err(message: string)
}
