/** Small failure-carrying datatypes shared by the model. */
module Wrappers {

  /** A value that may be absent: TypeScript's `T | null`. */
  datatype Option<+T> = None | Some(value: T)

  /** How an awaited promise settled: fulfilled, or rejected with a reason. */
  datatype Outcome = Resolved | Rejected(reason: string)

  /** A promise that fulfils with a value, or is rejected with a reason. */
  datatype Result<+T> = Ok(value: T) | Err(reason: string)
}
