/** Success or failure of an operation that the source would end by throwing an Error. */
module Wrappers {

  /** `Fail(msg)` stands for `throw new Error(msg)`; `Ok(value)` for a normal return. */
  datatype Result<T> = Ok(value: T) | Fail(msg: string)
}
