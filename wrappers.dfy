/** Option and Result values for the absent-value and raised-exception paths of the cache. */
module Wrappers {

  datatype Option<+T> = None | Some(value: T)

  /** `Err` stands for a Python exception; `msg` names its kind. */
  datatype Result<+T> = Ok(value: T) | Err(msg: string)
}
