/** Option and Result, used wherever the source returns None or raises. */
module Wrappers {
  datatype Option<T> = None | Some(value: T)
  {
    predicate IsSome() { Some? }
    function GetOr(default: T): T { if Some? then value else default }
  }

  datatype Result<T, E> = Ok(value: T) | Err(error: E)
}
