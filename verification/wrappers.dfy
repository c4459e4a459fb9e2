/** Optional values and results, used for the parses the program delegates
    to library code and for the load that a bad date aborts. */
module Wrappers {

  datatype Option<+T> = None | Some(value: T)

  datatype Result<+T, +E> = Ok(value: T) | Err(error: E)
}
