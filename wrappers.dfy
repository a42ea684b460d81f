/** Optional values and results with an error, used wherever the source returns
    `undefined`/`null` or throws. */
module Wrappers {

  datatype Option<+T> = None | Some(value: T)
  {
    /** JavaScript's `x ?? d`. */
    function Or(d: T): T
    {
      if Some? then value else d
    }
  }

  datatype Result<+R, +E> = Ok(value: R) | Err(error: E)
}
