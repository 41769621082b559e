/** Optional values and the one failure the core can raise. */
module Wrappers {

  datatype Option<+T> = None | Some(value: T)

  /** The only exception the extraction core raises: Python's `int("")`, reached
      when a captured amount holds separators but no digit. */
  datatype ParseError = InvalidIntLiteral

  datatype Result<+T> = Ok(value: T) | Err(error: ParseError)
}
