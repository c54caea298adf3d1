/** Option and Result types used across the model: `Option` stands for a
    JavaScript value that may be null, undefined or NaN, and `Result` for a
    handler outcome that is either a value or an error response. */
module Wrappers {

  datatype Option<+T> = None | Some(value: T) {

    /** A zero- or one-element sequence holding the value, as `forEach`/`push` code collects it. */
    function ToSeq(): (s: seq<T>)
      ensures |s| <= 1
      ensures Some? <==> |s| == 1
      ensures Some? ==> s[0] == value
    {
      match this
      case Some(v) => [v]
      case None => []
    }
  }

  datatype Result<+T, +E> = Ok(value: T) | Err(error: E)
}
