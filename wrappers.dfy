/** Small datatypes shared by the whole model. */
module Wrappers {

  /** Swift's optional value (`T?`). */
  datatype Option<+T> = None | Some(value: T) {

    /** `self ?? default` */
    function GetOr(default: T): (r: T)
      ensures Some? ==> r == value
      ensures None? ==> r == default
    {
      match this
      case Some(v) => v
      case None => default
    }
  }

  /**
   * What an asynchronous completion handler receives. `Silent` means the
   * handler is never invoked (an early `return` before the callback, or a
   * branch that simply does not call it); `Called(v)` means it is invoked
   * exactly once with `v`.
   */
  datatype Callback<+T> = Silent | Called(value: T)
}
