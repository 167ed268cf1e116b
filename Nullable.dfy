/** Kotlin's nullable types `T?`, the elvis operator `?:`, and calls that may throw. */
module Nullable {

  /** `None` stands for Kotlin's `null`. */
  datatype Option<+T> = None | Some(value: T) {

    /** `x ?: d`: the value if present, otherwise the default. */
    function OrElse(d: T): T
    {
      match this
      case Some(v) => v
      case None => d
    }
  }

  /** A call that either returns a value or throws an exception with a message. */
  datatype Thrown<T> = Returned(value: T) | Threw(message: string)
}
