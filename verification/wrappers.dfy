/** Optional values: a PHP array entry that is absent or null, a lookup that
    found nothing, or a function that falls off its end without a return. */
module Wrappers {

  datatype Option<+T> = None | Some(value: T) {

    /** The wrapped value, or `default` when there is none (PHP's `??`). */
    function UnwrapOr(default: T): T {
      match this
      case Some(v) => v
      case None => default
    }
  }
}
