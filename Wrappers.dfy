/**
 * An optional value (JavaScript's `undefined` against a present value), and
 * the outcome of an awaited call that may throw.
 */
module Wrappers {

  datatype Option<+T> = None | Some(value: T) {

    /** The held value, or `default` when there is none (JavaScript `??`). */
    function GetOr(default: T): T {
      match this
      case Some(v) => v
      case None => default
    }
  }

  /** An awaited call: the value it resolved to, or an exception. */
  datatype Outcome<T> = Done(result: T) | Threw
}
