/** Optional values: JavaScript's `null`/`undefined` versus a present value. */
module Wrappers {

  datatype Option<+T> = None | Some(value: T) {

    /** The value, or `default` when absent (JavaScript's `x ?? default` on a nullable). */
    function GetOr(default: T): T {
      match this
      case Some(v) => v
      case None => default
    }
  }

  /**
   * `v` is what a spread or a destructuring default gives for a property:
   * the given value when present, `fallback` when it is absent.
   */
  ghost predicate GivenOr<T>(given: Option<T>, fallback: T, v: T) {
    (given.Some? ==> v == given.value) && (given.None? ==> v == fallback)
  }
}
