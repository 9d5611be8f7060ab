/** Optional values: JavaScript's `undefined`/`null` on one side, a present value on the other. */
module Wrappers {

  datatype Option<+T> = None | Some(value: T) {

    /** The value, or `default` when there is none. */
    function GetOr(default: T): T {
      match this
      case Some(v) => v
      case None => default
    }
  }

  /** JavaScript truthiness of an optional string: present and not `""`. */
  predicate Truthy(e: Option<string>) {
    e.Some? && e.value != ""
  }
}
