/** Small failure-compatible wrappers shared by the layout modules. */
module Common {

  /** An optional value: a config key that may be absent, an object slot that may be null. */
  datatype Option<T> = None | Some(value: T) {

    /** The carried value, or `default` when absent. */
    function GetOr(default: T): T {
      match this
      case Some(v) => v
      case None => default
    }
  }

  /** The outcome of an operation that can throw. */
  datatype Result<T, E> = Success(value: T) | Failure(error: E)

  /** JavaScript truthiness of an optional number: present and not zero. */
  predicate TruthyReal(o: Option<real>) {
    o.Some? && o.value != 0.0
  }

  /** JavaScript truthiness of an optional integer: present and not zero. */
  predicate TruthyInt(o: Option<int>) {
    o.Some? && o.value != 0
  }
}
