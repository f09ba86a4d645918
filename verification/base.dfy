/** Optional values and results: Java's nullable references and thrown
    exceptions, as values. */
module Base {

  /** A possibly-absent value; `None` stands for a Java `null`. */
  datatype Option<+T> = None | Some(value: T) {

    /** The value, or `default` when absent (the `x != null ? x : d` idiom). */
    function GetOr(default: T): (v: T) {
      match this
      case Some(v) => v
      case None => default
    }
  }

  /** The outcome of a step that either produces a value or throws. */
  datatype Result<+R, +E> = Success(value: R) | Failure(error: E)

  /** Apache Commons `StringUtils.isNotEmpty`: neither null nor "". */
  predicate IsNotEmpty(s: Option<string>) {
    s.Some? && s.value != ""
  }
}
