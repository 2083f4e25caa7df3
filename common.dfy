/** Shared value types of the feed producers: optional values, results with an
    error value, and the IEEE-754 double values the Python producers pass around,
    with NaN and the infinities as explicit variants. */
module Common {

  datatype Option<+T> = None | Some(value: T)

  datatype Result<+T, +E> = Success(value: T) | Failure(error: E) {
    predicate IsFailure() { Failure? }

    function PropagateFailure<U>(): Result<U, E>
      requires Failure?
    {
      Failure(error)
    }

    function Extract(): T
      requires Success?
    {
      value
    }
  }

  /** A Python `float`: a finite number, not-a-number, or an infinity.
      Rounding of finite values is not modelled: `Finite` carries an exact real. */
  datatype Float = Finite(x: real) | NaN | Inf(negative: bool)

  /** Python's `f < c` for a finite constant `c`: false for NaN and +inf, true for -inf. */
  predicate LessThan(f: Float, c: real)
  {
    match f
    case Finite(x) => x < c
    case NaN => false
    case Inf(neg) => neg
  }
}
