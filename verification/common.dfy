/** Small shared datatypes and facts. */
module Common {

  datatype Option<+T> = None | Some(value: T)

  datatype Result<+T, +E> = Ok(value: T) | Err(error: E)

  /** One step of a loop that moves elements from the rest to the front. */
  lemma Append<T>(front: seq<T>, x: T, rest: seq<T>)
    ensures front + ([x] + rest) == (front + [x]) + rest
    ensures front + ([] + rest) == front + rest
  {
  }

  lemma Fraction(a: real, b: real, d: real)
    requires a <= b && d > 0.0
    ensures a / d <= b / d && 0.0 / d == 0.0 && d / d == 1.0
  {
  }
}
