/** Shared vocabulary of the Motra model. */
module Base {

  /** Swift's optional: `nil` or a wrapped value. */
  datatype Option<+T> = None | Some(value: T) {
    function GetOr(default: T): T {
      match this
      case Some(v) => v
      case None => default
    }
  }

  /** A `UUID`. Fresh identifiers (`UUID()`) are inputs of the operations that create them. */
  type Uuid = nat

  /** A `Date`: seconds since a fixed reference instant. "Now" is always an input. */
  type Date = real

  /** A Double that is never negative, such as `CLLocation.distance(from:)`. */
  type NonNegReal = r: real | r >= 0.0

}
