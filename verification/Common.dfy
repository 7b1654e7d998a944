/** Shared types and functions. */
module Common {
  datatype Option<+T> = None | Some(value: T)

  datatype Result<+T, +E> = Ok(value: T) | Err(error: E)

  function Max(a: int, b: int): int { if a > b then a else b }

  function Min(a: int, b: int): int { if a < b then a else b }

  function Lower(a: real, b: real): real { if b < a then b else a }

  function Higher(a: real, b: real): real { if b > a then b else a }

  /** The lower of two prices; the higher of them. */
  predicate IsLower(x: real, a: real, b: real) { x <= a && x <= b && (x == a || x == b) }

  predicate IsHigher(x: real, a: real, b: real) { x >= a && x >= b && (x == a || x == b) }

  function Abs(a: int): nat { if a < 0 then -a else a }
}
