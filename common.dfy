/** Two small helpers shared by the modules below. */
module Common {

  function Min(a: int, b: int): int { if a <= b then a else b }

  function Abs(x: real): real { if x < 0.0 then -x else x }

  /** A one-element sequence when `b` holds, the empty one otherwise. */
  function Opt<T>(b: bool, x: T): seq<T> { if b then [x] else [] }
}
