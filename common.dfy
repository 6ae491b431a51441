/** Small shared vocabulary: optional values, random draws and integer helpers. */
module Common {

  /** A value that may be absent; JavaScript's `null`/`undefined` in the game's records. */
  datatype Option<+T> = None | Some(value: T) {
    function GetOr(default: T): T {
      match this
      case Some(v) => v
      case None => default
    }
  }

  /** One result of `Math.random()`: a real number in [0, 1). */
  type Draw = r: real | 0.0 <= r < 1.0

  function Min(a: int, b: int): int { if a <= b then a else b }

  function Max(a: int, b: int): int { if a >= b then a else b }
}
