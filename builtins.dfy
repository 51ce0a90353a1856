/** Python's integer builtins `min`, `max` and `abs`, as used by pong.py. */
module Builtins {

  function Min(a: int, b: int): int { if a <= b then a else b }

  function Max(a: int, b: int): int { if a >= b then a else b }

  function Abs(a: int): int { if a < 0 then -a else a }
}
