/** What the other modules share. */
module Basics {

  datatype Option<+T> = None | Some(value: T)

  type Byte = x: int | 0 <= x < 256

  function Bit(b: bool): int { if b then 1 else 0 }

  function Least(a: nat, b: nat): nat { if a < b then a else b }
}
