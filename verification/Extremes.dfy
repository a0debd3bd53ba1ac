/** The smaller and the larger of two numbers. */
module Extremes {
  function Min(a: int, b: int): int { if a < b then a else b }
  function Max(a: int, b: int): int { if a < b then b else a }
  function MinNat(a: nat, b: nat): nat { if a < b then a else b }
  function MaxNat(a: nat, b: nat): nat { if a < b then b else a }
}
