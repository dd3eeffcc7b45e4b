/** Integer helpers shared by the ledger, the leaderboard and the game. */
module Arith {

  function Min(a: int, b: int): int
  {
    if a <= b then a else b
  }

  function Max(a: int, b: int): int
  {
    if a >= b then a else b
  }

  function Abs(n: int): nat
  {
    if n < 0 then -n else n
  }
}
