/**
 * The two minigame keys of the browser's local storage, held as values
 * (their JSON text and its parsing are not modelled).
 */
module Persistence {
  import opened Wrappers
  import opened Ledger
  import Leaderboard

  class LocalStorage {
    /** The ledger record under the game key; None when the key is absent. */
    var game: Option<GameRecord>
    /** The scores under the leaderboard key; an absent key reads as `[]`. */
    var leaderboard: seq<int>

    constructor (game: Option<GameRecord>, leaderboard: seq<int>)
      ensures this.game == game && this.leaderboard == leaderboard
    {
      this.game := game;
      this.leaderboard := leaderboard;
    }

    /** What the game itself ever writes: a valid ledger and a valid board. */
    ghost predicate Valid()
      reads this
    {
      ValidStored(game) && Leaderboard.ValidBoard(leaderboard)
    }
  }
}
