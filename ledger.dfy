/**
 * The minigame's coin ledger: the persisted record
 * `{coins, playsToday, date, discountReady}`, its daily reset, the reward
 * of a finished run, and the redemption of the discount at checkout.
 */
module Ledger {
  import opened Wrappers
  import opened Arith

  const MaxPlaysPerDay := 5
  const CoinsForDiscount := 50
  /** The coins every rewarded run earns on top of its distance bonus. */
  const BaseReward := 5

  /** A calendar day, as the `YYYY-MM-DD` key the clock supplies. */
  type Date = string

  datatype GameRecord = GameRecord(coins: int, playsToday: int, date: Date, discountReady: bool)

  /** The ledger's invariant: a daily count within the cap, and a ready flag only with enough coins. */
  predicate ValidRecord(g: GameRecord)
  {
    0 <= g.coins && 0 <= g.playsToday <= MaxPlaysPerDay &&
    (g.discountReady ==> g.coins >= CoinsForDiscount)
  }

  /** What the storage holds is either nothing or a valid record. */
  predicate ValidStored(stored: Option<GameRecord>)
  {
    stored.Some? ==> ValidRecord(stored.value)
  }

  /**
   * `loadGame`: no stored record gives a fresh ledger for today; a record of
   * another day keeps its coins and flag but starts today's count at 0; a
   * record of today is returned as it is.
   */
  function LoadGame(stored: Option<GameRecord>, today: Date): (r: GameRecord)
    ensures r.date == today
    ensures stored.None? ==> r == GameRecord(0, 0, today, false)
    ensures stored.Some? ==> r.coins == stored.value.coins && r.discountReady == stored.value.discountReady
    ensures stored.Some? ==> r.playsToday == if stored.value.date == today then stored.value.playsToday else 0
  {
    match stored
    case None => GameRecord(0, 0, today, false)
    case Some(data) =>
      if data.date != today then GameRecord(data.coins, 0, today, data.discountReady)
      else data
  }

  /** Loading twice on the same day gives the same ledger as loading once. */
  lemma LoadGameIdempotent(stored: Option<GameRecord>, today: Date)
    ensures LoadGame(Some(LoadGame(stored, today)), today) == LoadGame(stored, today)
  {
  }

  /** Loading keeps the ledger's invariant, so the daily count never exceeds the cap. */
  lemma LoadGameValid(stored: Option<GameRecord>, today: Date)
    requires ValidStored(stored)
    ensures ValidRecord(LoadGame(stored, today))
    ensures LoadGame(stored, today).playsToday <= MaxPlaysPerDay
  {
  }

  /** The daily reset example: 20 coins and 5 plays on 2024-01-01, loaded on 2024-01-02. */
  lemma DailyResetExample()
    ensures LoadGame(Some(GameRecord(20, 5, "2024-01-01", false)), "2024-01-02")
         == GameRecord(20, 0, "2024-01-02", false)
  {
  }

  /** The coins a run earns: `floor(distance / 10) + 5`. */
  function Earned(distance: nat): (e: int)
    ensures BaseReward <= e
    ensures 10 * (e - BaseReward) <= distance < 10 * (e - BaseReward) + 10
  {
    distance / 10 + BaseReward
  }

  /** A distance of 45 earns 9 coins. */
  lemma EarnedExample()
    ensures Earned(45) == 9
  {
  }

  /** Whether a run finished now is still rewarded today. */
  predicate Rewarded(stored: Option<GameRecord>, today: Date)
  {
    LoadGame(stored, today).playsToday < MaxPlaysPerDay
  }

  /**
   * The stored record after a run of `distance` ends (the ledger part of
   * `finishRun`): past the daily cap nothing is written; otherwise the loaded
   * ledger gains the reward and one play, is dated today, and is ready for
   * the discount exactly when the new balance reaches 50.
   */
  function AfterRun(stored: Option<GameRecord>, distance: nat, today: Date): (r: Option<GameRecord>)
    ensures !Rewarded(stored, today) ==> r == stored
    ensures Rewarded(stored, today) ==> (
      var st := LoadGame(stored, today);
      r.Some? &&
      r.value.coins == st.coins + Earned(distance) &&
      r.value.playsToday == st.playsToday + 1 &&
      r.value.date == today &&
      (r.value.discountReady <==> st.coins + Earned(distance) >= CoinsForDiscount))
  {
    var state := LoadGame(stored, today);
    if state.playsToday >= MaxPlaysPerDay then stored
    else
      var newCoins := state.coins + Earned(distance);
      Some(GameRecord(newCoins, state.playsToday + 1, today, newCoins >= CoinsForDiscount))
  }

  /** Finishing a run keeps the ledger's invariant. */
  lemma AfterRunValid(stored: Option<GameRecord>, distance: nat, today: Date)
    requires ValidStored(stored)
    ensures ValidStored(AfterRun(stored, distance, today))
  {
  }

  /** With the cap reached, a further run leaves the stored ledger, and so the coins, as they were. */
  lemma CapReachedNoReward(stored: Option<GameRecord>, distance: nat, today: Date)
    requires LoadGame(stored, today).playsToday >= MaxPlaysPerDay
    ensures AfterRun(stored, distance, today) == stored
    ensures LoadGame(AfterRun(stored, distance, today), today).coins == LoadGame(stored, today).coins
  {
  }

  /** The stored record after runs of the given distances, one after another, all on `today`. */
  function AfterRuns(stored: Option<GameRecord>, distances: seq<nat>, today: Date): Option<GameRecord>
    decreases |distances|
  {
    if distances == [] then stored
    else AfterRuns(AfterRun(stored, distances[0], today), distances[1..], today)
  }

  /** The coins earned by runs of the given distances. */
  function SumEarned(distances: seq<nat>): int
  {
    if distances == [] then 0 else Earned(distances[0]) + SumEarned(distances[1..])
  }

  /**
   * The daily cap over any number of runs on one day: only the first
   * `5 - playsToday` runs are rewarded, the count stops at 5, and the
   * balance grows by exactly what those rewarded runs earned.
   */
  lemma {:induction false} DailyCap(stored: Option<GameRecord>, distances: seq<nat>, today: Date)
    requires LoadGame(stored, today).playsToday <= MaxPlaysPerDay
    ensures var st := LoadGame(stored, today);
      var rewarded := Min(|distances|, MaxPlaysPerDay - st.playsToday);
      var after := LoadGame(AfterRuns(stored, distances, today), today);
      after.playsToday == Min(MaxPlaysPerDay, st.playsToday + |distances|) &&
      after.coins == st.coins + SumEarned(distances[..rewarded])
    decreases |distances|
  {
    var st := LoadGame(stored, today);
    if distances == [] {
      assert distances[..0] == [];
    } else if st.playsToday == MaxPlaysPerDay {
      CapReachedNoReward(stored, distances[0], today);
      DailyCap(stored, distances[1..], today);
      assert distances[..0] == [];
      assert distances[1..][..0] == [];
    } else {
      var next := AfterRun(stored, distances[0], today);
      DailyCap(next, distances[1..], today);
      var rewarded := Min(|distances|, MaxPlaysPerDay - st.playsToday);
      assert distances[..rewarded][1..] == distances[1..][..rewarded - 1];
    }
  }

  /** Five rewarded runs fill the day: a sixth run on the same date leaves the coins unchanged. */
  lemma SixthRunUnrewarded(stored: Option<GameRecord>, distances: seq<nat>, d: nat, today: Date)
    requires LoadGame(stored, today).playsToday == 0 && |distances| == MaxPlaysPerDay
    ensures var full := AfterRuns(stored, distances, today);
      LoadGame(full, today).playsToday == MaxPlaysPerDay &&
      AfterRun(full, d, today) == full
  {
    DailyCap(stored, distances, today);
  }

  /**
   * The checkout's redemption: a ready ledger pays 50 coins and loses the
   * flag; a ledger that is not ready is left alone.
   */
  function Redeem(g: GameRecord): (r: GameRecord)
    ensures !r.discountReady
    ensures r.playsToday == g.playsToday && r.date == g.date
    ensures r.coins == if g.discountReady then g.coins - CoinsForDiscount else g.coins
  {
    if g.discountReady then g.(coins := g.coins - CoinsForDiscount, discountReady := false) else g
  }

  /** Redeeming keeps the invariant, so the balance never goes negative, and a second redemption does nothing. */
  lemma RedeemValid(g: GameRecord)
    requires ValidRecord(g)
    ensures ValidRecord(Redeem(g)) && Redeem(g).coins >= 0
    ensures Redeem(Redeem(g)) == Redeem(g)
  {
  }
}
