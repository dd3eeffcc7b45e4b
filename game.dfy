/**
 * The running minigame: positions on the board, the per-keypress step, the
 * enemy's chase, the countdown, and the end of a run that pays into the
 * ledger and the leaderboard.
 */
module Game {
  import opened Wrappers
  import opened Arith
  import opened Ledger
  import Leaderboard
  import opened Persistence

  /** Positions are clamped to [0, 240] on both axes. */
  const BoardLimit := 240
  const PlayerStep := 10
  const EnemyStep := 5
  const StartHealth := 3
  const StartEnergy := 100
  const RunSeconds := 30
  /** Level grows by one every 50 metres. */
  const MetresPerLevel := 50

  datatype Point = Point(x: int, y: int)

  const PlayerStart := Point(120, 120)
  const EnemyStart := Point(30, 30)

  predicate InBoard(p: Point)
  {
    0 <= p.x <= BoardLimit && 0 <= p.y <= BoardLimit
  }

  /** `Math.max(0, Math.min(240, v))`. */
  function Clamp(v: int): (r: int)
    ensures 0 <= r <= BoardLimit
    ensures 0 <= v <= BoardLimit ==> r == v
    ensures v < 0 ==> r == 0
    ensures v > BoardLimit ==> r == BoardLimit
  {
    if v < 0 then 0 else if v > BoardLimit then BoardLimit else v
  }

  /**
   * The player after a key press; `key` is the pressed key already lower-cased.
   * "w" and "s" move up and down, "a" and "d" left and right, by one stride,
   * and the result is clamped to the board; any other key leaves the
   * position (clamped) as it was.
   */
  function Move(p: Point, key: string): (q: Point)
    ensures InBoard(q)
    ensures InBoard(p) && key == "w" ==> q == Point(p.x, Max(0, p.y - PlayerStep))
    ensures InBoard(p) && key == "s" ==> q == Point(p.x, Min(BoardLimit, p.y + PlayerStep))
    ensures InBoard(p) && key == "a" ==> q == Point(Max(0, p.x - PlayerStep), p.y)
    ensures InBoard(p) && key == "d" ==> q == Point(Min(BoardLimit, p.x + PlayerStep), p.y)
    ensures InBoard(p) && key != "w" && key != "s" && key != "a" && key != "d" ==> q == p
    ensures InBoard(p) ==> Abs(q.x - p.x) + Abs(q.y - p.y) <= PlayerStep
    ensures p.x % PlayerStep == 0 && p.y % PlayerStep == 0 ==> q.x % PlayerStep == 0 && q.y % PlayerStep == 0
  {
    var y := if key == "w" then p.y - PlayerStep else if key == "s" then p.y + PlayerStep else p.y;
    var x := if key == "a" then p.x - PlayerStep else if key == "d" then p.x + PlayerStep else p.x;
    Point(Clamp(x), Clamp(y))
  }

  /** Away from the edges, "w" undoes "s" and "a" undoes "d" (and back). */
  lemma MoveInverse(p: Point)
    requires PlayerStep <= p.x <= BoardLimit - PlayerStep && PlayerStep <= p.y <= BoardLimit - PlayerStep
    ensures Move(Move(p, "w"), "s") == p && Move(Move(p, "s"), "w") == p
    ensures Move(Move(p, "a"), "d") == p && Move(Move(p, "d"), "a") == p
  {
  }

  /** `Math.sign`. */
  function Sign(n: int): (s: int)
    ensures n == 0 ==> s == 0
    ensures s * n == Abs(n)
    ensures -1 <= s <= 1
  {
    if n > 0 then 1 else if n < 0 then -1 else 0
  }

  /** The enemy's half-second step: `sign(dx) * 5` and `sign(dy) * 5` towards the player. */
  function Chase(enemy: Point, player: Point): (e: Point)
    ensures Abs(e.x - enemy.x) == (if enemy.x == player.x then 0 else EnemyStep)
    ensures Abs(e.y - enemy.y) == (if enemy.y == player.y then 0 else EnemyStep)
    ensures (player.x - enemy.x) % EnemyStep == 0 ==> Abs(player.x - e.x) == Max(0, Abs(player.x - enemy.x) - EnemyStep)
    ensures (player.y - enemy.y) % EnemyStep == 0 ==> Abs(player.y - e.y) == Max(0, Abs(player.y - enemy.y) - EnemyStep)
  {
    Point(enemy.x + Sign(player.x - enemy.x) * EnemyStep, enemy.y + Sign(player.y - enemy.y) * EnemyStep)
  }

  /** A step of the chase keeps an enemy on the 5-grid inside the board while the player is there too. */
  lemma ChaseStaysInBoard(enemy: Point, player: Point)
    requires InBoard(enemy) && InBoard(player)
    requires enemy.x % EnemyStep == 0 && enemy.y % EnemyStep == 0
    requires player.x % EnemyStep == 0 && player.y % EnemyStep == 0
    ensures var e := Chase(enemy, player);
      InBoard(e) && e.x % EnemyStep == 0 && e.y % EnemyStep == 0
  {
  }

  /** The level shown for the distance a key press started from. */
  function LevelFor(distance: nat): (l: int)
    ensures 1 <= l
    ensures MetresPerLevel * (l - 1) <= distance < MetresPerLevel * l
  {
    1 + distance / MetresPerLevel
  }

  /** What the game reports under the board. */
  datatype Message = NoMessage | Instructions | DailyLimitReached | Finished(distance: nat, earned: int)

  /**
   * The state of one `RunningGame` component. Coins and obstacles on the
   * map (random positions, collisions by `Math.hypot`) are not modelled, so
   * health only changes when a run starts.
   */
  class RunningGame {
    var health: int
    var energy: int
    var distance: nat
    var level: int
    var timeLeft: int
    var player: Point
    var enemy: Point
    var running: bool
    var message: Message
    /** The browser storage shared with the store. */
    const storage: LocalStorage

    /**
     * The session's invariant: vitals and timer within their ranges, both
     * figures on their grids inside the board, energy spent one per step,
     * and a level that lags one key press behind the distance.
     */
    ghost predicate Valid()
      reads this
    {
      0 <= health <= StartHealth && 0 <= timeLeft <= RunSeconds &&
      energy == Max(0, StartEnergy - distance) &&
      level == (if distance == 0 then 1 else LevelFor(distance - 1)) &&
      InBoard(player) && player.x % PlayerStep == 0 && player.y % PlayerStep == 0 &&
      InBoard(enemy) && enemy.x % EnemyStep == 0 && enemy.y % EnemyStep == 0
    }

    /** The component's initial state: not running, vitals and positions at their start values. */
    constructor (storage: LocalStorage)
      ensures this.storage == storage
      ensures health == StartHealth && energy == StartEnergy && distance == 0 && level == 1
      ensures timeLeft == RunSeconds && player == PlayerStart && enemy == EnemyStart
      ensures !running && message == NoMessage
      ensures Valid()
    {
      this.storage := storage;
      health, energy, distance, level, timeLeft := StartHealth, StartEnergy, 0, 1, RunSeconds;
      player, enemy := PlayerStart, EnemyStart;
      running, message := false, NoMessage;
    }

    /** `startRun`: every vital, the timer and both positions back to their start values, and running. */
    method StartRun()
      modifies this
      ensures health == StartHealth && energy == StartEnergy && distance == 0 && level == 1
      ensures timeLeft == RunSeconds && player == PlayerStart && enemy == EnemyStart
      ensures running && message == Instructions
      ensures Valid()
    {
      health, energy, distance, level, timeLeft := StartHealth, StartEnergy, 0, 1, RunSeconds;
      player, enemy := PlayerStart, EnemyStart;
      message := Instructions;
      running := true;
    }

    /**
     * The key handler. While running, any key press moves the player (only
     * "w", "a", "s", "d" change the position), costs one energy down to 0
     * and adds one metre; the level is taken from the distance before the
     * increment, which is the value the handler's closure holds.
     */
    method KeyPress(key: string)
      requires Valid()
      modifies this
      ensures Valid()
      ensures !old(running) ==> (player == old(player) && energy == old(energy) &&
        distance == old(distance) && level == old(level))
      ensures old(running) ==> (player == Move(old(player), key) &&
        energy == Max(0, old(energy) - 1) && distance == old(distance) + 1 &&
        level == LevelFor(old(distance)))
      ensures health == old(health) && timeLeft == old(timeLeft) && enemy == old(enemy)
      ensures running == old(running) && message == old(message)
    {
      if running {
        player := Move(player, key);
        energy := Max(0, energy - 1);
        level := LevelFor(distance);
        distance := distance + 1;
      }
    }

    /** The enemy's interval tick (only scheduled while running): one chase step towards the player. */
    method EnemyTick()
      requires Valid()
      modifies this`enemy
      ensures Valid()
      ensures enemy == if old(running) then Chase(old(enemy), player) else old(enemy)
      ensures running ==> Abs(player.x - enemy.x) == Max(0, Abs(player.x - old(enemy).x) - EnemyStep)
      ensures running ==> Abs(player.y - enemy.y) == Max(0, Abs(player.y - old(enemy).y) - EnemyStep)
    {
      if running {
        ChaseStaysInBoard(enemy, player);
        enemy := Chase(enemy, player);
      }
    }

    /** `saveLeaderboard(score)`: push, sort highest first, keep five. */
    method SaveLeaderboard(score: int)
      modifies storage
      ensures storage.game == old(storage.game)
      ensures Leaderboard.TopScores(storage.leaderboard, old(storage.leaderboard), score)
      ensures Leaderboard.SortedDesc(old(storage.leaderboard)) ==>
        storage.leaderboard == Leaderboard.Insert(old(storage.leaderboard), score)[..|storage.leaderboard|]
    {
      storage.leaderboard := Leaderboard.Push(storage.leaderboard, score);
    }

    /**
     * What ending a run does, between the state before and after: the run
     * stops and the ledger becomes `AfterRun` of the old ledger and
     * distance. Past the daily cap nothing is paid, no ledger is reported
     * and the board is untouched; otherwise the new ledger is reported (and
     * saved), the message shows the distance and the coins earned, and the
     * distance goes on the board. Vitals and positions stay as they were.
     */
    twostate predicate EndedRun(today: Date, new report: Option<GameRecord>)
      reads this, storage
    {
      !running &&
      storage.game == AfterRun(old(storage.game), old(distance), today) &&
      (!Rewarded(old(storage.game), today) ==>
        report == None && message == DailyLimitReached && storage.leaderboard == old(storage.leaderboard)) &&
      (Rewarded(old(storage.game), today) ==>
        report == storage.game && report.Some? && report.value.date == today &&
        message == Finished(old(distance), Earned(old(distance))) &&
        Leaderboard.TopScores(storage.leaderboard, old(storage.leaderboard), old(distance))) &&
      health == old(health) && energy == old(energy) && distance == old(distance) &&
      level == old(level) && player == old(player) && enemy == old(enemy)
    }

    /**
     * `finishRun` on today's date. It reads `running` and `distance` as they
     * are now (the source reads them from the closure of the render that
     * scheduled the call). Not running: nothing happens. Otherwise the run
     * ends as `EndedRun` says, and the timer is left alone.
     */
    method FinishRun(today: Date) returns (report: Option<GameRecord>)
      requires Valid()
      modifies this, storage
      ensures Valid()
      ensures !old(running) ==> report == None && unchanged(this) && unchanged(storage)
      ensures old(running) ==> EndedRun(today, report)
      ensures timeLeft == old(timeLeft)
      ensures old(storage.Valid()) ==> storage.Valid()
    {
      if !running {
        return None;
      }
      var state := LoadGame(storage.game, today);
      if state.playsToday >= MaxPlaysPerDay {
        message := DailyLimitReached;
        running := false;
        return None;
      }
      var earned := Earned(distance);
      var newCoins := state.coins + earned;
      var updated := GameRecord(newCoins, state.playsToday + 1, today, newCoins >= CoinsForDiscount);
      storage.game := Some(updated);
      report := Some(updated);
      SaveLeaderboard(distance);
      running := false;
      message := Finished(distance, earned);
      if old(storage.Valid()) {
        AfterRunValid(old(storage.game), distance, today);
      }
    }

    /** Only the timer may have changed: every other field of the session is as it was. */
    twostate predicate OnlyTimerChanged()
      reads this
    {
      health == old(health) && energy == old(energy) && distance == old(distance) &&
      level == old(level) && player == old(player) && enemy == old(enemy) &&
      running == old(running) && message == old(message)
    }

    /**
     * The countdown's one-second tick: the `setTimeLeft` updater, which has
     * no `running` guard of its own (a tick can land after the run stopped
     * but before the interval is cleared). Above one second it counts down
     * and nothing else changes; at one second or less it calls `finishRun`,
     * which ends a running run and does nothing otherwise, and sets the
     * timer to 0.
     */
    method CountdownTick(today: Date) returns (report: Option<GameRecord>)
      requires Valid()
      modifies this, storage
      ensures Valid()
      ensures old(timeLeft) > 1 ==>
        timeLeft == old(timeLeft) - 1 && report == None && unchanged(storage) && OnlyTimerChanged()
      ensures old(timeLeft) <= 1 ==> timeLeft == 0
      ensures old(timeLeft) <= 1 && old(running) ==> EndedRun(today, report)
      ensures old(timeLeft) <= 1 && !old(running) ==>
        report == None && unchanged(storage) && OnlyTimerChanged()
      ensures old(storage.Valid()) ==> storage.Valid()
    {
      if timeLeft <= 1 {
        report := FinishRun(today);
        timeLeft := 0;
      } else {
        timeLeft := timeLeft - 1;
        report := None;
      }
    }

    /** The effect on health and energy: either one at 0 ends the run; otherwise nothing changes. */
    method CheckVitals(today: Date) returns (report: Option<GameRecord>)
      requires Valid()
      modifies this, storage
      ensures Valid()
      ensures !(old(running) && (old(health) <= 0 || old(energy) <= 0)) ==>
        report == None && unchanged(this) && unchanged(storage)
      ensures old(running) && (old(health) <= 0 || old(energy) <= 0) ==>
        timeLeft == old(timeLeft) && EndedRun(today, report)
      ensures old(storage.Valid()) ==> storage.Valid()
    {
      if health <= 0 || energy <= 0 {
        report := FinishRun(today);
      } else {
        report := None;
      }
    }

    /**
     * Two end triggers in the same instant (energy spent and the last
     * second), the vitals effect first: the first ends the run as
     * `EndedRun` says; the countdown's updater then still runs, sets the
     * timer to 0 and calls `finishRun`, whose guard finds the run stopped,
     * so the ledger is paid at most once and the board gets at most one score.
     */
    method EndTogether(today: Date) returns (first: Option<GameRecord>, second: Option<GameRecord>)
      requires Valid() && running && energy == 0 && timeLeft <= 1
      modifies this, storage
      ensures Valid()
      ensures EndedRun(today, first) && second == None && timeLeft == 0
      ensures old(storage.Valid()) ==> storage.Valid()
    {
      first := CheckVitals(today);
      second := CountdownTick(today);
    }
  }
}
