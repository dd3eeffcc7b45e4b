# Dwight & Ryan Store: cart, coin ledger and running minigame in Dafny

This project models the plain logic inside the school-store page `dwight_ryan_store_website_react.jsx`
and proves properties of it. The page lets customers browse a catalog and fill a cart. The cart can
hold gift cards loaded with $15 to $100. A 30% discount is earned through a running minigame or given
by the coupon "RUN50". Checkout lowers the stock. The minigame keeps a coin ledger
`{coins, playsToday, date, discountReady}` in local storage. It pays at most five runs a day and sets
the discount flag at 50 coins. It also keeps a top-5 leaderboard of distances.

Modules, one per concern of the file:

- `Wrappers`: `Option` (an absent storage key, or a number that parsed to NaN) and `Result`.
- `Catalog`: `Product`, the initial catalog, and the admin's stock edit (`WithStock`).
- `Cart`: cart entries, `calculateTotal` and `calculateGiftCardValue` as the source's folds, each
  stated as a plain sum. Also the discount and total, and the admission rule of `addToCart`.
  Prices and gift values are `real`, so 30% is exactly 3/10.
- `Ledger`: the stored `GameRecord` and `loadGame` with its daily reset. Also the reward
  `floor(distance/10) + 5`, the ledger part of `finishRun` (`AfterRun`), the daily cap over any
  series of runs, and the checkout redemption. The invariant `ValidRecord` is `0 <= coins`,
  `0 <= playsToday <= 5` and `discountReady ==> coins >= 50`. Every operation keeps it.
- `Leaderboard`: `saveLeaderboard` as an array algorithm. It copies the stored scores into an array,
  pushes the score, sorts the array in place from highest to lowest, and keeps the first five. It is
  proved against the top-5 property and against a reference insertion into a sorted board.
- `Persistence`: the two minigame keys of local storage, as a class holding values.
- `Game`: board geometry (clamped key step, the enemy's sign step) and the `RunningGame` component as
  a class. Its methods are start, key press, enemy tick, countdown tick, the vitals check and
  `finishRun`.
- `Store`: the `StoreApp` page as a class. Its methods are `addToCart`, `completeOrder` (stock and
  redemption), `updateStock`, and the game events whose `onCoins` report replaces the page's ledger.

The clock is a parameter: `today` is the `YYYY-MM-DD` key. Local storage is a `LocalStorage` object
holding `Option<GameRecord>` and `seq<int>`, not JSON text.

Details of the code the model keeps:

- Any key pressed during a run costs energy and adds a metre. Only w/a/s/d move the player.
- The countdown ends the run on the tick where the time left is 1 or less, and then sets it to 0.
- The session has no separate "ended" state. It is one `running` flag. With `running` read at its
  current value, the guard at the top of `finishRun` makes ending idempotent.
- The countdown's updater has no `running` guard of its own; only scheduling the interval checks
  `running`. A tick that lands after the run stopped still counts down, or on the last second sets
  the timer to 0 and calls `finishRun`, which then does nothing.
- A run over the daily cap writes nothing to storage, not even the day's reset.

Two readings of React closures are fixed as follows:

- `finishRun` reads `running` and `distance` from the closure of an earlier render. The model uses
  their current values, the evident intent. When the countdown tick calls it, that closure belongs to
  the render that started the run.
- `level` is computed from the distance before the key press's increment. That is the value the
  handler's closure holds, and the model keeps it. `RunningGame.Valid` records that the level lags
  one key press behind.

## Model

| member | source | states |
|---|---|---|
| `Catalog.InitialCatalogWellFormed` | dwight_ryan_store_website_react.jsx:34-43 | the initial catalog has distinct ids and every product in stock |
| `Catalog.WithStock` | dwight_ryan_store_website_react.jsx:360 | the stock edit keeps the length and order and changes no field but the stock; a product with that id reports the new stock, every other product is as it was |
| `Catalog.WithStockLastWins` | dwight_ryan_store_website_react.jsx:360 | of two edits of the same product the last one wins, so repeating an edit changes nothing more |
| `Catalog.WithStockKeepsIds` | dwight_ryan_store_website_react.jsx:360 | the edit keeps the set of ids, and so keeps the catalog's ids distinct |
| `Cart.CalculateTotal` | dwight_ryan_store_website_react.jsx:48 | the left fold of `calculateTotal` equals the sum of all entries' prices, first entry first |
| `Cart.CalculateTotalAppend` | dwight_ryan_store_website_react.jsx:48 | the subtotal of two carts put together is the sum of their subtotals |
| `Cart.GiftCards` | dwight_ryan_store_website_react.jsx:49 | an entry is in the filtered cart exactly when it is in the cart, of category "Gift Cards", with a set, non-zero `giftValue`; never more entries than the cart has |
| `Cart.GiftCardsAppend` | dwight_ryan_store_website_react.jsx:49 | filtering two carts put together gives the two filtered carts one after the other |
| `Cart.FilteredSnoc` | dwight_ryan_store_website_react.jsx:49 | appending an entry adds exactly its own gift value (0 unless it is a gift card with a set, non-zero value) to the filtered fold |
| `Cart.CalculateGiftCardValue` | dwight_ryan_store_website_react.jsx:49 | filter-then-reduce equals the sum over all entries of their gift-card contribution |
| `Cart.CalculateGiftCardValueAppend` | dwight_ryan_store_website_react.jsx:49 | the gift-card balance of two carts put together is the sum of their balances |
| `Cart.TestCart` | dwight_ryan_store_website_react.jsx:483-489 | the test cart has subtotal 4 and gift-card balance 25, whatever its omitted fields are |
| `Cart.EligibleForDiscount` | dwight_ryan_store_website_react.jsx:329 | an order with the ledger ready or the manual flag set is eligible; otherwise it is eligible exactly when the coupon is "RUN50" |
| `Cart.Discount` | dwight_ryan_store_website_react.jsx:330 | no discount unless eligible; if eligible, exactly 3/10 of the subtotal; never negative and never above a non-negative subtotal |
| `Cart.OrderTotal` | dwight_ryan_store_website_react.jsx:331 | total plus discount is the subtotal; an eligible order pays 7/10 and any other order pays the full subtotal; the total lies between 0 and a non-negative subtotal |
| `Cart.DiscountRule` | dwight_ryan_store_website_react.jsx:329-330 | on a positive subtotal, a discount is given exactly when the ledger is ready, the manual flag is set or the coupon is "RUN50", and then it is 30% |
| `Cart.DiscountExample` | dwight_ryan_store_website_react.jsx:495-497 | a subtotal of 100 gets 30 off and costs 70 when eligible, and costs 100 otherwise |
| `Cart.Admit` | dwight_ryan_store_website_react.jsx:313-325 | out of stock exactly when stock <= 0; invalid amount exactly for an in-stock gift card whose amount is NaN, below 15 or above 100; otherwise an entry for that product that has a gift value exactly when it is a gift card, and for a gift card that value is the typed amount, within 15..100 |
| `Cart.AdmitEffect` | dwight_ryan_store_website_react.jsx:313-325 | an admitted entry keeps the cart well formed, adds its price to the subtotal and adds its amount (gift cards only) to the gift-card balance |
| `Cart.WellFormedGiftBalance` | dwight_ryan_store_website_react.jsx:316-320 | in a cart of admitted entries the gift-card balance is between 0 and 100 times the number of entries |
| `Ledger.LoadGame` | dwight_ryan_store_website_react.jsx:68-74 | the loaded ledger is dated today; nothing stored gives `{0, 0, today, false}`; a stored record keeps its coins and flag, and its daily count only if it is dated today, otherwise the count becomes 0 |
| `Ledger.LoadGameIdempotent` | dwight_ryan_store_website_react.jsx:68-74 | storing a loaded ledger and loading it again on the same day gives the same ledger |
| `Ledger.LoadGameValid` | dwight_ryan_store_website_react.jsx:68-74 | loading keeps the ledger invariant, so the loaded daily count is at most 5 |
| `Ledger.DailyResetExample` | dwight_ryan_store_website_react.jsx:72 | `{20 coins, 5 plays, 2024-01-01}` loaded on 2024-01-02 gives `{20, 0, 2024-01-02}` |
| `Ledger.Earned` | dwight_ryan_store_website_react.jsx:213 | the reward is at least 5, and reward minus 5 is the floor of distance/10 |
| `Ledger.EarnedExample` | dwight_ryan_store_website_react.jsx:213 | a distance of 45 earns 9 coins |
| `Ledger.AfterRun` | dwight_ryan_store_website_react.jsx:206-224 | past the cap the stored record is unchanged; otherwise it becomes today's record with coins raised by the reward, one more play, and the flag set exactly when the new balance reaches 50 |
| `Ledger.AfterRunValid` | dwight_ryan_store_website_react.jsx:213-222 | paying a run keeps the ledger invariant (count at most 5, flag only with 50 coins) |
| `Ledger.CapReachedNoReward` | dwight_ryan_store_website_react.jsx:207-211 | with 5 plays already today, a run leaves the stored ledger and the coins unchanged |
| `Ledger.DailyCap` | dwight_ryan_store_website_react.jsx:203-224 | over any series of runs on one day the count stops at 5, and the coins grow by exactly the rewards of the first `5 - playsToday` runs |
| `Ledger.SixthRunUnrewarded` | dwight_ryan_store_website_react.jsx:203-211 | after five rewarded runs from a fresh day, a sixth run on that date changes nothing |
| `Ledger.Redeem` | dwight_ryan_store_website_react.jsx:344-347 | the flag is cleared; 50 coins are taken only when the flag was set; the count and date are untouched |
| `Ledger.RedeemValid` | dwight_ryan_store_website_react.jsx:344-347 | redemption keeps the invariant, so the coins never go negative, and redeeming twice is redeeming once |
| `Leaderboard.SortDescending` | dwight_ryan_store_website_react.jsx:199 | the in-place sort leaves the array sorted from highest to lowest and a permutation of its old contents |
| `Leaderboard.PrefixKeepsLargest` | dwight_ryan_store_website_react.jsx:200 | keeping a prefix of a sorted board drops no score higher than one it keeps |
| `Leaderboard.SortedUnique` | dwight_ryan_store_website_react.jsx:199 | two boards sorted highest first that hold the same scores are equal, so the sort's result is determined |
| `Leaderboard.Insert` | dwight_ryan_store_website_react.jsx:198-199 | reference insertion: one longer, and the same scores as the old board plus the new one |
| `Leaderboard.InsertSorted` | dwight_ryan_store_website_react.jsx:198-199 | inserting into a sorted board keeps it sorted |
| `Leaderboard.SortedTop` | dwight_ryan_store_website_react.jsx:198-200 | the first `min(5, n+1)` of the sorted scores are the top scores, and equal the reference insertion truncated when the old board was sorted |
| `Leaderboard.Push` | dwight_ryan_store_website_react.jsx:195-201 | the new board has `min(5, n+1)` scores, sorted highest first, as a sub-multiset of old plus new, with nothing left out higher than anything kept; on a sorted old board it equals the reference insertion truncated to five |
| `Game.Clamp` | dwight_ryan_store_website_react.jsx:144 | the result is within [0, 240], equals the input inside that range, and is the nearer bound outside |
| `Game.Move` | dwight_ryan_store_website_react.jsx:137-145 | from a point on the board, w, s, a and d move 10 up, down, left and right, clamped to [0, 240]; any other key leaves the player in place; the result is on the board, at most one stride away, and on the 10-grid |
| `Game.MoveInverse` | dwight_ryan_store_website_react.jsx:140-143 | away from the edges w and s undo each other, and so do a and d |
| `Game.Sign` | dwight_ryan_store_website_react.jsx:125-126 | `Math.sign` is in {-1, 0, 1}, is 0 for 0, and sign times value is the absolute value |
| `Game.Chase` | dwight_ryan_store_website_react.jsx:124-127 | the enemy moves 5 on each axis where it is not level with the player; on the 5-grid it closes the gap by 5 without overshooting |
| `Game.ChaseStaysInBoard` | dwight_ryan_store_website_react.jsx:124-127 | chasing a player on the board keeps the enemy on the board and on its 5-grid |
| `Game.LevelFor` | dwight_ryan_store_website_react.jsx:149 | the level is at least 1 and is the band of 50 metres the distance lies in: 50·(level-1) <= distance < 50·level |
| `Game.RunningGame.constructor` | dwight_ryan_store_website_react.jsx:88-98 | initial vitals 3/100, distance 0, level 1, 30 s, player (120,120), enemy (30,30), not running |
| `Game.RunningGame.StartRun` | dwight_ryan_store_website_react.jsx:181-193 | resets every vital, the timer and both positions, and starts the run |
| `Game.RunningGame.KeyPress` | dwight_ryan_store_website_react.jsx:133-150 | while running: the player makes the clamped move, energy drops by 1 (not below 0), distance grows by 1, and the level comes from the pre-increment distance; not running: nothing changes |
| `Game.RunningGame.EnemyTick` | dwight_ryan_store_website_react.jsx:120-131 | while running the enemy takes one chase step and closes both the x and the y gap by 5 (or to 0); not running it stays put |
| `Game.RunningGame.SaveLeaderboard` | dwight_ryan_store_website_react.jsx:195-201 | the stored board becomes the top scores of the old board plus the score; the ledger key is untouched |
| `Game.RunningGame.EndedRun` | dwight_ryan_store_website_react.jsx:203-230 | what ending a run means: it stops and the ledger becomes `AfterRun`; past the cap nothing is reported, the message is the daily limit and the board is unchanged; otherwise the new, today-dated ledger is reported, the message shows distance and coins, and the distance is pushed onto the board; vitals and positions unchanged |
| `Game.RunningGame.FinishRun` | dwight_ryan_store_website_react.jsx:203-230 | not running: a no-op; otherwise the run ends as `EndedRun` says and the timer is untouched |
| `Game.RunningGame.CountdownTick` | dwight_ryan_store_website_react.jsx:104-118 | above one second a second is taken off and nothing else changes; at one second or less the time shows 0, a running run ends as `EndedRun` says, and a stopped one is otherwise left as it was |
| `Game.RunningGame.CheckVitals` | dwight_ryan_store_website_react.jsx:177-179 | health or energy at 0 ends a running run as `EndedRun` says; otherwise nothing changes |
| `Game.RunningGame.EndTogether` | dwight_ryan_store_website_react.jsx:104-204 | vitals then countdown in the same instant: the first ends the run as `EndedRun` says; the countdown's updater still sets the time to 0, but its `finishRun` finds the run stopped and reports nothing, so the ledger is paid at most once; this holds under the current-values reading of `finishRun` (see Left out) |
| `Store.SoldCount` | dwight_ryan_store_website_react.jsx:336 | the units counted are at most the cart's length, 0 for an id not in the cart, the whole length when every entry has that id, and for one entry 1 exactly when it has that id |
| `Store.SoldCountAppend` | dwight_ryan_store_website_react.jsx:336 | the units of a product in two carts put together are the units in each |
| `Store.StockAfterOrder` | dwight_ryan_store_website_react.jsx:335-338 | same products in the same order; each one's stock is lowered by its units in the cart; every other field unchanged |
| `Store.StockConservation` | dwight_ryan_store_website_react.jsx:334-338 | with distinct catalog ids and a cart of catalog products, total stock falls by exactly the number of cart entries |
| `Store.StockCanGoNegative` | dwight_ryan_store_website_react.jsx:313-338 | admission does not count the units already in the cart, so checkout can leave stock at -1 |
| `Store.StoreApp.constructor` | dwight_ryan_store_website_react.jsx:290-301 | empty cart, no manual discount, no coupon, and the page ledger loaded from storage for today |
| `Store.StoreApp.Subtotal` | dwight_ryan_store_website_react.jsx:327 | the subtotal shown is the sum of the cart's prices |
| `Store.StoreApp.AmountDue` | dwight_ryan_store_website_react.jsx:329-331 | the total shown plus the discount for the page's eligibility is the sum of the prices |
| `Store.StoreApp.GiftCardBalance` | dwight_ryan_store_website_react.jsx:332 | the balance shown is the sum of the cart's gift-card contributions |
| `Store.StoreApp.AddToCart` | dwight_ryan_store_website_react.jsx:313-325 | a refused product leaves the cart unchanged and raises the matching alert; an admitted one appends exactly one entry; a well-formed cart stays well formed |
| `Store.StoreApp.CompleteOrder` | dwight_ryan_store_website_react.jsx:334-352 | stock is lowered by the cart, the cart empties, the order is confirmed, the ledger is redeemed (and saved only if it was ready), the manual flag and coupon are cleared, and the invariant and storage sync are kept |
| `Store.StoreApp.UpdateStock` | dwight_ryan_store_website_react.jsx:360 | the catalog becomes the stock edit of the old catalog |
| `Store.StoreApp.HandleGameEvent` | dwight_ryan_store_website_react.jsx:474 | the page's ledger becomes the reported one, if any; start, key and enemy events never touch storage and give the whole new session state `StartRun`, `KeyPress` and `EnemyTick` state; a countdown tick does what `CountdownTick` states; the finish button and spent vitals end a running run as `EndedRun` says (the ledger becomes `AfterRun`) and otherwise change nothing; the page stays in step with storage and the invariants hold |

## Left out

- React rendering, JSX and components, and hook scheduling (`useState`, `useEffect`) are left out. The timers are left out too: each tick or event is an explicit method, and `HandleGameEvent` dispatches them one at a time.
- Local storage is modelled as values. JSON text, `JSON.parse`, `loadProducts`/`saveProducts` and their malformed-JSON fallback are not modelled. The catalog the page starts from is a constructor parameter.
- The clock (`new Date().toISOString()`) is not modelled; the day is the parameter `today`.
- `Math.random` placement of coins and obstacles, and the `Math.hypot(...) < 12` pickup and collision effect, are not modelled. They involve randomness, floating point and unclear effect timing. So in the model health changes only at start and no pickups add 5 metres. `RunningGame.Valid`'s equations for energy and level rely on that.
- IEEE-754 rounding of `subtotal * 0.3` and `toFixed` formatting are not modelled; prices are exact reals.
- `prompt` and `alert` become inputs and outputs. The typed gift-card amount is an `Option<real>` after `Number(...)`, with None for NaN. The alert is `AddToCart`'s result.
- The pressed key's `toLowerCase()` is not modelled; `KeyPress` takes the already lower-cased key.
- The admin password gate, season and character selection, search, category filter (`filteredProducts`, which needs Unicode `toLowerCase`/`includes`), e-mail, the discount button, the coupon input and the "continue shopping" button are UI and are not modelled. `manualDiscount` and `coupon` are fields that only checkout resets.
- `updateStock`'s `Number(value)` is not modelled: the new stock arrives as an integer.
- Values of other shapes under the storage keys are not modelled. The record's fields are integers and a boolean, and scores are integers.
- Game.RunningGame.FinishRun: uses the current `running` and `distance`, not the values of the earlier render its closure holds. When the countdown ends a run, the source pays on the distance from when the run started.
- Game.RunningGame.EndTogether: "paid at most once" holds only under that current-values reading. In the source the countdown effect (dwight_ryan_store_website_react.jsx:104-118, re-run only when `running` changes) calls a `finishRun` whose `running` is always true. So the guard at :204 never stops the countdown path. A last-second tick that lands after a vitals or finish-button end, before the interval is cleared, could pay the ledger and push a score a second time. The model lets such a tick run its updater and call `finishRun`, whose guard then sees the current, stopped `running`.
- Game.RunningGame.CountdownTick: src/main.jsx:6 wraps the page in `React.StrictMode`, which in development calls the `setTimeLeft` updater (:108-114) twice. On the last second `finishRun` may then run twice. The model calls the updater once.
- The stock is not claimed to stay non-negative. Nothing in the source enforces it, and `StockCanGoNegative` shows a case.
- src/main.jsx, the ReactDOM bootstrap, is not part of this model.
