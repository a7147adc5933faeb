# Supr Growth game engine, in Dafny

A model of the game engine behind `script.js`, a browser arcade game. Emoji
items fall into a basket that the player moves with the mouse. Crops score
points, the Liquid Loan re-rolls the basket's width, the Worminator ends the
run unless a shield is up, and the Mystery Box pauses the run and offers three
choices: Burn Debt, Supercollateral and Proof of Repayment. Runs end on the
all-time and the daily top-ten leaderboards.

The script keeps its state in module-level variables. Here they are the fields
of one class, `Engine.Game`: `gameActive`, `score`, `basketWidth`,
`multiplier`, `shield`, `logoSize`, `dropInterval`, `speedMultiplier`,
`allTimeScores`, `dailyScores`, plus `playerName`, the name that `startGame`
writes into the page and `endGame` reads back. Each handler that changes them
is a method whose postcondition gives the complete new state. `Valid()` is the
invariant they all keep:
- the score is a non-negative integer;
- the multiplier is 1 or 2;
- the basket width lies in [100, 600);
- the logo size lies in [100, 300];
- the speed multiplier is at least 1.

The arithmetic and list handling behind the handlers are functions with
lemmas, one module per concern:
- `Catalog`: the six-item table and the weighted pick.
- `Geometry`: the catch test and the basket clamp.
- `Growth`: the difficulty curve and the spawn-tick numbers.
- `Effects`: score gains, the basket re-roll, Burn Debt and the gamble.
- `Leaderboard`: the stable descending sort, the top-ten cut and the daily record.
- `Names`: `trim()` and the `'Player'` default.
- `Draws`: one fact about scaled random draws.

Every `Math.random()` call is a parameter `u` with `0 <= u < 1`. The draws of one
spawn tick (the item count, one per pick, the next delay) travel together as
`Engine.TickDraws`. Rectangles and
panel sizes from the browser are parameters too. Numbers are exact: scores are
`int`, sizes and speeds are `real`. `Math.floor` of a score over a positive
constant is Dafny's `/` on `int`, which rounds down.

The model follows the code, including on these points:
- The speed multiplier of 1999 points is 1.45, and of 2000 points it is 1.6.
  `floor(1999/500) = 3` and `floor(2000/500) = 4` (`Growth.SpeedExamples`).
- The mystery choices do not call `updateGrowth`. After Burn Debt or a gamble,
  the logo size and the speed keep their old values until the next catch.
- The collision poll never checks `gameActive`. A catch during the mystery
  pause or after game over still runs `handleCatch`, so `HandleCatch` does not
  require an active run.
- The Worminator under a shield returns before `updateGrowth` runs, so even
  the logo size and the speed stay as they were.
- `Array.prototype.sort` is stable, so an older entry stays ahead of a new
  entry with the same score. The new entry makes a full board only when fewer
  than ten stored entries score *at least* as much as it does
  (`Leaderboard.RecordPlacesEntry`).

## Model

| member | source | states |
|---|---|---|
| `Catalog.PickWeighted` | script.js:154-158 | for a draw >= 0 the scan returns the first item whose running total exceeds the draw; that item is the only one whose band [cum(i), cum(i+1)) holds the draw; it finds nothing exactly when the draw reaches the total |
| `Catalog.DropChoice` | script.js:152-158 | a draw in [0, 1) scaled by the total chance finds an item exactly when the total is positive, and the draw lies in that item's band |
| `Catalog.FirstExceedingIsBand` | script.js:155-158 | the first item whose running total exceeds a non-negative draw owns the draw's band, and no other item does |
| `Catalog.BandsDisjoint` | script.js:154-158 | no draw lies in two items' bands |
| `Catalog.CumulativeMonotone` | script.js:156 | running totals of chances never decrease along the catalogue |
| `Catalog.CatalogueBands` | script.js:1-8 | the bands of the six items start at 0, 25, 55, 75, 85, 95 and the total is 100, so each item is picked with probability chance/100 |
| `Geometry.OverlapsIffSharedPoint` | script.js:179-180 | for rectangles of positive size the catch test holds exactly when the item and the basket share an interior point |
| `Geometry.Clamp` | script.js:104 | the result is never negative, never past the upper bound when that bound is non-negative, and equal to the input when the input is in range |
| `Geometry.BasketLeft` | script.js:103-104 | the basket's left edge is never negative; the basket stays inside a panel at least as wide as itself; an in-range mouse position is centred on the basket |
| `Growth.LogoSizeFor` | script.js:220 | the logo is at most 300; it is at least 100 for a non-negative score; it grows by score/20 up to 4000 points and stays at 300 from there |
| `Growth.LogoSizeMonotone` | script.js:220 | the logo size never shrinks as the score grows |
| `Growth.SpeedFor` | script.js:227 | the speed multiplier is at least 1 for a non-negative score and exactly 1 below 500 points |
| `Growth.SpeedInBand` | script.js:227 | every score from 500k up to (but not including) 500(k+1) gives a multiplier of exactly 1 + 0.15k |
| `Growth.SpeedStepUp` | script.js:227 | 500 more points add exactly 0.15 |
| `Growth.SpeedMonotone` | script.js:227 | the speed multiplier never decreases as the score grows |
| `Growth.SpeedExamples` | script.js:227 | 499 gives 1.0, 500 gives 1.15, 999 gives 1.15, 1000 gives 1.3, 1999 gives 1.45, 2000 gives 1.6 |
| `Growth.SpawnCount` | script.js:144 | a spawn tick drops 5, 6 or 7 items, n exactly when the draw lies in [(n-5)/3, (n-4)/3) |
| `Growth.NextDropDelay` | script.js:148 | the next tick comes between 500 ms (included) and 500 ms plus the drop interval (excluded) |
| `Effects.Gain` | script.js:195 | a catch never loses points, and the doubled multiplier gives twice the plain gain |
| `Effects.RerolledWidth` | script.js:203 | the Liquid Loan's new basket width lies in [100, 600) |
| `Effects.RerollReachesEveryWidth` | script.js:203 | every width in [100, 600) is the result of some draw |
| `Effects.Burned` | script.js:73 | Burn Debt gives the floor of three quarters of the score (4b <= 3s < 4b + 4), which for a non-negative score lies between 0 and the old score |
| `Effects.BurnExample` | script.js:73 | 1000 points burn down to 750 |
| `Effects.Gambled` | script.js:96 | a draw below 0.6 doubles the score; any other draw halves it, rounded down; a non-negative score stays non-negative |
| `Leaderboard.Insert` | script.js:235 | one insertion step adds one entry and keeps a sorted list sorted |
| `Leaderboard.InsertPermutation` | script.js:235 | inserting adds exactly the one entry and loses none |
| `Leaderboard.InsertAt` | script.js:235 | the entry lands right behind the leading entries that score at least as much |
| `Leaderboard.InsertPosition` | script.js:235 | in a sorted list the entry lands right behind all the entries that score at least as much |
| `Leaderboard.SortDesc` | script.js:235 | the sort keeps the length and orders by score, highest first |
| `Leaderboard.SortPermutation` | script.js:235 | the sort neither loses nor invents an entry |
| `Leaderboard.CountAtLeastSort` | script.js:235 | sorting does not change how many entries reach a given score |
| `Leaderboard.Record` | script.js:233-237 | after the push, sort and cut the board is sorted and holds min(10, old length + 1) entries |
| `Leaderboard.RecordDrawsFromBoard` | script.js:233-237 | every entry on the new board was on the old board or is the new entry |
| `Leaderboard.RecordPlacesEntry` | script.js:233-237 | when fewer than ten stored entries score at least as much, the new entry sits right behind them; otherwise the board is the sorted old board's top ten |
| `Leaderboard.RecordKeepsAllWhileRoom` | script.js:233-237 | on a board with fewer than ten entries nothing is cut: the new board is the old one plus the new entry |
| `Leaderboard.DailyReset` | script.js:258-263 | afterwards the record is dated today; a record from another day, with no date or with an empty date is emptied; today's record is kept as it is |
| `Leaderboard.DailyResetIdempotent` | script.js:258-263 | checking twice on the same day does nothing the second time |
| `Leaderboard.DailyResetClearsYesterday` | script.js:258-263 | a score recorded on one day is gone once the check runs on another day |
| `Leaderboard.RecordDaily` | script.js:234-238 | the intended daily update: the date is kept and the list is sorted and at most ten long |
| `Leaderboard.DailyAfterThrow` | script.js:234-238 | the daily update as written: the date is kept and the list is sorted but one entry longer, never cut |
| `Leaderboard.DailyOverflowAsWritten` | script.js:238 | as written, a game over on a day with ten or more entries leaves more than ten, unlike the intended update |
| `Names.TrimStart` | script.js:119 | drops exactly the leading white space |
| `Names.TrimEnd` | script.js:119 | drops exactly the trailing white space |
| `Names.Trim` | script.js:119 | the result is empty exactly when the input is all white space, and otherwise neither starts nor ends with white space |
| `Names.DisplayName` | script.js:119 | the player's name is never empty |
| `Names.DisplayNameShape` | script.js:119 | the name has no white space at either end; an all-white-space input gives "Player", and any other input gives its trimmed text |
| `Engine.CatalogueOutcomes` | script.js:194-214 | every catalogue item has an effect: exactly the three crops score, and only the Worminator without a shield ends the run |
| `Engine.Game.constructor` | script.js:10-20 | the load-time state: inactive, score 0, width 100, multiplier 1, no shield, logo 100, speed 1, stored lists or empty ones |
| `Engine.Game.StartGame` | script.js:118-139 | the run is reset to its starting values under the entered name or "Player"; the leaderboards carry over; the first spawn tick runs at once and yields 5 to 7 weighted picks and the next delay |
| `Engine.Game.DropLoop` | script.js:141-158 | an inactive run spawns nothing and schedules nothing; an active one spawns 5 to 7 items, each the weighted pick whose band holds its own draw, and schedules the next tick within [500, 500 + interval) ms |
| `Engine.Game.MoveBasket` | script.js:100-106 | an inactive run ignores the mouse; an active one moves the basket to the clamped, centred position |
| `Engine.Game.UpdateGrowth` | script.js:219-228 | logo size and speed follow the current score; nothing else changes |
| `Engine.Game.EndGame` | script.js:230-238 | the intended end of a run: inactive, and both leaderboards hold the new entry under the push, sort and top-ten rule |
| `Engine.Game.EndGameAsWritten` | script.js:230-238 | the end of a run as written: it always throws after the all-time cut, leaving the daily list pushed and sorted but not cut |
| `Engine.Game.HandleCatch` | script.js:193-217 | the new state is `CatchEffect` of the old one: crops add points × multiplier; the Liquid Loan adds its points and re-rolls the width into [100, 600); a shielded worm changes nothing; an unshielded worm ends the run with one leaderboard entry; the Mystery Box pauses without scoring; growth follows the score afterwards |
| `Engine.Game.PollCollision` | script.js:176-185 | the item is caught exactly when the rectangles overlap; a catch leaves the state `HandleCatch` gives (`CatchEffect`); a miss changes nothing |
| `Engine.Game.Resume` | script.js:246-250 | the run is active again and a spawn tick runs at once, yielding 5 to 7 weighted picks and the next delay |
| `Engine.Game.BurnDebt` | script.js:72-81 | the score becomes the floor of three quarters of itself (never more than before), catches count double, and the run resumes with a spawn tick |
| `Engine.Game.ExpireMultiplier` | script.js:76-79 | catches count once again |
| `Engine.Game.Supercollateral` | script.js:83-93 | the shield is up and the run resumes with a spawn tick; nothing else changes |
| `Engine.Game.ExpireShield` | script.js:87-91 | the shield is down |
| `Engine.Game.ProofOfRepayment` | script.js:95-98 | the score doubles on a draw below 0.6 and halves otherwise, and the run resumes with a spawn tick |
| `Engine.Game.ResetAllTime` | script.js:66-67 | the all-time list is empty |
| `Engine.Game.CheckDailyReset` | script.js:258-263 | the daily record becomes the reset of the old one and is dated today |

## Left out

- Rendering and the DOM are not modelled: screens, CSS classes, the logo's wiggle, `innerHTML` in `updateLeaderboard` (script.js:252-256), the theme and mute toggles, and sound playback.
- `localStorage` reads, writes and JSON parsing are not modelled (script.js:19-20, 68, 239-240, 262). The constructor takes the parsed stored lists, or none. Malformed stored JSON, which makes `JSON.parse` throw, is not modelled.
- Timers are not modelled: the 16 ms collision interval, item expiry, the respawn `setTimeout` and the 30-second effect windows. Each timer callback is a method the caller invokes: `PollCollision`, `DropLoop`, `ExpireMultiplier`, `ExpireShield`. So the model does not capture the timing of two races. An earlier window's timer can end a later Burn Debt or Supercollateral early. How long items in flight stay catchable after game over is not modelled; that they can be caught is (`HandleCatch` does not require an active run).
- The fall physics in `dropItem` are not modelled (script.js:160-174): the speed jitter, the horizontal position and the CSS transition duration are floating-point animation. `DropLoop` returns the catalogue indices picked, not the falling elements.
- Browser measurements are parameters: `getBoundingClientRect` and `offsetWidth` become rectangles and widths.
- JavaScript floating point is not modelled. Arithmetic is exact, so `0.15` and `0.75` are exact rationals and `score / 20` is exact.
- `checkDailyReset` always compares against `new Date('2025-03-26').toDateString()`. The model takes `today` as a parameter and does not model the date's formatting or time zone.
- `Engine.Game.Resume`: the spawn tick it runs starts a new respawn chain, whose delay it returns. A tick scheduled before the mystery pause that fires after the choice still passes `dropLoop`'s only guard, `gameActive` (script.js:142), so two chains then run side by side. The model keeps no pending timers, so it does not capture the doubled chain. The same holds for `Engine.Game.BurnDebt`, `Engine.Game.Supercollateral` and `Engine.Game.ProofOfRepayment`, which call it.
- `Engine.Game.StartGame`: the first spawn tick starts a new respawn chain. A tick of the previous run's chain still pending at the restart fires into the new run, so two chains run side by side; the doubled chain is not captured, as for `Resume`.
- `Engine.Game.HandleCatch`: uses the intended `endGame` (`EndGame`), not the throwing one. The as-written behaviour is `EndGameAsWritten`; see Findings.

## Findings

| source | as written | input that shows it | evidently intended | confidence | as-written member | corrected member |
|---|---|---|---|---|---|---|
| script.js:238 | `dailyScores.scores = dailyScores.slice(0, 10)` calls `slice` on the `{date, scores}` object, which has no such method, so `endGame` throws a TypeError there. The daily list is pushed and sorted but never cut to ten. Neither list is saved, and no final score or game-over screen is shown. The exception also skips the rest of `handleCatch` and the collision poll's `clearInterval` | any unshielded Worminator catch throws. Because the save on lines 239-240 comes after the throw, nothing is ever stored, so a long daily list can only build up within one page session. One way: the throw also skips `elem.remove()` and `clearInterval` (script.js:182-183), so while the worm still overlaps the basket the 16 ms poll runs `handleCatch` and `endGame` again, each time pushing a duplicate entry onto both lists. Once the daily list holds ten entries, the next run leaves eleven | `dailyScores.scores = dailyScores.scores.slice(0, 10)`: the daily list is cut to its top ten like the all-time list | not executed | `Engine.Game.EndGameAsWritten`, `Leaderboard.DailyOverflowAsWritten` | `Engine.Game.EndGame`, `Leaderboard.RecordDaily` |
