# Battleship game engine, in Dafny

This project models the game engine inside the `BattleshipGame` React
component (`src/components/battleship-game.tsx`): a single-player
battleship against the computer on 10x10 grids. The React hooks are removed,
and each command becomes a sequential transition over the component's state:

- the player's board and the revealed copy of the computer's board, which
  are the two 10x10 grids the player sees;
- the hidden computer board;
- the fleet of ships, each with an id, name, size, placed flag, orientation, hit counter and sunk flag;
- the phase (setup, playing, game over), whose turn it is, the move
  counter, the score, the status message, and the end-of-game fields
  (result, bonus shown, high-score table, popup).

Modules:

- `Wrappers`: `Option`.
- `Board`: cells, coordinates, and the footprint a ship covers. It also holds
  the placement check, whose contract is assumed.
- `Fleet`: the ship records.
  - `findIndex` by id; rotation; the bookkeeping of one hit; reset.
  - The game keeps one fleet for both sides, so hits on either board count
    against the same records, and both the win test and the loss test read them.
- `Scoring`: difficulty.
  - The sink multiplier and the fallback bonus table of `recordGameResult`.
  - The bonus expression shown after a win, exactly as written.
  - The top-10 high-score merge, with a stable sort by score.
- `Targeting`: the computer's choice of target by difficulty.
  - The scans for unresolved hits and for checkerboard cells are loops.
  - The random draws are parameters, or picks with `:|`. The policy as a
    whole is the relation `Policy`.
- `Messages`: the status line. There is one constructor per message the
  component shows, and `Text` gives its exact words.
- `Engine`: the game phase, the outcome and the class `Game`. It holds the three boards as `array2<Cell>`
  and the shared fleet as a `seq<Ship>`. Its methods are the commands
  `placeShip`, `rotateShip`, `removeShip`, `randomizeShips`, `resetGame`,
  `startGame`, `handleCellClick`, `computerTurn` and `endGame`.

Randomness, the score service and the utility library are inputs:

- `huntRoll` stands for `Math.random() > 0.3` and `parityRoll` for
  `Math.random() > 0.5`.
- `order` is any permutation of the four directions; it models the shuffle.
- Each `while (!validMove)` retry loop becomes "some cell whose state is
  empty". The computer's turn therefore requires that such a cell exists.
- `reply` is what the score service gave back: no user, an answer, or a
  failure.
- The computer's layout (`layout`) and the random player layout are opaque
  inputs. They come from `generateEmptyBoard` and `placeShipsRandomly`,
  which are not part of this model.

Some behaviour is modelled as the code has it:

- A cell counts as holding a ship when its `shipId` is truthy: present and
  not 0 (`Board.Occupied`).
- The bonus expression is `earningPoints || difficulty === "easy" ? 100 : ...`.
  Since `||` binds tighter than `?:`, any truthy reply shows 100
  (`Scoring.WinRewardByReply`).
- The high-score entry that a win records is the `score` that the click
  handler captured. The winning sink's points are queued through a state
  setter, so they are not in that entry.
- After a shot, the source hands over with `setTimeout(computerTurn)`. The
  model assumes that every state update is applied before the computer's
  turn runs.
- The difficulty radio group is shown only during setup. `SetDifficulty`
  itself has no guard, because the setter has none.

Four consequences of the code that a reader might not expect:

- The code keeps one `ships` array for both sides. The player's hits and
  the computer's hits count against the same records, and both the win
  test and the loss test read them.
- A truthy server answer shows a bonus of 100 at every difficulty. So does
  a failed call, whose fallback value is truthy. Only a missing user, or a
  falsy answer, shows the table 100/150/200.
- The high-score entry holds the score from before the winning sink, and
  an entry is recorded only on a win.
- With no user id, `recordGameResult` returns nothing at all; its fallback
  table is used only when the call fails. The table then reaches the
  screen only through the bonus expression.

## Model

| member | source | states |
|---|---|---|
| Fleet.AllPlaced | src/components/battleship-game.tsx:253 | the start test: every ship is placed |
| Fleet.FleetSunk | src/components/battleship-game.tsx:330 | the win test: every ship with id at most 5 is sunk; the loss test at line 499 reads the same shared fleet |
| Fleet.FindShip | src/components/battleship-game.tsx:301-303 | `findIndex` by id: -1 exactly when no ship has the id; otherwise the first index holding it |
| Fleet.Rotated | src/components/battleship-game.tsx:620-634 | `rotateShip`: only the orientation of the ship found by id can change; it flips exactly when that ship exists and is unplaced; all other ships and fields stay as they were |
| Fleet.RotateTwice | src/components/battleship-game.tsx:620-634 | rotating the same ship twice restores the fleet |
| Fleet.Toggle | src/components/battleship-game.tsx:627-630 | the toggle always changes the orientation |
| Fleet.AfterHit | src/components/battleship-game.tsx:306-309 | a hit adds exactly one to `hits` and changes nothing else except `sunk`, which holds afterwards iff it held before or `hits` now equals `size` |
| Fleet.RegisterHit | src/components/battleship-game.tsx:300-310 | the fleet after a hit on a cell carrying the id: the ship `findIndex` finds takes `AfterHit`, every other ship is kept, and the fleet keeps its length; the computer's hits (lines 468-478) use the same update |
| Fleet.RegisterHitMonotone | src/components/battleship-game.tsx:300-333 | a hit keeps the ids, never lowers a counter, never un-sinks a ship, keeps names, sizes, placement and orientation, keeps a sunk fleet sunk, and a fleet that becomes sunk does so by a sinking hit |
| Fleet.RegisterHitCountsOne | src/components/battleship-game.tsx:306 | a hit on a ship's cell raises the fleet's total hit count by exactly one; a hit on an id of no ship changes nothing |
| Fleet.SinksWhenHitsReachSize | src/components/battleship-game.tsx:306-310 | after n hits a ship has n more hits, and it is sunk iff it was already sunk or its counter reached its size during those hits |
| Fleet.SinkEventOnce | src/components/battleship-game.tsx:306-310 | a fresh ship's counter reaches its size on exactly one hit, the size-th, and only that hit turns it sunk, so a ship scores once |
| Fleet.ResetFleet | src/components/battleship-game.tsx:235-243 | `resetGame`'s fleet: same ids, names and sizes, every ship unplaced, horizontal, no hits, not sunk |
| Fleet.ResetRestoresStandardFleet | src/components/battleship-game.tsx:41-87 | resetting a fleet with the standard ids, names and sizes gives back the initial fleet |
| Board.Occupied | src/components/battleship-game.tsx:294 | a cell holds a ship when its `shipId` is truthy: present and not 0; the computer's shot tests it the same way at line 462 |
| Board.ValidPlacement | src/components/battleship-game.tsx:592 | the assumed placement check: every cell the ship would cover is on the grid and carries no ship |
| Board.ValidPlacementCovers | src/components/battleship-game.tsx:591-594 | under the assumed placement check, every covered cell is on the grid and free |
| Board.CoversIsFootprint | src/components/battleship-game.tsx:597-600 | the cells the placement loop writes, `(row, col+i)` or `(row+i, col)`, are exactly the cells `Covers` accepts |
| Board.FootprintSize | src/components/battleship-game.tsx:597-605 | a ship of size n writes exactly n distinct cells |
| Scoring.Multiplier | src/components/battleship-game.tsx:315-316 | the sink multiplier is 1, 2 or 3 for easy, medium or hard |
| Scoring.SinkPoints | src/components/battleship-game.tsx:314-320 | a sink earns `size * 10 * multiplier` |
| Scoring.SinkPointsGrowWithDifficulty | src/components/battleship-game.tsx:314-320 | `size*10*multiplier`: a harder difficulty never pays less, and it pays the same only at the same difficulty or for size 0 |
| Scoring.FallbackPoints | src/components/battleship-game.tsx:189-196 | the fallback of `recordGameResult`: 0 exactly on a loss, and 100, 150 or 200 on a win |
| Scoring.RecordGameResult | src/components/battleship-game.tsx:160-197 | `recordGameResult`: undefined with no user, the server's `pointsEarned` on an answer, and the fallback table when the call fails |
| Scoring.DisplayedReward | src/components/battleship-game.tsx:525-531 | the bonus expression as written: 100 for any truthy reply, otherwise the fallback table for a win |
| Scoring.WinRewardByReply | src/components/battleship-game.tsx:160-197 | combined with `recordGameResult`: a failed call always shows 100, a truthy answer shows 100, and no user or a falsy answer shows the difficulty's bonus |
| Scoring.InsertByScore | src/components/battleship-game.tsx:535 | one step of the sort: one longer, with the same entries plus the new one |
| Scoring.SortByScore | src/components/battleship-game.tsx:535 | the sort is a permutation of its input |
| Scoring.SortIsSorted | src/components/battleship-game.tsx:535 | the sort orders the entries highest score first |
| Scoring.SortIsStable | src/components/battleship-game.tsx:535 | the sort is stable: entries with equal scores keep their relative order |
| Scoring.MergeHighScores | src/components/battleship-game.tsx:533-537 | the new table holds `min(old length + 1, 10)` rows |
| Scoring.MergeHighScoresKeepsOrderAndEntries | src/components/battleship-game.tsx:533-537 | the new table is sorted highest first and holds only old rows and the new entry; while the old table has fewer than ten rows, nothing is dropped |
| Scoring.MergeHighScoresKeepsTheBest | src/components/battleship-game.tsx:533-537 | the table keeps the highest scores: every row dropped from the old table plus the new entry scores no more than every row kept |
| Scoring.NewScoreKeptUnlessBeaten | src/components/battleship-game.tsx:533-537 | the new entry makes the table unless the table is full of scores at least as high |
| Targeting.Step | src/components/battleship-game.tsx:383-388 | each of the four directions leads to an orthogonal neighbour |
| Targeting.StepCoversAdjacent | src/components/battleship-game.tsx:383-388 | every orthogonal neighbour is reached by one of the four directions |
| Targeting.FirstOpen | src/components/battleship-game.tsx:394-410 | the direction loop: it returns a direction of the shuffled order whose neighbour is on the grid and empty, every direction before it in the order leads to a closed cell, and it returns none exactly when no direction in the order has an open neighbour |
| Targeting.FirstOpenFindsAnyOpenNeighbour | src/components/battleship-game.tsx:391-410 | for any shuffle, the loop misses exactly when no orthogonal neighbour of the hit is on the grid and empty |
| Targeting.UnresolvedHits | src/components/battleship-game.tsx:368-378 | the scan collects exactly the cells that are hit and not sunk |
| Targeting.ParityTargets | src/components/battleship-game.tsx:428-436 | the scan collects exactly the empty cells with `(r + c) % 2 == 0` |
| Targeting.AnyOpenCell | src/components/battleship-game.tsx:358-364 | the retry loop ends on an in-bounds cell whose state is empty |
| Targeting.ChooseTarget | src/components/battleship-game.tsx:356-459 | the target satisfies the policy: it is an open cell; medium on a heads and hard hunt whenever an unresolved hit exists; a hunt fires at the first open neighbour in the shuffled order, or anywhere open if there is none; hard on a heads with no hunt picks an even square if one is open |
| Targeting.EasyFiresAtOpenCell | src/components/battleship-game.tsx:356-364 | easy always fires at an in-bounds cell not fired at before |
| Targeting.HardHuntsNextToHit | src/components/battleship-game.tsx:380-423 | hard with an unresolved hit picks one; if it has an open orthogonal neighbour, the target is such a neighbour |
| Targeting.CheckerboardIsEven | src/components/battleship-game.tsx:426-446 | a checkerboard pick happens only on hard, on a heads, with no unresolved hit, and lies on an even square |
| Engine.NewEmptyBoard | src/components/battleship-game.tsx:32-40 | a fresh 10x10 board of empty cells |
| Engine.Struck | src/components/battleship-game.tsx:462-487 | a player cell after the computer's shot: the target becomes a hit or a miss by `Occupied`, and the cells of a ship sunk by it get `sunk = true` |
| Engine.HitPoints | src/components/battleship-game.tsx:306-320 | the score a player hit adds: the sink points of the ship when the hit sinks it, otherwise 0 |
| Engine.PlayerHitMessage | src/components/battleship-game.tsx:306-322 | after the player's hit: the sink message with the ship's name, or "Hit!"; an id of no ship leaves the message |
| Engine.ComputerHitMessage | src/components/battleship-game.tsx:474-493 | after the computer's hit: the sink message with the ship's name, or the hit message; an id of no ship leaves the message |
| Engine.Game.constructor | src/components/battleship-game.tsx:31-101 | the initial state: setup, empty boards, the five standard ships, medium, score 0, the placement prompt, the player's turn, no popup, no moves |
| Engine.Game.SetDifficulty | src/components/battleship-game.tsx:750-755 | the radio group sets the difficulty |
| Engine.Game.PlaceShip | src/components/battleship-game.tsx:577-618 | returns true iff in setup, the id is known, and the placement is valid; on false nothing changes; on true exactly the `size` covered cells become `{empty, shipId}`, every other cell is unchanged, and only that ship becomes placed with the given orientation |
| Engine.Game.RotateShip | src/components/battleship-game.tsx:620-634 | the fleet becomes `Rotated`: only an existing, unplaced ship flips |
| Engine.Game.RemoveShip | src/components/battleship-game.tsx:636-661 | in setup, for a known placed ship: exactly the cells carrying its id become empty and the ship becomes unplaced; in any other case nothing changes |
| Engine.Game.RandomizeShips | src/components/battleship-game.tsx:217-228 | the player's board and fleet become the random placer's result |
| Engine.Game.ClearBoards | src/components/battleship-game.tsx:232-234 | the three boards are replaced by fresh, distinct, empty boards |
| Engine.Game.ResetGame | src/components/battleship-game.tsx:230-249 | back to setup: three fresh empty boards, the fleet reset, the placement prompt, no result, the player's turn, no moves, no popup; score, difficulty and high scores are kept |
| Engine.Game.StartGame | src/components/battleship-game.tsx:251-276 | with any ship unplaced, only the message changes; otherwise the computer board becomes the layout, the revealed board is empty, play starts and the move count is 0 |
| Engine.Game.EndGame | src/components/battleship-game.tsx:515-575 | game over with the result and the popup shown; a win shows the bonus expression and merges the recorded score into the table; a loss shows 0 and keeps the table |
| Engine.Game.CountPlayerHit | src/components/battleship-game.tsx:300-324 | the fleet takes the hit, a sink adds the ship's sink points, and the message announces a sink or a hit (an unknown id leaves it) |
| Engine.Game.PlayerHitsShip | src/components/battleship-game.tsx:294-333 | only the fired cell is revealed, as a hit; fleet and score as above; a sunk fleet is a win that keeps the turn and records the pre-shot score; otherwise the turn passes |
| Engine.Game.FireAtComputer | src/components/battleship-game.tsx:287-343 | one move more; only the fired cell is revealed, as hit or miss; a miss changes only the message and the turn; a hit is as in `PlayerHitsShip` |
| Engine.Game.HandleCellClick | src/components/battleship-game.tsx:278-345 | outside play, out of turn, or at a revealed cell, nothing changes, so re-firing is a no-op; otherwise as in `FireAtComputer` |
| Engine.Game.MarkShipSunk | src/components/battleship-game.tsx:481-487 | exactly the player cells carrying the id get `sunk = true`; all else is unchanged |
| Engine.Game.CountComputerHit | src/components/battleship-game.tsx:466-493 | the fleet takes the hit; a sink flags every cell of that ship and is announced; otherwise the hit is announced |
| Engine.Game.ComputerHitsShip | src/components/battleship-game.tsx:461-502 | the target becomes a hit and a sunk ship's cells are flagged; a sunk fleet is a loss; otherwise the turn returns to the player; the high scores never change |
| Engine.Game.FireAtPlayer | src/components/battleship-game.tsx:461-512 | every cell is its old value struck: the target resolved as hit or miss, the sunk ship's cells flagged; a miss changes only the message and the turn |
| Engine.Game.ComputerTurn | src/components/battleship-game.tsx:347-513 | outside play nothing changes; otherwise the target satisfies `Policy` on the board before the shot, and the shot resolves as in `FireAtPlayer` |

## Left out

- Rendering (JSX, dialogs, settings checkboxes, touch detection, the drag-and-drop provider) is presentation only. `src/components/game-board.tsx` and `src/app/page.tsx` are not part of this model.
- Audio playback, `fetch` to the score service, `localStorage` reads and writes, URL redirects and `setTimeout` pacing are I/O or timing. The score service's answer is the `reply` parameter, and the high-score table read on mount is the constructor's `savedScores`.
- The bodies of `isValidPlacement`, `generateEmptyBoard` and `placeShipsRandomly` live in `@/lib/game-utils`, which is not part of this model.
  - `Board.ValidPlacement` is an assumed contract: every covered cell is on the grid and carries no ship.
  - The computer's layout and the random player layout are inputs.
  - `generateEmptyBoard` is assumed to return 100 separate `{state: "empty"}` cell objects. The separateness matters because the computer's shot writes a cell object in place (lines 464 and 506). The model's cells are values, so it cannot express two cells sharing one object.
- `Math.random` is replaced by parameters and nondeterministic picks, so no probabilities are modelled.
- Engine.Game.ComputerTurn: requires an empty cell on the player's board during play. The source's retry loops would not end without one.
- Engine.Game.StartGame and Engine.Game.RandomizeShips: require that the new boards are not aliases of the boards kept. The source always builds fresh boards.
- Engine.Game.EndGame: the `recordGameResult(false)` call on a loss is left out, because its value is ignored and its effects are network I/O.
- Engine.Game.HandleCellClick: updates from earlier events are assumed applied before the click; values read inside the handler are the closure's. The high-score entry of a win is the closure's `score`, without the winning sink's points.
- Engine.Game.EndGame: is one atomic step. The source's `endGame` awaits `recordGameResult` (lines 524 and 564) before it sets the bonus, the high scores and the popup. Meanwhile the "Play Again" button is visible, because it shows on `gameover` without the popup, so `resetGame` can run before the rest of `endGame`. That interleaving is not modelled.
- The fields sent to the score service (`movesUsed` in the request body, `userId`) are modelled as state or left out; what the server does with them is outside this model.
- `initializeGame` is left out: it is network I/O only.
