/**
 * The game engine: the state held by the battleship component (two boards
 * of the player, the hidden computer board, one fleet shared by both sides,
 * the phase, the turn, the move counter, the score and the end-of-game
 * fields) and the commands that change it.
 */
module Engine {
  import opened Wrappers
  import opened Board
  import opened Fleet
  import opened Scoring
  import opened Targeting
  import opened Messages

  datatype GameState = Setup | Playing | GameOver
  datatype Outcome = Win | Lose

  /** A fresh board of empty cells. */
  method NewEmptyBoard() returns (b: array2<Cell>)
    ensures fresh(b) && IsGrid(b) && AllEmpty(b)
  {
    b := new Cell[GridSize, GridSize]((r, c) => EmptyCell);
  }

  /** The cell of the player's board after the computer's shot: the target is revealed, a sunk ship's cells are flagged. */
  function Struck(cell: Cell, isTarget: bool, sunkShip: Option<int>): Cell {
    var fired := if isTarget then cell.(state := if Occupied(cell) then Hit else Miss) else cell;
    if sunkShip.Some? && fired.shipId == sunkShip then fired.(sunk := true) else fired
  }

  /** The points of a hit on a cell carrying `id`: the sink points of the ship it sinks, else 0. */
  function HitPoints(ships: seq<Ship>, id: int, d: Difficulty): int {
    if SinksOn(ships, id) then SinkPoints(ships[FindShip(ships, id)].size, d) else 0
  }

  /** The message after the player's hit on `id`; an id of no ship leaves the message as it was. */
  function PlayerHitMessage(ships: seq<Ship>, id: int, previous: Message): Message {
    var i := FindShip(ships, id);
    if i < 0 then previous else if SinksOn(ships, id) then PlayerSank(ships[i].name) else Message.PlayerHit
  }

  /** The message after the computer's hit on `id`; an id of no ship leaves the message as it was. */
  function ComputerHitMessage(ships: seq<Ship>, id: int, previous: Message): Message {
    var i := FindShip(ships, id);
    if i < 0 then previous else if SinksOn(ships, id) then ComputerSank(ships[i].name) else Message.ComputerHit
  }

  /** `b` differs from its contents in the previous state at most at (row, col), which now holds `cell`. */
  twostate predicate ChangedAt(b: array2<Cell>, row: int, col: int, cell: Cell)
    reads b
    requires IsGrid(b)
  {
    forall r, c :: 0 <= r < GridSize && 0 <= c < GridSize ==>
      b[r, c] == if r == row && c == col then cell else old(b[r, c])
  }

  /** Every cell of `b` is its previous value struck as `Struck` says, with `target` the cell fired at. */
  twostate predicate ShotAt(b: array2<Cell>, target: Option<Pos>, sunkShip: Option<int>)
    reads b
    requires IsGrid(b)
  {
    forall r, c :: 0 <= r < GridSize && 0 <= c < GridSize ==>
      b[r, c] == Struck(old(b[r, c]), target == Some(Pos(r, c)), sunkShip)
  }

  class Game {
    var gameState: GameState
    var playerBoard: array2<Cell>
    var computerBoard: array2<Cell>
    var revealedBoard: array2<Cell>
    var ships: seq<Ship>
    var difficulty: Difficulty
    var score: int
    var message: Message
    var gameResult: Option<Outcome>
    var playerTurn: bool
    var highScores: seq<HighScore>
    var showPopup: bool
    var pointsEarned: int
    var movesUsed: nat

    /** Three 10x10 boards, none an alias of another. */
    ghost predicate Valid()
      reads this
    {
      && IsGrid(playerBoard) && IsGrid(computerBoard) && IsGrid(revealedBoard)
      && playerBoard != computerBoard && playerBoard != revealedBoard && computerBoard != revealedBoard
    }

    /** The player may fire at (row, col): the game is on, it is the player's turn, and the cell is unrevealed. */
    ghost predicate PlayerMayFire(row: int, col: int)
      reads this, revealedBoard
      requires Valid() && InBounds(Pos(row, col))
    {
      gameState == Playing && playerTurn && revealedBoard[row, col].state == Empty
    }

    /** The fields `endGame("win")` leaves, `table` being the high-score table before it and `recordedScore` the entry. */
    ghost predicate WonWith(reply: Reply, table: seq<HighScore>, recordedScore: int)
      reads this
    {
      && gameState == GameOver && gameResult == Some(Win)
      && message == PlayerWon && showPopup
      && pointsEarned == DisplayedReward(RecordGameResult(reply, true, difficulty), difficulty)
      && highScores == MergeHighScores(table, HighScore(difficulty, recordedScore))
    }

    /** The fields `endGame("lose")` leaves. */
    ghost predicate Lost()
      reads this
    {
      && gameState == GameOver && gameResult == Some(Lose)
      && message == PlayerLost && pointsEarned == 0 && showPopup
    }

    /** The end-of-game fields (result, bonus, high scores, popup) are as they were. */
    twostate predicate EndingKept()
      reads this
    {
      gameResult == old(gameResult) && pointsEarned == old(pointsEarned)
      && highScores == old(highScores) && showPopup == old(showPopup)
    }

    /** The component's initial state; `savedScores` is the table read from local storage on mount. */
    constructor (savedScores: seq<HighScore>)
      ensures Valid() && fresh(playerBoard) && fresh(computerBoard) && fresh(revealedBoard)
      ensures AllEmpty(playerBoard) && AllEmpty(computerBoard) && AllEmpty(revealedBoard)
      ensures gameState == Setup && ships == StandardFleet && difficulty == Medium && score == 0
      ensures message == PlaceYourShips && gameResult == None && playerTurn
      ensures highScores == savedScores && !showPopup && pointsEarned == 0 && movesUsed == 0
    {
      gameState := Setup;
      playerBoard := new Cell[GridSize, GridSize]((r, c) => EmptyCell);
      computerBoard := new Cell[GridSize, GridSize]((r, c) => EmptyCell);
      revealedBoard := new Cell[GridSize, GridSize]((r, c) => EmptyCell);
      ships := StandardFleet;
      difficulty := Medium;
      score := 0;
      message := PlaceYourShips;
      gameResult := None;
      playerTurn := true;
      highScores := savedScores;
      showPopup := false;
      pointsEarned := 0;
      movesUsed := 0;
    }

    /** The difficulty radio group. */
    method SetDifficulty(d: Difficulty)
      modifies this`difficulty
      ensures difficulty == d
    {
      difficulty := d;
    }

    /**
     * `placeShip`: in setup, for a known ship and a valid placement, write the
     * ship's cells and mark it placed with the given orientation. Otherwise
     * return false and change nothing.
     */
    method PlaceShip(shipId: int, row: int, col: int, orientation: Orientation) returns (ok: bool)
      requires Valid()
      modifies this`ships, playerBoard
      ensures Valid()
      ensures var i := FindShip(old(ships), shipId);
        ok == (old(gameState) == Setup && i >= 0
               && old(ValidPlacement(playerBoard, row, col, ships[i].size, orientation)))
      ensures !ok ==> ships == old(ships) && unchanged(playerBoard)
      ensures ok ==>
        var i := FindShip(old(ships), shipId);
        var ship := old(ships)[i];
        && ships == old(ships)[i := ship.(placed := true, orientation := orientation)]
        && forall r, c :: 0 <= r < GridSize && 0 <= c < GridSize ==>
             playerBoard[r, c] == if Covers(row, col, ship.size, orientation, Pos(r, c)) then ShipCell(ship.id)
                                  else old(playerBoard[r, c])
    {
      if gameState != Setup {
        return false;
      }
      var i := FindShip(ships, shipId);
      if i == -1 {
        return false;
      }
      var ship := ships[i];
      if !ValidPlacement(playerBoard, row, col, ship.size, orientation) {
        return false;
      }
      for k := 0 to ship.size
        modifies playerBoard
        invariant forall r, c :: 0 <= r < GridSize && 0 <= c < GridSize ==>
          playerBoard[r, c] == if Covers(row, col, k, orientation, Pos(r, c)) then ShipCell(ship.id)
                               else old(playerBoard[r, c])
      {
        var p := CellAt(row, col, orientation, k);
        playerBoard[p.r, p.c] := ShipCell(ship.id);
      }
      ships := ships[i := ship.(placed := true, orientation := orientation)];
      ok := true;
    }

    /** `rotateShip`: flip the orientation of a known, unplaced ship. */
    method RotateShip(shipId: int)
      modifies this`ships
      ensures ships == Rotated(old(ships), shipId)
    {
      ships := Rotated(ships, shipId);
    }

    /**
     * `removeShip`: in setup, for a known placed ship, reset every cell
     * carrying its id to an empty cell and mark it unplaced. Otherwise no-op.
     */
    method RemoveShip(shipId: int)
      requires Valid()
      modifies this`ships, playerBoard
      ensures Valid()
      ensures var i := FindShip(old(ships), shipId);
        if old(gameState) == Setup && i >= 0 && old(ships)[i].placed then
          && ships == old(ships)[i := old(ships)[i].(placed := false)]
          && forall r, c :: 0 <= r < GridSize && 0 <= c < GridSize ==>
               playerBoard[r, c] == if old(playerBoard[r, c]).shipId == Some(shipId) then EmptyCell
                                    else old(playerBoard[r, c])
        else
          ships == old(ships) && unchanged(playerBoard)
    {
      if gameState != Setup {
        return;
      }
      var i := FindShip(ships, shipId);
      if i == -1 || !ships[i].placed {
        return;
      }
      for r := 0 to GridSize
        modifies playerBoard
        invariant forall r', c' :: 0 <= r' < GridSize && 0 <= c' < GridSize ==>
          playerBoard[r', c'] == if r' < r && old(playerBoard[r', c']).shipId == Some(shipId) then EmptyCell
                                 else old(playerBoard[r', c'])
      {
        for c := 0 to GridSize
          invariant forall r', c' :: 0 <= r' < GridSize && 0 <= c' < GridSize ==>
            playerBoard[r', c'] ==
              if (r' < r || (r' == r && c' < c)) && old(playerBoard[r', c']).shipId == Some(shipId) then EmptyCell
              else old(playerBoard[r', c'])
        {
          if playerBoard[r, c].shipId == Some(shipId) {
            playerBoard[r, c] := EmptyCell;
          }
        }
      }
      ships := ships[i := ships[i].(placed := false)];
    }

    /**
     * `randomizeShips`: the player's board and fleet become what the random
     * placer of the utility library returns for an empty board.
     */
    method RandomizeShips(board: array2<Cell>, placedShips: seq<Ship>)
      requires Valid() && IsGrid(board) && board != computerBoard && board != revealedBoard
      modifies this`playerBoard, this`ships
      ensures Valid() && playerBoard == board && ships == placedShips
    {
      playerBoard := board;
      ships := placedShips;
    }

    /** The three boards of `resetGame`, each a fresh empty grid. */
    method ClearBoards()
      modifies this`playerBoard, this`computerBoard, this`revealedBoard
      ensures Valid() && fresh(playerBoard) && fresh(computerBoard) && fresh(revealedBoard)
      ensures AllEmpty(playerBoard) && AllEmpty(computerBoard) && AllEmpty(revealedBoard)
    {
      var player := NewEmptyBoard();
      var computer := NewEmptyBoard();
      var revealed := NewEmptyBoard();
      playerBoard, computerBoard, revealedBoard := player, computer, revealed;
    }

    /**
     * `resetGame`: back to setup with three empty boards and a reset fleet.
     * The score, the difficulty, the high-score table and the last bonus are kept.
     */
    method ResetGame()
      requires Valid()
      modifies this`gameState, this`playerBoard, this`computerBoard, this`revealedBoard, this`ships,
               this`message, this`gameResult, this`playerTurn, this`movesUsed, this`showPopup
      ensures Valid() && fresh(playerBoard) && fresh(computerBoard) && fresh(revealedBoard)
      ensures AllEmpty(playerBoard) && AllEmpty(computerBoard) && AllEmpty(revealedBoard)
      ensures gameState == Setup && ships == ResetFleet(old(ships))
      ensures message == PlaceYourShips && gameResult == None && playerTurn
      ensures movesUsed == 0 && !showPopup
    {
      ClearBoards();
      gameState := Setup;
      ships := ResetFleet(ships);
      message := PlaceYourShips;
      gameResult := None;
      playerTurn := true;
      movesUsed := 0;
      showPopup := false;
    }

    /**
     * `startGame`: unless every ship is placed, only the message changes.
     * Otherwise the computer's board becomes `layout` (what the random placer
     * returns), the revealed board is emptied, play starts and the move count
     * restarts at 0.
     */
    method StartGame(layout: array2<Cell>)
      requires Valid() && IsGrid(layout) && layout != playerBoard
      modifies this`message, this`computerBoard, this`revealedBoard, this`gameState, this`movesUsed
      ensures Valid()
      ensures !AllPlaced(ships) ==>
        && message == MustPlaceAllShips
        && gameState == old(gameState) && movesUsed == old(movesUsed)
        && computerBoard == old(computerBoard) && revealedBoard == old(revealedBoard)
      ensures AllPlaced(ships) ==>
        && computerBoard == layout && fresh(revealedBoard) && AllEmpty(revealedBoard)
        && gameState == Playing && movesUsed == 0
        && message == GameStarted
    {
      if !AllPlaced(ships) {
        message := MustPlaceAllShips;
        return;
      }
      computerBoard := layout;
      revealedBoard := NewEmptyBoard();
      gameState := Playing;
      message := GameStarted;
      movesUsed := 0;
    }

    /**
     * `endGame`: game over with the given result. On a win, the bonus shown is
     * the displayed-reward expression over the reply of the score service, and
     * `recordedScore` enters the high-score table; on a loss the bonus is 0.
     */
    method EndGame(result: Outcome, reply: Reply, recordedScore: int)
      modifies this`gameState, this`gameResult, this`message, this`pointsEarned, this`highScores, this`showPopup
      ensures result == Win ==> WonWith(reply, old(highScores), recordedScore)
      ensures result == Lose ==> Lost() && highScores == old(highScores)
    {
      gameState := GameOver;
      gameResult := Some(result);
      if result == Win {
        message := PlayerWon;
        var earningPoints := RecordGameResult(reply, true, difficulty);
        pointsEarned := DisplayedReward(earningPoints, difficulty);
        highScores := MergeHighScores(highScores, HighScore(difficulty, recordedScore));
      } else {
        message := PlayerLost;
        pointsEarned := 0;
      }
      showPopup := true;
    }

    /**
     * The fleet and score update of a player's hit on a cell carrying `id`:
     * the shared fleet counts it, and a sink scores and is announced.
     */
    method CountPlayerHit(id: int)
      modifies this`ships, this`score, this`message
      ensures ships == RegisterHit(old(ships), id)
      ensures score == old(score) + HitPoints(old(ships), id, difficulty)
      ensures message == PlayerHitMessage(old(ships), id, old(message))
    {
      var i := FindShip(ships, id);
      if i != -1 {
        var ship := AfterHit(ships[i]);
        ships := ships[i := ship];
        if ship.hits == ship.size {
          message := PlayerSank(ship.name);
          score := score + ship.size * 10 * Multiplier(difficulty);
        } else {
          message := Message.PlayerHit;
        }
      }
    }

    /**
     * The player's shot at an occupied cell of the computer's board: the cell
     * is revealed as a hit and counted; a fully sunk fleet ends the game as a
     * win whose high-score entry is the score from before this shot, else
     * the turn passes to the computer.
     */
    method PlayerHitsShip(row: int, col: int, reply: Reply)
      requires Valid() && InBounds(Pos(row, col)) && Occupied(computerBoard[row, col])
      modifies this`ships, this`score, this`message, this`playerTurn, this`gameState,
               this`gameResult, this`pointsEarned, this`highScores, this`showPopup, revealedBoard
      ensures Valid()
      ensures ChangedAt(revealedBoard, row, col, computerBoard[row, col].(state := Hit))
      ensures var id := computerBoard[row, col].shipId.value;
        && ships == RegisterHit(old(ships), id)
        && score == old(score) + HitPoints(old(ships), id, difficulty)
        && (FleetSunk(ships) ==> WonWith(reply, old(highScores), old(score)) && playerTurn == old(playerTurn))
        && (!FleetSunk(ships) ==>
              && gameState == old(gameState) && !playerTurn
              && message == PlayerHitMessage(old(ships), id, old(message)) && EndingKept())
    {
      var computerCell := computerBoard[row, col];
      revealedBoard[row, col] := computerCell.(state := Hit);
      var recordedScore := score;
      CountPlayerHit(computerCell.shipId.value);
      if FleetSunk(ships) {
        EndGame(Win, reply, recordedScore);
        return;
      }
      playerTurn := false;
    }

    /**
     * An accepted shot of the player at (row, col), the part of
     * `handleCellClick` after its guard. The score entered in the high-score
     * table on a win is the one the click handler captured, before this
     * shot's sink points.
     */
    method FireAtComputer(row: int, col: int, reply: Reply)
      requires Valid() && InBounds(Pos(row, col)) && PlayerMayFire(row, col)
      modifies this`movesUsed, this`ships, this`score, this`message, this`playerTurn, this`gameState,
               this`gameResult, this`pointsEarned, this`highScores, this`showPopup, revealedBoard
      ensures Valid()
      ensures movesUsed == old(movesUsed) + 1
      ensures ChangedAt(revealedBoard, row, col,
                        computerBoard[row, col].(state := if Occupied(computerBoard[row, col]) then Hit else Miss))
      ensures !Occupied(computerBoard[row, col]) ==>
        && ships == old(ships) && score == old(score) && message == PlayerMissed
        && gameState == Playing && !playerTurn && EndingKept()
      ensures Occupied(computerBoard[row, col]) ==>
        var id := computerBoard[row, col].shipId.value;
        && ships == RegisterHit(old(ships), id)
        && score == old(score) + HitPoints(old(ships), id, difficulty)
        && (FleetSunk(ships) ==> WonWith(reply, old(highScores), old(score)) && playerTurn)
        && (!FleetSunk(ships) ==>
              && gameState == Playing && !playerTurn
              && message == PlayerHitMessage(old(ships), id, old(message)) && EndingKept())
    {
      movesUsed := movesUsed + 1;
      var computerCell := computerBoard[row, col];
      if Occupied(computerCell) {
        PlayerHitsShip(row, col, reply);
      } else {
        revealedBoard[row, col] := computerCell.(state := Miss);
        message := PlayerMissed;
        playerTurn := false;
      }
    }

    /**
     * `handleCellClick`: the player fires at (row, col) of the computer's board.
     * A shot outside play, out of turn or at a revealed cell changes nothing.
     * Otherwise the move counts, the cell is revealed as hit or miss, a hit
     * counts against the (shared) fleet and a sink scores; if every ship with
     * id <= 5 is sunk the player wins without handing over the turn, else the
     * turn passes to the computer.
     */
    method HandleCellClick(row: int, col: int, reply: Reply)
      requires Valid() && InBounds(Pos(row, col))
      modifies this`movesUsed, this`ships, this`score, this`message, this`playerTurn, this`gameState,
               this`gameResult, this`pointsEarned, this`highScores, this`showPopup, revealedBoard
      ensures Valid()
      ensures !old(PlayerMayFire(row, col)) ==> unchanged(this) && unchanged(revealedBoard)
      ensures old(PlayerMayFire(row, col)) ==>
        && movesUsed == old(movesUsed) + 1
        && ChangedAt(revealedBoard, row, col,
                     computerBoard[row, col].(state := if Occupied(computerBoard[row, col]) then Hit else Miss))
      ensures old(PlayerMayFire(row, col)) && !Occupied(computerBoard[row, col]) ==>
        && ships == old(ships) && score == old(score) && message == PlayerMissed
        && gameState == Playing && !playerTurn && EndingKept()
      ensures old(PlayerMayFire(row, col)) && Occupied(computerBoard[row, col]) ==>
        var id := computerBoard[row, col].shipId.value;
        && ships == RegisterHit(old(ships), id)
        && score == old(score) + HitPoints(old(ships), id, difficulty)
        && (FleetSunk(ships) ==> WonWith(reply, old(highScores), old(score)) && playerTurn)
        && (!FleetSunk(ships) ==>
              && gameState == Playing && !playerTurn
              && message == PlayerHitMessage(old(ships), id, old(message)) && EndingKept())
    {
      if gameState != Playing || !playerTurn || revealedBoard[row, col].state != Empty {
        return;
      }
      FireAtComputer(row, col, reply);
    }

    /** The loop that flags every cell of a sunk ship on the player's board. */
    method MarkShipSunk(id: int)
      requires Valid()
      modifies playerBoard
      ensures forall r, c :: 0 <= r < GridSize && 0 <= c < GridSize ==>
        playerBoard[r, c] == if old(playerBoard[r, c]).shipId == Some(id) then old(playerBoard[r, c]).(sunk := true)
                             else old(playerBoard[r, c])
    {
      for r := 0 to GridSize
        invariant forall r', c' :: 0 <= r' < GridSize && 0 <= c' < GridSize ==>
          playerBoard[r', c'] == if r' < r && old(playerBoard[r', c']).shipId == Some(id) then old(playerBoard[r', c']).(sunk := true)
                                 else old(playerBoard[r', c'])
      {
        for c := 0 to GridSize
          invariant forall r', c' :: 0 <= r' < GridSize && 0 <= c' < GridSize ==>
            playerBoard[r', c'] ==
              if (r' < r || (r' == r && c' < c)) && old(playerBoard[r', c']).shipId == Some(id) then old(playerBoard[r', c']).(sunk := true)
              else old(playerBoard[r', c'])
        {
          if playerBoard[r, c].shipId == Some(id) {
            playerBoard[r, c] := playerBoard[r, c].(sunk := true);
          }
        }
      }
    }

    /**
     * The fleet update of a computer's hit on a player cell carrying `id`:
     * the shared fleet counts it, and a sink flags the ship's cells and is
     * announced.
     */
    method CountComputerHit(id: int)
      requires Valid()
      modifies this`ships, this`message, playerBoard
      ensures ships == RegisterHit(old(ships), id)
      ensures ShotAt(playerBoard, None, if SinksOn(old(ships), id) then Some(id) else None)
      ensures message == ComputerHitMessage(old(ships), id, old(message))
    {
      var i := FindShip(ships, id);
      if i != -1 {
        var ship := AfterHit(ships[i]);
        ships := ships[i := ship];
        if ship.hits == ship.size {
          MarkShipSunk(ship.id);
          message := ComputerSank(ship.name);
        } else {
          message := Message.ComputerHit;
        }
      }
    }

    /**
     * The computer's shot at an occupied cell of the player's board: the cell
     * becomes a hit and is counted; a fully sunk fleet ends the game as a
     * loss, else the turn returns to the player.
     */
    method ComputerHitsShip(target: Pos, reply: Reply)
      requires Valid() && InBounds(target) && Occupied(playerBoard[target.r, target.c])
      modifies this`ships, this`message, this`playerTurn, this`gameState, this`gameResult,
               this`pointsEarned, this`highScores, this`showPopup, playerBoard
      ensures Valid()
      ensures var id := old(playerBoard[target.r, target.c]).shipId.value;
        && ships == RegisterHit(old(ships), id)
        && ShotAt(playerBoard, Some(target), if SinksOn(old(ships), id) then Some(id) else None)
        && (FleetSunk(ships) ==> Lost() && playerTurn == old(playerTurn))
        && (!FleetSunk(ships) ==>
              && gameState == old(gameState) && playerTurn && EndingKept()
              && message == ComputerHitMessage(old(ships), id, old(message)))
      ensures highScores == old(highScores)
    {
      var cell := playerBoard[target.r, target.c];
      playerBoard[target.r, target.c] := cell.(state := Hit);
      CountComputerHit(cell.shipId.value);
      if FleetSunk(ships) {
        EndGame(Lose, reply, score);
        return;
      }
      playerTurn := true;
    }

    /**
     * The computer's shot at `target` on the player's board, the resolution
     * part of `computerTurn`: the cell becomes hit or miss, a hit counts
     * against the shared fleet and a sink flags the ship's cells; a fully
     * sunk fleet ends the game as a loss, else the turn returns to the player.
     */
    method FireAtPlayer(target: Pos, reply: Reply)
      requires Valid() && InBounds(target)
      modifies this`ships, this`message, this`playerTurn, this`gameState, this`gameResult,
               this`pointsEarned, this`highScores, this`showPopup, playerBoard
      ensures Valid()
      ensures var cell := old(playerBoard[target.r, target.c]);
        var hit := Occupied(cell);
        var id := if hit then cell.shipId.value else 0;
        && ships == (if hit then RegisterHit(old(ships), id) else old(ships))
        && ShotAt(playerBoard, Some(target), if hit && SinksOn(old(ships), id) then Some(id) else None)
        && (hit && FleetSunk(ships) ==> Lost() && playerTurn == old(playerTurn))
        && (!(hit && FleetSunk(ships)) ==>
              && gameState == old(gameState) && playerTurn && EndingKept()
              && message == (if hit then ComputerHitMessage(old(ships), id, old(message))
                             else ComputerMissed))
      ensures highScores == old(highScores)
    {
      var cell := playerBoard[target.r, target.c];
      if Occupied(cell) {
        ComputerHitsShip(target, reply);
      } else {
        playerBoard[target.r, target.c] := cell.(state := Miss);
        message := ComputerMissed;
        playerTurn := true;
      }
    }

    /**
     * `computerTurn`: outside play nothing happens. Otherwise the computer
     * picks a target by the targeting policy and fires at it on the player's
     * board: the cell becomes hit or miss, a hit counts against the shared
     * fleet, a sunk ship's cells are all flagged sunk, and if every ship with
     * id <= 5 is sunk the player loses; else the turn returns to the player.
     * The outcome of reporting the loss (`reply`) changes nothing.
     */
    method ComputerTurn(huntRoll: bool, parityRoll: bool, order: seq<Dir>, reply: Reply)
      returns (ghost target: Pos, ghost how: Strategy)
      requires Valid() && IsShuffle(order)
      requires gameState == Playing ==> HasOpenCell(playerBoard)
      modifies this`ships, this`message, this`playerTurn, this`gameState, this`gameResult,
               this`pointsEarned, this`highScores, this`showPopup, playerBoard
      ensures Valid()
      ensures old(gameState) != Playing ==> unchanged(this) && unchanged(playerBoard)
      ensures old(gameState) == Playing ==>
        old(Policy(playerBoard, difficulty, huntRoll, parityRoll, order, target, how))
      ensures old(gameState) == Playing ==>
        var cell := old(playerBoard[target.r, target.c]);
        var hit := Occupied(cell);
        var id := if hit then cell.shipId.value else 0;
        && ships == (if hit then RegisterHit(old(ships), id) else old(ships))
        && ShotAt(playerBoard, Some(target), if hit && SinksOn(old(ships), id) then Some(id) else None)
        && (hit && FleetSunk(ships) ==> Lost() && playerTurn == old(playerTurn))
        && (!(hit && FleetSunk(ships)) ==>
              && gameState == Playing && playerTurn && EndingKept()
              && message == (if hit then ComputerHitMessage(old(ships), id, old(message))
                             else ComputerMissed))
      ensures highScores == old(highScores)
    {
      target, how := Pos(0, 0), Anywhere;
      if gameState != Playing {
        return;
      }
      var t, h := ChooseTarget(playerBoard, difficulty, huntRoll, parityRoll, order);
      target, how := t, h;
      FireAtPlayer(t, reply);
    }
  }
}
