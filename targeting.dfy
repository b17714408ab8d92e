/**
 * The computer opponent's choice of target on the player's board. Every
 * random draw is a parameter or a nondeterministic pick: the two coin
 * flips (`Math.random() > 0.3` for a medium hunt, `> 0.5` for the hard
 * checkerboard), the shuffled direction order, and each "any one of these"
 * choice.
 */
module Targeting {
  import opened Wrappers
  import opened Board
  import opened Scoring

  datatype Dir = Up | Down | Left | Right

  /** The orthogonal neighbour of p in direction d. */
  function Step(p: Pos, d: Dir): (q: Pos)
    ensures Adjacent(p, q)
  {
    match d
    case Up => Pos(p.r - 1, p.c)
    case Down => Pos(p.r + 1, p.c)
    case Left => Pos(p.r, p.c - 1)
    case Right => Pos(p.r, p.c + 1)
  }

  predicate Adjacent(p: Pos, q: Pos) {
    (p.r == q.r && (p.c - q.c == 1 || q.c - p.c == 1)) ||
    (p.c == q.c && (p.r - q.r == 1 || q.r - p.r == 1))
  }

  /** The four directions reach every orthogonal neighbour. */
  lemma StepCoversAdjacent(p: Pos, q: Pos)
    requires Adjacent(p, q)
    ensures exists d: Dir :: Step(p, d) == q
  {
    if q.r == p.r - 1 {
      assert Step(p, Up) == q;
    } else if q.r == p.r + 1 {
      assert Step(p, Down) == q;
    } else if q.c == p.c - 1 {
      assert Step(p, Left) == q;
    } else {
      assert Step(p, Right) == q;
    }
  }

  /** The result of shuffling the four directions: any ordering of them. */
  predicate IsShuffle(order: seq<Dir>) {
    multiset(order) == multiset{Up, Down, Left, Right}
  }

  /** A cell the computer may fire at: on the grid and not yet fired at. */
  predicate IsOpen(board: array2<Cell>, p: Pos)
    reads board
    requires IsGrid(board)
  {
    InBounds(p) && board[p.r, p.c].state == Empty
  }

  /** A hit on a ship that is not yet marked sunk: what medium and hard hunt around. */
  predicate IsUnresolvedHit(board: array2<Cell>, p: Pos)
    reads board
    requires IsGrid(board)
  {
    InBounds(p) && board[p.r, p.c].state == Hit && !board[p.r, p.c].sunk
  }

  ghost predicate HasOpenCell(board: array2<Cell>)
    reads board
    requires IsGrid(board)
  {
    exists r, c :: 0 <= r < GridSize && 0 <= c < GridSize && board[r, c].state == Empty
  }

  ghost predicate HasUnresolvedHit(board: array2<Cell>)
    reads board
    requires IsGrid(board)
  {
    exists p :: IsUnresolvedHit(board, p)
  }

  ghost predicate HasOpenParityCell(board: array2<Cell>)
    reads board
    requires IsGrid(board)
  {
    exists p :: IsOpen(board, p) && (p.r + p.c) % 2 == 0
  }

  /** The first direction in the shuffled order whose neighbour of `hit` is open. */
  function FirstOpen(board: array2<Cell>, hit: Pos, order: seq<Dir>): (d: Option<Dir>)
    reads board
    requires IsGrid(board)
    ensures d.Some? ==> d.value in order && IsOpen(board, Step(hit, d.value))
    ensures d.Some? ==>
      exists k :: 0 <= k < |order| && order[k] == d.value &&
        forall m :: 0 <= m < k ==> !IsOpen(board, Step(hit, order[m]))
    ensures d.None? <==> forall k :: 0 <= k < |order| ==> !IsOpen(board, Step(hit, order[k]))
  {
    if order == [] then None
    else if IsOpen(board, Step(hit, order[0])) then Some(order[0])
    else FirstOpen(board, hit, order[1..])
  }

  /** Since the shuffle lists all four directions, the probe fails only when every neighbour is closed. */
  lemma FirstOpenFindsAnyOpenNeighbour(board: array2<Cell>, hit: Pos, order: seq<Dir>)
    requires IsGrid(board) && IsShuffle(order)
    ensures FirstOpen(board, hit, order).None? <==> forall q :: Adjacent(hit, q) ==> !IsOpen(board, q)
  {
    if FirstOpen(board, hit, order).None? {
      forall q | Adjacent(hit, q) ensures !IsOpen(board, q) {
        StepCoversAdjacent(hit, q);
        var d: Dir :| Step(hit, d) == q;
        assert d in multiset{Up, Down, Left, Right} by {
          match d
          case Up =>
          case Down =>
          case Left =>
          case Right =>
        }
        assert d in multiset(order);
        var k :| 0 <= k < |order| && order[k] == d;
      }
    }
  }

  /** How the target was chosen. */
  datatype Strategy =
    | Hunt(hit: Pos, dir: Dir)      // the first open neighbour of an unresolved hit
    | Stranded(hit: Pos)            // the chosen hit had no open neighbour: any open cell
    | Checkerboard                  // hard, no hunt, heads: an open cell with (r + c) even
    | Anywhere                      // any open cell

  /** Medium (on a heads) and hard hunt around hits whenever an unresolved hit exists. */
  ghost predicate Hunts(board: array2<Cell>, d: Difficulty, huntRoll: bool)
    reads board
    requires IsGrid(board)
  {
    d != Easy && HasUnresolvedHit(board) && (d == Hard || huntRoll)
  }

  /** The targeting rules, as one relation between the board, the draws and the chosen target. */
  ghost predicate Policy(board: array2<Cell>, d: Difficulty, huntRoll: bool, parityRoll: bool,
                         order: seq<Dir>, target: Pos, how: Strategy)
    reads board
    requires IsGrid(board)
  {
    && IsOpen(board, target)
    && (how.Hunt? || how.Stranded? <==> Hunts(board, d, huntRoll))
    && (how.Hunt? ==>
          IsUnresolvedHit(board, how.hit) && FirstOpen(board, how.hit, order) == Some(how.dir)
          && target == Step(how.hit, how.dir))
    && (how.Stranded? ==> IsUnresolvedHit(board, how.hit) && FirstOpen(board, how.hit, order) == None)
    && (how.Checkerboard? <==> !Hunts(board, d, huntRoll) && d == Hard && parityRoll && HasOpenParityCell(board))
    && (how.Checkerboard? ==> (target.r + target.c) % 2 == 0)
  }

  /** The scan for hits on ships not yet sunk (row by row). */
  method UnresolvedHits(board: array2<Cell>) returns (hits: seq<Pos>)
    requires IsGrid(board)
    ensures forall p :: p in hits <==> IsUnresolvedHit(board, p)
  {
    hits := [];
    for r := 0 to GridSize
      invariant forall p :: p in hits <==> IsUnresolvedHit(board, p) && p.r < r
    {
      for c := 0 to GridSize
        invariant forall p :: p in hits <==> IsUnresolvedHit(board, p) && (p.r < r || (p.r == r && p.c < c))
      {
        if board[r, c].state == Hit && !board[r, c].sunk {
          hits := hits + [Pos(r, c)];
        }
      }
    }
  }

  /** The scan for open cells of the checkerboard parity (row + col even). */
  method ParityTargets(board: array2<Cell>) returns (targets: seq<Pos>)
    requires IsGrid(board)
    ensures forall p :: p in targets <==> IsOpen(board, p) && (p.r + p.c) % 2 == 0
  {
    targets := [];
    for r := 0 to GridSize
      invariant forall p :: p in targets <==> IsOpen(board, p) && (p.r + p.c) % 2 == 0 && p.r < r
    {
      for c := 0 to GridSize
        invariant forall p :: p in targets <==>
          IsOpen(board, p) && (p.r + p.c) % 2 == 0 && (p.r < r || (p.r == r && p.c < c))
      {
        if board[r, c].state == Empty && (r + c) % 2 == 0 {
          targets := targets + [Pos(r, c)];
        }
      }
    }
  }

  /** The `while (!validMove)` retry loop: it ends on some open cell, any of them. */
  method AnyOpenCell(board: array2<Cell>) returns (p: Pos)
    requires IsGrid(board) && HasOpenCell(board)
    ensures IsOpen(board, p)
  {
    var r, c :| 0 <= r < GridSize && 0 <= c < GridSize && board[r, c].state == Empty;
    p := Pos(r, c);
  }

  /** The computer's choice of target, by difficulty. */
  method ChooseTarget(board: array2<Cell>, d: Difficulty, huntRoll: bool, parityRoll: bool, order: seq<Dir>)
    returns (target: Pos, how: Strategy)
    requires IsGrid(board) && IsShuffle(order) && HasOpenCell(board)
    ensures Policy(board, d, huntRoll, parityRoll, order, target, how)
  {
    if d == Easy {
      target := AnyOpenCell(board);
      how := Anywhere;
      return;
    }
    var hits := UnresolvedHits(board);
    assert |hits| > 0 <==> HasUnresolvedHit(board) by {
      if |hits| > 0 {
        assert hits[0] in hits;
      }
    }
    if |hits| > 0 && (d == Hard || huntRoll) {
      var hit :| hit in hits;
      var found := false;
      target := hit;
      var dir := Up;
      for i := 0 to |order|
        invariant !found
        invariant FirstOpen(board, hit, order) == FirstOpen(board, hit, order[i..])
      {
        var next := Step(hit, order[i]);
        assert order[i..][0] == order[i] && order[i..][1..] == order[i + 1..];
        if IsOpen(board, next) {
          target, dir, found := next, order[i], true;
          break;
        }
      }
      if found {
        how := Hunt(hit, dir);
      } else {
        target := AnyOpenCell(board);
        how := Stranded(hit);
      }
    } else {
      var picked := false;
      how := Anywhere;
      if d == Hard && parityRoll {
        var candidates := ParityTargets(board);
        if |candidates| > 0 {
          assert candidates[0] in candidates;
          target :| target in candidates;
          how := Checkerboard;
          picked := true;
        } else {
          assert !HasOpenParityCell(board);
        }
      }
      if !picked {
        target := AnyOpenCell(board);
      }
    }
  }

  /** Easy never fires at a cell it has fired at before. */
  lemma EasyFiresAtOpenCell(board: array2<Cell>, huntRoll: bool, parityRoll: bool, order: seq<Dir>, target: Pos, how: Strategy)
    requires IsGrid(board)
    requires Policy(board, Easy, huntRoll, parityRoll, order, target, how)
    ensures how == Anywhere && InBounds(target) && board[target.r, target.c].state == Empty
  {
  }

  /**
   * Hard, given an unresolved hit, fires next to one: at an open orthogonal
   * neighbour of an unresolved hit it picked, unless that hit has none.
   */
  lemma HardHuntsNextToHit(board: array2<Cell>, huntRoll: bool, parityRoll: bool, order: seq<Dir>, target: Pos, how: Strategy)
    requires IsGrid(board) && IsShuffle(order)
    requires Policy(board, Hard, huntRoll, parityRoll, order, target, how)
    requires HasUnresolvedHit(board)
    ensures how.Hunt? || how.Stranded?
    ensures IsUnresolvedHit(board, how.hit)
    ensures (exists q :: Adjacent(how.hit, q) && IsOpen(board, q)) ==> Adjacent(how.hit, target) && how.Hunt?
  {
    FirstOpenFindsAnyOpenNeighbour(board, how.hit, order);
  }

  /** A hard checkerboard pick lies on the even squares. */
  lemma CheckerboardIsEven(board: array2<Cell>, d: Difficulty, huntRoll: bool, parityRoll: bool, order: seq<Dir>, target: Pos)
    requires IsGrid(board)
    requires Policy(board, d, huntRoll, parityRoll, order, target, Checkerboard)
    ensures d == Hard && parityRoll && !HasUnresolvedHit(board) && (target.r + target.c) % 2 == 0
  {
  }
}
