/**
 * The 10x10 grid of the game: cells, coordinates, and the footprint that a
 * ship covers when it is put down at (row, col) in an orientation.
 */
module Board {
  import opened Wrappers

  const GridSize := 10

  /** The reveal state of a cell (the `state` field of a cell in the game). */
  datatype Shot = Empty | Hit | Miss

  /** A cell: its reveal state, the id of the ship on it (if any) and whether that ship is sunk. */
  datatype Cell = Cell(state: Shot, shipId: Option<int>, sunk: bool)

  datatype Orientation = Horizontal | Vertical

  datatype Pos = Pos(r: int, c: int)

  /** The cell of a freshly generated board: `{ state: "empty" }`. */
  const EmptyCell := Cell(Empty, None, false)

  /** The cell a placed ship writes: `{ state: "empty", shipId }`. */
  function ShipCell(id: int): Cell {
    Cell(Empty, Some(id), false)
  }

  predicate InBounds(p: Pos) {
    0 <= p.r < GridSize && 0 <= p.c < GridSize
  }

  predicate IsGrid(b: array2<Cell>) {
    b.Length0 == GridSize && b.Length1 == GridSize
  }

  /** Every cell of the board is a fresh empty cell. */
  ghost predicate AllEmpty(b: array2<Cell>)
    reads b
    requires IsGrid(b)
  {
    forall r, c :: 0 <= r < GridSize && 0 <= c < GridSize ==> b[r, c] == EmptyCell
  }

  /**
   * The game tests `cell.shipId` for truthiness, so an absent id and the
   * id 0 both read as "no ship here".
   */
  predicate Occupied(cell: Cell) {
    cell.shipId.Some? && cell.shipId.value != 0
  }

  /** The i-th cell of a ship placed at (row, col). */
  function CellAt(row: int, col: int, o: Orientation, i: int): Pos {
    if o == Horizontal then Pos(row, col + i) else Pos(row + i, col)
  }

  /** The cell p is one of the first `size` cells of a ship placed at (row, col). */
  predicate Covers(row: int, col: int, size: int, o: Orientation, p: Pos) {
    if o == Horizontal then p.r == row && col <= p.c < col + size
    else p.c == col && row <= p.r < row + size
  }

  /** The set of cells a ship of the given size covers. */
  function Footprint(row: int, col: int, size: nat, o: Orientation): set<Pos> {
    set i | 0 <= i < size :: CellAt(row, col, o, i)
  }

  /** The footprint is exactly the cells the arithmetic test `Covers` accepts. */
  lemma CoversIsFootprint(row: int, col: int, size: nat, o: Orientation, p: Pos)
    ensures Covers(row, col, size, o, p) <==> p in Footprint(row, col, size, o)
  {
    if Covers(row, col, size, o, p) {
      var i := if o == Horizontal then p.c - col else p.r - row;
      assert CellAt(row, col, o, i) == p;
    }
  }

  /** A ship of size n always covers n distinct cells: no two of its cells coincide. */
  lemma {:induction false} FootprintSize(row: int, col: int, size: nat, o: Orientation)
    ensures |Footprint(row, col, size, o)| == size
  {
    if size > 0 {
      var smaller := Footprint(row, col, size - 1, o);
      var last := CellAt(row, col, o, size - 1);
      FootprintSize(row, col, size - 1, o);
      assert Footprint(row, col, size, o) == smaller + {last};
      assert last !in smaller by {
        forall i | 0 <= i < size - 1
          ensures CellAt(row, col, o, i) != last
        {
        }
      }
    }
  }

  /**
   * The placement check of the game's utility library, which is not part of
   * this model: every one of the `size` cells is on the grid and carries no ship.
   */
  predicate ValidPlacement(board: array2<Cell>, row: int, col: int, size: nat, o: Orientation)
    reads board
    requires IsGrid(board)
  {
    forall i :: 0 <= i < size ==>
      InBounds(CellAt(row, col, o, i)) && !Occupied(board[CellAt(row, col, o, i).r, CellAt(row, col, o, i).c])
  }

  /** A valid placement covers only free cells on the grid. */
  lemma ValidPlacementCovers(board: array2<Cell>, row: int, col: int, size: nat, o: Orientation, p: Pos)
    requires IsGrid(board)
    requires ValidPlacement(board, row, col, size, o)
    requires Covers(row, col, size, o, p)
    ensures InBounds(p) && !Occupied(board[p.r, p.c])
  {
    var i := if o == Horizontal then p.c - col else p.r - row;
    assert CellAt(row, col, o, i) == p;
  }
}
