/**
  The board-level vocabulary the king and the notation decoder rely on:
  colours, piece kinds, locations with their on-board flag, the eight
  one-square shifts, move descriptors and the 8x8 grid of optional pieces.
  Board, Location, Move and Piece are collaborators of the modelled code;
  only the behaviour the modelled code uses is given here.
*/
module ChessCore {
  import opened Results

  datatype Color = White | Black

  datatype Kind = Pawn | Knight | Bishop | Rook | Queen | King

  /** A piece as the board stores it; its location is the square it stands on. */
  datatype Piece = Piece(color: Color, kind: Kind, hasMoved: bool)

  datatype Direction = Up | Down | Left | Right | UpRight | UpLeft | DownRight | DownLeft

  /** A (rank, file) pair; off-board pairs are representable and carry exit 1. */
  datatype Location = Location(rank: int, file: int) {

    predicate OnBoard() {
      0 <= rank < 8 && 0 <= file < 8
    }

    /** The location's exit flag: 0 on the board, 1 off it. */
    function Exit(): (e: int)
      ensures e == 0 <==> OnBoard()
    {
      if OnBoard() then 0 else 1
    }

    /** One step in a direction; "up" raises the rank, "right" raises the file. */
    function Shift(d: Direction): Location {
      match d
      case Up => Location(rank + 1, file)
      case Down => Location(rank - 1, file)
      case Right => Location(rank, file + 1)
      case Left => Location(rank, file - 1)
      case UpRight => Location(rank + 1, file + 1)
      case UpLeft => Location(rank + 1, file - 1)
      case DownRight => Location(rank - 1, file + 1)
      case DownLeft => Location(rank - 1, file - 1)
    }
  }

  datatype Status = Movement | Capture | Promote | KingSideCastle | QueenSideCastle | NotImplemented

  /** A move descriptor: end square, moving piece, status and optional start coordinates. */
  datatype Move = Move(end: Location, piece: Piece, status: Status, startRank: Option<int>, startFile: Option<int>)

  /** The grid: a square absent from the map is empty. */
  type Grid = map<Location, Piece>

  /** The possible moves of the piece standing on a square (pieces other than the king are not modelled). */
  type MoveGen = (Grid, Location) -> seq<Move>

  function PieceAt(g: Grid, loc: Location): Option<Piece> {
    if loc in g then Some(g[loc]) else None
  }

  predicate IsSquareEmpty(g: Grid, loc: Location) {
    loc !in g
  }

  /** The fields of a King object: its colour, its location and whether it has moved. */
  datatype KingState = KingState(color: Color, location: Location, hasMoved: bool) {
    function AsPiece(): Piece {
      Piece(color, King, hasMoved)
    }
  }

  function Abs(x: int): int {
    if x < 0 then -x else x
  }

  /** Two different squares at most one rank and one file apart. */
  predicate Touching(a: Location, b: Location) {
    a != b && Abs(a.rank - b.rank) <= 1 && Abs(a.file - b.file) <= 1
  }

  /** The eight one-step directions, in the order the current King tries them. */
  function CardinalDirections(): seq<Direction> {
    [Up, Right, Down, Left, UpRight, UpLeft, DownRight, DownLeft]
  }

  /** Every one-step shift lands on a touching square, and every touching square is one shift away. */
  lemma {:induction false} TouchingIffShift(a: Location, b: Location)
    ensures Touching(a, b) <==> exists d :: d in CardinalDirections() && a.Shift(d) == b
  {
    if Touching(a, b) {
      var dr, df := b.rank - a.rank, b.file - a.file;
      var d :=
        if dr == 1 && df == 0 then Up
        else if dr == -1 && df == 0 then Down
        else if dr == 0 && df == 1 then Right
        else if dr == 0 && df == -1 then Left
        else if dr == 1 && df == 1 then UpRight
        else if dr == 1 && df == -1 then UpLeft
        else if dr == -1 && df == 1 then DownRight
        else DownLeft;
      assert d in CardinalDirections() && a.Shift(d) == b;
    }
    if exists d :: d in CardinalDirections() && a.Shift(d) == b {
      var d :| d in CardinalDirections() && a.Shift(d) == b;
      assert Touching(a, b);
    }
  }

  /** The board: the grid the king's castling test places and removes pieces on. */
  class Board {
    var grid: Grid

    constructor (g: Grid)
      ensures grid == g
    {
      grid := g;
    }

    method PlacePieceAtSquare(p: Piece, loc: Location)
      modifies this
      ensures grid == old(grid)[loc := p]
    {
      grid := grid[loc := p];
    }

    method RemovePieceAtSquare(loc: Location)
      modifies this
      ensures grid == old(grid) - {loc}
    {
      grid := grid - {loc};
    }
  }
}
