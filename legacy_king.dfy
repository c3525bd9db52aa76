/**
  The older king of pieces/king.py.  Its step moves are unfiltered: any
  on-board neighbour that is empty or holds a piece of the other colour,
  the opposing king included.  Castling looks only at the corner rooks.
  `possible_moves` keeps a move when, on a copy of the position with the
  move applied, the piece on the move's end square is not attacked by any
  enemy move.

  The enemy pieces' moves (the opposing king's own `possible_moves` among
  them, which would recurse) are the parameter `gen`; `Board.update` is the
  parameter `update`.  Copies are value copies: the grid is a value.
*/
module LegacyKing {
  import opened Results
  import opened ChessCore

  /** The order in which `unfiltered` calls its nested `add`. */
  function StepOrder(): seq<Direction> {
    [Up, UpRight, UpLeft, Right, Down, DownRight, DownLeft, Left]
  }

  /**
    What one call of the nested `add` appends: at most one move, and one
    exactly when the target is on the board and empty or held by the other
    colour; a movement onto an empty square, a capture otherwise.
  */
  function AddStep(g: Grid, k: KingState, d: Direction): (r: seq<Move>)
    ensures |r| <= 1
    ensures |r| == 1 <==> var target := k.location.Shift(d);
              target.OnBoard() && (target !in g || g[target].color != k.color)
    ensures |r| == 1 ==>
              && r[0].end == k.location.Shift(d) && r[0].piece == k.AsPiece()
              && r[0].startRank == None && r[0].startFile == None
              && (r[0].status == Movement <==> r[0].end !in g)
              && (r[0].status == Capture <==> r[0].end in g)
  {
    var target := k.location.Shift(d);
    if target.Exit() != 0 then []
    else if IsSquareEmpty(g, target) then [Move(target, k.AsPiece(), Movement, None, None)]
    else if g[target].color != k.color then [Move(target, k.AsPiece(), Capture, None, None)]
    else []
  }

  function Steps(g: Grid, k: KingState, ds: seq<Direction>): seq<Move> {
    if ds == [] then [] else Steps(g, k, ds[..|ds| - 1]) + AddStep(g, k, ds[|ds| - 1])
  }

  lemma StepsSnoc(g: Grid, k: KingState, ds: seq<Direction>, j: nat)
    requires j < |ds|
    ensures Steps(g, k, ds[..j + 1]) == Steps(g, k, ds[..j]) + AddStep(g, k, ds[j])
  {
    assert ds[..j + 1][..j] == ds[..j];
  }

  lemma StepsNext(g: Grid, k: KingState, ds: seq<Direction>, j: nat, acc: seq<Move>)
    requires j < |ds| && Steps(g, k, ds[..j]) == acc
    ensures Steps(g, k, ds[..j + 1]) == acc + AddStep(g, k, ds[j])
  {
    StepsSnoc(g, k, ds, j);
  }

  /** `edge_rank`: the home rank of the king's colour. */
  function EdgeRank(c: Color): (r: int)
    ensures r == 0 <==> c == White
    ensures r == 7 <==> c == Black
  {
    match c
    case White => 0
    case Black => 7
  }

  /** The corner piece is non-None, equal to a Rook of the king's colour, and has not moved. */
  predicate CastleRook(k: KingState, p: Option<Piece>) {
    p.Some? && p.value.kind == Rook && p.value.color == k.color && !p.value.hasMoved
  }

  function Castles(g: Grid, k: KingState): seq<Move> {
    if k.hasMoved then []
    else
      var edge := EdgeRank(k.color);
      (if CastleRook(k, PieceAt(g, Location(edge, 7)))
       then [Move(Location(edge, k.location.file), k.AsPiece(), KingSideCastle, None, None)] else [])
      + (if CastleRook(k, PieceAt(g, Location(edge, 0)))
         then [Move(Location(edge, k.location.file), k.AsPiece(), QueenSideCastle, None, None)] else [])
  }

  function UnfilteredMoves(g: Grid, k: KingState): seq<Move> {
    Steps(g, k, StepOrder()) + Castles(g, k)
  }

  /** `unfiltered`: appends the step moves direction by direction, then the castling moves. */
  method Unfiltered(position: Grid, k: KingState) returns (moves: seq<Move>)
    ensures moves == UnfilteredMoves(position, k)
  {
    moves := AppendSteps(position, k);
    moves := AppendCastles(position, k, moves);
  }

  /** Eight directions unfold into eight appends, left to right. */
  lemma {:induction false} StepsOfEight(g: Grid, k: KingState, ds: seq<Direction>)
    requires |ds| == 8
    ensures Steps(g, k, ds) ==
              [] + AddStep(g, k, ds[0]) + AddStep(g, k, ds[1]) + AddStep(g, k, ds[2]) + AddStep(g, k, ds[3])
              + AddStep(g, k, ds[4]) + AddStep(g, k, ds[5]) + AddStep(g, k, ds[6]) + AddStep(g, k, ds[7])
  {
    assert ds[..0] == [];
    StepsNext(g, k, ds, 0, []);
    StepsNext(g, k, ds, 1, [] + AddStep(g, k, ds[0]));
    StepsNext(g, k, ds, 2, [] + AddStep(g, k, ds[0]) + AddStep(g, k, ds[1]));
    StepsNext(g, k, ds, 3, [] + AddStep(g, k, ds[0]) + AddStep(g, k, ds[1]) + AddStep(g, k, ds[2]));
    StepsNext(g, k, ds, 4, [] + AddStep(g, k, ds[0]) + AddStep(g, k, ds[1]) + AddStep(g, k, ds[2]) + AddStep(g, k, ds[3]));
    StepsNext(g, k, ds, 5, [] + AddStep(g, k, ds[0]) + AddStep(g, k, ds[1]) + AddStep(g, k, ds[2]) + AddStep(g, k, ds[3]) + AddStep(g, k, ds[4]));
    StepsNext(g, k, ds, 6, [] + AddStep(g, k, ds[0]) + AddStep(g, k, ds[1]) + AddStep(g, k, ds[2]) + AddStep(g, k, ds[3]) + AddStep(g, k, ds[4]) + AddStep(g, k, ds[5]));
    StepsNext(g, k, ds, 7, [] + AddStep(g, k, ds[0]) + AddStep(g, k, ds[1]) + AddStep(g, k, ds[2]) + AddStep(g, k, ds[3]) + AddStep(g, k, ds[4]) + AddStep(g, k, ds[5]) + AddStep(g, k, ds[6]));
    assert ds[..8] == ds;
  }

  /** The eight calls of the nested `add`, in source order. */
  method AppendSteps(position: Grid, k: KingState) returns (moves: seq<Move>)
    ensures moves == Steps(position, k, StepOrder())
  {
    moves := [];
    moves := moves + AddStep(position, k, Up);
    moves := moves + AddStep(position, k, UpRight);
    moves := moves + AddStep(position, k, UpLeft);
    moves := moves + AddStep(position, k, Right);
    moves := moves + AddStep(position, k, Down);
    moves := moves + AddStep(position, k, DownRight);
    moves := moves + AddStep(position, k, DownLeft);
    moves := moves + AddStep(position, k, Left);
    StepsOfEight(position, k, StepOrder());
  }

  /** The castling part of `unfiltered`: the corner rooks on the king's home rank. */
  method AppendCastles(position: Grid, k: KingState, steps: seq<Move>) returns (moves: seq<Move>)
    ensures moves == steps + Castles(position, k)
  {
    moves := steps;
    if !k.hasMoved {
      var edge := EdgeRank(k.color);
      var corner := PieceAt(position, Location(edge, 7));
      if corner.Some? && corner.value.kind == Rook && corner.value.color == k.color && !corner.value.hasMoved {
        moves := moves + [Move(Location(edge, k.location.file), k.AsPiece(), KingSideCastle, None, None)];
      }
      corner := PieceAt(position, Location(edge, 0));
      if corner.Some? && corner.value.kind == Rook && corner.value.color == k.color && !corner.value.hasMoved {
        moves := moves + [Move(Location(edge, k.location.file), k.AsPiece(), QueenSideCastle, None, None)];
      }
    }
  }

  lemma {:induction false} StepsMember(g: Grid, k: KingState, ds: seq<Direction>, m: Move)
    ensures m in Steps(g, k, ds) <==> exists i :: 0 <= i < |ds| && m in AddStep(g, k, ds[i])
  {
    if ds != [] {
      var front := ds[..|ds| - 1];
      StepsMember(g, k, front, m);
      if m in Steps(g, k, ds) && m !in AddStep(g, k, ds[|ds| - 1]) {
        var i :| 0 <= i < |front| && m in AddStep(g, k, front[i]);
        assert ds[i] == front[i];
      }
      if exists i :: 0 <= i < |ds| && m in AddStep(g, k, ds[i]) {
        var i :| 0 <= i < |ds| && m in AddStep(g, k, ds[i]);
        if i < |front| {
          assert front[i] == ds[i];
        }
      }
    }
  }

  /** The step moves are exactly: to every touching on-board square, a move if it is empty, a capture if it holds any piece of the other colour. */
  lemma StepsExact(g: Grid, k: KingState, m: Move)
    ensures m in Steps(g, k, StepOrder()) <==>
              && m.end.OnBoard() && Touching(k.location, m.end)
              && m.piece == k.AsPiece() && m.startRank == None && m.startFile == None
              && (|| (m.status == Movement && IsSquareEmpty(g, m.end))
                  || (m.status == Capture && m.end in g && g[m.end].color != k.color))
  {
    StepsMember(g, k, StepOrder(), m);
    TouchingIffShift(k.location, m.end);
    assert forall d :: d in CardinalDirections() <==> d in StepOrder();
    if m in Steps(g, k, StepOrder()) {
      var i :| 0 <= i < 8 && m in AddStep(g, k, StepOrder()[i]);
      assert StepOrder()[i] in CardinalDirections();
    }
    if m.end.OnBoard() && Touching(k.location, m.end) {
      var d :| d in CardinalDirections() && k.location.Shift(d) == m.end;
      var i :| 0 <= i < 8 && StepOrder()[i] == d;
    }
  }

  /**
    A castling move of each side is offered exactly when the king has not
    moved and an unmoved rook of its colour stands in that corner of the
    colour's edge rank; both end on the edge rank at the king's own file.
  */
  lemma CastlesExact(g: Grid, k: KingState)
    ensures var edge := EdgeRank(k.color);
            && (Move(Location(edge, k.location.file), k.AsPiece(), KingSideCastle, None, None) in Castles(g, k) <==>
                  !k.hasMoved && CastleRook(k, PieceAt(g, Location(edge, 7))))
            && (Move(Location(edge, k.location.file), k.AsPiece(), QueenSideCastle, None, None) in Castles(g, k) <==>
                  !k.hasMoved && CastleRook(k, PieceAt(g, Location(edge, 0))))
            && (forall m | m in Castles(g, k) ::
                  && m.end == Location(edge, k.location.file)
                  && (m.status == KingSideCastle || m.status == QueenSideCastle))
  {
  }

  /** The square the n-th cell of the row-then-column scan stands for. */
  function SquareAt(n: nat): Location {
    Location(n / 8, n % 8)
  }

  /** The moves an enemy piece on loc contributes to `enemy_moves`. */
  function EnemyMovesAt(g: Grid, c: Color, gen: MoveGen, loc: Location): seq<Move> {
    if loc in g && g[loc].color != c then gen(g, loc) else []
  }

  /** The enemy moves gathered from the first n cells of the scan. */
  function ScanMoves(g: Grid, c: Color, gen: MoveGen, n: nat): seq<Move> {
    if n == 0 then [] else ScanMoves(g, c, gen, n - 1) + EnemyMovesAt(g, c, gen, SquareAt(n - 1))
  }

  /** `enemy_moves`: extends the list with every enemy piece's moves, row by row. */
  method EnemyMoves(k: KingState, position: Grid, gen: MoveGen) returns (moves: seq<Move>)
    ensures moves == ScanMoves(position, k.color, gen, 64)
  {
    moves := [];
    for row := 0 to 8
      invariant moves == ScanMoves(position, k.color, gen, 8 * row)
    {
      for column := 0 to 8
        invariant moves == ScanMoves(position, k.color, gen, 8 * row + column)
      {
        assert SquareAt(8 * row + column) == Location(row, column);
        var loc := Location(row, column);
        if loc in position && position[loc].color != k.color {
          moves := moves + gen(position, loc);
        }
      }
    }
  }

  lemma {:induction false} ScanMember(g: Grid, c: Color, gen: MoveGen, n: nat, m: Move)
    ensures m in ScanMoves(g, c, gen, n) <==> exists i :: 0 <= i < n && m in EnemyMovesAt(g, c, gen, SquareAt(i))
  {
    if n > 0 {
      ScanMember(g, c, gen, n - 1, m);
    }
  }

  /** A move is among `enemy_moves` exactly when some enemy piece on the board generates it. */
  lemma EnemyMovesMember(g: Grid, c: Color, gen: MoveGen, m: Move)
    ensures m in ScanMoves(g, c, gen, 64) <==>
              exists sq | sq in g :: sq.OnBoard() && g[sq].color != c && m in gen(g, sq)
  {
    ScanMember(g, c, gen, 64, m);
    if m in ScanMoves(g, c, gen, 64) {
      var i :| 0 <= i < 64 && m in EnemyMovesAt(g, c, gen, SquareAt(i));
      assert SquareAt(i).OnBoard();
    }
    if exists sq | sq in g :: sq.OnBoard() && g[sq].color != c && m in gen(g, sq) {
      var sq :| sq in g && sq.OnBoard() && g[sq].color != c && m in gen(g, sq);
      var i := 8 * sq.rank + sq.file;
      assert SquareAt(i) == sq;
    }
  }

  /** Some enemy piece has a move ending on loc. */
  predicate Attacked(g: Grid, c: Color, loc: Location, gen: MoveGen) {
    exists sq | sq in g :: sq.OnBoard() && g[sq].color != c && exists m | m in gen(g, sq) :: m.end == loc
  }

  /** `in_check`: some enemy move ends on the king's location. */
  method InCheck(k: KingState, position: Grid, gen: MoveGen) returns (b: bool)
    ensures b == Attacked(position, k.color, k.location, gen)
  {
    var moves := EnemyMoves(k, position, gen);
    for i := 0 to |moves|
      invariant forall j | 0 <= j < i :: moves[j].end != k.location
    {
      if moves[i].end == k.location {
        EnemyMovesMember(position, k.color, gen, moves[i]);
        return true;
      }
    }
    forall sq, m | sq in position && sq.OnBoard() && position[sq].color != k.color && m in gen(position, sq)
      ensures m.end != k.location
    {
      EnemyMovesMember(position, k.color, gen, m);
    }
    return false;
  }

  /**
    What `possible_moves` decides for one move: on the position with the move
    applied, the piece on the end square must not be attacked; no piece there
    raises AttributeError.
  */
  function Verdict(g: Grid, m: Move, gen: MoveGen, update: (Grid, Move) -> Grid): (r: Result<bool, PyError>)
    ensures r.Failure? <==> m.end !in update(g, m)
    ensures r.Failure? ==> r.error == AttributeError
    ensures r == Success(true) <==>
              m.end in update(g, m) && !Attacked(update(g, m), update(g, m)[m.end].color, m.end, gen)
  {
    var test := update(g, m);
    match PieceAt(test, m.end)
    case None => Failure(AttributeError)
    case Some(p) => Success(!Attacked(test, p.color, m.end, gen))
  }

  /** The moves of ms the filter keeps, in order, or the exception it raises. */
  function Filter(g: Grid, ms: seq<Move>, gen: MoveGen, update: (Grid, Move) -> Grid): (r: Result<seq<Move>, PyError>)
    ensures r.Failure? ==> r.error == AttributeError
  {
    if ms == [] then Success([])
    else
      match Filter(g, ms[..|ms| - 1], gen, update)
      case Failure(e) => Failure(e)
      case Success(kept) =>
        match Verdict(g, ms[|ms| - 1], gen, update)
        case Failure(e) => Failure(e)
        case Success(keep) => Success(if keep then kept + [ms[|ms| - 1]] else kept)
  }

  lemma {:induction false} FilterFailurePersists(g: Grid, ms: seq<Move>, n: nat, gen: MoveGen, update: (Grid, Move) -> Grid)
    requires n <= |ms|
    requires Filter(g, ms[..n], gen, update).Failure?
    ensures Filter(g, ms, gen, update).Failure?
    decreases |ms| - n
  {
    if n < |ms| {
      assert ms[..n + 1][..n] == ms[..n];
      FilterFailurePersists(g, ms, n + 1, gen, update);
    } else {
      assert ms[..n] == ms;
    }
  }

  /**
    The filter succeeds exactly when every move can be judged; then it keeps
    a move exactly when, after the move, the piece on its end square is not
    attacked, and drops it exactly when that piece is attacked.
  */
  lemma {:induction false} FilterExact(g: Grid, ms: seq<Move>, gen: MoveGen, update: (Grid, Move) -> Grid)
    ensures Filter(g, ms, gen, update).Success? <==> forall m | m in ms :: Verdict(g, m, gen, update).Success?
    ensures Filter(g, ms, gen, update).Success? ==>
              forall m :: m in Filter(g, ms, gen, update).value <==> m in ms && Verdict(g, m, gen, update) == Success(true)
  {
    if ms != [] {
      var front, last := ms[..|ms| - 1], ms[|ms| - 1];
      assert ms == front + [last];
      FilterExact(g, front, gen, update);
    }
  }

  /** `possible_moves`: tries each unfiltered move on a copy of the position and keeps those that leave the king unattacked. */
  method PossibleMoves(k: KingState, position: Grid, gen: MoveGen, update: (Grid, Move) -> Grid)
    returns (r: Result<seq<Move>, PyError>)
    ensures r == Filter(position, UnfilteredMoves(position, k), gen, update)
  {
    var unfiltered := Unfiltered(position, k);
    var filtered := [];
    for i := 0 to |unfiltered|
      invariant Filter(position, unfiltered[..i], gen, update) == Success(filtered)
    {
      var move := unfiltered[i];
      assert unfiltered[..i + 1][..i] == unfiltered[..i] && unfiltered[..i + 1][i] == move;
      var test := update(position, move);
      var testKing := PieceAt(test, move.end);
      if testKing.None? {
        FilterFailurePersists(position, unfiltered, i + 1, gen, update);
        return Failure(AttributeError);
      }
      var inCheck := InCheck(KingState(testKing.value.color, move.end, testKing.value.hasMoved), test, gen);
      if !inCheck {
        filtered := filtered + [move];
      }
    }
    assert unfiltered[..|unfiltered|] == unfiltered;
    r := Success(filtered);
  }
}
