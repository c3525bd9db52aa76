/**
  The king of chess_py/pieces/king.py: one-step moves that never touch the
  opposing king, a check test that measures the distance to the opposing
  king instead of generating that king's moves (which would recurse without
  end), and castling under the conditions of Article 3.8.2 of the FIDE Laws
  of Chess, where each square on the king's path is probed by placing a
  phantom king on it, asking whether that king is in check, and removing it.

  The possible moves of pieces other than kings are not part of this model;
  every operation that needs them takes them as a parameter `gen`.
*/
module ChessPyKing {
  import opened Results
  import opened ChessCore

  /** An opposing king stands on an on-board square touching loc. */
  predicate AdjacentToOpponentKing(g: Grid, color: Color, loc: Location) {
    exists sq | sq in g :: sq.OnBoard() && Touching(loc, sq) && g[sq].kind == King && g[sq].color != color
  }

  predicate OpponentKingAt(g: Grid, color: Color, loc: Location) {
    loc.OnBoard() && loc in g && g[loc].kind == King && g[loc].color != color
  }

  /** `loc_adjacent_to_opponent_king`: tries the eight neighbours of location in turn. */
  method LocAdjacentToOpponentKing(k: KingState, location: Location, position: Board) returns (b: bool)
    ensures b == AdjacentToOpponentKing(position.grid, k.color, location)
  {
    var g := position.grid;
    var directions := CardinalDirections();
    for i := 0 to |directions|
      invariant forall j | 0 <= j < i :: !OpponentKingAt(g, k.color, location.Shift(directions[j]))
    {
      var n := location.Shift(directions[i]);
      if n.OnBoard() && n in g && g[n].kind == King && g[n].color != k.color {
        TouchingIffShift(location, n);
        return true;
      }
    }
    forall sq | sq in g && sq.OnBoard() && Touching(location, sq)
      ensures !(g[sq].kind == King && g[sq].color != k.color)
    {
      TouchingIffShift(location, sq);
    }
    return false;
  }

  /** A move of the king to target, carrying the king's square as its start. */
  function StepMove(k: KingState, target: Location, status: Status): Move {
    Move(target, k.AsPiece(), status, Some(k.location.rank), Some(k.location.file))
  }

  /** `add`: the moves one direction yields, at most one of them. */
  function Add(k: KingState, d: Direction, g: Grid): (r: seq<Move>)
    ensures |r| <= 1
    ensures forall m | m in r ::
              && m.end == k.location.Shift(d) && m.end.OnBoard()
              && !AdjacentToOpponentKing(g, k.color, m.end)
              && m == StepMove(k, m.end, m.status)
              && (|| (m.status == Movement && IsSquareEmpty(g, m.end))
                  || (m.status == Capture && m.end in g && g[m.end].color != k.color && g[m.end].kind != King))
  {
    var target := k.location.Shift(d);
    if !target.OnBoard() then []
    else
      var adjacent := AdjacentToOpponentKing(g, k.color, target);
      (if IsSquareEmpty(g, target) && !adjacent then [StepMove(k, target, Movement)] else [])
      + (if !IsSquareEmpty(g, target) && g[target].color != k.color && g[target].kind != King && !adjacent
         then [StepMove(k, target, Capture)] else [])
  }

  /** The moves `add` yields for each direction of ds, chained in order. */
  function StepsAlong(g: Grid, k: KingState, ds: seq<Direction>): seq<Move> {
    if ds == [] then [] else StepsAlong(g, k, ds[..|ds| - 1]) + Add(k, ds[|ds| - 1], g)
  }

  function StepMoves(g: Grid, k: KingState): seq<Move> {
    StepsAlong(g, k, CardinalDirections())
  }

  lemma {:induction false} StepsAlongMember(g: Grid, k: KingState, ds: seq<Direction>, m: Move)
    ensures m in StepsAlong(g, k, ds) <==> exists i :: 0 <= i < |ds| && m in Add(k, ds[i], g)
    ensures |StepsAlong(g, k, ds)| <= |ds|
  {
    if ds != [] {
      var front := ds[..|ds| - 1];
      StepsAlongMember(g, k, front, m);
      if m in StepsAlong(g, k, ds) {
        if m !in Add(k, ds[|ds| - 1], g) {
          var i :| 0 <= i < |front| && m in Add(k, front[i], g);
          assert ds[i] == front[i];
        }
      }
      if exists i :: 0 <= i < |ds| && m in Add(k, ds[i], g) {
        var i :| 0 <= i < |ds| && m in Add(k, ds[i], g);
        if i < |front| {
          assert front[i] == ds[i];
        }
      }
    }
  }

  /**
    Every step move goes to a touching on-board square that does not touch the
    opposing king, and either moves to an empty square or captures a piece of
    the other colour that is not a king.
  */
  lemma StepMovesSound(g: Grid, k: KingState, m: Move)
    requires m in StepMoves(g, k)
    ensures Touching(k.location, m.end) && m.end.OnBoard()
    ensures !AdjacentToOpponentKing(g, k.color, m.end)
    ensures m == StepMove(k, m.end, m.status)
    ensures || (m.status == Movement && IsSquareEmpty(g, m.end))
            || (m.status == Capture && m.end in g && g[m.end].color != k.color && g[m.end].kind != King)
  {
    StepsAlongMember(g, k, CardinalDirections(), m);
    var i :| 0 <= i < 8 && m in Add(k, CardinalDirections()[i], g);
    TouchingIffShift(k.location, m.end);
  }

  /** Every touching on-board square that does not touch the opposing king is reached, by a move or a capture. */
  lemma StepMovesComplete(g: Grid, k: KingState, target: Location)
    requires target.OnBoard() && Touching(k.location, target)
    requires !AdjacentToOpponentKing(g, k.color, target)
    ensures IsSquareEmpty(g, target) ==> StepMove(k, target, Movement) in StepMoves(g, k)
    ensures target in g && g[target].color != k.color && g[target].kind != King ==>
              StepMove(k, target, Capture) in StepMoves(g, k)
  {
    TouchingIffShift(k.location, target);
    var d :| d in CardinalDirections() && k.location.Shift(d) == target;
    var i :| 0 <= i < 8 && CardinalDirections()[i] == d;
    StepsAlongMember(g, k, CardinalDirections(), StepMove(k, target, Movement));
    StepsAlongMember(g, k, CardinalDirections(), StepMove(k, target, Capture));
  }

  lemma StepMovesCount(g: Grid, k: KingState)
    ensures |StepMoves(g, k)| <= 8
  {
    var m :| true;
    StepsAlongMember(g, k, CardinalDirections(), m);
  }

  /** The piece on sq is an enemy that attacks the king, as `in_check` judges it. */
  predicate Threatens(g: Grid, k: KingState, gen: MoveGen, sq: Location) {
    && sq in g
    && g[sq].color != k.color
    && if g[sq].kind == King then Abs(sq.file - k.location.file) <= 1 && Abs(sq.rank - k.location.rank) <= 1
       else exists m | m in gen(g, sq) :: m.end == k.location
  }

  /** `in_check`: some enemy piece on the board threatens the king. */
  predicate InCheckSpec(g: Grid, k: KingState, gen: MoveGen) {
    exists sq | sq in g :: sq.OnBoard() && Threatens(g, k, gen, sq)
  }

  /** `in_check`: scans the board; an enemy king is judged by distance and never asked for its moves. */
  method InCheck(k: KingState, position: Board, gen: MoveGen) returns (b: bool)
    ensures b == InCheckSpec(position.grid, k, gen)
  {
    var g := position.grid;
    for rank := 0 to 8
      invariant forall sq | sq in g && sq.OnBoard() && sq.rank < rank :: !Threatens(g, k, gen, sq)
    {
      for file := 0 to 8
        invariant forall sq | sq in g && sq.OnBoard() && (sq.rank < rank || (sq.rank == rank && sq.file < file)) ::
                    !Threatens(g, k, gen, sq)
      {
        var sq := Location(rank, file);
        if sq in g && g[sq].color != k.color {
          if g[sq].kind == King {
            var x := Abs(sq.file - k.location.file);
            var y := Abs(sq.rank - k.location.rank);
            if x <= 1 && y <= 1 {
              return true;
            }
          } else {
            var moves := gen(g, sq);
            for i := 0 to |moves|
              invariant forall j | 0 <= j < i :: moves[j].end != k.location
            {
              if moves[i].end == k.location {
                return true;
              }
            }
          }
        }
      }
    }
    return false;
  }

  /** The check test never consults the move generator on a king's square. */
  lemma InCheckIgnoresKingMoves(g: Grid, k: KingState, gen1: MoveGen, gen2: MoveGen)
    requires forall sq | sq in g && g[sq].kind != King :: gen1(g, sq) == gen2(g, sq)
    ensures InCheckSpec(g, k, gen1) == InCheckSpec(g, k, gen2)
  {
    assert forall sq | sq in g :: Threatens(g, k, gen1, sq) == Threatens(g, k, gen2, sq);
  }

  /** An enemy king within one rank and one file always gives check. */
  lemma NearbyEnemyKingChecks(g: Grid, k: KingState, gen: MoveGen, sq: Location)
    requires sq in g && sq.OnBoard() && g[sq].kind == King && g[sq].color != k.color
    requires Abs(sq.file - k.location.file) <= 1 && Abs(sq.rank - k.location.rank) <= 1
    ensures InCheckSpec(g, k, gen)
  {
    assert Threatens(g, k, gen, sq);
  }

  /** `rook_legal_for_castle`: the square holds an unmoved rook of the king's colour. */
  predicate RookLegalForCastle(k: KingState, rook: Option<Piece>): (b: bool)
    ensures b <==> rook == Some(Piece(k.color, Rook, false))
  {
    rook.Some? && rook.value.kind == Rook && rook.value.color == k.color && !rook.value.hasMoved
  }

  /** The square i steps from loc in direction d. */
  function Walk(loc: Location, d: Direction, i: nat): Location {
    if i == 0 then loc else Walk(loc, d, i - 1).Shift(d)
  }

  /** The phantom king `square_empty_and_not_in_check` places on a square. */
  function Phantom(k: KingState, loc: Location): KingState {
    KingState(k.color, loc, false)
  }

  /** The square is empty, and a king of the mover's colour placed there would not be in check. */
  predicate SquareSafe(g: Grid, k: KingState, loc: Location, gen: MoveGen) {
    IsSquareEmpty(g, loc) && !InCheckSpec(g[loc := Phantom(k, loc).AsPiece()], Phantom(k, loc), gen)
  }

  predicate PathSafe(g: Grid, k: KingState, d: Direction, n: nat, gen: MoveGen) {
    forall i | 1 <= i <= n :: SquareSafe(g, k, Walk(k.location, d, i), gen)
  }

  /**
    `square_empty_and_not_in_check`: walks `times` squares from the king,
    stopping at the first occupied or attacked one; every phantom king is
    removed again, so the grid is the same on return.
  */
  method SquareEmptyAndNotInCheck(k: KingState, position: Board, direction: Direction, times: nat, gen: MoveGen)
    returns (ok: bool)
    modifies position
    ensures position.grid == old(position.grid)
    ensures ok == PathSafe(old(position.grid), k, direction, times, gen)
  {
    ghost var g := position.grid;
    var location := k.location.Shift(direction);
    for i := 0 to times
      invariant position.grid == g
      invariant location == Walk(k.location, direction, i + 1)
      invariant forall j | 1 <= j <= i :: SquareSafe(g, k, Walk(k.location, direction, j), gen)
    {
      if !IsSquareEmpty(position.grid, location) {
        return false;
      }
      var phantom := Phantom(k, location);
      position.PlacePieceAtSquare(phantom.AsPiece(), location);
      assert position.grid == g[location := phantom.AsPiece()];
      var inCheck := InCheck(phantom, position, gen);
      position.RemovePieceAtSquare(location);
      assert position.grid == g;
      if inCheck {
        return false;
      }
      location := location.Shift(direction);
    }
    return true;
  }

  function KingSideCastleMove(k: KingState): Move {
    Move(k.location.Shift(Right).Shift(Right), k.AsPiece(), KingSideCastle, Some(k.location.rank), Some(k.location.file))
  }

  function QueenSideCastleMove(k: KingState): Move {
    Move(k.location.Shift(Left).Shift(Left), k.AsPiece(), QueenSideCastle, Some(k.location.rank), Some(k.location.file))
  }

  /** The castling moves `add_castle` returns. */
  function CastleMoves(g: Grid, k: KingState, gen: MoveGen): seq<Move> {
    if k.hasMoved || InCheckSpec(g, k, gen) then []
    else
      (if RookLegalForCastle(k, PieceAt(g, Location(k.location.rank, 7))) && PathSafe(g, k, Right, 2, gen)
       then [KingSideCastleMove(k)] else [])
      + (if RookLegalForCastle(k, PieceAt(g, Location(k.location.rank, 0))) && PathSafe(g, k, Left, 3, gen)
         then [QueenSideCastleMove(k)] else [])
  }

  /** `add_castle`: builds the list of castling moves; the board is left as it was. */
  method AddCastle(k: KingState, position: Board, gen: MoveGen) returns (moves: seq<Move>)
    modifies position
    ensures position.grid == old(position.grid)
    ensures moves == CastleMoves(old(position.grid), k, gen)
  {
    if k.hasMoved {
      return [];
    }
    var inCheck := InCheck(k, position, gen);
    if inCheck {
      return [];
    }
    moves := [];
    var rook := PieceAt(position.grid, Location(k.location.rank, 7));
    if RookLegalForCastle(k, rook) {
      var clear := SquareEmptyAndNotInCheck(k, position, Right, 2, gen);
      if clear {
        moves := moves + [KingSideCastleMove(k)];
      }
    }
    rook := PieceAt(position.grid, Location(k.location.rank, 0));
    if RookLegalForCastle(k, rook) {
      var clear := SquareEmptyAndNotInCheck(k, position, Left, 3, gen);
      if clear {
        moves := moves + [QueenSideCastleMove(k)];
      }
    }
  }

  /**
    King-side castling is offered exactly when the king has not moved and is
    not in check, an unmoved rook of its colour stands on file 7 of its rank,
    and the two squares to its right are empty and not attacked.
  */
  lemma KingSideCastleIff(g: Grid, k: KingState, gen: MoveGen)
    ensures KingSideCastleMove(k) in CastleMoves(g, k, gen) <==>
              && !k.hasMoved
              && !InCheckSpec(g, k, gen)
              && RookLegalForCastle(k, PieceAt(g, Location(k.location.rank, 7)))
              && SquareSafe(g, k, Location(k.location.rank, k.location.file + 1), gen)
              && SquareSafe(g, k, Location(k.location.rank, k.location.file + 2), gen)
  {
    var l := k.location;
    assert Walk(l, Right, 1) == Location(l.rank, l.file + 1);
    assert Walk(l, Right, 2) == Location(l.rank, l.file + 2);
    assert KingSideCastleMove(k) != QueenSideCastleMove(k);
  }

  /**
    Queen-side castling is offered exactly when the king has not moved and is
    not in check, an unmoved rook of its colour stands on file 0 of its rank,
    and the three squares to its left are empty and not attacked (the third
    one is tested for attack too, which Article 3.8.2 does not ask).
  */
  lemma QueenSideCastleIff(g: Grid, k: KingState, gen: MoveGen)
    ensures QueenSideCastleMove(k) in CastleMoves(g, k, gen) <==>
              && !k.hasMoved
              && !InCheckSpec(g, k, gen)
              && RookLegalForCastle(k, PieceAt(g, Location(k.location.rank, 0)))
              && SquareSafe(g, k, Location(k.location.rank, k.location.file - 1), gen)
              && SquareSafe(g, k, Location(k.location.rank, k.location.file - 2), gen)
              && SquareSafe(g, k, Location(k.location.rank, k.location.file - 3), gen)
  {
    var l := k.location;
    assert Walk(l, Left, 1) == Location(l.rank, l.file - 1);
    assert Walk(l, Left, 2) == Location(l.rank, l.file - 2);
    assert Walk(l, Left, 3) == Location(l.rank, l.file - 3);
    assert KingSideCastleMove(k) != QueenSideCastleMove(k);
  }

  /**
    At most two castling moves, king side first; each starts on the king's
    square, ends two files toward its rook on the same rank, and lands on an
    empty square where the king would not be in check.
  */
  lemma CastleMovesShape(g: Grid, k: KingState, gen: MoveGen)
    ensures |CastleMoves(g, k, gen)| <= 2
    ensures |CastleMoves(g, k, gen)| == 2 ==>
              CastleMoves(g, k, gen)[0].status == KingSideCastle && CastleMoves(g, k, gen)[1].status == QueenSideCastle
    ensures forall m | m in CastleMoves(g, k, gen) ::
              && m.startRank == Some(k.location.rank) && m.startFile == Some(k.location.file)
              && m.end.rank == k.location.rank
              && (m.status == KingSideCastle ==> m.end.file == k.location.file + 2)
              && (m.status == QueenSideCastle ==> m.end.file == k.location.file - 2)
              && (m.status == KingSideCastle || m.status == QueenSideCastle)
              && SquareSafe(g, k, m.end, gen)
  {
    var l := k.location;
    assert Walk(l, Right, 1) == l.Shift(Right);
    assert Walk(l, Right, 2) == KingSideCastleMove(k).end;
    assert Walk(l, Left, 1) == l.Shift(Left);
    assert Walk(l, Left, 2) == QueenSideCastleMove(k).end;
  }

  /** `possible_moves`: the eight directions' moves, then the castling moves. */
  method PossibleMoves(k: KingState, position: Board, gen: MoveGen) returns (moves: seq<Move>)
    modifies position
    ensures position.grid == old(position.grid)
    ensures moves == StepMoves(old(position.grid), k) + CastleMoves(old(position.grid), k, gen)
  {
    var directions := CardinalDirections();
    moves := [];
    for i := 0 to |directions|
      invariant position.grid == old(position.grid)
      invariant moves == StepsAlong(position.grid, k, directions[..i])
    {
      assert directions[..i + 1][..i] == directions[..i];
      moves := moves + Add(k, directions[i], position.grid);
    }
    assert directions[..|directions|] == directions;
    var castles := AddCastle(k, position, gen);
    moves := moves + castles;
  }

  /** In the list `possible_moves` returns, the step moves come first and the castling moves last. */
  lemma StepsBeforeCastles(g: Grid, k: KingState, gen: MoveGen)
    ensures var all := StepMoves(g, k) + CastleMoves(g, k, gen);
            && (forall i | 0 <= i < |StepMoves(g, k)| :: all[i].status in {Movement, Capture})
            && (forall i | |StepMoves(g, k)| <= i < |all| :: all[i].status in {KingSideCastle, QueenSideCastle})
  {
    var steps, castles := StepMoves(g, k), CastleMoves(g, k, gen);
    CastleMovesShape(g, k, gen);
    forall i | 0 <= i < |steps|
      ensures steps[i].status in {Movement, Capture}
    {
      StepMovesSound(g, k, steps[i]);
    }
    forall i | |steps| <= i < |steps + castles|
      ensures (steps + castles)[i].status in {KingSideCastle, QueenSideCastle}
    {
      assert (steps + castles)[i] == castles[i - |steps|];
    }
  }

  /** `in_check_as_result`: after the move, on a copy, would the mover's king touch the opposing king? */
  method InCheckAsResult(k: KingState, pos: Board, move: Move, update: (Grid, Move) -> Grid,
                         getKing: (Grid, Color) -> Location) returns (b: bool)
    ensures b <==> exists sq | sq in update(pos.grid, move) ::
                     && sq.OnBoard()
                     && Touching(getKing(update(pos.grid, move), move.piece.color), sq)
                     && update(pos.grid, move)[sq].kind == King
                     && update(pos.grid, move)[sq].color != k.color
  {
    var test := new Board(update(pos.grid, move));
    var testKing := getKing(test.grid, move.piece.color);
    b := LocAdjacentToOpponentKing(k, testKing, test);
  }
}
