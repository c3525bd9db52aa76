/**
  game/game_state.py: the two end-of-game predicates.

  The board's own move enumeration (`all_possible_moves`, which answers None
  when there is nothing to play) and its king search (`find_king`) are
  parameters.  The check test is the one of the king in pieces/king.py: some
  enemy move, as produced by `gen`, ends on the king's square.
*/
module GameState {
  import opened Results
  import opened ChessCore
  import LegacyKing

  type MoveEnumeration = Grid -> Option<seq<Move>>

  /** `no_moves`: the game is over when the enumeration answers None (not when it answers an empty list). */
  function NoMoves(position: Grid, allPossibleMoves: MoveEnumeration): (r: bool)
    ensures r <==> allPossibleMoves(position).None?
    ensures allPossibleMoves(position) == Some([]) ==> !r
  {
    allPossibleMoves(position) == None
  }

  /**
    `is_checkmate`: no moves, and the piece on the square `find_king` names is
    in check.  The `and` short-circuits, so the king is looked up only when
    there are no moves; an empty square there raises AttributeError.
  */
  function IsCheckmate(position: Grid, c: Color, allPossibleMoves: MoveEnumeration,
                       findKing: (Grid, Color) -> Location, gen: MoveGen): (r: Result<bool, PyError>)
    ensures r.Failure? <==> NoMoves(position, allPossibleMoves) && findKing(position, c) !in position
    ensures r.Failure? ==> r.error == AttributeError
    ensures r == Success(true) <==>
              && NoMoves(position, allPossibleMoves)
              && findKing(position, c) in position
              && LegacyKing.Attacked(position, position[findKing(position, c)].color, findKing(position, c), gen)
    ensures !NoMoves(position, allPossibleMoves) ==> r == Success(false)
  {
    if !NoMoves(position, allPossibleMoves) then Success(false)
    else
      var loc := findKing(position, c);
      match PieceAt(position, loc)
      case None => Failure(AttributeError)
      case Some(p) => Success(LegacyKing.Attacked(position, p.color, loc, gen))
  }

  /** A position with no moves and an unattacked king is a stalemate: never reported as checkmate. */
  lemma StalemateIsNotCheckmate(position: Grid, c: Color, allPossibleMoves: MoveEnumeration,
                                findKing: (Grid, Color) -> Location, gen: MoveGen)
    requires NoMoves(position, allPossibleMoves)
    requires findKing(position, c) in position
    requires !LegacyKing.Attacked(position, position[findKing(position, c)].color, findKing(position, c), gen)
    ensures IsCheckmate(position, c, allPossibleMoves, findKing, gen) == Success(false)
  {
  }
}
