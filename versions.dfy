/**
  The two kings side by side: the current king's step rule is the older
  one's with the king-capture and king-adjacency exclusions added.
*/
module KingVersions {
  import opened Results
  import opened ChessCore
  import ChessPyKing
  import LegacyKing

  /** Every step the current king generates in a direction, the older king generates too, to the same square with the same status. */
  lemma CurrentStepsAreLegacySteps(g: Grid, k: KingState, d: Direction, m: Move)
    requires m in ChessPyKing.Add(k, d, g)
    ensures exists legacyMove | legacyMove in LegacyKing.AddStep(g, k, d) :: legacyMove.end == m.end && legacyMove.status == m.status
  {
    assert LegacyKing.AddStep(g, k, d) == [Move(m.end, k.AsPiece(), m.status, None, None)];
  }

  /** With the kings face to face, the older king captures the opposing king; the current one does not move there at all. */
  lemma KingsFaceToFace()
    ensures var g := map[Location(0, 4) := Piece(White, King, false), Location(1, 4) := Piece(Black, King, false)];
            var k := KingState(White, Location(0, 4), false);
            && LegacyKing.AddStep(g, k, Up) == [Move(Location(1, 4), k.AsPiece(), Capture, None, None)]
            && ChessPyKing.Add(k, Up, g) == []
  {
    var g := map[Location(0, 4) := Piece(White, King, false), Location(1, 4) := Piece(Black, King, false)];
    var k := KingState(White, Location(0, 4), false);
    assert k.location.Shift(Up) == Location(1, 4);
    assert Location(1, 4).OnBoard();
  }
}
