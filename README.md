# chess_py: notation decoder, kings and end-of-game tests in Dafny

This project models four pieces of chess_py:

- **The algebraic-notation decoder `Converter` (players/human.py).** It turns a
  token such as `e4`, `exd5`, `aRa3` or `a4Rd4` into a move request. It works in
  three steps:
  - it picks a rule by the token's length and the shape of a few characters;
  - one `init_*` rule fills the fields;
  - `validate` sets the exit flag from the end location.

  Castling is written `00` / `000`. The decoder is a class with the source's
  fields. Two things specify it:
  - a function `Decode` on values, which gives the decoded request or the
    ValueError that `int()` raises;
  - the factory method `Convert`, which builds a `Converter` and dispatches it.

  The decoder keeps these quirks as written:
  - `set_piece` always yields None;
  - the promotion rules never fire from the constructor;
  - the three-character rule reads the rank with `set_file(1)`;
  - `validate` overwrites every earlier exit flag.

  The constructor's own docstring (players/human.py:50-56) lists "piece move
  Nf3" and "pawn promotion e8=Q" as inputs it handles. The code decodes
  neither as described, and the model follows the code: `Nf3` gives file −19,
  rank 5 and no piece, and `e8=Q` stays NOT_IMPLEMENTED.
- **The current king (chess_py/pieces/king.py).** It covers:
  - one-step moves that never move next to the opposing king and never capture
    a king;
  - the check test, where a touching enemy king counts as check;
  - castling with its preconditions: the king has not moved, is not in check,
    there is an unmoved same-colour corner rook, and the squares in between are
    empty and not attacked. The attack test places and then removes a phantom
    king on the board, a `class Board` whose grid the methods change.
- **The older king (pieces/king.py).** It covers:
  - unfiltered step moves, which may capture any other-colour piece, the king
    included;
  - castling that looks only at the corner rooks and ends on the king's own file;
  - the scan of enemy moves in row-then-column order;
  - the check test;
  - the self-check filter, which applies each move to a copy of the position.
- **The end-of-game predicates `no_moves` and `is_checkmate`
  (game/game_state.py).**

The other types are reduced to what these files rely on:
- the board is a grid `map<Location, Piece>`, where an absent key is an empty
  square;
- a piece is a colour, a kind and a has-moved flag;
- a location is a (rank, file) pair that is on the board when both lie in 0..7;
- `shift_up` raises the rank and `shift_right` raises the file.

The code these files call but do not contain becomes function parameters:
- the moves of the other pieces (`gen`);
- `Board.update` (`update`);
- `get_king` and `find_king`;
- `all_possible_moves`.

A small module compares the two kings.

## Model

| member | source | states |
|---|---|---|
| ChessCore.Location.Exit | pieces/king.py:48 | the exit flag is 0 exactly when the location is on the board |
| ChessCore.TouchingIffShift | chess_py/pieces/king.py:71-72 | a square touches another exactly when one of the eight cardinal shifts leads from one to the other |
| ChessCore.Board.constructor | chess_py/pieces/king.py:57 | a board holds the grid it is built from |
| ChessCore.Board.PlacePieceAtSquare | chess_py/pieces/king.py:118 | the square now holds the piece and nothing else changes |
| ChessCore.Board.RemovePieceAtSquare | chess_py/pieces/king.py:120 | the square is now empty and nothing else changes |
| Notation.PyInt | players/human.py:130 | `int()` of a character succeeds exactly on a decimal digit and gives its value; otherwise ValueError |
| Notation.RankOf | players/human.py:124-130 | the rank of a digit is its value minus one; a non-digit is a ValueError |
| Notation.PieceOf | players/human.py:140-159 | the piece lookup yields None for every character |
| Notation.LocationExit | players/human.py:277-282 | the end location's exit flag is 0 exactly when rank and file are present and on the board |
| Notation.Classify | players/human.py:73-121 | which rule a token selects: castles only for `00` / `000`, the pawn move for the other 2-character tokens, the piece move for 3 characters, the rank-file rule for 5 characters with an uppercase third character, the promotion-capture rule for 6 characters, and no rule otherwise |
| Notation.RuleFields | players/human.py:73-121 | the chosen rule, before `validate`: it fails only with ValueError and only for lengths 2, 4 or 5; it keeps the token, sets no promotion and no piece but Pawn, and leaves exit 1 exactly for lengths other than 2 to 5 (the 6-character branch and the final `else`) |
| Notation.Decode | players/human.py:47-122 | a decoded request keeps the token; its exit flag is 0 exactly when rank and file are on the board; its piece is None or Pawn; it never carries a promotion; decoding fails only with ValueError and only for tokens of length 2, 4 or 5 |
| Notation.CastleTokens | players/human.py:73-78 | `00` and `000` give the two castle statuses with file, rank and piece left None and exit 1 |
| Notation.TwoCharacterTokens | players/human.py:81-82 | a 2-character token decodes exactly when its second character is a digit, to file ord(c0)−97, rank int(c1)−1, piece Pawn, status MOVEMENT |
| Notation.PawnMoveExample | players/human.py:167-174 | `e4` gives rank 3, file 4, a pawn movement, exit 0 |
| Notation.ThreeCharacterTokens | players/human.py:176-183 | a 3-character token takes its file from index 0 and its rank from `set_file(1)`, with no piece |
| Notation.KnightMoveExample | players/human.py:180-183 | `Nf3` gives file −19, rank 5, no piece and exit 1 |
| Notation.FourCharacterTokens | players/human.py:88-107 | for 4 characters the order is: capture on `x`/`X` (pawn capture when c0 is not uppercase), then `=`, then an uppercase c1; otherwise the status stays NOT_IMPLEMENTED |
| Notation.FiveCharacterTokens | players/human.py:109-113 | a 5-character token with an uppercase third character is a move with start file and start rank; otherwise nothing is set |
| Notation.SixCharacterTokens | players/human.py:115-118 | a 6-character token leaves every field at its default (the promotion rule does not fire) |
| Notation.PromotionExamples | players/human.py:200-210 | `e8=Q` and `exd8=Q` stay NOT_IMPLEMENTED with exit 1 |
| Notation.OtherLengths | players/human.py:120-122 | any other length sets no field, and the final exit is 1 |
| Notation.CoordinateCharacters | players/human.py:124-138 | `a`..`h` give files 0..7 and `1`..`8` give ranks 0..7 |
| Notation.Converter.constructor | players/human.py:61-70 | the converter starts with status NOT_IMPLEMENTED, all coordinates None and exit 0 |
| Notation.Converter.GetMove | players/human.py:246-253 | the request carries every one of the converter's fields unchanged: rank, file, piece, status, start file, start rank, token, promoted piece and exit |
| Notation.Converter.SetRank | players/human.py:124-130 | the rank at an index is the digit's value minus one, or a ValueError |
| Notation.Converter.SetFile | players/human.py:132-138 | the file at an index lies in 0..7 exactly for `a`..`h` |
| Notation.Converter.SetPiece | players/human.py:140-159 | always None |
| Notation.Converter.InitKingsideCastle | players/human.py:161-162 | only the status changes, to KING_SIDE_CASTLE |
| Notation.Converter.InitQueensideCastle | players/human.py:164-165 | only the status changes, to QUEEN_SIDE_CASTLE |
| Notation.Converter.InitPawnMovement | players/human.py:167-174 | fails exactly on a non-digit rank; otherwise sets file, rank, Pawn and MOVEMENT and nothing else |
| Notation.Converter.InitPieceMovement | players/human.py:176-183 | sets file from index 0, rank via `set_file(1)`, piece None and MOVEMENT |
| Notation.Converter.InitPieceCapture | players/human.py:185-190 | fails exactly on a non-digit at index 3; otherwise a CAPTURE onto chars 2–3 with piece None |
| Notation.Converter.InitPawnCapture | players/human.py:192-198 | fails exactly on a non-digit at index 3; otherwise a pawn CAPTURE with start file from c0 |
| Notation.Converter.InitPawnPromotion | players/human.py:200-209 | changes nothing unless `would_move_be_promotion` holds; if it does, it sets the promotion fields |
| Notation.Converter.InitPieceMovementFile | players/human.py:211-219 | fails exactly on a non-digit at index 3; otherwise a MOVEMENT with start file and piece None |
| Notation.Converter.InitPieceMovementRankFile | players/human.py:221-230 | fails exactly when index 1 or index 4 is not a digit; otherwise a MOVEMENT with start file and start rank |
| Notation.Converter.InitPawnPromotionCapture | players/human.py:232-244 | without a promotion rank, only exit becomes 1; with one, it sets the promotion-capture fields |
| Notation.Converter.Validate | players/human.py:255-256 | only exit changes, to the end location's flag, so exit is 0 exactly when the move is on the board |
| Notation.Converter.OnBoard | players/human.py:267-275 | rank and file are both present and both lie in 0..7 |
| Notation.Converter.WouldMoveBePromotion | players/human.py:284-292 | rank 0 for black or rank 7 for white |
| Notation.Converter.Dispatch | players/human.py:73-122 | the constructor's dispatch succeeds exactly when `Decode` does and then leaves exactly the decoded fields |
| Notation.Convert | players/human.py:47-122 | construction succeeds exactly when `Decode` does; a failure is a ValueError; a new converter's fields are the decoded request and its exit is 0 exactly when it is on the board |
| ChessPyKing.LocAdjacentToOpponentKing | chess_py/pieces/king.py:63-77 | true exactly when an on-board neighbour of the location holds a king of the other colour |
| ChessPyKing.Add | chess_py/pieces/king.py:79-99 | at most one move per direction; a move goes onto the board to a square not next to the opposing king; it is a MOVEMENT only onto an empty square and a CAPTURE only of a non-king enemy; start = the king's square |
| ChessPyKing.StepsAlongMember | chess_py/pieces/king.py:180-181 | a move is in the chained step moves exactly when some direction's `add` yields it; there are at most as many moves as directions |
| ChessPyKing.StepMovesSound | chess_py/pieces/king.py:79-99 | every step move goes to a touching on-board square not next to the opposing king, onto an empty square or capturing a non-king enemy |
| ChessPyKing.StepMovesComplete | chess_py/pieces/king.py:79-99 | every touching on-board square not next to the opposing king that is empty or holds a non-king enemy gets its move |
| ChessPyKing.StepMovesCount | chess_py/pieces/king.py:180-181 | at most 8 step moves |
| ChessPyKing.InCheck | chess_py/pieces/king.py:186-209 | true exactly when an enemy king is within one rank and one file, or another enemy piece has a move ending on the king's square |
| ChessPyKing.InCheckIgnoresKingMoves | chess_py/pieces/king.py:195-202 | the enemy kings' own move lists never affect the check test |
| ChessPyKing.NearbyEnemyKingChecks | chess_py/pieces/king.py:195-200 | an enemy king within one rank and one file always gives check |
| ChessPyKing.RookLegalForCastle | chess_py/pieces/king.py:129-140 | a rook is eligible exactly when the square holds an unmoved rook of the king's colour |
| ChessPyKing.SquareEmptyAndNotInCheck | chess_py/pieces/king.py:101-127 | true exactly when each of the `times` successive squares is empty and a phantom king there would not be in check; the grid is unchanged on return |
| ChessPyKing.AddCastle | chess_py/pieces/king.py:142-170 | the castle moves, computed without changing the grid |
| ChessPyKing.KingSideCastleIff | chess_py/pieces/king.py:148-159 | the king-side castle is offered exactly when the king has not moved and is not in check, the rook at file 7 is an unmoved own rook, and the two squares to the right are safe |
| ChessPyKing.QueenSideCastleIff | chess_py/pieces/king.py:148-168 | the queen-side castle is offered exactly when the king has not moved and is not in check, the rook at file 0 is an unmoved own rook, and the three squares to the left are safe |
| ChessPyKing.CastleMovesShape | chess_py/pieces/king.py:156-168 | at most two castle moves, king side first; each ends two files toward its rook and starts on the king's square |
| ChessPyKing.PossibleMoves | chess_py/pieces/king.py:172-184 | the step moves of the eight directions followed by the castle moves; the grid is unchanged |
| ChessPyKing.StepsBeforeCastles | chess_py/pieces/king.py:180-184 | every step move comes before every castle move |
| ChessPyKing.InCheckAsResult | chess_py/pieces/king.py:49-61 | true exactly when, after the move, the mover's king touches a king of the other colour |
| LegacyKing.EdgeRank | pieces/king.py:64-67 | 0 for white, 7 for black |
| LegacyKing.AddStep | pieces/king.py:47-53 | one direction yields at most one move, and one exactly when the target is on the board and empty or holds a piece of the other colour; the move ends on the target, carries the king and no start square, and is a MOVEMENT exactly onto an empty square and a CAPTURE otherwise |
| LegacyKing.Unfiltered | pieces/king.py:39-92 | the eight step moves in source order followed by the corner-rook castles |
| LegacyKing.AppendSteps | pieces/king.py:47-62 | the nested `add` applied to the eight directions in source order |
| LegacyKing.AppendCastles | pieces/king.py:69-88 | the castle moves appended after the steps |
| LegacyKing.StepsOfEight | pieces/king.py:55-62 | eight directions unfold into eight appends in order |
| LegacyKing.StepsMember | pieces/king.py:47-62 | a move is a step move exactly when some direction's `add` yields it |
| LegacyKing.StepsExact | pieces/king.py:47-62 | the step moves are exactly: MOVEMENT to each empty touching on-board square, CAPTURE of each other-colour piece there, the king included |
| LegacyKing.CastlesExact | pieces/king.py:64-88 | no castle once the king has moved; otherwise a castle per unmoved own rook at (edge rank, 7) and (edge rank, 0), king side first, both ending on the king's own file |
| LegacyKing.EnemyMoves | pieces/king.py:94-110 | the concatenation of every other-colour piece's moves in row-then-column order |
| LegacyKing.ScanMember | pieces/king.py:98-108 | a move is in the first n cells' contribution exactly when one of those cells contributes it |
| LegacyKing.EnemyMovesMember | pieces/king.py:94-110 | a move is an enemy move exactly when some on-board other-colour piece generates it |
| LegacyKing.InCheck | pieces/king.py:112-122 | true exactly when some enemy move ends on the king's square |
| LegacyKing.Verdict | pieces/king.py:135-141 | one pass of the filter loop raises AttributeError exactly when, after the move, its end square is empty; it keeps the move exactly when the piece there is not attacked |
| LegacyKing.Filter | pieces/king.py:131-142 | the only exception the filter raises is AttributeError |
| LegacyKing.FilterFailurePersists | pieces/king.py:131-142 | once a move cannot be judged, the whole filter raises |
| LegacyKing.FilterExact | pieces/king.py:131-142 | the filter succeeds exactly when every move leaves a piece on its end square; it then keeps a move exactly when that piece is not attacked after the move |
| LegacyKing.PossibleMoves | pieces/king.py:124-144 | the unfiltered moves passed through the self-check filter, in order, or the AttributeError it raises |
| GameState.NoMoves | game/game_state.py:9-15 | the game is over exactly when the enumeration answers None; an empty list is not the end |
| GameState.IsCheckmate | game/game_state.py:18-26 | checkmate holds exactly when there are no moves and the piece on the king's square is attacked; with moves left it is false; an empty king square raises AttributeError |
| GameState.StalemateIsNotCheckmate | game/game_state.py:25-26 | no moves without check is not checkmate |
| KingVersions.CurrentStepsAreLegacySteps | chess_py/pieces/king.py:79-99 | every step of the current king is a step of the older king to the same square with the same status |
| KingVersions.KingsFaceToFace | pieces/king.py:55-56 | with the kings face to face, the older king captures the opposing king and the current one makes no move there |

## Left out

- Board, Location, Move, Rook, Pawn and Piece: only what these files use is modelled (grid lookup, emptiness, shifts, the exit flag, colour, kind, has-moved).
- Move generation of pawns, knights, bishops, rooks and queens is not part of this model. It is the parameter `gen`, and `Board.update`, `get_king`, `find_king` and `all_possible_moves` are parameters too.
- `Player.generate_move` and the top-level human.py are console prompt loops (I/O).
- `Converter.equals` depends on the unseen `Piece.equals` and `Move.color`.
- `isupper()` and `int()` are modelled for ASCII only; non-ASCII uppercase letters and digits are not.
- Notation.LocationExit: the exit flag of `Location(None, None)` is taken as 1, since Location's code is not part of this model.
- Notation.Decode: the decoded request keeps only the piece kind; the colour and location of the `Pawn(color, location)` the decoder stores (players/human.py:173, 193, 207, 240) are not kept.
- The king's moves carry the king as colour, kind and has-moved flag, not its location.
- LegacyKing.Unfiltered: `set_loc` is not part of this model; the legacy moves carry no start square.
- `math.fabs` is integer absolute value; no floating point is involved.
- `copy(pos)` and `copy.deepcopy(position)` are value copies of the grid; aliasing through a shallow copy is not modelled.
- The unused `copy.deepcopy` / `find_king` in the older `unfiltered` has no effect and is omitted.
- The iteration order of `for piece in position` is taken as rank-major; the check result does not depend on it.
- The older king's check test recurses without bound through the enemy king's `possible_moves`; `gen` stands for the enemy pieces' moves, so termination is not modelled.
- `Piece.equals(Rook(...))` is modelled as same kind and same colour.
- LegacyKing.PossibleMoves: `test_king.in_check(test)` is modelled as "some enemy of the piece on the end square has a move ending there", using that piece's colour.
- GameState.IsCheckmate: game/game_state.py does not show which King class `piece_at_square` returns; the model uses the check test of pieces/king.py, the package that sits beside game/.
- ChessPyKing.InCheckAsResult: `move.color` is taken as the colour of the move's piece.
- The order of `cardinal_directions` is taken as up, right, down, left, then the four diagonals; only `possible_moves` order depends on it.
