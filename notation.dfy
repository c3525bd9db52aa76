/**
  The algebraic-notation decoder of players/human.py (class Converter).

  A token such as "e4", "exd5", "aRa3" or "a4Rd4" is classified by its length
  and the shape of a few characters, one `init_*` rule fills the request's
  fields, and `validate` finally replaces the exit flag with that of the end
  location.  Castling is written "00" / "000".  The decoder is modelled as it
  is written, quirks included:
  - `set_piece` compares the bound method `c.upper` to a string with `is`,
    which is never true, so it always yields None;
  - the three-character rule takes the file from index 0 and the rank from
    `set_file(1)`;
  - the promotion rules test `would_move_be_promotion` while the rank is still
    None, so they never fire from the constructor;
  - `validate` overwrites every exit flag set before it.
  Python's ValueError from `int()` on a non-digit aborts the constructor; it
  is modelled as a Failure result.
*/
module Notation {
  import opened Results
  import opened ChessCore

  /** Python's `str.isupper()` on one (ASCII) character. */
  predicate IsUpper(c: char) {
    'A' <= c <= 'Z'
  }

  /** Python's `int()` on a one-character string: the digit's value, or ValueError. */
  function PyInt(c: char): (r: Result<int, PyError>)
    ensures r.Success? <==> '0' <= c <= '9'
    ensures r.Success? ==> 0 <= r.value <= 9 && r.value + '0' as int == c as int
    ensures r.Failure? ==> r.error == ValueError
  {
    if '0' <= c <= '9' then Success(c as int - '0' as int) else Failure(ValueError)
  }

  /** `set_file`: the character's code point minus ord('a'). */
  function FileOf(c: char): int {
    c as int - 97
  }

  /** `set_rank`: `int(c) - 1`. */
  function RankOf(c: char): (r: Result<int, PyError>)
    ensures r.Success? <==> '0' <= c <= '9'
    ensures r.Success? ==> -1 <= r.value <= 8 && r.value == c as int - '1' as int
  {
    match PyInt(c)
    case Success(v) => Success(v - 1)
    case Failure(e) => Failure(e)
  }

  /**
    Python's `c.upper is letter`: the left operand is the bound method object
    `c.upper` (it is not called), which is never the same object as a
    one-character string, so the identity test is false for every c.
  */
  predicate BoundUpperIs(c: char, letter: char) {
    false
  }

  /** `set_piece` on one character: the chain of identity tests, none of which can succeed. */
  function PieceOf(c: char): (r: Option<Kind>)
    ensures r == None
  {
    if BoundUpperIs(c, 'R') then Some(Rook)
    else if BoundUpperIs(c, 'N') then Some(Knight)
    else if BoundUpperIs(c, 'B') then Some(Bishop)
    else if BoundUpperIs(c, 'Q') then Some(Queen)
    else if BoundUpperIs(c, 'K') then Some(King)
    else None
  }

  /** Both coordinates present and within 0..7. */
  predicate CoordsOnBoard(rank: Option<int>, file: Option<int>) {
    rank.Some? && file.Some? && -1 < rank.value < 8 && -1 < file.value < 8
  }

  /** The exit flag of `Location(rank, file)`: 0 on the board, 1 otherwise (a missing coordinate is off the board). */
  function LocationExit(rank: Option<int>, file: Option<int>): (e: int)
    ensures e == 0 <==> CoordsOnBoard(rank, file)
    ensures e == 0 || e == 1
  {
    if CoordsOnBoard(rank, file) then 0 else 1
  }

  /** `would_move_be_promotion` on the rank held so far. */
  predicate PromotionRank(rank: Option<int>, c: Color) {
    if rank == Some(0) && c == Black then true
    else if rank == Some(7) && c == White then true
    else false
  }

  /** The move request `get_move` assembles from the converter's fields. */
  datatype Request = Request(
    rank: Option<int>,
    file: Option<int>,
    piece: Option<Kind>,
    status: Status,
    startFile: Option<int>,
    startRank: Option<int>,
    token: string,
    promotedToPiece: Option<Kind>,
    exit: int)

  /** The fields `__init__` sets before it looks at the token. */
  function Initial(t: string): Request {
    Request(None, None, None, NotImplemented, None, None, t, None, 0)
  }

  /** The grammar rule the constructor's dispatch picks for a token. */
  datatype Rule =
    | KingSideCastleRule
    | QueenSideCastleRule
    | PawnMovementRule
    | PieceMovementRule
    | PawnCaptureRule
    | PieceCaptureRule
    | PawnPromotionRule
    | PieceMovementFileRule
    | PieceMovementRankFileRule
    | PawnPromotionCaptureRule
    | NoRule            // length 4 or 5, but no character pattern matches
    | OtherLengthRule   // any other length: exit is set to 1

  function Classify(t: string): (rule: Rule)
    ensures rule == KingSideCastleRule <==> t == "00"
    ensures rule == QueenSideCastleRule <==> t == "000"
    ensures rule == PawnMovementRule <==> |t| == 2 && t != "00"
    ensures rule == PieceMovementRule <==> |t| == 3 && t != "000"
    ensures rule in {PawnCaptureRule, PieceCaptureRule, PawnPromotionRule, PieceMovementFileRule} ==> |t| == 4
    ensures rule == PieceMovementRankFileRule <==> |t| == 5 && IsUpper(t[2])
    ensures rule == PawnPromotionCaptureRule <==> |t| == 6
    ensures rule == NoRule ==> |t| == 4 || |t| == 5
    ensures rule == OtherLengthRule <==> |t| !in {2, 3, 4, 5, 6}
  {
    if t == "00" then KingSideCastleRule
    else if t == "000" then QueenSideCastleRule
    else if |t| == 2 then PawnMovementRule
    else if |t| == 3 then PieceMovementRule
    else if |t| == 4 then
      if t[1] == 'x' || t[1] == 'X' then
        if !IsUpper(t[0]) then PawnCaptureRule else PieceCaptureRule
      else if t[2] == '=' then PawnPromotionRule
      else if IsUpper(t[1]) then PieceMovementFileRule
      else NoRule
    else if |t| == 5 then
      if IsUpper(t[2]) then PieceMovementRankFileRule else NoRule
    else if |t| == 6 then PawnPromotionCaptureRule
    else OtherLengthRule
  }

  /** The fields after the chosen rule has run from the initial ones, before `validate`. */
  function RuleFields(t: string, c: Color): (r: Result<Request, PyError>)
    ensures r.Failure? ==> r.error == ValueError && |t| in {2, 4, 5}
    ensures r.Success? ==> r.value.token == t && r.value.promotedToPiece == None && r.value.status != Promote
    ensures r.Success? ==> r.value.piece == None || r.value.piece == Some(Pawn)
    ensures r.Success? ==> (r.value.exit == 1 <==> |t| !in {2, 3, 4, 5}) && (r.value.exit == 0 || r.value.exit == 1)
  {
    var init := Initial(t);
    match Classify(t)
    case KingSideCastleRule => Success(init.(status := KingSideCastle))
    case QueenSideCastleRule => Success(init.(status := QueenSideCastle))
    case PawnMovementRule =>
      (match RankOf(t[1])
       case Failure(e) => Failure(e)
       case Success(rank) =>
         Success(init.(file := Some(FileOf(t[0])), rank := Some(rank), piece := Some(Pawn), status := Movement)))
    case PieceMovementRule =>
      Success(init.(piece := PieceOf(t[0]), file := Some(FileOf(t[0])), rank := Some(FileOf(t[1])), status := Movement))
    case PawnCaptureRule =>
      (match RankOf(t[3])
       case Failure(e) => Failure(e)
       case Success(rank) =>
         Success(init.(piece := Some(Pawn), startFile := Some(FileOf(t[0])), file := Some(FileOf(t[2])),
                       rank := Some(rank), status := Capture)))
    case PieceCaptureRule =>
      (match RankOf(t[3])
       case Failure(e) => Failure(e)
       case Success(rank) =>
         Success(init.(piece := PieceOf(t[0]), file := Some(FileOf(t[2])), rank := Some(rank), status := Capture)))
    // would_move_be_promotion reads the rank, which is still None here
    case PawnPromotionRule => Success(init)
    case PieceMovementFileRule =>
      (match RankOf(t[3])
       case Failure(e) => Failure(e)
       case Success(rank) =>
         Success(init.(startFile := Some(FileOf(t[0])), piece := PieceOf(t[1]), file := Some(FileOf(t[2])),
                       rank := Some(rank), status := Movement)))
    case PieceMovementRankFileRule =>
      (match (RankOf(t[1]), RankOf(t[4]))
       case (Failure(e), _) => Failure(e)
       case (_, Failure(e)) => Failure(e)
       case (Success(startRank), Success(rank)) =>
         Success(init.(startFile := Some(FileOf(t[0])), startRank := Some(startRank), piece := PieceOf(t[2]),
                       file := Some(FileOf(t[3])), rank := Some(rank), status := Movement)))
    // would_move_be_promotion is false while the rank is None: the else branch sets exit
    case PawnPromotionCaptureRule => Success(init.(exit := 1))
    case NoRule => Success(init)
    case OtherLengthRule => Success(init.(exit := 1))
  }

  /**
    What `Converter(t, c).get_move()` yields: the rule's fields with the exit
    flag replaced by that of the end location, or the exception raised.
  */
  function Decode(t: string, c: Color): (r: Result<Request, PyError>)
    ensures r.Success? ==> r.value.token == t
    ensures r.Success? ==> r.value.exit == LocationExit(r.value.rank, r.value.file)
    ensures r.Success? ==> (r.value.exit == 0 <==> CoordsOnBoard(r.value.rank, r.value.file))
    ensures r.Success? ==> r.value.piece == None || r.value.piece == Some(Pawn)
    ensures r.Success? ==> r.value.promotedToPiece == None && r.value.status != Promote
    ensures r.Failure? ==> r.error == ValueError && |t| in {2, 4, 5}
  {
    match RuleFields(t, c)
    case Failure(e) => Failure(e)
    case Success(f) => Success(f.(exit := LocationExit(f.rank, f.file)))
  }

  /** "00" and "000" are tested before any length rule: only the status is set. */
  lemma CastleTokens(c: Color)
    ensures Decode("00", c) == Success(Initial("00").(status := KingSideCastle, exit := 1))
    ensures Decode("000", c) == Success(Initial("000").(status := QueenSideCastle, exit := 1))
  {
  }

  /** Any other two-character token is a pawn move to (int(c1) - 1, ord(c0) - 97), or raises. */
  lemma TwoCharacterTokens(t: string, c: Color)
    requires |t| == 2 && t != "00"
    ensures Decode(t, c).Success? <==> '0' <= t[1] <= '9'
    ensures Decode(t, c).Success? ==>
              var r := Decode(t, c).value;
              && r.file == Some(t[0] as int - 'a' as int)
              && r.rank == Some(t[1] as int - '1' as int)
              && r.piece == Some(Pawn) && r.status == Movement
              && r.startFile == None && r.startRank == None
  {
  }

  lemma PawnMoveExample()
    ensures Decode("e4", White) == Success(Request(Some(3), Some(4), Some(Pawn), Movement, None, None, "e4", None, 0))
  {
  }

  /**
    A three-character token other than "000" never raises; its file comes from
    the piece letter and its rank from the file letter, so a token led by an
    upper-case piece letter always decodes off the board.
  */
  lemma ThreeCharacterTokens(t: string, c: Color)
    requires |t| == 3 && t != "000"
    ensures Decode(t, c).Success?
    ensures Decode(t, c).value.file == Some(t[0] as int - 'a' as int)
    ensures Decode(t, c).value.rank == Some(t[1] as int - 'a' as int)
    ensures Decode(t, c).value.piece == None && Decode(t, c).value.status == Movement
    ensures IsUpper(t[0]) ==> Decode(t, c).value.exit == 1
  {
  }

  lemma KnightMoveExample()
    ensures Decode("Nf3", White) == Success(Request(Some(5), Some(-19), None, Movement, None, None, "Nf3", None, 1))
  {
  }

  /** The four-character rules in the order they are tried: capture, promotion, file-disambiguated move, none. */
  lemma FourCharacterTokens(t: string, c: Color)
    requires |t| == 4
    ensures (t[1] == 'x' || t[1] == 'X') ==>
              && (Decode(t, c).Success? <==> '0' <= t[3] <= '9')
              && (Decode(t, c).Success? ==>
                    var r := Decode(t, c).value;
                    && r.status == Capture
                    && r.file == Some(FileOf(t[2])) && r.rank == Some(RankOf(t[3]).value)
                    && r.piece == (if IsUpper(t[0]) then None else Some(Pawn))
                    && r.startFile == (if IsUpper(t[0]) then None else Some(FileOf(t[0]))))
    ensures t[1] != 'x' && t[1] != 'X' && t[2] == '=' ==> Decode(t, c) == Success(Initial(t).(exit := 1))
    ensures t[1] != 'x' && t[1] != 'X' && t[2] != '=' && IsUpper(t[1]) ==>
              && (Decode(t, c).Success? <==> '0' <= t[3] <= '9')
              && (Decode(t, c).Success? ==>
                    var r := Decode(t, c).value;
                    && r.status == Movement && r.piece == None && r.startFile == Some(FileOf(t[0]))
                    && r.file == Some(FileOf(t[2])) && r.rank == Some(RankOf(t[3]).value))
    ensures t[1] != 'x' && t[1] != 'X' && t[2] != '=' && !IsUpper(t[1]) ==> Decode(t, c) == Success(Initial(t).(exit := 1))
  {
  }

  /** Five characters with an upper-case middle: start file and rank, then the end square; otherwise nothing. */
  lemma FiveCharacterTokens(t: string, c: Color)
    requires |t| == 5
    ensures IsUpper(t[2]) ==>
              && (Decode(t, c).Success? <==> '0' <= t[1] <= '9' && '0' <= t[4] <= '9')
              && (Decode(t, c).Success? ==>
                    var r := Decode(t, c).value;
                    && r.status == Movement && r.piece == None
                    && r.startFile == Some(FileOf(t[0])) && r.startRank == Some(RankOf(t[1]).value)
                    && r.file == Some(FileOf(t[3])) && r.rank == Some(RankOf(t[4]).value))
    ensures !IsUpper(t[2]) ==> Decode(t, c) == Success(Initial(t).(exit := 1))
  {
  }

  /** Promotion never fires from the constructor: every six-character token, e.g. "exd8=Q", is left unparsed. */
  lemma SixCharacterTokens(t: string, c: Color)
    requires |t| == 6
    ensures Decode(t, c) == Success(Initial(t).(exit := 1))
  {
  }

  lemma PromotionExamples()
    ensures Decode("e8=Q", White) == Success(Request(None, None, None, NotImplemented, None, None, "e8=Q", None, 1))
    ensures Decode("exd8=Q", Black) == Success(Request(None, None, None, NotImplemented, None, None, "exd8=Q", None, 1))
  {
  }

  /** Lengths without a rule decode to the initial fields with exit 1. */
  lemma OtherLengths(t: string, c: Color)
    requires |t| !in {2, 3, 4, 5, 6}
    ensures Decode(t, c) == Success(Initial(t).(exit := 1))
  {
  }

  /** The file letters 'a'..'h' and rank digits '1'..'8' decode to 0..7 and back. */
  lemma CoordinateCharacters(i: int)
    requires 0 <= i < 8
    ensures FileOf((97 + i) as char) == i
    ensures RankOf((49 + i) as char) == Success(i)
  {
  }

  class Converter {
    const token: string
    const color: Color
    var status: Status
    var startFile: Option<int>
    var promotedToPiece: Option<Kind>
    var startRank: Option<int>
    var file: Option<int>
    var rank: Option<int>
    var piece: Option<Kind>
    var exit: int

    /** The field initialisation at the head of `__init__`. */
    constructor (algebraicString: string, inputColor: Color)
      ensures token == algebraicString && color == inputColor
      ensures GetMove() == Initial(algebraicString)
    {
      token := algebraicString;
      color := inputColor;
      status := NotImplemented;
      startFile := None;
      promotedToPiece := None;
      startRank := None;
      file := None;
      rank := None;
      piece := None;
      exit := 0;
    }

    /** `get_move`: the converter's fields as a move request. */
    function GetMove(): (r: Request)
      reads this
      ensures r.rank == rank && r.file == file && r.piece == piece && r.status == status
      ensures r.startFile == startFile && r.startRank == startRank && r.token == token
      ensures r.promotedToPiece == promotedToPiece && r.exit == exit
    {
      Request(rank, file, piece, status, startFile, startRank, token, promotedToPiece, exit)
    }

    function SetRank(index: nat): (r: Result<int, PyError>)
      requires index < |token|
      ensures r.Success? <==> '0' <= token[index] <= '9'
      ensures r.Success? ==> r.value + '1' as int == token[index] as int
    {
      RankOf(token[index])
    }

    function SetFile(index: nat): (f: int)
      requires index < |token|
      ensures 'a' <= token[index] <= 'h' <==> 0 <= f < 8
    {
      FileOf(token[index])
    }

    function SetPiece(index: nat): (r: Option<Kind>)
      requires index < |token|
      ensures r == None
    {
      PieceOf(token[index])
    }

    method InitKingsideCastle()
      modifies this
      ensures GetMove() == old(GetMove()).(status := KingSideCastle)
    {
      status := KingSideCastle;
    }

    method InitQueensideCastle()
      modifies this
      ensures GetMove() == old(GetMove()).(status := QueenSideCastle)
    {
      status := QueenSideCastle;
    }

    /** "e4": a pawn to (rank, file); false when `int()` raises. */
    method InitPawnMovement() returns (ok: bool)
      requires |token| >= 2
      modifies this
      ensures ok <==> '0' <= token[1] <= '9'
      ensures ok ==> GetMove() == old(GetMove()).(file := Some(FileOf(token[0])), rank := Some(RankOf(token[1]).value),
                                                  piece := Some(Pawn), status := Movement)
    {
      file := Some(SetFile(0));
      var r := SetRank(1);
      if r.Failure? {
        return false;
      }
      rank := Some(r.value);
      piece := Some(Pawn);
      status := Movement;
      ok := true;
    }

    /** "Nf3": piece from index 0, file from index 0, rank through `set_file(1)`. */
    method InitPieceMovement()
      requires |token| >= 2
      modifies this
      ensures GetMove() == old(GetMove()).(piece := None, file := Some(FileOf(token[0])),
                                           rank := Some(FileOf(token[1])), status := Movement)
    {
      piece := SetPiece(0);
      file := Some(SetFile(0));
      rank := Some(SetFile(1));
      status := Movement;
    }

    /** "Nxf3". */
    method InitPieceCapture() returns (ok: bool)
      requires |token| >= 4
      modifies this
      ensures ok <==> '0' <= token[3] <= '9'
      ensures ok ==> GetMove() == old(GetMove()).(piece := None, file := Some(FileOf(token[2])),
                                                  rank := Some(RankOf(token[3]).value), status := Capture)
    {
      piece := SetPiece(0);
      file := Some(SetFile(2));
      var r := SetRank(3);
      if r.Failure? {
        return false;
      }
      rank := Some(r.value);
      status := Capture;
      ok := true;
    }

    /** "exd5". */
    method InitPawnCapture() returns (ok: bool)
      requires |token| >= 4
      modifies this
      ensures ok <==> '0' <= token[3] <= '9'
      ensures ok ==> GetMove() == old(GetMove()).(piece := Some(Pawn), startFile := Some(FileOf(token[0])),
                                                  file := Some(FileOf(token[2])),
                                                  rank := Some(RankOf(token[3]).value), status := Capture)
    {
      piece := Some(Pawn);
      startFile := Some(SetFile(0));
      file := Some(SetFile(2));
      var r := SetRank(3);
      if r.Failure? {
        return false;
      }
      rank := Some(r.value);
      status := Capture;
      ok := true;
    }

    /** "e8=Q": only when the rank already held is the colour's promotion rank. */
    method InitPawnPromotion() returns (ok: bool)
      requires |token| >= 4
      modifies this
      ensures ok <==> !old(WouldMoveBePromotion()) || '0' <= token[1] <= '9'
      ensures ok && !old(WouldMoveBePromotion()) ==> GetMove() == old(GetMove())
      ensures ok && old(WouldMoveBePromotion()) ==>
                GetMove() == old(GetMove()).(file := Some(FileOf(token[0])), rank := Some(RankOf(token[1]).value),
                                             piece := Some(Pawn), status := Promote, promotedToPiece := None)
    {
      ok := true;
      if WouldMoveBePromotion() {
        file := Some(SetFile(0));
        var r := SetRank(1);
        if r.Failure? {
          return false;
        }
        rank := Some(r.value);
        piece := Some(Pawn);
        status := Promote;
        promotedToPiece := SetPiece(3);
      }
    }

    /** "aRa3": start file, piece, end square. */
    method InitPieceMovementFile() returns (ok: bool)
      requires |token| >= 4
      modifies this
      ensures ok <==> '0' <= token[3] <= '9'
      ensures ok ==> GetMove() == old(GetMove()).(startFile := Some(FileOf(token[0])), piece := None,
                                                  file := Some(FileOf(token[2])),
                                                  rank := Some(RankOf(token[3]).value), status := Movement)
    {
      startFile := Some(SetFile(0));
      piece := SetPiece(1);
      file := Some(SetFile(2));
      var r := SetRank(3);
      if r.Failure? {
        return false;
      }
      rank := Some(r.value);
      status := Movement;
      ok := true;
    }

    /** "a4Rd4": start file and rank, piece, end square. */
    method InitPieceMovementRankFile() returns (ok: bool)
      requires |token| >= 5
      modifies this
      ensures ok <==> '0' <= token[1] <= '9' && '0' <= token[4] <= '9'
      ensures ok ==> GetMove() == old(GetMove()).(startFile := Some(FileOf(token[0])),
                                                  startRank := Some(RankOf(token[1]).value), piece := None,
                                                  file := Some(FileOf(token[3])),
                                                  rank := Some(RankOf(token[4]).value), status := Movement)
    {
      startFile := Some(SetFile(0));
      var sr := SetRank(1);
      if sr.Failure? {
        return false;
      }
      startRank := Some(sr.value);
      piece := SetPiece(2);
      file := Some(SetFile(3));
      var r := SetRank(4);
      if r.Failure? {
        return false;
      }
      rank := Some(r.value);
      status := Movement;
      ok := true;
    }

    /** "exd8=Q": the start file goes through `set_rank(0)`; without a promotion rank, exit is set to 1. */
    method InitPawnPromotionCapture() returns (ok: bool)
      requires |token| >= 6
      modifies this
      ensures ok <==> !old(WouldMoveBePromotion()) || ('0' <= token[0] <= '9' && '0' <= token[3] <= '9')
      ensures ok && !old(WouldMoveBePromotion()) ==> GetMove() == old(GetMove()).(exit := 1)
      ensures ok && old(WouldMoveBePromotion()) ==>
                GetMove() == old(GetMove()).(startFile := Some(RankOf(token[0]).value), file := Some(FileOf(token[2])),
                                             rank := Some(RankOf(token[3]).value), piece := Some(Pawn),
                                             status := Promote, promotedToPiece := None)
    {
      ok := true;
      if WouldMoveBePromotion() {
        var sf := SetRank(0);
        if sf.Failure? {
          return false;
        }
        startFile := Some(sf.value);
        file := Some(SetFile(2));
        var r := SetRank(3);
        if r.Failure? {
          return false;
        }
        rank := Some(r.value);
        piece := Some(Pawn);
        status := Promote;
        promotedToPiece := SetPiece(5);
      } else {
        exit := 1;
      }
    }

    /** `validate`: the exit flag becomes the end location's. */
    method Validate()
      modifies this
      ensures GetMove() == old(GetMove()).(exit := LocationExit(rank, file))
      ensures exit == 0 <==> OnBoard()
    {
      exit := LocationExit(rank, file);
    }

    function OnBoard(): (b: bool)
      reads this
      ensures b <==> rank.Some? && file.Some? && 0 <= rank.value <= 7 && 0 <= file.value <= 7
    {
      if rank.Some? && file.Some? && -1 < rank.value < 8 && -1 < file.value < 8 then true else false
    }

    function WouldMoveBePromotion(): (b: bool)
      reads this
      ensures b <==> (rank == Some(0) && color == Black) || (rank == Some(7) && color == White)
    {
      PromotionRank(rank, color)
    }

    /** The dispatch and validation that make up the rest of `__init__`; false when `int()` raised. */
    method Dispatch() returns (ok: bool)
      requires GetMove() == Initial(token)
      modifies this
      ensures ok <==> Decode(token, color).Success?
      ensures ok ==> GetMove() == Decode(token, color).value
    {
      ok := true;
      if token == "00" {
        InitKingsideCastle();
      } else if token == "000" {
        InitQueensideCastle();
      } else if |token| == 2 {
        ok := InitPawnMovement();
      } else if |token| == 3 {
        InitPieceMovement();
      } else if |token| == 4 {
        if token[1] == 'x' || token[1] == 'X' {
          if !IsUpper(token[0]) {
            ok := InitPawnCapture();
          } else {
            ok := InitPieceCapture();
          }
        } else if token[2] == '=' {
          ok := InitPawnPromotion();
        } else if IsUpper(token[1]) {
          ok := InitPieceMovementFile();
        }
      } else if |token| == 5 {
        if IsUpper(token[2]) {
          ok := InitPieceMovementRankFile();
        }
      } else if |token| == 6 {
        ok := InitPawnPromotionCapture();
      } else {
        exit := 1;
      }
      if ok {
        Validate();
      }
    }
  }

  /** `Converter(t, c)`: the constructed converter, or the ValueError its constructor raised. */
  method Convert(algebraicString: string, inputColor: Color) returns (r: Result<Converter, PyError>)
    ensures r.Success? <==> Decode(algebraicString, inputColor).Success?
    ensures r.Failure? ==> r.error == ValueError
    ensures r.Success? ==> fresh(r.value) && r.value.GetMove() == Decode(algebraicString, inputColor).value
    ensures r.Success? ==> (r.value.exit == 0 <==> r.value.OnBoard())
  {
    var converter := new Converter(algebraicString, inputColor);
    var ok := converter.Dispatch();
    if ok {
      r := Success(converter);
    } else {
      r := Failure(ValueError);
    }
  }
}
