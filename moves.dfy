// The Move and CastleRights values of both engines, move identity and algebraic notation.

module Moves {
  import opened Pieces

  /** Castling availability: white/black king side, white/black queen side. */
  datatype CastleRights = CastleRights(wks: bool, bks: bool, wqs: bool, bqs: bool)

  datatype Move = Move(
    startRow: Coord, startCol: Coord, endRow: Coord, endCol: Coord,
    pieceMoved: Piece, pieceCaptured: Piece,
    isPawnPromotion: bool, isEnpassantMove: bool, isCapture: bool, castle: bool,
    moveId: int)

  function MoveId(sr: int, sc: int, er: int, ec: int): int {
    sr * 1000 + sc * 100 + er * 10 + ec
  }

  /** A white pawn arriving on row 0 or a black pawn arriving on row 7 is promoted. */
  predicate PromotesOn(moved: Piece, endRow: int) {
    (moved == Occupied(White, Pawn) && endRow == 0) || (moved == Occupied(Black, Pawn) && endRow == 7)
  }

  /** The piece an en-passant move removes: a white pawn when a black pawn moves, else a black pawn. */
  function EnPassantVictim(moved: Piece): Piece {
    if moved == Occupied(Black, Pawn) then Occupied(White, Pawn) else Occupied(Black, Pawn)
  }

  /** Move construction of the primary engine: the capture flag is computed after the
      en-passant override of the captured piece. */
  function NewMove(start: Cell, end: Cell, b: Board, isEnpassantMove: bool, castle: bool): Move {
    var moved := b[start.row][start.col];
    var captured := if isEnpassantMove then EnPassantVictim(moved) else b[end.row][end.col];
    Move(start.row, start.col, end.row, end.col, moved, captured,
         PromotesOn(moved, end.row), isEnpassantMove, captured != Empty, castle,
         MoveId(start.row, start.col, end.row, end.col))
  }

  /** Move construction of the second engine: the capture flag is computed from the end
      square before the en-passant override. */
  function NewLegacyMove(start: Cell, end: Cell, b: Board, isEnpassantMove: bool, castle: bool): Move {
    var moved := b[start.row][start.col];
    var captured := if isEnpassantMove then EnPassantVictim(moved) else b[end.row][end.col];
    Move(start.row, start.col, end.row, end.col, moved, captured,
         PromotesOn(moved, end.row), isEnpassantMove, b[end.row][end.col] != Empty, castle,
         MoveId(start.row, start.col, end.row, end.col))
  }

  /** Move equality in both engines compares move ids only. */
  predicate SameMove(a: Move, b: Move) {
    a.moveId == b.moveId
  }

  function StartOf(m: Move): Cell {
    Sq(m.startRow, m.startCol)
  }

  function EndOf(m: Move): Cell {
    Sq(m.endRow, m.endCol)
  }

  /** The index of the first move in ms equal to x (same id), or -1 (Python's list.index). */
  function IndexOfMove(ms: seq<Move>, x: Move): (k: int)
    ensures -1 <= k < |ms|
    ensures k >= 0 ==> SameMove(ms[k], x) && forall j | 0 <= j < k :: !SameMove(ms[j], x)
    ensures k < 0 ==> forall j | 0 <= j < |ms| :: !SameMove(ms[j], x)
  {
    if |ms| == 0 then -1
    else if SameMove(ms[0], x) then 0
    else
      var k := IndexOfMove(ms[1..], x);
      if k < 0 then -1 else k + 1
  }

  /** ms without its first move equal to x (Python's list.remove, which compares with __eq__). */
  function RemoveFirstMove(ms: seq<Move>, x: Move): (r: seq<Move>)
    ensures IndexOfMove(ms, x) >= 0 ==> r == ms[..IndexOfMove(ms, x)] + ms[IndexOfMove(ms, x) + 1..]
    ensures IndexOfMove(ms, x) < 0 ==> r == ms
  {
    var k := IndexOfMove(ms, x);
    if k < 0 then ms else ms[..k] + ms[k + 1..]
  }

  /** The start and end squares encoded in a move id (one decimal digit per coordinate). */
  function DecodeId(id: int): (Square, Square) {
    (Sq(id / 1000, (id / 100) % 10), Sq((id / 10) % 10, id % 10))
  }

  /** The move id of on-board squares decodes back to those squares. */
  lemma DecodeMoveId(sr: Coord, sc: Coord, er: Coord, ec: Coord)
    ensures DecodeId(MoveId(sr, sc, er, ec)) == (Sq(sr, sc), Sq(er, ec))
  {
    var id := MoveId(sr, sc, er, ec);
    assert id == ((sr * 10 + sc) * 10 + er) * 10 + ec;
    assert id % 10 == ec && id / 10 == (sr * 10 + sc) * 10 + er;
    assert (id / 10) % 10 == er && id / 100 == sr * 10 + sc;
    assert (id / 100) % 10 == sc && id / 1000 == sr;
  }

  /** Two constructed moves are equal (same id) exactly when they join the same squares,
      whatever the boards and flags they were built with. */
  lemma SameMoveIffSameSquares(s1: Cell, e1: Cell, b1: Board, ep1: bool, c1: bool,
                               s2: Cell, e2: Cell, b2: Board, ep2: bool, c2: bool)
    ensures SameMove(NewMove(s1, e1, b1, ep1, c1), NewMove(s2, e2, b2, ep2, c2))
            <==> s1 == s2 && e1 == e2
    ensures SameMove(NewLegacyMove(s1, e1, b1, ep1, c1), NewLegacyMove(s2, e2, b2, ep2, c2))
            <==> s1 == s2 && e1 == e2
  {
    DecodeMoveId(s1.row, s1.col, e1.row, e1.col);
    DecodeMoveId(s2.row, s2.col, e2.row, e2.col);
  }

  /** Moves built from the same board at the same squares are equal in every field once
      their ids agree, except for the flags passed in. */
  lemma SameMoveSamePieces(s1: Cell, e1: Cell, s2: Cell, e2: Cell, b: Board, ep: bool, c: bool)
    requires SameMove(NewMove(s1, e1, b, ep, c), NewMove(s2, e2, b, ep, c))
    ensures NewMove(s1, e1, b, ep, c) == NewMove(s2, e2, b, ep, c)
  {
    SameMoveIffSameSquares(s1, e1, b, ep, c, s2, e2, b, ep, c);
  }

  /** Promotion is flagged exactly for a pawn reaching the far rank of its own colour. */
  lemma PromotionFlag(start: Cell, end: Cell, b: Board, ep: bool, c: bool)
    ensures var m := NewMove(start, end, b, ep, c);
            m.isPawnPromotion <==>
              (IsKind(m.pieceMoved, Pawn) && end.row == (if m.pieceMoved.color == White then 0 else 7))
    ensures NewLegacyMove(start, end, b, ep, c).isPawnPromotion == NewMove(start, end, b, ep, c).isPawnPromotion
  {
  }

  /** An en-passant move by a pawn captures the opposite-coloured pawn; the primary engine
      flags it as a capture, the second engine does not when the landing square is empty. */
  lemma EnPassantCapture(start: Cell, end: Cell, b: Board, c: bool)
    requires IsKind(b[start.row][start.col], Pawn)
    ensures var m := NewMove(start, end, b, true, c);
            m.pieceCaptured == Occupied(Opponent(m.pieceMoved.color), Pawn) && m.isCapture
    ensures var m := NewLegacyMove(start, end, b, true, c);
            m.pieceCaptured == Occupied(Opponent(m.pieceMoved.color), Pawn)
            && (m.isCapture <==> b[end.row][end.col] != Empty)
  {
  }

  /** Without en passant, both engines record the end square's content as the captured piece
      and flag a capture exactly when that square is occupied. */
  lemma OrdinaryCapture(start: Cell, end: Cell, b: Board, c: bool)
    ensures var m := NewMove(start, end, b, false, c);
            m.pieceCaptured == b[end.row][end.col] && (m.isCapture <==> b[end.row][end.col] != Empty)
    ensures NewLegacyMove(start, end, b, false, c) == NewMove(start, end, b, false, c)
  {
  }

  // ----- Algebraic notation -----

  function RanksToRows(): map<char, int>
  {
    map['1' := 7, '2' := 6, '3' := 5, '4' := 4, '5' := 3, '6' := 2, '7' := 1, '8' := 0]
  }

  function FilesToCols(): map<char, int>
  {
    map['a' := 0, 'b' := 1, 'c' := 2, 'd' := 3, 'e' := 4, 'f' := 5, 'g' := 6, 'h' := 7]
  }

  /** rowsToRanks, the inverse of RanksToRows. */
  function RowsToRanks(): map<int, char>
  {
    map[7 := '1', 6 := '2', 5 := '3', 4 := '4', 3 := '5', 2 := '6', 1 := '7', 0 := '8']
  }

  /** colsToFiles, the inverse of FilesToCols. */
  function ColsToFiles(): map<int, char>
  {
    map[0 := 'a', 1 := 'b', 2 := 'c', 3 := 'd', 4 := 'e', 5 := 'f', 6 := 'g', 7 := 'h']
  }

  /** getRankFile: file letter followed by rank digit. */
  function RankFile(r: Coord, c: Coord): string {
    [ColsToFiles()[c], RowsToRanks()[r]]
  }

  /** The name of a square reads back, through the rank and file tables, as that square;
      the letter is 'a' + column and the digit is '8' - row. */
  lemma RankFileRoundTrip(r: Coord, c: Coord)
    ensures var s := RankFile(r, c);
            |s| == 2 && s[0] == ('a' as int + c) as char && s[1] == ('8' as int - r) as char
            && s[0] in FilesToCols() && FilesToCols()[s[0]] == c
            && s[1] in RanksToRows() && RanksToRows()[s[1]] == r
  {
    if r == 0 {} else if r == 1 {} else if r == 2 {} else if r == 3 {}
    else if r == 4 {} else if r == 5 {} else if r == 6 {} else {}
    if c == 0 {} else if c == 1 {} else if c == 2 {} else if c == 3 {}
    else if c == 4 {} else if c == 5 {} else if c == 6 {} else {}
  }

  /** getChessNotation: start square name followed by end square name. */
  function ChessNotation(m: Move): string {
    RankFile(m.startRow, m.startCol) + RankFile(m.endRow, m.endCol)
  }

  /** The four-character notation determines the start and end squares. */
  lemma ChessNotationDeterminesSquares(a: Move, b: Move)
    ensures ChessNotation(a) == ChessNotation(b) <==> StartOf(a) == StartOf(b) && EndOf(a) == EndOf(b)
  {
    RankFileRoundTrip(a.startRow, a.startCol);
    RankFileRoundTrip(a.endRow, a.endCol);
    RankFileRoundTrip(b.startRow, b.startCol);
    RankFileRoundTrip(b.endRow, b.endCol);
    if ChessNotation(a) == ChessNotation(b) {
      assert ChessNotation(a)[0] == ChessNotation(b)[0] && ChessNotation(a)[1] == ChessNotation(b)[1];
      assert ChessNotation(a)[2] == ChessNotation(b)[2] && ChessNotation(a)[3] == ChessNotation(b)[3];
    }
  }

  /** __str__: castling as O-O / O-O-O, pawn moves as the end square (preceded by the start file
      and 'x' for a capture), other moves as kind letter, optional 'x', end square. */
  function ToString(m: Move): string {
    if m.castle then (if m.endCol == 6 then "O-O" else "O-O-O")
    else
      var endSquare := RankFile(m.endRow, m.endCol);
      if Code(m.pieceMoved)[1] == 'p' then
        (if m.isCapture then [ColsToFiles()[m.startCol]] + "x" + endSquare else endSquare)
      else
        [Code(m.pieceMoved)[1]] + (if m.isCapture then "x" else "") + endSquare
  }

  /** The text of a non-castling move ends with the end square's name and contains an 'x'
      exactly when the move is a capture; castling reads "O-O" exactly when it ends on column 6. */
  lemma ToStringShape(m: Move)
    ensures m.castle ==> (ToString(m) == "O-O" <==> m.endCol == 6)
    ensures !m.castle ==> var s := ToString(m);
              |s| >= 2 && s[|s| - 2..] == RankFile(m.endRow, m.endCol) && ('x' in s <==> m.isCapture)
  {
    RankFileRoundTrip(m.endRow, m.endCol);
    RankFileRoundTrip(m.startRow, m.startCol);
    if m.castle {
      assert "O-O-O" != "O-O" by { assert |"O-O-O"| != |"O-O"|; }
    } else {
      var s := ToString(m);
      var e := RankFile(m.endRow, m.endCol);
      assert 'x' !in e;
      if Code(m.pieceMoved)[1] == 'p' {
        if m.isCapture {
          assert s == [ColsToFiles()[m.startCol]] + "x" + e;
          assert s[1] == 'x';
        }
      } else {
        assert Code(m.pieceMoved)[1] != 'x';
        if m.isCapture {
          assert s == [Code(m.pieceMoved)[1]] + "x" + e;
          assert s[1] == 'x';
        } else {
          assert s == [Code(m.pieceMoved)[1]] + e;
        }
      }
    }
  }
}
