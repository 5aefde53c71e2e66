// The game state of the primary engine (chess_engine.py) as a value, with the
// state transitions of makeMove, undoMove and updateCastleRights and their history invariant.

module EngineState {
  import opened Wrappers
  import opened Pieces
  import opened Moves

  /** The piece a promoting pawn becomes (the key pressed in the promotion prompt). */
  type PromotionKind = k: Kind | k != King && k != Pawn witness Queen

  /** Every field of GameState, with the four castling flags grouped as CastleRights. */
  datatype State = State(
    board: Board,
    whiteToMove: bool,
    moveLog: seq<Move>,
    whiteKing: Cell,
    blackKing: Cell,
    inCheck: bool,
    pins: seq<Ray>,
    checks: seq<Ray>,
    checkmate: bool,
    stalemate: bool,
    enpassant: Option<Cell>,
    enpassantLog: seq<Option<Cell>>,
    rights: CastleRights,
    rightsLog: seq<CastleRights>)

  function Last<T>(s: seq<T>): T
    requires |s| > 0
  {
    s[|s| - 1]
  }

  function Front<T>(s: seq<T>): seq<T>
    requires |s| > 0
  {
    s[..|s| - 1]
  }

  /** The position a new game starts from. */
  function Initial(): State {
    var rights := CastleRights(true, true, true, true);
    State(InitialBoard(), true, [], Sq(7, 4), Sq(0, 4), false, [], [], false, false,
          None, [None], rights, [rights])
  }

  /** The history invariant: one en-passant entry and one castling entry per made move plus the
      initial one, the newest entries mirroring the current values, and every logged castling
      move undoable. */
  predicate LogsInv(s: State) {
    |s.enpassantLog| == |s.moveLog| + 1
    && |s.rightsLog| == |s.moveLog| + 1
    && Last(s.enpassantLog) == s.enpassant
    && Last(s.rightsLog) == s.rights
    && forall i | 0 <= i < |s.moveLog| :: RookSquaresOnBoard(s.moveLog[i])
  }

  /** The fields that make/undo keep as a history (everything except the king caches and the
      results of the last legality scan). */
  predicate SamePersistent(s: State, t: State) {
    s.board == t.board && s.whiteToMove == t.whiteToMove && s.moveLog == t.moveLog
    && s.enpassant == t.enpassant && s.enpassantLog == t.enpassantLog
    && s.rights == t.rights && s.rightsLog == t.rightsLog
  }

  // ----- castling rights -----

  /** updateCastleRights: compares the moved piece's code with "wK", "bk", "wR" and "bR". */
  function UpdateCastleRights(r: CastleRights, m: Move): CastleRights {
    var code := Code(m.pieceMoved);
    if code == "wK" then r.(wqs := false, wks := false)
    else if code == "bk" then r.(bqs := false, bks := false)
    else if code == "wR" then
      (if m.startRow == 7 then
         (if m.startCol == 0 then r.(wqs := false) else if m.startCol == 7 then r.(wks := false) else r)
       else r)
    else if code == "bR" then
      (if m.startRow == 0 then
         (if m.startCol == 0 then r.(bqs := false) else if m.startCol == 7 then r.(bks := false) else r)
       else r)
    else r
  }

  /** Castling rights are only ever cleared: a white king move clears both white rights, a rook
      leaving its corner clears that corner's right, and nothing else changes anything. Because
      the black-king test compares with "bk", a black king move leaves every right in place. */
  lemma UpdateCastleRightsEffect(r: CastleRights, m: Move)
    ensures var r' := UpdateCastleRights(r, m);
      (r'.wks ==> r.wks) && (r'.bks ==> r.bks) && (r'.wqs ==> r.wqs) && (r'.bqs ==> r.bqs)
      && (m.pieceMoved == Occupied(White, King) ==> r' == r.(wks := false, wqs := false))
      && (m.pieceMoved == Occupied(Black, King) ==> r' == r)
      && (m.pieceMoved == Occupied(White, Rook) ==>
            r' == (if m.startRow == 7 && m.startCol == 0 then r.(wqs := false)
                   else if m.startRow == 7 && m.startCol == 7 then r.(wks := false) else r))
      && (m.pieceMoved == Occupied(Black, Rook) ==>
            r' == (if m.startRow == 0 && m.startCol == 0 then r.(bqs := false)
                   else if m.startRow == 0 && m.startCol == 7 then r.(bks := false) else r))
      && (m.pieceMoved.Empty? || m.pieceMoved.kind !in {King, Rook} ==> r' == r)
  {
    var p := m.pieceMoved;
    NoPieceIsCodedLowercaseBk(p);
    CodeInjective(p, Occupied(White, King));
    CodeInjective(p, Occupied(White, Rook));
    CodeInjective(p, Occupied(Black, Rook));
    assert Code(Occupied(White, King)) == "wK";
    assert Code(Occupied(White, Rook)) == "wR";
    assert Code(Occupied(Black, Rook)) == "bR";
  }

  // ----- makeMove / undoMove -----

  /** The en-passant target after a move: the square a pawn skipped over with a two-row move. */
  function EnPassantTarget(m: Move): Option<Cell> {
    if IsKind(m.pieceMoved, Pawn) && (m.startRow - m.endRow == 2 || m.endRow - m.startRow == 2) then
      Some(Sq((m.startRow + m.endRow) / 2, m.startCol))
    else None
  }

  predicate KingsideCastle(m: Move) {
    m.endCol - m.startCol == 2
  }

  /** The squares the castling rook is moved between lie on the board (the source indexes
      endCol + 1, and endCol - 2 on the queen side, without a bounds check). */
  predicate RookSquaresOnBoard(m: Move) {
    m.castle ==> if KingsideCastle(m) then m.endCol + 1 <= 7 else 0 <= m.endCol - 2 && m.endCol + 1 <= 7
  }

  /** The rook jump of a castling move. */
  function CastleRookOut(b: Board, m: Move): Board
    requires m.castle && RookSquaresOnBoard(m)
  {
    if KingsideCastle(m) then
      Put(Put(b, m.endRow, m.endCol - 1, b[m.endRow][m.endCol + 1]), m.endRow, m.endCol + 1, Empty)
    else
      Put(Put(b, m.endRow, m.endCol + 1, b[m.endRow][m.endCol - 2]), m.endRow, m.endCol - 2, Empty)
  }

  /** The rook jump of a castling move, taken back. */
  function CastleRookBack(b: Board, m: Move): Board
    requires m.castle && RookSquaresOnBoard(m)
  {
    if KingsideCastle(m) then
      Put(Put(b, m.endRow, m.endCol + 1, b[m.endRow][m.endCol - 1]), m.endRow, m.endCol - 1, Empty)
    else
      Put(Put(b, m.endRow, m.endCol - 2, b[m.endRow][m.endCol + 1]), m.endRow, m.endCol + 1, Empty)
  }

  /** The board after the piece moves, a promotion and an en-passant removal (everything
      makeMove does to the board before the castling rook). */
  function MovedBoard(b: Board, m: Move, promotion: PromotionKind): Board
    requires m.isPawnPromotion ==> m.pieceMoved.Occupied?
  {
    var b1 := Put(Put(b, m.endRow, m.endCol, m.pieceMoved), m.startRow, m.startCol, Empty);
    var b2 := if m.isPawnPromotion then Put(b1, m.endRow, m.endCol, Occupied(m.pieceMoved.color, promotion)) else b1;
    if m.isEnpassantMove then Put(b2, m.startRow, m.endCol, Empty) else b2
  }

  /** The turn passes, and a king that moved (to or back to `to`) takes its cached square along. */
  function PassTurn(s: State, moved: Piece, to: Cell): State {
    s.(whiteToMove := !s.whiteToMove,
       whiteKing := if moved == Occupied(White, King) then to else s.whiteKing,
       blackKing := if moved == Occupied(Black, King) then to else s.blackKing)
  }

  /** The start of makeMove: the piece moves (promoting, or taking a pawn en passant), the move
      is logged, the turn passes and a moving king's cached square follows it. */
  function MovePieces(s: State, m: Move, promotion: PromotionKind): State
    requires m.isPawnPromotion ==> m.pieceMoved.Occupied?
  {
    PassTurn(s.(board := MovedBoard(s.board, m, promotion), moveLog := s.moveLog + [m]), m.pieceMoved, EndOf(m))
  }

  /** Set the en-passant target for m and log it. */
  function PushEnPassant(s: State, m: Move): State {
    var ep := EnPassantTarget(m);
    s.(enpassant := ep, enpassantLog := s.enpassantLog + [ep])
  }

  /** Update the castling rights for m and log them. */
  function PushRights(s: State, m: Move): State {
    var rights := UpdateCastleRights(s.rights, m);
    s.(rights := rights, rightsLog := s.rightsLog + [rights])
  }

  /** Jump the rook of a castling move; false where its squares are off the board. */
  function PutRookOut(s: State, m: Move): (State, bool) {
    if !m.castle then (s, true)
    else if !RookSquaresOnBoard(m) then (s, false)
    else (s.(board := CastleRookOut(s.board, m)), true)
  }

  /** makeMove. The second component is false when the castling rook's squares are off the
      board, where the source fails after every other update has been made. */
  function MakeMove(s: State, m: Move, promotion: PromotionKind): (State, bool)
    requires m.isPawnPromotion ==> m.pieceMoved.Occupied?
  {
    PutRookOut(PushRights(PushEnPassant(MovePieces(s, m, promotion), m), m), m)
  }

  /** The board after undoMove puts the pieces of move m back (before the castling rook). */
  function RestoredBoard(b: Board, m: Move): Board {
    var b1 := Put(Put(b, m.startRow, m.startCol, m.pieceMoved), m.endRow, m.endCol, m.pieceCaptured);
    if m.isEnpassantMove then Put(Put(b1, m.endRow, m.endCol, Empty), m.startRow, m.endCol, m.pieceCaptured)
    else b1
  }

  /** The first part of undoMove: pop the last move, put its pieces back, hand the turn back
      and move a king's cached square back to where it started. */
  function UndoPieces(s: State): State
    requires |s.moveLog| > 0
  {
    var m := Last(s.moveLog);
    PassTurn(s.(moveLog := Front(s.moveLog), board := RestoredBoard(s.board, m)), m.pieceMoved, StartOf(m))
  }

  /** Pop the en-passant log and take its new last entry as the target; false where the source
      pops an empty log or then reads an empty one. */
  function PopEnPassantLog(s: State): (State, bool) {
    if |s.enpassantLog| < 2 then
      (s.(enpassantLog := if |s.enpassantLog| == 0 then [] else Front(s.enpassantLog)), false)
    else
      (s.(enpassantLog := Front(s.enpassantLog), enpassant := Last(Front(s.enpassantLog))), true)
  }

  /** Pop the castle-rights log and take its new last entry as the rights, failing as above. */
  function PopRightsLog(s: State): (State, bool) {
    if |s.rightsLog| < 2 then
      (s.(rightsLog := if |s.rightsLog| == 0 then [] else Front(s.rightsLog)), false)
    else
      (s.(rightsLog := Front(s.rightsLog), rights := Last(Front(s.rightsLog))), true)
  }

  /** The end of undoMove: put the castling rook of m back and clear the end-of-game flags;
      false (with nothing changed) where the rook's squares are off the board. */
  function PutRookBack(s: State, m: Move): (State, bool) {
    if m.castle && !RookSquaresOnBoard(m) then (s, false)
    else
      var b := if m.castle then CastleRookBack(s.board, m) else s.board;
      (s.(board := b, checkmate := false, stalemate := false), true)
  }

  /** undoMove after the pieces are back: pop the two history logs, then finish. */
  function UndoHistory(s: State, m: Move): (State, bool) {
    var (s1, epOk) := PopEnPassantLog(s);
    if !epOk then (s1, false)
    else
      var (s2, rightsOk) := PopRightsLog(s1);
      if !rightsOk then (s2, false)
      else PutRookBack(s2, m)
  }

  /** undoMove. Nothing happens on an empty move log. The second component is false where the
      source fails: a history log that runs out, or castling rook squares off the board; the
      state is then the one reached just before the failing step. */
  function UndoMove(s: State): (State, bool) {
    if |s.moveLog| == 0 then (s, true)
    else UndoHistory(UndoPieces(s), Last(s.moveLog))
  }

  /** A two-row pawn move leaves the skipped square as the en-passant target (strictly between
      start and end on the start column); any other move clears the target. */
  lemma EnPassantAfterMake(s: State, m: Move, promotion: PromotionKind)
    requires m.isPawnPromotion ==> m.pieceMoved.Occupied?
    ensures var ep := MakeMove(s, m, promotion).0.enpassant;
      (ep.Some? <==> IsKind(m.pieceMoved, Pawn) && (m.startRow - m.endRow == 2 || m.endRow - m.startRow == 2))
      && (ep.Some? ==>
            (ep.value.col == m.startCol
             && ep.value.row - m.startRow == m.endRow - ep.value.row
             && (ep.value.row - m.startRow == 1 || m.startRow - ep.value.row == 1)))
  {
  }

  /** makeMove keeps the history invariant, pushing exactly one entry on each log. */
  lemma MakeMoveKeepsLogs(s: State, m: Move, promotion: PromotionKind)
    requires m.isPawnPromotion ==> m.pieceMoved.Occupied?
    requires LogsInv(s) && MakeMove(s, m, promotion).1
    ensures var t := MakeMove(s, m, promotion).0;
      LogsInv(t) && t.moveLog == s.moveLog + [m]
      && t.enpassantLog == s.enpassantLog + [t.enpassant] && t.rightsLog == s.rightsLog + [t.rights]
  {
    var t := MakeMove(s, m, promotion).0;
    forall i | 0 <= i < |t.moveLog| ensures RookSquaresOnBoard(t.moveLog[i]) {
      if i < |s.moveLog| {
        assert t.moveLog[i] == s.moveLog[i];
      }
    }
  }

  /** undoMove succeeds under the history invariant and keeps it, popping one entry from each
      log and restoring the en-passant target and castling rights from the new newest entries. */
  lemma UndoMoveKeepsLogs(s: State)
    requires LogsInv(s)
    ensures UndoMove(s).1
    ensures var t := UndoMove(s).0;
      LogsInv(t)
      && (|s.moveLog| > 0 ==> t.moveLog == Front(s.moveLog) && t.enpassantLog == Front(s.enpassantLog)
                              && t.rightsLog == Front(s.rightsLog))
  {
    if |s.moveLog| > 0 {
      var t := UndoMove(s).0;
      assert Last(s.moveLog) == s.moveLog[|s.moveLog| - 1];
      forall i | 0 <= i < |t.moveLog| ensures RookSquaresOnBoard(t.moveLog[i]) {
        assert t.moveLog[i] == s.moveLog[i];
      }
    }
  }

  /** What a move must satisfy on the board it is made on for undoMove to restore that board:
      it moves the piece on its start square to a different end square and records the piece it
      captures; an en-passant capture lands on an empty square diagonally in front of the
      captured pawn; a castling move is a two-column king move along a row whose square next to
      the king on the castling side is empty. */
  predicate Reversible(b: Board, m: Move) {
    StartOf(m) != EndOf(m)
    && m.pieceMoved == b[m.startRow][m.startCol]
    && (m.isPawnPromotion ==> m.pieceMoved.Occupied?)
    && (if m.isEnpassantMove then
          !m.castle && m.startRow != m.endRow && m.startCol != m.endCol
          && b[m.endRow][m.endCol] == Empty && b[m.startRow][m.endCol] == m.pieceCaptured
        else m.pieceCaptured == b[m.endRow][m.endCol])
    && (m.castle ==>
          m.startRow == m.endRow
          && ((m.endCol == m.startCol + 2 && b[m.endRow][m.startCol + 1] == Empty)
              || (m.endCol == m.startCol - 2 && b[m.endRow][m.startCol - 1] == Empty)))
  }

  /** The king cache of the moving side points at the moving king. */
  predicate KingCacheFits(s: State, m: Move) {
    (m.pieceMoved == Occupied(White, King) ==> s.whiteKing == StartOf(m))
    && (m.pieceMoved == Occupied(Black, King) ==> s.blackKing == StartOf(m))
  }

  lemma RestoredMovedBoard(b: Board, m: Move, promotion: PromotionKind)
    requires Reversible(b, m) && RookSquaresOnBoard(m)
    ensures var b1 := MovedBoard(b, m, promotion);
            var b2 := if m.castle then CastleRookOut(b1, m) else b1;
            var b3 := RestoredBoard(b2, m);
            (if m.castle then CastleRookBack(b3, m) else b3) == b
  {
    var b1 := MovedBoard(b, m, promotion);
    var b2 := if m.castle then CastleRookOut(b1, m) else b1;
    var b3 := RestoredBoard(b2, m);
    var b4 := if m.castle then CastleRookBack(b3, m) else b3;
    forall i, j | 0 <= i < 8 && 0 <= j < 8 ensures b4[i][j] == b[i][j] {
    }
    BoardExtensionality(b4, b);
  }

  /** undoMove takes back any makeMove it follows: board, side to move, history logs,
      en-passant target and castling rights return to what they were, whatever the king caches
      and scan results were changed to in between; the moving king's cache returns to its start. */
  lemma UndoAfterMake(s: State, m: Move, promotion: PromotionKind, t: State)
    requires LogsInv(s) && Reversible(s.board, m)
    requires MakeMove(s, m, promotion).1
    requires SamePersistent(t, MakeMove(s, m, promotion).0)
    ensures UndoMove(t).1
    ensures var u := UndoMove(t).0;
      SamePersistent(u, s) && !u.checkmate && !u.stalemate
      && u.inCheck == t.inCheck && u.pins == t.pins && u.checks == t.checks
      && u.whiteKing == (if m.pieceMoved == Occupied(White, King) then StartOf(m) else t.whiteKing)
      && u.blackKing == (if m.pieceMoved == Occupied(Black, King) then StartOf(m) else t.blackKing)
  {
    var mk := MakeMove(s, m, promotion).0;
    assert Last(t.moveLog) == m;
    assert Front(t.moveLog) == s.moveLog;
    assert Front(t.enpassantLog) == s.enpassantLog;
    assert Front(t.rightsLog) == s.rightsLog;
    RestoredMovedBoard(s.board, m, promotion);
  }

  /** makeMove followed by undoMove gives back the state it started from, except that the
      checkmate and stalemate flags are cleared. */
  lemma MakeUndoRoundTrip(s: State, m: Move, promotion: PromotionKind)
    requires LogsInv(s) && Reversible(s.board, m) && KingCacheFits(s, m)
    requires MakeMove(s, m, promotion).1
    ensures UndoMove(MakeMove(s, m, promotion).0) == (s.(checkmate := false, stalemate := false), true)
  {
    UndoAfterMake(s, m, promotion, MakeMove(s, m, promotion).0);
  }
}
