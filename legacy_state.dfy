// The game state of the second engine (ChessEngine.py) as a value, with the state transitions
// of make_move, undo_move and update_castle_rights. The board-level steps are the same code as
// in the primary engine and are taken from EngineState; the histories behave differently: the
// en-passant history is only popped when an en-passant capture is taken back.

module LegacyState {
  import opened Wrappers
  import opened Pieces
  import opened Moves
  import EngineState

  type PromotionKind = EngineState.PromotionKind

  /** Every field of the second engine's GameState. A pin entry is None where the pin scan
      stored the empty tuple `()`. */
  datatype State = State(
    board: Board,
    whiteToMove: bool,
    moveLog: seq<Move>,
    whiteKing: Cell,
    blackKing: Cell,
    inCheck: bool,
    pins: seq<Option<Ray>>,
    checks: seq<Ray>,
    checkmate: bool,
    stalemate: bool,
    enpassant: Option<Cell>,
    enpassantLog: seq<Option<Cell>>,
    rights: CastleRights,
    rightsLog: seq<CastleRights>)

  function Last<T>(s: seq<T>): T
    requires |s| > 0
  {
    s[|s| - 1]
  }

  function Front<T>(s: seq<T>): seq<T>
    requires |s| > 0
  {
    s[..|s| - 1]
  }

  /** The position a new game starts from. */
  function Initial(): State {
    var rights := CastleRights(true, true, true, true);
    State(InitialBoard(), true, [], Sq(7, 4), Sq(0, 4), false, [], [], false, false,
          None, [None], rights, [rights])
  }

  /** The history invariant: one castling entry per made move plus the initial one, at least as
      many en-passant entries (undoing an ordinary move leaves that history alone), the newest
      entries mirroring the current values, and every logged castling move undoable. */
  predicate LogsInv(s: State) {
    |s.enpassantLog| >= |s.moveLog| + 1
    && |s.rightsLog| == |s.moveLog| + 1
    && Last(s.enpassantLog) == s.enpassant
    && Last(s.rightsLog) == s.rights
    && forall i | 0 <= i < |s.moveLog| :: EngineState.RookSquaresOnBoard(s.moveLog[i])
  }

  // ----- castling rights -----

  /** update_castle_rights: compares the moved piece's code with "wK", "bK", "wR" and "bR". */
  function UpdateCastleRights(r: CastleRights, m: Move): CastleRights {
    var code := Code(m.pieceMoved);
    if code == "wK" then r.(wqs := false, wks := false)
    else if code == "bK" then r.(bqs := false, bks := false)
    else if code == "wR" then
      (if m.startRow == 7 then
         (if m.startCol == 0 then r.(wqs := false) else if m.startCol == 7 then r.(wks := false) else r)
       else r)
    else if code == "bR" then
      (if m.startRow == 0 then
         (if m.startCol == 0 then r.(bqs := false) else if m.startCol == 7 then r.(bks := false) else r)
       else r)
    else r
  }

  /** Castling rights are only ever cleared: either king clears both rights of its colour, a
      rook leaving its corner clears that corner's right, and no other move changes anything. */
  lemma UpdateCastleRightsEffect(r: CastleRights, m: Move)
    ensures var r' := UpdateCastleRights(r, m);
      (r'.wks ==> r.wks) && (r'.bks ==> r.bks) && (r'.wqs ==> r.wqs) && (r'.bqs ==> r.bqs)
      && (m.pieceMoved == Occupied(White, King) ==> r' == r.(wks := false, wqs := false))
      && (m.pieceMoved == Occupied(Black, King) ==> r' == r.(bks := false, bqs := false))
      && (m.pieceMoved == Occupied(White, Rook) ==>
            r' == (if m.startRow == 7 && m.startCol == 0 then r.(wqs := false)
                   else if m.startRow == 7 && m.startCol == 7 then r.(wks := false) else r))
      && (m.pieceMoved == Occupied(Black, Rook) ==>
            r' == (if m.startRow == 0 && m.startCol == 0 then r.(bqs := false)
                   else if m.startRow == 0 && m.startCol == 7 then r.(bks := false) else r))
      && (m.pieceMoved.Empty? || m.pieceMoved.kind !in {King, Rook} ==> r' == r)
  {
    var p := m.pieceMoved;
    CodeInjective(p, Occupied(White, King));
    CodeInjective(p, Occupied(Black, King));
    CodeInjective(p, Occupied(White, Rook));
    CodeInjective(p, Occupied(Black, Rook));
    assert Code(Occupied(White, King)) == "wK";
    assert Code(Occupied(Black, King)) == "bK";
    assert Code(Occupied(White, Rook)) == "wR";
    assert Code(Occupied(Black, Rook)) == "bR";
  }

  /** The two engines' castling-rights updates differ only for a black king move, which the
      primary engine's "bk" test misses and this engine's "bK" test catches. */
  lemma RightsVersusPrimary(r: CastleRights, m: Move)
    ensures m.pieceMoved != Occupied(Black, King) ==> UpdateCastleRights(r, m) == EngineState.UpdateCastleRights(r, m)
    ensures m.pieceMoved == Occupied(Black, King) ==>
      EngineState.UpdateCastleRights(r, m) == r && UpdateCastleRights(r, m) == r.(bks := false, bqs := false)
  {
    UpdateCastleRightsEffect(r, m);
    EngineState.UpdateCastleRightsEffect(r, m);
  }

  // ----- make_move -----

  /** The start of make_move: the piece moves (promoting, or taking a pawn en passant), the move
      is logged, the turn passes and a moving king's cached square follows it. */
  function MovePieces(s: State, m: Move, promotion: PromotionKind): State
    requires m.isPawnPromotion ==> m.pieceMoved.Occupied?
  {
    s.(board := EngineState.MovedBoard(s.board, m, promotion),
       moveLog := s.moveLog + [m],
       whiteToMove := !s.whiteToMove,
       whiteKing := if m.pieceMoved == Occupied(White, King) then EndOf(m) else s.whiteKing,
       blackKing := if m.pieceMoved == Occupied(Black, King) then EndOf(m) else s.blackKing)
  }

  /** Set the en-passant target for m and push it on the en-passant history. */
  function PushEnPassant(s: State, m: Move): State {
    var ep := EngineState.EnPassantTarget(m);
    s.(enpassant := ep, enpassantLog := s.enpassantLog + [ep])
  }

  /** Update the castling rights for m and push them on the castling history. */
  function PushRights(s: State, m: Move): State {
    var rights := UpdateCastleRights(s.rights, m);
    s.(rights := rights, rightsLog := s.rightsLog + [rights])
  }

  /** Jump the rook of a castling move; false where its squares are off the board. */
  function PutRookOut(s: State, m: Move): (State, bool) {
    if !m.castle then (s, true)
    else if !EngineState.RookSquaresOnBoard(m) then (s, false)
    else (s.(board := EngineState.CastleRookOut(s.board, m)), true)
  }

  /** make_move. The second component is false when the castling rook's squares are off the
      board, where the source fails after every other update has been made. */
  function MakeMove(s: State, m: Move, promotion: PromotionKind): (State, bool)
    requires m.isPawnPromotion ==> m.pieceMoved.Occupied?
  {
    PutRookOut(PushRights(PushEnPassant(MovePieces(s, m, promotion), m), m), m)
  }

  /** What make_move does besides moving the pieces on the board: the turn passes, a moving
      king takes its cache along, exactly one entry is pushed on each of the two histories, and
      it fails only where a castling rook's squares are off the board. */
  lemma MakeMoveEffect(s: State, m: Move, promotion: PromotionKind)
    requires m.isPawnPromotion ==> m.pieceMoved.Occupied?
    ensures var (t, ok) := MakeMove(s, m, promotion);
      (ok <==> EngineState.RookSquaresOnBoard(m))
      && t.whiteToMove == !s.whiteToMove
      && t.moveLog == s.moveLog + [m]
      && t.enpassant == EngineState.EnPassantTarget(m)
      && t.enpassantLog == s.enpassantLog + [t.enpassant]
      && t.rights == UpdateCastleRights(s.rights, m)
      && t.rightsLog == s.rightsLog + [t.rights]
      && t.whiteKing == (if m.pieceMoved == Occupied(White, King) then EndOf(m) else s.whiteKing)
      && t.blackKing == (if m.pieceMoved == Occupied(Black, King) then EndOf(m) else s.blackKing)
  {
  }

  /** On a board where the move can be made, the moving piece (or the piece it promotes to)
      stands on the end square after make_move and the start square is empty. */
  lemma MakeMoveBoard(s: State, m: Move, promotion: PromotionKind)
    requires EngineState.Reversible(s.board, m) && MakeMove(s, m, promotion).1
    ensures var t := MakeMove(s, m, promotion).0;
      t.board[m.endRow][m.endCol] == (if m.isPawnPromotion then Occupied(m.pieceMoved.color, promotion) else m.pieceMoved)
      && t.board[m.startRow][m.startCol] == Empty
  {
  }

  // ----- undo_move -----

  /** The first part of undo_move: pop the last move, put its pieces back (the captured pawn of
      an en-passant move beside the start), hand the turn back and move a king's cache back. */
  function UndoPieces(s: State): State
    requires |s.moveLog| > 0
  {
    var m := Last(s.moveLog);
    s.(moveLog := Front(s.moveLog),
       board := EngineState.RestoredBoard(s.board, m),
       whiteToMove := !s.whiteToMove,
       whiteKing := if m.pieceMoved == Occupied(White, King) then StartOf(m) else s.whiteKing,
       blackKing := if m.pieceMoved == Occupied(Black, King) then StartOf(m) else s.blackKing)
  }

  /** Pop the en-passant history and take its new last entry as the target; false where the
      source pops an empty history or then reads an empty one. */
  function PopEnPassantLog(s: State): (State, bool) {
    if |s.enpassantLog| < 2 then
      (s.(enpassantLog := if |s.enpassantLog| == 0 then [] else Front(s.enpassantLog)), false)
    else
      (s.(enpassantLog := Front(s.enpassantLog), enpassant := Last(Front(s.enpassantLog))), true)
  }

  /** Pop the castling history and take its new last entry as the rights, failing as above. */
  function PopRightsLog(s: State): (State, bool) {
    if |s.rightsLog| < 2 then
      (s.(rightsLog := if |s.rightsLog| == 0 then [] else Front(s.rightsLog)), false)
    else
      (s.(rightsLog := Front(s.rightsLog), rights := Last(Front(s.rightsLog))), true)
  }

  /** The end of undo_move: put the castling rook of m back and clear the end-of-game flags;
      false (with nothing changed) where the rook's squares are off the board. */
  function PutRookBack(s: State, m: Move): (State, bool) {
    if m.castle && !EngineState.RookSquaresOnBoard(m) then (s, false)
    else
      var b := if m.castle then EngineState.CastleRookBack(s.board, m) else s.board;
      (s.(board := b, checkmate := false, stalemate := false), true)
  }

  /** undo_move after the pieces are back: the en-passant history only for an en-passant
      capture, then the castling history, then the rook. */
  function UndoHistory(s: State, m: Move): (State, bool) {
    var (s1, epOk) := if m.isEnpassantMove then PopEnPassantLog(s) else (s, true);
    if !epOk then (s1, false)
    else
      var (s2, rightsOk) := PopRightsLog(s1);
      if !rightsOk then (s2, false)
      else PutRookBack(s2, m)
  }

  /** undo_move. Nothing happens on an empty move log. The second component is false where the
      source fails: a history that runs out, or castling rook squares off the board; the state
      is then the one reached just before the failing step. */
  function UndoMove(s: State): (State, bool) {
    if |s.moveLog| == 0 then (s, true)
    else UndoHistory(UndoPieces(s), Last(s.moveLog))
  }

  // ----- the histories -----

  /** make_move keeps the history invariant. */
  lemma MakeMoveKeepsLogs(s: State, m: Move, promotion: PromotionKind)
    requires m.isPawnPromotion ==> m.pieceMoved.Occupied?
    requires LogsInv(s) && MakeMove(s, m, promotion).1
    ensures LogsInv(MakeMove(s, m, promotion).0)
  {
    var t := MakeMove(s, m, promotion).0;
    forall i | 0 <= i < |t.moveLog| ensures EngineState.RookSquaresOnBoard(t.moveLog[i]) {
      if i < |s.moveLog| {
        assert t.moveLog[i] == s.moveLog[i];
      }
    }
  }

  /** undo_move is a no-op on an empty log; otherwise, under the history invariant, it succeeds,
      pops the move and the castling history and restores the rights from the new newest entry,
      and pops the en-passant history and restores the target only when the move taken back is
      an en-passant capture; the end-of-game flags are cleared. It keeps the invariant. */
  lemma UndoMoveEffect(s: State)
    requires LogsInv(s)
    ensures |s.moveLog| == 0 ==> UndoMove(s) == (s, true)
    ensures UndoMove(s).1 && LogsInv(UndoMove(s).0)
    ensures |s.moveLog| > 0 ==>
      var t := UndoMove(s).0;
      var m := Last(s.moveLog);
      t.moveLog == Front(s.moveLog)
      && t.rightsLog == Front(s.rightsLog) && t.rights == Last(Front(s.rightsLog))
      && (m.isEnpassantMove ==> t.enpassantLog == Front(s.enpassantLog) && t.enpassant == Last(Front(s.enpassantLog)))
      && (!m.isEnpassantMove ==> t.enpassantLog == s.enpassantLog && t.enpassant == s.enpassant)
      && t.whiteToMove == !s.whiteToMove && !t.checkmate && !t.stalemate
      && t.board == (var b := EngineState.RestoredBoard(s.board, m);
                     if m.castle then EngineState.CastleRookBack(b, m) else b)
  {
    if |s.moveLog| > 0 {
      var t := UndoMove(s).0;
      assert Last(s.moveLog) == s.moveLog[|s.moveLog| - 1];
      forall i | 0 <= i < |t.moveLog| ensures EngineState.RookSquaresOnBoard(t.moveLog[i]) {
        assert t.moveLog[i] == s.moveLog[i];
      }
    }
  }

  /** The fields make_move and undo_move change: everything but the scan results, the
      end-of-game flags and the king caches. */
  predicate SamePersistent(s: State, t: State) {
    s.board == t.board && s.whiteToMove == t.whiteToMove && s.moveLog == t.moveLog
    && s.enpassant == t.enpassant && s.enpassantLog == t.enpassantLog
    && s.rights == t.rights && s.rightsLog == t.rightsLog
  }

  /** undo_move takes back any make_move it follows, whatever the scan fields and king caches
      were changed to in between: it succeeds, clears the end-of-game flags and gives back the
      board, the side to move, the move log and the castling rights and history. */
  lemma UndoAfterMake(s: State, m: Move, promotion: PromotionKind, t: State)
    requires LogsInv(s) && EngineState.Reversible(s.board, m)
    requires MakeMove(s, m, promotion).1
    requires SamePersistent(t, MakeMove(s, m, promotion).0)
    ensures UndoMove(t).1
    ensures var u := UndoMove(t).0;
      u.board == s.board && u.whiteToMove == s.whiteToMove && u.moveLog == s.moveLog
      && u.rights == s.rights && u.rightsLog == s.rightsLog && !u.checkmate && !u.stalemate
  {
    MakeMoveEffect(s, m, promotion);
    MakeMoveKeepsLogs(s, m, promotion);
    assert LogsInv(t);
    UndoMoveEffect(t);
    assert Last(t.moveLog) == m;
    assert Front(t.moveLog) == s.moveLog;
    assert Front(t.rightsLog) == s.rightsLog;
    EngineState.RestoredMovedBoard(s.board, m, promotion);
  }

  /** The en-passant target and its history after undo_move takes back a make_move: restored
      after an en-passant capture, but after any other move they stay as make_move left them,
      the target of that move and one extra history entry. */
  lemma EnPassantAfterUndo(s: State, m: Move, promotion: PromotionKind, t: State)
    requires LogsInv(s) && (m.isPawnPromotion ==> m.pieceMoved.Occupied?)
    requires MakeMove(s, m, promotion).1
    requires SamePersistent(t, MakeMove(s, m, promotion).0)
    ensures UndoMove(t).1
    ensures var u := UndoMove(t).0;
      (m.isEnpassantMove ==> u.enpassant == s.enpassant && u.enpassantLog == s.enpassantLog)
      && (!m.isEnpassantMove ==> u.enpassant == EngineState.EnPassantTarget(m)
                                 && u.enpassantLog == s.enpassantLog + [EngineState.EnPassantTarget(m)])
  {
    MakeMoveEffect(s, m, promotion);
    MakeMoveKeepsLogs(s, m, promotion);
    assert LogsInv(t);
    UndoMoveEffect(t);
    assert Last(t.moveLog) == m;
    assert Front(t.enpassantLog) == s.enpassantLog;
  }

  /** The en-passant target survives a make_move / undo_move pair: from the starting position,
      pushing the e-pawn two squares and taking it back leaves e3 as the en-passant target,
      which the starting position does not have. */
  lemma EnPassantNotRestored()
    ensures var s := Initial();
      var m := NewLegacyMove(Sq(6, 4), Sq(4, 4), s.board, false, false);
      var u := UndoMove(MakeMove(s, m, Queen).0);
      u.1 && u.0.board == s.board && u.0.enpassant == Some(Sq(5, 4)) != s.enpassant
  {
    var s := Initial();
    var m := NewLegacyMove(Sq(6, 4), Sq(4, 4), s.board, false, false);
    assert s.board[6][4] == Occupied(White, Pawn) && s.board[4][4] == Empty;
    assert EngineState.Reversible(s.board, m);
    UndoAfterMake(s, m, Queen, MakeMove(s, m, Queen).0);
    EnPassantAfterUndo(s, m, Queen, MakeMove(s, m, Queen).0);
  }
}
