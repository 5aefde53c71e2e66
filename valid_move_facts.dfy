// What getValidMoves of the primary engine (chess_engine.py) keeps when the king is in check:
// under a single check only king moves and moves onto the squares that capture or block the
// checking piece; under a double check only the king's own moves.

module ValidMoveFacts {
  import opened Wrappers
  import opened Pieces
  import opened Moves
  import opened EngineState
  import opened EngineScan
  import opened EngineMoves
  import opened EngineMoveFacts

  /** The square of the checking piece named by a check record. */
  function CheckerSquare(check: Ray): Square {
    Sq(check.row, check.col)
  }

  /** sq lies on the line from the king towards the checking piece, at distance 1 up to and
      including that piece. */
  predicate OnCheckLine(king: Cell, check: Ray, sq: Square) {
    exists i, k | 1 <= i <= k < 8 :: sq == RayPoint(king, check, i) && RayPoint(king, check, k) == CheckerSquare(check)
  }

  /** A square a non-king move may end on under the single check `check` from the king's
      square: the checking knight's own square, or a square on the line to any other checker. */
  predicate CapturesOrBlocks(b: Board, king: Cell, check: Ray, sq: Square) {
    if IsKind(b[check.row][check.col], Knight) then sq == CheckerSquare(check)
    else OnCheckLine(king, check, sq)
  }

  /** The state of the scan at the start of getValidMoves is in single check. */
  predicate SingleCheck(s: State) {
    var s1 := Scanned(s);
    s1.inCheck && |s1.checks| == 1
  }

  /** The valid squares getValidMoves builds from a check record of the scan are exactly the
      squares that capture or block the checker. */
  lemma ValidSquaresMeans(s: State, sq: Square)
    requires SingleCheck(s)
    ensures var s1 := Scanned(s);
      sq in ValidSquares(s1.board, KingOf(s1), s1.checks[0]) <==> CapturesOrBlocks(s1.board, KingOf(s1), s1.checks[0], sq)
  {
    var s1 := Scanned(s);
    var king := KingOf(s1);
    var b := s1.board;
    var x := s1.checks[0];
    assert KingOf(s) == king;
    if !IsKind(b[x.row][x.col], Knight) {
      var j, i0 := CheckRecordOnRay(b, king.row, king.col, SideColor(s.whiteToMove), x);
      CheckLineMeans(king, x, j, i0, sq);
    }
  }

  /** A check record of the scan that does not name a knight names a piece on one of the eight
      lines from the scanned square, with that line's direction. */
  lemma CheckRecordOnRay(b: Board, r: Coord, c: Coord, friendly: Color, x: Ray) returns (j: nat, i0: int)
    requires x in PinsAndChecks(b, r, c, friendly).2 && !IsKind(b[x.row][x.col], Knight)
    ensures j < 8 && 1 <= i0 < 8 && RayAt(x, r, c, j, i0)
  {
    PinsAndChecksMeans(b, r, c, friendly);
    assert !exists k | 0 <= k < 8 :: KnightThreat(b, r, c, friendly, k) && JumpAt(x, r, c, k);
    j, i0 :| 0 <= j < 8 && 1 <= i0 < 8 && CheckingPiece(b, r, c, friendly, j, i0) && RayAt(x, r, c, j, i0);
  }

  /** With the checker at distance i0 along scan direction j, the squares from distance 1 to
      i0 are exactly those on the line to the checker. */
  lemma CheckLineMeans(king: Cell, x: Ray, j: nat, i0: int, sq: Square)
    requires j < 8 && 1 <= i0 < 8 && RayAt(x, king.row, king.col, j, i0)
    ensures sq in BlockSquares(king, x, 1) <==> OnCheckLine(king, x, sq)
  {
    assert RayPoint(king, x, i0) == CheckerSquare(x);
    assert x.dRow != 0 || x.dCol != 0;
    BlockSquaresMeans(king, x, 1, i0, sq);
    if OnCheckLine(king, x, sq) {
      var i, k :| 1 <= i <= k < 8 && sq == RayPoint(king, x, i) && RayPoint(king, x, k) == CheckerSquare(x);
      if k != i0 {
        if x.dRow != 0 {
          StepsApart(x.dRow, k, i0);
        } else {
          StepsApart(x.dCol, k, i0);
        }
      }
    }
  }

  /** Under a single check every move getValidMoves returns moves the king or captures or
      blocks the checking piece; and when no two generated moves share an id with different
      decisions, it returns every such move getAllPossibleMoves produced, in order. */
  lemma SingleCheckFilter(s: State)
    requires SingleCheck(s) && ValidMoves(s).ok
    ensures var s1 := Scanned(s);
      var king, check := KingOf(s1), s1.checks[0];
      var all := AllMoves(s1).moves;
      (forall m | m in ValidMoves(s).moves :: IsKind(m.pieceMoved, King) || CapturesOrBlocks(s1.board, king, check, EndOf(m)))
      && (IdDecides(all, ValidSquares(s1.board, king, check)) ==>
            ValidMoves(s).moves == Evasions(all, ValidSquares(s1.board, king, check)))
  {
    var s1 := Scanned(s);
    var king, check := KingOf(s1), s1.checks[0];
    var valid := ValidSquares(s1.board, king, check);
    var all := AllMoves(s1).moves;
    assert ValidMoves(s).moves == EvasionLoop(all, valid, |all| - 1);
    EvasionLoopOnlyEvasions(all, valid, |all| - 1);
    forall m | m in ValidMoves(s).moves
      ensures IsKind(m.pieceMoved, King) || CapturesOrBlocks(s1.board, king, check, EndOf(m))
    {
      ValidSquaresMeans(s, EndOf(m));
    }
    if IdDecides(all, valid) {
      EvasionLoopIsFilter(all, valid, |all| - 1);
      assert all[..|all|] == all;
      assert all[|all|..] == [];
    }
  }

  /** Under a double check getValidMoves returns only moves of the piece on the cached king
      square: the king's steps and castling. */
  lemma DoubleCheckKingOnly(s: State)
    requires Scanned(s).inCheck && |Scanned(s).checks| > 1 && ValidMoves(s).ok
    ensures var king := KingOf(s);
      forall m | m in ValidMoves(s).moves ::
           StartOf(m) == king && m.pieceMoved == s.board[king.row][king.col]
  {
    var s1 := Scanned(s);
    var king := KingOf(s1);
    var g := KingMoves(s1, king.row, king.col);
    CastleMeans(s1, king.row, king.col);
    forall m | m in ValidMoves(s).moves
      ensures StartOf(m) == king && m.pieceMoved == s.board[king.row][king.col]
    {
      assert m in g.moves;
      KingStepsMeans(s1, king.row, king.col, 8, m);
    }
  }
}
