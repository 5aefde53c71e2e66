// What get_valid_moves of the second engine (ChessEngine.py) keeps and the flags it leaves. Its
// scan only reports checks from neighbouring pieces and knights, so under a single check the
// squares that capture or block reduce to the checking piece's own square.

module LegacyValidFacts {
  import opened Wrappers
  import opened Pieces
  import opened Moves
  import opened LegacyState
  import opened LegacyMoves
  import EngineScan
  import EngineMoves
  import EngineMoveFacts
  import LegacyScan

  /** The list comprehension of get_valid_moves keeps exactly the moves that evade. */
  lemma {:induction false} EvasionsMeans(ms: seq<Move>, valid: seq<Square>, m: Move)
    ensures m in EngineMoveFacts.Evasions(ms, valid) <==> m in ms && EngineMoves.Evades(m, valid)
  {
    if |ms| > 0 {
      EvasionsMeans(Front(ms), valid, m);
      assert ms == Front(ms) + [Last(ms)];
    }
  }

  /** A check record of this engine's scan leaves a single valid square: the checking piece's. */
  lemma CheckerOnly(b: Board, king: Cell, friendly: Color, x: Ray)
    requires x in LegacyScan.PinsAndChecks(b, king.row, king.col, friendly).2
    ensures EngineMoves.ValidSquares(b, king, x) == [Sq(x.row, x.col)]
  {
    LegacyScan.RayChecksMeans(b, king.row, king.col, friendly, 8);
    EngineScan.KnightChecksMeans(b, king.row, king.col, friendly, 8);
    if !IsKind(b[x.row][x.col], Knight) {
      assert !exists k | 0 <= k < 8 :: EngineScan.KnightThreat(b, king.row, king.col, friendly, k) && EngineScan.JumpAt(x, king.row, king.col, k);
      assert x in LegacyScan.RayChecksUpTo(b, king.row, king.col, friendly, 8);
      var j :| 0 <= j < 8 && EngineScan.EnemyThreatAt(b, king.row, king.col, friendly, j, 1) && EngineScan.RayAt(x, king.row, king.col, j, 1);
      assert EngineMoves.RayPoint(king, x, 1) == Sq(x.row, x.col);
    }
  }

  /** The flags get_valid_moves leaves: checkmate when the kept list is empty in check,
      stalemate when it is empty out of check, both cleared otherwise; out of check every
      generated move is kept; the scan results are stored; and the board, turn, histories and
      rights are untouched. The scan runs after the generation, from the king square the
      generators left in the cache. */
  lemma ValidMovesFlags(s: State)
    ensures var a := AllMoves(s);
      var g := ValidMoves(s);
      var sc := Scanned(a.state);
      g.ok == a.ok
      && (g.ok ==>
            (|g.moves| == 0 && sc.inCheck ==> g.state.checkmate)
            && (|g.moves| == 0 && !sc.inCheck ==> g.state.stalemate)
            && (|g.moves| > 0 ==> !g.state.checkmate && !g.state.stalemate)
            && (g.state.checkmate ==> |g.moves| == 0 && (sc.inCheck || s.checkmate))
            && (g.state.stalemate ==> |g.moves| == 0 && (!sc.inCheck || s.stalemate))
            && (!sc.inCheck ==> g.moves == a.moves)
            && g.state.inCheck == sc.inCheck && g.state.pins == sc.pins && g.state.checks == sc.checks
            && SamePersistent(g.state, s))
  {
    var a := AllMoves(s);
    assert ScanOnly(s, a.state);
  }

  /** Under a single check get_valid_moves keeps the generated king moves and the generated
      moves that capture the checking piece, and nothing else: the check record names a
      neighbouring piece or a knight, so no square between can block. */
  lemma SingleCheckMeans(s: State, m: Move)
    requires AllMoves(s).ok
    requires Scanned(AllMoves(s).state).inCheck && |Scanned(AllMoves(s).state).checks| == 1
    ensures var x := Scanned(AllMoves(s).state).checks[0];
      m in ValidMoves(s).moves <==>
        m in AllMoves(s).moves && (IsKind(m.pieceMoved, King) || EndOf(m) == Sq(x.row, x.col))
  {
    var a := AllMoves(s);
    var s1 := Scanned(a.state);
    var x := s1.checks[0];
    assert KingOf(s1) == KingOf(a.state);
    assert x in s1.checks;
    CheckerOnly(s1.board, KingOf(s1), SideColor(s1.whiteToMove), x);
    EvasionsMeans(a.moves, [Sq(x.row, x.col)], m);
  }

  /** Under a double check get_valid_moves keeps exactly the generated king moves. */
  lemma DoubleCheckKingOnly(s: State, m: Move)
    requires AllMoves(s).ok
    requires |Scanned(AllMoves(s).state).checks| >= 2
    ensures m in ValidMoves(s).moves <==> m in AllMoves(s).moves && IsKind(m.pieceMoved, King)
  {
    EvasionsMeans(AllMoves(s).moves, [], m);
  }
}
