// Every move getValidMoves of the primary engine (chess_engine.py) emits is built from the
// current board and can be taken back by undoMove, provided the en-passant target is one a
// two-row pawn move left behind. The search relies on this to restore the position.

module GeneratedMoves {
  import opened Wrappers
  import opened Pieces
  import opened Moves
  import opened EngineState
  import opened EngineScan
  import opened EngineMoves
  import opened EngineMoveFacts

  /** The en-passant target, if any, is an empty square with an enemy pawn right behind it as
      seen from the side to move (the pawn that skipped over it). */
  predicate EpConsistent(b: Board, whiteToMove: bool, ep: Option<Cell>) {
    ep.Some? ==>
      var t := ep.value;
      var vr := t.row - Forward(whiteToMove);
      0 <= vr < 8 && b[t.row][t.col] == Empty && b[vr][t.col] == Occupied(Opponent(SideColor(whiteToMove)), Pawn)
  }

  predicate StateEpConsistent(s: State) {
    EpConsistent(s.board, s.whiteToMove, s.enpassant)
  }

  /** m is a move the generators can emit on board b with this side to move and en-passant
      target: it is constructed from b, joins two different squares, an en-passant capture is a
      diagonal pawn step onto the target, a castling move is a two-column move along a row past
      an empty square, and a two-row pawn move is a pawn's first double step over an empty square. */
  predicate Sound(b: Board, whiteToMove: bool, ep: Option<Cell>, m: Move) {
    var f := Forward(whiteToMove);
    m == NewMove(StartOf(m), EndOf(m), b, m.isEnpassantMove, m.castle)
    && StartOf(m) != EndOf(m)
    && (m.isEnpassantMove ==>
          !m.castle && ep == Some(EndOf(m)) && m.pieceMoved == Occupied(SideColor(whiteToMove), Pawn)
          && m.endRow == m.startRow + f && (m.endCol == m.startCol + 1 || m.endCol == m.startCol - 1))
    && (m.castle ==>
          m.startRow == m.endRow
          && ((m.endCol == m.startCol + 2 && b[m.startRow][m.startCol + 1] == Empty)
              || (m.endCol == m.startCol - 2 && b[m.startRow][m.startCol - 1] == Empty)))
    && (EnPassantTarget(m).Some? ==>
          m.pieceMoved == Occupied(SideColor(whiteToMove), Pawn) && !m.isEnpassantMove && !m.castle
          && m.startRow == StartRow(whiteToMove) && m.endRow == m.startRow + 2 * f && m.endCol == m.startCol
          && b[m.startRow + f][m.startCol] == Empty && b[m.endRow][m.endCol] == Empty)
  }

  predicate AllSound(b: Board, whiteToMove: bool, ep: Option<Cell>, ms: seq<Move>) {
    forall m | m in ms :: Sound(b, whiteToMove, ep, m)
  }

  // ----- what a sound move guarantees -----

  /** A sound move under a consistent en-passant target is one undoMove takes back. */
  lemma SoundReversible(s: State, m: Move)
    requires StateEpConsistent(s) && Sound(s.board, s.whiteToMove, s.enpassant, m)
    ensures Reversible(s.board, m)
  {
  }

  /** Making a sound move leaves a consistent en-passant target for the opponent. */
  lemma SoundKeepsEpConsistent(s: State, m: Move, promotion: PromotionKind)
    requires Sound(s.board, s.whiteToMove, s.enpassant, m)
    ensures m.isPawnPromotion ==> m.pieceMoved.Occupied?
    ensures MakeMove(s, m, promotion).1 ==> StateEpConsistent(MakeMove(s, m, promotion).0)
  {
    if EnPassantTarget(m).Some? && MakeMove(s, m, promotion).1 {
      var t := MakeMove(s, m, promotion).0;
      var f := Forward(s.whiteToMove);
      assert t.enpassant == Some(Sq(m.startRow + f, m.startCol));
      assert t.board == MovedBoard(s.board, m, promotion);
    }
  }

  // ----- the generators -----

  /** An ordinary move (neither en passant nor castling) between two different squares is sound
      unless it is a pawn moving two rows. */
  lemma PlainMoveSound(b: Board, w: bool, ep: Option<Cell>, start: Cell, end: Cell)
    requires start != end
    requires !IsKind(b[start.row][start.col], Pawn) || (-1 <= end.row - start.row <= 1)
    ensures Sound(b, w, ep, NewMove(start, end, b, false, false))
  {
  }

  lemma PawnPushesSound(s: State, r: Coord, c: Coord, pin: Option<Ray>)
    requires s.board[r][c] == Occupied(SideColor(s.whiteToMove), Pawn)
    requires OnBoard(r + Forward(s.whiteToMove), c)
    ensures AllSound(s.board, s.whiteToMove, s.enpassant, PawnPushes(s.board, s.whiteToMove, r, c, pin))
  {
  }

  lemma PawnLeftSound(s: State, r: Coord, c: Coord, pin: Option<Ray>)
    requires s.board[r][c] == Occupied(SideColor(s.whiteToMove), Pawn)
    requires OnBoard(r + Forward(s.whiteToMove), c)
    ensures AllSound(s.board, s.whiteToMove, s.enpassant, PawnLeft(s.board, s.whiteToMove, s.enpassant, KingOf(s), r, c, pin))
  {
  }

  lemma PawnRightSound(s: State, r: Coord, c: Coord, pin: Option<Ray>)
    requires s.board[r][c] == Occupied(SideColor(s.whiteToMove), Pawn)
    requires OnBoard(r + Forward(s.whiteToMove), c)
    ensures AllSound(s.board, s.whiteToMove, s.enpassant, PawnRight(s.board, s.whiteToMove, s.enpassant, KingOf(s), r, c, pin))
  {
  }

  lemma PawnMovesSound(s: State, r: Coord, c: Coord)
    requires s.board[r][c] == Occupied(SideColor(s.whiteToMove), Pawn)
    ensures AllSound(s.board, s.whiteToMove, s.enpassant, PawnMoves(s, r, c).moves)
  {
    if OnBoard(r + Forward(s.whiteToMove), c) {
      var pin := FindPin(s.pins, r, c);
      PawnPushesSound(s, r, c, pin);
      PawnLeftSound(s, r, c, pin);
      PawnRightSound(s, r, c, pin);
    }
  }

  /** A move along a ray of a piece other than a pawn. */
  lemma SlideHitSound(b: Board, w: bool, ep: Option<Cell>, r: Coord, c: Coord, d: (int, int), pin: Option<Ray>, enemy: Color, m: Move)
    requires d != (0, 0) && !IsKind(b[r][c], Pawn)
    requires SlideHit(b, r, c, d, pin, enemy, m)
    ensures Sound(b, w, ep, m)
  {
    var i :| 1 <= i < 8 && SlideTarget(b, r, c, d, i, enemy) && m == SlideMove(b, r, c, d, i);
    if d.0 != 0 { StepsApart(d.0, i, 0); } else { StepsApart(d.1, i, 0); }
    PlainMoveSound(b, w, ep, Sq(r, c), Sq(r + d.0 * i, c + d.1 * i));
  }

  /** The rays of a rook, bishop or queen. */
  lemma SlidesSound(b: Board, w: bool, ep: Option<Cell>, r: Coord, c: Coord, dirs: seq<(int, int)>, pin: Option<Ray>, enemy: Color)
    requires |dirs| == 4 && forall j | 0 <= j < 4 :: dirs[j] != (0, 0)
    requires !IsKind(b[r][c], Pawn)
    ensures AllSound(b, w, ep, SlidesUpTo(b, r, c, dirs, 4, pin, enemy))
  {
    forall m | m in SlidesUpTo(b, r, c, dirs, 4, pin, enemy) ensures Sound(b, w, ep, m) {
      SlidesMeans(b, r, c, dirs, 4, pin, enemy, m);
      var j :| 0 <= j < 4 && SlideHit(b, r, c, dirs[j], pin, enemy, m);
      SlideHitSound(b, w, ep, r, c, dirs[j], pin, enemy, m);
    }
  }

  lemma RookPassSound(b: Board, w: bool, ep: Option<Cell>, pins: seq<Ray>, r: Coord, c: Coord)
    requires !IsKind(b[r][c], Pawn)
    ensures AllSound(b, w, ep, RookPass(b, w, pins, r, c).0)
  {
    SlidesSound(b, w, ep, r, c, RookDirections, FindPin(pins, r, c), Opponent(SideColor(w)));
  }

  lemma BishopPassSound(b: Board, w: bool, ep: Option<Cell>, pins: seq<Ray>, r: Coord, c: Coord)
    requires !IsKind(b[r][c], Pawn)
    ensures AllSound(b, w, ep, BishopPass(b, w, pins, r, c).0)
  {
    SlidesSound(b, w, ep, r, c, BishopDirections, FindPin(pins, r, c), Opponent(SideColor(w)));
  }

  lemma KnightMovesSound(s: State, r: Coord, c: Coord)
    requires IsKind(s.board[r][c], Knight)
    ensures AllSound(s.board, s.whiteToMove, s.enpassant, KnightMoves(s, r, c).moves)
  {
    var pinned := FindPin(s.pins, r, c).Some?;
    var f := SideColor(s.whiteToMove);
    forall m | m in KnightMoves(s, r, c).moves ensures Sound(s.board, s.whiteToMove, s.enpassant, m) {
      JumpsMeans(s.board, r, c, 8, pinned, f, m);
      var k :| 0 <= k < 8 && JumpTarget(s.board, r, c, k, f) && m == JumpMove(s.board, r, c, k);
      PlainMoveSound(s.board, s.whiteToMove, s.enpassant, Sq(r, c), Sq(r + KnightJumps[k].0, c + KnightJumps[k].1));
    }
  }

  lemma StepMoveSound(b: Board, w: bool, ep: Option<Cell>, r: Coord, c: Coord, k: nat)
    requires k < 8 && OnBoard(r + KingSteps[k].0, c + KingSteps[k].1)
    ensures Sound(b, w, ep, StepMove(b, r, c, k))
  {
    PlainMoveSound(b, w, ep, Sq(r, c), Sq(r + KingSteps[k].0, c + KingSteps[k].1));
  }

  /** The king steps: one-square moves. */
  lemma KingStepsSound(s: State, r: Coord, c: Coord)
    ensures AllSound(s.board, s.whiteToMove, s.enpassant, KingStepsUpTo(s, r, c, 8).moves)
  {
    forall m | m in KingStepsUpTo(s, r, c, 8).moves ensures Sound(s.board, s.whiteToMove, s.enpassant, m) {
      KingStepsMeans(s, r, c, 8, m);
      var k :| 0 <= k < 8 && SafeStep(s, r, c, k) && m == StepMove(s.board, r, c, k);
      StepMoveSound(s.board, s.whiteToMove, s.enpassant, r, c, k);
    }
  }

  lemma KingsideCastleSound(b: Board, w: bool, ep: Option<Cell>, r: Coord, c: Coord, friendly: Color)
    ensures AllSound(b, w, ep, KingsideCastleMoves(b, r, c, friendly).0)
  {
  }

  lemma QueensideCastleSound(b: Board, w: bool, ep: Option<Cell>, r: Coord, c: Coord, friendly: Color)
    ensures AllSound(b, w, ep, QueensideCastleMoves(b, r, c, friendly).0)
  {
  }

  /** King steps and castling (two-column moves along the row past an empty square). */
  lemma KingMovesSound(s: State, r: Coord, c: Coord)
    ensures AllSound(s.board, s.whiteToMove, s.enpassant, KingMoves(s, r, c).moves)
  {
    var f := SideColor(s.whiteToMove);
    KingStepsSound(s, r, c);
    KingsideCastleSound(s.board, s.whiteToMove, s.enpassant, r, c, f);
    QueensideCastleSound(s.board, s.whiteToMove, s.enpassant, r, c, f);
  }

  /** The generator of any piece of the side to move. */
  lemma PieceMovesSound(s: State, r: Coord, c: Coord)
    requires IsColor(s.board[r][c], SideColor(s.whiteToMove))
    ensures AllSound(s.board, s.whiteToMove, s.enpassant, PieceMoves(s, r, c).moves)
  {
    var b, w, ep := s.board, s.whiteToMove, s.enpassant;
    match b[r][c].kind
    case Pawn => PawnMovesSound(s, r, c);
    case Rook => RookPassSound(b, w, ep, s.pins, r, c);
    case Knight => KnightMovesSound(s, r, c);
    case Bishop => BishopPassSound(b, w, ep, s.pins, r, c);
    case Queen =>
      BishopPassSound(b, w, ep, s.pins, r, c);
      RookPassSound(b, w, ep, BishopPass(b, w, s.pins, r, c).1, r, c);
    case King => KingMovesSound(s, r, c);
  }

  /** The column loop of getAllPossibleMoves adds only sound moves. */
  lemma {:induction false} RowScanSound(g: Gen, r: Coord, n: nat)
    requires n <= 8
    requires AllSound(g.state.board, g.state.whiteToMove, g.state.enpassant, g.moves)
    ensures AllSound(g.state.board, g.state.whiteToMove, g.state.enpassant, RowScan(g, r, n).moves)
  {
    if n > 0 {
      RowScanSound(g, r, n - 1);
      var h := RowScan(g, r, n - 1);
      if h.ok && IsColor(h.state.board[r][n - 1], SideColor(h.state.whiteToMove)) {
        PieceMovesSound(h.state, r, n - 1);
      }
    }
  }

  /** getAllPossibleMoves emits only sound moves. */
  lemma {:induction false} RowsSound(s: State, n: nat)
    requires n <= 8
    ensures AllSound(s.board, s.whiteToMove, s.enpassant, RowsUpTo(s, n).moves)
  {
    if n > 0 {
      RowsSound(s, n - 1);
      var g := RowsUpTo(s, n - 1);
      if g.ok {
        RowScanSound(g, n - 1, 8);
      }
    }
  }

  /** The single-check filter only removes moves. */
  lemma {:induction false} EvasionLoopSubset(ms: seq<Move>, valid: seq<Square>, i: int, m: Move)
    requires -1 <= i < |ms|
    requires m in EvasionLoop(ms, valid, i)
    ensures m in ms
    decreases i + 1
  {
    if i >= 0 {
      if Evades(ms[i], valid) {
        EvasionLoopSubset(ms, valid, i - 1, m);
      } else {
        var ms' := RemoveFirstMove(ms, ms[i]);
        EvasionLoopSubset(ms', valid, i - 1, m);
        var k := IndexOfMove(ms, ms[i]);
        assert SameMove(ms[i], ms[i]);
        DroppedFrom(ms, k);
      }
    }
  }

  /** The moves getValidMoves keeps after its scan are sound. */
  lemma CandidateMovesSound(s1: State)
    ensures AllSound(s1.board, s1.whiteToMove, s1.enpassant, CandidateMoves(s1).moves)
  {
    var king := KingOf(s1);
    if !s1.inCheck {
      RowsSound(s1, 8);
    } else if |s1.checks| != 1 {
      KingMovesSound(s1, king.row, king.col);
    } else {
      var a := AllMoves(s1);
      RowsSound(s1, 8);
      if a.ok {
        var valid := ValidSquares(s1.board, king, s1.checks[0]);
        forall m | m in EvasionLoop(a.moves, valid, |a.moves| - 1) ensures m in a.moves {
          EvasionLoopSubset(a.moves, valid, |a.moves| - 1, m);
        }
      }
    }
  }

  /** getValidMoves emits only sound moves, and changes none of the fields they depend on. */
  lemma ValidMovesSound(s: State)
    ensures var g := ValidMoves(s);
      g.state.board == s.board && g.state.whiteToMove == s.whiteToMove && g.state.enpassant == s.enpassant
      && SamePersistent(g.state, s)
      && AllSound(s.board, s.whiteToMove, s.enpassant, g.moves)
  {
    CandidateMovesSound(Scanned(s));
  }
}
