// Move generation of the primary engine (chess_engine.py) as functions of the game state:
// the per-piece generators, getAllPossibleMoves and getValidMoves. The generators append to a
// move list and may also change the pin list and the king caches, so each returns a Gen: the
// new state, the moves it appends, and whether it ran to the end (false where the source
// would index the board outside 0..7).

module EngineMoves {
  import opened Wrappers
  import opened Pieces
  import opened Moves
  import opened EngineState
  import opened EngineScan

  datatype Gen = Gen(state: State, moves: seq<Move>, ok: bool)

  /** t differs from s at most in the pin list and the king caches, the only fields the
      generators write. */
  predicate ScanOnly(s: State, t: State) {
    t == s.(pins := t.pins, whiteKing := t.whiteKing, blackKing := t.blackKing)
  }

  /** The cached king square of the side to move. */
  function KingOf(s: State): Cell {
    if s.whiteToMove then s.whiteKing else s.blackKing
  }

  /** s with the king cache of the side to move set to k. */
  function WithKing(s: State, k: Cell): State {
    if s.whiteToMove then s.(whiteKing := k) else s.(blackKing := k)
  }

  // ----- pin lookup -----

  /** The index of the last of pins[..n] naming square (r, c), or -1. */
  function LastPinIndex(pins: seq<Ray>, r: int, c: int, n: nat): (k: int)
    requires n <= |pins|
    ensures -1 <= k < n
    ensures k >= 0 ==> pins[k].row == r && pins[k].col == c
    ensures forall i | k < i < n :: !(pins[i].row == r && pins[i].col == c)
  {
    if n == 0 then -1
    else if pins[n - 1].row == r && pins[n - 1].col == c then n - 1
    else LastPinIndex(pins, r, c, n - 1)
  }

  /** The pin record a generator looks up for the piece on (r, c): the last one naming it. */
  function FindPin(pins: seq<Ray>, r: int, c: int): Option<Ray> {
    var k := LastPinIndex(pins, r, c, |pins|);
    if k < 0 then None else Some(pins[k])
  }

  /** The pin list after a generator consumes the record it found. */
  function DropPin(pins: seq<Ray>, pin: Option<Ray>): seq<Ray> {
    if pin.Some? then RemoveFirst(pins, pin.value) else pins
  }

  /** A piece with this pin record may move in direction d (d given as (row step, column step)). */
  predicate PinAllows(pin: Option<Ray>, d: (int, int)) {
    pin.None? || (pin.value.dRow, pin.value.dCol) == d
  }

  /** A sliding piece with this pin record may move along direction d: unpinned, or d is the pin
      direction or its opposite. */
  predicate PinAllowsLine(pin: Option<Ray>, d: (int, int)) {
    PinAllows(pin, d) || PinAllows(pin, (-d.0, -d.1))
  }

  // ----- pawns -----

  function StartRow(whiteToMove: bool): int {
    if whiteToMove then 6 else 1
  }

  predicate RookOrQueenOf(p: Piece, enemy: Color) {
    p == Occupied(enemy, Rook) || p == Occupied(enemy, Queen)
  }

  /** The en-passant test along the king's row: the capture is emitted unless an enemy rook or
      queen stands in the outside range [oLo, oHi) with no piece at all in the inside range
      [iLo, iHi) and no other piece in the outside range. */
  predicate EpRowAllows(b: Board, r: Coord, enemy: Color, iLo: int, iHi: int, oLo: int, oHi: int)
    requires 0 <= iLo && iHi <= 8 && 0 <= oLo && oHi <= 8
  {
    var attacking := exists i | oLo <= i < oHi :: RookOrQueenOf(b[r][i], enemy);
    var blocking := (exists i | iLo <= i < iHi :: b[r][i] != Empty)
                    || (exists i | oLo <= i < oHi :: b[r][i] != Empty && !RookOrQueenOf(b[r][i], enemy));
    !attacking || blocking
  }

  /** The test for the left en-passant capture of the pawn on (r, c): always passed when the
      king is on another row. */
  predicate LeftEpAllows(b: Board, r: Coord, c: Coord, king: Cell, enemy: Color)
    requires 1 <= c
  {
    if king.row != r then true
    else if king.col < c then EpRowAllows(b, r, enemy, king.col + 1, c - 1, c + 1, 8)
    else EpRowAllows(b, r, enemy, c + 1, king.col, 0, c - 1)
  }

  /** The test for the right en-passant capture: passed only when the king is on the pawn's row. */
  predicate RightEpAllows(b: Board, r: Coord, c: Coord, king: Cell, enemy: Color)
    requires c <= 6
  {
    king.row == r
    && if king.col < c then EpRowAllows(b, r, enemy, king.col + 1, c, c + 2, 8)
       else EpRowAllows(b, r, enemy, c + 2, king.col, 0, c)
  }

  /** The one- and two-square advances of a pawn on (r, c) of the side to move. */
  function PawnPushes(b: Board, whiteToMove: bool, r: Coord, c: Coord, pin: Option<Ray>): seq<Move>
    requires OnBoard(r + Forward(whiteToMove), c)
  {
    var ma := Forward(whiteToMove);
    if b[r + ma][c] == Empty && PinAllows(pin, (ma, 0)) then
      [NewMove(Sq(r, c), Sq(r + ma, c), b, false, false)]
      + (if r == StartRow(whiteToMove) && b[r + 2 * ma][c] == Empty then [NewMove(Sq(r, c), Sq(r + 2 * ma, c), b, false, false)] else [])
    else []
  }

  /** The left diagonal: a capture of an enemy piece, then possibly an en-passant capture onto
      the target square `enpassant`; `king` is the cached king square of the side to move. */
  function PawnLeft(b: Board, whiteToMove: bool, enpassant: Option<Cell>, king: Cell, r: Coord, c: Coord, pin: Option<Ray>): seq<Move>
    requires OnBoard(r + Forward(whiteToMove), c)
  {
    var ma := Forward(whiteToMove);
    var enemy := Opponent(SideColor(whiteToMove));
    if c - 1 >= 0 && PinAllows(pin, (ma, -1)) then
      var target := Sq(r + ma, c - 1);
      (if IsColor(b[r + ma][c - 1], enemy) then [NewMove(Sq(r, c), target, b, false, false)] else [])
      + (if enpassant == Some(target) && LeftEpAllows(b, r, c, king, enemy) then [NewMove(Sq(r, c), target, b, true, false)] else [])
    else []
  }

  /** The right diagonal: a capture of an enemy piece, then possibly an en-passant capture. */
  function PawnRight(b: Board, whiteToMove: bool, enpassant: Option<Cell>, king: Cell, r: Coord, c: Coord, pin: Option<Ray>): seq<Move>
    requires OnBoard(r + Forward(whiteToMove), c)
  {
    var ma := Forward(whiteToMove);
    var enemy := Opponent(SideColor(whiteToMove));
    if c + 1 <= 7 && PinAllows(pin, (ma, 1)) then
      var target := Sq(r + ma, c + 1);
      (if IsColor(b[r + ma][c + 1], enemy) then [NewMove(Sq(r, c), target, b, false, false)] else [])
      + (if enpassant == Some(target) && RightEpAllows(b, r, c, king, enemy) then [NewMove(Sq(r, c), target, b, true, false)] else [])
    else []
  }

  /** getPawnMoves. */
  function PawnMoves(s: State, r: Coord, c: Coord): (g: Gen)
    ensures ScanOnly(s, g.state)
  {
    var pin := FindPin(s.pins, r, c);
    var s1 := s.(pins := DropPin(s.pins, pin));
    if !OnBoard(r + Forward(s.whiteToMove), c) then Gen(s1, [], false)
    else
      var b, w, ep, king := s.board, s.whiteToMove, s.enpassant, KingOf(s);
      Gen(s1, PawnPushes(b, w, r, c, pin) + PawnLeft(b, w, ep, king, r, c, pin) + PawnRight(b, w, ep, king, r, c, pin), true)
  }

  // ----- rooks, bishops, queens -----

  /** The walk from (r, c) along direction d from distance i on: empty squares are appended and
      the walk goes on; an enemy square is appended and ends it; an own piece or the edge ends it. */
  function SlideFrom(b: Board, r: Coord, c: Coord, d: (int, int), i: int, enemy: Color): seq<Move>
    requires 1 <= i
    decreases 8 - i
  {
    if i >= 8 then []
    else
      var er := r + d.0 * i;
      var ec := c + d.1 * i;
      if !OnBoard(er, ec) then []
      else if b[er][ec] == Empty then [NewMove(Sq(r, c), Sq(er, ec), b, false, false)] + SlideFrom(b, r, c, d, i + 1, enemy)
      else if IsColor(b[er][ec], enemy) then [NewMove(Sq(r, c), Sq(er, ec), b, false, false)]
      else []
  }

  /** The walks along dirs[0 .. n-1], each only where the pin allows its line. */
  function SlidesUpTo(b: Board, r: Coord, c: Coord, dirs: seq<(int, int)>, n: nat, pin: Option<Ray>, enemy: Color): seq<Move>
    requires n <= |dirs|
  {
    if n == 0 then []
    else
      SlidesUpTo(b, r, c, dirs, n - 1, pin, enemy)
      + (if PinAllowsLine(pin, dirs[n - 1]) then SlideFrom(b, r, c, dirs[n - 1], 1, enemy) else [])
  }

  const BishopDirections: seq<(int, int)> := [(-1, -1), (-1, 1), (1, -1), (1, 1)]

  /** The rook pass over the board b with pin list pins: its moves and the pin list it
      leaves. A queen keeps its pin record, any other piece consumes it. */
  function RookPass(b: Board, whiteToMove: bool, pins: seq<Ray>, r: Coord, c: Coord): (seq<Move>, seq<Ray>) {
    var pin := FindPin(pins, r, c);
    (SlidesUpTo(b, r, c, RookDirections, 4, pin, Opponent(SideColor(whiteToMove))),
     if IsKind(b[r][c], Queen) then pins else DropPin(pins, pin))
  }

  /** The bishop pass, which always consumes the pin record. */
  function BishopPass(b: Board, whiteToMove: bool, pins: seq<Ray>, r: Coord, c: Coord): (seq<Move>, seq<Ray>) {
    var pin := FindPin(pins, r, c);
    (SlidesUpTo(b, r, c, BishopDirections, 4, pin, Opponent(SideColor(whiteToMove))), DropPin(pins, pin))
  }

  /** The queen: the bishop pass, then the rook pass on the pin list it leaves. */
  function QueenPass(b: Board, whiteToMove: bool, pins: seq<Ray>, r: Coord, c: Coord): (seq<Move>, seq<Ray>) {
    var p1 := BishopPass(b, whiteToMove, pins, r, c);
    var p2 := RookPass(b, whiteToMove, p1.1, r, c);
    (p1.0 + p2.0, p2.1)
  }

  /** getRookMoves. */
  function RookMoves(s: State, r: Coord, c: Coord): (g: Gen)
    ensures ScanOnly(s, g.state)
  {
    var p := RookPass(s.board, s.whiteToMove, s.pins, r, c);
    Gen(s.(pins := p.1), p.0, true)
  }

  /** getBishopMoves. */
  function BishopMoves(s: State, r: Coord, c: Coord): (g: Gen)
    ensures ScanOnly(s, g.state)
  {
    var p := BishopPass(s.board, s.whiteToMove, s.pins, r, c);
    Gen(s.(pins := p.1), p.0, true)
  }

  /** getQueenMoves. */
  function QueenMoves(s: State, r: Coord, c: Coord): (g: Gen)
    ensures ScanOnly(s, g.state)
  {
    var p := QueenPass(s.board, s.whiteToMove, s.pins, r, c);
    Gen(s.(pins := p.1), p.0, true)
  }

  // ----- knights -----

  /** Knight jumps 0 .. n-1 onto squares without an own piece; none for a pinned knight. */
  function JumpsUpTo(b: Board, r: Coord, c: Coord, n: nat, pinned: bool, friendly: Color): seq<Move>
    requires n <= 8
  {
    if n == 0 then []
    else
      var er := r + KnightJumps[n - 1].0;
      var ec := c + KnightJumps[n - 1].1;
      JumpsUpTo(b, r, c, n - 1, pinned, friendly)
      + (if OnBoard(er, ec) && !pinned && !IsColor(b[er][ec], friendly) then [NewMove(Sq(r, c), Sq(er, ec), b, false, false)] else [])
  }

  /** getKnightMoves. */
  function KnightMoves(s: State, r: Coord, c: Coord): (g: Gen)
    ensures ScanOnly(s, g.state)
  {
    var pin := FindPin(s.pins, r, c);
    Gen(s.(pins := DropPin(s.pins, pin)), JumpsUpTo(s.board, r, c, 8, pin.Some?, SideColor(s.whiteToMove)), true)
  }

  // ----- kings and castling -----

  /** The relocated-king test: the side to move would be in check with its king on (er, ec). */
  predicate CheckedAt(s: State, er: int, ec: int) {
    PinsAndChecks(s.board, er, ec, SideColor(s.whiteToMove)).0
  }

  /** King step k: a step onto an on-board square without an own piece probes the relocated
      king, emits the move when the probe finds no check, and leaves the cache at (r, c). */
  function KingStep(s: State, r: Coord, c: Coord, k: nat): (g: Gen)
    requires k < 8
    ensures ScanOnly(s, g.state)
  {
    var er := r + KingSteps[k].0;
    var ec := c + KingSteps[k].1;
    if OnBoard(er, ec) && !IsColor(s.board[er][ec], SideColor(s.whiteToMove)) then
      Gen(WithKing(s, Sq(r, c)),
          if !CheckedAt(s, er, ec) then [NewMove(Sq(r, c), Sq(er, ec), s.board, false, false)] else [],
          true)
    else Gen(s, [], true)
  }

  /** King steps 0 .. n-1, each on the state the previous ones left. */
  function KingStepsUpTo(s: State, r: Coord, c: Coord, n: nat): (g: Gen)
    requires n <= 8
    ensures ScanOnly(s, g.state)
  {
    if n == 0 then Gen(s, [], true)
    else
      var g := KingStepsUpTo(s, r, c, n - 1);
      var h := KingStep(g.state, r, c, n - 1);
      Gen(h.state, g.moves + h.moves, true)
  }

  /** getKingsideCastleMoves; false where the source indexes a column past 7. */
  function KingsideCastleMoves(b: Board, r: Coord, c: Coord, friendly: Color): (seq<Move>, bool) {
    if c + 1 > 7 then ([], false)
    else if b[r][c + 1] != Empty then ([], true)
    else if c + 2 > 7 then ([], false)
    else if b[r][c + 2] != Empty then ([], true)
    else if SquareUnderAttack(b, r, c + 1, friendly) || SquareUnderAttack(b, r, c + 2, friendly) then ([], true)
    else ([NewMove(Sq(r, c), Sq(r, c + 2), b, false, true)], true)
  }

  /** getQueensideCastleMoves; false where the source indexes a negative column. */
  function QueensideCastleMoves(b: Board, r: Coord, c: Coord, friendly: Color): (seq<Move>, bool) {
    if c - 1 < 0 then ([], false)
    else if b[r][c - 1] != Empty then ([], true)
    else if c - 2 < 0 then ([], false)
    else if b[r][c - 2] != Empty then ([], true)
    else if c - 3 < 0 then ([], false)
    else if b[r][c - 3] != Empty then ([], true)
    else if SquareUnderAttack(b, r, c - 1, friendly) || SquareUnderAttack(b, r, c - 2, friendly) then ([], true)
    else ([NewMove(Sq(r, c), Sq(r, c - 2), b, false, true)], true)
  }

  predicate HoldsKingside(s: State) {
    (s.whiteToMove && s.rights.wks) || (!s.whiteToMove && s.rights.bks)
  }

  predicate HoldsQueenside(s: State) {
    (s.whiteToMove && s.rights.wqs) || (!s.whiteToMove && s.rights.bqs)
  }

  /** getCastleMoves: nothing from an attacked square, else king side then queen side. The
      rights are those of the side to move; the attack tests are for `friendly`. */
  function CastleMoves(s: State, r: Coord, c: Coord, friendly: Color): (seq<Move>, bool) {
    if SquareUnderAttack(s.board, r, c, friendly) then ([], true)
    else
      var k := if HoldsKingside(s) then KingsideCastleMoves(s.board, r, c, friendly) else ([], true);
      if !k.1 then ([], false)
      else
        var q := if HoldsQueenside(s) then QueensideCastleMoves(s.board, r, c, friendly) else ([], true);
        (k.0 + q.0, q.1)
  }

  /** Castling reads only the board, the side to move and the rights, none of which a
      generator changes. */
  lemma CastleMovesScanOnly(s: State, t: State, r: Coord, c: Coord, friendly: Color)
    requires ScanOnly(s, t)
    ensures CastleMoves(s, r, c, friendly) == CastleMoves(t, r, c, friendly)
  {
  }

  /** getKingMoves: the steps, then castling. */
  function KingMoves(s: State, r: Coord, c: Coord): (g: Gen)
    ensures ScanOnly(s, g.state)
  {
    var g := KingStepsUpTo(s, r, c, 8);
    var cm := CastleMoves(s, r, c, SideColor(s.whiteToMove));
    Gen(g.state, g.moves + cm.0, cm.1)
  }

  // ----- all moves -----

  /** The generator for the piece on (r, c) (the moveMapping dispatch). */
  function PieceMoves(s: State, r: Coord, c: Coord): (g: Gen)
    requires s.board[r][c].Occupied?
    ensures ScanOnly(s, g.state)
  {
    match s.board[r][c].kind
    case Pawn => PawnMoves(s, r, c)
    case Rook => RookMoves(s, r, c)
    case Knight => KnightMoves(s, r, c)
    case Bishop => BishopMoves(s, r, c)
    case Queen => QueenMoves(s, r, c)
    case King => KingMoves(s, r, c)
  }

  /** The inner loop of getAllPossibleMoves over columns 0 .. n-1 of row r, continuing the
      generation g: each generator runs on the state the previous ones left, and the scan
      stops at the first one that fails. */
  function RowScan(g: Gen, r: Coord, n: nat): (h: Gen)
    requires n <= 8
    ensures ScanOnly(g.state, h.state)
  {
    if n == 0 then g
    else
      var h := RowScan(g, r, n - 1);
      if !h.ok then h
      else if IsColor(h.state.board[r][n - 1], SideColor(h.state.whiteToMove)) then
        var p := PieceMoves(h.state, r, n - 1);
        Gen(p.state, h.moves + p.moves, p.ok)
      else h
  }

  /** getAllPossibleMoves over rows 0 .. n-1. */
  function RowsUpTo(s: State, n: nat): (g: Gen)
    requires n <= 8
    ensures ScanOnly(s, g.state)
  {
    if n == 0 then Gen(s, [], true)
    else
      var g := RowsUpTo(s, n - 1);
      if !g.ok then g else RowScan(g, n - 1, 8)
  }

  function AllMoves(s: State): (g: Gen)
    ensures ScanOnly(s, g.state)
  {
    RowsUpTo(s, 8)
  }

  // ----- getValidMoves -----

  /** The square i steps from the king along the checking ray's direction. */
  function RayPoint(king: Cell, check: Ray, i: int): Square {
    Sq(king.row + check.dRow * i, king.col + check.dCol * i)
  }

  /** The squares from the king along the check direction, from distance i on, up to and
      including the checking piece (at most to distance 7). */
  function BlockSquares(king: Cell, check: Ray, i: int): seq<Square>
    requires 1 <= i
    decreases 8 - i
  {
    if i >= 8 then []
    else
      var sq := RayPoint(king, check, i);
      [sq] + (if sq.row == check.row && sq.col == check.col then [] else BlockSquares(king, check, i + 1))
  }

  /** One step of BlockSquares. */
  lemma BlockSquaresNext(king: Cell, check: Ray, i: int)
    requires 1 <= i < 8
    ensures var sq := RayPoint(king, check, i);
      BlockSquares(king, check, i) == [sq] + (if sq.row == check.row && sq.col == check.col then [] else BlockSquares(king, check, i + 1))
  {
  }

  /** A move survives the single-check filter: it moves a king or ends on a valid square. */
  predicate Evades(m: Move, valid: seq<Square>) {
    IsKind(m.pieceMoved, King) || EndOf(m) in valid
  }

  /** The single-check filter loop of getValidMoves, from index i down to 0: a move at index i
      that does not evade is removed by list.remove, which drops the first move with its id. */
  function EvasionLoop(ms: seq<Move>, valid: seq<Square>, i: int): seq<Move>
    requires -1 <= i < |ms|
    decreases i + 1
  {
    if i < 0 then ms
    else if Evades(ms[i], valid) then EvasionLoop(ms, valid, i - 1)
    else EvasionLoop(RemoveFirstMove(ms, ms[i]), valid, i - 1)
  }

  /** The checkmate / stalemate flags after a generation that produced no move (none) or some. */
  function Verdict(t: State, none: bool): State {
    if !none then t.(checkmate := false, stalemate := false)
    else if t.inCheck then t.(checkmate := true)
    else t.(stalemate := true)
  }

  /** The squares a non-king move may end on under the single check `check`. */
  function ValidSquares(b: Board, king: Cell, check: Ray): seq<Square> {
    if IsKind(b[check.row][check.col], Knight) then [Sq(check.row, check.col)] else BlockSquares(king, check, 1)
  }

  /** The moves getValidMoves computes once the scan has been stored in s1. */
  function CandidateMoves(s1: State): (g: Gen)
    ensures ScanOnly(s1, g.state)
  {
    var king := KingOf(s1);
    if !s1.inCheck then AllMoves(s1)
    else if |s1.checks| == 1 then
      var a := AllMoves(s1);
      if !a.ok then a
      else Gen(a.state, EvasionLoop(a.moves, ValidSquares(s1.board, king, s1.checks[0]), |a.moves| - 1), true)
    else KingMoves(s1, king.row, king.col)
  }

  /** The state after the scan of getValidMoves. */
  function Scanned(s: State): State {
    var king := KingOf(s);
    var pc := PinsAndChecks(s.board, king.row, king.col, SideColor(s.whiteToMove));
    s.(inCheck := pc.0, pins := pc.1, checks := pc.2)
  }

  /** getValidMoves. */
  function ValidMoves(s: State): Gen {
    var g := CandidateMoves(Scanned(s));
    if !g.ok then g else Gen(Verdict(g.state, |g.moves| == 0), g.moves, true)
  }
}
