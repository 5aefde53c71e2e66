// Move generation of the second engine (ChessEngine.py) as functions of its game state: the
// per-piece generators, get_all_possible_moves and get_valid_moves. As in the primary engine a
// generator returns a Gen: the new state (the pin list and the king caches are the only fields
// it writes), the moves it appends, and whether it ran to the end (false where the source
// fails: a board index outside 0..7, or an empty pin entry read as a tuple).

module LegacyMoves {
  import opened Wrappers
  import opened Pieces
  import opened Moves
  import opened LegacyState
  import LegacyScan
  import EngineMoves
  import EngineMoveFacts

  datatype Gen = Gen(state: State, moves: seq<Move>, ok: bool)

  /** t differs from s at most in the pin list and the king caches. */
  predicate ScanOnly(s: State, t: State) {
    t == s.(pins := t.pins, whiteKing := t.whiteKing, blackKing := t.blackKing)
  }

  /** The cached king square of the side to move. */
  function KingOf(s: State): Cell {
    if s.whiteToMove then s.whiteKing else s.blackKing
  }

  /** s with the king cache of the side to move set to k. */
  function WithKing(s: State, k: Cell): State {
    if s.whiteToMove then s.(whiteKing := k) else s.(blackKing := k)
  }

  // ----- pin lookup -----

  /** The outcome of a generator's backwards search of the pin list. */
  datatype Lookup = Unpinned | PinnedAt(index: nat) | Broken

  /** The search of pins[..n] from the back for an entry naming (r, c); reaching an empty entry
      first breaks it (the source indexes the empty tuple). */
  function LookupPin(pins: seq<Option<Ray>>, r: int, c: int, n: nat): (l: Lookup)
    requires n <= |pins|
    ensures l.PinnedAt? ==> l.index < n && pins[l.index].Some?
                            && pins[l.index].value.row == r && pins[l.index].value.col == c
  {
    if n == 0 then Unpinned
    else if pins[n - 1].None? then Broken
    else if pins[n - 1].value.row == r && pins[n - 1].value.col == c then PinnedAt(n - 1)
    else LookupPin(pins, r, c, n - 1)
  }

  /** The search finds the last entry naming (r, c) when no empty entry comes after it, finds
      nothing when every entry is a record naming another square, and breaks exactly when an
      empty entry comes after every entry naming (r, c). */
  lemma {:induction false} LookupPinMeans(pins: seq<Option<Ray>>, r: int, c: int, n: nat)
    requires n <= |pins|
    ensures var l := LookupPin(pins, r, c, n);
      (l.PinnedAt? ==> forall i | l.index < i < n :: pins[i].Some? && !(pins[i].value.row == r && pins[i].value.col == c))
      && (l.Unpinned? ==> forall i | 0 <= i < n :: pins[i].Some? && !(pins[i].value.row == r && pins[i].value.col == c))
      && (l.Broken? <==> exists i | 0 <= i < n :: pins[i].None?
                            && forall k | i < k < n :: pins[k].Some? && !(pins[k].value.row == r && pins[k].value.col == c))
  {
    if n > 0 && pins[n - 1].Some? && !(pins[n - 1].value.row == r && pins[n - 1].value.col == c) {
      LookupPinMeans(pins, r, c, n - 1);
      var l := LookupPin(pins, r, c, n - 1);
      if l.Broken? {
        var i :| 0 <= i < n - 1 && pins[i].None?
                 && forall k | i < k < n - 1 :: pins[k].Some? && !(pins[k].value.row == r && pins[k].value.col == c);
        assert forall k | i < k < n :: pins[k].Some? && !(pins[k].value.row == r && pins[k].value.col == c);
      }
    }
  }

  /** The pin record a lookup found. */
  function PinOf(pins: seq<Option<Ray>>, l: Lookup): Option<Ray>
    requires l.PinnedAt? ==> l.index < |pins|
  {
    if l.PinnedAt? then pins[l.index] else None
  }

  /** The pin list after a generator removes the record it found (list.remove: the first equal
      entry). */
  function Consume(pins: seq<Option<Ray>>, l: Lookup): seq<Option<Ray>>
    requires l.PinnedAt? ==> l.index < |pins|
  {
    if l.PinnedAt? then RemoveFirst(pins, pins[l.index]) else pins
  }

  // ----- pawns -----

  /** The one-square advance (where the pin allows it) and the two-square advance from the
      start row, which tests neither the pin nor the square in between. */
  function PawnPushes(b: Board, whiteToMove: bool, r: Coord, c: Coord, pin: Option<Ray>): seq<Move>
    requires OnBoard(r + Forward(whiteToMove), c)
  {
    var ma := Forward(whiteToMove);
    (if b[r + ma][c] == Empty && EngineMoves.PinAllows(pin, (ma, 0)) then [NewLegacyMove(Sq(r, c), Sq(r + ma, c), b, false, false)] else [])
    + (if r == EngineMoves.StartRow(whiteToMove) && b[r + 2 * ma][c] == Empty then [NewLegacyMove(Sq(r, c), Sq(r + 2 * ma, c), b, false, false)] else [])
  }

  /** An enemy rook or queen somewhere in columns [lo, hi) of row r. */
  predicate AttackerIn(b: Board, r: Coord, enemy: Color, lo: int, hi: int)
    requires 0 <= lo && hi <= 8
  {
    exists i | lo <= i < hi :: EngineMoves.RookOrQueenOf(b[r][i], enemy)
  }

  /** Any piece somewhere in columns [lo, hi) of row r. */
  predicate OccupiedIn(b: Board, r: Coord, lo: int, hi: int)
    requires 0 <= lo && hi <= 8
  {
    exists i | lo <= i < hi :: b[r][i] != Empty
  }

  /** A piece other than an enemy rook or queen somewhere in columns [lo, hi) of row r. */
  predicate BystanderIn(b: Board, r: Coord, enemy: Color, lo: int, hi: int)
    requires 0 <= lo && hi <= 8
  {
    exists i | lo <= i < hi :: b[r][i] != Empty && !EngineMoves.RookOrQueenOf(b[r][i], enemy)
  }

  /** The (attacking, blocking) flags of the first row test, on the king's row r with the pawn
      on column c: the inside range lies between king and pawn (short of the captured pawn's
      column when the king is on the left), the outside range beyond the pawn. */
  function FirstFlags(b: Board, r: Coord, c: Coord, king: Cell, enemy: Color): (bool, bool) {
    if king.col < c then
      (AttackerIn(b, r, enemy, c + 1, 8), OccupiedIn(b, r, king.col + 1, c - 1) || BystanderIn(b, r, enemy, c + 1, 8))
    else
      (AttackerIn(b, r, enemy, 0, c), OccupiedIn(b, r, c + 2, king.col) || BystanderIn(b, r, enemy, 0, c))
  }

  /** The flags of the second row test, which starts from the first test's flags and only adds:
      any piece in its inside range blocks, an enemy rook or queen in its outside range attacks
      (its other branch repeats the same condition, so a bystander there never blocks). */
  function SecondFlags(b: Board, r: Coord, c: Coord, king: Cell, enemy: Color, first: (bool, bool)): (bool, bool) {
    if king.col < c then
      (first.0 || AttackerIn(b, r, enemy, c + 2, 8), first.1 || OccupiedIn(b, r, king.col + 1, c))
    else
      (first.0 || AttackerIn(b, r, enemy, 0, c), first.1 || OccupiedIn(b, r, c + 2, king.col))
  }

  /** The capture code of the pawn generator, all of it under the left-diagonal test: a plain
      left capture only for a pawn pinned along that diagonal; when the en-passant target is the
      left diagonal square, an en-passant move there, then (with the king on the pawn's row) a
      plain move there if the first row test passes, a plain right capture, and an en-passant
      move onto the right diagonal square if the second row test passes. With the king on
      another row only the en-passant move is added; an en-passant move onto column 8 fails
      when it reads the board. The source's reset of the flags when the right
      square is the target can never run, since the target is the left square. */
  function PawnCaptures(b: Board, whiteToMove: bool, enpassant: Option<Cell>, king: Cell, r: Coord, c: Coord, pin: Option<Ray>): (seq<Move>, bool)
    requires OnBoard(r + Forward(whiteToMove), c)
  {
    var ma := Forward(whiteToMove);
    var enemy := Opponent(SideColor(whiteToMove));
    if c - 1 < 0 || !EngineMoves.PinAllows(pin, (ma, -1)) then ([], true)
    else
      var target := Sq(r + ma, c - 1);
      var capture := if pin.Some? && IsColor(b[r + ma][c - 1], enemy) then [NewLegacyMove(Sq(r, c), target, b, false, false)] else [];
      if enpassant != Some(target) then (capture, true)
      else
        var emitted := capture + [NewLegacyMove(Sq(r, c), target, b, true, false)];
        if king.row != r then (emitted, true)
        else
          var first := FirstFlags(b, r, c, king, enemy);
          var plain := if !first.0 || first.1 then [NewLegacyMove(Sq(r, c), target, b, false, false)] else [];
          var right := if c + 1 <= 7 && EngineMoves.PinAllows(pin, (ma, 1)) && IsColor(b[r + ma][c + 1], enemy)
                       then [NewLegacyMove(Sq(r, c), Sq(r + ma, c + 1), b, false, false)] else [];
          var second := SecondFlags(b, r, c, king, enemy, first);
          var sofar := emitted + plain + right;
          if second.0 && !second.1 then (sofar, true)
          else if c + 1 > 7 then (sofar, false)
          else (sofar + [NewLegacyMove(Sq(r, c), Sq(r + ma, c + 1), b, true, false)], true)
  }

  /** pawn. */
  function PawnMoves(s: State, r: Coord, c: Coord): (g: Gen)
    ensures ScanOnly(s, g.state)
  {
    var l := LookupPin(s.pins, r, c, |s.pins|);
    if l.Broken? then Gen(s, [], false)
    else
      var pin := PinOf(s.pins, l);
      var s1 := s.(pins := Consume(s.pins, l));
      if !OnBoard(r + Forward(s.whiteToMove), c) then Gen(s1, [], false)
      else
        var cap := PawnCaptures(s.board, s.whiteToMove, s.enpassant, KingOf(s), r, c, pin);
        Gen(s1, PawnPushes(s.board, s.whiteToMove, r, c, pin) + cap.0, cap.1)
  }

  // ----- rooks, bishops, queens -----

  /** The walk at distance i alone: the move it emits, if any, and whether the walk ends there. */
  function SlideStepAt(b: Board, r: Coord, c: Coord, d: (int, int), i: int, pin: Option<Ray>, enemy: Color): (seq<Move>, bool)
    requires 1 <= i < 8
  {
    var er := r + d.0 * i;
    var ec := c + d.1 * i;
    if !OnBoard(er, ec) then ([], false)
    else if !EngineMoves.PinAllowsLine(pin, d) then ([], true)
    else if IsColor(b[er][ec], enemy) then ([NewLegacyMove(Sq(r, c), Sq(er, ec), b, false, false)], false)
    else if b[er][ec] == Empty then ([NewLegacyMove(Sq(r, c), Sq(er, ec), b, false, false)], true)
    else ([], true)
  }

  /** The walk from (r, c) along direction d from distance i on: squares off the board are
      skipped, a line the pin does not allow ends it, an enemy square is appended and the walk
      goes on, an empty square is appended and ends it, an own piece ends it. */
  function SlideFrom(b: Board, r: Coord, c: Coord, d: (int, int), i: int, pin: Option<Ray>, enemy: Color): seq<Move>
    requires 1 <= i
    decreases 8 - i
  {
    if i >= 8 then []
    else
      var er := r + d.0 * i;
      var ec := c + d.1 * i;
      if !OnBoard(er, ec) then SlideFrom(b, r, c, d, i + 1, pin, enemy)
      else if !EngineMoves.PinAllowsLine(pin, d) then []
      else if IsColor(b[er][ec], enemy) then [NewLegacyMove(Sq(r, c), Sq(er, ec), b, false, false)] + SlideFrom(b, r, c, d, i + 1, pin, enemy)
      else if b[er][ec] == Empty then [NewLegacyMove(Sq(r, c), Sq(er, ec), b, false, false)]
      else []
  }

  /** The walks along dirs[0 .. n-1]. */
  function SlidesUpTo(b: Board, r: Coord, c: Coord, dirs: seq<(int, int)>, n: nat, pin: Option<Ray>, enemy: Color): seq<Move>
    requires n <= |dirs|
  {
    if n == 0 then []
    else SlidesUpTo(b, r, c, dirs, n - 1, pin, enemy) + SlideFrom(b, r, c, dirs[n - 1], 1, pin, enemy)
  }

  const BishopDirections: seq<(int, int)> := [(-1, -1), (1, -1), (-1, 1), (1, 1)]

  /** The rook pass: its moves, the pin list it leaves (a queen keeps its record, any other
      piece consumes it), and false where the lookup breaks. */
  function RookPass(b: Board, whiteToMove: bool, pins: seq<Option<Ray>>, r: Coord, c: Coord): (seq<Move>, seq<Option<Ray>>, bool) {
    var l := LookupPin(pins, r, c, |pins|);
    if l.Broken? then ([], pins, false)
    else
      (SlidesUpTo(b, r, c, RookDirections, 4, PinOf(pins, l), Opponent(SideColor(whiteToMove))),
       if IsKind(b[r][c], Queen) then pins else Consume(pins, l), true)
  }

  /** The bishop pass, which always consumes the record it finds. */
  function BishopPass(b: Board, whiteToMove: bool, pins: seq<Option<Ray>>, r: Coord, c: Coord): (seq<Move>, seq<Option<Ray>>, bool) {
    var l := LookupPin(pins, r, c, |pins|);
    if l.Broken? then ([], pins, false)
    else (SlidesUpTo(b, r, c, BishopDirections, 4, PinOf(pins, l), Opponent(SideColor(whiteToMove))), Consume(pins, l), true)
  }

  /** The queen: the bishop pass, then the rook pass on the pin list it leaves. */
  function QueenPass(b: Board, whiteToMove: bool, pins: seq<Option<Ray>>, r: Coord, c: Coord): (seq<Move>, seq<Option<Ray>>, bool) {
    var p1 := BishopPass(b, whiteToMove, pins, r, c);
    if !p1.2 then p1
    else
      var p2 := RookPass(b, whiteToMove, p1.1, r, c);
      (p1.0 + p2.0, p2.1, p2.2)
  }

  function RookMoves(s: State, r: Coord, c: Coord): (g: Gen)
    ensures ScanOnly(s, g.state)
  {
    var p := RookPass(s.board, s.whiteToMove, s.pins, r, c);
    Gen(s.(pins := p.1), p.0, p.2)
  }

  function BishopMoves(s: State, r: Coord, c: Coord): (g: Gen)
    ensures ScanOnly(s, g.state)
  {
    var p := BishopPass(s.board, s.whiteToMove, s.pins, r, c);
    Gen(s.(pins := p.1), p.0, p.2)
  }

  function QueenMoves(s: State, r: Coord, c: Coord): (g: Gen)
    ensures ScanOnly(s, g.state)
  {
    var p := QueenPass(s.board, s.whiteToMove, s.pins, r, c);
    Gen(s.(pins := p.1), p.0, p.2)
  }

  // ----- knights -----

  /** Knight jumps 0 .. n-1 onto squares without an own piece; none for a pinned knight. */
  function JumpsUpTo(b: Board, r: Coord, c: Coord, n: nat, pinned: bool, friendly: Color): seq<Move>
    requires n <= 8
  {
    if n == 0 then []
    else
      var er := r + KnightJumps[n - 1].0;
      var ec := c + KnightJumps[n - 1].1;
      JumpsUpTo(b, r, c, n - 1, pinned, friendly)
      + (if OnBoard(er, ec) && !pinned && !IsColor(b[er][ec], friendly) then [NewLegacyMove(Sq(r, c), Sq(er, ec), b, false, false)] else [])
  }

  function KnightMoves(s: State, r: Coord, c: Coord): (g: Gen)
    ensures ScanOnly(s, g.state)
  {
    var l := LookupPin(s.pins, r, c, |s.pins|);
    if l.Broken? then Gen(s, [], false)
    else Gen(s.(pins := Consume(s.pins, l)), JumpsUpTo(s.board, r, c, 8, l.PinnedAt?, SideColor(s.whiteToMove)), true)
  }

  // ----- kings and castling -----

  /** The relocated-king probe: the side to move would be in check with its king on (er, ec). */
  predicate CheckedAt(s: State, er: int, ec: int) {
    LegacyScan.PinsAndChecks(s.board, er, ec, SideColor(s.whiteToMove)).0
  }

  /** King steps k .. 7: a step onto an on-board square without an own piece probes the
      relocated king (which empties the pin list), emits the move when the probe finds no
      check, and leaves the cache at (r, c); a probe that finds a check ends the generator.
      The last component says whether it ended that way. */
  function KingStepsFrom(s: State, r: Coord, c: Coord, k: nat): (ks: (State, seq<Move>, bool))
    requires k <= 8
    ensures ScanOnly(s, ks.0)
    decreases 8 - k
  {
    if k == 8 then (s, [], false)
    else
      var er := r + KingSteps[k].0;
      var ec := c + KingSteps[k].1;
      if OnBoard(er, ec) && !IsColor(s.board[er][ec], SideColor(s.whiteToMove)) then
        var s1 := WithKing(s.(pins := []), Sq(r, c));
        if CheckedAt(s, er, ec) then (s1, [], true)
        else
          var rest := KingStepsFrom(s1, r, c, k + 1);
          (rest.0, [NewLegacyMove(Sq(r, c), Sq(er, ec), s.board, false, false)] + rest.1, rest.2)
      else KingStepsFrom(s, r, c, k + 1)
  }

  /** get_king_side_castle_moves; false where the source indexes a column past 7. */
  function KingsideCastleMoves(b: Board, r: Coord, c: Coord, friendly: Color): (seq<Move>, bool) {
    if c + 1 > 7 then ([], false)
    else if b[r][c + 1] != Empty then ([], true)
    else if c + 2 > 7 then ([], false)
    else if b[r][c + 2] != Empty then ([], true)
    else if LegacyScan.SquareUnderAttack(b, r, c + 1, friendly) || LegacyScan.SquareUnderAttack(b, r, c + 2, friendly) then ([], true)
    else ([NewLegacyMove(Sq(r, c), Sq(r, c + 2), b, false, true)], true)
  }

  /** get_queen_side_castle_moves; false where the source indexes a negative column. */
  function QueensideCastleMoves(b: Board, r: Coord, c: Coord, friendly: Color): (seq<Move>, bool) {
    if c - 1 < 0 then ([], false)
    else if b[r][c - 1] != Empty then ([], true)
    else if c - 2 < 0 then ([], false)
    else if b[r][c - 2] != Empty then ([], true)
    else if c - 3 < 0 then ([], false)
    else if b[r][c - 3] != Empty then ([], true)
    else if LegacyScan.SquareUnderAttack(b, r, c - 1, friendly) || LegacyScan.SquareUnderAttack(b, r, c - 2, friendly) then ([], true)
    else ([NewLegacyMove(Sq(r, c), Sq(r, c - 2), b, false, true)], true)
  }

  predicate HoldsKingside(s: State) {
    (s.whiteToMove && s.rights.wks) || (!s.whiteToMove && s.rights.bks)
  }

  predicate HoldsQueenside(s: State) {
    (s.whiteToMove && s.rights.wqs) || (!s.whiteToMove && s.rights.bqs)
  }

  /** get_castle_moves: nothing from an attacked square, else queen side then king side. */
  function CastleMoves(s: State, r: Coord, c: Coord): (seq<Move>, bool) {
    var friendly := SideColor(s.whiteToMove);
    if LegacyScan.SquareUnderAttack(s.board, r, c, friendly) then ([], true)
    else
      var q := if HoldsQueenside(s) then QueensideCastleMoves(s.board, r, c, friendly) else ([], true);
      if !q.1 then q
      else
        var k := if HoldsKingside(s) then KingsideCastleMoves(s.board, r, c, friendly) else ([], true);
        (q.0 + k.0, k.1)
  }

  /** king: the steps, then castling unless a probe found a check. */
  function KingMoves(s: State, r: Coord, c: Coord): (g: Gen)
    ensures ScanOnly(s, g.state)
  {
    var steps := KingStepsFrom(s, r, c, 0);
    if steps.2 then Gen(steps.0, steps.1, true)
    else
      var cm := CastleMoves(steps.0, r, c);
      Gen(steps.0, steps.1 + cm.0, cm.1)
  }

  // ----- all moves -----

  /** The generator for the piece on (r, c) (the pieceMovementFunctions dispatch). */
  function PieceMoves(s: State, r: Coord, c: Coord): (g: Gen)
    requires s.board[r][c].Occupied?
    ensures ScanOnly(s, g.state)
  {
    match s.board[r][c].kind
    case Pawn => PawnMoves(s, r, c)
    case Rook => RookMoves(s, r, c)
    case Knight => KnightMoves(s, r, c)
    case Bishop => BishopMoves(s, r, c)
    case Queen => QueenMoves(s, r, c)
    case King => KingMoves(s, r, c)
  }

  /** The inner loop of get_all_possible_moves over columns 0 .. n-1 of row r, continuing the
      generation g; it stops at the first generator that fails. */
  function RowScan(g: Gen, r: Coord, n: nat): (h: Gen)
    requires n <= 8
    ensures ScanOnly(g.state, h.state)
    ensures h.ok ==> g.ok
  {
    if n == 0 then g
    else
      var h := RowScan(g, r, n - 1);
      if !h.ok then h
      else if IsColor(h.state.board[r][n - 1], SideColor(h.state.whiteToMove)) then
        var p := PieceMoves(h.state, r, n - 1);
        Gen(p.state, h.moves + p.moves, p.ok)
      else h
  }

  /** get_all_possible_moves over rows 0 .. n-1. */
  function RowsUpTo(s: State, n: nat): (g: Gen)
    requires n <= 8
    ensures ScanOnly(s, g.state)
  {
    if n == 0 then Gen(s, [], true)
    else
      var g := RowsUpTo(s, n - 1);
      if !g.ok then g else RowScan(g, n - 1, 8)
  }

  function AllMoves(s: State): (g: Gen)
    ensures ScanOnly(s, g.state)
  {
    RowsUpTo(s, 8)
  }

  // ----- get_valid_moves -----

  /** The state after check_for_pins_and_checks has been stored. */
  function Scanned(s: State): State {
    var king := KingOf(s);
    var pc := LegacyScan.PinsAndChecks(s.board, king.row, king.col, SideColor(s.whiteToMove));
    s.(inCheck := pc.0, pins := pc.1, checks := pc.2)
  }

  /** The moves get_valid_moves keeps from the generated ones, given the stored scan: all of
      them out of check; under a single check those of a king or ending on a square that
      captures or blocks the checker; under a double check those of a king. */
  function Kept(s1: State, moves: seq<Move>): seq<Move> {
    if !s1.inCheck then moves
    else if |s1.checks| == 1 then
      EngineMoveFacts.Evasions(moves, EngineMoves.ValidSquares(s1.board, KingOf(s1), s1.checks[0]))
    else EngineMoveFacts.Evasions(moves, [])
  }

  /** The checkmate / stalemate flags after a generation that produced no move (none) or some. */
  function Verdict(t: State, none: bool): State {
    if !none then t.(checkmate := false, stalemate := false)
    else if t.inCheck then t.(checkmate := true)
    else t.(stalemate := true)
  }

  /** get_valid_moves: generate first (with the pin list the previous call left), then scan,
      then filter and set the flags. */
  function ValidMoves(s: State): Gen {
    var a := AllMoves(s);
    if !a.ok then a
    else
      var s1 := Scanned(a.state);
      var moves := Kept(s1, a.moves);
      Gen(Verdict(s1, |moves| == 0), moves, true)
  }
}
