// What the move generators of the primary engine produce, stated independently of how they
// walk the board: sliding rays, knight jumps, king steps, castling, the en-passant tests, the
// queen's pin, the single-check filter and the checkmate / stalemate flags.

module EngineMoveFacts {
  import opened Wrappers
  import opened Pieces
  import opened Moves
  import opened EngineState
  import opened EngineScan
  import opened EngineMoves

  // ----- sliding pieces -----

  /** Every square at distance 1 .. i-1 along d from (r, c) is on the board and empty. */
  predicate ClearTo(b: Board, r: Coord, c: Coord, d: (int, int), i: int) {
    forall k | 1 <= k < i :: OnBoard(r + d.0 * k, c + d.1 * k) && b[r + d.0 * k][c + d.1 * k] == Empty
  }

  /** The square at distance i along d from (r, c) is on the board and holds no own piece. */
  predicate OpenSquare(b: Board, r: Coord, c: Coord, d: (int, int), i: int, enemy: Color) {
    OnBoard(r + d.0 * i, c + d.1 * i)
    && (b[r + d.0 * i][c + d.1 * i] == Empty || IsColor(b[r + d.0 * i][c + d.1 * i], enemy))
  }

  /** The square at distance i along d from (r, c) can be moved to: every square strictly
      between is empty and the square itself is empty or holds an enemy piece. */
  predicate SlideTarget(b: Board, r: Coord, c: Coord, d: (int, int), i: int, enemy: Color) {
    OpenSquare(b, r, c, d, i, enemy) && ClearTo(b, r, c, d, i)
  }

  /** The move of a sliding piece from (r, c) to distance i along d. */
  function SlideMove(b: Board, r: Coord, c: Coord, d: (int, int), i: int): Move
    requires OnBoard(r + d.0 * i, c + d.1 * i)
  {
    NewMove(Sq(r, c), Sq(r + d.0 * i, c + d.1 * i), b, false, false)
  }

  lemma {:induction false} SlideFromMeans(b: Board, r: Coord, c: Coord, d: (int, int), i0: int, enemy: Color, m: Move)
    requires 1 <= i0
    requires ClearTo(b, r, c, d, i0)
    ensures m in SlideFrom(b, r, c, d, i0, enemy) <==>
      exists i | i0 <= i < 8 :: SlideTarget(b, r, c, d, i, enemy) && m == SlideMove(b, r, c, d, i)
    decreases 8 - i0
  {
    if i0 < 8 {
      var er := r + d.0 * i0;
      var ec := c + d.1 * i0;
      if OnBoard(er, ec) && b[er][ec] == Empty {
        assert ClearTo(b, r, c, d, i0 + 1);
        SlideFromMeans(b, r, c, d, i0 + 1, enemy, m);
        assert SlideTarget(b, r, c, d, i0, enemy);
        assert SlideFrom(b, r, c, d, i0, enemy) == [SlideMove(b, r, c, d, i0)] + SlideFrom(b, r, c, d, i0 + 1, enemy);
      } else {
        forall i | i0 < i < 8 ensures !ClearTo(b, r, c, d, i) {
          assert 1 <= i0 < i;
        }
        if OpenSquare(b, r, c, d, i0, enemy) {
          assert SlideTarget(b, r, c, d, i0, enemy);
          assert SlideFrom(b, r, c, d, i0, enemy) == [SlideMove(b, r, c, d, i0)];
        } else {
          assert SlideFrom(b, r, c, d, i0, enemy) == [];
        }
      }
    }
  }

  /** m is a move of a sliding piece on (r, c) along direction d. */
  predicate RayHit(b: Board, r: Coord, c: Coord, d: (int, int), enemy: Color, m: Move) {
    exists i | 1 <= i < 8 :: SlideTarget(b, r, c, d, i, enemy) && m == SlideMove(b, r, c, d, i)
  }

  lemma RayHitMeans(b: Board, r: Coord, c: Coord, d: (int, int), enemy: Color, m: Move)
    ensures m in SlideFrom(b, r, c, d, 1, enemy) <==> RayHit(b, r, c, d, enemy, m)
  {
    SlideFromMeans(b, r, c, d, 1, enemy, m);
  }

  /** m is a move along direction d that a piece with this pin record may make. */
  predicate SlideHit(b: Board, r: Coord, c: Coord, d: (int, int), pin: Option<Ray>, enemy: Color, m: Move) {
    PinAllowsLine(pin, d) && RayHit(b, r, c, d, enemy, m)
  }

  /** A rook, bishop or queen pass emits exactly the moves to reachable squares along the
      directions its pin record allows. */
  lemma SlidesMeans(b: Board, r: Coord, c: Coord, dirs: seq<(int, int)>, n: nat, pin: Option<Ray>, enemy: Color, m: Move)
    requires n <= |dirs|
    ensures m in SlidesUpTo(b, r, c, dirs, n, pin, enemy) <==>
      exists j | 0 <= j < n :: SlideHit(b, r, c, dirs[j], pin, enemy, m)
  {
    var walks := Walks(b, r, c, dirs, n, pin, enemy);
    SlidesFlatten(b, r, c, dirs, n, pin, enemy);
    FlattenMeans(walks, m);
    if m in SlidesUpTo(b, r, c, dirs, n, pin, enemy) {
      var j :| 0 <= j < n && m in walks[j];
      RayHitMeans(b, r, c, dirs[j], enemy, m);
    }
    if j :| 0 <= j < n && SlideHit(b, r, c, dirs[j], pin, enemy, m) {
      RayHitMeans(b, r, c, dirs[j], enemy, m);
      assert m in walks[j];
    }
  }

  /** The parts joined end to end. */
  function Flatten(parts: seq<seq<Move>>): seq<Move> {
    if |parts| == 0 then [] else Flatten(Front(parts)) + Last(parts)
  }

  /** A move is in the joined parts exactly when it is in one of them. */
  lemma {:induction false} FlattenMeans(parts: seq<seq<Move>>, m: Move)
    ensures m in Flatten(parts) <==> exists j | 0 <= j < |parts| :: m in parts[j]
  {
    if |parts| > 0 {
      FlattenMeans(Front(parts), m);
      if j :| 0 <= j < |parts| && m in parts[j] {
        if j < |parts| - 1 {
          assert m in Front(parts)[j];
        }
      }
    }
  }

  /** The walk of each direction the pass visits, empty where the pin forbids its line. */
  function Walks(b: Board, r: Coord, c: Coord, dirs: seq<(int, int)>, n: nat, pin: Option<Ray>, enemy: Color): seq<seq<Move>>
    requires n <= |dirs|
  {
    seq(n, j requires 0 <= j < n => if PinAllowsLine(pin, dirs[j]) then SlideFrom(b, r, c, dirs[j], 1, enemy) else [])
  }

  lemma {:induction false} SlidesFlatten(b: Board, r: Coord, c: Coord, dirs: seq<(int, int)>, n: nat, pin: Option<Ray>, enemy: Color)
    requires n <= |dirs|
    ensures SlidesUpTo(b, r, c, dirs, n, pin, enemy) == Flatten(Walks(b, r, c, dirs, n, pin, enemy))
  {
    if n > 0 {
      SlidesFlatten(b, r, c, dirs, n - 1, pin, enemy);
      assert Front(Walks(b, r, c, dirs, n, pin, enemy)) == Walks(b, r, c, dirs, n - 1, pin, enemy);
    }
  }

  /** The queen's bishop pass consumes its only pin record, so the rook pass that follows runs
      as if the queen were not pinned. */
  lemma QueenPinConsumed(s: State, r: Coord, c: Coord)
    requires IsKind(s.board[r][c], Queen)
    requires FindPin(s.pins, r, c).Some?
    requires forall x | x in s.pins && x.row == r && x.col == c :: x == FindPin(s.pins, r, c).value
    requires multiset(s.pins)[FindPin(s.pins, r, c).value] == 1
    ensures var enemy := Opponent(SideColor(s.whiteToMove));
      QueenMoves(s, r, c).moves
      == SlidesUpTo(s.board, r, c, BishopDirections, 4, FindPin(s.pins, r, c), enemy)
         + SlidesUpTo(s.board, r, c, RookDirections, 4, None, enemy)
  {
    var pin := FindPin(s.pins, r, c).value;
    var rest := RemoveFirst(s.pins, pin);
    assert multiset(rest)[pin] == 0;
    forall x | x in rest ensures !(x.row == r && x.col == c) {
      assert x in multiset(rest);
      assert x in s.pins;
    }
    var k := LastPinIndex(rest, r, c, |rest|);
  }

  /** White king e1, white queen e2, black rook e8, nothing else. */
  function QueenPinBoard(): Board {
    Put(Put(Put(seq(8, _ => seq(8, _ => Empty)), 7, 4, Occupied(White, King)), 6, 4, Occupied(White, Queen)), 0, 4, Occupied(Black, Rook))
  }

  lemma QueenPinBoardPins()
    ensures PinsAndChecks(QueenPinBoard(), 7, 4, White).0 == false
    ensures PinsAndChecks(QueenPinBoard(), 7, 4, White).1 == [Ray(6, 4, -1, 0)]
  {
    var b := QueenPinBoard();
    QueenPinBoardFindings();
    QueenPinBoardNoChecks();
    assert PinsUpTo(b, 7, 4, White, 1) == [Ray(6, 4, -1, 0)];
    assert PinsUpTo(b, 7, 4, White, 2) == [Ray(6, 4, -1, 0)];
    assert PinsUpTo(b, 7, 4, White, 3) == [Ray(6, 4, -1, 0)];
    assert PinsUpTo(b, 7, 4, White, 4) == [Ray(6, 4, -1, 0)];
    assert PinsUpTo(b, 7, 4, White, 5) == [Ray(6, 4, -1, 0)];
    assert PinsUpTo(b, 7, 4, White, 6) == [Ray(6, 4, -1, 0)];
    assert PinsUpTo(b, 7, 4, White, 7) == [Ray(6, 4, -1, 0)];
  }

  /** On QueenPinBoard no line and no knight checks the king on e1. */
  lemma QueenPinBoardNoChecks()
    ensures RayChecksUpTo(QueenPinBoard(), 7, 4, White, 8) == []
    ensures KnightChecksUpTo(QueenPinBoard(), 7, 4, White, 8) == []
  {
    var b := QueenPinBoard();
    QueenPinBoardFindings();
    assert RayChecksUpTo(b, 7, 4, White, 1) == [];
    assert RayChecksUpTo(b, 7, 4, White, 2) == [];
    assert RayChecksUpTo(b, 7, 4, White, 3) == [];
    assert RayChecksUpTo(b, 7, 4, White, 4) == [];
    assert RayChecksUpTo(b, 7, 4, White, 5) == [];
    assert RayChecksUpTo(b, 7, 4, White, 6) == [];
    assert RayChecksUpTo(b, 7, 4, White, 7) == [];
    QueenPinBoardSquares();
    forall k | 0 <= k < 8 ensures !KnightThreat(b, 7, 4, White, k) {
    }
    KnightChecksMeans(b, 7, 4, White, 8);
  }

  /** On QueenPinBoard, the walk up the e-file pins the queen and no other direction finds
      anything. */
  lemma QueenPinBoardFindings()
    ensures RayFinding(QueenPinBoard(), 7, 4, White, 0) == PinFinding(Ray(6, 4, -1, 0))
    ensures forall j | 1 <= j < 8 :: RayFinding(QueenPinBoard(), 7, 4, White, j) == NoFinding
  {
    var b := QueenPinBoard();
    QueenPinBoardSquares();
    assert PinWalk(b, 7, 4, White, 0, 7, Some(Ray(6, 4, -1, 0))) == PinFinding(Ray(6, 4, -1, 0));
    assert PinWalk(b, 7, 4, White, 0, 5, Some(Ray(6, 4, -1, 0))) == PinFinding(Ray(6, 4, -1, 0));
    assert PinWalk(b, 7, 4, White, 0, 3, Some(Ray(6, 4, -1, 0))) == PinFinding(Ray(6, 4, -1, 0));
    assert PinWalk(b, 7, 4, White, 0, 1, None) == PinFinding(Ray(6, 4, -1, 0));
    QueenPinBoardEmptyLines();
  }

  /** On QueenPinBoard, every direction from e1 except up the e-file finds nothing. */
  lemma QueenPinBoardEmptyLines()
    ensures forall j | 1 <= j < 8 :: RayFinding(QueenPinBoard(), 7, 4, White, j) == NoFinding
  {
    QueenPinBoardUpperLines();
    QueenPinBoardDiagonals();
  }

  /** The rank and the lower file from e1: directions 1 .. 3 (left, down, right). */
  lemma QueenPinBoardUpperLines()
    ensures forall j | 1 <= j < 4 :: RayFinding(QueenPinBoard(), 7, 4, White, j) == NoFinding
  {
    var b := QueenPinBoard();
    QueenPinBoardSquares();
    assert PinWalk(b, 7, 4, White, 1, 3, None) == NoFinding;
    assert PinWalk(b, 7, 4, White, 1, 1, None) == NoFinding;
    assert PinWalk(b, 7, 4, White, 3, 2, None) == NoFinding;
  }

  /** The four diagonals from e1: directions 4 .. 7. */
  lemma QueenPinBoardDiagonals()
    ensures forall j | 4 <= j < 8 :: RayFinding(QueenPinBoard(), 7, 4, White, j) == NoFinding
  {
    var b := QueenPinBoard();
    QueenPinBoardSquares();
    assert PinWalk(b, 7, 4, White, 4, 3, None) == NoFinding;
    assert PinWalk(b, 7, 4, White, 4, 1, None) == NoFinding;
    assert PinWalk(b, 7, 4, White, 5, 2, None) == NoFinding;
  }

  /** The three pieces of QueenPinBoard, and every other square empty. */
  lemma QueenPinBoardSquares()
    ensures var b := QueenPinBoard();
      b[7][4] == Occupied(White, King) && b[6][4] == Occupied(White, Queen) && b[0][4] == Occupied(Black, Rook)
      && forall i, j | 0 <= i < 8 && 0 <= j < 8 && !(i == 7 && j == 4) && !(i == 6 && j == 4) && !(i == 0 && j == 4) :: b[i][j] == Empty
  {
  }

  /** The quirk at work: a queen pinned along a file (its only pin record has column step 0)
      still steps sideways to an empty neighbouring square, leaving the pin line. For instance
      QueenPinBoard, where the scan pins the queen on e2 along the e-file (QueenPinBoardPins),
      lets it go to d2. */
  lemma QueenLeavesPinLine(s: State, r: Coord, c: Coord)
    requires IsKind(s.board[r][c], Queen)
    requires FindPin(s.pins, r, c).Some? && FindPin(s.pins, r, c).value.dCol == 0
    requires forall x | x in s.pins && x.row == r && x.col == c :: x == FindPin(s.pins, r, c).value
    requires multiset(s.pins)[FindPin(s.pins, r, c).value] == 1
    requires 1 <= c && s.board[r][c - 1] == Empty
    ensures !PinAllowsLine(FindPin(s.pins, r, c), (0, -1))
    ensures NewMove(Sq(r, c), Sq(r, c - 1), s.board, false, false) in QueenMoves(s, r, c).moves
  {
    QueenPinConsumed(s, r, c);
    UnpinnedSideStep(s.board, r, c, Opponent(SideColor(s.whiteToMove)));
  }

  /** Unpinned, the rook directions reach an empty square to the left. */
  lemma UnpinnedSideStep(b: Board, r: Coord, c: Coord, enemy: Color)
    requires 1 <= c && b[r][c - 1] == Empty
    ensures NewMove(Sq(r, c), Sq(r, c - 1), b, false, false) in SlidesUpTo(b, r, c, RookDirections, 4, None, enemy)
  {
    var m := NewMove(Sq(r, c), Sq(r, c - 1), b, false, false);
    SlidesMeans(b, r, c, RookDirections, 4, None, enemy, m);
    assert SlideTarget(b, r, c, RookDirections[2], 1, enemy);
    assert m == SlideMove(b, r, c, RookDirections[2], 1);
    assert SlideHit(b, r, c, RookDirections[2], None, enemy, m);
  }

  // ----- knights -----

  /** Knight jump k from (r, c) lands on the board on a square without an own piece. */
  predicate JumpTarget(b: Board, r: Coord, c: Coord, k: nat, friendly: Color)
    requires k < 8
  {
    OnBoard(r + KnightJumps[k].0, c + KnightJumps[k].1)
    && !IsColor(b[r + KnightJumps[k].0][c + KnightJumps[k].1], friendly)
  }

  function JumpMove(b: Board, r: Coord, c: Coord, k: nat): Move
    requires k < 8 && OnBoard(r + KnightJumps[k].0, c + KnightJumps[k].1)
  {
    NewMove(Sq(r, c), Sq(r + KnightJumps[k].0, c + KnightJumps[k].1), b, false, false)
  }

  /** A knight emits a move to each of its jump squares without an own piece, unless pinned. */
  lemma {:induction false} JumpsMeans(b: Board, r: Coord, c: Coord, n: nat, pinned: bool, friendly: Color, m: Move)
    requires n <= 8
    ensures m in JumpsUpTo(b, r, c, n, pinned, friendly) <==>
      !pinned && exists k | 0 <= k < n :: JumpTarget(b, r, c, k, friendly) && m == JumpMove(b, r, c, k)
  {
    if n > 0 {
      JumpsMeans(b, r, c, n - 1, pinned, friendly, m);
      var prev := JumpsUpTo(b, r, c, n - 1, pinned, friendly);
      var last := JumpsLast(b, r, c, n, pinned, friendly);
      if k :| 0 <= k < n && !pinned && JumpTarget(b, r, c, k, friendly) && m == JumpMove(b, r, c, k) {
        if k < n - 1 {
          assert m in prev;
        } else {
          assert m in last;
        }
      }
    }
  }

  /** Jump n - 1 adds its move exactly when the knight is unpinned and the square allows it. */
  lemma JumpsLast(b: Board, r: Coord, c: Coord, n: nat, pinned: bool, friendly: Color) returns (last: seq<Move>)
    requires 0 < n <= 8
    ensures last == if !pinned && JumpTarget(b, r, c, n - 1, friendly) then [JumpMove(b, r, c, n - 1)] else []
    ensures JumpsUpTo(b, r, c, n, pinned, friendly) == JumpsUpTo(b, r, c, n - 1, pinned, friendly) + last
  {
    last := if !pinned && JumpTarget(b, r, c, n - 1, friendly) then [JumpMove(b, r, c, n - 1)] else [];
  }

  // ----- kings -----

  /** King step k from (r, c) lands on the board on a square without an own piece, and the
      side to move would not be in check with its king there. */
  predicate SafeStep(s: State, r: Coord, c: Coord, k: nat)
    requires k < 8
  {
    OnBoard(r + KingSteps[k].0, c + KingSteps[k].1)
    && !IsColor(s.board[r + KingSteps[k].0][c + KingSteps[k].1], SideColor(s.whiteToMove))
    && !CheckedAt(s, r + KingSteps[k].0, c + KingSteps[k].1)
  }

  function StepMove(b: Board, r: Coord, c: Coord, k: nat): Move
    requires k < 8 && OnBoard(r + KingSteps[k].0, c + KingSteps[k].1)
  {
    NewMove(Sq(r, c), Sq(r + KingSteps[k].0, c + KingSteps[k].1), b, false, false)
  }

  /** The king steps run to the end and leave the cache on (r, c), or untouched when no step
      was probed; nothing else in the state changes. */
  lemma {:induction false} KingStepsState(s: State, r: Coord, c: Coord, n: nat)
    requires n <= 8
    ensures var g := KingStepsUpTo(s, r, c, n);
      g.ok && (g.state == s || g.state == WithKing(s, Sq(r, c)))
  {
    if n > 0 {
      KingStepsState(s, r, c, n - 1);
    }
  }

  /** King steps: a step is emitted exactly onto an on-board square without an own piece where
      the relocated-king scan finds no check. */
  lemma KingStepsMeans(s: State, r: Coord, c: Coord, n: nat, m: Move)
    requires n <= 8
    ensures m in KingStepsUpTo(s, r, c, n).moves <==>
      exists k | 0 <= k < n :: SafeStep(s, r, c, k) && m == StepMove(s.board, r, c, k)
  {
    var steps := Steps(s, r, c, n);
    KingStepsFlatten(s, r, c, n);
    FlattenMeans(steps, m);
    if m in KingStepsUpTo(s, r, c, n).moves {
      var k :| 0 <= k < n && m in steps[k];
      StepsAt(s, r, c, n, k);
    }
    if k :| 0 <= k < n && SafeStep(s, r, c, k) && m == StepMove(s.board, r, c, k) {
      StepsAt(s, r, c, n, k);
      assert m in steps[k];
    }
  }

  /** The move of each king step below n, empty where the step is not safe. */
  function Steps(s: State, r: Coord, c: Coord, n: nat): (parts: seq<seq<Move>>)
    requires n <= 8
    ensures |parts| == n
  {
    if n == 0 then [] else Steps(s, r, c, n - 1) + [StepPart(s, r, c, n - 1)]
  }

  function StepPart(s: State, r: Coord, c: Coord, k: nat): seq<Move>
    requires k < 8
  {
    if SafeStep(s, r, c, k) then [StepMove(s.board, r, c, k)] else []
  }

  lemma {:induction false} StepsAt(s: State, r: Coord, c: Coord, n: nat, k: nat)
    requires k < n <= 8
    ensures Steps(s, r, c, n)[k] == StepPart(s, r, c, k)
  {
    if k < n - 1 {
      StepsAt(s, r, c, n - 1, k);
    }
  }

  lemma {:induction false} KingStepsFlatten(s: State, r: Coord, c: Coord, n: nat)
    requires n <= 8
    ensures KingStepsUpTo(s, r, c, n).moves == Flatten(Steps(s, r, c, n))
  {
    if n > 0 {
      KingStepsFlatten(s, r, c, n - 1);
      KingStepsLast(s, r, c, n);
      assert Front(Steps(s, r, c, n)) == Steps(s, r, c, n - 1);
    }
  }

  /** Step n - 1 adds its move exactly when it is safe. */
  lemma KingStepsLast(s: State, r: Coord, c: Coord, n: nat)
    requires 0 < n <= 8
    ensures KingStepsUpTo(s, r, c, n).moves == KingStepsUpTo(s, r, c, n - 1).moves + StepPart(s, r, c, n - 1)
  {
  }

  /** Castling: a castling move is emitted only from an unattacked square with the right held,
      with the squares between king and rook empty (two on the king side, three on the queen
      side) and the two squares the king crosses unattacked; when the generators run to the end
      under those conditions, the move is emitted. */
  lemma CastleMeans(s: State, r: Coord, c: Coord)
    ensures var (ms, ok) := CastleMoves(s, r, c, SideColor(s.whiteToMove));
      var b := s.board;
      var f := SideColor(s.whiteToMove);
      (forall m | m in ms ::
         m.castle && m.startRow == r && m.startCol == c && m.endRow == r && !SquareUnderAttack(b, r, c, f)
         && ((m.endCol == c + 2 && HoldsKingside(s) && b[r][c + 1] == Empty && b[r][c + 2] == Empty
              && !SquareUnderAttack(b, r, c + 1, f) && !SquareUnderAttack(b, r, c + 2, f))
             || (m.endCol == c - 2 && HoldsQueenside(s) && b[r][c - 1] == Empty && b[r][c - 2] == Empty
                 && b[r][c - 3] == Empty && !SquareUnderAttack(b, r, c - 1, f) && !SquareUnderAttack(b, r, c - 2, f))))
      && (ok && !SquareUnderAttack(b, r, c, f) && HoldsKingside(s) && c + 2 <= 7
          && b[r][c + 1] == Empty && b[r][c + 2] == Empty
          && !SquareUnderAttack(b, r, c + 1, f) && !SquareUnderAttack(b, r, c + 2, f)
          ==> NewMove(Sq(r, c), Sq(r, c + 2), b, false, true) in ms)
      && (ok && !SquareUnderAttack(b, r, c, f) && HoldsQueenside(s) && c - 3 >= 0
          && b[r][c - 1] == Empty && b[r][c - 2] == Empty && b[r][c - 3] == Empty
          && !SquareUnderAttack(b, r, c - 1, f) && !SquareUnderAttack(b, r, c - 2, f)
          ==> NewMove(Sq(r, c), Sq(r, c - 2), b, false, true) in ms)
  {
  }

  // ----- pawns -----

  /** The right en-passant capture is emitted only when the king shares the pawn's row, while the
      left one passes the row test whenever the king is elsewhere. */
  lemma EnPassantRowQuirk(s: State, r: Coord, c: Coord, pin: Option<Ray>)
    requires OnBoard(r + Forward(s.whiteToMove), c)
    ensures KingOf(s).row != r ==> forall m | m in PawnRight(s.board, s.whiteToMove, s.enpassant, KingOf(s), r, c, pin) :: !m.isEnpassantMove
    ensures KingOf(s).row != r && 1 <= c && PinAllows(pin, (Forward(s.whiteToMove), -1))
            && s.enpassant == Some(Sq(r + Forward(s.whiteToMove), c - 1))
            ==> NewMove(Sq(r, c), Sq(r + Forward(s.whiteToMove), c - 1), s.board, true, false) in PawnLeft(s.board, s.whiteToMove, s.enpassant, KingOf(s), r, c, pin)
  {
  }

  /** The en-passant row test refuses the capture exactly when an enemy rook or queen stands in
      the outside range and every other square of both ranges is empty. */
  lemma EpRowAllowsMeans(b: Board, r: Coord, enemy: Color, iLo: int, iHi: int, oLo: int, oHi: int)
    requires 0 <= iLo && iHi <= 8 && 0 <= oLo && oHi <= 8
    ensures !EpRowAllows(b, r, enemy, iLo, iHi, oLo, oHi) <==>
      (exists i | oLo <= i < oHi :: RookOrQueenOf(b[r][i], enemy))
      && (forall i | iLo <= i < iHi :: b[r][i] == Empty)
      && (forall i | oLo <= i < oHi :: b[r][i] == Empty || RookOrQueenOf(b[r][i], enemy))
  {
  }

  // ----- getValidMoves -----

  predicate AllEvade(ms: seq<Move>, valid: seq<Square>, lo: int) {
    forall k | 0 <= lo <= k < |ms| :: Evades(ms[k], valid)
  }

  /** Whatever the move ids, every move the single-check filter keeps evades the check. */
  lemma {:induction false} EvasionLoopOnlyEvasions(ms: seq<Move>, valid: seq<Square>, i: int)
    requires -1 <= i < |ms|
    requires AllEvade(ms, valid, i + 1)
    ensures forall m | m in EvasionLoop(ms, valid, i) :: Evades(m, valid)
    decreases i + 1
  {
    if i >= 0 {
      if Evades(ms[i], valid) {
        EvasionLoopOnlyEvasions(ms, valid, i - 1);
      } else {
        var ms' := RemoveFirstMove(ms, ms[i]);
        var k := IndexOfMove(ms, ms[i]);
        assert ms' == ms[..k] + ms[k + 1..];
        forall j | i <= j < |ms'| ensures Evades(ms'[j], valid) {
          assert ms'[j] == ms[j + 1];
        }
        EvasionLoopOnlyEvasions(ms', valid, i - 1);
      }
    }
  }

  /** The moves of ms that evade, in order. */
  function Evasions(ms: seq<Move>, valid: seq<Square>): seq<Move> {
    if |ms| == 0 then []
    else Evasions(Front(ms), valid) + (if Evades(Last(ms), valid) then [Last(ms)] else [])
  }

  lemma {:induction false} EvasionsAppend(a: seq<Move>, b: seq<Move>, valid: seq<Square>)
    ensures Evasions(a + b, valid) == Evasions(a, valid) + Evasions(b, valid)
    decreases |b|
  {
    if |b| > 0 {
      assert Front(a + b) == a + Front(b);
      assert Last(a + b) == Last(b);
      EvasionsAppend(a, Front(b), valid);
    } else {
      assert a + b == a;
    }
  }

  /** Moves with equal ids get the same filter decision. */
  predicate IdDecides(ms: seq<Move>, valid: seq<Square>) {
    forall x, y | x in ms && y in ms && SameMove(x, y) :: Evades(x, valid) == Evades(y, valid)
  }

  /** A move that does not evade drops out of the filter wherever it stands. */
  lemma EvasionsSkip(a: seq<Move>, x: Move, b: seq<Move>, valid: seq<Square>)
    requires !Evades(x, valid)
    ensures Evasions(a + [x] + b, valid) == Evasions(a + b, valid)
  {
    EvasionsAppend(a + [x], b, valid);
    EvasionsAppend(a, [x], valid);
    EvasionsAppend(a, b, valid);
    assert Front([x]) == [] && Last([x]) == x;
    assert Evasions([x], valid) == [];
  }

  /** One removal of the filter loop: dropping the first move with the id of ms[i] (which does
      not evade, and neither does any move with its id) keeps the filter of the prefix. */
  lemma EvasionRemoveStep(ms: seq<Move>, valid: seq<Square>, i: int)
    requires 0 <= i < |ms|
    requires IdDecides(ms, valid) && !Evades(ms[i], valid)
    ensures var ms' := RemoveFirstMove(ms, ms[i]);
      |ms'| == |ms| - 1
      && Evasions(ms'[..i], valid) == Evasions(ms[..i + 1], valid)
      && ms'[i..] == ms[i + 1..]
      && (forall x | x in ms' :: x in ms)
  {
    var k := IndexOfMove(ms, ms[i]);
    assert 0 <= k <= i;
    assert !Evades(ms[k], valid) by { assert ms[k] in ms && ms[i] in ms; }
    DropSlices(ms, k, i);
    EvasionsSkip(ms[..k], ms[k], ms[k + 1..i + 1], valid);
    DroppedFrom(ms, k);
  }

  /** How the slices of a sequence relate to those of the sequence with entry k dropped. */
  lemma DropSlices(ms: seq<Move>, k: int, i: int)
    requires 0 <= k <= i < |ms|
    ensures var ms' := ms[..k] + ms[k + 1..];
      |ms'| == |ms| - 1
      && ms'[..i] == ms[..k] + ms[k + 1..i + 1]
      && ms[..i + 1] == ms[..k] + [ms[k]] + ms[k + 1..i + 1]
      && ms'[i..] == ms[i + 1..]
  {
    var ms' := ms[..k] + ms[k + 1..];
    assert ms'[..i] == ms[..k] + ms[k + 1..i + 1];
    assert ms[..i + 1] == ms[..k] + [ms[k]] + ms[k + 1..i + 1];
  }

  /** Dropping the entry at k leaves only entries of the original. */
  lemma DroppedFrom(ms: seq<Move>, k: int)
    requires 0 <= k < |ms|
    ensures forall x | x in ms[..k] + ms[k + 1..] :: x in ms
  {
    forall x | x in ms[..k] + ms[k + 1..] ensures x in ms {
      var j :| 0 <= j < |ms| - 1 && (ms[..k] + ms[k + 1..])[j] == x;
      if j < k { assert ms[j] == x; } else { assert ms[j + 1] == x; }
    }
  }

  /** When moves with equal ids get the same decision, the filter loop is an ordinary filter. */
  lemma {:induction false} EvasionLoopIsFilter(ms: seq<Move>, valid: seq<Square>, i: int)
    requires -1 <= i < |ms|
    requires AllEvade(ms, valid, i + 1) && IdDecides(ms, valid)
    ensures EvasionLoop(ms, valid, i) == Evasions(ms[..i + 1], valid) + ms[i + 1..]
    decreases i + 1
  {
    if i < 0 {
      assert ms[..0] == [];
    } else if Evades(ms[i], valid) {
      assert AllEvade(ms, valid, i);
      EvasionLoopIsFilter(ms, valid, i - 1);
      KeepSlices(ms, i);
    } else {
      var ms' := RemoveFirstMove(ms, ms[i]);
      EvasionRemoveStep(ms, valid, i);
      AllEvadeShift(ms, ms', valid, i);
      IdDecidesSubset(ms, ms', valid);
      EvasionLoopIsFilter(ms', valid, i - 1);
    }
  }

  /** The prefix and suffix around a kept entry i. */
  lemma KeepSlices(ms: seq<Move>, i: int)
    requires 0 <= i < |ms|
    ensures Front(ms[..i + 1]) == ms[..i] && Last(ms[..i + 1]) == ms[i]
    ensures ms[i..] == [ms[i]] + ms[i + 1..]
  {
  }

  /** Agreement of decisions on equal ids holds on any sequence of entries drawn from ms. */
  lemma IdDecidesSubset(ms: seq<Move>, ms': seq<Move>, valid: seq<Square>)
    requires IdDecides(ms, valid) && forall x | x in ms' :: x in ms
    ensures IdDecides(ms', valid)
  {
  }

  /** Evasion of the suffix carries over when the suffix moves down one place. */
  lemma AllEvadeShift(ms: seq<Move>, ms': seq<Move>, valid: seq<Square>, i: int)
    requires 0 <= i < |ms| && |ms'| == |ms| - 1 && ms'[i..] == ms[i + 1..]
    requires AllEvade(ms, valid, i + 1)
    ensures AllEvade(ms', valid, i)
  {
    forall j | i <= j < |ms'| ensures Evades(ms'[j], valid) {
      assert ms'[j] == ms[i + 1..][j - i];
    }
  }

  /** BlockSquares lists the squares at distances i0 .. k along the check direction when the
      checking piece sits at distance k. */
  lemma {:induction false} BlockSquaresMeans(king: Cell, check: Ray, i0: int, k: int, sq: Square)
    requires 1 <= i0 <= k < 8
    requires RayPoint(king, check, k) == Sq(check.row, check.col)
    requires check.dRow != 0 || check.dCol != 0
    ensures sq in BlockSquares(king, check, i0) <==> exists i | i0 <= i <= k :: sq == RayPoint(king, check, i)
    decreases k - i0
  {
    BlockSquaresStep(king, check, i0, k);
    if i0 < k {
      BlockSquaresMeans(king, check, i0 + 1, k, sq);
      if exists i | i0 <= i <= k :: sq == RayPoint(king, check, i) {
        var i :| i0 <= i <= k && sq == RayPoint(king, check, i);
        if i > i0 {
          assert sq in BlockSquares(king, check, i0 + 1);
        }
      }
    }
  }

  /** One step of BlockSquares: it stops exactly at the checking piece. */
  lemma BlockSquaresStep(king: Cell, check: Ray, i0: int, k: int)
    requires 1 <= i0 <= k < 8
    requires RayPoint(king, check, k) == Sq(check.row, check.col)
    requires check.dRow != 0 || check.dCol != 0
    ensures BlockSquares(king, check, i0) ==
      [RayPoint(king, check, i0)] + (if i0 < k then BlockSquares(king, check, i0 + 1) else [])
  {
    if i0 < k {
      if check.dRow != 0 {
        StepsApart(check.dRow, i0, k);
      } else {
        StepsApart(check.dCol, i0, k);
      }
    }
  }

  /** Different distances along a non-zero step land on different coordinates. */
  lemma StepsApart(d: int, i: int, k: int)
    requires d != 0 && i != k
    ensures d * i != d * k
  {
  }

  /** The flags getValidMoves leaves: checkmate when the list is empty in check, stalemate when
      it is empty out of check, both cleared when it is not empty; an empty list leaves the other
      flag as it was; the scan results are stored and the board, turn and history are untouched. */
  lemma ValidMovesFlags(s: State)
    ensures var g := ValidMoves(s);
      var sc := Scanned(s);
      g.ok ==>
        (|g.moves| == 0 && sc.inCheck ==> g.state.checkmate)
        && (|g.moves| == 0 && !sc.inCheck ==> g.state.stalemate)
        && (|g.moves| > 0 ==> !g.state.checkmate && !g.state.stalemate)
        && (g.state.checkmate ==> |g.moves| == 0 && (sc.inCheck || s.checkmate))
        && (g.state.stalemate ==> |g.moves| == 0 && (!sc.inCheck || s.stalemate))
        && g.state.inCheck == sc.inCheck && g.state.checks == sc.checks
        && SamePersistent(g.state, s)
  {
    var g := CandidateMoves(Scanned(s));
    assert ScanOnly(Scanned(s), g.state);
  }

  /** Once a generator has failed, the rest of a row adds nothing and keeps the failure. */
  lemma {:induction false} RowScanStopped(g: Gen, r: Coord, n: nat, m: nat)
    requires n <= m <= 8 && !RowScan(g, r, n).ok
    ensures RowScan(g, r, m) == RowScan(g, r, n)
    decreases m - n
  {
    if n < m {
      RowScanStopped(g, r, n, m - 1);
    }
  }

  /** Once a row has failed, the remaining rows keep the failure. */
  lemma {:induction false} RowsStopped(s: State, n: nat, m: nat)
    requires n <= m <= 8 && !RowsUpTo(s, n).ok
    ensures RowsUpTo(s, m) == RowsUpTo(s, n)
    decreases m - n
  {
    if n < m {
      RowsStopped(s, n, m - 1);
    }
  }
}
