// What the move generators of the second engine (ChessEngine.py) produce, stated independently
// of how they walk the board. Where the generators differ from the primary engine's the
// statements say so: a slide runs on through enemy pieces and stops after its first empty square,
// the king's steps end at the first probe that finds a check (and then no castling is tried),
// queen-side castling comes first, and a pawn makes an ordinary capture only while pinned.

module LegacyMoveFacts {
  import opened Wrappers
  import opened Pieces
  import opened Moves
  import opened LegacyState
  import opened LegacyMoves
  import EngineMoves
  import EngineMoveFacts
  import LegacyScan

  // ----- sliding pieces -----

  /** A direction whose components are -1, 0 or 1. */
  predicate UnitStep(d: (int, int)) {
    -1 <= d.0 <= 1 && -1 <= d.1 <= 1
  }

  /** Every square at distance 1 .. i-1 along d from (r, c) is on the board and holds an enemy
      piece. */
  predicate EnemyRun(b: Board, r: Coord, c: Coord, d: (int, int), i: int, enemy: Color) {
    forall k | 1 <= k < i :: OnBoard(r + d.0 * k, c + d.1 * k) && IsColor(b[r + d.0 * k][c + d.1 * k], enemy)
  }

  /** The square at distance i along d is one the walk reaches and emits: it is on the board,
      empty or enemy, and every square before it holds an enemy piece. */
  predicate RunTarget(b: Board, r: Coord, c: Coord, d: (int, int), i: int, enemy: Color) {
    EngineMoveFacts.OpenSquare(b, r, c, d, i, enemy) && EnemyRun(b, r, c, d, i, enemy)
  }

  /** The move of a sliding piece from (r, c) to distance i along d. */
  function SlideMove(b: Board, r: Coord, c: Coord, d: (int, int), i: int): Move
    requires OnBoard(r + d.0 * i, c + d.1 * i)
  {
    NewLegacyMove(Sq(r, c), Sq(r + d.0 * i, c + d.1 * i), b, false, false)
  }

  /** The walk over distances 1 .. n-1: the moves emitted and whether it has ended. */
  function SlideUpTo(b: Board, r: Coord, c: Coord, d: (int, int), n: int, pin: Option<Ray>, enemy: Color): (seq<Move>, bool)
    requires 1 <= n <= 8
    decreases n
  {
    if n == 1 then ([], false)
    else
      var p := SlideUpTo(b, r, c, d, n - 1, pin, enemy);
      if p.1 then p
      else
        var q := SlideStepAt(b, r, c, d, n - 1, pin, enemy);
        (p.0 + q.0, q.1)
  }

  /** The walk split after distance n-1: ended there, or the rest of the walk follows. */
  lemma {:induction false} SlideSplit(b: Board, r: Coord, c: Coord, d: (int, int), n: int, pin: Option<Ray>, enemy: Color)
    requires 1 <= n <= 8
    ensures var p := SlideUpTo(b, r, c, d, n, pin, enemy);
      SlideFrom(b, r, c, d, 1, pin, enemy) == if p.1 then p.0 else p.0 + SlideFrom(b, r, c, d, n, pin, enemy)
    decreases n
  {
    if n == 1 {
      var all := SlideFrom(b, r, c, d, 1, pin, enemy);
      assert [] + all == all;
      assert SlideUpTo(b, r, c, d, n, pin, enemy) == ([], false);
    } else {
      var k := n - 1;
      SlideSplit(b, r, c, d, k, pin, enemy);
      var p := SlideUpTo(b, r, c, d, k, pin, enemy);
      if p.1 {
        assert SlideUpTo(b, r, c, d, n, pin, enemy) == p;
      } else {
        SlideSplitOne(b, r, c, d, k, pin, enemy);
      }
    }
  }

  /** One more distance past a split after distance k-1 where the walk had not ended. */
  lemma SlideSplitOne(b: Board, r: Coord, c: Coord, d: (int, int), k: int, pin: Option<Ray>, enemy: Color)
    requires 1 <= k < 8
    requires var p := SlideUpTo(b, r, c, d, k, pin, enemy);
      !p.1 && SlideFrom(b, r, c, d, 1, pin, enemy) == p.0 + SlideFrom(b, r, c, d, k, pin, enemy)
    ensures var p := SlideUpTo(b, r, c, d, k + 1, pin, enemy);
      SlideFrom(b, r, c, d, 1, pin, enemy) == if p.1 then p.0 else p.0 + SlideFrom(b, r, c, d, k + 1, pin, enemy)
  {
    var p := SlideUpTo(b, r, c, d, k, pin, enemy);
    var q := SlideStepAt(b, r, c, d, k, pin, enemy);
    var rest := SlideFrom(b, r, c, d, k + 1, pin, enemy);
    assert SlideUpTo(b, r, c, d, k + 1, pin, enemy) == (p.0 + q.0, q.1);
    SlideFromStep(b, r, c, d, k, pin, enemy);
    Chain(SlideFrom(b, r, c, d, 1, pin, enemy), p.0, SlideFrom(b, r, c, d, k, pin, enemy), q.0, q.1, rest);
  }

  /** The walk from distance i is what distance i emits, then (unless it ends there) the walk
      from i+1. */
  lemma SlideFromStep(b: Board, r: Coord, c: Coord, d: (int, int), i: int, pin: Option<Ray>, enemy: Color)
    requires 1 <= i < 8
    ensures var q := SlideStepAt(b, r, c, d, i, pin, enemy);
      SlideFrom(b, r, c, d, i, pin, enemy) == q.0 + (if q.1 then [] else SlideFrom(b, r, c, d, i + 1, pin, enemy))
  {
    var q := SlideStepAt(b, r, c, d, i, pin, enemy);
    if q.1 {
      assert q.0 + [] == q.0;
    } else if q.0 == [] {
      assert [] + SlideFrom(b, r, c, d, i + 1, pin, enemy) == SlideFrom(b, r, c, d, i + 1, pin, enemy);
    }
  }

  /** A walk split as a prefix and a part that is one step then (unless it ended) the rest. */
  lemma Chain(all: seq<Move>, prefix: seq<Move>, here: seq<Move>, step: seq<Move>, ended: bool, rest: seq<Move>)
    requires all == prefix + here
    requires here == step + (if ended then [] else rest)
    ensures all == if ended then prefix + step else (prefix + step) + rest
  {
    if ended {
      assert step + [] == step;
    } else {
      assert prefix + (step + rest) == (prefix + step) + rest;
    }
  }

  /** Along a unit step from a square on the board, a square off the board stays off it further
      out. */
  lemma OffStays(r: Coord, c: Coord, d: (int, int), i: int, k: int)
    requires UnitStep(d) && 1 <= i <= k && !OnBoard(r + d.0 * i, c + d.1 * i)
    ensures !OnBoard(r + d.0 * k, c + d.1 * k)
  {
    if d.0 == 1 { assert r + i <= r + k; } else if d.0 == -1 { assert r - k <= r - i; }
    if d.1 == 1 { assert c + i <= c + k; } else if d.1 == -1 { assert c - k <= c - i; }
  }

  /** Once the walk has left the board it emits nothing more. */
  lemma {:induction false} SlideOff(b: Board, r: Coord, c: Coord, d: (int, int), j: int, i: int, pin: Option<Ray>, enemy: Color)
    requires UnitStep(d) && 1 <= j <= i && !OnBoard(r + d.0 * j, c + d.1 * j)
    ensures SlideFrom(b, r, c, d, i, pin, enemy) == []
    decreases 8 - i
  {
    if i < 8 {
      OffStays(r, c, d, j, i);
      SlideOff(b, r, c, d, j, i + 1, pin, enemy);
    }
  }

  /** The walk from distance i0 on (past a run of enemy pieces) emits exactly the moves to the
      squares it reaches through further enemy pieces, when the pin allows the line. */
  lemma {:induction false} SlideFromMeans(b: Board, r: Coord, c: Coord, d: (int, int), i0: int, pin: Option<Ray>, enemy: Color, m: Move)
    requires UnitStep(d) && 1 <= i0 && EnemyRun(b, r, c, d, i0, enemy)
    ensures m in SlideFrom(b, r, c, d, i0, pin, enemy) <==> SlideHitFrom(b, r, c, d, i0, pin, enemy, m)
    decreases 8 - i0
  {
    if i0 < 8 {
      var er := r + d.0 * i0;
      var ec := c + d.1 * i0;
      if !OnBoard(er, ec) {
        SlideMeansOff(b, r, c, d, i0, pin, enemy, m);
      } else if !EngineMoves.PinAllowsLine(pin, d) {
      } else if IsColor(b[er][ec], enemy) {
        EnemyRunGrows(b, r, c, d, i0, enemy);
        SlideFromMeans(b, r, c, d, i0 + 1, pin, enemy, m);
        SlideMeansEnemy(b, r, c, d, i0, pin, enemy, m);
      } else {
        SlideMeansStop(b, r, c, d, i0, pin, enemy, m);
      }
    }
  }

  /** m is the move to a square at distance i0 or more that the walk reaches, on a line the pin
      allows. */
  predicate SlideHitFrom(b: Board, r: Coord, c: Coord, d: (int, int), i0: int, pin: Option<Ray>, enemy: Color, m: Move) {
    EngineMoves.PinAllowsLine(pin, d)
    && exists i | i0 <= i < 8 :: RunTarget(b, r, c, d, i, enemy) && m == SlideMove(b, r, c, d, i)
  }

  lemma EnemyRunGrows(b: Board, r: Coord, c: Coord, d: (int, int), i0: int, enemy: Color)
    requires EnemyRun(b, r, c, d, i0, enemy)
    requires OnBoard(r + d.0 * i0, c + d.1 * i0) && IsColor(b[r + d.0 * i0][c + d.1 * i0], enemy)
    ensures EnemyRun(b, r, c, d, i0 + 1, enemy)
  {
  }

  /** Distance i0 is off the board: nothing further is reached or emitted. */
  lemma SlideMeansOff(b: Board, r: Coord, c: Coord, d: (int, int), i0: int, pin: Option<Ray>, enemy: Color, m: Move)
    requires UnitStep(d) && 1 <= i0 < 8 && !OnBoard(r + d.0 * i0, c + d.1 * i0)
    ensures m in SlideFrom(b, r, c, d, i0, pin, enemy) <==> SlideHitFrom(b, r, c, d, i0, pin, enemy, m)
  {
    SlideOff(b, r, c, d, i0, i0 + 1, pin, enemy);
    assert SlideFrom(b, r, c, d, i0, pin, enemy) == [];
    forall i | i0 <= i < 8 ensures !RunTarget(b, r, c, d, i, enemy) {
      if i > i0 {
        assert 1 <= i0 < i;
      }
    }
  }

  /** Distance i0 is on the board, the pin allows the line and the square is not an enemy's: the
      walk ends there, emitting it when it is empty. */
  lemma SlideMeansStop(b: Board, r: Coord, c: Coord, d: (int, int), i0: int, pin: Option<Ray>, enemy: Color, m: Move)
    requires UnitStep(d) && 1 <= i0 < 8 && EnemyRun(b, r, c, d, i0, enemy)
    requires OnBoard(r + d.0 * i0, c + d.1 * i0) && EngineMoves.PinAllowsLine(pin, d)
    requires !IsColor(b[r + d.0 * i0][c + d.1 * i0], enemy)
    ensures m in SlideFrom(b, r, c, d, i0, pin, enemy) <==> SlideHitFrom(b, r, c, d, i0, pin, enemy, m)
  {
    forall i | i0 < i < 8 ensures !EnemyRun(b, r, c, d, i, enemy) {
      assert 1 <= i0 < i;
    }
    if b[r + d.0 * i0][c + d.1 * i0] == Empty {
      assert RunTarget(b, r, c, d, i0, enemy);
    }
  }

  /** Distance i0 holds an enemy piece the pin allows reaching: its capture comes first, then the
      walk goes on. */
  lemma SlideMeansEnemy(b: Board, r: Coord, c: Coord, d: (int, int), i0: int, pin: Option<Ray>, enemy: Color, m: Move)
    requires UnitStep(d) && 1 <= i0 < 8 && EnemyRun(b, r, c, d, i0, enemy)
    requires OnBoard(r + d.0 * i0, c + d.1 * i0) && EngineMoves.PinAllowsLine(pin, d)
    requires IsColor(b[r + d.0 * i0][c + d.1 * i0], enemy)
    requires m in SlideFrom(b, r, c, d, i0 + 1, pin, enemy) <==> SlideHitFrom(b, r, c, d, i0 + 1, pin, enemy, m)
    ensures m in SlideFrom(b, r, c, d, i0, pin, enemy) <==> SlideHitFrom(b, r, c, d, i0, pin, enemy, m)
  {
    assert RunTarget(b, r, c, d, i0, enemy);
    assert SlideFrom(b, r, c, d, i0, pin, enemy) == [SlideMove(b, r, c, d, i0)] + SlideFrom(b, r, c, d, i0 + 1, pin, enemy);
    if SlideHitFrom(b, r, c, d, i0, pin, enemy, m) {
      var i :| i0 <= i < 8 && RunTarget(b, r, c, d, i, enemy) && m == SlideMove(b, r, c, d, i);
      if i > i0 {
        assert SlideHitFrom(b, r, c, d, i0 + 1, pin, enemy, m);
      }
    }
  }

  /** m is a move of a sliding piece on (r, c) along d that the pin record allows. */
  predicate SlideHit(b: Board, r: Coord, c: Coord, d: (int, int), pin: Option<Ray>, enemy: Color, m: Move) {
    SlideHitFrom(b, r, c, d, 1, pin, enemy, m)
  }

  /** A rook, bishop or queen pass emits exactly the moves to reachable squares along the
      directions its pin record allows, a square being reachable through enemy pieces. */
  lemma SlidesMeans(b: Board, r: Coord, c: Coord, dirs: seq<(int, int)>, n: nat, pin: Option<Ray>, enemy: Color, m: Move)
    requires n <= |dirs| && forall j | 0 <= j < |dirs| :: UnitStep(dirs[j])
    ensures m in SlidesUpTo(b, r, c, dirs, n, pin, enemy) <==>
      exists j | 0 <= j < n :: SlideHit(b, r, c, dirs[j], pin, enemy, m)
  {
    SlidesHit(b, r, c, dirs, n, pin, enemy, m);
    HitBelowMeans(b, r, c, dirs, n, pin, enemy, m);
  }

  /** m is a SlideHit along one of dirs[0 .. n-1]. */
  predicate HitBelow(b: Board, r: Coord, c: Coord, dirs: seq<(int, int)>, n: nat, pin: Option<Ray>, enemy: Color, m: Move)
    requires n <= |dirs|
  {
    n > 0 && (HitBelow(b, r, c, dirs, n - 1, pin, enemy, m) || SlideHit(b, r, c, dirs[n - 1], pin, enemy, m))
  }

  lemma {:induction false} SlidesHit(b: Board, r: Coord, c: Coord, dirs: seq<(int, int)>, n: nat, pin: Option<Ray>, enemy: Color, m: Move)
    requires n <= |dirs| && forall j | 0 <= j < |dirs| :: UnitStep(dirs[j])
    ensures m in SlidesUpTo(b, r, c, dirs, n, pin, enemy) <==> HitBelow(b, r, c, dirs, n, pin, enemy, m)
  {
    if n > 0 {
      var front := SlidesUpTo(b, r, c, dirs, n - 1, pin, enemy);
      var last := SlideFrom(b, r, c, dirs[n - 1], 1, pin, enemy);
      SlidesHit(b, r, c, dirs, n - 1, pin, enemy, m);
      assert UnitStep(dirs[n - 1]);
      SlideFromMeans(b, r, c, dirs[n - 1], 1, pin, enemy, m);
      assert SlidesUpTo(b, r, c, dirs, n, pin, enemy) == front + last;
    }
  }

  lemma {:induction false} HitBelowMeans(b: Board, r: Coord, c: Coord, dirs: seq<(int, int)>, n: nat, pin: Option<Ray>, enemy: Color, m: Move)
    requires n <= |dirs|
    ensures HitBelow(b, r, c, dirs, n, pin, enemy, m) <==> exists j | 0 <= j < n :: SlideHit(b, r, c, dirs[j], pin, enemy, m)
  {
    if n > 0 {
      HitBelowMeans(b, r, c, dirs, n - 1, pin, enemy, m);
      if HitBelow(b, r, c, dirs, n, pin, enemy, m) {
        if HitBelow(b, r, c, dirs, n - 1, pin, enemy, m) {
          var j :| 0 <= j < n - 1 && SlideHit(b, r, c, dirs[j], pin, enemy, m);
          assert 0 <= j < n;
        } else {
          assert 0 <= n - 1 < n && SlideHit(b, r, c, dirs[n - 1], pin, enemy, m);
        }
      }
      if j :| 0 <= j < n && SlideHit(b, r, c, dirs[j], pin, enemy, m) {
        if j < n - 1 {
          assert HitBelow(b, r, c, dirs, n - 1, pin, enemy, m);
        }
      }
    }
  }

  /** rook: unless the pin list breaks the lookup, the moves along the four orthogonal lines
      the pin record found allows. */
  lemma RookMovesMeans(s: State, r: Coord, c: Coord, m: Move)
    requires !LookupPin(s.pins, r, c, |s.pins|).Broken?
    ensures var pin := PinOf(s.pins, LookupPin(s.pins, r, c, |s.pins|));
      RookMoves(s, r, c).ok
      && (m in RookMoves(s, r, c).moves <==>
          exists j | 0 <= j < 4 :: SlideHit(s.board, r, c, RookDirections[j], pin, Opponent(SideColor(s.whiteToMove)), m))
  {
    var pin := PinOf(s.pins, LookupPin(s.pins, r, c, |s.pins|));
    SlidesMeans(s.board, r, c, RookDirections, 4, pin, Opponent(SideColor(s.whiteToMove)), m);
  }

  /** bishop: the same along the four diagonals. */
  lemma BishopMovesMeans(s: State, r: Coord, c: Coord, m: Move)
    requires !LookupPin(s.pins, r, c, |s.pins|).Broken?
    ensures var pin := PinOf(s.pins, LookupPin(s.pins, r, c, |s.pins|));
      BishopMoves(s, r, c).ok
      && (m in BishopMoves(s, r, c).moves <==>
          exists j | 0 <= j < 4 :: SlideHit(s.board, r, c, BishopDirections[j], pin, Opponent(SideColor(s.whiteToMove)), m))
  {
    var pin := PinOf(s.pins, LookupPin(s.pins, r, c, |s.pins|));
    SlidesMeans(s.board, r, c, BishopDirections, 4, pin, Opponent(SideColor(s.whiteToMove)), m);
  }

  /** The quirk at work: a slider next to an enemy piece with an empty square behind it is
      offered both, the capture and the move past the captured piece. */
  lemma SlidePastEnemy(b: Board, r: Coord, c: Coord, d: (int, int), enemy: Color)
    requires UnitStep(d) && OnBoard(r + d.0 * 2, c + d.1 * 2) && OnBoard(r + d.0, c + d.1)
    requires IsColor(b[r + d.0][c + d.1], enemy) && b[r + d.0 * 2][c + d.1 * 2] == Empty
    ensures SlideMove(b, r, c, d, 1) in SlideFrom(b, r, c, d, 1, None, enemy)
    ensures SlideMove(b, r, c, d, 2) in SlideFrom(b, r, c, d, 1, None, enemy)
  {
    assert r + d.0 * 1 == r + d.0 && c + d.1 * 1 == c + d.1;
    assert RunTarget(b, r, c, d, 1, enemy);
    assert RunTarget(b, r, c, d, 2, enemy);
    SlideFromMeans(b, r, c, d, 1, None, enemy, SlideMove(b, r, c, d, 1));
    SlideFromMeans(b, r, c, d, 1, None, enemy, SlideMove(b, r, c, d, 2));
  }

  // ----- knights -----

  /** The move of knight jump k from (r, c). */
  function JumpMove(b: Board, r: Coord, c: Coord, k: nat): Move
    requires k < 8 && OnBoard(r + KnightJumps[k].0, c + KnightJumps[k].1)
  {
    NewLegacyMove(Sq(r, c), Sq(r + KnightJumps[k].0, c + KnightJumps[k].1), b, false, false)
  }

  /** A knight emits a move to each of its jump squares without an own piece, unless pinned. */
  lemma {:induction false} JumpsMeans(b: Board, r: Coord, c: Coord, n: nat, pinned: bool, friendly: Color, m: Move)
    requires n <= 8
    ensures m in JumpsUpTo(b, r, c, n, pinned, friendly) <==>
      !pinned && exists k | 0 <= k < n :: EngineMoveFacts.JumpTarget(b, r, c, k, friendly) && m == JumpMove(b, r, c, k)
  {
    if n > 0 {
      JumpsMeans(b, r, c, n - 1, pinned, friendly, m);
      var prev := JumpsUpTo(b, r, c, n - 1, pinned, friendly);
      var last := JumpsLast(b, r, c, n, pinned, friendly);
      if k :| 0 <= k < n && !pinned && EngineMoveFacts.JumpTarget(b, r, c, k, friendly) && m == JumpMove(b, r, c, k) {
        if k < n - 1 {
          assert m in prev;
        } else {
          assert m in last;
        }
      }
    }
  }

  /** Jump n - 1 adds its move exactly when the knight is unpinned and the square allows it. */
  lemma JumpsLast(b: Board, r: Coord, c: Coord, n: nat, pinned: bool, friendly: Color) returns (last: seq<Move>)
    requires 0 < n <= 8
    ensures last == if !pinned && EngineMoveFacts.JumpTarget(b, r, c, n - 1, friendly) then [JumpMove(b, r, c, n - 1)] else []
    ensures JumpsUpTo(b, r, c, n, pinned, friendly) == JumpsUpTo(b, r, c, n - 1, pinned, friendly) + last
  {
    last := if !pinned && EngineMoveFacts.JumpTarget(b, r, c, n - 1, friendly) then [JumpMove(b, r, c, n - 1)] else [];
  }

  // ----- kings -----

  /** King step k from (r, c) is probed: it lands on the board on a square without an own piece. */
  predicate Probed(b: Board, white: bool, r: Coord, c: Coord, k: nat)
    requires k < 8
  {
    OnBoard(r + KingSteps[k].0, c + KingSteps[k].1)
    && !IsColor(b[r + KingSteps[k].0][c + KingSteps[k].1], SideColor(white))
  }

  /** The probe of step k finds the side to move in check with its king there. */
  predicate Refused(b: Board, white: bool, r: Coord, c: Coord, k: nat)
    requires k < 8
  {
    Probed(b, white, r, c, k)
    && LegacyScan.PinsAndChecks(b, r + KingSteps[k].0, c + KingSteps[k].1, SideColor(white)).0
  }

  /** The move of king step k from (r, c). */
  function StepMove(b: Board, r: Coord, c: Coord, k: nat): Move
    requires k < 8 && OnBoard(r + KingSteps[k].0, c + KingSteps[k].1)
  {
    NewLegacyMove(Sq(r, c), Sq(r + KingSteps[k].0, c + KingSteps[k].1), b, false, false)
  }

  /** m is the move of a probed step whose probe found no check, and no earlier step from k0 on
      was refused. */
  predicate StepBefore(b: Board, white: bool, r: Coord, c: Coord, k0: nat, m: Move) {
    exists k | k0 <= k < 8 ::
      Probed(b, white, r, c, k) && !Refused(b, white, r, c, k) && m == StepMove(b, r, c, k)
      && forall k' | k0 <= k' < k :: !Refused(b, white, r, c, k')
  }

  /** Some probe from step k0 on is refused. */
  predicate AnyRefused(b: Board, white: bool, r: Coord, c: Coord, k0: nat) {
    exists k | k0 <= k < 8 :: Refused(b, white, r, c, k)
  }

  lemma AnyRefusedStep(b: Board, white: bool, r: Coord, c: Coord, k0: nat)
    requires k0 < 8
    ensures AnyRefused(b, white, r, c, k0) <==> Refused(b, white, r, c, k0) || AnyRefused(b, white, r, c, k0 + 1)
  {
    if AnyRefused(b, white, r, c, k0) {
      var k :| k0 <= k < 8 && Refused(b, white, r, c, k);
      if k > k0 {
        assert AnyRefused(b, white, r, c, k0 + 1);
      }
    }
  }

  /** One step of the king generator, as the probe of step k0 decides it. */
  lemma KingStepsStep(s: State, r: Coord, c: Coord, k0: nat) returns (s1: State)
    requires k0 < 8
    ensures s1 == WithKing(s.(pins := []), Sq(r, c))
    ensures s1.board == s.board && s1.whiteToMove == s.whiteToMove
    ensures var ks := KingStepsFrom(s, r, c, k0);
      var b, w := s.board, s.whiteToMove;
      (!Probed(b, w, r, c, k0) ==> ks == KingStepsFrom(s, r, c, k0 + 1))
      && (Refused(b, w, r, c, k0) ==> ks == (s1, [], true))
      && (Probed(b, w, r, c, k0) && !Refused(b, w, r, c, k0) ==>
            var rest := KingStepsFrom(s1, r, c, k0 + 1);
            ks == (rest.0, [StepMove(b, r, c, k0)] + rest.1, rest.2))
  {
    s1 := WithKing(s.(pins := []), Sq(r, c));
  }

  /** The outcome of the probe of step k, as the generator's loop sees it: a probe that finds a
      check ends the steps with what it emitted, any other pass leaves the remaining steps to
      the state it produced. */
  lemma KingStepsAdvance(s: State, r: Coord, c: Coord, k: nat, step: seq<Move>, checked: bool, s2: State)
    requires k < 8
    requires var b, w := s.board, s.whiteToMove;
      if Probed(b, w, r, c, k) then
        s2 == WithKing(s.(pins := []), Sq(r, c))
        && checked == Refused(b, w, r, c, k)
        && step == (if checked then [] else [StepMove(b, r, c, k)])
      else s2 == s && step == [] && !checked
    ensures checked ==> KingStepsFrom(s, r, c, k) == (s2, step, true)
    ensures !checked ==> var rest := KingStepsFrom(s2, r, c, k + 1);
      KingStepsFrom(s, r, c, k) == (rest.0, step + rest.1, rest.2)
  {
    var s1 := KingStepsStep(s, r, c, k);
    if !Probed(s.board, s.whiteToMove, r, c, k) {
      assert step + KingStepsFrom(s2, r, c, k + 1).1 == KingStepsFrom(s2, r, c, k + 1).1;
    }
  }

  /** The probe of king step k alone: the state it leaves, the move it emits and whether it
      found a check. */
  function KingStepOne(s: State, r: Coord, c: Coord, k: nat): (State, seq<Move>, bool)
    requires k < 8
  {
    var b, w := s.board, s.whiteToMove;
    if !Probed(b, w, r, c, k) then (s, [], false)
    else if Refused(b, w, r, c, k) then (WithKing(s.(pins := []), Sq(r, c)), [], true)
    else (WithKing(s.(pins := []), Sq(r, c)), [StepMove(b, r, c, k)], false)
  }

  /** The first n probes of king, in order, up to the first that finds a check. */
  function KingStepsUpTo(s: State, r: Coord, c: Coord, n: nat): (State, seq<Move>, bool)
    requires n <= 8
  {
    if n == 0 then (s, [], false)
    else
      var p := KingStepsUpTo(s, r, c, n - 1);
      if p.2 then p
      else
        var q := KingStepOne(p.0, r, c, n - 1);
        (q.0, p.1 + q.1, q.2)
  }

  /** The king's steps split after the first n probes: a probe among them that found a check
      ends the steps there, otherwise the remaining steps run from the state they left. */
  lemma {:induction false} KingStepsSplit(s: State, r: Coord, c: Coord, n: nat)
    requires n <= 8
    ensures var p := KingStepsUpTo(s, r, c, n);
      var rest := KingStepsFrom(p.0, r, c, n);
      KingStepsFrom(s, r, c, 0) == if p.2 then p else (rest.0, p.1 + rest.1, rest.2)
  {
    if n == 0 {
      var all := KingStepsFrom(s, r, c, 0);
      assert [] + all.1 == all.1;
      assert KingStepsUpTo(s, r, c, n) == (s, [], false);
    } else {
      var k := n - 1;
      KingStepsSplit(s, r, c, k);
      var p := KingStepsUpTo(s, r, c, k);
      if p.2 {
        KingStepsStopped(s, r, c, k);
        assert KingStepsFrom(s, r, c, 0) == p;
      } else {
        KingStepsSplitOne(s, r, c, k);
      }
    }
  }

  /** Once a probe has found a check, further probes add nothing. */
  lemma KingStepsStopped(s: State, r: Coord, c: Coord, k: nat)
    requires k < 8 && KingStepsUpTo(s, r, c, k).2
    ensures KingStepsUpTo(s, r, c, k + 1) == KingStepsUpTo(s, r, c, k)
  {
  }

  /** One more probe past a split after the first k probes with no check found. */
  lemma KingStepsSplitOne(s: State, r: Coord, c: Coord, k: nat)
    requires k < 8
    requires var p := KingStepsUpTo(s, r, c, k);
      var rest := KingStepsFrom(p.0, r, c, k);
      !p.2 && KingStepsFrom(s, r, c, 0) == (rest.0, p.1 + rest.1, rest.2)
    ensures var p := KingStepsUpTo(s, r, c, k + 1);
      var rest := KingStepsFrom(p.0, r, c, k + 1);
      KingStepsFrom(s, r, c, 0) == if p.2 then p else (rest.0, p.1 + rest.1, rest.2)
  {
    var p := KingStepsUpTo(s, r, c, k);
    var q := KingStepOne(p.0, r, c, k);
    KingStepsAdvance(p.0, r, c, k, q.1, q.2, q.0);
    var a := KingStepsFrom(p.0, r, c, k);
    assert KingStepsUpTo(s, r, c, k + 1) == (q.0, p.1 + q.1, q.2);
    if !q.2 {
      var rest := KingStepsFrom(q.0, r, c, k + 1);
      assert a == (rest.0, q.1 + rest.1, rest.2);
      AppendRegroup(p.1, q.1, rest.1);
    }
  }

  /** Concatenation regrouped. */
  lemma AppendRegroup<T>(x: seq<T>, y: seq<T>, z: seq<T>)
    ensures x + (y + z) == (x + y) + z
  {
  }

  /** The king's steps from k0 on stop exactly when some probe finds a check. */
  lemma {:induction false} KingStepsStop(s: State, r: Coord, c: Coord, k0: nat)
    requires k0 <= 8
    ensures KingStepsFrom(s, r, c, k0).2 <==> AnyRefused(s.board, s.whiteToMove, r, c, k0)
    decreases 8 - k0
  {
    if k0 < 8 {
      var s1 := KingStepsStep(s, r, c, k0);
      AnyRefusedStep(s.board, s.whiteToMove, r, c, k0);
      if !Probed(s.board, s.whiteToMove, r, c, k0) {
        KingStepsStop(s, r, c, k0 + 1);
        assert KingStepsFrom(s, r, c, k0).2 == KingStepsFrom(s, r, c, k0 + 1).2;
      } else if !Refused(s.board, s.whiteToMove, r, c, k0) {
        KingStepsStop(s1, r, c, k0 + 1);
        assert KingStepsFrom(s, r, c, k0).2 == KingStepsFrom(s1, r, c, k0 + 1).2;
      } else {
        assert KingStepsFrom(s, r, c, k0).2;
      }
    } else {
      assert KingStepsFrom(s, r, c, k0) == (s, [], false);
    }
  }

  /** The king's steps from k0 on emit the steps whose probe found no check, up to the first
      refused probe. */
  lemma {:induction false} KingStepsMeans(s: State, r: Coord, c: Coord, k0: nat, m: Move)
    requires k0 <= 8
    ensures m in KingStepsFrom(s, r, c, k0).1 <==> StepBefore(s.board, s.whiteToMove, r, c, k0, m)
    decreases 8 - k0, 1
  {
    var b, w := s.board, s.whiteToMove;
    if k0 < 8 {
      if Refused(b, w, r, c, k0) {
        var s1 := KingStepsStep(s, r, c, k0);
        assert !StepBefore(b, w, r, c, k0, m);
      } else {
        KingStepsPass(s, r, c, k0, m);
      }
    }
  }

  /** A step whose probe is not refused: its move (when probed) comes before the later steps. */
  lemma {:induction false} KingStepsPass(s: State, r: Coord, c: Coord, k0: nat, m: Move)
    requires k0 < 8 && !Refused(s.board, s.whiteToMove, r, c, k0)
    ensures m in KingStepsFrom(s, r, c, k0).1 <==> StepBefore(s.board, s.whiteToMove, r, c, k0, m)
    decreases 8 - k0, 0
  {
    var b, w := s.board, s.whiteToMove;
    var s1 := KingStepsStep(s, r, c, k0);
    StepBeforeStep(b, w, r, c, k0, m);
    if Probed(b, w, r, c, k0) {
      KingStepsMeans(s1, r, c, k0 + 1, m);
    } else {
      KingStepsMeans(s, r, c, k0 + 1, m);
    }
  }

  /** Stepping k0 over when it is not refused. */
  lemma StepBeforeStep(b: Board, w: bool, r: Coord, c: Coord, k0: nat, m: Move)
    requires k0 < 8 && !Refused(b, w, r, c, k0)
    ensures StepBefore(b, w, r, c, k0, m) <==>
      (Probed(b, w, r, c, k0) && m == StepMove(b, r, c, k0)) || StepBefore(b, w, r, c, k0 + 1, m)
  {
    if StepBefore(b, w, r, c, k0 + 1, m) {
      StepBeforeWiden(b, w, r, c, k0, m);
    }
    if StepBefore(b, w, r, c, k0, m) {
      StepBeforeNarrow(b, w, r, c, k0, m);
    }
  }

  /** A step before any refusal from k0+1 on is one from k0 on when k0 is not refused. */
  lemma StepBeforeWiden(b: Board, w: bool, r: Coord, c: Coord, k0: nat, m: Move)
    requires k0 < 8 && !Refused(b, w, r, c, k0) && StepBefore(b, w, r, c, k0 + 1, m)
    ensures StepBefore(b, w, r, c, k0, m)
  {
    var k :| k0 + 1 <= k < 8 && Probed(b, w, r, c, k) && !Refused(b, w, r, c, k) && m == StepMove(b, r, c, k)
             && forall k' | k0 + 1 <= k' < k :: !Refused(b, w, r, c, k');
    assert forall k' | k0 <= k' < k :: !Refused(b, w, r, c, k');
  }

  /** A step before any refusal from k0 on is step k0 itself or one from k0+1 on. */
  lemma StepBeforeNarrow(b: Board, w: bool, r: Coord, c: Coord, k0: nat, m: Move)
    requires k0 < 8 && StepBefore(b, w, r, c, k0, m)
    ensures (Probed(b, w, r, c, k0) && m == StepMove(b, r, c, k0)) || StepBefore(b, w, r, c, k0 + 1, m)
  {
    var k :| k0 <= k < 8 && Probed(b, w, r, c, k) && !Refused(b, w, r, c, k) && m == StepMove(b, r, c, k)
             && forall k' | k0 <= k' < k :: !Refused(b, w, r, c, k');
    if k > k0 {
      assert StepBefore(b, w, r, c, k0 + 1, m);
    }
  }

  /** king: the steps before the first refused probe; castling only when no probe was refused,
      and then with the castling moves of the original position. */
  lemma KingMovesMeans(s: State, r: Coord, c: Coord, m: Move)
    ensures var g := KingMoves(s, r, c);
      var refused := AnyRefused(s.board, s.whiteToMove, r, c, 0);
      (refused ==> g.ok && (m in g.moves <==> StepBefore(s.board, s.whiteToMove, r, c, 0, m)))
      && (!refused ==> g.ok == CastleMoves(s, r, c).1
                       && (m in g.moves <==> StepBefore(s.board, s.whiteToMove, r, c, 0, m) || m in CastleMoves(s, r, c).0))
  {
    KingStepsStop(s, r, c, 0);
    KingStepsMeans(s, r, c, 0, m);
    var t := KingStepsFrom(s, r, c, 0).0;
    assert t.board == s.board && t.whiteToMove == s.whiteToMove && t.rights == s.rights;
    assert CastleMoves(t, r, c) == CastleMoves(s, r, c);
  }

  // ----- castling -----

  /** The castling moves: only from an unattacked square with the right held, over empty
      squares (two on the king side, three on the queen side) and past two unattacked squares;
      when the generator runs to the end under those conditions the move is emitted; and the
      queen-side move comes first. "Attacked" is this engine's scan, which sees only neighbouring
      pieces and knights. */
  lemma CastleMeans(s: State, r: Coord, c: Coord)
    ensures var (ms, ok) := CastleMoves(s, r, c);
      var b := s.board;
      var f := SideColor(s.whiteToMove);
      |ms| <= 2
      && (forall m | m in ms ::
            m.castle && m.startRow == r && m.startCol == c && m.endRow == r && !LegacyScan.SquareUnderAttack(b, r, c, f)
            && ((m.endCol == c + 2 && HoldsKingside(s) && b[r][c + 1] == Empty && b[r][c + 2] == Empty
                 && !LegacyScan.SquareUnderAttack(b, r, c + 1, f) && !LegacyScan.SquareUnderAttack(b, r, c + 2, f))
                || (m.endCol == c - 2 && HoldsQueenside(s) && b[r][c - 1] == Empty && b[r][c - 2] == Empty
                    && b[r][c - 3] == Empty && !LegacyScan.SquareUnderAttack(b, r, c - 1, f)
                    && !LegacyScan.SquareUnderAttack(b, r, c - 2, f))))
      && (|ms| == 2 ==> ms[0].endCol == c - 2 && ms[1].endCol == c + 2)
      && (ok && !LegacyScan.SquareUnderAttack(b, r, c, f) && HoldsKingside(s) && c + 2 <= 7
          && b[r][c + 1] == Empty && b[r][c + 2] == Empty
          && !LegacyScan.SquareUnderAttack(b, r, c + 1, f) && !LegacyScan.SquareUnderAttack(b, r, c + 2, f)
          ==> NewLegacyMove(Sq(r, c), Sq(r, c + 2), b, false, true) in ms)
      && (ok && !LegacyScan.SquareUnderAttack(b, r, c, f) && HoldsQueenside(s) && c - 3 >= 0
          && b[r][c - 1] == Empty && b[r][c - 2] == Empty && b[r][c - 3] == Empty
          && !LegacyScan.SquareUnderAttack(b, r, c - 1, f) && !LegacyScan.SquareUnderAttack(b, r, c - 2, f)
          ==> NewLegacyMove(Sq(r, c), Sq(r, c - 2), b, false, true) in ms)
  {
  }

  // ----- pawns -----

  /** The two-square advance from the start row tests neither the pin nor the square the pawn
      crosses: it is emitted whenever the landing square is empty and the pin list does not
      break the lookup. */
  lemma TwoStepUnchecked(s: State, r: Coord, c: Coord)
    requires !LookupPin(s.pins, r, c, |s.pins|).Broken?
    requires r == EngineMoves.StartRow(s.whiteToMove) && s.board[r + 2 * Forward(s.whiteToMove)][c] == Empty
    ensures NewLegacyMove(Sq(r, c), Sq(r + 2 * Forward(s.whiteToMove), c), s.board, false, false) in PawnMoves(s, r, c).moves
  {
  }

  /** An unpinned pawn whose left diagonal square is not the en-passant target only advances:
      every move it gets stays on its column and captures nothing. */
  lemma UnpinnedPawnOnlyAdvances(s: State, r: Coord, c: Coord)
    requires LookupPin(s.pins, r, c, |s.pins|).Unpinned?
    requires !(1 <= c && OnBoard(r + Forward(s.whiteToMove), c - 1)
               && s.enpassant == Some(Sq(r + Forward(s.whiteToMove), c - 1)))
    ensures forall m | m in PawnMoves(s, r, c).moves :: m.endCol == c && !m.isCapture && !m.isEnpassantMove
  {
  }

  /** A pawn pinned along its left capture diagonal does capture the enemy piece there. */
  lemma PinnedPawnCapturesLeft(s: State, r: Coord, c: Coord)
    requires LookupPin(s.pins, r, c, |s.pins|).PinnedAt?
    requires 1 <= c && OnBoard(r + Forward(s.whiteToMove), c)
    requires EngineMoves.PinAllows(PinOf(s.pins, LookupPin(s.pins, r, c, |s.pins|)), (Forward(s.whiteToMove), -1))
    requires IsColor(s.board[r + Forward(s.whiteToMove)][c - 1], Opponent(SideColor(s.whiteToMove)))
    ensures NewLegacyMove(Sq(r, c), Sq(r + Forward(s.whiteToMove), c - 1), s.board, false, false) in PawnMoves(s, r, c).moves
  {
  }

  /** With the en-passant target on the pawn's left diagonal (and the pin allowing that
      diagonal), the en-passant move is emitted; with its king on another row the generator
      succeeds and every other move it adds is an advance or lands on that same diagonal square
      (the row test and the right-hand capture are only reached with the king on the row). */
  lemma EnPassantOffRow(s: State, r: Coord, c: Coord)
    requires !LookupPin(s.pins, r, c, |s.pins|).Broken?
    requires 1 <= c && OnBoard(r + Forward(s.whiteToMove), c)
    requires EngineMoves.PinAllows(PinOf(s.pins, LookupPin(s.pins, r, c, |s.pins|)), (Forward(s.whiteToMove), -1))
    requires s.enpassant == Some(Sq(r + Forward(s.whiteToMove), c - 1))
    ensures NewLegacyMove(Sq(r, c), Sq(r + Forward(s.whiteToMove), c - 1), s.board, true, false) in PawnMoves(s, r, c).moves
    ensures KingOf(s).row != r ==>
      PawnMoves(s, r, c).ok
      && forall m | m in PawnMoves(s, r, c).moves :: m.endCol == c || EndOf(m) == Sq(r + Forward(s.whiteToMove), c - 1)
  {
  }

  // ----- get_all_possible_moves -----

  /** Once a generator in row r has failed, the rest of the row keeps the failure. */
  lemma {:induction false} RowScanStopped(g: Gen, r: Coord, n: nat, m: nat)
    requires n <= m <= 8 && !RowScan(g, r, n).ok
    ensures RowScan(g, r, m) == RowScan(g, r, n)
    decreases m - n
  {
    if n < m {
      RowScanStopped(g, r, n, m - 1);
    }
  }

  /** Once a row has failed, the remaining rows keep the failure. */
  lemma {:induction false} RowsStopped(s: State, n: nat, m: nat)
    requires n <= m <= 8 && !RowsUpTo(s, n).ok
    ensures RowsUpTo(s, m) == RowsUpTo(s, n)
    decreases m - n
  {
    if n < m {
      RowsStopped(s, n, m - 1);
    }
  }
}
