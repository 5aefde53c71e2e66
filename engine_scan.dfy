// The two board scans of the primary engine (chess_engine.py): squareUnderAttack and
// checkForPinsAndChecks, as functions of the board, with what they find stated independently.

module EngineScan {
  import opened Wrappers
  import opened Pieces

  function RayRow(r: int, j: nat, i: int): int
    requires j < 8
  {
    r + Directions[j].0 * i
  }

  function RayCol(c: int, j: nat, i: int): int
    requires j < 8
  {
    c + Directions[j].1 * i
  }

  // ----- squareUnderAttack -----

  /** The walk along direction j from (r, c), from distance i on: an own piece or the board edge
      ends it with no attack, an empty square lets it go on, an enemy piece ends it with an
      attack exactly when that piece threatens along this direction at this distance. */
  function AttackAlong(b: Board, r: int, c: int, friendly: Color, j: nat, i: int): bool
    requires j < 8 && 1 <= i
    decreases 8 - i
  {
    if i >= 8 then false
    else
      var er := RayRow(r, j, i);
      var ec := RayCol(c, j, i);
      if !OnBoard(er, ec) then false
      else
        var p := b[er][ec];
        if IsColor(p, friendly) then false
        else if p.Occupied? then Threatens(j, i, p.kind, p.color)
        else AttackAlong(b, r, c, friendly, j, i + 1)
  }

  /** An enemy knight stands a knight's jump (offset k of the scan order) away from (r, c). */
  predicate KnightThreat(b: Board, r: int, c: int, friendly: Color, k: nat)
    requires k < 8
  {
    var er := r + KnightScan[k].0;
    var ec := c + KnightScan[k].1;
    OnBoard(er, ec) && b[er][ec] == Occupied(Opponent(friendly), Knight)
  }

  /** squareUnderAttack(r, c, friendly). */
  predicate SquareUnderAttack(b: Board, r: int, c: int, friendly: Color) {
    (exists j | 0 <= j < 8 :: AttackAlong(b, r, c, friendly, j, 1))
    || (exists k | 0 <= k < 8 :: KnightThreat(b, r, c, friendly, k))
  }

  /** The enemy piece at distance i along direction j from (r, c) threatens (r, c). */
  predicate EnemyThreatAt(b: Board, r: int, c: int, friendly: Color, j: nat, i: int)
    requires j < 8
  {
    OnBoard(RayRow(r, j, i), RayCol(c, j, i))
    && (var p := b[RayRow(r, j, i)][RayCol(c, j, i)];
        p.Occupied? && p.color != friendly && Threatens(j, i, p.kind, p.color))
  }

  /** Every square at distance 1 .. i-1 along direction j from (r, c) is on the board and empty. */
  predicate ClearLine(b: Board, r: int, c: int, j: nat, i: int)
    requires j < 8
  {
    forall k | 1 <= k < i :: OnBoard(RayRow(r, j, k), RayCol(c, j, k)) && b[RayRow(r, j, k)][RayCol(c, j, k)] == Empty
  }

  /** An attacker with a clear line to (r, c) at distance i along direction j. */
  predicate SeenAttacker(b: Board, r: int, c: int, friendly: Color, j: nat, i: int)
    requires j < 8
  {
    EnemyThreatAt(b, r, c, friendly, j, i) && ClearLine(b, r, c, j, i)
  }

  /** Along one direction, the walk reports an attack exactly when there is an attacker with a
      clear line (from distance i0 on). */
  lemma {:induction false} AttackAlongMeans(b: Board, r: int, c: int, friendly: Color, j: nat, i0: int)
    requires j < 8 && 1 <= i0
    requires ClearLine(b, r, c, j, i0)
    ensures AttackAlong(b, r, c, friendly, j, i0) <==> exists i | i0 <= i < 8 :: SeenAttacker(b, r, c, friendly, j, i)
    decreases 8 - i0
  {
    if i0 < 8 {
      var er := RayRow(r, j, i0);
      var ec := RayCol(c, j, i0);
      if OnBoard(er, ec) && b[er][ec] == Empty {
        assert ClearLine(b, r, c, j, i0 + 1);
        AttackAlongMeans(b, r, c, friendly, j, i0 + 1);
        assert !SeenAttacker(b, r, c, friendly, j, i0);
      } else {
        forall i | i0 < i < 8 ensures !ClearLine(b, r, c, j, i) {
          assert 1 <= i0 < i;
        }
        if AttackAlong(b, r, c, friendly, j, i0) {
          assert SeenAttacker(b, r, c, friendly, j, i0);
        }
      }
    }
  }

  /** A square is under attack exactly when some enemy piece attacks it along a clear line or an
      enemy knight is a knight's jump away. */
  lemma SquareUnderAttackMeans(b: Board, r: int, c: int, friendly: Color)
    ensures SquareUnderAttack(b, r, c, friendly) <==>
      (exists j, i | 0 <= j < 8 && 1 <= i < 8 :: SeenAttacker(b, r, c, friendly, j, i))
      || (exists k | 0 <= k < 8 :: KnightThreat(b, r, c, friendly, k))
  {
    if exists j | 0 <= j < 8 :: AttackAlong(b, r, c, friendly, j, 1) {
      var j :| 0 <= j < 8 && AttackAlong(b, r, c, friendly, j, 1);
      AttackAlongMeans(b, r, c, friendly, j, 1);
    }
    if exists j, i | 0 <= j < 8 && 1 <= i < 8 :: SeenAttacker(b, r, c, friendly, j, i) {
      var j, i :| 0 <= j < 8 && 1 <= i < 8 && SeenAttacker(b, r, c, friendly, j, i);
      AttackAlongMeans(b, r, c, friendly, j, 1);
    }
  }

  // ----- checkForPinsAndChecks -----

  datatype Finding = NoFinding | PinFinding(pin: Ray) | CheckFinding(check: Ray)

  /** Squares the pin scan passes over: empty squares and the own king. */
  predicate SeeThrough(p: Piece, friendly: Color) {
    p == Empty || p == Occupied(friendly, King)
  }

  /** The walk along direction j from the king square (r, c), from distance i on, carrying the
      first own non-king piece met (the pin candidate). */
  function PinWalk(b: Board, r: int, c: int, friendly: Color, j: nat, i: int, candidate: Option<Ray>): Finding
    requires j < 8 && 1 <= i
    decreases 8 - i
  {
    if i >= 8 then NoFinding
    else
      var er := RayRow(r, j, i);
      var ec := RayCol(c, j, i);
      if !OnBoard(er, ec) then NoFinding
      else
        var p := b[er][ec];
        if IsColor(p, friendly) && p.kind != King then
          (if candidate.None? then PinWalk(b, r, c, friendly, j, i + 1, Some(Ray(er, ec, Directions[j].0, Directions[j].1)))
           else NoFinding)
        else if p.Occupied? && p.color != friendly then
          (if Threatens(j, i, p.kind, p.color) then
             (if candidate.None? then CheckFinding(Ray(er, ec, Directions[j].0, Directions[j].1)) else PinFinding(candidate.value))
           else NoFinding)
        else PinWalk(b, r, c, friendly, j, i + 1, candidate)
  }

  function RayFinding(b: Board, r: int, c: int, friendly: Color, j: nat): Finding
    requires j < 8
  {
    PinWalk(b, r, c, friendly, j, 1, None)
  }

  /** Pins found along directions 0 .. n-1, in scan order. */
  function PinsUpTo(b: Board, r: int, c: int, friendly: Color, n: nat): seq<Ray>
    requires n <= 8
  {
    if n == 0 then []
    else
      var f := RayFinding(b, r, c, friendly, n - 1);
      PinsUpTo(b, r, c, friendly, n - 1) + (if f.PinFinding? then [f.pin] else [])
  }

  /** Checks found along directions 0 .. n-1, in scan order. */
  function RayChecksUpTo(b: Board, r: int, c: int, friendly: Color, n: nat): seq<Ray>
    requires n <= 8
  {
    if n == 0 then []
    else
      var f := RayFinding(b, r, c, friendly, n - 1);
      RayChecksUpTo(b, r, c, friendly, n - 1) + (if f.CheckFinding? then [f.check] else [])
  }

  /** Knight checks found at knight offsets 0 .. n-1 of the scan order. */
  function KnightChecksUpTo(b: Board, r: int, c: int, friendly: Color, n: nat): seq<Ray>
    requires n <= 8
  {
    if n == 0 then []
    else
      var er := r + KnightScan[n - 1].0;
      var ec := c + KnightScan[n - 1].1;
      KnightChecksUpTo(b, r, c, friendly, n - 1)
      + (if KnightThreat(b, r, c, friendly, n - 1) then [Ray(er, ec, KnightScan[n - 1].0, KnightScan[n - 1].1)] else [])
  }

  /** checkForPinsAndChecks from the king square (r, c) of side `friendly`:
      (inCheck, pins, checks). */
  function PinsAndChecks(b: Board, r: int, c: int, friendly: Color): (bool, seq<Ray>, seq<Ray>) {
    var checks := RayChecksUpTo(b, r, c, friendly, 8) + KnightChecksUpTo(b, r, c, friendly, 8);
    (|checks| > 0, PinsUpTo(b, r, c, friendly, 8), checks)
  }

  /** Every square at distance 1 .. i-1 along direction j from the king is on the board and
      empty or holds the own king. */
  predicate SeeThroughLine(b: Board, r: int, c: int, friendly: Color, j: nat, i: int)
    requires j < 8
  {
    forall k | 1 <= k < i :: OnBoard(RayRow(r, j, k), RayCol(c, j, k)) && SeeThrough(b[RayRow(r, j, k)][RayCol(c, j, k)], friendly)
  }

  /** The enemy piece at distance i along direction j threatens the king, with nothing but the
      own king in between. */
  predicate CheckingPiece(b: Board, r: int, c: int, friendly: Color, j: nat, i: int)
    requires j < 8
  {
    EnemyThreatAt(b, r, c, friendly, j, i) && SeeThroughLine(b, r, c, friendly, j, i)
  }

  /** Record x names the square at distance i along direction j from (r, c), and that direction. */
  predicate RayAt(x: Ray, r: int, c: int, j: nat, i: int)
    requires j < 8
  {
    x.row == RayRow(r, j, i) && x.col == RayCol(c, j, i) && x.dRow == Directions[j].0 && x.dCol == Directions[j].1
  }

  /** Once a pin candidate is held, the walk can only report a pin or nothing. */
  lemma {:induction false} PinWalkWithCandidate(b: Board, r: int, c: int, friendly: Color, j: nat, i0: int, candidate: Ray)
    requires j < 8 && 1 <= i0
    ensures !PinWalk(b, r, c, friendly, j, i0, Some(candidate)).CheckFinding?
    decreases 8 - i0
  {
    if i0 < 8 {
      PinWalkWithCandidate(b, r, c, friendly, j, i0 + 1, candidate);
    }
  }

  /** With no candidate yet, the walk reports a check exactly when a checking piece has a line
      to the king, and the check record names that piece and the direction. */
  lemma {:induction false} PinWalkCheckMeans(b: Board, r: int, c: int, friendly: Color, j: nat, i0: int)
    requires j < 8 && 1 <= i0
    requires SeeThroughLine(b, r, c, friendly, j, i0)
    ensures PinWalk(b, r, c, friendly, j, i0, None).CheckFinding?
            <==> exists i | i0 <= i < 8 :: CheckingPiece(b, r, c, friendly, j, i)
    ensures PinWalk(b, r, c, friendly, j, i0, None).CheckFinding?
            ==> exists i | i0 <= i < 8 :: (CheckingPiece(b, r, c, friendly, j, i)
                  && RayAt(PinWalk(b, r, c, friendly, j, i0, None).check, r, c, j, i))
    decreases 8 - i0
  {
    if i0 < 8 {
      var er := RayRow(r, j, i0);
      var ec := RayCol(c, j, i0);
      if OnBoard(er, ec) && SeeThrough(b[er][ec], friendly) {
        assert SeeThroughLine(b, r, c, friendly, j, i0 + 1);
        PinWalkCheckMeans(b, r, c, friendly, j, i0 + 1);
        assert !CheckingPiece(b, r, c, friendly, j, i0);
      } else {
        forall i | i0 < i < 8 ensures !SeeThroughLine(b, r, c, friendly, j, i) {
          assert 1 <= i0 < i;
        }
        if OnBoard(er, ec) && IsColor(b[er][ec], friendly) {
          PinWalkWithCandidate(b, r, c, friendly, j, i0 + 1, Ray(er, ec, Directions[j].0, Directions[j].1));
        }
        if PinWalk(b, r, c, friendly, j, i0, None).CheckFinding? {
          assert CheckingPiece(b, r, c, friendly, j, i0);
        }
      }
    }
  }

  /** The own non-king piece at distance i1 along direction j from the king. */
  predicate OwnBlockerAt(b: Board, r: int, c: int, friendly: Color, j: nat, i1: int)
    requires j < 8
  {
    OnBoard(RayRow(r, j, i1), RayCol(c, j, i1))
    && IsColor(b[RayRow(r, j, i1)][RayCol(c, j, i1)], friendly)
    && b[RayRow(r, j, i1)][RayCol(c, j, i1)].kind != King
  }

  /** Every square strictly between distances i1 and i2 along direction j from (r, c) is on the
      board and empty or holds the own king. */
  predicate SeeThroughBetween(b: Board, r: int, c: int, friendly: Color, j: nat, i1: int, i2: int)
    requires j < 8
  {
    forall k | i1 < k < i2 :: OnBoard(RayRow(r, j, k), RayCol(c, j, k)) && SeeThrough(b[RayRow(r, j, k)][RayCol(c, j, k)], friendly)
  }

  /** The own non-king piece at distance i1 along direction j is pinned by the enemy piece at
      distance i2: only squares the scan sees through lie between the king and the piece and
      between the piece and the enemy, and the enemy threatens the king along that line. */
  predicate PinnedAt(b: Board, r: int, c: int, friendly: Color, j: nat, i1: int, i2: int)
    requires j < 8
  {
    1 <= i1 < i2 < 8
    && SeeThroughLine(b, r, c, friendly, j, i1) && OwnBlockerAt(b, r, c, friendly, j, i1)
    && SeeThroughBetween(b, r, c, friendly, j, i1, i2) && EnemyThreatAt(b, r, c, friendly, j, i2)
  }

  /** A pin record names a pinned piece along direction j. */
  predicate PinnedPiece(b: Board, r: int, c: int, friendly: Color, j: nat, pin: Ray)
    requires j < 8
  {
    exists i1, i2 | 1 <= i1 < i2 < 8 :: PinnedAt(b, r, c, friendly, j, i1, i2) && RayAt(pin, r, c, j, i1)
  }

  /** The record of the square at distance i along direction j from (r, c), with that direction. */
  function RayTo(r: int, c: int, j: nat, i: int): (x: Ray)
    requires j < 8 && OnBoard(RayRow(r, j, i), RayCol(c, j, i))
    ensures RayAt(x, r, c, j, i)
  {
    Ray(RayRow(r, j, i), RayCol(c, j, i), Directions[j].0, Directions[j].1)
  }

  /** Every pin the walk reports names a pinned piece. With no candidate the squares walked so far
      are see-through; a candidate is an own non-king piece with see-through squares before it
      and after it up to the walk's position. */
  lemma {:induction false} PinWalkPinSound(b: Board, r: int, c: int, friendly: Color, j: nat, i0: int, candidate: Option<Ray>)
    requires j < 8 && 1 <= i0
    requires candidate.None? ==> SeeThroughLine(b, r, c, friendly, j, i0)
    requires candidate.Some? ==> exists i1 | 1 <= i1 < i0 ::
      RayAt(candidate.value, r, c, j, i1) && OwnBlockerAt(b, r, c, friendly, j, i1)
      && SeeThroughLine(b, r, c, friendly, j, i1) && SeeThroughBetween(b, r, c, friendly, j, i1, i0)
    ensures var f := PinWalk(b, r, c, friendly, j, i0, candidate);
      f.PinFinding? ==> PinnedPiece(b, r, c, friendly, j, f.pin)
    decreases 8 - i0
  {
    if i0 < 8 {
      var er := RayRow(r, j, i0);
      var ec := RayCol(c, j, i0);
      if OnBoard(er, ec) {
        var p := b[er][ec];
        if IsColor(p, friendly) && p.kind != King {
          if candidate.None? {
            var x := RayTo(r, c, j, i0);
            assert OwnBlockerAt(b, r, c, friendly, j, i0);
            assert SeeThroughBetween(b, r, c, friendly, j, i0, i0 + 1);
            PinWalkPinSound(b, r, c, friendly, j, i0 + 1, Some(x));
          }
        } else if p.Occupied? && p.color != friendly {
          if PinWalk(b, r, c, friendly, j, i0, candidate).PinFinding? {
            var i1 :| 1 <= i1 < i0 && RayAt(candidate.value, r, c, j, i1) && OwnBlockerAt(b, r, c, friendly, j, i1)
              && SeeThroughLine(b, r, c, friendly, j, i1) && SeeThroughBetween(b, r, c, friendly, j, i1, i0);
            assert PinnedAt(b, r, c, friendly, j, i1, i0);
          }
        } else {
          if candidate.Some? {
            var i1 :| 1 <= i1 < i0 && RayAt(candidate.value, r, c, j, i1) && OwnBlockerAt(b, r, c, friendly, j, i1)
              && SeeThroughLine(b, r, c, friendly, j, i1) && SeeThroughBetween(b, r, c, friendly, j, i1, i0);
            assert SeeThroughBetween(b, r, c, friendly, j, i1, i0 + 1);
          } else {
            assert SeeThroughLine(b, r, c, friendly, j, i0 + 1);
          }
          PinWalkPinSound(b, r, c, friendly, j, i0 + 1, candidate);
        }
      }
    }
  }

  /** Holding a candidate, the walk over see-through squares up to a threatening enemy reports
      the candidate as pinned. */
  lemma {:induction false} PinWalkCandidatePinned(b: Board, r: int, c: int, friendly: Color, j: nat, i0: int, i2: int, candidate: Ray)
    requires j < 8 && 1 <= i0 <= i2 < 8
    requires forall k | i0 <= k < i2 :: OnBoard(RayRow(r, j, k), RayCol(c, j, k)) && SeeThrough(b[RayRow(r, j, k)][RayCol(c, j, k)], friendly)
    requires EnemyThreatAt(b, r, c, friendly, j, i2)
    ensures PinWalk(b, r, c, friendly, j, i0, Some(candidate)) == PinFinding(candidate)
    decreases i2 - i0
  {
    if i0 < i2 {
      PinWalkCandidatePinned(b, r, c, friendly, j, i0 + 1, i2, candidate);
    }
  }

  /** A pinned piece is reported: the walk along its line finds it as the pin. */
  lemma {:induction false} PinWalkFindsPin(b: Board, r: int, c: int, friendly: Color, j: nat, i0: int, i1: int, i2: int)
    requires j < 8 && 1 <= i0 <= i1
    requires PinnedAt(b, r, c, friendly, j, i1, i2)
    ensures PinWalk(b, r, c, friendly, j, i0, None) == PinFinding(RayTo(r, c, j, i1))
    decreases i1 - i0
  {
    if i0 < i1 {
      PinWalkFindsPin(b, r, c, friendly, j, i0 + 1, i1, i2);
    } else {
      PinWalkCandidatePinned(b, r, c, friendly, j, i1 + 1, i2, RayTo(r, c, j, i1));
    }
  }

  /** A checking piece is reported: the walk along its line finds it as the check. */
  lemma {:induction false} PinWalkFindsCheck(b: Board, r: int, c: int, friendly: Color, j: nat, i0: int, i: int)
    requires j < 8 && 1 <= i0 <= i < 8
    requires CheckingPiece(b, r, c, friendly, j, i)
    ensures PinWalk(b, r, c, friendly, j, i0, None) == CheckFinding(RayTo(r, c, j, i))
    decreases i - i0
  {
    if i0 < i {
      PinWalkFindsCheck(b, r, c, friendly, j, i0 + 1, i);
    }
  }

  /** The line checks along directions 0 .. n-1 are exactly the checking pieces: every record
      names one with its direction, and every one is recorded. */
  lemma {:induction false} RayChecksMeans(b: Board, r: int, c: int, friendly: Color, n: nat)
    requires n <= 8
    ensures forall x | x in RayChecksUpTo(b, r, c, friendly, n) ::
      exists j, i | 0 <= j < n && 1 <= i < 8 :: CheckingPiece(b, r, c, friendly, j, i) && RayAt(x, r, c, j, i)
    ensures forall j, i | 0 <= j < n && 1 <= i < 8 && CheckingPiece(b, r, c, friendly, j, i) ::
      RayTo(r, c, j, i) in RayChecksUpTo(b, r, c, friendly, n)
    ensures (exists j, i | 0 <= j < n && 1 <= i < 8 :: CheckingPiece(b, r, c, friendly, j, i))
            ==> |RayChecksUpTo(b, r, c, friendly, n)| > 0
  {
    if n > 0 {
      RayChecksMeans(b, r, c, friendly, n - 1);
      var j := n - 1;
      PinWalkCheckMeans(b, r, c, friendly, j, 1);
      forall i | 1 <= i < 8 && CheckingPiece(b, r, c, friendly, j, i)
        ensures RayTo(r, c, j, i) in RayChecksUpTo(b, r, c, friendly, n)
      {
        PinWalkFindsCheck(b, r, c, friendly, j, 1, i);
      }
    }
  }

  /** The pins along directions 0 .. n-1 are exactly the pinned pieces: every record names one
      with its direction, and every one is recorded. */
  lemma {:induction false} PinsMeans(b: Board, r: int, c: int, friendly: Color, n: nat)
    requires n <= 8
    ensures forall x | x in PinsUpTo(b, r, c, friendly, n) ::
      exists j | 0 <= j < n :: PinnedPiece(b, r, c, friendly, j, x)
    ensures forall j, i1, i2 | 0 <= j < n && PinnedAt(b, r, c, friendly, j, i1, i2) ::
      RayTo(r, c, j, i1) in PinsUpTo(b, r, c, friendly, n)
  {
    if n > 0 {
      PinsMeans(b, r, c, friendly, n - 1);
      var j := n - 1;
      PinWalkPinSound(b, r, c, friendly, j, 1, None);
      forall i1, i2 | PinnedAt(b, r, c, friendly, j, i1, i2)
        ensures RayTo(r, c, j, i1) in PinsUpTo(b, r, c, friendly, n)
      {
        PinWalkFindsPin(b, r, c, friendly, j, 1, i1, i2);
      }
    }
  }

  /** Record x names the square a knight's jump (offset k of the scan order) from (r, c). */
  predicate JumpAt(x: Ray, r: int, c: int, k: nat)
    requires k < 8
  {
    x == Ray(x.row, x.col, KnightScan[k].0, KnightScan[k].1) && x.row == r + KnightScan[k].0 && x.col == c + KnightScan[k].1
  }

  lemma {:induction false} KnightChecksMeans(b: Board, r: int, c: int, friendly: Color, n: nat)
    requires n <= 8
    ensures forall x | x in KnightChecksUpTo(b, r, c, friendly, n) ::
      exists k | 0 <= k < n :: KnightThreat(b, r, c, friendly, k) && JumpAt(x, r, c, k)
    ensures (exists k | 0 <= k < n :: KnightThreat(b, r, c, friendly, k)) ==> |KnightChecksUpTo(b, r, c, friendly, n)| > 0
  {
    if n > 0 {
      KnightChecksMeans(b, r, c, friendly, n - 1);
    }
  }

  /** What checkForPinsAndChecks finds: the king is in check exactly when a checking piece has a
      line to it (own king squares see-through) or an enemy knight is a jump away; every check
      record names such a piece with its direction or offset, and every checking piece on a line
      is recorded; the pin records are exactly the pinned pieces with their directions. */
  lemma PinsAndChecksMeans(b: Board, r: int, c: int, friendly: Color)
    ensures var (inCheck, pins, checks) := PinsAndChecks(b, r, c, friendly);
      (inCheck <==> (exists j, i | 0 <= j < 8 && 1 <= i < 8 :: CheckingPiece(b, r, c, friendly, j, i))
                    || (exists k | 0 <= k < 8 :: KnightThreat(b, r, c, friendly, k)))
      && (forall x | x in checks ::
            (exists j, i | 0 <= j < 8 && 1 <= i < 8 :: CheckingPiece(b, r, c, friendly, j, i) && RayAt(x, r, c, j, i))
            || (exists k | 0 <= k < 8 :: KnightThreat(b, r, c, friendly, k) && JumpAt(x, r, c, k)))
      && (forall j, i | 0 <= j < 8 && 1 <= i < 8 && CheckingPiece(b, r, c, friendly, j, i) :: RayTo(r, c, j, i) in checks)
      && (forall x | x in pins :: exists j | 0 <= j < 8 :: PinnedPiece(b, r, c, friendly, j, x))
      && (forall j, i1, i2 | 0 <= j < 8 && PinnedAt(b, r, c, friendly, j, i1, i2) :: RayTo(r, c, j, i1) in pins)
  {
    RayChecksMeans(b, r, c, friendly, 8);
    KnightChecksMeans(b, r, c, friendly, 8);
    PinsMeans(b, r, c, friendly, 8);
    var rc := RayChecksUpTo(b, r, c, friendly, 8);
    var kc := KnightChecksUpTo(b, r, c, friendly, 8);
    forall x | x in rc + kc
      ensures (exists j, i | 0 <= j < 8 && 1 <= i < 8 :: CheckingPiece(b, r, c, friendly, j, i) && RayAt(x, r, c, j, i))
              || (exists k | 0 <= k < 8 :: KnightThreat(b, r, c, friendly, k) && JumpAt(x, r, c, k))
    {
      assert x in rc || x in kc;
    }
    if |rc + kc| > 0 {
      if |rc| > 0 {
        assert rc[0] in rc;
      } else {
        assert kc[0] in kc;
      }
    }
  }
}
