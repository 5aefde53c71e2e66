// The two board scans of the second engine (ChessEngine.py): square_under_attack and
// check_for_pins_and_checks. Both walks stop at the first EMPTY square, so only the neighbouring
// square of each line (and the knight jumps) can ever matter; the pin scan records a piece as
// pinned when the enemy piece behind it does NOT threaten the king along the line.

module LegacyScan {
  import opened Wrappers
  import opened Pieces
  import EngineScan

  // ----- square_under_attack -----

  /** The walk along direction j from (r, c), from distance i on: a square off the board is
      skipped, an own piece or an empty square ends it with no attack, and an enemy piece ends
      it with an attack exactly when that piece threatens along this direction at this distance. */
  function AttackAlong(b: Board, r: int, c: int, friendly: Color, j: nat, i: int): bool
    requires j < 8 && 1 <= i
    decreases 8 - i
  {
    if i >= 8 then false
    else
      var er := EngineScan.RayRow(r, j, i);
      var ec := EngineScan.RayCol(c, j, i);
      if !OnBoard(er, ec) then AttackAlong(b, r, c, friendly, j, i + 1)
      else
        var p := b[er][ec];
        if p.Occupied? && p.color != friendly then Threatens(j, i, p.kind, p.color)
        else false
  }

  /** square_under_attack(r, c, friendly). */
  predicate SquareUnderAttack(b: Board, r: int, c: int, friendly: Color) {
    (exists j | 0 <= j < 8 :: AttackAlong(b, r, c, friendly, j, 1))
    || (exists k | 0 <= k < 8 :: EngineScan.KnightThreat(b, r, c, friendly, k))
  }

  /** Seen from a square on the board, a square off the board along a line stays off it
      further out. */
  lemma StaysOff(r: Coord, c: Coord, j: nat, i: int, k: int)
    requires j < 8 && 1 <= i <= k
    requires !OnBoard(EngineScan.RayRow(r, j, i), EngineScan.RayCol(c, j, i))
    ensures !OnBoard(EngineScan.RayRow(r, j, k), EngineScan.RayCol(c, j, k))
  {
    var (dr, dc) := Directions[j];
    assert -1 <= dr <= 1 && -1 <= dc <= 1 by {
      assert Directions[j] in Directions;
    }
    if dr == 1 { assert r + i <= r + k; } else if dr == -1 { assert r - k <= r - i; }
    if dc == 1 { assert c + i <= c + k; } else if dc == -1 { assert c - k <= c - i; }
  }

  /** Once the walk from a square on the board has left the board it finds nothing. */
  lemma {:induction false} AttackAlongOff(b: Board, r: Coord, c: Coord, friendly: Color, j: nat, i: int)
    requires j < 8 && 1 <= i
    requires i > 1 ==> !OnBoard(EngineScan.RayRow(r, j, i - 1), EngineScan.RayCol(c, j, i - 1))
    requires i == 1 ==> !OnBoard(EngineScan.RayRow(r, j, 1), EngineScan.RayCol(c, j, 1))
    ensures !AttackAlong(b, r, c, friendly, j, i)
    decreases 8 - i
  {
    if i < 8 {
      StaysOff(r, c, j, if i == 1 then 1 else i - 1, i);
      AttackAlongOff(b, r, c, friendly, j, i + 1);
    }
  }

  /** A square on the board is under attack exactly when an enemy piece on a NEIGHBOURING square
      threatens it along that line, or an enemy knight is a jump away: a slider two or more
      squares off is never seen, since the walk stops at the first empty square. */
  lemma SquareUnderAttackMeans(b: Board, r: Coord, c: Coord, friendly: Color)
    ensures SquareUnderAttack(b, r, c, friendly) <==>
      (exists j | 0 <= j < 8 :: EngineScan.EnemyThreatAt(b, r, c, friendly, j, 1))
      || (exists k | 0 <= k < 8 :: EngineScan.KnightThreat(b, r, c, friendly, k))
  {
    forall j | 0 <= j < 8
      ensures AttackAlong(b, r, c, friendly, j, 1) <==> EngineScan.EnemyThreatAt(b, r, c, friendly, j, 1)
    {
      if !OnBoard(EngineScan.RayRow(r, j, 1), EngineScan.RayCol(c, j, 1)) {
        AttackAlongOff(b, r, c, friendly, j, 1);
      }
    }
  }

  /** The difference from the primary engine's scan: a rook two squares away on an open file
      attacks a square for the primary engine but not for this one. */
  lemma DistantRookUnseen()
    ensures var b := Put(seq(8, _ => seq(8, _ => Empty)), 2, 0, Occupied(Black, Rook));
      EngineScan.SquareUnderAttack(b, 4, 0, White) && !SquareUnderAttack(b, 4, 0, White)
  {
    var b := Put(seq(8, _ => seq(8, _ => Empty)), 2, 0, Occupied(Black, Rook));
    assert b[3][0] == Empty && b[2][0] == Occupied(Black, Rook);
    assert EngineScan.AttackAlong(b, 4, 0, White, 0, 2);
    assert EngineScan.AttackAlong(b, 4, 0, White, 0, 1);
    SquareUnderAttackMeans(b, 4, 0, White);
    forall j | 0 <= j < 8 ensures !EngineScan.EnemyThreatAt(b, 4, 0, White, j, 1) {
      var (er, ec) := (EngineScan.RayRow(4, j, 1), EngineScan.RayCol(0, j, 1));
      if OnBoard(er, ec) {
        assert b[er][ec] == Empty;
      }
    }
    forall k | 0 <= k < 8 ensures !EngineScan.KnightThreat(b, 4, 0, White, k) {
      var (er, ec) := (4 + KnightScan[k].0, 0 + KnightScan[k].1);
      if OnBoard(er, ec) {
        assert b[er][ec] == Empty;
      }
    }
  }

  // ----- check_for_pins_and_checks -----

  /** What one line of the pin scan records: nothing, a pin entry (None where the source appends
      the empty tuple), or a check. */
  datatype Finding = NoFinding | PinFinding(entry: Option<Ray>) | CheckFinding(check: Ray)

  /** The walk along direction j from the king square (r, c), from distance i on, carrying the
      first own non-king piece met (the pin candidate): the board edge, an empty square, the own
      king or a second own piece ends it with nothing; an enemy piece that threatens along the
      line is a check when there is no candidate (and nothing otherwise); an enemy piece that
      does not threaten records the candidate as a pin, whatever it is. */
  function PinWalk(b: Board, r: int, c: int, friendly: Color, j: nat, i: int, candidate: Option<Ray>): Finding
    requires j < 8 && 1 <= i
    decreases 8 - i
  {
    if i >= 8 then NoFinding
    else
      var er := EngineScan.RayRow(r, j, i);
      var ec := EngineScan.RayCol(c, j, i);
      if !OnBoard(er, ec) then NoFinding
      else
        var p := b[er][ec];
        if IsColor(p, friendly) && p.kind != King then
          (if candidate.None? then PinWalk(b, r, c, friendly, j, i + 1, Some(Ray(er, ec, Directions[j].0, Directions[j].1)))
           else NoFinding)
        else if p.Occupied? && p.color != friendly then
          (if Threatens(j, i, p.kind, p.color) then
             (if candidate.None? then CheckFinding(Ray(er, ec, Directions[j].0, Directions[j].1)) else NoFinding)
           else PinFinding(candidate))
        else NoFinding
  }

  /** Pin entries found along directions 0 .. n-1, in scan order. */
  function PinsUpTo(b: Board, r: int, c: int, friendly: Color, n: nat): seq<Option<Ray>>
    requires n <= 8
  {
    if n == 0 then []
    else
      var f := PinWalk(b, r, c, friendly, n - 1, 1, None);
      PinsUpTo(b, r, c, friendly, n - 1) + (if f.PinFinding? then [f.entry] else [])
  }

  /** Checks found along directions 0 .. n-1, in scan order. */
  function RayChecksUpTo(b: Board, r: int, c: int, friendly: Color, n: nat): seq<Ray>
    requires n <= 8
  {
    if n == 0 then []
    else
      var f := PinWalk(b, r, c, friendly, n - 1, 1, None);
      RayChecksUpTo(b, r, c, friendly, n - 1) + (if f.CheckFinding? then [f.check] else [])
  }

  /** check_for_pins_and_checks from the king square (r, c) of side `friendly`:
      (in_check, pins, checks). The knight part is the primary engine's. */
  function PinsAndChecks(b: Board, r: int, c: int, friendly: Color): (bool, seq<Option<Ray>>, seq<Ray>) {
    var checks := RayChecksUpTo(b, r, c, friendly, 8) + EngineScan.KnightChecksUpTo(b, r, c, friendly, 8);
    (|checks| > 0, PinsUpTo(b, r, c, friendly, 8), checks)
  }

  /** The enemy piece at distance i along direction j does not threaten the king square. */
  predicate HarmlessEnemyAt(b: Board, r: int, c: int, friendly: Color, j: nat, i: int)
    requires j < 8
  {
    OnBoard(EngineScan.RayRow(r, j, i), EngineScan.RayCol(c, j, i))
    && (var p := b[EngineScan.RayRow(r, j, i)][EngineScan.RayCol(c, j, i)];
        p.Occupied? && p.color != friendly && !Threatens(j, i, p.kind, p.color))
  }

  /** What a pin entry stands for along direction j: None for a harmless enemy piece next to the
      king, and Some(x) for an own non-king piece next to the king with a harmless enemy piece
      right behind it. */
  predicate PinEntryAt(b: Board, r: int, c: int, friendly: Color, j: nat, e: Option<Ray>)
    requires j < 8
  {
    if e.None? then HarmlessEnemyAt(b, r, c, friendly, j, 1)
    else EngineScan.RayAt(e.value, r, c, j, 1) && EngineScan.OwnBlockerAt(b, r, c, friendly, j, 1)
         && HarmlessEnemyAt(b, r, c, friendly, j, 2)
  }

  /** One line of the scan: a check exactly when an enemy piece next to the king threatens it,
      named by that piece's square and the direction; a pin entry exactly as PinEntryAt says. */
  lemma LineMeans(b: Board, r: int, c: int, friendly: Color, j: nat)
    requires j < 8
    ensures var f := PinWalk(b, r, c, friendly, j, 1, None);
      (f.CheckFinding? <==> EngineScan.EnemyThreatAt(b, r, c, friendly, j, 1))
      && (f.CheckFinding? ==> EngineScan.RayAt(f.check, r, c, j, 1))
      && (f.PinFinding? ==> PinEntryAt(b, r, c, friendly, j, f.entry))
      && (forall e | PinEntryAt(b, r, c, friendly, j, e) :: f == PinFinding(e))
  {
    var er := EngineScan.RayRow(r, j, 1);
    var ec := EngineScan.RayCol(c, j, 1);
    if OnBoard(er, ec) && IsColor(b[er][ec], friendly) && b[er][ec].kind != King {
      var x := Ray(er, ec, Directions[j].0, Directions[j].1);
      var f2 := PinWalk(b, r, c, friendly, j, 2, Some(x));
      assert PinWalk(b, r, c, friendly, j, 1, None) == f2;
      assert f2.PinFinding? ==> f2.entry == Some(x) && HarmlessEnemyAt(b, r, c, friendly, j, 2);
    }
  }

  /** The line checks along directions 0 .. n-1 are exactly the threatening neighbours: every
      record names one with its direction, and every one is recorded. */
  lemma {:induction false} RayChecksMeans(b: Board, r: int, c: int, friendly: Color, n: nat)
    requires n <= 8
    ensures forall x | x in RayChecksUpTo(b, r, c, friendly, n) ::
      exists j | 0 <= j < n :: EngineScan.EnemyThreatAt(b, r, c, friendly, j, 1) && EngineScan.RayAt(x, r, c, j, 1)
    ensures forall j | 0 <= j < n && EngineScan.EnemyThreatAt(b, r, c, friendly, j, 1) ::
      EngineScan.RayTo(r, c, j, 1) in RayChecksUpTo(b, r, c, friendly, n)
    ensures (exists j | 0 <= j < n :: EngineScan.EnemyThreatAt(b, r, c, friendly, j, 1))
            ==> |RayChecksUpTo(b, r, c, friendly, n)| > 0
  {
    if n > 0 {
      RayChecksMeans(b, r, c, friendly, n - 1);
      LineMeans(b, r, c, friendly, n - 1);
    }
  }

  /** The pin entries along directions 0 .. n-1 are exactly those PinEntryAt describes. */
  lemma {:induction false} PinsMeans(b: Board, r: int, c: int, friendly: Color, n: nat)
    requires n <= 8
    ensures forall e | e in PinsUpTo(b, r, c, friendly, n) ::
      exists j | 0 <= j < n :: PinEntryAt(b, r, c, friendly, j, e)
    ensures forall j, e | 0 <= j < n && PinEntryAt(b, r, c, friendly, j, e) :: e in PinsUpTo(b, r, c, friendly, n)
  {
    if n > 0 {
      PinsMeans(b, r, c, friendly, n - 1);
      LineMeans(b, r, c, friendly, n - 1);
    }
  }

  /** What check_for_pins_and_checks finds: the king is in check exactly when an enemy piece
      next to it threatens it along the line or an enemy knight is a jump away (a slider further
      off is never seen); the line check records are exactly those threatening neighbours; and
      the pin entries are exactly None for each harmless enemy piece next to the king and the
      square of each own piece next to the king with a harmless enemy piece behind it. */
  lemma PinsAndChecksMeans(b: Board, r: int, c: int, friendly: Color)
    ensures var (inCheck, pins, checks) := PinsAndChecks(b, r, c, friendly);
      (inCheck <==> (exists j | 0 <= j < 8 :: EngineScan.EnemyThreatAt(b, r, c, friendly, j, 1))
                    || (exists k | 0 <= k < 8 :: EngineScan.KnightThreat(b, r, c, friendly, k)))
      && (forall x | x in checks ::
            (exists j | 0 <= j < 8 :: EngineScan.EnemyThreatAt(b, r, c, friendly, j, 1) && EngineScan.RayAt(x, r, c, j, 1))
            || (exists k | 0 <= k < 8 :: EngineScan.KnightThreat(b, r, c, friendly, k) && EngineScan.JumpAt(x, r, c, k)))
      && (forall j | 0 <= j < 8 && EngineScan.EnemyThreatAt(b, r, c, friendly, j, 1) :: EngineScan.RayTo(r, c, j, 1) in checks)
      && (forall e | e in pins :: exists j | 0 <= j < 8 :: PinEntryAt(b, r, c, friendly, j, e))
      && (forall j, e | 0 <= j < 8 && PinEntryAt(b, r, c, friendly, j, e) :: e in pins)
  {
    RayChecksMeans(b, r, c, friendly, 8);
    EngineScan.KnightChecksMeans(b, r, c, friendly, 8);
    PinsMeans(b, r, c, friendly, 8);
    var rc := RayChecksUpTo(b, r, c, friendly, 8);
    var kc := EngineScan.KnightChecksUpTo(b, r, c, friendly, 8);
    forall x | x in rc + kc
      ensures (exists j | 0 <= j < 8 :: EngineScan.EnemyThreatAt(b, r, c, friendly, j, 1) && EngineScan.RayAt(x, r, c, j, 1))
              || (exists k | 0 <= k < 8 :: EngineScan.KnightThreat(b, r, c, friendly, k) && EngineScan.JumpAt(x, r, c, k))
    {
      assert x in rc || x in kc;
    }
    if |rc + kc| > 0 {
      if |rc| > 0 {
        assert rc[0] in rc;
      } else {
        assert kc[0] in kc;
      }
    }
  }

  /** Lines where the walk finds nothing contribute no pin entries and no checks. */
  lemma {:induction false} QuietLines(b: Board, r: int, c: int, friendly: Color, n: nat)
    requires n <= 8
    requires forall j | 0 <= j < n :: PinWalk(b, r, c, friendly, j, 1, None) == NoFinding
    ensures PinsUpTo(b, r, c, friendly, n) == [] && RayChecksUpTo(b, r, c, friendly, n) == []
  {
    if n > 0 {
      QuietLines(b, r, c, friendly, n - 1);
    }
  }

  /** Without an enemy knight a jump away the knight part of the scan finds no checks. */
  lemma {:induction false} NoKnightChecks(b: Board, r: int, c: int, friendly: Color, n: nat)
    requires n <= 8
    requires forall k | 0 <= k < n :: !EngineScan.KnightThreat(b, r, c, friendly, k)
    ensures EngineScan.KnightChecksUpTo(b, r, c, friendly, n) == []
  {
    if n > 0 {
      NoKnightChecks(b, r, c, friendly, n - 1);
    }
  }

  /** A genuinely pinned piece is not recorded: with the white king on e1, a white bishop on e2
      and a black rook on e3, the scan records neither a pin nor a check. */
  lemma RealPinUnrecorded()
    ensures var b := Put(Put(Put(seq(8, _ => seq(8, _ => Empty)), 7, 4, Occupied(White, King)),
                             6, 4, Occupied(White, Bishop)), 5, 4, Occupied(Black, Rook));
      PinsAndChecks(b, 7, 4, White) == (false, [], [])
  {
    var b := Put(Put(Put(seq(8, _ => seq(8, _ => Empty)), 7, 4, Occupied(White, King)),
                     6, 4, Occupied(White, Bishop)), 5, 4, Occupied(Black, Rook));
    assert b[6][4] == Occupied(White, Bishop) && b[5][4] == Occupied(Black, Rook);
    assert PinWalk(b, 7, 4, White, 0, 2, Some(Ray(6, 4, -1, 0))) == NoFinding;
    forall j | 0 <= j < 8 ensures PinWalk(b, 7, 4, White, j, 1, None) == NoFinding {
      var (er, ec) := (EngineScan.RayRow(7, j, 1), EngineScan.RayCol(4, j, 1));
      if OnBoard(er, ec) && j != 0 {
        assert b[er][ec] == Empty;
      }
    }
    QuietLines(b, 7, 4, White, 8);
    forall k | 0 <= k < 8 ensures !EngineScan.KnightThreat(b, 7, 4, White, k) {
      var (er, ec) := (7 + KnightScan[k].0, 4 + KnightScan[k].1);
      if OnBoard(er, ec) {
        assert b[er][ec] == Empty;
      }
    }
    NoKnightChecks(b, 7, 4, White, 8);
  }
}
