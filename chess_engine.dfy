// The GameState class of the primary engine (chess_engine.py): the fields the source updates in
// place, and each method proved to compute exactly the state transition or move list that the
// functions of EngineState, EngineScan and EngineMoves specify. Where the source would index the
// board outside 0..7 a method returns ok == false, as those functions do.

module Engine {
  import opened Wrappers
  import opened Pieces
  import opened Moves
  import opened EngineState
  import opened EngineScan
  import opened EngineMoves
  import opened EngineMoveFacts

  /** The game: board, side to move, history, king caches, last scan and castling flags. */
  class GameState {
    var board: Board
    var whiteToMove: bool
    var moveLog: seq<Move>
    var whiteKingLocation: Cell
    var blackKingLocation: Cell
    var inCheck: bool
    var pins: seq<Ray>
    var checks: seq<Ray>
    var checkmate: bool
    var stalemate: bool
    var enpassantPossible: Option<Cell>
    var enpassantPossibleLog: seq<Option<Cell>>
    var whiteCastleKingside: bool
    var whiteCastleQueenside: bool
    var blackCastleKingside: bool
    var blackCastleQueenside: bool
    var castleRightsLog: seq<CastleRights>

    /** The four castling flags as one value. */
    function Rights(): CastleRights
      reads this
    {
      CastleRights(whiteCastleKingside, blackCastleKingside, whiteCastleQueenside, blackCastleQueenside)
    }

    /** The object's fields as a State value. */
    function Snapshot(): State
      reads this
    {
      State(board, whiteToMove, moveLog, whiteKingLocation, blackKingLocation, inCheck, pins, checks,
            checkmate, stalemate, enpassantPossible, enpassantPossibleLog, Rights(), castleRightsLog)
    }

    /** The king cache of the side to move. */
    function KingLocation(): Cell
      reads this
    {
      if whiteToMove then whiteKingLocation else blackKingLocation
    }

    constructor()
      ensures Snapshot() == Initial()
    {
      board := InitialBoard();
      whiteToMove := true;
      moveLog := [];
      whiteKingLocation := Sq(7, 4);
      blackKingLocation := Sq(0, 4);
      inCheck := false;
      pins := [];
      checks := [];
      checkmate := false;
      stalemate := false;
      enpassantPossible := None;
      enpassantPossibleLog := [None];
      whiteCastleKingside := true;
      whiteCastleQueenside := true;
      blackCastleKingside := true;
      blackCastleQueenside := true;
      castleRightsLog := [CastleRights(true, true, true, true)];
    }

    // ----- makeMove / undoMove / updateCastleRights -----

    /** makeMove, with the promotion prompt's answer as a parameter, in the steps of the
        source: the pieces, the en-passant target, the castling rights, then the rook. */
    method MakeMove(move: Move, promotion: PromotionKind) returns (ok: bool)
      requires move.isPawnPromotion ==> move.pieceMoved.Occupied?
      modifies this
      ensures (Snapshot(), ok) == EngineState.MakeMove(old(Snapshot()), move, promotion)
    {
      MovePieces(move, promotion);
      PushEnPassant(move);
      PushRights(move);
      ok := PutRookOut(move);
    }

    /** The start of makeMove: move the piece, log the move, pass the turn, follow a king. */
    method MovePieces(move: Move, promotion: PromotionKind)
      requires move.isPawnPromotion ==> move.pieceMoved.Occupied?
      modifies this`board, this`moveLog, this`whiteToMove, this`whiteKingLocation, this`blackKingLocation
      ensures Snapshot() == EngineState.MovePieces(old(Snapshot()), move, promotion)
    {
      MoveSquares(move, promotion);
      moveLog := moveLog + [move];
      PassTurn(move.pieceMoved, EndOf(move));
    }

    /** Hand the turn over; a king that moved takes its cached square along. */
    method PassTurn(moved: Piece, to: Cell)
      modifies this`whiteToMove, this`whiteKingLocation, this`blackKingLocation
      ensures Snapshot() == EngineState.PassTurn(old(Snapshot()), moved, to)
    {
      whiteToMove := !whiteToMove;
      if moved == Occupied(White, King) {
        whiteKingLocation := to;
      } else if moved == Occupied(Black, King) {
        blackKingLocation := to;
      }
    }

    /** The board writes of makeMove before the rook: the piece leaves its start square for its
        end square, a promoting pawn becomes the chosen piece, an en-passant capture empties the
        square beside the start. */
    method MoveSquares(move: Move, promotion: PromotionKind)
      requires move.isPawnPromotion ==> move.pieceMoved.Occupied?
      modifies this`board
      ensures board == MovedBoard(old(board), move, promotion)
    {
      board := Put(board, move.endRow, move.endCol, move.pieceMoved);
      board := Put(board, move.startRow, move.startCol, Empty);
      if move.isPawnPromotion {
        board := Put(board, move.endRow, move.endCol, Occupied(move.pieceMoved.color, promotion));
      }
      if move.isEnpassantMove {
        board := Put(board, move.startRow, move.endCol, Empty);
      }
    }

    /** Set the en-passant target (the square a two-row pawn move skipped) and log it. */
    method PushEnPassant(move: Move)
      modifies this`enpassantPossible, this`enpassantPossibleLog
      ensures Snapshot() == EngineState.PushEnPassant(old(Snapshot()), move)
    {
      if IsKind(move.pieceMoved, Pawn) && (move.startRow - move.endRow == 2 || move.endRow - move.startRow == 2) {
        enpassantPossible := Some(Sq((move.startRow + move.endRow) / 2, move.startCol));
      } else {
        enpassantPossible := None;
      }
      enpassantPossibleLog := enpassantPossibleLog + [enpassantPossible];
    }

    /** Update the castling flags and log them. */
    method PushRights(move: Move)
      modifies this`whiteCastleKingside, this`whiteCastleQueenside, this`blackCastleKingside,
               this`blackCastleQueenside, this`castleRightsLog
      ensures Snapshot() == EngineState.PushRights(old(Snapshot()), move)
    {
      UpdateCastleRights(move);
      castleRightsLog := castleRightsLog + [Rights()];
    }

    /** Jump the rook of a castling move next to the king. */
    method PutRookOut(move: Move) returns (ok: bool)
      modifies this`board
      ensures (Snapshot(), ok) == EngineState.PutRookOut(old(Snapshot()), move)
    {
      if move.castle {
        if move.endCol - move.startCol == 2 {
          if move.endCol + 1 > 7 {
            return false;
          }
          board := Put(board, move.endRow, move.endCol - 1, board[move.endRow][move.endCol + 1]);
          board := Put(board, move.endRow, move.endCol + 1, Empty);
        } else {
          if move.endCol - 2 < 0 || move.endCol + 1 > 7 {
            return false;
          }
          board := Put(board, move.endRow, move.endCol + 1, board[move.endRow][move.endCol - 2]);
          board := Put(board, move.endRow, move.endCol - 2, Empty);
        }
      }
      return true;
    }

    /** undoMove, in the steps of the source: the pieces, then the two history logs, then the
        castling rook and the end-of-game flags. */
    method UndoMove() returns (ok: bool)
      modifies this
      ensures (Snapshot(), ok) == EngineState.UndoMove(old(Snapshot()))
    {
      ok := true;
      if |moveLog| != 0 {
        var move := moveLog[|moveLog| - 1];
        UndoPieces(move);
        ok := UndoHistory(move);
      }
    }

    /** The history part of undoMove, stopping at the first step that fails. */
    method UndoHistory(move: Move) returns (ok: bool)
      modifies this
      ensures (Snapshot(), ok) == EngineState.UndoHistory(old(Snapshot()), move)
    {
      ok := PopEnPassantLog();
      if !ok {
        return;
      }
      ok := PopRightsLog();
      if !ok {
        return;
      }
      ok := PutRookBack(move);
    }

    /** The start of undoMove: pop the move, restore its squares (and the pawn an en-passant
        capture took), hand back the turn and the king's cached square. */
    method UndoPieces(move: Move)
      requires |moveLog| > 0 && move == moveLog[|moveLog| - 1]
      modifies this`moveLog, this`board, this`whiteToMove, this`whiteKingLocation, this`blackKingLocation
      ensures Snapshot() == EngineState.UndoPieces(old(Snapshot()))
    {
      moveLog := moveLog[..|moveLog| - 1];
      RestoreSquares(move);
      PassTurn(move.pieceMoved, StartOf(move));
    }

    /** Put the moved piece and the captured one back (for an en-passant capture, the captured
        pawn beside the start square). */
    method RestoreSquares(move: Move)
      modifies this`board
      ensures board == RestoredBoard(old(board), move)
    {
      board := Put(board, move.startRow, move.startCol, move.pieceMoved);
      board := Put(board, move.endRow, move.endCol, move.pieceCaptured);
      if move.isEnpassantMove {
        board := Put(board, move.endRow, move.endCol, Empty);
        board := Put(board, move.startRow, move.endCol, move.pieceCaptured);
      }
    }

    /** Pop the en-passant log and restore the target from its new last entry. */
    method PopEnPassantLog() returns (ok: bool)
      modifies this`enpassantPossibleLog, this`enpassantPossible
      ensures (Snapshot(), ok) == EngineState.PopEnPassantLog(old(Snapshot()))
    {
      if |enpassantPossibleLog| == 0 {
        return false;
      }
      enpassantPossibleLog := enpassantPossibleLog[..|enpassantPossibleLog| - 1];
      if |enpassantPossibleLog| == 0 {
        return false;
      }
      enpassantPossible := enpassantPossibleLog[|enpassantPossibleLog| - 1];
      return true;
    }

    /** Pop the castle-rights log and restore the four flags from its new last entry. */
    method PopRightsLog() returns (ok: bool)
      modifies this`castleRightsLog, this`whiteCastleKingside, this`blackCastleKingside,
               this`whiteCastleQueenside, this`blackCastleQueenside
      ensures (Snapshot(), ok) == EngineState.PopRightsLog(old(Snapshot()))
    {
      if |castleRightsLog| == 0 {
        return false;
      }
      castleRightsLog := castleRightsLog[..|castleRightsLog| - 1];
      if |castleRightsLog| == 0 {
        return false;
      }
      SetRights(castleRightsLog[|castleRightsLog| - 1]);
      return true;
    }

    /** Copy a castle-rights record into the four flags. */
    method SetRights(castleRights: CastleRights)
      modifies this`whiteCastleKingside, this`blackCastleKingside, this`whiteCastleQueenside, this`blackCastleQueenside
      ensures Rights() == castleRights
    {
      whiteCastleKingside := castleRights.wks;
      blackCastleKingside := castleRights.bks;
      whiteCastleQueenside := castleRights.wqs;
      blackCastleQueenside := castleRights.bqs;
    }

    /** Move the rook of an undone castling move back to its corner, then clear the
        end-of-game flags. */
    method PutRookBack(move: Move) returns (ok: bool)
      modifies this`board, this`checkmate, this`stalemate
      ensures (Snapshot(), ok) == EngineState.PutRookBack(old(Snapshot()), move)
    {
      if move.castle {
        if move.endCol - move.startCol == 2 {
          if move.endCol + 1 > 7 {
            return false;
          }
          board := Put(board, move.endRow, move.endCol + 1, board[move.endRow][move.endCol - 1]);
          board := Put(board, move.endRow, move.endCol - 1, Empty);
        } else {
          if move.endCol - 2 < 0 || move.endCol + 1 > 7 {
            return false;
          }
          board := Put(board, move.endRow, move.endCol - 2, board[move.endRow][move.endCol + 1]);
          board := Put(board, move.endRow, move.endCol + 1, Empty);
        }
      }
      checkmate := false;
      stalemate := false;
      return true;
    }

    /** updateCastleRights: the castling flags change as the function of the same name says. */
    method UpdateCastleRights(move: Move)
      modifies this`whiteCastleKingside, this`whiteCastleQueenside, this`blackCastleKingside, this`blackCastleQueenside
      ensures Rights() == EngineState.UpdateCastleRights(old(Rights()), move)
    {
      var code := Code(move.pieceMoved);
      if code == "wK" {
        whiteCastleQueenside := false;
        whiteCastleKingside := false;
      } else if code == "bk" {
        blackCastleQueenside := false;
        blackCastleKingside := false;
      } else if code == "wR" {
        if move.startRow == 7 {
          if move.startCol == 0 {
            whiteCastleQueenside := false;
          } else if move.startCol == 7 {
            whiteCastleKingside := false;
          }
        }
      } else if code == "bR" {
        if move.startRow == 0 {
          if move.startCol == 0 {
            blackCastleQueenside := false;
          } else if move.startCol == 7 {
            blackCastleKingside := false;
          }
        }
      }
    }

    // ----- the scans -----

    /** squareUnderAttack: walks the eight directions, then the knight offsets, stopping at the
        first attacker found. */
    method SquareUnderAttack(r: int, c: int, friendly: Color) returns (attacked: bool)
      ensures attacked == EngineScan.SquareUnderAttack(board, r, c, friendly)
    {
      var enemy := Opponent(friendly);
      var j := 0;
      while j < 8
        invariant 0 <= j <= 8
        invariant forall k | 0 <= k < j :: !AttackAlong(board, r, c, friendly, k, 1)
      {
        var d := Directions[j];
        var i := 1;
        while i < 8
          invariant 1 <= i <= 8
          invariant AttackAlong(board, r, c, friendly, j, 1) == AttackAlong(board, r, c, friendly, j, i)
        {
          var endRow := r + d.0 * i;
          var endCol := c + d.1 * i;
          if OnBoard(endRow, endCol) {
            var endPiece := board[endRow][endCol];
            if IsColor(endPiece, friendly) {
              break;
            } else if IsColor(endPiece, enemy) {
              if Threatens(j, i, endPiece.kind, enemy) {
                assert AttackAlong(board, r, c, friendly, j, i);
                return true;
              } else {
                break;
              }
            }
          } else {
            break;
          }
          i := i + 1;
        }
        j := j + 1;
      }
      var k := 0;
      while k < 8
        invariant 0 <= k <= 8
        invariant forall n | 0 <= n < k :: !KnightThreat(board, r, c, friendly, n)
      {
        var endRow := r + KnightScan[k].0;
        var endCol := c + KnightScan[k].1;
        if OnBoard(endRow, endCol) {
          var endPiece := board[endRow][endCol];
          if IsColor(endPiece, enemy) && endPiece.kind == Knight {
            assert KnightThreat(board, r, c, friendly, k);
            return true;
          }
        }
        k := k + 1;
      }
      return false;
    }

    /** checkForPinsAndChecks: the scan from the cached king square of the side to move. */
    method CheckForPinsAndChecks() returns (inCheckFound: bool, pinsFound: seq<Ray>, checksFound: seq<Ray>)
      ensures var king := KingOf(Snapshot());
        inCheckFound == PinsAndChecks(board, king.row, king.col, SideColor(whiteToMove)).0
        && pinsFound == PinsAndChecks(board, king.row, king.col, SideColor(whiteToMove)).1
        && checksFound == PinsAndChecks(board, king.row, king.col, SideColor(whiteToMove)).2
    {
      var friendly := SideColor(whiteToMove);
      var king := if whiteToMove then whiteKingLocation else blackKingLocation;
      var rayChecks, knightChecks;
      pinsFound, rayChecks := ScanLines(king.row, king.col, friendly);
      knightChecks := ScanKnights(king.row, king.col, friendly);
      checksFound := rayChecks + knightChecks;
      inCheckFound := |checksFound| > 0;
    }

    /** The eight directions of the pin scan, in order, collecting pins and line checks. */
    method ScanLines(startRow: int, startCol: int, friendly: Color) returns (pinsFound: seq<Ray>, checksFound: seq<Ray>)
      ensures pinsFound == PinsUpTo(board, startRow, startCol, friendly, 8)
      ensures checksFound == RayChecksUpTo(board, startRow, startCol, friendly, 8)
    {
      pinsFound := [];
      checksFound := [];
      var j := 0;
      while j < 8
        invariant 0 <= j <= 8
        invariant pinsFound == PinsUpTo(board, startRow, startCol, friendly, j)
        invariant checksFound == RayChecksUpTo(board, startRow, startCol, friendly, j)
      {
        var finding := ScanDirection(startRow, startCol, friendly, j);
        match finding {
          case NoFinding =>
          case PinFinding(pin) =>
            pinsFound := pinsFound + [pin];
          case CheckFinding(check) =>
            checksFound := checksFound + [check];
        }
        j := j + 1;
      }
    }

    /** The knight offsets of the pin scan, in order, collecting knight checks. */
    method ScanKnights(startRow: int, startCol: int, friendly: Color) returns (checksFound: seq<Ray>)
      ensures checksFound == KnightChecksUpTo(board, startRow, startCol, friendly, 8)
    {
      var enemy := Opponent(friendly);
      checksFound := [];
      var k := 0;
      while k < 8
        invariant 0 <= k <= 8
        invariant checksFound == KnightChecksUpTo(board, startRow, startCol, friendly, k)
      {
        var m := KnightScan[k];
        var endRow := startRow + m.0;
        var endCol := startCol + m.1;
        if OnBoard(endRow, endCol) {
          var endPiece := board[endRow][endCol];
          if IsColor(endPiece, enemy) && endPiece.kind == Knight {
            checksFound := checksFound + [Ray(endRow, endCol, m.0, m.1)];
          }
        }
        k := k + 1;
      }
    }

    /** One direction of the pin scan, out from the king: the first own non-king piece becomes
        the possible pin, a second one ends the walk, and an enemy piece that threatens along
        the direction makes a check (no own piece between) or a pin (one between). */
    method ScanDirection(startRow: int, startCol: int, friendly: Color, j: int) returns (finding: Finding)
      requires 0 <= j < 8
      ensures finding == RayFinding(board, startRow, startCol, friendly, j)
    {
      var enemy := Opponent(friendly);
      var d := Directions[j];
      var possiblePin: Option<Ray> := None;
      var i := 1;
      while i < 8
        invariant 1 <= i <= 8
        invariant RayFinding(board, startRow, startCol, friendly, j)
                  == PinWalk(board, startRow, startCol, friendly, j, i, possiblePin)
      {
        var endRow := startRow + d.0 * i;
        var endCol := startCol + d.1 * i;
        if OnBoard(endRow, endCol) {
          var endPiece := board[endRow][endCol];
          if IsColor(endPiece, friendly) && endPiece.kind != King {
            if possiblePin == None {
              possiblePin := Some(Ray(endRow, endCol, d.0, d.1));
            } else {
              return NoFinding;
            }
          } else if IsColor(endPiece, enemy) {
            if Threatens(j, i, endPiece.kind, enemy) {
              if possiblePin == None {
                return CheckFinding(Ray(endRow, endCol, d.0, d.1));
              } else {
                return PinFinding(possiblePin.value);
              }
            } else {
              return NoFinding;
            }
          }
        } else {
          return NoFinding;
        }
        i := i + 1;
      }
      return NoFinding;
    }

    // ----- move generation -----

    /** The pin lookup that opens each generator: the backward loop over the pin list finds the
        last record naming (r, c) and, when consume is set, removes it with list.remove. */
    method LookUpPin(r: int, c: int, consume: bool) returns (pin: Option<Ray>)
      modifies this`pins
      ensures pin == FindPin(old(pins), r, c)
      ensures pins == if consume then DropPin(old(pins), pin) else old(pins)
    {
      pin := None;
      var i := |pins| - 1;
      while i >= 0
        invariant -1 <= i < |pins| && pins == old(pins)
        invariant LastPinIndex(pins, r, c, |pins|) == LastPinIndex(pins, r, c, i + 1)
      {
        if pins[i].row == r && pins[i].col == c {
          pin := Some(pins[i]);
          if consume {
            pins := RemoveFirst(pins, pins[i]);
          }
          return;
        }
        i := i - 1;
      }
    }

    /** getPawnMoves, appending to moves; false where the square ahead is off the board. */
    method GetPawnMoves(r: Coord, c: Coord, moves: seq<Move>) returns (movesOut: seq<Move>, ok: bool)
      modifies this`pins
      ensures var g := PawnMoves(old(Snapshot()), r, c);
        Snapshot() == g.state && movesOut == moves + g.moves && ok == g.ok
    {
      var pin := LookUpPin(r, c, true);
      var added;
      added, ok := PawnTargets(r, c, pin);
      movesOut := moves + added;
    }

    /** The body of getPawnMoves after the pin lookup. */
    method PawnTargets(r: Coord, c: Coord, pin: Option<Ray>) returns (added: seq<Move>, ok: bool)
      ensures ok == OnBoard(r + Forward(whiteToMove), c)
      ensures ok ==> added == PawnPushes(board, whiteToMove, r, c, pin)
                              + PawnLeft(board, whiteToMove, enpassantPossible, KingLocation(), r, c, pin)
                              + PawnRight(board, whiteToMove, enpassantPossible, KingLocation(), r, c, pin)
      ensures !ok ==> added == []
    {
      var moveAmount := if whiteToMove then -1 else 1;
      if !OnBoard(r + moveAmount, c) {
        return [], false;
      }
      var pushes := PawnPushMoves(r, c, pin);
      var left := PawnLeftMoves(r, c, pin);
      var right := PawnRightMoves(r, c, pin);
      return pushes + left + right, true;
    }

    /** The one- and two-square advances of getPawnMoves. */
    method PawnPushMoves(r: Coord, c: Coord, pin: Option<Ray>) returns (added: seq<Move>)
      requires OnBoard(r + Forward(whiteToMove), c)
      ensures added == PawnPushes(board, whiteToMove, r, c, pin)
    {
      var moveAmount := if whiteToMove then -1 else 1;
      var startRow := if whiteToMove then 6 else 1;
      added := [];
      if board[r + moveAmount][c] == Empty {
        if PinAllows(pin, (moveAmount, 0)) {
          added := added + [NewMove(Sq(r, c), Sq(r + moveAmount, c), board, false, false)];
          if r == startRow && board[r + 2 * moveAmount][c] == Empty {
            added := added + [NewMove(Sq(r, c), Sq(r + 2 * moveAmount, c), board, false, false)];
          }
        }
      }
    }

    /** The left diagonal of getPawnMoves: a capture, then the en-passant capture with the
        test along the king's row. */
    method PawnLeftMoves(r: Coord, c: Coord, pin: Option<Ray>) returns (added: seq<Move>)
      requires OnBoard(r + Forward(whiteToMove), c)
      ensures added == PawnLeft(board, whiteToMove, enpassantPossible, KingLocation(), r, c, pin)
    {
      var moveAmount := if whiteToMove then -1 else 1;
      var king := KingLocation();
      var enemy := if whiteToMove then Black else White;
      added := [];
      if c - 1 >= 0 {
        if PinAllows(pin, (moveAmount, -1)) {
          if IsColor(board[r + moveAmount][c - 1], enemy) {
            added := added + [NewMove(Sq(r, c), Sq(r + moveAmount, c - 1), board, false, false)];
          }
          if enpassantPossible == Some(Sq(r + moveAmount, c - 1)) {
            var allowed := LeftEpTest(r, c, king, enemy);
            if allowed {
              added := added + [NewMove(Sq(r, c), Sq(r + moveAmount, c - 1), board, true, false)];
            }
          }
        }
      }
    }

    /** The right diagonal of getPawnMoves: a capture, then the en-passant capture, which the
        source only appends inside its test along the king's row. */
    method PawnRightMoves(r: Coord, c: Coord, pin: Option<Ray>) returns (added: seq<Move>)
      requires OnBoard(r + Forward(whiteToMove), c)
      ensures added == PawnRight(board, whiteToMove, enpassantPossible, KingLocation(), r, c, pin)
    {
      var moveAmount := if whiteToMove then -1 else 1;
      var king := KingLocation();
      var enemy := if whiteToMove then Black else White;
      added := [];
      if c + 1 <= 7 {
        if PinAllows(pin, (moveAmount, 1)) {
          if IsColor(board[r + moveAmount][c + 1], enemy) {
            added := added + [NewMove(Sq(r, c), Sq(r + moveAmount, c + 1), board, false, false)];
          }
          if enpassantPossible == Some(Sq(r + moveAmount, c + 1)) {
            var allowed := RightEpTest(r, c, king, enemy);
            if allowed {
              added := added + [NewMove(Sq(r, c), Sq(r + moveAmount, c + 1), board, true, false)];
            }
          }
        }
      }
    }

    /** The king's-row test guarding the left en-passant capture. */
    method LeftEpTest(r: Coord, c: Coord, king: Cell, enemy: Color) returns (allowed: bool)
      requires 1 <= c
      ensures allowed == LeftEpAllows(board, r, c, king, enemy)
    {
      allowed := true;
      if king.row == r {
        if king.col < c {
          allowed := EpRowTest(r, enemy, king.col + 1, c - 1, c + 1, 8);
        } else {
          allowed := EpRowTest(r, enemy, c + 1, king.col, 0, c - 1);
        }
      }
    }

    /** The king's-row test guarding the right en-passant capture, which the source only
        passes inside the branch where the king is on the pawn's row. */
    method RightEpTest(r: Coord, c: Coord, king: Cell, enemy: Color) returns (allowed: bool)
      requires c <= 6
      ensures allowed == RightEpAllows(board, r, c, king, enemy)
    {
      allowed := false;
      if king.row == r {
        if king.col < c {
          allowed := EpRowTest(r, enemy, king.col + 1, c, c + 2, 8);
        } else {
          allowed := EpRowTest(r, enemy, c + 2, king.col, 0, c);
        }
      }
    }

    /** The scan of row r in the en-passant test: any piece in the inside range blocks; in the
        outside range an enemy rook or queen attacks and any other piece blocks. */
    method EpRowTest(r: Coord, enemy: Color, iLo: int, iHi: int, oLo: int, oHi: int) returns (allowed: bool)
      requires 0 <= iLo && iHi <= 8 && 0 <= oLo && oHi <= 8
      ensures allowed == EpRowAllows(board, r, enemy, iLo, iHi, oLo, oHi)
    {
      var isAttackingPiece, isBlockingPiece := false, false;
      var i := iLo;
      while i < iHi
        invariant iLo <= i && (i <= iHi || i == iLo)
        invariant isBlockingPiece == exists k | iLo <= k < i :: board[r][k] != Empty
      {
        if board[r][i] != Empty {
          isBlockingPiece := true;
        }
        i := i + 1;
      }
      var insideBlocks := isBlockingPiece;
      i := oLo;
      while i < oHi
        invariant oLo <= i && (i <= oHi || i == oLo)
        invariant isAttackingPiece == exists k | oLo <= k < i :: RookOrQueenOf(board[r][k], enemy)
        invariant isBlockingPiece == (insideBlocks || exists k | oLo <= k < i :: board[r][k] != Empty && !RookOrQueenOf(board[r][k], enemy))
      {
        var square := board[r][i];
        if IsColor(square, enemy) && (square.kind == Rook || square.kind == Queen) {
          isAttackingPiece := true;
        } else if square != Empty {
          isBlockingPiece := true;
        }
        i := i + 1;
      }
      allowed := !isAttackingPiece || isBlockingPiece;
    }

    /** One direction of getRookMoves / getBishopMoves: the walk from distance 1 until the
        edge, a piece of the side to move, or a capture. */
    static method SlideWalk(b: Board, r: Coord, c: Coord, d: (int, int), enemy: Color) returns (walk: seq<Move>)
      ensures walk == SlideFrom(b, r, c, d, 1, enemy)
    {
      walk := [];
      var i := 1;
      var stop := false;
      while i < 8 && !stop
        invariant 1 <= i <= 8
        invariant SlideFrom(b, r, c, d, 1, enemy) == walk + (if stop then [] else SlideFrom(b, r, c, d, i, enemy))
      {
        var step;
        step, stop := SlideStep(b, r, c, d, i, enemy);
        walk := walk + step;
        i := i + 1;
      }
    }

    /** The body of the walk at distance i: the move it emits, if any, and whether it ends. */
    static method SlideStep(b: Board, r: Coord, c: Coord, d: (int, int), i: int, enemy: Color) returns (step: seq<Move>, stop: bool)
      requires 1 <= i < 8
      ensures SlideFrom(b, r, c, d, i, enemy) == step + (if stop then [] else SlideFrom(b, r, c, d, i + 1, enemy))
    {
      var endRow := r + d.0 * i;
      var endCol := c + d.1 * i;
      if !OnBoard(endRow, endCol) {
        return [], true;
      }
      var endSquare := b[endRow][endCol];
      var m := NewMove(Sq(r, c), Sq(endRow, endCol), b, false, false);
      if endSquare == Empty {
        return [m], false;
      } else if IsColor(endSquare, enemy) {
        return [m], true;
      }
      return [], true;
    }

    /** The loop over the directions of a sliding piece. */
    method AppendSlides(r: Coord, c: Coord, dirs: seq<(int, int)>, pin: Option<Ray>, enemy: Color) returns (added: seq<Move>)
      ensures added == SlidesUpTo(board, r, c, dirs, |dirs|, pin, enemy)
    {
      added := [];
      for j := 0 to |dirs|
        invariant added == SlidesUpTo(board, r, c, dirs, j, pin, enemy)
      {
        // A pin that does not run along the direction forbids every step of its walk.
        if PinAllowsLine(pin, dirs[j]) {
          var walk := SlideWalk(board, r, c, dirs[j], enemy);
          added := added + walk;
        }
      }
    }

    /** getRookMoves: a queen keeps its pin record for the bishop pass to remove. */
    method GetRookMoves(r: Coord, c: Coord, moves: seq<Move>) returns (movesOut: seq<Move>)
      modifies this`pins
      ensures var p := RookPass(board, whiteToMove, old(pins), r, c);
        movesOut == moves + p.0 && pins == p.1
    {
      var pin := LookUpPin(r, c, !IsKind(board[r][c], Queen));
      var enemy := if whiteToMove then Black else White;
      var added := AppendSlides(r, c, RookDirections, pin, enemy);
      movesOut := moves + added;
    }

    /** getBishopMoves. */
    method GetBishopMoves(r: Coord, c: Coord, moves: seq<Move>) returns (movesOut: seq<Move>)
      modifies this`pins
      ensures var p := BishopPass(board, whiteToMove, old(pins), r, c);
        movesOut == moves + p.0 && pins == p.1
    {
      var pin := LookUpPin(r, c, true);
      var enemy := if whiteToMove then Black else White;
      var added := AppendSlides(r, c, BishopDirections, pin, enemy);
      movesOut := moves + added;
    }

    /** getQueenMoves: the bishop pass, then the rook pass. */
    method GetQueenMoves(r: Coord, c: Coord, moves: seq<Move>) returns (movesOut: seq<Move>)
      modifies this`pins
      ensures var p := QueenPass(board, whiteToMove, old(pins), r, c);
        movesOut == moves + p.0 && pins == p.1
    {
      movesOut := GetBishopMoves(r, c, moves);
      movesOut := GetRookMoves(r, c, movesOut);
    }

    /** getKnightMoves: a pinned knight emits nothing. */
    method GetKnightMoves(r: Coord, c: Coord, moves: seq<Move>) returns (movesOut: seq<Move>)
      modifies this`pins
      ensures var g := KnightMoves(old(Snapshot()), r, c);
        Snapshot() == g.state && movesOut == moves + g.moves
    {
      var pin := LookUpPin(r, c, true);
      var friendly := if whiteToMove then White else Black;
      var added := KnightJumpMoves(r, c, pin.Some?, friendly);
      movesOut := moves + added;
    }

    /** The loop over the eight knight jumps. */
    method KnightJumpMoves(r: Coord, c: Coord, piecePinned: bool, friendly: Color) returns (added: seq<Move>)
      ensures added == JumpsUpTo(board, r, c, 8, piecePinned, friendly)
    {
      added := [];
      for i := 0 to 8
        invariant added == JumpsUpTo(board, r, c, i, piecePinned, friendly)
      {
        var endRow := r + KnightJumps[i].0;
        var endCol := c + KnightJumps[i].1;
        if OnBoard(endRow, endCol) {
          if !piecePinned {
            var endSquare := board[endRow][endCol];
            if !IsColor(endSquare, friendly) {
              added := added + [NewMove(Sq(r, c), Sq(endRow, endCol), board, false, false)];
            }
          }
        }
      }
    }

    /** One pass of the step loop of getKingMoves: the king cache is moved to the target, the
        scan decides, and the cache is put back on (r, c). */
    method ProbeKingStep(r: Coord, c: Coord, k: int) returns (added: seq<Move>)
      requires 0 <= k < 8
      modifies this`whiteKingLocation, this`blackKingLocation
      ensures var g := KingStep(old(Snapshot()), r, c, k);
        Snapshot() == g.state && added == g.moves
    {
      var friendly := if whiteToMove then White else Black;
      var endRow := r + KingSteps[k].0;
      var endCol := c + KingSteps[k].1;
      added := [];
      if OnBoard(endRow, endCol) {
        var endSquare := board[endRow][endCol];
        if !IsColor(endSquare, friendly) {
          PlaceKing(friendly, Sq(endRow, endCol));
          var inCheckFound, _, _ := CheckForPinsAndChecks();
          if !inCheckFound {
            added := [NewMove(Sq(r, c), Sq(endRow, endCol), board, false, false)];
          }
          PlaceKing(friendly, Sq(r, c));
        }
      }
    }

    /** Sets the king cache of `friendly`'s side. */
    method PlaceKing(friendly: Color, to: Cell)
      modifies this`whiteKingLocation, this`blackKingLocation
      ensures whiteKingLocation == if friendly == White then to else old(whiteKingLocation)
      ensures blackKingLocation == if friendly == White then old(blackKingLocation) else to
    {
      if friendly == White {
        whiteKingLocation := to;
      } else {
        blackKingLocation := to;
      }
    }

    /** getKingMoves: the eight steps, then getCastleMoves. */
    method GetKingMoves(r: Coord, c: Coord, moves: seq<Move>) returns (movesOut: seq<Move>, ok: bool)
      modifies this`whiteKingLocation, this`blackKingLocation
      ensures var g := KingMoves(old(Snapshot()), r, c);
        Snapshot() == g.state && movesOut == moves + g.moves && ok == g.ok
    {
      ghost var s := Snapshot();
      var friendly := if whiteToMove then White else Black;
      var added := KingStepMoves(r, c);
      CastleMovesScanOnly(s, Snapshot(), r, c, friendly);
      movesOut, ok := GetCastleMoves(r, c, moves + added, friendly);
    }

    /** The step loop of getKingMoves. */
    method KingStepMoves(r: Coord, c: Coord) returns (added: seq<Move>)
      modifies this`whiteKingLocation, this`blackKingLocation
      ensures var g := KingStepsUpTo(old(Snapshot()), r, c, 8);
        Snapshot() == g.state && added == g.moves
    {
      ghost var s := Snapshot();
      added := [];
      for i := 0 to 8
        invariant var g := KingStepsUpTo(s, r, c, i);
          Snapshot() == g.state && added == g.moves
      {
        var step := ProbeKingStep(r, c, i);
        added := added + step;
      }
    }

    /** getCastleMoves: nothing from an attacked square; otherwise each side whose right the
        player still holds. */
    method GetCastleMoves(r: Coord, c: Coord, moves: seq<Move>, friendly: Color) returns (movesOut: seq<Move>, ok: bool)
      ensures var cm := CastleMoves(Snapshot(), r, c, friendly);
        movesOut == moves + cm.0 && ok == cm.1
    {
      var inCheckNow := SquareUnderAttack(r, c, friendly);
      if inCheckNow {
        return moves, true;
      }
      movesOut, ok := moves, true;
      if (whiteToMove && whiteCastleKingside) || (!whiteToMove && blackCastleKingside) {
        movesOut, ok := GetKingsideCastleMoves(r, c, movesOut, friendly);
        if !ok {
          return moves, false;
        }
      }
      if (whiteToMove && whiteCastleQueenside) || (!whiteToMove && blackCastleQueenside) {
        movesOut, ok := GetQueensideCastleMoves(r, c, movesOut, friendly);
      }
    }

    /** getKingsideCastleMoves; false where a tested column is past 7. */
    method GetKingsideCastleMoves(r: Coord, c: Coord, moves: seq<Move>, friendly: Color) returns (movesOut: seq<Move>, ok: bool)
      ensures var km := KingsideCastleMoves(board, r, c, friendly);
        movesOut == moves + km.0 && ok == km.1
    {
      movesOut := moves;
      if c + 1 > 7 {
        return moves, false;
      }
      if board[r][c + 1] != Empty {
        return moves, true;
      }
      if c + 2 > 7 {
        return moves, false;
      }
      if board[r][c + 2] != Empty {
        return moves, true;
      }
      var attacked1 := SquareUnderAttack(r, c + 1, friendly);
      if attacked1 {
        return moves, true;
      }
      var attacked2 := SquareUnderAttack(r, c + 2, friendly);
      if attacked2 {
        return moves, true;
      }
      return moves + [NewMove(Sq(r, c), Sq(r, c + 2), board, false, true)], true;
    }

    /** getQueensideCastleMoves; false where a tested column is negative. */
    method GetQueensideCastleMoves(r: Coord, c: Coord, moves: seq<Move>, friendly: Color) returns (movesOut: seq<Move>, ok: bool)
      ensures var qm := QueensideCastleMoves(board, r, c, friendly);
        movesOut == moves + qm.0 && ok == qm.1
    {
      if c - 1 < 0 {
        return moves, false;
      }
      if board[r][c - 1] != Empty {
        return moves, true;
      }
      if c - 2 < 0 {
        return moves, false;
      }
      if board[r][c - 2] != Empty {
        return moves, true;
      }
      if c - 3 < 0 {
        return moves, false;
      }
      if board[r][c - 3] != Empty {
        return moves, true;
      }
      var attacked1 := SquareUnderAttack(r, c - 1, friendly);
      if attacked1 {
        return moves, true;
      }
      var attacked2 := SquareUnderAttack(r, c - 2, friendly);
      if attacked2 {
        return moves, true;
      }
      return moves + [NewMove(Sq(r, c), Sq(r, c - 2), board, false, true)], true;
    }

    // ----- getAllPossibleMoves -----

    /** The moveMapping dispatch of getAllPossibleMoves on the kind of the piece on (r, c). */
    method GetPieceMoves(r: Coord, c: Coord, moves: seq<Move>) returns (movesOut: seq<Move>, ok: bool)
      requires board[r][c].Occupied?
      modifies this`pins, this`whiteKingLocation, this`blackKingLocation
      ensures var g := PieceMoves(old(Snapshot()), r, c);
        Snapshot() == g.state && movesOut == moves + g.moves && ok == g.ok
    {
      ok := true;
      match board[r][c].kind
      case Pawn => movesOut, ok := GetPawnMoves(r, c, moves);
      case Rook => movesOut := GetRookMoves(r, c, moves);
      case Knight => movesOut := GetKnightMoves(r, c, moves);
      case Bishop => movesOut := GetBishopMoves(r, c, moves);
      case Queen => movesOut := GetQueenMoves(r, c, moves);
      case King => movesOut, ok := GetKingMoves(r, c, moves);
    }

    /** getAllPossibleMoves: every piece of the side to move, in row-major order; false as
        soon as one generator fails. */
    method GetAllPossibleMoves() returns (moves: seq<Move>, ok: bool)
      modifies this`pins, this`whiteKingLocation, this`blackKingLocation
      ensures var g := AllMoves(old(Snapshot()));
        Snapshot() == g.state && moves == g.moves && ok == g.ok
    {
      ghost var s := Snapshot();
      moves, ok := [], true;
      for r := 0 to 8
        invariant RowsUpTo(s, r) == Gen(Snapshot(), moves, true)
      {
        ghost var g := Gen(Snapshot(), moves, true);
        moves, ok := ScanRow(g, r, moves);
        if !ok {
          RowsStopped(s, r + 1, 8);
          return;
        }
      }
    }

    /** The inner loop of getAllPossibleMoves over the columns of row r, continuing g. */
    method ScanRow(ghost g: Gen, r: Coord, movesIn: seq<Move>) returns (moves: seq<Move>, ok: bool)
      requires g == Gen(Snapshot(), movesIn, true)
      modifies this`pins, this`whiteKingLocation, this`blackKingLocation
      ensures RowScan(g, r, 8) == Gen(Snapshot(), moves, ok)
    {
      moves, ok := movesIn, true;
      for c := 0 to 8
        invariant RowScan(g, r, c) == Gen(Snapshot(), moves, true)
      {
        var friendly := if whiteToMove then White else Black;
        if IsColor(board[r][c], friendly) {
          moves, ok := GetPieceMoves(r, c, moves);
          if !ok {
            RowScanStopped(g, r, c + 1, 8);
            return;
          }
        }
      }
    }

    // ----- getValidMoves -----

    /** getValidMoves: the scan, the candidate moves, then the checkmate / stalemate flags. */
    method GetValidMoves() returns (moves: seq<Move>, ok: bool)
      modifies this`inCheck, this`pins, this`checks, this`whiteKingLocation, this`blackKingLocation
      modifies this`checkmate, this`stalemate
      ensures var g := ValidMoves(old(Snapshot()));
        Snapshot() == g.state && moves == g.moves && ok == g.ok
    {
      StoreScan();
      moves, ok := GetCandidateMoves();
      if ok {
        SetVerdict(|moves| == 0);
      }
    }

    /** The first line of getValidMoves: the scan's results stored in the fields. */
    method StoreScan()
      modifies this`inCheck, this`pins, this`checks
      ensures Snapshot() == Scanned(old(Snapshot()))
    {
      inCheck, pins, checks := CheckForPinsAndChecks();
    }

    /** The moves of getValidMoves before the flags: all moves, the single-check filter, or
        the king's moves under a double check. */
    method GetCandidateMoves() returns (moves: seq<Move>, ok: bool)
      modifies this`pins, this`whiteKingLocation, this`blackKingLocation
      ensures var g := CandidateMoves(old(Snapshot()));
        Snapshot() == g.state && moves == g.moves && ok == g.ok
    {
      var king := KingLocation();
      if !inCheck {
        moves, ok := GetAllPossibleMoves();
      } else if |checks| == 1 {
        var check := checks[0];
        moves, ok := GetAllPossibleMoves();
        if !ok {
          return;
        }
        var validSquares := GetValidSquares(king, check);
        moves := FilterEvasions(moves, validSquares);
      } else {
        moves, ok := GetKingMoves(king.row, king.col, []);
      }
    }

    /** The squares a non-king move may end on under the single check `check`: the checking
        knight's square, or the line from the king up to the checking piece. */
    method GetValidSquares(king: Cell, check: Ray) returns (validSquares: seq<Square>)
      ensures validSquares == ValidSquares(board, king, check)
    {
      if IsKind(board[check.row][check.col], Knight) {
        return [Sq(check.row, check.col)];
      }
      validSquares := CheckLine(king, check);
    }

    /** The loop of getValidMoves collecting the squares from the king along the check's
        direction, up to and including the checking piece. */
    static method CheckLine(king: Cell, check: Ray) returns (validSquares: seq<Square>)
      ensures validSquares == BlockSquares(king, check, 1)
    {
      validSquares := [];
      var i := 1;
      var reached := false;
      while i < 8 && !reached
        invariant 1 <= i <= 8
        invariant BlockSquares(king, check, 1) == validSquares + (if reached then [] else BlockSquares(king, check, i))
      {
        var validSquare := RayPoint(king, check, i);
        BlockSquaresNext(king, check, i);
        reached := validSquare.row == check.row && validSquare.col == check.col;
        ghost var rest := if reached then [] else BlockSquares(king, check, i + 1);
        assert validSquares + ([validSquare] + rest) == (validSquares + [validSquare]) + rest;
        validSquares := validSquares + [validSquare];
        i := i + 1;
      }
    }

    /** The backward filter loop of getValidMoves: a move that neither moves the king nor ends
        on a valid square is removed with list.remove. */
    static method FilterEvasions(moves: seq<Move>, validSquares: seq<Square>) returns (kept: seq<Move>)
      ensures kept == EvasionLoop(moves, validSquares, |moves| - 1)
    {
      kept := moves;
      var i := |moves| - 1;
      while i >= 0
        invariant -1 <= i < |kept|
        invariant EvasionLoop(moves, validSquares, |moves| - 1) == EvasionLoop(kept, validSquares, i)
      {
        if !IsKind(kept[i].pieceMoved, King) && EndOf(kept[i]) !in validSquares {
          kept := RemoveFirstMove(kept, kept[i]);
        }
        i := i - 1;
      }
    }

    /** The end of getValidMoves: checkmate or stalemate when no move was found, both cleared
        otherwise. */
    method SetVerdict(none: bool)
      modifies this`checkmate, this`stalemate
      ensures Snapshot() == Verdict(old(Snapshot()), none)
    {
      if none {
        if inCheck {
          checkmate := true;
        } else {
          stalemate := true;
        }
      } else {
        checkmate := false;
        stalemate := false;
      }
    }
  }
}
