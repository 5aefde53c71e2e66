// The GameState class of the second engine (ChessEngine.py): the fields the source updates in
// place, and each method proved to compute exactly the state transition or move list that the
// functions of LegacyState, LegacyScan and LegacyMoves specify. Where the source fails (a board
// index outside 0..7, an empty pin entry read as a tuple, a history popped empty) a method
// returns ok == false, as those functions do.

module LegacyEngine {
  import opened Wrappers
  import opened Pieces
  import opened Moves
  import opened LegacyState
  import opened LegacyMoves
  import EngineState
  import EngineScan
  import EngineMoves
  import EngineMoveFacts
  import LegacyScan
  import LegacyMoveFacts
  import Engine

  /** The game: board, side to move, history, king caches, last scan and castling flags. */
  class GameState {
    var board: Board
    var whiteToMove: bool
    var moveLog: seq<Move>
    var whiteKingPosition: Cell
    var blackKingPosition: Cell
    var isKingInCheck: bool
    var pins: seq<Option<Ray>>
    var checks: seq<Ray>
    var checkmate: bool
    var stalemate: bool
    var enpassantPossible: Option<Cell>
    var enPassantHistory: seq<Option<Cell>>
    var whiteCanCastleKingSide: bool
    var blackCanCastleKingSide: bool
    var whiteCanCastleQueenSide: bool
    var blackCanCastleQueenSide: bool
    var castlingHistory: seq<CastleRights>

    /** The four castling flags as one value. */
    function Rights(): CastleRights
      reads this
    {
      CastleRights(whiteCanCastleKingSide, blackCanCastleKingSide, whiteCanCastleQueenSide, blackCanCastleQueenSide)
    }

    /** The object's fields as a State value. */
    function Snapshot(): State
      reads this
    {
      State(board, whiteToMove, moveLog, whiteKingPosition, blackKingPosition, isKingInCheck, pins, checks,
            checkmate, stalemate, enpassantPossible, enPassantHistory, Rights(), castlingHistory)
    }

    /** The king cache of the side to move. */
    function KingPosition(): Cell
      reads this
    {
      if whiteToMove then whiteKingPosition else blackKingPosition
    }

    constructor()
      ensures Snapshot() == Initial()
    {
      board := InitialBoard();
      whiteToMove := true;
      moveLog := [];
      whiteKingPosition := Sq(7, 4);
      blackKingPosition := Sq(0, 4);
      isKingInCheck := false;
      pins := [];
      checks := [];
      checkmate := false;
      stalemate := false;
      enpassantPossible := None;
      enPassantHistory := [None];
      whiteCanCastleKingSide := true;
      blackCanCastleKingSide := true;
      whiteCanCastleQueenSide := true;
      blackCanCastleQueenSide := true;
      castlingHistory := [CastleRights(true, true, true, true)];
    }

    // ----- make_move / undo_move / update_castle_rights -----

    /** make_move, with the promotion key the player presses as a parameter, in the steps of the
        source: the pieces, the en-passant target, the castling rights, then the rook. */
    method MakeMove(move: Move, promotion: PromotionKind) returns (ok: bool)
      requires move.isPawnPromotion ==> move.pieceMoved.Occupied?
      modifies this
      ensures (Snapshot(), ok) == LegacyState.MakeMove(old(Snapshot()), move, promotion)
    {
      MovePieces(move, promotion);
      PushEnPassant(move);
      PushRights(move);
      ok := PutRookOut(move);
    }

    /** The start of make_move: move the piece, log the move, pass the turn, follow a king,
        promote, and take a pawn en passant. */
    method MovePieces(move: Move, promotion: PromotionKind)
      requires move.isPawnPromotion ==> move.pieceMoved.Occupied?
      modifies this`board, this`moveLog, this`whiteToMove, this`whiteKingPosition, this`blackKingPosition
      ensures Snapshot() == LegacyState.MovePieces(old(Snapshot()), move, promotion)
    {
      MoveSquares(move, promotion);
      moveLog := moveLog + [move];
      PassTurn(move.pieceMoved, EndOf(move));
    }

    /** The board writes of make_move before the rook: the piece leaves its start square for its
        end square, a promoting pawn becomes the chosen piece, an en-passant capture empties the
        square beside the start. */
    method MoveSquares(move: Move, promotion: PromotionKind)
      requires move.isPawnPromotion ==> move.pieceMoved.Occupied?
      modifies this`board
      ensures board == EngineState.MovedBoard(old(board), move, promotion)
    {
      board := Put(board, move.endRow, move.endCol, move.pieceMoved);
      board := Put(board, move.startRow, move.startCol, Empty);
      if move.isPawnPromotion {
        board := Put(board, move.endRow, move.endCol, Occupied(move.pieceMoved.color, promotion));
      }
      if move.isEnpassantMove {
        board := Put(board, move.startRow, move.endCol, Empty);
      }
    }

    /** Hand the turn over; a king that moved (to or back to `to`) takes its cached square along. */
    method PassTurn(moved: Piece, to: Cell)
      modifies this`whiteToMove, this`whiteKingPosition, this`blackKingPosition
      ensures whiteToMove == !old(whiteToMove)
      ensures whiteKingPosition == if moved == Occupied(White, King) then to else old(whiteKingPosition)
      ensures blackKingPosition == if moved == Occupied(Black, King) then to else old(blackKingPosition)
    {
      whiteToMove := !whiteToMove;
      if moved == Occupied(White, King) {
        whiteKingPosition := to;
      } else if moved == Occupied(Black, King) {
        blackKingPosition := to;
      }
    }

    /** Set the en-passant target (the square a two-row pawn move skipped) and log it. */
    method PushEnPassant(move: Move)
      modifies this`enpassantPossible, this`enPassantHistory
      ensures Snapshot() == LegacyState.PushEnPassant(old(Snapshot()), move)
    {
      if IsKind(move.pieceMoved, Pawn) && (move.startRow - move.endRow == 2 || move.endRow - move.startRow == 2) {
        enpassantPossible := Some(Sq((move.startRow + move.endRow) / 2, move.startCol));
      } else {
        enpassantPossible := None;
      }
      enPassantHistory := enPassantHistory + [enpassantPossible];
    }

    /** Update the castling flags and log them. */
    method PushRights(move: Move)
      modifies this`whiteCanCastleKingSide, this`whiteCanCastleQueenSide, this`blackCanCastleKingSide,
               this`blackCanCastleQueenSide, this`castlingHistory
      ensures Snapshot() == LegacyState.PushRights(old(Snapshot()), move)
    {
      UpdateCastleRights(move);
      castlingHistory := castlingHistory + [Rights()];
    }

    /** Jump the rook of a castling move next to the king. */
    method PutRookOut(move: Move) returns (ok: bool)
      modifies this`board
      ensures (Snapshot(), ok) == LegacyState.PutRookOut(old(Snapshot()), move)
    {
      if move.castle {
        if move.endCol - move.startCol == 2 {
          if move.endCol + 1 > 7 {
            return false;
          }
          board := Put(board, move.endRow, move.endCol - 1, board[move.endRow][move.endCol + 1]);
          board := Put(board, move.endRow, move.endCol + 1, Empty);
        } else {
          if move.endCol - 2 < 0 || move.endCol + 1 > 7 {
            return false;
          }
          board := Put(board, move.endRow, move.endCol + 1, board[move.endRow][move.endCol - 2]);
          board := Put(board, move.endRow, move.endCol - 2, Empty);
        }
      }
      return true;
    }

    /** update_castle_rights: the castling flags change as the function of the same name says. */
    method UpdateCastleRights(move: Move)
      modifies this`whiteCanCastleKingSide, this`whiteCanCastleQueenSide, this`blackCanCastleKingSide, this`blackCanCastleQueenSide
      ensures Rights() == LegacyState.UpdateCastleRights(old(Rights()), move)
    {
      var code := Code(move.pieceMoved);
      if code == "wK" {
        whiteCanCastleQueenSide := false;
        whiteCanCastleKingSide := false;
      } else if code == "bK" {
        blackCanCastleQueenSide := false;
        blackCanCastleKingSide := false;
      } else if code == "wR" {
        if move.startRow == 7 {
          if move.startCol == 0 {
            whiteCanCastleQueenSide := false;
          } else if move.startCol == 7 {
            whiteCanCastleKingSide := false;
          }
        }
      } else if code == "bR" {
        if move.startRow == 0 {
          if move.startCol == 0 {
            blackCanCastleQueenSide := false;
          } else if move.startCol == 7 {
            blackCanCastleKingSide := false;
          }
        }
      }
    }

    /** undo_move: nothing on an empty log; otherwise the pieces, then the histories (the
        en-passant one only for an en-passant capture), then the castling rook and the
        end-of-game flags. */
    method UndoMove() returns (ok: bool)
      modifies this
      ensures (Snapshot(), ok) == LegacyState.UndoMove(old(Snapshot()))
    {
      ok := true;
      if |moveLog| != 0 {
        var move := moveLog[|moveLog| - 1];
        UndoPieces(move);
        ok := UndoHistory(move);
      }
    }

    /** The history part of undo_move, stopping at the first step that fails. */
    method UndoHistory(move: Move) returns (ok: bool)
      modifies this
      ensures (Snapshot(), ok) == LegacyState.UndoHistory(old(Snapshot()), move)
    {
      if move.isEnpassantMove {
        ok := PopEnPassantHistory();
        if !ok {
          return;
        }
      }
      ok := PopCastlingHistory();
      if !ok {
        return;
      }
      ok := PutRookBack(move);
    }

    /** The start of undo_move: pop the move, restore its squares (and the pawn an en-passant
        capture took), hand back the turn and the king's cached square. */
    method UndoPieces(move: Move)
      requires |moveLog| > 0 && move == moveLog[|moveLog| - 1]
      modifies this`moveLog, this`board, this`whiteToMove, this`whiteKingPosition, this`blackKingPosition
      ensures Snapshot() == LegacyState.UndoPieces(old(Snapshot()))
    {
      moveLog := moveLog[..|moveLog| - 1];
      RestoreSquares(move);
      PassTurn(move.pieceMoved, StartOf(move));
    }

    /** Put the moved piece and the captured one back (for an en-passant capture, the captured
        pawn beside the start square). */
    method RestoreSquares(move: Move)
      modifies this`board
      ensures board == EngineState.RestoredBoard(old(board), move)
    {
      board := Put(board, move.startRow, move.startCol, move.pieceMoved);
      board := Put(board, move.endRow, move.endCol, move.pieceCaptured);
      if move.isEnpassantMove {
        board := Put(board, move.endRow, move.endCol, Empty);
        board := Put(board, move.startRow, move.endCol, move.pieceCaptured);
      }
    }

    /** Pop the en-passant history and restore the target from its new last entry. */
    method PopEnPassantHistory() returns (ok: bool)
      modifies this`enPassantHistory, this`enpassantPossible
      ensures (Snapshot(), ok) == LegacyState.PopEnPassantLog(old(Snapshot()))
    {
      if |enPassantHistory| == 0 {
        return false;
      }
      enPassantHistory := enPassantHistory[..|enPassantHistory| - 1];
      if |enPassantHistory| == 0 {
        return false;
      }
      enpassantPossible := enPassantHistory[|enPassantHistory| - 1];
      return true;
    }

    /** Pop the castling history and restore the four flags from its new last entry. */
    method PopCastlingHistory() returns (ok: bool)
      modifies this`castlingHistory, this`whiteCanCastleKingSide, this`blackCanCastleKingSide,
               this`whiteCanCastleQueenSide, this`blackCanCastleQueenSide
      ensures (Snapshot(), ok) == LegacyState.PopRightsLog(old(Snapshot()))
    {
      if |castlingHistory| == 0 {
        return false;
      }
      castlingHistory := castlingHistory[..|castlingHistory| - 1];
      if |castlingHistory| == 0 {
        return false;
      }
      var castleRights := castlingHistory[|castlingHistory| - 1];
      whiteCanCastleKingSide := castleRights.wks;
      blackCanCastleKingSide := castleRights.bks;
      whiteCanCastleQueenSide := castleRights.wqs;
      blackCanCastleQueenSide := castleRights.bqs;
      return true;
    }

    /** Move the rook of an undone castling move back to its corner, then clear the
        end-of-game flags. */
    method PutRookBack(move: Move) returns (ok: bool)
      modifies this`board, this`checkmate, this`stalemate
      ensures (Snapshot(), ok) == LegacyState.PutRookBack(old(Snapshot()), move)
    {
      if move.castle {
        if move.endCol - move.startCol == 2 {
          if move.endCol + 1 > 7 {
            return false;
          }
          board := Put(board, move.endRow, move.endCol + 1, board[move.endRow][move.endCol - 1]);
          board := Put(board, move.endRow, move.endCol - 1, Empty);
        } else {
          if move.endCol - 2 < 0 || move.endCol + 1 > 7 {
            return false;
          }
          board := Put(board, move.endRow, move.endCol - 2, board[move.endRow][move.endCol + 1]);
          board := Put(board, move.endRow, move.endCol + 1, Empty);
        }
      }
      checkmate := false;
      stalemate := false;
      return true;
    }

    // ----- the scans -----

    /** square_under_attack: walks the eight directions (skipping squares off the board and
        stopping at the first square on it), then the knight offsets, stopping at the first
        attacker found. */
    method SquareUnderAttack(r: int, c: int, friendly: Color) returns (attacked: bool)
      ensures attacked == LegacyScan.SquareUnderAttack(board, r, c, friendly)
    {
      var j := 0;
      while j < 8
        invariant 0 <= j <= 8
        invariant forall k | 0 <= k < j :: !LegacyScan.AttackAlong(board, r, c, friendly, k, 1)
      {
        var attack := AttackWalk(board, r, c, friendly, j);
        if attack {
          return true;
        }
        j := j + 1;
      }
      var k := 0;
      while k < 8
        invariant 0 <= k <= 8
        invariant forall n | 0 <= n < k :: !EngineScan.KnightThreat(board, r, c, friendly, n)
      {
        var endRow := r + KnightScan[k].0;
        var endCol := c + KnightScan[k].1;
        if OnBoard(endRow, endCol) {
          var endPiece := board[endRow][endCol];
          if IsColor(endPiece, Opponent(friendly)) && endPiece.kind == Knight {
            assert EngineScan.KnightThreat(board, r, c, friendly, k);
            return true;
          }
        }
        k := k + 1;
      }
      return false;
    }

    /** One direction of square_under_attack: squares off the board are skipped, and the first
        square on it ends the walk, with an attack when it holds an enemy piece that threatens
        along this direction at this distance. */
    static method AttackWalk(b: Board, r: int, c: int, friendly: Color, j: nat) returns (attack: bool)
      requires j < 8
      ensures attack == LegacyScan.AttackAlong(b, r, c, friendly, j, 1)
    {
      var d := Directions[j];
      var i := 1;
      while i < 8
        invariant 1 <= i <= 8
        invariant LegacyScan.AttackAlong(b, r, c, friendly, j, 1) == LegacyScan.AttackAlong(b, r, c, friendly, j, i)
      {
        var endRow := r + d.0 * i;
        var endCol := c + d.1 * i;
        if OnBoard(endRow, endCol) {
          var endPiece := b[endRow][endCol];
          if IsColor(endPiece, friendly) {
            return false;
          } else if IsColor(endPiece, Opponent(friendly)) {
            return Threatens(j, i, endPiece.kind, Opponent(friendly));
          } else {
            return false;
          }
        }
        i := i + 1;
      }
      return false;
    }

    /** check_for_pins_and_checks: empties the pin field, then scans from the cached king square
        of the side to move. */
    method CheckForPinsAndChecks() returns (inCheck: bool, pinsFound: seq<Option<Ray>>, checksFound: seq<Ray>)
      modifies this`pins
      ensures pins == []
      ensures var king := KingOf(old(Snapshot()));
        (inCheck, pinsFound, checksFound) == LegacyScan.PinsAndChecks(board, king.row, king.col, SideColor(whiteToMove))
    {
      pins := [];
      var friendly := SideColor(whiteToMove);
      var king := if whiteToMove then whiteKingPosition else blackKingPosition;
      var rayChecks, knightChecks;
      pinsFound, rayChecks := ScanLines(king.row, king.col, friendly);
      knightChecks := ScanKnights(king.row, king.col, friendly);
      checksFound := rayChecks + knightChecks;
      inCheck := |checksFound| > 0;
    }

    /** The eight directions of the pin scan, in order, collecting pin entries and checks. */
    method ScanLines(startRow: int, startCol: int, friendly: Color) returns (pinsFound: seq<Option<Ray>>, checksFound: seq<Ray>)
      ensures pinsFound == LegacyScan.PinsUpTo(board, startRow, startCol, friendly, 8)
      ensures checksFound == LegacyScan.RayChecksUpTo(board, startRow, startCol, friendly, 8)
    {
      pinsFound := [];
      checksFound := [];
      var j := 0;
      while j < 8
        invariant 0 <= j <= 8
        invariant pinsFound == LegacyScan.PinsUpTo(board, startRow, startCol, friendly, j)
        invariant checksFound == LegacyScan.RayChecksUpTo(board, startRow, startCol, friendly, j)
      {
        var finding := ScanDirection(startRow, startCol, friendly, j);
        match finding {
          case NoFinding =>
          case PinFinding(entry) =>
            pinsFound := pinsFound + [entry];
          case CheckFinding(check) =>
            checksFound := checksFound + [check];
        }
        j := j + 1;
      }
    }

    /** The knight offsets of the pin scan, in order, collecting knight checks. */
    method ScanKnights(startRow: int, startCol: int, friendly: Color) returns (checksFound: seq<Ray>)
      ensures checksFound == EngineScan.KnightChecksUpTo(board, startRow, startCol, friendly, 8)
    {
      var enemy := Opponent(friendly);
      checksFound := [];
      var k := 0;
      while k < 8
        invariant 0 <= k <= 8
        invariant checksFound == EngineScan.KnightChecksUpTo(board, startRow, startCol, friendly, k)
      {
        var m := KnightScan[k];
        var endRow := startRow + m.0;
        var endCol := startCol + m.1;
        if OnBoard(endRow, endCol) {
          var endPiece := board[endRow][endCol];
          if IsColor(endPiece, enemy) && endPiece.kind == Knight {
            checksFound := checksFound + [Ray(endRow, endCol, m.0, m.1)];
          }
        }
        k := k + 1;
      }
    }

    /** One direction of the pin scan, out from the king: the first own non-king piece becomes
        the possible pin, a second one ends the walk; an enemy piece that threatens along the
        line is a check when no own piece stands between, and one that does not records the
        possible pin (empty or not). */
    method ScanDirection(startRow: int, startCol: int, friendly: Color, j: int) returns (finding: LegacyScan.Finding)
      requires 0 <= j < 8
      ensures finding == LegacyScan.PinWalk(board, startRow, startCol, friendly, j, 1, None)
    {
      var enemy := Opponent(friendly);
      var d := Directions[j];
      var possiblePin: Option<Ray> := None;
      var i := 1;
      while i < 8
        invariant 1 <= i <= 8
        invariant LegacyScan.PinWalk(board, startRow, startCol, friendly, j, 1, None)
                  == LegacyScan.PinWalk(board, startRow, startCol, friendly, j, i, possiblePin)
      {
        var endRow := startRow + d.0 * i;
        var endCol := startCol + d.1 * i;
        if OnBoard(endRow, endCol) {
          var endPiece := board[endRow][endCol];
          if IsColor(endPiece, friendly) && endPiece.kind != King {
            if possiblePin == None {
              possiblePin := Some(Ray(endRow, endCol, d.0, d.1));
            } else {
              return LegacyScan.NoFinding;
            }
          } else if IsColor(endPiece, enemy) {
            if Threatens(j, i, endPiece.kind, enemy) {
              if possiblePin == None {
                return LegacyScan.CheckFinding(Ray(endRow, endCol, d.0, d.1));
              }
              return LegacyScan.NoFinding;
            } else {
              return LegacyScan.PinFinding(possiblePin);
            }
          } else {
            return LegacyScan.NoFinding;
          }
        } else {
          return LegacyScan.NoFinding;
        }
        i := i + 1;
      }
      return LegacyScan.NoFinding;
    }

    // ----- move generation -----

    /** The pin lookup that opens a generator: the backward loop over the pin list finds the last
        record naming (r, c) and, when consume is set, removes it with list.remove; an empty
        entry met first breaks the lookup, and the list is then left as it was. */
    method LookUpPin(r: int, c: int, consume: bool) returns (lookup: Lookup, pin: Option<Ray>)
      modifies this`pins
      ensures lookup == LookupPin(old(pins), r, c, |old(pins)|)
      ensures pin == PinOf(old(pins), lookup)
      ensures pins == if consume then Consume(old(pins), lookup) else old(pins)
    {
      pin := None;
      var i := |pins| - 1;
      while i >= 0
        invariant -1 <= i < |pins| && pins == old(pins)
        invariant LookupPin(pins, r, c, |pins|) == LookupPin(pins, r, c, i + 1)
      {
        if pins[i].None? {
          return Broken, None;
        }
        if pins[i].value.row == r && pins[i].value.col == c {
          lookup, pin := PinnedAt(i), pins[i];
          if consume {
            pins := RemoveFirst(pins, pins[i]);
          }
          return;
        }
        i := i - 1;
      }
      lookup := Unpinned;
    }

    /** pawn, appending to moves; false where the lookup breaks, the square ahead is off the
        board, or an en-passant capture onto column 8 reads the board. */
    method GetPawnMoves(r: Coord, c: Coord, moves: seq<Move>) returns (movesOut: seq<Move>, ok: bool)
      modifies this`pins
      ensures var g := PawnMoves(old(Snapshot()), r, c);
        Snapshot() == g.state && movesOut == moves + g.moves && ok == g.ok
    {
      var lookup, pin := LookUpPin(r, c, true);
      if lookup.Broken? {
        return moves, false;
      }
      var moveAmount := if whiteToMove then -1 else 1;
      if !OnBoard(r + moveAmount, c) {
        return moves, false;
      }
      var pushes := PawnPushMoves(r, c, pin);
      var captures;
      captures, ok := PawnCaptureMoves(r, c, pin);
      movesOut := moves + (pushes + captures);
    }

    /** The one-square advance where the pin allows it, and the two-square advance from the
        start row, which the source tests neither against the pin nor against the square
        between. */
    method PawnPushMoves(r: Coord, c: Coord, pin: Option<Ray>) returns (added: seq<Move>)
      requires OnBoard(r + Forward(whiteToMove), c)
      ensures added == PawnPushes(board, whiteToMove, r, c, pin)
    {
      var moveAmount := if whiteToMove then -1 else 1;
      var startRow := if whiteToMove then 6 else 1;
      added := [];
      if board[r + moveAmount][c] == Empty {
        if EngineMoves.PinAllows(pin, (moveAmount, 0)) {
          added := added + [NewLegacyMove(Sq(r, c), Sq(r + moveAmount, c), board, false, false)];
        }
      }
      if r == startRow && board[r + 2 * moveAmount][c] == Empty {
        added := added + [NewLegacyMove(Sq(r, c), Sq(r + 2 * moveAmount, c), board, false, false)];
      }
    }

    /** The capture code of pawn, all of it under the test on the left diagonal. */
    method PawnCaptureMoves(r: Coord, c: Coord, pin: Option<Ray>) returns (added: seq<Move>, ok: bool)
      requires OnBoard(r + Forward(whiteToMove), c)
      ensures (added, ok) == PawnCaptures(board, whiteToMove, enpassantPossible, KingPosition(), r, c, pin)
    {
      var moveAmount := if whiteToMove then -1 else 1;
      var enemy := if whiteToMove then Black else White;
      added, ok := [], true;
      if c - 1 >= 0 && EngineMoves.PinAllows(pin, (moveAmount, -1)) {
        if pin.Some? && (pin.value.dRow, pin.value.dCol) == (moveAmount, -1) {
          if IsColor(board[r + moveAmount][c - 1], enemy) {
            added := added + [NewLegacyMove(Sq(r, c), Sq(r + moveAmount, c - 1), board, false, false)];
          }
        }
        assert added == (if pin.Some? && IsColor(board[r + moveAmount][c - 1], enemy) then [NewLegacyMove(Sq(r, c), Sq(r + moveAmount, c - 1), board, false, false)] else []);
        if enpassantPossible == Some(Sq(r + moveAmount, c - 1)) {
          added := added + [NewLegacyMove(Sq(r, c), Sq(r + moveAmount, c - 1), board, true, false)];
          var king := KingPosition();
          if king.row == r {
            added, ok := EnPassantRowMoves(r, c, pin, king, enemy, added);
          }
        }
      }
    }

    /** The part of pawn run with the en-passant target on the left diagonal and the king on the
        pawn's row: the first row test and the plain move it guards, the plain right capture,
        then the second row test and the en-passant move onto the right diagonal it guards. */
    method EnPassantRowMoves(r: Coord, c: Coord, pin: Option<Ray>, king: Cell, enemy: Color, addedIn: seq<Move>) returns (added: seq<Move>, ok: bool)
      requires 1 <= c && OnBoard(r + Forward(whiteToMove), c) && king.row == r
      requires enpassantPossible == Some(Sq(r + Forward(whiteToMove), c - 1))
      requires enemy == Opponent(SideColor(whiteToMove))
      ensures var ma := Forward(whiteToMove);
        var first := FirstFlags(board, r, c, king, enemy);
        var second := SecondFlags(board, r, c, king, enemy, first);
        var plain := if !first.0 || first.1 then [NewLegacyMove(Sq(r, c), Sq(r + ma, c - 1), board, false, false)] else [];
        var right := if c + 1 <= 7 && EngineMoves.PinAllows(pin, (ma, 1)) && IsColor(board[r + ma][c + 1], enemy)
                     then [NewLegacyMove(Sq(r, c), Sq(r + ma, c + 1), board, false, false)] else [];
        (second.0 && !second.1 ==> added == addedIn + plain + right && ok)
        && (!(second.0 && !second.1) && c + 1 > 7 ==> added == addedIn + plain + right && !ok)
        && (!(second.0 && !second.1) && c + 1 <= 7 ==>
              added == addedIn + plain + right + [NewLegacyMove(Sq(r, c), Sq(r + ma, c + 1), board, true, false)] && ok)
    {
      var moveAmount := if whiteToMove then -1 else 1;
      var attacking, blocking;
      if king.col < c {
        attacking, blocking := RowTest(r, enemy, king.col + 1, c - 1, c + 1, 8, true, false, false);
      } else {
        attacking, blocking := RowTest(r, enemy, c + 2, king.col, 0, c, true, false, false);
      }
      added := addedIn;
      if !attacking || blocking {
        added := added + [NewLegacyMove(Sq(r, c), Sq(r + moveAmount, c - 1), board, false, false)];
      }
      if c + 1 <= 7 {
        if EngineMoves.PinAllows(pin, (moveAmount, 1)) {
          if IsColor(board[r + moveAmount][c + 1], enemy) {
            added := added + [NewLegacyMove(Sq(r, c), Sq(r + moveAmount, c + 1), board, false, false)];
          }
          // The target is the left diagonal square, so this reset never happens.
          if enpassantPossible == Some(Sq(r + moveAmount, c + 1)) {
            attacking, blocking := false, false;
          }
        }
      }
      if king.col < c {
        attacking, blocking := RowTest(r, enemy, king.col + 1, c, c + 2, 8, false, attacking, blocking);
      } else {
        attacking, blocking := RowTest(r, enemy, c + 2, king.col, 0, c, false, attacking, blocking);
      }
      ok := true;
      if !attacking || blocking {
        if c + 1 > 7 {
          return added, false;
        }
        added := added + [NewLegacyMove(Sq(r, c), Sq(r + moveAmount, c + 1), board, true, false)];
      }
    }

    /** One row test of pawn on row r: any piece in the inside columns [iLo, iHi) blocks; in the
        outside columns [oLo, oHi) an enemy rook or queen attacks, and any other piece blocks
        when bystandersBlock is set (the second test's other branch repeats the attacking
        condition instead). The flags only ever become true, so the order of the columns, which
        the source walks downwards when the king is to the right, does not matter. */
    method RowTest(r: Coord, enemy: Color, iLo: int, iHi: int, oLo: int, oHi: int, bystandersBlock: bool,
                   attackingIn: bool, blockingIn: bool) returns (attacking: bool, blocking: bool)
      requires 0 <= iLo && iHi <= 8 && 0 <= oLo && oHi <= 8
      ensures attacking == (attackingIn || AttackerIn(board, r, enemy, oLo, oHi))
      ensures blocking == (blockingIn || OccupiedIn(board, r, iLo, iHi) || (bystandersBlock && BystanderIn(board, r, enemy, oLo, oHi)))
    {
      attacking, blocking := attackingIn, blockingIn;
      var i := iLo;
      while i < iHi
        invariant iLo <= i && (i <= iHi || i == iLo)
        invariant blocking == (blockingIn || exists k | iLo <= k < i :: board[r][k] != Empty)
      {
        if board[r][i] != Empty {
          blocking := true;
        }
        i := i + 1;
      }
      var insideBlocks := blocking;
      i := oLo;
      while i < oHi
        invariant oLo <= i && (i <= oHi || i == oLo)
        invariant attacking == (attackingIn || exists k | oLo <= k < i :: EngineMoves.RookOrQueenOf(board[r][k], enemy))
        invariant blocking == (insideBlocks || (bystandersBlock && exists k | oLo <= k < i :: board[r][k] != Empty && !EngineMoves.RookOrQueenOf(board[r][k], enemy)))
      {
        var square := board[r][i];
        if IsColor(square, enemy) && (square.kind == Rook || square.kind == Queen) {
          attacking := true;
        } else if bystandersBlock && square != Empty {
          blocking := true;
        }
        i := i + 1;
      }
    }

    /** One direction of rook / bishop: from distance 1 on, squares off the board are skipped; on
        the board a direction the pin does not allow ends the walk, an enemy piece is appended
        and the walk goes on, an empty square is appended and ends it, an own piece ends it. */
    static method SlideWalk(b: Board, r: Coord, c: Coord, d: (int, int), pin: Option<Ray>, enemy: Color) returns (walk: seq<Move>)
      ensures walk == SlideFrom(b, r, c, d, 1, pin, enemy)
    {
      walk := [];
      var i := 1;
      var stop := false;
      while i < 8 && !stop
        invariant 1 <= i <= 8
        invariant (walk, stop) == LegacyMoveFacts.SlideUpTo(b, r, c, d, i, pin, enemy)
      {
        var step;
        step, stop := SlideStep(b, r, c, d, i, pin, enemy);
        walk := walk + step;
        i := i + 1;
      }
      LegacyMoveFacts.SlideSplit(b, r, c, d, i, pin, enemy);
      if !stop {
        assert walk + [] == walk;
      }
    }

    /** The body of the walk at distance i: the move it emits, if any, and whether it ends. */
    static method SlideStep(b: Board, r: Coord, c: Coord, d: (int, int), i: int, pin: Option<Ray>, enemy: Color) returns (step: seq<Move>, stop: bool)
      requires 1 <= i < 8
      ensures (step, stop) == LegacyMoves.SlideStepAt(b, r, c, d, i, pin, enemy)
    {
      var endRow := r + d.0 * i;
      var endCol := c + d.1 * i;
      if !OnBoard(endRow, endCol) {
        return [], false;
      }
      if !EngineMoves.PinAllowsLine(pin, d) {
        return [], true;
      }
      var endSquare := b[endRow][endCol];
      var m := NewLegacyMove(Sq(r, c), Sq(endRow, endCol), b, false, false);
      if IsColor(endSquare, enemy) {
        return [m], false;
      } else if endSquare == Empty {
        return [m], true;
      }
      return [], true;
    }

    /** The loop over the directions of a sliding piece. */
    method AppendSlides(r: Coord, c: Coord, dirs: seq<(int, int)>, pin: Option<Ray>, enemy: Color) returns (added: seq<Move>)
      ensures added == SlidesUpTo(board, r, c, dirs, |dirs|, pin, enemy)
    {
      added := [];
      for j := 0 to |dirs|
        invariant added == SlidesUpTo(board, r, c, dirs, j, pin, enemy)
      {
        var walk := SlideWalk(board, r, c, dirs[j], pin, enemy);
        added := added + walk;
      }
    }

    /** rook: a queen keeps its pin record for the bishop pass to remove; false where the
        lookup breaks. */
    method GetRookMoves(r: Coord, c: Coord, moves: seq<Move>) returns (movesOut: seq<Move>, ok: bool)
      modifies this`pins
      ensures var p := RookPass(board, whiteToMove, old(pins), r, c);
        movesOut == moves + p.0 && pins == p.1 && ok == p.2
    {
      var lookup, pin := LookUpPin(r, c, !IsKind(board[r][c], Queen));
      if lookup.Broken? {
        return moves, false;
      }
      var enemy := if whiteToMove then Black else White;
      var added := AppendSlides(r, c, RookDirections, pin, enemy);
      return moves + added, true;
    }

    /** bishop; false where the lookup breaks. */
    method GetBishopMoves(r: Coord, c: Coord, moves: seq<Move>) returns (movesOut: seq<Move>, ok: bool)
      modifies this`pins
      ensures var p := BishopPass(board, whiteToMove, old(pins), r, c);
        movesOut == moves + p.0 && pins == p.1 && ok == p.2
    {
      var lookup, pin := LookUpPin(r, c, true);
      if lookup.Broken? {
        return moves, false;
      }
      var enemy := if whiteToMove then Black else White;
      var added := AppendSlides(r, c, BishopDirections, pin, enemy);
      return moves + added, true;
    }

    /** queen: the bishop pass, then the rook pass. */
    method GetQueenMoves(r: Coord, c: Coord, moves: seq<Move>) returns (movesOut: seq<Move>, ok: bool)
      modifies this`pins
      ensures var p := QueenPass(board, whiteToMove, old(pins), r, c);
        movesOut == moves + p.0 && pins == p.1 && ok == p.2
    {
      ghost var p1 := BishopPass(board, whiteToMove, pins, r, c);
      movesOut, ok := GetBishopMoves(r, c, moves);
      if !ok {
        assert QueenPass(board, whiteToMove, old(pins), r, c) == p1;
        return;
      }
      ghost var p2 := RookPass(board, whiteToMove, pins, r, c);
      assert QueenPass(board, whiteToMove, old(pins), r, c) == (p1.0 + p2.0, p2.1, p2.2);
      assert movesOut + p2.0 == moves + (p1.0 + p2.0);
      movesOut, ok := GetRookMoves(r, c, movesOut);
    }

    /** knight: a pinned knight emits nothing; false where the lookup breaks. */
    method GetKnightMoves(r: Coord, c: Coord, moves: seq<Move>) returns (movesOut: seq<Move>, ok: bool)
      modifies this`pins
      ensures var g := KnightMoves(old(Snapshot()), r, c);
        Snapshot() == g.state && movesOut == moves + g.moves && ok == g.ok
    {
      var lookup, _ := LookUpPin(r, c, true);
      if lookup.Broken? {
        return moves, false;
      }
      var friendly := if whiteToMove then White else Black;
      var added := KnightJumpMoves(r, c, lookup.PinnedAt?, friendly);
      return moves + added, true;
    }

    /** The loop over the eight knight jumps. */
    method KnightJumpMoves(r: Coord, c: Coord, piecePinned: bool, friendly: Color) returns (added: seq<Move>)
      ensures added == JumpsUpTo(board, r, c, 8, piecePinned, friendly)
    {
      added := [];
      for i := 0 to 8
        invariant added == JumpsUpTo(board, r, c, i, piecePinned, friendly)
      {
        var endRow := r + KnightJumps[i].0;
        var endCol := c + KnightJumps[i].1;
        if OnBoard(endRow, endCol) {
          if !piecePinned {
            var endSquare := board[endRow][endCol];
            if !IsColor(endSquare, friendly) {
              added := added + [NewLegacyMove(Sq(r, c), Sq(endRow, endCol), board, false, false)];
            }
          }
        }
      }
    }

    /** One pass of the step loop of king, on an on-board target without an own piece: the
        probe decides whether the step is emitted. */
    method ProbeKingStep(r: Coord, c: Coord, k: int) returns (added: seq<Move>, checked: bool)
      requires 0 <= k < 8
      modifies this`pins, this`whiteKingPosition, this`blackKingPosition
      ensures (Snapshot(), added, checked) == LegacyMoveFacts.KingStepOne(old(Snapshot()), r, c, k)
    {
      var friendly := if whiteToMove then White else Black;
      var endRow := r + KingSteps[k].0;
      var endCol := c + KingSteps[k].1;
      added, checked := [], false;
      if OnBoard(endRow, endCol) {
        var endSquare := board[endRow][endCol];
        if !IsColor(endSquare, friendly) {
          checked := ProbeSquare(r, c, endRow, endCol);
          if !checked {
            added := [NewLegacyMove(Sq(r, c), Sq(endRow, endCol), board, false, false)];
          }
        }
      }
    }

    /** The probe of king: the king cache is moved to (endRow, endCol), the pin scan (which
        empties the pin list) says whether that square is in check, and the cache is put back
        on (r, c). */
    method ProbeSquare(r: Coord, c: Coord, endRow: Coord, endCol: Coord) returns (inCheck: bool)
      modifies this`pins, this`whiteKingPosition, this`blackKingPosition
      ensures Snapshot() == WithKing(old(Snapshot()).(pins := []), Sq(r, c))
      ensures inCheck == CheckedAt(old(Snapshot()), endRow, endCol)
    {
      var friendly := if whiteToMove then White else Black;
      PlaceKing(friendly, Sq(endRow, endCol));
      var pinsFound, checksFound;
      inCheck, pinsFound, checksFound := CheckForPinsAndChecks();
      PlaceKing(friendly, Sq(r, c));
    }

    /** Sets the king cache of `friendly`'s side. */
    method PlaceKing(friendly: Color, to: Cell)
      modifies this`whiteKingPosition, this`blackKingPosition
      ensures whiteKingPosition == if friendly == White then to else old(whiteKingPosition)
      ensures blackKingPosition == if friendly == White then old(blackKingPosition) else to
    {
      if friendly == White {
        whiteKingPosition := to;
      } else {
        blackKingPosition := to;
      }
    }

    /** king: the eight steps, returning as soon as a probe finds a check; then
        get_castle_moves. */
    method GetKingMoves(r: Coord, c: Coord, moves: seq<Move>) returns (movesOut: seq<Move>, ok: bool)
      modifies this`pins, this`whiteKingPosition, this`blackKingPosition
      ensures var g := KingMoves(old(Snapshot()), r, c);
        Snapshot() == g.state && movesOut == moves + g.moves && ok == g.ok
    {
      var added, stopped := KingStepMoves(r, c);
      if stopped {
        return moves + added, true;
      }
      movesOut, ok := GetCastleMoves(r, c, moves + added);
    }

    /** The step loop of king. */
    method KingStepMoves(r: Coord, c: Coord) returns (added: seq<Move>, stopped: bool)
      modifies this`pins, this`whiteKingPosition, this`blackKingPosition
      ensures (Snapshot(), added, stopped) == KingStepsFrom(old(Snapshot()), r, c, 0)
    {
      ghost var s0 := Snapshot();
      added := [];
      for i := 0 to 8
        invariant (Snapshot(), added, false) == LegacyMoveFacts.KingStepsUpTo(s0, r, c, i)
      {
        var step, checked := ProbeKingStep(r, c, i);
        added := added + step;
        if checked {
          LegacyMoveFacts.KingStepsSplit(s0, r, c, i + 1);
          return added, true;
        }
      }
      LegacyMoveFacts.KingStepsSplit(s0, r, c, 8);
      assert added + [] == added;
      return added, false;
    }

    /** get_castle_moves: nothing from an attacked square; otherwise the queen side, then the
        king side, each where the player still holds the right. */
    method GetCastleMoves(r: Coord, c: Coord, moves: seq<Move>) returns (movesOut: seq<Move>, ok: bool)
      ensures var cm := CastleMoves(Snapshot(), r, c);
        movesOut == moves + cm.0 && ok == cm.1
    {
      var friendly := if whiteToMove then White else Black;
      var inCheck := SquareUnderAttack(r, c, friendly);
      if inCheck {
        return moves, true;
      }
      movesOut, ok := moves, true;
      if (whiteToMove && whiteCanCastleQueenSide) || (!whiteToMove && blackCanCastleQueenSide) {
        movesOut, ok := GetQueenSideCastleMoves(r, c, movesOut, friendly);
        if !ok {
          return moves, false;
        }
      }
      if (whiteToMove && whiteCanCastleKingSide) || (!whiteToMove && blackCanCastleKingSide) {
        movesOut, ok := GetKingSideCastleMoves(r, c, movesOut, friendly);
      }
    }

    /** get_queen_side_castle_moves; false where a tested column is negative. */
    method GetQueenSideCastleMoves(r: Coord, c: Coord, moves: seq<Move>, friendly: Color) returns (movesOut: seq<Move>, ok: bool)
      ensures var qm := QueensideCastleMoves(board, r, c, friendly);
        movesOut == moves + qm.0 && ok == qm.1
    {
      if c - 1 < 0 {
        return moves, false;
      }
      if board[r][c - 1] != Empty {
        return moves, true;
      }
      if c - 2 < 0 {
        return moves, false;
      }
      if board[r][c - 2] != Empty {
        return moves, true;
      }
      if c - 3 < 0 {
        return moves, false;
      }
      if board[r][c - 3] != Empty {
        return moves, true;
      }
      var attacked1 := SquareUnderAttack(r, c - 1, friendly);
      if attacked1 {
        return moves, true;
      }
      var attacked2 := SquareUnderAttack(r, c - 2, friendly);
      if attacked2 {
        return moves, true;
      }
      return moves + [NewLegacyMove(Sq(r, c), Sq(r, c - 2), board, false, true)], true;
    }

    /** get_king_side_castle_moves; false where a tested column is past 7. */
    method GetKingSideCastleMoves(r: Coord, c: Coord, moves: seq<Move>, friendly: Color) returns (movesOut: seq<Move>, ok: bool)
      ensures var km := KingsideCastleMoves(board, r, c, friendly);
        movesOut == moves + km.0 && ok == km.1
    {
      if c + 1 > 7 {
        return moves, false;
      }
      if board[r][c + 1] != Empty {
        return moves, true;
      }
      if c + 2 > 7 {
        return moves, false;
      }
      if board[r][c + 2] != Empty {
        return moves, true;
      }
      var attacked1 := SquareUnderAttack(r, c + 1, friendly);
      if attacked1 {
        return moves, true;
      }
      var attacked2 := SquareUnderAttack(r, c + 2, friendly);
      if attacked2 {
        return moves, true;
      }
      return moves + [NewLegacyMove(Sq(r, c), Sq(r, c + 2), board, false, true)], true;
    }

    // ----- get_all_possible_moves -----

    /** The pieceMovementFunctions dispatch of get_all_possible_moves on the piece on (r, c). */
    method GetPieceMoves(r: Coord, c: Coord, moves: seq<Move>) returns (movesOut: seq<Move>, ok: bool)
      requires board[r][c].Occupied?
      modifies this`pins, this`whiteKingPosition, this`blackKingPosition
      ensures var g := PieceMoves(old(Snapshot()), r, c);
        Snapshot() == g.state && movesOut == moves + g.moves && ok == g.ok
    {
      match board[r][c].kind
      case Pawn => movesOut, ok := GetPawnMoves(r, c, moves);
      case Rook => movesOut, ok := GetRookMoves(r, c, moves);
      case Knight => movesOut, ok := GetKnightMoves(r, c, moves);
      case Bishop => movesOut, ok := GetBishopMoves(r, c, moves);
      case Queen => movesOut, ok := GetQueenMoves(r, c, moves);
      case King => movesOut, ok := GetKingMoves(r, c, moves);
    }

    /** get_all_possible_moves: every piece of the side to move, in row-major order; false as
        soon as one generator fails. */
    method GetAllPossibleMoves() returns (moves: seq<Move>, ok: bool)
      modifies this`pins, this`whiteKingPosition, this`blackKingPosition
      ensures var g := AllMoves(old(Snapshot()));
        Snapshot() == g.state && moves == g.moves && ok == g.ok
    {
      ghost var s := Snapshot();
      moves, ok := [], true;
      for r := 0 to 8
        invariant RowsUpTo(s, r) == Gen(Snapshot(), moves, true)
      {
        ghost var g := Gen(Snapshot(), moves, true);
        moves, ok := ScanRow(g, r, moves);
        if !ok {
          LegacyMoveFacts.RowsStopped(s, r + 1, 8);
          return;
        }
      }
    }

    /** The inner loop of get_all_possible_moves over the columns of row r, continuing g. */
    method ScanRow(ghost g: Gen, r: Coord, movesIn: seq<Move>) returns (moves: seq<Move>, ok: bool)
      requires g == Gen(Snapshot(), movesIn, true)
      modifies this`pins, this`whiteKingPosition, this`blackKingPosition
      ensures RowScan(g, r, 8) == Gen(Snapshot(), moves, ok)
    {
      moves, ok := movesIn, true;
      for c := 0 to 8
        invariant RowScan(g, r, c) == Gen(Snapshot(), moves, true)
      {
        var friendly := if whiteToMove then White else Black;
        if IsColor(board[r][c], friendly) {
          moves, ok := GetPieceMoves(r, c, moves);
          if !ok {
            LegacyMoveFacts.RowScanStopped(g, r, c + 1, 8);
            return;
          }
        }
      }
    }

    // ----- get_valid_moves -----

    /** get_valid_moves: all moves first, then the scan (stored in the fields), the list
        comprehension that filters the moves under check, then the checkmate / stalemate
        flags. */
    method GetValidMoves() returns (moves: seq<Move>, ok: bool)
      modifies this`isKingInCheck, this`pins, this`checks, this`whiteKingPosition, this`blackKingPosition
      modifies this`checkmate, this`stalemate
      ensures var g := ValidMoves(old(Snapshot()));
        Snapshot() == g.state && moves == g.moves && ok == g.ok
    {
      moves, ok := GetAllPossibleMoves();
      if !ok {
        return;
      }
      StoreScan();
      moves := KeepEvasions(moves);
      SetVerdict(|moves| == 0);
    }

    /** The second line of get_valid_moves: the scan's results stored in the fields. */
    method StoreScan()
      modifies this`isKingInCheck, this`pins, this`checks
      ensures Snapshot() == Scanned(old(Snapshot()))
    {
      isKingInCheck, pins, checks := CheckForPinsAndChecks();
    }

    /** The filter of get_valid_moves under check: the squares that capture or block a single
        checking piece (only its own square for a knight), and the list comprehension keeping
        the king's moves and the moves onto those squares; only the king's moves under a double
        check. */
    method KeepEvasions(moves: seq<Move>) returns (kept: seq<Move>)
      ensures kept == Kept(Snapshot(), moves)
    {
      kept := moves;
      if isKingInCheck {
        var king := KingPosition();
        if |checks| == 1 {
          var check := checks[0];
          var validSquares: seq<Square>;
          if IsKind(board[check.row][check.col], Knight) {
            validSquares := [Sq(check.row, check.col)];
          } else {
            validSquares := Engine.GameState.CheckLine(king, check);
          }
          kept := EngineMoveFacts.Evasions(moves, validSquares);
        } else {
          kept := EngineMoveFacts.Evasions(moves, []);
        }
      }
    }

    /** The end of get_valid_moves: checkmate or stalemate when no move is left, both cleared
        otherwise. */
    method SetVerdict(none: bool)
      modifies this`checkmate, this`stalemate
      ensures Snapshot() == Verdict(old(Snapshot()), none)
    {
      if none {
        if isKingInCheck {
          checkmate := true;
        } else {
          stalemate := true;
        }
      } else {
        checkmate := false;
        stalemate := false;
      }
    }
  }
}
