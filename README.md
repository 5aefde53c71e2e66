# A verified model of a two-engine Python chess program

The program is a chess rules engine with a small game-tree search, kept in two near-duplicate
copies that behave differently:

- the primary pair: `Chess/chess_engine.py` (the `GameState` rules engine with its `Move` and
  `CastleRights` values) and `Chess/ai_backend.py` (the evaluation and the depth-3 negamax
  alpha-beta search);
- the second pair: `Chess/ChessEngine.py` and `Chess/ChessAI.py`, the same design with its own
  defects.

Each `GameState` is an object whose methods change it in place. It holds an 8x8 board of
two-character piece codes, the side to move, cached king squares, the last pin and check scan,
the checkmate and stalemate flags, four castling flags and an optional en-passant target. It
also keeps three history stacks: the move log, the en-passant log and the castling log.

The rules engine works in three steps:

1. It scans the eight lines and the eight knight jumps around the king for pins and checks.
2. It dispatches a generator per piece, each appending to a shared move list.
3. It filters that list when the king is in check, then sets the checkmate and stalemate
   flags.

The search makes a move, generates the replies, recurses and takes the move back.

## How the model is built

- **Values.** Pieces, moves, castling rights and the board are Dafny datatypes and sequences
  (`pieces.dfy`, `moves.dfy`). A move is built from two squares and the board, exactly as the
  `Move` constructors do; equality in the source compares only the move id.
- **Game states.** Each `GameState` is a Dafny `class` with the source's fields
  (`chess_engine.dfy`, `legacy_engine.dfy`). Its methods update those fields in place with
  loops shaped like the source's.
- **Specification functions.** Every method is proved to compute exactly a pure function over a
  `State` value, read through `Snapshot()`:
  - make and undo in `engine_state.dfy` and `legacy_state.dfy`;
  - the scans in `engine_scan.dfy` and `legacy_scan.dfy`;
  - the generators in `engine_moves.dfy` and `legacy_moves.dfy`.
- **Properties.** These are lemmas about those functions:
  - `engine_move_facts.dfy`, `generated_moves.dfy` and `valid_move_facts.dfy` for the primary
    engine;
  - `legacy_move_facts.dfy` and `legacy_valid_facts.dfy` for the second engine.
- **Searches.** They are functions over a record of the three game-state operations
  (`ai_backend.dfy`, `chess_ai.dfy`). A class-level method runs each one on the game object and
  is proved to compute that function.

**Failures.** The source sometimes indexes the board outside 0..7. This raises an `IndexError`,
or silently wraps around for a negative index. Where that can happen, the model returns `ok ==
false` instead of continuing. The cases are:

- castle generators near the edge;
- the castling rook's squares in make and undo;
- a pawn on the last row;
- the second engine's right en-passant capture onto column 8, when the king shares the pawn's row;
- popping an exhausted history;
- the second engine's empty pin entries.

Properties are stated for the successful path, and the failure conditions are stated
explicitly.

**Second engine.** It is modelled as written, with these defects:

- Sliding pieces walk on through enemy pieces and stop after the first empty square.
- The pin and check scan stops at the first empty square, so it only sees neighbouring pieces
  and knights.
- It generates moves before it scans.
- It appends an empty pin entry when a harmless enemy piece stands next to the king.
- Undo restores the en-passant target only after an en-passant capture.
- The king generator stops at the first attacked step.
- Its search records the last root move rather than the best one.
- `get_best_move` always returns `None`.

## Model

| member | source | states |
|---|---|---|
| Pieces.CodeInjective | Chess/chess_engine.py:12-16 | two pieces have the same two-character code exactly when they are the same piece |
| Pieces.NoPieceIsCodedLowercaseBk | Chess/chess_engine.py:213 | no piece has the code "bk" that the primary castling-rights update compares against |
| Pieces.RemoveFirst | Chess/chess_engine.py:510 | list.remove of a present entry shortens the list by one; an absent entry leaves it unchanged; the multiset loses exactly that entry |
| Moves.IndexOfMove | Chess/chess_engine.py:900-903 | the first index whose move equals the given one by id, or -1 when none does |
| Moves.RemoveFirstMove | Chess/chess_engine.py:282 | list.remove on moves drops exactly the first move equal by id, or nothing |
| Moves.DecodeMoveId | Chess/chess_engine.py:892-894 | the id 1000·sr + 100·sc + 10·er + ec of on-board squares decodes back to those squares |
| Moves.SameMoveIffSameSquares | Chess/chess_engine.py:900-903 | in both engines two constructed moves are == exactly when their start and end squares agree |
| Moves.SameMoveSamePieces | Chess/chess_engine.py:868-894 | moves built from one board at the same squares agree in every field |
| Moves.PromotionFlag | Chess/chess_engine.py:878-883 | isPawnPromotion holds exactly for a white pawn ending on row 0 or a black pawn ending on row 7, in both engines |
| Moves.EnPassantCapture | Chess/ChessEngine.py:707-719 | an en-passant move records the opposite-colour pawn as captured; the primary engine counts it as a capture and the second engine does not |
| Moves.OrdinaryCapture | Chess/ChessEngine.py:697-723 | without en passant the captured piece is the end square's content, the capture flag says whether it is occupied, and both engines build the same move |
| Moves.RankFileRoundTrip | Chess/chess_engine.py:910-911 | getRankFile names the file 'a'..'h' for columns 0..7 and the rank '8'..'1' for rows 0..7, and the name reads back to the square through the rank and file tables |
| Moves.ChessNotationDeterminesSquares | Chess/chess_engine.py:905-908 | two moves have the same notation exactly when their start and end squares agree |
| Moves.ToStringShape | Chess/chess_engine.py:914-930 | castling prints as O-O (to column 6) or O-O-O; any other move prints text ending in its end square's name, with an 'x' exactly for a capture |
| EngineState.UpdateCastleRightsEffect | Chess/chess_engine.py:209-231 | rights are only ever cleared: a white king move clears both white rights, a rook leaving its corner clears that corner's right, and because of the "bk" test a black king move clears nothing |
| EngineState.EnPassantAfterMake | Chess/chess_engine.py:111-120 | after makeMove the target is set exactly for a pawn that moved two rows, and it is the skipped square on the start column; otherwise it is empty |
| EngineState.MakeMoveKeepsLogs | Chess/chess_engine.py:120-130 | makeMove keeps the history invariant: the en-passant and castling logs are one longer than the move log, and their newest entries are the current target and rights |
| EngineState.UndoMoveKeepsLogs | Chess/chess_engine.py:151-182 | under the invariant undoMove succeeds, pops one entry from each log, restores the target and rights from the new newest entries and keeps the invariant |
| EngineState.RestoredMovedBoard | Chess/chess_engine.py:156-201 | on a board where the move is reversible, undoing the board writes of a move, including promotion, en passant and the castling rook, gives back the board |
| EngineState.UndoAfterMake | Chess/chess_engine.py:66-203 | undoMove takes back any makeMove of a reversible move, whatever the scan and king caches became in between: the board, side to move, logs, en-passant target and castling rights return, and the moving king's cache returns to its start |
| EngineState.MakeUndoRoundTrip | Chess/chess_engine.py:66-203 | makeMove then undoMove gives back the whole starting state, except that the checkmate and stalemate flags are cleared |
| Engine.GameState.constructor | Chess/chess_engine.py:11-64 | a new game is the initial position with full rights, empty logs and the history invariant holding |
| Engine.GameState.MakeMove | Chess/chess_engine.py:66-149 | the object becomes exactly the state makeMove's function gives for the chosen promotion |
| Engine.GameState.MovePieces | Chess/chess_engine.py:68-109 | the piece moves, the move is logged, the turn passes and a moving king takes its cache along |
| Engine.GameState.PassTurn | Chess/chess_engine.py:73-78 | the turn flips and only the moving king's cache changes |
| Engine.GameState.MoveSquares | Chess/chess_engine.py:68-109 | the board writes before the rook: end square, start square, promotion and en-passant removal |
| Engine.GameState.PushEnPassant | Chess/chess_engine.py:111-120 | sets the target and appends it to the en-passant log |
| Engine.GameState.PushRights | Chess/chess_engine.py:121-130 | updates the rights and appends them to the castling log |
| Engine.GameState.PutRookOut | Chess/chess_engine.py:132-149 | moves the castling rook beside the king; fails where its squares are off the board |
| Engine.GameState.UndoMove | Chess/chess_engine.py:151-203 | the object becomes exactly the state undoMove's function gives, failing as that function does |
| Engine.GameState.UndoHistory | Chess/chess_engine.py:170-203 | pops both logs, restores from their new newest entries and puts the rook back, stopping at the first failure |
| Engine.GameState.UndoPieces | Chess/chess_engine.py:153-169 | pops the move, restores its squares, hands back the turn and the king's cache |
| Engine.GameState.RestoreSquares | Chess/chess_engine.py:156-169 | puts the moved and captured pieces back, for en passant the captured pawn beside the start |
| Engine.GameState.PopEnPassantLog | Chess/chess_engine.py:170-173 | pops the en-passant log and restores the target from its new newest entry |
| Engine.GameState.PopRightsLog | Chess/chess_engine.py:174-182 | pops the castling log and restores the four flags from its new newest entry |
| Engine.GameState.SetRights | Chess/chess_engine.py:178-182 | copies a rights record into the four flags |
| Engine.GameState.PutRookBack | Chess/chess_engine.py:184-203 | returns an undone castling rook to its corner and clears the end-of-game flags |
| Engine.GameState.UpdateCastleRights | Chess/chess_engine.py:209-231 | the four flags become the rights updateCastleRights' function gives |
| Engine.GameState.SquareUnderAttack | Chess/chess_engine.py:300-364 | the result is the attack function of the board, and the board is unchanged |
| Engine.GameState.CheckForPinsAndChecks | Chess/chess_engine.py:366-476 | returns the scan function from the cached king square and writes no field |
| Engine.GameState.ScanLines | Chess/chess_engine.py:391-454 | the eight directions in order give the pins and line checks of the scan function |
| Engine.GameState.ScanKnights | Chess/chess_engine.py:456-475 | the knight offsets in order give the knight checks of the scan function |
| Engine.GameState.ScanDirection | Chess/chess_engine.py:392-454 | one direction's walk gives the finding of the walk function |
| Engine.GameState.LookUpPin | Chess/chess_engine.py:506-511 | finds the last pin record naming the square and, when consuming, removes it with list.remove |
| Engine.GameState.GetPawnMoves | Chess/chess_engine.py:503-623 | appends exactly the pawn generator's moves and leaves the pin list as it does |
| Engine.GameState.PawnTargets | Chess/chess_engine.py:512-623 | the pushes, then the left diagonal, then the right diagonal |
| Engine.GameState.PawnPushMoves | Chess/chess_engine.py:525-530 | the one- and two-square advances the pin allows |
| Engine.GameState.PawnLeftMoves | Chess/chess_engine.py:532-577 | the left capture, then the en-passant capture guarded by the king's-row test |
| Engine.GameState.PawnRightMoves | Chess/chess_engine.py:578-623 | the right capture, then the en-passant capture, emitted only inside the king's-row branch |
| Engine.GameState.LeftEpTest | Chess/chess_engine.py:537-569 | the left en-passant test: always passed off the king's row, else the row test |
| Engine.GameState.RightEpTest | Chess/chess_engine.py:583-615 | the right en-passant test: passed only on the king's row when the row test passes |
| Engine.GameState.EpRowTest | Chess/chess_engine.py:556-568 | the row scan: any piece in the inside range blocks; in the outside range an enemy rook or queen attacks and any other piece blocks |
| Engine.GameState.SlideWalk | Chess/chess_engine.py:648-676 | one direction of a rook or bishop gives exactly the walk function's moves |
| Engine.GameState.SlideStep | Chess/chess_engine.py:649-676 | one distance of the walk is what it emits, followed, unless it ends there, by the walk from the next distance |
| Engine.GameState.AppendSlides | Chess/chess_engine.py:648-676 | the directions in order, each where the pin allows its line |
| Engine.GameState.GetRookMoves | Chess/chess_engine.py:629-676 | appends the rook pass's moves; a queen keeps its pin record |
| Engine.GameState.GetBishopMoves | Chess/chess_engine.py:717-758 | appends the bishop pass's moves and consumes the pin record |
| Engine.GameState.GetQueenMoves | Chess/chess_engine.py:764-766 | the bishop pass, then the rook pass on the pin list it left |
| Engine.GameState.GetKnightMoves | Chess/chess_engine.py:682-711 | appends the knight's jumps; a pinned knight appends nothing |
| Engine.GameState.KnightJumpMoves | Chess/chess_engine.py:703-711 | the eight jumps in order onto squares without an own piece |
| Engine.GameState.ProbeKingStep | Chess/chess_engine.py:777-797 | the relocated-king scan decides the step, and the cache returns to the king's square |
| Engine.GameState.PlaceKing | Chess/chess_engine.py:784-797 | sets the given side's king cache and nothing else |
| Engine.GameState.GetKingMoves | Chess/chess_engine.py:768-798 | appends the king steps, then castling |
| Engine.GameState.KingStepMoves | Chess/chess_engine.py:777-797 | the eight steps in order, as the steps function gives them |
| Engine.GameState.GetCastleMoves | Chess/chess_engine.py:805-817 | nothing from an attacked square; else the king side, then the queen side, where the right is held |
| Engine.GameState.GetKingsideCastleMoves | Chess/chess_engine.py:824-831 | the king-side castle when two empty, unattacked squares follow; fails past column 7 |
| Engine.GameState.GetQueensideCastleMoves | Chess/chess_engine.py:838-848 | the queen-side castle over three empty squares, two of them unattacked; fails on a negative column |
| Engine.GameState.GetPieceMoves | Chess/chess_engine.py:490-496 | the moveMapping dispatch on the kind of the piece |
| Engine.GameState.GetAllPossibleMoves | Chess/chess_engine.py:482-497 | every piece of the side to move in row-major order, failing with the first generator that fails |
| Engine.GameState.ScanRow | Chess/chess_engine.py:488-496 | the column loop of one row continues the generation |
| Engine.GameState.GetValidMoves | Chess/chess_engine.py:237-298 | the object and the list become exactly what getValidMoves' function gives |
| Engine.GameState.StoreScan | Chess/chess_engine.py:239 | stores the scan's three results in the fields |
| Engine.GameState.GetCandidateMoves | Chess/chess_engine.py:247-288 | all moves, the single-check filter or the double-check king moves |
| Engine.GameState.GetValidSquares | Chess/chess_engine.py:260-273 | the checking knight's square, or the line from the king to the checker |
| Engine.GameState.CheckLine | Chess/chess_engine.py:267-273 | the squares from the king along the check direction up to and including the checker |
| Engine.GameState.FilterEvasions | Chess/chess_engine.py:276-282 | the backward removal loop as written, with list.remove comparing ids |
| Engine.GameState.SetVerdict | Chess/chess_engine.py:290-297 | checkmate or stalemate on an empty list, both cleared otherwise |
| EngineScan.AttackAlongMeans | Chess/chess_engine.py:312-344 | one direction reports an attack exactly when an enemy piece threatening along it stands behind a clear line |
| EngineScan.SquareUnderAttackMeans | Chess/chess_engine.py:300-364 | a square is attacked exactly when an enemy piece threatens it along a clear line or a knight's jump away |
| EngineScan.PinWalkWithCandidate | Chess/chess_engine.py:402-449 | once a pin candidate is held, a walk reports a pin or nothing, never a check |
| EngineScan.PinWalkCheckMeans | Chess/chess_engine.py:391-454 | with no candidate, a walk reports a check exactly when a threatening enemy is seen through empty squares and the own king |
| EngineScan.PinWalkPinSound | Chess/chess_engine.py:402-449 | a pin record names a pinned piece: an own non-king piece seen from the king through empty squares and the own king, followed along the same kind of squares by an enemy that threatens along the line |
| EngineScan.PinWalkCandidatePinned | Chess/chess_engine.py:402-449 | with a candidate held, seeing through to a threatening enemy reports that candidate as the pin |
| EngineScan.PinWalkFindsPin | Chess/chess_engine.py:391-454 | every pinned piece is reported by the walk along its line, with its square and the direction |
| EngineScan.PinWalkFindsCheck | Chess/chess_engine.py:391-454 | every checking piece is reported by the walk along its line, with its square and the direction |
| EngineScan.RayChecksMeans | Chess/chess_engine.py:391-454 | every line check names a checking piece with its direction, every checking piece is recorded, and the list is non-empty when one exists |
| EngineScan.PinsMeans | Chess/chess_engine.py:391-454 | every pin names a pinned piece, and every pinned piece is recorded with its direction |
| EngineScan.KnightChecksMeans | Chess/chess_engine.py:456-475 | the knight checks are at enemy knights a jump away, and some is recorded when one stands there |
| EngineScan.PinsAndChecksMeans | Chess/chess_engine.py:366-476 | inCheck holds exactly when a checking piece or a knight threatens the king; each check record names such a piece and every checking piece on a line is recorded; the pins are exactly the pinned pieces |
| EngineMoves.LastPinIndex | Chess/chess_engine.py:506-511 | the backward loop finds the last record naming the square, or -1 |
| EngineMoves.PawnMoves | Chess/chess_engine.py:503-623 | the pawn generator changes only the pin list and king caches |
| EngineMoves.RookMoves | Chess/chess_engine.py:629-676 | the rook generator changes only the pin list and king caches |
| EngineMoves.BishopMoves | Chess/chess_engine.py:717-758 | the bishop generator changes only the pin list and king caches |
| EngineMoves.QueenMoves | Chess/chess_engine.py:764-766 | the queen generator changes only the pin list and king caches |
| EngineMoves.KnightMoves | Chess/chess_engine.py:682-711 | the knight generator changes only the pin list and king caches |
| EngineMoves.KingStep | Chess/chess_engine.py:777-797 | one king step changes only the pin list and king caches |
| EngineMoves.KingStepsUpTo | Chess/chess_engine.py:777-797 | the step loop changes only the pin list and king caches |
| EngineMoves.CastleMovesScanOnly | Chess/chess_engine.py:805-848 | castling reads nothing that the generators change |
| EngineMoves.KingMoves | Chess/chess_engine.py:768-798 | the king generator changes only the pin list and king caches |
| EngineMoves.PieceMoves | Chess/chess_engine.py:490-496 | every generator changes only the pin list and king caches |
| EngineMoves.RowScan | Chess/chess_engine.py:488-496 | a row of generators changes only the pin list and king caches |
| EngineMoves.RowsUpTo | Chess/chess_engine.py:486-497 | the row loop changes only the pin list and king caches |
| EngineMoves.AllMoves | Chess/chess_engine.py:482-497 | getAllPossibleMoves changes only the pin list and king caches |
| EngineMoves.BlockSquaresNext | Chess/chess_engine.py:267-273 | the valid-square loop appends the next square and stops exactly at the checker |
| EngineMoves.CandidateMoves | Chess/chess_engine.py:247-288 | the filtering stage changes only the pin list and king caches |
| EngineMoveFacts.SlideFromMeans | Chess/chess_engine.py:649-676 | a walk emits exactly the moves to on-board squares behind empty ones that are empty or hold an enemy piece |
| EngineMoveFacts.RayHitMeans | Chess/chess_engine.py:649-676 | the walk from distance 1 emits exactly the moves along its direction |
| EngineMoveFacts.SlidesMeans | Chess/chess_engine.py:643-676 | a rook, bishop or queen pass emits exactly the reachable moves along the directions its pin record allows |
| EngineMoveFacts.QueenPinConsumed | Chess/chess_engine.py:764-766 | the queen's bishop pass consumes its only pin record, so the rook pass runs unpinned |
| EngineMoveFacts.QueenPinBoardPins | Chess/chess_engine.py:366-476 | with white king e1, white queen e2 and black rook e8, the scan reports no check and exactly one pin, the queen along the e-file |
| EngineMoveFacts.QueenLeavesPinLine | Chess/chess_engine.py:629-766 | a queen pinned along a file still steps sideways to an empty square, leaving the pin line |
| EngineMoveFacts.UnpinnedSideStep | Chess/chess_engine.py:649-676 | unpinned, the rook directions reach an empty square to the left |
| EngineMoveFacts.JumpsMeans | Chess/chess_engine.py:703-711 | a knight emits a move to each jump square without an own piece, and nothing when pinned |
| EngineMoveFacts.KingStepsState | Chess/chess_engine.py:777-797 | the step loop leaves the cache on the king's square, or untouched when nothing was probed; nothing else changes |
| EngineMoveFacts.KingStepsMeans | Chess/chess_engine.py:777-797 | a step is emitted exactly onto an on-board square without an own piece where the relocated-king scan finds no check |
| EngineMoveFacts.CastleMeans | Chess/chess_engine.py:805-848 | castling only from an unattacked square with the right held, over 2 or 3 empty squares and past two unattacked squares; under those conditions it is emitted |
| EngineMoveFacts.EnPassantRowQuirk | Chess/chess_engine.py:583-623 | the right en-passant capture is emitted only when the king shares the pawn's row; the left one passes whenever the king is elsewhere |
| EngineMoveFacts.EpRowAllowsMeans | Chess/chess_engine.py:556-569 | the row test refuses exactly when an enemy rook or queen stands outside and every other square of both ranges is empty |
| EngineMoveFacts.EvasionLoopOnlyEvasions | Chess/chess_engine.py:276-282 | whatever the move ids, every move the single-check filter keeps moves the king or ends on a valid square |
| EngineMoveFacts.EvasionLoopIsFilter | Chess/chess_engine.py:276-282 | when moves with equal ids get the same decision, the removal loop is an ordinary in-order filter |
| EngineMoveFacts.BlockSquaresMeans | Chess/chess_engine.py:267-273 | the valid squares are the squares at distances 1 to k along the check direction, the checker at distance k |
| EngineMoveFacts.ValidMovesFlags | Chess/chess_engine.py:237-298 | checkmate is set when the list is empty in check and stalemate when it is empty out of check; both are cleared when the list is not empty; an empty list leaves the other flag as it was, so a flag already set survives; the scan is stored and the board, turn and histories are untouched |
| EngineMoveFacts.RowScanStopped | Chess/chess_engine.py:488-496 | after a failed generator, the rest of the row adds nothing |
| EngineMoveFacts.RowsStopped | Chess/chess_engine.py:486-497 | after a failed row, the remaining rows keep the failure |
| GeneratedMoves.SoundReversible | Chess/chess_engine.py:151-203 | a move the generators can emit, under a consistent en-passant target, is one undoMove takes back |
| GeneratedMoves.SoundKeepsEpConsistent | Chess/chess_engine.py:111-120 | making a generated move leaves a consistent en-passant target for the opponent |
| GeneratedMoves.PlainMoveSound | Chess/chess_engine.py:868-894 | an ordinary move between two different squares is generatable unless it is a two-row pawn move |
| GeneratedMoves.PawnMovesSound | Chess/chess_engine.py:503-623 | the pawn generator emits only sound moves |
| GeneratedMoves.SlidesSound | Chess/chess_engine.py:643-676 | the sliding passes emit only sound moves |
| GeneratedMoves.KnightMovesSound | Chess/chess_engine.py:682-711 | the knight generator emits only sound moves |
| GeneratedMoves.KingMovesSound | Chess/chess_engine.py:768-848 | the king steps and castling emit only sound moves |
| GeneratedMoves.PieceMovesSound | Chess/chess_engine.py:490-496 | every generator emits only sound moves |
| GeneratedMoves.RowsSound | Chess/chess_engine.py:482-497 | getAllPossibleMoves emits only sound moves |
| GeneratedMoves.EvasionLoopSubset | Chess/chess_engine.py:276-282 | the single-check filter only removes moves |
| GeneratedMoves.ValidMovesSound | Chess/chess_engine.py:237-298 | getValidMoves emits only sound moves and changes none of the fields they depend on |
| ValidMoveFacts.ValidSquaresMeans | Chess/chess_engine.py:254-273 | under a single check the valid squares are exactly those that capture the checking knight or lie on the line from the king to the checker |
| ValidMoveFacts.CheckRecordOnRay | Chess/chess_engine.py:391-454 | a check record that is not a knight names a piece on one of the eight lines, with that line's direction |
| ValidMoveFacts.CheckLineMeans | Chess/chess_engine.py:267-273 | the squares at distances 1 to the checker's are exactly those on the line to it |
| ValidMoveFacts.SingleCheckFilter | Chess/chess_engine.py:247-282 | under a single check every returned move moves the king or captures or blocks the checker, and with consistent ids every such generated move is returned in order |
| ValidMoveFacts.DoubleCheckKingOnly | Chess/chess_engine.py:283-285 | under a double check only the moves of the piece on the cached king square remain |
| AiBackend.RowScoreSides | Chess/ai_backend.py:151-171 | one row's score is white's worth minus black's worth on that row |
| AiBackend.ScoreIsMaterialBalance | Chess/ai_backend.py:151-171 | the board score is the worth of white's pieces minus black's, each counting value plus table entry and a king 0 |
| AiBackend.ScoreMeans | Chess/ai_backend.py:141-171 | -100000 on checkmate with white to move, +100000 with black, 0 on stalemate, else the material balance strictly inside the mate scores |
| AiBackend.PawnTablesMirror | Chess/ai_backend.py:55-76 | the white pawn table at (r, c) equals the black pawn table at (7 - r, c) |
| AiBackend.RookTableNotMirrored | Chess/ai_backend.py:19-29 | the shared tables are not mirrored: a white rook on (2, 3) adds 8, a black rook on (5, 3) subtracts 7 |
| AiBackend.ScoreBoard | Chess/ai_backend.py:141-171 | the nested loop computes the evaluation function |
| AiBackend.SoundPromotable | Chess/ai_backend.py:117-119 | every generated promotion has a moving piece |
| AiBackend.PlayClosed | Chess/ai_backend.py:117-119 | getValidMoves emits only moves makeMove accepts |
| AiBackend.PlayRestoring | Chess/ai_backend.py:117-128 | makeMove, getValidMoves and undoMove meet what the restoration proof needs |
| AiBackend.LoopAtLeast | Chess/ai_backend.py:116-132 | the best score within a node never decreases |
| AiBackend.NegMaxAtLeast | Chess/ai_backend.py:113-133 | at depth > 0 the result is at least -CHECKMATE, and exactly -CHECKMATE with no moves, even in stalemate |
| AiBackend.NegMaxBounded | Chess/ai_backend.py:111-133 | every score lies between -CHECKMATE and CHECKMATE |
| AiBackend.LoopBounded | Chess/ai_backend.py:116-132 | the loop's scores lie between the mate scores |
| AiBackend.ExamineBounded | Chess/ai_backend.py:118-128 | one move's score lies between the mate scores |
| AiBackend.NegMaxKeepsNext | Chess/ai_backend.py:126-127 | below the root depth the search never touches next_move |
| AiBackend.LoopKeepsNext | Chess/ai_backend.py:116-132 | below the root the loop keeps next_move |
| AiBackend.ExamineKeepsNext | Chess/ai_backend.py:118-128 | below the root one move keeps next_move |
| AiBackend.ExamineAtRoot | Chess/ai_backend.py:124-127 | at the root next_move changes exactly when the best score strictly improves, and then to that move |
| AiBackend.LoopUpToEnd | Chess/ai_backend.py:116-132 | the loop over the first n moves, run to the end of the list, is the whole loop |
| AiBackend.LoopAtRoot | Chess/ai_backend.py:116-132 | at the root, when the best score ends above its start, next_move is the first move in list order after which the best score reached its final value (every shorter run of the loop stays below it); otherwise next_move is unchanged |
| AiBackend.NegMaxRestores | Chess/ai_backend.py:117-128 | a search over sound moves from a settled position gives back the persistent state, unless the source raised |
| AiBackend.LoopRestores | Chess/ai_backend.py:117-132 | the loop gives back the persistent state |
| AiBackend.ExamineRestores | Chess/ai_backend.py:118-128 | each make is matched by an undo that restores the persistent state |
| AiBackend.BestMoveMeans | Chess/ai_backend.py:99-107 | find_best_move returns None exactly when no move scored above -CHECKMATE, in particular when there are none; otherwise it returns the first shuffled move after which the best score reached its final value, the move that last strictly raised it |
| AiBackend.BestMoveRestores | Chess/ai_backend.py:99-107 | find_best_move over generated moves gives back the position it started from |
| AiBackend.RandomMove | Chess/ai_backend.py:93-94 | a move exactly when the list is non-empty, namely the element at the drawn index; choose_random_move (Chess/ChessAI.py:88-89) is the same code and is modelled by this function too |
| AiBackend.MakeOn | Chess/ai_backend.py:118 | makeMove on the object is the make operation |
| AiBackend.GenerateOn | Chess/ai_backend.py:119 | getValidMoves on the object is the generator |
| AiBackend.UndoOn | Chess/ai_backend.py:128 | undoMove on the object is the undo operation |
| AiBackend.NegMaxAlphaBeta | Chess/ai_backend.py:111-133 | the object, the score and next_move end as the search function says |
| AiBackend.TryMove | Chess/ai_backend.py:118-128 | one pass of the loop ends as the function for one move says |
| AiBackend.FindBestMove | Chess/ai_backend.py:99-107 | returns the search's root move: one of the valid moves, namely the first shuffled move after which the best score reached its final value, or None when there are none |
| ChessAI.EvaluateMeans | Chess/ChessAI.py:128-155 | -100000 on checkmate with white to move, +100000 with black, 0 on stalemate, else white's worth minus black's strictly inside the mate scores |
| ChessAI.EvaluateBoard | Chess/ChessAI.py:128-155 | the nested loop computes the evaluation function |
| ChessAI.LoopAtLeast | Chess/ChessAI.py:107-123 | the best score within a node never decreases |
| ChessAI.NegamaxAtLeast | Chess/ChessAI.py:104-123 | at depth > 0 the result is at least -checkmateScore, and exactly that with no moves |
| ChessAI.NegamaxBounded | Chess/ChessAI.py:102-123 | every score lies between the mate scores |
| ChessAI.LoopBounded | Chess/ChessAI.py:107-123 | the loop's scores lie between the mate scores |
| ChessAI.ExamineBounded | Chess/ChessAI.py:108-117 | one move's score lies between the mate scores |
| ChessAI.NegamaxKeepsNext | Chess/ChessAI.py:115-116 | below the root depth the search never touches next_move |
| ChessAI.LoopKeepsNext | Chess/ChessAI.py:107-123 | below the root the loop keeps next_move |
| ChessAI.ExamineKeepsNext | Chess/ChessAI.py:108-117 | below the root one move keeps next_move |
| ChessAI.ExamineAtRoot | Chess/ChessAI.py:112-116 | at the root every completed move becomes next_move, better or not, and the best score never decreases |
| ChessAI.LoopAtRoot | Chess/ChessAI.py:107-123 | at the root next_move is the last move examined: the search ends as its run over moves[i..k+1] does and records moves[k], which is the last move of the list, not the best, unless the score reached beta and cut the loop short |
| ChessAI.PlayGenKeeps | Chess/ChessEngine.py:121-164 | get_valid_moves leaves the board, turn, move log and castling rights and history alone |
| ChessAI.NegamaxRestores | Chess/ChessAI.py:108-122 | with operations whose undo takes back their make, the search gives back the board, turn, move log and castling state, unless the source raised |
| ChessAI.LoopRestores | Chess/ChessAI.py:108-122 | the loop gives back those fields |
| ChessAI.ExamineRestores | Chess/ChessAI.py:109-117 | each make_move is matched by an undo_move before the cutoff test |
| ChessAI.BestMoveMeans | Chess/ChessAI.py:96-100 | get_best_move returns None; the global next_move ends as the shuffled move at which the search stopped, the last one unless a move reached the mate score, and unchanged with no moves |
| ChessAI.MakeOn | Chess/ChessAI.py:109 | make_move on the object is the make operation |
| ChessAI.GenerateOn | Chess/ChessAI.py:110 | get_valid_moves on the object is the generator |
| ChessAI.UndoOn | Chess/ChessAI.py:117 | undo_move on the object is the undo operation |
| ChessAI.NegamaxSearch | Chess/ChessAI.py:102-123 | the object, the score and next_move end as the search function says |
| ChessAI.SearchMove | Chess/ChessAI.py:108-117 | one pass of the loop ends as the function for one move says |
| ChessAI.GetBestMove | Chess/ChessAI.py:96-100 | returns None, with the object and the global next_move as the search leaves them; the global is one of the valid moves when there were any |
| LegacyState.UpdateCastleRightsEffect | Chess/ChessEngine.py:230-256 | rights are only ever cleared: either king clears both rights of its colour, and a rook leaving its corner clears that corner's right |
| LegacyState.RightsVersusPrimary | Chess/ChessEngine.py:236-238 | the two engines' rights updates differ only for a black king move, which only this engine's "bK" test catches |
| LegacyState.MakeMoveEffect | Chess/ChessEngine.py:59-115 | make_move flips the turn, moves a king's cache, pushes exactly one entry on the move log and both histories, sets the target of a two-row pawn move, and fails only where the rook's squares are off the board |
| LegacyState.MakeMoveBoard | Chess/ChessEngine.py:60-88 | the moving piece, or the piece it promotes to, stands on the end square and the start square is empty |
| LegacyState.MakeMoveKeepsLogs | Chess/ChessEngine.py:101-106 | make_move keeps the history invariant |
| LegacyState.UndoMoveEffect | Chess/ChessEngine.py:168-225 | a no-op on an empty log; otherwise it pops the move and the castling history and restores the rights, pops the en-passant history and restores the target only for an en-passant capture, and clears the end-of-game flags |
| LegacyState.UndoAfterMake | Chess/ChessEngine.py:59-225 | undo_move after make_move of a reversible move gives back the board, turn, move log and castling rights and history |
| LegacyState.EnPassantAfterUndo | Chess/ChessEngine.py:187-197 | the target and its history are restored after an en-passant capture, but otherwise stay as make_move left them |
| LegacyState.EnPassantNotRestored | Chess/ChessEngine.py:94-101 | e2-e4 then undo from the start position leaves e3 as the en-passant target |
| LegacyEngine.GameState.constructor | Chess/ChessEngine.py:10-57 | a new game is the initial position |
| LegacyEngine.GameState.MakeMove | Chess/ChessEngine.py:59-115 | the object becomes exactly the state make_move's function gives |
| LegacyEngine.GameState.MovePieces | Chess/ChessEngine.py:60-92 | the piece moves, the move is logged, the turn passes, a king takes its cache along, promotion and en-passant removal |
| LegacyEngine.GameState.MoveSquares | Chess/ChessEngine.py:60-92 | the board writes before the rook |
| LegacyEngine.GameState.PassTurn | Chess/ChessEngine.py:62-69 | the turn flips and only the moving king's cache changes |
| LegacyEngine.GameState.PushEnPassant | Chess/ChessEngine.py:94-101 | sets the target and pushes it on the en-passant history |
| LegacyEngine.GameState.PushRights | Chess/ChessEngine.py:103-106 | updates the rights and pushes them on the castling history |
| LegacyEngine.GameState.PutRookOut | Chess/ChessEngine.py:108-115 | moves the castling rook; fails where its squares are off the board |
| LegacyEngine.GameState.UpdateCastleRights | Chess/ChessEngine.py:230-256 | the four flags become the rights update_castle_rights' function gives |
| LegacyEngine.GameState.UndoMove | Chess/ChessEngine.py:168-225 | the object becomes exactly the state undo_move's function gives |
| LegacyEngine.GameState.UndoHistory | Chess/ChessEngine.py:187-225 | the histories, with the en-passant one only for an en-passant capture, then the rook and the flags |
| LegacyEngine.GameState.UndoPieces | Chess/ChessEngine.py:170-193 | pops the move, restores its squares, hands back the turn and the king's cache |
| LegacyEngine.GameState.RestoreSquares | Chess/ChessEngine.py:174-193 | puts the moved and captured pieces back |
| LegacyEngine.GameState.PopEnPassantHistory | Chess/ChessEngine.py:195-197 | pops the en-passant history and restores the target |
| LegacyEngine.GameState.PopCastlingHistory | Chess/ChessEngine.py:200-206 | pops the castling history and restores the four flags |
| LegacyEngine.GameState.PutRookBack | Chess/ChessEngine.py:208-225 | returns an undone castling rook and clears the end-of-game flags |
| LegacyEngine.GameState.SquareUnderAttack | Chess/ChessEngine.py:258-302 | the result is this engine's attack function, and the board is unchanged |
| LegacyEngine.GameState.AttackWalk | Chess/ChessEngine.py:261-287 | one direction: squares off the board are skipped, and the first square on it decides |
| LegacyEngine.GameState.CheckForPinsAndChecks | Chess/ChessEngine.py:303-375 | empties the pin field and returns this engine's scan function |
| LegacyEngine.GameState.ScanLines | Chess/ChessEngine.py:320-361 | the eight directions give the pin entries and line checks of the scan function |
| LegacyEngine.GameState.ScanKnights | Chess/ChessEngine.py:362-373 | the knight offsets give the knight checks |
| LegacyEngine.GameState.ScanDirection | Chess/ChessEngine.py:322-361 | one direction's walk, ending at the first empty square |
| LegacyEngine.GameState.LookUpPin | Chess/ChessEngine.py:396-402 | the backward lookup of the pin list, breaking on an empty entry |
| LegacyEngine.GameState.GetPawnMoves | Chess/ChessEngine.py:392-489 | appends exactly the pawn generator's moves, failing as it does |
| LegacyEngine.GameState.PawnPushMoves | Chess/ChessEngine.py:416-422 | the one-square advance where the pin allows, and the unchecked two-square advance |
| LegacyEngine.GameState.PawnCaptureMoves | Chess/ChessEngine.py:424-489 | the capture code, all of it under the left-diagonal test |
| LegacyEngine.GameState.EnPassantRowMoves | Chess/ChessEngine.py:433-489 | the two row tests and the moves they guard, with the king on the pawn's row |
| LegacyEngine.GameState.RowTest | Chess/ChessEngine.py:442-487 | one row test's flags, which only ever become true |
| LegacyEngine.GameState.SlideWalk | Chess/ChessEngine.py:516-536 | one direction: enemy squares are appended and passed, and the first empty square ends the walk |
| LegacyEngine.GameState.SlideStep | Chess/ChessEngine.py:518-536 | one distance of the walk, followed, unless it ends, by the next |
| LegacyEngine.GameState.AppendSlides | Chess/ChessEngine.py:516-536 | the directions of a sliding piece in order |
| LegacyEngine.GameState.GetRookMoves | Chess/ChessEngine.py:493-536 | the rook pass; a queen keeps its pin record; fails where the lookup breaks |
| LegacyEngine.GameState.GetBishopMoves | Chess/ChessEngine.py:562-596 | the bishop pass; fails where the lookup breaks |
| LegacyEngine.GameState.GetQueenMoves | Chess/ChessEngine.py:598-600 | the bishop pass, then the rook pass |
| LegacyEngine.GameState.GetKnightMoves | Chess/ChessEngine.py:537-561 | the knight's jumps; none when pinned |
| LegacyEngine.GameState.KnightJumpMoves | Chess/ChessEngine.py:553-561 | the eight jumps in order |
| LegacyEngine.GameState.ProbeKingStep | Chess/ChessEngine.py:609-631 | the probe decides whether one step is emitted and whether the generator stops |
| LegacyEngine.GameState.ProbeSquare | Chess/ChessEngine.py:616-629 | moves the cache, scans (emptying the pin list) and puts the cache back |
| LegacyEngine.GameState.PlaceKing | Chess/ChessEngine.py:616-629 | sets the given side's king cache and nothing else |
| LegacyEngine.GameState.GetKingMoves | Chess/ChessEngine.py:602-633 | the steps, returning at the first checked probe, then castling |
| LegacyEngine.GameState.KingStepMoves | Chess/ChessEngine.py:609-631 | the step loop up to the first checked probe |
| LegacyEngine.GameState.GetCastleMoves | Chess/ChessEngine.py:639-646 | nothing from an attacked square; else the queen side, then the king side |
| LegacyEngine.GameState.GetQueenSideCastleMoves | Chess/ChessEngine.py:653-659 | the queen-side castle; fails on a negative column |
| LegacyEngine.GameState.GetKingSideCastleMoves | Chess/ChessEngine.py:665-668 | the king-side castle; fails past column 7 |
| LegacyEngine.GameState.GetPieceMoves | Chess/ChessEngine.py:384-387 | the pieceMovementFunctions dispatch |
| LegacyEngine.GameState.GetAllPossibleMoves | Chess/ChessEngine.py:379-388 | every piece of the side to move in row-major order, failing with the first failed generator |
| LegacyEngine.GameState.ScanRow | Chess/ChessEngine.py:383-387 | the column loop of one row |
| LegacyEngine.GameState.GetValidMoves | Chess/ChessEngine.py:121-164 | the object and the list become exactly what get_valid_moves' function gives |
| LegacyEngine.GameState.StoreScan | Chess/ChessEngine.py:123 | stores the scan's results in the fields |
| LegacyEngine.GameState.KeepEvasions | Chess/ChessEngine.py:125-152 | the comprehension filters under single and double check |
| LegacyEngine.GameState.SetVerdict | Chess/ChessEngine.py:155-162 | checkmate or stalemate on an empty list, both cleared otherwise |
| LegacyScan.AttackAlongOff | Chess/ChessEngine.py:265-287 | once the walk leaves the board it finds nothing |
| LegacyScan.SquareUnderAttackMeans | Chess/ChessEngine.py:258-302 | a square is attacked exactly when a threatening enemy piece stands on a neighbouring square or a knight a jump away |
| LegacyScan.DistantRookUnseen | Chess/ChessEngine.py:286-287 | a rook two squares away on an open file is not seen as attacking |
| LegacyScan.LineMeans | Chess/ChessEngine.py:322-361 | one line is a check exactly when a neighbouring enemy threatens, named by its square; it gives a pin entry exactly when that line has a harmless neighbouring enemy (None), or an own non-king neighbour with a harmless enemy right behind it (that neighbour's square) |
| LegacyScan.RayChecksMeans | Chess/ChessEngine.py:322-361 | every line check names a threatening neighbour, every threatening neighbour is recorded, and the list is non-empty when one exists |
| LegacyScan.PinsMeans | Chess/ChessEngine.py:322-361 | the pin entries are exactly those the line rule above gives, over the directions scanned |
| LegacyScan.PinsAndChecksMeans | Chess/ChessEngine.py:303-375 | inCheck exactly when a neighbouring enemy or a knight threatens the king; the line checks are exactly the threatening neighbours; the pin entries are exactly those of the line rule |
| LegacyScan.QuietLines | Chess/ChessEngine.py:322-361 | lines where the walk finds nothing add no entries |
| LegacyScan.NoKnightChecks | Chess/ChessEngine.py:365-373 | without an enemy knight a jump away there are no knight checks |
| LegacyScan.RealPinUnrecorded | Chess/ChessEngine.py:358-361 | with white king e1, white bishop e2 and black rook e3 right behind it, the scan records neither a pin nor a check |
| LegacyMoves.LookupPin | Chess/ChessEngine.py:396-402 | the backward search finds the last entry naming the square or breaks on an empty entry |
| LegacyMoves.LookupPinMeans | Chess/ChessEngine.py:396-402 | found exactly when no empty entry follows the last naming entry, and broken exactly when one does |
| LegacyMoves.PawnMoves | Chess/ChessEngine.py:392-489 | the pawn generator changes only the pin list and king caches |
| LegacyMoves.RookMoves | Chess/ChessEngine.py:493-536 | the rook generator changes only the pin list and king caches |
| LegacyMoves.BishopMoves | Chess/ChessEngine.py:562-596 | the bishop generator changes only the pin list and king caches |
| LegacyMoves.QueenMoves | Chess/ChessEngine.py:598-600 | the queen generator changes only the pin list and king caches |
| LegacyMoves.KnightMoves | Chess/ChessEngine.py:537-561 | the knight generator changes only the pin list and king caches |
| LegacyMoves.KingStepsFrom | Chess/ChessEngine.py:609-631 | the step loop changes only the pin list and king caches |
| LegacyMoves.KingMoves | Chess/ChessEngine.py:602-633 | the king generator changes only the pin list and king caches |
| LegacyMoves.PieceMoves | Chess/ChessEngine.py:384-387 | every generator changes only the pin list and king caches |
| LegacyMoves.RowScan | Chess/ChessEngine.py:383-387 | a row of generators changes only the pin list and king caches |
| LegacyMoves.RowsUpTo | Chess/ChessEngine.py:382-388 | the row loop changes only the pin list and king caches |
| LegacyMoves.AllMoves | Chess/ChessEngine.py:379-388 | get_all_possible_moves changes only the pin list and king caches |
| LegacyMoveFacts.SlideFromMeans | Chess/ChessEngine.py:516-536 | a walk emits exactly the moves to on-board squares behind a run of enemy pieces that are empty or enemy, when the pin allows the line |
| LegacyMoveFacts.SlidesMeans | Chess/ChessEngine.py:516-536 | a pass emits exactly the moves reachable through enemy pieces along the directions the pin allows |
| LegacyMoveFacts.RookMovesMeans | Chess/ChessEngine.py:493-536 | unless the lookup breaks, the rook's moves along the four orthogonal lines the pin allows |
| LegacyMoveFacts.BishopMovesMeans | Chess/ChessEngine.py:562-596 | unless the lookup breaks, the bishop's moves along the four diagonals the pin allows |
| LegacyMoveFacts.SlidePastEnemy | Chess/ChessEngine.py:525-530 | a slider next to an enemy piece with an empty square behind it is offered both the capture and the move past it |
| LegacyMoveFacts.JumpsMeans | Chess/ChessEngine.py:553-561 | a knight emits a move to each jump square without an own piece, and nothing when pinned |
| LegacyMoveFacts.KingStepsMeans | Chess/ChessEngine.py:609-631 | the steps emitted are those whose probe found no check, up to the first refused probe |
| LegacyMoveFacts.KingStepsStop | Chess/ChessEngine.py:630-631 | the steps stop exactly when some probe finds a check |
| LegacyMoveFacts.KingMovesMeans | Chess/ChessEngine.py:602-633 | the steps before the first refused probe, and castling only when no probe was refused |
| LegacyMoveFacts.CastleMeans | Chess/ChessEngine.py:639-668 | castling only from an unattacked square with the right held, over empty squares and past two unattacked ones, emitted under those conditions, queen side first |
| LegacyMoveFacts.TwoStepUnchecked | Chess/ChessEngine.py:421-422 | the two-square advance tests neither the pin nor the crossed square |
| LegacyMoveFacts.UnpinnedPawnOnlyAdvances | Chess/ChessEngine.py:425-431 | an unpinned pawn without an en-passant target on its left only advances |
| LegacyMoveFacts.PinnedPawnCapturesLeft | Chess/ChessEngine.py:426-429 | a pawn pinned along its left diagonal captures the enemy piece there |
| LegacyMoveFacts.EnPassantOffRow | Chess/ChessEngine.py:431-466 | with the target on the left diagonal the en-passant move is emitted, and off the king's row every other added move is an advance or lands on that square |
| LegacyMoveFacts.RowScanStopped | Chess/ChessEngine.py:383-387 | after a failed generator, the rest of the row adds nothing |
| LegacyMoveFacts.RowsStopped | Chess/ChessEngine.py:382-388 | after a failed row, the remaining rows keep the failure |
| LegacyValidFacts.EvasionsMeans | Chess/ChessEngine.py:147-148 | the comprehension keeps exactly the moves that move the king or end on a valid square |
| LegacyValidFacts.CheckerOnly | Chess/ChessEngine.py:130-144 | a check record of this engine leaves only the checker's own square valid |
| LegacyValidFacts.ValidMovesFlags | Chess/ChessEngine.py:121-164 | checkmate is set when the list is empty in check and stalemate when it is empty out of check; both are cleared when the list is not empty; an empty list leaves the other flag as it was; all moves are kept out of check, the scan is stored after the generation, and the board, turn, histories and rights are untouched |
| LegacyValidFacts.SingleCheckMeans | Chess/ChessEngine.py:130-148 | under a single check exactly the generated king moves and captures of the checker remain |
| LegacyValidFacts.DoubleCheckKingOnly | Chess/ChessEngine.py:150-152 | under a double check exactly the generated king moves remain |

## Left out

- **Promotion prompt.** The pygame keyboard loops in both engines are replaced by a `promotion`
  parameter naming the piece the pawn becomes. Every promotion in one search uses the same
  choice. The second engine maps the 'k' key to a knight; that key mapping is not modelled.
- **pygame, rendering and events.** These are not modelled.
- **Randomness.** The draw of `random.randint` is an `index` parameter. The order
  `random.shuffle` leaves is a `shuffled` parameter that is a permutation of the caller's list.
- **In-place shuffle.** The shuffle of the caller's list is not modelled as a change to that
  list.
- **Global `next_move`.** It is threaded through the search as a value.
- **Dispatch dictionaries.** `moveMapping` and `pieceMovementFunctions` are a `match` on the
  piece kind.
- **`isinstance` in `__eq__`.** Not modelled, since only moves are compared.
- **The first `CastleRights` class in `Chess/ChessEngine.py`.** It is shadowed by the second and
  is not modelled.
- **Out-of-range board indexing.** Where the source would raise or wrap around on a negative
  index, the model fails (`ok == false`) rather than imitating the wrap-around.
- **The order of the second engine's en-passant row scan.** The source walks the columns
  downwards when the king is to the right. The model tests the same columns as a set, because
  its flags only ever become true.
- **The second engine's reset of the row-test flags when the right diagonal square is the
  target.** It can never run, since that code is only reached when the target is the left
  square.
- **Engine.GameState.UndoMove, LegacyEngine.GameState.UndoMove: the king caches.** They are not
  claimed to return to their values before the move. getKingMoves rewrites the cache of the
  side to move, and a castle can move an enemy king standing on the rook's square, because the
  queen-side generator never tests column c-4. Round trips are stated for the board, turn,
  histories, target and rights, and for the moving king's cache.
- **AiBackend.NegMaxRestores: the same persistent fields.** Restoration is claimed for those
  fields only, and only when nothing raised (`o.ok`).
- **AiBackend.NegMax: equivalence with plain negamax.** Alpha-beta is not proved to give the
  same root score as plain negamax. The contracts state the bounds, the root move and
  restoration instead.
- **AiBackend.RandomMove: the empty list.** On an empty list `random.randint(0, -1)` raises
  ValueError, in find_random_move and in choose_random_move alike. The model returns None for
  that failure; the source itself never returns None.
- **ChessAI.NegamaxRestores: the restoration premise.** It assumes operations whose undo takes
  back their make (`Pairs`), and this is not proved for the second engine's operations. Its
  undo_move leaves the en-passant target of the undone move in place (see
  `LegacyState.EnPassantNotRestored`). Soundness of its generated moves, which the primary
  engine's round trip relies on, is not modelled either. What the lemma establishes is that
  every make_move is matched by an undo_move.
- **ChessAI.Play: promotion moves without a moving piece.** Such a move fails in the model.
  The generators never build one.
- **LegacyMoveFacts: the pawn generator's en-passant code with the king on the pawn's row.** It
  is modelled exactly (`LegacyMoves.PawnCaptures`, proved equal to
  `LegacyEngine.GameState.GetPawnMoves`). No lemma states its row tests beyond
  `LegacyEngine.GameState.RowTest` and `LegacyMoveFacts.EnPassantOffRow`.
- **The tables and constants of `Chess/ChessAI.py`.** They are value for value those of
  `Chess/ai_backend.py` (`Chess/ChessAI.py:3-82`, `Chess/ai_backend.py:4-89`). The model
  shares one copy in `AiBackend`.
