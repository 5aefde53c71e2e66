// The computer player of the primary engine (ai_backend.py): the material and piece-square
// evaluation, the depth-3 negamax search with alpha-beta pruning that plays moves on the game
// state and takes them back, and the two ways of picking a move.

module AiBackend {
  import opened Wrappers
  import opened Pieces
  import opened Moves
  import opened EngineState
  import opened EngineMoves
  import opened GeneratedMoves
  import Engine

  const Checkmate: int := 100000
  const Stalemate: int := 0
  const Depth: nat := 3

  /** An 8x8 table of integers, indexed by row then column. */
  type Table = t: seq<seq<int>> | |t| == 8 && forall i | 0 <= i < 8 :: |t[i]| == 8
    witness seq(8, _ => seq(8, _ => 0))

  /** The material value of each kind of piece. */
  function PieceValue(k: Kind): int {
    match k
    case King => 0
    case Queen => 9
    case Rook => 5
    case Bishop => 3
    case Knight => 3
    case Pawn => 1
  }

  const QueenScores: Table := [
    [1, 1, 1, 3, 1, 1, 1, 1],
    [1, 2, 3, 3, 3, 1, 1, 1],
    [1, 4, 3, 3, 3, 4, 2, 1],
    [1, 2, 3, 3, 3, 2, 2, 1],
    [1, 2, 3, 3, 3, 2, 2, 1],
    [1, 4, 3, 3, 3, 4, 2, 1],
    [1, 1, 2, 3, 3, 1, 1, 1],
    [1, 1, 1, 3, 1, 1, 1, 1]]

  const RookScores: Table := [
    [4, 3, 4, 4, 4, 4, 3, 4],
    [4, 4, 4, 4, 4, 4, 4, 4],
    [1, 1, 2, 3, 3, 2, 1, 1],
    [1, 2, 3, 4, 4, 3, 2, 1],
    [1, 2, 3, 4, 4, 3, 2, 1],
    [1, 1, 2, 2, 2, 2, 1, 1],
    [4, 4, 4, 4, 4, 4, 4, 4],
    [4, 3, 4, 4, 4, 4, 3, 4]]

  const BishopScores: Table := [
    [4, 3, 2, 1, 1, 2, 3, 4],
    [3, 4, 3, 2, 2, 3, 4, 3],
    [2, 3, 4, 3, 3, 4, 3, 2],
    [1, 2, 3, 4, 4, 3, 2, 1],
    [1, 2, 3, 4, 4, 3, 2, 1],
    [2, 3, 4, 3, 3, 4, 3, 2],
    [3, 4, 3, 2, 2, 3, 4, 3],
    [4, 3, 2, 1, 1, 2, 3, 4]]

  const KnightScores: Table := [
    [1, 1, 1, 1, 1, 1, 1, 1],
    [1, 2, 2, 2, 2, 2, 2, 1],
    [1, 2, 3, 3, 3, 3, 2, 1],
    [1, 2, 3, 4, 4, 3, 2, 1],
    [1, 2, 3, 4, 4, 3, 2, 1],
    [1, 2, 3, 3, 3, 3, 2, 1],
    [1, 2, 2, 2, 2, 2, 2, 1],
    [1, 1, 1, 1, 1, 1, 1, 1]]

  const WhitePawnScores: Table := [
    [8, 8, 8, 8, 8, 8, 8, 8],
    [8, 8, 8, 8, 8, 8, 8, 8],
    [5, 6, 6, 7, 7, 6, 6, 5],
    [2, 3, 3, 5, 5, 3, 3, 2],
    [1, 2, 3, 4, 4, 3, 2, 1],
    [1, 1, 2, 3, 3, 2, 1, 1],
    [1, 1, 1, 0, 0, 1, 1, 1],
    [0, 0, 0, 0, 0, 0, 0, 0]]

  const BlackPawnScores: Table := [
    [0, 0, 0, 0, 0, 0, 0, 0],
    [1, 1, 1, 0, 0, 1, 1, 1],
    [1, 1, 2, 3, 3, 2, 1, 1],
    [1, 2, 3, 4, 4, 3, 2, 1],
    [2, 3, 3, 5, 5, 3, 3, 2],
    [5, 6, 6, 7, 7, 6, 6, 5],
    [8, 8, 8, 8, 8, 8, 8, 8],
    [8, 8, 8, 8, 8, 8, 8, 8]]

  /** The piece-square table of a piece other than a king (piece_pos_scores): pawns by colour,
      the other kinds shared by both colours. */
  function PositionTable(p: Piece): Table
    requires p.Occupied? && p.kind != King
  {
    match p.kind
    case Pawn => if p.color == White then WhitePawnScores else BlackPawnScores
    case Queen => QueenScores
    case Rook => RookScores
    case Bishop => BishopScores
    case Knight => KnightScores
  }

  /** The positional score of p on (r, c): its table entry, 0 for a king or an empty square. */
  function PositionScore(p: Piece, r: Coord, c: Coord): int {
    if p == Empty || p.kind == King then 0 else PositionTable(p)[r][c]
  }

  /** What the piece on (r, c) adds to the score: value plus position, counted for white and
      against black. */
  function SquareScore(p: Piece, r: Coord, c: Coord): int {
    if p == Empty then 0
    else if p.color == White then PieceValue(p.kind) + PositionScore(p, r, c)
    else -(PieceValue(p.kind) + PositionScore(p, r, c))
  }

  /** The squares (r, 0) .. (r, n-1) in the order the evaluation visits them. */
  function RowScore(b: Board, r: Coord, n: nat): int
    requires n <= 8
  {
    if n == 0 then 0 else RowScore(b, r, n - 1) + SquareScore(b[r][n - 1], r, n - 1)
  }

  /** Rows 0 .. n-1. */
  function RowsScore(b: Board, n: nat): int
    requires n <= 8
  {
    if n == 0 then 0 else RowsScore(b, n - 1) + RowScore(b, n - 1, |b[n - 1]|)
  }

  /** score_board: the mate and stalemate verdicts of the last move generation come first. */
  function Score(s: State): int {
    if s.checkmate then (if s.whiteToMove then -Checkmate else Checkmate)
    else if s.stalemate then Stalemate
    else RowsScore(s.board, |s.board|)
  }

  // ----- properties of the evaluation -----

  /** The value and table entry of a piece: what it is worth to its own side. */
  function Worth(p: Piece, r: Coord, c: Coord): int
    requires p.Occupied?
  {
    PieceValue(p.kind) + PositionScore(p, r, c)
  }

  /** The worth of color's pieces on squares (r, 0) .. (r, n-1). */
  function SideRow(b: Board, color: Color, r: Coord, n: nat): int
    requires n <= 8
  {
    if n == 0 then 0
    else SideRow(b, color, r, n - 1) + (if IsColor(b[r][n - 1], color) then Worth(b[r][n - 1], r, n - 1) else 0)
  }

  /** The worth of all of color's pieces on rows 0 .. n-1. */
  function SideTotal(b: Board, color: Color, n: nat): int
    requires n <= 8
  {
    if n == 0 then 0 else SideTotal(b, color, n - 1) + SideRow(b, color, n - 1, |b[n - 1]|)
  }

  lemma {:induction false} RowScoreSides(b: Board, r: Coord, n: nat)
    requires n <= 8
    ensures RowScore(b, r, n) == SideRow(b, White, r, n) - SideRow(b, Black, r, n)
    ensures 0 <= SideRow(b, White, r, n) <= 13 * n && 0 <= SideRow(b, Black, r, n) <= 13 * n
  {
    if n > 0 {
      RowScoreSides(b, r, n - 1);
      var p := b[r][n - 1];
      if p.Occupied? {
        assert PieceValue(p.kind) <= 9;
        assert 0 <= PositionScore(p, r, n - 1) <= 8;
      }
    }
  }

  /** Away from checkmate and stalemate the score is the worth of white's pieces minus the worth
      of black's, each piece counting its value and its table entry and a king only its 0. */
  lemma {:induction false} ScoreIsMaterialBalance(b: Board, n: nat)
    requires n <= 8
    ensures RowsScore(b, n) == SideTotal(b, White, n) - SideTotal(b, Black, n)
    ensures 0 <= SideTotal(b, White, n) <= 104 * n && 0 <= SideTotal(b, Black, n) <= 104 * n
  {
    if n > 0 {
      ScoreIsMaterialBalance(b, n - 1);
      RowScoreSides(b, n - 1, |b[n - 1]|);
    }
  }

  /** The verdicts decide the score; otherwise it is the material balance, which stays far
      inside the mate scores, so a mate outranks any position. */
  lemma ScoreMeans(s: State)
    ensures s.checkmate ==> Score(s) == (if s.whiteToMove then -Checkmate else Checkmate)
    ensures !s.checkmate && s.stalemate ==> Score(s) == Stalemate
    ensures !s.checkmate && !s.stalemate ==>
      Score(s) == SideTotal(s.board, White, |s.board|) - SideTotal(s.board, Black, |s.board|)
      && -Checkmate < -832 <= Score(s) <= 832 < Checkmate
  {
    ScoreIsMaterialBalance(s.board, |s.board|);
  }

  /** The two pawn tables are mirror images: a white pawn on row r scores what a black pawn
      scores on row 7 - r. */
  lemma PawnTablesMirror(r: Coord, c: Coord)
    ensures PositionScore(Occupied(White, Pawn), r, c) == PositionScore(Occupied(Black, Pawn), 7 - r, c)
  {
    assert WhitePawnScores[r] == BlackPawnScores[7 - r];
  }

  /** The other tables are shared by both colours and are not mirror images, so the evaluation
      does not score a position and its colour-reversed mirror image as opposites: a white rook
      on (2, 3) adds 8, a black rook on (5, 3) subtracts only 7. */
  lemma RookTableNotMirrored()
    ensures SquareScore(Occupied(White, Rook), 2, 3) == 8
    ensures SquareScore(Occupied(Black, Rook), 5, 3) == -7
  {
  }

  /** score_board: the nested loop over rows and columns. */
  method ScoreBoard(gs: Engine.GameState) returns (score: int)
    ensures score == Score(gs.Snapshot())
  {
    if gs.checkmate {
      if gs.whiteToMove {
        return -Checkmate;
      } else {
        return Checkmate;
      }
    } else if gs.stalemate {
      return Stalemate;
    }
    score := 0;
    for row := 0 to |gs.board|
      invariant score == RowsScore(gs.board, row)
    {
      for col := 0 to |gs.board[row]|
        invariant score == RowsScore(gs.board, row) + RowScore(gs.board, row, col)
      {
        var square := gs.board[row][col];
        if square != Empty {
          var posScore := 0;
          if square.kind != King {
            posScore := PositionTable(square)[row][col];
          }
          if square.color == White {
            score := score + PieceValue(square.kind) + posScore;
          } else {
            score := score - (PieceValue(square.kind) + posScore);
          }
        }
      }
    }
  }

  // ----- the search -----

  /** What a search call leaves: the game state, its score, the root move chosen so far (the
      global next_move) and false where the source raises an exception on the way. */
  datatype Outcome = Outcome(state: State, score: int, next: Option<Move>, ok: bool)

  /** The game-state operations neg_max_alpha_beta calls on gs: makeMove, getValidMoves and
      undoMove, each giving the new state and false where the source raises. */
  datatype Ops = Ops(make: (State, Move) --> (State, bool), gen: State -> Gen, undo: State -> (State, bool))

  /** The operations of the primary engine, every promotion choosing `promotion`. */
  function Play(promotion: PromotionKind): Ops {
    Ops((t: State, m: Move) requires m.isPawnPromotion ==> m.pieceMoved.Occupied? => MakeMove(t, m, promotion),
        ValidMoves, UndoMove)
  }

  /** Every move can be made (a promoted piece keeps the colour of an actual piece). */
  predicate Promotable(ms: seq<Move>) {
    forall m | m in ms :: m.isPawnPromotion ==> m.pieceMoved.Occupied?
  }

  lemma SoundPromotable(s: State, ms: seq<Move>)
    requires AllSound(s.board, s.whiteToMove, s.enpassant, ms)
    ensures Promotable(ms)
  {
    forall m | m in ms ensures m.isPawnPromotion ==> m.pieceMoved.Occupied? {
      SoundKeepsEpConsistent(s, m, Queen);
    }
  }

  /** What the search needs of its operations to be defined: makeMove accepts every move whose
      promotion has a piece, and the generator returns only such moves. */
  ghost predicate Closed(ops: Ops) {
    (forall t: State, m: Move | m.isPawnPromotion ==> m.pieceMoved.Occupied? :: ops.make.requires(t, m))
    && (forall t :: ops.gen(t).ok ==> Promotable(ops.gen(t).moves))
  }

  /** What getValidMoves guarantees the search about a generation in position t: the board,
      the side to move, the en-passant target and the histories stay as they were, and every
      move is sound there. */
  predicate Generated(t: State, g: Gen) {
    g.state.board == t.board && g.state.whiteToMove == t.whiteToMove && g.state.enpassant == t.enpassant
    && SamePersistent(g.state, t) && AllSound(t.board, t.whiteToMove, t.enpassant, g.moves)
  }

  /** The position invariant the search keeps: the histories agree and the en-passant target is
      one a pawn left behind. */
  predicate Settled(s: State) {
    LogsInv(s) && StateEpConsistent(s)
  }

  /** What the search needs of its operations to give the position back: making a sound move
      from a settled position settles the next one, undoMove after it restores every persistent
      field however the intermediate search left the scan fields, and the generator behaves like
      getValidMoves. */
  ghost predicate Restoring(ops: Ops) {
    (forall s, m | Settled(s) && Sound(s.board, s.whiteToMove, s.enpassant, m) && ops.make.requires(s, m) && ops.make(s, m).1 ::
       Settled(ops.make(s, m).0)
       && forall t | SamePersistent(t, ops.make(s, m).0) :: ops.undo(t).1 && SamePersistent(ops.undo(t).0, s))
    && (forall t :: ops.gen(t).ok ==> Generated(t, ops.gen(t)))
  }

  /** The primary engine's operations can run the search: getValidMoves emits only moves
      makeMove accepts. */
  lemma PlayClosed(promotion: PromotionKind)
    ensures Closed(Play(promotion))
  {
    forall t | ValidMoves(t).ok ensures Promotable(ValidMoves(t).moves) {
      ValidMovesSound(t);
      SoundPromotable(t, ValidMoves(t).moves);
    }
  }

  /** The primary engine's operations give the position back. */
  lemma PlayRestoring(promotion: PromotionKind)
    ensures Restoring(Play(promotion))
  {
    var ops := Play(promotion);
    forall t | ValidMoves(t).ok ensures Generated(t, ValidMoves(t)) {
      ValidMovesSound(t);
    }
    forall s, m | Settled(s) && Sound(s.board, s.whiteToMove, s.enpassant, m) && ops.make.requires(s, m) && ops.make(s, m).1
      ensures Settled(ops.make(s, m).0)
      ensures forall t | SamePersistent(t, ops.make(s, m).0) :: ops.undo(t).1 && SamePersistent(ops.undo(t).0, s)
    {
      MakeMoveKeepsLogs(s, m, promotion);
      SoundKeepsEpConsistent(s, m, promotion);
      SoundReversible(s, m);
      forall t | SamePersistent(t, MakeMove(s, m, promotion).0)
        ensures UndoMove(t).1 && SamePersistent(UndoMove(t).0, s)
      {
        UndoAfterMake(s, m, promotion, t);
      }
    }
  }

  /** neg_max_alpha_beta: the turn-signed evaluation at depth 0, else the loop over the moves
      starting from the worst score. */
  function NegMax(ops: Ops, s: State, moves: seq<Move>, depth: nat, alpha: int, beta: int, tm: int,
                  next: Option<Move>): Outcome
    requires Closed(ops) && Promotable(moves)
    decreases depth, 1, 0
  {
    if depth == 0 then Outcome(s, tm * Score(s), next, true)
    else Loop(ops, s, moves, 0, depth, alpha, beta, tm, -Checkmate, next)
  }

  /** The loop over moves[i..], with the best score so far; it ends after the last move or as
      soon as alpha, raised to the best score, reaches beta. */
  function Loop(ops: Ops, s: State, moves: seq<Move>, i: nat, depth: nat, alpha: int, beta: int, tm: int,
                maxScore: int, next: Option<Move>): Outcome
    requires Closed(ops) && i <= |moves| && 0 < depth && Promotable(moves)
    decreases depth, 0, |moves| - i
  {
    if i == |moves| then Outcome(s, maxScore, next, true)
    else
      var o := Examine(ops, s, moves[i], depth, alpha, beta, tm, maxScore, next);
      if !o.ok then o
      else
        var alpha' := if o.score > alpha then o.score else alpha;
        if alpha' >= beta then o
        else Loop(ops, o.state, moves, i + 1, depth, alpha', beta, tm, o.score, o.next)
  }

  /** One pass of the loop: make the move, generate the replies, search them one ply shallower
      with the window and the sign negated, keep the negated score if it is better (recording
      the move at the root depth), and take the move back. */
  function Examine(ops: Ops, s: State, m: Move, depth: nat, alpha: int, beta: int, tm: int,
                   maxScore: int, next: Option<Move>): Outcome
    requires Closed(ops) && 0 < depth && (m.isPawnPromotion ==> m.pieceMoved.Occupied?)
    decreases depth, 0, 0
  {
    var mk := ops.make(s, m);
    if !mk.1 then Outcome(mk.0, maxScore, next, false)
    else
      var g := ops.gen(mk.0);
      if !g.ok then Outcome(g.state, maxScore, next, false)
      else
        var sub := NegMax(ops, g.state, g.moves, depth - 1, -beta, -alpha, -tm, next);
        if !sub.ok then Outcome(sub.state, maxScore, sub.next, false)
        else
          var score := -sub.score;
          var best := if score > maxScore then score else maxScore;
          var next' := if score > maxScore && depth == Depth then Some(m) else sub.next;
          var u := ops.undo(sub.state);
          Outcome(u.0, best, next', u.1)
  }

  /** find_best_move on the moves in the order the shuffle left them. */
  function BestMove(s: State, shuffled: seq<Move>, promotion: PromotionKind): Outcome
    requires Promotable(shuffled)
  {
    PlayClosed(promotion);
    NegMax(Play(promotion), s, shuffled, Depth, -Checkmate, Checkmate, if s.whiteToMove then 1 else -1, None)
  }

  // ----- properties of the search -----

  /** Within a node the best score never decreases: the loop returns at least the best score it
      starts from. */
  lemma {:induction false} LoopAtLeast(ops: Ops, s: State, moves: seq<Move>, i: nat, depth: nat, alpha: int, beta: int, tm: int,
                                       maxScore: int, next: Option<Move>)
    requires Closed(ops) && i <= |moves| && 0 < depth && Promotable(moves)
    ensures Loop(ops, s, moves, i, depth, alpha, beta, tm, maxScore, next).score >= maxScore
    decreases |moves| - i
  {
    if i < |moves| {
      var o := Examine(ops, s, moves[i], depth, alpha, beta, tm, maxScore, next);
      var alpha' := if o.score > alpha then o.score else alpha;
      if o.ok && alpha' < beta {
        LoopAtLeast(ops, o.state, moves, i + 1, depth, alpha', beta, tm, o.score, o.next);
      }
    }
  }

  /** Below the root no search can score a node under -Checkmate, and a node without moves
      scores exactly -Checkmate, stalemate included; the state and the root move are then
      untouched. */
  lemma NegMaxAtLeast(ops: Ops, s: State, moves: seq<Move>, depth: nat, alpha: int, beta: int, tm: int,
                      next: Option<Move>)
    requires Closed(ops) && Promotable(moves) && 0 < depth
    ensures NegMax(ops, s, moves, depth, alpha, beta, tm, next).score >= -Checkmate
    ensures |moves| == 0 ==> NegMax(ops, s, moves, depth, alpha, beta, tm, next) == Outcome(s, -Checkmate, next, true)
  {
    LoopAtLeast(ops, s, moves, 0, depth, alpha, beta, tm, -Checkmate, next);
  }

  /** With a turn multiplier of 1 or -1 every score lies between the two mate scores. */
  lemma {:induction false} NegMaxBounded(ops: Ops, s: State, moves: seq<Move>, depth: nat, alpha: int, beta: int, tm: int,
                                         next: Option<Move>)
    requires Closed(ops) && Promotable(moves) && (tm == 1 || tm == -1)
    ensures -Checkmate <= NegMax(ops, s, moves, depth, alpha, beta, tm, next).score <= Checkmate
    decreases depth, 1, 0
  {
    if depth == 0 {
      ScoreMeans(s);
    } else {
      LoopBounded(ops, s, moves, 0, depth, alpha, beta, tm, -Checkmate, next);
    }
  }

  lemma {:induction false} LoopBounded(ops: Ops, s: State, moves: seq<Move>, i: nat, depth: nat, alpha: int, beta: int, tm: int,
                                       maxScore: int, next: Option<Move>)
    requires Closed(ops) && i <= |moves| && 0 < depth && Promotable(moves) && (tm == 1 || tm == -1)
    requires -Checkmate <= maxScore <= Checkmate
    ensures -Checkmate <= Loop(ops, s, moves, i, depth, alpha, beta, tm, maxScore, next).score <= Checkmate
    decreases depth, 0, |moves| - i
  {
    if i < |moves| {
      ExamineBounded(ops, s, moves[i], depth, alpha, beta, tm, maxScore, next);
      var o := Examine(ops, s, moves[i], depth, alpha, beta, tm, maxScore, next);
      var alpha' := if o.score > alpha then o.score else alpha;
      if o.ok && alpha' < beta {
        LoopBounded(ops, o.state, moves, i + 1, depth, alpha', beta, tm, o.score, o.next);
      }
    }
  }

  lemma {:induction false} ExamineBounded(ops: Ops, s: State, m: Move, depth: nat, alpha: int, beta: int, tm: int,
                                          maxScore: int, next: Option<Move>)
    requires Closed(ops) && 0 < depth && (m.isPawnPromotion ==> m.pieceMoved.Occupied?) && (tm == 1 || tm == -1)
    requires -Checkmate <= maxScore <= Checkmate
    ensures -Checkmate <= Examine(ops, s, m, depth, alpha, beta, tm, maxScore, next).score <= Checkmate
    decreases depth, 0, 0
  {
    var mk := ops.make(s, m);
    if mk.1 && ops.gen(mk.0).ok {
      var g := ops.gen(mk.0);
      NegMaxBounded(ops, g.state, g.moves, depth - 1, -beta, -alpha, -tm, next);
    }
  }

  /** Below the root depth the search never touches the chosen root move. */
  lemma {:induction false} NegMaxKeepsNext(ops: Ops, s: State, moves: seq<Move>, depth: nat, alpha: int, beta: int, tm: int,
                                           next: Option<Move>)
    requires Closed(ops) && Promotable(moves) && depth < Depth
    ensures NegMax(ops, s, moves, depth, alpha, beta, tm, next).next == next
    decreases depth, 1, 0
  {
    if depth > 0 {
      LoopKeepsNext(ops, s, moves, 0, depth, alpha, beta, tm, -Checkmate, next);
    }
  }

  lemma {:induction false} LoopKeepsNext(ops: Ops, s: State, moves: seq<Move>, i: nat, depth: nat, alpha: int, beta: int, tm: int,
                                         maxScore: int, next: Option<Move>)
    requires Closed(ops) && i <= |moves| && 0 < depth < Depth && Promotable(moves)
    ensures Loop(ops, s, moves, i, depth, alpha, beta, tm, maxScore, next).next == next
    decreases depth, 0, |moves| - i
  {
    if i < |moves| {
      ExamineKeepsNext(ops, s, moves[i], depth, alpha, beta, tm, maxScore, next);
      var o := Examine(ops, s, moves[i], depth, alpha, beta, tm, maxScore, next);
      var alpha' := if o.score > alpha then o.score else alpha;
      if o.ok && alpha' < beta {
        LoopKeepsNext(ops, o.state, moves, i + 1, depth, alpha', beta, tm, o.score, o.next);
      }
    }
  }

  lemma {:induction false} ExamineKeepsNext(ops: Ops, s: State, m: Move, depth: nat, alpha: int, beta: int, tm: int,
                                            maxScore: int, next: Option<Move>)
    requires Closed(ops) && 0 < depth < Depth && (m.isPawnPromotion ==> m.pieceMoved.Occupied?)
    ensures Examine(ops, s, m, depth, alpha, beta, tm, maxScore, next).next == next
    decreases depth, 0, 0
  {
    var mk := ops.make(s, m);
    if mk.1 && ops.gen(mk.0).ok {
      var g := ops.gen(mk.0);
      NegMaxKeepsNext(ops, g.state, g.moves, depth - 1, -beta, -alpha, -tm, next);
    }
  }

  /** At the root the chosen move changes exactly when the best score improves, and then to the
      move that improved it. */
  lemma ExamineAtRoot(ops: Ops, s: State, m: Move, alpha: int, beta: int, tm: int,
                      maxScore: int, next: Option<Move>)
    requires Closed(ops) && (m.isPawnPromotion ==> m.pieceMoved.Occupied?)
    ensures var o := Examine(ops, s, m, Depth, alpha, beta, tm, maxScore, next);
      o.score >= maxScore
      && (o.score > maxScore ==> o.next == Some(m))
      && (o.score == maxScore ==> o.next == next)
  {
    var mk := ops.make(s, m);
    if mk.1 && ops.gen(mk.0).ok {
      var g := ops.gen(mk.0);
      NegMaxKeepsNext(ops, g.state, g.moves, Depth - 1, -beta, -alpha, -tm, next);
    }
  }

  /** The loop over moves[i..n] only: the same passes as Loop, stopping after the move before
      index n (or earlier, where Loop stops). Its score is the best score after those moves. */
  function LoopUpTo(ops: Ops, s: State, moves: seq<Move>, i: nat, n: nat, depth: nat, alpha: int, beta: int, tm: int,
                    maxScore: int, next: Option<Move>): Outcome
    requires Closed(ops) && i <= n <= |moves| && 0 < depth && Promotable(moves)
    decreases n - i
  {
    if i == n then Outcome(s, maxScore, next, true)
    else
      var o := Examine(ops, s, moves[i], depth, alpha, beta, tm, maxScore, next);
      if !o.ok then o
      else
        var alpha' := if o.score > alpha then o.score else alpha;
        if alpha' >= beta then o
        else LoopUpTo(ops, o.state, moves, i + 1, n, depth, alpha', beta, tm, o.score, o.next)
  }

  /** Run to the end of the list, the prefix loop is the loop. */
  lemma {:induction false} LoopUpToEnd(ops: Ops, s: State, moves: seq<Move>, i: nat, depth: nat, alpha: int, beta: int, tm: int,
                                       maxScore: int, next: Option<Move>)
    requires Closed(ops) && i <= |moves| && 0 < depth && Promotable(moves)
    ensures LoopUpTo(ops, s, moves, i, |moves|, depth, alpha, beta, tm, maxScore, next)
         == Loop(ops, s, moves, i, depth, alpha, beta, tm, maxScore, next)
    decreases |moves| - i
  {
    if i < |moves| {
      var o := Examine(ops, s, moves[i], depth, alpha, beta, tm, maxScore, next);
      var alpha' := if o.score > alpha then o.score else alpha;
      if o.ok && alpha' < beta {
        LoopUpToEnd(ops, o.state, moves, i + 1, depth, alpha', beta, tm, o.score, o.next);
      }
    }
  }

  /** At the root, moves[k] is the first move of moves[i..] after which the best score is
      `score`: every shorter run of the loop stays below it. */
  predicate FirstToReach(ops: Ops, s: State, moves: seq<Move>, i: nat, k: nat, alpha: int, beta: int, tm: int,
                         maxScore: int, next: Option<Move>, score: int)
    requires Closed(ops) && i <= k < |moves| && Promotable(moves)
  {
    LoopUpTo(ops, s, moves, i, k + 1, Depth, alpha, beta, tm, maxScore, next).score == score
    && forall j | i <= j <= k :: LoopUpTo(ops, s, moves, i, j, Depth, alpha, beta, tm, maxScore, next).score < score
  }

  /** At the root the recorded move is the one that last raised the best score: when the loop
      ends above the score it started from, next_move is the first move, in list order, after
      which the best score reached its final value; otherwise next_move is unchanged. */
  lemma {:induction false} LoopAtRoot(ops: Ops, s: State, moves: seq<Move>, i: nat, alpha: int, beta: int, tm: int,
                                      maxScore: int, next: Option<Move>)
    requires Closed(ops) && i <= |moves| && Promotable(moves)
    ensures var o := Loop(ops, s, moves, i, Depth, alpha, beta, tm, maxScore, next);
      o.score >= maxScore
      && (o.score > maxScore ==>
            exists k | i <= k < |moves| :: o.next == Some(moves[k])
              && FirstToReach(ops, s, moves, i, k, alpha, beta, tm, maxScore, next, o.score))
      && (o.score == maxScore ==> o.next == next)
    decreases |moves| - i
  {
    if i < |moves| {
      ExamineAtRoot(ops, s, moves[i], alpha, beta, tm, maxScore, next);
      var o := Examine(ops, s, moves[i], Depth, alpha, beta, tm, maxScore, next);
      var alpha' := if o.score > alpha then o.score else alpha;
      var first := LoopUpTo(ops, s, moves, i, i + 1, Depth, alpha, beta, tm, maxScore, next);
      assert first.score == o.score by {
        if o.ok && alpha' < beta {
          assert first == LoopUpTo(ops, o.state, moves, i + 1, i + 1, Depth, alpha', beta, tm, o.score, o.next);
        }
      }
      if o.ok && alpha' < beta {
        LoopAtRoot(ops, o.state, moves, i + 1, alpha', beta, tm, o.score, o.next);
        var r := Loop(ops, o.state, moves, i + 1, Depth, alpha', beta, tm, o.score, o.next);
        if r.score > o.score {
          var k :| i + 1 <= k < |moves| && r.next == Some(moves[k])
            && FirstToReach(ops, o.state, moves, i + 1, k, alpha', beta, tm, o.score, o.next, r.score);
          forall j | i + 1 <= j <= k + 1
            ensures LoopUpTo(ops, s, moves, i, j, Depth, alpha, beta, tm, maxScore, next)
                 == LoopUpTo(ops, o.state, moves, i + 1, j, Depth, alpha', beta, tm, o.score, o.next)
          {
          }
          assert FirstToReach(ops, s, moves, i, k, alpha, beta, tm, maxScore, next, r.score);
        } else if r.score > maxScore {
          assert FirstToReach(ops, s, moves, i, i, alpha, beta, tm, maxScore, next, r.score);
        }
      } else if o.score > maxScore {
        assert FirstToReach(ops, s, moves, i, i, alpha, beta, tm, maxScore, next, o.score);
      }
    }
  }

  /** Every makeMove of the search is followed by an undoMove, so a search over sound moves from
      a settled position gives back the board, the side to move, the histories, the en-passant
      target and the castling rights it started from, unless the source raised on the way. */
  lemma {:induction false} NegMaxRestores(ops: Ops, s: State, moves: seq<Move>, depth: nat, alpha: int, beta: int, tm: int,
                                          next: Option<Move>)
    requires Closed(ops) && Restoring(ops) && Promotable(moves)
    requires Settled(s) && AllSound(s.board, s.whiteToMove, s.enpassant, moves)
    ensures var o := NegMax(ops, s, moves, depth, alpha, beta, tm, next);
      o.ok ==> SamePersistent(o.state, s)
    decreases depth, 1, 0
  {
    if depth > 0 {
      LoopRestores(ops, s, moves, 0, depth, alpha, beta, tm, -Checkmate, next);
    }
  }

  lemma {:induction false} LoopRestores(ops: Ops, s: State, moves: seq<Move>, i: nat, depth: nat, alpha: int, beta: int, tm: int,
                                        maxScore: int, next: Option<Move>)
    requires Closed(ops) && Restoring(ops) && i <= |moves| && 0 < depth && Promotable(moves)
    requires Settled(s) && AllSound(s.board, s.whiteToMove, s.enpassant, moves)
    ensures var o := Loop(ops, s, moves, i, depth, alpha, beta, tm, maxScore, next);
      o.ok ==> SamePersistent(o.state, s)
    decreases depth, 0, |moves| - i
  {
    if i < |moves| {
      ExamineRestores(ops, s, moves[i], depth, alpha, beta, tm, maxScore, next);
      var o := Examine(ops, s, moves[i], depth, alpha, beta, tm, maxScore, next);
      var alpha' := if o.score > alpha then o.score else alpha;
      if o.ok && alpha' < beta {
        SoundSame(o.state, s, moves);
        LoopRestores(ops, o.state, moves, i + 1, depth, alpha', beta, tm, o.score, o.next);
      }
    }
  }

  lemma {:induction false} ExamineRestores(ops: Ops, s: State, m: Move, depth: nat, alpha: int, beta: int, tm: int,
                                           maxScore: int, next: Option<Move>)
    requires Closed(ops) && Restoring(ops) && 0 < depth && (m.isPawnPromotion ==> m.pieceMoved.Occupied?)
    requires Settled(s) && Sound(s.board, s.whiteToMove, s.enpassant, m)
    ensures var o := Examine(ops, s, m, depth, alpha, beta, tm, maxScore, next);
      o.ok ==> SamePersistent(o.state, s)
    decreases depth, 0, 0
  {
    var mk := ops.make(s, m);
    if mk.1 && ops.gen(mk.0).ok {
      var g := ops.gen(mk.0);
      assert Settled(mk.0) && Generated(mk.0, g);
      SettledSame(g.state, mk.0);
      NegMaxRestores(ops, g.state, g.moves, depth - 1, -beta, -alpha, -tm, next);
      var sub := NegMax(ops, g.state, g.moves, depth - 1, -beta, -alpha, -tm, next);
      if sub.ok {
        assert SamePersistent(sub.state, mk.0);
        assert ops.undo(sub.state).1 && SamePersistent(ops.undo(sub.state).0, s);
      }
    }
  }

  /** Soundness of a move list only looks at fields the persistent comparison covers. */
  lemma SoundSame(t: State, s: State, moves: seq<Move>)
    requires SamePersistent(t, s) && Settled(s) && AllSound(s.board, s.whiteToMove, s.enpassant, moves)
    ensures Settled(t) && AllSound(t.board, t.whiteToMove, t.enpassant, moves)
  {
    SettledSame(t, s);
  }

  /** The invariant only looks at fields the persistent comparison covers. */
  lemma SettledSame(t: State, u: State)
    requires SamePersistent(t, u) && Settled(u)
    ensures Settled(t)
  {
  }

  /** The best score find_best_move holds after searching the first n shuffled moves. */
  function BestAfter(s: State, shuffled: seq<Move>, promotion: PromotionKind, n: nat): int
    requires Promotable(shuffled) && n <= |shuffled|
  {
    PlayClosed(promotion);
    LoopUpTo(Play(promotion), s, shuffled, 0, n, Depth, -Checkmate, Checkmate, if s.whiteToMove then 1 else -1,
             -Checkmate, None).score
  }

  /** find_best_move returns None exactly when no move scored above -Checkmate (in particular
      when there were no moves); otherwise it returns the first shuffled move after which the
      best score reached its final value, the move that last strictly raised it. */
  lemma BestMoveMeans(s: State, shuffled: seq<Move>, promotion: PromotionKind)
    requires Promotable(shuffled)
    ensures var o := BestMove(s, shuffled, promotion);
      -Checkmate <= o.score <= Checkmate
      && o.score == BestAfter(s, shuffled, promotion, |shuffled|)
      && (o.next.Some? <==> o.score > -Checkmate)
      && (o.next.Some? ==> o.next.value in shuffled)
      && (o.next.Some? ==>
            exists k | 0 <= k < |shuffled| :: o.next == Some(shuffled[k])
              && BestAfter(s, shuffled, promotion, k + 1) == o.score
              && forall j | 0 <= j <= k :: BestAfter(s, shuffled, promotion, j) < o.score)
      && (|shuffled| == 0 ==> o.next == None)
  {
    var tm := if s.whiteToMove then 1 else -1;
    PlayClosed(promotion);
    var ops := Play(promotion);
    var o := BestMove(s, shuffled, promotion);
    assert o == Loop(ops, s, shuffled, 0, Depth, -Checkmate, Checkmate, tm, -Checkmate, None);
    LoopAtRoot(ops, s, shuffled, 0, -Checkmate, Checkmate, tm, -Checkmate, None);
    LoopUpToEnd(ops, s, shuffled, 0, Depth, -Checkmate, Checkmate, tm, -Checkmate, None);
    NegMaxBounded(ops, s, shuffled, Depth, -Checkmate, Checkmate, tm, None);
    if o.next.Some? {
      var k :| 0 <= k < |shuffled| && o.next == Some(shuffled[k])
        && FirstToReach(ops, s, shuffled, 0, k, -Checkmate, Checkmate, tm, -Checkmate, None, o.score);
      forall j | 0 <= j <= k ensures BestAfter(s, shuffled, promotion, j) < o.score {
        assert BestAfter(s, shuffled, promotion, j)
            == LoopUpTo(ops, s, shuffled, 0, j, Depth, -Checkmate, Checkmate, tm, -Checkmate, None).score;
      }
      assert BestAfter(s, shuffled, promotion, k + 1) == o.score;
    }
  }

  /** find_best_move over moves getValidMoves generated gives back the position it started
      from, unless the source raised on the way. */
  lemma BestMoveRestores(s: State, shuffled: seq<Move>, promotion: PromotionKind)
    requires Settled(s) && AllSound(s.board, s.whiteToMove, s.enpassant, shuffled)
    ensures Promotable(shuffled)
    ensures var o := BestMove(s, shuffled, promotion);
      o.ok ==> SamePersistent(o.state, s)
  {
    SoundPromotable(s, shuffled);
    PlayClosed(promotion);
    PlayRestoring(promotion);
    NegMaxRestores(Play(promotion), s, shuffled, Depth, -Checkmate, Checkmate, if s.whiteToMove then 1 else -1, None);
  }

  /** find_random_move, and choose_random_move of the second search, which is the same code:
      `index` is the value random.randint drew from 0 to len - 1. On an empty list randint
      raises ValueError; None here stands for that failure, since the source never returns
      None. */
  function RandomMove(validMoves: seq<Move>, index: int): (r: Option<Move>)
    requires |validMoves| == 0 || 0 <= index < |validMoves|
    ensures r.Some? <==> |validMoves| > 0
    ensures r.Some? ==> r.value in validMoves && r.value == validMoves[index]
  {
    if |validMoves| == 0 then None else Some(validMoves[index])
  }

  // ----- the search on the game state -----

  /** ops are the primary engine's operations with the given promotion choice; stated so that
      the methods below reason about the abstract operations only. */
  ghost predicate Plays(ops: Ops, promotion: PromotionKind) {
    forall p: PromotionKind | p == promotion :: ops == Play(p)
  }

  /** makeMove on gs, as the primary engine's make operation. */
  method MakeOn(gs: Engine.GameState, move: Move, promotion: PromotionKind, ghost ops: Ops) returns (ok: bool)
    requires (move.isPawnPromotion ==> move.pieceMoved.Occupied?) && Plays(ops, promotion) && Closed(ops)
    modifies gs
    ensures (gs.Snapshot(), ok) == ops.make(old(gs.Snapshot()), move)
  {
    ok := gs.MakeMove(move, promotion);
    assert ops == Play(promotion);
  }

  /** getValidMoves on gs, as the primary engine's generator. */
  method GenerateOn(gs: Engine.GameState, promotion: PromotionKind, ghost ops: Ops) returns (moves: seq<Move>, ok: bool)
    requires Plays(ops, promotion)
    modifies gs
    ensures Gen(gs.Snapshot(), moves, ok) == ops.gen(old(gs.Snapshot()))
  {
    moves, ok := gs.GetValidMoves();
    assert ops == Play(promotion);
  }

  /** undoMove on gs, as the primary engine's undo operation. */
  method UndoOn(gs: Engine.GameState, promotion: PromotionKind, ghost ops: Ops) returns (ok: bool)
    requires Plays(ops, promotion)
    modifies gs
    ensures (gs.Snapshot(), ok) == ops.undo(old(gs.Snapshot()))
  {
    ok := gs.UndoMove();
    assert ops == Play(promotion);
  }

  /** neg_max_alpha_beta on the game state: it makes each move on gs, generates the replies,
      recurses, and takes the move back, leaving gs, the score and the root move exactly as the
      search function says. */
  method NegMaxAlphaBeta(gs: Engine.GameState, validMoves: seq<Move>, depth: nat, alpha: int, beta: int, tm: int,
                         nextIn: Option<Move>, promotion: PromotionKind, ghost ops: Ops)
      returns (score: int, next: Option<Move>, ok: bool)
    requires Plays(ops, promotion) && Closed(ops) && Promotable(validMoves)
    modifies gs
    ensures var o := NegMax(ops, old(gs.Snapshot()), validMoves, depth, alpha, beta, tm, nextIn);
      gs.Snapshot() == o.state && score == o.score && next == o.next && ok == o.ok
    decreases depth, 1
  {
    if depth == 0 {
      var evaluation := ScoreBoard(gs);
      return tm * evaluation, nextIn, true;
    }
    ghost var goal := NegMax(ops, gs.Snapshot(), validMoves, depth, alpha, beta, tm, nextIn);
    var maxScore := -Checkmate;
    var a := alpha;
    next := nextIn;
    var i := 0;
    while i < |validMoves|
      invariant i <= |validMoves|
      invariant Loop(ops, gs.Snapshot(), validMoves, i, depth, a, beta, tm, maxScore, next) == goal
      decreases |validMoves| - i
    {
      var passOk;
      maxScore, next, passOk := TryMove(gs, validMoves[i], depth, a, beta, tm, maxScore, next, promotion, ops);
      if !passOk {
        return maxScore, next, false;
      }
      if maxScore > a {
        a := maxScore;
      }
      if a >= beta {
        return maxScore, next, true;
      }
      i := i + 1;
    }
    return maxScore, next, true;
  }

  /** The body of the loop of neg_max_alpha_beta for one move. */
  method TryMove(gs: Engine.GameState, move: Move, depth: nat, alpha: int, beta: int, tm: int,
                 maxScore: int, nextIn: Option<Move>, promotion: PromotionKind, ghost ops: Ops)
      returns (best: int, next: Option<Move>, ok: bool)
    requires Plays(ops, promotion) && Closed(ops)
    requires 0 < depth && (move.isPawnPromotion ==> move.pieceMoved.Occupied?)
    modifies gs
    ensures var o := Examine(ops, old(gs.Snapshot()), move, depth, alpha, beta, tm, maxScore, nextIn);
      gs.Snapshot() == o.state && best == o.score && next == o.next && ok == o.ok
    decreases depth, 0
  {
    var made := MakeOn(gs, move, promotion, ops);
    if !made {
      return maxScore, nextIn, false;
    }
    var nextMoves, generated := GenerateOn(gs, promotion, ops);
    if !generated {
      return maxScore, nextIn, false;
    }
    var sub, subNext, subOk := NegMaxAlphaBeta(gs, nextMoves, depth - 1, -beta, -alpha, -tm, nextIn, promotion, ops);
    if !subOk {
      return maxScore, subNext, false;
    }
    var score := -sub;
    best, next := maxScore, subNext;
    if score > maxScore {
      best := score;
      if depth == Depth {
        next := Some(move);
      }
    }
    ok := UndoOn(gs, promotion, ops);
  }

  /** find_best_move: with `shuffled` the order random.shuffle left the caller's list in, it
      searches to Depth for the side to move and returns the root move the search recorded: the
      first shuffled move after which the best score reached its final value, or None, with gs
      back where it started unless the source raised. */
  method FindBestMove(gs: Engine.GameState, validMoves: seq<Move>, shuffled: seq<Move>, promotion: PromotionKind)
      returns (next: Option<Move>, ok: bool)
    requires Promotable(validMoves) && multiset(shuffled) == multiset(validMoves)
    modifies gs
    ensures Promotable(shuffled)
    ensures var o := BestMove(old(gs.Snapshot()), shuffled, promotion);
      gs.Snapshot() == o.state && next == o.next && ok == o.ok
    ensures next.Some? ==> next.value in validMoves
    ensures next.Some? ==>
      exists k | 0 <= k < |shuffled| :: next == Some(shuffled[k])
        && BestAfter(old(gs.Snapshot()), shuffled, promotion, k + 1) == BestAfter(old(gs.Snapshot()), shuffled, promotion, |shuffled|)
        && forall j | 0 <= j <= k :: BestAfter(old(gs.Snapshot()), shuffled, promotion, j) < BestAfter(old(gs.Snapshot()), shuffled, promotion, |shuffled|)
    ensures |validMoves| == 0 ==> next == None
  {
    assert Promotable(shuffled) by {
      forall m | m in shuffled ensures m.isPawnPromotion ==> m.pieceMoved.Occupied? {
        assert m in multiset(shuffled);
      }
    }
    ghost var s0 := gs.Snapshot();
    PlayClosed(promotion);
    ghost var ops := Play(promotion);
    var turnMultiplier := if gs.whiteToMove then 1 else -1;
    var score;
    score, next, ok := NegMaxAlphaBeta(gs, shuffled, Depth, -Checkmate, Checkmate, turnMultiplier, None, promotion, ops);
    BestMoveMeans(s0, shuffled, promotion);
    if next.Some? {
      assert next.value in multiset(shuffled);
    }
  }
}
