// The computer player of the second engine (ChessAI.py): the same evaluation as the primary
// player, and a depth-3 negamax search with alpha-beta pruning over the second engine's game
// state. Its piece values, piece-square tables and constants are identical to the primary
// player's and are shared with AiBackend. Two defects are modelled as written: the root move is
// overwritten for every move examined at the root, so the search records the LAST root move it
// looked at rather than the best one; and get_best_move returns its own local variable, which
// is always None.

module ChessAI {
  import opened Wrappers
  import opened Pieces
  import opened Moves
  import opened LegacyState
  import opened LegacyMoves
  import AiBackend
  import LegacyValidFacts
  import LegacyEngine

  /** evaluate_board: the mate and stalemate verdicts of the last move generation first, then
      the material and piece-square balance. */
  function Evaluate(s: State): int {
    if s.checkmate then (if s.whiteToMove then -AiBackend.Checkmate else AiBackend.Checkmate)
    else if s.stalemate then AiBackend.Stalemate
    else AiBackend.RowsScore(s.board, |s.board|)
  }

  /** The verdicts decide the score; otherwise it is the worth of white's pieces minus the worth
      of black's, far inside the mate scores. */
  lemma EvaluateMeans(s: State)
    ensures s.checkmate ==> Evaluate(s) == (if s.whiteToMove then -AiBackend.Checkmate else AiBackend.Checkmate)
    ensures !s.checkmate && s.stalemate ==> Evaluate(s) == AiBackend.Stalemate
    ensures !s.checkmate && !s.stalemate ==>
      Evaluate(s) == AiBackend.SideTotal(s.board, White, |s.board|) - AiBackend.SideTotal(s.board, Black, |s.board|)
      && -AiBackend.Checkmate < -832 <= Evaluate(s) <= 832 < AiBackend.Checkmate
  {
    AiBackend.ScoreIsMaterialBalance(s.board, |s.board|);
  }

  /** evaluate_board on the game state: the nested loop over rows and columns. */
  method EvaluateBoard(gs: LegacyEngine.GameState) returns (score: int)
    ensures score == Evaluate(gs.Snapshot())
  {
    if gs.checkmate {
      if gs.whiteToMove {
        return -AiBackend.Checkmate;
      } else {
        return AiBackend.Checkmate;
      }
    } else if gs.stalemate {
      return AiBackend.Stalemate;
    }
    score := 0;
    for row := 0 to |gs.board|
      invariant score == AiBackend.RowsScore(gs.board, row)
    {
      for col := 0 to |gs.board[row]|
        invariant score == AiBackend.RowsScore(gs.board, row) + AiBackend.RowScore(gs.board, row, col)
      {
        var square := gs.board[row][col];
        if square != Empty {
          var positionScore := 0;
          if square.kind != King {
            positionScore := AiBackend.PositionTable(square)[row][col];
          }
          if square.color == White {
            score := score + AiBackend.PieceValue(square.kind) + positionScore;
          } else {
            score := score - (AiBackend.PieceValue(square.kind) + positionScore);
          }
        }
      }
    }
  }

  // ----- the search -----

  /** What a search call leaves: the game state, its score, the global next_move and false where
      the source raises an exception on the way. */
  datatype Outcome = Outcome(state: State, score: int, next: Option<Move>, ok: bool)

  /** The game-state operations negamax_search calls on gs: make_move, get_valid_moves and
      undo_move, each giving the new state and false where the source raises. */
  datatype Ops = Ops(make: (State, Move) -> (State, bool), gen: State -> Gen, undo: State -> (State, bool))

  /** The operations of the second engine, every promotion choosing `promotion`. A promotion
      move without a moving piece, which the generators never build, counts as a failure. */
  function Play(promotion: PromotionKind): Ops {
    Ops((t: State, m: Move) => if m.isPawnPromotion && m.pieceMoved == Empty then (t, false) else MakeMove(t, m, promotion),
        ValidMoves, UndoMove)
  }

  /** negamax_search: the turn-signed evaluation at depth 0, else the loop over the moves
      starting from the worst score. */
  function Negamax(ops: Ops, s: State, moves: seq<Move>, depth: nat, alpha: int, beta: int, tm: int,
                   next: Option<Move>): Outcome
    decreases depth, 1, 0
  {
    if depth == 0 then Outcome(s, tm * Evaluate(s), next, true)
    else Loop(ops, s, moves, 0, depth, alpha, beta, tm, -AiBackend.Checkmate, next)
  }

  /** The loop over moves[i..], with the best score so far; it ends after the last move or as
      soon as alpha, raised to the best score, reaches beta. */
  function Loop(ops: Ops, s: State, moves: seq<Move>, i: nat, depth: nat, alpha: int, beta: int, tm: int,
                maxScore: int, next: Option<Move>): Outcome
    requires i <= |moves| && 0 < depth
    decreases depth, 0, |moves| - i
  {
    if i == |moves| then Outcome(s, maxScore, next, true)
    else
      var o := Examine(ops, s, moves[i], depth, alpha, beta, tm, maxScore, next);
      if !o.ok then o
      else
        var alpha' := if o.score > alpha then o.score else alpha;
        if alpha' >= beta then o
        else Loop(ops, o.state, moves, i + 1, depth, alpha', beta, tm, o.score, o.next)
  }

  /** One pass of the loop: make the move, generate the replies, search them one ply shallower
      with the window and the sign negated, keep the negated score if it is better, record the
      move as next_move whenever this is the root depth (better or not), and take the move
      back. */
  function Examine(ops: Ops, s: State, m: Move, depth: nat, alpha: int, beta: int, tm: int,
                   maxScore: int, next: Option<Move>): Outcome
    requires 0 < depth
    decreases depth, 0, 0
  {
    var mk := ops.make(s, m);
    if !mk.1 then Outcome(mk.0, maxScore, next, false)
    else
      var g := ops.gen(mk.0);
      if !g.ok then Outcome(g.state, maxScore, next, false)
      else
        var sub := Negamax(ops, g.state, g.moves, depth - 1, -beta, -alpha, -tm, next);
        if !sub.ok then Outcome(sub.state, maxScore, sub.next, false)
        else
          var score := -sub.score;
          var best := if score > maxScore then score else maxScore;
          var next' := if depth == AiBackend.Depth then Some(m) else sub.next;
          var u := ops.undo(sub.state);
          Outcome(u.0, best, next', u.1)
  }

  /** get_best_move on the moves in the order the shuffle left them, with `global` the value the
      global next_move held before: the search runs for its effect on the game state and on the
      global, and the result is the local next_move_1, which nothing assigns after None. */
  function BestMove(s: State, shuffled: seq<Move>, promotion: PromotionKind, global: Option<Move>): (Option<Move>, Outcome) {
    (None, Negamax(Play(promotion), s, shuffled, AiBackend.Depth, -AiBackend.Checkmate, AiBackend.Checkmate,
                   if s.whiteToMove then 1 else -1, global))
  }

  // ----- properties of the search -----

  /** Within a node the best score never decreases: the loop returns at least the best score it
      starts from. */
  lemma {:induction false} LoopAtLeast(ops: Ops, s: State, moves: seq<Move>, i: nat, depth: nat, alpha: int, beta: int, tm: int,
                                       maxScore: int, next: Option<Move>)
    requires i <= |moves| && 0 < depth
    ensures Loop(ops, s, moves, i, depth, alpha, beta, tm, maxScore, next).score >= maxScore
    decreases |moves| - i
  {
    if i < |moves| {
      var o := Examine(ops, s, moves[i], depth, alpha, beta, tm, maxScore, next);
      var alpha' := if o.score > alpha then o.score else alpha;
      if o.ok && alpha' < beta {
        LoopAtLeast(ops, o.state, moves, i + 1, depth, alpha', beta, tm, o.score, o.next);
      }
    }
  }

  /** Below depth 0 no search scores a node under -checkmateScore, and a node without moves
      scores exactly -checkmateScore, stalemate included; the state and next_move are then
      untouched. */
  lemma NegamaxAtLeast(ops: Ops, s: State, moves: seq<Move>, depth: nat, alpha: int, beta: int, tm: int,
                       next: Option<Move>)
    requires 0 < depth
    ensures Negamax(ops, s, moves, depth, alpha, beta, tm, next).score >= -AiBackend.Checkmate
    ensures |moves| == 0 ==> Negamax(ops, s, moves, depth, alpha, beta, tm, next) == Outcome(s, -AiBackend.Checkmate, next, true)
  {
    LoopAtLeast(ops, s, moves, 0, depth, alpha, beta, tm, -AiBackend.Checkmate, next);
  }

  /** With a turn multiplier of 1 or -1 every score lies between the two mate scores. */
  lemma {:induction false} NegamaxBounded(ops: Ops, s: State, moves: seq<Move>, depth: nat, alpha: int, beta: int, tm: int,
                                          next: Option<Move>)
    requires tm == 1 || tm == -1
    ensures -AiBackend.Checkmate <= Negamax(ops, s, moves, depth, alpha, beta, tm, next).score <= AiBackend.Checkmate
    decreases depth, 1, 0
  {
    if depth == 0 {
      EvaluateMeans(s);
    } else {
      LoopBounded(ops, s, moves, 0, depth, alpha, beta, tm, -AiBackend.Checkmate, next);
    }
  }

  lemma {:induction false} LoopBounded(ops: Ops, s: State, moves: seq<Move>, i: nat, depth: nat, alpha: int, beta: int, tm: int,
                                       maxScore: int, next: Option<Move>)
    requires i <= |moves| && 0 < depth && (tm == 1 || tm == -1)
    requires -AiBackend.Checkmate <= maxScore <= AiBackend.Checkmate
    ensures -AiBackend.Checkmate <= Loop(ops, s, moves, i, depth, alpha, beta, tm, maxScore, next).score <= AiBackend.Checkmate
    decreases depth, 0, |moves| - i
  {
    if i < |moves| {
      ExamineBounded(ops, s, moves[i], depth, alpha, beta, tm, maxScore, next);
      var o := Examine(ops, s, moves[i], depth, alpha, beta, tm, maxScore, next);
      var alpha' := if o.score > alpha then o.score else alpha;
      if o.ok && alpha' < beta {
        LoopBounded(ops, o.state, moves, i + 1, depth, alpha', beta, tm, o.score, o.next);
      }
    }
  }

  lemma {:induction false} ExamineBounded(ops: Ops, s: State, m: Move, depth: nat, alpha: int, beta: int, tm: int,
                                          maxScore: int, next: Option<Move>)
    requires 0 < depth && (tm == 1 || tm == -1)
    requires -AiBackend.Checkmate <= maxScore <= AiBackend.Checkmate
    ensures -AiBackend.Checkmate <= Examine(ops, s, m, depth, alpha, beta, tm, maxScore, next).score <= AiBackend.Checkmate
    decreases depth, 0, 0
  {
    var mk := ops.make(s, m);
    if mk.1 && ops.gen(mk.0).ok {
      var g := ops.gen(mk.0);
      NegamaxBounded(ops, g.state, g.moves, depth - 1, -beta, -alpha, -tm, next);
    }
  }

  /** Below the root depth the search never touches next_move. */
  lemma {:induction false} NegamaxKeepsNext(ops: Ops, s: State, moves: seq<Move>, depth: nat, alpha: int, beta: int, tm: int,
                                            next: Option<Move>)
    requires depth < AiBackend.Depth
    ensures Negamax(ops, s, moves, depth, alpha, beta, tm, next).next == next
    decreases depth, 1, 0
  {
    if depth > 0 {
      LoopKeepsNext(ops, s, moves, 0, depth, alpha, beta, tm, -AiBackend.Checkmate, next);
    }
  }

  lemma {:induction false} LoopKeepsNext(ops: Ops, s: State, moves: seq<Move>, i: nat, depth: nat, alpha: int, beta: int, tm: int,
                                         maxScore: int, next: Option<Move>)
    requires i <= |moves| && 0 < depth < AiBackend.Depth
    ensures Loop(ops, s, moves, i, depth, alpha, beta, tm, maxScore, next).next == next
    decreases depth, 0, |moves| - i
  {
    if i < |moves| {
      ExamineKeepsNext(ops, s, moves[i], depth, alpha, beta, tm, maxScore, next);
      var o := Examine(ops, s, moves[i], depth, alpha, beta, tm, maxScore, next);
      var alpha' := if o.score > alpha then o.score else alpha;
      if o.ok && alpha' < beta {
        LoopKeepsNext(ops, o.state, moves, i + 1, depth, alpha', beta, tm, o.score, o.next);
      }
    }
  }

  lemma {:induction false} ExamineKeepsNext(ops: Ops, s: State, m: Move, depth: nat, alpha: int, beta: int, tm: int,
                                            maxScore: int, next: Option<Move>)
    requires 0 < depth < AiBackend.Depth
    ensures Examine(ops, s, m, depth, alpha, beta, tm, maxScore, next).next == next
    decreases depth, 0, 0
  {
    var mk := ops.make(s, m);
    if mk.1 && ops.gen(mk.0).ok {
      var g := ops.gen(mk.0);
      NegamaxKeepsNext(ops, g.state, g.moves, depth - 1, -beta, -alpha, -tm, next);
    }
  }

  /** At the root a move whose search completes becomes next_move, whether or not it improved
      the best score, which never decreases. */
  lemma ExamineAtRoot(ops: Ops, s: State, m: Move, alpha: int, beta: int, tm: int,
                      maxScore: int, next: Option<Move>)
    ensures var o := Examine(ops, s, m, AiBackend.Depth, alpha, beta, tm, maxScore, next);
      o.score >= maxScore && (o.ok ==> o.next == Some(m))
  {
  }

  /** The loop over moves[i..n] only: the same passes as Loop, stopping after the move before
      index n (or earlier, where Loop stops). */
  function LoopUpTo(ops: Ops, s: State, moves: seq<Move>, i: nat, n: nat, depth: nat, alpha: int, beta: int, tm: int,
                    maxScore: int, next: Option<Move>): Outcome
    requires i <= n <= |moves| && 0 < depth
    decreases n - i
  {
    if i == n then Outcome(s, maxScore, next, true)
    else
      var o := Examine(ops, s, moves[i], depth, alpha, beta, tm, maxScore, next);
      if !o.ok then o
      else
        var alpha' := if o.score > alpha then o.score else alpha;
        if alpha' >= beta then o
        else LoopUpTo(ops, o.state, moves, i + 1, n, depth, alpha', beta, tm, o.score, o.next)
  }

  /** At the root, once a move has been examined, next_move is the last move the loop examined:
      the search ends exactly as the loop over moves[i..k+1] does and records moves[k], and k is
      the last move of the list unless the score reached beta and cut the loop short. So
      without a cut-off next_move is the LAST move of the list, not the best one. */
  lemma {:induction false} LoopAtRoot(ops: Ops, s: State, moves: seq<Move>, i: nat, alpha: int, beta: int, tm: int,
                                      maxScore: int, next: Option<Move>)
    requires i <= |moves|
    ensures var o := Loop(ops, s, moves, i, AiBackend.Depth, alpha, beta, tm, maxScore, next);
      (i == |moves| ==> o.next == next)
      && (i < |moves| && o.ok ==>
            exists k | i <= k < |moves| :: o.next == Some(moves[k])
              && LoopUpTo(ops, s, moves, i, k + 1, AiBackend.Depth, alpha, beta, tm, maxScore, next) == o
              && (k + 1 < |moves| ==> alpha >= beta || o.score >= beta))
      && (i < |moves| && o.ok ==> o.next.Some? && o.next.value in moves[i..])
      && (i < |moves| && o.ok && alpha < beta && o.score < beta ==> o.next == Some(moves[|moves| - 1]))
    decreases |moves| - i
  {
    if i < |moves| {
      ExamineAtRoot(ops, s, moves[i], alpha, beta, tm, maxScore, next);
      var o := Examine(ops, s, moves[i], AiBackend.Depth, alpha, beta, tm, maxScore, next);
      var alpha' := if o.score > alpha then o.score else alpha;
      if o.ok && alpha' < beta {
        LoopAtRoot(ops, o.state, moves, i + 1, alpha', beta, tm, o.score, o.next);
        LoopAtLeast(ops, o.state, moves, i + 1, AiBackend.Depth, alpha', beta, tm, o.score, o.next);
        assert moves[i + 1..] == moves[i..][1..];
        var r := Loop(ops, o.state, moves, i + 1, AiBackend.Depth, alpha', beta, tm, o.score, o.next);
        if i + 1 == |moves| {
          assert LoopUpTo(ops, s, moves, i, i + 1, AiBackend.Depth, alpha, beta, tm, maxScore, next)
              == LoopUpTo(ops, o.state, moves, i + 1, i + 1, AiBackend.Depth, alpha', beta, tm, o.score, o.next);
        } else if r.ok {
          var k :| i + 1 <= k < |moves| && r.next == Some(moves[k])
            && LoopUpTo(ops, o.state, moves, i + 1, k + 1, AiBackend.Depth, alpha', beta, tm, o.score, o.next) == r
            && (k + 1 < |moves| ==> alpha' >= beta || r.score >= beta);
          assert LoopUpTo(ops, s, moves, i, k + 1, AiBackend.Depth, alpha, beta, tm, maxScore, next)
              == LoopUpTo(ops, o.state, moves, i + 1, k + 1, AiBackend.Depth, alpha', beta, tm, o.score, o.next);
        }
      } else if o.ok {
        assert LoopUpTo(ops, s, moves, i, i + 1, AiBackend.Depth, alpha, beta, tm, maxScore, next) == o;
      }
    }
  }

  /** The fields undo_move gives back after make_move: the board, the side to move, the move
      log and the castling rights and their history (not the en-passant target). */
  predicate Restored(t: State, s: State) {
    t.board == s.board && t.whiteToMove == s.whiteToMove && t.moveLog == s.moveLog
    && t.rights == s.rights && t.rightsLog == s.rightsLog
  }

  /** Operations whose undo takes back their make, whatever happened in between that kept the
      restored fields. */
  ghost predicate Pairs(ops: Ops) {
    forall s, m, t | ops.make(s, m).1 && Restored(t, ops.make(s, m).0) ::
      ops.undo(t).1 && Restored(ops.undo(t).0, s)
  }

  /** Operations whose generator leaves the restored fields alone. */
  ghost predicate GenKeeps(ops: Ops) {
    forall t | ops.gen(t).ok :: Restored(ops.gen(t).state, t)
  }

  /** get_valid_moves of the second engine only changes the scan results, the king caches and
      the end-of-game flags. */
  lemma PlayGenKeeps(promotion: PromotionKind)
    ensures GenKeeps(Play(promotion))
  {
    forall t | ValidMoves(t).ok ensures Restored(ValidMoves(t).state, t) {
      LegacyValidFacts.ValidMovesFlags(t);
    }
  }

  /** Every make_move of the search is followed by undo_move before the alpha-beta test, so with
      operations that pair them the search gives back the fields they restore, unless the source
      raised on the way. */
  lemma {:induction false} NegamaxRestores(ops: Ops, s: State, moves: seq<Move>, depth: nat, alpha: int, beta: int, tm: int,
                                           next: Option<Move>)
    requires Pairs(ops) && GenKeeps(ops)
    ensures var o := Negamax(ops, s, moves, depth, alpha, beta, tm, next);
      o.ok ==> Restored(o.state, s)
    decreases depth, 1, 0
  {
    if depth > 0 {
      LoopRestores(ops, s, moves, 0, depth, alpha, beta, tm, -AiBackend.Checkmate, next);
    }
  }

  lemma {:induction false} LoopRestores(ops: Ops, s: State, moves: seq<Move>, i: nat, depth: nat, alpha: int, beta: int, tm: int,
                                        maxScore: int, next: Option<Move>)
    requires Pairs(ops) && GenKeeps(ops) && i <= |moves| && 0 < depth
    ensures var o := Loop(ops, s, moves, i, depth, alpha, beta, tm, maxScore, next);
      o.ok ==> Restored(o.state, s)
    decreases depth, 0, |moves| - i
  {
    if i < |moves| {
      ExamineRestores(ops, s, moves[i], depth, alpha, beta, tm, maxScore, next);
      var o := Examine(ops, s, moves[i], depth, alpha, beta, tm, maxScore, next);
      var alpha' := if o.score > alpha then o.score else alpha;
      if o.ok && alpha' < beta {
        LoopRestores(ops, o.state, moves, i + 1, depth, alpha', beta, tm, o.score, o.next);
      }
    }
  }

  lemma {:induction false} ExamineRestores(ops: Ops, s: State, m: Move, depth: nat, alpha: int, beta: int, tm: int,
                                           maxScore: int, next: Option<Move>)
    requires Pairs(ops) && GenKeeps(ops) && 0 < depth
    ensures var o := Examine(ops, s, m, depth, alpha, beta, tm, maxScore, next);
      o.ok ==> Restored(o.state, s)
    decreases depth, 0, 0
  {
    var mk := ops.make(s, m);
    if mk.1 && ops.gen(mk.0).ok {
      var g := ops.gen(mk.0);
      NegamaxRestores(ops, g.state, g.moves, depth - 1, -beta, -alpha, -tm, next);
      var sub := Negamax(ops, g.state, g.moves, depth - 1, -beta, -alpha, -tm, next);
      if sub.ok {
        assert Restored(sub.state, mk.0);
      }
    }
  }

  /** The search get_best_move runs, over the first n shuffled moves only. */
  function SearchAfter(s: State, shuffled: seq<Move>, promotion: PromotionKind, global: Option<Move>, n: nat): Outcome
    requires n <= |shuffled|
  {
    LoopUpTo(Play(promotion), s, shuffled, 0, n, AiBackend.Depth, -AiBackend.Checkmate, AiBackend.Checkmate,
             if s.whiteToMove then 1 else -1, -AiBackend.Checkmate, global)
  }

  /** get_best_move returns its local None whatever the search finds. The global next_move ends
      as the last root move examined: the search ends as its run over the first k + 1 shuffled
      moves does and records the k-th, which is the last shuffled move unless a move reached the
      mate score and cut the loop short. Every score lies between the mate scores, and a root
      search that found no move leaves the global as it was. */
  lemma BestMoveMeans(s: State, shuffled: seq<Move>, promotion: PromotionKind, global: Option<Move>)
    ensures var (result, o) := BestMove(s, shuffled, promotion, global);
      result == None
      && -AiBackend.Checkmate <= o.score <= AiBackend.Checkmate
      && (|shuffled| == 0 ==> o == Outcome(s, -AiBackend.Checkmate, global, true))
      && (|shuffled| > 0 && o.ok ==>
            exists k | 0 <= k < |shuffled| :: o.next == Some(shuffled[k])
              && SearchAfter(s, shuffled, promotion, global, k + 1) == o
              && (k + 1 < |shuffled| ==> o.score == AiBackend.Checkmate))
      && (|shuffled| > 0 && o.ok ==> o.next.Some? && o.next.value in shuffled)
      && (|shuffled| > 0 && o.ok && o.score < AiBackend.Checkmate ==> o.next == Some(shuffled[|shuffled| - 1]))
  {
    var tm := if s.whiteToMove then 1 else -1;
    var ops := Play(promotion);
    LoopAtRoot(ops, s, shuffled, 0, -AiBackend.Checkmate, AiBackend.Checkmate, tm, -AiBackend.Checkmate, global);
    NegamaxBounded(ops, s, shuffled, AiBackend.Depth, -AiBackend.Checkmate, AiBackend.Checkmate, tm, global);
    NegamaxAtLeast(ops, s, shuffled, AiBackend.Depth, -AiBackend.Checkmate, AiBackend.Checkmate, tm, global);
    assert shuffled[0..] == shuffled;
  }

  // ----- the search on the game state -----

  /** ops are the second engine's operations with the given promotion choice; stated so that
      the methods below reason about the abstract operations only. */
  ghost predicate Plays(ops: Ops, promotion: PromotionKind) {
    forall p: PromotionKind | p == promotion :: ops == Play(p)
  }

  /** make_move on gs, as the make operation. */
  method MakeOn(gs: LegacyEngine.GameState, move: Move, promotion: PromotionKind, ghost ops: Ops) returns (ok: bool)
    requires Plays(ops, promotion)
    modifies gs
    ensures (gs.Snapshot(), ok) == ops.make(old(gs.Snapshot()), move)
  {
    assert ops == Play(promotion);
    if move.isPawnPromotion && move.pieceMoved == Empty {
      return false;
    }
    ok := gs.MakeMove(move, promotion);
  }

  /** get_valid_moves on gs, as the generator. */
  method GenerateOn(gs: LegacyEngine.GameState, promotion: PromotionKind, ghost ops: Ops) returns (moves: seq<Move>, ok: bool)
    requires Plays(ops, promotion)
    modifies gs
    ensures Gen(gs.Snapshot(), moves, ok) == ops.gen(old(gs.Snapshot()))
  {
    moves, ok := gs.GetValidMoves();
    assert ops == Play(promotion);
  }

  /** undo_move on gs, as the undo operation. */
  method UndoOn(gs: LegacyEngine.GameState, promotion: PromotionKind, ghost ops: Ops) returns (ok: bool)
    requires Plays(ops, promotion)
    modifies gs
    ensures (gs.Snapshot(), ok) == ops.undo(old(gs.Snapshot()))
  {
    ok := gs.UndoMove();
    assert ops == Play(promotion);
  }

  /** negamax_search on the game state: it makes each move on gs, generates the replies,
      recurses, and takes the move back, leaving gs, the score and the global next_move exactly
      as the search function says. */
  method NegamaxSearch(gs: LegacyEngine.GameState, validMoves: seq<Move>, depth: nat, alpha: int, beta: int, tm: int,
                       nextIn: Option<Move>, promotion: PromotionKind, ghost ops: Ops)
      returns (score: int, next: Option<Move>, ok: bool)
    requires Plays(ops, promotion)
    modifies gs
    ensures var o := Negamax(ops, old(gs.Snapshot()), validMoves, depth, alpha, beta, tm, nextIn);
      gs.Snapshot() == o.state && score == o.score && next == o.next && ok == o.ok
    decreases depth, 1
  {
    if depth == 0 {
      var evaluation := EvaluateBoard(gs);
      return tm * evaluation, nextIn, true;
    }
    ghost var goal := Negamax(ops, gs.Snapshot(), validMoves, depth, alpha, beta, tm, nextIn);
    var maxScore := -AiBackend.Checkmate;
    var a := alpha;
    next := nextIn;
    var i := 0;
    while i < |validMoves|
      invariant i <= |validMoves|
      invariant Loop(ops, gs.Snapshot(), validMoves, i, depth, a, beta, tm, maxScore, next) == goal
      decreases |validMoves| - i
    {
      var passOk;
      maxScore, next, passOk := SearchMove(gs, validMoves[i], depth, a, beta, tm, maxScore, next, promotion, ops);
      if !passOk {
        return maxScore, next, false;
      }
      if maxScore > a {
        a := maxScore;
      }
      if a >= beta {
        return maxScore, next, true;
      }
      i := i + 1;
    }
    return maxScore, next, true;
  }

  /** The body of the loop of negamax_search for one move. */
  method SearchMove(gs: LegacyEngine.GameState, move: Move, depth: nat, alpha: int, beta: int, tm: int,
                    maxScore: int, nextIn: Option<Move>, promotion: PromotionKind, ghost ops: Ops)
      returns (best: int, next: Option<Move>, ok: bool)
    requires Plays(ops, promotion) && 0 < depth
    modifies gs
    ensures var o := Examine(ops, old(gs.Snapshot()), move, depth, alpha, beta, tm, maxScore, nextIn);
      gs.Snapshot() == o.state && best == o.score && next == o.next && ok == o.ok
    decreases depth, 0
  {
    var made := MakeOn(gs, move, promotion, ops);
    if !made {
      return maxScore, nextIn, false;
    }
    var nextMoves, generated := GenerateOn(gs, promotion, ops);
    if !generated {
      return maxScore, nextIn, false;
    }
    var sub, subNext, subOk := NegamaxSearch(gs, nextMoves, depth - 1, -beta, -alpha, -tm, nextIn, promotion, ops);
    if !subOk {
      return maxScore, subNext, false;
    }
    var score := -sub;
    best, next := maxScore, subNext;
    if score > maxScore {
      best := score;
    }
    if depth == AiBackend.Depth {
      next := Some(move);
    }
    ok := UndoOn(gs, promotion, ops);
  }

  /** get_best_move: with `shuffled` the order random.shuffle left the caller's list in and
      `global` the global next_move before the call, it searches to depth 3 for the side to
      move and returns None; the game state and the global end as the search leaves them. */
  method GetBestMove(gs: LegacyEngine.GameState, validMoves: seq<Move>, shuffled: seq<Move>, promotion: PromotionKind,
                     global: Option<Move>)
      returns (result: Option<Move>, globalOut: Option<Move>, ok: bool)
    requires multiset(shuffled) == multiset(validMoves)
    modifies gs
    ensures var (r, o) := BestMove(old(gs.Snapshot()), shuffled, promotion, global);
      result == r && gs.Snapshot() == o.state && globalOut == o.next && ok == o.ok
    ensures result == None
    ensures |validMoves| > 0 && ok ==> globalOut.Some? && globalOut.value in validMoves
  {
    ghost var s0 := gs.Snapshot();
    ghost var ops := Play(promotion);
    var nextMove1 := None;
    var turnMultiplier := if gs.whiteToMove then 1 else -1;
    var score;
    score, globalOut, ok := NegamaxSearch(gs, shuffled, AiBackend.Depth, -AiBackend.Checkmate, AiBackend.Checkmate,
                                          turnMultiplier, global, promotion, ops);
    BestMoveMeans(s0, shuffled, promotion, global);
    if |validMoves| > 0 && ok {
      assert |shuffled| == |multiset(validMoves)| > 0;
      assert globalOut.value in multiset(shuffled);
    }
    return nextMove1, globalOut, ok;
  }
}
