// Pieces, squares and the 8x8 board shared by both engines.

module Wrappers {
  /** Python's empty tuple `()` where the source stores "no square" is modelled as None. */
  datatype Option<+T> = None | Some(value: T)
}

module Pieces {

  datatype Color = White | Black

  datatype Kind = King | Queen | Rook | Bishop | Knight | Pawn

  /** One board entry; the source writes it as a two-character code ("--", "wK", "bp", ...). */
  datatype Piece = Empty | Occupied(color: Color, kind: Kind)

  function Opponent(c: Color): Color {
    if c == White then Black else White
  }

  /** The colour of the side to move. */
  function SideColor(whiteToMove: bool): Color {
    if whiteToMove then White else Black
  }

  predicate IsColor(p: Piece, c: Color) {
    p.Occupied? && p.color == c
  }

  predicate IsKind(p: Piece, k: Kind) {
    p.Occupied? && p.kind == k
  }

  function ColorLetter(c: Color): char {
    if c == White then 'w' else 'b'
  }

  function KindLetter(k: Kind): char {
    match k
    case King => 'K'
    case Queen => 'Q'
    case Rook => 'R'
    case Bishop => 'B'
    case Knight => 'N'
    case Pawn => 'p'
  }

  /** The two-character code the source stores on its board. */
  function Code(p: Piece): string {
    match p
    case Empty => "--"
    case Occupied(c, k) => [ColorLetter(c), KindLetter(k)]
  }

  /** Two pieces have the same code exactly when they are the same piece,
      so comparing codes (as the source does) is comparing pieces. */
  lemma CodeInjective(p: Piece, q: Piece)
    ensures Code(p) == Code(q) <==> p == q
  {
    if Code(p) == Code(q) {
      assert Code(p)[0] == Code(q)[0] && Code(p)[1] == Code(q)[1];
      match p
      case Empty =>
      case Occupied(c, k) =>
        match k
        case King =>
        case Queen =>
        case Rook =>
        case Bishop =>
        case Knight =>
        case Pawn =>
    }
  }

  /** No piece is coded "bk" (kings are coded with a capital K). */
  lemma NoPieceIsCodedLowercaseBk(p: Piece)
    ensures Code(p) != "bk"
  {
    if p.Occupied? {
      assert Code(p)[1] == KindLetter(p.kind) != 'k';
    }
  }

  type Coord = x: int | 0 <= x < 8

  predicate OnBoard(r: int, c: int) {
    0 <= r < 8 && 0 <= c < 8
  }

  /** A (row, column) pair; row 0 is rank 8, column 0 is file a. */
  datatype Square = Sq(row: int, col: int)

  /** A square that lies on the board. */
  type Cell = s: Square | OnBoard(s.row, s.col) witness Sq(0, 0)

  /** A pin or check record: the square of the pinned piece or checker, and the
      direction (seen from the king) of the ray it lies on. */
  datatype Ray = Ray(row: Coord, col: Coord, dRow: int, dCol: int)

  predicate IsBoard(b: seq<seq<Piece>>) {
    |b| == 8 && forall r | 0 <= r < 8 :: |b[r]| == 8
  }

  type Board = b: seq<seq<Piece>> | IsBoard(b) witness seq(8, _ => seq(8, _ => Empty))

  /** The board with square (r, c) set to p. */
  function Put(b: Board, r: Coord, c: Coord, p: Piece): Board
  {
    b[r := b[r][c := p]]
  }

  /** Boards that agree on every square are equal. */
  lemma BoardExtensionality(a: Board, b: Board)
    requires forall i, j | 0 <= i < 8 && 0 <= j < 8 :: a[i][j] == b[i][j]
    ensures a == b
  {
    forall i | 0 <= i < 8 ensures a[i] == b[i] {
      assert forall j | 0 <= j < 8 :: a[i][j] == b[i][j];
    }
  }

  function BackRank(c: Color): seq<Piece> {
    [Occupied(c, Rook), Occupied(c, Knight), Occupied(c, Bishop), Occupied(c, Queen),
     Occupied(c, King), Occupied(c, Bishop), Occupied(c, Knight), Occupied(c, Rook)]
  }

  /** The starting position: black on rows 0-1, white on rows 6-7. */
  function InitialBoard(): Board {
    [BackRank(Black), seq(8, _ => Occupied(Black, Pawn)),
     seq(8, _ => Empty), seq(8, _ => Empty), seq(8, _ => Empty), seq(8, _ => Empty),
     seq(8, _ => Occupied(White, Pawn)), BackRank(White)]
  }

  /** Row step of a pawn of the side to move: white moves up the rows (towards row 0). */
  function Forward(whiteToMove: bool): int {
    if whiteToMove then -1 else 1
  }

  /** The eight scan directions: four orthogonal (indexes 0-3), four diagonal (indexes 4-7). */
  const Directions: seq<(int, int)> :=
    [(-1, 0), (0, -1), (1, 0), (0, 1), (-1, -1), (-1, 1), (1, -1), (1, 1)]

  /** Knight offsets in the order the attack and check scans visit them. */
  const KnightScan: seq<(int, int)> :=
    [(-2, -1), (-2, 1), (-1, -2), (-1, 2), (1, -2), (1, 2), (2, -1), (2, 1)]

  /** Knight offsets in the order the knight move generators visit them. */
  const KnightJumps: seq<(int, int)> :=
    [(1, -2), (2, -1), (2, 1), (1, 2), (-1, 2), (-2, 1), (-2, -1), (-1, -2)]

  /** King steps (rowMoves / colMoves of the king generators). */
  const KingSteps: seq<(int, int)> :=
    [(-1, -1), (-1, 0), (-1, 1), (0, -1), (0, 1), (1, -1), (1, 0), (1, 1)]

  const RookDirections: seq<(int, int)> := [(-1, 0), (1, 0), (0, -1), (0, 1)]

  /** An enemy piece of kind k, met at distance i along scan direction j,
      attacks the square the scan started from. */
  predicate Threatens(j: int, i: int, k: Kind, enemy: Color) {
    (0 <= j <= 3 && k == Rook)
    || (4 <= j <= 7 && k == Bishop)
    || (i == 1 && k == Pawn && ((enemy == White && 6 <= j <= 7) || (enemy == Black && 4 <= j <= 5)))
    || k == Queen
    || (i == 1 && k == King)
  }

  /** s with its first occurrence of x removed (Python's list.remove). */
  function RemoveFirst<T(==)>(s: seq<T>, x: T): (r: seq<T>)
    ensures x in s ==> |r| == |s| - 1
    ensures x !in s ==> r == s
    ensures multiset(r) == multiset(s) - multiset{x}
  {
    if |s| == 0 then []
    else
      assert s == [s[0]] + s[1..];
      if s[0] == x then s[1..] else [s[0]] + RemoveFirst(s[1..], x)
  }
}
