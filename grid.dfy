/** The 3x3 board and the win detector (`calculateWinner`).
    A board is the row-major sequence of nine squares; a square is empty
    (`null` in the component) or holds the symbol of the player who marked it. */
module Grid {

  datatype Option<T> = None | Some(value: T)

  /** The two player symbols, 'X' and 'O'. */
  datatype Sym = X | O

  /** The symbol that moves after `p`. */
  function Other(p: Sym): (q: Sym)
    ensures q != p
  {
    if p == X then O else X
  }

  /** A square: empty, or marked by a player. */
  datatype Cell = Empty | Mark(sym: Sym)

  type Index = i: int | 0 <= i < 9

  /** A line is a triple of square indices. */
  type Line = l: seq<Index> | |l| == 3 witness [0, 1, 2]

  type Board = b: seq<Cell> | |b| == 9 witness [Empty, Empty, Empty, Empty, Empty, Empty, Empty, Empty, Empty]

  /** The eight winning lines in the order they are scanned: rows, columns, diagonals. */
  const Lines: seq<Line> := [
    [0, 1, 2], [3, 4, 5], [6, 7, 8],
    [0, 3, 6], [1, 4, 7], [2, 5, 8],
    [0, 4, 8], [2, 4, 6]
  ]

  /** `Array(9).fill(null)` */
  function EmptyBoard(): (b: Board)
    ensures forall j :: 0 <= j < 9 ==> b[j] == Empty
  {
    seq(9, _ => Empty)
  }

  /** The test applied to each line: the first square is set and the other two equal it. */
  predicate Completes(b: Board, line: Line) {
    b[line[0]] != Empty && b[line[0]] == b[line[1]] && b[line[0]] == b[line[2]]
  }

  /** All three squares of `line` hold `p`. */
  predicate ClaimedBy(b: Board, line: Line, p: Sym) {
    b[line[0]] == Mark(p) && b[line[1]] == Mark(p) && b[line[2]] == Mark(p)
  }

  /** The value `calculateWinner` returns when it finds a line: `{ player, line }`. */
  datatype Win = Win(player: Sym, line: Line)

  /** The scan of `calculateWinner` from line `k` on: the first completed line, or nothing. */
  function ScanLines(b: Board, k: nat): (r: Option<Win>)
    requires k <= |Lines|
    decreases |Lines| - k
    ensures r.None? <==> forall j :: k <= j < |Lines| ==> !Completes(b, Lines[j])
    ensures r.Some? ==>
      exists j :: k <= j < |Lines| && r.value.line == Lines[j] && ClaimedBy(b, Lines[j], r.value.player) &&
        forall m :: k <= m < j ==> !Completes(b, Lines[m])
  {
    if k == |Lines| then None
    else if Completes(b, Lines[k]) then Some(Win(b[Lines[k][0]].sym, Lines[k]))
    else ScanLines(b, k + 1)
  }

  /** `calculateWinner(squares)`: the first line, in scanning order, whose three
      squares hold the same symbol, with that symbol; nothing when no line does,
      whether or not the board is full. */
  function Winner(b: Board): (r: Option<Win>)
    ensures r.None? <==> forall j :: 0 <= j < |Lines| ==> !Completes(b, Lines[j])
    ensures r.Some? ==>
      exists j :: 0 <= j < |Lines| && r.value.line == Lines[j] && ClaimedBy(b, Lines[j], r.value.player) &&
        forall m :: 0 <= m < j ==> !Completes(b, Lines[m])
  {
    ScanLines(b, 0)
  }

  /** `calculateWinner` as the component runs it: a loop over the lines with an early return. */
  method CalculateWinner(squares: array<Cell>) returns (win: Option<Win>)
    requires squares.Length == 9
    ensures win == Winner(squares[..])
  {
    ghost var b: Board := squares[..];
    var k := 0;
    while k < |Lines|
      invariant 0 <= k <= |Lines|
      invariant ScanLines(b, k) == Winner(b)
    {
      var line := Lines[k];
      var a, m, c := line[0], line[1], line[2];
      if squares[a] != Empty && squares[a] == squares[m] && squares[a] == squares[c] {
        return Some(Win(squares[a].sym, line));
      }
      k := k + 1;
    }
    return None;
  }

  /** `squares.every(Boolean)`: no square is empty. */
  predicate Full(b: seq<Cell>) {
    forall j :: 0 <= j < |b| ==> b[j] != Empty
  }

  /** The number of squares equal to `c`. */
  function Count(b: seq<Cell>, c: Cell): nat {
    if b == [] then 0 else (if b[0] == c then 1 else 0) + Count(b[1..], c)
  }

  /** How many more X marks than O marks the board holds. */
  function Lead(b: seq<Cell>): int {
    Count(b, Mark(X)) - Count(b, Mark(O))
  }

  /** Marking an empty square adds one mark of its player and leaves the other player's count alone. */
  lemma {:induction false} CountAfterMark(b: seq<Cell>, i: int, p: Sym)
    requires 0 <= i < |b| && b[i] == Empty
    ensures Count(b[i := Mark(p)], Mark(p)) == Count(b, Mark(p)) + 1
    ensures Count(b[i := Mark(p)], Mark(Other(p))) == Count(b, Mark(Other(p)))
    ensures Count(b[i := Mark(p)], Empty) == Count(b, Empty) - 1
  {
    if i == 0 {
      assert b[i := Mark(p)][1..] == b[1..];
    } else {
      assert b[i := Mark(p)][1..] == b[1..][i - 1 := Mark(p)];
      CountAfterMark(b[1..], i - 1, p);
    }
  }

  /** Every square is empty, an X or an O. */
  lemma {:induction false} CountTotal(b: seq<Cell>)
    ensures Count(b, Empty) + Count(b, Mark(X)) + Count(b, Mark(O)) == |b|
  {
    if b != [] {
      CountTotal(b[1..]);
      match b[0]
      case Empty =>
      case Mark(p) => assert p == X || p == O;
    }
  }

  /** A board is full exactly when it has no empty square left. */
  lemma {:induction false} FullIffNoEmpty(b: seq<Cell>)
    ensures Full(b) <==> Count(b, Empty) == 0
  {
    if b != [] {
      FullIffNoEmpty(b[1..]);
      assert Full(b) <==> b[0] != Empty && Full(b[1..]) by {
        if b[0] != Empty && Full(b[1..]) {
          forall j | 0 <= j < |b| ensures b[j] != Empty {
            if j > 0 { assert b[j] == b[1..][j - 1]; }
          }
        }
      }
    }
  }

  /** If no line was complete before a move, any line the move completes runs
      through the marked square and belongs to the player who moved. */
  lemma WinnerIsMover(b: Board, i: Index, p: Sym)
    requires Winner(b) == None
    ensures Winner(b[i := Mark(p)]).Some? ==>
      Winner(b[i := Mark(p)]).value.player == p && i in Winner(b[i := Mark(p)]).value.line
  {
    var next: Board := b[i := Mark(p)];
    var w := Winner(next);
    if w.Some? {
      var j :| 0 <= j < |Lines| && w.value.line == Lines[j] && ClaimedBy(next, Lines[j], w.value.player);
      assert !Completes(b, Lines[j]);
    }
  }
}
