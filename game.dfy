/** The game state of the `App` component as one value, and one transition
    function per handler: `handleClick`, `startGame`, `handleNameInput` and
    `handleRestart`. The class in module Component updates its fields exactly
    as these functions say. */
module Game {
  import opened Grid
  import opened Text

  /** A `{ X: ..., O: ... }` record of names, one per symbol. */
  datatype Names = Names(x: string, o: string) {
    /** `names[p]` */
    function Of(p: Sym): string {
      if p == X then x else o
    }

    /** `{ ...names, [p]: v }`: the entry for `p` becomes `v`, the other stays. */
    function With(p: Sym, v: string): (r: Names)
      ensures r.Of(p) == v && r.Of(Other(p)) == Of(Other(p))
    {
      if p == X then this.(x := v) else this.(o := v)
    }
  }

  const NoNames: Names := Names("", "")

  /** The `winner` slice: `null`, a player's symbol, or the string 'draw'. */
  datatype Verdict = Undecided | Won(sym: Sym) | Draw

  /** The component's game slices: `squares`, `turn`, `playerNames`,
      `inputNames`, `winner`, `winningLine`, `gameStarted`. */
  datatype GameState = GameState(
    squares: Board,
    turn: Sym,
    playerNames: Names,
    inputNames: Names,
    winner: Verdict,
    winningLine: seq<Index>,
    gameStarted: bool)

  /** The values the slices start with, and the values `handleRestart` puts back. */
  const Initial: GameState := GameState(EmptyBoard(), X, NoNames, NoNames, Undecided, [], false)

  /** The guard of `handleClick`, also the negation of a square's `disabled` attribute:
      nobody has won, it is not a draw, the game has started and the square is empty. */
  predicate ClickAccepted(s: GameState, i: Index) {
    s.winner == Undecided && s.gameStarted && s.squares[i] == Empty
  }

  /** `handleClick(i)` */
  function Click(s: GameState, i: Index): GameState {
    if !ClickAccepted(s, i) then s
    else
      var next := s.squares[i := Mark(s.turn)];
      match Winner(next)
      case Some(w) => s.(squares := next, winner := Won(w.player), winningLine := w.line)
      case None =>
        if Full(next) then s.(squares := next, winner := Draw, winningLine := [])
        else s.(squares := next, turn := Other(s.turn))
  }

  /** The guard of `startGame`: both pending names are non-empty once trimmed. */
  predicate StartAccepted(s: GameState) {
    Trim(s.inputNames.x) != "" && Trim(s.inputNames.o) != ""
  }

  /** `startGame` */
  function Start(s: GameState): GameState {
    if StartAccepted(s) then
      s.(playerNames := Names(Trim(s.inputNames.x), Trim(s.inputNames.o)), gameStarted := true)
    else s
  }

  /** `handleNameInput(p, v)` */
  function NameInput(s: GameState, p: Sym, v: string): GameState {
    s.(inputNames := s.inputNames.With(p, v))
  }

  /** `calculateWinner(b)` returns `{ player: p, line: line }`. */
  predicate Reports(b: Board, p: Sym, line: seq<Index>) {
    var w := Winner(b);
    w.Some? && w.value.player == p && w.value.line == line
  }

  /** A confirmed player name: non-empty and already trimmed. */
  predicate Confirmed(name: string) {
    name != "" && Trim(name) == name
  }

  /** What holds of every state the handlers can reach from `Initial`:
      - before the game starts everything is at its initial value, except the pending names;
      - once it has started, both player names are confirmed;
      - while undecided, no line is complete, the board is not full, the winning line is
        empty, and X leads O by 0 marks when X is to move and by 1 when O is;
      - after a win, the winner is the player whose turn it still is and `calculateWinner`
        reports exactly the recorded winner and line;
      - after a draw, the board is full, no line is complete and X made the last move. */
  ghost predicate Inv(s: GameState) {
    (!s.gameStarted ==>
      s.squares == EmptyBoard() && s.turn == X && s.winner == Undecided &&
      s.winningLine == [] && s.playerNames == NoNames) &&
    (s.gameStarted ==> Confirmed(s.playerNames.x) && Confirmed(s.playerNames.o)) &&
    (s.winner == Undecided ==>
      Winner(s.squares) == None && !Full(s.squares) && s.winningLine == [] &&
      Lead(s.squares) == (if s.turn == X then 0 else 1)) &&
    (s.winner.Won? ==>
      s.winner.sym == s.turn && Reports(s.squares, s.turn, s.winningLine) &&
      Lead(s.squares) == (if s.turn == X then 1 else 0)) &&
    (s.winner == Draw ==>
      Winner(s.squares) == None && Full(s.squares) && s.winningLine == [] &&
      Lead(s.squares) == (if s.turn == X then 1 else 0))
  }

  /** An all-empty board holds no mark of either player. */
  lemma {:induction false} EmptyBoardCounts(b: seq<Cell>, c: Cell)
    requires forall j :: 0 <= j < |b| ==> b[j] == Empty
    requires c != Empty
    ensures Count(b, c) == 0
  {
    if b != [] {
      EmptyBoardCounts(b[1..], c);
    }
  }

  lemma InitialInv()
    ensures Inv(Initial)
  {
    EmptyBoardCounts(EmptyBoard(), Mark(X));
    EmptyBoardCounts(EmptyBoard(), Mark(O));
    assert !Full(EmptyBoard()) by { assert EmptyBoard()[0] == Empty; }
  }

  /** What one click does: a rejected click changes nothing; an accepted one writes the
      mover's symbol into square `i` and nowhere else, and then records exactly one of a win
      (from `calculateWinner`), a draw (full board, no line) or a change of turn. */
  lemma ClickOutcome(s: GameState, i: Index)
    ensures !ClickAccepted(s, i) ==> Click(s, i) == s
    ensures ClickAccepted(s, i) ==>
      var r := Click(s, i);
      r.squares[i] == Mark(s.turn) &&
      (forall j :: 0 <= j < 9 && j != i ==> r.squares[j] == s.squares[j]) &&
      r.playerNames == s.playerNames && r.inputNames == s.inputNames && r.gameStarted &&
      (r.winner.Won? <==> Winner(r.squares).Some?) &&
      (r.winner.Won? ==> Reports(r.squares, r.winner.sym, r.winningLine)) &&
      (r.winner == Draw <==> Winner(r.squares) == None && Full(r.squares)) &&
      (r.winner == Draw ==> r.winningLine == []) &&
      (r.winner == Undecided ==> r.winningLine == s.winningLine) &&
      (r.turn == s.turn <==> r.winner != Undecided) &&
      (r.winner == Undecided ==> r.turn == Other(s.turn))
  {
  }

  /** Every click keeps the invariant: the win, draw and turn bookkeeping stays in step with the board. */
  lemma ClickPreservesInv(s: GameState, i: Index)
    ensures Inv(s) ==> Inv(Click(s, i))
  {
    if Inv(s) && ClickAccepted(s, i) {
      CountAfterMark(s.squares, i, s.turn);
      WinnerIsMover(s.squares, i, s.turn);
    }
  }

  /** `startGame` accepts the pending names exactly when neither is blank. */
  lemma StartAcceptedIff(s: GameState)
    ensures StartAccepted(s) <==> !Blank(s.inputNames.x) && !Blank(s.inputNames.o)
  {
    TrimEmptyIffBlank(s.inputNames.x);
    TrimEmptyIffBlank(s.inputNames.o);
  }

  /** `startGame` either changes nothing or starts the game with the trimmed pending
      names, which are then confirmed names; it never touches the board, the turn,
      the outcome or the pending names. */
  lemma StartOutcome(s: GameState)
    ensures !StartAccepted(s) ==> Start(s) == s
    ensures StartAccepted(s) ==>
      var r := Start(s);
      r.squares == s.squares && r.turn == s.turn && r.winner == s.winner &&
      r.winningLine == s.winningLine && r.inputNames == s.inputNames && r.gameStarted &&
      r.playerNames.x == Trim(s.inputNames.x) && r.playerNames.o == Trim(s.inputNames.o) &&
      Confirmed(r.playerNames.x) && Confirmed(r.playerNames.o)
  {
    TrimIdempotent(s.inputNames.x);
    TrimIdempotent(s.inputNames.o);
  }

  lemma StartPreservesInv(s: GameState)
    ensures Inv(s) ==> Inv(Start(s))
  {
    StartOutcome(s);
    if Inv(s) && StartAccepted(s) && !s.gameStarted {
      InitialInv();
    }
  }

  lemma NameInputPreservesInv(s: GameState, p: Sym, v: string)
    ensures Inv(s) ==> Inv(NameInput(s, p, v))
  {
  }

  /** The numbers of marks follow the turns: X never trails O and never leads by more than one. */
  lemma LeadBounded(s: GameState)
    requires Inv(s)
    ensures 0 <= Lead(s.squares) <= 1
    ensures s.winner == Undecided ==> (Lead(s.squares) == 0 <==> s.turn == X)
  {
  }

  /** A drawn game ends with five X marks and four O marks, X having moved last. */
  lemma DrawnBoardCounts(s: GameState)
    requires Inv(s) && s.winner == Draw
    ensures Count(s.squares, Mark(X)) == 5 && Count(s.squares, Mark(O)) == 4 && s.turn == X
  {
    CountTotal(s.squares);
    FullIffNoEmpty(s.squares);
  }

  /** The phases of the game, as the status line shows them. */
  datatype Phase = AwaitingNames | ToMove(next: Sym) | WonBy(player: Sym) | Drawn

  function PhaseOf(s: GameState): Phase {
    if !s.gameStarted then AwaitingNames
    else match s.winner
      case Undecided => ToMove(s.turn)
      case Won(p) => WonBy(p)
      case Draw => Drawn
  }

  /** A click either changes nothing visible or takes the player to move to
      the other player's turn, to a win by the mover, or to a draw. */
  lemma ClickPhase(s: GameState, i: Index)
    requires Inv(s)
    ensures var t := PhaseOf(Click(s, i));
      t == PhaseOf(s) ||
      (PhaseOf(s) == ToMove(s.turn) && (t == ToMove(Other(s.turn)) || t == WonBy(s.turn) || t == Drawn))
  {
    ClickPreservesInv(s, i);
  }

  /** Submitting the names moves a game that waits for them to X's turn when both
      names are accepted, and leaves every other phase as it was. */
  lemma StartPhase(s: GameState)
    requires Inv(s)
    ensures PhaseOf(Start(s)) ==
      if PhaseOf(s) == AwaitingNames && StartAccepted(s) then ToMove(X) else PhaseOf(s)
  {
  }

  /** Once the game is won or drawn, no click changes anything. */
  lemma DecidedIsFinal(s: GameState, i: Index)
    requires s.winner != Undecided
    ensures Click(s, i) == s
  {
  }

  /** The user's actions: click a square, submit the names, edit a pending name, restart. */
  datatype Action = ClickAt(i: Index) | SubmitNames | EditName(p: Sym, v: string) | Restart

  function Step(s: GameState, a: Action): GameState {
    match a
    case ClickAt(i) => Click(s, i)
    case SubmitNames => Start(s)
    case EditName(p, v) => NameInput(s, p, v)
    case Restart => Initial
  }

  function Run(s: GameState, actions: seq<Action>): GameState
    decreases |actions|
  {
    if actions == [] then s else Run(Step(s, actions[0]), actions[1..])
  }

  /** Running two sequences of actions one after the other is running their concatenation. */
  lemma {:induction false} RunConcat(s: GameState, first: seq<Action>, second: seq<Action>)
    ensures Run(s, first + second) == Run(Run(s, first), second)
    decreases |first|
  {
    if first != [] {
      assert (first + second)[0] == first[0];
      assert (first + second)[1..] == first[1..] + second;
      RunConcat(Step(s, first[0]), first[1..], second);
    } else {
      assert first + second == second;
    }
  }

  /** Every state reachable from the initial one, by any sequence of actions, satisfies `Inv`. */
  lemma {:induction false} RunPreservesInv(s: GameState, actions: seq<Action>)
    requires Inv(s)
    ensures Inv(Run(s, actions))
    decreases |actions|
  {
    if actions != [] {
      match actions[0] {
        case ClickAt(i) => ClickPreservesInv(s, i);
        case SubmitNames => StartPreservesInv(s);
        case EditName(p, v) => NameInputPreservesInv(s, p, v);
        case Restart => InitialInv();
      }
      RunPreservesInv(Step(s, actions[0]), actions[1..]);
    }
  }

  lemma ReachableInv(actions: seq<Action>)
    ensures Inv(Run(Initial, actions))
  {
    InitialInv();
    RunPreservesInv(Initial, actions);
  }
}
