/** The `App` component: its game slices as fields, its handlers as methods.
    Each handler reads the slices as they were when it was called and leaves
    them as the matching transition function of module Game says. */
module Component {
  import opened Grid
  import opened Text
  import opened Game

  class App {
    var squares: array<Cell>
    var turn: Sym
    var playerNames: Names
    var inputNames: Names
    var winner: Verdict
    var winningLine: seq<Index>
    var gameStarted: bool

    ghost predicate Valid()
      reads this
    {
      squares.Length == 9
    }

    /** The slices as one value. */
    ghost function State(): GameState
      reads this, squares
      requires Valid()
    {
      GameState(squares[..], turn, playerNames, inputNames, winner, winningLine, gameStarted)
    }

    /** The `useState` initial values. */
    constructor ()
      ensures Valid() && fresh(squares)
      ensures State() == Initial && Inv(State())
    {
      InitialInv();
      squares := new Cell[9](_ => Empty);
      turn := X;
      playerNames := NoNames;
      inputNames := NoNames;
      winner := Undecided;
      winningLine := [];
      gameStarted := false;
    }

    /** Puts every game slice back to its initial value, whatever the state was. */
    method HandleRestart()
      requires Valid()
      modifies this
      ensures Valid() && fresh(squares)
      ensures State() == Initial && Inv(State())
    {
      InitialInv();
      squares := new Cell[9](_ => Empty);
      turn := X;
      winner := Undecided;
      winningLine := [];
      gameStarted := false;
      inputNames := NoNames;
      playerNames := NoNames;
    }

    /** A click on square `i`: ignored unless the game runs and the square is empty;
        otherwise a copy of the board with the mover's mark in square `i` replaces the
        board, and a win, a draw or the next turn is recorded. */
    method HandleClick(i: Index)
      requires Valid()
      modifies this
      ensures Valid()
      ensures State() == Click(old(State()), i)
      ensures !ClickAccepted(old(State()), i) ==> squares == old(squares)
      ensures ClickAccepted(old(State()), i) ==> fresh(squares)
      ensures Inv(old(State())) ==> Inv(State())
    {
      ClickPreservesInv(State(), i);
      if winner != Undecided || !gameStarted || squares[i] != Empty {
        return;
      }
      var next := new Cell[9];
      forall j | 0 <= j < 9 {
        next[j] := squares[j];
      }
      next[i] := Mark(turn);
      assert next[..] == old(squares[..])[i := Mark(turn)];
      var win := CalculateWinner(next);
      squares := next;
      match win {
        case Some(w) =>
          winner := Won(w.player);
          winningLine := w.line;
        case None =>
          if forall j :: 0 <= j < 9 ==> next[j] != Empty {
            winner := Draw;
            winningLine := [];
          } else {
            turn := Other(turn);
          }
      }
    }

    /** Typing `v` into the pending name field of `p`. */
    method HandleNameInput(p: Sym, v: string)
      requires Valid()
      modifies this
      ensures Valid() && squares == old(squares)
      ensures State() == NameInput(old(State()), p, v)
      ensures Inv(old(State())) ==> Inv(State())
    {
      NameInputPreservesInv(State(), p, v);
      inputNames := inputNames.With(p, v);
    }

    /** Submitting the name form: the game starts only when both trimmed names are non-empty. */
    method StartGame()
      requires Valid()
      modifies this
      ensures Valid() && squares == old(squares)
      ensures State() == Start(old(State()))
      ensures Inv(old(State())) ==> Inv(State())
    {
      ghost var pre := State();
      StartPreservesInv(pre);
      var x, o := Trim(inputNames.x), Trim(inputNames.o);
      if x != "" && o != "" {
        playerNames := Names(x, o);
        gameStarted := true;
      }
      assert State() == Start(pre);
    }
  }
}
