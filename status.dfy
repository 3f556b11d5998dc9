/** The status line the component renders above the board, derived from the state on every render. */
module Status {
  import opened Grid
  import opened Game

  function SymText(p: Sym): string {
    if p == X then "X" else "O"
  }

  const Prompt: string := "Enter player names to start"
  const DrawText: string := "It's a draw!"
  const WinsSuffix: string := ") wins!"

  /** The `status` string. `playerNames[turn] || ''` is the name itself, an empty
      name being rendered as the empty string either way. */
  function StatusLine(s: GameState): string {
    if !s.gameStarted then Prompt
    else if s.winner == Draw then DrawText
    else if s.winner.Won? then s.playerNames.Of(s.winner.sym) + " (" + SymText(s.winner.sym) + WinsSuffix
    else "Next: " + s.playerNames.Of(s.turn) + " (" + SymText(s.turn) + ")"
  }

  function SymFromText(c: char): Sym {
    if c == 'X' then X else O
  }

  /** Reads the phase back off a status line, by its ending: ") wins!" after the
      winner's symbol, the draw message, ")" after the symbol to move, or the prompt. */
  function ReadStatus(line: string): Phase {
    if |line| >= 8 && line[|line| - 7..] == WinsSuffix then WonBy(SymFromText(line[|line| - 8]))
    else if line == DrawText then Drawn
    else if |line| >= 2 && line[|line| - 1] == ')' then ToMove(SymFromText(line[|line| - 2]))
    else AwaitingNames
  }

  /** The status line tells the phase: whether names are awaited, who is to move,
      who won, or that the game is drawn, whatever the player names are. */
  lemma ReadStatusInverts(s: GameState)
    ensures ReadStatus(StatusLine(s)) == PhaseOf(s)
  {
    var line := StatusLine(s);
    if !s.gameStarted {
      assert line[|line| - 1] == 't';
      assert WinsSuffix[6] == '!';
    } else if s.winner == Draw {
      assert line[|line| - 7..][0] == 'a';
    } else if s.winner.Won? {
      var p := s.winner.sym;
      var name := s.playerNames.Of(p);
      assert line == name + [' ', '(', SymText(p)[0]] + WinsSuffix;
      assert line[|line| - 7..] == WinsSuffix;
      assert line[|line| - 8] == SymText(p)[0];
    } else {
      var name := s.playerNames.Of(s.turn);
      assert line == "Next: " + name + [' ', '(', SymText(s.turn)[0], ')'];
      assert line[|line| - 1] == ')';
      assert line[|line| - 7..][6] == ')';
      assert line != DrawText by { assert DrawText[|DrawText| - 1] == '!'; }
    }
  }

  /** Two states in different phases never show the same status line. */
  lemma StatusSeparatesPhases(s: GameState, t: GameState)
    requires PhaseOf(s) != PhaseOf(t)
    ensures StatusLine(s) != StatusLine(t)
  {
    ReadStatusInverts(s);
    ReadStatusInverts(t);
  }

  /** In a reachable state the status line names a real player: after a win it begins
      with the winner's confirmed name, and while the game runs with "Next: " and the
      confirmed name of the player to move. */
  lemma StatusNamesPlayer(s: GameState)
    requires Inv(s) && s.gameStarted && s.winner != Draw
    ensures var p := if s.winner.Won? then s.winner.sym else s.turn;
      var name := s.playerNames.Of(p);
      Confirmed(name) &&
      (s.winner.Won? ==> StatusLine(s)[..|name|] == name) &&
      (s.winner == Undecided ==> StatusLine(s)[6..6 + |name|] == name)
  {
    assert Confirmed(s.playerNames.x) && Confirmed(s.playerNames.o);
    if s.winner.Won? {
      var name := s.playerNames.Of(s.winner.sym);
      assert StatusLine(s) == name + (" (" + SymText(s.winner.sym) + WinsSuffix);
    } else {
      var name := s.playerNames.Of(s.turn);
      assert StatusLine(s) == "Next: " + name + (" (" + SymText(s.turn) + ")");
    }
  }
}
