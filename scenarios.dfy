/** Whole games played through the transition functions from the initial state. */
module Scenarios {
  import opened Grid
  import Text
  import opened Game
  import opened Status

  /** The state after the names `nx` and `no` are typed in and submitted. */
  function Named(nx: string, no: string): GameState {
    Start(NameInput(NameInput(Initial, X, nx), O, no))
  }

  /** With two non-blank names the game starts, on an empty board with X to move. */
  lemma NamedStarts(nx: string, no: string)
    requires !Text.Blank(nx) && !Text.Blank(no)
    ensures var s := Named(nx, no);
      s.gameStarted && s.playerNames == Names(Text.Trim(nx), Text.Trim(no)) &&
      s.squares == EmptyBoard() && s.turn == X && s.winner == Undecided
  {
    var n := NameInput(NameInput(Initial, X, nx), O, no);
    assert n.inputNames == Names(nx, no);
    StartAcceptedIff(n);
  }

  /** The boards of the game X:0, O:3, X:1, O:4, X:2. */
  const B0: Board := [Empty, Empty, Empty, Empty, Empty, Empty, Empty, Empty, Empty]
  const B1: Board := [Mark(X), Empty, Empty, Empty, Empty, Empty, Empty, Empty, Empty]
  const B2: Board := [Mark(X), Empty, Empty, Mark(O), Empty, Empty, Empty, Empty, Empty]
  const B3: Board := [Mark(X), Mark(X), Empty, Mark(O), Empty, Empty, Empty, Empty, Empty]
  const B4: Board := [Mark(X), Mark(X), Empty, Mark(O), Mark(O), Empty, Empty, Empty, Empty]
  const B5: Board := [Mark(X), Mark(X), Mark(X), Mark(O), Mark(O), Empty, Empty, Empty, Empty]

  /** No line until X's third mark completes the top row. */
  lemma TopRowQuiet()
    ensures Winner(B1) == None && !Full(B1)
    ensures Winner(B2) == None && !Full(B2)
  {
    assert B1[8] == Empty && B2[8] == Empty;
  }

  lemma TopRowQuietLate()
    ensures Winner(B3) == None && !Full(B3)
    ensures Winner(B4) == None && !Full(B4)
  {
    assert B3[8] == Empty && B4[8] == Empty;
  }

  lemma TopRowWon()
    ensures Winner(B5) == Some(Win(X, [0, 1, 2]))
  {
  }

  lemma TopRowSteps()
    ensures B0[0 := Mark(X)] == B1 && B1[3 := Mark(O)] == B2 && B2[1 := Mark(X)] == B3
    ensures B3[4 := Mark(O)] == B4 && B4[2 := Mark(X)] == B5
  {
  }

  /** One accepted move that neither wins nor fills the board. */
  lemma QuietMove(s: GameState, i: Index, after: Board)
    requires ClickAccepted(s, i) && s.squares[i := Mark(s.turn)] == after
    requires Winner(after) == None && !Full(after)
    ensures Click(s, i) == s.(squares := after, turn := Other(s.turn))
  {
  }

  /** One accepted move that completes a line. */
  lemma WinningMove(s: GameState, i: Index, after: Board, w: Win)
    requires ClickAccepted(s, i) && s.squares[i := Mark(s.turn)] == after
    requires Winner(after) == Some(w)
    ensures Click(s, i) == s.(squares := after, winner := Won(w.player), winningLine := w.line)
  {
  }

  /** The moves X:0, O:3, X:1, O:4, X:2 after the names are confirmed, one click at a time. */
  lemma TopRowClicks(s0: GameState)
    requires s0.gameStarted && s0.squares == B0 && s0.turn == X && s0.winner == Undecided
    ensures Click(Click(Click(Click(Click(s0, 0), 3), 1), 4), 2) ==
      s0.(squares := B5, winner := Won(X), winningLine := [0, 1, 2])
  {
    TopRowQuiet();
    TopRowQuietLate();
    TopRowWon();
    TopRowSteps();
    QuietMove(s0, 0, B1);
    var s1 := s0.(squares := B1, turn := O);
    QuietMove(s1, 3, B2);
    var s2 := s0.(squares := B2);
    QuietMove(s2, 1, B3);
    var s3 := s0.(squares := B3, turn := O);
    QuietMove(s3, 4, B4);
    var s4 := s0.(squares := B4);
    WinningMove(s4, 2, B5, Win(X, [0, 1, 2]));
  }

  lemma TopRowRun(s0: GameState)
    requires s0.gameStarted && s0.squares == B0 && s0.turn == X && s0.winner == Undecided
    ensures Run(s0, [ClickAt(0), ClickAt(3), ClickAt(1), ClickAt(4), ClickAt(2)]) ==
      s0.(squares := B5, winner := Won(X), winningLine := [0, 1, 2])
  {
    TopRowClicks(s0);
    var s4 := Click(Click(Click(Click(s0, 0), 3), 1), 4);
    assert Run(s4, [ClickAt(2)]) == Click(s4, 2);
    var s3 := Click(Click(Click(s0, 0), 3), 1);
    assert Run(s3, [ClickAt(4), ClickAt(2)]) == Run(s4, [ClickAt(2)]);
    var s2 := Click(Click(s0, 0), 3);
    assert Run(s2, [ClickAt(1), ClickAt(4), ClickAt(2)]) == Run(s3, [ClickAt(4), ClickAt(2)]);
    var s1 := Click(s0, 0);
    assert Run(s1, [ClickAt(3), ClickAt(1), ClickAt(4), ClickAt(2)]) == Run(s2, [ClickAt(1), ClickAt(4), ClickAt(2)]);
  }

  lemma WinStatus(s: GameState)
    requires s.gameStarted && s.winner == Won(X)
    ensures StatusLine(s) == s.playerNames.x + " (X) wins!"
  {
  }

  /** X takes 0, 1 and 2 while O takes 3 and 4: X wins on the top row, the status line
      names X's trimmed name, and any further click changes nothing. */
  lemma WinOnTopRow(nx: string, no: string, k: Index)
    requires !Text.Blank(nx) && !Text.Blank(no)
    ensures var s := Run(Named(nx, no), [ClickAt(0), ClickAt(3), ClickAt(1), ClickAt(4), ClickAt(2)]);
      s.winner == Won(X) && s.winningLine == [0, 1, 2] &&
      StatusLine(s) == Text.Trim(nx) + " (X) wins!" && Click(s, k) == s
  {
    var s0 := Named(nx, no);
    NamedStarts(nx, no);
    assert s0.squares == B0;
    TopRowRun(s0);
    WinStatus(s0.(squares := B5, winner := Won(X), winningLine := [0, 1, 2]));
  }

  const DrawOpeningMoves: seq<Action> := [ClickAt(0), ClickAt(1), ClickAt(2), ClickAt(4)]
  const DrawEndingMoves: seq<Action> := [ClickAt(3), ClickAt(5), ClickAt(7), ClickAt(6), ClickAt(8)]

  /** The boards of the game X:0, O:1, X:2, O:4, X:3, O:5, X:7, O:6, X:8. */
  const D1: Board := [Mark(X), Empty, Empty, Empty, Empty, Empty, Empty, Empty, Empty]
  const D2: Board := [Mark(X), Mark(O), Empty, Empty, Empty, Empty, Empty, Empty, Empty]
  const D3: Board := [Mark(X), Mark(O), Mark(X), Empty, Empty, Empty, Empty, Empty, Empty]
  const D4: Board := [Mark(X), Mark(O), Mark(X), Empty, Mark(O), Empty, Empty, Empty, Empty]
  const D5: Board := [Mark(X), Mark(O), Mark(X), Mark(X), Mark(O), Empty, Empty, Empty, Empty]
  const D6: Board := [Mark(X), Mark(O), Mark(X), Mark(X), Mark(O), Mark(O), Empty, Empty, Empty]
  const D7: Board := [Mark(X), Mark(O), Mark(X), Mark(X), Mark(O), Mark(O), Empty, Mark(X), Empty]
  const D8: Board := [Mark(X), Mark(O), Mark(X), Mark(X), Mark(O), Mark(O), Mark(O), Mark(X), Empty]
  const D9: Board := [Mark(X), Mark(O), Mark(X), Mark(X), Mark(O), Mark(O), Mark(O), Mark(X), Mark(X)]

  /** No line is ever completed, and the ninth mark fills the board. */
  lemma DrawBoard1()
    ensures Winner(D1) == None && !Full(D1)
  {
    assert D1[8] == Empty;
  }

  lemma DrawBoard2()
    ensures Winner(D2) == None && !Full(D2)
  {
    assert D2[8] == Empty;
  }

  lemma DrawBoard3()
    ensures Winner(D3) == None && !Full(D3)
  {
    assert D3[8] == Empty;
  }

  lemma DrawBoard4()
    ensures Winner(D4) == None && !Full(D4)
  {
    assert D4[8] == Empty;
  }

  lemma DrawBoard5()
    ensures Winner(D5) == None && !Full(D5)
  {
    assert D5[8] == Empty;
  }

  lemma DrawBoard6()
    ensures Winner(D6) == None && !Full(D6)
  {
    assert D6[8] == Empty;
  }

  lemma DrawBoard7()
    ensures Winner(D7) == None && !Full(D7)
  {
    assert D7[8] == Empty;
  }

  lemma DrawBoard8()
    ensures Winner(D8) == None && !Full(D8)
  {
    assert D8[8] == Empty;
  }

  lemma DrawBoard9()
    ensures Winner(D9) == None && Full(D9)
  {
  }

  lemma DrawSteps()
    ensures B0[0 := Mark(X)] == D1
    ensures D1[1 := Mark(O)] == D2
    ensures D2[2 := Mark(X)] == D3
    ensures D3[4 := Mark(O)] == D4
    ensures D4[3 := Mark(X)] == D5
    ensures D5[5 := Mark(O)] == D6
    ensures D6[7 := Mark(X)] == D7
    ensures D7[6 := Mark(O)] == D8
    ensures D8[8 := Mark(X)] == D9
  {
  }

  /** One accepted move that fills the board without completing a line. */
  lemma DrawingMove(s: GameState, i: Index, after: Board)
    requires ClickAccepted(s, i) && s.squares[i := Mark(s.turn)] == after
    requires Winner(after) == None && Full(after)
    ensures Click(s, i) == s.(squares := after, winner := Draw, winningLine := [])
  {
  }

  lemma DrawOpening(s0: GameState)
    requires s0.gameStarted && s0.squares == B0 && s0.turn == X && s0.winner == Undecided
    ensures Run(s0, DrawOpeningMoves) == s0.(squares := D4)
  {
    DrawBoard1(); DrawBoard2(); DrawBoard3(); DrawBoard4();
    DrawSteps();
    QuietMove(s0, 0, D1);
    var t1 := s0.(squares := D1, turn := O);
    QuietMove(t1, 1, D2);
    var t2 := s0.(squares := D2);
    QuietMove(t2, 2, D3);
    var t3 := s0.(squares := D3, turn := O);
    QuietMove(t3, 4, D4);
    assert Run(t3, [ClickAt(4)]) == s0.(squares := D4);
    assert Run(t2, [ClickAt(2), ClickAt(4)]) == Run(t3, [ClickAt(4)]);
    assert Run(t1, [ClickAt(1), ClickAt(2), ClickAt(4)]) == Run(t2, [ClickAt(2), ClickAt(4)]);
  }

  lemma DrawEnding(s4: GameState)
    requires s4.gameStarted && s4.squares == D4 && s4.turn == X && s4.winner == Undecided
    ensures Run(s4, DrawEndingMoves) ==
      s4.(squares := D9, winner := Draw, winningLine := [])
  {
    DrawBoard5(); DrawBoard6(); DrawBoard7(); DrawBoard8(); DrawBoard9();
    DrawSteps();
    QuietMove(s4, 3, D5);
    var t5 := s4.(squares := D5, turn := O);
    QuietMove(t5, 5, D6);
    var t6 := s4.(squares := D6);
    QuietMove(t6, 7, D7);
    var t7 := s4.(squares := D7, turn := O);
    QuietMove(t7, 6, D8);
    var t8 := s4.(squares := D8);
    DrawingMove(t8, 8, D9);
    assert Run(t8, [ClickAt(8)]) == s4.(squares := D9, winner := Draw, winningLine := []);
    assert Run(t7, [ClickAt(6), ClickAt(8)]) == Run(t8, [ClickAt(8)]);
    assert Run(t6, [ClickAt(7), ClickAt(6), ClickAt(8)]) == Run(t7, [ClickAt(6), ClickAt(8)]);
    assert Run(t5, [ClickAt(5), ClickAt(7), ClickAt(6), ClickAt(8)]) == Run(t6, [ClickAt(7), ClickAt(6), ClickAt(8)]);
  }

  /** A game that fills the board without a line ends in a draw, and the status line says so. */
  lemma DrawGame(nx: string, no: string)
    requires !Text.Blank(nx) && !Text.Blank(no)
    ensures var s := Run(Named(nx, no), DrawOpeningMoves + DrawEndingMoves);
      s.winner == Draw && s.winningLine == [] && StatusLine(s) == DrawText
  {
    var s0 := Named(nx, no);
    NamedStarts(nx, no);
    assert s0.squares == B0;
    DrawOpening(s0);
    DrawEnding(s0.(squares := D4));
    RunConcat(s0, DrawOpeningMoves, DrawEndingMoves);
  }

  /** Submitting with a blank name for X changes nothing, and the game does not start. */
  lemma BlankNameBlocksStart(no: string)
    ensures var s := NameInput(NameInput(Initial, X, ""), O, no);
      Start(s) == s && !Start(s).gameStarted && StatusLine(Start(s)) == Prompt
  {
  }
}
