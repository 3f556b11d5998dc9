# Tic Tac Toe game state, modelled in Dafny

This project models the game logic of the single-page Tic Tac Toe component
`App` (`tic_tac_toe_frontend/src/App.js`): the win detector
`calculateWinner`, the handlers `handleClick`, `startGame`, `handleRestart` and
`handleNameInput`, and the derivation of the status line. Two named players take
turns marking a 3x3 board until one completes a row, a column or a diagonal, or
until the board is full.

Layout:

- `grid.dfy` (module `Grid`): the squares, the eight lines in their scanning
  order, `calculateWinner` both as a recursive specification (`ScanLines`,
  `Winner`) and as the loop with an early return the component runs
  (`CalculateWinner`, proved equal to `Winner`), mark counts, and the fact that
  a move can only complete a line for the player who made it.
- `text.dfy` (module `Text`): JavaScript's `String.prototype.trim`, with the
  ECMAScript set of white-space and line-terminator characters.
- `game.dfy` (module `Game`): the seven state slices as one value
  (`GameState`), one transition function per handler (`Click`, `Start`,
  `NameInput`, and `Initial` for restart), the invariant `Inv` of every
  reachable state, and the game phases.
- `status.dfy` (module `Status`): the status line and a reader that recovers
  the phase from it.
- `app.dfy` (module `Component`): the component as a class `App` whose fields
  are the state slices (the board as a 9-element array) and whose methods are
  the handlers. Each method's postcondition says the new state is the matching
  transition function applied to the old state, and that `Inv` is kept.
- `scenarios.dfy` (module `Scenarios`): whole games from the initial state,
  for any pair of non-blank names: a win on the top row, a drawn game, and a
  start blocked by a blank name.

The `winner` slice keeps the source's encoding: `null`, a symbol, or the
string `'draw'` become `Undecided`, `Won(sym)` and `Draw`, and `winningLine` is
a separate slice, as in the source. `handleClick` copies the board
(`squares.slice()`) before writing the mark, so `HandleClick` builds a fresh
array and replaces the field. The previous array is never modified.

The handlers themselves make fewer checks than the page's controls:

- `handleNameInput` does not check `gameStarted`. Only the `disabled` attribute
  of the inputs locks the name fields.
- `startGame` does not check `gameStarted` either. It accepts the names whenever
  both trimmed names are non-empty.

## Model

| member | source | states |
|---|---|---|
| `Grid.ScanLines` | tic_tac_toe_frontend/src/App.js:19-29 | scanning from line k, the result is nothing exactly when no line from k on is complete; otherwise it is a line from k on whose three squares hold the returned player, and no earlier line from k on is complete |
| `Grid.Winner` | tic_tac_toe_frontend/src/App.js:12-30 | `calculateWinner` returns nothing exactly when none of the 8 lines is complete, even on a full board; otherwise it returns the first complete line in the order rows, columns, diagonals, with the symbol all three of its squares hold |
| `Grid.CalculateWinner` | tic_tac_toe_frontend/src/App.js:19-29 | the loop with an early return over the lines computes exactly `Winner` of the board |
| `Grid.Other` | tic_tac_toe_frontend/src/App.js:83 | the turn flip always yields the other symbol |
| `Grid.EmptyBoard` | tic_tac_toe_frontend/src/App.js:41 | `Array(9).fill(null)`: every one of the nine squares is empty |
| `Grid.CountAfterMark` | tic_tac_toe_frontend/src/App.js:72-73 | writing a player's mark into an empty square adds one mark of that player, leaves the other player's count unchanged, and removes one empty square |
| `Grid.CountTotal` | tic_tac_toe_frontend/src/App.js:41 | every square is empty, X or O: the three counts add up to the board size |
| `Grid.FullIffNoEmpty` | tic_tac_toe_frontend/src/App.js:79 | `every(Boolean)` holds exactly when no square is empty |
| `Grid.WinnerIsMover` | tic_tac_toe_frontend/src/App.js:71-78 | if no line was complete before a move, any line `calculateWinner` finds afterwards runs through the marked square and belongs to the player who moved |
| `Text.TrimStart` | tic_tac_toe_frontend/src/App.js:97 | the result is a suffix of the input that is empty or starts with a non-space, and only white space was dropped |
| `Text.TrimEnd` | tic_tac_toe_frontend/src/App.js:97 | the result is a prefix of the input that is empty or ends with a non-space, and only white space was dropped |
| `Text.Trim` | tic_tac_toe_frontend/src/App.js:99-100 | a trimmed name is no longer than the input and neither starts nor ends with white space |
| `Text.TrimEmptyIffBlank` | tic_tac_toe_frontend/src/App.js:97 | `name.trim()` is empty (falsy) exactly when the name is all white space |
| `Text.TrimKeepsUnpadded` | tic_tac_toe_frontend/src/App.js:99-100 | a name with no surrounding white space is stored unchanged |
| `Text.TrimIdempotent` | tic_tac_toe_frontend/src/App.js:99-100 | trimming a trimmed name changes nothing |
| `Text.TrimIsInnerSlice` | tic_tac_toe_frontend/src/App.js:99-100 | the trimmed name is the contiguous slice of the input between its leading and trailing white space |
| `Game.Names.With` | tic_tac_toe_frontend/src/App.js:90 | `{ ...names, [symbol]: value }` sets the entry of `symbol` and keeps the other entry |
| `Game.InitialInv` | tic_tac_toe_frontend/src/App.js:41-47 | the initial slices satisfy the game invariant |
| `Game.ClickOutcome` | tic_tac_toe_frontend/src/App.js:70-85 | a click that is not accepted (a winner or draw recorded, game not started, or square occupied) changes nothing; an accepted click writes the mover's symbol into square i and no other square, and then records exactly one of a win (winner and line from `calculateWinner`), a draw (full board, no line, empty winning line) or a turn flip; the turn stays the same exactly when the game was decided |
| `Game.ClickPreservesInv` | tic_tac_toe_frontend/src/App.js:71-84 | every click keeps the invariant: undecided means no line and a non-full board, X leading O by 0 marks on X's turn and by 1 on O's; a recorded win is the one `calculateWinner` reports and belongs to the player whose turn it still is; a draw means a full board without a line |
| `Game.StartAcceptedIff` | tic_tac_toe_frontend/src/App.js:97 | `startGame` accepts the pending names exactly when neither is blank |
| `Game.StartOutcome` | tic_tac_toe_frontend/src/App.js:95-104 | a rejected start changes nothing; an accepted one sets `gameStarted` and stores the trimmed pending names, which are non-empty and trimmed, and touches nothing else |
| `Game.StartPreservesInv` | tic_tac_toe_frontend/src/App.js:95-104 | starting keeps the invariant |
| `Game.NameInputPreservesInv` | tic_tac_toe_frontend/src/App.js:89-91 | editing a pending name keeps the invariant |
| `Game.LeadBounded` | tic_tac_toe_frontend/src/App.js:72-84 | in every reachable state #X − #O is 0 or 1, and while undecided it is 0 exactly when X is to move |
| `Game.DrawnBoardCounts` | tic_tac_toe_frontend/src/App.js:79-81 | a drawn board holds five X marks and four O marks, and X is the recorded turn |
| `Game.ClickPhase` | tic_tac_toe_frontend/src/App.js:70-85 | a click either leaves the phase as it was or takes "player p to move" to "other player to move", "p won" or "drawn" |
| `Game.StartPhase` | tic_tac_toe_frontend/src/App.js:95-104 | submitting the names takes a game waiting for names to "X to move" when both are accepted, and leaves every other phase unchanged |
| `Game.DecidedIsFinal` | tic_tac_toe_frontend/src/App.js:71 | once a winner or a draw is recorded, no click changes the state |
| `Game.RunPreservesInv` | tic_tac_toe_frontend/src/App.js:58-104 | any sequence of clicks, name submissions, name edits and restarts keeps the invariant |
| `Game.ReachableInv` | tic_tac_toe_frontend/src/App.js:41-104 | every state reachable from the initial slices satisfies the invariant |
| `Status.ReadStatusInverts` | tic_tac_toe_frontend/src/App.js:113-122 | the status line determines the phase, whatever the names: the prompt when not started, the draw message, "<name> (<sym>) wins!" or "Next: <name> (<turn>)"; reading the phase back off the line gives the state's phase |
| `Status.StatusSeparatesPhases` | tic_tac_toe_frontend/src/App.js:113-122 | states in different phases never show the same status line |
| `Status.StatusNamesPlayer` | tic_tac_toe_frontend/src/App.js:119-121 | in a reachable state the status line of a won game begins with the winner's confirmed name, and that of a running game has the confirmed name of the player to move right after "Next: " |
| `Component.App.constructor` | tic_tac_toe_frontend/src/App.js:41-47 | the slices start empty board, X to move, empty names, no winner, empty line, not started, and satisfy the invariant |
| `Component.App.HandleRestart` | tic_tac_toe_frontend/src/App.js:58-66 | whatever the prior state, every slice is back at its initial value, so restarting twice is restarting once |
| `Component.App.HandleClick` | tic_tac_toe_frontend/src/App.js:70-85 | the new slices are `Click` of the old ones; a rejected click keeps the same board array, an accepted one installs a fresh copy; the invariant is kept |
| `Component.App.HandleNameInput` | tic_tac_toe_frontend/src/App.js:89-91 | only the pending name of the given symbol changes; the invariant is kept |
| `Component.App.StartGame` | tic_tac_toe_frontend/src/App.js:95-104 | the new slices are `Start` of the old ones; the invariant is kept |
| `Scenarios.NamedStarts` | tic_tac_toe_frontend/src/App.js:89-104 | typing two non-blank names and submitting starts the game on an empty board with X to move and the trimmed names confirmed |
| `Scenarios.WinOnTopRow` | tic_tac_toe_frontend/src/App.js:70-85 | X:0, O:3, X:1, O:4, X:2 ends with X winning on line [0, 1, 2], the status "<X's name> (X) wins!", and every later click is a no-op |
| `Scenarios.DrawGame` | tic_tac_toe_frontend/src/App.js:79-81 | X:0, O:1, X:2, O:4, X:3, O:5, X:7, O:6, X:8 ends in a draw with an empty winning line and the status "It's a draw!" |
| `Scenarios.BlankNameBlocksStart` | tic_tac_toe_frontend/src/App.js:97 | with an empty name for X, submitting changes nothing and the status still asks for names |

## Left out

- Rendering: the JSX, styles, `COLORS`, aria labels, the board grid and the highlighting of `winningLine` squares in `renderSquare`. They are presentation and carry no state.
- The theme toggle, the effect writing `data-theme` to the document, and the `process.env` effect. They are DOM and environment side effects that do not touch the game state.
- React event objects. `startGame` takes no argument here, and `handleNameInput` takes the symbol and the typed value as plain parameters.
- Checks that live only in DOM attributes: `maxLength={12}`, `required` and `disabled={gameStarted}` on the name inputs, and the start button's `disabled` test on the untrimmed names. A square's `disabled` attribute is the negation of `ClickAccepted`, the same test `handleClick` makes first.
- React's asynchronous, batched `setState`. Each handler is one atomic step from the slices it read to the slices it leaves.
- Component.App.HandleClick: takes a square index in 0..8, the only values `renderSquare` passes. What `handleClick` would do with another index is not modelled.
- Text.Trim: strings are sequences of Unicode scalar values, not UTF-16 code units, so lone surrogates in a typed name are not modelled.
