# Tic-tac-toe game-state engine

This project models the game logic of a browser tic-tac-toe game, in `script.js`:

- the `GameBoard` module: a 9-cell board addressed by positions 1..9, with `setPosition`, `getPosition` and `resetFields`;
- the `Player` factory: a name, a sign ("x" or "o") and a count of rounds won;
- the non-display part of `gameManager`:
  - `setPlayers` creates the two players, with default names, and picks who starts;
  - `playRound` counts the move, marks the tile, checks the game state and passes the turn;
  - `checkGameState` scans the winning combinations through the tile just played and detects a tie on the ninth move;
  - `nextMatch` and `resetGame` handle the session counters.

The module state of `gameManager` (players, whose turn it is, `matchNumber`, `tiesNumber`, `tie`, `move`) becomes the immutable datatype `GameManager.Manager`. Each operation is a pure function from one state to the next. The display layer's side effects become return values:
- the combination to colour;
- the round-end message: tie or winner;
- the statistics line.

Modules:
- `GameBoard` (`game_board.dfy`): signs, cells, positions, the board, the eight winning combinations, and counting filled cells.
- `Players` (`player.dfy`): the player record and its default names.
- `WinCheck` (`win_check.dfy`): the filtered scan that the state check performs. It has two forms: the loop as written, and a functional reference. It also has a full scan of all eight combinations, and the proof that the two scans agree.
- `GameManager` (`game_manager.dfy`): the manager state and its operations.
- `GameProperties` (`game_properties.dfy`): properties that span several steps:
  - the move counter equals the number of filled cells;
  - turns alternate;
  - each finished match is credited exactly once;
  - a match can be played click by click.
- `Scenarios` (`scenarios.dfy`): two complete matches, a top-row win and a full-board tie, worked out round by round.

The win check follows the code, not a whole-board "is there a winner" scan. Only the combinations containing the tile just played are scanned, for the mover's sign, in the fixed order of the combinations table. `WinCheck.IncrementalCheckAgrees` proves when this matters. If the mover held no combination before the move, the restricted scan reports the same combination as a full scan of all eight.

## Model

| member | source | states |
|---|---|---|
| GameBoard.SetPosition | script.js:6-12 | After writing sign `s` at `p`, reading `p` gives `s` and every other position reads as before. An occupied cell is overwritten, because this layer has no occupancy check. |
| GameBoard.ResetFields | script.js:14-16 | The cleared board has every one of the nine positions empty, and no cell counts as filled. |
| GameBoard.CountFilled | script.js:258 | The number of filled cells is at most the number of cells. It is zero exactly when all cells are empty, and equals the length exactly when all cells are marked. |
| GameBoard.CountFilledAfterMark | script.js:284-287 | Marking an empty cell raises the filled count by exactly one, which is how `move++` and `setPosition` stay in step. |
| GameBoard.FullIffNineFilled | script.js:344-350 | The board is full exactly when nine cells are counted as filled, so the ninth move fills the board. |
| GameBoard.WinningCombinationsAreStraightLines | script.js:312-321 | A combination is in the table exactly when it is a straight line of the 3x3 grid in ascending order: one row, one column, or one of the two diagonals. Grid rows and columns are computed from the position, independently of the table. |
| Players.NewPlayer | script.js:23-31 | A new player keeps the given name and sign and has won no round. |
| Players.UpdateWinningRounds | script.js:32 | Recording a win raises the count by exactly one. Name and sign never change. |
| Players.NameOrDefault | script.js:265-269 | A given non-empty name is kept. An empty name is replaced by the fallback, and the result is never empty. |
| WinCheck.LinesThrough | script.js:325-327 | The filter keeps exactly the combinations that contain the played position, and never adds any. |
| WinCheck.FirstCompleted | script.js:329-342 | The scan reports a combination only if it is in the list and held by the sign. It reports none exactly when no combination in the list is held. A reported combination is the first held one in list order, because the loop breaks. |
| WinCheck.ScanPossibilities | script.js:329-342 | The `for … of` loop with its inner `every` test and its `break` computes exactly the reference scan `FirstCompleted`. |
| WinCheck.FirstCompletedAt | script.js:329-341 | If the k-th combination is the first one held, the scan reports it. |
| WinCheck.CheckLines | script.js:311-341 | The state check reports a win exactly when some winning combination containing the played tile is held by the mover. A reported combination is one of the eight, contains the tile and is held. |
| WinCheck.FullScan | script.js:312-321 | The reference check over all eight combinations reports a combination exactly when some combination is held. A reported combination is held, and it is the first held one in table order. |
| WinCheck.FilterKeepsFirst | script.js:325-327 | When every held combination passes the filter, filtering does not change which combination the scan reports first. |
| WinCheck.NewLineContainsMove | script.js:287 | A combination that the move completes contains the tile just played. |
| WinCheck.RestrictedScanAgrees | script.js:325-341 | For any list of combinations, if the sign held none of them before the move, then filtering the list to the combinations through the played tile does not change which combination the scan of the new board reports. |
| WinCheck.IncrementalCheckAgrees | script.js:325-341 | If no combination was held before the move, the restricted check on the new board equals the full scan, and so does the combination it reports. |
| GameManager.Other | script.js:303 | Passing the turn always selects the other player. |
| GameManager.CreditMover | script.js:338 | The player to move gains exactly one won round. Both identities and the other player are unchanged. |
| GameManager.SetPlayers | script.js:264-279 | Both players are created with 0 wins and the given signs. Empty names become "HUMAN" and "AI", and other names are kept. The first player starts exactly when the coin says so. Board and counters are untouched. |
| GameManager.CheckGameState | script.js:311-353 | Write `won` for "the mover holds a combination through the tile". Then the round is final exactly when `won` or the counter is 9, and a combination is reported exactly when `won`. The mover gains one win exactly when `won`, and the other player is unchanged. `tiesNumber` rises exactly on a ninth move without a win, and then `tie` is set. A win clears `tie`, and otherwise `tie` is kept. Board, move and match counters are untouched. |
| GameManager.PlayRound | script.js:283-308 | The move counter rises by one. The mover's sign is written at the tile, and every other cell is unchanged. The players keep their names and signs. The turn passes to the other player, even when the round ended. |
| GameManager.RoundOutcome | script.js:283-353 | How a round ends. The mover's wins rise exactly on a win, and the opponent's never change. Ties rise exactly on a ninth move without a win. The round is final exactly on a win or a ninth move. The round-end box names the mover exactly on a win, announces a tie exactly on a drawn ninth move, and stays closed exactly when the round is not final. |
| GameManager.StatsOf | script.js:359-366 | The statistics show the ties and the two players' wins, one under "x" and the other under "o". When the signs differ, each player's wins appear under that player's own sign. |
| GameManager.NextMatch | script.js:356-381 | The board is cleared, the move counter is 0 and the match counter rises by one. Both players, `tiesNumber` and `tie` are kept. The starter follows the coin. The statistics are those of `StatsOf` for the current players and ties. |
| GameManager.ResetGame | script.js:383-388 | The players are dropped. The match, tie and move counters are zero and the board is cleared. The `tie` flag is left as it was. The statistics show zeros. |
| GameProperties.ValidIsInvariant | script.js:255-258 | In the initial state the move counter equals the number of filled cells. `setPlayers`, `nextMatch` and `resetGame` keep this invariant. |
| GameProperties.PlayRoundKeepsValid | script.js:283-287 | Playing an empty tile keeps the invariant. The counter therefore never exceeds nine, and it is nine exactly when the board is full. |
| GameProperties.FreeCellIffMovesLeft | script.js:344 | In a valid state an empty tile remains exactly when fewer than nine moves were played. |
| GameProperties.PlayRoundMatchesFullScan | script.js:325-341 | When the mover held no combination before the round, the combination the round reports equals a full scan of the new board. |
| GameProperties.QuietRound | script.js:283-308 | A round that completes no combination and is not the ninth changes only the board, the move counter and the turn. It reports nothing. |
| GameProperties.WinningRound | script.js:329-341 | A round that completes a combination is final. The mover is credited once and `tie` is cleared. The combination is reported, and the box names the mover. |
| GameProperties.TieRound | script.js:344-350 | A ninth move without a completed combination is final. `tiesNumber` rises by one and `tie` is set. Nobody is credited, and the box announces a tie. |
| GameProperties.TurnsAlternate | script.js:303 | Two consecutive rounds are played by the two different players with their own signs, and the turn then returns to the first. |
| GameProperties.StatsBySign | script.js:356-371 | With different signs, the statistics that the next match reports put each player's wins under that player's sign and show the tie counter. |
| GameProperties.RoundCreditsOnce | script.js:335-348 | A round hands out exactly one credit (a win or a tie) when it ends the match, and none otherwise. |
| GameProperties.PlayMatch | script.js:186-194 | Replaying clicks keeps the players' names and signs and the match counter. |
| GameProperties.PlayMatchKeepsValid | script.js:186-194 | Because clicks on occupied tiles are ignored and the clicks after a final round are dropped, the move counter still equals the number of filled cells after any sequence of clicks. It never exceeds nine and rises by at most one per click. |
| GameProperties.MatchCreditedOnce | script.js:289-291 | Along any sequence of clicks, a match hands out exactly one credit if it ended and none if it did not. |
| Scenarios.StartBoard | script.js:4 | The page starts with an empty board. |
| Scenarios.QuietStep | script.js:283-308 | A round of a first match that completes nothing and is not the ninth moves from one recorded board to the next. It passes the turn, and its report says the match goes on. |
| Scenarios.TopRowBoards | script.js:312-341 | Each move of the top-row match lands on an empty tile. The first four complete nothing. The fifth completes combination 1-2-3, and the state check reports it. |
| Scenarios.TopRowWin | script.js:283-353 | "x" starts and plays 1, 2, 3 while "o" plays 4, 5. The fifth round is final and reports 1-2-3. The box names "x", with "HUMAN" when no name was given. "x" has one win, "o" none. There is no tie, and the turn passes to "o". |
| Scenarios.DrawOpeningBoards | script.js:312-341 | The first four moves of the drawn match land on empty tiles and complete nothing. |
| Scenarios.DrawMiddleBoards | script.js:312-341 | So do moves five to eight. |
| Scenarios.DrawLastBoard | script.js:312-341 | The ninth move lands on an empty tile and completes nothing. |
| Scenarios.DrawBoardHasNoLine | script.js:312-321 | The final board x,o,x / o,x,o / o,x,o holds no combination for either sign. |
| Scenarios.DrawBoardIsFull | script.js:344-350 | That board is full. |
| Scenarios.DrawFirstRound | script.js:283-308 | In the first round of the drawn match "o" plays 2. It leads to the recorded state and does not end the match. |
| Scenarios.DrawOpening | script.js:283-308 | Rounds two to four of the drawn match lead to the recorded states, and none of them ends the match. |
| Scenarios.DrawMiddle | script.js:283-308 | So do rounds five to eight. |
| Scenarios.DrawMatch | script.js:283-353 | "o" starts. Each of the first eight rounds leads to the recorded state and reports that the match goes on. The ninth move is a tie: `tiesNumber` is 1 and `tie` is set. Nobody is credited and no combination is coloured. |

## Left out

- `layoutController` in `script.js` (lines 43-247) and all of `script-dom-manipulation.js` are DOM work: queries, listeners, CSS classes, animation timers. Their effects on the game appear only as return values: the combination to colour, the round-end message and the statistics.
- The occupied-tile guard of the click handler (`script.js:186-190`) is a precondition of `GameManager.PlayRound`: the cell must be empty. `GameProperties.PlayMatch` models the same guard by ignoring such clicks.
- Removing the board listener after a final round (`script.js:291`) is modelled only in `GameProperties.PlayMatch`, where the remaining clicks are dropped. `PlayRound` itself stays callable, like `gameManager.playRound`.
- `Math.random()` in `firstMove` (`script.js:277-279`) is the boolean parameter `firstStarts`: true when the first player was drawn. No probability is modelled.
- `updatePlayerData` (whose turn is shown) is not returned. It is determined by the roster's `playerRound`.
- The computer opponent and any minimax search do not appear in the code, so they are not modelled.
- Players are modelled as values, not objects. `playerRound` holds the turn (`First` or `Second`), not a reference to a player. Comparing `playerRound == player1` therefore becomes comparing turns.
- GameManager.PlayRound, GameManager.CheckGameState and GameManager.NextMatch require seated players. After `resetGame` the source would fail with a `TypeError` on a null player, and the model does not model that failure.
- Signs are the two values `X` and `O`, as the start screen only ever passes "x" and "o". Any other string is not modelled.
- GameManager.StatsOf: when both players share a sign, the contract says only that the two win counts appear in one of the two orders. The selector reads only the first player's sign, so the labels would then be wrong. The start screen always hands out one "x" and one "o", so this case does not arise.
- Which sign the first player gets depends on the start button's element id (`script.js:83-89`). That is display logic and is not modelled.
- The `tie` flag is not reset by `nextMatch` or `resetGame`, as in the source. It is only read on a final round, where it has just been set or cleared, so the stale value is never shown.
