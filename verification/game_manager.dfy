/** The game manager: the two players, whose turn it is, the move counter of
    the current match and the session counters (matches, ties). Every
    operation is a pure step from one manager state to the next; what the
    game hands to its display layer (the winning combination to colour, the
    round-end message, the statistics) is returned alongside. */
module GameManager {
  import opened GameBoard
  import opened Players
  import opened WinCheck

  /** Which of the two players is to move. */
  datatype Turn = First | Second

  function Other(t: Turn): (u: Turn)
    ensures u != t
  {
    if t == First then Second else First
  }

  /** The players of the session; `NoPlayers` before they are created and
      after a reset. */
  datatype Roster = NoPlayers | Seated(player1: Player, player2: Player, playerRound: Turn)

  function PlayerAt(r: Roster, t: Turn): Player
    requires r.Seated?
  {
    if t == First then r.player1 else r.player2
  }

  /** The player whose turn it is. */
  function Mover(r: Roster): Player
    requires r.Seated?
  {
    PlayerAt(r, r.playerRound)
  }

  /** Both rosters seat players with the same names and signs. */
  predicate SameIdentities(r: Roster, r': Roster)
  {
    && r.Seated? && r'.Seated?
    && r.player1.name == r'.player1.name && r.player1.sign == r'.player1.sign
    && r.player2.name == r'.player2.name && r.player2.sign == r'.player2.sign
  }

  datatype Manager = Manager(
    board: Board,
    roster: Roster,
    matchNumber: nat,
    tiesNumber: nat,
    tie: bool,
    move: nat)

  /** The state when the page is loaded. */
  const Start: Manager := Manager(ResetFields(), NoPlayers, 0, 0, false, 0)

  /** The counters shown to the user: rounds won by the "x" player, by the
      "o" player, and ties. */
  datatype StatsInfo = StatsInfo(xRounds: nat, oRounds: nat, ties: nat)

  /** What the round-end box shows: nothing (the match goes on), a tie, or
      the winner's name and sign. */
  datatype RoundInfo = NoInfo | TieInfo | WinnerInfo(name: string, sign: Sign)

  /** Result of the state check: whether the match is over, and the winning
      combination to colour, if any. */
  datatype CheckOutcome = CheckOutcome(finalRound: bool, winningGame: Scan)

  /** Result of one round: the state check plus the round-end message. */
  datatype RoundReport = RoundReport(finalRound: bool, winningGame: Scan, info: RoundInfo)

  /** Credits the player to move with one won round. */
  function CreditMover(r: Roster): (r': Roster)
    requires r.Seated?
    ensures SameIdentities(r, r') && r'.playerRound == r.playerRound
    ensures PlayerAt(r', r.playerRound).winningRounds == PlayerAt(r, r.playerRound).winningRounds + 1
    ensures PlayerAt(r', Other(r.playerRound)) == PlayerAt(r, Other(r.playerRound))
  {
    if r.playerRound == First then r.(player1 := UpdateWinningRounds(r.player1))
    else r.(player2 := UpdateWinningRounds(r.player2))
  }

  /** Creates both players (empty names become "HUMAN" and "AI") and picks
      who starts: `firstStarts` stands for the coin flip, true when the first
      player was drawn. Board and counters are left as they are. */
  function SetPlayers(m: Manager, firstName: string, firstSign: Sign,
                      secondName: string, secondSign: Sign, firstStarts: bool): (r: Manager)
    ensures r.roster.Seated?
    ensures r.roster.player1.name != "" && r.roster.player2.name != ""
    ensures firstName != "" ==> r.roster.player1.name == firstName
    ensures firstName == "" ==> r.roster.player1.name == "HUMAN"
    ensures secondName != "" ==> r.roster.player2.name == secondName
    ensures secondName == "" ==> r.roster.player2.name == "AI"
    ensures r.roster.player1.sign == firstSign && r.roster.player2.sign == secondSign
    ensures r.roster.player1.winningRounds == 0 && r.roster.player2.winningRounds == 0
    ensures r.roster.playerRound == First <==> firstStarts
    ensures r.board == m.board && r.move == m.move && r.tie == m.tie
    ensures r.matchNumber == m.matchNumber && r.tiesNumber == m.tiesNumber
  {
    var player1 := NewPlayer(NameOrDefault(firstName, "HUMAN"), firstSign);
    var player2 := NewPlayer(NameOrDefault(secondName, "AI"), secondSign);
    m.(roster := Seated(player1, player2, if firstStarts then First else Second))
  }

  /** The state check after the player to move has played at `indexTile`
      and the move counter reads `movesNumber`. Only the combinations through
      `indexTile` are scanned for the mover's sign; the first completed one
      wins, crediting the mover once. The ninth move without a completed
      combination is a tie. */
  function CheckGameState(m: Manager, movesNumber: int, indexTile: Position): (r: (Manager, CheckOutcome))
    requires m.roster.Seated?
    ensures var won := CompletesLine(m.board, indexTile, Mover(m.roster).sign);
      && r.1.finalRound == (won || movesNumber == 9)
      && r.1.winningGame.Completed? == won
      && (won ==> r.1.winningGame.line in WinningCombinations && r.1.winningGame.line.Includes(indexTile)
                  && LineHeld(m.board, r.1.winningGame.line, Mover(m.roster).sign))
      && SameIdentities(m.roster, r.0.roster) && r.0.roster.playerRound == m.roster.playerRound
      && PlayerAt(r.0.roster, m.roster.playerRound).winningRounds
           == PlayerAt(m.roster, m.roster.playerRound).winningRounds + (if won then 1 else 0)
      && PlayerAt(r.0.roster, Other(m.roster.playerRound)) == PlayerAt(m.roster, Other(m.roster.playerRound))
      && r.0.tiesNumber == m.tiesNumber + (if !won && movesNumber == 9 then 1 else 0)
      && (won ==> !r.0.tie)
      && (!won && movesNumber == 9 ==> r.0.tie)
      && (!won && movesNumber != 9 ==> r.0.tie == m.tie)
    ensures r.0.board == m.board && r.0.move == m.move && r.0.matchNumber == m.matchNumber
  {
    var scan := CheckLines(m.board, indexTile, Mover(m.roster).sign);
    var afterWin := if scan.Completed? then m.(tie := false, roster := CreditMover(m.roster)) else m;
    var afterTie :=
      if movesNumber == 9 && scan.NoLine? then afterWin.(tiesNumber := afterWin.tiesNumber + 1, tie := true)
      else afterWin;
    (afterTie, CheckOutcome(scan.Completed? || movesNumber == 9, scan))
  }

  /** One round: counts the move, writes the mover's sign at `indexTile`,
      runs the state check, chooses the round-end message, and passes the
      turn to the other player, even when the match has just ended. The
      display layer only delivers clicks on empty tiles. */
  function PlayRound(m: Manager, indexTile: Position): (r: (Manager, RoundReport))
    requires m.roster.Seated?
    requires GetPosition(m.board, indexTile) == Empty
    ensures r.0.move == m.move + 1
    ensures GetPosition(r.0.board, indexTile) == Marked(Mover(m.roster).sign)
    ensures forall q: Position :: q != indexTile ==> GetPosition(r.0.board, q) == GetPosition(m.board, q)
    ensures SameIdentities(m.roster, r.0.roster)
    ensures r.0.roster.playerRound == Other(m.roster.playerRound)
    ensures r.0.matchNumber == m.matchNumber
  {
    var mover := Mover(m.roster);
    var played := m.(move := m.move + 1, board := SetPosition(m.board, indexTile, mover.sign));
    var (checked, outcome) := CheckGameState(played, played.move, indexTile);
    var info :=
      if !outcome.finalRound then NoInfo
      else if checked.tie then TieInfo
      else WinnerInfo(Mover(checked.roster).name, Mover(checked.roster).sign);
    (checked.(roster := checked.roster.(playerRound := Other(checked.roster.playerRound))),
     RoundReport(outcome.finalRound, outcome.winningGame, info))
  }

  /** How a round ends. Writing `won` for "the mover now holds a winning
      combination through the played tile": the mover's won rounds rise by
      one exactly when `won`, the other player's never change, the tie
      counter rises exactly on a ninth move without `won`, the round is final
      exactly when `won` or it was the ninth move, the completed combination
      is reported exactly when `won`, and the round-end box names the mover
      on a win, announces a tie on a drawn ninth move, and stays closed
      otherwise. */
  lemma RoundOutcome(m: Manager, indexTile: Position)
    requires m.roster.Seated?
    requires GetPosition(m.board, indexTile) == Empty
    ensures var (r, report) := PlayRound(m, indexTile);
      var won := CompletesLine(r.board, indexTile, Mover(m.roster).sign);
      && PlayerAt(r.roster, m.roster.playerRound).winningRounds
           == PlayerAt(m.roster, m.roster.playerRound).winningRounds + (if won then 1 else 0)
      && PlayerAt(r.roster, Other(m.roster.playerRound)).winningRounds
           == PlayerAt(m.roster, Other(m.roster.playerRound)).winningRounds
      && r.tiesNumber == m.tiesNumber + (if !won && m.move + 1 == 9 then 1 else 0)
      && report.finalRound == (won || m.move + 1 == 9)
      && report.winningGame.Completed? == won
      && (won ==> report.winningGame.line.Includes(indexTile)
                  && LineHeld(r.board, report.winningGame.line, Mover(m.roster).sign))
      && (report.info == WinnerInfo(Mover(m.roster).name, Mover(m.roster).sign) <==> won)
      && (report.info == TieInfo <==> !won && m.move + 1 == 9)
      && (report.info == NoInfo <==> !report.finalRound)
  {
  }

  /** The statistics line: the wins of the player whose sign is "x" first.
      The selection looks only at the first player's sign; when the two
      players have different signs, each player's wins land under that
      player's own sign. */
  function StatsOf(r: Roster, ties: nat): (s: StatsInfo)
    requires r.Seated?
    ensures s.ties == ties
    ensures || (s.xRounds == r.player1.winningRounds && s.oRounds == r.player2.winningRounds)
            || (s.xRounds == r.player2.winningRounds && s.oRounds == r.player1.winningRounds)
    ensures r.player1.sign != r.player2.sign ==>
              forall t: Turn :: && (PlayerAt(r, t).sign == X ==> s.xRounds == PlayerAt(r, t).winningRounds)
                                && (PlayerAt(r, t).sign == O ==> s.oRounds == PlayerAt(r, t).winningRounds)
  {
    if r.player1.sign == X then StatsInfo(r.player1.winningRounds, r.player2.winningRounds, ties)
    else
      assert r.player1.sign != r.player2.sign ==> r.player2.sign == X;
      StatsInfo(r.player2.winningRounds, r.player1.winningRounds, ties)
  }

  /** Starts the next match: re-draws the starting player (`firstStarts`),
      reports the statistics, clears the board and the move counter, and
      counts the match. Win counts and ties carry over. */
  function NextMatch(m: Manager, firstStarts: bool): (r: (Manager, StatsInfo))
    requires m.roster.Seated?
    ensures forall p: Position :: GetPosition(r.0.board, p) == Empty
    ensures r.0.move == 0 && r.0.matchNumber == m.matchNumber + 1
    ensures r.0.tiesNumber == m.tiesNumber && r.0.tie == m.tie
    ensures r.0.roster.Seated?
    ensures r.0.roster.player1 == m.roster.player1 && r.0.roster.player2 == m.roster.player2
    ensures r.0.roster.playerRound == First <==> firstStarts
    ensures r.1 == StatsOf(m.roster, m.tiesNumber)
  {
    var roster := m.roster.(playerRound := if firstStarts then First else Second);
    var stats := StatsOf(roster, m.tiesNumber);
    (m.(roster := roster, board := ResetFields(), move := 0, matchNumber := m.matchNumber + 1), stats)
  }

  /** Ends the session: drops both players, zeroes the match, tie and move
      counters and clears the board; the display shows zero statistics. */
  function ResetGame(m: Manager): (r: (Manager, StatsInfo))
    ensures r.0.roster.NoPlayers?
    ensures r.0.matchNumber == 0 && r.0.tiesNumber == 0 && r.0.move == 0
    ensures forall p: Position :: GetPosition(r.0.board, p) == Empty
    ensures r.0.tie == m.tie
    ensures r.1 == StatsInfo(0, 0, 0)
  {
    (m.(roster := NoPlayers, matchNumber := 0, tiesNumber := 0, move := 0, board := ResetFields()),
     StatsInfo(0, 0, 0))
  }
}
