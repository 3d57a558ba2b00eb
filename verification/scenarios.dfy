/** Two concrete matches played round by round: a win along the top row
    and a full-board tie. The players may have any names. */
module Scenarios {
  import opened GameBoard
  import opened Players
  import opened WinCheck
  import opened GameManager
  import opened GameProperties

  const e := Empty
  const x := Marked(X)
  const o := Marked(O)

  /** The top-row match: the board after each of its five moves. */
  const TopRow0: Board := [e, e, e, e, e, e, e, e, e]
  const TopRow1: Board := [x, e, e, e, e, e, e, e, e]
  const TopRow2: Board := [x, e, e, o, e, e, e, e, e]
  const TopRow3: Board := [x, x, e, o, e, e, e, e, e]
  const TopRow4: Board := [x, x, e, o, o, e, e, e, e]
  const TopRow5: Board := [x, x, x, o, o, e, e, e, e]

  /** The drawn match: the board after each of its nine moves. */
  const Draw0: Board := [e, e, e, e, e, e, e, e, e]
  const Draw1: Board := [e, o, e, e, e, e, e, e, e]
  const Draw2: Board := [x, o, e, e, e, e, e, e, e]
  const Draw3: Board := [x, o, e, o, e, e, e, e, e]
  const Draw4: Board := [x, o, x, o, e, e, e, e, e]
  const Draw5: Board := [x, o, x, o, e, o, e, e, e]
  const Draw6: Board := [x, o, x, o, x, o, e, e, e]
  const Draw7: Board := [x, o, x, o, x, o, o, e, e]
  const Draw8: Board := [x, o, x, o, x, o, o, x, e]
  const Draw9: Board := [x, o, x, o, x, o, o, x, o]

  /** Both matches start on the cleared board. */
  lemma StartBoard()
    ensures Start.board == TopRow0 && Start.board == Draw0
  {
    assert forall i | 0 <= i < 9 :: Start.board[i] == GetPosition(Start.board, i + 1);
  }

  /** The first player, named `n1`, has "x"; the second, named `n2`, has
      "o"; neither has won a round. */
  function Seats(n1: string, n2: string, t: Turn): Roster
  {
    Seated(Player(n1, X, 0), Player(n2, O, 0), t)
  }

  /** A state of a first match in which nobody has won yet. */
  function Quiet(n1: string, n2: string, cells: Board, t: Turn, move: nat): Manager
  {
    Manager(cells, Seats(n1, n2, t), 0, 0, false, move)
  }

  function SignOf(t: Turn): Sign
  {
    if t == First then X else O
  }

  /** The report of a round that does not end the match. */
  const GoesOn := RoundReport(false, NoLine, NoInfo)

  /** A round of the first match that neither wins nor is the ninth move:
      it leads to the next quiet state and does not end the match. */
  lemma QuietStep(n1: string, n2: string, cells: Board, t: Turn, move: nat, p: Position, cells': Board)
    requires GetPosition(cells, p) == Empty && SetPosition(cells, p, SignOf(t)) == cells'
    requires !CompletesLine(cells', p, SignOf(t)) && move + 1 != 9
    ensures PlayRound(Quiet(n1, n2, cells, t, move), p) == (Quiet(n1, n2, cells', Other(t), move + 1), GoesOn)
  {
    QuietRound(Quiet(n1, n2, cells, t, move), p);
  }

  /** Each move of the top-row match is played on an empty cell and, except
      where stated, completes no combination. */
  lemma TopRowBoards()
    ensures GetPosition(TopRow0, 1) == Empty && SetPosition(TopRow0, 1, X) == TopRow1
    ensures !CompletesLine(TopRow1, 1, X)
    ensures GetPosition(TopRow1, 4) == Empty && SetPosition(TopRow1, 4, O) == TopRow2
    ensures !CompletesLine(TopRow2, 4, O)
    ensures GetPosition(TopRow2, 2) == Empty && SetPosition(TopRow2, 2, X) == TopRow3
    ensures !CompletesLine(TopRow3, 2, X)
    ensures GetPosition(TopRow3, 5) == Empty && SetPosition(TopRow3, 5, O) == TopRow4
    ensures !CompletesLine(TopRow4, 5, O)
    ensures GetPosition(TopRow4, 3) == Empty && SetPosition(TopRow4, 3, X) == TopRow5
    ensures CheckLines(TopRow5, 3, X) == Completed(Line(1, 2, 3))
  {
  }

  /** Each of the first four moves of the drawn match is played on an empty
      cell and completes no combination. */
  lemma DrawOpeningBoards()
    ensures GetPosition(Draw0, 2) == Empty && SetPosition(Draw0, 2, O) == Draw1
    ensures !CompletesLine(Draw1, 2, O)
    ensures GetPosition(Draw1, 1) == Empty && SetPosition(Draw1, 1, X) == Draw2
    ensures !CompletesLine(Draw2, 1, X)
    ensures GetPosition(Draw2, 4) == Empty && SetPosition(Draw2, 4, O) == Draw3
    ensures !CompletesLine(Draw3, 4, O)
    ensures GetPosition(Draw3, 3) == Empty && SetPosition(Draw3, 3, X) == Draw4
    ensures !CompletesLine(Draw4, 3, X)
  {
  }

  /** So are the next four, and the ninth fills the board without
      completing a combination either. */
  lemma DrawMiddleBoards()
    ensures GetPosition(Draw4, 6) == Empty && SetPosition(Draw4, 6, O) == Draw5
    ensures !CompletesLine(Draw5, 6, O)
    ensures GetPosition(Draw5, 5) == Empty && SetPosition(Draw5, 5, X) == Draw6
    ensures !CompletesLine(Draw6, 5, X)
    ensures GetPosition(Draw6, 7) == Empty && SetPosition(Draw6, 7, O) == Draw7
    ensures !CompletesLine(Draw7, 7, O)
    ensures GetPosition(Draw7, 8) == Empty && SetPosition(Draw7, 8, X) == Draw8
    ensures !CompletesLine(Draw8, 8, X)
  {
  }

  lemma DrawLastBoard()
    ensures GetPosition(Draw8, 9) == Empty && SetPosition(Draw8, 9, O) == Draw9
    ensures !CompletesLine(Draw9, 9, O)
  {
  }

  /** "x" starts and plays 1, 2 and 3 while "o" plays 4 and 5: the third
      "x" move completes the top row, which is reported for colouring; the
      round-end box names "x" ("HUMAN" when no name was given), "x" is
      credited once, no tie is counted and the turn passes to "o". */
  lemma TopRowWin(firstName: string, secondName: string)
    ensures var (m5, report) := PlayRound(PlayRound(PlayRound(PlayRound(PlayRound(SetPlayers(Start, firstName, X, secondName, O, true), 1).0, 4).0, 2).0, 5).0, 3);
      && report == RoundReport(true, Completed(Line(1, 2, 3)), WinnerInfo(NameOrDefault(firstName, "HUMAN"), X))
      && m5.roster.player1.winningRounds == 1
      && m5.roster.player2.winningRounds == 0
      && m5.tiesNumber == 0 && !m5.tie && m5.move == 5
      && m5.roster.playerRound == Second
  {
    var n1, n2 := NameOrDefault(firstName, "HUMAN"), NameOrDefault(secondName, "AI");
    StartBoard();
    TopRowBoards();
    QuietStep(n1, n2, TopRow0, First, 0, 1, TopRow1);
    QuietStep(n1, n2, TopRow1, Second, 1, 4, TopRow2);
    QuietStep(n1, n2, TopRow2, First, 2, 2, TopRow3);
    QuietStep(n1, n2, TopRow3, Second, 3, 5, TopRow4);
    WinningRound(Quiet(n1, n2, TopRow4, First, 4), 3, Line(1, 2, 3));
  }

  /** The board x,o,x / o,x,o / o,x,o holds no combination for either
      sign ... */
  lemma DrawBoardHasNoLine()
    ensures FullScan(Draw9, X) == NoLine && FullScan(Draw9, O) == NoLine
  {
    assert forall k :: 0 <= k < |WinningCombinations| ==> !LineHeld(Draw9, WinningCombinations[k], X);
    assert forall k :: 0 <= k < |WinningCombinations| ==> !LineHeld(Draw9, WinningCombinations[k], O);
  }

  /** ... and is full. */
  lemma DrawBoardIsFull()
    ensures IsFull(Draw9)
  {
    assert CountFilled(Draw9) == 9;
    FullIffNineFilled(Draw9);
  }

  /** The first round of the drawn match, o2, does not end it. */
  lemma DrawFirstRound(n1: string, n2: string)
    ensures PlayRound(Quiet(n1, n2, Draw0, Second, 0), 2) == (Quiet(n1, n2, Draw1, First, 1), GoesOn)
  {
    DrawOpeningBoards();
    QuietStep(n1, n2, Draw0, Second, 0, 2, Draw1);
  }

  /** Nor do rounds two to four: x1, o4, x3. */
  lemma DrawOpening(n1: string, n2: string)
    ensures PlayRound(Quiet(n1, n2, Draw1, First, 1), 1) == (Quiet(n1, n2, Draw2, Second, 2), GoesOn)
    ensures PlayRound(Quiet(n1, n2, Draw2, Second, 2), 4) == (Quiet(n1, n2, Draw3, First, 3), GoesOn)
    ensures PlayRound(Quiet(n1, n2, Draw3, First, 3), 3) == (Quiet(n1, n2, Draw4, Second, 4), GoesOn)
  {
    DrawOpeningBoards();
    QuietStep(n1, n2, Draw1, First, 1, 1, Draw2);
    QuietStep(n1, n2, Draw2, Second, 2, 4, Draw3);
    QuietStep(n1, n2, Draw3, First, 3, 3, Draw4);
  }

  /** Nor do rounds five to eight: o6, x5, o7, x8. */
  lemma DrawMiddle(n1: string, n2: string)
    ensures PlayRound(Quiet(n1, n2, Draw4, Second, 4), 6) == (Quiet(n1, n2, Draw5, First, 5), GoesOn)
    ensures PlayRound(Quiet(n1, n2, Draw5, First, 5), 5) == (Quiet(n1, n2, Draw6, Second, 6), GoesOn)
    ensures PlayRound(Quiet(n1, n2, Draw6, Second, 6), 7) == (Quiet(n1, n2, Draw7, First, 7), GoesOn)
    ensures PlayRound(Quiet(n1, n2, Draw7, First, 7), 8) == (Quiet(n1, n2, Draw8, Second, 8), GoesOn)
  {
    DrawMiddleBoards();
    QuietStep(n1, n2, Draw4, Second, 4, 6, Draw5);
    QuietStep(n1, n2, Draw5, First, 5, 5, Draw6);
    QuietStep(n1, n2, Draw6, Second, 6, 7, Draw7);
    QuietStep(n1, n2, Draw7, First, 7, 8, Draw8);
  }

  /** That board played with "o" starting (o2, x1, o4, x3, o6, x5, o7, x8,
      o9): none of the first eight rounds ends the match, and the ninth
      move is a tie: the tie counter and flag are set, nobody is credited
      and no combination is coloured. */
  lemma DrawMatch(firstName: string, secondName: string)
    ensures var (n1, n2) := (NameOrDefault(firstName, "HUMAN"), NameOrDefault(secondName, "AI"));
      var m0 := SetPlayers(Start, firstName, X, secondName, O, false);
      var (m1, r1) := PlayRound(m0, 2);
      && m1 == Quiet(n1, n2, Draw1, First, 1) && !r1.finalRound
      && var (m2, r2) := PlayRound(m1, 1);
      && m2 == Quiet(n1, n2, Draw2, Second, 2) && !r2.finalRound
      && var (m3, r3) := PlayRound(m2, 4);
      && m3 == Quiet(n1, n2, Draw3, First, 3) && !r3.finalRound
      && var (m4, r4) := PlayRound(m3, 3);
      && m4 == Quiet(n1, n2, Draw4, Second, 4) && !r4.finalRound
      && var (m5, r5) := PlayRound(m4, 6);
      && m5 == Quiet(n1, n2, Draw5, First, 5) && !r5.finalRound
      && var (m6, r6) := PlayRound(m5, 5);
      && m6 == Quiet(n1, n2, Draw6, Second, 6) && !r6.finalRound
      && var (m7, r7) := PlayRound(m6, 7);
      && m7 == Quiet(n1, n2, Draw7, First, 7) && !r7.finalRound
      && var (m8, r8) := PlayRound(m7, 8);
      && m8 == Quiet(n1, n2, Draw8, Second, 8) && !r8.finalRound
      && var (m9, report) := PlayRound(m8, 9);
      && report == RoundReport(true, NoLine, TieInfo)
      && m9.tiesNumber == 1 && m9.tie && m9.move == 9
      && m9.roster.player1.winningRounds == 0
      && m9.roster.player2.winningRounds == 0
  {
    var n1, n2 := NameOrDefault(firstName, "HUMAN"), NameOrDefault(secondName, "AI");
    StartBoard();
    assert SetPlayers(Start, firstName, X, secondName, O, false) == Quiet(n1, n2, Draw0, Second, 0);
    DrawFirstRound(n1, n2);
    DrawOpening(n1, n2);
    DrawMiddle(n1, n2);
    DrawLastBoard();
    TieRound(Quiet(n1, n2, Draw8, Second, 8), 9);
  }
}
