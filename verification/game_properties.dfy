/** Properties of the game manager that relate several steps: the move
    counter tracks the filled cells, the incremental win check agrees with a
    full scan, turns alternate, and the statistics follow the signs. */
module GameProperties {
  import opened GameBoard
  import opened Players
  import opened WinCheck
  import opened GameManager

  /** The move counter equals the number of filled cells. */
  predicate Valid(m: Manager)
  {
    CountFilled(m.board) == m.move
  }

  /** Every operation keeps the move counter equal to the number of filled
      cells, starting from the initial state. */
  lemma ValidIsInvariant(m: Manager, firstName: string, firstSign: Sign,
                         secondName: string, secondSign: Sign, coin: bool)
    ensures Valid(Start)
    ensures Valid(ResetGame(m).0)
    ensures Valid(m) ==> Valid(SetPlayers(m, firstName, firstSign, secondName, secondSign, coin))
    ensures m.roster.Seated? ==> Valid(NextMatch(m, coin).0)
  {
    assert Start.board == ResetFields();
  }

  /** Playing an empty cell keeps the invariant; the counter therefore never
      exceeds nine, and reaches nine exactly when the board is full. */
  lemma PlayRoundKeepsValid(m: Manager, indexTile: Position)
    requires Valid(m) && m.roster.Seated? && GetPosition(m.board, indexTile) == Empty
    ensures Valid(PlayRound(m, indexTile).0)
    ensures PlayRound(m, indexTile).0.move <= 9
    ensures PlayRound(m, indexTile).0.move == 9 <==> IsFull(PlayRound(m, indexTile).0.board)
  {
    var r := PlayRound(m, indexTile).0;
    var s := Mover(m.roster).sign;
    CountFilledAfterMark(m.board, indexTile - 1, Marked(s));
    assert r.board == m.board[indexTile - 1 := Marked(s)];
    FullIffNineFilled(r.board);
  }

  /** In a valid state an empty cell is left exactly when fewer than nine
      moves were played, so the ninth move is the last one. */
  lemma FreeCellIffMovesLeft(m: Manager)
    requires Valid(m)
    ensures m.move <= 9
    ensures m.move < 9 <==> exists p: Position :: GetPosition(m.board, p) == Empty
  {
    FullIffNineFilled(m.board);
    if m.move < 9 {
      assert !IsFull(m.board);
    }
  }

  /** When the mover held no combination before the round, the round's
      incremental check reports exactly what a full scan of the eight
      combinations reports on the new board. */
  lemma PlayRoundMatchesFullScan(m: Manager, indexTile: Position)
    requires m.roster.Seated? && GetPosition(m.board, indexTile) == Empty
    requires FullScan(m.board, Mover(m.roster).sign).NoLine?
    ensures PlayRound(m, indexTile).1.winningGame
              == FullScan(PlayRound(m, indexTile).0.board, Mover(m.roster).sign)
  {
    IncrementalCheckAgrees(m.board, indexTile, Mover(m.roster).sign);
  }

  /** A round that neither completes a combination nor is the ninth move
      changes only the board, the move counter and the turn. */
  lemma QuietRound(m: Manager, indexTile: Position)
    requires m.roster.Seated? && GetPosition(m.board, indexTile) == Empty
    requires !CompletesLine(SetPosition(m.board, indexTile, Mover(m.roster).sign), indexTile, Mover(m.roster).sign)
    requires m.move + 1 != 9
    ensures PlayRound(m, indexTile)
              == (m.(board := SetPosition(m.board, indexTile, Mover(m.roster).sign),
                     move := m.move + 1,
                     roster := m.roster.(playerRound := Other(m.roster.playerRound))),
                  RoundReport(false, NoLine, NoInfo))
  {
  }

  /** A round that completes a combination ends the match: the mover is
      credited once, the tie flag is cleared, the combination is reported
      for colouring and the round-end box names the mover. The turn still
      passes to the other player. */
  lemma WinningRound(m: Manager, indexTile: Position, line: Line)
    requires m.roster.Seated? && GetPosition(m.board, indexTile) == Empty
    requires CheckLines(SetPosition(m.board, indexTile, Mover(m.roster).sign), indexTile, Mover(m.roster).sign)
               == Completed(line)
    ensures PlayRound(m, indexTile)
              == (m.(board := SetPosition(m.board, indexTile, Mover(m.roster).sign),
                     move := m.move + 1,
                     tie := false,
                     roster := CreditMover(m.roster).(playerRound := Other(m.roster.playerRound))),
                  RoundReport(true, Completed(line), WinnerInfo(Mover(m.roster).name, Mover(m.roster).sign)))
  {
  }

  /** The ninth move without a completed combination is a tie: the tie
      counter rises, the tie flag is set and no player is credited. */
  lemma TieRound(m: Manager, indexTile: Position)
    requires m.roster.Seated? && GetPosition(m.board, indexTile) == Empty
    requires !CompletesLine(SetPosition(m.board, indexTile, Mover(m.roster).sign), indexTile, Mover(m.roster).sign)
    requires m.move + 1 == 9
    ensures PlayRound(m, indexTile)
              == (m.(board := SetPosition(m.board, indexTile, Mover(m.roster).sign),
                     move := m.move + 1,
                     tiesNumber := m.tiesNumber + 1,
                     tie := true,
                     roster := m.roster.(playerRound := Other(m.roster.playerRound))),
                  RoundReport(true, NoLine, TieInfo))
  {
    var s := Mover(m.roster).sign;
    var played := m.(move := m.move + 1, board := SetPosition(m.board, indexTile, s));
    var checked := played.(tiesNumber := m.tiesNumber + 1, tie := true);
    assert CheckLines(played.board, indexTile, s) == NoLine;
    var (c, outcome) := CheckGameState(played, 9, indexTile);
    assert outcome == CheckOutcome(true, NoLine);
    assert c.board == checked.board && c.roster == checked.roster && c.move == checked.move;
    assert c.tiesNumber == checked.tiesNumber && c.tie && c.matchNumber == checked.matchNumber;
    assert c == checked;
  }

  /** Two consecutive rounds are played by the two different players, and
      the turn then returns to the first of them. */
  lemma TurnsAlternate(m: Manager, p: Position, q: Position)
    requires m.roster.Seated? && GetPosition(m.board, p) == Empty && p != q
    requires GetPosition(m.board, q) == Empty
    ensures GetPosition(PlayRound(m, p).0.board, q) == Empty
    ensures Mover(PlayRound(m, p).0.roster) == PlayerAt(PlayRound(m, p).0.roster, Other(m.roster.playerRound))
    ensures PlayRound(PlayRound(m, p).0, q).0.roster.playerRound == m.roster.playerRound
    ensures Mover(PlayRound(m, p).0.roster).sign == PlayerAt(m.roster, Other(m.roster.playerRound)).sign
  {
  }

  /** With different signs, the statistics shown when the next match
      starts put each player's wins under that player's sign, and show the
      tie counter. */
  lemma StatsBySign(m: Manager, coin: bool, t: Turn)
    requires m.roster.Seated? && m.roster.player1.sign != m.roster.player2.sign
    ensures PlayerAt(m.roster, t).sign == X ==> NextMatch(m, coin).1.xRounds == PlayerAt(m.roster, t).winningRounds
    ensures PlayerAt(m.roster, t).sign == O ==> NextMatch(m, coin).1.oRounds == PlayerAt(m.roster, t).winningRounds
    ensures NextMatch(m, coin).1.ties == m.tiesNumber
  {
  }

  /** Rounds handed out so far: the won rounds of both players plus ties. */
  function Credits(m: Manager): nat
    requires m.roster.Seated?
  {
    m.roster.player1.winningRounds + m.roster.player2.winningRounds + m.tiesNumber
  }

  /** Each round hands out exactly one credit when it ends the match, to
      the mover or to the ties, and none otherwise. */
  lemma RoundCreditsOnce(m: Manager, indexTile: Position)
    requires m.roster.Seated? && GetPosition(m.board, indexTile) == Empty
    ensures Credits(PlayRound(m, indexTile).0)
              == Credits(m) + (if PlayRound(m, indexTile).1.finalRound then 1 else 0)
  {
    var t := m.roster.playerRound;
    var r := PlayRound(m, indexTile).0;
    assert Credits(r) == PlayerAt(r.roster, t).winningRounds + PlayerAt(r.roster, Other(t)).winningRounds + r.tiesNumber;
    assert Credits(m) == PlayerAt(m.roster, t).winningRounds + PlayerAt(m.roster, Other(t)).winningRounds + m.tiesNumber;
  }

  /** A match played click by click: a click on an occupied tile is ignored,
      and once a round is final the board stops listening, so the remaining
      clicks are dropped. The flag tells whether the match ended. */
  function PlayMatch(m: Manager, clicks: seq<Position>): (r: (Manager, bool))
    requires m.roster.Seated?
    ensures r.0.roster.Seated? && SameIdentities(m.roster, r.0.roster)
    ensures r.0.matchNumber == m.matchNumber
    decreases |clicks|
  {
    if |clicks| == 0 then (m, false)
    else if GetPosition(m.board, clicks[0]) != Empty then PlayMatch(m, clicks[1..])
    else
      var (m', report) := PlayRound(m, clicks[0]);
      if report.finalRound then (m', true) else PlayMatch(m', clicks[1..])
  }

  /** Ignoring clicks on occupied tiles is what keeps the move counter in
      step with the board: along any sequence of clicks the counter still
      equals the number of filled cells, never exceeds nine, and rises by at
      most one per click. */
  lemma {:induction false} PlayMatchKeepsValid(m: Manager, clicks: seq<Position>)
    requires m.roster.Seated? && Valid(m)
    ensures Valid(PlayMatch(m, clicks).0)
    ensures PlayMatch(m, clicks).0.move <= 9
    ensures PlayMatch(m, clicks).0.move <= m.move + |clicks|
    decreases |clicks|
  {
    if |clicks| > 0 {
      if GetPosition(m.board, clicks[0]) != Empty {
        PlayMatchKeepsValid(m, clicks[1..]);
      } else {
        PlayRoundKeepsValid(m, clicks[0]);
        var (m', report) := PlayRound(m, clicks[0]);
        if !report.finalRound {
          PlayMatchKeepsValid(m', clicks[1..]);
        }
      }
    }
  }

  /** A match is credited at most once: to one player's won rounds or to
      the ties, exactly when it ended. */
  lemma {:induction false} MatchCreditedOnce(m: Manager, clicks: seq<Position>)
    requires m.roster.Seated?
    ensures Credits(PlayMatch(m, clicks).0) == Credits(m) + (if PlayMatch(m, clicks).1 then 1 else 0)
    decreases |clicks|
  {
    if |clicks| > 0 {
      if GetPosition(m.board, clicks[0]) != Empty {
        MatchCreditedOnce(m, clicks[1..]);
      } else {
        RoundCreditsOnce(m, clicks[0]);
        var (m', report) := PlayRound(m, clicks[0]);
        if !report.finalRound {
          MatchCreditedOnce(m', clicks[1..]);
        }
      }
    }
  }
}
