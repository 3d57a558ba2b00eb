/** Win detection after a move: the game only scans the winning
    combinations that contain the tile just played, in their fixed order,
    and stops at the first one held entirely by the mover's sign. */
module WinCheck {
  import opened GameBoard

  /** The outcome of scanning a list of combinations: none was completed,
      or the first completed one. */
  datatype Scan = NoLine | Completed(line: Line)

  /** The combinations of `lines` that include position `p`, in order. */
  function LinesThrough(lines: seq<Line>, p: Position): (r: seq<Line>)
    ensures |r| <= |lines|
    ensures forall l :: l in r <==> l in lines && l.Includes(p)
    decreases |lines|
  {
    if |lines| == 0 then []
    else if lines[0].Includes(p) then [lines[0]] + LinesThrough(lines[1..], p)
    else LinesThrough(lines[1..], p)
  }

  /** The first combination of `lines` that sign `s` holds on `b`. */
  function FirstCompleted(lines: seq<Line>, b: Board, s: Sign): (r: Scan)
    ensures r.Completed? ==> r.line in lines && LineHeld(b, r.line, s)
    ensures r.NoLine? <==> forall k :: 0 <= k < |lines| ==> !LineHeld(b, lines[k], s)
    ensures r.Completed? ==>
              exists k :: 0 <= k < |lines| && lines[k] == r.line
                          && forall j :: 0 <= j < k ==> !LineHeld(b, lines[j], s)
    decreases |lines|
  {
    if |lines| == 0 then NoLine
    else if LineHeld(b, lines[0], s) then Completed(lines[0])
    else
      var r := FirstCompleted(lines[1..], b, s);
      assert r.Completed? ==> exists k :: 1 <= k < |lines| && lines[k] == r.line
                                          && forall j :: 1 <= j < k ==> !LineHeld(b, lines[j], s);
      r
  }

  /** The loop of the game's state check: walks `possibilities` in order and
      breaks at the first combination whose three cells all hold `s`. */
  method ScanPossibilities(possibilities: seq<Line>, b: Board, s: Sign) returns (r: Scan)
    ensures r == FirstCompleted(possibilities, b, s)
  {
    r := NoLine;
    var i := 0;
    while i < |possibilities|
      invariant 0 <= i <= |possibilities|
      invariant forall j :: 0 <= j < i ==> !LineHeld(b, possibilities[j], s)
    {
      var poss := possibilities[i];
      var cells := poss.Positions();
      var every := true;
      var n := 0;
      while n < |cells|
        invariant 0 <= n <= |cells|
        invariant every <==> forall m :: 0 <= m < n ==> GetPosition(b, cells[m]) == Marked(s)
      {
        if GetPosition(b, cells[n]) != Marked(s) {
          every := false;
        }
        n := n + 1;
      }
      assert every <==> LineHeld(b, poss, s) by {
        assert cells[0] == poss.first && cells[1] == poss.second && cells[2] == poss.third;
      }
      if every {
        FirstCompletedAt(possibilities, b, s, i);
        return Completed(poss);
      }
      i := i + 1;
    }
  }

  /** If the k-th combination is the first one held, the scan reports it. */
  lemma {:induction false} FirstCompletedAt(lines: seq<Line>, b: Board, s: Sign, k: nat)
    requires k < |lines| && LineHeld(b, lines[k], s)
    requires forall j :: 0 <= j < k ==> !LineHeld(b, lines[j], s)
    ensures FirstCompleted(lines, b, s) == Completed(lines[k])
    decreases k
  {
    if k > 0 {
      FirstCompletedAt(lines[1..], b, s, k - 1);
    }
  }

  /** Some winning combination through `p` is held entirely by `s`. */
  predicate CompletesLine(b: Board, p: Position, s: Sign)
  {
    exists k :: 0 <= k < |WinningCombinations| && WinningCombinations[k].Includes(p)
                && LineHeld(b, WinningCombinations[k], s)
  }

  /** The check the game performs after `s` was played at `p`: only the
      combinations containing `p` are candidates. */
  function CheckLines(b: Board, p: Position, s: Sign): (r: Scan)
    ensures r.Completed? ==> r.line in WinningCombinations && r.line.Includes(p) && LineHeld(b, r.line, s)
    ensures r.Completed? <==> CompletesLine(b, p, s)
  {
    var r := FirstCompleted(LinesThrough(WinningCombinations, p), b, s);
    assert r.NoLine? ==> forall k :: 0 <= k < |WinningCombinations| && WinningCombinations[k].Includes(p)
                          ==> !LineHeld(b, WinningCombinations[k], s) by {
      if r.NoLine? {
        forall k | 0 <= k < |WinningCombinations| && WinningCombinations[k].Includes(p)
          ensures !LineHeld(b, WinningCombinations[k], s)
        {
          var through := LinesThrough(WinningCombinations, p);
          assert WinningCombinations[k] in through;
        }
      }
    }
    r
  }

  /** A full scan of all eight combinations, in their fixed order: it
      reports the first combination of the table that `s` holds. */
  function FullScan(b: Board, s: Sign): (r: Scan)
    ensures r.Completed? <==> exists k :: 0 <= k < |WinningCombinations| && LineHeld(b, WinningCombinations[k], s)
    ensures r.Completed? ==> r.line in WinningCombinations && LineHeld(b, r.line, s)
    ensures r.Completed? ==>
              exists k :: 0 <= k < |WinningCombinations| && WinningCombinations[k] == r.line
                          && forall j :: 0 <= j < k ==> !LineHeld(b, WinningCombinations[j], s)
  {
    FirstCompleted(WinningCombinations, b, s)
  }

  /** Filtering keeps the first held combination when every held
      combination passes the filter. */
  lemma {:induction false} FilterKeepsFirst(lines: seq<Line>, b: Board, s: Sign, p: Position)
    requires forall k :: 0 <= k < |lines| && LineHeld(b, lines[k], s) ==> lines[k].Includes(p)
    ensures FirstCompleted(LinesThrough(lines, p), b, s) == FirstCompleted(lines, b, s)
    decreases |lines|
  {
    if |lines| > 0 {
      FilterKeepsFirst(lines[1..], b, s, p);
      if lines[0].Includes(p) {
        var rest := LinesThrough(lines[1..], p);
        assert ([lines[0]] + rest)[0] == lines[0];
        assert ([lines[0]] + rest)[1..] == rest;
      }
    }
  }

  /** A combination that `s` completes by playing at `p` contains `p`. */
  lemma NewLineContainsMove(b: Board, p: Position, s: Sign, line: Line)
    requires !LineHeld(b, line, s)
    requires LineHeld(SetPosition(b, p, s), line, s)
    ensures line.Includes(p)
  {
  }

  /** Restricting a list of combinations to those through the played
      position loses nothing: when `s` held none of them before playing at
      `p`, the restricted scan of the new board reports what the
      unrestricted one reports. */
  lemma {:induction false} RestrictedScanAgrees(lines: seq<Line>, b: Board, p: Position, s: Sign)
    requires FirstCompleted(lines, b, s).NoLine?
    ensures FirstCompleted(LinesThrough(lines, p), SetPosition(b, p, s), s)
              == FirstCompleted(lines, SetPosition(b, p, s), s)
  {
    var b' := SetPosition(b, p, s);
    forall k | 0 <= k < |lines| && LineHeld(b', lines[k], s)
      ensures lines[k].Includes(p)
    {
      NewLineContainsMove(b, p, s, lines[k]);
    }
    FilterKeepsFirst(lines, b', s, p);
  }

  /** The incremental check is exact: when `s` held no combination before
      playing at `p`, scanning only the combinations through `p` reports the
      same outcome, and the same combination, as scanning all eight. */
  lemma IncrementalCheckAgrees(b: Board, p: Position, s: Sign)
    requires FullScan(b, s).NoLine?
    ensures CheckLines(SetPosition(b, p, s), p, s) == FullScan(SetPosition(b, p, s), s)
  {
    RestrictedScanAgrees(WinningCombinations, b, p, s);
  }
}
