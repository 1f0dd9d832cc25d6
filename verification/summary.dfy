/** `summarize`: the closing block of a hand, built from its first pot
    only. */
module Summary {
  import opened Text
  import opened Ohh
  import opened Money
  import opened Render
  import CardText
  import Rounds

  const SummaryHeader: string := "*** SUMMARY ***"

  /** The total line of the fixed block printed when a hand has no pot. */
  const NoPotTotal: string := "Total pot $0.00 | Rake $0.00"

  /** Flop, Turn and River are the streets whose cards make up the
      summary board. */
  predicate IsBoardStreet(street: string)
  {
    street == Flop || street == Turn || street == River
  }

  /** The cards of the Flop, Turn and River rounds, in round order. */
  function BoardCards(rounds: seq<Round>): (r: seq<string>)
    ensures |r| <= |Rounds.ConcatCards(rounds)|
    decreases |rounds|
  {
    if |rounds| == 0 then []
    else (if IsBoardStreet(rounds[0].street) then rounds[0].cards else []) + BoardCards(rounds[1..])
  }

  /** When no round outside Flop, Turn and River reveals cards, the summary
      board is the whole cumulative board. */
  lemma {:induction false} BoardCardsAll(rounds: seq<Round>)
    requires forall i :: 0 <= i < |rounds| && !IsBoardStreet(rounds[i].street) ==> rounds[i].cards == []
    ensures BoardCards(rounds) == Rounds.ConcatCards(rounds)
    decreases |rounds|
  {
    if |rounds| > 0 {
      BoardCardsAll(rounds[1..]);
    }
  }

  /** A round on any other street (Preflop, Showdown, an unknown name)
      contributes nothing to the summary board. */
  lemma BoardCardsSkip(rounds: seq<Round>, r: Round)
    requires !IsBoardStreet(r.street)
    ensures BoardCards([r] + rounds) == BoardCards(rounds)
  {
    assert ([r] + rounds)[1..] == rounds;
  }

  /** `Seat <n>: <name> collected (<amount>)`, with seat 0 and "Unknown"
      for a winner id that matches no player. */
  function WinLine(h: Hand, w: PlayerWin): string
  {
    "Seat " + NatToString(SeatById(h.players, w.playerId)) + ": " + NameById(h.players, w.playerId)
      + " collected (" + FmtMoney(w.winAmount) + ")"
  }

  function WinLines(h: Hand, wins: seq<PlayerWin>): (r: seq<string>)
    ensures |r| == |wins|
    ensures forall i :: 0 <= i < |wins| ==> r[i] == WinLine(h, wins[i])
  {
    seq(|wins|, i requires 0 <= i < |wins| => WinLine(h, wins[i]))
  }

  function TotalLine(total: int, rake: int): string
  {
    "Total pot " + FmtMoney(total) + " | Rake " + FmtMoney(rake)
  }

  /** The lines for a hand's first pot: header, total and rake, a board
      line when the board is non-empty, one line per winner. */
  function PotLines(h: Hand, pot: Pot): seq<string>
  {
    var board := BoardCards(h.rounds);
    var boardLines := if board == [] then [] else ["Board [" + CardText.Cards(board) + "]"];
    [SummaryHeader, TotalLine(pot.amount, pot.rake)] + boardLines + WinLines(h, pot.playerWins)
  }

  /** The summary lines: with no pot, a fixed two-line block; otherwise
      the first pot's block, where the header comes first, the total
      second, the board third when there is one, then the winners in the
      order of the pot's records. */
  function SummaryLines(h: Hand): (r: seq<string>)
    ensures h.pots == [] ==> r == [SummaryHeader, NoPotTotal]
    ensures h.pots != [] ==>
      var pot := h.pots[0];
      var board := BoardCards(h.rounds);
      var b := if board == [] then 0 else 1;
      && |r| == 2 + b + |pot.playerWins|
      && r[0] == SummaryHeader
      && r[1] == TotalLine(pot.amount, pot.rake)
      && (board != [] ==> r[2] == "Board [" + CardText.Cards(board) + "]")
      && forall i :: 0 <= i < |pot.playerWins| ==> r[2 + b + i] == WinLine(h, pot.playerWins[i])
  {
    if h.pots == [] then [SummaryHeader, NoPotTotal]
    else PotLines(h, h.pots[0])
  }

  function Summarize(h: Hand): string
  {
    Join(SummaryLines(h), "\n")
  }

  /** The fixed no-pot block is exactly what a single empty pot of zero
      with no winners would print, as long as there is no board; with a
      board, the no-pot block drops the board line the pot form would
      show. */
  lemma NoPotMatchesEmptyPot(h: Hand)
    requires h.pots == []
    ensures var z := h.(pots := [Pot(0, 0, [])]);
      && (BoardCards(h.rounds) == [] ==> SummaryLines(h) == SummaryLines(z))
      && (BoardCards(h.rounds) != [] ==> SummaryLines(z) == SummaryLines(h)[..2] + ["Board [" + CardText.Cards(BoardCards(h.rounds)) + "]"])
  {
    var z := h.(pots := [Pot(0, 0, [])]);
    TotalLineZero();
    assert WinLines(z, []) == [];
  }

  /** A zero total with a zero rake prints as the no-pot total line. */
  lemma TotalLineZero()
    ensures TotalLine(0, 0) == NoPotTotal
  {
    FmtMoneyZero();
    assert "Total pot " + "$0.00" + " | Rake " + "$0.00" == NoPotTotal;
  }

  /** The block with no pot, as one string. */
  lemma NoPotSummary(h: Hand)
    requires h.pots == []
    ensures Summarize(h) == SummaryHeader + "\n" + NoPotTotal
  {
    JoinTwo(SummaryHeader, NoPotTotal, "\n");
  }

  /** Only the first pot is reported: any later pots change nothing. */
  lemma FirstPotOnly(h: Hand, more: seq<Pot>)
    requires h.pots != []
    ensures SummaryLines(h.(pots := h.pots + more)) == SummaryLines(h)
  {
    var h2 := h.(pots := h.pots + more);
    assert h2.pots[0] == h.pots[0];
    assert WinLines(h2, h.pots[0].playerWins) == WinLines(h, h.pots[0].playerWins);
    assert PotLines(h2, h2.pots[0]) == PotLines(h, h.pots[0]);
  }
}
