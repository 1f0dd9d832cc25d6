/** The per-line renderers of a hand: header, table line, street headers
    and one action line. */
module Render {
  import opened Text
  import opened Ohh
  import opened Money
  import opened CardText

  // ---------------------------------------------------------------------
  // Header and table lines

  /** The start time as the header prints it: cut at the first `.` and
      with every `T` replaced by a space. */
  function Timestamp(start: string): (r: string)
    ensures |r| <= |start|
    ensures forall i :: 0 <= i < |r| ==> r[i] == if start[i] == 'T' then ' ' else start[i]
    ensures '.' !in r && 'T' !in r
    ensures |r| < |start| ==> start[|r|] == '.'
  {
    var first := SplitOn(start, ".")[0];
    assert forall j :: 0 <= j < |first| ==> first[j] != '.' by {
      forall j | 0 <= j < |first|
        ensures first[j] != '.'
      {
        assert start[j] == first[j];
        assert !OccursAt(start, ".", j);
        assert start[j..j + 1] == [start[j]];
      }
    }
    if |first| < |start| then
      assert OccursAt(start, ".", |first|);
      assert start[|first|..|first| + 1] == [start[|first|]];
      ReplaceChar(first, 'T', ' ')
    else
      ReplaceChar(first, 'T', ' ')
  }

  const Site: string := "PokerStars"

  /** The header up to the small blind. */
  function HeaderOpen(h: Hand): string
  {
    Site + " Hand #" + h.gameNumber + ": Hold'em No Limit ("
  }

  /** The header after the currency. */
  function HeaderClose(h: Hand): string
  {
    ") - " + Timestamp(h.startDateUtc) + " UTC"
  }

  /** `build_header`: the blinds read back as the hand's blind amounts, and
      the currency defaults to `USD`. */
  function BuildHeader(h: Hand): (r: string)
    ensures StartsWith(r, HeaderOpen(h))
    ensures EndsWith(r, HeaderClose(h))
    ensures h.currency.None? ==> EndsWith(r, " USD" + HeaderClose(h))
    ensures h.currency.Some? ==> EndsWith(r, " " + h.currency.value + HeaderClose(h))
    ensures exists sb, bb ::
      && r == HeaderOpen(h) + sb + "/" + bb + " " + GetOr(h.currency, "USD") + HeaderClose(h)
      && ParseMoney(sb) == Some(h.smallBlind) && ParseMoney(bb) == Some(h.bigBlind)
  {
    var cur := GetOr(h.currency, "USD");
    var sb := FmtMoney(h.smallBlind);
    var bb := FmtMoney(h.bigBlind);
    ParseFmtMoney(h.smallBlind);
    ParseFmtMoney(h.bigBlind);
    HeaderPieces(HeaderOpen(h), sb, bb, cur, HeaderClose(h));
    assert h.currency.None? ==> " " + cur == " USD";
    HeaderOpen(h) + sb + "/" + bb + " " + cur + HeaderClose(h)
  }

  /** How the pieces of a header sit in it. */
  lemma HeaderPieces(pre: string, sb: string, bb: string, cur: string, post: string)
    ensures var r := pre + sb + "/" + bb + " " + cur + post;
      StartsWith(r, pre) && EndsWith(r, post) && EndsWith(r, " " + cur + post)
  {
    var mid := pre + sb + "/" + bb;
    var r := mid + " " + cur + post;
    assert r == pre + (sb + "/" + bb + " " + cur + post);
    StartsWithAppend(pre, sb + "/" + bb + " " + cur + post);
    assert r == mid + (" " + cur + post);
    EndsWithAppend(mid + " " + cur, post);
    EndsWithAppend(mid, " " + cur + post);
  }

  /** The table line up to its size. */
  function TableOpen(h: Hand): string
  {
    "Table '" + h.tableName + "' "
  }

  /** The table line after its size. */
  function TableClose(h: Hand): string
  {
    "-max Seat #" + NatToString(h.dealerSeat) + " is the button"
  }

  /** `build_table`: the size before `-max` and the dealer seat read back
      as the hand's table size and button seat. */
  function BuildTable(h: Hand): (r: string)
    ensures StartsWith(r, TableOpen(h))
    ensures EndsWith(r, TableClose(h))
    ensures exists sz :: r == TableOpen(h) + sz + TableClose(h) && AllDigits(sz) && ParseNat(sz) == h.tableSize
    ensures exists ds :: EndsWith(r, "-max Seat #" + ds + " is the button") && AllDigits(ds) && ParseNat(ds) == h.dealerSeat
  {
    var pre := TableOpen(h);
    var post := TableClose(h);
    var sz := NatToString(h.tableSize);
    var r := pre + sz + post;
    ParseNatToString(h.tableSize);
    ParseNatToString(h.dealerSeat);
    assert r[..|pre|] == pre;
    assert r[|r| - |post|..] == post;
    r
  }

  // ---------------------------------------------------------------------
  // Street headers

  const Preflop: string := "Preflop"
  const Flop: string := "Flop"
  const Turn: string := "Turn"
  const River: string := "River"
  const Showdown: string := "Showdown"

  predicate IsKnownStreet(street: string)
  {
    street == Preflop || street == Flop || street == Turn || street == River || street == Showdown
  }

  /** The fixed headers and the opening tags of the board streets. */
  const HoleCardsHeader: string := "*** HOLE CARDS ***"
  const FlopTag: string := "*** FLOP ***"
  const TurnTag: string := "*** TURN ***"
  const RiverTag: string := "*** RIVER ***"
  const ShowDownHeader: string := "*** SHOW DOWN ***"

  /** `street_header`: `brd` is this round's cards, `allBoard` every board
      card seen so far including this round's. The Turn and River headers
      show the earlier board and the new card as two groups once the board
      is big enough, and only the round's own cards otherwise. */
  function StreetHeader(street: string, brd: seq<string>, allBoard: seq<string>): (r: string)
    ensures r == "" <==> !IsKnownStreet(street)
    ensures street == Preflop ==> r == HoleCardsHeader
    ensures street == Flop ==> r == FlopTag + " [" + Cards(brd) + "]"
    ensures street == Turn && |allBoard| >= 4 ==> r == TurnTag + " [" + Cards(allBoard[..3]) + "] [" + Card(allBoard[3]) + "]"
    ensures street == Turn && |allBoard| < 4 ==> r == TurnTag + " [" + Cards(brd) + "]"
    ensures street == River && |allBoard| >= 5 ==> r == RiverTag + " [" + Cards(allBoard[..4]) + "] [" + Card(allBoard[4]) + "]"
    ensures street == River && |allBoard| < 5 ==> r == RiverTag + " [" + Cards(brd) + "]"
    ensures street == Showdown ==> r == ShowDownHeader
  {
    if street == Preflop then HoleCardsHeader
    else if street == Flop then FlopTag + " [" + Cards(brd) + "]"
    else if street == Turn then
      if |allBoard| >= 4 then TurnTag + " [" + Cards(allBoard[..3]) + "] [" + Card(allBoard[3]) + "]"
      else TurnTag + " [" + Cards(brd) + "]"
    else if street == River then
      if |allBoard| >= 5 then RiverTag + " [" + Cards(allBoard[..4]) + "] [" + Card(allBoard[4]) + "]"
      else RiverTag + " [" + Cards(brd) + "]"
    else if street == Showdown then ShowDownHeader
    else ""
  }

  /** Reads the street back from a header by its opening tag; `""` for
      any other text. */
  function HeaderStreet(hdr: string): string
  {
    if StartsWith(hdr, HoleCardsHeader) then Preflop
    else if StartsWith(hdr, FlopTag) then Flop
    else if StartsWith(hdr, TurnTag) then Turn
    else if StartsWith(hdr, RiverTag) then River
    else if StartsWith(hdr, ShowDownHeader) then Showdown
    else ""
  }

  /** Every header names its street: reading the street back from the
      header gives the street, so the headers of different streets never
      coincide, whatever the cards. */
  lemma HeaderStreetInverse(street: string, brd: seq<string>, allBoard: seq<string>)
    ensures HeaderStreet(StreetHeader(street, brd, allBoard)) == (if IsKnownStreet(street) then street else "")
  {
    var r := StreetHeader(street, brd, allBoard);
    if street == Preflop {
      assert r[..|r|] == r;
    } else if street == Flop {
      BoardHeaderTag(street, brd, allBoard, FlopTag);
      NotStartsWithAt(r, HoleCardsHeader, 4);
    } else if street == Turn {
      BoardHeaderTag(street, brd, allBoard, TurnTag);
      NotStartsWithAt(r, HoleCardsHeader, 4);
      NotStartsWithAt(r, FlopTag, 4);
    } else if street == River {
      BoardHeaderTag(street, brd, allBoard, RiverTag);
      NotStartsWithAt(r, HoleCardsHeader, 4);
      NotStartsWithAt(r, FlopTag, 4);
      NotStartsWithAt(r, TurnTag, 4);
    } else if street == Showdown {
      NotStartsWithAt(r, HoleCardsHeader, 4);
      NotStartsWithAt(r, FlopTag, 4);
      NotStartsWithAt(r, TurnTag, 4);
      NotStartsWithAt(r, RiverTag, 4);
      assert r[..|r|] == r;
    }
  }

  /** A board street's header opens with its tag. */
  lemma BoardHeaderTag(street: string, brd: seq<string>, allBoard: seq<string>, tag: string)
    requires (street == Flop && tag == FlopTag) || (street == Turn && tag == TurnTag) || (street == River && tag == RiverTag)
    ensures var r := StreetHeader(street, brd, allBoard); StartsWith(r, tag) && |r| > 4 && r[4] == tag[4]
  {
    var r := StreetHeader(street, brd, allBoard);
    if street == Flop {
      StartsWithAppend3(tag, " [" + Cards(brd), "]");
    } else if street == Turn && |allBoard| >= 4 {
      StartsWithAppend3(tag, " [" + Cards(allBoard[..3]) + "] [" + Card(allBoard[3]), "]");
    } else if street == Turn {
      StartsWithAppend3(tag, " [" + Cards(brd), "]");
    } else if |allBoard| >= 5 {
      StartsWithAppend3(tag, " [" + Cards(allBoard[..4]) + "] [" + Card(allBoard[4]), "]");
    } else {
      StartsWithAppend3(tag, " [" + Cards(brd), "]");
    }
    assert r[..|tag|][4] == r[4];
  }

  lemma NotStartsWithAt(s: string, p: string, i: nat)
    requires i < |p| && i < |s| && s[i] != p[i]
    ensures !StartsWith(s, p)
  {
    if |p| <= |s| {
      assert s[..|p|][i] == s[i];
    }
  }

  /** On a standard deal (a three-card flop, then one turn card, then one
      river card) the Turn and River headers show the earlier board and the
      new card as two bracketed groups. */
  lemma StandardBoardHeaders(flop: seq<string>, turn: string, river: string)
    requires |flop| == 3
    ensures StreetHeader(Turn, [turn], flop + [turn])
         == TurnTag + " [" + Cards(flop) + "] [" + Card(turn) + "]"
    ensures StreetHeader(River, [river], flop + [turn] + [river])
         == RiverTag + " [" + Cards(flop + [turn]) + "] [" + Card(river) + "]"
  {
    assert (flop + [turn])[..3] == flop;
    assert (flop + [turn] + [river])[..4] == flop + [turn];
  }

  // ---------------------------------------------------------------------
  // Action lines

  /** The action names the renderer recognises; any other name is `Other`. */
  datatype Kind = PostSB | PostBB | PostAnte | DealtCards | Fold | Check | Call | Bet | Raise
                | ShowsCards | Muck | Other

  function KindOf(name: string): Kind
  {
    if name == "Post SB" then PostSB
    else if name == "Post BB" then PostBB
    else if name == "Post Ante" then PostAnte
    else if name == "Dealt Cards" then DealtCards
    else if name == "Fold" then Fold
    else if name == "Check" then Check
    else if name == "Call" then Call
    else if name == "Bet" then Bet
    else if name == "Raise" then Raise
    else if name == "Shows Cards" then ShowsCards
    else if name == "Muck" then Muck
    else Other
  }

  predicate IsPost(k: Kind)
  {
    k == PostSB || k == PostBB || k == PostAnte
  }

  predicate IsAggressive(k: Kind)
  {
    k == Bet || k == Raise
  }

  /** What the bet tracker remembers for a Bet or Raise: the running bet
      before it, its own amount, and whether a Bet or Raise with an amount
      came earlier in its street. */
  datatype BetEntry = BetEntry(prev: int, total: int, hadBet: bool)

  type Tracker = map<U32, BetEntry>

  const AllinSuffix: string := " and is all-in"

  /** A Dealt Cards action is shown when no hero is set or it is the hero's,
      and it carries at least two cards. */
  predicate DealShown(heroId: Option<string>, pid: string, cards: Option<seq<string>>)
  {
    (heroId.None? || heroId.value == pid) && cards.Some? && |cards.value| >= 2
  }

  /** A Bet or Raise over a positive previous bet reads "raises" when it
      is a Raise, or a Bet after an earlier Bet or Raise in its street. */
  predicate RaisesOver(k: Kind, prev: int, hadBet: bool)
  {
    IsAggressive(k) && prev > 0 && (k == Raise || hadBet)
  }

  /** A Bet or Raise is rendered as "raises" when the tracker has an entry
      for its action number over which it raises. */
  predicate RaiseFor(k: Kind, entry: Option<BetEntry>)
  {
    entry.Some? && RaisesOver(k, entry.value.prev, entry.value.hadBet)
  }

  /** The tracker's entry for an action number, if any. */
  function Lookup(tracker: Tracker, num: U32): Option<BetEntry>
  {
    if num in tracker then Some(tracker[num]) else None
  }

  predicate RendersAsRaise(a: Action, tracker: Tracker)
  {
    RaiseFor(KindOf(a.kind), Lookup(tracker, a.actionNumber))
  }

  /** " and is all-in" when the action is flagged all-in, else nothing. */
  function SuffixOf(a: Action): string
  {
    if GetOr(a.isAllin, false) then AllinSuffix else ""
  }

  /** What a Post says it posts. */
  function PostLabel(k: Kind): string
    requires IsPost(k)
  {
    match k
    case PostSB => "small blind"
    case PostBB => "big blind"
    case PostAnte => "the ante"
  }

  /** `act_line_with_context`. A missing amount reads as zero. */
  function ActLine(h: Hand, a: Action, tracker: Tracker): (r: Option<string>)
    ensures r.None? <==>
      a.playerId.None? || KindOf(a.kind) == Other
      || (KindOf(a.kind) == DealtCards && !DealShown(h.heroPlayerId, a.playerId.value, a.cards))
    ensures r.Some? && IsAggressive(KindOf(a.kind)) ==>
      (StartsWith(r.value, NameById(h.players, a.playerId.value) + ": raises ") <==> RendersAsRaise(a, tracker))
    ensures a.playerId.Some? ==>
      var n := NameById(h.players, a.playerId.value);
      var k := KindOf(a.kind);
      var amt := GetOr(a.amount, 0);
      && (IsPost(k) ==> r == Some(n + ": posts " + PostLabel(k) + " " + FmtMoney(amt)))
      && (k == DealtCards && DealShown(h.heroPlayerId, a.playerId.value, a.cards) ==>
            r == Some("Dealt to " + n + " [" + Card(a.cards.value[0]) + " " + Card(a.cards.value[1]) + "]"))
      && (k == Fold ==> r == Some(n + ": folds"))
      && (k == Check ==> r == Some(n + ": checks"))
      && (k == Call ==> r == Some(n + ": calls " + FmtMoney(amt) + SuffixOf(a)))
      && (IsAggressive(k) ==> r == Some(AggressiveLine(n, k, Lookup(tracker, a.actionNumber), amt, SuffixOf(a))))
      && (k == ShowsCards && a.cards.Some? && |a.cards.value| >= 2 ==>
            r == Some(n + ": shows [" + Card(a.cards.value[0]) + " " + Card(a.cards.value[1]) + "]"))
      && (k == ShowsCards && !(a.cards.Some? && |a.cards.value| >= 2) ==> r == Some(n + ": shows"))
      && (k == Muck ==> r == Some(n + ": mucks hand"))
  {
    if a.playerId.None? then None
    else
      var pid := a.playerId.value;
      var n := NameById(h.players, pid);
      var amt := GetOr(a.amount, 0);
      var allin := SuffixOf(a);
      var k := KindOf(a.kind);
      match k
      case PostSB => Some(n + ": posts " + PostLabel(k) + " " + FmtMoney(amt))
      case PostBB => Some(n + ": posts " + PostLabel(k) + " " + FmtMoney(amt))
      case PostAnte => Some(n + ": posts " + PostLabel(k) + " " + FmtMoney(amt))
      case DealtCards =>
        if DealShown(h.heroPlayerId, pid, a.cards) then
          var cs := a.cards.value;
          Some("Dealt to " + n + " [" + Card(cs[0]) + " " + Card(cs[1]) + "]")
        else None
      case Fold => Some(n + ": folds")
      case Check => Some(n + ": checks")
      case Call => Some(n + ": calls " + FmtMoney(amt) + allin)
      case Bet => Some(AggressiveLine(n, k, Lookup(tracker, a.actionNumber), amt, allin))
      case Raise => Some(AggressiveLine(n, k, Lookup(tracker, a.actionNumber), amt, allin))
      case ShowsCards =>
        if a.cards.Some? && |a.cards.value| >= 2 then
          var cs := a.cards.value;
          Some(n + ": shows [" + Card(cs[0]) + " " + Card(cs[1]) + "]")
        else Some(n + ": shows")
      case Muck => Some(n + ": mucks hand")
      case Other => None
  }

  lemma StartsWithAppend(p: string, x: string)
    ensures StartsWith(p + x, p)
  {
    assert (p + x)[..|p|] == p;
  }

  /** `<name>: raises <raise> to <amount><suffix>`: the figure between
      `raises` and `to` reads back as the raise. */
  function RaisesText(n: string, raise: int, amt: int, allin: string): (r: string)
    ensures StartsWith(r, n + ": raises ")
    ensures EndsWith(r, FmtMoney(amt) + allin)
    ensures exists m :: r == n + ": raises " + m + " to " + FmtMoney(amt) + allin && ParseMoney(m) == Some(raise)
  {
    var m := FmtMoney(raise);
    ParseFmtMoney(raise);
    Frame5(n + ": raises ", m, " to ", FmtMoney(amt), allin);
    n + ": raises " + m + " to " + FmtMoney(amt) + allin
  }

  /** `<name>: bets <amount><suffix>`. */
  function BetsText(n: string, amt: int, allin: string): (r: string)
    ensures !StartsWith(r, n + ": raises ")
    ensures EndsWith(r, FmtMoney(amt) + allin)
    ensures r == n + ": bets " + FmtMoney(amt) + allin
  {
    var p := n + ": bets ";
    var line := p + FmtMoney(amt) + allin;
    Frame3(p, FmtMoney(amt), allin);
    assert line[|n| + 2] == line[..|p|][|n| + 2] == p[|n| + 2] == 'b';
    NotStartsWithAt(line, n + ": raises ", |n| + 2);
    line
  }

  /** Where the first and the last two of five pieces sit. */
  lemma Frame5(p: string, a: string, b: string, c: string, d: string)
    ensures StartsWith(p + a + b + c + d, p)
    ensures EndsWith(p + a + b + c + d, c + d)
  {
    var r := p + a + b + c + d;
    assert r == p + (a + b + c + d);
    assert r[..|p|] == p;
    assert r == (p + a + b) + (c + d);
    assert r[|r| - |c + d|..] == c + d;
  }

  /** Where the first and the last two of three pieces sit. */
  lemma Frame3(p: string, c: string, d: string)
    ensures StartsWith(p + c + d, p)
    ensures EndsWith(p + c + d, c + d)
  {
    var r := p + c + d;
    assert r == p + (c + d);
    assert r[..|p|] == p;
    assert r[|r| - |c + d|..] == c + d;
  }

  /** The line `r` of a Bet or Raise of `amt` by `n` over a previous bet
      `prev`: it reads `raises <m> to <amt>`, with `m` reading back as
      `amt - prev`, exactly when it raises over `prev`; otherwise it reads
      `bets <amt>`. Either form ends with the amount and the suffix. */
  ghost predicate LineForms(r: string, n: string, k: Kind, prev: int, hadBet: bool, amt: int, allin: string)
  {
    && (StartsWith(r, n + ": raises ") <==> RaisesOver(k, prev, hadBet))
    && EndsWith(r, FmtMoney(amt) + allin)
    && (RaisesOver(k, prev, hadBet) ==>
          exists m :: r == n + ": raises " + m + " to " + FmtMoney(amt) + allin && ParseMoney(m) == Some(amt - prev))
    && (!RaisesOver(k, prev, hadBet) ==> r == n + ": bets " + FmtMoney(amt) + allin)
  }

  /** The Bet and Raise arms of `act_line_with_context` for an entry given
      by its fields: "raises" with the difference to the previous bet, or
      "bets". */
  function AggressiveText(n: string, k: Kind, prev: int, hadBet: bool, amt: int, allin: string): (r: string)
    ensures LineForms(r, n, k, prev, hadBet, amt, allin)
  {
    if RaisesOver(k, prev, hadBet) then RaisesText(n, amt - prev, amt, allin)
    else BetsText(n, amt, allin)
  }

  /** The Bet and Raise arms of `act_line_with_context` against the
      tracker's entry for the action, if any: without an entry the line
      reads "bets". */
  function AggressiveLine(n: string, k: Kind, entry: Option<BetEntry>, amt: int, allin: string): (r: string)
    ensures StartsWith(r, n + ": raises ") <==> RaiseFor(k, entry)
    ensures EndsWith(r, FmtMoney(amt) + allin)
    ensures entry.Some? ==> r == AggressiveText(n, k, entry.value.prev, entry.value.hadBet, amt, allin)
    ensures entry.None? ==> r == n + ": bets " + FmtMoney(amt) + allin
  {
    match entry
    case None => BetsText(n, amt, allin)
    case Some(e) => AggressiveText(n, k, e.prev, e.hadBet, amt, allin)
  }

  /** A Raise to $0.30 over a tracked $0.10 reads `raises $0.20 to $0.30`. */
  lemma RaiseExample()
    ensures AggressiveLine("P", Raise, Some(BetEntry(10, 30, false)), 30, "") == "P: raises $0.20 to $0.30"
  {
    FmtMoneyTwentyCents();
    FmtMoneyThirtyCents();
    assert AggressiveLine("P", Raise, Some(BetEntry(10, 30, false)), 30, "") == AggressiveText("P", Raise, 10, false, 30, "");
    assert RaisesOver(Raise, 10, false);
    assert AggressiveText("P", Raise, 10, false, 30, "") == RaisesText("P", 30 - 10, 30, "");
    assert RaisesText("P", 20, 30, "") == "P" + ": raises " + "$0.20" + " to " + "$0.30" + "";
    RaiseExampleHead();
    RaiseExampleTail();
  }

  /** The string joins `RaiseExample` needs, kept apart so that its own
      proof stays small. */
  lemma RaiseExampleHead()
    ensures "P" + ": raises " + "$0.20" == "P: raises $0.20"
  {
    assert "P" + ": raises " == "P: raises ";
  }

  lemma RaiseExampleTail()
    ensures "P: raises $0.20" + " to " + "$0.30" + "" == "P: raises $0.20 to $0.30"
  {
    assert "P: raises $0.20" + " to " == "P: raises $0.20 to ";
    assert "P: raises $0.20 to " + "$0.30" == "P: raises $0.20 to $0.30";
  }

  lemma StartsWithAppend3(p: string, x: string, y: string)
    ensures StartsWith(p + x + y, p)
  {
    assert (p + x + y)[..|p|] == p;
  }

  lemma EndsWithLast(s: string, p: string)
    requires |p| > 0 && EndsWith(s, p)
    ensures s[|s| - 1] == p[|p| - 1]
  {
    assert s[|s| - |p|..][|p| - 1] == s[|s| - 1];
  }

  lemma EndsWithTrans(s: string, t: string, p: string)
    requires EndsWith(s, t) && EndsWith(t, p)
    ensures EndsWith(s, p)
  {
    assert s[|s| - |p|..] == s[|s| - |t|..][|t| - |p|..];
  }

  lemma EndsWithAppend(x: string, p: string)
    ensures EndsWith(x + p, p)
  {
    assert (x + p)[|x + p| - |p|..] == p;
  }

  lemma AllinSuffixPresent(h: Hand, a: Action, tracker: Tracker)
    requires a.playerId.Some? && (KindOf(a.kind) == Call || IsAggressive(KindOf(a.kind))) && a.isAllin == Some(true)
    ensures ActLine(h, a, tracker).Some? && EndsWith(ActLine(h, a, tracker).value, AllinSuffix)
  {
    var n := NameById(h.players, a.playerId.value);
    var amt := GetOr(a.amount, 0);
    if KindOf(a.kind) == Call {
      EndsWithAppend(n + ": calls " + FmtMoney(amt), AllinSuffix);
    } else {
      var line := AggressiveLine(n, KindOf(a.kind), Lookup(tracker, a.actionNumber), amt, AllinSuffix);
      EndsWithTrans(line, FmtMoney(amt) + AllinSuffix, AllinSuffix);
    }
  }

  lemma MoneyLineLast(x: string, amt: int)
    ensures (x + FmtMoney(amt))[|x + FmtMoney(amt)| - 1] != 'n'
  {
    var m := FmtMoney(amt);
    assert (x + m)[|x + m| - 1] == m[|m| - 1];
  }

  lemma LastCharAppend(x: string, y: string)
    requires |y| > 0
    ensures (x + y)[|x + y| - 1] == y[|y| - 1]
  {
  }

  /** Every line without the suffix ends in a digit, `]`, or a letter
      other than `n`. */
  lemma AllinSuffixAbsent(h: Hand, a: Action, tracker: Tracker)
    requires ActLine(h, a, tracker).Some?
    requires !((KindOf(a.kind) == Call || IsAggressive(KindOf(a.kind))) && a.isAllin == Some(true))
    ensures !EndsWith(ActLine(h, a, tracker).value, AllinSuffix)
  {
    var line := ActLine(h, a, tracker).value;
    match KindOf(a.kind) {
    case PostSB => PostLineLast(h, a, tracker);
    case PostBB => PostLineLast(h, a, tracker);
    case PostAnte => PostLineLast(h, a, tracker);
    case Call => StakeLineLast(h, a, tracker);
    case Bet => StakeLineLast(h, a, tracker);
    case Raise => StakeLineLast(h, a, tracker);
    case DealtCards => PlainLineLast(h, a, tracker);
    case Fold => PlainLineLast(h, a, tracker);
    case Check => PlainLineLast(h, a, tracker);
    case ShowsCards => PlainLineLast(h, a, tracker);
    case Muck => PlainLineLast(h, a, tracker);
    }
    if EndsWith(line, AllinSuffix) {
      EndsWithLast(line, AllinSuffix);
    }
  }

  lemma PostLineLast(h: Hand, a: Action, tracker: Tracker)
    requires ActLine(h, a, tracker).Some?
    requires KindOf(a.kind) == PostSB || KindOf(a.kind) == PostBB || KindOf(a.kind) == PostAnte
    ensures var line := ActLine(h, a, tracker).value; line[|line| - 1] != 'n'
  {
    var n := NameById(h.players, a.playerId.value);
    var amt := GetOr(a.amount, 0);
    match KindOf(a.kind) {
    case PostSB => MoneyLineLast(n + ": posts small blind ", amt);
    case PostBB => MoneyLineLast(n + ": posts big blind ", amt);
    case PostAnte => MoneyLineLast(n + ": posts the ante ", amt);
    }
  }

  lemma StakeLineLast(h: Hand, a: Action, tracker: Tracker)
    requires ActLine(h, a, tracker).Some?
    requires KindOf(a.kind) == Call || IsAggressive(KindOf(a.kind))
    requires a.isAllin != Some(true)
    ensures var line := ActLine(h, a, tracker).value; line[|line| - 1] != 'n'
  {
    var n := NameById(h.players, a.playerId.value);
    var amt := GetOr(a.amount, 0);
    assert GetOr(a.isAllin, false) == false;
    if KindOf(a.kind) == Call {
      MoneyLineLast(n + ": calls ", amt);
      assert n + ": calls " + FmtMoney(amt) + "" == n + ": calls " + FmtMoney(amt);
    } else {
      AggressiveLast(n, KindOf(a.kind), Lookup(tracker, a.actionNumber), amt);
    }
  }

  lemma PlainLineLast(h: Hand, a: Action, tracker: Tracker)
    requires ActLine(h, a, tracker).Some?
    requires KindOf(a.kind) in {DealtCards, Fold, Check, ShowsCards, Muck}
    ensures var line := ActLine(h, a, tracker).value; line[|line| - 1] != 'n'
  {
    var n := NameById(h.players, a.playerId.value);
    match KindOf(a.kind) {
    case DealtCards => CardsLineLast(h, a, tracker);
    case Fold => LastCharAppend(n, ": folds");
    case Check => LastCharAppend(n, ": checks");
    case ShowsCards => CardsLineLast(h, a, tracker);
    case Muck => LastCharAppend(n, ": mucks hand");
    }
  }

  lemma CardsLineLast(h: Hand, a: Action, tracker: Tracker)
    requires ActLine(h, a, tracker).Some?
    requires KindOf(a.kind) == DealtCards || KindOf(a.kind) == ShowsCards
    ensures var line := ActLine(h, a, tracker).value; line[|line| - 1] != 'n'
  {
    var n := NameById(h.players, a.playerId.value);
    if KindOf(a.kind) == DealtCards {
      var cs := a.cards.value;
      LastCharAppend("Dealt to " + n + " [" + Card(cs[0]) + " " + Card(cs[1]), "]");
    } else if a.cards.Some? && |a.cards.value| >= 2 {
      var cs := a.cards.value;
      LastCharAppend(n + ": shows [" + Card(cs[0]) + " " + Card(cs[1]), "]");
    } else {
      LastCharAppend(n, ": shows");
    }
  }

  lemma AggressiveLast(n: string, k: Kind, entry: Option<BetEntry>, amt: int)
    ensures var line := AggressiveLine(n, k, entry, amt, ""); line[|line| - 1] != 'n'
  {
    var m := FmtMoney(amt);
    var line := AggressiveLine(n, k, entry, amt, "");
    assert m + "" == m;
    assert EndsWith(line, m);
    EndsWithLast(line, m);
    assert line[|line| - 1] == m[|m| - 1];
  }

  /** ` and is all-in` closes exactly the Call, Bet and Raise lines whose
      all-in flag is set. */
  lemma AllinSuffixIff(h: Hand, a: Action, tracker: Tracker)
    requires ActLine(h, a, tracker).Some?
    ensures EndsWith(ActLine(h, a, tracker).value, AllinSuffix)
        <==> (KindOf(a.kind) == Call || IsAggressive(KindOf(a.kind))) && a.isAllin == Some(true)
  {
    if (KindOf(a.kind) == Call || IsAggressive(KindOf(a.kind))) && a.isAllin == Some(true) {
      AllinSuffixPresent(h, a, tracker);
    } else {
      AllinSuffixAbsent(h, a, tracker);
    }
  }
}
