/** `ohh_to_pokerstars_text`, `parse_ohh_chunks` and `convert_ohh_file`:
    a whole hand as text, and a whole file of JSON chunks as the converted
    hands separated by blank lines. */
module Convert {
  import opened Text
  import opened Ohh
  import opened Render
  import Seats
  import Rounds
  import Summary

  // ---------------------------------------------------------------------
  // One hand

  /** The blocks of a hand's text: header, table line, seat block, every
      round's lines, summary block. */
  datatype Blocks = Blocks(header: string, table: string, seats: string, rounds: seq<string>, summary: string)

  function HandBlocks(h: Hand): Blocks
  {
    Blocks(BuildHeader(h), BuildTable(h), Seats.BuildSeats(h.players),
           Rounds.RenderRounds(h, h.rounds).lines, Summary.Summarize(h))
  }

  /** The blocks one per line. */
  function Layout(b: Blocks): string
  {
    Join([b.header, b.table, b.seats] + b.rounds + [b.summary], "\n")
  }

  /** The hand as PokerStars text. */
  function HandText(h: Hand): string
  {
    Layout(HandBlocks(h))
  }

  /** The text opens with the header, the table line and the seat block
      and closes with the summary block. */
  lemma LayoutFrame(b: Blocks)
    ensures StartsWith(Layout(b), b.header + "\n" + b.table + "\n" + b.seats + "\n")
    ensures StartsWith(Layout(b), b.header + "\n" + b.table + "\n")
    ensures EndsWith(Layout(b), "\n" + b.summary)
  {
    var front := [b.header, b.table, b.seats];
    var rest := b.rounds + [b.summary];
    assert [b.header, b.table, b.seats] + b.rounds + [b.summary] == front + rest;
    JoinAppend(front, rest, "\n");
    assert front[1..] == [b.table, b.seats] && front[1..][1..] == [b.seats];
    assert Join([b.seats], "\n") == b.seats;
    assert Join(front[1..], "\n") == b.table + "\n" + b.seats;
    assert Join(front, "\n") == b.header + "\n" + (b.table + "\n" + b.seats);
    var pre := b.header + "\n" + b.table + "\n" + b.seats + "\n";
    assert Layout(b) == pre + Join(rest, "\n");
    assert Layout(b)[..|pre|] == pre;
    var pre2 := b.header + "\n" + b.table + "\n";
    assert pre[..|pre2|] == pre2;
    var most := front + b.rounds;
    assert front + rest == most + [b.summary];
    JoinAppend(most, [b.summary], "\n");
    var post := "\n" + b.summary;
    assert Layout(b) == Join(most, "\n") + post;
    assert Layout(b)[|Layout(b)| - |post|..] == post;
  }

  /** Replacing one part by a non-empty list of lines whose join is that
      part leaves the joined text unchanged. */
  lemma JoinSurround(a: seq<string>, s: seq<string>, l: seq<string>, sep: string)
    requires |a| >= 1 && |s| >= 1
    ensures Join(a + [Join(s, sep)] + l, sep) == Join(a + s + l, sep)
  {
    if |l| == 0 {
      assert a + [Join(s, sep)] + l == a + [Join(s, sep)];
      assert a + s + l == a + s;
      JoinAppend(a, [Join(s, sep)], sep);
      JoinAppend(a, s, sep);
    } else {
      assert a + [Join(s, sep)] + l == a + ([Join(s, sep)] + l);
      assert a + s + l == a + (s + l);
      JoinAppend(a, [Join(s, sep)] + l, sep);
      JoinAppend(a, s + l, sep);
      JoinAppend([Join(s, sep)], l, sep);
      JoinAppend(s, l, sep);
    }
  }

  /** When the seat and summary blocks are themselves lines joined by
      newlines (and there is at least one seat line), the text is one list
      of lines. */
  lemma {:induction false} LayoutLines(b: Blocks, seatLines: seq<string>, summaryLines: seq<string>)
    requires |seatLines| >= 1 && |summaryLines| >= 1
    requires b.seats == Join(seatLines, "\n") && b.summary == Join(summaryLines, "\n")
    ensures Layout(b) == Join([b.header, b.table] + seatLines + b.rounds + summaryLines, "\n")
  {
    var a := [b.header, b.table];
    var l := b.rounds;
    var most := a + [b.seats] + l;
    assert [b.header, b.table, b.seats] + b.rounds + [b.summary] == most + [b.summary];
    JoinAppend(most, [b.summary], "\n");
    JoinSurround(a, seatLines, l, "\n");
    JoinAppend(a + seatLines + l, summaryLines, "\n");
  }

  /** An empty seat block still takes a line of its own. */
  lemma LayoutEmptySeats(b: Blocks)
    requires b.seats == ""
    ensures StartsWith(Layout(b), b.header + "\n" + b.table + "\n\n")
  {
    LayoutFrame(b);
    assert b.header + "\n" + b.table + "\n" + b.seats + "\n" == b.header + "\n" + b.table + "\n\n";
  }

  /** A hand's text starts with its header and table line and ends with its
      summary. */
  lemma HandTextFrame(h: Hand)
    ensures StartsWith(HandText(h), BuildHeader(h) + "\n" + BuildTable(h) + "\n")
    ensures EndsWith(HandText(h), "\n" + Summary.Summarize(h))
  {
    LayoutFrame(HandBlocks(h));
  }

  /** With at least one player the hand text is a single list of lines:
      header, table, seat lines, round lines, summary lines. */
  lemma HandTextLines(h: Hand)
    requires |h.players| >= 1
    ensures HandText(h)
         == Join([BuildHeader(h), BuildTable(h)] + Seats.SeatLines(h.players)
                  + Rounds.RenderRounds(h, h.rounds).lines + Summary.SummaryLines(h), "\n")
  {
    LayoutLines(HandBlocks(h), Seats.SeatLines(h.players), Summary.SummaryLines(h));
  }

  /** Without players the table line is followed by an empty line. */
  lemma NoPlayersBlankLine(h: Hand)
    requires h.players == []
    ensures StartsWith(HandText(h), BuildHeader(h) + "\n" + BuildTable(h) + "\n\n")
  {
    assert Seats.SeatLines([]) == [];
    LayoutEmptySeats(HandBlocks(h));
  }

  // ---------------------------------------------------------------------
  // Files

  /** Chunks are separated by a blank line. */
  const ChunkSeparator: string := "\n\n"

  /** Converted hands are separated by three blank lines. */
  const HandSeparator: string := "\n\n\n\n"

  const NoHandsMessage: string := "no valid hands could be parsed. please check your file format."

  /** A chunk is first read as a whole-file record; only when that fails is
      it read as a single hand; a chunk that is neither is skipped. The two
      JSON readers are parameters. */
  function DecodeChunk(chunk: string, asFile: string -> Option<seq<Hand>>, asHand: string -> Option<Hand>): (r: seq<Hand>)
    ensures asFile(chunk).Some? ==> r == asFile(chunk).value
    ensures asFile(chunk).None? && asHand(chunk).Some? ==> r == [asHand(chunk).value]
    ensures asFile(chunk).None? && asHand(chunk).None? ==> r == []
  {
    match asFile(chunk)
    case Some(hands) => hands
    case None =>
      match asHand(chunk)
      case Some(hand) => [hand]
      case None => []
  }

  /** The hands of the chunks, in chunk order. */
  function Collect(chunks: seq<string>, asFile: string -> Option<seq<Hand>>, asHand: string -> Option<Hand>): seq<Hand>
    decreases |chunks|
  {
    if |chunks| == 0 then []
    else Collect(chunks[..|chunks| - 1], asFile, asHand) + DecodeChunk(chunks[|chunks| - 1], asFile, asHand)
  }

  /** Collecting distributes over splitting the chunk list. */
  lemma {:induction false} CollectAppend(a: seq<string>, b: seq<string>,
                                         asFile: string -> Option<seq<Hand>>, asHand: string -> Option<Hand>)
    ensures Collect(a + b, asFile, asHand) == Collect(a, asFile, asHand) + Collect(b, asFile, asHand)
    decreases |b|
  {
    if |b| == 0 {
      assert a + b == a;
    } else {
      var n := |b| - 1;
      assert (a + b)[..|a + b| - 1] == a + b[..n];
      CollectAppend(a, b[..n], asFile, asHand);
    }
  }

  /** A chunk neither reader accepts is dropped without affecting the
      others. */
  lemma SkipUnreadable(a: seq<string>, c: string, b: seq<string>,
                       asFile: string -> Option<seq<Hand>>, asHand: string -> Option<Hand>)
    requires asFile(c).None? && asHand(c).None?
    ensures Collect(a + [c] + b, asFile, asHand) == Collect(a + b, asFile, asHand)
  {
    CollectAppend(a + [c], b, asFile, asHand);
    assert (a + [c])[..|a|] == a;
    CollectAppend(a, b, asFile, asHand);
  }

  /** The chunk loop of `parse_ohh_chunks`: an error exactly when no chunk
      yields a hand, otherwise every hand of every readable chunk in order. */
  method ParseChunks(text: string, asFile: string -> Option<seq<Hand>>, asHand: string -> Option<Hand>)
    returns (r: Result<seq<Hand>>)
    ensures var all := Collect(SplitOn(text, ChunkSeparator), asFile, asHand);
      && (r.Err? <==> all == [])
      && (r.Ok? ==> r.value == all && |r.value| >= 1)
      && (r.Err? ==> r.msg == NoHandsMessage)
  {
    var chunks := SplitOn(text, ChunkSeparator);
    var hands: seq<Hand> := [];
    var i := 0;
    while i < |chunks|
      invariant 0 <= i <= |chunks|
      invariant hands == Collect(chunks[..i], asFile, asHand)
    {
      assert chunks[..i + 1][..i] == chunks[..i];
      hands := hands + DecodeChunk(chunks[i], asFile, asHand);
      i := i + 1;
    }
    assert chunks[..i] == chunks;
    if |hands| == 0 {
      r := Err(NoHandsMessage);
    } else {
      r := Ok(hands);
    }
  }

  /** Each hand's text, in order; `render` is `HandText` in the
      conversion. */
  function Texts(hands: seq<Hand>, render: Hand -> string): (r: seq<string>)
    ensures |r| == |hands|
    ensures forall i :: 0 <= i < |hands| ==> r[i] == render(hands[i])
  {
    seq(|hands|, i requires 0 <= i < |hands| => render(hands[i]))
  }

  /** The converted hands separated by three blank lines. */
  function JoinHands(hands: seq<Hand>, render: Hand -> string): string
  {
    Join(Texts(hands, render), HandSeparator)
  }

  /** A single hand converts to its own text, with no separator. */
  lemma JoinOneHand(h: Hand, render: Hand -> string)
    ensures JoinHands([h], render) == render(h)
  {
    assert Texts([h], render) == [render(h)];
  }

  /** Converting more hands appends their text after one more separator. */
  lemma JoinHandsAppend(a: seq<Hand>, b: seq<Hand>, render: Hand -> string)
    requires |a| >= 1 && |b| >= 1
    ensures JoinHands(a + b, render) == JoinHands(a, render) + HandSeparator + JoinHands(b, render)
  {
    assert Texts(a + b, render) == Texts(a, render) + Texts(b, render);
    JoinAppend(Texts(a, render), Texts(b, render), HandSeparator);
  }

  /** `convert_ohh_file`: the parse error passes through; otherwise the
      hands' texts joined by three blank lines. Its own "No valid hands
      found in file" branch cannot be reached, since a successful parse
      always holds a hand. */
  method ConvertFile(text: string, asFile: string -> Option<seq<Hand>>, asHand: string -> Option<Hand>)
    returns (r: Result<string>)
    ensures var all := Collect(SplitOn(text, ChunkSeparator), asFile, asHand);
      && (r.Err? <==> all == [])
      && (r.Err? ==> r.msg == NoHandsMessage)
      && (r.Ok? ==> r.value == JoinHands(all, HandText))
  {
    var parsed := ParseChunks(text, asFile, asHand);
    match parsed
    case Err(msg) =>
      r := Err(msg);
    case Ok(hands) =>
      r := Ok(JoinHands(hands, HandText));
  }
}
