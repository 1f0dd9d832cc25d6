/** The per-round loop of `ohh_to_pokerstars_text`: the scan of one
    round's actions (bet bookkeeping and line buckets) and the fold over
    rounds that threads the cumulative board and the bet tracker. */
module Rounds {
  import opened Text
  import opened Ohh
  import opened Money
  import opened Render

  // ---------------------------------------------------------------------
  // Scanning one round

  /** State of the action loop: the running bet amount, whether a Bet or
      Raise with an amount has been seen this round, the tracker (which
      outlives the round), and the three line buckets. */
  datatype ScanState = ScanState(
    last: int,
    hasBet: bool,
    tracker: Tracker,
    blinds: seq<string>,
    dealt: seq<string>,
    other: seq<string>)

  /** Only the two running values restart with each round; the tracker is
      the one carried in from earlier rounds. */
  function RoundStart(tracker: Tracker): ScanState
  {
    ScanState(0, false, tracker, [], [], [])
  }

  /** A Post with an amount moves the running amount; a Bet or Raise with
      an amount is also entered in the tracker. */
  predicate SetsBaseline(a: Action)
  {
    a.amount.Some? && (IsPost(KindOf(a.kind)) || IsAggressive(KindOf(a.kind)))
  }

  predicate IsRecordedBet(a: Action)
  {
    a.amount.Some? && IsAggressive(KindOf(a.kind))
  }

  /** The bookkeeping that precedes rendering an action. */
  function Track(st: ScanState, a: Action): (r: ScanState)
    ensures r.blinds == st.blinds && r.dealt == st.dealt && r.other == st.other
  {
    if a.amount.None? then st
    else
      var amt := a.amount.value;
      var k := KindOf(a.kind);
      if IsPost(k) then st.(last := amt)
      else if IsAggressive(k) then
        st.(last := amt, hasBet := true,
            tracker := st.tracker[a.actionNumber := BetEntry(st.last, amt, st.hasBet)])
      else st
  }

  /** The three line buckets of a round. */
  datatype Bucket = Blinds | Dealt | Others

  /** The bucket a rendered line goes to. */
  function BucketOf(k: Kind): Bucket
  {
    if IsPost(k) then Blinds else if k == DealtCards then Dealt else Others
  }

  /** Appends a rendered line, if any, to its bucket. */
  function AddLine(st: ScanState, bucket: Bucket, line: Option<string>): (r: ScanState)
    ensures r.last == st.last && r.hasBet == st.hasBet && r.tracker == st.tracker
  {
    match line
    case None => st
    case Some(l) =>
      match bucket
      case Blinds => st.(blinds := st.blinds + [l])
      case Dealt => st.(dealt := st.dealt + [l])
      case Others => st.(other := st.other + [l])
  }

  /** One iteration of the action loop: bookkeeping first, then the line
      rendered against the updated tracker. */
  function Step(h: Hand, st: ScanState, a: Action): ScanState
  {
    var st1 := Track(st, a);
    AddLine(st1, BucketOf(KindOf(a.kind)), ActLine(h, a, st1.tracker))
  }

  /** The action loop over a round, as a left fold. */
  function Scan(h: Hand, acts: seq<Action>, st: ScanState): ScanState
    decreases |acts|
  {
    if |acts| == 0 then st
    else Step(h, Scan(h, acts[..|acts| - 1], st), acts[|acts| - 1])
  }

  // ---------------------------------------------------------------------
  // Reference definitions of the running values

  /** The amount of the latest Post, Bet or Raise that carries one, or 0. */
  function Baseline(acts: seq<Action>): int
    decreases |acts|
  {
    if |acts| == 0 then 0
    else if SetsBaseline(acts[|acts| - 1]) then acts[|acts| - 1].amount.value
    else Baseline(acts[..|acts| - 1])
  }

  /** Some Bet or Raise carrying an amount occurs among the actions. */
  predicate HadBet(acts: seq<Action>)
  {
    exists j :: 0 <= j < |acts| && IsRecordedBet(acts[j])
  }

  /** The action numbers of the Bets and Raises carrying an amount. */
  function RecordedNumbers(acts: seq<Action>): set<U32>
  {
    set j | 0 <= j < |acts| && IsRecordedBet(acts[j]) :: acts[j].actionNumber
  }

  /** The baseline is the amount of some baseline-setting action after
      which no other one comes, or 0 when there is none. */
  lemma {:induction false} BaselineIsLatest(acts: seq<Action>)
    ensures (forall j :: 0 <= j < |acts| ==> !SetsBaseline(acts[j])) ==> Baseline(acts) == 0
    ensures forall j :: 0 <= j < |acts| && SetsBaseline(acts[j])
                        && (forall m :: j < m < |acts| ==> !SetsBaseline(acts[m]))
                        ==> Baseline(acts) == acts[j].amount.value
    decreases |acts|
  {
    if |acts| > 0 {
      var n := |acts| - 1;
      BaselineIsLatest(acts[..n]);
      assert forall j :: 0 <= j < n ==> acts[..n][j] == acts[j];
    }
  }

  lemma HadBetSnoc(acts: seq<Action>, a: Action)
    ensures HadBet(acts + [a]) == (HadBet(acts) || IsRecordedBet(a))
  {
    var s := acts + [a];
    if HadBet(acts) {
      var j :| 0 <= j < |acts| && IsRecordedBet(acts[j]);
      assert s[j] == acts[j];
    }
    if IsRecordedBet(a) {
      assert s[|acts|] == a;
    }
    if HadBet(s) {
      var j :| 0 <= j < |s| && IsRecordedBet(s[j]);
      if j < |acts| {
        assert s[j] == acts[j];
      }
    }
  }

  lemma RecordedNumbersSnoc(acts: seq<Action>, a: Action)
    ensures RecordedNumbers(acts + [a])
         == RecordedNumbers(acts) + (if IsRecordedBet(a) then {a.actionNumber} else {})
  {
    var s := acts + [a];
    forall x | x in RecordedNumbers(s)
      ensures x in RecordedNumbers(acts) + (if IsRecordedBet(a) then {a.actionNumber} else {})
    {
      var j :| 0 <= j < |s| && IsRecordedBet(s[j]) && s[j].actionNumber == x;
      if j < |acts| {
        assert s[j] == acts[j];
      }
    }
    forall x | x in RecordedNumbers(acts)
      ensures x in RecordedNumbers(s)
    {
      var j :| 0 <= j < |acts| && IsRecordedBet(acts[j]) && acts[j].actionNumber == x;
      assert s[j] == acts[j];
    }
    if IsRecordedBet(a) {
      assert s[|acts|] == a;
    }
  }

  // ---------------------------------------------------------------------
  // What the scan computes

  lemma ScanSnoc(h: Hand, acts: seq<Action>, a: Action, st: ScanState)
    ensures Scan(h, acts + [a], st) == Step(h, Scan(h, acts, st), a)
  {
    assert (acts + [a])[..|acts|] == acts;
  }

  /** Rendering never touches the running values: a step leaves them as
      the bookkeeping set them. */
  lemma StepKeeps(h: Hand, st: ScanState, a: Action)
    ensures Step(h, st, a).last == Track(st, a).last
    ensures Step(h, st, a).hasBet == Track(st, a).hasBet
    ensures Step(h, st, a).tracker == Track(st, a).tracker
  {
  }

  /** One step seen through the running values only: the rendered line
      plays no part. */
  lemma ScanSnocValues(h: Hand, acts: seq<Action>, a: Action, st: ScanState)
    ensures var before := Scan(h, acts, st);
      var after := Scan(h, acts + [a], st);
      && after.last == Track(before, a).last
      && after.hasBet == Track(before, a).hasBet
      && after.tracker == Track(before, a).tracker
  {
    ScanSnoc(h, acts, a, st);
    StepKeeps(h, Scan(h, acts, st), a);
  }

  /** Within a round the running amount is the latest Post/Bet/Raise
      amount and the bet flag records whether a Bet or Raise with an amount
      came earlier in the round. */
  lemma {:induction false} ScanRunningValues(h: Hand, acts: seq<Action>, tracker: Tracker)
    ensures Scan(h, acts, RoundStart(tracker)).last == Baseline(acts)
    ensures Scan(h, acts, RoundStart(tracker)).hasBet == HadBet(acts)
    decreases |acts|
  {
    if |acts| > 0 {
      var n := |acts| - 1;
      var init := acts[..n];
      assert acts == init + [acts[n]];
      ScanRunningValues(h, init, tracker);
      ScanSnocValues(h, init, acts[n], RoundStart(tracker));
      HadBetSnoc(init, acts[n]);
    }
  }

  /** The tracker gains exactly the action numbers of the round's Bets and
      Raises that carry an amount, keeping every key it had. */
  lemma {:induction false} ScanTrackerKeys(h: Hand, acts: seq<Action>, tracker: Tracker)
    ensures Scan(h, acts, RoundStart(tracker)).tracker.Keys == tracker.Keys + RecordedNumbers(acts)
    decreases |acts|
  {
    if |acts| > 0 {
      var n := |acts| - 1;
      var init := acts[..n];
      assert acts == init + [acts[n]];
      ScanTrackerKeys(h, init, tracker);
      ScanSnocValues(h, init, acts[n], RoundStart(tracker));
      RecordedNumbersSnoc(init, acts[n]);
    }
  }

  /** An entry the round does not write over keeps its value. */
  lemma {:induction false} ScanTrackerFrame(h: Hand, acts: seq<Action>, tracker: Tracker, k: U32)
    requires k in tracker && k !in RecordedNumbers(acts)
    ensures k in Scan(h, acts, RoundStart(tracker)).tracker
    ensures Scan(h, acts, RoundStart(tracker)).tracker[k] == tracker[k]
    decreases |acts|
  {
    if |acts| > 0 {
      var n := |acts| - 1;
      var init := acts[..n];
      assert acts == init + [acts[n]];
      RecordedNumbersSnoc(init, acts[n]);
      ScanTrackerFrame(h, init, tracker, k);
      ScanSnocValues(h, init, acts[n], RoundStart(tracker));
    }
  }

  /** The entry under a number is the one its last Bet or Raise with an
      amount wrote: the running amount and bet flag from before that
      action, and its amount. */
  lemma {:induction false} ScanTrackerLast(h: Hand, acts: seq<Action>, tracker: Tracker, j: nat)
    requires j < |acts| && IsRecordedBet(acts[j])
    requires forall m :: j < m < |acts| ==> !(IsRecordedBet(acts[m]) && acts[m].actionNumber == acts[j].actionNumber)
    ensures acts[j].actionNumber in Scan(h, acts, RoundStart(tracker)).tracker
    ensures Scan(h, acts, RoundStart(tracker)).tracker[acts[j].actionNumber]
         == BetEntry(Baseline(acts[..j]), acts[j].amount.value, HadBet(acts[..j]))
    decreases |acts|
  {
    var n := |acts| - 1;
    var init := acts[..n];
    assert acts == init + [acts[n]];
    ScanSnocValues(h, init, acts[n], RoundStart(tracker));
    if j == n {
      ScanRunningValues(h, init, tracker);
    } else {
      assert forall m :: 0 <= m < n ==> init[m] == acts[m];
      assert init[..j] == acts[..j];
      ScanTrackerLast(h, init, tracker, j);
    }
  }

  /** How a Bet or Raise carrying an amount is rendered, stated from the
      round's earlier actions alone: a Raise over a positive baseline (and a
      Bet over a positive baseline after an earlier Bet or Raise) reads
      `raises <amount - baseline> to <amount>`, anything else `bets
      <amount>`. */
  function ReconstructedLine(h: Hand, a: Action, earlier: seq<Action>): (r: string)
    requires a.playerId.Some? && a.amount.Some? && IsAggressive(KindOf(a.kind))
    ensures LineForms(r, NameById(h.players, a.playerId.value), KindOf(a.kind), Baseline(earlier), HadBet(earlier),
                      a.amount.value, SuffixOf(a))
  {
    AggressiveText(NameById(h.players, a.playerId.value), KindOf(a.kind), Baseline(earlier), HadBet(earlier),
                   a.amount.value, SuffixOf(a))
  }

  /** Bet/raise reconstruction: the line the loop emits for the `i`-th
      action, a Bet or Raise with an amount and an actor, is appended to the
      "other" bucket and equals the reconstruction from the round's
      earlier actions, whatever the tracker carried in. */
  lemma RaiseReconstruction(h: Hand, acts: seq<Action>, i: nat, tracker: Tracker)
    requires i < |acts|
    requires acts[i].playerId.Some? && acts[i].amount.Some? && IsAggressive(KindOf(acts[i].kind))
    ensures Scan(h, acts[..i + 1], RoundStart(tracker)).other
         == Scan(h, acts[..i], RoundStart(tracker)).other + [ReconstructedLine(h, acts[i], acts[..i])]
  {
    var a := acts[i];
    assert acts[..i + 1] == acts[..i] + [a];
    ScanSnoc(h, acts[..i], a, RoundStart(tracker));
    ScanRunningValues(h, acts[..i], tracker);
    StepAggressive(h, Scan(h, acts[..i], RoundStart(tracker)), a);
  }

  /** A Raise straight after a Post with a positive amount (the blinds,
      typically) reads `raises <amount - posted> to <amount>`. */
  lemma RaiseOverPost(h: Hand, acts: seq<Action>, i: nat, tracker: Tracker)
    requires 0 < i < |acts|
    requires IsPost(KindOf(acts[i - 1].kind)) && acts[i - 1].amount.Some? && acts[i - 1].amount.value > 0
    requires KindOf(acts[i].kind) == Raise && acts[i].playerId.Some? && acts[i].amount.Some?
    ensures var o := Scan(h, acts[..i + 1], RoundStart(tracker)).other;
      var amt := acts[i].amount.value;
      && |o| > 0
      && exists m :: o[|o| - 1] == NameById(h.players, acts[i].playerId.value) + ": raises " + m + " to " + FmtMoney(amt) + SuffixOf(acts[i])
                     && ParseMoney(m) == Some(amt - acts[i - 1].amount.value)
  {
    LastOtherLine(h, acts, i, tracker);
    PostBaseline(acts, i);
    var o := Scan(h, acts[..i + 1], RoundStart(tracker)).other;
    RaiseFigure(o[|o| - 1], NameById(h.players, acts[i].playerId.value), Baseline(acts[..i]), HadBet(acts[..i]),
                acts[i].amount.value, SuffixOf(acts[i]));
  }

  /** A Raise line over a positive previous bet carries the raise figure. */
  lemma RaiseFigure(line: string, n: string, prev: int, hadBet: bool, amt: int, allin: string)
    requires prev > 0 && LineForms(line, n, Raise, prev, hadBet, amt, allin)
    ensures exists m :: line == n + ": raises " + m + " to " + FmtMoney(amt) + allin && ParseMoney(m) == Some(amt - prev)
  {
    assert RaisesOver(Raise, prev, hadBet);
  }

  /** The line a Bet or Raise with an actor and an amount appends is the
      last of the "other" bucket. */
  lemma LastOtherLine(h: Hand, acts: seq<Action>, i: nat, tracker: Tracker)
    requires i < |acts|
    requires acts[i].playerId.Some? && acts[i].amount.Some? && IsAggressive(KindOf(acts[i].kind))
    ensures var o := Scan(h, acts[..i + 1], RoundStart(tracker)).other;
      |o| > 0 && o[|o| - 1] == ReconstructedLine(h, acts[i], acts[..i])
  {
    RaiseReconstruction(h, acts, i, tracker);
  }

  /** Right after a Post with an amount, the baseline is that amount. */
  lemma PostBaseline(acts: seq<Action>, i: nat)
    requires 0 < i <= |acts|
    requires IsPost(KindOf(acts[i - 1].kind)) && acts[i - 1].amount.Some?
    ensures Baseline(acts[..i]) == acts[i - 1].amount.value
  {
    assert acts[..i][i - 1] == acts[i - 1];
  }

  /** A Bet with no earlier Bet or Raise carrying an amount in its round
      reads `bets <amount>`, whatever the blinds posted. */
  lemma FirstBetBets(h: Hand, acts: seq<Action>, i: nat, tracker: Tracker)
    requires i < |acts|
    requires KindOf(acts[i].kind) == Bet && acts[i].playerId.Some? && acts[i].amount.Some?
    requires forall j :: 0 <= j < i ==> !IsRecordedBet(acts[j])
    ensures var o := Scan(h, acts[..i + 1], RoundStart(tracker)).other;
      && |o| > 0
      && o[|o| - 1] == NameById(h.players, acts[i].playerId.value) + ": bets " + FmtMoney(acts[i].amount.value) + SuffixOf(acts[i])
  {
    LastOtherLine(h, acts, i, tracker);
    assert forall j :: 0 <= j < i ==> acts[..i][j] == acts[j];
    assert !HadBet(acts[..i]);
    var line := ReconstructedLine(h, acts[i], acts[..i]);
    assert LineForms(line, NameById(h.players, acts[i].playerId.value), Bet, Baseline(acts[..i]), HadBet(acts[..i]),
                     acts[i].amount.value, SuffixOf(acts[i]));
  }

  /** A Bet or Raise with an actor and an amount is entered in the tracker
      with the running values before it, and its line, built against that
      entry, goes to the "other" bucket. */
  lemma StepAggressive(h: Hand, st: ScanState, a: Action)
    requires a.playerId.Some? && a.amount.Some? && IsAggressive(KindOf(a.kind))
    ensures Step(h, st, a).other
         == st.other + [AggressiveText(NameById(h.players, a.playerId.value), KindOf(a.kind),
                                       st.last, st.hasBet, a.amount.value, SuffixOf(a))]
  {
    var st1 := Track(st, a);
    assert Lookup(st1.tracker, a.actionNumber) == Some(BetEntry(st.last, a.amount.value, st.hasBet));
    assert GetOr(a.amount, 0) == a.amount.value;
  }

  /** A Bet or Raise without an amount adds no tracker entry, so its line is
      built against whatever entry its action number already has, possibly
      one left by an earlier round, and its amount reads as zero. */
  lemma AmountlessUsesCarriedEntry(h: Hand, st: ScanState, a: Action)
    requires a.playerId.Some? && a.amount.None? && IsAggressive(KindOf(a.kind))
    ensures Track(st, a) == st
    ensures Step(h, st, a).other
         == st.other + [AggressiveLine(NameById(h.players, a.playerId.value), KindOf(a.kind),
                                       Lookup(st.tracker, a.actionNumber), 0, SuffixOf(a))]
  {
  }

  /** Each step appends at most one line, to one bucket: the buckets only
      grow at the end, so every bucket keeps the source order. */
  lemma StepAppends(h: Hand, st: ScanState, a: Action)
    ensures var r := Step(h, st, a);
      && StartsWithSeq(r.blinds, st.blinds) && StartsWithSeq(r.dealt, st.dealt) && StartsWithSeq(r.other, st.other)
      && |r.blinds| + |r.dealt| + |r.other| <= |st.blinds| + |st.dealt| + |st.other| + 1
  {
  }

  predicate StartsWithSeq<T(==)>(s: seq<T>, p: seq<T>)
  {
    |p| <= |s| && s[..|p|] == p
  }

  /** The lines of an action are placed by its kind, and an action renders
      to a line exactly when `ActLine` gives one. */
  lemma StepBucket(h: Hand, st: ScanState, a: Action)
    ensures var r := Step(h, st, a);
      var line := ActLine(h, a, Track(st, a).tracker);
      && (line.None? ==> r.blinds == st.blinds && r.dealt == st.dealt && r.other == st.other)
      && (line.Some? && IsPost(KindOf(a.kind)) ==> r.blinds == st.blinds + [line.value] && r.dealt == st.dealt && r.other == st.other)
      && (line.Some? && KindOf(a.kind) == DealtCards ==> r.dealt == st.dealt + [line.value] && r.blinds == st.blinds && r.other == st.other)
      && (line.Some? && !IsPost(KindOf(a.kind)) && KindOf(a.kind) != DealtCards ==>
            r.other == st.other + [line.value] && r.blinds == st.blinds && r.dealt == st.dealt)
  {
  }

  // ---------------------------------------------------------------------
  // One round's lines

  /** Places the street header among the round's buckets: on Preflop the
      blinds come before the header, on other streets after it; an empty
      header is left out. */
  function Arrange(preflop: bool, hdr: string, st: ScanState): (res: seq<string>)
    ensures var at := if preflop then |st.blinds| else 0;
      && (hdr == "" ==> res == st.blinds + st.dealt + st.other)
      && (hdr != "" ==>
            && |res| == |st.blinds| + |st.dealt| + |st.other| + 1
            && res[at] == hdr
            && res[..at] + res[at + 1..] == st.blinds + st.dealt + st.other)
  {
    if hdr == "" then st.blinds + st.dealt + st.other
    else if preflop then
      InsertAt(st.blinds, hdr, st.dealt + st.other);
      st.blinds + [hdr] + (st.dealt + st.other)
    else
      InsertAt([], hdr, st.blinds + st.dealt + st.other);
      [hdr] + (st.blinds + st.dealt + st.other)
  }

  /** Putting `x` between `a` and `b` puts it at index `|a|`, and taking
      it out again leaves `a + b`. */
  lemma InsertAt<T>(a: seq<T>, x: T, b: seq<T>)
    ensures var r := a + [x] + b;
      && |r| == |a| + |b| + 1 && r[|a|] == x && r[..|a|] + r[|a| + 1..] == a + b
  {
    var r := a + [x] + b;
    assert r[..|a|] == a;
    assert r[|a| + 1..] == b;
  }

  /** The lines of one round and the tracker handed to the next. */
  function RoundLines(h: Hand, r: Round, allBoard: seq<string>, tracker: Tracker): (seq<string>, Tracker)
  {
    var st := Scan(h, r.actions, RoundStart(tracker));
    (Arrange(r.street == Preflop, StreetHeader(r.street, r.cards, allBoard), st), st.tracker)
  }

  // ---------------------------------------------------------------------
  // The fold over rounds

  datatype HandState = HandState(allBoard: seq<string>, tracker: Tracker, lines: seq<string>)

  /** The round loop: the board accumulates before each round's header is
      built, and the tracker is handed from round to round. */
  function RenderRounds(h: Hand, rounds: seq<Round>): HandState
    decreases |rounds|
  {
    if |rounds| == 0 then HandState([], map[], [])
    else
      var prev := RenderRounds(h, rounds[..|rounds| - 1]);
      var r := rounds[|rounds| - 1];
      var board := prev.allBoard + r.cards;
      var res := RoundLines(h, r, board, prev.tracker);
      HandState(board, res.1, prev.lines + res.0)
  }

  /** All board cards of the rounds, in round order. */
  function ConcatCards(rounds: seq<Round>): seq<string>
    decreases |rounds|
  {
    if |rounds| == 0 then [] else rounds[0].cards + ConcatCards(rounds[1..])
  }

  lemma {:induction false} ConcatCardsSnoc(rounds: seq<Round>, r: Round)
    ensures ConcatCards(rounds + [r]) == ConcatCards(rounds) + r.cards
    decreases |rounds|
  {
    if |rounds| == 0 {
      assert ConcatCards([r]) == r.cards + ConcatCards([]);
    } else {
      assert (rounds + [r])[1..] == rounds[1..] + [r];
      ConcatCardsSnoc(rounds[1..], r);
    }
  }

  /** Every action of the rounds that the tracker records. */
  function RecordedInRounds(rounds: seq<Round>): set<U32>
    decreases |rounds|
  {
    if |rounds| == 0 then {}
    else RecordedInRounds(rounds[..|rounds| - 1]) + RecordedNumbers(rounds[|rounds| - 1].actions)
  }

  /** Action `j` of round `i` is the last Bet or Raise with an amount
      under its number, counting every later round too. */
  predicate LastRecordedAt(rounds: seq<Round>, i: nat, j: nat)
  {
    && i < |rounds| && j < |rounds[i].actions| && IsRecordedBet(rounds[i].actions[j])
    && (forall m :: j < m < |rounds[i].actions| ==>
          !(IsRecordedBet(rounds[i].actions[m]) && rounds[i].actions[m].actionNumber == rounds[i].actions[j].actionNumber))
    && (forall q :: i < q < |rounds| ==> rounds[i].actions[j].actionNumber !in RecordedNumbers(rounds[q].actions))
  }

  /** After any number of rounds the cumulative board is every round's
      cards in order, and the tracker holds an entry for every Bet or Raise
      with an amount in ANY earlier round: it is never reset per street.
      The entry under a number is the one its last such action wrote, in
      whichever round that was. */
  lemma {:induction false} RenderRoundsState(h: Hand, rounds: seq<Round>)
    ensures RenderRounds(h, rounds).allBoard == ConcatCards(rounds)
    ensures RenderRounds(h, rounds).tracker.Keys == RecordedInRounds(rounds)
    ensures forall i: nat, j: nat {:trigger LastRecordedAt(rounds, i, j)} :: LastRecordedAt(rounds, i, j) ==>
      && rounds[i].actions[j].actionNumber in RenderRounds(h, rounds).tracker
      && RenderRounds(h, rounds).tracker[rounds[i].actions[j].actionNumber]
         == BetEntry(Baseline(rounds[i].actions[..j]), rounds[i].actions[j].amount.value, HadBet(rounds[i].actions[..j]))
    decreases |rounds|
  {
    if |rounds| > 0 {
      var n := |rounds| - 1;
      RenderRoundsState(h, rounds[..n]);
      assert rounds == rounds[..n] + [rounds[n]];
      ConcatCardsSnoc(rounds[..n], rounds[n]);
      ScanTrackerKeys(h, rounds[n].actions, RenderRounds(h, rounds[..n]).tracker);
    }
    RenderRoundsEntries(h, rounds);
  }

  /** Every carried entry at once. */
  lemma RenderRoundsEntries(h: Hand, rounds: seq<Round>)
    ensures forall i: nat, j: nat {:trigger LastRecordedAt(rounds, i, j)} :: LastRecordedAt(rounds, i, j) ==>
      && rounds[i].actions[j].actionNumber in RenderRounds(h, rounds).tracker
      && RenderRounds(h, rounds).tracker[rounds[i].actions[j].actionNumber]
         == BetEntry(Baseline(rounds[i].actions[..j]), rounds[i].actions[j].amount.value, HadBet(rounds[i].actions[..j]))
  {
    forall i: nat, j: nat | LastRecordedAt(rounds, i, j)
      ensures rounds[i].actions[j].actionNumber in RenderRounds(h, rounds).tracker
      ensures RenderRounds(h, rounds).tracker[rounds[i].actions[j].actionNumber]
           == BetEntry(Baseline(rounds[i].actions[..j]), rounds[i].actions[j].amount.value, HadBet(rounds[i].actions[..j]))
    {
      RenderRoundsEntry(h, rounds, i, j);
    }
  }

  /** The carried entry, one round at a time: the last round either wrote
      it or left it as the earlier rounds did. */
  lemma {:induction false} RenderRoundsEntry(h: Hand, rounds: seq<Round>, i: nat, j: nat)
    requires LastRecordedAt(rounds, i, j)
    ensures rounds[i].actions[j].actionNumber in RenderRounds(h, rounds).tracker
    ensures RenderRounds(h, rounds).tracker[rounds[i].actions[j].actionNumber]
         == BetEntry(Baseline(rounds[i].actions[..j]), rounds[i].actions[j].amount.value, HadBet(rounds[i].actions[..j]))
    decreases |rounds|
  {
    var n := |rounds| - 1;
    var prev := RenderRounds(h, rounds[..n]);
    assert RenderRounds(h, rounds).tracker == Scan(h, rounds[n].actions, RoundStart(prev.tracker)).tracker;
    if i == n {
      ScanTrackerLast(h, rounds[n].actions, prev.tracker, j);
    } else {
      assert forall q :: 0 <= q < n ==> rounds[..n][q] == rounds[q];
      assert LastRecordedAt(rounds[..n], i, j);
      RenderRoundsEntry(h, rounds[..n], i, j);
      ScanTrackerFrame(h, rounds[n].actions, prev.tracker, rounds[i].actions[j].actionNumber);
    }
  }
}
