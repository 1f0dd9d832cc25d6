# pab-converter core in Dafny

A model of the converter at the heart of pab-converter. The converter reads
Open Hand History (OHH) records, one JSON document per chunk of a text file,
and writes every hand as a PokerStars-style text history. The model covers
all of `src-tauri/src/converter.rs` except the JSON library calls and the
items under "Left out". It includes:

- money formatting with thousands separators (`fmt_money`);
- card normalisation (`card`, `cards`);
- the header, table and seat lines;
- the player lookups;
- street headers;
- the rendering of each action, including the bet tracker that turns a Bet
  or Raise into "raises X to Y";
- the per-round bucketing of lines and the Preflop ordering exception;
- the summary block;
- the chunk loop of `parse_ohh_chunks`;
- `convert_ohh_file`.

It also models the two player-id visitors that make integer and string ids
interchangeable.

Money is integer cents. Strings are `seq<char>`. The JSON readers serde
derives are parameters: a chunk decoder for a whole-file record and one for a
single hand, both functions from text to an optional value.

Modules, in dependency order:

| module | file | models |
|---|---|---|
| `Text` | text.dfy | decimal text, `split`, `join`, ASCII case mapping, `replace` |
| `Money` | money.dfy | `fmt_money`, with an inverse parser |
| `CardText` | cards.dfy | `card`, `cards` |
| `Ohh` | ohh.dfy | the records; `name_by_id`, `seat_by_id` |
| `PlayerIds` | player_ids.dfy | `deserialize_player_id`, `deserialize_optional_player_id` |
| `Seats` | seats.dfy | `build_seats` and its stable sort |
| `Render` | render.dfy | `build_header`, `build_table`, `street_header`, `act_line_with_context` |
| `Rounds` | rounds.dfy | the round loop of `ohh_to_pokerstars_text` |
| `Summary` | summary.dfy | `summarize` |
| `Convert` | convert.dfy | `ohh_to_pokerstars_text`, `parse_ohh_chunks`, `convert_ohh_file` |

Three behaviours of the code shape the model:

- **The bet tracker.** It is one map for the whole hand, created before the
  round loop. Only the running amount and the "bet seen" flag restart with
  each street. Action numbers usually restart every street too. So a Bet or
  Raise that carries no amount is rendered against whatever entry an earlier
  street left under the same number (`Rounds.AmountlessUsesCarriedEntry`).
  That entry holds the running amount, the amount and the flag from just
  before the last amount-carrying Bet or Raise under the number, in
  whichever round it came (`Rounds.RenderRoundsState`).
- **Actions without an actor.** Every such action is dropped, whatever its
  kind, by the `?` on `player_id` at the top of `act_line_with_context`.
- **The whole-file record.** `parse_ohh_chunks` extends the list with
  `data.hands`, while `OhhFile` declares only an `ohh` field. The whole-file
  decoder is therefore modelled as giving a sequence of hands, which covers
  a single `ohh` as well.

## Model

| member | source | states |
|---|---|---|
| Money.GroupDigits | src-tauri/src/converter.rs:233-243 | The source's left-to-right comma loop computes the right-to-left grouping in threes, and removing the commas gives the digit string back. |
| Money.LoopGroupIsGroupThousands | src-tauri/src/converter.rs:237-242 | After a whole string, the loop's text (a comma before position `i > 0` when `len - i` is a multiple of 3) equals grouping the digits in threes from the right. |
| Money.RemoveCommasGroupThousands | src-tauri/src/converter.rs:233-246 | Grouping only inserts separators: deleting every comma restores the dollar digits. |
| Money.FmtMoney | src-tauri/src/converter.rs:228-254 | The result has at least five characters. It starts with `-` exactly for negative amounts. It ends with `.` and two digits. |
| Money.FmtMoneyCommas | src-tauri/src/converter.rs:233-246 | A `,` appears in the rendering exactly when the dollar part is at least 1000. |
| Money.ParseFmtMoney | src-tauri/src/converter.rs:228-254 | Reading back the sign, the dollars without commas and the cents gives every amount back, so the rendering is injective. |
| Money.FmtMoneyTenFifty | src-tauri/src/converter.rs:603 | 1050 cents render as `$10.50`. |
| Money.FmtMoneyThousand | src-tauri/src/converter.rs:604 | 100000 cents render as `$1,000.00`. |
| Money.FmtMoneyFiveCents | src-tauri/src/converter.rs:605 | 5 cents render as `$0.05`. |
| Money.FmtMoneyMinusFive | src-tauri/src/converter.rs:606 | -500 cents render as `-$5.00`, with the sign outside the `$`. |
| CardText.Card | src-tauri/src/converter.rs:256-262 | A code of two or more characters becomes exactly two characters: the first not lower-case, equal to the input's first up to case; the second not upper-case, equal to the input's second up to case. Shorter codes pass unchanged. |
| CardText.CardIdempotent | src-tauri/src/converter.rs:256-262 | Normalising a normalised card changes nothing. |
| CardText.SplitCards | src-tauri/src/converter.rs:264-266 | Splitting a rendered non-empty board on spaces gives the normalised cards back one by one, in order. |
| CardText.CardExamples | src-tauri/src/converter.rs:609-620 | `Ah` stays `Ah`, `td` becomes `Td`, `2c` stays `2c`, and `[Ah, Kd, Qc]` renders as `Ah Kd Qc`. |
| Text.JoinSplitOn | src-tauri/src/converter.rs:198 | Joining the chunks of a split with the separator restores the text: splitting the file loses nothing. |
| Text.IntToStringInjective | src-tauri/src/converter.rs:70-82 | Distinct integers have distinct decimal texts. |
| PlayerIds.DecodePlayerId | src-tauri/src/converter.rs:54-100 | Decoding succeeds exactly for strings and for integers that fit i64 or u64. A string is kept as is, and an integer's text reads back as that integer. |
| PlayerIds.IntAndStringIdsAgree | src-tauri/src/converter.rs:70-95 | An integer id and the string of its digits decode to the same id, and two integer ids decode alike only when they are equal. |
| PlayerIds.DecodeOptionalIdAsWritten | src-tauri/src/converter.rs:122-175 | A missing field gives no id, and an explicit `null` is a decoding error. Any other value succeeds exactly when the plain id decoder does, with the same id. |
| PlayerIds.DecodeOptionalId | src-tauri/src/converter.rs:138-143 | A missing field and an explicit `null` both give no id. Any other value decodes as the plain id decoder does. |
| PlayerIds.NullOptionalId | src-tauri/src/converter.rs:122-175 | The as-written and the intended decodings differ on `null` alone: the first fails, the second treats it like a missing field. |
| Ohh.FindPlayer | src-tauri/src/converter.rs:313-315 | The position found holds a player with that id and no earlier player has it. No position is found exactly when no player has the id. |
| Ohh.NameById | src-tauri/src/converter.rs:312-318 | The result is the name of the first player with that id, or `Unknown` when no player has it. |
| Ohh.SeatById | src-tauri/src/converter.rs:320-326 | The result is the seat of the first player with that id, or 0 when no player has it. |
| Ohh.LookupOwnId | src-tauri/src/converter.rs:312-326 | With distinct ids, every player is found under its own id, with its own name and seat. |
| Seats.SortBySeat | src-tauri/src/converter.rs:295-296 | The result is sorted by seat and is a permutation of the players. Players sharing a seat keep their record order, so the sort is stable. |
| Seats.SortedUnique | src-tauri/src/converter.rs:296 | Two seat-sorted lists with the same per-seat sublists are equal, so the three properties of the sort determine its result. |
| Seats.SeatLines | src-tauri/src/converter.rs:298-309 | One line per player, the `i`-th being the seat line of the `i`-th player in seat order. |
| Render.Timestamp | src-tauri/src/converter.rs:274-279 | The timestamp is the start time up to its first `.`, with every `T` turned into a space. It contains neither `.` nor `T`, and when it is shorter than the input the input continues with `.`. |
| Render.BuildHeader | src-tauri/src/converter.rs:268-285 | The header opens with the site, the game number and `Hold'em No Limit (`, and closes with the timestamp and ` UTC`. The two amounts between `(` and the currency read back as the small and big blind. The currency is the hand's own, or `USD` when it has none. |
| Render.BuildTable | src-tauri/src/converter.rs:287-292 | The table line opens with the quoted table name. The digits before `-max` read back as the table size, and the digits after `Seat #` as the dealer seat. It closes with `is the button`. |
| Render.StreetHeader | src-tauri/src/converter.rs:328-353 | Preflop prints `*** HOLE CARDS ***` and Showdown `*** SHOW DOWN ***`. Flop shows the round's cards. Turn shows the first three board cards and the fourth as two groups once the board has at least four cards, and the round's own cards otherwise. River does the same with four and the fifth once the board has at least five. Any other street gives the empty header, and only those do. |
| Render.HeaderStreetInverse | src-tauri/src/converter.rs:328-353 | Reading the street back from its header's opening tag gives the street, for any cards, so the headers of different streets never coincide. |
| Render.StandardBoardHeaders | src-tauri/src/converter.rs:332-349 | Example: on a three-card flop followed by one turn card and one river card, Turn and River show the earlier board and the new card as two bracketed groups. |
| Render.ActLine | src-tauri/src/converter.rs:355-443 | There is no line exactly when the action has no actor, has an unknown kind, or is a Dealt Cards that is not shown. Posts read `posts small blind`, `posts big blind` or `posts the ante` and the amount. A shown deal reads `Dealt to <name> [c1 c2]`. Shows Cards reads `shows [c1 c2]` with two or more cards, and plain `shows` otherwise. Fold, Check and Muck read `folds`, `checks` and `mucks hand`. A Call reads `calls`, the amount and the all-in suffix. A Bet or Raise is the aggressive line against the tracker entry under its own number. A missing amount reads as zero. |
| Render.AggressiveText | src-tauri/src/converter.rs:397-426 | For a tracker entry with previous bet `prev` and bet flag, the line reads `<name>: raises <m> to <amount><suffix>` exactly when `prev` is positive and the action is a Raise, or a Bet whose entry has the flag set. Then `m` reads back as the amount minus `prev`. Otherwise it reads `<name>: bets <amount><suffix>`. |
| Render.AggressiveLine | src-tauri/src/converter.rs:397-426 | The line starts `<name>: raises ` exactly when the tracker has an entry for the action and the action raises over it. It always ends with the amount and the suffix. With an entry it is the entry-field line above. Without one it reads `<name>: bets <amount><suffix>`. |
| Render.RaiseExample | src-tauri/src/converter.rs:412-423 | A Raise to $0.30 over a tracked $0.10, as in the raise test's big-blind raise, reads `raises $0.20 to $0.30`. |
| Render.AllinSuffixIff | src-tauri/src/converter.rs:364-368 | A line ends with ` and is all-in` exactly when it is a Call, Bet or Raise whose all-in flag is set. |
| Rounds.Track | src-tauri/src/converter.rs:510-526 | The bookkeeping before rendering never touches the line buckets. |
| Rounds.StepBucket | src-tauri/src/converter.rs:528-534 | A line goes to the blinds bucket for a Post, to the dealt bucket for Dealt Cards, and to the other bucket otherwise. An action without a line changes no bucket. |
| Rounds.StepAppends | src-tauri/src/converter.rs:528-534 | Each action adds at most one line, at the end of a bucket, so each bucket keeps the original order. |
| Rounds.BaselineIsLatest | src-tauri/src/converter.rs:511-518 | The reference baseline is the amount of the last Post, Bet or Raise carrying one, or 0 when there is none. |
| Rounds.ScanRunningValues | src-tauri/src/converter.rs:502-526 | After any prefix of a round, the running amount equals the reference baseline. The bet flag holds exactly when a Bet or Raise with an amount occurred. |
| Rounds.ScanTrackerKeys | src-tauri/src/converter.rs:520-521 | Scanning a round adds exactly the action numbers of its Bets and Raises that carry an amount, and keeps every key the tracker had. |
| Rounds.ScanTrackerFrame | src-tauri/src/converter.rs:510-524 | An entry whose number no amount-carrying Bet or Raise of the round uses keeps its value through the round. |
| Rounds.ScanTrackerLast | src-tauri/src/converter.rs:516-521 | After a round, the entry under a number holds the running amount before the last amount-carrying Bet or Raise with that number, that action's amount, and whether an earlier such action came in the round. |
| Rounds.ReconstructedLine | src-tauri/src/converter.rs:397-426 | Defined from the earlier actions alone, the line reads `raises <m> to <amount><suffix>` exactly when the baseline is positive and the action is a Raise or follows an earlier Bet or Raise. Then `m` reads back as the amount minus the baseline. Otherwise it reads `bets <amount><suffix>`. |
| Rounds.RaiseReconstruction | src-tauri/src/converter.rs:510-534 | The loop appends to the other bucket, for every Bet or Raise with an actor and an amount, exactly the line reconstructed from the round's earlier actions, whatever tracker was carried in. |
| Rounds.StepAggressive | src-tauri/src/converter.rs:516-528 | A Bet or Raise with an actor and an amount appends to the "other" bucket the line rendered against the running amount and bet flag from before it, and nothing else. |
| Rounds.RaiseOverPost | src-tauri/src/converter.rs:412-423 | A Raise straight after a Post with a positive amount reads `raises <m> to <amount>`, where `m` reads back as the amount minus the posted amount. |
| Rounds.FirstBetBets | src-tauri/src/converter.rs:397-410 | A Bet with no earlier amount-carrying Bet or Raise in its round reads exactly `<name>: bets <amount><suffix>`, whatever the blinds posted. |
| Rounds.AmountlessUsesCarriedEntry | src-tauri/src/converter.rs:494-528 | A Bet or Raise without an amount leaves the state alone. Its line is built against whatever entry its number already has, with amount zero. |
| Rounds.Arrange | src-tauri/src/converter.rs:537-569 | Without a header, the lines are the blinds, dealt and other buckets in that order. With one, the header is inserted after the blinds on Preflop and first on other streets. |
| Rounds.RenderRoundsState | src-tauri/src/converter.rs:493-524 | After any number of rounds, the cumulative board is every round's cards in order. The tracker holds an entry for each amount-carrying Bet or Raise of every earlier round. Each entry is the one its number's last such action wrote, with that round's running amount and flag from before it. |
| Rounds.RenderRoundsEntry | src-tauri/src/converter.rs:494-524 | The same entry value for one action: a later round either writes the number again or leaves its entry untouched. |
| Summary.BoardCards | src-tauri/src/converter.rs:454-459 | The summary board never has more cards than the cumulative board. |
| Summary.BoardCardsAll | src-tauri/src/converter.rs:454-459 | When only Flop, Turn and River rounds reveal cards, the summary board is the whole cumulative board. |
| Summary.BoardCardsSkip | src-tauri/src/converter.rs:456-458 | A round on any other street contributes nothing to the summary board. |
| Summary.WinLines | src-tauri/src/converter.rs:472-481 | One line per winner of the pot, in the pot's order. |
| Summary.SummaryLines | src-tauri/src/converter.rs:445-484 | With no pot, the block is the fixed two lines. Otherwise the first pot's block has the header first and the total and rake second. The board line comes third exactly when the board is non-empty. The winners follow in the pot's order. |
| Summary.NoPotMatchesEmptyPot | src-tauri/src/converter.rs:446-448 | The fixed no-pot block is what an empty zero pot prints when there is no board. With a board, it lacks the board line the pot form shows. |
| Summary.TotalLineZero | src-tauri/src/converter.rs:447 | A zero total and a zero rake print as the no-pot total line. |
| Summary.NoPotSummary | src-tauri/src/converter.rs:446-448 | With no pot, the summary is the header, a newline and the zero total line. |
| Summary.FirstPotOnly | src-tauri/src/converter.rs:450 | Pots after the first never change the summary. |
| Convert.LayoutFrame | src-tauri/src/converter.rs:487-574 | The text opens with the header, table and seat blocks, one per line, and closes with a newline and the summary block. |
| Convert.LayoutLines | src-tauri/src/converter.rs:487-574 | When the seat and summary blocks are non-empty lists of lines, the text is a single list of lines. |
| Convert.HandTextFrame | src-tauri/src/converter.rs:486-575 | A hand's text starts with its header and table lines and ends with its summary. |
| Convert.HandTextLines | src-tauri/src/converter.rs:486-575 | With at least one player, a hand's text is header, table, seat lines, round lines and summary lines, joined by newlines. |
| Convert.NoPlayersBlankLine | src-tauri/src/converter.rs:491 | A hand without players has an empty line after the table line, because the empty seat block still takes a line. |
| Convert.CollectAppend | src-tauri/src/converter.rs:198-219 | The hands of two runs of chunks are the hands of the first run followed by those of the second. |
| Convert.SkipUnreadable | src-tauri/src/converter.rs:211-216 | A chunk neither reader accepts is dropped without affecting the others. |
| Convert.ParseChunks | src-tauri/src/converter.rs:194-226 | The result is an error, with the fixed message, exactly when no chunk yields a hand. Otherwise it is every hand of every readable chunk, in order. |
| Convert.Texts | src-tauri/src/converter.rs:589 | One text per hand, in hand order. |
| Convert.JoinOneHand | src-tauri/src/converter.rs:591 | A single hand converts to its own text, with no separator. |
| Convert.JoinHandsAppend | src-tauri/src/converter.rs:591 | Converting more hands appends their text after one more three-blank-line separator. |
| Convert.ConvertFile | src-tauri/src/converter.rs:577-595 | A parse error passes through unchanged. Otherwise the result is every parsed hand's text, separated by three blank lines. |

## Left out

- The desktop UI (`src/app.rs`), the Tauri command layer (`src-tauri/src/lib.rs`) and the example and test drivers: they only move text in and out of the converter. They are not part of this model.
- serde's derived JSON decoding of `OhhFile` and `OhhHand` is not modelled, and neither is the `"unknown"` default it fills in for a missing `game_number`. It is a library, so the two decoders are parameters of `Convert.ParseChunks` and `Convert.ConvertFile`. Only the two hand-written player-id visitors are modelled.
- Logging, the chunk preview, and the byte counts in log messages do not affect any result.
- Record fields the converter never reads (`spec_version`, `game_type`, `bet_limit`, `table_handle`, `site_name`, `network_name`, `display`, `player_bounty`, `number`, `jackpot`, `contributed_rake`, a round's `id`) are not in the datatypes.
- Money.FmtMoney: amounts are integer cents, not `f64`. Truncating to dollars and rounding the cents are not modelled, so neither are their artefacts: a rounded cent part of 100 printing as `.100`, `-0.0`, NaN, and saturation of `as i64`.
- CardText.Card: case mapping is ASCII only, while Rust's `to_uppercase` and `to_lowercase` are Unicode-aware. The byte slices `c[0..1]` and `c[1..2]` panic when the first or the second character is wider than one byte; for `"Aé"` the length is 3 and byte 2 is not a character boundary, yet the model returns the two characters `Aé`. Neither the Unicode mapping nor the panics are modelled.
- Convert.ConvertFile: the `hands.is_empty()` branch after a successful parse is not modelled as a path of its own. `Convert.ParseChunks` proves that a successful parse always holds a hand, so the branch cannot be taken.
- The ignored test that converts a sample file from disk needs file I/O and is not modelled.
- The JSON-input unit tests are not modelled end to end, because the decoders are parameters. Their raise expectation is `Rounds.RaiseOverPost`.

## Findings

| source | as written | input that shows it | evidently intended | confidence | as-written member | corrected member |
|---|---|---|---|---|---|---|
| src-tauri/src/converter.rs:122-175 | `deserialize_optional_player_id` calls `deserialize_any`, which reports JSON `null` as a unit value. The visitor has no `visit_unit`, so decoding fails and the whole hand is skipped; `visit_none` is never reached. | an action with `"player_id": null` | `null` means "no actor", exactly like a missing field, as `visit_none` shows | not executed | PlayerIds.DecodeOptionalIdAsWritten | PlayerIds.DecodeOptionalId |
