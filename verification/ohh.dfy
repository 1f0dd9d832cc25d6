/** The decoded Open Hand History records and the player lookups the
    renderer uses. Money amounts are integer cents. */
module Ohh {
  import opened Text

  type U8 = x: nat | x < 256
  type U32 = x: nat | x < 0x1_0000_0000

  datatype Player = Player(id: string, seat: U8, name: string, startingStack: int)

  datatype Action = Action(
    actionNumber: U32,
    playerId: Option<string>,
    kind: string,
    amount: Option<int>,
    isAllin: Option<bool>,
    cards: Option<seq<string>>)

  /** One street: the board cards revealed on it (not cumulative) and its
      actions in order. */
  datatype Round = Round(street: string, cards: seq<string>, actions: seq<Action>)

  datatype PlayerWin = PlayerWin(playerId: string, winAmount: int)

  datatype Pot = Pot(amount: int, rake: int, playerWins: seq<PlayerWin>)

  datatype Hand = Hand(
    gameNumber: string,
    smallBlind: int,
    bigBlind: int,
    currency: Option<string>,
    startDateUtc: string,
    tableName: string,
    tableSize: U8,
    dealerSeat: U8,
    heroPlayerId: Option<string>,
    players: seq<Player>,
    rounds: seq<Round>,
    pots: seq<Pot>)

  /** Position of the first player with the given id. */
  function FindPlayer(players: seq<Player>, pid: string): (r: Option<nat>)
    ensures r.Some? ==> r.value < |players| && players[r.value].id == pid
    ensures r.Some? ==> forall j :: 0 <= j < r.value ==> players[j].id != pid
    ensures r.None? <==> forall j :: 0 <= j < |players| ==> players[j].id != pid
    decreases |players|
  {
    if |players| == 0 then None
    else if players[0].id == pid then Some(0)
    else
      match FindPlayer(players[1..], pid)
      case None => None
      case Some(i) => Some(i + 1)
  }

  /** Player `i` is the first whose id is `pid`. */
  predicate FirstWithId(players: seq<Player>, pid: string, i: nat)
  {
    i < |players| && players[i].id == pid && forall j :: 0 <= j < i ==> players[j].id != pid
  }

  /** `name_by_id`: the name of the first player with this id, else
      "Unknown". */
  function NameById(players: seq<Player>, pid: string): (r: string)
    ensures (forall j :: 0 <= j < |players| ==> players[j].id != pid) ==> r == "Unknown"
    ensures forall i: nat :: FirstWithId(players, pid, i) ==> r == players[i].name
  {
    match FindPlayer(players, pid)
    case Some(i) => players[i].name
    case None => "Unknown"
  }

  /** `seat_by_id`: the seat of the first player with this id, else 0. */
  function SeatById(players: seq<Player>, pid: string): (r: U8)
    ensures (forall j :: 0 <= j < |players| ==> players[j].id != pid) ==> r == 0
    ensures forall i: nat :: FirstWithId(players, pid, i) ==> r == players[i].seat
  {
    match FindPlayer(players, pid)
    case Some(i) => players[i].seat
    case None => 0
  }

  predicate UniqueIds(players: seq<Player>)
  {
    forall i, j :: 0 <= i < j < |players| ==> players[i].id != players[j].id
  }

  /** With distinct ids every player is found under its own id. */
  lemma LookupOwnId(players: seq<Player>, i: nat)
    requires i < |players| && UniqueIds(players)
    ensures NameById(players, players[i].id) == players[i].name
    ensures SeatById(players, players[i].id) == players[i].seat
  {
  }
}
