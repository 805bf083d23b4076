/**
 The hold'em table (`table.hpp`, `table.cpp`) as a value, and what each of its
 operations does to that value.
 */
module TableModel {
  import opened Wrappers
  import opened Sums
  import opened Cards
  import opened HandValues
  import opened HandEvaluator
  import opened Clockwise
  import Pots

  type PlayerId = nat

  datatype Street = Waiting | Preflop | Flop | Turn | River | Showdown | Settled

  /** `Idle` is the source's `PlayerStatus::waiting`. */
  datatype Status = Idle | Active | Folded | AllIn | Disconnected

  datatype ActionType = Fold | Check | Call | Bet | Raise | GoAllIn

  datatype TableError =
    | Ok | InvalidConfiguration | SeatOutOfRange | SeatOccupied | PlayerAlreadySeated
    | PlayerNotFound | InvalidBuyIn | HandInProgress | NotEnoughPlayers
    | NotPlayersTurn | PlayerCannotAct | ActionNotAllowed | InvalidAmount | MinimumRaiseNotMet

  datatype Config = Config(
    minPlayers: nat, maxPlayers: nat, smallBlind: int, bigBlind: int, minBuyIn: int, maxBuyIn: int)

  datatype Player = Player(
    id: PlayerId, seat: nat, stack: int, streetCommitment: int, handCommitment: int,
    status: Status, ready: bool, connected: bool, hole: (Card, Card), hasHole: bool)

  datatype PotAward = PotAward(potSize: int, winners: seq<PlayerId>, equalShare: int, oddChips: int)

  datatype ActionCommand = ActionCommand(playerId: PlayerId, action: ActionType, amount: int)

  datatype ActionResult = ActionResult(
    error: TableError, serverSequence: nat, awards: seq<PotAward>, actionStreet: Street)

  datatype DeckState = DeckState(cards: seq<Card>, next: nat)

  type Seats = seq<Option<Player>>

  datatype State = State(
    config: Config, seats: Seats, street: Street, dealerSeat: Option<nat>, actingSeat: Option<nat>,
    currentBet: int, minimumRaise: int, pending: set<PlayerId>, raiseAllowed: set<PlayerId>,
    board: seq<Card>, deck: Option<DeckState>, handId: nat, serverSequence: nat, lastAwards: seq<PotAward>)

  datatype Outcome = Outcome(state: State, error: TableError)

  datatype ActOutcome = ActOutcome(state: State, result: ActionResult)

  predicate ConfigOk(c: Config) {
    && 2 <= c.minPlayers <= c.maxPlayers <= 6
    && 0 < c.smallBlind
    && c.smallBlind * 2 <= c.bigBlind
    && 0 < c.minBuyIn <= c.maxBuyIn
  }

  predicate HandRunning(st: Street) {
    st in {Preflop, Flop, Turn, River, Showdown}
  }

  /** The streets on which players can be asked to act. */
  predicate Betting(st: Street) {
    st in {Preflop, Flop, Turn, River}
  }

  // ---------- seats ----------

  predicate Taken(seats: Seats, i: int) {
    0 <= i < |seats| && seats[i].Some?
  }

  predicate CanAct(p: Player) {
    p.status == Active && p.stack > 0
  }

  predicate IsContender(p: Player) {
    p.status in {Active, AllIn, Disconnected}
  }

  predicate IsParticipant(p: Player) {
    p.status in {Active, AllIn, Folded}
  }

  predicate IsReady(p: Player) {
    p.ready && p.stack > 0
  }

  ghost function Able(seats: Seats): set<nat> {
    set i: nat | i < |seats| && Taken(seats, i) && CanAct(seats[i].value)
  }

  ghost function Contenders(seats: Seats): set<nat> {
    set i: nat | i < |seats| && Taken(seats, i) && IsContender(seats[i].value)
  }

  ghost function Participants(seats: Seats): set<nat> {
    set i: nat | i < |seats| && Taken(seats, i) && IsParticipant(seats[i].value)
  }

  ghost function ReadySeats(seats: Seats): set<nat> {
    set i: nat | i < |seats| && Taken(seats, i) && IsReady(seats[i].value)
  }

  ghost function AbleIds(seats: Seats): set<PlayerId> {
    set i: nat | i < |seats| && Taken(seats, i) && CanAct(seats[i].value) :: seats[i].value.id
  }

  /** Seats that can act and still owe a decision. */
  ghost function Deciders(s: State): set<nat> {
    set i: nat | i < |s.seats| && Taken(s.seats, i) && CanAct(s.seats[i].value) && s.seats[i].value.id in s.pending
  }

  ghost predicate HasId(seats: Seats, i: int, id: PlayerId) {
    Taken(seats, i) && seats[i].value.id == id
  }

  ghost function SeatOf(seats: Seats, id: PlayerId): (r: Option<nat>)
    ensures r.Some? ==> HasId(seats, r.value, id) && forall j :: 0 <= j < r.value ==> !HasId(seats, j, id)
    ensures r.None? ==> forall j :: !HasId(seats, j, id)
  {
    FirstSeatOf(seats, id, 0)
  }

  function FirstSeatOf(seats: Seats, id: PlayerId, from: nat): (r: Option<nat>)
    requires from <= |seats|
    ensures r.Some? ==> from <= r.value && HasId(seats, r.value, id)
    ensures r.Some? ==> forall j :: from <= j < r.value ==> !HasId(seats, j, id)
    ensures r.None? ==> forall j :: from <= j ==> !HasId(seats, j, id)
    decreases |seats| - from
  {
    if from == |seats| then None
    else if seats[from].Some? && seats[from].value.id == id then Some(from)
    else FirstSeatOf(seats, id, from + 1)
  }

  ghost function Stacks(seats: Seats): (r: seq<int>)
    ensures |r| == |seats|
  {
    seq(|seats|, i requires 0 <= i < |seats| => if seats[i].Some? then seats[i].value.stack else 0)
  }

  ghost function Commitments(seats: Seats): (r: seq<int>)
    ensures |r| == |seats|
  {
    seq(|seats|, i requires 0 <= i < |seats| => if seats[i].Some? then seats[i].value.handCommitment else 0)
  }

  ghost function PotSize(seats: Seats): int {
    Sum(Commitments(seats))
  }

  ghost function TotalChips(s: State): int {
    Sum(Stacks(s.seats)) + if s.street == Settled then 0 else PotSize(s.seats)
  }

  // ---------- seating ----------

  ghost function NewTable(c: Config): State {
    State(c, seq(c.maxPlayers, _ => None), Waiting, None, None, 0, c.bigBlind, {}, {}, [], None, 0, 0, [])
  }

  function NewPlayer(id: PlayerId, seat: nat, buyIn: int): Player {
    Player(id, seat, buyIn, 0, 0, Idle, false, true, (DEFAULT_CARD, DEFAULT_CARD), false)
  }

  ghost function SeatPlayer(s: State, id: PlayerId, seat: nat, buyIn: int): Outcome {
    if !ConfigOk(s.config) then Outcome(s, InvalidConfiguration)
    else if HandRunning(s.street) then Outcome(s, HandInProgress)
    else if seat >= |s.seats| then Outcome(s, SeatOutOfRange)
    else if SeatOf(s.seats, id).Some? then Outcome(s, PlayerAlreadySeated)
    else if s.seats[seat].Some? then Outcome(s, SeatOccupied)
    else if buyIn < s.config.minBuyIn || buyIn > s.config.maxBuyIn then Outcome(s, InvalidBuyIn)
    else Outcome(s.(seats := s.seats[seat := Some(NewPlayer(id, seat, buyIn))],
                    serverSequence := s.serverSequence + 1), Ok)
  }

  ghost function RemovePlayer(s: State, id: PlayerId): Outcome {
    var seat := SeatOf(s.seats, id);
    if seat.None? then Outcome(s, PlayerNotFound)
    else if HandRunning(s.street) && s.seats[seat.value].value.status != Idle then Outcome(s, HandInProgress)
    else Outcome(s.(seats := s.seats[seat.value := None],
                    dealerSeat := if s.dealerSeat == seat then None else s.dealerSeat,
                    serverSequence := s.serverSequence + 1), Ok)
  }

  ghost function SetReady(s: State, id: PlayerId, ready: bool): Outcome {
    var seat := SeatOf(s.seats, id);
    if HandRunning(s.street) then Outcome(s, HandInProgress)
    else if seat.None? then Outcome(s, PlayerNotFound)
    else if ready && s.seats[seat.value].value.stack <= 0 then Outcome(s, InvalidBuyIn)
    else Outcome(s.(seats := s.seats[seat.value := Some(s.seats[seat.value].value.(ready := ready))],
                    serverSequence := s.serverSequence + 1), Ok)
  }

  ghost function SetConnected(s: State, id: PlayerId, connected: bool): Outcome {
    var seat := SeatOf(s.seats, id);
    if seat.None? then Outcome(s, PlayerNotFound)
    else Outcome(s.(seats := s.seats[seat.value := Some(s.seats[seat.value].value.(connected := connected))],
                    serverSequence := s.serverSequence + 1), Ok)
  }

  // ---------- cards on each street ----------

  function BoardSize(st: Street): nat {
    match st
    case Flop => 3
    case Turn => 4
    case River => 5
    case _ => 0
  }

  /** Cards taken from the deck, burns included, with `m` players dealt in. */
  function CardsUsed(st: Street, m: nat): nat {
    2 * m + match st
            case Flop => 4
            case Turn => 6
            case River => 8
            case _ => 0
  }

  function StreetsLeft(st: Street): nat {
    match st
    case Preflop => 3
    case Flop => 2
    case Turn => 1
    case _ => 0
  }

  // ---------- the invariant ----------

  ghost predicate DistinctIds(seats: Seats) {
    forall i, j :: 0 <= i < j < |seats| && seats[i].Some? && seats[j].Some? ==>
                     seats[i].value.id != seats[j].value.id
  }

  /** The seats are well formed, whatever the table is doing. */
  ghost predicate SeatsOk(s: State) {
    && |s.seats| == s.config.maxPlayers
    && DistinctIds(s.seats)
    && (forall i :: Taken(s.seats, i) ==> s.seats[i].value.seat == i)
    && (s.dealerSeat.Some? ==> s.dealerSeat.value < |s.seats|)
    && ((exists i :: Taken(s.seats, i)) ==> ConfigOk(s.config))
  }

  /** A seated player while a hand is being bet. */
  ghost predicate PlayerOk(p: Player) {
    && 0 <= p.streetCommitment <= p.handCommitment
    && match p.status
       case Idle => p.handCommitment == 0 && !p.hasHole
       case Active => p.stack > 0 && p.hasHole
       case Folded => p.stack >= 0 && p.hasHole
       case AllIn => p.stack == 0 && p.hasHole
       case Disconnected => false
  }

  ghost predicate Unmatched(s: State, i: int) {
    Taken(s.seats, i) && CanAct(s.seats[i].value) && s.seats[i].value.streetCommitment != s.currentBet
  }

  /** The deck holds 52 cards, those of the earlier streets are used up, the board has the street's size. */
  ghost predicate DeckOk(s: State) {
    && s.deck.Some?
    && |s.deck.value.cards| == 52
    && 2 <= |Participants(s.seats)| <= 6
    && s.deck.value.next == CardsUsed(s.street, |Participants(s.seats)|)
    && |s.board| == BoardSize(s.street)
  }

  /** The current bet is the largest commitment on this street. */
  ghost predicate BetOk(s: State) {
    && 0 <= s.currentBet
    && (forall i :: Taken(s.seats, i) ==> s.seats[i].value.streetCommitment <= s.currentBet)
    && (s.currentBet > 0 ==> exists i :: Taken(s.seats, i) && s.seats[i].value.streetCommitment == s.currentBet)
    && s.config.bigBlind <= s.minimumRaise
  }

  ghost predicate SetsOk(s: State) {
    && s.pending <= AbleIds(s.seats)
    && s.raiseAllowed <= s.pending
    && (s.currentBet == 0 ==> s.pending == s.raiseAllowed)
    && (forall i :: Unmatched(s, i) ==> s.seats[i].value.id in s.pending)
  }

  /** What holds throughout a hand except, for a moment, who is to act. */
  ghost predicate InHand(s: State) {
    && SeatsOk(s)
    && ConfigOk(s.config)
    && Betting(s.street)
    && (forall i :: Taken(s.seats, i) ==> PlayerOk(s.seats[i].value))
    && BetOk(s)
    && DeckOk(s)
    && s.dealerSeat.Some? && s.dealerSeat.value in Participants(s.seats)
    && Contenders(s.seats) != {}
    && s.lastAwards == []
  }

  /** Somebody is to act, can act and owes a decision. */
  ghost predicate Deciding(s: State) {
    && InHand(s)
    && SetsOk(s)
    && |Contenders(s.seats)| >= 2
    && s.actingSeat.Some? && s.actingSeat.value in Deciders(s)
  }

  /** One player could act but has not matched the bet, and nobody is asked to. */
  ghost predicate Stuck(s: State) {
    && InHand(s)
    && s.pending == {} && s.actingSeat.None?
    && |Contenders(s.seats)| >= 2
    && s.street == Preflop
    && exists i :: Able(s.seats) == {i} && Unmatched(s, i)
  }

  /** No hand is in progress. */
  ghost predicate Resting(s: State) {
    && SeatsOk(s)
    && s.street in {Waiting, Settled}
    && s.actingSeat.None? && s.pending == {} && s.raiseAllowed == {} && s.currentBet == 0
    && (s.street == Waiting ==> s.lastAwards == [] && s.board == [] && s.deck.None?)
    && (forall i :: Taken(s.seats, i) ==>
                      var p := s.seats[i].value;
                      && p.handCommitment >= 0
                      && (s.street == Waiting || p.status == Idle ==> p.handCommitment == 0 && !p.hasHole))
  }

  ghost predicate Inv(s: State) {
    Resting(s) || Deciding(s) || Stuck(s)
  }

  // ---------- starting a hand ----------

  function Enter(p: Player): Player {
    p.(streetCommitment := 0, handCommitment := 0, hasHole := false, status := if IsReady(p) then Active else Idle)
  }

  ghost function EnterAll(seats: Seats): (r: Seats)
    ensures |r| == |seats|
  {
    seq(|seats|, i requires 0 <= i < |seats| => if seats[i].Some? then Some(Enter(seats[i].value)) else None)
  }

  ghost function IndexOf(o: seq<nat>, x: nat): (r: nat)
    requires x in o
    ensures r < |o| && o[r] == x
  {
    if o[0] == x then 0 else 1 + IndexOf(o[1..], x)
  }

  /** Two rounds of one card each, in the given clockwise order. */
  ghost function DealHoles(seats: Seats, order: seq<nat>, cards: seq<Card>): (r: Seats)
    requires 2 * |order| <= |cards|
    ensures |r| == |seats|
  {
    seq(|seats|, i requires 0 <= i < |seats| =>
      if seats[i].Some? && i in order then
        var k := IndexOf(order, i);
        Some(seats[i].value.(hole := (cards[k], cards[|order| + k]), hasHole := true))
      else seats[i])
  }

  function PostBlind(p: Player, blind: int): Player {
    var payment := Min(blind, p.stack);
    var q := p.(stack := p.stack - payment,
                streetCommitment := p.streetCommitment + payment,
                handCommitment := p.handCommitment + payment);
    if q.stack == 0 then q.(status := AllIn) else q
  }

  /** The dealer button: the next participant clockwise, or the lowest seat when there was none. */
  ghost function NextDealer(s: State): (r: nat)
    requires SeatsOk(s) && ReadySeats(s.seats) != {}
    ensures r in ReadySeats(s.seats)
  {
    var n := |s.seats|;
    var from := if s.dealerSeat.Some? then s.dealerSeat.value else n - 1;
    var i :| i in ReadySeats(s.seats);
    Next(ReadySeats(s.seats), n, from).value
  }

  /** Enough seats are ready and there are cards for them. */
  ghost predicate CanOpen(s: State, cards: seq<Card>) {
    SeatsOk(s) && ReadySeats(s.seats) != {} && |cards| == 52 && |ReadySeats(s.seats)| <= 6
  }

  /** The seats after the reset and the deal, before the blinds. */
  ghost function DealtSeats(s: State, dealer: nat, cards: seq<Card>): (r: Seats)
    requires CanOpen(s, cards) && dealer in ReadySeats(s.seats)
    ensures |r| == |s.seats|
    ensures forall i :: Taken(s.seats, i) ==> Taken(r, i)
  {
    var order := Order(ReadySeats(s.seats), |s.seats|, dealer);
    OrderSize(ReadySeats(s.seats), |s.seats|, dealer);
    DealHoles(EnterAll(s.seats), order, cards)
  }

  ghost function SmallBlindSeat(ready: set<nat>, n: nat, dealer: nat): (r: nat)
    requires dealer < n && dealer in ready
    ensures r < n && r in ready
  {
    if |ready| > 2 then Next(ready, n, dealer).value else dealer
  }

  ghost function BigBlindSeat(ready: set<nat>, n: nat, dealer: nat): (r: nat)
    requires dealer < n && dealer in ready
    ensures r < n && r in ready
  {
    Next(ready, n, SmallBlindSeat(ready, n, dealer)).value
  }

  ghost function BlindedSeats(seats: Seats, sb: nat, bb: nat, c: Config): (r: Seats)
    requires Taken(seats, sb) && Taken(seats, bb)
    ensures |r| == |seats|
  {
    var posted := seats[sb := Some(PostBlind(seats[sb].value, c.smallBlind))];
    posted[bb := Some(PostBlind(posted[bb].value, c.bigBlind))]
  }

  ghost function InitialActor(s: State, dealer: nat, bb: nat, m: nat): Option<nat>
    requires dealer < |s.seats| && bb < |s.seats|
  {
    if m == 2 then
      if dealer in Deciders(s) then Some(dealer) else Next(Deciders(s), |s.seats|, dealer)
    else Next(Deciders(s), |s.seats|, bb)
  }

  /** The button and the two blind seats of a hand. */
  datatype Positions = Positions(dealer: nat, small: nat, big: nat)

  /** The positions of the hand that would start now. */
  ghost function PositionsOf(s: State): (r: Positions)
    requires SeatsOk(s) && ReadySeats(s.seats) != {}
    ensures {r.dealer, r.small, r.big} <= ReadySeats(s.seats)
  {
    var ready := ReadySeats(s.seats);
    var dealer := NextDealer(s);
    Positions(dealer, SmallBlindSeat(ready, |s.seats|, dealer), BigBlindSeat(ready, |s.seats|, dealer))
  }

  /** The seats with the cards dealt and the blinds posted. */
  ghost function PostedSeats(s: State, cards: seq<Card>): (r: Seats)
    requires CanOpen(s, cards)
    ensures |r| == |s.seats| && Taken(r, PositionsOf(s).small) && Taken(r, PositionsOf(s).big)
  {
    var at := PositionsOf(s);
    BlindedSeats(DealtSeats(s, at.dealer, cards), at.small, at.big, s.config)
  }

  /** The table around the dealt seats, nobody asked to act yet. */
  ghost function Posted(s: State, seats: Seats, at: Positions, cards: seq<Card>): State
    requires Taken(seats, at.small) && Taken(seats, at.big)
  {
    var able := AbleIds(seats);
    s.(seats := seats, street := Preflop, dealerSeat := Some(at.dealer), actingSeat := None,
       currentBet := Max(seats[at.small].value.streetCommitment, seats[at.big].value.streetCommitment),
       minimumRaise := s.config.bigBlind, pending := able, raiseAllowed := able,
       board := [], deck := Some(DeckState(cards, 2 * |ReadySeats(s.seats)|)), lastAwards := [],
       handId := s.handId + 1, serverSequence := s.serverSequence + 1)
  }

  /** Everyone who can act owes a decision, and the first of them is asked for it. */
  ghost function Asked(t: State, at: Positions, m: nat): State
    requires at.dealer < |t.seats| && at.big < |t.seats|
  {
    t.(actingSeat := InitialActor(t, at.dealer, at.big, m))
  }

  ghost function Opened(s: State, cards: seq<Card>): (t: State)
    requires CanOpen(s, cards)
    ensures |t.seats| == |s.seats|
  {
    var at := PositionsOf(s);
    Asked(Posted(s, PostedSeats(s, cards), at, cards), at, |ReadySeats(s.seats)|)
  }

  // ---------- settlement ----------

  function AwardedTo(awards: seq<PotAward>, id: PlayerId): int {
    if awards == [] then 0
    else Pots.Portion(awards[0].winners, awards[0].equalShare, awards[0].oddChips, id) + AwardedTo(awards[1..], id)
  }

  ghost function PaidSeats(seats: Seats, awards: seq<PotAward>): (r: Seats)
    ensures |r| == |seats|
  {
    seq(|seats|, i requires 0 <= i < |seats| =>
      if seats[i].Some? then
        var p := seats[i].value;
        Some(p.(stack := p.stack + AwardedTo(awards, p.id), ready := false))
      else None)
  }

  ghost function Settle(s: State, awards: seq<PotAward>): State {
    s.(seats := PaidSeats(s.seats, awards), street := Settled, actingSeat := None, pending := {},
       raiseAllowed := {}, currentBet := 0, lastAwards := awards, serverSequence := s.serverSequence + 1)
  }

  /** The lowest seat that has not folded. */
  ghost function FirstContender(seats: Seats): (r: nat)
    requires Contenders(seats) != {}
    ensures r in Contenders(seats) && forall i :: i in Contenders(seats) ==> r <= i
  {
    var some :| some in Contenders(seats);
    var first := Next(Contenders(seats), |seats|, |seats| - 1).value;
    assert forall i :: i in Contenders(seats) ==> first <= i by {
      forall i | i in Contenders(seats)
        ensures first <= i
      {
        NextNearest(Contenders(seats), |seats|, |seats| - 1, i);
      }
    }
    first
  }

  ghost function FoldAwards(seats: Seats, winner: nat): seq<PotAward>
    requires Taken(seats, winner)
  {
    [PotAward(PotSize(seats), [seats[winner].value.id], PotSize(seats), 0)]
  }

  /** Everybody but one has folded: the one left takes the whole pot. */
  ghost function FoldWin(s: State): State
    requires Contenders(s.seats) != {}
  {
    Settle(s, FoldAwards(s.seats, FirstContender(s.seats)))
  }

  ghost function EntryOf(seat: Option<Player>, board: seq<Card>): Pots.Entry {
    if seat.None? then Pots.Entry(0, false, DEFAULT_VALUE)
    else
      var p := seat.value;
      var live := p.status != Folded && p.status != Idle;
      Pots.Entry(p.handCommitment, live, if live then BestValue(ToSet(board + [p.hole.0, p.hole.1])) else DEFAULT_VALUE)
  }

  ghost function Entries(seats: Seats, board: seq<Card>): (r: seq<Pots.Entry>)
    ensures |r| == |seats|
  {
    seq(|seats|, i requires 0 <= i < |seats| => EntryOf(seats[i], board))
  }

  ghost function Ids(seats: Seats, winners: seq<nat>): (r: seq<PlayerId>)
    requires forall k :: 0 <= k < |winners| ==> Taken(seats, winners[k])
    ensures |r| == |winners|
  {
    seq(|winners|, k requires 0 <= k < |winners| && Taken(seats, winners[k]) => seats[winners[k]].value.id)
  }

  ghost function AwardsOf(seats: Seats, layers: seq<Pots.Layer>): (r: seq<PotAward>)
    requires forall l, k :: l in layers && 0 <= k < |l.winners| ==> Taken(seats, l.winners[k])
    ensures |r| == |layers|
  {
    if layers == [] then []
    else
      var l := layers[0];
      assert l in layers;
      [PotAward(l.pot, Ids(seats, l.winners), l.share, l.odd)] + AwardsOf(seats, layers[1..])
  }

  /** Only seats with a player win pots. */
  lemma {:induction false} WinnersTaken(seats: Seats, board: seq<Card>, origin: nat, t: int)
    requires origin < |seats|
    ensures forall l, k :: l in Pots.Layers(Entries(seats, board), origin, t) && 0 <= k < |l.winners| ==>
                             Taken(seats, l.winners[k])
    decreases Pots.Contributors(Entries(seats, board), t + 1)
  {
    var es := Entries(seats, board);
    if Pots.HasAbove(es, t) {
      var hi := Pots.NextLevel(es, t);
      Pots.FewerAbove(es, t, hi);
      WinnersTaken(seats, board, origin, hi);
    }
  }

  ghost function ShowdownAwards(seats: Seats, board: seq<Card>, origin: nat): seq<PotAward>
    requires origin < |seats|
  {
    WinnersTaken(seats, board, origin, 0);
    AwardsOf(seats, Pots.Layers(Entries(seats, board), origin, 0))
  }

  ghost function ShowdownWin(s: State): State
    requires s.dealerSeat.Some? && s.dealerSeat.value < |s.seats|
  {
    Settle(s, ShowdownAwards(s.seats, s.board, s.dealerSeat.value))
  }

  // ---------- moving the hand on ----------

  ghost predicate RoundComplete(s: State) {
    || |Contenders(s.seats)| <= 1
    || (Deciders(s) == {} && forall i :: !Unmatched(s, i))
  }

  ghost function ClearStreet(seats: Seats): (r: Seats)
    ensures |r| == |seats|
  {
    seq(|seats|, i requires 0 <= i < |seats| =>
      if seats[i].Some? then Some(seats[i].value.(streetCommitment := 0)) else None)
  }

  function NextStreet(st: Street): Street {
    match st
    case Preflop => Flop
    case Flop => Turn
    case Turn => River
    case _ => st
  }

  /** Burn one card and turn up the cards of the next street. */
  function Revealed(st: Street): nat {
    if st == Preflop then 3 else 1
  }

  ghost function AdvanceStreet(s: State): State
    requires Betting(s.street) && s.street != River
    requires s.deck.Some? && s.deck.value.next + 1 + Revealed(s.street) <= |s.deck.value.cards|
  {
    var seats := ClearStreet(s.seats);
    var able := AbleIds(seats);
    var d := s.deck.value;
    var k := Revealed(s.street);
    s.(seats := seats, street := NextStreet(s.street), currentBet := 0, minimumRaise := s.config.bigBlind,
       pending := able, raiseAllowed := able,
       board := s.board + d.cards[d.next + 1..d.next + 1 + k],
       deck := Some(DeckState(d.cards, d.next + 1 + k)))
  }

  /** The hand can be moved on: it has a dealer, cards to turn up and somebody to win it. */
  ghost predicate CanAdvance(s: State) {
    && Betting(s.street)
    && s.dealerSeat.Some? && s.dealerSeat.value < |s.seats|
    && Contenders(s.seats) != {}
    && s.deck.Some? && s.deck.value.next + 8 - CardsUsed(s.street, 0) <= |s.deck.value.cards|
  }

  /** Streets are run until somebody has a decision to make or the hand is settled. */
  ghost function Advance(s: State): State
    requires CanAdvance(s)
    decreases StreetsLeft(s.street)
  {
    if |Contenders(s.seats)| <= 1 then FoldWin(s)
    else if !RoundComplete(s) then
      if s.actingSeat.Some? then s
      else s.(actingSeat := Next(Deciders(s), |s.seats|, s.dealerSeat.value))
    else if s.street == River then ShowdownWin(s)
    else
      var t := AdvanceStreet(s);
      ClearStreetKeeps(s.seats);
      if |Able(t.seats)| <= 1 then Advance(t.(pending := {}, actingSeat := None))
      else t.(actingSeat := Next(Deciders(t), |t.seats|, t.dealerSeat.value))
  }

  lemma ClearStreetKeeps(seats: Seats)
    ensures Contenders(ClearStreet(seats)) == Contenders(seats)
    ensures Participants(ClearStreet(seats)) == Participants(seats)
    ensures Able(ClearStreet(seats)) == Able(seats)
    ensures AbleIds(ClearStreet(seats)) == AbleIds(seats)
  {
    var r := ClearStreet(seats);
    assert forall i :: Taken(r, i) <==> Taken(seats, i);
    assert forall i :: Taken(r, i) ==> r[i].value == seats[i].value.(streetCommitment := 0);
    assert forall i: nat :: i in Able(seats) <==> i in Able(r);
    forall id
      ensures id in AbleIds(r) <==> id in AbleIds(seats)
    {
      if id in AbleIds(r) {
        var i: nat :| Taken(r, i) && CanAct(r[i].value) && r[i].value.id == id;
        assert Taken(seats, i) && CanAct(seats[i].value) && seats[i].value.id == id;
      }
      if id in AbleIds(seats) {
        var i: nat :| Taken(seats, i) && CanAct(seats[i].value) && seats[i].value.id == id;
        assert Taken(r, i) && CanAct(r[i].value) && r[i].value.id == id;
      }
    }
  }

  // ---------- the whole start ----------

  ghost predicate ValidDeck(cards: seq<Card>) {
    |cards| == 52 && Distinct(cards)
  }

  /** What dealing and the blinds do to one player. */
  ghost predicate OpenedPlayer(p: Player, q: Player) {
    && q.id == p.id && q.seat == p.seat && q.ready == p.ready && q.connected == p.connected
    && q.stack + q.handCommitment == p.stack
    && 0 <= q.streetCommitment == q.handCommitment
    && (if IsReady(p) then q.hasHole && (if q.stack == 0 then q.status == AllIn else q.stack > 0 && q.status == Active)
        else q == Enter(p))
  }

  ghost predicate DealtPlayer(p: Player, q: Player) {
    q == Enter(p).(hole := q.hole, hasHole := q.hasHole) && q.hasHole == IsReady(p) && (!IsReady(p) ==> q == Enter(p))
  }

  lemma DealtSeatsFacts(s: State, dealer: nat, cards: seq<Card>)
    requires CanOpen(s, cards) && dealer in ReadySeats(s.seats)
    ensures var r := DealtSeats(s, dealer, cards);
            forall i :: 0 <= i < |s.seats| ==>
              && (r[i].Some? <==> s.seats[i].Some?)
              && (r[i].Some? ==> DealtPlayer(s.seats[i].value, r[i].value))
  {
    var order := Order(ReadySeats(s.seats), |s.seats|, dealer);
    OrderSize(ReadySeats(s.seats), |s.seats|, dealer);
    assert forall i: nat :: i in order <==> i in ReadySeats(s.seats);
  }

  lemma BlindedFacts(before: Seats, seats: Seats, sb: nat, bb: nat, c: Config)
    requires ConfigOk(c) && |before| == |seats| && Taken(seats, sb) && Taken(seats, bb)
    requires forall i :: 0 <= i < |seats| ==>
               && (seats[i].Some? <==> before[i].Some?)
               && (seats[i].Some? ==> DealtPlayer(before[i].value, seats[i].value))
    requires IsReady(before[sb].value) && IsReady(before[bb].value)
    ensures var r := BlindedSeats(seats, sb, bb, c);
            forall i :: 0 <= i < |seats| ==>
              && (r[i].Some? <==> before[i].Some?)
              && (r[i].Some? ==> OpenedPlayer(before[i].value, r[i].value))
  {
    var r := BlindedSeats(seats, sb, bb, c);
    forall i | 0 <= i < |seats|
      ensures r[i].Some? <==> before[i].Some?
      ensures r[i].Some? ==> OpenedPlayer(before[i].value, r[i].value)
    {
      if i != sb && i != bb {
        assert r[i] == seats[i];
      }
    }
  }

  lemma OpenedSeats(s: State, cards: seq<Card>)
    requires CanOpen(s, cards) && ConfigOk(s.config)
    ensures var t := Opened(s, cards);
            forall i :: 0 <= i < |s.seats| ==>
              && (t.seats[i].Some? <==> s.seats[i].Some?)
              && (t.seats[i].Some? ==> OpenedPlayer(s.seats[i].value, t.seats[i].value))
  {
    var dealer := NextDealer(s);
    DealtSeatsFacts(s, dealer, cards);
    BlindedFacts(s.seats, DealtSeats(s, dealer, cards), SmallBlindSeat(ReadySeats(s.seats), |s.seats|, dealer),
                 BigBlindSeat(ReadySeats(s.seats), |s.seats|, dealer), s.config);
  }

  lemma OpenedGroups(s: State, cards: seq<Card>)
    requires CanOpen(s, cards) && ConfigOk(s.config)
    ensures Participants(Opened(s, cards).seats) == ReadySeats(s.seats)
    ensures Contenders(Opened(s, cards).seats) == ReadySeats(s.seats)
  {
    OpenedSeats(s, cards);
    SameGroups(s.seats, Opened(s, cards).seats);
  }

  lemma SameGroups(seats: Seats, t: Seats)
    requires |t| == |seats|
    requires forall i :: 0 <= i < |seats| ==>
               && (t[i].Some? <==> seats[i].Some?)
               && (t[i].Some? ==> OpenedPlayer(seats[i].value, t[i].value))
    ensures Participants(t) == ReadySeats(seats) == Contenders(t)
  {
    assert forall i: nat :: i in Participants(t) <==> i in ReadySeats(seats);
    assert forall i: nat :: i in Contenders(t) <==> i in ReadySeats(seats);
  }

  lemma ReadyFit(s: State)
    requires SeatsOk(s) && ConfigOk(s.config)
    ensures |ReadySeats(s.seats)| <= 6
  {
    BoundedSetSize(ReadySeats(s.seats), |s.seats|);
  }

  lemma OpenedCanAdvance(s: State, cards: seq<Card>)
    requires CanOpen(s, cards) && ConfigOk(s.config)
    ensures CanAdvance(Opened(s, cards).(pending := {}, actingSeat := None))
  {
    OpenedGroups(s, cards);
  }

  /** With at most one player able to act after the blinds, the hand is run on at once. */
  ghost function Begin(s: State, cards: seq<Card>): State
    requires CanOpen(s, cards) && ConfigOk(s.config)
  {
    OpenedCanAdvance(s, cards);
    var t := Opened(s, cards);
    if |Able(t.seats)| <= 1 then Advance(t.(pending := {}, actingSeat := None)) else t
  }

  lemma EnoughCanOpen(s: State, cards: seq<Card>)
    requires SeatsOk(s) && ConfigOk(s.config) && |cards| == 52 && |ReadySeats(s.seats)| >= s.config.minPlayers
    ensures CanOpen(s, cards)
  {
    ReadyFit(s);
  }

  ghost function StartHand(s: State, cards: seq<Card>): Outcome
    requires SeatsOk(s)
  {
    if !ValidDeck(cards) || !ConfigOk(s.config) then Outcome(s, InvalidConfiguration)
    else if HandRunning(s.street) then Outcome(s, HandInProgress)
    else if |ReadySeats(s.seats)| < s.config.minPlayers then Outcome(s, NotEnoughPlayers)
    else
      EnoughCanOpen(s, cards);
      Outcome(Begin(s, cards), Ok)
  }

  // ---------- acting ----------

  function PayTo(p: Player, target: int): Player {
    var payment := target - p.streetCommitment;
    var q := p.(stack := p.stack - payment,
                streetCommitment := p.streetCommitment + payment,
                handCommitment := p.handCommitment + payment);
    if q.stack == 0 then q.(status := AllIn) else q
  }

  /** Everyone but `id` who can act. */
  ghost function OtherAble(seats: Seats, id: PlayerId): set<PlayerId> {
    set i: nat | i < |seats| && Taken(seats, i) && seats[i].value.id != id && CanAct(seats[i].value) :: seats[i].value.id
  }

  /** Everyone but `id` who can act and has not matched `bet`. */
  ghost function UnderCalled(seats: Seats, id: PlayerId, bet: int): set<PlayerId> {
    set i: nat | i < |seats| && Taken(seats, i) && seats[i].value.id != id && CanAct(seats[i].value)
                 && seats[i].value.streetCommitment < bet :: seats[i].value.id
  }

  /** Seat `a` puts its player record back and is done until somebody raises. */
  ghost function Done(s: State, a: nat, p: Player): State
    requires a < |s.seats|
  {
    s.(seats := s.seats[a := Some(p)], pending := s.pending - {p.id}, raiseAllowed := s.raiseAllowed - {p.id})
  }

  /** Seat `a` makes it `target`: a full raise gives everyone else a fresh decision, a short one only a call. */
  ghost function Lift(s: State, a: nat, target: int): State
    requires Taken(s.seats, a)
  {
    var p := PayTo(s.seats[a].value, target);
    var seats := s.seats[a := Some(p)];
    var size := target - s.currentBet;
    if size >= s.minimumRaise then
      var others := OtherAble(seats, p.id);
      s.(seats := seats, currentBet := target, minimumRaise := size, pending := others, raiseAllowed := others)
    else
      s.(seats := seats, currentBet := target,
         pending := s.pending + UnderCalled(seats, p.id, target) - {p.id},
         raiseAllowed := s.raiseAllowed - {p.id})
  }

  ghost function BetPhase(s: State, a: nat, cmd: ActionCommand): (r: Outcome)
    requires Taken(s.seats, a)
    ensures r.error != Ok ==> r.state == s
    ensures |r.state.seats| == |s.seats| && Taken(r.state.seats, a)
    ensures r.state.seats == s.seats[a := r.state.seats[a]]
    ensures r.state == s.(seats := r.state.seats, currentBet := r.state.currentBet,
                          minimumRaise := r.state.minimumRaise, pending := r.state.pending,
                          raiseAllowed := r.state.raiseAllowed)
  {
    var p := s.seats[a].value;
    var available := p.streetCommitment + p.stack;
    match cmd.action
    case Fold => Outcome(Done(s, a, p.(status := Folded)), Ok)
    case Check =>
      if p.streetCommitment != s.currentBet then Outcome(s, ActionNotAllowed)
      else Outcome(Done(s, a, p), Ok)
    case Call =>
      if p.streetCommitment >= s.currentBet then Outcome(s, ActionNotAllowed)
      else Outcome(Done(s, a, PayTo(p, Min(s.currentBet, available))), Ok)
    case Bet =>
      if s.currentBet != 0 then Outcome(s, ActionNotAllowed)
      else if cmd.amount <= p.streetCommitment || cmd.amount > available then Outcome(s, InvalidAmount)
      else if cmd.amount < s.minimumRaise && cmd.amount != available then Outcome(s, MinimumRaiseNotMet)
      else Outcome(Lift(s, a, cmd.amount), Ok)
    case Raise =>
      if s.currentBet == 0 then Outcome(s, ActionNotAllowed)
      else if p.id !in s.raiseAllowed then Outcome(s, ActionNotAllowed)
      else if cmd.amount <= s.currentBet || cmd.amount > available then Outcome(s, InvalidAmount)
      else if cmd.amount - s.currentBet < s.minimumRaise && cmd.amount != available then
        Outcome(s, MinimumRaiseNotMet)
      else Outcome(Lift(s, a, cmd.amount), Ok)
    case GoAllIn =>
      if p.stack <= 0 then Outcome(s, PlayerCannotAct)
      else if available <= s.currentBet then Outcome(Done(s, a, PayTo(p, available)), Ok)
      else if p.id !in s.raiseAllowed then Outcome(s, ActionNotAllowed)
      else Outcome(Lift(s, a, available), Ok)
  }

  /** What follows an accepted action: a fold win, the next street or streets, or the next player's turn. */
  ghost function Continue(s: State, from: nat): State
    requires CanAdvance(s) && from < |s.seats|
  {
    if |Contenders(s.seats)| <= 1 then FoldWin(s)
    else if RoundComplete(s) then Advance(s.(actingSeat := None))
    else s.(actingSeat := Next(Deciders(s), |s.seats|, from))
  }

  ghost function Fail(s: State, error: TableError): ActOutcome {
    ActOutcome(s, ActionResult(error, s.serverSequence, [], Waiting))
  }

  lemma BetPhaseCanAdvance(s: State, cmd: ActionCommand)
    requires Deciding(s)
    ensures CanAdvance(BetPhase(s, s.actingSeat.value, cmd).state)
  {
    var a := s.actingSeat.value;
    var t := BetPhase(s, a, cmd).state;
    assert Contenders(s.seats) - {a} <= Contenders(t.seats) by {
      forall i | i in Contenders(s.seats) && i != a
        ensures i in Contenders(t.seats)
      {
        assert t.seats[i] == s.seats[i];
      }
    }
    if Contenders(s.seats) - {a} == {} {
      SubsetSize(Contenders(s.seats), {a});
    }
  }

  ghost function Act(s: State, cmd: ActionCommand): ActOutcome
    requires Inv(s)
  {
    if !Betting(s.street) then Fail(s, ActionNotAllowed)
    else if s.actingSeat.None? || !HasId(s.seats, s.actingSeat.value, cmd.playerId) then Fail(s, NotPlayersTurn)
    else
      var a := s.actingSeat.value;
      var b := BetPhase(s, a, cmd);
      if !CanAct(s.seats[a].value) || cmd.playerId !in s.pending then Fail(s, PlayerCannotAct)
      else if b.error != Ok then Fail(s, b.error)
      else
        BetPhaseCanAdvance(s, cmd);
        var t := Continue(b.state.(serverSequence := s.serverSequence + 1), a);
        ActOutcome(t, ActionResult(Ok, t.serverSequence, if t.street == Settled then t.lastAwards else [], s.street))
  }

  // ---------- aborting ----------

  /** The table before the settlement was paid out; nothing to do for a hand still running. */
  ghost function Unpaid(s: State, p: Player): int {
    p.stack - if s.street == Settled then AwardedTo(s.lastAwards, p.id) else 0
  }

  ghost function RefundedSeats(s: State): (r: Seats)
    ensures |r| == |s.seats|
  {
    seq(|s.seats|, i requires 0 <= i < |s.seats| =>
      if s.seats[i].Some? then
        var p := s.seats[i].value;
        Some(p.(stack := Unpaid(s, p) + p.handCommitment, streetCommitment := 0, handCommitment := 0,
                status := Idle, ready := false, hasHole := false))
      else None)
  }

  ghost function AbortHand(s: State): Outcome {
    if s.street == Waiting then Outcome(s, ActionNotAllowed)
    else Outcome(s.(seats := RefundedSeats(s), street := Waiting, actingSeat := None, currentBet := 0,
                    minimumRaise := s.config.bigBlind, pending := {}, raiseAllowed := {}, board := [],
                    deck := None, lastAwards := [], serverSequence := s.serverSequence + 1), Ok)
  }
}
