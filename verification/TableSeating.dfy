/** Coming, going and getting ready: what is allowed, what it changes, and what a refusal means. */
module TableSeating {
  import opened Wrappers
  import opened Cards
  import opened TableModel

  /** No hand is in progress. */
  predicate AtRest(st: Street) {
    st == Waiting || st == Settled
  }

  /** Some seat has the player. */
  ghost predicate IsSeated(s: State, id: PlayerId) {
    exists i :: HasId(s.seats, i, id)
  }

  /** Everything but the given seat, the sequence and perhaps the button is as before. */
  ghost predicate OnlySeat(s: State, t: State, i: nat) {
    && |t.seats| == |s.seats|
    && (forall j :: 0 <= j < |s.seats| && j != i ==> t.seats[j] == s.seats[j])
    && t == s.(seats := t.seats, serverSequence := s.serverSequence + 1, dealerSeat := t.dealerSeat)
  }

  // ---------- sitting down ----------

  /** Somebody new may sit on a free seat between hands, with a buy-in the table allows. */
  lemma SitIff(s: State, id: PlayerId, seat: nat, buyIn: int)
    requires Inv(s)
    ensures SeatPlayer(s, id, seat, buyIn).error == Ok <==>
            && ConfigOk(s.config) && AtRest(s.street)
            && seat < |s.seats| && s.seats[seat].None? && !IsSeated(s, id)
            && s.config.minBuyIn <= buyIn <= s.config.maxBuyIn
  {
    if SeatOf(s.seats, id).Some? {
      assert HasId(s.seats, SeatOf(s.seats, id).value, id);
    }
  }

  /** The newcomer holds the buy-in, is connected, not ready, and in no hand. */
  lemma SitSeats(s: State, id: PlayerId, seat: nat, buyIn: int)
    requires SeatPlayer(s, id, seat, buyIn).error == Ok
    ensures var t := SeatPlayer(s, id, seat, buyIn).state;
            && OnlySeat(s, t, seat) && t.dealerSeat == s.dealerSeat && HasId(t.seats, seat, id)
            && var p := t.seats[seat].value;
               && p.stack == buyIn && p.seat == seat && p.connected && !p.ready
               && p.status == Idle && p.handCommitment == 0 && p.streetCommitment == 0 && !p.hasHole
  {}

  lemma SitRefused(s: State, id: PlayerId, seat: nat, buyIn: int)
    requires Inv(s) && SeatPlayer(s, id, seat, buyIn).error != Ok
    ensures match SeatPlayer(s, id, seat, buyIn).error
            case InvalidConfiguration => !ConfigOk(s.config)
            case HandInProgress => !AtRest(s.street)
            case SeatOutOfRange => seat >= |s.seats|
            case PlayerAlreadySeated => IsSeated(s, id)
            case SeatOccupied => seat < |s.seats| && s.seats[seat].Some?
            case InvalidBuyIn => buyIn < s.config.minBuyIn || buyIn > s.config.maxBuyIn
            case _ => false
  {
    if SeatOf(s.seats, id).Some? {
      assert HasId(s.seats, SeatOf(s.seats, id).value, id);
    }
  }

  // ---------- leaving ----------

  /** A seated player may leave between hands, or when not dealt in. */
  lemma LeaveIff(s: State, id: PlayerId, i: nat)
    requires Inv(s) && HasId(s.seats, i, id)
    ensures RemovePlayer(s, id).error == Ok <==> AtRest(s.street) || s.seats[i].value.status == Idle
    ensures RemovePlayer(s, id).error != Ok ==> RemovePlayer(s, id).error == HandInProgress
    ensures RemovePlayer(s, id).error == Ok ==>
              var t := RemovePlayer(s, id).state;
              && OnlySeat(s, t, i) && t.seats[i].None?
              && t.dealerSeat == if s.dealerSeat == Some(i) then None else s.dealerSeat
  {
    OnlySeatOf(s, id, i);
  }

  lemma OnlySeatOf(s: State, id: PlayerId, i: nat)
    requires Inv(s) && HasId(s.seats, i, id)
    ensures SeatOf(s.seats, id) == Some(i)
  {
    var r := SeatOf(s.seats, id);
    assert HasId(s.seats, r.value, id);
  }

  /** Nobody can be moved who is not there. */
  lemma StrangersRefused(s: State, id: PlayerId, flag: bool)
    requires !IsSeated(s, id)
    ensures RemovePlayer(s, id).error == PlayerNotFound && SetConnected(s, id, flag).error == PlayerNotFound
    ensures AtRest(s.street) ==> SetReady(s, id, flag).error == PlayerNotFound
  {}

  // ---------- ready and connected ----------

  /** Between hands a player with chips may get ready, and any player may stop being ready. */
  lemma ReadyIff(s: State, id: PlayerId, ready: bool, i: nat)
    requires Inv(s) && HasId(s.seats, i, id)
    ensures SetReady(s, id, ready).error == Ok <==> AtRest(s.street) && (ready ==> s.seats[i].value.stack > 0)
    ensures SetReady(s, id, ready).error != Ok ==>
              SetReady(s, id, ready).error == if AtRest(s.street) then InvalidBuyIn else HandInProgress
    ensures SetReady(s, id, ready).error == Ok ==>
              var t := SetReady(s, id, ready).state;
              OnlySeat(s, t, i) && t.dealerSeat == s.dealerSeat && t.seats[i] == Some(s.seats[i].value.(ready := ready))
  {
    OnlySeatOf(s, id, i);
  }

  /** Connections come and go at any time and change nothing else. */
  lemma ConnectAlways(s: State, id: PlayerId, connected: bool, i: nat)
    requires Inv(s) && HasId(s.seats, i, id)
    ensures var t := SetConnected(s, id, connected).state;
            && SetConnected(s, id, connected).error == Ok
            && OnlySeat(s, t, i) && t.dealerSeat == s.dealerSeat
            && t.seats[i] == Some(s.seats[i].value.(connected := connected))
  {
    OnlySeatOf(s, id, i);
  }

  // ---------- starting and aborting ----------

  /** A hand starts between hands, from 52 different cards, when enough players are ready. */
  lemma StartIff(s: State, cards: seq<Card>)
    requires Inv(s)
    ensures StartHand(s, cards).error == Ok <==>
            && |cards| == 52 && Distinct(cards) && ConfigOk(s.config) && AtRest(s.street)
            && |ReadySeats(s.seats)| >= s.config.minPlayers
    ensures match StartHand(s, cards).error
            case Ok => true
            case InvalidConfiguration => |cards| != 52 || !Distinct(cards) || !ConfigOk(s.config)
            case HandInProgress => !AtRest(s.street)
            case NotEnoughPlayers => |ReadySeats(s.seats)| < s.config.minPlayers
            case _ => false
  {}

  /** Only a table that has not had a hand since the last abort refuses to abort one. */
  lemma AbortIff(s: State)
    ensures AbortHand(s).error == Ok <==> s.street != Waiting
    ensures AbortHand(s).error != Ok ==> AbortHand(s).error == ActionNotAllowed && AbortHand(s).state == s
  {}

  /** After an abort everybody sits as before, out of any hand and not ready; the button stays. */
  lemma AbortClears(s: State, i: nat)
    requires s.street != Waiting && Taken(s.seats, i)
    ensures var t := AbortHand(s).state;
            && t.street == Waiting && t.board == [] && t.deck.None? && t.lastAwards == [] && t.actingSeat.None?
            && t.dealerSeat == s.dealerSeat && t.handId == s.handId && t.config == s.config
            && Taken(t.seats, i)
            && var p := t.seats[i].value;
               && p.id == s.seats[i].value.id && p.connected == s.seats[i].value.connected && !p.ready && !p.hasHole
               && p.status == Idle && p.handCommitment == 0 && p.streetCommitment == 0
  {}

  /** A settled hand leaves nobody ready, so the next one waits for the players. */
  lemma SettledNobodyReady(s: State, awards: seq<PotAward>)
    ensures ReadySeats(Settle(s, awards).seats) == {}
  {}

  /** What makes a table playable. */
  lemma ConfigMeans(c: Config)
    ensures ConfigOk(c) <==>
            && 2 <= c.minPlayers && c.minPlayers <= c.maxPlayers && c.maxPlayers <= 6
            && c.smallBlind > 0 && c.bigBlind >= 2 * c.smallBlind && 0 < c.minBuyIn && c.minBuyIn <= c.maxBuyIn
  {}
}
