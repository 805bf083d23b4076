/**
 The table object (`table.cpp`). Every method is proved to do to the fields what the model
 says the operation does to the table's value, so the theorems about the model are theorems
 about the object.
 */
module HoldemTable {
  import opened Wrappers
  import opened Sums
  import opened Cards
  import opened Clockwise
  import opened Decks
  import opened TableModel
  import opened TableInvariant
  import opened TableStart
  import opened TableRuns
  import opened TableCards
  import opened TableLoops
  import opened TablePots
  import opened TableDeal
  import opened TableAbort
  import opened TableViews
  import TableAccounting

  class Table {
    const config: Config
    var seats: Seats
    var street: Street
    var dealerSeat: Option<nat>
    var actingSeat: Option<nat>
    var currentBet: int
    var minimumRaise: int
    var pending: set<PlayerId>
    var raiseAllowed: set<PlayerId>
    var board: seq<Card>
    var deck: Deck?
    var handId: nat
    var serverSequence: nat
    var lastAwards: seq<PotAward>
    ghost var order: seq<nat>

    /** The table as a value of the model. */
    ghost function Value(): State
      reads this, deck
    {
      State(config, seats, street, dealerSeat, actingSeat, currentBet, minimumRaise, pending, raiseAllowed, board,
            if deck == null then None else Some(DeckState(deck.cards, deck.next)), handId, serverSequence, lastAwards)
    }

    /** The deck is sound and, during a hand, every card is where the deal put it. */
    ghost predicate CardsValid()
      reads this, deck
    {
      && (deck != null ==> deck.Valid())
      && (Betting(street) ==> deck != null && Holds(Value(), deck.cards, order))
    }

    ghost predicate Valid()
      reads this, deck
    {
      Inv(Value()) && CardsValid()
    }

    constructor (c: Config)
      ensures Valid() && Value() == NewTable(c)
    {
      config := c;
      seats := seq(c.maxPlayers, _ => None);
      street := Waiting;
      dealerSeat, actingSeat := None, None;
      currentBet, minimumRaise := 0, c.bigBlind;
      pending, raiseAllowed := {}, {};
      board, deck := [], null;
      handId, serverSequence := 0, 0;
      lastAwards, order := [], [];
      new;
      NewTableInv(c);
    }

    // ---------- seating ----------

    method SeatPlayer(id: PlayerId, seat: nat, buyIn: int) returns (error: TableError)
      requires Valid()
      modifies this
      ensures Valid()
      ensures Outcome(Value(), error) == TableModel.SeatPlayer(old(Value()), id, seat, buyIn)
    {
      StepInv(Value(), Sit(id, seat, buyIn));
      if !ConfigOk(config) {
        return InvalidConfiguration;
      }
      if HandRunning(street) {
        return HandInProgress;
      }
      if seat >= |seats| {
        return SeatOutOfRange;
      }
      var existing := FindSeat(seats, id);
      if existing.Some? {
        return PlayerAlreadySeated;
      }
      if seats[seat].Some? {
        return SeatOccupied;
      }
      if buyIn < config.minBuyIn || buyIn > config.maxBuyIn {
        return InvalidBuyIn;
      }
      seats := seats[seat := Some(NewPlayer(id, seat, buyIn))];
      serverSequence := serverSequence + 1;
      return Ok;
    }

    method RemovePlayer(id: PlayerId) returns (error: TableError)
      requires Valid()
      modifies this
      ensures Valid()
      ensures Outcome(Value(), error) == TableModel.RemovePlayer(old(Value()), id)
    {
      ghost var before := Value();
      error := VacateSeat(id);
      StepInv(before, Leave(id));
      if Betting(before.street) {
        StepHolds(before, Leave(id), deck.cards, order);
      }
    }

    method VacateSeat(id: PlayerId) returns (error: TableError)
      modifies this
      ensures deck == old(deck) && order == old(order) && street == old(street)
      ensures Outcome(Value(), error) == TableModel.RemovePlayer(old(Value()), id)
    {
      var seat := FindSeat(seats, id);
      if seat.None? {
        return PlayerNotFound;
      }
      if HandRunning(street) && seats[seat.value].value.status != Idle {
        return HandInProgress;
      }
      seats := seats[seat.value := None];
      if dealerSeat == seat {
        dealerSeat := None;
      }
      serverSequence := serverSequence + 1;
      return Ok;
    }

    method SetReady(id: PlayerId, ready: bool) returns (error: TableError)
      requires Valid()
      modifies this
      ensures Valid()
      ensures Outcome(Value(), error) == TableModel.SetReady(old(Value()), id, ready)
    {
      ghost var before := Value();
      error := MarkReady(id, ready);
      StepInv(before, Ready(id, ready));
      if Betting(before.street) {
        StepHolds(before, Ready(id, ready), deck.cards, order);
      }
    }

    method MarkReady(id: PlayerId, ready: bool) returns (error: TableError)
      modifies this
      ensures deck == old(deck) && order == old(order) && street == old(street)
      ensures Outcome(Value(), error) == TableModel.SetReady(old(Value()), id, ready)
    {
      if HandRunning(street) {
        return HandInProgress;
      }
      var seat := FindSeat(seats, id);
      if seat.None? {
        return PlayerNotFound;
      }
      if ready && seats[seat.value].value.stack <= 0 {
        return InvalidBuyIn;
      }
      seats := seats[seat.value := Some(seats[seat.value].value.(ready := ready))];
      serverSequence := serverSequence + 1;
      return Ok;
    }

    method SetConnected(id: PlayerId, connected: bool) returns (error: TableError)
      requires Valid()
      modifies this
      ensures Valid()
      ensures Outcome(Value(), error) == TableModel.SetConnected(old(Value()), id, connected)
    {
      ghost var before := Value();
      error := MarkConnected(id, connected);
      StepInv(before, Connect(id, connected));
      if Betting(before.street) {
        StepHolds(before, Connect(id, connected), deck.cards, order);
      }
    }

    method MarkConnected(id: PlayerId, connected: bool) returns (error: TableError)
      modifies this
      ensures deck == old(deck) && order == old(order) && street == old(street)
      ensures Outcome(Value(), error) == TableModel.SetConnected(old(Value()), id, connected)
    {
      var seat := FindSeat(seats, id);
      if seat.None? {
        return PlayerNotFound;
      }
      seats := seats[seat.value := Some(seats[seat.value].value.(connected := connected))];
      serverSequence := serverSequence + 1;
      return Ok;
    }

    // ---------- settlement ----------

    /** Nobody is to act any more. */
    method ClearDecisions()
      modifies `actingSeat, `pending, `raiseAllowed, `currentBet
      ensures Value() == old(Value()).(actingSeat := None, pending := {}, raiseAllowed := {}, currentBet := 0)
    {
      actingSeat := None;
      pending, raiseAllowed := {}, {};
      currentBet := 0;
    }

    /** Closes the hand with the stacks paid and the awards on record. */
    method MarkSettled(paid: Seats, awards: seq<PotAward>)
      modifies this
      ensures deck == old(deck) && order == old(order)
      ensures Value() == old(Value()).(seats := NobodyReady(paid), street := Settled, actingSeat := None, pending := {},
                                       raiseAllowed := {}, currentBet := 0, lastAwards := awards,
                                       serverSequence := old(serverSequence) + 1)
    {
      var unready := ClearReady(paid);
      ClearDecisions();
      seats, lastAwards := unready, awards;
      street := Settled;
      serverSequence := serverSequence + 1;
    }

    method SettleFoldWin()
      requires Contenders(seats) != {} && DistinctIds(seats)
      modifies this
      ensures deck == old(deck) && order == old(order)
      ensures Value() == FoldWin(old(Value()))
    {
      var winner := FindFirstContender(seats);
      var pot := SumPot(seats);
      var p := seats[winner].value;
      FoldCredited(seats, winner);
      MarkSettled(seats[winner := Some(p.(stack := p.stack + pot))], [PotAward(pot, [p.id], pot, 0)]);
    }

    method SettleShowdown()
      requires dealerSeat.Some? && dealerSeat.value < |seats| && DistinctIds(seats)
      requires Evaluable(seats, board)
      modifies this
      ensures deck == old(deck) && order == old(order)
      ensures Value() == ShowdownWin(old(Value()))
    {
      var paid, awards := BuildAndAwardPots(seats, board, dealerSeat.value);
      CreditedPaid(seats, awards);
      MarkSettled(paid, awards);
    }

    // ---------- moving on ----------

    /** A fresh round of betting for everyone who can act. */
    method OpenBetting(able: set<PlayerId>)
      modifies `currentBet, `minimumRaise, `pending, `raiseAllowed
      ensures Value() == old(Value()).(currentBet := 0, minimumRaise := config.bigBlind, pending := able, raiseAllowed := able)
    {
      currentBet := 0;
      minimumRaise := config.bigBlind;
      pending, raiseAllowed := able, able;
    }

    /** The table set up for the next street, its cards already turned up. */
    method OpenStreet(cleared: Seats, able: set<PlayerId>, turned: seq<Card>)
      modifies this
      ensures deck == old(deck) && order == old(order)
      ensures Value() == old(Value()).(seats := cleared, street := NextStreet(old(street)), currentBet := 0,
                                       minimumRaise := config.bigBlind, pending := able, raiseAllowed := able,
                                       board := turned)
    {
      OpenBetting(able);
      seats, board := cleared, turned;
      street := NextStreet(street);
    }

    method AdvanceStreet()
      requires Betting(street) && street != River
      requires deck != null && deck.Valid() && deck.next + 1 + Revealed(street) <= 52
      modifies this, deck`next
      ensures deck == old(deck) && deck.Valid() && order == old(order)
      ensures Value() == TableModel.AdvanceStreet(old(Value()))
    {
      var cleared := ClearStreets(seats);
      var able := CollectAble(cleared);
      StreetAdvanced(Value(), cleared, able);
      var turned := Reveal(board, Revealed(street), deck);
      OpenStreet(cleared, able, turned);
    }

    /** The hand is under way and its cards are where they should be. */
    ghost predicate UnderWay()
      reads this, deck
    {
      InHand(Value()) && CanAdvance(Value()) && deck != null && deck.Valid() && Holds(Value(), deck.cards, order)
    }

    /** Asks the first player left of the dealer, or nobody when at most one player can act. */
    method AskFirstOrNobody() returns (asked: bool)
      requires dealerSeat.Some? && dealerSeat.value < |seats|
      modifies `pending, `actingSeat
      ensures asked == (|Able(seats)| > 1)
      ensures Value() == if asked then old(Value()).(actingSeat := Next(Deciders(old(Value())), |seats|, dealerSeat.value))
                         else old(Value()).(pending := {}, actingSeat := None)
    {
      var actionable := CountAble(seats);
      if actionable <= 1 {
        AskNobody();
        return false;
      }
      actingSeat := NextDecider(seats, pending, dealerSeat.value, Value());
      return true;
    }

    /** Turns up one street when the betting on this one is over and somebody is left to play it. */
    method NextStreetOrAction() returns (stop: bool)
      requires UnderWay() && RoundComplete(Value()) && |Contenders(seats)| >= 2 && street != River
      modifies this, deck`next
      ensures deck == old(deck) && order == old(order) && deck.Valid()
      ensures if stop then Value() == Advance(old(Value()))
              else UnderWay() && Advance(Value()) == Advance(old(Value())) && StreetsLeft(street) < StreetsLeft(old(street))
    {
      ghost var before := Value();
      ghost var next := NextStreetValue(before, deck.cards, order);
      AdvanceStreet();
      assert Value() == next;
      stop := AskFirstOrNobody();
    }

    /** One turn of the loop below. */
    method AdvanceOnce() returns (stop: bool)
      requires UnderWay()
      modifies this, deck`next
      ensures deck == old(deck) && order == old(order) && deck.Valid()
      ensures if stop then Value() == Advance(old(Value()))
              else UnderWay() && Advance(Value()) == Advance(old(Value())) && StreetsLeft(street) < StreetsLeft(old(street))
    {
      var contenders := CountContenders(seats);
      if contenders <= 1 {
        SettleFoldWin();
        return true;
      }
      var complete := IsRoundComplete(seats, pending, currentBet, Value());
      if !complete {
        if actingSeat.None? {
          actingSeat := NextDecider(seats, pending, dealerSeat.value, Value());
        }
        return true;
      }
      if street == River {
        HoldsEvaluable(Value(), deck.cards, order);
        SettleShowdown();
        return true;
      }
      stop := NextStreetOrAction();
    }

    /** Runs streets until somebody has a decision to make or the hand is settled. */
    method AdvanceUntilActionOrSettlement()
      requires UnderWay()
      modifies this, deck`next
      ensures deck == old(deck) && deck.Valid() && order == old(order)
      ensures Value() == Advance(old(Value()))
    {
      var stop := false;
      while !stop
        invariant deck == old(deck) && order == old(order) && deck.Valid()
        invariant if stop then Value() == Advance(old(Value()))
                  else UnderWay() && Advance(Value()) == Advance(old(Value()))
        decreases !stop, StreetsLeft(street)
      {
        stop := AdvanceOnce();
      }
    }

    // ---------- acting ----------

    /** Seat `a` is done until somebody raises. */
    method FinishSeat(a: nat, p: Player)
      requires a < |seats|
      modifies `seats, `pending, `raiseAllowed
      ensures Value() == Done(old(Value()), a, p)
    {
      seats := seats[a := Some(p)];
      pending := pending - {p.id};
      raiseAllowed := raiseAllowed - {p.id};
    }

    /** Seat `a` makes it `target`. */
    method LiftBet(a: nat, target: int)
      requires Taken(seats, a)
      modifies `seats, `pending, `raiseAllowed, `currentBet, `minimumRaise
      ensures Value() == Lift(old(Value()), a, target)
    {
      var p := PayTo(seats[a].value, target);
      var size := target - currentBet;
      var paid := seats[a := Some(p)];
      if size >= minimumRaise {
        var others := CollectOthers(paid, p.id);
        seats, currentBet, minimumRaise := paid, target, size;
        pending, raiseAllowed := others, others;
      } else {
        var behind := CollectUnderCalled(paid, p.id, target);
        seats, currentBet := paid, target;
        pending := pending + behind - {p.id};
        raiseAllowed := raiseAllowed - {p.id};
      }
    }

    /** The switch over the six actions. */
    method ApplyAction(a: nat, cmd: ActionCommand) returns (error: TableError)
      requires Taken(seats, a)
      modifies `seats, `pending, `raiseAllowed, `currentBet, `minimumRaise
      ensures Outcome(Value(), error) == BetPhase(old(Value()), a, cmd)
    {
      var p := seats[a].value;
      var available := p.streetCommitment + p.stack;
      match cmd.action {
      case Fold =>
        FinishSeat(a, p.(status := Folded));
      case Check =>
        if p.streetCommitment != currentBet {
          return ActionNotAllowed;
        }
        FinishSeat(a, p);
      case Call =>
        if p.streetCommitment >= currentBet {
          return ActionNotAllowed;
        }
        FinishSeat(a, PayTo(p, Min(currentBet, available)));
      case Bet =>
        if currentBet != 0 {
          return ActionNotAllowed;
        }
        if cmd.amount <= p.streetCommitment || cmd.amount > available {
          return InvalidAmount;
        }
        if cmd.amount < minimumRaise && cmd.amount != available {
          return MinimumRaiseNotMet;
        }
        LiftBet(a, cmd.amount);
      case Raise =>
        if currentBet == 0 || p.id !in raiseAllowed {
          return ActionNotAllowed;
        }
        if cmd.amount <= currentBet || cmd.amount > available {
          return InvalidAmount;
        }
        if cmd.amount - currentBet < minimumRaise && cmd.amount != available {
          return MinimumRaiseNotMet;
        }
        LiftBet(a, cmd.amount);
      case GoAllIn =>
        if p.stack <= 0 {
          return PlayerCannotAct;
        }
        if available <= currentBet {
          FinishSeat(a, PayTo(p, available));
        } else {
          if p.id !in raiseAllowed {
            return ActionNotAllowed;
          }
          LiftBet(a, available);
        }
      }
      return Ok;
    }

    /** After an accepted action: a fold win, further streets, or the next player's turn. */
    method FollowUp(from: nat)
      requires UnderWay() && from < |seats|
      modifies this, deck`next
      ensures deck == old(deck) && deck.Valid() && order == old(order)
      ensures Value() == Continue(old(Value()), from)
    {
      var contenders := CountContenders(seats);
      if contenders <= 1 {
        SettleFoldWin();
        return;
      }
      var complete := IsRoundComplete(seats, pending, currentBet, Value());
      if complete {
        actingSeat := None;
        AdvanceUntilActionOrSettlement();
      } else {
        actingSeat := NextDecider(seats, pending, from, Value());
      }
    }

    method Act(cmd: ActionCommand) returns (result: ActionResult)
      requires Valid()
      modifies this, deck
      ensures Valid()
      ensures ActOutcome(Value(), result) == TableModel.Act(old(Value()), cmd)
    {
      if !HandRunning(street) || street == Showdown {
        return ActionResult(ActionNotAllowed, serverSequence, [], Waiting);
      }
      if actingSeat.None? || seats[actingSeat.value].None? || seats[actingSeat.value].value.id != cmd.playerId {
        return ActionResult(NotPlayersTurn, serverSequence, [], Waiting);
      }
      if !CanAct(seats[actingSeat.value].value) || cmd.playerId !in pending {
        return ActionResult(PlayerCannotAct, serverSequence, [], Waiting);
      }
      result := PlayAction(cmd);
    }

    /** The player whose turn it is acts. */
    method PlayAction(cmd: ActionCommand) returns (result: ActionResult)
      requires Valid() && Deciding(Value()) && HasId(seats, actingSeat.value, cmd.playerId)
      modifies this, deck
      ensures Valid()
      ensures ActOutcome(Value(), result) == TableModel.Act(old(Value()), cmd)
    {
      ghost var before := Value();
      var actionStreet := street;
      var a := actingSeat.value;
      var error := ApplyAction(a, cmd);
      if error != Ok {
        RefusedResult(before, cmd);
        return ActionResult(error, serverSequence, [], Waiting);
      }
      serverSequence := serverSequence + 1;
      result := Accepted(a, actionStreet, cmd, before);
    }

    /** The action has been applied; the hand moves on. */
    method Accepted(a: nat, actionStreet: Street, cmd: ActionCommand, ghost before: State) returns (result: ActionResult)
      requires deck != null && deck.Valid() && Deciding(before) && Holds(before, deck.cards, order)
      requires a == before.actingSeat.value && actionStreet == before.street && HasId(before.seats, a, cmd.playerId)
      requires BetPhase(before, a, cmd).error == Ok && Value() == Played(before, cmd)
      modifies this, deck`next
      ensures Valid()
      ensures ActOutcome(Value(), result) == TableModel.Act(before, cmd)
    {
      PlayedUnderWay(before, cmd, deck.cards, order);
      FollowUp(a);
      AcceptedResult(before, cmd, deck.cards, order);
      result := ActionResult(Ok, serverSequence, if street == Settled then lastAwards else [], actionStreet);
    }

    // ---------- starting a hand ----------

    /** The next dealer: the next participant clockwise, or the first one when there was no dealer. */
    method ChooseDealer(entered: Seats, participants: seq<nat>, ghost s: State) returns (dealer: nat)
      requires Value() == s && SeatsOk(s) && ReadySeats(s.seats) != {} && |entered| == |s.seats|
      requires Participants(entered) == ReadySeats(s.seats)
      requires forall i :: i in participants <==> i in ReadySeats(s.seats)
      requires forall j, k :: 0 <= j < k < |participants| ==> participants[j] < participants[k]
      ensures dealer == NextDealer(s)
    {
      ghost var ready := ReadySeats(s.seats);
      ghost var some: nat :| some in ready;
      if dealerSeat.None? {
        assert some in participants;
        dealer := participants[0];
        LowestIsNext(ready, |seats|, participants);
      } else {
        var next := NextParticipant(entered, dealerSeat.value);
        dealer := next.value;
      }
    }

    /** The seats with the cards dealt. */
    method Deal(entered: Seats, dealer: nat, count: nat, d: Deck, ghost s: State) returns (dealt: Seats)
      requires CanOpen(s, d.cards) && d.Valid() && d.next == 0 && count == |ReadySeats(s.seats)| >= 2
      requires entered == EnterAll(s.seats) && dealer in ReadySeats(s.seats)
      modifies d`next
      ensures d.Valid() && d.next == 2 * count
      ensures dealt == DealtSeats(s, dealer, d.cards)
    {
      ghost var deal := Order(ReadySeats(s.seats), |s.seats|, dealer);
      EnteredGroups(s.seats);
      OrderSize(ReadySeats(s.seats), |s.seats|, dealer);
      OrderCycles(ReadySeats(s.seats), |s.seats|, dealer);
      EnterAllTaken(s.seats);
      dealt := DealHoleCards(entered, dealer, count, d, deal);
    }

    method PostBlinds(dealt: Seats, sb: nat, bb: nat) returns (posted: Seats)
      requires Taken(dealt, sb) && Taken(dealt, bb)
      ensures posted == BlindedSeats(dealt, sb, bb, config)
    {
      var small := PostBlind(dealt[sb].value, config.smallBlind);
      posted := dealt[sb := Some(small)];
      var big := PostBlind(posted[bb].value, config.bigBlind);
      posted := posted[bb := Some(big)];
    }

    method FindBlinds(dealt: Seats, dealer: nat, count: nat, ghost s: State, ghost cards: seq<Card>) returns (sb: nat, bb: nat)
      requires CanOpen(s, cards) && dealer == NextDealer(s) && dealt == DealtSeats(s, dealer, cards)
      requires count == |ReadySeats(s.seats)|
      ensures sb == PositionsOf(s).small && bb == PositionsOf(s).big
      ensures Taken(s.seats, sb) && Taken(s.seats, bb) && Taken(dealt, sb) && Taken(dealt, bb)
    {
      DealtGroups(s, dealer, cards);
      sb := dealer;
      if count > 2 {
        var next := NextParticipant(dealt, dealer);
        sb := next.value;
      }
      var next := NextParticipant(dealt, sb);
      bb := next.value;
    }

    /** The table around the dealt seats, nobody asked to act yet. */
    method ResetHand(posted: Seats, at: Positions, d: Deck, able: set<PlayerId>)
      requires Taken(posted, at.small) && Taken(posted, at.big) && able == AbleIds(posted)
      requires d.next == 2 * |ReadySeats(seats)|
      modifies this
      ensures deck == d && order == old(order)
      ensures Value() == Posted(old(Value()), posted, at, d.cards)
    {
      OpenBetting(able);
      ResetCards(d);
      PlaceHand(posted, at);
    }

    method PlaceHand(posted: Seats, at: Positions)
      requires Taken(posted, at.small) && Taken(posted, at.big)
      modifies `seats, `street, `dealerSeat, `actingSeat, `currentBet, `serverSequence
      ensures Value() == old(Value()).(
                seats := posted, street := Preflop, dealerSeat := Some(at.dealer), actingSeat := None,
                currentBet := Max(posted[at.small].value.streetCommitment, posted[at.big].value.streetCommitment),
                serverSequence := old(serverSequence) + 1)
    {
      currentBet := Max(posted[at.small].value.streetCommitment, posted[at.big].value.streetCommitment);
      seats, dealerSeat, actingSeat := posted, Some(at.dealer), None;
      street := Preflop;
      serverSequence := serverSequence + 1;
    }

    method ResetCards(d: Deck)
      modifies `board, `deck, `lastAwards, `handId
      ensures deck == d
      ensures Value() == old(Value()).(board := [], deck := Some(DeckState(d.cards, d.next)), lastAwards := [],
                                       handId := old(handId) + 1)
    {
      deck := d;
      board, lastAwards := [], [];
      handId := handId + 1;
    }

    /** Chooses the dealer, deals and posts the blinds, on copies of the seats. */
    method PrepareHand(d: Deck, count: nat, ghost s: State, ghost plan: Opening) returns (posted: Seats, at: Positions)
      requires Value() == s && d.Valid() && d.next == 0 && count == |ReadySeats(s.seats)| >= 2
      requires OpeningOf(s, d.cards, plan)
      modifies d`next
      ensures d.Valid() && d.next == 2 * count
      ensures at == plan.at && posted == plan.posted
    {
      var entered := EnterSeats(seats);
      EnteredGroups(seats);
      var participants := CollectParticipants(entered);
      var dealer := ChooseDealer(entered, participants, s);
      var dealt := Deal(entered, dealer, count, d, s);
      var sb, bb := FindBlinds(dealt, dealer, count, s, d.cards);
      posted := PostBlinds(dealt, sb, bb);
      at := Positions(dealer, sb, bb);
    }

    /** Deals a hand and posts the blinds; everyone who can act owes a decision. */
    method OpenHand(d: Deck, count: nat, ghost s: State, ghost plan: Opening, ghost started: State, ghost deal: seq<nat>)
      requires Value() == s && d.Valid() && d.next == 0 && count == |ReadySeats(s.seats)| >= 2
      requires d != deck && OpeningOf(s, d.cards, plan)
      requires started == Asked(Posted(s, plan.posted, plan.at, d.cards), plan.at, count)
      modifies this, d`next
      ensures deck == d && d.Valid() && order == deal && Value() == started
    {
      var posted, at := PrepareHand(d, count, s, plan);
      AskPosted(posted, at, d, count, s, started, deal);
    }

    method AskPosted(posted: Seats, at: Positions, d: Deck, count: nat, ghost before: State, ghost started: State,
                     ghost deal: seq<nat>)
      requires Value() == before && d.Valid() && d.next == 2 * count && count == |ReadySeats(before.seats)|
      requires Taken(posted, at.small) && Taken(posted, at.big) && at.dealer < |posted|
      requires started == Asked(Posted(before, posted, at, d.cards), at, count)
      modifies this
      ensures deck == d && order == deal && Value() == started
    {
      var able := CollectAble(posted);
      ResetHand(posted, at, d, able);
      SetInitialActor(at.dealer, at.big, count);
      order := deal;
    }

    method SetInitialActor(dealer: nat, bb: nat, count: nat)
      requires dealer < |seats| && bb < |seats|
      modifies `actingSeat
      ensures Value() == old(Value()).(actingSeat := InitialActor(old(Value()), dealer, bb, count))
    {
      if count == 2 {
        if seats[dealer].Some? && CanAct(seats[dealer].value) && seats[dealer].value.id in pending {
          assert dealer in Deciders(Value());
          actingSeat := Some(dealer);
          return;
        }
        actingSeat := NextDecider(seats, pending, dealer, Value());
        return;
      }
      actingSeat := NextDecider(seats, pending, bb, Value());
    }

    /** Starts a hand with a sound, unused deck. */
    method StartHand(d: Deck) returns (error: TableError)
      requires Valid() && d.Valid() && d.next == 0 && d != deck
      modifies this, d`next
      ensures Valid()
      ensures Outcome(Value(), error) == TableModel.StartHand(old(Value()), d.cards)
    {
      if !ConfigOk(config) {
        return InvalidConfiguration;
      }
      if HandRunning(street) {
        return HandInProgress;
      }
      var ready := CountReady(seats);
      if ready < config.minPlayers {
        return NotEnoughPlayers;
      }
      Launch(d, ready, Value());
      return Ok;
    }

    /** The start of a hand for which enough players are ready. */
    method Launch(d: Deck, ready: nat, ghost s: State)
      requires Value() == s && Inv(s) && !HandRunning(s.street) && ConfigOk(s.config)
      requires d.Valid() && d.next == 0 && d != deck && ready == |ReadySeats(s.seats)| >= s.config.minPlayers
      modifies this, d`next
      ensures Valid()
      ensures Outcome(Value(), Ok) == TableModel.StartHand(s, d.cards)
    {
      ghost var plan, started, begun, deal := StartPlan(s, d.cards);
      PlayOut(d, ready, s, plan, started, begun, deal);
    }

    method PlayOut(d: Deck, count: nat, ghost s: State, ghost plan: Opening, ghost started: State, ghost begun: State,
                   ghost deal: seq<nat>)
      requires Value() == s && d.Valid() && d.next == 0 && count == |ReadySeats(s.seats)| >= 2
      requires d != deck && OpeningOf(s, d.cards, plan) && IsPlan(started, begun, d.cards, deal)
      requires started == Asked(Posted(s, plan.posted, plan.at, d.cards), plan.at, count)
      modifies this, d`next
      ensures Valid() && Value() == begun
    {
      OpenHand(d, count, s, plan, started, deal);
      RunOnIfNobodyCanAct(started, begun, deal);
    }

    /** With at most one player able to act after the blinds, the hand is run on at once. */
    method RunOnIfNobodyCanAct(ghost started: State, ghost begun: State, ghost deal: seq<nat>)
      requires deck != null && deck.Valid() && Value() == started && order == deal && IsPlan(started, begun, deck.cards, deal)
      modifies this, deck`next
      ensures Valid() && Value() == begun && deck == old(deck)
    {
      var actionable := CountAble(seats);
      if actionable <= 1 {
        AskNobody();
        AdvanceUntilActionOrSettlement();
      }
    }

    method AskNobody()
      modifies `pending, `actingSeat
      ensures Value() == old(Value()).(pending := {}, actingSeat := None)
    {
      pending := {};
      actingSeat := None;
    }

    /** Starts a hand with the given cards, refusing them when they are not a full deck. */
    method StartHandWithDeck(cards: seq<Card>) returns (error: TableError)
      requires Valid()
      modifies this
      ensures Valid()
      ensures Outcome(Value(), error) == TableModel.StartHand(old(Value()), cards)
    {
      var d := CheckedDeck(cards);
      if d == null {
        return InvalidConfiguration;
      }
      error := StartHand(d);
    }

    /** Starts a hand with a shuffled deck, whatever the random source chooses. */
    method StartHandShuffled(choices: seq<nat>) returns (error: TableError, ghost cards: seq<Card>)
      requires Valid() && ValidChoices(choices, 52)
      modifies this
      ensures Valid() && ValidDeck(cards)
      ensures Outcome(Value(), error) == TableModel.StartHand(old(Value()), cards)
    {
      var d := new Deck.Shuffle(choices);
      cards := d.cards;
      error := StartHand(d);
    }

    // ---------- aborting ----------

    method AbortHand() returns (error: TableError)
      requires Valid()
      modifies this
      ensures Valid()
      ensures Outcome(Value(), error) == TableModel.AbortHand(old(Value()))
    {
      AbortInv(Value());
      if street == Waiting {
        return ActionNotAllowed;
      }
      var refunded := UndoHand(seats, street == Settled, lastAwards, Value());
      CloseHand(refunded);
      return Ok;
    }

    method CloseHand(refunded: Seats)
      modifies this
      ensures deck == null
      ensures Value() == old(Value()).(seats := refunded, street := Waiting, actingSeat := None, currentBet := 0,
                                       minimumRaise := config.bigBlind, pending := {}, raiseAllowed := {}, board := [],
                                       deck := None, lastAwards := [], serverSequence := old(serverSequence) + 1)
    {
      OpenBetting({});
      seats, board, lastAwards := refunded, [], [];
      street, actingSeat, deck := Waiting, None, null;
      serverSequence := serverSequence + 1;
    }

    // ---------- looking ----------

    method TotalChips() returns (total: int)
      requires Valid()
      ensures total == TableModel.TotalChips(Value())
    {
      total := SumChips(seats, street == Settled, Value());
    }

    method TakeSnapshot(viewer: Option<PlayerId>) returns (r: Snapshot)
      requires Valid()
      ensures r == SnapshotFor(Value(), viewer)
      ensures ShowsTable(r, Value())
      ensures ListsSeats(r.players, seats) && ListsCards(r.players, seats, street, viewer)
    {
      SnapshotTells(Value(), viewer);
      var pot := 0;
      if street != Settled {
        pot := SumPot(seats);
      }
      var views := CollectViews(seats, street, viewer);
      r := Snapshot(street, handId, serverSequence, IdAt(seats, dealerSeat), IdAt(seats, actingSeat),
                    currentBet, minimumRaise, pot, board, views);
    }

    method TakeAuditSnapshot() returns (r: Snapshot)
      requires Valid()
      ensures r == AuditSnapshot(Value())
    {
      var pot := 0;
      if street != Settled {
        pot := SumPot(seats);
      }
      var views := CollectAuditViews(seats);
      r := Snapshot(street, handId, serverSequence, IdAt(seats, dealerSeat), IdAt(seats, actingSeat),
                    currentBet, minimumRaise, pot, board, views);
    }
  }

  /** What an opened hand becomes, with its cards where the deal puts them. */
  ghost predicate IsPlan(started: State, begun: State, cards: seq<Card>, deal: seq<nat>) {
    var u := started.(pending := {}, actingSeat := None);
    && InHand(started) && Holds(started, cards, deal)
    && Inv(begun) && Holds(begun, cards, deal)
    && CanAdvance(u)
    && begun == if |Able(started.seats)| <= 1 then Advance(u) else started
  }

  /** The seats with cards and blinds, and where the button and the blinds are. */
  datatype Opening = Opening(posted: Seats, at: Positions)

  ghost predicate OpeningOf(s: State, cards: seq<Card>, plan: Opening) {
    && CanOpen(s, cards)
    && plan.posted == PostedSeats(s, cards) && plan.at == PositionsOf(s)
    && Taken(plan.posted, plan.at.small) && Taken(plan.posted, plan.at.big) && plan.at.dealer < |plan.posted|
  }

  lemma StartPlan(s: State, cards: seq<Card>)
    returns (plan: Opening, started: State, begun: State, deal: seq<nat>)
    requires Inv(s) && !HandRunning(s.street) && ConfigOk(s.config) && ValidDeck(cards)
    requires |ReadySeats(s.seats)| >= s.config.minPlayers
    ensures OpeningOf(s, cards, plan) && IsPlan(started, begun, cards, deal)
    ensures started == Asked(Posted(s, plan.posted, plan.at, cards), plan.at, |ReadySeats(s.seats)|)
    ensures Outcome(begun, Ok) == TableModel.StartHand(s, cards)
  {
    NotRunningRests(s);
    EnoughCanOpen(s, cards);
    BeginCards(s, cards);
    OpenedCanAdvance(s, cards);
    plan := Opening(PostedSeats(s, cards), PositionsOf(s));
    started, begun, deal := Opened(s, cards), Begin(s, cards), DealOrder(s);
  }

  lemma BeginCards(s: State, cards: seq<Card>)
    requires Resting(s) && CanOpen(s, cards) && ConfigOk(s.config) && |ReadySeats(s.seats)| >= 2
    ensures Holds(Opened(s, cards), cards, DealOrder(s)) && InHand(Opened(s, cards))
    ensures Holds(Begin(s, cards), cards, DealOrder(s)) && Inv(Begin(s, cards))
  {
    OpenedHolds(s, cards);
    OpenedIsOpening(s, cards);
    OpeningInHand(s, Opened(s, cards), PositionsOf(s));
    BeginHolds(s, cards);
    var t := BeginIsBegun(s, cards);
    BegunProgress(s, t, PositionsOf(s), Begin(s, cards));
  }

  /** Resetting the seats marks exactly the ready ones as taking part. */
  lemma EnteredGroups(seats: Seats)
    ensures Participants(EnterAll(seats)) == ReadySeats(seats)
    ensures forall i :: Taken(EnterAll(seats), i) && EnterAll(seats)[i].value.status == Active <==> i in ReadySeats(seats)
  {
    var e := EnterAll(seats);
    assert forall i: nat :: i in Participants(e) <==> i in ReadySeats(seats);
  }

  lemma DealtGroups(s: State, dealer: nat, cards: seq<Card>)
    requires CanOpen(s, cards) && dealer in ReadySeats(s.seats)
    ensures Participants(DealtSeats(s, dealer, cards)) == ReadySeats(s.seats)
  {
    DealtSeatsFacts(s, dealer, cards);
    DealtGroupsOf(s.seats, DealtSeats(s, dealer, cards));
  }

  lemma DealtGroupsOf(seats: Seats, dealt: Seats)
    requires |dealt| == |seats|
    requires forall i :: 0 <= i < |seats| ==>
               && (dealt[i].Some? <==> seats[i].Some?)
               && (dealt[i].Some? ==> DealtPlayer(seats[i].value, dealt[i].value))
    ensures Participants(dealt) == ReadySeats(seats)
  {
    assert forall i: nat :: i in Participants(dealt) <==> i in ReadySeats(seats);
  }

  lemma LowestIsNext(a: set<nat>, n: nat, sorted: seq<nat>)
    requires (forall i :: i in a ==> i < n) && sorted != [] && (forall i :: i in sorted <==> i in a)
    requires forall j, k :: 0 <= j < k < |sorted| ==> sorted[j] < sorted[k]
    ensures 0 < n && Next(a, n, n - 1) == Some(sorted[0])
  {
    assert sorted[0] in a;
    forall j | j in a && j < n
      ensures Distance(n, n - 1, sorted[0]) <= Distance(n, n - 1, j)
    {
      var k :| 0 <= k < |sorted| && sorted[k] == j;
    }
    NextUnique(a, n, n - 1, sorted[0]);
  }

  lemma RefusedResult(s: State, cmd: ActionCommand)
    requires Deciding(s) && HasId(s.seats, s.actingSeat.value, cmd.playerId)
    requires BetPhase(s, s.actingSeat.value, cmd).error != Ok
    ensures TableModel.Act(s, cmd) == Fail(s, BetPhase(s, s.actingSeat.value, cmd).error)
  {}

  lemma PlayedUnderWay(s: State, cmd: ActionCommand, cards: seq<Card>, order: seq<nat>)
    requires Deciding(s) && Holds(s, cards, order) && BetPhase(s, s.actingSeat.value, cmd).error == Ok
    ensures InHand(Played(s, cmd)) && CanAdvance(Played(s, cmd)) && Holds(Played(s, cmd), cards, order)
  {
    PlayedMidHand(s, cmd);
    PlayedHolds(s, cmd, cards, order);
  }

  lemma AcceptedResult(s: State, cmd: ActionCommand, cards: seq<Card>, order: seq<nat>)
    requires Deciding(s) && HasId(s.seats, s.actingSeat.value, cmd.playerId) && Holds(s, cards, order)
    requires BetPhase(s, s.actingSeat.value, cmd).error == Ok
    ensures CanAdvance(Played(s, cmd))
    ensures var t := Continue(Played(s, cmd), s.actingSeat.value);
            && Inv(t) && Holds(t, cards, order)
            && TableModel.Act(s, cmd) ==
               ActOutcome(t, ActionResult(Ok, t.serverSequence, if t.street == Settled then t.lastAwards else [], s.street))
  {
    PlayedMidHand(s, cmd);
    ActProgress(s, cmd);
    PlayedHolds(s, cmd, cards, order);
    ContinueHolds(Played(s, cmd), s.actingSeat.value, cards, order);
  }

  /** What the next street looks like, run on or waiting for a player. */
  lemma NextStreetValue(s: State, cards: seq<Card>, order: seq<nat>) returns (t: State)
    requires InHand(s) && CanAdvance(s) && Holds(s, cards, order)
    requires RoundComplete(s) && |Contenders(s.seats)| >= 2 && s.street != River
    ensures t == TableModel.AdvanceStreet(s)
    ensures && t.dealerSeat == s.dealerSeat && |t.seats| == |s.seats|
            && if |Able(t.seats)| > 1 then Advance(s) == t.(actingSeat := Next(Deciders(t), |t.seats|, t.dealerSeat.value))
               else
                 var u := t.(pending := {}, actingSeat := None);
                 InHand(u) && CanAdvance(u) && Holds(u, cards, order) && Advance(s) == Advance(u)
                 && StreetsLeft(u.street) < StreetsLeft(s.street)
  {
    StreetHolds(s, cards, order);
    AdvanceStreetMidHand(s);
    ClearStreetKeeps(s.seats);
    t := TableModel.AdvanceStreet(s);
    BoundedCards(t);
  }

  lemma StreetAdvanced(s: State, cleared: Seats, able: set<PlayerId>)
    requires Betting(s.street) && s.street != River
    requires s.deck.Some? && s.deck.value.next + 1 + Revealed(s.street) <= |s.deck.value.cards|
    requires cleared == ClearStreet(s.seats) && able == AbleIds(cleared)
    ensures var next := s.deck.value.next + 1 + Revealed(s.street);
            TableModel.AdvanceStreet(s)
            == s.(seats := cleared, street := NextStreet(s.street), currentBet := 0,
                  minimumRaise := s.config.bigBlind, pending := able, raiseAllowed := able,
                  board := s.board + s.deck.value.cards[s.deck.value.next + 1..next],
                  deck := Some(DeckState(s.deck.value.cards, next)))
  {}

  /** Crediting the awards and clearing the ready flags is what settling does to the seats. */
  lemma CreditedPaid(seats: Seats, awards: seq<PotAward>)
    ensures NobodyReady(Credited(seats, awards)) == PaidSeats(seats, awards)
  {}

  lemma FoldCredited(seats: Seats, winner: nat)
    requires DistinctIds(seats) && Taken(seats, winner)
    ensures var p := seats[winner].value;
            NobodyReady(seats[winner := Some(p.(stack := p.stack + PotSize(seats)))])
            == PaidSeats(seats, FoldAwards(seats, winner))
  {
    TableAccounting.FoldPays(seats, winner);
    var p := seats[winner].value;
    var t := seats[winner := Some(p.(stack := p.stack + PotSize(seats)))];
    forall i | 0 <= i < |seats|
      ensures NobodyReady(t)[i] == PaidSeats(seats, FoldAwards(seats, winner))[i]
    {
      if seats[i].Some? {
        assert Taken(seats, i);
      }
    }
  }
}
