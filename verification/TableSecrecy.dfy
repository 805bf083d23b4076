/** A running hand reveals nothing about cards the viewer has not seen. */
module TableSecrecy {
  import opened Wrappers
  import opened Sums
  import opened Cards
  import opened Clockwise
  import opened TableModel
  import opened TableInvariant
  import opened TableRuns
  import opened TableCards
  import opened TableViews

  // ---------- the table with its cards turned blank ----------

  function BlankPlayer(p: Player): Player {
    p.(hole := (DEFAULT_CARD, DEFAULT_CARD))
  }

  ghost function BlankSeats(seats: Seats): (r: Seats)
    ensures |r| == |seats|
  {
    seq(|seats|, i requires 0 <= i < |seats| => if seats[i].Some? then Some(BlankPlayer(seats[i].value)) else None)
  }

  ghost function Blanks(n: nat): seq<Card> {
    seq(n, _ => DEFAULT_CARD)
  }

  ghost function Blank(s: State): State {
    s.(seats := BlankSeats(s.seats), board := Blanks(|s.board|),
       deck := if s.deck.Some? then Some(DeckState(Blanks(|s.deck.value.cards|), s.deck.value.next)) else None)
  }

  lemma BlankGroups(seats: Seats)
    ensures var b := BlankSeats(seats);
            && (forall i :: Taken(b, i) <==> Taken(seats, i))
            && Contenders(b) == Contenders(seats) && Participants(b) == Participants(seats)
            && Able(b) == Able(seats) && AbleIds(b) == AbleIds(seats)
            && Commitments(b) == Commitments(seats)
  {
    var b := BlankSeats(seats);
    assert forall i :: Taken(b, i) <==> Taken(seats, i);
    assert forall i: nat :: i in Contenders(b) <==> i in Contenders(seats);
    assert forall i: nat :: i in Participants(b) <==> i in Participants(seats);
    assert forall i: nat :: i in Able(b) <==> i in Able(seats);
    forall id
      ensures id in AbleIds(b) <==> id in AbleIds(seats)
    {
      if id in AbleIds(b) {
        var i := AbleSeat(b, id);
        assert Taken(seats, i) && CanAct(seats[i].value) && seats[i].value.id == id;
      }
      if id in AbleIds(seats) {
        var i := AbleSeat(seats, id);
        assert Taken(b, i) && CanAct(b[i].value) && b[i].value.id == id;
      }
    }
  }

  lemma BlankRound(s: State)
    ensures Deciders(Blank(s)) == Deciders(s)
    ensures forall i :: Unmatched(Blank(s), i) <==> Unmatched(s, i)
    ensures RoundComplete(Blank(s)) <==> RoundComplete(s)
  {
    BlankGroups(s.seats);
    assert forall i: nat :: i in Deciders(Blank(s)) <==> i in Deciders(s);
  }

  lemma BlankInHand(s: State)
    requires InHand(s)
    ensures InHand(Blank(s))
  {
    BlankGroups(s.seats);
    var b := Blank(s);
    assert forall i :: Taken(b.seats, i) ==> b.seats[i].value == BlankPlayer(s.seats[i].value);
    if s.currentBet > 0 {
      var i :| Taken(s.seats, i) && s.seats[i].value.streetCommitment == s.currentBet;
      assert Taken(b.seats, i) && b.seats[i].value.streetCommitment == s.currentBet;
    }
  }

  lemma BlankDeciding(s: State)
    requires Deciding(s)
    ensures Deciding(Blank(s))
  {
    BlankInHand(s);
    BlankGroups(s.seats);
    BlankRound(s);
  }

  lemma BlankCanAdvance(s: State)
    requires CanAdvance(s)
    ensures CanAdvance(Blank(s))
  {
    BlankGroups(s.seats);
  }

  // ---------- betting does not look at cards ----------

  lemma BlankUpdate(seats: Seats, a: nat, q: Player)
    requires a < |seats|
    ensures BlankSeats(seats[a := Some(q)]) == BlankSeats(seats)[a := Some(BlankPlayer(q))]
  {}

  lemma BlankOthers(seats: Seats, id: PlayerId, bet: int)
    ensures OtherAble(BlankSeats(seats), id) == OtherAble(seats, id)
    ensures UnderCalled(BlankSeats(seats), id, bet) == UnderCalled(seats, id, bet)
  {
    var b := BlankSeats(seats);
    assert forall i :: Taken(b, i) <==> Taken(seats, i);
    assert forall i :: Taken(b, i) ==> b[i].value == BlankPlayer(seats[i].value);
    forall x
      ensures x in OtherAble(b, id) <==> x in OtherAble(seats, id)
      ensures x in UnderCalled(b, id, bet) <==> x in UnderCalled(seats, id, bet)
    {
      BlankMember(seats, id, bet, x);
    }
  }

  lemma BlankMember(seats: Seats, id: PlayerId, bet: int, x: PlayerId)
    ensures x in OtherAble(BlankSeats(seats), id) <==> x in OtherAble(seats, id)
    ensures x in UnderCalled(BlankSeats(seats), id, bet) <==> x in UnderCalled(seats, id, bet)
  {
    var b := BlankSeats(seats);
    forall i: nat | i < |seats|
      ensures Taken(b, i) <==> Taken(seats, i)
      ensures Taken(b, i) ==> b[i].value == BlankPlayer(seats[i].value)
    {}
    if x in OtherAble(seats, id) {
      var i: nat :| i < |seats| && Taken(seats, i) && seats[i].value.id != id && CanAct(seats[i].value) && seats[i].value.id == x;
      assert Taken(b, i) && CanAct(b[i].value);
    }
    if x in UnderCalled(seats, id, bet) {
      var i: nat :| i < |seats| && Taken(seats, i) && seats[i].value.id != id && CanAct(seats[i].value)
                    && seats[i].value.streetCommitment < bet && seats[i].value.id == x;
      assert Taken(b, i) && CanAct(b[i].value) && b[i].value.streetCommitment < bet;
    }
  }

  lemma BlankLift(s: State, a: nat, target: int)
    requires Taken(s.seats, a)
    ensures Taken(Blank(s).seats, a)
    ensures Lift(Blank(s), a, target) == Blank(Lift(s, a, target))
  {
    var q := PayTo(s.seats[a].value, target);
    BlankUpdate(s.seats, a, q);
    BlankOthers(s.seats[a := Some(q)], q.id, target);
  }

  lemma BlankDone(s: State, a: nat, q: Player)
    requires a < |s.seats|
    ensures Done(Blank(s), a, BlankPlayer(q)) == Blank(Done(s, a, q))
  {
    BlankUpdate(s.seats, a, q);
  }

  ghost predicate SameBetPhase(s: State, a: nat, cmd: ActionCommand)
    requires Taken(s.seats, a)
  {
    Taken(Blank(s).seats, a)
    && BetPhase(Blank(s), a, cmd).error == BetPhase(s, a, cmd).error
    && BetPhase(Blank(s), a, cmd).state == Blank(BetPhase(s, a, cmd).state)
  }

  lemma BlankPassive(s: State, a: nat, cmd: ActionCommand)
    requires Taken(s.seats, a) && cmd.action in {Fold, Check, Call}
    ensures SameBetPhase(s, a, cmd)
  {
    var p := s.seats[a].value;
    match cmd.action
    case Fold => BlankDone(s, a, p.(status := Folded));
    case Check => BlankDone(s, a, p);
    case Call => BlankDone(s, a, PayTo(p, Min(s.currentBet, p.streetCommitment + p.stack)));
  }

  lemma BlankActive(s: State, a: nat, cmd: ActionCommand)
    requires Taken(s.seats, a) && cmd.action in {Bet, Raise}
    ensures SameBetPhase(s, a, cmd)
  {
    BlankLift(s, a, cmd.amount);
  }

  lemma BlankAllIn(s: State, a: nat, cmd: ActionCommand)
    requires Taken(s.seats, a) && cmd.action == GoAllIn
    ensures SameBetPhase(s, a, cmd)
  {
    var p := s.seats[a].value;
    BlankDone(s, a, PayTo(p, p.streetCommitment + p.stack));
    BlankLift(s, a, p.streetCommitment + p.stack);
  }

  lemma BlankBetPhase(s: State, a: nat, cmd: ActionCommand)
    requires Taken(s.seats, a)
    ensures SameBetPhase(s, a, cmd)
  {
    match cmd.action
    case GoAllIn => BlankAllIn(s, a, cmd);
    case Bet => BlankActive(s, a, cmd);
    case Raise => BlankActive(s, a, cmd);
    case _ => BlankPassive(s, a, cmd);
  }

  // ---------- nor does moving on, short of a showdown ----------

  lemma BlankStreet(s: State)
    requires CanAdvance(s) && s.street != River
    ensures CanAdvance(Blank(s)) && AdvanceStreet(Blank(s)) == Blank(AdvanceStreet(s))
  {
    BlankCanAdvance(s);
    BlankGroups(ClearStreet(s.seats));
    assert ClearStreet(BlankSeats(s.seats)) == BlankSeats(ClearStreet(s.seats));
    var t := AdvanceStreet(s);
    assert AdvanceStreet(Blank(s)).board == Blanks(|t.board|);
  }

  lemma {:induction false} BlankAdvance(s: State)
    requires CanAdvance(s)
    ensures CanAdvance(Blank(s))
    ensures Advance(Blank(s)).street == Advance(s).street
    ensures Advance(s).street != Settled ==> Advance(Blank(s)) == Blank(Advance(s))
    decreases StreetsLeft(s.street)
  {
    BlankCanAdvance(s);
    BlankGroups(s.seats);
    BlankRound(s);
    if |Contenders(s.seats)| >= 2 && RoundComplete(s) && s.street != River {
      BlankRunOut(s);
    }
  }

  lemma {:induction false} BlankRunOut(s: State)
    requires CanAdvance(s) && CanAdvance(Blank(s)) && |Contenders(s.seats)| >= 2 && RoundComplete(s) && s.street != River
    requires |Contenders(Blank(s).seats)| >= 2 && RoundComplete(Blank(s))
    ensures Advance(Blank(s)).street == Advance(s).street
    ensures Advance(s).street != Settled ==> Advance(Blank(s)) == Blank(Advance(s))
    decreases StreetsLeft(s.street), 0
  {
    var t := BlankNext(s);
    if |Able(t.seats)| <= 1 {
      BlankAdvance(t.(pending := {}, actingSeat := None));
    }
  }

  /** The next street of a hand and of its blank. */
  lemma BlankNext(s: State) returns (t: State)
    requires CanAdvance(s) && CanAdvance(Blank(s)) && |Contenders(s.seats)| >= 2 && s.street != River
    ensures t == AdvanceStreet(s) && AdvanceStreet(Blank(s)) == Blank(t)
    ensures |Able(Blank(t).seats)| == |Able(t.seats)| && Deciders(Blank(t)) == Deciders(t)
    ensures var u := t.(pending := {}, actingSeat := None);
            CanAdvance(u) && Blank(u) == Blank(t).(pending := {}, actingSeat := None)
  {
    t := AdvanceStreet(s);
    BlankStreet(s);
    NextCanAdvance(s);
    BlankGroups(t.seats);
    BlankRound(t);
  }

  lemma NextCanAdvance(s: State)
    requires CanAdvance(s) && s.street != River
    ensures CanAdvance(AdvanceStreet(s).(pending := {}, actingSeat := None))
  {
    ClearStreetKeeps(s.seats);
  }

  lemma BlankContinue(s: State, from: nat)
    requires CanAdvance(s) && from < |s.seats|
    ensures CanAdvance(Blank(s))
    ensures Continue(Blank(s), from).street == Continue(s, from).street
    ensures Continue(s, from).street != Settled ==> Continue(Blank(s), from) == Blank(Continue(s, from))
  {
    BlankCanAdvance(s);
    BlankGroups(s.seats);
    BlankRound(s);
    if |Contenders(s.seats)| >= 2 && RoundComplete(s) {
      var u := s.(actingSeat := None);
      assert Blank(u) == Blank(s).(actingSeat := None);
      BlankAdvance(u);
    }
  }

  lemma BlankPlayed(s: State, cmd: ActionCommand)
    requires Deciding(s)
    ensures Deciding(Blank(s)) && Played(Blank(s), cmd) == Blank(Played(s, cmd))
  {
    BlankDeciding(s);
    BlankBetPhase(s, s.actingSeat.value, cmd);
  }

  /** The same action on the blank table is answered the same, and leads to the same blank table unless it settles. */
  lemma BlankAct(s: State, cmd: ActionCommand)
    requires Deciding(s)
    ensures Deciding(Blank(s))
    ensures Act(Blank(s), cmd).result.error == Act(s, cmd).result.error
    ensures Act(Blank(s), cmd).state.street == Act(s, cmd).state.street
    ensures Act(s, cmd).state.street != Settled ==> Act(Blank(s), cmd).state == Blank(Act(s, cmd).state)
  {
    var a := s.actingSeat.value;
    BlankPlayed(s, cmd);
    BlankBetPhase(s, a, cmd);
    ActCases(s, cmd);
    ActCases(Blank(s), cmd);
    BlankErrors(s, cmd);
    if Act(s, cmd).result.error == Ok {
      BlankContinue(Played(s, cmd), a);
    }
  }

  lemma BlankErrors(s: State, cmd: ActionCommand)
    requires Deciding(s) && Deciding(Blank(s))
    requires BetPhase(Blank(s), s.actingSeat.value, cmd).error == BetPhase(s, s.actingSeat.value, cmd).error
    ensures Act(Blank(s), cmd).result.error == Act(s, cmd).result.error
  {}

  // ---------- two decks, one hand ----------

  /** Two tables that differ in their cards only. */
  ghost predicate SameButCards(s: State, t: State) {
    Blank(s) == Blank(t)
  }

  lemma BlankSeatOf(seats: Seats, id: PlayerId)
    ensures SeatOf(BlankSeats(seats), id) == SeatOf(seats, id)
  {
    var b := BlankSeats(seats);
    assert forall i :: HasId(b, i, id) <==> HasId(seats, i, id);
  }

  lemma BlankLeave(s: State, id: PlayerId)
    ensures RemovePlayer(Blank(s), id).error == RemovePlayer(s, id).error
    ensures RemovePlayer(Blank(s), id).state == Blank(RemovePlayer(s, id).state)
  {
    BlankSeatOf(s.seats, id);
    var i := SeatOf(s.seats, id);
    if i.Some? {
      assert BlankSeats(s.seats)[i.value].value == BlankPlayer(s.seats[i.value].value);
      assert BlankSeats(s.seats[i.value := None]) == BlankSeats(s.seats)[i.value := None];
    }
  }

  lemma BlankConnect(s: State, id: PlayerId, connected: bool)
    ensures SetConnected(Blank(s), id, connected).error == SetConnected(s, id, connected).error
    ensures SetConnected(Blank(s), id, connected).state == Blank(SetConnected(s, id, connected).state)
  {
    BlankSeatOf(s.seats, id);
    var i := SeatOf(s.seats, id);
    if i.Some? {
      assert BlankSeats(s.seats)[i.value].value == BlankPlayer(s.seats[i.value].value);
      BlankUpdate(s.seats, i.value, s.seats[i.value].value.(connected := connected));
    }
  }

  lemma BlankStuck(s: State)
    requires Stuck(s)
    ensures Stuck(Blank(s))
  {
    BlankInHand(s);
    BlankGroups(s.seats);
    BlankRound(s);
  }

  lemma BlankInv(s: State)
    requires Inv(s) && Betting(s.street)
    ensures Inv(Blank(s))
    ensures Deciding(s) ==> Deciding(Blank(s))
    ensures Stuck(s) ==> Stuck(Blank(s))
  {
    if Deciding(s) {
      BlankDeciding(s);
    }
    if Stuck(s) {
      BlankStuck(s);
    }
  }

  /** `b` is the answer of the blank table to what the table answers with `r`. */
  ghost predicate SameAnswer(r: Outcome, b: Outcome) {
    && b.error == r.error
    && b.state.street == r.state.street
    && (r.state.street != Settled ==> b.state == Blank(r.state))
  }

  lemma BlankStuckAct(s: State, cmd: ActionCommand)
    requires Stuck(s) && Stuck(Blank(s))
    ensures Act(Blank(s), cmd).result.error == Act(s, cmd).result.error
    ensures Act(s, cmd).state == s && Act(Blank(s), cmd).state == Blank(s)
  {
    StuckRefuses(s, cmd);
    StuckRefuses(Blank(s), cmd);
    BlankStuckErrors(s, cmd);
  }

  lemma BlankPlay(s: State, cmd: ActionCommand)
    requires Inv(s) && Inv(Blank(s)) && (Deciding(s) || (Stuck(s) && Stuck(Blank(s))))
    ensures SameAnswer(Outcome(Act(s, cmd).state, Act(s, cmd).result.error),
                       Outcome(Act(Blank(s), cmd).state, Act(Blank(s), cmd).result.error))
  {
    if Deciding(s) {
      BlankAct(s, cmd);
    } else {
      BlankStuckAct(s, cmd);
    }
  }

  /** How the operations that need the table at rest are refused during a hand. */
  ghost function Refusal(c: Config, op: Op): TableError {
    if !op.Ready? && (!ConfigOk(c) || (op.Start? && !ValidDeck(op.cards))) then InvalidConfiguration else HandInProgress
  }

  lemma Refuses(s: State, op: Op)
    requires Inv(s) && Betting(s.street) && (op.Sit? || op.Ready? || op.Start?)
    ensures Step(s, op) == Outcome(s, Refusal(s.config, op))
  {}

  lemma BlankStep(s: State, op: Op)
    requires Inv(s) && Betting(s.street) && !op.Abort?
    ensures Inv(Blank(s)) && SameAnswer(Step(s, op), Step(Blank(s), op))
  {
    BlankInv(s);
    if op.Play? {
      BlankPlay(s, op.cmd);
    } else if op.Leave? {
      BlankLeave(s, op.id);
    } else if op.Connect? {
      BlankConnect(s, op.id, op.connected);
    } else {
      Refuses(s, op);
      Refuses(Blank(s), op);
    }
  }

  lemma BlankStuckErrors(s: State, cmd: ActionCommand)
    requires Stuck(s) && Stuck(Blank(s))
    ensures Act(Blank(s), cmd).result.error == Act(s, cmd).result.error
  {}

  lemma TwinStep(s: State, t: State, op: Op)
    requires Inv(s) && Inv(t) && Betting(s.street) && !op.Abort? && SameButCards(s, t)
    ensures Step(s, op).error == Step(t, op).error
    ensures Step(s, op).state.street == Step(t, op).state.street
    ensures Step(s, op).state.street != Settled ==> SameButCards(Step(s, op).state, Step(t, op).state)
  {
    BlankStep(s, op);
    BlankStep(t, op);
  }

  // ---------- the start ----------

  lemma BlankDealt(seats: Seats, order: seq<nat>, cards: seq<Card>, other: seq<Card>)
    requires 2 * |order| <= |cards| && 2 * |order| <= |other|
    ensures BlankSeats(DealHoles(seats, order, cards)) == BlankSeats(DealHoles(seats, order, other))
  {}

  lemma BlankBlinds(seats: Seats, other: Seats, sb: nat, bb: nat, c: Config)
    requires Taken(seats, sb) && Taken(seats, bb) && Taken(other, sb) && Taken(other, bb)
    requires BlankSeats(seats) == BlankSeats(other)
    ensures BlankSeats(BlindedSeats(seats, sb, bb, c)) == BlankSeats(BlindedSeats(other, sb, bb, c))
  {
    var p, q := PostBlind(seats[sb].value, c.smallBlind), PostBlind(other[sb].value, c.smallBlind);
    assert BlankPlayer(seats[sb].value) == BlankSeats(seats)[sb].value;
    assert BlankPlayer(other[sb].value) == BlankSeats(other)[sb].value;
    BlankUpdate(seats, sb, p);
    BlankUpdate(other, sb, q);
    var u, v := seats[sb := Some(p)], other[sb := Some(q)];
    assert BlankPlayer(u[bb].value) == BlankSeats(u)[bb].value;
    assert BlankPlayer(v[bb].value) == BlankSeats(v)[bb].value;
    BlankUpdate(u, bb, PostBlind(u[bb].value, c.bigBlind));
    BlankUpdate(v, bb, PostBlind(v[bb].value, c.bigBlind));
  }

  lemma PostedSeatsSame(s: State, cards: seq<Card>, other: seq<Card>)
    requires CanOpen(s, cards) && CanOpen(s, other)
    ensures BlankSeats(PostedSeats(s, cards)) == BlankSeats(PostedSeats(s, other))
  {
    var at := PositionsOf(s);
    var order := Order(ReadySeats(s.seats), |s.seats|, at.dealer);
    OrderSize(ReadySeats(s.seats), |s.seats|, at.dealer);
    BlankDealt(EnterAll(s.seats), order, cards, other);
    BlankBlinds(DealtSeats(s, at.dealer, cards), DealtSeats(s, at.dealer, other), at.small, at.big, s.config);
  }

  lemma PostedSame(s: State, seats: Seats, seats': Seats, at: Positions, cards: seq<Card>, other: seq<Card>)
    requires BlankSeats(seats) == BlankSeats(seats') && |cards| == |other|
    requires Taken(seats, at.small) && Taken(seats, at.big) && Taken(seats', at.small) && Taken(seats', at.big)
    ensures SameButCards(Posted(s, seats, at, cards), Posted(s, seats', at, other))
  {
    BlankGroups(seats);
    BlankGroups(seats');
    assert BlankPlayer(seats[at.small].value) == BlankSeats(seats)[at.small].value;
    assert BlankPlayer(seats'[at.small].value) == BlankSeats(seats')[at.small].value;
    assert BlankPlayer(seats[at.big].value) == BlankSeats(seats)[at.big].value;
    assert BlankPlayer(seats'[at.big].value) == BlankSeats(seats')[at.big].value;
  }

  lemma OpenedSame(s: State, cards: seq<Card>, other: seq<Card>)
    requires CanOpen(s, cards) && CanOpen(s, other) && ConfigOk(s.config)
    ensures SameButCards(Opened(s, cards), Opened(s, other))
  {
    var at := PositionsOf(s);
    PostedSeatsSame(s, cards, other);
    var seats, seats' := PostedSeats(s, cards), PostedSeats(s, other);
    PostedSame(s, seats, seats', at, cards, other);
    InitialActorSame(Posted(s, seats, at, cards), Posted(s, seats', at, other), at, |ReadySeats(s.seats)|);
  }

  lemma InitialActorSame(t: State, t': State, at: Positions, m: nat)
    requires SameButCards(t, t') && at.dealer < |t.seats| && at.big < |t.seats|
    ensures |t.seats| == |t'.seats| && InitialActor(t, at.dealer, at.big, m) == InitialActor(t', at.dealer, at.big, m)
    ensures SameButCards(t.(actingSeat := InitialActor(t, at.dealer, at.big, m)),
                         t'.(actingSeat := InitialActor(t', at.dealer, at.big, m)))
  {
    BlankRound(t);
    BlankRound(t');
    assert |Blank(t).seats| == |t.seats| && |Blank(t').seats| == |t'.seats|;
    var x := InitialActor(t, at.dealer, at.big, m);
    assert Blank(t.(actingSeat := x)) == Blank(t).(actingSeat := x);
    assert Blank(t'.(actingSeat := x)) == Blank(t').(actingSeat := x);
  }

  lemma TwinAdvance(t: State, t': State)
    requires SameButCards(t, t') && CanAdvance(t) && CanAdvance(t')
    ensures Advance(t).street == Advance(t').street
    ensures Advance(t).street != Settled ==> SameButCards(Advance(t), Advance(t'))
  {
    BlankAdvance(t);
    BlankAdvance(t');
  }

  lemma TwinBegin(s: State, cards: seq<Card>, other: seq<Card>)
    requires CanOpen(s, cards) && CanOpen(s, other) && ConfigOk(s.config) && |ReadySeats(s.seats)| >= 2
    ensures Begin(s, cards).street == Begin(s, other).street
    ensures Begin(s, cards).street != Settled ==> SameButCards(Begin(s, cards), Begin(s, other))
  {
    OpenedSame(s, cards, other);
    OpenedCanAdvance(s, cards);
    OpenedCanAdvance(s, other);
    var t, t' := Opened(s, cards), Opened(s, other);
    BlankGroups(t.seats);
    BlankGroups(t'.seats);
    assert |Able(t.seats)| == |Able(t'.seats)|;
    if |Able(t.seats)| <= 1 {
      var u, u' := t.(pending := {}, actingSeat := None), t'.(pending := {}, actingSeat := None);
      assert Blank(u) == Blank(t).(pending := {}, actingSeat := None);
      assert Blank(u') == Blank(t').(pending := {}, actingSeat := None);
      TwinAdvance(u, u');
    }
  }

  // ---------- what a viewer sees ----------

  lemma {:induction false} SameViews(seats: Seats, other: Seats, st: Street, viewer: Option<PlayerId>)
    requires BlankSeats(seats) == BlankSeats(other) && |seats| == |other|
    requires forall i :: Taken(seats, i) && Taken(other, i) && Shows(st, seats[i].value, viewer) ==>
                           seats[i].value.hole == other[i].value.hole
    ensures Views(seats, st, viewer) == Views(other, st, viewer)
  {
    if seats != [] {
      var n := |seats| - 1;
      assert BlankSeats(seats[..n]) == BlankSeats(seats)[..n];
      assert BlankSeats(other[..n]) == BlankSeats(other)[..n];
      assert forall i :: Taken(seats[..n], i) ==> Taken(seats, i) && seats[..n][i] == seats[i];
      assert forall i :: Taken(other[..n], i) ==> Taken(other, i) && other[..n][i] == other[i];
      SameViews(seats[..n], other[..n], st, viewer);
      assert BlankSeats(seats)[n] == BlankSeats(other)[n];
      if seats[n].Some? {
        assert BlankPlayer(seats[n].value) == BlankPlayer(other[n].value);
        assert Taken(seats, n) && Taken(other, n);
      }
    }
  }

  /** Tables alike but for cards look alike to a viewer who is shown the same hole cards and the same board. */
  lemma SameSnapshot(s: State, t: State, viewer: Option<PlayerId>)
    requires SameButCards(s, t) && s.board == t.board
    requires forall i :: Taken(s.seats, i) && Taken(t.seats, i) && Shows(s.street, s.seats[i].value, viewer) ==>
                           s.seats[i].value.hole == t.seats[i].value.hole
    ensures SnapshotFor(s, viewer) == SnapshotFor(t, viewer)
  {
    assert |Blank(s).seats| == |s.seats| && |Blank(t).seats| == |t.seats|;
    BlankGroups(s.seats);
    BlankGroups(t.seats);
    SameViews(s.seats, t.seats, s.street, viewer);
    BlankIdAt(s.seats, s.dealerSeat);
    BlankIdAt(t.seats, t.dealerSeat);
    BlankIdAt(s.seats, s.actingSeat);
    BlankIdAt(t.seats, t.actingSeat);
  }

  lemma BlankIdAt(seats: Seats, seat: Option<nat>)
    ensures IdAt(BlankSeats(seats), seat) == IdAt(seats, seat)
  {}

  // ---------- the theorem ----------

  /** How each operation of a run is answered. */
  ghost function Answers(s: State, ops: seq<Op>): seq<TableError>
    requires Inv(s)
    decreases ops
  {
    if ops == [] then []
    else
      StepInv(s, ops[0]);
      [Step(s, ops[0]).error] + Answers(Step(s, ops[0]).state, ops[1..])
  }

  lemma {:induction false} TwinRun(s: State, t: State, ops: seq<Op>)
    requires Inv(s) && Inv(t) && SameButCards(s, t) && WithinHand(s, ops) && s.street != Settled
    requires Run(s, ops).street != Settled
    ensures WithinHand(t, ops) && Answers(s, ops) == Answers(t, ops)
    ensures SameButCards(Run(s, ops), Run(t, ops))
    decreases ops
  {
    if ops != [] {
      WithinHandNext(s, ops);
      TwinStep(s, t, ops[0]);
      StepInv(t, ops[0]);
      SettledEndsHand(Step(s, ops[0]).state, ops[1..]);
      TwinRun(Step(s, ops[0]).state, Step(t, ops[0]).state, ops[1..]);
    }
  }

  lemma SettledEndsHand(s: State, ops: seq<Op>)
    requires Inv(s) && WithinHand(s, ops) && Run(s, ops).street != Settled
    ensures s.street != Settled
  {}

  /**
   Secrecy: the same operations on the same table, dealt from two decks that agree on the
   viewer's own cards and on the board turned up so far, are answered the same and show the
   viewer the same, in every state before the hand is settled.
   */
  lemma HandsLookAlike(s: State, cards: seq<Card>, other: seq<Card>, ops: seq<Op>, viewer: Option<PlayerId>)
    requires Resting(s) && StartHand(s, cards).error == Ok && ValidDeck(other)
    requires Inv(StartHand(s, cards).state) && Inv(StartHand(s, other).state)
    requires WithinHand(StartHand(s, cards).state, ops) && Run(StartHand(s, cards).state, ops).street != Settled
    requires ReadySeats(s.seats) != {} && |DealOrder(s)| <= 6
    requires var m := |DealOrder(s)|;
             var end := Run(StartHand(s, cards).state, ops);
             && BoardOf(cards, m, |end.board|) == BoardOf(other, m, |end.board|)
             && AgreeForViewer(end.seats, cards, other, DealOrder(s), viewer)
    ensures StartHand(s, other).error == Ok
    ensures var a, b := StartHand(s, cards).state, StartHand(s, other).state;
            Answers(a, ops) == Answers(b, ops) && SnapshotFor(Run(a, ops), viewer) == SnapshotFor(Run(b, ops), viewer)
  {
    var a, b := StartHand(s, cards).state, StartHand(s, other).state;
    EnoughCanOpen(s, cards);
    EnoughCanOpen(s, other);
    TwinBegin(s, cards, other);
    SettledEndsHand(a, ops);
    TwinRun(a, b, ops);
    CardsThroughoutHand(s, cards, ops);
    CardsThroughoutHand(s, other, ops);
    TwinCards(Run(a, ops), Run(b, ops), cards, other, DealOrder(s), viewer);
  }

  ghost predicate HasViewer(seats: Seats, i: nat, viewer: Option<PlayerId>) {
    Taken(seats, i) && viewer == Some(seats[i].value.id)
  }

  ghost predicate AgreeForViewer(seats: Seats, cards: seq<Card>, other: seq<Card>, order: seq<nat>, viewer: Option<PlayerId>)
    requires 2 * |order| <= |cards| && 2 * |order| <= |other|
  {
    forall k :: 0 <= k < |order| && HasViewer(seats, order[k], viewer) ==>
      cards[k] == other[k] && cards[|order| + k] == other[|order| + k]
  }

  lemma TwinHole(s: State, t: State, cards: seq<Card>, other: seq<Card>, order: seq<nat>, viewer: Option<PlayerId>, i: nat)
    requires Holds(s, cards, order) && Holds(t, other, order) && AgreeForViewer(s.seats, cards, other, order, viewer)
    requires HasViewer(s.seats, i, viewer) && i in Participants(s.seats)
    ensures Taken(t.seats, i) && s.seats[i].value.hole == t.seats[i].value.hole
  {
    assert i in order;
    var k :| 0 <= k < |order| && order[k] == i;
    assert HasViewer(s.seats, order[k], viewer);
    assert s.seats[order[k]].value.hole == (cards[k], cards[|order| + k]);
    assert t.seats[order[k]].value.hole == (other[k], other[|order| + k]);
  }

  lemma TwinBoard(s: State, t: State, cards: seq<Card>, other: seq<Card>, order: seq<nat>)
    requires SameButCards(s, t) && Holds(s, cards, order) && Holds(t, other, order)
    requires BoardOf(cards, |order|, |s.board|) == BoardOf(other, |order|, |s.board|)
    ensures s.board == t.board
  {
    assert |Blank(s).board| == |s.board| && |Blank(t).board| == |t.board|;
  }

  lemma TwinCards(s: State, t: State, cards: seq<Card>, other: seq<Card>, order: seq<nat>, viewer: Option<PlayerId>)
    requires SameButCards(s, t) && Inv(s) && s.street != Settled
    requires Holds(s, cards, order) && Holds(t, other, order)
    requires BoardOf(cards, |order|, |s.board|) == BoardOf(other, |order|, |s.board|)
    requires AgreeForViewer(s.seats, cards, other, order, viewer)
    ensures SnapshotFor(s, viewer) == SnapshotFor(t, viewer)
  {
    TwinBoard(s, t, cards, other, order);
    forall i | Taken(s.seats, i) && Taken(t.seats, i) && Shows(s.street, s.seats[i].value, viewer)
      ensures s.seats[i].value.hole == t.seats[i].value.hole
    {
      HolderDealtIn(s, i);
      TwinHole(s, t, cards, other, order, viewer, i);
    }
    SameSnapshot(s, t, viewer);
  }

  lemma HolderDealtIn(s: State, i: nat)
    requires Inv(s) && s.street != Settled && Taken(s.seats, i) && s.seats[i].value.hasHole
    ensures i in Participants(s.seats)
  {
    if !Resting(s) {
      assert PlayerOk(s.seats[i].value);
    }
  }
}
