/**
 Promises the table does not keep on every input: that a settled hand loses no chips, that
 a started hand has somebody to act or at least is still to be played, and that an abort
 restores the table. For each there is a run that breaks it, from a new table. The exact
 conditions are `NothingLostIff` here, `TableStart.StartProgress`,
 `TableStart.StartSettlesIff` and `TableReversal.AbortAfterDepartures`.
 */
module TableTraps {
  import opened Wrappers
  import opened Sums
  import opened Cards
  import opened Clockwise
  import opened TableModel
  import opened TableInvariant
  import opened TableStart
  import opened TableAccounting
  import opened TableRuns
  import opened TableSettled
  import Pots

  // ---------- when chips are lost ----------

  ghost predicate Covered(seats: Seats, i: nat)
    requires Taken(seats, i)
  {
    exists j :: j in Contenders(seats) && seats[j].value.handCommitment >= seats[i].value.handCommitment
  }

  lemma LiveMaxCovers(seats: Seats, board: seq<Card>, i: nat)
    requires Taken(seats, i) && Contenders(seats) != {}
    requires forall j :: Taken(seats, j) ==> seats[j].value.handCommitment >= 0 && seats[j].value.status != Disconnected
    ensures seats[i].value.handCommitment <= Pots.LiveMax(Entries(seats, board)) <==> Covered(seats, i)
  {
    var es := Entries(seats, board);
    var m := Pots.LiveMax(es);
    forall j: nat
      ensures j in Contenders(seats) <==> j < |es| && es[j].live
      ensures j in Contenders(seats) ==> es[j].committed == seats[j].value.handCommitment
    {
      assert j < |seats| && seats[j].Some? ==> Taken(seats, j);
    }
    if seats[i].value.handCommitment <= m {
      if m == 0 {
        var j :| j in Contenders(seats);
        assert seats[j].value.handCommitment >= seats[i].value.handCommitment;
      } else {
        var j :| 0 <= j < |es| && es[j].live && es[j].committed == m;
        assert j in Contenders(seats);
      }
    }
  }

  /**
   A showdown loses no chips if and only if every player's commitment is matched by some player who did not fold.
   */
  lemma NothingLostIff(t: State)
    requires JustSettled(t) && |Contenders(t.seats)| >= 2
    ensures LostIn(t) >= 0
    ensures LostIn(t) == 0 <==> forall i: nat :: Taken(t.seats, i) ==> Covered(t.seats, i)
  {
    var es := Entries(t.seats, t.board);
    assert forall i :: Taken(t.seats, i) ==> SeatPaid(t.seats[i].value, t.lastAwards);
    EntriesOk(t.seats, t.board);
    Pots.DroppedBalance(es, 0);
    forall i: nat | Taken(t.seats, i)
      ensures es[i].committed <= Pots.LiveMax(es) <==> Covered(t.seats, i)
    {
      LiveMaxCovers(t.seats, t.board, i);
    }
    forall i: nat | i < |es| && !Taken(t.seats, i)
      ensures es[i].committed <= Pots.LiveMax(es)
    {}
  }

  // ---------- a run that loses chips ----------

  const THREE := Config(2, 3, 5, 10, 1, 1000)

  function Waits(id: PlayerId, seat: nat, stack: int, ready: bool): Player {
    NewPlayer(id, seat, stack).(ready := ready)
  }

  /** Players 1, 2 and 3 on seats 0, 1 and 2, with 3, 5 and 100 chips. */
  ghost function Seated(ready: bool, sequence: nat): State {
    NewTable(THREE).(seats := [Some(Waits(1, 0, 3, ready)), Some(Waits(2, 1, 5, ready)), Some(Waits(3, 2, 100, ready))],
                     serverSequence := sequence)
  }

  const ARRIVALS := [Sit(1, 0, 3), Sit(2, 1, 5), Sit(3, 2, 100)]
  const READIES := [Ready(1, true), Ready(2, true), Ready(3, true)]

  lemma SitAt(s: State, id: PlayerId, seat: nat, buyIn: int)
    requires Inv(s) && ConfigOk(s.config) && s.street == Waiting && seat < |s.seats| && s.seats[seat].None?
    requires forall j :: 0 <= j < |s.seats| && s.seats[j].Some? ==> s.seats[j].value.id != id
    requires s.config.minBuyIn <= buyIn <= s.config.maxBuyIn
    ensures Step(s, Sit(id, seat, buyIn)).state ==
            s.(seats := s.seats[seat := Some(Waits(id, seat, buyIn, false))], serverSequence := s.serverSequence + 1)
  {}

  lemma ReadyAt(s: State, id: PlayerId, seat: nat)
    requires Inv(s) && DistinctIds(s.seats) && s.street == Waiting && HasId(s.seats, seat, id)
    requires s.seats[seat].value.stack > 0
    ensures Step(s, Ready(id, true)).state ==
            s.(seats := s.seats[seat := Some(s.seats[seat].value.(ready := true))], serverSequence := s.serverSequence + 1)
  {
    assert SeatOf(s.seats, id) == Some(seat);
  }

  lemma RunOne(s: State, op: Op, ops: seq<Op>)
    requires Inv(s)
    ensures Inv(Step(s, op).state) && Run(s, [op] + ops) == Run(Step(s, op).state, ops)
  {
    StepInv(s, op);
    assert ([op] + ops)[0] == op && ([op] + ops)[1..] == ops;
  }

  lemma RunThree(s: State, a: Op, b: Op, c: Op)
    requires Inv(s)
    ensures Inv(Step(s, a).state) && Inv(Step(Step(s, a).state, b).state)
    ensures Run(s, [a, b, c]) == Step(Step(Step(s, a).state, b).state, c).state
  {
    RunOne(s, a, [b, c]);
    assert [a] + [b, c] == [a, b, c];
    RunOne(Step(s, a).state, b, [c]);
    assert [b] + [c] == [b, c];
    RunOne(Step(Step(s, a).state, b).state, c, []);
    assert [c] + [] == [c];
  }

  /** The table while the three arrive and get ready: the first `n` have done so. */
  ghost function Arriving(n: nat): State {
    NewTable(THREE).(seats := [if n >= 1 then Some(Waits(1, 0, 3, false)) else None,
                               if n >= 2 then Some(Waits(2, 1, 5, false)) else None,
                               if n >= 3 then Some(Waits(3, 2, 100, false)) else None], serverSequence := n)
  }

  ghost function Preparing(n: nat): State {
    NewTable(THREE).(seats := [Some(Waits(1, 0, 3, n >= 1)), Some(Waits(2, 1, 5, n >= 2)), Some(Waits(3, 2, 100, n >= 3))],
                     serverSequence := 3 + n)
  }

  lemma ArrivesNext(n: nat)
    requires n < 3 && Inv(Arriving(n))
    ensures Inv(Arriving(n + 1)) && Step(Arriving(n), ARRIVALS[n]).state == Arriving(n + 1)
  {
    var op := ARRIVALS[n];
    SitAt(Arriving(n), op.id, op.seat, op.buyIn);
    assert Step(Arriving(n), op).state.seats == Arriving(n + 1).seats;
    StepInv(Arriving(n), op);
  }

  lemma ReadiesNext(n: nat)
    requires n < 3 && Inv(Preparing(n))
    ensures Inv(Preparing(n + 1)) && Step(Preparing(n), READIES[n]).state == Preparing(n + 1)
  {
    var op := READIES[n];
    assert HasId(Preparing(n).seats, n, op.id);
    ReadyAt(Preparing(n), op.id, n);
    assert Step(Preparing(n), op).state.seats == Preparing(n + 1).seats;
    StepInv(Preparing(n), op);
  }

  lemma Arrived()
    ensures Inv(NewTable(THREE)) && Run(NewTable(THREE), ARRIVALS) == Seated(false, 3)
  {
    NewTableInv(THREE);
    assert NewTable(THREE).seats == Arriving(0).seats;
    ArrivesNext(0);
    ArrivesNext(1);
    ArrivesNext(2);
    RunThree(NewTable(THREE), ARRIVALS[0], ARRIVALS[1], ARRIVALS[2]);
  }

  lemma Readied()
    ensures Inv(Seated(false, 3)) && Run(Seated(false, 3), READIES) == Seated(true, 6)
  {
    ArrivedInv();
    ReadiesNext(0);
    ReadiesNext(1);
    ReadiesNext(2);
    RunThree(Preparing(0), READIES[0], READIES[1], READIES[2]);
  }

  lemma ArrivedInv()
    ensures Inv(Preparing(0)) && Preparing(0) == Seated(false, 3) && Preparing(3) == Seated(true, 6)
  {
    Arrived();
  }

  /** What matters about the player on seat `i`. */
  ghost predicate Sits(seats: Seats, i: nat, id: PlayerId, stack: int, street: int, hand: int, st: Status) {
    && Taken(seats, i)
    && seats[i].value.id == id && seats[i].value.stack == stack && seats[i].value.streetCommitment == street
    && seats[i].value.handCommitment == hand && seats[i].value.status == st
  }

  ghost predicate AfterBlinds(r: State) {
    && |r.seats| == 3 && r.street == Preflop && r.currentBet == 10
    && Sits(r.seats, 0, 1, 3, 0, 0, Active)
    && Sits(r.seats, 1, 2, 0, 5, 5, AllIn)
    && Sits(r.seats, 2, 3, 90, 10, 10, Active)
    && r.pending == {1, 3} && r.actingSeat == Some(0)
  }

  /** The three players before the hand. */
  ghost predicate ThreeReady(s: State) {
    && Resting(s) && s.config == THREE && |s.seats| == 3 && s.dealerSeat.None?
    && Sits(s.seats, 0, 1, 3, 0, 0, Idle) && s.seats[0].value.ready
    && Sits(s.seats, 1, 2, 5, 0, 0, Idle) && s.seats[1].value.ready
    && Sits(s.seats, 2, 3, 100, 0, 0, Idle) && s.seats[2].value.ready
  }

  lemma SeatedThree()
    ensures ThreeReady(Seated(true, 6)) && TotalChips(Seated(true, 6)) == 108
  {
    var s := Seated(true, 6);
    assert Stacks(s.seats) == [3, 5, 100] && Commitments(s.seats) == [0, 0, 0];
    SumsOfThree();
  }

  lemma SumsOfThree()
    ensures Sum([3, 5, 100]) == 108 && Sum([0, 0, 0]) == 0
  {
    assert [3, 5, 100][..2] == [3, 5] && [3, 5][..1] == [3] && [3][..0] == [];
    SumZero([0, 0, 0]);
  }

  lemma AllReady(s: State)
    requires ThreeReady(s)
    ensures ReadySeats(s.seats) == {0, 1, 2} && |ReadySeats(s.seats)| == 3
    ensures AllStacksOk(s.seats)
  {
    assert forall i: nat :: i in ReadySeats(s.seats) <==> i in {0, 1, 2};
    assert ReadySeats(s.seats) == {0, 1, 2};
  }

  lemma ThreePositions(s: State)
    requires ThreeReady(s)
    ensures ReadySeats(s.seats) != {} && PositionsOf(s) == Positions(0, 1, 2)
  {
    AllReady(s);
    NextUnique({0, 1, 2}, 3, 2, 0);
    NextUnique({0, 1, 2}, 3, 0, 1);
    NextUnique({0, 1, 2}, 3, 1, 2);
  }

  lemma OpenedThree(s: State, t: State)
    requires ThreeReady(s) && IsOpening(s, t, Positions(0, 1, 2))
    ensures Able(t.seats) == {0, 2} && |t.seats| == 3 && t.currentBet == 10
    ensures Sits(t.seats, 0, 1, 3, 0, 0, Active)
    ensures Sits(t.seats, 1, 2, 0, 5, 5, AllIn)
    ensures Sits(t.seats, 2, 3, 90, 10, 10, Active)
  {
    AllReady(s);
    assert OpenedPlayer(s.seats[0].value, t.seats[0].value);
    assert OpenedPlayer(s.seats[1].value, t.seats[1].value);
    assert OpenedPlayer(s.seats[2].value, t.seats[2].value);
    assert forall i: nat :: i in Able(t.seats) <==> i in {0, 2};
  }

  lemma BlindsPosted(s: State, t: State, r: State)
    requires ThreeReady(s) && IsBegun(s, t, Positions(0, 1, 2), r)
    ensures Deciding(r) && AfterBlinds(r)
  {
    AllReady(s);
    OpenedThree(s, t);
    assert |{0, 2}| == 2;
    OpeningDeciding(s, t, Positions(0, 1, 2));
    AbleDeciders(t);
    assert Deciders(t.(actingSeat := None)) == {0, 2};
    NextUnique({0, 2}, 3, 2, 0);
    TwoAble(t.seats);
  }

  lemma TwoAble(seats: Seats)
    requires |seats| == 3 && Able(seats) == {0, 2} && seats[0].value.id == 1 && seats[2].value.id == 3
    ensures AbleIds(seats) == {1, 3}
  {
    assert 0 in Able(seats) && 2 in Able(seats);
    forall id | id in AbleIds(seats)
      ensures id in {1, 3}
    {
      var i := AbleSeat(seats, id);
      assert i in Able(seats);
    }
  }

  const DEALER_ALL_IN := ActionCommand(1, GoAllIn, 0)
  const BIG_BLIND_FOLDS := ActionCommand(3, Fold, 0)

  ghost predicate AfterAllIn(q: State) {
    && |q.seats| == 3 && q.street == Preflop && q.currentBet == 10
    && Sits(q.seats, 0, 1, 0, 3, 3, AllIn)
    && Sits(q.seats, 1, 2, 0, 5, 5, AllIn)
    && Sits(q.seats, 2, 3, 90, 10, 10, Active)
    && q.pending == {3} && q.actingSeat == Some(2)
  }

  lemma DealerGoesAllIn(r: State)
    requires Deciding(r) && AfterBlinds(r)
    ensures Act(r, DEALER_ALL_IN).result.error == Ok && AfterAllIn(Act(r, DEALER_ALL_IN).state)
  {
    ActCases(r, DEALER_ALL_IN);
    var q := Played(r, DEALER_ALL_IN);
    assert q.seats == r.seats[0 := q.seats[0]];
    OneLeftToDecide(q);
  }

  lemma OneLeftToDecide(q: State)
    requires |q.seats| == 3 && q.pending == {3}
    requires Sits(q.seats, 0, 1, 0, 3, 3, AllIn)
    requires Sits(q.seats, 1, 2, 0, 5, 5, AllIn)
    requires Sits(q.seats, 2, 3, 90, 10, 10, Active)
    ensures CanAdvance(q) ==> Continue(q, 0) == q.(actingSeat := Some(2))
  {
    assert forall i: nat :: i in Contenders(q.seats) <==> i in {0, 1, 2};
    assert Contenders(q.seats) == {0, 1, 2};
    assert forall i: nat :: i in Deciders(q) <==> i == 2;
    assert Deciders(q) == {2};
    NextUnique({2}, 3, 0, 2);
  }

  lemma BigBlindFolds(q: State)
    requires Deciding(q) && AfterAllIn(q) && AllStacksOk(q.seats)
    ensures Act(q, BIG_BLIND_FOLDS).result.error == Ok
    ensures Act(q, BIG_BLIND_FOLDS).state.street == Settled && LostIn(Act(q, BIG_BLIND_FOLDS).state) == 5
  {
    ActCases(q, BIG_BLIND_FOLDS);
    PlayedMidHand(q, BIG_BLIND_FOLDS);
    PlayedAccounting(q, BIG_BLIND_FOLDS);
    var x := Played(q, BIG_BLIND_FOLDS);
    assert x.seats == q.seats[2 := x.seats[2]];
    assert Taken(x.seats, 0) && Taken(x.seats, 1) && Taken(x.seats, 2);
    RunOutLoses(x);
  }

  lemma RunOutLoses(x: State)
    requires MidHand(x) && CanAdvance(x) && AllStacksOk(x.seats) && |x.seats| == 3
    requires Sits(x.seats, 0, 1, 0, 3, 3, AllIn) && Sits(x.seats, 1, 2, 0, 5, 5, AllIn)
    requires Sits(x.seats, 2, 3, 90, 10, 10, Folded)
    ensures Continue(x, 2).street == Settled && LostIn(Continue(x, 2)) == 5
  {
    var y := x.(actingSeat := None);
    NobodyLeft(x);
    ActorIgnored(x, y);
    FewAbleSettles(y);
    RunOutKeeps(y);
    FiveDropped(Advance(y));
  }

  lemma NobodyLeft(x: State)
    requires |x.seats| == 3
    requires Sits(x.seats, 0, 1, 0, 3, 3, AllIn) && Sits(x.seats, 1, 2, 0, 5, 5, AllIn)
    requires Sits(x.seats, 2, 3, 90, 10, 10, Folded)
    ensures |Contenders(x.seats)| == 2 && Able(x.seats) == {} && RoundComplete(x)
  {
    assert forall i: nat :: i in Contenders(x.seats) <==> i in {0, 1};
    assert Contenders(x.seats) == {0, 1};
    assert Able(x.seats) == {};
    assert Deciders(x) == {};
  }

  /** Running a hand out changes nobody's commitment or status. */
  lemma RunOutKeeps(y: State)
    requires InHand(y) && CanAdvance(y) && AllStacksOk(y.seats) && Advance(y).street == Settled
    ensures SameHands(y.seats, Advance(y).seats)
  {
    var u := AdvanceSettled(y);
    SettledFacts(u, Advance(y));
  }

  lemma FiveDropped(t: State)
    requires |t.seats| == 3 && t.street == Settled && Taken(t.seats, 0) && Taken(t.seats, 1) && Taken(t.seats, 2)
    requires t.seats[0].value.status == AllIn && t.seats[1].value.status == AllIn && t.seats[2].value.status == Folded
    requires t.seats[0].value.handCommitment == 3 && t.seats[1].value.handCommitment == 5
    requires t.seats[2].value.handCommitment == 10
    ensures LostIn(t) == 5
  {
    assert forall i: nat :: i in Contenders(t.seats) <==> i in {0, 1};
    assert Contenders(t.seats) == {0, 1};
    FiveAboveLive(Entries(t.seats, t.board));
  }

  lemma FiveAboveLive(es: seq<Pots.Entry>)
    requires |es| == 3 && es[0].live && es[1].live && !es[2].live
    requires es[0].committed == 3 && es[1].committed == 5 && es[2].committed == 10
    ensures Pots.Dropped(es) == 5
  {
    assert Pots.LiveMax(es) == 5;
    assert Pots.Excess(es, 5) == [0, 0, 5];
    assert [0, 0, 5][..2] == [0, 0] && [0, 0][..1] == [0] && [0][..0] == [];
  }

  lemma StartedThree(s: State, cards: seq<Card>) returns (r: State)
    requires ThreeReady(s) && ValidDeck(cards)
    ensures StartHand(s, cards) == Outcome(r, Ok)
    ensures Deciding(r) && AfterBlinds(r) && AllStacksOk(r.seats) && TotalChips(r) == TotalChips(s)
  {
    AllReady(s);
    ThreePositions(s);
    EnoughCanOpen(s, cards);
    r := Begin(s, cards);
    var t := BeginIsBegun(s, cards);
    BlindsPosted(s, t, r);
    BegunAccounting(s, t, Positions(0, 1, 2), r);
  }

  lemma AllInThree(r: State) returns (q: State)
    requires Deciding(r) && AfterBlinds(r) && AllStacksOk(r.seats)
    ensures Act(r, DEALER_ALL_IN).state == q && Act(r, DEALER_ALL_IN).result.error == Ok
    ensures Deciding(q) && AfterAllIn(q) && AllStacksOk(q.seats) && TotalChips(q) == TotalChips(r)
  {
    DealerGoesAllIn(r);
    ActProgress(r, DEALER_ALL_IN);
    ActAccounting(r, DEALER_ALL_IN);
    q := Act(r, DEALER_ALL_IN).state;
  }

  lemma FoldThree(q: State) returns (t: State)
    requires Deciding(q) && AfterAllIn(q) && AllStacksOk(q.seats)
    ensures Act(q, BIG_BLIND_FOLDS).state == t && Act(q, BIG_BLIND_FOLDS).result.error == Ok
    ensures t.street == Settled && LostIn(t) == 5 && TotalChips(t) == TotalChips(q) - 5
  {
    BigBlindFolds(q);
    ActAccounting(q, BIG_BLIND_FOLDS);
    t := Act(q, BIG_BLIND_FOLDS).state;
  }

  /**
   Blinds of 5 and 10, stacks of 3, 5 and 100: the first player goes all-in for 3, the big
   blind folds, and 5 of the 108 chips leave the table. Whatever the cards.
   */
  lemma ChipsLost(cards: seq<Card>) returns (s: State, r: State, q: State, t: State)
    requires ValidDeck(cards)
    ensures Inv(NewTable(THREE)) && s == Run(Run(NewTable(THREE), ARRIVALS), READIES)
    ensures StartHand(s, cards) == Outcome(r, Ok)
    ensures Inv(r) && Act(r, DEALER_ALL_IN).state == q && Act(r, DEALER_ALL_IN).result.error == Ok
    ensures Inv(q) && Act(q, BIG_BLIND_FOLDS).state == t && Act(q, BIG_BLIND_FOLDS).result.error == Ok
    ensures TotalChips(s) == 108
    ensures t.street == Settled && LostIn(t) == 5 && TotalChips(t) == 103
  {
    Arrived();
    Readied();
    SeatedThree();
    s := Seated(true, 6);
    r := StartedThree(s, cards);
    q := AllInThree(r);
    t := FoldThree(q);
  }

  // ---------- two players ----------

  const TWO := Config(2, 2, 5, 10, 1, 1000)

  /** Players 1 and 2 on seats 0 and 1, with `a` and `b` chips. */
  ghost function Pair(a: int, b: int, ready: bool, sequence: nat): State {
    NewTable(TWO).(seats := [Some(Waits(1, 0, a, ready)), Some(Waits(2, 1, b, ready))], serverSequence := sequence)
  }

  function PairSits(a: int, b: int): seq<Op> {
    [Sit(1, 0, a), Sit(2, 1, b)]
  }

  const PAIR_READY := [Ready(1, true), Ready(2, true)]

  lemma RunTwo(s: State, a: Op, b: Op)
    requires Inv(s)
    ensures Inv(Step(s, a).state) && Run(s, [a, b]) == Step(Step(s, a).state, b).state
  {
    RunOne(s, a, [b]);
    assert [a] + [b] == [a, b];
    RunOne(Step(s, a).state, b, []);
    assert [b] + [] == [b];
  }

  lemma PairArrived(a: int, b: int)
    requires 1 <= a <= 1000 && 1 <= b <= 1000
    ensures Inv(NewTable(TWO)) && Run(NewTable(TWO), PairSits(a, b)) == Pair(a, b, false, 2)
  {
    NewTableInv(TWO);
    var s := NewTable(TWO);
    RunTwo(s, Sit(1, 0, a), Sit(2, 1, b));
    SitAt(s, 1, 0, a);
    var t := Step(s, Sit(1, 0, a)).state;
    assert t.seats == [Some(Waits(1, 0, a, false)), None];
    SitAt(t, 2, 1, b);
    assert Step(t, Sit(2, 1, b)).state.seats == Pair(a, b, false, 2).seats;
  }

  lemma PairReadied(a: int, b: int)
    requires 1 <= a <= 1000 && 1 <= b <= 1000
    ensures Inv(Pair(a, b, false, 2)) && Run(Pair(a, b, false, 2), PAIR_READY) == Pair(a, b, true, 4)
  {
    PairArrived(a, b);
    var s := Pair(a, b, false, 2);
    RunTwo(s, Ready(1, true), Ready(2, true));
    ReadyAt(s, 1, 0);
    var t := Step(s, Ready(1, true)).state;
    assert t.seats == [Some(Waits(1, 0, a, true)), Some(Waits(2, 1, b, false))];
    ReadyAt(t, 2, 1);
    assert Step(t, Ready(2, true)).state.seats == Pair(a, b, true, 4).seats;
  }

  /** The two players before their hand. */
  ghost predicate PairReady(s: State, a: int, b: int) {
    && Resting(s) && s.config == TWO && |s.seats| == 2 && s.dealerSeat.None?
    && Sits(s.seats, 0, 1, a, 0, 0, Idle) && s.seats[0].value.ready && a > 0
    && Sits(s.seats, 1, 2, b, 0, 0, Idle) && s.seats[1].value.ready && b > 0
  }

  /** The two players get there from a new table. */
  lemma PairReached(a: int, b: int) returns (s: State)
    requires 1 <= a <= 1000 && 1 <= b <= 1000
    ensures Inv(NewTable(TWO)) && s == Run(Run(NewTable(TWO), PairSits(a, b)), PAIR_READY)
    ensures PairReady(s, a, b)
  {
    PairArrived(a, b);
    PairReadied(a, b);
    s := Pair(a, b, true, 4);
    assert Taken(s.seats, 0) && Taken(s.seats, 1);
  }

  lemma PairPositions(s: State, a: int, b: int)
    requires PairReady(s, a, b)
    ensures ReadySeats(s.seats) == {0, 1} && |ReadySeats(s.seats)| == 2 && PositionsOf(s) == Positions(0, 0, 1)
    ensures AllStacksOk(s.seats)
  {
    assert forall i: nat :: i in ReadySeats(s.seats) <==> i in {0, 1};
    assert ReadySeats(s.seats) == {0, 1};
    NextUnique({0, 1}, 2, 1, 0);
    NextUnique({0, 1}, 2, 0, 1);
  }

  /** What their start leads to, for any stacks. */
  lemma PairStart(s: State, a: int, b: int, cards: seq<Card>)
    requires PairReady(s, a, b) && ValidDeck(cards)
    ensures StartHand(s, cards).error == Ok
    ensures var r := StartHand(s, cards).state;
            && (Stuck(r) <==> a > 5 && 5 < b <= 10)
            && (r.street == Settled <==> a <= 5 || b <= 5)
            && (Deciding(r) <==> a > 5 && b > 10)
  {
    PairPositions(s, a, b);
    HeadsUpStart(s, cards);
  }

  /** Stacks of 100 and 8 at blinds of 5 and 10: the hand starts, and until it is aborted nobody can act. */
  lemma StallReached(cards: seq<Card>) returns (s: State, r: State)
    requires ValidDeck(cards)
    ensures Inv(NewTable(TWO)) && s == Run(Run(NewTable(TWO), PairSits(100, 8)), PAIR_READY)
    ensures StartHand(s, cards) == Outcome(r, Ok) && Stuck(r)
    ensures forall ops :: Inv(r) && Abort !in ops ==> Stuck(Run(r, ops))
  {
    s := PairReached(100, 8);
    PairStart(s, 100, 8, cards);
    r := StartHand(s, cards).state;
    forall ops | Inv(r) && Abort !in ops
      ensures Stuck(Run(r, ops))
    {
      StuckForever(r, ops);
    }
  }

  /** Stacks of 5 and 100: the start itself settles the hand. */
  lemma SettledByStart(cards: seq<Card>) returns (s: State, r: State)
    requires ValidDeck(cards)
    ensures Inv(NewTable(TWO)) && s == Run(Run(NewTable(TWO), PairSits(5, 100)), PAIR_READY)
    ensures StartHand(s, cards) == Outcome(r, Ok) && r.street == Settled && Resting(s) && AllStacksOk(s.seats)
  {
    s := PairReached(5, 100);
    PairPositions(s, 5, 100);
    PairStart(s, 5, 100, cards);
    r := StartHand(s, cards).state;
  }

  // ---------- a winner who leaves, returns and pays ----------

  const DEALER_FOLDS := ActionCommand(1, Fold, 0)

  ghost predicate PairBlinds(r: State) {
    && r.config == TWO && |r.seats| == 2 && r.street == Preflop && r.actingSeat == Some(0)
    && Sits(r.seats, 0, 1, 95, 5, 5, Active)
    && Sits(r.seats, 1, 2, 90, 10, 10, Active)
  }

  lemma PairOpened(s: State, t: State, r: State)
    requires PairReady(s, 100, 100) && IsBegun(s, t, Positions(0, 0, 1), r) && Deciding(r)
    ensures PairBlinds(r)
  {
    PairPositions(s, 100, 100);
    assert OpenedPlayer(s.seats[0].value, t.seats[0].value);
    assert OpenedPlayer(s.seats[1].value, t.seats[1].value);
    AbleAfterBlinds(s, t, Positions(0, 0, 1), 0);
    AbleAfterBlinds(s, t, Positions(0, 0, 1), 1);
    assert Able(t.seats) == {0, 1};
    AbleDeciders(t);
    assert Deciders(t.(actingSeat := None)) == Deciders(t);
  }

  lemma PairStarted(s: State, cards: seq<Card>) returns (r: State)
    requires PairReady(s, 100, 100) && ValidDeck(cards)
    ensures StartHand(s, cards) == Outcome(r, Ok)
    ensures Deciding(r) && PairBlinds(r)
  {
    PairPositions(s, 100, 100);
    PairStart(s, 100, 100, cards);
    EnoughCanOpen(s, cards);
    r := Begin(s, cards);
    var t := BeginIsBegun(s, cards);
    PairOpened(s, t, r);
  }

  /** Player 2 has won the blinds; player 1 folded. */
  ghost predicate PairSettled(t: State) {
    && Resting(t) && t.street == Settled && t.config == TWO && |t.seats| == 2
    && Sits(t.seats, 0, 1, 95, 5, 5, Folded)
    && Sits(t.seats, 1, 2, 105, 10, 10, Active)
    && t.lastAwards == [PotAward(15, [2], 15, 0)]
  }

  lemma PairAwards()
    ensures AwardedTo([PotAward(15, [2], 15, 0)], 1) == 0 && AwardedTo([PotAward(15, [2], 15, 0)], 2) == 15
  {
    var awards := [PotAward(15, [2], 15, 0)];
    assert awards[1..] == [];
    Pots.PortionOfOther([2], 15, 0, 1);
    Pots.PortionOfWinner([2], 15, 0, 0);
  }

  lemma PairPot(seats: Seats)
    requires |seats| == 2 && Taken(seats, 0) && Taken(seats, 1)
    requires seats[0].value.handCommitment == 5 && seats[1].value.handCommitment == 10
    ensures PotSize(seats) == 15
  {
    assert Commitments(seats) == [5, 10];
    assert [5, 10][..1] == [5] && [5][..0] == [];
  }

  lemma DealerGivesUp(r: State) returns (t: State)
    requires Deciding(r) && PairBlinds(r)
    ensures Act(r, DEALER_FOLDS).state == t && Act(r, DEALER_FOLDS).result.error == Ok && PairSettled(t)
  {
    ActCases(r, DEALER_FOLDS);
    ActProgress(r, DEALER_FOLDS);
    t := Act(r, DEALER_FOLDS).state;
    var p := Played(r, DEALER_FOLDS);
    assert p.seats == r.seats[0 := p.seats[0]];
    PairFoldWin(p);
  }

  lemma PairFoldWin(p: State)
    requires |p.seats| == 2 && Contenders(p.seats) != {}
    requires Sits(p.seats, 0, 1, 95, 5, 5, Folded) && Sits(p.seats, 1, 2, 90, 10, 10, Active)
    ensures |Contenders(p.seats)| == 1
    ensures var t := FoldWin(p);
            && |t.seats| == 2 && t.lastAwards == [PotAward(15, [2], 15, 0)]
            && Sits(t.seats, 0, 1, 95, 5, 5, Folded) && Sits(t.seats, 1, 2, 105, 10, 10, Active)
  {
    assert forall i: nat :: i in Contenders(p.seats) <==> i == 1;
    assert Contenders(p.seats) == {1};
    PairPot(p.seats);
    PairAwards();
  }

  /** The winner leaves with 105 chips and sits down again with 10. */
  lemma WinnerReturns(t: State) returns (v: State, u: State)
    requires PairSettled(t)
    ensures RemovePlayer(t, 2) == Outcome(v, Ok) && SeatPlayer(v, 2, 1, 10) == Outcome(u, Ok)
    ensures u.street == Settled && u.lastAwards == t.lastAwards && u.seats == [t.seats[0], Some(NewPlayer(2, 1, 10))]
  {
    assert HasId(t.seats, 1, 2) && !HasId(t.seats, 0, 2);
    assert SeatOf(t.seats, 2) == Some(1);
    v := RemovePlayer(t, 2).state;
    assert v.seats == [t.seats[0], None];
    assert !HasId(v.seats, 0, 2) && !HasId(v.seats, 1, 2);
    u := SeatPlayer(v, 2, 1, 10).state;
  }

  lemma ReturnPays(t: State, u: State)
    requires PairSettled(t) && u.street == Settled && u.lastAwards == t.lastAwards
    requires u.seats == [t.seats[0], Some(NewPlayer(2, 1, 10))]
    ensures var w := AbortHand(u);
            && w.error == Ok && HasId(w.state.seats, 1, 2) && w.state.seats[1].value.stack == -5
            && TotalChips(u) == 105 && TotalChips(w.state) == 95
  {
    PairAwards();
    var w := AbortHand(u).state;
    assert Stacks(u.seats) == [95, 10] && Stacks(w.seats) == [100, -5] && Commitments(w.seats) == [0, 0];
    assert [95, 10][..1] == [95] && [95][..0] == [] && [100, -5][..1] == [100] && [100][..0] == [];
    SumZero([0, 0]);
  }

  /**
   Two players with 100 chips each: the dealer folds, the winner of the blinds leaves, sits
   down again with 10 chips, and the settled hand is aborted. The winner now holds -5 chips
   and 10 of the 105 chips on the table are gone. Whatever the cards.
   */
  lemma AbortOverdraws(cards: seq<Card>) returns (s: State, r: State, t: State, v: State, u: State)
    requires ValidDeck(cards)
    ensures Inv(NewTable(TWO)) && s == Run(Run(NewTable(TWO), PairSits(100, 100)), PAIR_READY)
    ensures StartHand(s, cards) == Outcome(r, Ok)
    ensures Inv(r) && Act(r, DEALER_FOLDS).state == t && Act(r, DEALER_FOLDS).result.error == Ok
    ensures RemovePlayer(t, 2) == Outcome(v, Ok) && SeatPlayer(v, 2, 1, 10) == Outcome(u, Ok)
    ensures var w := AbortHand(u);
            && w.error == Ok && HasId(w.state.seats, 1, 2) && w.state.seats[1].value.stack == -5
            && TotalChips(u) == 105 && TotalChips(w.state) == 95
  {
    s := PairReached(100, 100);
    r := PairStarted(s, cards);
    t := DealerGivesUp(r);
    v, u := WinnerReturns(t);
    ReturnPays(t, u);
  }
}
