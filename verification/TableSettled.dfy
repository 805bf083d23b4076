/** The table right after a hand has been settled: what every seat was paid and why. */
module TableSettled {
  import opened Wrappers
  import opened Sums
  import opened Cards
  import opened TableModel
  import opened TableInvariant
  import opened TableStart
  import opened TableAccounting
  import opened TableRuns
  import opened TableUndo
  import opened TableCards
  import Pots

  /** `t` is the hand `u` settled: by a fold win if at most one player is left, by a showdown otherwise. */
  ghost predicate SettledFrom(u: State, t: State) {
    && InHand(u) && AllStacksOk(u.seats)
    && (|Contenders(u.seats)| > 1 ==> u.street == River)
    && t == if |Contenders(u.seats)| <= 1 then FoldWin(u) else ShowdownWin(u)
  }

  /** Same players in the same seats, with what they have put into the hand and whether they folded. */
  ghost predicate SameHands(s: Seats, t: Seats) {
    && |t| == |s|
    && forall i: nat :: i < |s| ==>
         && (t[i].Some? <==> s[i].Some?)
         && (t[i].Some? ==> t[i].value == s[i].value.(stack := t[i].value.stack, ready := t[i].value.ready,
                                                      streetCommitment := t[i].value.streetCommitment))
  }

  lemma {:induction false} AdvanceSettled(s: State) returns (u: State)
    requires InHand(s) && CanAdvance(s) && AllStacksOk(s.seats)
    ensures Advance(s).street == Settled ==> SettledFrom(u, Advance(s)) && SameHands(s.seats, u.seats)
    decreases StreetsLeft(s.street), 1
  {
    u := s;
    if |Contenders(s.seats)| > 1 && RoundComplete(s) && s.street != River {
      u := RunOnSettled(s);
    }
  }

  lemma {:induction false} RunOnSettled(s: State) returns (u: State)
    requires InHand(s) && CanAdvance(s) && AllStacksOk(s.seats)
    requires |Contenders(s.seats)| >= 2 && RoundComplete(s) && s.street != River
    ensures Advance(s).street == Settled ==> SettledFrom(u, Advance(s)) && SameHands(s.seats, u.seats)
    decreases StreetsLeft(s.street), 0
  {
    var t := NextStreetReady(s);
    u := t;
    if |Able(t.seats)| <= 1 {
      u := AdvanceSettled(t.(pending := {}, actingSeat := None));
      if SameHands(t.seats, u.seats) {
        SameHandsThrough(s.seats, t.seats, u.seats);
      }
    }
  }

  lemma SameHandsThrough(s: Seats, t: Seats, u: Seats)
    requires SameHands(s, t) && SameHands(t, u)
    ensures SameHands(s, u)
  {}

  lemma NextStreetReady(s: State) returns (t: State)
    requires InHand(s) && CanAdvance(s) && AllStacksOk(s.seats) && s.street != River
    ensures t == AdvanceStreet(s) && SameHands(s.seats, t.seats) && AllStacksOk(t.seats)
    ensures InHand(t.(pending := {}, actingSeat := None)) && CanAdvance(t.(pending := {}, actingSeat := None))
  {
    t := AdvanceStreet(s);
    AdvanceStreetMidHand(s);
    StreetAccounting(s);
    BoundedCards(t);
  }

  lemma ContinueSettled(s: State, from: nat) returns (u: State)
    requires InHand(s) && CanAdvance(s) && from < |s.seats| && AllStacksOk(s.seats)
    ensures Continue(s, from).street == Settled ==> SettledFrom(u, Continue(s, from))
  {
    u := s;
    if |Contenders(s.seats)| > 1 && RoundComplete(s) {
      u := AdvanceSettled(s.(actingSeat := None));
    }
  }

  lemma ActSettled(s: State, cmd: ActionCommand) returns (u: State)
    requires Deciding(s) && Act(s, cmd).result.error == Ok && AllStacksOk(s.seats)
    ensures Act(s, cmd).state.street == Settled ==> SettledFrom(u, Act(s, cmd).state)
  {
    ActCases(s, cmd);
    PlayedMidHand(s, cmd);
    PlayedAccounting(s, cmd);
    u := ContinueSettled(Played(s, cmd), s.actingSeat.value);
  }

  lemma BegunSettled(s: State, t: State, at: Positions, r: State) returns (u: State)
    requires Resting(s) && IsBegun(s, t, at, r) && AllStacksOk(s.seats)
    ensures r.street == Settled ==> SettledFrom(u, r) && SameHands(t.seats, u.seats)
  {
    OpeningAccounting(s, t, at);
    OpeningInHand(s, t, at);
    u := t;
    if |Able(t.seats)| <= 1 {
      u := AdvanceSettled(t);
    }
  }

  // ---------- what a settled table looks like ----------

  ghost predicate SeatPaid(p: Player, awards: seq<PotAward>) {
    && p.status != Disconnected
    && (p.hasHole <==> p.status != Idle)
    && p.handCommitment >= 0
    && 0 <= AwardedTo(awards, p.id) <= p.stack
    && (p.status == Idle ==> p.handCommitment == 0 && AwardedTo(awards, p.id) == 0)
  }

  ghost function AwardTotal(awards: seq<PotAward>): int {
    if awards == [] then 0 else awards[0].potSize + AwardTotal(awards[1..])
  }

  /** Every seat holds what it won, the pots are what was won, and only dropped chips are missing. */
  ghost predicate JustSettled(t: State) {
    && SeatsOk(t) && ConfigOk(t.config) && t.street == Settled
    && |t.board| <= 5
    && 2 <= |Participants(t.seats)| <= 6
    && t.dealerSeat.Some? && t.dealerSeat.value in Participants(t.seats)
    && (forall i :: Taken(t.seats, i) ==> SeatPaid(t.seats[i].value, t.lastAwards))
    && Sum(AwardedBySeat(t.seats, t.lastAwards)) == AwardTotal(t.lastAwards) == PotSize(t.seats) - LostIn(t)
  }

  /** Some hand in progress was settled to give `t`. */
  ghost predicate Concluded(t: State) {
    JustSettled(t) && exists u :: SettledFrom(u, t)
  }

  lemma {:induction false} AwardTotalOf(seats: Seats, layers: seq<Pots.Layer>)
    requires forall l, k :: l in layers && 0 <= k < |l.winners| ==> Taken(seats, l.winners[k])
    ensures AwardTotal(AwardsOf(seats, layers)) == Pots.PotTotal(layers)
  {
    if layers != [] {
      var l := layers[0];
      assert l in layers;
      AwardTotalOf(seats, layers[1..]);
      assert AwardsOf(seats, layers)[1..] == AwardsOf(seats, layers[1..]);
    }
  }

  lemma ShowdownTotal(seats: Seats, board: seq<Card>, origin: nat)
    requires origin < |seats| && forall i :: Taken(seats, i) ==> seats[i].value.handCommitment >= 0
    ensures AwardTotal(ShowdownAwards(seats, board, origin)) == PotSize(seats) - Pots.Dropped(Entries(seats, board))
  {
    WinnersTaken(seats, board, origin, 0);
    AwardTotalOf(seats, Pots.Layers(Entries(seats, board), origin, 0));
    EntriesOk(seats, board);
    Pots.DroppedBalance(Entries(seats, board), origin);
  }

  /** A player who is not in the hand is awarded nothing. */
  lemma ShowdownIdle(seats: Seats, board: seq<Card>, origin: nat, i: nat)
    requires origin < |seats| && DistinctIds(seats) && Taken(seats, i) && seats[i].value.status == Idle
    requires forall i :: Taken(seats, i) ==> seats[i].value.handCommitment >= 0
    ensures AwardedTo(ShowdownAwards(seats, board, origin), seats[i].value.id) == 0
  {
    WinnersTaken(seats, board, origin, 0);
    EntriesOk(seats, board);
    AwardedById(seats, Pots.Layers(Entries(seats, board), origin, 0), i);
    Pots.Entitlement(Entries(seats, board), origin, i);
  }

  /** The awards of a hand about to be settled. */
  ghost function FinalAwards(u: State): seq<PotAward>
    requires InHand(u)
  {
    if |Contenders(u.seats)| <= 1 then FoldAwards(u.seats, FirstContender(u.seats))
    else ShowdownAwards(u.seats, u.board, u.dealerSeat.value)
  }

  ghost function LostFrom(u: State): int {
    if |Contenders(u.seats)| >= 2 then Pots.Dropped(Entries(u.seats, u.board)) else 0
  }

  lemma FinalAwardsPay(u: State)
    requires InHand(u)
    ensures Sum(AwardedBySeat(u.seats, FinalAwards(u))) == AwardTotal(FinalAwards(u)) == PotSize(u.seats) - LostFrom(u)
    ensures forall i :: Taken(u.seats, i) ==> AwardedTo(FinalAwards(u), u.seats[i].value.id) >= 0
    ensures forall i :: Taken(u.seats, i) && u.seats[i].value.status == Idle ==>
              AwardedTo(FinalAwards(u), u.seats[i].value.id) == 0
  {
    assert forall i :: Taken(u.seats, i) ==> PlayerOk(u.seats[i].value);
    if |Contenders(u.seats)| <= 1 {
      FoldAwardsPay(u, FirstContender(u.seats));
    } else {
      ShowdownPays(u.seats, u.board, u.dealerSeat.value);
      ShowdownTotal(u.seats, u.board, u.dealerSeat.value);
      forall i | Taken(u.seats, i) && u.seats[i].value.status == Idle
        ensures AwardedTo(FinalAwards(u), u.seats[i].value.id) == 0
      {
        ShowdownIdle(u.seats, u.board, u.dealerSeat.value, i);
      }
    }
  }

  lemma FoldAwardsPay(u: State, winner: nat)
    requires InHand(u) && winner in Contenders(u.seats)
    ensures var awards := FoldAwards(u.seats, winner);
            && Sum(AwardedBySeat(u.seats, awards)) == AwardTotal(awards) == PotSize(u.seats)
            && (forall i :: Taken(u.seats, i) ==> AwardedTo(awards, u.seats[i].value.id) >= 0)
            && (forall i :: Taken(u.seats, i) && u.seats[i].value.status == Idle ==>
                  AwardedTo(awards, u.seats[i].value.id) == 0)
  {
    FoldPays(u.seats, winner);
    PotNonNegative(u);
    assert AwardTotal(FoldAwards(u.seats, winner)[1..]) == 0;
  }

  lemma SettledFacts(u: State, t: State)
    requires SettledFrom(u, t)
    ensures JustSettled(t)
    ensures SameHands(u.seats, t.seats)
    ensures forall i :: Taken(t.seats, i) ==>
              t.seats[i].value.stack == u.seats[i].value.stack + AwardedTo(t.lastAwards, t.seats[i].value.id)
  {
    var awards := FinalAwards(u);
    FinalAwardsPay(u);
    assert t == Settle(u, awards);
    SettleFacts(u, t, awards);
  }

  lemma SettleFacts(u: State, t: State, awards: seq<PotAward>)
    requires InHand(u) && AllStacksOk(u.seats) && t == Settle(u, awards)
    requires Sum(AwardedBySeat(u.seats, awards)) == AwardTotal(awards) == PotSize(u.seats) - LostFrom(u)
    requires forall i :: Taken(u.seats, i) ==> AwardedTo(awards, u.seats[i].value.id) >= 0
    requires forall i :: Taken(u.seats, i) && u.seats[i].value.status == Idle ==>
               AwardedTo(awards, u.seats[i].value.id) == 0
    ensures JustSettled(t)
    ensures SameHands(u.seats, t.seats)
    ensures forall i :: Taken(t.seats, i) ==>
              t.seats[i].value.stack == u.seats[i].value.stack + AwardedTo(awards, t.seats[i].value.id)
  {
    SettleKeeps(u, awards);
    SettleResting(u, awards);
    assert forall i :: Taken(t.seats, i) <==> Taken(u.seats, i);
    assert forall i: nat :: i in Participants(t.seats) <==> i in Participants(u.seats);
    assert Participants(t.seats) == Participants(u.seats);
    assert AwardedBySeat(t.seats, awards) == AwardedBySeat(u.seats, awards);
    forall i | Taken(t.seats, i)
      ensures SeatPaid(t.seats[i].value, awards)
    {
      assert PlayerOk(u.seats[i].value);
    }
  }

  // ---------- within one hand ----------

  /** Nobody joins a hand, and what a seat has at stake stays the same. */
  lemma StepKeepsStake(s: State, op: Op, i: nat)
    requires Inv(s) && Betting(s.street) && !op.Abort? && Taken(Step(s, op).state.seats, i)
    ensures Taken(s.seats, i) && Step(s, op).state.seats[i].value.id == s.seats[i].value.id
    ensures Stake(Step(s, op).state, i) == Stake(s, i)
  {
    var t := Step(s, op).state;
    if Step(s, op).error != Ok {
      StepInv(s, op);
    } else if op.Play? {
      ActStakes(s, op.cmd);
    } else {
      SeatingQuiet(s, op);
      QuietStake(s, t, i);
    }
  }

  lemma QuietStake(s: State, t: State, i: nat)
    requires Quiet(s, t) && Taken(t.seats, i)
    ensures Taken(s.seats, i) && t.seats[i].value.id == s.seats[i].value.id
    ensures Stake(t, i) == Stake(s, i)
  {}

  lemma {:induction false} HandKeepsStakes(s: State, ops: seq<Op>, i: nat)
    requires Inv(s) && WithinHand(s, ops) && Taken(Run(s, ops).seats, i)
    ensures Taken(s.seats, i) && Run(s, ops).seats[i].value.id == s.seats[i].value.id
    ensures Stake(Run(s, ops), i) == Stake(s, i)
    decreases ops
  {
    if ops != [] {
      WithinHandNext(s, ops);
      HandKeepsStakes(Step(s, ops[0]).state, ops[1..], i);
      StepKeepsStake(s, ops[0], i);
    }
  }

  lemma StepSettled(s: State, op: Op)
    requires Inv(s) && Betting(s.street) && !op.Abort? && AllStacksOk(s.seats)
    ensures AllStacksOk(Step(s, op).state.seats)
    ensures Step(s, op).state.street == Settled ==> Concluded(Step(s, op).state)
  {
    StepAccounting(s, op);
    if Step(s, op).error != Ok {
      StepInv(s, op);
    } else if op.Play? {
      PlaySettled(s, op.cmd);
    } else {
      SeatingQuiet(s, op);
    }
  }

  lemma PlaySettled(s: State, cmd: ActionCommand)
    requires Inv(s) && AllStacksOk(s.seats) && Act(s, cmd).result.error == Ok
    ensures Act(s, cmd).state.street == Settled ==> Concluded(Act(s, cmd).state)
  {
    ActsOnlyDeciding(s, cmd);
    var u := ActSettled(s, cmd);
    if Act(s, cmd).state.street == Settled {
      SettledFacts(u, Act(s, cmd).state);
    }
  }

  lemma {:induction false} HandSettled(s: State, ops: seq<Op>)
    requires Inv(s) && WithinHand(s, ops) && AllStacksOk(s.seats) && (s.street == Settled ==> Concluded(s))
    ensures Run(s, ops).street == Settled ==> Concluded(Run(s, ops))
    decreases ops
  {
    if ops != [] {
      WithinHandNext(s, ops);
      StepSettled(s, ops[0]);
      HandSettled(Step(s, ops[0]).state, ops[1..]);
    }
  }

  lemma StartSettled(s: State, cards: seq<Card>)
    requires Resting(s) && AllStacksOk(s.seats) && StartHand(s, cards).error == Ok
    ensures AllStacksOk(StartHand(s, cards).state.seats) && Inv(StartHand(s, cards).state)
    ensures StartHand(s, cards).state.street == Settled ==> Concluded(StartHand(s, cards).state)
  {
    StartAccounting(s, cards);
    StartProgress(s, cards);
    EnoughCanOpen(s, cards);
    var t := BeginIsBegun(s, cards);
    var u := BegunSettled(s, t, PositionsOf(s), Begin(s, cards));
    if Begin(s, cards).street == Settled {
      SettledFacts(u, Begin(s, cards));
    }
  }

  /** A hand played from start to settlement. */
  ghost predicate PlayedHand(s: State, cards: seq<Card>, ops: seq<Op>, t: State) {
    && Resting(s) && AllStacksOk(s.seats) && StartHand(s, cards).error == Ok
    && Inv(StartHand(s, cards).state) && WithinHand(StartHand(s, cards).state, ops)
    && t == Run(StartHand(s, cards).state, ops)
    && t.street == Settled
  }

  /**
   However a hand is played to its settlement, every seat holds what it had before the hand,
   less what it committed, plus what it was awarded, and only dropped chips are missing.
   */
  lemma PlayedHandSettles(s: State, cards: seq<Card>, ops: seq<Op>, t: State)
    requires PlayedHand(s, cards, ops, t)
    ensures Concluded(t)
    ensures |t.seats| == |s.seats|
    ensures forall i: nat :: Taken(t.seats, i) ==>
              && HasId(s.seats, i, t.seats[i].value.id)
              && t.seats[i].value.stack ==
                 s.seats[i].value.stack - t.seats[i].value.handCommitment
                 + AwardedTo(t.lastAwards, t.seats[i].value.id)
  {
    var r := StartHand(s, cards).state;
    StartSettled(s, cards);
    StartStakes(s, cards);
    HandSettled(r, ops);
    RunSize(r, ops);
    forall i: nat | Taken(t.seats, i)
      ensures HasId(s.seats, i, t.seats[i].value.id)
      ensures Stake(t, i) == s.seats[i].value.stack
    {
      HandKeepsStakes(r, ops, i);
    }
  }

  lemma {:induction false} RunSize(s: State, ops: seq<Op>)
    requires Inv(s)
    ensures |Run(s, ops).seats| == |s.seats|
    decreases ops
  {
    if ops != [] {
      StepInv(s, ops[0]);
      StepSize(s, ops[0]);
      RunSize(Step(s, ops[0]).state, ops[1..]);
    }
  }

  lemma StepSize(s: State, op: Op)
    requires Inv(s)
    ensures |Step(s, op).state.seats| == |s.seats|
  {
    if op.Play? {
      ActStakes(s, op.cmd);
    } else if op.Start? && StartHand(s, op.cards).error == Ok {
      NotRunningRests(s);
      StartStakes(s, op.cards);
    }
  }
}
