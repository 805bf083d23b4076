/** No amount the table ever computes exceeds the chips that were brought to it. */
module TableBounds {
  import opened Sums
  import opened Cards
  import opened TableModel
  import opened TableStart
  import opened TableAccounting
  import opened TableRuns
  import opened TableSettled
  import opened TableReversal
  import Pots

  /** Chips put on the table by an operation: buy-ins, and what the abort of a settled hand gives back. */
  ghost function Inflow(s: State, op: Op): int
    requires Inv(s)
  {
    Brought(s, op) + Max(0, -Undone(s, op))
  }

  ghost function InflowIn(s: State, ops: seq<Op>): int
    requires Inv(s)
    decreases ops
  {
    if ops == [] then 0
    else
      StepInv(s, ops[0]);
      Inflow(s, ops[0]) + InflowIn(Step(s, ops[0]).state, ops[1..])
  }

  ghost predicate AwardsWithin(awards: seq<PotAward>, bound: int) {
    forall a :: a in awards ==> 0 <= a.potSize <= bound
  }

  ghost predicate CommitmentsOk(seats: Seats) {
    forall i :: Taken(seats, i) ==> seats[i].value.handCommitment >= 0
  }

  /** Stacks and commitments are non-negative; what is on the table, in the pot and in the last awards is within bounds. */
  ghost predicate Within(s: State, bound: int) {
    && AllStacksOk(s.seats) && CommitmentsOk(s.seats)
    && TotalChips(s) <= bound && PotSize(s.seats) <= bound
    && AwardsWithin(s.lastAwards, bound)
  }

  lemma SumsNonNegative(seats: Seats)
    requires AllStacksOk(seats) && CommitmentsOk(seats)
    ensures Sum(Stacks(seats)) >= 0 && PotSize(seats) >= 0
  {
    var zeros := seq(|seats|, _ => 0);
    SumZero(zeros);
    forall i | 0 <= i < |seats|
      ensures Stacks(seats)[i] >= 0 && Commitments(seats)[i] >= 0
    {
      assert seats[i].Some? ==> Taken(seats, i);
    }
    SumMonotone(zeros, Stacks(seats));
    SumMonotone(zeros, Commitments(seats));
  }

  lemma InvCommitments(s: State)
    requires Inv(s)
    ensures CommitmentsOk(s.seats)
  {
    if !Resting(s) {
      assert forall i :: Taken(s.seats, i) ==> PlayerOk(s.seats[i].value);
    }
  }

  /** As long as the hand is not settled, the pot is part of the total. */
  lemma UnsettledPot(s: State)
    requires Inv(s) && s.street != Settled && AllStacksOk(s.seats)
    ensures PotSize(s.seats) <= TotalChips(s) && s.lastAwards == []
  {
    InvCommitments(s);
    SumsNonNegative(s.seats);
  }

  // ---------- settlement ----------

  lemma {:induction false} LayerAwards(seats: Seats, layers: seq<Pots.Layer>, bound: int)
    requires forall l, k :: l in layers && 0 <= k < |l.winners| ==> Taken(seats, l.winners[k])
    requires forall l :: l in layers ==> 0 <= l.pot <= bound
    ensures AwardsWithin(AwardsOf(seats, layers), bound)
  {
    if layers != [] {
      assert layers[0] in layers;
      LayerAwards(seats, layers[1..], bound);
    }
  }

  lemma ShowdownAwardsWithin(seats: Seats, board: seq<Card>, origin: nat)
    requires origin < |seats| && CommitmentsOk(seats)
    ensures AwardsWithin(ShowdownAwards(seats, board, origin), PotSize(seats))
  {
    var es := Entries(seats, board);
    EntriesOk(seats, board);
    WinnersTaken(seats, board, origin, 0);
    Pots.LayersBounded(es, origin, 0);
    SumZero(Pots.Capped(es, 0));
    LayerAwards(seats, Pots.Layers(es, origin, 0), PotSize(seats));
  }

  lemma FinalAwardsWithin(u: State)
    requires InHand(u)
    ensures AwardsWithin(FinalAwards(u), PotSize(u.seats))
  {
    assert forall i :: Taken(u.seats, i) ==> PlayerOk(u.seats[i].value);
    PotNonNegative(u);
    if |Contenders(u.seats)| > 1 {
      ShowdownAwardsWithin(u.seats, u.board, u.dealerSeat.value);
    }
  }

  lemma SettledAwards(u: State, t: State)
    requires SettledFrom(u, t)
    ensures AwardsWithin(t.lastAwards, PotSize(t.seats))
  {
    FinalAwardsWithin(u);
    SettleKeeps(u, FinalAwards(u));
    assert t == Settle(u, FinalAwards(u));
  }

  /** At its settlement a hand's pot is what the winners got, plus what was dropped. */
  lemma SettledPot(t: State)
    requires JustSettled(t)
    ensures PotSize(t.seats) <= TotalChips(t) + LostIn(t)
  {
    var won := AwardedBySeat(t.seats, t.lastAwards);
    forall i | 0 <= i < |t.seats|
      ensures won[i] <= Stacks(t.seats)[i]
    {
      assert t.seats[i].Some? ==> Taken(t.seats, i) && SeatPaid(t.seats[i].value, t.lastAwards);
    }
    SumMonotone(won, Stacks(t.seats));
  }

  lemma LostNonNegative(t: State)
    requires SeatsOk(t) && CommitmentsOk(t.seats)
    ensures LostIn(t) >= 0
  {
    if |t.seats| > 0 {
      EntriesOk(t.seats, t.board);
      Pots.DroppedBalance(Entries(t.seats, t.board), 0);
    } else {
      assert Contenders(t.seats) == {};
    }
  }

  lemma SettlingStep(s: State, op: Op) returns (u: State)
    requires Inv(s) && AllStacksOk(s.seats) && (op.Start? || op.Play?) && Step(s, op).error == Ok
    ensures Step(s, op).state.street == Settled ==> SettledFrom(u, Step(s, op).state)
  {
    if op.Start? {
      NotRunningRests(s);
      EnoughCanOpen(s, op.cards);
      var t := BeginIsBegun(s, op.cards);
      u := BegunSettled(s, t, PositionsOf(s), Begin(s, op.cards));
    } else {
      ActsOnlyDeciding(s, op.cmd);
      u := ActSettled(s, op.cmd);
    }
  }

  // ---------- one operation ----------

  lemma HandWithin(s: State, op: Op, bound: int)
    requires Inv(s) && Within(s, bound) && (op.Start? || op.Play?) && Step(s, op).error == Ok
    ensures Within(Step(s, op).state, bound)
  {
    var t := Step(s, op).state;
    StepInv(s, op);
    HandAccounting(s, op);
    InvCommitments(t);
    LostNonNegative(t);
    if t.street != Settled {
      UnsettledPot(t);
    } else {
      var u := SettlingStep(s, op);
      SettledFacts(u, t);
      SettledAwards(u, t);
      SettledPot(t);
    }
  }

  lemma AbortWithin(s: State, bound: int)
    requires Inv(s) && s.street != Waiting && Within(s, bound) && Safe(s, Abort)
    ensures Within(AbortHand(s).state, bound + Inflow(s, Abort))
  {
    StepAccounting(s, Abort);
    StepInv(s, Abort);
    var t := AbortHand(s).state;
    InvCommitments(t);
    UnsettledPot(t);
  }

  lemma TurnoverNonNegative(s: State, op: Op)
    requires Inv(s) && Seating(op)
    ensures TurnoverBy(s, op).committed >= 0
  {
    InvCommitments(s);
  }

  lemma SeatingWithin(s: State, op: Op, bound: int)
    requires Inv(s) && Within(s, bound) && Seating(op) && Step(s, op).error == Ok
    ensures Within(Step(s, op).state, bound + Brought(s, op))
  {
    var t := Step(s, op).state;
    StepInv(s, op);
    SeatingAccounting(s, op);
    InvCommitments(t);
    CarriedNonNegative(s, op);
    if s.street == Settled {
      NotRunningRests(s);
      SeatingStep(s, op);
      TurnoverNonNegative(s, op);
    } else {
      UnsettledPot(t);
    }
    BroughtNonNegative(s, op);
  }

  lemma CarriedNonNegative(s: State, op: Op)
    requires Inv(s) && AllStacksOk(s.seats)
    ensures Carried(s, op) >= 0
  {}

  lemma BroughtNonNegative(s: State, op: Op)
    requires Inv(s)
    ensures Brought(s, op) >= 0
  {}

  lemma WithinMore(s: State, bound: int, more: int)
    requires Within(s, bound) && bound <= more
    ensures Within(s, more)
  {}

  lemma StepWithin(s: State, op: Op, bound: int)
    requires Inv(s) && Within(s, bound) && Safe(s, op)
    ensures Within(Step(s, op).state, bound + Inflow(s, op))
  {
    if Step(s, op).error != Ok {
      StepInv(s, op);
      BroughtNonNegative(s, op);
      WithinMore(s, bound, bound + Inflow(s, op));
    } else if op.Start? || op.Play? {
      HandWithin(s, op, bound);
    } else if op.Abort? {
      AbortWithin(s, bound);
    } else {
      SeatingWithin(s, op, bound);
    }
  }

  // ---------- runs ----------

  lemma {:induction false} RunWithin(s: State, ops: seq<Op>, bound: int)
    requires Inv(s) && Within(s, bound) && AllSafe(s, ops)
    ensures Within(Run(s, ops), bound + InflowIn(s, ops))
    decreases ops
  {
    if ops != [] {
      StepInv(s, ops[0]);
      StepWithin(s, ops[0], bound);
      RunWithin(Step(s, ops[0]).state, ops[1..], bound + Inflow(s, ops[0]));
    }
  }

  /** Every single amount lies between zero and the bound. */
  ghost predicate AmountsWithin(s: State, bound: int) {
    && 0 <= TotalChips(s) <= bound
    && 0 <= PotSize(s.seats) <= bound
    && 0 <= s.currentBet <= bound
    && AwardsWithin(s.lastAwards, bound)
    && (forall i :: Taken(s.seats, i) ==>
          && 0 <= s.seats[i].value.stack <= bound
          && 0 <= s.seats[i].value.handCommitment <= bound)
    && (Betting(s.street) ==> forall i :: Taken(s.seats, i) ==>
          && 0 <= s.seats[i].value.streetCommitment <= bound
          && s.seats[i].value.stack + s.seats[i].value.streetCommitment <= bound)
  }

  lemma SeatWithin(s: State, bound: int, i: nat)
    requires Inv(s) && Within(s, bound) && Taken(s.seats, i)
    ensures 0 <= s.seats[i].value.stack <= bound && 0 <= s.seats[i].value.handCommitment <= bound
    ensures Betting(s.street) ==> s.seats[i].value.stack + s.seats[i].value.handCommitment <= bound
  {
    forall j | 0 <= j < |s.seats|
      ensures Stacks(s.seats)[j] >= 0 && Commitments(s.seats)[j] >= 0
    {
      assert s.seats[j].Some? ==> Taken(s.seats, j);
    }
    SumsNonNegative(s.seats);
    SumBoundsElement(Stacks(s.seats), i);
    SumBoundsElement(Commitments(s.seats), i);
  }

  lemma WithinMeans(s: State, bound: int)
    requires Inv(s) && Within(s, bound)
    ensures AmountsWithin(s, bound)
  {
    SumsNonNegative(s.seats);
    forall i | Taken(s.seats, i)
      ensures 0 <= s.seats[i].value.stack <= bound && 0 <= s.seats[i].value.handCommitment <= bound
      ensures Betting(s.street) ==> s.seats[i].value.stack + s.seats[i].value.handCommitment <= bound
    {
      SeatWithin(s, bound, i);
    }
    if Betting(s.street) {
      assert forall i :: Taken(s.seats, i) ==> PlayerOk(s.seats[i].value);
    }
  }

  /**
   Over every run of a table from its creation in which aborts of settled hands find the
   awards on the table, every stack, commitment, bet, pot and award lies between zero and
   the chips brought to the table, plus what such aborts gave back. While these fit in 64
   bits, no amount of the table overflows.
   */
  lemma TableWithin(c: Config, ops: seq<Op>)
    requires Inv(NewTable(c)) && AllSafe(NewTable(c), ops)
    ensures AmountsWithin(Run(NewTable(c), ops), InflowIn(NewTable(c), ops))
  {
    var s := NewTable(c);
    SumZero(Stacks(s.seats));
    SumZero(Commitments(s.seats));
    RunWithin(s, ops, 0);
    WithinMeans(Run(s, ops), InflowIn(s, ops));
  }

  ghost predicate NeverAbortsSettled(s: State, ops: seq<Op>)
    requires Inv(s)
    decreases ops
  {
    ops == [] ||
    (StepInv(s, ops[0]); !AbortsSettled(s, ops[0]) && NeverAbortsSettled(Step(s, ops[0]).state, ops[1..]))
  }

  lemma {:induction false} OnlyBuyIns(s: State, ops: seq<Op>)
    requires Inv(s) && NeverAbortsSettled(s, ops)
    ensures AllSafe(s, ops) && InflowIn(s, ops) == Accounts(s, ops).brought
    decreases ops
  {
    if ops != [] {
      StepInv(s, ops[0]);
      OnlyBuyIns(Step(s, ops[0]).state, ops[1..]);
    }
  }

  /** Without aborts of settled hands, every amount lies between zero and the chips brought. */
  lemma TableWithinBuyIns(c: Config, ops: seq<Op>)
    requires Inv(NewTable(c)) && NeverAbortsSettled(NewTable(c), ops)
    ensures AmountsWithin(Run(NewTable(c), ops), Accounts(NewTable(c), ops).brought)
  {
    OnlyBuyIns(NewTable(c), ops);
    TableWithin(c, ops);
  }
}
