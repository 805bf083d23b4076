/** Whole runs of the table: the invariant in every reachable state and the chip accounts of every run. */
module TableRuns {
  import opened Sums
  import opened Cards
  import opened TableModel
  import opened TableInvariant
  import opened TableStart
  import opened TableAccounting

  datatype Op =
    | Sit(id: PlayerId, seat: nat, buyIn: int)
    | Leave(id: PlayerId)
    | Ready(id: PlayerId, ready: bool)
    | Connect(id: PlayerId, connected: bool)
    | Start(cards: seq<Card>)
    | Abort
    | Play(cmd: ActionCommand)

  ghost function Step(s: State, op: Op): Outcome
    requires Inv(s)
  {
    match op
    case Sit(id, seat, buyIn) => SeatPlayer(s, id, seat, buyIn)
    case Leave(id) => RemovePlayer(s, id)
    case Ready(id, ready) => SetReady(s, id, ready)
    case Connect(id, connected) => SetConnected(s, id, connected)
    case Start(cards) => StartHand(s, cards)
    case Abort => AbortHand(s)
    case Play(cmd) => Outcome(Act(s, cmd).state, Act(s, cmd).result.error)
  }

  // ---------- operations that do not touch the betting ----------

  /** Some connection flags change, and seats of players who are not in the hand are vacated. */
  ghost predicate Quiet(s: State, t: State) {
    && |t.seats| == |s.seats|
    && t == s.(seats := t.seats, serverSequence := t.serverSequence)
    && forall i :: 0 <= i < |s.seats| ==>
         if t.seats[i].None? then s.seats[i].None? || s.seats[i].value.status == Idle
         else s.seats[i].Some? && t.seats[i].value == s.seats[i].value.(connected := t.seats[i].value.connected)
  }

  lemma QuietSeat(s: State, t: State, i: nat)
    requires Quiet(s, t)
    ensures Taken(t.seats, i) ==> Taken(s.seats, i) && t.seats[i].value == s.seats[i].value.(connected := t.seats[i].value.connected)
    ensures Taken(s.seats, i) && s.seats[i].value.status != Idle ==> Taken(t.seats, i)
  {}

  lemma QuietGroups(s: State, t: State)
    requires Quiet(s, t)
    ensures Participants(t.seats) == Participants(s.seats)
    ensures Contenders(t.seats) == Contenders(s.seats)
    ensures Able(t.seats) == Able(s.seats)
    ensures AbleIds(t.seats) == AbleIds(s.seats)
    ensures Deciders(t) == Deciders(s)
    ensures forall i :: Unmatched(t, i) <==> Unmatched(s, i)
  {
    forall i: nat
      ensures i in Participants(t.seats) <==> i in Participants(s.seats)
      ensures i in Contenders(t.seats) <==> i in Contenders(s.seats)
      ensures i in Able(t.seats) <==> i in Able(s.seats)
      ensures i in Deciders(t) <==> i in Deciders(s)
      ensures Unmatched(t, i) <==> Unmatched(s, i)
    {
      QuietSeat(s, t, i);
    }
    QuietIds(s, t);
    QuietIdsBack(s, t);
  }

  lemma QuietIds(s: State, t: State)
    requires Quiet(s, t)
    ensures AbleIds(t.seats) <= AbleIds(s.seats)
  {
    forall id | id in AbleIds(t.seats)
      ensures id in AbleIds(s.seats)
    {
      var i := AbleSeat(t.seats, id);
      QuietSeat(s, t, i);
      assert CanAct(s.seats[i].value);
    }
  }

  lemma QuietIdsBack(s: State, t: State)
    requires Quiet(s, t)
    ensures AbleIds(s.seats) <= AbleIds(t.seats)
  {
    forall id | id in AbleIds(s.seats)
      ensures id in AbleIds(t.seats)
    {
      var i := AbleSeat(s.seats, id);
      QuietSeat(s, t, i);
      assert CanAct(t.seats[i].value);
    }
  }

  lemma QuietBet(s: State, t: State)
    requires Quiet(s, t) && InHand(s)
    ensures BetOk(t) && SeatsOk(t)
    ensures forall i :: Taken(t.seats, i) ==> PlayerOk(t.seats[i].value)
  {
    forall i: nat { QuietSeat(s, t, i); }
    if s.currentBet > 0 {
      var i :| Taken(s.seats, i) && s.seats[i].value.streetCommitment == s.currentBet;
      assert PlayerOk(s.seats[i].value);
      assert Taken(t.seats, i) && t.seats[i].value.streetCommitment == t.currentBet;
    }
  }

  lemma QuietHand(s: State, t: State)
    requires Quiet(s, t) && (Deciding(s) || Stuck(s))
    ensures Deciding(s) ==> Deciding(t)
    ensures Stuck(s) ==> Stuck(t)
  {
    QuietGroups(s, t);
    QuietBet(s, t);
    if Deciding(s) {
      forall i | Unmatched(t, i)
        ensures t.seats[i].value.id in t.pending
      {
        assert Unmatched(s, i);
        QuietSeat(s, t, i);
      }
    }
  }

  // ---------- the invariant ----------

  lemma RemoveQuiet(s: State, id: PlayerId)
    requires Deciding(s) || Stuck(s)
    ensures RemovePlayer(s, id).error == Ok ==> Quiet(s, RemovePlayer(s, id).state)
  {}

  lemma ConnectQuiet(s: State, id: PlayerId, connected: bool)
    ensures SetConnected(s, id, connected).error == Ok ==> Quiet(s, SetConnected(s, id, connected).state)
  {}

  /** While a hand runs, whatever is not an action only touches connections and players not dealt in. */
  lemma SeatingQuiet(s: State, op: Op)
    requires Inv(s) && Betting(s.street) && !op.Abort? && !op.Play? && Step(s, op).error == Ok
    ensures Quiet(s, Step(s, op).state)
  {
    match op
    case Leave(id) => RemoveQuiet(s, id);
    case Connect(id, connected) => ConnectQuiet(s, id, connected);
    case _ =>
  }

  lemma SitInv(s: State, id: PlayerId, seat: nat, buyIn: int)
    requires Resting(s)
    ensures Resting(SeatPlayer(s, id, seat, buyIn).state)
  {
    var r := SeatPlayer(s, id, seat, buyIn);
    if r.error == Ok {
      assert forall i :: Taken(r.state.seats, i) && i != seat ==> Taken(s.seats, i) && r.state.seats[i] == s.seats[i];
      assert forall i :: Taken(s.seats, i) ==> !HasId(s.seats, i, id);
    }
  }

  lemma LeaveInv(s: State, id: PlayerId)
    requires Resting(s)
    ensures Resting(RemovePlayer(s, id).state)
  {
    var t := RemovePlayer(s, id).state;
    assert forall i :: Taken(t.seats, i) ==> Taken(s.seats, i) && t.seats[i] == s.seats[i];
  }

  lemma ReadyInv(s: State, id: PlayerId, ready: bool)
    requires Resting(s)
    ensures Resting(SetReady(s, id, ready).state)
  {
    var t := SetReady(s, id, ready).state;
    assert forall i :: Taken(t.seats, i) ==>
      Taken(s.seats, i) && t.seats[i].value == s.seats[i].value.(ready := t.seats[i].value.ready);
  }

  lemma ConnectInv(s: State, id: PlayerId, connected: bool)
    requires Resting(s)
    ensures Resting(SetConnected(s, id, connected).state)
  {
    var t := SetConnected(s, id, connected).state;
    assert forall i :: Taken(t.seats, i) ==>
      Taken(s.seats, i) && t.seats[i].value == s.seats[i].value.(connected := t.seats[i].value.connected);
  }

  lemma AbortInv(s: State)
    requires Inv(s)
    ensures Inv(AbortHand(s).state)
    ensures AbortHand(s).error == Ok ==> Resting(AbortHand(s).state)
  {
    if s.street != Waiting {
      AbortRests(s);
    }
  }

  lemma AbortRests(s: State)
    requires SeatsOk(s) && s.street != Waiting
    ensures Resting(AbortHand(s).state)
  {
    var t := AbortHand(s).state;
    assert forall i :: Taken(t.seats, i) <==> Taken(s.seats, i);
    assert forall i :: Taken(t.seats, i) ==>
      t.seats[i].value.id == s.seats[i].value.id && t.seats[i].value.seat == s.seats[i].value.seat;
  }

  /** In a stalled hand nobody can act. */
  lemma StuckRefuses(s: State, cmd: ActionCommand)
    requires Stuck(s)
    ensures Act(s, cmd).result.error != Ok && Act(s, cmd).state == s
  {}

  /** A stalled hand stays stalled through every operation other than an abort. */
  lemma StuckStays(s: State, op: Op)
    requires Stuck(s) && !op.Abort?
    ensures Inv(s) && Stuck(Step(s, op).state)
  {
    if op.Play? {
      StuckRefuses(s, op.cmd);
    } else if Step(s, op).error == Ok {
      SeatingQuiet(s, op);
      QuietHand(s, Step(s, op).state);
    } else {
      StepRefused(s, op);
    }
  }

  lemma StepRefused(s: State, op: Op)
    requires Inv(s) && !op.Play? && Step(s, op).error != Ok
    ensures Step(s, op).state == s
  {}

  /** The player to act can always fold. */
  lemma FoldAccepted(s: State, amount: int)
    requires Deciding(s)
    ensures var id := s.seats[s.actingSeat.value].value.id;
            Act(s, ActionCommand(id, Fold, amount)).result.error == Ok
  {}

  lemma StepInv(s: State, op: Op)
    requires Inv(s)
    ensures Inv(Step(s, op).state)
    ensures Step(s, op).error != Ok ==> Step(s, op).state == s
  {
    if Resting(s) {
      RestingStepInv(s, op);
    } else {
      HandStepInv(s, op);
    }
  }

  lemma RestingStepInv(s: State, op: Op)
    requires Resting(s)
    ensures Inv(Step(s, op).state)
    ensures Step(s, op).error != Ok ==> Step(s, op).state == s
  {
    match op
    case Sit(id, seat, buyIn) => SitInv(s, id, seat, buyIn);
    case Leave(id) => LeaveInv(s, id);
    case Ready(id, ready) => ReadyInv(s, id, ready);
    case Connect(id, connected) => ConnectInv(s, id, connected);
    case Start(cards) =>
      if StartHand(s, cards).error == Ok {
        StartProgress(s, cards);
      }
    case Abort => AbortInv(s);
    case Play(cmd) =>
  }

  lemma HandStepInv(s: State, op: Op)
    requires Deciding(s) || Stuck(s)
    ensures Inv(Step(s, op).state)
    ensures Step(s, op).error != Ok ==> Step(s, op).state == s
  {
    if op.Play? {
      if Deciding(s) {
        ActProgress(s, op.cmd);
      } else {
        StuckRefuses(s, op.cmd);
      }
    } else if Step(s, op).error != Ok {
      StepRefused(s, op);
    } else if op.Abort? {
      AbortInv(s);
    } else {
      SeatingQuiet(s, op);
      QuietHand(s, Step(s, op).state);
    }
  }

  // ---------- the accounts ----------

  ghost function StackOf(s: State, id: PlayerId): int {
    var i := SeatOf(s.seats, id);
    if i.Some? then s.seats[i.value].value.stack else 0
  }

  /** Chips brought to the table by an operation. */
  ghost function Brought(s: State, op: Op): int
    requires Inv(s)
  {
    if op.Sit? && Step(s, op).error == Ok then op.buyIn else 0
  }

  /** Chips carried away. */
  ghost function Carried(s: State, op: Op): int
    requires Inv(s)
  {
    if op.Leave? && Step(s, op).error == Ok then StackOf(s, op.id) else 0
  }

  /** Chips lost in a showdown that the operation leads to. */
  ghost function Lost(s: State, op: Op): int
    requires Inv(s)
  {
    if (op.Start? || op.Play?) && Step(s, op).error == Ok then LostIn(Step(s, op).state) else 0
  }

  ghost predicate AbortsSettled(s: State, op: Op) {
    op.Abort? && s.street == Settled
  }

  /** What aborting a settled hand takes off the table: the awards, less the commitments, of those seated. */
  ghost function Undone(s: State, op: Op): int {
    if AbortsSettled(s, op) then Sum(AwardedBySeat(s.seats, s.lastAwards)) - PotSize(s.seats) else 0
  }

  lemma LeaverOwesNothing(s: State, i: nat)
    requires Inv(s) && Taken(s.seats, i)
    requires s.street == Waiting || (s.street != Settled && s.seats[i].value.status == Idle)
    ensures s.seats[i].value.handCommitment == 0
  {
    if !Resting(s) {
      assert PlayerOk(s.seats[i].value);
    }
  }

  lemma SeatingAccounting(s: State, op: Op)
    requires Inv(s) && (op.Sit? || op.Leave? || op.Ready? || op.Connect?) && Step(s, op).error == Ok
    ensures TotalChips(Step(s, op).state) == TotalChips(s) + Brought(s, op) - Carried(s, op)
    ensures AllStacksOk(s.seats) ==> AllStacksOk(Step(s, op).state.seats)
  {
    var t := Step(s, op).state;
    var i := if op.Sit? then op.seat else SeatOf(s.seats, op.id).value;
    SeatChangeTotals(s, t, i);
    if op.Leave? && s.street != Settled {
      LeaverOwesNothing(s, i);
    }
    assert forall j :: Taken(t.seats, j) && j != i ==> Taken(s.seats, j) && t.seats[j] == s.seats[j];
  }

  lemma RunningAbortAccounting(s: State)
    requires Inv(s) && s.street != Waiting && s.street != Settled
    ensures TotalChips(AbortHand(s).state) == TotalChips(s)
    ensures AllStacksOk(s.seats) ==> AllStacksOk(AbortHand(s).state.seats)
  {
    AbortAccounting(s);
    var t := AbortHand(s).state;
    forall i | Taken(t.seats, i)
      ensures Taken(s.seats, i)
      ensures t.seats[i].value.stack == s.seats[i].value.stack + s.seats[i].value.handCommitment
      ensures s.seats[i].value.handCommitment >= 0
    {
      assert Taken(s.seats, i);
      assert PlayerOk(s.seats[i].value);
    }
  }

  /** Every seated player can give back what the settled hand paid, out of stack and commitment. */
  ghost predicate Repayable(s: State) {
    forall i :: Taken(s.seats, i) ==> Unpaid(s, s.seats[i].value) + s.seats[i].value.handCommitment >= 0
  }

  /** The abort of a settled hand takes awards from, and returns commitments to, those seated now. */
  lemma SettledAbortAccounting(s: State)
    requires s.street == Settled
    ensures TotalChips(AbortHand(s).state) == TotalChips(s) - Undone(s, Abort)
    ensures AllStacksOk(AbortHand(s).state.seats) <==> Repayable(s)
  {
    AbortAccounting(s);
    var t := AbortHand(s).state;
    assert forall i :: Taken(t.seats, i) <==> Taken(s.seats, i);
    assert forall i :: Taken(t.seats, i) ==>
      t.seats[i].value.stack == Unpaid(s, s.seats[i].value) + s.seats[i].value.handCommitment;
  }

  /** The operation leaves every stack non-negative: only aborting a settled hand can fail to. */
  ghost predicate Safe(s: State, op: Op) {
    AbortsSettled(s, op) ==> Repayable(s)
  }

  /** One operation, whatever it is, balances; it makes no stack negative if and only if it is safe. */
  lemma StepAccounting(s: State, op: Op)
    requires Inv(s)
    ensures TotalChips(Step(s, op).state) ==
            TotalChips(s) + Brought(s, op) - Carried(s, op) - Lost(s, op) - Undone(s, op)
    ensures AllStacksOk(s.seats) ==> (AllStacksOk(Step(s, op).state.seats) <==> Safe(s, op))
  {
    if AbortsSettled(s, op) {
      SettledAbortAccounting(s);
    } else if Step(s, op).error != Ok {
      StepInv(s, op);
    } else if op.Start? || op.Play? {
      HandAccounting(s, op);
    } else if op.Abort? {
      RunningAbortAccounting(s);
    } else {
      SeatingAccounting(s, op);
    }
  }

  lemma HandAccounting(s: State, op: Op)
    requires Inv(s) && (op.Start? || op.Play?) && Step(s, op).error == Ok
    ensures TotalChips(Step(s, op).state) == TotalChips(s) - LostIn(Step(s, op).state)
    ensures AllStacksOk(s.seats) ==> AllStacksOk(Step(s, op).state.seats)
  {
    if op.Start? {
      NotRunningRests(s);
      StartAccounting(s, op.cards);
    } else {
      ActsOnlyDeciding(s, op.cmd);
      ActAccounting(s, op.cmd);
    }
  }

  lemma NotRunningRests(s: State)
    requires Inv(s) && !HandRunning(s.street)
    ensures Resting(s)
  {}

  lemma ActsOnlyDeciding(s: State, cmd: ActionCommand)
    requires Inv(s) && Act(s, cmd).result.error == Ok
    ensures Deciding(s)
  {}

  // ---------- runs ----------

  ghost function Run(s: State, ops: seq<Op>): State
    requires Inv(s)
    ensures Inv(Run(s, ops))
    decreases ops
  {
    if ops == [] then s
    else
      StepInv(s, ops[0]);
      Run(Step(s, ops[0]).state, ops[1..])
  }

  /** The movements of chips over a run. */
  datatype Account = Account(brought: int, carried: int, lost: int, undone: int)

  ghost function Accounts(s: State, ops: seq<Op>): Account
    requires Inv(s)
    decreases ops
  {
    if ops == [] then Account(0, 0, 0, 0)
    else
      StepInv(s, ops[0]);
      var rest := Accounts(Step(s, ops[0]).state, ops[1..]);
      Account(Brought(s, ops[0]) + rest.brought, Carried(s, ops[0]) + rest.carried,
              Lost(s, ops[0]) + rest.lost, Undone(s, ops[0]) + rest.undone)
  }

  /** Every abort of a settled hand in the run finds the awards still on the table. */
  ghost predicate AllSafe(s: State, ops: seq<Op>)
    requires Inv(s)
    decreases ops
  {
    ops == [] ||
    (StepInv(s, ops[0]); Safe(s, ops[0]) && AllSafe(Step(s, ops[0]).state, ops[1..]))
  }

  /** No stack is negative in any state of the run. */
  ghost predicate StacksOkThroughout(s: State, ops: seq<Op>)
    requires Inv(s)
    decreases ops
  {
    AllStacksOk(s.seats)
    && (ops == [] || (StepInv(s, ops[0]); StacksOkThroughout(Step(s, ops[0]).state, ops[1..])))
  }

  lemma {:induction false} RunAccounting(s: State, ops: seq<Op>)
    requires Inv(s)
    ensures var a := Accounts(s, ops);
            TotalChips(Run(s, ops)) == TotalChips(s) + a.brought - a.carried - a.lost - a.undone
    decreases ops
  {
    if ops != [] {
      StepInv(s, ops[0]);
      StepAccounting(s, ops[0]);
      RunAccounting(Step(s, ops[0]).state, ops[1..]);
    }
  }

  lemma {:induction false} RunStacks(s: State, ops: seq<Op>)
    requires Inv(s) && AllStacksOk(s.seats)
    ensures StacksOkThroughout(s, ops) <==> AllSafe(s, ops)
    ensures AllSafe(s, ops) ==> AllStacksOk(Run(s, ops).seats)
    decreases ops
  {
    if ops != [] {
      StepInv(s, ops[0]);
      StepAccounting(s, ops[0]);
      if Safe(s, ops[0]) {
        RunStacks(Step(s, ops[0]).state, ops[1..]);
      }
    }
  }

  /**
   Whole-run accounts of a table from its creation: what is on the table is what was
   brought, less what was carried away, less what showdowns dropped, less what aborts of
   settled hands took off. No stack is ever negative if and only if every such abort finds
   the awards still on the table.
   */
  lemma TableAccounts(c: Config, ops: seq<Op>)
    ensures Inv(NewTable(c))
    ensures var a := Accounts(NewTable(c), ops);
            TotalChips(Run(NewTable(c), ops)) == a.brought - a.carried - a.lost - a.undone
    ensures StacksOkThroughout(NewTable(c), ops) <==> AllSafe(NewTable(c), ops)
  {
    NewTableInv(c);
    var s := NewTable(c);
    SumZero(Stacks(s.seats));
    SumZero(Commitments(s.seats));
    RunAccounting(s, ops);
    RunStacks(s, ops);
  }

  /** Without an abort, a stalled hand is stalled for good. */
  lemma {:induction false} StuckForever(s: State, ops: seq<Op>)
    requires Stuck(s) && Inv(s) && Abort !in ops
    ensures Stuck(Run(s, ops))
    decreases ops
  {
    if ops != [] {
      StuckStays(s, ops[0]);
      StuckForever(Step(s, ops[0]).state, ops[1..]);
    }
  }
}
