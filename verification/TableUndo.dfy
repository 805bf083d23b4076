/** Aborting a hand undoes it, for everybody who kept their seat. */
module TableUndo {
  import opened Wrappers
  import opened Cards
  import opened TableModel
  import opened TableInvariant
  import opened TableStart
  import opened TableRuns

  /** What the player on seat `i` would hold had the hand not been played. */
  ghost function Stake(s: State, i: nat): int
    requires Taken(s.seats, i)
  {
    Unpaid(s, s.seats[i].value) + s.seats[i].value.handCommitment
  }

  /** Nobody changes seats, and every stake stays as it was. */
  ghost predicate SameStakes(s: State, t: State) {
    && |t.seats| == |s.seats|
    && forall i: nat :: i < |s.seats| ==>
         && (t.seats[i].Some? <==> s.seats[i].Some?)
         && (t.seats[i].Some? ==> t.seats[i].value.id == s.seats[i].value.id && Stake(t, i) == Stake(s, i))
  }

  lemma SettleStakes(s: State, awards: seq<PotAward>)
    requires s.street != Settled
    ensures SameStakes(s, Settle(s, awards))
  {}

  lemma StreetStakes(s: State)
    requires Betting(s.street) && s.street != River && CanAdvance(s)
    ensures SameStakes(s, AdvanceStreet(s))
  {}

  lemma {:induction false} AdvanceStakes(s: State)
    requires CanAdvance(s)
    ensures SameStakes(s, Advance(s))
    decreases StreetsLeft(s.street)
  {
    if |Contenders(s.seats)| <= 1 {
      SettleStakes(s, FoldAwards(s.seats, FirstContender(s.seats)));
    } else if !RoundComplete(s) {
    } else if s.street == River {
      SettleStakes(s, ShowdownAwards(s.seats, s.board, s.dealerSeat.value));
    } else {
      StreetStakes(s);
      ClearStreetKeeps(s.seats);
      var t := AdvanceStreet(s);
      if |Able(t.seats)| <= 1 {
        AdvanceStakes(t.(pending := {}, actingSeat := None));
      }
    }
  }

  lemma ContinueStakes(s: State, from: nat)
    requires CanAdvance(s) && from < |s.seats|
    ensures SameStakes(s, Continue(s, from))
  {
    if |Contenders(s.seats)| <= 1 {
      SettleStakes(s, FoldAwards(s.seats, FirstContender(s.seats)));
    } else if RoundComplete(s) {
      AdvanceStakes(s.(actingSeat := None));
    }
  }

  lemma PlayedStakes(s: State, cmd: ActionCommand)
    requires Deciding(s) && BetPhase(s, s.actingSeat.value, cmd).error == Ok
    ensures SameStakes(s, Played(s, cmd))
  {
    var a := s.actingSeat.value;
    var lift, q, target := ActionKinds(s, a, cmd);
    assert Played(s, cmd).seats == s.seats[a := Some(q)];
  }

  lemma ActStakes(s: State, cmd: ActionCommand)
    requires Inv(s)
    ensures SameStakes(s, Act(s, cmd).state)
  {
    if Act(s, cmd).result.error == Ok {
      ActsOnlyDeciding(s, cmd);
      ActCases(s, cmd);
      PlayedStakes(s, cmd);
      ContinueStakes(Played(s, cmd), s.actingSeat.value);
    } else {
      StepInv(s, Play(cmd));
    }
  }

  /** The stacks before the hand are the stakes after its start. */
  ghost predicate StacksAtStake(s: State, r: State) {
    && |r.seats| == |s.seats|
    && forall i: nat :: i < |s.seats| ==>
         && (r.seats[i].Some? <==> s.seats[i].Some?)
         && (r.seats[i].Some? ==> r.seats[i].value.id == s.seats[i].value.id && Stake(r, i) == s.seats[i].value.stack)
  }

  lemma BegunStakes(s: State, t: State, at: Positions, r: State)
    requires IsBegun(s, t, at, r)
    ensures StacksAtStake(s, r)
  {
    if |Able(t.seats)| <= 1 {
      AdvanceStakes(t);
    }
    forall i: nat | i < |s.seats| && s.seats[i].Some?
      ensures Stake(t, i) == s.seats[i].value.stack
    {
      assert OpenedPlayer(s.seats[i].value, t.seats[i].value);
    }
  }

  lemma StartStakes(s: State, cards: seq<Card>)
    requires Resting(s) && StartHand(s, cards).error == Ok
    ensures StacksAtStake(s, StartHand(s, cards).state)
  {
    EnoughCanOpen(s, cards);
    var t := BeginIsBegun(s, cards);
    BegunStakes(s, t, PositionsOf(s), Begin(s, cards));
  }

  lemma StartedStreet(s: State, cards: seq<Card>)
    requires Resting(s) && StartHand(s, cards).error == Ok
    ensures StartHand(s, cards).state.street != Waiting
  {
    StartProgress(s, cards);
  }

  // ---------- one operation ----------

  ghost predicate NewHand(s: State, op: Op)
    requires Inv(s)
  {
    (op.Start? || op.Abort?) && Step(s, op).error == Ok
  }

  /** Within a hand, settled or not, an operation leaves the stake of whoever keeps their seat alone. */
  lemma StepStake(s: State, op: Op, i: nat, id: PlayerId)
    requires Inv(s) && s.street != Waiting && !NewHand(s, op)
    requires HasId(s.seats, i, id) && HasId(Step(s, op).state.seats, i, id)
    ensures Stake(Step(s, op).state, i) == Stake(s, i)
    ensures Step(s, op).state.street != Waiting
  {
    if op.Play? {
      ActStakes(s, op.cmd);
      PlayStreet(s, op.cmd);
    } else {
      SeatingStake(s, op, i, id);
    }
  }

  /** Whatever is not an action leaves a player who keeps the seat with the same chips. */
  lemma SeatingStake(s: State, op: Op, i: nat, id: PlayerId)
    requires Inv(s) && s.street != Waiting && !NewHand(s, op) && !op.Play?
    requires HasId(s.seats, i, id) && HasId(Step(s, op).state.seats, i, id)
    ensures Stake(Step(s, op).state, i) == Stake(s, i)
    ensures Step(s, op).state.street != Waiting
  {
    if Step(s, op).error != Ok {
      StepInv(s, op);
    }
  }

  lemma PlayStreet(s: State, cmd: ActionCommand)
    requires Inv(s) && s.street != Waiting
    ensures Act(s, cmd).state.street != Waiting
  {
    if Act(s, cmd).result.error == Ok {
      ActsOnlyDeciding(s, cmd);
      ActProgress(s, cmd);
    }
  }

  // ---------- runs ----------

  /** The run stays within one hand and player `id` sits on seat `i` in every state of it. */
  ghost predicate KeepsSeat(s: State, ops: seq<Op>, i: nat, id: PlayerId)
    requires Inv(s)
    decreases ops
  {
    && HasId(s.seats, i, id)
    && (ops == [] ||
        (StepInv(s, ops[0]); !NewHand(s, ops[0]) && KeepsSeat(Step(s, ops[0]).state, ops[1..], i, id)))
  }

  lemma KeepsSeatNext(s: State, ops: seq<Op>, i: nat, id: PlayerId)
    requires Inv(s) && KeepsSeat(s, ops, i, id) && ops != []
    ensures Inv(Step(s, ops[0]).state) && !NewHand(s, ops[0])
    ensures HasId(Step(s, ops[0]).state.seats, i, id) && KeepsSeat(Step(s, ops[0]).state, ops[1..], i, id)
  {
    StepInv(s, ops[0]);
    assert KeepsSeat(Step(s, ops[0]).state, ops[1..], i, id);
  }

  lemma {:induction false} RunStake(s: State, ops: seq<Op>, i: nat, id: PlayerId)
    requires Inv(s) && s.street != Waiting && KeepsSeat(s, ops, i, id)
    ensures HasId(Run(s, ops).seats, i, id) && Run(s, ops).street != Waiting
    ensures Stake(Run(s, ops), i) == Stake(s, i)
    decreases ops
  {
    if ops != [] {
      KeepsSeatNext(s, ops, i, id);
      StepStake(s, ops[0], i, id);
      RunStake(Step(s, ops[0]).state, ops[1..], i, id);
    }
  }

  /**
   Abort is an exact undo: at any point of a hand, running or settled, fold win or showdown,
   chips dropped or not, a player who kept the seat gets back the stack held before the start.
   */
  lemma AbortUndoes(s: State, cards: seq<Card>, ops: seq<Op>, i: nat, id: PlayerId)
    requires Resting(s) && StartHand(s, cards).error == Ok && HasId(s.seats, i, id)
    requires Inv(StartHand(s, cards).state) && KeepsSeat(StartHand(s, cards).state, ops, i, id)
    ensures var end := AbortHand(Run(StartHand(s, cards).state, ops));
            && end.error == Ok
            && HasId(end.state.seats, i, id)
            && end.state.seats[i].value.stack == s.seats[i].value.stack
  {
    StartStakes(s, cards);
    StartedStreet(s, cards);
    RunStake(StartHand(s, cards).state, ops, i, id);
  }
}
