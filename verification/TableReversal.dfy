/** Aborting a hand that has been settled, after players have left and others have sat down. */
module TableReversal {
  import opened Sums
  import opened Cards
  import opened TableModel
  import opened TableAccounting
  import opened TableRuns
  import opened TableSettled

  /** The operation only concerns who sits where. */
  predicate Seating(op: Op) {
    op.Sit? || op.Leave? || op.Ready? || op.Connect?
  }

  ghost predicate OnlySeating(ops: seq<Op>) {
    forall k :: 0 <= k < |ops| ==> Seating(ops[k])
  }

  /**
   What changed hands at a settled table: what leavers had committed to the hand and won in
   it, and what players who sat down had won in it before they left.
   */
  datatype Turnover = Turnover(committed: int, won: int, returned: int)

  ghost function TurnoverBy(s: State, op: Op): Turnover
    requires Inv(s)
  {
    if Step(s, op).error != Ok then Turnover(0, 0, 0)
    else match op
      case Leave(id) =>
        Turnover(s.seats[SeatOf(s.seats, id).value].value.handCommitment, AwardedTo(s.lastAwards, id), 0)
      case Sit(id, _, _) => Turnover(0, 0, AwardedTo(s.lastAwards, id))
      case _ => Turnover(0, 0, 0)
  }

  ghost function TurnoverIn(s: State, ops: seq<Op>): Turnover
    requires Inv(s)
    decreases ops
  {
    if ops == [] then Turnover(0, 0, 0)
    else
      StepInv(s, ops[0]);
      var first := TurnoverBy(s, ops[0]);
      var rest := TurnoverIn(Step(s, ops[0]).state, ops[1..]);
      Turnover(first.committed + rest.committed, first.won + rest.won, first.returned + rest.returned)
  }

  lemma SeatingSums(s: State, t: State, i: nat)
    requires i < |s.seats| == |t.seats| && t.seats == s.seats[i := t.seats[i]] && t.lastAwards == s.lastAwards
    ensures PotSize(t.seats) == PotSize(s.seats) - Commitments(s.seats)[i] + Commitments(t.seats)[i]
    ensures Sum(AwardedBySeat(t.seats, t.lastAwards)) ==
            Sum(AwardedBySeat(s.seats, s.lastAwards))
            - AwardedBySeat(s.seats, s.lastAwards)[i] + AwardedBySeat(t.seats, t.lastAwards)[i]
  {
    assert Commitments(t.seats) == Commitments(s.seats)[i := Commitments(t.seats)[i]];
    SumUpdate(Commitments(s.seats), i, Commitments(t.seats)[i]);
    var won := AwardedBySeat(t.seats, t.lastAwards);
    assert won == AwardedBySeat(s.seats, s.lastAwards)[i := won[i]];
    SumUpdate(AwardedBySeat(s.seats, s.lastAwards), i, won[i]);
  }

  /** Seats change hands; commitments and awards of those seated change by the turnover. */
  lemma SeatingStep(s: State, op: Op)
    requires Resting(s) && s.street == Settled && Seating(op)
    ensures var t := Step(s, op).state;
            var d := TurnoverBy(s, op);
            && Resting(t) && t.street == Settled && t.lastAwards == s.lastAwards
            && PotSize(t.seats) == PotSize(s.seats) - d.committed
            && Sum(AwardedBySeat(t.seats, t.lastAwards))
               == Sum(AwardedBySeat(s.seats, s.lastAwards)) - d.won + d.returned
  {
    RestingStepInv(s, op);
    if Step(s, op).error == Ok {
      var i := ChangedSeat(s, op);
      SeatingSums(s, Step(s, op).state, i);
    }
  }

  /** The one seat that changes, and how its commitment and awards do. */
  lemma ChangedSeat(s: State, op: Op) returns (i: nat)
    requires Resting(s) && s.street == Settled && Seating(op) && Step(s, op).error == Ok
    ensures var t := Step(s, op).state;
            var d := TurnoverBy(s, op);
            && i < |s.seats| == |t.seats| && t.seats == s.seats[i := t.seats[i]]
            && t.street == Settled && t.lastAwards == s.lastAwards
            && Commitments(t.seats)[i] == Commitments(s.seats)[i] - d.committed
            && AwardedBySeat(t.seats, t.lastAwards)[i]
               == AwardedBySeat(s.seats, s.lastAwards)[i] - d.won + d.returned
    ensures Inv(Step(s, op).state) ==> Resting(Step(s, op).state)
  {
    i := if op.Sit? then op.seat else SeatOf(s.seats, op.id).value;
  }

  lemma {:induction false} SeatingRun(s: State, ops: seq<Op>)
    requires Resting(s) && Inv(s) && s.street == Settled && OnlySeating(ops)
    ensures var t := Run(s, ops);
            var d := TurnoverIn(s, ops);
            && Resting(t) && t.street == Settled && t.lastAwards == s.lastAwards
            && PotSize(t.seats) == PotSize(s.seats) - d.committed
            && Sum(AwardedBySeat(t.seats, t.lastAwards))
               == Sum(AwardedBySeat(s.seats, s.lastAwards)) - d.won + d.returned
    decreases ops
  {
    if ops != [] {
      StepInv(s, ops[0]);
      SeatingStep(s, ops[0]);
      SeatingRun(Step(s, ops[0]).state, ops[1..]);
    }
  }

  /** Players who played the hand and stayed can give back what it paid them. */
  ghost predicate PlayersSolvent(s: State) {
    forall i :: Taken(s.seats, i) && s.seats[i].value.status != Idle ==>
      && s.seats[i].value.handCommitment >= 0
      && AwardedTo(s.lastAwards, s.seats[i].value.id) <= s.seats[i].value.stack
  }

  lemma SolventStep(s: State, op: Op)
    requires Resting(s) && s.street == Settled && Seating(op) && PlayersSolvent(s)
    ensures PlayersSolvent(Step(s, op).state)
  {
    SeatingStep(s, op);
    var t := Step(s, op).state;
    if Step(s, op).error == Ok {
      var i := if op.Sit? then op.seat else SeatOf(s.seats, op.id).value;
      assert forall j :: Taken(t.seats, j) && j != i ==> Taken(s.seats, j) && t.seats[j] == s.seats[j];
    } else {
      StepInv(s, op);
    }
  }

  lemma {:induction false} SolventRun(s: State, ops: seq<Op>)
    requires Resting(s) && Inv(s) && s.street == Settled && OnlySeating(ops) && PlayersSolvent(s)
    ensures PlayersSolvent(Run(s, ops))
    decreases ops
  {
    if ops != [] {
      StepInv(s, ops[0]);
      SeatingStep(s, ops[0]);
      SolventStep(s, ops[0]);
      SolventRun(Step(s, ops[0]).state, ops[1..]);
    }
  }

  /** Whoever sat down since the hand holds at least what the hand paid under the same id. */
  ghost predicate NewcomersCover(s: State) {
    forall i :: Taken(s.seats, i) && s.seats[i].value.status == Idle ==>
      AwardedTo(s.lastAwards, s.seats[i].value.id) <= s.seats[i].value.stack
  }

  lemma RepayableIff(s: State)
    requires Resting(s) && s.street == Settled && PlayersSolvent(s)
    ensures Repayable(s) <==> NewcomersCover(s)
  {
    forall i | Taken(s.seats, i)
      ensures s.seats[i].value.status != Idle ==> Unpaid(s, s.seats[i].value) + s.seats[i].value.handCommitment >= 0
      ensures s.seats[i].value.status == Idle ==> s.seats[i].value.handCommitment == 0
    {}
  }

  /**
   A settled hand `t`, any coming and going after it, then an abort. The abort returns the
   chips that the hand dropped and what leavers had won, and takes what leavers had committed
   and what returning players had won; so it keeps the total if and only if these balance. It
   leaves no stack negative if and only if every newcomer holds what the hand paid under the
   same id.
   */
  lemma AbortAfterDepartures(t: State, ops: seq<Op>)
    requires JustSettled(t) && Resting(t) && Inv(t) && OnlySeating(ops)
    ensures var s := Run(t, ops);
            var d := TurnoverIn(t, ops);
            && AbortHand(s).error == Ok
            && TotalChips(AbortHand(s).state) == TotalChips(s) + LostIn(t) + d.won - d.committed - d.returned
            && (TotalChips(AbortHand(s).state) == TotalChips(s) <==> LostIn(t) + d.won == d.committed + d.returned)
            && (AllStacksOk(AbortHand(s).state.seats) <==> NewcomersCover(s))
  {
    SeatingRun(t, ops);
    assert PlayersSolvent(t) by {
      assert forall i :: Taken(t.seats, i) ==> SeatPaid(t.seats[i].value, t.lastAwards);
    }
    SolventRun(t, ops);
    RepayableIff(Run(t, ops));
    SettledAbortAccounting(Run(t, ops));
  }

  /** Aborted before anybody comes or goes, a settled hand gives back exactly the chips it dropped. */
  lemma AbortAtOnce(t: State)
    requires JustSettled(t) && Resting(t) && Inv(t)
    ensures TotalChips(AbortHand(t).state) == TotalChips(t) + LostIn(t)
    ensures AllStacksOk(AbortHand(t).state.seats)
  {
    AbortAfterDepartures(t, []);
    forall i | Taken(t.seats, i)
      ensures AwardedTo(t.lastAwards, t.seats[i].value.id) <= t.seats[i].value.stack
    {
      assert SeatPaid(t.seats[i].value, t.lastAwards);
    }
  }

  lemma PlayedHandRests(s: State, cards: seq<Card>, hand: seq<Op>, t: State)
    requires PlayedHand(s, cards, hand, t)
    ensures JustSettled(t) && Resting(t) && Inv(t)
  {
    PlayedHandSettles(s, cards, hand, t);
    RunRests(StartHand(s, cards).state, hand);
  }

  lemma RunRests(r: State, ops: seq<Op>)
    requires Inv(r) && Run(r, ops).street == Settled
    ensures Inv(Run(r, ops)) && Resting(Run(r, ops))
  {
    NotRunningRests(Run(r, ops));
  }

  /** So it is after every hand, however it was played to its settlement. */
  lemma PlayedHandReverts(s: State, cards: seq<Card>, hand: seq<Op>, t: State, ops: seq<Op>)
    requires PlayedHand(s, cards, hand, t) && OnlySeating(ops)
    ensures Inv(t)
    ensures var u := Run(t, ops);
            var d := TurnoverIn(t, ops);
            && TotalChips(AbortHand(u).state) == TotalChips(u) + LostIn(t) + d.won - d.committed - d.returned
            && (AllStacksOk(AbortHand(u).state.seats) <==> NewcomersCover(u))
  {
    PlayedHandRests(s, cards, hand, t);
    AbortAfterDepartures(t, ops);
  }
}
