/** Every operation keeps the table's invariant, and a hand never stalls except in one start position. */
module TableInvariant {
  import opened Wrappers
  import opened Sums
  import opened Clockwise
  import opened TableModel

  /** A hand in progress with the decision sets in order, whoever is to act. */
  ghost predicate MidHand(s: State) {
    InHand(s) && SetsOk(s)
  }

  lemma NewTableInv(c: Config)
    ensures Inv(NewTable(c))
  {}

  // ---------- one seat changes ----------

  /** Seat `a` gets a new record for the same player, who stays dealt in. */
  ghost predicate Replaced(seats: Seats, t: Seats, a: nat, q: Player) {
    && Taken(seats, a)
    && t == seats[a := Some(q)]
    && q.id == seats[a].value.id && q.seat == seats[a].value.seat
    && IsParticipant(seats[a].value) && IsParticipant(q)
  }

  lemma ReplacedGroups(seats: Seats, t: Seats, a: nat, q: Player)
    requires Replaced(seats, t, a, q)
    ensures Participants(t) == Participants(seats)
    ensures Contenders(t) - {a} == Contenders(seats) - {a}
    ensures IsContender(q) ==> a in Contenders(t)
  {
    assert forall i: nat :: i != a ==> (Taken(t, i) <==> Taken(seats, i));
    assert forall i: nat :: i != a && Taken(t, i) ==> t[i] == seats[i];
    assert forall i: nat :: i in Participants(t) <==> i in Participants(seats);
    assert forall i: nat :: i in Contenders(t) - {a} <==> i in Contenders(seats) - {a};
  }

  lemma AbleSeat(seats: Seats, id: PlayerId) returns (i: nat)
    requires id in AbleIds(seats)
    ensures Taken(seats, i) && CanAct(seats[i].value) && seats[i].value.id == id
  {
    i :| i < |seats| && Taken(seats, i) && CanAct(seats[i].value) && seats[i].value.id == id;
  }

  lemma ReplacedAble(seats: Seats, t: Seats, a: nat, q: Player, id: PlayerId)
    requires Replaced(seats, t, a, q) && DistinctIds(seats)
    requires id in AbleIds(seats) && id != q.id
    ensures id in AbleIds(t)
  {
    var i := AbleSeat(seats, id);
    assert Taken(t, i) && CanAct(t[i].value) && t[i].value.id == id;
  }

  lemma ReplacedSeatsOk(s: State, t: State, a: nat, q: Player)
    requires SeatsOk(s) && Replaced(s.seats, t.seats, a, q)
    requires t.config == s.config && t.dealerSeat == s.dealerSeat
    ensures SeatsOk(t)
  {
    assert forall i :: Taken(t.seats, i) ==> Taken(s.seats, i);
    assert forall i :: Taken(t.seats, i) && i != a ==> t.seats[i] == s.seats[i];
  }

  /** The parts of `InHand` that follow when one player's record changes within the hand. */
  lemma ReplacedInHand(s: State, t: State, a: nat, q: Player)
    requires InHand(s) && |Contenders(s.seats)| >= 2 && Replaced(s.seats, t.seats, a, q) && PlayerOk(q)
    requires t == s.(seats := t.seats, currentBet := t.currentBet, minimumRaise := t.minimumRaise,
                     pending := t.pending, raiseAllowed := t.raiseAllowed)
    requires BetOk(t)
    ensures InHand(t)
  {
    ReplacedGroups(s.seats, t.seats, a, q);
    ReplacedSeatsOk(s, t, a, q);
    assert Contenders(t.seats) != {} by {
      if Contenders(s.seats) - {a} == {} {
        SubsetSize(Contenders(s.seats), {a});
      }
    }
    assert forall i :: Taken(t.seats, i) && i != a ==> t.seats[i] == s.seats[i] && Taken(s.seats, i);
  }

  // ---------- the six actions ----------

  lemma DoneMidHand(s: State, a: nat, q: Player)
    requires Deciding(s) && a == s.actingSeat.value && Replaced(s.seats, s.seats[a := Some(q)], a, q)
    requires PlayerOk(q) && s.seats[a].value.streetCommitment <= q.streetCommitment <= s.currentBet
    requires CanAct(q) ==> q.streetCommitment == s.currentBet
    ensures MidHand(Done(s, a, q))
  {
    var t := Done(s, a, q);
    assert BetOk(t) by {
      if s.currentBet > 0 {
        var i :| Taken(s.seats, i) && s.seats[i].value.streetCommitment == s.currentBet;
        assert Taken(t.seats, i) && t.seats[i].value.streetCommitment == s.currentBet;
      }
      assert forall i :: Taken(t.seats, i) && i != a ==> t.seats[i] == s.seats[i] && Taken(s.seats, i);
    }
    ReplacedInHand(s, t, a, q);
    forall id | id in t.pending
      ensures id in AbleIds(t.seats)
    {
      ReplacedAble(s.seats, t.seats, a, q, id);
    }
    forall i | Unmatched(t, i)
      ensures t.seats[i].value.id in t.pending
    {
      assert i != a && t.seats[i] == s.seats[i];
      assert Unmatched(s, i);
    }
  }

  lemma LiftMidHand(s: State, a: nat, target: int)
    requires Deciding(s) && a == s.actingSeat.value
    requires var p := s.seats[a].value;
             && s.currentBet < target <= p.streetCommitment + p.stack
             && (target - s.currentBet >= s.minimumRaise || target == p.streetCommitment + p.stack)
    ensures MidHand(Lift(s, a, target))
  {
    var p := s.seats[a].value;
    var q := PayTo(p, target);
    var t := Lift(s, a, target);
    assert Replaced(s.seats, t.seats, a, q) && PlayerOk(q);
    assert forall i :: Taken(t.seats, i) && i != a ==> t.seats[i] == s.seats[i] && Taken(s.seats, i);
    assert BetOk(t) by {
      assert Taken(t.seats, a) && t.seats[a].value.streetCommitment == target;
    }
    ReplacedInHand(s, t, a, q);
    LiftSets(s, a, target);
  }

  lemma LiftSets(s: State, a: nat, target: int)
    requires Deciding(s) && a == s.actingSeat.value
    requires var p := s.seats[a].value;
             && s.currentBet < target <= p.streetCommitment + p.stack
             && (target - s.currentBet >= s.minimumRaise || target == p.streetCommitment + p.stack)
    ensures SetsOk(Lift(s, a, target))
  {
    var q := PayTo(s.seats[a].value, target);
    var t := Lift(s, a, target);
    assert forall i :: Taken(t.seats, i) && i != a ==> t.seats[i] == s.seats[i] && Taken(s.seats, i);
    forall id | id in t.pending
      ensures id in AbleIds(t.seats)
    {
      if id in s.pending && id != q.id {
        ReplacedAble(s.seats, t.seats, a, q, id);
      }
    }
    forall i | Unmatched(t, i)
      ensures t.seats[i].value.id in t.pending
    {
      assert i != a && t.seats[i] == s.seats[i];
      assert t.seats[i].value.id != q.id;
      assert t.seats[i].value.streetCommitment < target;
    }
  }

  /** The actor settles for what is on the table: folds, checks, calls or goes all-in for no more than the bet. */
  ghost predicate Settles(p: Player, q: Player, bet: int) {
    && PlayerOk(q) && IsParticipant(q)
    && q.id == p.id && q.seat == p.seat && q.stack + q.handCommitment == p.stack + p.handCommitment
    && q.hole == p.hole && q.hasHole == p.hasHole
    && p.streetCommitment <= q.streetCommitment <= bet
    && (CanAct(q) ==> q.streetCommitment == bet)
    && (q.streetCommitment > p.streetCommitment ==> q.stack < p.stack)
  }

  /** The actor may make it `target`: within the stack, and a full raise unless it is all-in. */
  ghost predicate MayLift(s: State, p: Player, target: int) {
    && s.currentBet < target <= p.streetCommitment + p.stack
    && (target - s.currentBet >= s.minimumRaise || target == p.streetCommitment + p.stack)
    && (s.currentBet == 0 || p.id in s.raiseAllowed)
  }

  /** Folding, checking and calling settle for the bet. */
  lemma PassiveKind(s: State, a: nat, cmd: ActionCommand) returns (q: Player)
    requires Taken(s.seats, a) && PlayerOk(s.seats[a].value) && CanAct(s.seats[a].value)
    requires s.seats[a].value.streetCommitment <= s.currentBet
    requires cmd.action in {Fold, Check, Call} && BetPhase(s, a, cmd).error == Ok
    ensures BetPhase(s, a, cmd).state == Done(s, a, q) && Settles(s.seats[a].value, q, s.currentBet)
  {
    var p := s.seats[a].value;
    match cmd.action
    case Fold => q := p.(status := Folded);
    case Call => q := PayTo(p, Min(s.currentBet, p.streetCommitment + p.stack));
    case _ => q := p;
  }

  /** Betting and raising lift it. */
  lemma ActiveKind(s: State, a: nat, cmd: ActionCommand)
    requires Taken(s.seats, a) && PlayerOk(s.seats[a].value)
    requires s.seats[a].value.streetCommitment <= s.currentBet
    requires cmd.action in {Bet, Raise} && BetPhase(s, a, cmd).error == Ok
    ensures BetPhase(s, a, cmd).state == Lift(s, a, cmd.amount) && MayLift(s, s.seats[a].value, cmd.amount)
  {}

  /** Every accepted action is one of two kinds. */
  lemma ActionKinds(s: State, a: nat, cmd: ActionCommand) returns (lift: bool, q: Player, target: int)
    requires Taken(s.seats, a)
    requires PlayerOk(s.seats[a].value) && CanAct(s.seats[a].value)
    requires s.seats[a].value.streetCommitment <= s.currentBet
    requires BetPhase(s, a, cmd).error == Ok
    ensures lift ==> BetPhase(s, a, cmd).state == Lift(s, a, target) && MayLift(s, s.seats[a].value, target)
                     && q == PayTo(s.seats[a].value, target)
    ensures !lift ==> BetPhase(s, a, cmd).state == Done(s, a, q) && Settles(s.seats[a].value, q, s.currentBet)
  {
    var p := s.seats[a].value;
    if cmd.action in {Fold, Check, Call} {
      lift, target := false, 0;
      q := PassiveKind(s, a, cmd);
    } else if cmd.action in {Bet, Raise} {
      ActiveKind(s, a, cmd);
      lift, q, target := true, PayTo(p, cmd.amount), cmd.amount;
    } else {
      target := p.streetCommitment + p.stack;
      lift, q := target > s.currentBet, PayTo(p, target);
    }
  }

  lemma BetPhaseMidHand(s: State, cmd: ActionCommand)
    requires Deciding(s) && BetPhase(s, s.actingSeat.value, cmd).error == Ok
    ensures MidHand(BetPhase(s, s.actingSeat.value, cmd).state)
  {
    var a := s.actingSeat.value;
    var lift, q, target := ActionKinds(s, a, cmd);
    if lift {
      LiftMidHand(s, a, target);
    } else {
      DoneMidHand(s, a, q);
    }
  }

  // ---------- moving on ----------

  lemma AdvanceStreetMidHand(s: State)
    requires InHand(s) && s.street != River
    ensures CanAdvance(s)
    ensures MidHand(AdvanceStreet(s))
  {
    BoundedCards(s);
    var t := AdvanceStreet(s);
    ClearStreetKeeps(s.seats);
    ClearStreetOk(s, t);
    assert forall i :: !Unmatched(t, i);
  }

  lemma BoundedCards(s: State)
    requires InHand(s)
    ensures CanAdvance(s)
  {}

  lemma ClearStreetOk(s: State, t: State)
    requires InHand(s) && t.seats == ClearStreet(s.seats) && t.config == s.config && t.dealerSeat == s.dealerSeat
    ensures SeatsOk(t)
    ensures forall i :: Taken(t.seats, i) ==> PlayerOk(t.seats[i].value) && t.seats[i].value.streetCommitment == 0
  {
    assert forall i :: Taken(t.seats, i) <==> Taken(s.seats, i);
    assert forall i :: Taken(t.seats, i) ==> t.seats[i].value == s.seats[i].value.(streetCommitment := 0);
  }

  lemma SettleResting(s: State, awards: seq<PotAward>)
    requires InHand(s)
    ensures Resting(Settle(s, awards)) && Settle(s, awards).street == Settled
  {
    var t := Settle(s, awards);
    assert forall i :: Taken(t.seats, i) <==> Taken(s.seats, i);
    assert forall i :: Taken(t.seats, i) ==>
      t.seats[i].value == s.seats[i].value.(stack := t.seats[i].value.stack, ready := false);
  }

  /** Nobody pending and nobody behind: the round is over. */
  lemma ClearedRoundComplete(s: State)
    requires InHand(s) && s.pending == {} && s.currentBet == 0
    ensures RoundComplete(s)
  {
    assert Deciders(s) == {};
    assert forall i :: !Unmatched(s, i);
  }

  lemma ActorIgnored(s: State, t: State)
    requires t == s.(actingSeat := t.actingSeat)
    ensures RoundComplete(t) <==> RoundComplete(s)
    ensures Deciders(t) == Deciders(s)
  {
    assert forall i :: Unmatched(t, i) <==> Unmatched(s, i);
    assert forall i :: i in Deciders(t) <==> i in Deciders(s);
  }

  lemma NextDecides(s: State, from: nat)
    requires MidHand(s) && |Contenders(s.seats)| >= 2 && from < |s.seats| && Deciders(s) != {}
    ensures Deciding(s.(actingSeat := Next(Deciders(s), |s.seats|, from)))
  {
    var i :| i in Deciders(s);
    var t := s.(actingSeat := Next(Deciders(s), |s.seats|, from));
    assert Deciders(t) == Deciders(s);
    assert SetsOk(t) by {
      assert forall j :: Unmatched(t, j) <==> Unmatched(s, j);
    }
  }

  lemma SomeDecider(s: State)
    requires MidHand(s) && !RoundComplete(s)
    ensures Deciders(s) != {}
  {
    if i :| Unmatched(s, i) {
      assert i in Deciders(s);
    }
  }

  lemma AbleDeciders(s: State)
    requires s.pending == AbleIds(s.seats)
    ensures Deciders(s) == Able(s.seats)
  {
    forall i: nat | i in Able(s.seats)
      ensures i in Deciders(s)
    {
      assert s.seats[i].value.id in AbleIds(s.seats);
    }
  }

  lemma FoldWinResting(s: State)
    requires InHand(s)
    ensures Resting(FoldWin(s)) && FoldWin(s).street == Settled
  {
    SettleResting(s, FoldAwards(s.seats, FirstContender(s.seats)));
  }

  /** From a finished round the hand ends up settled or waiting for a player who can act. */
  lemma {:induction false} AdvanceProgress(s: State)
    requires InHand(s) && RoundComplete(s) && s.actingSeat.None?
    ensures CanAdvance(s)
    ensures var t := Advance(s); Deciding(t) || (Resting(t) && t.street == Settled)
    decreases StreetsLeft(s.street)
  {
    BoundedCards(s);
    if |Contenders(s.seats)| <= 1 {
      FoldWinResting(s);
    } else if s.street == River {
      SettleResting(s, ShowdownAwards(s.seats, s.board, s.dealerSeat.value));
    } else {
      AdvanceStreetMidHand(s);
      ClearStreetKeeps(s.seats);
      var t := AdvanceStreet(s);
      if |Able(t.seats)| <= 1 {
        var u := t.(pending := {}, actingSeat := None);
        assert InHand(u);
        ClearedRoundComplete(u);
        AdvanceProgress(u);
      } else {
        AbleDeciders(t);
        assert Able(t.seats) != {};
        NextDecides(t, t.dealerSeat.value);
      }
    }
  }

  /** With at most one player able to act, a finished round leads straight to the settlement. */
  lemma {:induction false} FewAbleSettles(s: State)
    requires InHand(s) && RoundComplete(s) && |Able(s.seats)| <= 1 && CanAdvance(s)
    ensures Advance(s).street == Settled
    decreases StreetsLeft(s.street)
  {
    if |Contenders(s.seats)| > 1 && s.street != River {
      AdvanceStreetMidHand(s);
      ClearStreetKeeps(s.seats);
      var t := AdvanceStreet(s).(pending := {}, actingSeat := None);
      assert InHand(t);
      ClearedRoundComplete(t);
      BoundedCards(t);
      FewAbleSettles(t);
    }
  }

  lemma ContinueProgress(s: State, from: nat)
    requires MidHand(s) && from < |s.seats|
    ensures CanAdvance(s)
    ensures var t := Continue(s, from); Deciding(t) || (Resting(t) && t.street == Settled)
  {
    BoundedCards(s);
    if |Contenders(s.seats)| <= 1 {
      FoldWinResting(s);
    } else if RoundComplete(s) {
      var u := s.(actingSeat := None);
      ActorIgnored(s, u);
      assert InHand(u);
      AdvanceProgress(u);
    } else {
      SomeDecider(s);
      NextDecides(s, from);
    }
  }

  /** The table right after an accepted action, before the hand moves on. */
  ghost function Played(s: State, cmd: ActionCommand): State
    requires s.actingSeat.Some? && Taken(s.seats, s.actingSeat.value)
  {
    BetPhase(s, s.actingSeat.value, cmd).state.(serverSequence := s.serverSequence + 1)
  }

  lemma PlayedMidHand(s: State, cmd: ActionCommand)
    requires Deciding(s) && BetPhase(s, s.actingSeat.value, cmd).error == Ok
    ensures MidHand(Played(s, cmd)) && CanAdvance(Played(s, cmd))
  {
    BetPhaseMidHand(s, cmd);
    SequenceIrrelevant(BetPhase(s, s.actingSeat.value, cmd).state, Played(s, cmd));
    BoundedCards(Played(s, cmd));
  }

  lemma SequenceIrrelevant(s: State, t: State)
    requires MidHand(s) && t == s.(serverSequence := t.serverSequence)
    ensures MidHand(t)
  {
    assert forall i :: Unmatched(t, i) <==> Unmatched(s, i);
  }

  lemma ActRefused(s: State, cmd: ActionCommand)
    requires Inv(s) && Act(s, cmd).result.error != Ok
    ensures Act(s, cmd).state == s
  {}

  lemma ActChecks(s: State, cmd: ActionCommand)
    requires Deciding(s) && Act(s, cmd).result.error == Ok
    ensures s.seats[s.actingSeat.value].value.id == cmd.playerId
    ensures BetPhase(s, s.actingSeat.value, cmd).error == Ok
  {}

  lemma ActFollows(s: State, cmd: ActionCommand)
    requires Deciding(s) && s.seats[s.actingSeat.value].value.id == cmd.playerId
    requires BetPhase(s, s.actingSeat.value, cmd).error == Ok && CanAdvance(Played(s, cmd))
    ensures Act(s, cmd).state == Continue(Played(s, cmd), s.actingSeat.value)
  {}

  lemma ActAccepted(s: State, cmd: ActionCommand)
    requires Deciding(s) && Act(s, cmd).result.error == Ok
    ensures s.seats[s.actingSeat.value].value.id == cmd.playerId
    ensures BetPhase(s, s.actingSeat.value, cmd).error == Ok
    ensures CanAdvance(Played(s, cmd)) && Act(s, cmd).state == Continue(Played(s, cmd), s.actingSeat.value)
  {
    BetPhaseCanAdvance(s, cmd);
    ActChecks(s, cmd);
    ActFollows(s, cmd);
  }

  /** An action is refused without effect, or played and followed up. */
  lemma ActCases(s: State, cmd: ActionCommand)
    requires Deciding(s)
    ensures Act(s, cmd).result.error != Ok ==> Act(s, cmd).state == s
    ensures Act(s, cmd).result.error == Ok ==>
              && s.seats[s.actingSeat.value].value.id == cmd.playerId
              && BetPhase(s, s.actingSeat.value, cmd).error == Ok
              && CanAdvance(Played(s, cmd))
              && Act(s, cmd).state == Continue(Played(s, cmd), s.actingSeat.value)
  {
    if Act(s, cmd).result.error == Ok {
      ActAccepted(s, cmd);
    } else {
      ActRefused(s, cmd);
    }
  }

  /**
   Progress: an action in a hand with somebody to act either is refused and changes
   nothing, or settles the hand, or leaves somebody to act who can act and owes a decision.
   */
  lemma ActProgress(s: State, cmd: ActionCommand)
    requires Deciding(s)
    ensures var r := Act(s, cmd);
            if r.result.error != Ok then r.state == s
            else Deciding(r.state) || (Resting(r.state) && r.state.street == Settled)
  {
    ActCases(s, cmd);
    if Act(s, cmd).result.error == Ok {
      PlayedMidHand(s, cmd);
      ContinueProgress(Played(s, cmd), s.actingSeat.value);
    }
  }
}
