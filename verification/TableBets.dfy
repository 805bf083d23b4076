/** Which actions are legal, what they cost, and who has to answer them. */
module TableBets {
  import opened Wrappers
  import opened Sums
  import opened Cards
  import opened TableModel
  import opened TableInvariant
  import opened TableStart
  import opened TableRuns
  import opened TableRaises
  import opened TableTurns

  // ---------- what is legal ----------

  /**
   The rules, for a player with the given stack and commitment facing `bet`, when a full
   raise is at least `least` and the player may or may not raise.
   */
  predicate Legal(p: Player, bet: int, least: int, mayRaise: bool, cmd: ActionCommand) {
    var all := p.streetCommitment + p.stack;
    match cmd.action
    case Fold => true
    case Check => p.streetCommitment == bet
    case Call => p.streetCommitment < bet
    case Bet => bet == 0 && p.streetCommitment < cmd.amount <= all && (cmd.amount >= least || cmd.amount == all)
    case Raise => bet > 0 && mayRaise && bet < cmd.amount <= all && (cmd.amount - bet >= least || cmd.amount == all)
    case GoAllIn => all <= bet || mayRaise
  }

  /** An action is accepted if and only if it is that player's turn and the action is legal. */
  lemma AcceptedIffLegal(s: State, cmd: ActionCommand)
    requires Inv(s)
    ensures Act(s, cmd).result.error == Ok <==>
            && Deciding(s) && s.seats[s.actingSeat.value].value.id == cmd.playerId
            && Legal(s.seats[s.actingSeat.value].value, s.currentBet, s.minimumRaise, cmd.playerId in s.raiseAllowed, cmd)
  {
    if Deciding(s) {
      DecidingAccepts(s, cmd);
    } else if Stuck(s) {
      StuckRefuses(s, cmd);
    }
  }

  lemma DecidingAccepts(s: State, cmd: ActionCommand)
    requires Deciding(s)
    ensures Act(s, cmd).result.error == Ok <==>
            && s.seats[s.actingSeat.value].value.id == cmd.playerId
            && Legal(s.seats[s.actingSeat.value].value, s.currentBet, s.minimumRaise, cmd.playerId in s.raiseAllowed, cmd)
  {
    BetPhaseLegal(s, s.actingSeat.value, cmd);
    BetPhaseCanAdvance(s, cmd);
  }

  lemma BetPhaseLegal(s: State, a: nat, cmd: ActionCommand)
    requires Taken(s.seats, a) && PlayerOk(s.seats[a].value) && CanAct(s.seats[a].value)
    requires s.seats[a].value.streetCommitment <= s.currentBet
    ensures BetPhase(s, a, cmd).error == Ok <==>
            Legal(s.seats[a].value, s.currentBet, s.minimumRaise, s.seats[a].value.id in s.raiseAllowed, cmd)
  {}

  // ---------- what it costs ----------

  /** The chips an accepted action puts in. */
  function Price(p: Player, bet: int, cmd: ActionCommand): int {
    match cmd.action
    case Fold => 0
    case Check => 0
    case Call => Min(bet - p.streetCommitment, p.stack)
    case Bet => cmd.amount - p.streetCommitment
    case Raise => cmd.amount - p.streetCommitment
    case GoAllIn => p.stack
  }

  /** What an action does to the actor and to the bet. */
  ghost predicate Priced(s: State, t: State, a: nat, cmd: ActionCommand)
    requires Taken(s.seats, a)
  {
    var p := s.seats[a].value;
    var price := Price(p, s.currentBet, cmd);
    && 0 <= price <= p.stack && |t.seats| == |s.seats| && t.seats[a].Some?
    && var q := t.seats[a].value;
       && q.handCommitment == p.handCommitment + price
       && q.streetCommitment == p.streetCommitment + price
       && q.status == (if cmd.action == Fold then Folded else if price == p.stack then AllIn else Active)
       && t.seats == s.seats[a := Some(q)]
       && t.currentBet == Max(s.currentBet, p.streetCommitment + price)
       && t.minimumRaise == Max(s.minimumRaise, t.currentBet - s.currentBet)
  }

  lemma LiftPriced(s: State, a: nat, target: int, cmd: ActionCommand)
    requires Taken(s.seats, a) && CanAct(s.seats[a].value) && s.seats[a].value.streetCommitment <= s.currentBet
    requires MayLift(s, s.seats[a].value, target) && cmd.action in {Bet, Raise, GoAllIn}
    requires Price(s.seats[a].value, s.currentBet, cmd) == target - s.seats[a].value.streetCommitment
    ensures Priced(s, Lift(s, a, target), a, cmd)
  {}

  lemma DonePriced(s: State, a: nat, cmd: ActionCommand)
    requires Taken(s.seats, a) && PlayerOk(s.seats[a].value) && CanAct(s.seats[a].value) && s.minimumRaise > 0
    requires s.seats[a].value.streetCommitment <= s.currentBet && BetPhase(s, a, cmd).error == Ok
    requires cmd.action in {Fold, Check, Call} || (cmd.action == GoAllIn && s.seats[a].value.streetCommitment + s.seats[a].value.stack <= s.currentBet)
    ensures Priced(s, BetPhase(s, a, cmd).state, a, cmd)
  {}

  lemma PlayedPrice(s: State, cmd: ActionCommand)
    requires Deciding(s) && BetPhase(s, s.actingSeat.value, cmd).error == Ok
    ensures Priced(s, Played(s, cmd), s.actingSeat.value, cmd)
  {
    var a := s.actingSeat.value;
    var p := s.seats[a].value;
    var all := p.streetCommitment + p.stack;
    if cmd.action in {Bet, Raise} {
      ActiveKind(s, a, cmd);
      LiftPriced(s, a, cmd.amount, cmd);
    } else if cmd.action == GoAllIn && all > s.currentBet {
      AllInLifts(s, a, cmd);
      LiftPriced(s, a, all, cmd);
    } else {
      DonePriced(s, a, cmd);
    }
  }

  lemma AllInLifts(s: State, a: nat, cmd: ActionCommand)
    requires Taken(s.seats, a) && cmd.action == GoAllIn && BetPhase(s, a, cmd).error == Ok
    requires s.seats[a].value.streetCommitment + s.seats[a].value.stack > s.currentBet
    ensures var all := s.seats[a].value.streetCommitment + s.seats[a].value.stack;
            BetPhase(s, a, cmd).state == Lift(s, a, all) && MayLift(s, s.seats[a].value, all)
  {}

  /** Whatever follows the action, everybody's commitment to the hand and standing in it are as the action left them. */
  ghost predicate SameStanding(s: Seats, t: Seats) {
    && |t| == |s|
    && forall i :: 0 <= i < |s| ==>
         && (t[i].Some? <==> s[i].Some?)
         && (t[i].Some? ==> t[i].value.id == s[i].value.id && t[i].value.status == s[i].value.status
                            && t[i].value.handCommitment == s[i].value.handCommitment)
  }

  lemma {:induction false} AdvanceStanding(s: State)
    requires CanAdvance(s)
    ensures SameStanding(s.seats, Advance(s).seats)
    decreases StreetsLeft(s.street)
  {
    if |Contenders(s.seats)| > 1 && RoundComplete(s) && s.street != River {
      ClearStreetKeeps(s.seats);
      var t := AdvanceStreet(s);
      if |Able(t.seats)| <= 1 {
        AdvanceStanding(t.(pending := {}, actingSeat := None));
      }
    }
  }

  lemma ContinueStanding(s: State, from: nat)
    requires CanAdvance(s) && from < |s.seats|
    ensures SameStanding(s.seats, Continue(s, from).seats)
  {
    if |Contenders(s.seats)| > 1 && RoundComplete(s) {
      AdvanceStanding(s.(actingSeat := None));
    }
  }

  /** The actor has put in the price of the action and stands accordingly; nobody else has put in anything or folded. */
  ghost predicate Pays(s: State, t: State, cmd: ActionCommand)
    requires s.actingSeat.Some? && Taken(s.seats, s.actingSeat.value)
  {
    var a := s.actingSeat.value;
    var p := s.seats[a].value;
    var price := Price(p, s.currentBet, cmd);
    && 0 <= price <= p.stack && |t.seats| == |s.seats| && t.seats[a].Some?
    && t.seats[a].value.handCommitment == p.handCommitment + price
    && t.seats[a].value.status == (if cmd.action == Fold then Folded else if price == p.stack then AllIn else Active)
    && forall i :: 0 <= i < |s.seats| && i != a && s.seats[i].Some? ==>
         && t.seats[i].Some? && t.seats[i].value.status == s.seats[i].value.status
         && t.seats[i].value.handCommitment == s.seats[i].value.handCommitment
  }

  /** Whether the hand goes on, moves to a new street or is settled, the action has cost exactly its price. */
  lemma ActPays(s: State, cmd: ActionCommand)
    requires Deciding(s) && Act(s, cmd).result.error == Ok
    ensures Pays(s, Act(s, cmd).state, cmd)
  {
    ActCases(s, cmd);
    PlayedPrice(s, cmd);
    ContinueStanding(Played(s, cmd), s.actingSeat.value);
  }

  // ---------- who has to answer ----------

  lemma PlayedOwes(s: State, cmd: ActionCommand, i: nat)
    requires Deciding(s) && BetPhase(s, s.actingSeat.value, cmd).error == Ok && i < |s.seats| && s.seats[i].Some?
    ensures var t := Played(s, cmd);
            if i == s.actingSeat.value then !Owes(t, i)
            else Owes(t, i) <==>
                 CanAct(s.seats[i].value)
                 && (t.currentBet - s.currentBet >= s.minimumRaise || Owes(s, i)
                     || s.seats[i].value.streetCommitment < t.currentBet)
  {
    var a := s.actingSeat.value;
    var lift, q, target := ActionKinds(s, a, cmd);
    var t := Played(s, cmd);
    assert t.seats == s.seats[a := Some(q)];
    assert Taken(s.seats, i);
    if i != a {
      assert t.seats[i] == s.seats[i] && s.seats[i].value.id != q.id;
      if lift {
        LiftOwes(s, a, target, i);
      } else {
        assert t.currentBet == s.currentBet;
        assert CanAct(s.seats[i].value) && s.seats[i].value.streetCommitment < s.currentBet ==> Unmatched(s, i);
      }
    }
  }

  lemma LiftOwes(s: State, a: nat, target: int, i: nat)
    requires DistinctIds(s.seats) && Taken(s.seats, a) && i != a && Taken(s.seats, i)
    requires forall id :: id in s.pending ==> id in AbleIds(s.seats)
    ensures var t := Lift(s, a, target);
            s.seats[i].value.id in t.pending && CanAct(s.seats[i].value) <==>
            CanAct(s.seats[i].value)
            && (target - s.currentBet >= s.minimumRaise || s.seats[i].value.id in s.pending
                || s.seats[i].value.streetCommitment < target)
  {
    var p := PayTo(s.seats[a].value, target);
    var seats := s.seats[a := Some(p)];
    var x := s.seats[i].value;
    assert Taken(seats, i) && seats[i] == s.seats[i] && x.id != p.id;
    assert CanAct(x) ==> x.id in OtherAble(seats, p.id);
    assert CanAct(x) && x.streetCommitment < target ==> x.id in UnderCalled(seats, p.id, target);
    if x.id in UnderCalled(seats, p.id, target) {
      var j: nat :| j < |seats| && Taken(seats, j) && seats[j].value.id == x.id && seats[j].value.streetCommitment < target
                    && seats[j].value.id != p.id;
      assert j == i;
    }
  }

  /**
   While the street goes on, the actor owes nothing more; of the others who can act, all owe
   an answer to a full raise, and otherwise those who owed one before or are behind the bet.
   */
  lemma WhoOwes(s: State, cmd: ActionCommand, i: nat)
    requires Deciding(s) && Act(s, cmd).result.error == Ok && i < |s.seats| && s.seats[i].Some?
    requires Deciding(Act(s, cmd).state) && Act(s, cmd).state.street == s.street
    ensures var t := Act(s, cmd).state;
            if i == s.actingSeat.value then !Owes(t, i)
            else Owes(t, i) <==>
                 CanAct(s.seats[i].value)
                 && (t.currentBet - s.currentBet >= s.minimumRaise || Owes(s, i)
                     || s.seats[i].value.streetCommitment < t.currentBet)
  {
    ActCases(s, cmd);
    ActTurn(s, cmd);
    PlayedOwes(s, cmd, i);
  }

  // ---------- how large a raise must be ----------

  /** The largest lift of the bet on this street, at least the big blind. */
  ghost function LargestLift(s: State, largest: int, op: Op): int
    requires Inv(s)
  {
    var t := Step(s, op).state;
    if !op.Play? || Step(s, op).error != Ok then largest
    else if t.street != s.street then s.config.bigBlind
    else Max(largest, t.currentBet - s.currentBet)
  }

  ghost function LargestLiftOver(s: State, largest: int, ops: seq<Op>): int
    requires Inv(s)
    decreases ops
  {
    if ops == [] then largest
    else
      StepInv(s, ops[0]);
      LargestLiftOver(Step(s, ops[0]).state, LargestLift(s, largest, ops[0]), ops[1..])
  }

  lemma ActRaiseSize(s: State, cmd: ActionCommand)
    requires Deciding(s) && Act(s, cmd).result.error == Ok && Deciding(Act(s, cmd).state)
    ensures var t := Act(s, cmd).state;
            t.minimumRaise == if t.street != s.street then s.config.bigBlind
                              else Max(s.minimumRaise, t.currentBet - s.currentBet)
  {
    ActCases(s, cmd);
    ActTurn(s, cmd);
    PlayedPrice(s, cmd);
    ActKeepsConfig(s, cmd);
  }

  lemma {:induction false} AdvanceKeepsConfig(s: State)
    requires CanAdvance(s)
    ensures Advance(s).config == s.config
    decreases StreetsLeft(s.street)
  {
    if |Contenders(s.seats)| > 1 && RoundComplete(s) && s.street != River {
      ClearStreetKeeps(s.seats);
      var t := AdvanceStreet(s);
      if |Able(t.seats)| <= 1 {
        AdvanceKeepsConfig(t.(pending := {}, actingSeat := None));
      }
    }
  }

  lemma ActKeepsConfig(s: State, cmd: ActionCommand)
    requires Deciding(s) && Act(s, cmd).result.error == Ok
    ensures Act(s, cmd).state.config == s.config
  {
    ActCases(s, cmd);
    var p := Played(s, cmd);
    if |Contenders(p.seats)| > 1 && RoundComplete(p) {
      AdvanceKeepsConfig(p.(actingSeat := None));
    }
  }

  lemma StepRaiseSize(s: State, op: Op)
    requires Deciding(s) && Deciding(Step(s, op).state)
    ensures Step(s, op).state.minimumRaise == LargestLift(s, s.minimumRaise, op)
  {
    if Step(s, op).error != Ok {
      StepInv(s, op);
    } else if op.Play? {
      ActRaiseSize(s, op.cmd);
    } else if !op.Abort? {
      SeatingQuiet(s, op);
    }
  }

  lemma {:induction false} RunRaiseSize(s: State, ops: seq<Op>)
    requires StaysDecidingFrom(s, ops)
    ensures Run(s, ops).minimumRaise == LargestLiftOver(s, s.minimumRaise, ops)
    decreases ops
  {
    if ops != [] {
      StepInv(s, ops[0]);
      StaysDecidingNext(s, ops);
      StepRaiseSize(s, ops[0]);
      RunRaiseSize(Step(s, ops[0]).state, ops[1..]);
    }
  }

  /** At every moment of a hand, a full raise is at least the largest lift so far on this street, or the big blind. */
  lemma MinimumRaiseOverHistory(s: State, cards: seq<Card>, ops: seq<Op>)
    requires Resting(s) && StartHand(s, cards).error == Ok
    requires StaysDecidingFrom(StartHand(s, cards).state, ops)
    ensures var r := StartHand(s, cards).state;
            Run(r, ops).minimumRaise == LargestLiftOver(r, s.config.bigBlind, ops)
  {
    var r := StartHand(s, cards).state;
    StartRaiseSize(s, cards);
    RunRaiseSize(r, ops);
  }

  lemma StartRaiseSize(s: State, cards: seq<Card>)
    requires Resting(s) && StartHand(s, cards).error == Ok && Deciding(StartHand(s, cards).state)
    ensures StartHand(s, cards).state.minimumRaise == s.config.bigBlind
  {
    EnoughCanOpen(s, cards);
    var t := BeginIsBegun(s, cards);
    if |Able(t.seats)| <= 1 {
      StalledOrSettled(s, t, PositionsOf(s), Begin(s, cards));
    }
  }

  // ---------- what a refusal means ----------

  /** Every refusal names a reason that holds. */
  lemma RefusalsTrue(s: State, cmd: ActionCommand)
    requires Deciding(s) && Act(s, cmd).result.error != Ok
    ensures var p := s.seats[s.actingSeat.value].value;
            var all := p.streetCommitment + p.stack;
            match Act(s, cmd).result.error
            case NotPlayersTurn => p.id != cmd.playerId
            case ActionNotAllowed =>
              || (cmd.action == Check && p.streetCommitment < s.currentBet)
              || (cmd.action == Call && p.streetCommitment == s.currentBet)
              || (cmd.action == Bet && s.currentBet > 0)
              || (cmd.action == Raise && (s.currentBet == 0 || p.id !in s.raiseAllowed))
              || (cmd.action == GoAllIn && all > s.currentBet && p.id !in s.raiseAllowed)
            case InvalidAmount =>
              cmd.action in {Bet, Raise} && (cmd.amount <= s.currentBet || cmd.amount > all)
            case MinimumRaiseNotMet =>
              cmd.action in {Bet, Raise} && cmd.amount - s.currentBet < s.minimumRaise && cmd.amount < all
            case _ => false
  {}

  /** Nobody can act when no hand is being bet. */
  lemma NoHandNoAction(s: State, cmd: ActionCommand)
    requires Inv(s) && !Betting(s.street)
    ensures Act(s, cmd).result.error == ActionNotAllowed && Act(s, cmd).state == s
  {}
}
