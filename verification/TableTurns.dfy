/** Whose turn it is: clockwise from the last player who lifted the bet, or from the dealer. */
module TableTurns {
  import opened Wrappers
  import opened Cards
  import opened Clockwise
  import opened TableModel
  import opened TableInvariant
  import opened TableStart
  import opened TableRuns
  import opened TableRaises

  /** The player on seat `i` has chips, is neither folded nor all-in, and owes a decision. */
  ghost predicate Owes(s: State, i: nat) {
    && i < |s.seats| && s.seats[i].Some?
    && s.seats[i].value.status == Active && s.seats[i].value.stack > 0
    && s.seats[i].value.id in s.pending
  }

  /** The seat `k` places clockwise from `from` at a table of `n` seats. */
  function Ahead(n: nat, from: nat, k: nat): nat
    requires n > 0
  {
    (from + k) % n
  }

  /** Going clockwise from the seat after `from`, `b` is the first seat that owes a decision. */
  ghost predicate FirstOwing(s: State, from: nat, b: nat) {
    && Owes(s, b)
    && exists k :: 1 <= k <= |s.seats| && b == Ahead(|s.seats|, from, k)
                   && forall j :: 0 < j < k ==> !Owes(s, Ahead(|s.seats|, from, j))
  }

  // ---------- in terms of distances ----------

  ghost predicate Nearest(s: State, from: nat, b: nat)
    requires from < |s.seats|
  {
    b in Deciders(s) && forall i :: i in Deciders(s) ==> Distance(|s.seats|, from, b) <= Distance(|s.seats|, from, i)
  }

  lemma OwesIsDecider(s: State, i: nat)
    ensures Owes(s, i) <==> i in Deciders(s)
  {}

  lemma NearestIsFirst(s: State, from: nat, b: nat)
    requires from < |s.seats| && Nearest(s, from, b)
    ensures FirstOwing(s, from, b)
  {
    var n := |s.seats|;
    var k := Distance(n, from, b);
    forall j | 0 < j < k
      ensures !Owes(s, Ahead(n, from, j))
    {
      DistanceUnique(n, from, j);
      assert SeatAt(n, from, j) == Ahead(n, from, j);
      OwesIsDecider(s, Ahead(n, from, j));
    }
    assert SeatAt(n, from, k) == Ahead(n, from, k);
  }

  lemma NextIsNearest(s: State, from: nat)
    requires from < |s.seats| && Next(Deciders(s), |s.seats|, from).Some?
    ensures Nearest(s, from, Next(Deciders(s), |s.seats|, from).value)
  {
    forall i | i in Deciders(s)
      ensures Distance(|s.seats|, from, Next(Deciders(s), |s.seats|, from).value) <= Distance(|s.seats|, from, i)
    {
      NextNearest(Deciders(s), |s.seats|, from, i);
    }
  }

  lemma AskedIsNearest(s: State, t: State, from: nat)
    requires from < |s.seats| && t == s.(actingSeat := Next(Deciders(s), |s.seats|, from)) && t.actingSeat.Some?
    ensures Nearest(t, from, t.actingSeat.value)
  {
    NextIsNearest(s, from);
    ActorIgnored(s, t);
  }

  // ---------- after an action ----------

  /** A new street asks the first player left of the dealer, and everybody able owes a decision on it. */
  ghost predicate FreshStreet(t: State) {
    && t.dealerSeat.Some? && t.dealerSeat.value < |t.seats|
    && t.actingSeat.Some? && Nearest(t, t.dealerSeat.value, t.actingSeat.value)
    && t.pending == AbleIds(t.seats)
    && t.currentBet == 0 && t.minimumRaise == t.config.bigBlind
  }

  lemma {:induction false} AdvanceTurn(s: State)
    requires InHand(s) && RoundComplete(s) && CanAdvance(s) && Deciding(Advance(s))
    ensures FreshStreet(Advance(s))
    decreases StreetsLeft(s.street)
  {
    if |Contenders(s.seats)| > 1 && s.street != River {
      AdvanceStreetMidHand(s);
      ClearStreetKeeps(s.seats);
      var t := AdvanceStreet(s);
      if |Able(t.seats)| <= 1 {
        var u := t.(pending := {}, actingSeat := None);
        ClearedRoundComplete(u);
        BoundedCards(u);
        AdvanceTurn(u);
      } else {
        AskedIsNearest(t, Advance(s), t.dealerSeat.value);
      }
    }
  }

  lemma ContinueTurn(s: State, from: nat)
    requires InHand(s) && CanAdvance(s) && from < |s.seats| && Deciding(Continue(s, from))
    ensures var t := Continue(s, from);
            if t.street == s.street then t == s.(actingSeat := t.actingSeat) && Nearest(t, from, t.actingSeat.value)
            else FreshStreet(t)
  {
    if RoundComplete(s) && |Contenders(s.seats)| > 1 {
      var u := s.(actingSeat := None);
      ActorIgnored(s, u);
      AdvanceRights(u);
      AdvanceTurn(u);
    } else if |Contenders(s.seats)| > 1 {
      AskedIsNearest(s, Continue(s, from), from);
    }
  }

  lemma ActTurn(s: State, cmd: ActionCommand)
    requires Deciding(s) && Act(s, cmd).result.error == Ok && Deciding(Act(s, cmd).state)
    ensures var t := Act(s, cmd).state;
            if t.street == s.street then
              t == Played(s, cmd).(actingSeat := t.actingSeat) && Nearest(t, s.actingSeat.value, t.actingSeat.value)
            else FreshStreet(t)
  {
    ActCases(s, cmd);
    PlayedMidHand(s, cmd);
    ContinueTurn(Played(s, cmd), s.actingSeat.value);
  }

  /**
   After an accepted action the turn passes clockwise to the first player who can act and
   owes a decision: from the actor on the same street, from the dealer on a new one.
   */
  lemma TurnPasses(s: State, cmd: ActionCommand)
    requires Deciding(s) && Act(s, cmd).result.error == Ok && Deciding(Act(s, cmd).state)
    ensures var t := Act(s, cmd).state;
            && t.actingSeat.Some? && t.dealerSeat.Some?
            && FirstOwing(t, if t.street == s.street then s.actingSeat.value else t.dealerSeat.value, t.actingSeat.value)
            && (t.street != s.street ==>
                  forall i: nat :: i < |t.seats| && t.seats[i].Some? && CanAct(t.seats[i].value) ==> Owes(t, i))
  {
    var t := Act(s, cmd).state;
    ActTurn(s, cmd);
    if t.street == s.street {
      NearestIsFirst(t, s.actingSeat.value, t.actingSeat.value);
    } else {
      NearestIsFirst(t, t.dealerSeat.value, t.actingSeat.value);
      forall i: nat | i < |t.seats| && t.seats[i].Some? && CanAct(t.seats[i].value)
        ensures Owes(t, i)
      {
        assert Taken(t.seats, i) && t.seats[i].value.id in AbleIds(t.seats);
      }
    }
  }

  // ---------- one turn round the table ----------

  /** Without a lift nobody comes to owe a decision, and the actor no longer does. */
  lemma FewerOwe(s: State, cmd: ActionCommand)
    requires Deciding(s) && BetPhase(s, s.actingSeat.value, cmd).error == Ok
    requires Played(s, cmd).currentBet == s.currentBet
    ensures Deciders(Played(s, cmd)) <= Deciders(s) - {s.actingSeat.value}
  {
    var a := s.actingSeat.value;
    var lift, q, target := ActionKinds(s, a, cmd);
    var t := Played(s, cmd);
    assert t.seats == s.seats[a := Some(q)] && q.id !in t.pending;
    forall i | i in Deciders(t)
      ensures i in Deciders(s) - {a}
    {
      assert i != a && t.seats[i] == s.seats[i];
    }
  }

  /** The next seat from `a` is also the next from `o`, when everybody still owing sits beyond `a`. */
  lemma StillNearest(s: State, t: State, o: nat, a: nat, b: nat)
    requires o < |s.seats| == |t.seats| && a < |s.seats| && Nearest(s, o, a) && Nearest(t, a, b)
    requires Deciders(t) <= Deciders(s) - {a}
    ensures Nearest(t, o, b) && Distance(|s.seats|, o, a) < Distance(|s.seats|, o, b)
  {
    var n := |s.seats|;
    forall i | i in Deciders(t)
      ensures Distance(n, o, a) < Distance(n, o, i) && Distance(n, a, i) == Distance(n, o, i) - Distance(n, o, a)
    {
      DistanceShift(n, o, a, i);
      assert SeatAt(n, o, Distance(n, o, i)) == i && SeatAt(n, o, Distance(n, o, a)) == a;
    }
  }

  /** Where the turn is counted from: the last player to lift the bet on this street, else the dealer. */
  ghost function OriginOf(s: State, t: State, o: nat): nat {
    if t.dealerSeat.None? || s.actingSeat.None? then o
    else if t.street != s.street then t.dealerSeat.value
    else if t.currentBet > s.currentBet then s.actingSeat.value
    else o
  }

  ghost function OriginAfter(s: State, o: nat, op: Op): nat
    requires Inv(s)
  {
    if !op.Play? || Step(s, op).error != Ok then o else OriginOf(s, Step(s, op).state, o)
  }

  ghost predicate TurnRule(s: State, o: nat) {
    o < |s.seats| && s.actingSeat.Some? && Nearest(s, o, s.actingSeat.value)
  }

  /** Without a lift the turn moves on, further from the same origin. */
  lemma NoLiftTurn(s: State, o: nat, cmd: ActionCommand)
    requires Deciding(s) && TurnRule(s, o) && Act(s, cmd).result.error == Ok && Deciding(Act(s, cmd).state)
    requires Act(s, cmd).state.street == s.street && Act(s, cmd).state.currentBet == s.currentBet
    ensures var t := Act(s, cmd).state;
            && |t.seats| == |s.seats| && TurnRule(t, o)
            && Distance(|s.seats|, o, s.actingSeat.value) < Distance(|s.seats|, o, t.actingSeat.value)
  {
    var t := Act(s, cmd).state;
    ActCases(s, cmd);
    ActTurn(s, cmd);
    FewerOwe(s, cmd);
    ActorIgnored(Played(s, cmd), t);
    StillNearest(s, t, o, s.actingSeat.value, t.actingSeat.value);
  }

  lemma BetNeverFalls(s: State, cmd: ActionCommand)
    requires Deciding(s) && Act(s, cmd).result.error == Ok && Deciding(Act(s, cmd).state)
    requires Act(s, cmd).state.street == s.street
    ensures s.currentBet <= Act(s, cmd).state.currentBet
  {
    ActCases(s, cmd);
    ActTurn(s, cmd);
    PlayedRaise(s, cmd);
  }

  lemma PlayTurn(s: State, o: nat, cmd: ActionCommand)
    requires Deciding(s) && TurnRule(s, o) && Act(s, cmd).result.error == Ok && Deciding(Act(s, cmd).state)
    ensures TurnRule(Act(s, cmd).state, OriginOf(s, Act(s, cmd).state, o))
  {
    if Act(s, cmd).state.street == s.street && Act(s, cmd).state.currentBet <= s.currentBet {
      BetNeverFalls(s, cmd);
      NoLiftTurn(s, o, cmd);
    } else {
      ActTurn(s, cmd);
    }
  }

  lemma QuietTurn(s: State, t: State, o: nat)
    requires Quiet(s, t) && TurnRule(s, o)
    ensures TurnRule(t, o)
  {
    QuietGroups(s, t);
  }

  lemma StepTurn(s: State, o: nat, op: Op)
    requires Deciding(s) && TurnRule(s, o) && Deciding(Step(s, op).state)
    ensures TurnRule(Step(s, op).state, OriginAfter(s, o, op))
  {
    if Step(s, op).error != Ok {
      StepInv(s, op);
    } else if op.Play? {
      PlayTurn(s, o, op.cmd);
    } else if !op.Abort? {
      SeatingQuiet(s, op);
      QuietTurn(s, Step(s, op).state, o);
    }
  }

  ghost function Origin(s: State, o: nat, ops: seq<Op>): nat
    requires Inv(s)
    decreases ops
  {
    if ops == [] then o
    else
      StepInv(s, ops[0]);
      Origin(Step(s, ops[0]).state, OriginAfter(s, o, ops[0]), ops[1..])
  }

  lemma {:induction false} RunTurn(s: State, o: nat, ops: seq<Op>)
    requires StaysDecidingFrom(s, ops) && TurnRule(s, o)
    ensures TurnRule(Run(s, ops), Origin(s, o, ops))
    decreases ops
  {
    if ops != [] {
      StepInv(s, ops[0]);
      StaysDecidingNext(s, ops);
      StepTurn(s, o, ops[0]);
      RunTurn(Step(s, ops[0]).state, OriginAfter(s, o, ops[0]), ops[1..]);
    }
  }

  // ---------- the first turn of a hand ----------

  lemma BegunTurn(s: State, t: State, at: Positions, r: State)
    requires IsBegun(s, t, at, r) && Deciding(r)
    requires |ReadySeats(s.seats)| == 2 ==> ReadySeats(s.seats) == {at.dealer, at.big} && at.dealer != at.big
    ensures TurnRule(r, at.big)
  {
    OpeningInHand(s, t, at);
    BegunSettlesIff(s, t, at, r);
    if |Able(t.seats)| <= 1 {
      StalledOrSettled(s, t, at, r);
    } else {
      OpeningTurn(s, t, at);
    }
  }

  lemma StalledOrSettled(s: State, t: State, at: Positions, r: State)
    requires IsBegun(s, t, at, r) && |Able(t.seats)| <= 1
    ensures !Deciding(r)
  {
    BegunSettlesIff(s, t, at, r);
    BegunProgress(s, t, at, r);
  }

  lemma OpeningTurn(s: State, t: State, at: Positions)
    requires IsOpening(s, t, at) && Deciding(t)
    requires t.actingSeat == InitialActor(t.(actingSeat := None), at.dealer, at.big, |ReadySeats(s.seats)|)
    requires |ReadySeats(s.seats)| == 2 ==> ReadySeats(s.seats) == {at.dealer, at.big} && at.dealer != at.big
    ensures TurnRule(t, at.big)
  {
    OpeningInHand(s, t, at);
    var u := t.(actingSeat := None);
    ActorIgnored(u, t);
    if |ReadySeats(s.seats)| == 2 {
      DecidersTakePart(t);
      HeadsUpFirst(t, at);
    } else {
      AskedIsNearest(u, t, at.big);
    }
  }

  lemma DecidersTakePart(t: State)
    ensures Deciders(t) <= Participants(t.seats)
  {}

  lemma HeadsUpFirst(t: State, at: Positions)
    requires at.dealer < |t.seats| && at.big < |t.seats| && at.dealer != at.big
    requires Deciders(t) <= {at.dealer, at.big} && t.actingSeat.Some? && t.actingSeat.value in Deciders(t)
    requires at.dealer in Deciders(t) ==> t.actingSeat.value == at.dealer
    ensures TurnRule(t, at.big)
  {
    var n := |t.seats|;
    assert Distance(n, at.big, at.big) == n;
  }

  lemma StartTurn(s: State, cards: seq<Card>)
    requires Resting(s) && StartHand(s, cards).error == Ok && Deciding(StartHand(s, cards).state)
    ensures ReadySeats(s.seats) != {} && TurnRule(StartHand(s, cards).state, PositionsOf(s).big)
  {
    EnoughCanOpen(s, cards);
    var t := BeginIsBegun(s, cards);
    if |ReadySeats(s.seats)| == 2 {
      HeadsUpSeats(s);
    }
    BegunTurn(s, t, PositionsOf(s), Begin(s, cards));
  }

  /**
   At every moment of a hand it is the turn of the first player who owes a decision,
   clockwise from the last player to lift the bet on this street; before anybody has, from
   the dealer, and before the flop from the big blind.
   */
  lemma TurnsOverHistory(s: State, cards: seq<Card>, ops: seq<Op>)
    requires Resting(s) && StartHand(s, cards).error == Ok
    requires StaysDecidingFrom(StartHand(s, cards).state, ops)
    ensures ReadySeats(s.seats) != {}
    ensures var r := StartHand(s, cards).state;
            var t := Run(r, ops);
            t.actingSeat.Some? && FirstOwing(t, Origin(r, PositionsOf(s).big, ops), t.actingSeat.value)
  {
    var r := StartHand(s, cards).state;
    StartTurn(s, cards);
    RunTurn(r, PositionsOf(s).big, ops);
    var t := Run(r, ops);
    NearestIsFirst(t, Origin(r, PositionsOf(s).big, ops), t.actingSeat.value);
  }

  // ---------- nobody acts twice ----------

  /** The seats that act in a run, in order. */
  ghost function Actors(s: State, ops: seq<Op>): seq<nat>
    requires Inv(s)
    decreases ops
  {
    if ops == [] then []
    else
      StepInv(s, ops[0]);
      (if Acts(s, ops[0]) then [s.actingSeat.value] else [])
      + Actors(Step(s, ops[0]).state, ops[1..])
  }

  /** The origin of the turn stays the same throughout: nobody lifts the bet and the street goes on. */
  ghost predicate SameTurn(s: State, o: nat, ops: seq<Op>)
    requires Inv(s)
    decreases ops
  {
    ops == [] ||
    (StepInv(s, ops[0]);
     && Step(s, ops[0]).state.street == s.street && Step(s, ops[0]).state.currentBet == s.currentBet
     && SameTurn(Step(s, ops[0]).state, o, ops[1..]))
  }

  /** Until the bet is lifted or the street ends, play goes once round the table. */
  lemma {:induction false} OneTurn(s: State, o: nat, ops: seq<Op>)
    requires StaysDecidingFrom(s, ops) && TurnRule(s, o) && SameTurn(s, o, ops)
    ensures Sorted(Actors(s, ops), |s.seats|, o)
    ensures forall k :: 0 <= k < |Actors(s, ops)| ==>
              Distance(|s.seats|, o, s.actingSeat.value) <= Distance(|s.seats|, o, Actors(s, ops)[k])
    decreases ops
  {
    if ops != [] {
      StepInv(s, ops[0]);
      var t := NextInTurn(s, o, ops);
      OneTurn(t, o, ops[1..]);
      TurnMoves(s, o, ops[0]);
      ActorsStep(s, ops, t);
      var rest := Actors(t, ops[1..]);
      if Acts(s, ops[0]) {
        SortedMore(s.actingSeat.value, rest, |s.seats|, o, Distance(|s.seats|, o, s.actingSeat.value));
      }
    }
  }

  /** The operation is an accepted action. */
  ghost predicate Acts(s: State, op: Op)
    requires Inv(s)
  {
    op.Play? && Step(s, op).error == Ok && s.actingSeat.Some?
  }

  lemma ActorsStep(s: State, ops: seq<Op>, t: State)
    requires Inv(s) && ops != [] && t == Step(s, ops[0]).state && Inv(t)
    ensures Actors(s, ops) == if Acts(s, ops[0]) then [s.actingSeat.value] + Actors(t, ops[1..]) else Actors(t, ops[1..])
  {
    assert [] + Actors(t, ops[1..]) == Actors(t, ops[1..]);
  }

  lemma NextInTurn(s: State, o: nat, ops: seq<Op>) returns (t: State)
    requires StaysDecidingFrom(s, ops) && TurnRule(s, o) && SameTurn(s, o, ops) && ops != []
    ensures t == Step(s, ops[0]).state && Deciding(s) && StaysDecidingFrom(t, ops[1..]) && Deciding(t)
    ensures TurnRule(t, o) && SameTurn(t, o, ops[1..]) && t.street == s.street && t.currentBet == s.currentBet
  {
    StepInv(s, ops[0]);
    StaysDecidingNext(s, ops);
    StepTurn(s, o, ops[0]);
    t := Step(s, ops[0]).state;
  }

  /** An action moves the turn away from the origin; nothing else moves it. */
  lemma TurnMoves(s: State, o: nat, op: Op)
    requires Deciding(s) && TurnRule(s, o) && Deciding(Step(s, op).state)
    requires Step(s, op).state.street == s.street && Step(s, op).state.currentBet == s.currentBet
    ensures var t := Step(s, op).state;
            && |t.seats| == |s.seats|
            && if Acts(s, op) then
                 Distance(|s.seats|, o, s.actingSeat.value) < Distance(|s.seats|, o, t.actingSeat.value)
               else t.actingSeat == s.actingSeat
  {
    if Step(s, op).error != Ok {
      StepInv(s, op);
    } else if op.Play? {
      NoLiftTurn(s, o, op.cmd);
    } else if !op.Abort? {
      SeatingQuiet(s, op);
    }
  }

  // ---------- nobody is passed over ----------

  lemma {:induction false} AdvanceContenders(s: State)
    requires CanAdvance(s)
    ensures Contenders(Advance(s).seats) == Contenders(s.seats)
    decreases StreetsLeft(s.street)
  {
    if |Contenders(s.seats)| <= 1 {
      SettleContenders(s, FoldAwards(s.seats, FirstContender(s.seats)));
    } else if RoundComplete(s) && s.street == River {
      SettleContenders(s, ShowdownAwards(s.seats, s.board, s.dealerSeat.value));
    } else if RoundComplete(s) {
      ClearStreetKeeps(s.seats);
      var t := AdvanceStreet(s);
      if |Able(t.seats)| <= 1 {
        AdvanceContenders(t.(pending := {}, actingSeat := None));
      }
    }
  }

  lemma SettleContenders(s: State, awards: seq<PotAward>)
    ensures Contenders(Settle(s, awards).seats) == Contenders(s.seats)
  {
    var t := Settle(s, awards).seats;
    assert forall i: nat :: i in Contenders(t) <==> i in Contenders(s.seats);
  }

  /** A street is left only when the round is complete. */
  lemma LeavesWhenComplete(s: State, from: nat)
    requires InHand(s) && CanAdvance(s) && from < |s.seats|
    requires Continue(s, from).street != s.street && |Contenders(Continue(s, from).seats)| >= 2
    ensures |Contenders(s.seats)| >= 2 && RoundComplete(s)
  {
    if |Contenders(s.seats)| <= 1 {
      SettleContenders(s, FoldAwards(s.seats, FirstContender(s.seats)));
    }
  }

  /** The player on seat `i`, other than the actor, has matched the bet and acted since the betting was last opened. */
  ghost predicate HasAnswered(s: State, acted: set<PlayerId>, i: nat)
    requires Taken(s.seats, i)
  {
    s.seats[i].value.streetCommitment == s.currentBet && s.seats[i].value.id in acted
  }

  lemma OthersAnswered(s: State, p: State, acted: set<PlayerId>, a: nat, q: Player, i: nat)
    requires DistinctIds(s.seats) && BetOk(s) && Taken(s.seats, a) && p.seats == s.seats[a := Some(q)] && q.id == s.seats[a].value.id
    requires RaiseRights(s, acted) && RaiseStep(s, p, q.id) && p.raiseAllowed <= p.pending
    requires Deciders(p) == {} && !Unmatched(p, i)
    requires i != a && Taken(s.seats, i) && CanAct(s.seats[i].value)
    ensures HasAnswered(s, acted, i)
  {
    var x := s.seats[i].value;
    assert Taken(p.seats, i) && p.seats[i] == s.seats[i];
    assert x.streetCommitment == p.currentBet;
    assert i !in Deciders(p) && x.id !in p.raiseAllowed && x.id != q.id;
    assert x.id in AbleIds(s.seats);
    assert x.id in AbleIds(p.seats);
  }

  /**
   The betting on a street ends, with the hand still contested, only when every other player
   who can act has matched the bet and has acted since the street began or was last raised in full.
   */
  lemma NobodyPassedOver(s: State, acted: set<PlayerId>, cmd: ActionCommand, i: nat)
    requires Deciding(s) && RaiseRights(s, acted) && Act(s, cmd).result.error == Ok
    requires Act(s, cmd).state.street != s.street && |Contenders(Act(s, cmd).state.seats)| >= 2
    requires i != s.actingSeat.value && Taken(s.seats, i) && CanAct(s.seats[i].value)
    ensures HasAnswered(s, acted, i)
  {
    var q := PlayedComplete(s, cmd);
    PlayedRaise(s, cmd);
    OthersAnswered(s, Played(s, cmd), acted, s.actingSeat.value, q, i);
  }

  lemma PlayedComplete(s: State, cmd: ActionCommand) returns (q: Player)
    requires Deciding(s) && Act(s, cmd).result.error == Ok
    requires Act(s, cmd).state.street != s.street && |Contenders(Act(s, cmd).state.seats)| >= 2
    ensures BetPhase(s, s.actingSeat.value, cmd).error == Ok
    ensures var p := Played(s, cmd);
            && Deciders(p) == {} && (forall i :: !Unmatched(p, i)) && p.raiseAllowed <= p.pending
            && p.seats == s.seats[s.actingSeat.value := Some(q)] && q.id == s.seats[s.actingSeat.value].value.id
  {
    ActCases(s, cmd);
    PlayedMidHand(s, cmd);
    LeavesWhenComplete(Played(s, cmd), s.actingSeat.value);
    var lift, target;
    lift, q, target := ActionKinds(s, s.actingSeat.value, cmd);
  }

  lemma StreetEndsAnswered(s: State, cards: seq<Card>, ops: seq<Op>, cmd: ActionCommand, i: nat)
    requires Resting(s) && StartHand(s, cards).error == Ok && StaysDecidingFrom(StartHand(s, cards).state, ops)
    requires var t := Run(StartHand(s, cards).state, ops);
             && Act(t, cmd).result.error == Ok && Deciding(t)
             && Act(t, cmd).state.street != t.street && |Contenders(Act(t, cmd).state.seats)| >= 2
             && i != t.actingSeat.value && Taken(t.seats, i) && CanAct(t.seats[i].value)
    ensures HasAnswered(Run(StartHand(s, cards).state, ops), Acted(StartHand(s, cards).state, {}, ops), i)
  {
    var r := StartHand(s, cards).state;
    StartRights(s, cards);
    RunRights(r, {}, ops);
    NobodyPassedOver(Run(r, ops), Acted(r, {}, ops), cmd, i);
  }
}
