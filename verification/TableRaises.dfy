/** Who may raise, over the history of a betting round. */
module TableRaises {
  import opened Wrappers
  import opened Cards
  import opened TableModel
  import opened TableInvariant
  import opened TableStart
  import opened TableRuns

  /** The step from `s` to `t` starts a street or is a full raise: a fresh decision for everyone else. */
  ghost predicate NewStreet(s: State, t: State) {
    t.street != s.street
  }

  ghost predicate FullRaise(s: State, t: State) {
    t.street == s.street && t.currentBet - s.currentBet >= s.minimumRaise
  }

  /** The players who have acted since the street started or was last raised in full. */
  ghost function ActedNow(s: State, t: State, acted: set<PlayerId>, id: PlayerId): set<PlayerId> {
    if NewStreet(s, t) then {} else if FullRaise(s, t) then {id} else acted + {id}
  }

  ghost function ActedAfter(s: State, acted: set<PlayerId>, op: Op): set<PlayerId>
    requires Inv(s)
  {
    var r := Step(s, op);
    if !op.Play? || r.error != Ok then acted else ActedNow(s, r.state, acted, op.cmd.playerId)
  }

  ghost predicate RaiseRights(s: State, acted: set<PlayerId>) {
    s.raiseAllowed == AbleIds(s.seats) - acted
  }

  // ---------- one action ----------

  lemma ReplacedIds(seats: Seats, t: Seats, a: nat, q: Player)
    requires Replaced(seats, t, a, q) && DistinctIds(seats)
    ensures AbleIds(t) - {q.id} == AbleIds(seats) - {q.id}
    ensures q.id in AbleIds(t) <==> CanAct(q)
    ensures OtherAble(t, q.id) == AbleIds(t) - {q.id}
  {
    assert Taken(t, a) && t[a].value == q;
    assert forall i :: Taken(t, i) && i != a ==> Taken(seats, i) && t[i] == seats[i] && t[i].value.id != q.id;
    forall id
      ensures id in AbleIds(t) - {q.id} <==> id in AbleIds(seats) - {q.id}
      ensures id in OtherAble(t, q.id) <==> id in AbleIds(t) - {q.id}
    {
      if id in AbleIds(t) && id != q.id {
        var i := AbleSeat(t, id);
        assert Taken(seats, i) && CanAct(seats[i].value) && seats[i].value.id == id;
      }
      if id in AbleIds(seats) && id != q.id {
        ReplacedAble(seats, t, a, q, id);
      }
    }
  }

  /** What an accepted action does to the bet, the minimum raise and the right to raise. */
  ghost predicate RaiseStep(s: State, t: State, id: PlayerId) {
    && s.currentBet <= t.currentBet
    && s.minimumRaise <= t.minimumRaise
    && (t.currentBet > s.currentBet ==> id in s.raiseAllowed)
    && id !in t.raiseAllowed
    && (if t.currentBet - s.currentBet >= s.minimumRaise then t.raiseAllowed == AbleIds(t.seats) - {id}
        else t.raiseAllowed == s.raiseAllowed - {id} && AbleIds(t.seats) - {id} == AbleIds(s.seats) - {id})
  }

  lemma PlayedRaise(s: State, cmd: ActionCommand)
    requires Deciding(s) && BetPhase(s, s.actingSeat.value, cmd).error == Ok
    ensures RaiseStep(s, Played(s, cmd), s.seats[s.actingSeat.value].value.id)
  {
    var a := s.actingSeat.value;
    var lift, q, target := ActionKinds(s, a, cmd);
    var t := Played(s, cmd);
    assert t.seats == s.seats[a := Some(q)];
    ReplacedIds(s.seats, t.seats, a, q);
  }

  // ---------- the rest of the step ----------

  lemma {:induction false} AdvanceRights(s: State)
    requires InHand(s) && CanAdvance(s) && RoundComplete(s) && Betting(Advance(s).street)
    ensures Advance(s).street != s.street
    ensures RaiseRights(Advance(s), {})
    decreases StreetsLeft(s.street)
  {
    if |Contenders(s.seats)| >= 2 && s.street != River {
      AdvanceStreetMidHand(s);
      ClearStreetKeeps(s.seats);
      var t := AdvanceStreet(s);
      if |Able(t.seats)| <= 1 {
        var u := t.(pending := {}, actingSeat := None);
        ClearedRoundComplete(u);
        AdvanceRights(u);
        AdvanceNotBack(u);
      }
    }
  }

  lemma {:induction false} AdvanceNotBack(s: State)
    requires CanAdvance(s) && Betting(Advance(s).street)
    ensures StreetsLeft(Advance(s).street) <= StreetsLeft(s.street)
    decreases StreetsLeft(s.street)
  {
    if |Contenders(s.seats)| >= 2 && RoundComplete(s) && s.street != River {
      ClearStreetKeeps(s.seats);
      var t := AdvanceStreet(s);
      if |Able(t.seats)| <= 1 {
        AdvanceNotBack(t.(pending := {}, actingSeat := None));
      }
    }
  }

  lemma ContinueRights(s: State, from: nat)
    requires InHand(s) && CanAdvance(s) && from < |s.seats| && Betting(Continue(s, from).street)
    ensures var t := Continue(s, from);
            || (t.street != s.street && RaiseRights(t, {}))
            || (t == s.(actingSeat := t.actingSeat))
  {
    if |Contenders(s.seats)| >= 2 && RoundComplete(s) {
      var u := s.(actingSeat := None);
      ActorIgnored(s, u);
      assert InHand(u) && CanAdvance(u);
      AdvanceRights(u);
    }
  }

  lemma ActRights(s: State, acted: set<PlayerId>, cmd: ActionCommand)
    requires Deciding(s) && RaiseRights(s, acted)
    requires Act(s, cmd).result.error == Ok && Deciding(Act(s, cmd).state)
    ensures RaiseRights(Act(s, cmd).state, ActedNow(s, Act(s, cmd).state, acted, cmd.playerId))
  {
    ActCases(s, cmd);
    PlayedMidHand(s, cmd);
    PlayedRaise(s, cmd);
    var p := Played(s, cmd);
    ContinueRights(p, s.actingSeat.value);
    RightsFollow(s, p, Act(s, cmd).state, acted, cmd.playerId);
  }

  lemma RightsFollow(s: State, p: State, t: State, acted: set<PlayerId>, id: PlayerId)
    requires RaiseRights(s, acted) && RaiseStep(s, p, id) && p.street == s.street
    requires (t.street != p.street && RaiseRights(t, {})) || t == p.(actingSeat := t.actingSeat)
    ensures RaiseRights(t, ActedNow(s, t, acted, id))
  {
    if !NewStreet(s, t) && !FullRaise(s, t) {
      forall x
        ensures x in t.raiseAllowed <==> x in AbleIds(t.seats) - (acted + {id})
      {
        assert x in AbleIds(t.seats) - {id} <==> x in AbleIds(s.seats) - {id};
      }
    }
  }

  // ---------- histories ----------

  lemma QuietRights(s: State, op: Op, acted: set<PlayerId>)
    requires Deciding(s) && !op.Play? && RaiseRights(s, acted) && Deciding(Step(s, op).state)
    ensures RaiseRights(Step(s, op).state, acted)
  {
    if Step(s, op).error != Ok {
      StepInv(s, op);
    } else if !op.Abort? {
      SeatingQuiet(s, op);
      QuietGroups(s, Step(s, op).state);
    }
  }

  lemma StepRights(s: State, acted: set<PlayerId>, op: Op)
    requires Deciding(s) && RaiseRights(s, acted) && Deciding(Step(s, op).state)
    ensures RaiseRights(Step(s, op).state, ActedAfter(s, acted, op))
  {
    if op.Play? {
      ActProgress(s, op.cmd);
      if Step(s, op).error == Ok {
        ActRights(s, acted, op.cmd);
      }
    } else {
      QuietRights(s, op, acted);
    }
  }

  /** The hand has somebody to act in every state of the run. */
  ghost predicate StaysDeciding(s: State, ops: seq<Op>)
    requires Inv(s)
    decreases ops
  {
    Deciding(s) && (ops == [] || (StepInv(s, ops[0]); StaysDeciding(Step(s, ops[0]).state, ops[1..])))
  }

  ghost function Acted(s: State, acted: set<PlayerId>, ops: seq<Op>): set<PlayerId>
    requires Inv(s)
    decreases ops
  {
    if ops == [] then acted
    else
      StepInv(s, ops[0]);
      Acted(Step(s, ops[0]).state, ActedAfter(s, acted, ops[0]), ops[1..])
  }

  ghost predicate StaysDecidingFrom(s: State, ops: seq<Op>) {
    Inv(s) && StaysDeciding(s, ops)
  }

  lemma StaysDecidingNext(s: State, ops: seq<Op>)
    requires StaysDecidingFrom(s, ops) && ops != []
    ensures Deciding(s)
    ensures Deciding(Step(s, ops[0]).state) && StaysDecidingFrom(Step(s, ops[0]).state, ops[1..])
  {
    StepInv(s, ops[0]);
    assert StaysDeciding(Step(s, ops[0]).state, ops[1..]);
  }

  lemma {:induction false} RunRights(s: State, acted: set<PlayerId>, ops: seq<Op>)
    requires StaysDecidingFrom(s, ops) && RaiseRights(s, acted)
    ensures RaiseRights(Run(s, ops), Acted(s, acted, ops))
    decreases ops
  {
    if ops != [] {
      StepInv(s, ops[0]);
      StaysDecidingNext(s, ops);
      StepRights(s, acted, ops[0]);
      RunRights(Step(s, ops[0]).state, ActedAfter(s, acted, ops[0]), ops[1..]);
    }
  }

  /**
   From the start of a hand, whatever has happened: the right to raise belongs to exactly
   the players who can act and have not acted since the street began or was last raised in full.
   */
  lemma RaiseRightsOverHistory(s: State, cards: seq<Card>, ops: seq<Op>)
    requires Resting(s) && StartHand(s, cards).error == Ok
    requires StaysDecidingFrom(StartHand(s, cards).state, ops)
    ensures var t := StartHand(s, cards).state;
            Run(t, ops).raiseAllowed == AbleIds(Run(t, ops).seats) - Acted(t, {}, ops)
  {
    var t := StartHand(s, cards).state;
    StartRights(s, cards);
    RunRights(t, {}, ops);
  }

  lemma StartRights(s: State, cards: seq<Card>)
    requires Resting(s) && StartHand(s, cards).error == Ok && Deciding(StartHand(s, cards).state)
    ensures RaiseRights(StartHand(s, cards).state, {})
  {
    EnoughCanOpen(s, cards);
    var t := BeginIsBegun(s, cards);
    BegunRights(s, t, PositionsOf(s), Begin(s, cards));
  }

  lemma BegunRights(s: State, t: State, at: Positions, r: State)
    requires IsBegun(s, t, at, r) && Deciding(r)
    ensures RaiseRights(r, {})
  {
    if |Able(t.seats)| <= 1 {
      OpeningInHand(s, t, at);
      if RoundComplete(t) {
        AdvanceRights(t);
      } else {
        StalledStart(s, t, at);
      }
    }
  }

  // ---------- consequences ----------

  /** The action lifts the bet. */
  ghost predicate Lifts(s: State, op: Op)
    requires Inv(s)
  {
    op.Play? && Deciding(s) && Step(s, op).error == Ok && Played(s, op.cmd).currentBet > s.currentBet
  }

  /** Somebody is given a fresh decision by this operation. */
  ghost predicate Reopens(s: State, op: Op)
    requires Inv(s)
  {
    op.Play? && Step(s, op).error == Ok && (NewStreet(s, Step(s, op).state) || FullRaise(s, Step(s, op).state))
  }

  /** Only a player with the right to raise lifts the bet. */
  lemma LiftNeedsRight(s: State, op: Op)
    requires Deciding(s) && Lifts(s, op)
    ensures op.cmd.playerId in s.raiseAllowed
  {
    ActCases(s, op.cmd);
    PlayedRaise(s, op.cmd);
  }

  ghost predicate NeverReopens(s: State, ops: seq<Op>)
    requires Inv(s)
    decreases ops
  {
    ops == [] || (StepInv(s, ops[0]); !Reopens(s, ops[0]) && NeverReopens(Step(s, ops[0]).state, ops[1..]))
  }

  /** How often player `id` lifts the bet in a run. */
  ghost function LiftCount(s: State, ops: seq<Op>, id: PlayerId): nat
    requires Inv(s)
    decreases ops
  {
    if ops == [] then 0
    else
      StepInv(s, ops[0]);
      (if Lifts(s, ops[0]) && ops[0].cmd.playerId == id then 1 else 0)
      + LiftCount(Step(s, ops[0]).state, ops[1..], id)
  }

  /** Whoever lifts the bet, unless that ends the street, has acted since the betting was last opened. */
  lemma LifterActed(s: State, acted: set<PlayerId>, op: Op)
    requires Inv(s) && Lifts(s, op) && !NewStreet(s, Step(s, op).state)
    ensures op.cmd.playerId in ActedAfter(s, acted, op)
  {}

  /** Without a reopening a player lifts the bet at most once, and not at all after having acted. */
  lemma {:induction false} FewLifts(s: State, acted: set<PlayerId>, ops: seq<Op>, id: PlayerId)
    requires StaysDecidingFrom(s, ops) && RaiseRights(s, acted) && NeverReopens(s, ops)
    ensures LiftCount(s, ops, id) <= if id in acted then 0 else 1
    decreases ops
  {
    if ops != [] {
      StepInv(s, ops[0]);
      StaysDecidingNext(s, ops);
      StepRights(s, acted, ops[0]);
      if Lifts(s, ops[0]) {
        LiftNeedsRight(s, ops[0]);
        LifterActed(s, acted, ops[0]);
      }
      FewLifts(Step(s, ops[0]).state, ActedAfter(s, acted, ops[0]), ops[1..], id);
    }
  }

  /** A stretch of one betting round: only its first operation, a full raise, may reopen the betting. */
  ghost predicate OneOpening(s: State, ops: seq<Op>)
    requires Inv(s)
  {
    ops == [] ||
    (StepInv(s, ops[0]);
     !NewStreet(s, Step(s, ops[0]).state) && NeverReopens(Step(s, ops[0]).state, ops[1..]))
  }

  lemma OpeningLifts(s: State, acted: set<PlayerId>, ops: seq<Op>, id: PlayerId)
    requires StaysDecidingFrom(s, ops) && RaiseRights(s, acted) && OneOpening(s, ops)
    ensures LiftCount(s, ops, id) <= 1
  {
    if ops != [] {
      StepInv(s, ops[0]);
      StaysDecidingNext(s, ops);
      StepRights(s, acted, ops[0]);
      if Lifts(s, ops[0]) {
        LifterActed(s, acted, ops[0]);
      }
      FewLifts(Step(s, ops[0]).state, ActedAfter(s, acted, ops[0]), ops[1..], id);
    }
  }

  /**
   At any point of any hand: from a full raise on, or from anywhere else, until the betting
   is next reopened, each player lifts the bet at most once.
   */
  lemma LiftsAtMostOnce(s: State, cards: seq<Card>, before: seq<Op>, ops: seq<Op>, id: PlayerId)
    requires Resting(s) && StartHand(s, cards).error == Ok
    requires StaysDecidingFrom(StartHand(s, cards).state, before)
    requires StaysDecidingFrom(Run(StartHand(s, cards).state, before), ops)
    requires OneOpening(Run(StartHand(s, cards).state, before), ops)
    ensures LiftCount(Run(StartHand(s, cards).state, before), ops, id) <= 1
  {
    var r := StartHand(s, cards).state;
    StartRights(s, cards);
    RunRights(r, {}, before);
    OpeningLifts(Run(r, before), Acted(r, {}, before), ops, id);
  }

  /**
   Within a street the minimum raise never falls, and it is never below the big blind; an
   all-in that lifts the bet by less than a full raise gives nobody the right to raise.
   */
  lemma ShortRaiseReopensNothing(s: State, cmd: ActionCommand)
    requires Deciding(s) && Act(s, cmd).result.error == Ok
    requires Deciding(Act(s, cmd).state) && !NewStreet(s, Act(s, cmd).state)
    ensures var t := Act(s, cmd).state;
            && s.config.bigBlind <= s.minimumRaise <= t.minimumRaise
            && s.currentBet <= t.currentBet
            && (!FullRaise(s, t) ==> t.raiseAllowed == s.raiseAllowed - {cmd.playerId})
  {
    ActCases(s, cmd);
    PlayedMidHand(s, cmd);
    PlayedRaise(s, cmd);
    ContinueRights(Played(s, cmd), s.actingSeat.value);
  }
}
