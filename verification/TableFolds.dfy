/**
 A rule that keeps chips on the table: when nobody folds who could check, no showdown
 drops any.
 */
module TableFolds {
  import opened Wrappers
  import opened Cards
  import opened TableModel
  import opened TableInvariant
  import opened TableStart
  import opened TableAccounting
  import opened TableRuns
  import opened TableSettled
  import opened TableTraps

  /** The player at `w` is still in the hand and has put in as much as anybody. */
  ghost predicate Leads(s: State, h: int, w: nat) {
    w in Contenders(s.seats) && s.seats[w].value.handCommitment == h + s.currentBet
  }

  ghost predicate SeatLevel(p: Player, h: int) {
    && p.handCommitment - p.streetCommitment <= h
    && (CanAct(p) || p.streetCommitment > 0 ==> p.handCommitment - p.streetCommitment == h)
  }

  /**
   Before this street nobody had put in more than `h`; whoever can act or has put in
   something on this street had put in exactly that; and somebody still in the hand leads.
   */
  ghost predicate Level(s: State, h: int) {
    && h >= 0
    && (forall i :: Taken(s.seats, i) ==> SeatLevel(s.seats[i].value, h))
    && exists w: nat :: Leads(s, h, w)
  }

  /** Nobody has put in more than the leader. */
  lemma LeaderCovers(s: State, h: int)
    requires InHand(s) && Level(s, h)
    ensures forall i: nat :: Taken(s.seats, i) ==> Covered(s.seats, i)
  {
    var w: nat :| Leads(s, h, w);
    forall i: nat | Taken(s.seats, i)
      ensures Covered(s.seats, i)
    {
      assert SeatLevel(s.seats[i].value, h);
      assert w in Contenders(s.seats) && s.seats[w].value.handCommitment >= s.seats[i].value.handCommitment;
    }
  }

  // ---------- settlement ----------

  lemma SettledCovered(u: Seats, t: Seats)
    requires SameHands(u, t) && forall i: nat :: Taken(u, i) ==> Covered(u, i)
    ensures forall i: nat :: Taken(t, i) ==> Covered(t, i)
  {
    forall i: nat | Taken(t, i)
      ensures Covered(t, i)
    {
      assert Taken(u, i) && Covered(u, i);
      var j :| j in Contenders(u) && u[j].value.handCommitment >= u[i].value.handCommitment;
      assert j in Contenders(t);
    }
  }

  lemma LevelSettles(u: State, t: State, h: int)
    requires SettledFrom(u, t) && Level(u, h)
    ensures LostIn(t) == 0
  {
    SettledFacts(u, t);
    if |Contenders(t.seats)| >= 2 {
      LeaderCovers(u, h);
      SettledCovered(u.seats, t.seats);
      NothingLostIff(t);
    }
  }

  // ---------- moving on ----------

  /** On the next street everybody starts from what this street made of it. */
  lemma StreetLevel(s: State, h: int)
    requires InHand(s) && CanAdvance(s) && RoundComplete(s) && |Contenders(s.seats)| >= 2 && s.street != River && Level(s, h)
    ensures Level(AdvanceStreet(s), h + s.currentBet)
  {
    var t := AdvanceStreet(s);
    ClearStreetKeeps(s.seats);
    var w: nat :| Leads(s, h, w);
    assert Leads(t, h + s.currentBet, w);
    forall i | Taken(t.seats, i)
      ensures SeatLevel(t.seats[i].value, h + s.currentBet)
    {
      assert Taken(s.seats, i) && SeatLevel(s.seats[i].value, h) && !Unmatched(s, i);
    }
  }

  /** Either the hand goes on level, or it is settled without loss. */
  ghost predicate LevelOrDone(t: State) {
    if t.street == Settled then LostIn(t) == 0 else exists h :: Level(t, h)
  }

  lemma ActorLevel(s: State, t: State, h: int)
    requires Level(s, h) && t == s.(actingSeat := t.actingSeat, pending := t.pending, serverSequence := t.serverSequence)
    ensures Level(t, h)
  {
    var w: nat :| Leads(s, h, w);
    assert Leads(t, h, w);
  }

  lemma {:induction false} AdvanceLevel(s: State, h: int)
    requires InHand(s) && CanAdvance(s) && AllStacksOk(s.seats) && Level(s, h)
    ensures LevelOrDone(Advance(s))
    decreases StreetsLeft(s.street), 1
  {
    if |Contenders(s.seats)| <= 1 || (RoundComplete(s) && s.street == River) {
      LevelSettles(s, Advance(s), h);
    } else if !RoundComplete(s) {
      ActorLevel(s, Advance(s), h);
    } else {
      RunOnLevel(s, h);
    }
  }

  lemma {:induction false} RunOnLevel(s: State, h: int)
    requires InHand(s) && CanAdvance(s) && AllStacksOk(s.seats) && Level(s, h)
    requires |Contenders(s.seats)| >= 2 && RoundComplete(s) && s.street != River
    ensures LevelOrDone(Advance(s))
    decreases StreetsLeft(s.street), 0
  {
    var t, g := NextStreetLevel(s, h);
    if |Able(t.seats)| <= 1 {
      AdvanceLevel(t.(pending := {}, actingSeat := None), g);
    } else {
      GoesOnLevel(t, Advance(s), g);
    }
  }

  lemma NextStreetLevel(s: State, h: int) returns (t: State, g: int)
    requires InHand(s) && CanAdvance(s) && AllStacksOk(s.seats) && Level(s, h)
    requires |Contenders(s.seats)| >= 2 && RoundComplete(s) && s.street != River
    ensures t == AdvanceStreet(s) && Betting(t.street) && AllStacksOk(t.seats) && Level(t, g)
    ensures var v := t.(pending := {}, actingSeat := None); InHand(v) && CanAdvance(v) && Level(v, g)
  {
    StreetLevel(s, h);
    g := h + s.currentBet;
    t := NextStreetReady(s);
    ActorLevel(t, t.(pending := {}, actingSeat := None), g);
  }

  lemma GoesOnLevel(t: State, r: State, h: int)
    requires Level(t, h) && Betting(t.street) && r == t.(actingSeat := r.actingSeat)
    ensures LevelOrDone(r)
  {
    ActorLevel(t, r, h);
  }

  lemma ContinueLevel(s: State, from: nat, h: int)
    requires InHand(s) && CanAdvance(s) && from < |s.seats| && AllStacksOk(s.seats) && Level(s, h)
    ensures LevelOrDone(Continue(s, from))
  {
    if |Contenders(s.seats)| <= 1 {
      LevelSettles(s, Continue(s, from), h);
    } else if RoundComplete(s) {
      var v := s.(actingSeat := None);
      ActorLevel(s, v, h);
      AdvanceLevel(v, h);
    } else {
      ActorLevel(s, Continue(s, from), h);
    }
  }

  // ---------- one action ----------

  /** The actor could check. */
  ghost predicate Matched(s: State) {
    s.actingSeat.Some? && Taken(s.seats, s.actingSeat.value)
    && s.seats[s.actingSeat.value].value.streetCommitment == s.currentBet
  }

  /** Whoever could check and does not fold either checks or lifts the bet. */
  lemma MatchedActs(s: State, a: nat, cmd: ActionCommand)
    requires Taken(s.seats, a) && CanAct(s.seats[a].value) && s.seats[a].value.streetCommitment == s.currentBet
    requires BetPhase(s, a, cmd).error == Ok && cmd.action != Fold
    ensures var t := BetPhase(s, a, cmd).state;
            t.seats[a] == s.seats[a] || t.currentBet > s.currentBet
  {}

  lemma PlayedSeats(s: State, t: State, h: int, a: nat, q: Player)
    requires Taken(s.seats, a) && t.seats == s.seats[a := Some(q)] && SeatLevel(q, h)
    requires forall i :: Taken(s.seats, i) ==> SeatLevel(s.seats[i].value, h)
    ensures forall i :: Taken(t.seats, i) ==> SeatLevel(t.seats[i].value, h)
  {
    assert forall i :: Taken(t.seats, i) && i != a ==> Taken(s.seats, i) && t.seats[i] == s.seats[i];
  }

  /** What an accepted action does to the actor's commitments, and when it lifts the bet. */
  lemma PlayedActor(s: State, cmd: ActionCommand, h: int) returns (q: Player)
    requires Deciding(s) && BetPhase(s, s.actingSeat.value, cmd).error == Ok
    requires SeatLevel(s.seats[s.actingSeat.value].value, h)
    ensures var a := s.actingSeat.value;
            var t := Played(s, cmd);
            && t.seats == s.seats[a := Some(q)] && SeatLevel(q, h)
            && s.currentBet <= t.currentBet
            && (t.currentBet > s.currentBet ==> IsContender(q) && q.handCommitment == h + t.currentBet)
  {
    var lift, target;
    lift, q, target := ActionKinds(s, s.actingSeat.value, cmd);
  }

  lemma PlayedLevel(s: State, cmd: ActionCommand, h: int)
    requires Deciding(s) && BetPhase(s, s.actingSeat.value, cmd).error == Ok && Level(s, h)
    requires cmd.action == Fold ==> !Matched(s)
    ensures Level(Played(s, cmd), h)
  {
    var a := s.actingSeat.value;
    var t := Played(s, cmd);
    assert SeatLevel(s.seats[a].value, h);
    var q := PlayedActor(s, cmd, h);
    PlayedSeats(s, t, h, a, q);
    var w: nat :| Leads(s, h, w);
    assert SeatLevel(s.seats[w].value, h);
    if w == a && cmd.action != Fold {
      MatchedActs(s, a, cmd);
    }
    LeaderStays(s, t, h, a, q, w, cmd);
  }

  lemma LeaderStays(s: State, t: State, h: int, a: nat, q: Player, w: nat, cmd: ActionCommand)
    requires BetOk(s) && Taken(s.seats, a) && t.seats == s.seats[a := Some(q)] && Leads(s, h, w)
    requires SeatLevel(s.seats[w].value, h) && s.currentBet <= t.currentBet
    requires t.currentBet > s.currentBet ==> IsContender(q) && q.handCommitment == h + t.currentBet
    requires w == a && s.seats[a].value.streetCommitment == s.currentBet ==>
               cmd.action != Fold && (t.seats[a] == s.seats[a] || t.currentBet > s.currentBet)
    ensures exists x: nat :: Leads(t, h, x)
  {
    if t.currentBet > s.currentBet {
      assert Leads(t, h, a);
    } else {
      assert w == a ==> s.seats[a].value.streetCommitment == s.currentBet;
      assert Leads(t, h, w);
    }
  }

  lemma ActLevel(s: State, cmd: ActionCommand, h: int)
    requires Deciding(s) && AllStacksOk(s.seats) && Level(s, h) && Act(s, cmd).result.error == Ok
    requires cmd.action == Fold ==> !Matched(s)
    ensures LevelOrDone(Act(s, cmd).state)
  {
    ActCases(s, cmd);
    PlayedMidHand(s, cmd);
    PlayedAccounting(s, cmd);
    PlayedLevel(s, cmd, h);
    ContinueLevel(Played(s, cmd), s.actingSeat.value, h);
  }

  // ---------- starting ----------

  lemma OpeningLevel(s: State, t: State, at: Positions)
    requires IsOpening(s, t, at)
    ensures Level(t, 0)
  {
    OpeningInHand(s, t, at);
    forall i | Taken(t.seats, i)
      ensures SeatLevel(t.seats[i].value, 0)
    {
      assert OpenedPlayer(s.seats[i].value, t.seats[i].value);
    }
    var w :| Taken(t.seats, w) && t.seats[w].value.streetCommitment == t.currentBet;
    assert OpenedPlayer(s.seats[w].value, t.seats[w].value);
    assert Leads(t, 0, w);
  }

  lemma BegunLevel(s: State, t: State, at: Positions, r: State)
    requires Resting(s) && AllStacksOk(s.seats) && IsBegun(s, t, at, r)
    ensures LevelOrDone(r)
  {
    OpeningLevel(s, t, at);
    OpeningInHand(s, t, at);
    OpeningAccounting(s, t, at);
    if |Able(t.seats)| <= 1 {
      AdvanceLevel(t, 0);
    }
  }

  lemma StartLevel(s: State, cards: seq<Card>)
    requires Resting(s) && AllStacksOk(s.seats) && StartHand(s, cards).error == Ok
    ensures LevelOrDone(StartHand(s, cards).state)
  {
    EnoughCanOpen(s, cards);
    var t := BeginIsBegun(s, cards);
    BegunLevel(s, t, PositionsOf(s), Begin(s, cards));
  }

  // ---------- runs ----------

  /** A fold by a player who could check. */
  ghost predicate FreeFold(s: State, op: Op)
    requires Inv(s)
  {
    op.Play? && op.cmd.action == Fold && Step(s, op).error == Ok && Matched(s)
  }

  ghost predicate NoFreeFolds(s: State, ops: seq<Op>)
    requires Inv(s)
    decreases ops
  {
    ops == [] || (StepInv(s, ops[0]); !FreeFold(s, ops[0]) && NoFreeFolds(Step(s, ops[0]).state, ops[1..]))
  }

  /** A hand in progress is level. */
  ghost predicate HandLevel(s: State) {
    Betting(s.street) ==> exists h :: Level(s, h)
  }

  lemma QuietLevel(s: State, t: State, h: int)
    requires Quiet(s, t) && InHand(s) && Level(s, h)
    ensures Level(t, h)
  {
    QuietGroups(s, t);
    var w: nat :| Leads(s, h, w);
    assert Leads(t, h, w) by {
      QuietSeat(s, t, w);
    }
    forall i: nat | Taken(t.seats, i)
      ensures SeatLevel(t.seats[i].value, h)
    {
      QuietSeat(s, t, i);
      assert SeatLevel(s.seats[i].value, h);
    }
  }

  lemma SeatingLevel(s: State, op: Op)
    requires Inv(s) && HandLevel(s) && !op.Play? && !op.Start? && Step(s, op).error == Ok
    ensures HandLevel(Step(s, op).state)
  {
    if Betting(s.street) && !op.Abort? {
      SeatingQuiet(s, op);
      var h :| Level(s, h);
      QuietLevel(s, Step(s, op).state, h);
    }
  }

  lemma HandStepLevel(s: State, op: Op)
    requires Inv(s) && AllStacksOk(s.seats) && HandLevel(s) && !FreeFold(s, op)
    requires (op.Start? || op.Play?) && Step(s, op).error == Ok
    ensures LevelOrDone(Step(s, op).state)
  {
    if op.Start? {
      NotRunningRests(s);
      StartLevel(s, op.cards);
    } else {
      ActsOnlyDeciding(s, op.cmd);
      var h :| Level(s, h);
      ActLevel(s, op.cmd, h);
    }
  }

  lemma StepLevel(s: State, op: Op)
    requires Inv(s) && AllStacksOk(s.seats) && HandLevel(s) && !FreeFold(s, op)
    ensures HandLevel(Step(s, op).state) && Lost(s, op) == 0
  {
    if Step(s, op).error != Ok {
      StepInv(s, op);
    } else if op.Start? || op.Play? {
      HandStepLevel(s, op);
      StepInv(s, op);
    } else {
      SeatingLevel(s, op);
    }
  }

  lemma {:induction false} RunLosesNothing(s: State, ops: seq<Op>)
    requires Inv(s) && AllStacksOk(s.seats) && HandLevel(s) && NoFreeFolds(s, ops) && AllSafe(s, ops)
    ensures Accounts(s, ops).lost == 0
    decreases ops
  {
    if ops != [] {
      StepInv(s, ops[0]);
      StepAccounting(s, ops[0]);
      StepLevel(s, ops[0]);
      RunLosesNothing(Step(s, ops[0]).state, ops[1..]);
    }
  }

  /**
   Conservation under a rule every player can follow: in a run from a new table in which
   nobody folds who could check, no showdown drops a chip, so what is on the table is what
   was brought, less what was carried away and what aborts of settled hands took off.
   */
  lemma ChipsConserved(c: Config, ops: seq<Op>)
    requires Inv(NewTable(c)) && NoFreeFolds(NewTable(c), ops) && AllSafe(NewTable(c), ops)
    ensures var a := Accounts(NewTable(c), ops);
            a.lost == 0 && TotalChips(Run(NewTable(c), ops)) == a.brought - a.carried - a.undone
  {
    RunLosesNothing(NewTable(c), ops);
    TableAccounts(c, ops);
  }
}
