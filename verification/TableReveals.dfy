/** What a settled hand reveals: the cards of those who did not fold, and nothing more. */
module TableReveals {
  import opened Wrappers
  import opened Cards
  import opened TableModel
  import opened TableInvariant
  import opened TableStart
  import opened TableRuns
  import opened TableCards
  import opened TableViews
  import opened TableSecrecy
  import opened TableTurns
  import Pots

  /** The two decks give the players on the seats of `a` the same cards. */
  ghost predicate AgreeOn(a: set<nat>, cards: seq<Card>, other: seq<Card>, order: seq<nat>)
    requires 2 * |order| <= |cards| && 2 * |order| <= |other|
  {
    forall k :: 0 <= k < |order| && order[k] in a ==>
      cards[k] == other[k] && cards[|order| + k] == other[|order| + k]
  }

  // ---------- seat by seat ----------

  lemma SameSeat(seats: Seats, other: Seats, i: nat)
    requires BlankSeats(seats) == BlankSeats(other) && i < |seats|
    ensures |other| == |seats| && (seats[i].Some? <==> other[i].Some?)
    ensures seats[i].Some? ==> BlankPlayer(seats[i].value) == BlankPlayer(other[i].value)
  {
    assert |BlankSeats(seats)| == |seats| && |BlankSeats(other)| == |other|;
    assert BlankSeats(seats)[i] == BlankSeats(other)[i];
  }

  lemma SameSeats(seats: Seats, other: Seats)
    requires |seats| == |other|
    requires forall i :: 0 <= i < |seats| ==>
               && (seats[i].Some? <==> other[i].Some?)
               && (seats[i].Some? ==> BlankPlayer(seats[i].value) == BlankPlayer(other[i].value))
    ensures BlankSeats(seats) == BlankSeats(other)
  {}

  lemma SameHole(u: State, v: State, cards: seq<Card>, other: seq<Card>, order: seq<nat>, a: set<nat>, i: nat)
    requires Holds(u, cards, order) && Holds(v, other, order) && AgreeOn(a, cards, other, order)
    requires i in a && i in Participants(u.seats)
    ensures Taken(u.seats, i) && Taken(v.seats, i) && u.seats[i].value.hole == v.seats[i].value.hole
  {
    assert i in order;
    var k :| 0 <= k < |order| && order[k] == i;
    assert u.seats[order[k]].value.hole == (cards[k], cards[|order| + k]);
    assert v.seats[order[k]].value.hole == (other[k], other[|order| + k]);
  }

  // ---------- the showdown ----------

  /** The hands that count are the same. */
  lemma SameEntries(u: State, v: State)
    requires BlankSeats(u.seats) == BlankSeats(v.seats) && u.board == v.board
    requires forall i :: Taken(u.seats, i) ==> PlayerOk(u.seats[i].value)
    requires forall i :: i in Contenders(u.seats) ==> Taken(v.seats, i) && u.seats[i].value.hole == v.seats[i].value.hole
    ensures |u.seats| == |v.seats| && Entries(u.seats, u.board) == Entries(v.seats, v.board)
  {
    forall i: nat | i < |u.seats|
      ensures |u.seats| == |v.seats| && EntryOf(u.seats[i], u.board) == EntryOf(v.seats[i], v.board)
    {
      SameSeat(u.seats, v.seats, i);
      if u.seats[i].Some? {
        assert Taken(u.seats, i) && PlayerOk(u.seats[i].value);
        assert IsContender(u.seats[i].value) ==> i in Contenders(u.seats);
      }
    }
    assert |BlankSeats(u.seats)| == |u.seats| && |BlankSeats(v.seats)| == |v.seats|;
  }

  lemma SameIds(seats: Seats, other: Seats, winners: seq<nat>)
    requires BlankSeats(seats) == BlankSeats(other) && forall k :: 0 <= k < |winners| ==> Taken(seats, winners[k])
    ensures forall k :: 0 <= k < |winners| ==> Taken(other, winners[k])
    ensures Ids(seats, winners) == Ids(other, winners)
  {
    forall k | 0 <= k < |winners|
      ensures Taken(other, winners[k]) && other[winners[k]].value.id == seats[winners[k]].value.id
    {
      SameSeat(seats, other, winners[k]);
    }
  }

  lemma {:induction false} SameAwards(seats: Seats, other: Seats, layers: seq<Pots.Layer>)
    requires BlankSeats(seats) == BlankSeats(other)
    requires forall l, k :: l in layers && 0 <= k < |l.winners| ==> Taken(seats, l.winners[k])
    ensures forall l, k :: l in layers && 0 <= k < |l.winners| ==> Taken(other, l.winners[k])
    ensures AwardsOf(seats, layers) == AwardsOf(other, layers)
  {
    if layers != [] {
      var l := layers[0];
      assert l in layers;
      SameIds(seats, other, l.winners);
      SameAwards(seats, other, layers[1..]);
    }
  }

  lemma SameShowdownAwards(u: State, v: State, origin: nat)
    requires BlankSeats(u.seats) == BlankSeats(v.seats) && u.board == v.board && origin < |u.seats|
    requires |u.seats| == |v.seats| && Entries(u.seats, u.board) == Entries(v.seats, v.board)
    ensures ShowdownAwards(u.seats, u.board, origin) == ShowdownAwards(v.seats, v.board, origin)
  {
    WinnersTaken(u.seats, u.board, origin, 0);
    WinnersTaken(v.seats, v.board, origin, 0);
    SameAwards(u.seats, v.seats, Pots.Layers(Entries(u.seats, u.board), origin, 0));
  }

  lemma SettleTwin(u: State, v: State, awards: seq<PotAward>)
    requires SameButCards(u, v)
    ensures SameButCards(Settle(u, awards), Settle(v, awards))
  {
    forall i: nat | i < |u.seats|
      ensures |u.seats| == |v.seats| && (u.seats[i].Some? <==> v.seats[i].Some?)
      ensures u.seats[i].Some? ==> BlankPlayer(u.seats[i].value) == BlankPlayer(v.seats[i].value)
    {
      SameSeat(u.seats, v.seats, i);
    }
    assert |BlankSeats(u.seats)| == |u.seats| && |BlankSeats(v.seats)| == |v.seats|;
    SameSeats(PaidSeats(u.seats, awards), PaidSeats(v.seats, awards));
  }

  lemma ShowdownTwin(u: State, v: State, cards: seq<Card>, other: seq<Card>, order: seq<nat>)
    requires SameButCards(u, v) && InHand(u) && InHand(v) && u.board == v.board
    requires Holds(u, cards, order) && Holds(v, other, order) && AgreeOn(Contenders(u.seats), cards, other, order)
    ensures SameButCards(ShowdownWin(u), ShowdownWin(v))
  {
    forall i | i in Contenders(u.seats)
      ensures Taken(v.seats, i) && u.seats[i].value.hole == v.seats[i].value.hole
    {
      assert PlayerOk(u.seats[i].value);
      SameHole(u, v, cards, other, order, Contenders(u.seats), i);
    }
    SameEntries(u, v);
    SameShowdownAwards(u, v, u.dealerSeat.value);
    SettleTwin(u, v, ShowdownAwards(u.seats, u.board, u.dealerSeat.value));
  }

  lemma FoldTwin(u: State, v: State)
    requires SameButCards(u, v) && Contenders(u.seats) != {} && Contenders(v.seats) != {}
    ensures SameButCards(FoldWin(u), FoldWin(v))
  {
    BlankGroups(u.seats);
    BlankGroups(v.seats);
    assert |BlankSeats(u.seats)| == |u.seats| && |BlankSeats(v.seats)| == |v.seats|;
    var w := FirstContender(u.seats);
    assert w == FirstContender(v.seats);
    SameSeat(u.seats, v.seats, w);
    SettleTwin(u, v, FoldAwards(u.seats, w));
  }

  // ---------- to the end of the hand ----------

  /** Two hands dealt from two decks, alike but for the cards. */
  ghost predicate Twins(s: State, t: State, cards: seq<Card>, other: seq<Card>, order: seq<nat>) {
    && SameButCards(s, t) && InHand(s) && InHand(t) && CanAdvance(s) && CanAdvance(t)
    && Holds(s, cards, order) && Holds(t, other, order)
  }

  /** The decks agree on the board of the given size and on the cards of the given seats. */
  ghost predicate DecksAgree(cards: seq<Card>, other: seq<Card>, order: seq<nat>, size: nat, a: set<nat>)
    requires 2 * |order| + 8 <= |cards| && 2 * |order| + 8 <= |other|
  {
    BoardOf(cards, |order|, size) == BoardOf(other, |order|, size) && AgreeOn(a, cards, other, order)
  }

  lemma SameCourse(s: State, t: State)
    requires SameButCards(s, t)
    ensures Contenders(s.seats) == Contenders(t.seats) && Able(s.seats) == Able(t.seats)
    ensures RoundComplete(s) <==> RoundComplete(t)
    ensures s.street == t.street && |s.board| == |t.board| && |s.seats| == |t.seats|
  {
    BlankGroups(s.seats);
    BlankGroups(t.seats);
    BlankRound(s);
    BlankRound(t);
    assert |Blank(s).board| == |s.board| && |Blank(t).board| == |t.board|;
    assert |Blank(s).seats| == |s.seats| && |Blank(t).seats| == |t.seats|;
  }

  lemma NextTwins(s: State, t: State, cards: seq<Card>, other: seq<Card>, order: seq<nat>) returns (u: State, v: State)
    requires Twins(s, t, cards, other, order) && s.street != River && |Contenders(s.seats)| >= 2
    ensures t.street != River
    ensures u == AdvanceStreet(s).(pending := {}, actingSeat := None)
    ensures v == AdvanceStreet(t).(pending := {}, actingSeat := None)
    ensures Twins(u, v, cards, other, order) && Contenders(u.seats) == Contenders(s.seats)
    ensures Able(AdvanceStreet(s).seats) == Able(AdvanceStreet(t).seats)
    ensures StreetsLeft(u.street) < StreetsLeft(s.street)
  {
    SameCourse(s, t);
    var x := NextStreetHolds(s, cards, order);
    var y := NextStreetHolds(t, other, order);
    NextAlike(s, t);
    u, v := x.(pending := {}, actingSeat := None), y.(pending := {}, actingSeat := None);
  }

  lemma NextAlike(s: State, t: State)
    requires SameButCards(s, t) && CanAdvance(s) && CanAdvance(t) && s.street != River && t.street != River
    ensures var x, y := AdvanceStreet(s), AdvanceStreet(t);
            && Able(x.seats) == Able(y.seats) && Contenders(x.seats) == Contenders(s.seats)
            && SameButCards(x.(pending := {}, actingSeat := None), y.(pending := {}, actingSeat := None))
  {
    var x, y := AdvanceStreet(s), AdvanceStreet(t);
    BlankStreet(s);
    BlankStreet(t);
    SameCourse(x, y);
    ClearStreetKeeps(s.seats);
    assert Blank(x.(pending := {}, actingSeat := None)) == Blank(x).(pending := {}, actingSeat := None);
    assert Blank(y.(pending := {}, actingSeat := None)) == Blank(y).(pending := {}, actingSeat := None);
  }

  lemma {:induction false} AdvanceReveals(s: State, t: State, cards: seq<Card>, other: seq<Card>, order: seq<nat>)
    requires Twins(s, t, cards, other, order)
    requires DecksAgree(cards, other, order, |Advance(s).board|, Contenders(s.seats))
    ensures SameButCards(Advance(s), Advance(t))
    decreases StreetsLeft(s.street), 1
  {
    SameCourse(s, t);
    if |Contenders(s.seats)| <= 1 {
      FoldTwin(s, t);
    } else if !RoundComplete(s) {
      TwinAdvance(s, t);
    } else if s.street == River {
      TwinBoard(s, t, cards, other, order);
      ShowdownTwin(s, t, cards, other, order);
    } else {
      RunOutReveals(s, t, cards, other, order);
    }
  }

  lemma {:induction false} RunOutReveals(s: State, t: State, cards: seq<Card>, other: seq<Card>, order: seq<nat>)
    requires Twins(s, t, cards, other, order) && |Contenders(s.seats)| >= 2 && RoundComplete(s) && s.street != River
    requires |Contenders(t.seats)| >= 2 && RoundComplete(t)
    requires DecksAgree(cards, other, order, |Advance(s).board|, Contenders(s.seats))
    ensures SameButCards(Advance(s), Advance(t))
    decreases StreetsLeft(s.street), 0
  {
    var u, v := NextTwins(s, t, cards, other, order);
    if |Able(AdvanceStreet(s).seats)| <= 1 {
      AdvanceReveals(u, v, cards, other, order);
    } else {
      StreetGoesOn(s);
      TwinAdvance(s, t);
    }
  }

  lemma StreetGoesOn(s: State)
    requires CanAdvance(s) && |Contenders(s.seats)| >= 2 && RoundComplete(s) && s.street != River
    requires |Able(AdvanceStreet(s).seats)| > 1
    ensures Advance(s).street != Settled
  {}

  lemma ActorTwins(s: State, t: State, cards: seq<Card>, other: seq<Card>, order: seq<nat>)
    requires Twins(s, t, cards, other, order)
    ensures Twins(s.(actingSeat := None), t.(actingSeat := None), cards, other, order)
  {
    var u, v := s.(actingSeat := None), t.(actingSeat := None);
    assert Blank(u) == Blank(s).(actingSeat := None) && Blank(v) == Blank(t).(actingSeat := None);
  }

  lemma ContinueReveals(s: State, t: State, from: nat, cards: seq<Card>, other: seq<Card>, order: seq<nat>)
    requires Twins(s, t, cards, other, order) && from < |s.seats| && from < |t.seats|
    requires DecksAgree(cards, other, order, |Continue(s, from).board|, Contenders(s.seats))
    ensures SameButCards(Continue(s, from), Continue(t, from))
  {
    SameCourse(s, t);
    if |Contenders(s.seats)| <= 1 {
      FoldTwin(s, t);
    } else if RoundComplete(s) {
      ActorTwins(s, t, cards, other, order);
      AdvanceReveals(s.(actingSeat := None), t.(actingSeat := None), cards, other, order);
    } else {
      BlankContinue(s, from);
      BlankContinue(t, from);
    }
  }

  lemma PlayedTwins(s: State, t: State, cmd: ActionCommand, cards: seq<Card>, other: seq<Card>, order: seq<nat>)
    requires Deciding(s) && Deciding(t) && SameButCards(s, t) && Holds(s, cards, order) && Holds(t, other, order)
    requires Act(s, cmd).result.error == Ok && Act(t, cmd).result.error == Ok
    ensures Twins(Played(s, cmd), Played(t, cmd), cards, other, order)
  {
    BlankPlayed(s, cmd);
    BlankPlayed(t, cmd);
    ActCases(s, cmd);
    ActCases(t, cmd);
    PlayedMidHand(s, cmd);
    PlayedMidHand(t, cmd);
    PlayedHolds(s, cmd, cards, order);
    PlayedHolds(t, cmd, other, order);
  }

  lemma ContinueContenders(s: State, from: nat)
    requires CanAdvance(s) && from < |s.seats|
    ensures Contenders(Continue(s, from).seats) == Contenders(s.seats)
  {
    if |Contenders(s.seats)| <= 1 {
      SettleContenders(s, FoldAwards(s.seats, FirstContender(s.seats)));
    } else if RoundComplete(s) {
      AdvanceContenders(s.(actingSeat := None));
    }
  }

  lemma ActReveals(s: State, t: State, cmd: ActionCommand, cards: seq<Card>, other: seq<Card>, order: seq<nat>)
    requires Deciding(s) && Deciding(t) && SameButCards(s, t) && Holds(s, cards, order) && Holds(t, other, order)
    requires Act(s, cmd).result.error == Ok && Act(t, cmd).result.error == Ok
    requires var end := Act(s, cmd).state;
             DecksAgree(cards, other, order, |end.board|, Contenders(end.seats))
    ensures SameButCards(Act(s, cmd).state, Act(t, cmd).state)
  {
    PlayedTwins(s, t, cmd, cards, other, order);
    ActCases(s, cmd);
    ActCases(t, cmd);
    assert s.actingSeat == Blank(s).actingSeat == Blank(t).actingSeat == t.actingSeat;
    ContinueContenders(Played(s, cmd), s.actingSeat.value);
    ContinueReveals(Played(s, cmd), Played(t, cmd), s.actingSeat.value, cards, other, order);
  }

  // ---------- runs ----------

  lemma StepReveals(s: State, t: State, op: Op, cards: seq<Card>, other: seq<Card>, order: seq<nat>)
    requires Inv(s) && Inv(t) && Betting(s.street) && !op.Abort? && SameButCards(s, t)
    requires Holds(s, cards, order) && Holds(t, other, order)
    requires var end := Step(s, op).state;
             end.street == Settled ==> DecksAgree(cards, other, order, |end.board|, Contenders(end.seats))
    ensures Step(s, op).error == Step(t, op).error
    ensures SameButCards(Step(s, op).state, Step(t, op).state)
  {
    TwinStep(s, t, op);
    if Step(s, op).state.street == Settled {
      SettlesByPlay(s, op);
      PlayReveals(s, t, op.cmd, cards, other, order);
    }
  }

  lemma PlayReveals(s: State, t: State, cmd: ActionCommand, cards: seq<Card>, other: seq<Card>, order: seq<nat>)
    requires Deciding(s) && Inv(t) && SameButCards(s, t) && Act(s, cmd).result.error == Ok
    requires Holds(s, cards, order) && Holds(t, other, order)
    requires Act(t, cmd).result.error == Ok
    requires var end := Act(s, cmd).state; DecksAgree(cards, other, order, |end.board|, Contenders(end.seats))
    ensures SameButCards(Act(s, cmd).state, Act(t, cmd).state)
  {
    ActsOnlyDeciding(t, cmd);
    ActReveals(s, t, cmd, cards, other, order);
  }

  /** Only an action settles a hand in progress. */
  lemma SettlesByPlay(s: State, op: Op)
    requires Inv(s) && Betting(s.street) && !op.Abort? && Step(s, op).state.street == Settled
    ensures op.Play? && Step(s, op).error == Ok && Deciding(s)
  {
    if Step(s, op).error != Ok {
      StepInv(s, op);
    } else if op.Play? {
      ActsOnlyDeciding(s, op.cmd);
    } else {
      SeatingQuiet(s, op);
    }
  }

  lemma {:induction false} RunReveals(s: State, t: State, ops: seq<Op>, cards: seq<Card>, other: seq<Card>, order: seq<nat>)
    requires Inv(s) && Inv(t) && WithinHand(s, ops) && SameButCards(s, t)
    requires Holds(s, cards, order) && Holds(t, other, order)
    requires var end := Run(s, ops); DecksAgree(cards, other, order, |end.board|, Contenders(end.seats))
    ensures WithinHand(t, ops) && Answers(s, ops) == Answers(t, ops) && SameButCards(Run(s, ops), Run(t, ops))
    decreases ops
  {
    if ops != [] {
      WithinHandNext(s, ops);
      var u, v := Step(s, ops[0]).state, Step(t, ops[0]).state;
      if u.street == Settled {
        SettledIsLast(u, ops[1..]);
      }
      StepReveals(s, t, ops[0], cards, other, order);
      StepInv(t, ops[0]);
      StepHolds(s, ops[0], cards, order);
      TwinBetting(s, t);
      StepHolds(t, ops[0], other, order);
      RunReveals(u, v, ops[1..], cards, other, order);
    }
  }

  lemma TwinBetting(s: State, t: State)
    requires SameButCards(s, t)
    ensures t.street == s.street
  {
    assert Blank(s).street == Blank(t).street;
  }

  lemma SettledIsLast(s: State, ops: seq<Op>)
    requires Inv(s) && WithinHand(s, ops) && s.street == Settled
    ensures ops == [] && Run(s, ops) == s
  {}

  // ---------- the start ----------

  lemma BeginReveals(s: State, cards: seq<Card>, other: seq<Card>)
    requires CanOpen(s, cards) && CanOpen(s, other) && ConfigOk(s.config) && |ReadySeats(s.seats)| >= 2
    requires var end := Begin(s, cards);
             && |DealOrder(s)| <= 6
             && (end.street == Settled ==> DecksAgree(cards, other, DealOrder(s), |end.board|, Contenders(end.seats)))
    ensures SameButCards(Begin(s, cards), Begin(s, other))
  {
    TwinBegin(s, cards, other);
    if Begin(s, cards).street == Settled {
      var u := BeginIsBegun(s, cards);
      var v := BeginIsBegun(s, other);
      OpenedHolds(s, cards);
      OpenedHolds(s, other);
      OpenedSame(s, cards, other);
      var at, order := PositionsOf(s), DealOrder(s);
      ActorAlike(Opened(s, cards), Opened(s, other), u, v);
      ActorHolds(Opened(s, cards), u, cards, order);
      ActorHolds(Opened(s, other), v, other, order);
      BegunReveals(s, u, v, at, Begin(s, cards), Begin(s, other), cards, other, order);
    }
  }

  /** Alike when nobody is asked to act. */
  ghost predicate QuietlyAlike(u: State, v: State) {
    SameButCards(u.(pending := {}, actingSeat := None), v.(pending := {}, actingSeat := None))
  }

  lemma ActorAlike(x: State, y: State, u: State, v: State)
    requires SameButCards(x, y)
    requires u == x.(pending := u.pending, actingSeat := u.actingSeat) && v == y.(pending := v.pending, actingSeat := v.actingSeat)
    ensures QuietlyAlike(u, v)
  {
    assert Blank(u.(pending := {}, actingSeat := None)) == Blank(x).(pending := {}, actingSeat := None);
    assert Blank(v.(pending := {}, actingSeat := None)) == Blank(y).(pending := {}, actingSeat := None);
  }

  lemma BegunReveals(s: State, u: State, v: State, at: Positions, a: State, b: State, cards: seq<Card>, other: seq<Card>,
                     order: seq<nat>)
    requires IsBegun(s, u, at, a) && IsBegun(s, v, at, b) && a.street == Settled
    requires QuietlyAlike(u, v) && Holds(u, cards, order) && Holds(v, other, order)
    requires DecksAgree(cards, other, order, |a.board|, Contenders(a.seats))
    ensures SameButCards(a, b)
  {
    OpeningInHand(s, u, at);
    OpeningInHand(s, v, at);
    SameCourse(u.(pending := {}, actingSeat := None), v.(pending := {}, actingSeat := None));
    if |Able(u.seats)| <= 1 {
      AdvanceContenders(u);
      AdvanceReveals(u, v, cards, other, order);
    }
  }

  // ---------- who holds cards ----------

  /** Whoever holds cards was dealt in. */
  ghost predicate HoldersDealtIn(seats: Seats) {
    forall i :: Taken(seats, i) && seats[i].value.hasHole ==> IsParticipant(seats[i].value)
  }

  lemma InHandHolders(s: State)
    requires InHand(s)
    ensures HoldersDealtIn(s.seats)
  {
    assert forall i :: Taken(s.seats, i) ==> PlayerOk(s.seats[i].value);
  }

  lemma SettleHolders(s: State, awards: seq<PotAward>)
    requires HoldersDealtIn(s.seats)
    ensures HoldersDealtIn(Settle(s, awards).seats)
  {
    var t := Settle(s, awards).seats;
    assert forall i :: Taken(t, i) ==> Taken(s.seats, i);
  }

  lemma {:induction false} AdvanceHolders(s: State)
    requires InHand(s) && CanAdvance(s)
    ensures HoldersDealtIn(Advance(s).seats)
    decreases StreetsLeft(s.street)
  {
    InHandHolders(s);
    if |Contenders(s.seats)| <= 1 {
      SettleHolders(s, FoldAwards(s.seats, FirstContender(s.seats)));
    } else if RoundComplete(s) && s.street == River {
      SettleHolders(s, ShowdownAwards(s.seats, s.board, s.dealerSeat.value));
    } else if RoundComplete(s) {
      AdvanceStreetMidHand(s);
      ClearStreetKeeps(s.seats);
      var t := AdvanceStreet(s);
      InHandHolders(t);
      if |Able(t.seats)| <= 1 {
        BoundedCards(t);
        AdvanceHolders(t.(pending := {}, actingSeat := None));
      }
    }
  }

  lemma ActHolders(s: State, cmd: ActionCommand)
    requires Deciding(s) && Act(s, cmd).result.error == Ok
    ensures HoldersDealtIn(Act(s, cmd).state.seats)
  {
    ActCases(s, cmd);
    PlayedMidHand(s, cmd);
    var p := Played(s, cmd);
    InHandHolders(p);
    if |Contenders(p.seats)| <= 1 {
      SettleHolders(p, FoldAwards(p.seats, FirstContender(p.seats)));
    } else if RoundComplete(p) {
      AdvanceHolders(p.(actingSeat := None));
    }
  }

  lemma {:induction false} RunHolders(s: State, ops: seq<Op>)
    requires Inv(s) && WithinHand(s, ops) && HoldersDealtIn(s.seats)
    ensures HoldersDealtIn(Run(s, ops).seats)
    decreases ops
  {
    if ops != [] {
      WithinHandNext(s, ops);
      var t := Step(s, ops[0]).state;
      if t.street == Settled {
        SettlesByPlay(s, ops[0]);
        ActHolders(s, ops[0].cmd);
      } else {
        StreetStays(s, ops[0]);
        InHandHolders(t);
      }
      RunHolders(t, ops[1..]);
    }
  }

  /** A hand in progress that an operation does not settle is still in progress. */
  lemma StreetStays(s: State, op: Op)
    requires Inv(s) && Betting(s.street) && !op.Abort? && Step(s, op).state.street != Settled
    ensures InHand(Step(s, op).state)
  {
    StepInv(s, op);
    if Step(s, op).error == Ok {
      if op.Play? {
        ActsOnlyDeciding(s, op.cmd);
        ActProgress(s, op.cmd);
      } else {
        SeatingQuiet(s, op);
      }
    }
  }

  lemma StartHolders(s: State, cards: seq<Card>)
    requires Resting(s) && StartHand(s, cards).error == Ok
    ensures HoldersDealtIn(StartHand(s, cards).state.seats)
  {
    EnoughCanOpen(s, cards);
    var t := BeginIsBegun(s, cards);
    OpeningInHand(s, t, PositionsOf(s));
    InHandHolders(t);
    if |Able(t.seats)| <= 1 {
      AdvanceHolders(t);
    }
  }

  // ---------- the theorem ----------

  lemma SettledViews(s: State, t: State, cards: seq<Card>, other: seq<Card>, order: seq<nat>, viewer: Option<PlayerId>)
    requires SameButCards(s, t) && HoldersDealtIn(s.seats) && Holds(s, cards, order) && Holds(t, other, order)
    requires DecksAgree(cards, other, order, |s.board|, Contenders(s.seats))
    requires AgreeForViewer(s.seats, cards, other, order, viewer)
    ensures SnapshotFor(s, viewer) == SnapshotFor(t, viewer)
  {
    TwinBoard(s, t, cards, other, order);
    forall i | Taken(s.seats, i) && Taken(t.seats, i) && Shows(s.street, s.seats[i].value, viewer)
      ensures s.seats[i].value.hole == t.seats[i].value.hole
    {
      assert i in Participants(s.seats);
      if viewer == Some(s.seats[i].value.id) {
        TwinHole(s, t, cards, other, order, viewer, i);
      } else {
        SameHole(s, t, cards, other, order, Contenders(s.seats), i);
      }
    }
    SameSnapshot(s, t, viewer);
  }

  /** The decks agree on all that the viewer is to see at the end of a run, and on all that decides the hand. */
  ghost predicate SameForViewer(s: State, end: State, cards: seq<Card>, other: seq<Card>, viewer: Option<PlayerId>)
    requires SeatsOk(s) && ReadySeats(s.seats) != {} && |DealOrder(s)| <= 6 && |cards| == 52 && |other| == 52
  {
    && DecksAgree(cards, other, DealOrder(s), |end.board|, Contenders(end.seats))
    && AgreeForViewer(end.seats, cards, other, DealOrder(s), viewer)
  }

  /**
   A settled hand shows no card of anybody who folded: the same operations on the same table,
   dealt from two decks that agree on the viewer's cards, on the board, and on the cards of
   everybody who did not fold, are answered the same and end in the same snapshot.
   */
  lemma FoldedCardsStayHidden(s: State, cards: seq<Card>, other: seq<Card>, ops: seq<Op>, viewer: Option<PlayerId>)
    requires Resting(s) && StartHand(s, cards).error == Ok && ValidDeck(other)
    requires Inv(StartHand(s, cards).state) && Inv(StartHand(s, other).state)
    requires WithinHand(StartHand(s, cards).state, ops) && Run(StartHand(s, cards).state, ops).street == Settled
    requires ReadySeats(s.seats) != {} && |DealOrder(s)| <= 6 && |cards| == 52
    requires SameForViewer(s, Run(StartHand(s, cards).state, ops), cards, other, viewer)
    ensures var a, b := StartHand(s, cards).state, StartHand(s, other).state;
            Answers(a, ops) == Answers(b, ops) && SnapshotFor(Run(a, ops), viewer) == SnapshotFor(Run(b, ops), viewer)
  {
    var a, b := StartHand(s, cards).state, StartHand(s, other).state;
    var order := DealOrder(s);
    EnoughCanOpen(s, cards);
    EnoughCanOpen(s, other);
    if a.street == Settled {
      SettledIsLast(a, ops);
    }
    BeginReveals(s, cards, other);
    BeginHolds(s, cards);
    BeginHolds(s, other);
    EndsAlike(a, b, ops, cards, other, order);
    StartHolders(s, cards);
    RunHolders(a, ops);
    SettledViews(Run(a, ops), Run(b, ops), cards, other, order, viewer);
  }

  lemma EndsAlike(a: State, b: State, ops: seq<Op>, cards: seq<Card>, other: seq<Card>, order: seq<nat>)
    requires Inv(a) && Inv(b) && WithinHand(a, ops) && SameButCards(a, b)
    requires Holds(a, cards, order) && Holds(b, other, order)
    requires var end := Run(a, ops); DecksAgree(cards, other, order, |end.board|, Contenders(end.seats))
    ensures Answers(a, ops) == Answers(b, ops) && SameButCards(Run(a, ops), Run(b, ops))
    ensures Holds(Run(a, ops), cards, order) && Holds(Run(b, ops), other, order)
  {
    RunReveals(a, b, ops, cards, other, order);
    RunHolds(a, ops, cards, order);
    RunHolds(b, ops, other, order);
  }
}
