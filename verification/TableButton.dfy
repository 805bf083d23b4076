/** Where the button, the blinds and the cards go at the start of a hand, and how the button travels. */
module TableButton {
  import opened Wrappers
  import opened Sums
  import opened Cards
  import opened Clockwise
  import opened TableModel
  import opened TableInvariant
  import opened TableStart
  import opened TableAccounting
  import opened TableRuns
  import opened TableCards
  import opened TableTurns
  import TableUndo
  import TableSettled
  import Pots

  /** The player on seat `i` is ready to play and has chips. */
  ghost predicate ReadyAt(s: State, i: nat) {
    i < |s.seats| && s.seats[i].Some? && s.seats[i].value.ready && s.seats[i].value.stack > 0
  }

  /** Going clockwise from the seat after `from`, `b` is the first ready seat. */
  ghost predicate FirstReady(s: State, from: nat, b: nat) {
    && ReadyAt(s, b)
    && exists k :: 1 <= k <= |s.seats| && b == Ahead(|s.seats|, from, k)
                   && forall j :: 0 < j < k ==> !ReadyAt(s, Ahead(|s.seats|, from, j))
  }

  lemma NextIsReady(s: State, from: nat)
    requires from < |s.seats| && Next(ReadySeats(s.seats), |s.seats|, from).Some?
    ensures FirstReady(s, from, Next(ReadySeats(s.seats), |s.seats|, from).value)
  {
    var n := |s.seats|;
    var b := Next(ReadySeats(s.seats), n, from).value;
    var k := Distance(n, from, b);
    forall j | 0 < j < k
      ensures !ReadyAt(s, Ahead(n, from, j))
    {
      var i := Ahead(n, from, j);
      DistanceUnique(n, from, j);
      assert SeatAt(n, from, j) == i;
      if i in ReadySeats(s.seats) {
        NextNearest(ReadySeats(s.seats), n, from, i);
      }
    }
    assert SeatAt(n, from, k) == Ahead(n, from, k);
  }

  // ---------- what a hand in progress never changes ----------

  /** Button, hand number and commitments stay; the sequence does not fall. */
  ghost predicate KeepsCourse(s: State, t: State) {
    && t.dealerSeat == s.dealerSeat && t.handId == s.handId && s.serverSequence <= t.serverSequence
    && Commitments(t.seats) == Commitments(s.seats)
  }

  lemma {:induction false} AdvanceKeepsCourse(s: State)
    requires CanAdvance(s)
    ensures KeepsCourse(s, Advance(s))
    decreases StreetsLeft(s.street)
  {
    if |Contenders(s.seats)| <= 1 {
      SettleKeeps(s, FoldAwards(s.seats, FirstContender(s.seats)));
    } else if RoundComplete(s) && s.street == River {
      SettleKeeps(s, ShowdownAwards(s.seats, s.board, s.dealerSeat.value));
    } else if RoundComplete(s) {
      var t := AdvanceStreet(s);
      ClearStreetKeeps(s.seats);
      assert Commitments(t.seats) == Commitments(s.seats);
      if |Able(t.seats)| <= 1 {
        AdvanceKeepsCourse(t.(pending := {}, actingSeat := None));
      }
    }
  }

  lemma ContinueKeepsCourse(s: State, from: nat)
    requires CanAdvance(s) && from < |s.seats|
    ensures KeepsCourse(s, Continue(s, from))
  {
    if |Contenders(s.seats)| <= 1 {
      SettleKeeps(s, FoldAwards(s.seats, FirstContender(s.seats)));
    } else if RoundComplete(s) {
      AdvanceKeepsCourse(s.(actingSeat := None));
    }
  }

  lemma ActKeepsCourse(s: State, cmd: ActionCommand)
    requires Deciding(s) && Act(s, cmd).result.error == Ok
    ensures var t := Act(s, cmd).state;
            && t.dealerSeat == s.dealerSeat && t.handId == s.handId && s.serverSequence < t.serverSequence
            && Commitments(t.seats) == Commitments(Played(s, cmd).seats)
  {
    ActCases(s, cmd);
    ContinueKeepsCourse(Played(s, cmd), s.actingSeat.value);
  }

  // ---------- the start of a hand ----------

  lemma BegunKeepsCourse(s: State, t: State, at: Positions, r: State)
    requires IsBegun(s, t, at, r)
    ensures KeepsCourse(t, r)
  {
    if |Able(t.seats)| <= 1 {
      AdvanceKeepsCourse(t);
    }
  }

  /** What the opening of a hand fixes for good: the button, the blinds, the hand number. */
  lemma StartCourse(s: State, cards: seq<Card>) returns (t: State)
    requires Resting(s) && StartHand(s, cards).error == Ok
    ensures CanOpen(s, cards) && ConfigOk(s.config) && |ReadySeats(s.seats)| >= 2
    ensures IsOpening(s, t, PositionsOf(s)) && KeepsCourse(t, StartHand(s, cards).state)
    ensures t.handId == s.handId + 1 && t.serverSequence == s.serverSequence + 1
  {
    EnoughCanOpen(s, cards);
    t := BeginIsBegun(s, cards);
    BegunKeepsCourse(s, t, PositionsOf(s), Begin(s, cards));
  }

  /** Where the button goes, told on the seats before the hand. */
  ghost predicate ButtonGoesTo(s: State, d: nat) {
    && ReadyAt(s, d)
    && (s.dealerSeat.Some? ==> FirstReady(s, s.dealerSeat.value, d))
    && (s.dealerSeat.None? ==> forall i :: 0 <= i < d ==> !ReadyAt(s, i))
  }

  lemma DealerChosen(s: State)
    requires SeatsOk(s) && ReadySeats(s.seats) != {}
    ensures ButtonGoesTo(s, PositionsOf(s).dealer)
  {
    var n := |s.seats|;
    var d := NextDealer(s);
    var from := if s.dealerSeat.Some? then s.dealerSeat.value else n - 1;
    NextIsReady(s, from);
    if s.dealerSeat.None? {
      forall i: nat | i < d
        ensures !ReadyAt(s, i)
      {
        if i in ReadySeats(s.seats) {
          NextNearest(ReadySeats(s.seats), n, from, i);
        }
      }
    }
  }

  /**
   The button moves clockwise to the first ready player after its old seat, or goes to the
   lowest ready seat when it had none.
   */
  lemma ButtonMoves(s: State, cards: seq<Card>)
    requires Resting(s) && StartHand(s, cards).error == Ok
    ensures var r := StartHand(s, cards).state; r.dealerSeat.Some? && ButtonGoesTo(s, r.dealerSeat.value)
  {
    var t := StartCourse(s, cards);
    DealerChosen(s);
  }

  /** So it moves whenever somebody else is ready. */
  lemma ButtonLeaves(s: State, was: nat, d: nat, i: nat)
    requires s.dealerSeat == Some(was) && was < |s.seats| && ButtonGoesTo(s, d) && ReadyAt(s, i) && i != was
    ensures d != was
  {
    var n := |s.seats|;
    var k :| 1 <= k <= n && d == Ahead(n, was, k) && forall j :: 0 < j < k ==> !ReadyAt(s, Ahead(n, was, j));
    var j := Distance(n, was, i);
    assert SeatAt(n, was, j) == Ahead(n, was, j) == i;
    assert k <= j < n;
    assert SeatAt(n, was, k) == d;
    DistanceUnique(n, was, k);
    DistanceUnique(n, was, n);
  }

  /**
   With two players the dealer owes the small blind; with more, the first ready player after
   the dealer. The next ready player owes the big blind. Everybody has put in exactly the
   blind owed, or the whole stack if that is less, and nobody else anything. If somebody is
   to act, it is the first player after the big blind who can.
   */
  lemma BlindsAndFirstActor(s: State, cards: seq<Card>) returns (small: nat, big: nat)
    requires Resting(s) && StartHand(s, cards).error == Ok
    ensures var r := StartHand(s, cards).state;
            && r.dealerSeat.Some? && |r.seats| == |s.seats|
            && (if |ReadySeats(s.seats)| == 2 then small == r.dealerSeat.value
                else FirstReady(s, r.dealerSeat.value, small))
            && FirstReady(s, small, big) && small != big
            && (forall i: nat :: ReadyAt(s, i) ==>
                  && r.seats[i].Some?
                  && r.seats[i].value.handCommitment ==
                     Min(if i == big then s.config.bigBlind else if i == small then s.config.smallBlind else 0,
                         s.seats[i].value.stack))
            && (forall i: nat :: i < |s.seats| && r.seats[i].Some? && !ReadyAt(s, i) ==>
                  r.seats[i].value.handCommitment == 0)
            && (Deciding(r) ==> FirstOwing(r, big, r.actingSeat.value))
  {
    var t := StartCourse(s, cards);
    var r := StartHand(s, cards).state;
    var at := PositionsOf(s);
    small, big := at.small, at.big;
    NextIsReady(s, at.dealer);
    NextIsReady(s, at.small);
    StartSeatsStay(s, cards);
    forall i: nat | i < |s.seats| && r.seats[i].Some?
      ensures r.seats[i].value.handCommitment == if ReadyAt(s, i) then Posts(s, at, i) else 0
    {
      OpenedCommitment(s, t, at, i);
      assert Commitments(r.seats)[i] == Commitments(t.seats)[i];
    }
    if Deciding(r) {
      StartTurn(s, cards);
      NearestIsFirst(r, big, r.actingSeat.value);
    }
  }

  lemma OpenedCommitment(s: State, t: State, at: Positions, i: nat)
    requires IsOpening(s, t, at) && i < |s.seats| && s.seats[i].Some?
    ensures t.seats[i].Some?
    ensures t.seats[i].value.handCommitment == if ReadyAt(s, i) then Posts(s, at, i) else 0
  {
    assert OpenedPlayer(s.seats[i].value, t.seats[i].value);
  }

  lemma StartSeatsStay(s: State, cards: seq<Card>)
    requires Resting(s) && StartHand(s, cards).error == Ok
    ensures var r := StartHand(s, cards).state;
            |r.seats| == |s.seats| && forall i :: 0 <= i < |s.seats| ==> (r.seats[i].Some? <==> s.seats[i].Some?)
  {
    TableUndo.StartStakes(s, cards);
  }

  // ---------- who gets which cards ----------

  /** The ready seats met before seat `i` going clockwise from the seat after `d`. */
  ghost function ServedBefore(s: State, d: nat, i: nat): set<nat>
    requires d < |s.seats| && i < |s.seats|
  {
    set j: nat | j < |s.seats| && ReadyAt(s, j) && Distance(|s.seats|, d, j) < Distance(|s.seats|, d, i)
  }

  lemma DealPlace(s: State, k: nat)
    requires SeatsOk(s) && ReadySeats(s.seats) != {} && k < |DealOrder(s)|
    ensures var i := DealOrder(s)[k];
            ReadyAt(s, i) && |ServedBefore(s, PositionsOf(s).dealer, i)| == k
  {
    var n, d, ready := |s.seats|, PositionsOf(s).dealer, ReadySeats(s.seats);
    var o := DealOrder(s);
    OrderSize(ready, n, d);
    OrderMembers(ready, n, d);
    Pots.AheadCount(o, n, d, ready, k);
    assert ServedBefore(s, d, o[k]) == set j | j in ready && Distance(n, d, j) < Distance(n, d, o[k]);
  }

  /** The player on seat `i` of `r` holds the cards that dealing from the dealer's left gives. */
  ghost predicate ServedInTurn(s: State, r: State, cards: seq<Card>, i: nat) {
    && r.dealerSeat.Some? && r.dealerSeat.value < |s.seats| && i < |s.seats| && i < |r.seats| && r.seats[i].Some?
    && var k := |ServedBefore(s, r.dealerSeat.value, i)|;
       var m := |ReadySeats(s.seats)|;
       && m + k < |cards|
       && r.seats[i].value.hasHole && r.seats[i].value.hole == (cards[k], cards[m + k])
  }

  lemma DealtInTurn(s: State, r: State, cards: seq<Card>, i: nat)
    requires CanOpen(s, cards) && ReadyAt(s, i)
    requires Holds(r, cards, DealOrder(s)) && r.dealerSeat == Some(PositionsOf(s).dealer)
    ensures ServedInTurn(s, r, cards, i)
  {
    var k := PlaceOf(s, cards, i);
    HeldAt(r, cards, DealOrder(s), k);
  }

  lemma BegunCards(s: State, cards: seq<Card>)
    requires CanOpen(s, cards) && ConfigOk(s.config) && |ReadySeats(s.seats)| >= 2
    ensures Holds(Begin(s, cards), cards, DealOrder(s)) && Begin(s, cards).dealerSeat == Some(PositionsOf(s).dealer)
  {
    var t := BeginIsBegun(s, cards);
    BegunKeepsCourse(s, t, PositionsOf(s), Begin(s, cards));
    BeginHolds(s, cards);
  }

  /**
   Cards are dealt one at a time, clockwise from the dealer's left, in two rounds: with m
   players, whoever is served after k others in a round holds the k-th and the (m+k)-th card.
   */
  lemma DealtClockwise(s: State, cards: seq<Card>, i: nat) returns (r: State)
    requires Resting(s) && StartHand(s, cards).error == Ok && ReadyAt(s, i)
    ensures StartHand(s, cards) == Outcome(r, Ok) && ServedInTurn(s, r, cards, i)
  {
    EnoughCanOpen(s, cards);
    BegunCards(s, cards);
    r := Begin(s, cards);
    DealtInTurn(s, r, cards, i);
  }

  lemma PlaceOf(s: State, cards: seq<Card>, i: nat) returns (k: nat)
    requires CanOpen(s, cards) && ReadyAt(s, i)
    ensures k < |DealOrder(s)| == |ReadySeats(s.seats)| && DealOrder(s)[k] == i
    ensures |ServedBefore(s, PositionsOf(s).dealer, i)| == k
  {
    DealtHoles(s, cards);
    var o := DealOrder(s);
    assert i in ToSet(o);
    k :| 0 <= k < |o| && o[k] == i;
    DealPlace(s, k);
  }

  lemma HeldAt(r: State, cards: seq<Card>, order: seq<nat>, k: nat)
    requires Holds(r, cards, order) && k < |order|
    ensures Taken(r.seats, order[k]) && r.seats[order[k]].value.hasHole && 2 * |order| <= |cards|
    ensures r.seats[order[k]].value.hole == (cards[k], cards[|order| + k])
  {}

  // ---------- numbers ----------

  /** Hands are numbered one by one, and every accepted operation, and no other, raises the sequence. */
  lemma StepNumbers(s: State, op: Op)
    requires Inv(s)
    ensures var t := Step(s, op).state;
            && t.handId == s.handId + (if op.Start? && Step(s, op).error == Ok then 1 else 0)
            && (if Step(s, op).error == Ok then s.serverSequence < t.serverSequence else t.serverSequence == s.serverSequence)
  {
    if Step(s, op).error != Ok {
      StepInv(s, op);
    } else if op.Start? {
      NotRunningRests(s);
      var t := StartCourse(s, op.cards);
    } else if op.Play? {
      ActsOnlyDeciding(s, op.cmd);
      ActKeepsCourse(s, op.cmd);
    }
  }

  ghost function HandsStarted(s: State, ops: seq<Op>): nat
    requires Inv(s)
    decreases ops
  {
    if ops == [] then 0
    else
      StepInv(s, ops[0]);
      (if ops[0].Start? && Step(s, ops[0]).error == Ok then 1 else 0) + HandsStarted(Step(s, ops[0]).state, ops[1..])
  }

  /** Over a run, the hand number counts the hands started; the sequence never falls. */
  lemma {:induction false} RunNumbers(s: State, ops: seq<Op>)
    requires Inv(s)
    ensures Run(s, ops).handId == s.handId + HandsStarted(s, ops)
    ensures s.serverSequence <= Run(s, ops).serverSequence
    decreases ops
  {
    if ops != [] {
      StepInv(s, ops[0]);
      StepNumbers(s, ops[0]);
      RunNumbers(Step(s, ops[0]).state, ops[1..]);
    }
  }

  /** The answer to an action carries the new sequence, the street it was taken on, and the awards if it settled the hand. */
  lemma ActReports(s: State, cmd: ActionCommand)
    requires Deciding(s) && Act(s, cmd).result.error == Ok
    ensures var r, t := Act(s, cmd).result, Act(s, cmd).state;
            && s.serverSequence < r.serverSequence == t.serverSequence && r.actionStreet == s.street
            && (t.street == Settled ==> r.awards == t.lastAwards) && (t.street != Settled ==> r.awards == [])
  {
    ActKeepsCourse(s, cmd);
  }

  // ---------- the button over many hands ----------

  /** The seats that had the button, one per hand started. */
  ghost function Dealers(s: State, ops: seq<Op>): seq<nat>
    requires Inv(s)
    decreases ops
  {
    if ops == [] then []
    else
      StepInv(s, ops[0]);
      var t := Step(s, ops[0]).state;
      (if ops[0].Start? && Step(s, ops[0]).error == Ok && t.dealerSeat.Some? then [t.dealerSeat.value] else [])
      + Dealers(t, ops[1..])
  }

  /** The same players are ready at every start, and the player with the button does not leave. */
  ghost predicate FixedPlayers(s: State, ops: seq<Op>, ready: set<nat>)
    requires Inv(s)
    decreases ops
  {
    ops == [] ||
    (StepInv(s, ops[0]);
     && (ops[0].Start? && Step(s, ops[0]).error == Ok ==> ReadySeats(s.seats) == ready)
     && (ops[0].Leave? && Step(s, ops[0]).error == Ok ==> SeatOf(s.seats, ops[0].id) != s.dealerSeat)
     && FixedPlayers(Step(s, ops[0]).state, ops[1..], ready))
  }

  /** `y` is the first of `a` clockwise from `x`. */
  ghost predicate Passes(a: set<nat>, n: nat, x: nat, y: nat) {
    x < n && y in a && Next(a, n, x) == Some(y)
  }

  /** Each seat of the list is the first of `a` clockwise from the one before it. */
  ghost predicate Rotates(ds: seq<nat>, a: set<nat>, n: nat) {
    |ds| <= 1 || (Passes(a, n, ds[0], ds[1]) && Rotates(ds[1..], a, n))
  }

  lemma {:induction false} RotatesAt(ds: seq<nat>, a: set<nat>, n: nat, k: nat)
    requires Rotates(ds, a, n) && k + 1 < |ds|
    ensures Passes(a, n, ds[k], ds[k + 1])
  {
    if k > 0 {
      RotatesAt(ds[1..], a, n, k - 1);
    }
  }

  lemma {:induction false} RotatesPart(ds: seq<nat>, a: set<nat>, n: nat, i: nat, j: nat)
    requires Rotates(ds, a, n) && i <= j <= |ds|
    ensures Rotates(ds[i..j], a, n)
    decreases j - i
  {
    if j - i > 1 {
      RotatesAt(ds, a, n, i);
      RotatesPart(ds, a, n, i + 1, j);
      assert ds[i..j][1..] == ds[i + 1..j];
    }
  }

  lemma StepDealer(s: State, op: Op)
    requires Inv(s)
    ensures !op.Start? && !(op.Leave? && Step(s, op).error == Ok && SeatOf(s.seats, op.id) == s.dealerSeat) ==>
              Step(s, op).state.dealerSeat == s.dealerSeat
    ensures op.Start? && Step(s, op).error == Ok ==>
              Resting(s) && ReadySeats(s.seats) != {} && Step(s, op).state.dealerSeat == Some(PositionsOf(s).dealer)
    ensures |Step(s, op).state.seats| == |s.seats|
  {
    StepSizes(s, op);
    if Step(s, op).error != Ok {
      StepInv(s, op);
    } else if op.Start? {
      NotRunningRests(s);
      var t := StartCourse(s, op.cards);
    } else if op.Play? {
      ActsOnlyDeciding(s, op.cmd);
      ActKeepsCourse(s, op.cmd);
    }
  }

  lemma StepSizes(s: State, op: Op)
    requires Inv(s)
    ensures |Step(s, op).state.seats| == |s.seats|
  {
    TableSettled.StepSize(s, op);
  }

  /** The button goes from ready player to ready player, clockwise, hand after hand. */
  lemma {:induction false} DealersRotate(s: State, ops: seq<Op>, ready: set<nat>)
    requires Inv(s) && FixedPlayers(s, ops, ready)
    ensures var ds := Dealers(s, ops);
            && Rotates(ds, ready, |s.seats|)
            && (forall k :: 0 <= k < |ds| ==> ds[k] in ready && ds[k] < |s.seats|)
            && (ds != [] && s.dealerSeat.Some? ==>
                  s.dealerSeat.value < |s.seats| && Next(ready, |s.seats|, s.dealerSeat.value) == Some(ds[0]))
    decreases ops
  {
    if ops != [] {
      StepInv(s, ops[0]);
      StepDealer(s, ops[0]);
      var t := Step(s, ops[0]).state;
      DealersRotate(t, ops[1..], ready);
      DealerInRange(s);
      var rest := Dealers(t, ops[1..]);
      if ops[0].Start? && Step(s, ops[0]).error == Ok {
        RotatesMore(t.dealerSeat.value, rest, ready, |s.seats|);
      } else {
        assert Dealers(s, ops) == rest;
      }
    }
  }

  lemma DealerInRange(s: State)
    requires Inv(s)
    ensures s.dealerSeat.Some? ==> s.dealerSeat.value < |s.seats|
  {}

  lemma RotatesMore(d: nat, rest: seq<nat>, a: set<nat>, n: nat)
    requires d < n && Rotates(rest, a, n) && (rest != [] ==> rest[0] in a && Next(a, n, d) == Some(rest[0]))
    ensures Rotates([d] + rest, a, n)
  {
    assert ([d] + rest)[1..] == rest;
  }

  /** A list that rotates follows the clockwise order of the set, starting after its first seat. */
  lemma {:induction false} RotationFollowsOrder(ds: seq<nat>, a: set<nat>, n: nat, k: nat)
    requires Rotates(ds, a, n) && 0 < k < |ds| <= |a| && ds[0] in a && ds[0] < n && forall i :: i in a ==> i < n
    ensures |Order(a, n, ds[0])| == |a| && ds[k] == Order(a, n, ds[0])[k - 1]
    decreases k
  {
    OrderSize(a, n, ds[0]);
    RotatesAt(ds, a, n, k - 1);
    if k > 1 {
      RotationFollowsOrder(ds, a, n, k - 1);
      NextInOrder(a, n, ds[0], k - 2);
    } else {
      OriginLast(a, n, ds[0]);
      NextInOrder(a, n, ds[0], |Order(a, n, ds[0])| - 1);
    }
  }

  /** Going round: as many hands as players give every player the button exactly once. */
  lemma EverybodyDeals(ds: seq<nat>, a: set<nat>, n: nat)
    requires Rotates(ds, a, n) && |ds| == |a| > 0 && ds[0] in a && forall i :: i in a ==> i < n
    ensures Distinct(ds) && ToSet(ds) == a
  {
    var o := Order(a, n, ds[0]);
    var last := |o| - 1;
    OrderSize(a, n, ds[0]);
    OriginLast(a, n, ds[0]);
    forall k | 0 < k < |ds|
      ensures ds[k] == o[k - 1]
    {
      RotationFollowsOrder(ds, a, n, k);
    }
    assert ds == [o[last]] + o[..last];
    LastFirst(o);
  }

  /** Taking the last element to the front keeps a list's members. */
  lemma LastFirst(o: seq<nat>)
    requires Distinct(o) && o != []
    ensures var ds := [o[|o| - 1]] + o[..|o| - 1]; Distinct(ds) && ToSet(ds) == ToSet(o)
  {
    var last := |o| - 1;
    var ds := [o[last]] + o[..last];
    assert forall k :: 0 < k < |ds| ==> ds[k] == o[k - 1];
    assert o == o[..last] + [o[last]];
    assert forall x :: x in ds <==> x in o;
  }

  lemma OriginLast(a: set<nat>, n: nat, d: nat)
    requires d in a && d < n && forall i :: i in a ==> i < n
    ensures |Order(a, n, d)| > 0 && Order(a, n, d)[|Order(a, n, d)| - 1] == d
  {
    var o := Order(a, n, d);
    OrderMembers(a, n, d);
    assert d in o;
    var k :| 0 <= k < |o| && o[k] == d;
    assert Distance(n, d, d) == n;
  }

  /**
   While the same players keep playing, any stretch of as many hands as there are players
   gives each of them the button exactly once.
   */
  lemma ButtonGoesRound(s: State, ops: seq<Op>, ready: set<nat>, from: nat)
    requires Inv(s) && FixedPlayers(s, ops, ready) && ready != {}
    requires from + |ready| <= |Dealers(s, ops)|
    ensures var round := Dealers(s, ops)[from..from + |ready|];
            Distinct(round) && ToSet(round) == ready
  {
    DealersRotate(s, ops, ready);
    ReadyInRange(s, ops, ready);
    RoundOf(Dealers(s, ops), ready, |s.seats|, from);
  }

  lemma RoundOf(ds: seq<nat>, a: set<nat>, n: nat, from: nat)
    requires Rotates(ds, a, n) && a != {} && from + |a| <= |ds|
    requires (forall k :: 0 <= k < |ds| ==> ds[k] in a) && forall i :: i in a ==> i < n
    ensures var round := ds[from..from + |a|]; Distinct(round) && ToSet(round) == a
  {
    var round := ds[from..from + |a|];
    RotatesPart(ds, a, n, from, from + |a|);
    assert round[0] == ds[from];
    EverybodyDeals(round, a, n);
  }

  lemma {:induction false} ReadyInRange(s: State, ops: seq<Op>, ready: set<nat>)
    requires Inv(s) && FixedPlayers(s, ops, ready) && Dealers(s, ops) != []
    ensures forall i :: i in ready ==> i < |s.seats|
    decreases ops
  {
    if ops != [] && !(ops[0].Start? && Step(s, ops[0]).error == Ok) {
      StepInv(s, ops[0]);
      StepSizes(s, ops[0]);
      ReadyInRange(Step(s, ops[0]).state, ops[1..], ready);
    }
  }
}
