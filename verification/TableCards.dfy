/** Where every card of the deck is during a hand. */
module TableCards {
  import opened Wrappers
  import opened Cards
  import opened Clockwise
  import opened TableModel
  import opened TableInvariant
  import opened TableStart
  import opened TableRuns

  /** The board of a given size when `m` players were dealt in: one card is burnt before each street. */
  ghost function BoardOf(cards: seq<Card>, m: nat, size: nat): seq<Card>
    requires 2 * m + 8 <= |cards|
  {
    (if size >= 3 then cards[2 * m + 1..2 * m + 4] else [])
    + (if size >= 4 then [cards[2 * m + 5]] else [])
    + (if size >= 5 then [cards[2 * m + 7]] else [])
  }

  /** The cards burnt by the time the board has the given size. */
  ghost function BurnsOf(cards: seq<Card>, m: nat, size: nat): seq<Card>
    requires 2 * m + 8 <= |cards|
  {
    (if size >= 3 then [cards[2 * m]] else [])
    + (if size >= 4 then [cards[2 * m + 4]] else [])
    + (if size >= 5 then [cards[2 * m + 6]] else [])
  }

  /** Cards taken from the deck by the time the board has the given size. */
  function UsedFor(m: nat, size: nat): nat {
    2 * m + if size >= 5 then 8 else if size >= 4 then 6 else if size >= 3 then 4 else 0
  }

  /**
   The deck is `cards`; the players on the seats of `order` hold its first cards, dealt in two
   rounds in that order; the board is what was turned up after them.
   */
  ghost predicate Holds(s: State, cards: seq<Card>, order: seq<nat>) {
    && |cards| == 52 && |order| <= 6
    && Participants(s.seats) == ToSet(order) && |Participants(s.seats)| == |order|
    && (forall k :: 0 <= k < |order| ==>
          Taken(s.seats, order[k]) && s.seats[order[k]].value.hasHole
          && s.seats[order[k]].value.hole == (cards[k], cards[|order| + k]))
    && |s.board| in {0, 3, 4, 5}
    && s.board == BoardOf(cards, |order|, |s.board|)
    && s.deck == Some(DeckState(cards, UsedFor(|order|, |s.board|)))
  }

  // ---------- the hand keeps its cards where they are ----------

  /** Same cards in the same hands. */
  ghost predicate SameHoles(seats: Seats, t: Seats) {
    && |t| == |seats|
    && Participants(t) == Participants(seats)
    && forall i :: Taken(seats, i) ==> Taken(t, i) && t[i].value.hole == seats[i].value.hole
                                       && t[i].value.hasHole == seats[i].value.hasHole
  }

  lemma SettleHolds(s: State, awards: seq<PotAward>, cards: seq<Card>, order: seq<nat>)
    requires Holds(s, cards, order)
    ensures Holds(Settle(s, awards), cards, order)
  {
    var t := Settle(s, awards).seats;
    assert forall i :: Taken(s.seats, i) <==> Taken(t, i);
    assert forall i: nat :: i in Participants(t) <==> i in Participants(s.seats);
    assert SameHoles(s.seats, t);
  }

  lemma StreetHolds(s: State, cards: seq<Card>, order: seq<nat>)
    requires Holds(s, cards, order) && InHand(s) && s.street != River && CanAdvance(s)
    ensures Holds(AdvanceStreet(s), cards, order)
  {
    ClearStreetKeeps(s.seats);
    var t := AdvanceStreet(s);
    assert SameHoles(s.seats, t.seats);
    var m := |order|;
    assert t.board == BoardOf(cards, m, |t.board|);
  }

  lemma {:induction false} AdvanceHolds(s: State, cards: seq<Card>, order: seq<nat>)
    requires InHand(s) && CanAdvance(s) && Holds(s, cards, order)
    ensures Holds(Advance(s), cards, order)
    decreases StreetsLeft(s.street), 1
  {
    if |Contenders(s.seats)| <= 1 {
      SettleHolds(s, FoldAwards(s.seats, FirstContender(s.seats)), cards, order);
    } else if !RoundComplete(s) {
    } else if s.street == River {
      SettleHolds(s, ShowdownAwards(s.seats, s.board, s.dealerSeat.value), cards, order);
    } else {
      RunOnHolds(s, cards, order);
    }
  }

  lemma {:induction false} RunOnHolds(s: State, cards: seq<Card>, order: seq<nat>)
    requires InHand(s) && CanAdvance(s) && Holds(s, cards, order)
    requires |Contenders(s.seats)| >= 2 && RoundComplete(s) && s.street != River
    ensures Holds(Advance(s), cards, order)
    decreases StreetsLeft(s.street), 0
  {
    var t := NextStreetHolds(s, cards, order);
    if |Able(t.seats)| <= 1 {
      AdvanceHolds(t.(pending := {}, actingSeat := None), cards, order);
    }
  }

  lemma NextStreetHolds(s: State, cards: seq<Card>, order: seq<nat>) returns (t: State)
    requires InHand(s) && CanAdvance(s) && Holds(s, cards, order) && s.street != River
    ensures t == AdvanceStreet(s) && Holds(t, cards, order)
    ensures InHand(t) && InHand(t.(pending := {}, actingSeat := None))
    ensures CanAdvance(t.(pending := {}, actingSeat := None))
    ensures Holds(t.(pending := {}, actingSeat := None), cards, order)
  {
    t := AdvanceStreet(s);
    StreetHolds(s, cards, order);
    AdvanceStreetMidHand(s);
    BoundedCards(t);
  }

  lemma ContinueHolds(s: State, from: nat, cards: seq<Card>, order: seq<nat>)
    requires InHand(s) && CanAdvance(s) && from < |s.seats| && Holds(s, cards, order)
    ensures Holds(Continue(s, from), cards, order)
  {
    if |Contenders(s.seats)| <= 1 {
      SettleHolds(s, FoldAwards(s.seats, FirstContender(s.seats)), cards, order);
    } else if RoundComplete(s) {
      AdvanceHolds(s.(actingSeat := None), cards, order);
    }
  }

  lemma PlayedHolds(s: State, cmd: ActionCommand, cards: seq<Card>, order: seq<nat>)
    requires Deciding(s) && BetPhase(s, s.actingSeat.value, cmd).error == Ok && Holds(s, cards, order)
    ensures Holds(Played(s, cmd), cards, order)
  {
    var a := s.actingSeat.value;
    var lift, q, target := ActionKinds(s, a, cmd);
    var t := Played(s, cmd);
    assert t.seats == s.seats[a := Some(q)];
    ReplacedGroups(s.seats, t.seats, a, q);
    assert SameHoles(s.seats, t.seats);
  }

  lemma ActHolds(s: State, cmd: ActionCommand, cards: seq<Card>, order: seq<nat>)
    requires Deciding(s) && Act(s, cmd).result.error == Ok && Holds(s, cards, order)
    ensures Holds(Act(s, cmd).state, cards, order)
  {
    ActCases(s, cmd);
    PlayedMidHand(s, cmd);
    PlayedHolds(s, cmd, cards, order);
    ContinueHolds(Played(s, cmd), s.actingSeat.value, cards, order);
  }

  // ---------- the deal ----------

  lemma {:induction false} IndexOfAt(o: seq<nat>, k: nat)
    requires Distinct(o) && k < |o|
    ensures IndexOf(o, o[k]) == k
  {
    if k > 0 {
      assert o[1..][k - 1] == o[k];
      IndexOfAt(o[1..], k - 1);
    }
  }

  lemma DealHolesAt(seats: Seats, order: seq<nat>, cards: seq<Card>, k: nat)
    requires 2 * |order| <= |cards| && Distinct(order) && k < |order| && Taken(seats, order[k])
    ensures var r := DealHoles(seats, order, cards);
            Taken(r, order[k]) && r[order[k]].value.hasHole
            && r[order[k]].value.hole == (cards[k], cards[|order| + k])
  {
    IndexOfAt(order, k);
  }

  /** Players dealt in, in dealing order: clockwise, the dealer last. */
  ghost function DealOrder(s: State): seq<nat>
    requires SeatsOk(s) && ReadySeats(s.seats) != {}
  {
    Order(ReadySeats(s.seats), |s.seats|, NextDealer(s))
  }

  ghost predicate DealtTo(seats: Seats, order: seq<nat>, cards: seq<Card>)
    requires 2 * |order| <= |cards|
  {
    forall k :: 0 <= k < |order| ==>
      Taken(seats, order[k]) && seats[order[k]].value.hasHole
      && seats[order[k]].value.hole == (cards[k], cards[|order| + k])
  }

  lemma DealHolesDealt(seats: Seats, order: seq<nat>, cards: seq<Card>)
    requires 2 * |order| <= |cards| && Distinct(order)
    requires forall k :: 0 <= k < |order| ==> Taken(seats, order[k])
    ensures DealtTo(DealHoles(seats, order, cards), order, cards)
  {
    forall k | 0 <= k < |order| {
      DealHolesAt(seats, order, cards, k);
    }
  }

  lemma DealtHoles(s: State, cards: seq<Card>)
    requires CanOpen(s, cards)
    ensures |DealOrder(s)| == |ReadySeats(s.seats)| && ToSet(DealOrder(s)) == ReadySeats(s.seats)
    ensures DealtTo(DealtSeats(s, NextDealer(s), cards), DealOrder(s), cards)
  {
    var order := DealOrder(s);
    OrderSize(ReadySeats(s.seats), |s.seats|, NextDealer(s));
    EnterAllTaken(s.seats);
    DealHolesDealt(EnterAll(s.seats), order, cards);
  }

  lemma EnterAllTaken(seats: Seats)
    ensures forall i :: Taken(seats, i) ==> Taken(EnterAll(seats), i)
  {}

  lemma BlindedHoles(dealt: Seats, sb: nat, bb: nat, c: Config, i: nat)
    requires Taken(dealt, sb) && Taken(dealt, bb) && Taken(dealt, i)
    ensures var r := BlindedSeats(dealt, sb, bb, c);
            Taken(r, i) && r[i].value.hole == dealt[i].value.hole && r[i].value.hasHole == dealt[i].value.hasHole
  {}

  lemma BlindedHolds(t: State, dealt: Seats, sb: nat, bb: nat, cards: seq<Card>, order: seq<nat>)
    requires Taken(dealt, sb) && Taken(dealt, bb) && t.seats == BlindedSeats(dealt, sb, bb, t.config)
    requires |cards| == 52 && |order| == |Participants(t.seats)| <= 6 && Participants(t.seats) == ToSet(order)
    requires t.board == [] && t.deck == Some(DeckState(cards, 2 * |order|))
    requires DealtTo(dealt, order, cards)
    ensures Holds(t, cards, order)
  {
    forall k | 0 <= k < |order|
      ensures Taken(t.seats, order[k]) && t.seats[order[k]].value.hasHole
              && t.seats[order[k]].value.hole == (cards[k], cards[|order| + k])
    {
      BlindedHoles(dealt, sb, bb, t.config, order[k]);
    }
  }

  lemma OpenedHolds(s: State, cards: seq<Card>)
    requires CanOpen(s, cards) && ConfigOk(s.config)
    ensures Holds(Opened(s, cards), cards, DealOrder(s))
  {
    var at := PositionsOf(s);
    DealtHoles(s, cards);
    OpenedGroups(s, cards);
    BlindedHolds(Opened(s, cards), DealtSeats(s, at.dealer, cards), at.small, at.big, cards, DealOrder(s));
  }

  lemma BegunHolds(s: State, t: State, at: Positions, r: State, cards: seq<Card>, order: seq<nat>)
    requires IsBegun(s, t, at, r) && Holds(t, cards, order)
    ensures Holds(r, cards, order)
  {
    OpeningInHand(s, t, at);
    if |Able(t.seats)| <= 1 {
      AdvanceHolds(t, cards, order);
    }
  }

  lemma BeginHolds(s: State, cards: seq<Card>)
    requires CanOpen(s, cards) && ConfigOk(s.config) && |ReadySeats(s.seats)| >= 2
    ensures Holds(Begin(s, cards), cards, DealOrder(s))
  {
    var t := BeginIsBegun(s, cards);
    OpenedHolds(s, cards);
    ActorHolds(Opened(s, cards), t, cards, DealOrder(s));
    BegunHolds(s, t, PositionsOf(s), Begin(s, cards), cards, DealOrder(s));
  }

  lemma ActorHolds(s: State, t: State, cards: seq<Card>, order: seq<nat>)
    requires Holds(s, cards, order) && t == s.(pending := t.pending, actingSeat := t.actingSeat)
    ensures Holds(t, cards, order)
  {}

  // ---------- runs of one hand ----------

  /** A hand and the operations on it while it is running; the last of them may settle it. */
  ghost predicate WithinHand(s: State, ops: seq<Op>)
    requires Inv(s)
    decreases ops
  {
    ops == [] ||
    (StepInv(s, ops[0]); Betting(s.street) && !ops[0].Abort? && WithinHand(Step(s, ops[0]).state, ops[1..]))
  }

  lemma WithinHandNext(s: State, ops: seq<Op>)
    requires Inv(s) && WithinHand(s, ops) && ops != []
    ensures Betting(s.street) && !ops[0].Abort?
    ensures Inv(Step(s, ops[0]).state) && WithinHand(Step(s, ops[0]).state, ops[1..])
  {
    StepInv(s, ops[0]);
  }

  lemma QuietHolds(s: State, t: State, cards: seq<Card>, order: seq<nat>)
    requires Quiet(s, t) && Holds(s, cards, order) && (Deciding(s) || Stuck(s))
    ensures Holds(t, cards, order)
  {
    QuietGroups(s, t);
    forall k | 0 <= k < |order|
      ensures Taken(t.seats, order[k]) && t.seats[order[k]].value.hasHole
              && t.seats[order[k]].value.hole == (cards[k], cards[|order| + k])
    {
      assert PlayerOk(s.seats[order[k]].value);
      QuietSeat(s, t, order[k]);
    }
  }

  lemma StepHolds(s: State, op: Op, cards: seq<Card>, order: seq<nat>)
    requires Inv(s) && Betting(s.street) && !op.Abort? && Holds(s, cards, order)
    ensures Holds(Step(s, op).state, cards, order)
  {
    if Step(s, op).error != Ok {
      StepInv(s, op);
    } else if op.Play? {
      ActsOnlyDeciding(s, op.cmd);
      ActHolds(s, op.cmd, cards, order);
    } else {
      SeatingQuiet(s, op);
      QuietHolds(s, Step(s, op).state, cards, order);
    }
  }

  lemma {:induction false} RunHolds(s: State, ops: seq<Op>, cards: seq<Card>, order: seq<nat>)
    requires Inv(s) && WithinHand(s, ops) && Holds(s, cards, order)
    ensures Holds(Run(s, ops), cards, order)
    decreases ops
  {
    if ops != [] {
      WithinHandNext(s, ops);
      StepHolds(s, ops[0], cards, order);
      RunHolds(Step(s, ops[0]).state, ops[1..], cards, order);
    }
  }

  /** Throughout a hand every card is where the deal put it. */
  lemma CardsThroughoutHand(s: State, cards: seq<Card>, ops: seq<Op>)
    requires Resting(s) && StartHand(s, cards).error == Ok
    requires Inv(StartHand(s, cards).state) && WithinHand(StartHand(s, cards).state, ops)
    ensures ReadySeats(s.seats) != {} && Holds(Run(StartHand(s, cards).state, ops), cards, DealOrder(s))
  {
    EnoughCanOpen(s, cards);
    BeginHolds(s, cards);
    RunHolds(StartHand(s, cards).state, ops, cards, DealOrder(s));
  }

  // ---------- no card is in two places ----------

  /** First cards of all players, then second cards, in dealing order. */
  ghost function HoleCards(s: State, order: seq<nat>): (r: seq<Card>)
    requires forall k :: 0 <= k < |order| ==> Taken(s.seats, order[k])
    ensures |r| == 2 * |order|
  {
    seq(2 * |order|, j requires 0 <= j < 2 * |order| && Taken(s.seats, order[if j < |order| then j else j - |order|]) =>
      if j < |order| then s.seats[order[j]].value.hole.0 else s.seats[order[j - |order|]].value.hole.1)
  }

  /** Hole cards, board, burnt cards and the undealt rest are the whole deck, each card once. */
  lemma CardsPartition(s: State, cards: seq<Card>, order: seq<nat>)
    requires Holds(s, cards, order) && ValidDeck(cards)
    ensures multiset(HoleCards(s, order)) + (multiset(s.board) + multiset(BurnsOf(cards, |order|, |s.board|)))
            + multiset(cards[s.deck.value.next..]) == multiset(cards)
    ensures s.deck.value.next <= 20
    ensures forall c: Card :: multiset(cards)[c] <= 1
  {
    HolesAreFirst(s, cards, order);
    TurnedUp(cards, |order|, |s.board|);
    SplitDeck(cards, 2 * |order|, s.deck.value.next);
    forall c: Card
      ensures multiset(cards)[c] <= 1
    {
      DistinctOnce(cards, c);
    }
  }

  lemma HolesAreFirst(s: State, cards: seq<Card>, order: seq<nat>)
    requires Holds(s, cards, order)
    ensures HoleCards(s, order) == cards[..2 * |order|]
  {
    var m := |order|;
    forall j | 0 <= j < 2 * m
      ensures HoleCards(s, order)[j] == cards[j]
    {
      var k := if j < m then j else j - m;
      assert Taken(s.seats, order[k]) && s.seats[order[k]].value.hole == (cards[k], cards[m + k]);
    }
  }

  lemma SplitDeck(cards: seq<Card>, i: nat, j: nat)
    requires i <= j <= |cards|
    ensures multiset(cards[..i]) + multiset(cards[i..j]) + multiset(cards[j..]) == multiset(cards)
  {
    assert cards == cards[..i] + cards[i..j] + cards[j..];
  }

  /** Every card taken after the deal is on the board or burnt. */
  ghost predicate AllTurned(cards: seq<Card>, m: nat, size: nat)
    requires |cards| == 52 && m <= 6
  {
    multiset(cards[2 * m..UsedFor(m, size)]) == multiset(BoardOf(cards, m, size)) + multiset(BurnsOf(cards, m, size))
  }

  lemma {:induction false} TurnedUp(cards: seq<Card>, m: nat, size: nat)
    requires |cards| == 52 && m <= 6 && size in {0, 3, 4, 5}
    ensures AllTurned(cards, m, size)
  {
    match size
    case 0 => TurnedUpNone(cards, m);
    case 3 => TurnedUpFlop(cards, m);
    case _ =>
      TurnedUp(cards, m, size - 1);
      TurnedUpNext(cards, m, size);
  }

  lemma TurnedUpNone(cards: seq<Card>, m: nat)
    requires |cards| == 52 && m <= 6
    ensures AllTurned(cards, m, 0)
  {
    assert cards[2 * m..2 * m] == [];
  }

  lemma TurnedUpNext(cards: seq<Card>, m: nat, size: nat)
    requires |cards| == 52 && m <= 6 && size in {4, 5} && AllTurned(cards, m, size - 1)
    ensures AllTurned(cards, m, size)
  {
    TurnedUpOne(cards, m, size);
    var u := UsedFor(m, size - 1);
    AddOneEach(cards[2 * m..u], BoardOf(cards, m, size - 1), BurnsOf(cards, m, size - 1), cards[u], cards[u + 1]);
  }

  lemma AddOneEach(all: seq<Card>, board: seq<Card>, burns: seq<Card>, burnt: Card, up: Card)
    requires multiset(all) == multiset(board) + multiset(burns)
    ensures multiset(all + [burnt, up]) == multiset(board + [up]) + multiset(burns + [burnt])
  {}

  lemma TurnedUpFlop(cards: seq<Card>, m: nat)
    requires |cards| == 52 && m <= 6
    ensures AllTurned(cards, m, 3)
  {
    var b := 2 * m;
    assert cards[b..b + 4] == [cards[b]] + cards[b + 1..b + 4];
    assert BoardOf(cards, m, 3) == cards[b + 1..b + 4];
    assert BurnsOf(cards, m, 3) == [cards[b]];
  }

  lemma TurnedUpOne(cards: seq<Card>, m: nat, size: nat)
    requires |cards| == 52 && m <= 6 && size in {4, 5}
    ensures var u := UsedFor(m, size - 1);
            && UsedFor(m, size) == u + 2
            && cards[2 * m..u + 2] == cards[2 * m..u] + [cards[u], cards[u + 1]]
            && BoardOf(cards, m, size) == BoardOf(cards, m, size - 1) + [cards[u + 1]]
            && BurnsOf(cards, m, size) == BurnsOf(cards, m, size - 1) + [cards[u]]
  {}
}
