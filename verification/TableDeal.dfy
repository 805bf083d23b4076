/** Dealing hole cards and turning up the board, card by card. */
module TableDeal {
  import opened Wrappers
  import opened Cards
  import opened Clockwise
  import opened Decks
  import opened TableModel
  import opened TableCards
  import opened TableLoops
  import opened TablePots

  /** The seats of players marked active, lowest first. */
  method CollectParticipants(seats: Seats) returns (r: seq<nat>)
    ensures forall i :: i in r <==> Taken(seats, i) && seats[i].value.status == Active
    ensures forall j, k :: 0 <= j < k < |r| ==> r[j] < r[k]
  {
    r := [];
    for i := 0 to |seats|
      invariant forall j :: j in r <==> j < i && Taken(seats, j) && seats[j].value.status == Active
      invariant forall j, k :: 0 <= j < k < |r| ==> r[j] < r[k]
      invariant forall j :: 0 <= j < |r| ==> r[j] < i
    {
      if seats[i].Some? && seats[i].value.status == Active {
        r := r + [i];
      }
    }
  }

  // ---------- the deal ----------

  /** One card lands on seat `i`: its first in the first round, its second in the second. */
  function GiveCard(seats: Seats, i: nat, round: nat, c: Card): Seats
    requires Taken(seats, i)
  {
    var p := seats[i].value;
    seats[i := Some(p.(hole := if round == 0 then (c, p.hole.1) else (p.hole.0, c), hasHole := true))]
  }

  /** The seats once the first `j` cards have been dealt. */
  ghost function DealtSoFar(seats: Seats, order: seq<nat>, cards: seq<Card>, j: nat): (r: Seats)
    requires j <= 2 * |order| <= |cards|
    ensures |r| == |seats|
  {
    var m := |order|;
    seq(|seats|, i requires 0 <= i < |seats| =>
      if seats[i].Some? && i in order then
        var k := IndexOf(order, i);
        var p := seats[i].value;
        Some(p.(hole := (if k < j then cards[k] else p.hole.0, if m + k < j then cards[m + k] else p.hole.1),
                hasHole := p.hasHole || k < j))
      else seats[i])
  }

  lemma DealtNone(seats: Seats, order: seq<nat>, cards: seq<Card>)
    requires 2 * |order| <= |cards|
    ensures DealtSoFar(seats, order, cards, 0) == seats
  {}

  lemma DealtAll(seats: Seats, order: seq<nat>, cards: seq<Card>)
    requires 2 * |order| <= |cards|
    ensures DealtSoFar(seats, order, cards, 2 * |order|) == DealHoles(seats, order, cards)
  {}

  lemma DealtNext(seats: Seats, order: seq<nat>, cards: seq<Card>, round: nat, k: nat)
    requires Distinct(order) && 2 * |order| <= |cards| && round < 2 && k < |order| && Taken(seats, order[k])
    ensures var j := if round == 0 then k else |order| + k;
            var before := DealtSoFar(seats, order, cards, j);
            && Taken(before, order[k])
            && DealtSoFar(seats, order, cards, j + 1) == GiveCard(before, order[k], round, cards[j])
  {
    var j := if round == 0 then k else |order| + k;
    IndexOfAt(order, k);
    forall i: nat | i < |seats| && i != order[k]
      ensures DealtSoFar(seats, order, cards, j + 1)[i] == DealtSoFar(seats, order, cards, j)[i]
    {
      DealtElsewhere(seats, order, cards, j, k, i);
    }
  }

  lemma DealtElsewhere(seats: Seats, order: seq<nat>, cards: seq<Card>, j: nat, k: nat, i: nat)
    requires Distinct(order) && j < 2 * |order| <= |cards| && k < |order| && (j == k || j == |order| + k)
    requires i < |seats| && i != order[k]
    ensures DealtSoFar(seats, order, cards, j + 1)[i] == DealtSoFar(seats, order, cards, j)[i]
  {
    if seats[i].Some? && i in order {
      assert IndexOf(order, i) != k;
    }
  }

  /** Participants do not change while cards are dealt. */
  lemma DealtParticipants(seats: Seats, order: seq<nat>, cards: seq<Card>, j: nat)
    requires j <= 2 * |order| <= |cards|
    ensures Participants(DealtSoFar(seats, order, cards, j)) == Participants(seats)
  {
    var r := DealtSoFar(seats, order, cards, j);
    assert forall i: nat :: i in Participants(r) <==> i in Participants(seats);
  }

  /** From the k-th seat of `order` the next member of `a` clockwise is the next seat of `order`, cyclically. */
  ghost predicate CycleAt(a: set<nat>, n: nat, order: seq<nat>, k: nat)
    requires k < |order|
  {
    order[k] < n && Next(a, n, order[k]) == Some(order[if k + 1 < |order| then k + 1 else 0])
  }

  ghost predicate Cycle(a: set<nat>, n: nat, order: seq<nat>) {
    forall k :: 0 <= k < |order| ==> CycleAt(a, n, order, k)
  }

  lemma OrderCycles(a: set<nat>, n: nat, dealer: nat)
    requires dealer < n && dealer in a
    ensures var order := Order(a, n, dealer);
            order != [] && Cycle(a, n, order) && Next(a, n, dealer) == Some(order[0])
  {
    var order := Order(a, n, dealer);
    OrderMembers(a, n, dealer);
    assert dealer in order;
    forall k | 0 <= k < |order|
      ensures CycleAt(a, n, order, k)
    {
      NextInOrder(a, n, dealer, k);
    }
  }

  /** Two rounds of one card each, clockwise from the dealer's left. */
  method DealHoleCards(seats0: Seats, dealer: nat, count: nat, deck: Deck, ghost order: seq<nat>) returns (seats: Seats)
    requires deck.Valid() && deck.next == 0
    requires dealer < |seats0| && 0 < count == |order| <= 6 && Distinct(order)
    requires Cycle(Participants(seats0), |seats0|, order)
    requires Next(Participants(seats0), |seats0|, dealer) == Some(order[0])
    requires forall k :: 0 <= k < |order| ==> Taken(seats0, order[k])
    modifies deck`next
    ensures deck.Valid() && deck.next == 2 * count
    ensures seats == DealHoles(seats0, order, deck.cards)
  {
    seats := seats0;
    DealtNone(seats0, order, deck.cards);
    var first := NextParticipant(seats0, dealer);
    var seat := first.value;
    var round := 0;
    while round < 2
      invariant 0 <= round <= 2 && deck.Valid()
      invariant deck.next == if round == 0 then 0 else if round == 1 then count else 2 * count
      invariant seats == DealtSoFar(seats0, order, deck.cards, deck.next)
      decreases 2 - round
    {
      seats := DealRound(seats0, seats, order, round, count, deck, seat);
      round := round + 1;
    }
    DealtAll(seats0, order, deck.cards);
  }

  method DealRound(ghost seats0: Seats, seats1: Seats, ghost order: seq<nat>, round: nat, count: nat, deck: Deck, start: nat)
    returns (seats: Seats)
    requires deck.Valid() && round < 2 && deck.next == (if round == 0 then 0 else count)
    requires 0 < count == |order| <= 6 && start == order[0] && Distinct(order)
    requires Cycle(Participants(seats0), |seats0|, order)
    requires forall k :: 0 <= k < |order| ==> Taken(seats0, order[k])
    requires seats1 == DealtSoFar(seats0, order, deck.cards, deck.next)
    modifies deck`next
    ensures deck.Valid() && deck.next == old(deck.next) + count
    ensures seats == DealtSoFar(seats0, order, deck.cards, deck.next)
  {
    seats := seats1;
    var seat := start;
    var dealt := 0;
    while dealt < count
      invariant 0 <= dealt <= count && deck.Valid() && deck.next == old(deck.next) + dealt
      invariant seat == order[if dealt < count then dealt else 0]
      invariant seats == DealtSoFar(seats0, order, deck.cards, deck.next)
      decreases count - dealt
    {
      seats, seat := DealOne(seats0, seats, order, round, dealt, deck, seat);
      dealt := dealt + 1;
    }
  }

  method DealOne(ghost seats0: Seats, seats1: Seats, ghost order: seq<nat>, round: nat, ghost k: nat, deck: Deck, seat: nat)
    returns (seats: Seats, next: nat)
    requires deck.Valid() && round < 2 && k < |order| <= 6 && Distinct(order) && seat == order[k]
    requires deck.next == if round == 0 then k else |order| + k
    requires Cycle(Participants(seats0), |seats0|, order)
    requires forall j :: 0 <= j < |order| ==> Taken(seats0, order[j])
    requires seats1 == DealtSoFar(seats0, order, deck.cards, deck.next)
    modifies deck`next
    ensures deck.Valid() && deck.next == old(deck.next) + 1
    ensures seats == DealtSoFar(seats0, order, deck.cards, deck.next)
    ensures next == order[if k + 1 < |order| then k + 1 else 0]
  {
    DealtNext(seats0, order, deck.cards, round, k);
    var c := deck.Draw();
    seats := GiveCard(seats1, seat, round, c.value);
    DealtParticipants(seats0, order, deck.cards, deck.next);
    next := StepAround(seats, seat, Participants(seats0), order, k);
  }

  method StepAround(seats: Seats, seat: nat, ghost a: set<nat>, ghost order: seq<nat>, ghost k: nat) returns (next: nat)
    requires Participants(seats) == a && Cycle(a, |seats|, order) && k < |order| && seat == order[k]
    ensures next == order[if k + 1 < |order| then k + 1 else 0]
  {
    assert CycleAt(a, |seats|, order, k);
    var r := NextParticipant(seats, seat);
    next := r.value;
  }

  // ---------- the board ----------

  /** Burns one card and turns up `count` cards. */
  method Reveal(board0: seq<Card>, count: nat, deck: Deck) returns (board: seq<Card>)
    requires deck.Valid() && deck.next + 1 + count <= 52
    modifies deck`next
    ensures deck.Valid() && deck.next == old(deck.next) + 1 + count
    ensures board == board0 + deck.cards[old(deck.next) + 1..old(deck.next) + 1 + count]
  {
    var burnt := deck.Draw();
    board := board0;
    ghost var start := deck.next;
    for k := 0 to count
      invariant deck.Valid() && deck.next == start + k && start == old(deck.next) + 1
      invariant board == board0 + deck.cards[start..start + k]
    {
      var c := deck.Draw();
      assert deck.cards[start..start + k + 1] == deck.cards[start..start + k] + [deck.cards[start + k]];
      board := board + [c.value];
    }
  }

  // ---------- seven different cards ----------

  lemma SevenDistinct(cards: seq<Card>, m: nat, k: nat)
    requires |cards| == 52 && Distinct(cards) && k < m <= 6
    ensures Distinct(BoardOf(cards, m, 5) + [cards[k], cards[m + k]])
  {
    var b := 2 * m;
    assert BoardOf(cards, m, 5) == [cards[b + 1], cards[b + 2], cards[b + 3], cards[b + 5], cards[b + 7]];
    var at := [b + 1, b + 2, b + 3, b + 5, b + 7, k, m + k];
    var seven := BoardOf(cards, m, 5) + [cards[k], cards[m + k]];
    assert forall i :: 0 <= i < 7 ==> seven[i] == cards[at[i]];
    assert forall i, j :: 0 <= i < j < 7 ==> at[i] != at[j];
  }

  /** With the cards where the deal put them, every hand in a showdown is seven different cards. */
  lemma HoldsEvaluable(s: State, cards: seq<Card>, order: seq<nat>)
    requires InHand(s) && Holds(s, cards, order) && Distinct(cards) && |s.board| == 5
    ensures Evaluable(s.seats, s.board)
  {
    forall i | Taken(s.seats, i) && s.seats[i].value.status != Folded && s.seats[i].value.status != Idle
      ensures Distinct(s.board + [s.seats[i].value.hole.0, s.seats[i].value.hole.1])
    {
      assert PlayerOk(s.seats[i].value);
      assert i in Participants(s.seats);
      assert i in order;
      var k :| 0 <= k < |order| && order[k] == i;
      SevenDistinct(cards, |order|, k);
    }
  }
}
