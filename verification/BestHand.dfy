/** The best five of five to seven cards (`hand_evaluator.cpp`, lines 155-188). */
module BestHand {
  import opened Wrappers
  import opened Cards
  import opened Clockwise
  import opened HandValues
  import opened HandEvaluator

  /** Five positions in increasing order. */
  ghost predicate Picks(n: nat, a: int, b: int, c: int, d: int, e: int) {
    0 <= a < b < c < d < e < n
  }

  ghost function HandAt(cards: seq<Card>, a: int, b: int, c: int, d: int, e: int): set<Card>
    requires Picks(|cards|, a, b, c, d, e)
  {
    {cards[a], cards[b], cards[c], cards[d], cards[e]}
  }

  /** The loops reach positions p..t before positions a..e. */
  ghost predicate Before(p: int, q: int, r: int, s: int, t: int, a: int, b: int, c: int, d: int, e: int) {
    p < a || (p == a && (q < b || (q == b && (r < c || (r == c && (s < d || (s == d && t < e)))))))
  }

  /** `best` is no worse than any hand reached before positions a..e; there is a best as soon as there is a hand. */
  ghost predicate Covered(cards: seq<Card>, init: bool, best: HandValue, a: int, b: int, c: int, d: int, e: int) {
    forall p, q, r, s, t :: Picks(|cards|, p, q, r, s, t) && Before(p, q, r, s, t, a, b, c, d, e) ==>
      init && !Less(best, FiveValue(HandAt(cards, p, q, r, s, t)))
  }

  ghost predicate Attained(cards: seq<Card>, best: HandValue) {
    exists a, b, c, d, e :: Picks(|cards|, a, b, c, d, e) && FiveValue(HandAt(cards, a, b, c, d, e)) == best
  }

  lemma CoverStep(cards: seq<Card>, init: bool, best: HandValue, a: int, b: int, c: int, d: int, e: int)
    requires Picks(|cards|, a, b, c, d, e) && Covered(cards, init, best, a, b, c, d, e)
    ensures var v := FiveValue(HandAt(cards, a, b, c, d, e));
            Covered(cards, true, if !init || Less(best, v) then v else best, a, b, c, d, e + 1)
  {
    var v := FiveValue(HandAt(cards, a, b, c, d, e));
    var top := if !init || Less(best, v) then v else best;
    forall p, q, r, s, t | Picks(|cards|, p, q, r, s, t) && Before(p, q, r, s, t, a, b, c, d, e + 1)
      ensures !Less(top, FiveValue(HandAt(cards, p, q, r, s, t)))
    {
      var w := FiveValue(HandAt(cards, p, q, r, s, t));
      StrictTotalOrder(best, v, w);
      StrictTotalOrder(v, w, best);
      StrictTotalOrder(w, best, v);
      if Before(p, q, r, s, t, a, b, c, d, e) {
        assert !Less(best, w);
      } else {
        assert p == a && q == b && r == c && s == d && t == e;
      }
    }
  }

  /** All hands with the same first four positions are done. */
  lemma NextFourth(cards: seq<Card>, init: bool, best: HandValue, a: int, b: int, c: int, d: int)
    requires Covered(cards, init, best, a, b, c, d, |cards|)
    ensures Covered(cards, init, best, a, b, c, d + 1, d + 2)
  {}

  lemma NextThird(cards: seq<Card>, init: bool, best: HandValue, a: int, b: int, c: int)
    requires Covered(cards, init, best, a, b, c, |cards| - 1, |cards|)
    ensures Covered(cards, init, best, a, b, c + 1, c + 2, c + 3)
  {}

  lemma NextSecond(cards: seq<Card>, init: bool, best: HandValue, a: int, b: int)
    requires Covered(cards, init, best, a, b, |cards| - 2, |cards| - 1, |cards|)
    ensures Covered(cards, init, best, a, b + 1, b + 2, b + 3, b + 4)
  {}

  lemma NextFirst(cards: seq<Card>, init: bool, best: HandValue, a: int)
    requires Covered(cards, init, best, a, |cards| - 3, |cards| - 2, |cards| - 1, |cards|)
    ensures Covered(cards, init, best, a + 1, a + 2, a + 3, a + 4, a + 5)
  {}

  method ValueAt(cards: seq<Card>, a: nat, b: nat, c: nat, d: nat, e: nat) returns (v: HandValue)
    requires Distinct(cards) && Picks(|cards|, a, b, c, d, e)
    ensures v == FiveValue(HandAt(cards, a, b, c, d, e))
  {
    var five := [cards[a], cards[b], cards[c], cards[d], cards[e]];
    assert ToSet(five) == HandAt(cards, a, b, c, d, e);
    var r := EvaluateFive(five);
    v := r.value;
  }

  /** One more hand is compared with the best so far. */
  method TryHand(cards: seq<Card>, a: nat, b: nat, c: nat, d: nat, e: nat, init0: bool, best0: HandValue)
    returns (best: HandValue)
    requires Distinct(cards) && Picks(|cards|, a, b, c, d, e)
    requires Covered(cards, init0, best0, a, b, c, d, e) && (init0 ==> Attained(cards, best0))
    ensures Covered(cards, true, best, a, b, c, d, e + 1) && Attained(cards, best)
  {
    best := best0;
    var value := ValueAt(cards, a, b, c, d, e);
    CoverStep(cards, init0, best0, a, b, c, d, e);
    if !init0 || Less(best, value) {
      best := value;
    }
  }

  /** The innermost loop: all hands with the given first four cards. */
  method TryFifths(cards: seq<Card>, a: nat, b: nat, c: nat, d: nat, init0: bool, best0: HandValue)
    returns (init: bool, best: HandValue)
    requires Distinct(cards) && a < b < c < d && d + 1 < |cards|
    requires Covered(cards, init0, best0, a, b, c, d, d + 1) && (init0 ==> Attained(cards, best0))
    ensures Covered(cards, init, best, a, b, c, d + 1, d + 2) && init && Attained(cards, best)
  {
    init, best := init0, best0;
    var e := d + 1;
    while e < |cards|
      invariant d + 1 <= e <= |cards|
      invariant Covered(cards, init, best, a, b, c, d, e) && (init ==> Attained(cards, best))
      invariant e > d + 1 ==> init
    {
      best := TryHand(cards, a, b, c, d, e, init, best);
      init, e := true, e + 1;
    }
    NextFourth(cards, init, best, a, b, c, d);
  }

  lemma FirstPicks(cards: seq<Card>, best: HandValue)
    ensures Covered(cards, false, best, 0, 1, 2, 3, 4)
  {}

  method TryFourths(cards: seq<Card>, a: nat, b: nat, c: nat, init0: bool, best0: HandValue)
    returns (init: bool, best: HandValue)
    requires Distinct(cards) && a < b < c && c + 2 < |cards|
    requires Covered(cards, init0, best0, a, b, c, c + 1, c + 2) && (init0 ==> Attained(cards, best0))
    ensures Covered(cards, init, best, a, b, c + 1, c + 2, c + 3) && init && Attained(cards, best)
  {
    init, best := init0, best0;
    var d := c + 1;
    while d + 1 < |cards|
      invariant c + 1 <= d <= |cards| - 1
      invariant Covered(cards, init, best, a, b, c, d, d + 1) && (init ==> Attained(cards, best))
      invariant d > c + 1 ==> init
    {
      init, best := TryFifths(cards, a, b, c, d, init, best);
      d := d + 1;
    }
    NextThird(cards, init, best, a, b, c);
  }

  method TryThirds(cards: seq<Card>, a: nat, b: nat, init0: bool, best0: HandValue)
    returns (init: bool, best: HandValue)
    requires Distinct(cards) && a < b && b + 3 < |cards|
    requires Covered(cards, init0, best0, a, b, b + 1, b + 2, b + 3) && (init0 ==> Attained(cards, best0))
    ensures Covered(cards, init, best, a, b + 1, b + 2, b + 3, b + 4) && init && Attained(cards, best)
  {
    init, best := init0, best0;
    var c := b + 1;
    while c + 2 < |cards|
      invariant b + 1 <= c <= |cards| - 2
      invariant Covered(cards, init, best, a, b, c, c + 1, c + 2) && (init ==> Attained(cards, best))
      invariant c > b + 1 ==> init
    {
      init, best := TryFourths(cards, a, b, c, init, best);
      c := c + 1;
    }
    NextSecond(cards, init, best, a, b);
  }

  method TrySeconds(cards: seq<Card>, a: nat, init0: bool, best0: HandValue) returns (init: bool, best: HandValue)
    requires Distinct(cards) && a + 4 < |cards|
    requires Covered(cards, init0, best0, a, a + 1, a + 2, a + 3, a + 4) && (init0 ==> Attained(cards, best0))
    ensures Covered(cards, init, best, a + 1, a + 2, a + 3, a + 4, a + 5) && init && Attained(cards, best)
  {
    init, best := init0, best0;
    var b := a + 1;
    while b + 3 < |cards|
      invariant a + 1 <= b <= |cards| - 3
      invariant Covered(cards, init, best, a, b, b + 1, b + 2, b + 3) && (init ==> Attained(cards, best))
      invariant b > a + 1 ==> init
    {
      init, best := TryThirds(cards, a, b, init, best);
      b := b + 1;
    }
    NextFirst(cards, init, best, a);
  }

  /**
   The best hand: refused exactly for a wrong number of cards or a repeated card; otherwise the
   largest value of any five of the cards, whatever order they come in.
   */
  method EvaluateBest(cards: seq<Card>) returns (r: Option<HandValue>)
    ensures r.None? <==> !(5 <= |cards| <= 7) || !Distinct(cards)
    ensures r.Some? ==> r.value == BestValue(ToSet(cards)) && IsBest(ToSet(cards), r.value)
  {
    if |cards| < 5 || |cards| > 7 {
      return None;
    }
    var repeats := HasRepeats(cards);
    if repeats {
      return None;
    }
    var best, init := DEFAULT_VALUE, false;
    FirstPicks(cards, best);
    var a := 0;
    while a + 4 < |cards|
      invariant 0 <= a <= |cards| - 4
      invariant Covered(cards, init, best, a, a + 1, a + 2, a + 3, a + 4) && (init ==> Attained(cards, best))
      invariant a > 0 ==> init
    {
      init, best := TrySeconds(cards, a, init, best);
      a := a + 1;
    }
    CoveredIsBest(cards, best, a);
    return Some(best);
  }

  lemma CoveredIsBest(cards: seq<Card>, best: HandValue, a: int)
    requires Distinct(cards) && a == |cards| - 4
    requires Covered(cards, true, best, a, a + 1, a + 2, a + 3, a + 4) && Attained(cards, best)
    ensures IsBest(ToSet(cards), best) && BestValue(ToSet(cards)) == best
  {
    var all := ToSet(cards);
    AttainedHand(cards, best);
    forall hand | FiveOf(hand, all)
      ensures !Less(best, FiveValue(hand))
    {
      HandIsPicked(cards, best, a, hand);
    }
    BestValueIs(all, best);
  }

  lemma BestValueIs(cards: set<Card>, v: HandValue)
    requires IsBest(cards, v)
    ensures BestValue(cards) == v
  {
    IsBestUnique(cards, v, BestValue(cards));
  }

  lemma AttainedHand(cards: seq<Card>, best: HandValue)
    requires Distinct(cards) && Attained(cards, best)
    ensures exists hand :: FiveOf(hand, ToSet(cards)) && FiveValue(hand) == best
  {
    var a, b, c, d, e :| Picks(|cards|, a, b, c, d, e) && FiveValue(HandAt(cards, a, b, c, d, e)) == best;
    PickedHand(cards, a, b, c, d, e);
  }

  lemma PickedHand(cards: seq<Card>, a: int, b: int, c: int, d: int, e: int)
    requires Distinct(cards) && Picks(|cards|, a, b, c, d, e)
    ensures FiveOf(HandAt(cards, a, b, c, d, e), ToSet(cards))
  {
    var five := [cards[a], cards[b], cards[c], cards[d], cards[e]];
    assert ToSet(five) == HandAt(cards, a, b, c, d, e);
    DistinctSize(five);
  }

  /** Any five of the cards sit at five increasing positions. */
  lemma HandIsPicked(cards: seq<Card>, best: HandValue, a: int, hand: set<Card>)
    requires Distinct(cards) && a == |cards| - 4 && FiveOf(hand, ToSet(cards))
    requires Covered(cards, true, best, a, a + 1, a + 2, a + 3, a + 4)
    ensures !Less(best, FiveValue(hand))
  {
    var at := Positions(cards, hand);
    assert Before(at[0], at[1], at[2], at[3], at[4], a, a + 1, a + 2, a + 3, a + 4);
  }

  /** The cards at the positions `at`. */
  ghost predicate SitAt(cards: seq<Card>, hand: set<Card>, at: seq<nat>) {
    && (forall k :: 0 <= k < |at| ==> at[k] < |cards| && cards[at[k]] in hand)
    && (forall j, k :: 0 <= j < k < |at| ==> at[j] < at[k])
    && (forall x :: x in hand ==> exists k :: 0 <= k < |at| && cards[at[k]] == x)
  }

  lemma Ascending(where: set<nat>, n: nat) returns (at: seq<nat>)
    requires 0 < n && forall i :: i in where ==> i < n
    ensures forall i :: i in where <==> i in at
    ensures forall j, k :: 0 <= j < k < |at| ==> at[j] < at[k]
  {
    at := Order(where, n, n - 1);
    OrderMembers(where, n, n - 1);
    forall j, k | 0 <= j < k < |at|
      ensures at[j] < at[k]
    {
      assert Distance(n, n - 1, at[j]) < Distance(n, n - 1, at[k]);
    }
  }

  lemma HandSitsAt(cards: seq<Card>, hand: set<Card>) returns (at: seq<nat>)
    requires hand <= ToSet(cards) && hand != {}
    ensures SitAt(cards, hand, at)
  {
    var where := set i: nat | i < |cards| && cards[i] in hand;
    var some :| some in hand;
    assert some in cards;
    at := Ascending(where, |cards|);
    forall k | 0 <= k < |at|
      ensures at[k] < |cards| && cards[at[k]] in hand
    {
      assert at[k] in where;
    }
    forall x | x in hand
      ensures exists k :: 0 <= k < |at| && cards[at[k]] == x
    {
      var i :| 0 <= i < |cards| && cards[i] == x;
      assert i in where;
    }
  }

  lemma PositionCount(cards: seq<Card>, hand: set<Card>, at: seq<nat>)
    requires Distinct(cards) && SitAt(cards, hand, at)
    ensures |at| == |hand|
  {
    var held := seq(|at|, k requires 0 <= k < |at| && at[k] < |cards| => cards[at[k]]);
    assert Distinct(held) by {
      forall j, k | 0 <= j < k < |held|
        ensures held[j] != held[k]
      {
        assert at[j] < at[k];
      }
    }
    forall x
      ensures x in hand <==> x in held
    {
      if x in hand {
        var k :| 0 <= k < |at| && cards[at[k]] == x;
        assert held[k] == x;
      }
    }
    assert ToSet(held) == hand;
    DistinctSize(held);
  }

  lemma Positions(cards: seq<Card>, hand: set<Card>) returns (at: seq<nat>)
    requires Distinct(cards) && FiveOf(hand, ToSet(cards))
    ensures |at| == 5 && Picks(|cards|, at[0], at[1], at[2], at[3], at[4])
    ensures HandAt(cards, at[0], at[1], at[2], at[3], at[4]) == hand
  {
    at := HandSitsAt(cards, hand);
    PositionCount(cards, hand, at);
    forall x | x in hand
      ensures x in HandAt(cards, at[0], at[1], at[2], at[3], at[4])
    {
      var k :| 0 <= k < |at| && cards[at[k]] == x;
      assert k == 0 || k == 1 || k == 2 || k == 3 || k == 4;
    }
  }
}
