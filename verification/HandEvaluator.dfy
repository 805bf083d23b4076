/** Hand evaluation (`hand_evaluator.cpp`). */
module HandEvaluator {
  import opened Cards
  import opened HandValues
  import opened Sums
  import opened Wrappers

  // ---------- what a five-card hand is worth ----------

  ghost function RankCount(hand: set<Card>, r: int): nat {
    |set c | c in hand && c.rank == r|
  }

  ghost predicate IsMax(s: set<int>, m: int) {
    m in s && forall x :: x in s ==> x <= m
  }

  lemma {:induction false} MaxExists(s: set<int>) returns (m: int)
    requires s != {}
    ensures IsMax(s, m)
  {
    var x := AnyMember(s);
    var rest := s - {x};
    assert forall y :: y in s ==> y == x || y in rest;
    if rest == {} {
      m := x;
    } else {
      var y := MaxExists(rest);
      m := if x <= y then y else x;
    }
  }

  /** The members of a set, largest first. */
  ghost function LargestFirst(s: set<int>): seq<int> {
    if s == {} then []
    else
      assert exists m :: IsMax(s, m) by { var m := MaxExists(s); }
      var m :| IsMax(s, m);
      [m] + LargestFirst(s - {m})
  }

  ghost function RanksWithin(hand: set<Card>, k: nat, r: int): set<int> {
    set x | 2 <= x <= r && RankCount(hand, x) == k
  }

  /** The ranks held exactly `k` times, highest first, from rank `r` down. */
  ghost function RanksHeld(hand: set<Card>, k: nat, r: int): seq<int> {
    LargestFirst(RanksWithin(hand, k, r))
  }

  /** All ranks held exactly `k` times. */
  ghost function Held(hand: set<Card>, k: nat): seq<int> {
    RanksHeld(hand, k, 14)
  }

  /** Quadruples, then triples, pairs and single cards, each group highest first. */
  ghost function Grouped(hand: set<Card>): seq<int> {
    Held(hand, 4) + Held(hand, 3) + Held(hand, 2) + Held(hand, 1)
  }

  function Pad(s: seq<int>): seq<int> {
    s + seq(if |s| < 5 then 5 - |s| else 0, _ => 0)
  }

  ghost predicate IsFlush(hand: set<Card>) {
    forall c, d :: c in hand && d in hand ==> c.suit == d.suit
  }

  ghost function RankSet(hand: set<Card>): set<int> {
    set c | c in hand :: c.rank as int
  }

  ghost function RunTo(h: int): set<int> {
    {h, h - 1, h - 2, h - 3, h - 4}
  }

  /** The top of the straight the hand makes, the ace playing low in the wheel; 0 when it makes none. */
  ghost function StraightTop(hand: set<Card>): int {
    if RankSet(hand) == {14, 2, 3, 4, 5} then 5
    else if h :| 6 <= h <= 14 && RankSet(hand) == RunTo(h) then h
    else 0
  }

  ghost function Category(hand: set<Card>): HandCategory {
    if IsFlush(hand) && StraightTop(hand) != 0 then StraightFlush
    else if Held(hand, 4) != [] then FourOfAKind
    else if Held(hand, 3) != [] && Held(hand, 2) != [] then FullHouse
    else if IsFlush(hand) then Flush
    else if StraightTop(hand) != 0 then Straight
    else if Held(hand, 3) != [] then ThreeOfAKind
    else if |Held(hand, 2)| >= 2 then TwoPair
    else if Held(hand, 2) != [] then OnePair
    else HighCard
  }

  ghost function FiveValue(hand: set<Card>): HandValue {
    var category := Category(hand);
    HandValue(category,
              if category.Straight? || category.StraightFlush? then [StraightTop(hand), 0, 0, 0, 0]
              else Pad(Grouped(hand)))
  }

  // ---------- the best five of up to seven cards ----------

  ghost predicate FiveOf(hand: set<Card>, cards: set<Card>) {
    hand <= cards && |hand| == 5
  }

  ghost predicate IsBest(cards: set<Card>, v: HandValue) {
    && (exists hand :: FiveOf(hand, cards) && FiveValue(hand) == v)
    && (forall hand :: FiveOf(hand, cards) ==> !Less(v, FiveValue(hand)))
  }

  ghost function BestValue(cards: set<Card>): HandValue {
    if v :| IsBest(cards, v) then v else DEFAULT_VALUE
  }

  // ---------- counting ranks ----------

  ghost function CardsUpTo(hand: set<Card>, r: int): set<Card> {
    set c | c in hand && c.rank <= r
  }

  lemma RankCountAtMostFour(hand: set<Card>, r: int)
    ensures RankCount(hand, r) <= 4
  {
    var held := set c | c in hand && c.rank == r;
    if 2 <= r <= 14 {
      var all := {Card(r, 0), Card(r, 1), Card(r, 2), Card(r, 3)};
      assert held <= all;
      SubsetSize(held, all);
    } else {
      assert held == {};
    }
  }

  lemma {:induction false} LargestFirstMembers(s: set<int>, x: int)
    ensures x in LargestFirst(s) <==> x in s
    ensures |LargestFirst(s)| == |s|
  {
    if s != {} {
      assert exists m :: IsMax(s, m) by { var m := MaxExists(s); }
      var m :| IsMax(s, m) && LargestFirst(s) == [m] + LargestFirst(s - {m});
      LargestFirstMembers(s - {m}, x);
    }
  }

  lemma LargestFirstMax(s: set<int>, m: int)
    requires IsMax(s, m)
    ensures LargestFirst(s) == [m] + LargestFirst(s - {m})
  {}

  /** One rank further down. */
  lemma RanksHeldDown(hand: set<Card>, k: nat, r: int)
    requires r >= 2
    ensures RanksHeld(hand, k, r) ==
            if RankCount(hand, r) == k then [r] + RanksHeld(hand, k, r - 1) else RanksHeld(hand, k, r - 1)
  {
    var s := RanksWithin(hand, k, r);
    if RankCount(hand, r) == k {
      assert s - {r} == RanksWithin(hand, k, r - 1);
      LargestFirstMax(s, r);
    } else {
      assert s == RanksWithin(hand, k, r - 1);
    }
  }

  lemma RanksHeldNone(hand: set<Card>, k: nat)
    ensures RanksHeld(hand, k, 1) == []
  {
    assert RanksWithin(hand, k, 1) == {};
  }

  lemma HeldMembers(hand: set<Card>, k: nat, x: int)
    ensures x in Held(hand, k) <==> 2 <= x <= 14 && RankCount(hand, x) == k
  {
    LargestFirstMembers(RanksWithin(hand, k, 14), x);
  }

  /** Quadruples, triples, pairs and singles account for all the cards. */
  lemma {:induction false} GroupsCountCards(hand: set<Card>, r: int)
    requires 1 <= r <= 14
    ensures 4 * |RanksHeld(hand, 4, r)| + 3 * |RanksHeld(hand, 3, r)| + 2 * |RanksHeld(hand, 2, r)|
            + |RanksHeld(hand, 1, r)| == |CardsUpTo(hand, r)|
  {
    if r == 1 {
      assert CardsUpTo(hand, r) == {};
      RanksHeldNone(hand, 4);
      RanksHeldNone(hand, 3);
      RanksHeldNone(hand, 2);
      RanksHeldNone(hand, 1);
    } else {
      GroupsCountCards(hand, r - 1);
      RankCountAtMostFour(hand, r);
      RanksHeldDown(hand, 4, r);
      RanksHeldDown(hand, 3, r);
      RanksHeldDown(hand, 2, r);
      RanksHeldDown(hand, 1, r);
      var held := set c | c in hand && c.rank == r;
      assert CardsUpTo(hand, r) == CardsUpTo(hand, r - 1) + held;
      assert CardsUpTo(hand, r - 1) !! held;
    }
  }

  /** The shape of a five-card hand: only seven ways to group five cards by rank. */
  lemma FiveCardShapes(hand: set<Card>)
    requires |hand| == 5
    ensures 4 * |Held(hand, 4)| + 3 * |Held(hand, 3)| + 2 * |Held(hand, 2)| + |Held(hand, 1)| == 5
  {
    GroupsCountCards(hand, 14);
    assert CardsUpTo(hand, 14) == hand;
  }

  lemma RankInSet(hand: set<Card>, r: int)
    ensures r in RankSet(hand) <==> RankCount(hand, r) > 0
  {
    var held := set c | c in hand && c.rank == r;
    if r in RankSet(hand) {
      var c :| c in hand && c.rank == r;
      assert c in held;
    }
    if RankCount(hand, r) > 0 {
      assert held != {};
      var c :| c in held;
    }
  }

  lemma {:induction false} RankSetSize(hand: set<Card>)
    ensures |RankSet(hand)| <= |hand|
  {
    if hand != {} {
      var c :| c in hand;
      RankSetSize(hand - {c});
      assert RankSet(hand) == RankSet(hand - {c}) + {c.rank as int};
    }
  }

  /** Five cards that include a run of five ranks are exactly that run. */
  lemma RunIsHand(hand: set<Card>, run: set<int>)
    requires |hand| == 5 && |run| == 5 && forall r :: r in run ==> RankCount(hand, r) > 0
    ensures RankSet(hand) == run
  {
    forall r | r in run
      ensures r in RankSet(hand)
    {
      RankInSet(hand, r);
    }
    RankSetSize(hand);
    SubsetSize(run, RankSet(hand));
  }

  lemma FlushHasNoPairs(hand: set<Card>, r: int)
    requires IsFlush(hand)
    ensures RankCount(hand, r) <= 1
  {
    var held := set c | c in hand && c.rank == r;
    if held != {} {
      var c :| c in held;
      assert held <= {c};
      SubsetSize(held, {c});
    }
  }

  // ---------- properties of the best value ----------

  lemma IsBestUnique(cards: set<Card>, v: HandValue, w: HandValue)
    requires IsBest(cards, v) && IsBest(cards, w)
    ensures v == w
  {
    StrictTotalOrder(v, w, v);
  }

  lemma {:induction false} LargestValue(values: set<HandValue>) returns (v: HandValue)
    requires values != {}
    ensures v in values && forall w :: w in values ==> !Less(v, w)
    decreases values
  {
    var x :| x in values;
    var rest := values - {x};
    v := x;
    if rest == {} {
      StrictTotalOrder(x, x, x);
      assert values == {x};
    } else {
      var y := LargestValue(rest);
      v := if Less(y, x) then x else y;
      forall w | w in values
        ensures !Less(v, w)
      {
        StrictTotalOrder(y, x, w);
        StrictTotalOrder(x, y, w);
        StrictTotalOrder(x, w, y);
        assert w == x || w in rest;
      }
    }
  }

  lemma {:induction false} SomeOf(cards: set<Card>, k: nat) returns (hand: set<Card>)
    requires k <= |cards|
    ensures hand <= cards && |hand| == k
  {
    hand := {};
    if k > 0 {
      var x :| x in cards;
      var rest := SomeOf(cards - {x}, k - 1);
      hand := rest + {x};
    }
  }

  /** Five or more cards have a best hand, and `BestValue` is its value. */
  lemma BestExists(cards: set<Card>)
    requires |cards| >= 5
    ensures IsBest(cards, BestValue(cards))
  {
    var hands := set hand: set<Card> | hand <= cards && FiveOf(hand, cards);
    var values := set hand | hand in hands :: FiveValue(hand);
    var some := SomeOf(cards, 5);
    assert some in hands && FiveValue(some) in values;
    var v := LargestValue(values);
    forall hand | FiveOf(hand, cards)
      ensures !Less(v, FiveValue(hand))
    {
      assert hand in hands;
    }
    assert IsBest(cards, v);
  }

  /** Extra cards never make the best hand worse. */
  lemma MoreCardsNoWorse(cards: set<Card>, more: set<Card>)
    requires 5 <= |cards| && cards <= more
    ensures !Less(BestValue(more), BestValue(cards))
  {
    SubsetSize(cards, more);
    BestExists(cards);
    BestExists(more);
    var hand :| FiveOf(hand, cards) && FiveValue(hand) == BestValue(cards);
    assert FiveOf(hand, more);
  }

  // ---------- evaluating five cards ----------

  ghost predicate CountsOf(counts: seq<int>, hand: set<Card>) {
    |counts| == 15 && forall r :: 0 <= r < 15 ==> counts[r] == RankCount(hand, r)
  }

  /** Some rank of the run of five up to `h` is missing. */
  ghost predicate Broken(counts: seq<int>, h: int)
    requires |counts| == 15 && 6 <= h <= 14
  {
    exists r :: h - 4 <= r <= h && counts[r] == 0
  }

  /** The highest run of five ranks present, or the wheel, or 0. */
  method StraightHigh(counts: array<int>, ghost hand: set<Card>) returns (high: int)
    requires CountsOf(counts[..], hand) && |hand| == 5
    ensures high == StraightTop(hand)
  {
    var consecutive := 0;
    var rank := 14;
    while rank >= 2
      invariant 1 <= rank <= 14
      invariant 0 <= consecutive <= 4 && rank + consecutive <= 14
      invariant forall r :: rank < r <= rank + consecutive ==> counts[r] > 0
      invariant rank + consecutive < 14 ==> counts[rank + consecutive + 1] == 0
      invariant forall h :: 6 <= h <= 14 && h - 4 > rank ==> Broken(counts[..], h)
    {
      assert rank + consecutive < 14 ==> counts[..][rank + consecutive + 1] == 0;
      assert counts[..][rank] == RankCount(hand, rank);
      if counts[rank] > 0 {
        consecutive := consecutive + 1;
        if consecutive == 5 {
          high := rank + 4;
          RunFound(counts[..], hand, high);
          return;
        }
      } else {
        consecutive := 0;
      }
      rank := rank - 1;
    }
    NoRun(counts[..], hand);
    if counts[14] > 0 && counts[2] > 0 && counts[3] > 0 && counts[4] > 0 && counts[5] > 0 {
      WheelFound(counts[..], hand);
      return 5;
    }
    WheelMissing(counts[..], hand);
    return 0;
  }

  lemma RunFound(counts: seq<int>, hand: set<Card>, high: int)
    requires CountsOf(counts, hand) && |hand| == 5 && 6 <= high <= 14
    requires forall r :: high - 4 <= r <= high ==> counts[r] > 0
    ensures StraightTop(hand) == high
  {
    forall r | r in RunTo(high)
      ensures RankCount(hand, r) > 0
    {
      assert counts[r] == RankCount(hand, r);
    }
    RunIsHand(hand, RunTo(high));
    RunsDiffer(hand, high);
  }

  lemma RunsDiffer(hand: set<Card>, high: int)
    requires 6 <= high <= 14 && RankSet(hand) == RunTo(high)
    ensures StraightTop(hand) == high
  {
    assert 14 in {14, 2, 3, 4, 5} && 2 in {14, 2, 3, 4, 5};
    forall h | 6 <= h <= 14 && RankSet(hand) == RunTo(h)
      ensures h == high
    {
      assert h in RunTo(high) && high in RunTo(h);
    }
  }

  lemma NoRun(counts: seq<int>, hand: set<Card>)
    requires CountsOf(counts, hand)
    requires forall h :: 6 <= h <= 14 ==> Broken(counts, h)
    ensures forall h :: 6 <= h <= 14 ==> RankSet(hand) != RunTo(h)
  {
    forall h | 6 <= h <= 14
      ensures RankSet(hand) != RunTo(h)
    {
      assert Broken(counts, h);
      var r :| h - 4 <= r <= h && counts[r] == 0;
      RankInSet(hand, r);
      assert r in RunTo(h);
    }
  }

  lemma WheelFound(counts: seq<int>, hand: set<Card>)
    requires CountsOf(counts, hand) && |hand| == 5
    requires counts[14] > 0 && counts[2] > 0 && counts[3] > 0 && counts[4] > 0 && counts[5] > 0
    ensures StraightTop(hand) == 5
  {
    RunIsHand(hand, {14, 2, 3, 4, 5});
  }

  lemma WheelMissing(counts: seq<int>, hand: set<Card>)
    requires CountsOf(counts, hand)
    requires counts[14] == 0 || counts[2] == 0 || counts[3] == 0 || counts[4] == 0 || counts[5] == 0
    requires forall h :: 6 <= h <= 14 ==> RankSet(hand) != RunTo(h)
    ensures StraightTop(hand) == 0
  {
    var r := if counts[14] == 0 then 14 else if counts[2] == 0 then 2 else if counts[3] == 0 then 3
             else if counts[4] == 0 then 4 else 5;
    RankInSet(hand, r);
    assert r in {14, 2, 3, 4, 5};
  }

  /** `found` lists the ranks above `rank` that are held `k` times. */
  ghost predicate Listed(hand: set<Card>, k: nat, rank: int, found: seq<int>) {
    found + RanksHeld(hand, k, rank) == Held(hand, k)
  }

  lemma ListedStart(hand: set<Card>, k: nat)
    ensures Listed(hand, k, 14, [])
  {
    assert [] + RanksHeld(hand, k, 14) == RanksHeld(hand, k, 14);
  }

  /** One step down the ranks. */
  lemma ListedStep(hand: set<Card>, k: nat, rank: int, found: seq<int>)
    requires rank >= 2 && Listed(hand, k, rank, found)
    ensures Listed(hand, k, rank - 1, if RankCount(hand, rank) == k then found + [rank] else found)
  {
    RanksHeldDown(hand, k, rank);
    MoveOver(found, rank, RanksHeld(hand, k, rank - 1));
  }

  lemma MoveOver(found: seq<int>, rank: int, rest: seq<int>)
    ensures found + ([rank] + rest) == (found + [rank]) + rest
  {}

  lemma ListedEnd(hand: set<Card>, k: nat, found: seq<int>)
    requires Listed(hand, k, 1, found)
    ensures found == Held(hand, k)
  {
    RanksHeldNone(hand, k);
    assert found + [] == found;
  }

  /** The `limit` highest ranks held once (all of them when there are fewer). */
  method HighestSingles(counts: array<int>, limit: nat, ghost hand: set<Card>) returns (kickers: seq<int>)
    requires CountsOf(counts[..], hand)
    ensures kickers == Held(hand, 1)[..Min(limit, |Held(hand, 1)|)]
  {
    kickers := [];
    var rank := 14;
    ListedStart(hand, 1);
    while rank >= 2 && |kickers| < limit
      invariant 1 <= rank <= 14 && |kickers| <= limit
      invariant Listed(hand, 1, rank, kickers)
    {
      assert counts[..][rank] == RankCount(hand, rank);
      ListedStep(hand, 1, rank, kickers);
      if counts[rank] == 1 {
        kickers := kickers + [rank];
      }
      rank := rank - 1;
    }
    assert kickers == Held(hand, 1)[..|kickers|];
  }

  /** The ranks of a hand without pairs, highest first. */
  method DescendingRanks(counts: array<int>, ghost hand: set<Card>) returns (ranks: seq<int>)
    requires CountsOf(counts[..], hand) && NoPairs(hand)
    ensures ranks == Held(hand, 1)
  {
    ranks := [];
    var rank := 14;
    ListedStart(hand, 1);
    while rank >= 2
      invariant 1 <= rank <= 14
      invariant Listed(hand, 1, rank, ranks)
    {
      assert counts[..][rank] == RankCount(hand, rank) <= 1;
      ListedStep(hand, 1, rank, ranks);
      ghost var before := ranks;
      var count := 0;
      while count < counts[rank]
        invariant 0 <= count <= counts[rank]
        invariant ranks == if count == 0 then before else before + [rank]
      {
        ranks := ranks + [rank];
        count := count + 1;
      }
      rank := rank - 1;
    }
    ListedEnd(hand, 1, ranks);
  }

  ghost predicate NoPairs(hand: set<Card>) {
    forall x :: 2 <= x <= 14 ==> RankCount(hand, x) <= 1
  }

  /** The quadruple, the triple and the (at most two) pairs of the hand; 0 where there is none. */
  method FindGroups(counts: array<int>, ghost hand: set<Card>) returns (four: int, three: int, pairs: seq<int>)
    requires CountsOf(counts[..], hand)
    ensures four == Last(Held(hand, 4)) && three == Last(Held(hand, 3)) && pairs == FirstTwo(Held(hand, 2))
  {
    four, three, pairs := 0, 0, [];
    ghost var fours, threes, twos := [], [], [];
    var rank := 14;
    ListedStart(hand, 4);
    ListedStart(hand, 3);
    ListedStart(hand, 2);
    while rank >= 2
      invariant 1 <= rank <= 14
      invariant Listed(hand, 4, rank, fours) && four == Last(fours)
      invariant Listed(hand, 3, rank, threes) && three == Last(threes)
      invariant Listed(hand, 2, rank, twos) && pairs == FirstTwo(twos)
    {
      assert counts[..][rank] == RankCount(hand, rank);
      ListedStep(hand, 4, rank, fours);
      ListedStep(hand, 3, rank, threes);
      ListedStep(hand, 2, rank, twos);
      if counts[rank] == 4 {
        four, fours := rank, fours + [rank];
      } else if counts[rank] == 3 {
        three, threes := rank, threes + [rank];
      } else if counts[rank] == 2 {
        if |pairs| < 2 {
          pairs := pairs + [rank];
        }
        twos := twos + [rank];
      }
      rank := rank - 1;
    }
    ListedEnd(hand, 4, fours);
    ListedEnd(hand, 3, threes);
    ListedEnd(hand, 2, twos);
  }

  function FirstTwo(s: seq<int>): seq<int> {
    s[..Min(2, |s|)]
  }

  function Last(s: seq<int>): int {
    if s == [] then 0 else s[|s| - 1]
  }

  ghost function SuitCount(hand: set<Card>, suit: int): nat {
    |set c | c in hand && c.suit == suit|
  }

  lemma FlushBySuit(hand: set<Card>, suit: int)
    requires |hand| == 5
    ensures SuitCount(hand, suit) == 5 <==> forall c :: c in hand ==> c.suit == suit
  {
    var held := set c | c in hand && c.suit == suit;
    SubsetSize(held, hand);
    if forall c :: c in hand ==> c.suit == suit {
      assert held == hand;
    }
  }

  lemma RankCountAdd(hand: set<Card>, c: Card, r: int)
    requires c !in hand
    ensures RankCount(hand + {c}, r) == RankCount(hand, r) + if c.rank == r then 1 else 0
  {
    var before := set d | d in hand && d.rank == r;
    var after := set d | d in hand + {c} && d.rank == r;
    assert after == before + if c.rank == r then {c} else {};
  }

  lemma SuitCountAdd(hand: set<Card>, c: Card, suit: int)
    requires c !in hand
    ensures SuitCount(hand + {c}, suit) == SuitCount(hand, suit) + if c.suit == suit then 1 else 0
  {
    var before := set d | d in hand && d.suit == suit;
    var after := set d | d in hand + {c} && d.suit == suit;
    assert after == before + if c.suit == suit then {c} else {};
  }

  /** Counts ranks and suits; false when a card appears twice. */
  method CountCards(cards: seq<Card>) returns (ok: bool, counts: array<int>, suits: array<int>)
    ensures ok <==> Distinct(cards)
    ensures fresh(counts) && fresh(suits) && counts.Length == 15 && suits.Length == 4
    ensures ok ==> CountsOf(counts[..], ToSet(cards))
    ensures ok ==> forall s :: 0 <= s < 4 ==> suits[s] == SuitCount(ToSet(cards), s)
  {
    counts := new int[15](_ => 0);
    suits := new int[4](_ => 0);
    var seen := new bool[52](_ => false);
    assert forall r :: RankCount({}, r) == 0;
    for i := 0 to |cards|
      invariant Distinct(cards[..i])
      invariant forall c: Card :: seen[CardIndex(c)] <==> c in cards[..i]
      invariant forall r :: 0 <= r < 15 ==> counts[r] == RankCount(ToSet(cards[..i]), r)
      invariant forall s :: 0 <= s < 4 ==> suits[s] == SuitCount(ToSet(cards[..i]), s)
    {
      var c := cards[i];
      if seen[CardIndex(c)] {
        ok := false;
        RepeatedCard(cards, i);
        return;
      }
      ghost var before := ToSet(cards[..i]);
      assert cards[..i + 1] == cards[..i] + [c];
      assert ToSet(cards[..i + 1]) == before + {c};
      forall r { RankCountAdd(before, c, r); }
      forall s { SuitCountAdd(before, c, s); }
      forall d: Card | CardIndex(d) == CardIndex(c)
        ensures d == c
      {
        CardIndexInjective(d, c);
      }
      seen[CardIndex(c)] := true;
      counts[c.rank] := counts[c.rank] + 1;
      suits[c.suit] := suits[c.suit] + 1;
    }
    assert cards[..|cards|] == cards;
    ok := true;
  }

  /** Whether all five cards share a suit. */
  method HasFlush(suits: array<int>, ghost hand: set<Card>) returns (flush: bool)
    requires |hand| == 5 && suits.Length == 4
    requires forall s :: 0 <= s < 4 ==> suits[s] == SuitCount(hand, s)
    ensures flush <==> IsFlush(hand)
  {
    ghost var some :| some in hand;
    forall s { FlushBySuit(hand, s); }
    for i := 0 to 4
      invariant forall s :: 0 <= s < i ==> suits[s] != 5
    {
      if suits[i] == 5 {
        return true;
      }
    }
    assert SuitCount(hand, some.suit) != 5;
    return false;
  }

  lemma NoGroups(hand: set<Card>)
    requires |hand| == 5 && Held(hand, 4) == [] && Held(hand, 3) == [] && Held(hand, 2) == []
    ensures NoPairs(hand) && Held(hand, 1) == Pad(Grouped(hand))
  {
    FiveCardShapes(hand);
    forall x | 2 <= x <= 14
      ensures RankCount(hand, x) <= 1
    {
      HeldMembers(hand, 4, x);
      HeldMembers(hand, 3, x);
      HeldMembers(hand, 2, x);
      RankCountAtMostFour(hand, x);
    }
    assert [] + [] + [] + Held(hand, 1) == Held(hand, 1);
  }

  lemma FlushNoGroups(hand: set<Card>)
    requires IsFlush(hand)
    ensures Held(hand, 4) == [] && Held(hand, 3) == [] && Held(hand, 2) == []
  {
    NoneHeld(hand, 4);
    NoneHeld(hand, 3);
    NoneHeld(hand, 2);
  }

  lemma NoneHeld(hand: set<Card>, k: nat)
    requires IsFlush(hand) && k >= 2
    ensures Held(hand, k) == []
  {
    var h := Held(hand, k);
    if h != [] {
      HeldMembers(hand, k, h[0]);
      FlushHasNoPairs(hand, h[0]);
    }
  }

  /** High cards, pairs: no straight, no flush, no three of a kind. */
  method EvaluatePairs(counts: array<int>, pairs: seq<int>, ghost hand: set<Card>) returns (v: HandValue)
    requires |hand| == 5 && CountsOf(counts[..], hand) && pairs == FirstTwo(Held(hand, 2))
    requires !IsFlush(hand) && StraightTop(hand) == 0 && Held(hand, 4) == [] && Held(hand, 3) == []
    ensures v == FiveValue(hand)
  {
    if |pairs| >= 2 {
      var kickers := HighestSingles(counts, 1, hand);
      TwoPairTiebreak(hand);
      return HandValue(TwoPair, [pairs[0], pairs[1], Last(kickers), 0, 0]);
    }
    if |pairs| == 1 {
      var kickers := HighestSingles(counts, 3, hand);
      OnePairTiebreak(hand);
      return HandValue(OnePair, Pad([pairs[0]] + kickers));
    }
    NoGroups(hand);
    var ranks := DescendingRanks(counts, hand);
    return HandValue(HighCard, ranks);
  }

  /** Anything below a full house. */
  method EvaluateLow(counts: array<int>, flush: bool, straight: int, three: int, pairs: seq<int>, ghost hand: set<Card>)
    returns (v: HandValue)
    requires |hand| == 5 && CountsOf(counts[..], hand)
    requires flush == IsFlush(hand) && straight == StraightTop(hand) && !(flush && straight != 0)
    requires three == Last(Held(hand, 3)) && pairs == FirstTwo(Held(hand, 2))
    requires Held(hand, 4) == [] && (Held(hand, 3) == [] || Held(hand, 2) == [])
    ensures v == FiveValue(hand)
  {
    HeldPositive(hand, 3);
    if flush {
      FlushNoGroups(hand);
      NoGroups(hand);
      var ranks := DescendingRanks(counts, hand);
      return HandValue(Flush, ranks);
    }
    if straight != 0 {
      return HandValue(Straight, [straight, 0, 0, 0, 0]);
    }
    if three != 0 {
      var kickers := HighestSingles(counts, 2, hand);
      ThreeTiebreak(hand);
      return HandValue(ThreeOfAKind, Pad([three] + kickers));
    }
    v := EvaluatePairs(counts, pairs, hand);
  }

  /** Anything but a straight flush. */
  method EvaluateGroups(counts: array<int>, flush: bool, straight: int, ghost hand: set<Card>) returns (v: HandValue)
    requires |hand| == 5 && CountsOf(counts[..], hand)
    requires flush == IsFlush(hand) && straight == StraightTop(hand) && !(flush && straight != 0)
    ensures v == FiveValue(hand)
  {
    var four, three, pairs := FindGroups(counts, hand);
    HeldPositive(hand, 4);
    HeldPositive(hand, 3);
    if four != 0 {
      var kickers := HighestSingles(counts, 1, hand);
      FourTiebreak(hand);
      return HandValue(FourOfAKind, [four, Last(kickers), 0, 0, 0]);
    }
    if three != 0 && |pairs| > 0 {
      FullHouseTiebreak(hand);
      return HandValue(FullHouse, [three, pairs[0], 0, 0, 0]);
    }
    v := EvaluateLow(counts, flush, straight, three, pairs, hand);
  }

  /**
   The value of five cards: refused exactly when a card appears twice, otherwise the value of
   the set of cards, so the order of the cards does not matter.
   */
  method EvaluateFive(cards: seq<Card>) returns (r: Option<HandValue>)
    requires |cards| == 5
    ensures r == if Distinct(cards) then Some(FiveValue(ToSet(cards))) else None
  {
    var ok, counts, suits := CountCards(cards);
    if !ok {
      return None;
    }
    ghost var hand := ToSet(cards);
    DistinctSize(cards);
    var flush := HasFlush(suits, hand);
    var straight := StraightHigh(counts, hand);
    if flush && straight != 0 {
      return Some(HandValue(StraightFlush, [straight, 0, 0, 0, 0]));
    }
    var v := EvaluateGroups(counts, flush, straight, hand);
    return Some(v);
  }

  lemma HeldPositive(hand: set<Card>, k: nat)
    ensures Held(hand, k) != [] ==> Last(Held(hand, k)) >= 2
  {
    var h := Held(hand, k);
    if h != [] {
      HeldMembers(hand, k, h[|h| - 1]);
    }
  }

  lemma FourTiebreak(hand: set<Card>)
    requires |hand| == 5 && Held(hand, 4) != []
    ensures |Held(hand, 4)| == 1 && |Held(hand, 1)| == 1
    ensures Pad(Grouped(hand)) == [Held(hand, 4)[0], Held(hand, 1)[0], 0, 0, 0]
  {
    FiveCardShapes(hand);
    assert Grouped(hand) == [Held(hand, 4)[0], Held(hand, 1)[0]];
  }

  lemma FullHouseTiebreak(hand: set<Card>)
    requires |hand| == 5 && Held(hand, 4) == [] && Held(hand, 3) != [] && Held(hand, 2) != []
    ensures |Held(hand, 3)| == 1 && |Held(hand, 2)| == 1
    ensures Pad(Grouped(hand)) == [Held(hand, 3)[0], Held(hand, 2)[0], 0, 0, 0]
  {
    FiveCardShapes(hand);
    assert Grouped(hand) == [Held(hand, 3)[0], Held(hand, 2)[0]];
  }

  lemma ThreeTiebreak(hand: set<Card>)
    requires |hand| == 5 && Held(hand, 4) == [] && Held(hand, 3) != [] && Held(hand, 2) == []
    ensures |Held(hand, 3)| == 1 && |Held(hand, 1)| == 2
    ensures Grouped(hand) == [Held(hand, 3)[0]] + Held(hand, 1)
  {
    FiveCardShapes(hand);
  }

  lemma TwoPairTiebreak(hand: set<Card>)
    requires |hand| == 5 && Held(hand, 4) == [] && Held(hand, 3) == [] && |Held(hand, 2)| >= 2
    ensures |Held(hand, 2)| == 2 && |Held(hand, 1)| == 1
    ensures Pad(Grouped(hand)) == [Held(hand, 2)[0], Held(hand, 2)[1], Held(hand, 1)[0], 0, 0]
  {
    FiveCardShapes(hand);
    TwoAndOne(Held(hand, 2), Held(hand, 1));
  }

  lemma TwoAndOne(p: seq<int>, q: seq<int>)
    requires |p| == 2 && |q| == 1
    ensures [] + [] + p + q == [p[0], p[1], q[0]]
  {}

  lemma OnePairTiebreak(hand: set<Card>)
    requires |hand| == 5 && Held(hand, 4) == [] && Held(hand, 3) == [] && |Held(hand, 2)| == 1
    ensures |Held(hand, 1)| == 3
    ensures Grouped(hand) == [Held(hand, 2)[0]] + Held(hand, 1)
  {
    FiveCardShapes(hand);
  }
}
