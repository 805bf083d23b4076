/**
 Which hand beats which, told from the cards: how often each rank is held, whether the
 suits agree, and whether the ranks form a run.
 */
module HandOrder {
  import opened Cards
  import opened HandValues
  import opened HandEvaluator
  import opened Sums

  ghost predicate Beats(g: set<Card>, h: set<Card>) {
    Less(FiveValue(h), FiveValue(g))
  }

  // ---------- what a hand makes ----------

  /** The ranks are a run with the given top card; an ace may play below a two. */
  ghost predicate RunsTo(hand: set<Card>, top: int) {
    || (top == 5 && RankSet(hand) == {14, 2, 3, 4, 5})
    || (6 <= top <= 14 && RankSet(hand) == {top, top - 1, top - 2, top - 3, top - 4})
  }

  ghost predicate IsRun(hand: set<Card>) {
    exists top :: RunsTo(hand, top)
  }

  /** Some rank is held exactly `k` times. */
  ghost predicate HoldsTimes(hand: set<Card>, k: nat) {
    exists r :: 2 <= r <= 14 && RankCount(hand, r) == k
  }

  ghost predicate HoldsTwoPairs(hand: set<Card>) {
    exists r, q :: 2 <= r < q <= 14 && RankCount(hand, r) == 2 && RankCount(hand, q) == 2
  }

  /** What it takes for each of the nine classes, from a high card (0) to a straight flush (8). */
  ghost predicate Makes(hand: set<Card>, tier: nat) {
    match tier
    case 8 => IsFlush(hand) && IsRun(hand)
    case 7 => HoldsTimes(hand, 4)
    case 6 => HoldsTimes(hand, 3) && HoldsTimes(hand, 2)
    case 5 => IsFlush(hand)
    case 4 => IsRun(hand)
    case 3 => HoldsTimes(hand, 3)
    case 2 => HoldsTwoPairs(hand)
    case 1 => HoldsTimes(hand, 2)
    case 0 => true
    case _ => false
  }

  function ClassName(tier: nat): HandCategory
    requires tier <= 8
  {
    [HighCard, OnePair, TwoPair, ThreeOfAKind, Straight, Flush, FullHouse, FourOfAKind, StraightFlush][tier]
  }

  lemma StraightTopIs(hand: set<Card>, top: int)
    requires RunsTo(hand, top)
    ensures StraightTop(hand) == top
  {
    if RankSet(hand) != {14, 2, 3, 4, 5} {
      assert RankSet(hand) == RunTo(top);
      var h := StraightTop(hand);
      assert 6 <= h <= 14 && RankSet(hand) == RunTo(h);
      assert top in RunTo(h) && h in RunTo(top);
    } else {
      assert 2 in RankSet(hand) && 14 in RankSet(hand);
      assert top == 5 || (14 <= top && 2 >= top - 4);
    }
  }

  lemma StraightIsRun(hand: set<Card>)
    ensures StraightTop(hand) != 0 <==> IsRun(hand)
  {
    if IsRun(hand) {
      var top :| RunsTo(hand, top);
      StraightTopIs(hand, top);
    }
    if StraightTop(hand) != 0 {
      assert RunsTo(hand, StraightTop(hand));
    }
  }

  lemma HeldMeansHolds(hand: set<Card>, k: nat)
    ensures Held(hand, k) != [] <==> HoldsTimes(hand, k)
  {
    if Held(hand, k) != [] {
      HeldMembers(hand, k, Held(hand, k)[0]);
    }
    if HoldsTimes(hand, k) {
      var r :| 2 <= r <= 14 && RankCount(hand, r) == k;
      HeldMembers(hand, k, r);
    }
  }

  lemma TwoHeld(hand: set<Card>)
    ensures |Held(hand, 2)| >= 2 <==> HoldsTwoPairs(hand)
  {
    var s := RanksWithin(hand, 2, 14);
    LargestFirstMembers(s, 0);
    if |s| >= 2 {
      var x := AnyMember(s);
      assert |s - {x}| == |s| - 1;
      var y := AnyMember(s - {x});
      var r, q := Min(x, y), Max(x, y);
      assert 2 <= r < q <= 14 && RankCount(hand, r) == 2 && RankCount(hand, q) == 2;
    }
    if HoldsTwoPairs(hand) {
      var r, q :| 2 <= r < q <= 14 && RankCount(hand, r) == 2 && RankCount(hand, q) == 2;
      SubsetSize({r, q}, s);
    }
  }

  /** A hand is called after the highest class it makes. */
  lemma NamedAfterClass(hand: set<Card>, tier: nat)
    requires tier <= 8 && Makes(hand, tier) && forall c :: tier < c <= 8 ==> !Makes(hand, c)
    ensures FiveValue(hand).category == ClassName(tier)
  {
    StraightIsRun(hand);
    HeldMeansHolds(hand, 4);
    HeldMeansHolds(hand, 3);
    HeldMeansHolds(hand, 2);
    TwoHeld(hand);
    assert tier < 8 ==> !Makes(hand, 8);
    assert tier < 7 ==> !Makes(hand, 7);
    assert tier < 6 ==> !Makes(hand, 6);
    assert tier < 5 ==> !Makes(hand, 5);
    assert tier < 4 ==> !Makes(hand, 4);
    assert tier < 3 ==> !Makes(hand, 3);
    assert tier < 2 ==> !Makes(hand, 2);
    assert tier < 1 ==> !Makes(hand, 1);
  }

  lemma {:induction false} HighestClass(hand: set<Card>, bound: nat) returns (tier: nat)
    requires bound <= 8
    ensures tier <= bound && Makes(hand, tier) && forall c :: tier < c <= bound ==> !Makes(hand, c)
  {
    tier := bound;
    if !Makes(hand, bound) {
      tier := HighestClass(hand, bound - 1);
    }
  }

  /**
   Whoever makes a class beats whoever makes neither that class nor a higher one: a straight
   flush beats everything else, four of a kind beat a full house, a full house a flush, a
   flush a straight, a straight three of a kind, these two pairs, a pair, a high card.
   */
  lemma ClassDecides(g: set<Card>, h: set<Card>, tier: nat)
    requires tier <= 8 && Makes(g, tier) && forall c :: tier <= c <= 8 ==> !Makes(h, c)
    ensures Beats(g, h)
  {
    var a := HighestClass(g, 8);
    var b := HighestClass(h, 8);
    NamedAfterClass(g, a);
    NamedAfterClass(h, b);
    assert b < tier <= a;
    HigherNameBeats(g, h, a, b);
  }

  lemma HigherNameBeats(g: set<Card>, h: set<Card>, a: nat, b: nat)
    requires b < a <= 8 && FiveValue(g).category == ClassName(a) && FiveValue(h).category == ClassName(b)
    ensures Beats(g, h)
  {
    NameRank(a);
    NameRank(b);
  }

  lemma NameRank(tier: nat)
    requires tier <= 8
    ensures CategoryRank(ClassName(tier)) == tier
  {}

  // ---------- hands of the same class ----------

  /** Runs compare by their top cards. */
  lemma TopDecides(g: set<Card>, h: set<Card>, top: int, lower: int)
    requires RunsTo(g, top) && RunsTo(h, lower) && lower < top && FiveValue(g).category == FiveValue(h).category
    requires FiveValue(g).category in {Straight, StraightFlush}
    ensures Beats(g, h)
  {
    StraightTopIs(g, top);
    StraightTopIs(h, lower);
  }

  /** The ranks held exactly `k` times. */
  ghost function RanksOf(hand: set<Card>, k: nat): set<int> {
    set r | 2 <= r <= 14 && RankCount(hand, r) == k
  }

  lemma {:induction false} LexPrefix(p: seq<int>, a: seq<int>, b: seq<int>)
    ensures LexLess(p + a, p + b) <==> LexLess(a, b)
  {
    if p == [] {
      assert p + a == a && p + b == b;
    } else {
      LexPrefix(p[1..], a, b);
      assert (p + a)[1..] == p[1..] + a && (p + b)[1..] == p[1..] + b;
    }
  }

  /** Two sets of the same size: the largest number that only one of them has decides. */
  lemma {:induction false} LargestDiffers(s: set<int>, t: set<int>, r: int, x: seq<int>, y: seq<int>)
    requires |s| == |t| && r in s && r !in t && forall q :: q > r ==> (q in s <==> q in t)
    ensures LexLess(LargestFirst(t) + x, LargestFirst(s) + y)
    decreases s
  {
    assert |s| == |s - {r}| + 1;
    var m := MaxExists(s);
    var n := MaxExists(t);
    LargestFirstMax(s, m);
    LargestFirstMax(t, n);
    var a, b := LargestFirst(s - {m}), LargestFirst(t - {n});
    assert ([n] + b) + x == [n] + (b + x) && ([m] + a) + y == [m] + (a + y);
    if m == r {
      assert n < m;
      assert (LargestFirst(t) + x)[0] == n && (LargestFirst(s) + y)[0] == m;
    } else {
      assert m in t && n == m;
      LargestDiffers(s - {m}, t - {m}, r, x, y);
      LexPrefix([m], b + x, a + y);
    }
  }

  /** How many ranks are held four, three, two and one times is settled by the class. */
  lemma ClassShape(g: set<Card>, h: set<Card>, k: nat)
    requires |g| == 5 && |h| == 5 && 1 <= k <= 4
    requires FiveValue(g).category == FiveValue(h).category
    requires FiveValue(g).category !in {Straight, StraightFlush}
    ensures |RanksOf(g, k)| == |RanksOf(h, k)|
  {
    HandShape(g);
    HandShape(h);
  }

  lemma HandShape(g: set<Card>)
    requires |g| == 5 && FiveValue(g).category !in {Straight, StraightFlush}
    ensures var c := FiveValue(g).category;
            && |RanksOf(g, 4)| == (if c == FourOfAKind then 1 else 0)
            && |RanksOf(g, 3)| == (if c in {FullHouse, ThreeOfAKind} then 1 else 0)
            && |RanksOf(g, 2)| == (if c == TwoPair then 2 else if c in {FullHouse, OnePair} then 1 else 0)
            && |RanksOf(g, 1)| == (match c
                                   case FourOfAKind => 1
                                   case FullHouse => 0
                                   case ThreeOfAKind => 2
                                   case TwoPair => 1
                                   case OnePair => 3
                                   case _ => 5)
  {
    FiveCardShapes(g);
    HeldSize(g, 4);
    HeldSize(g, 3);
    HeldSize(g, 2);
    HeldSize(g, 1);
    if IsFlush(g) {
      NoGroups(g);
    }
  }

  lemma HeldSize(g: set<Card>, k: nat)
    ensures |Held(g, k)| == |RanksOf(g, k)| && Held(g, k) == LargestFirst(RanksOf(g, k))
  {
    assert RanksOf(g, k) == RanksWithin(g, k, 14);
    LargestFirstMembers(RanksOf(g, k), 0);
  }

  lemma NoGroups(g: set<Card>)
    requires IsFlush(g)
    ensures RanksOf(g, 4) == {} && RanksOf(g, 3) == {} && RanksOf(g, 2) == {}
  {
    forall r: int
      ensures RankCount(g, r) <= 1
    {
      FlushHasNoPairs(g, r);
    }
  }

  /** The rest of the tiebreak after the ranks held more than `k` times. */
  ghost function Below(g: set<Card>, k: nat): seq<int> {
    if k == 0 then [] else Held(g, k) + Below(g, k - 1)
  }

  lemma GroupedIs(g: set<Card>)
    ensures Grouped(g) == Below(g, 4)
  {
    assert Below(g, 1) == Held(g, 1) + [] == Held(g, 1);
    assert Below(g, 2) == Held(g, 2) + Held(g, 1);
    assert Below(g, 3) == Held(g, 3) + (Held(g, 2) + Held(g, 1));
    assert Below(g, 4) == Held(g, 4) + (Held(g, 3) + (Held(g, 2) + Held(g, 1)));
  }

  lemma {:induction false} BelowDecides(g: set<Card>, h: set<Card>, k: nat, r: int, from: nat, x: seq<int>, y: seq<int>)
    requires 1 <= k <= from <= 4 && |RanksOf(g, k)| == |RanksOf(h, k)|
    requires forall j :: k < j <= from ==> RanksOf(g, j) == RanksOf(h, j)
    requires r in RanksOf(g, k) && r !in RanksOf(h, k)
    requires forall q :: q > r ==> (q in RanksOf(g, k) <==> q in RanksOf(h, k))
    ensures LexLess(Below(h, from) + x, Below(g, from) + y)
    decreases from
  {
    HeldSize(g, from);
    HeldSize(h, from);
    var a, b := Below(g, from - 1), Below(h, from - 1);
    assert Below(g, from) + y == Held(g, from) + (a + y) && Below(h, from) + x == Held(h, from) + (b + x);
    if from == k {
      LargestDiffers(RanksOf(g, k), RanksOf(h, k), r, b + x, a + y);
    } else {
      assert RanksOf(g, from) == RanksOf(h, from);
      BelowDecides(g, h, k, r, from - 1, x, y);
      LexPrefix(Held(g, from), b + x, a + y);
    }
  }

  /**
   Other hands of the same class compare first by the ranks held four times, then three
   times, then pairs, then single cards: the highest rank that only one of them has wins.
   */
  lemma RanksDecide(g: set<Card>, h: set<Card>, k: nat, r: int)
    requires |g| == 5 && |h| == 5 && 1 <= k <= 4
    requires FiveValue(g).category == FiveValue(h).category
    requires FiveValue(g).category !in {Straight, StraightFlush}
    requires forall j :: k < j <= 4 ==> RanksOf(g, j) == RanksOf(h, j)
    requires r in RanksOf(g, k) && r !in RanksOf(h, k)
    requires forall q :: q > r ==> (q in RanksOf(g, k) <==> q in RanksOf(h, k))
    ensures Beats(g, h)
  {
    ClassShape(g, h, k);
    GroupedIs(g);
    GroupedIs(h);
    BelowDecides(g, h, k, r, 4, Zeros(h), Zeros(g));
    assert Pad(Grouped(g)) == Below(g, 4) + Zeros(g) && Pad(Grouped(h)) == Below(h, 4) + Zeros(h);
  }

  ghost function Zeros(g: set<Card>): seq<int> {
    seq(if |Grouped(g)| < 5 then 5 - |Grouped(g)| else 0, _ => 0)
  }

  /** Hands of the same class with the same ranks are equal, whatever their suits. */
  lemma SameRanksTie(g: set<Card>, h: set<Card>)
    requires FiveValue(g).category == FiveValue(h).category
    requires forall r :: 2 <= r <= 14 ==> RankCount(g, r) == RankCount(h, r)
    ensures FiveValue(g) == FiveValue(h)
  {
    SameHeld(g, h, 1);
    SameHeld(g, h, 2);
    SameHeld(g, h, 3);
    SameHeld(g, h, 4);
    assert RankSet(g) == RankSet(h) by {
      forall r
        ensures r in RankSet(g) <==> r in RankSet(h)
      {
        RankInSet(g, r);
        RankInSet(h, r);
      }
    }
    if IsRun(g) {
      var top :| RunsTo(g, top);
      assert RunsTo(h, top);
      StraightTopIs(g, top);
      StraightTopIs(h, top);
    } else {
      assert IsRun(h) ==> exists top :: RunsTo(h, top) && RunsTo(g, top);
      StraightIsRun(g);
      StraightIsRun(h);
    }
  }

  lemma SameHeld(g: set<Card>, h: set<Card>, k: nat)
    requires forall r :: 2 <= r <= 14 ==> RankCount(g, r) == RankCount(h, r)
    ensures Held(g, k) == Held(h, k)
  {
    assert RanksWithin(g, k, 14) == RanksWithin(h, k, 14);
  }

  // ---------- an instance ----------

  /** A flush to the king beats a straight to the nine. */
  lemma FlushBeatsStraight(g: set<Card>, h: set<Card>)
    requires IsFlush(g) && IsRun(h) && !IsFlush(h)
    requires |h| == 5
    ensures Beats(g, h)
  {
    RunHasNoPairs(h);
    ClassDecides(g, h, 5);
  }

  lemma RunHasNoPairs(h: set<Card>)
    requires |h| == 5 && IsRun(h)
    ensures !HoldsTimes(h, 2) && !HoldsTimes(h, 3) && !HoldsTimes(h, 4)
  {
    RunSize(h);
    forall r
      ensures RankCount(h, r) <= 1
    {
      OnePerRank(h, r);
    }
  }

  lemma RunSize(h: set<Card>)
    requires IsRun(h)
    ensures |RankSet(h)| == 5
  {
    var top :| RunsTo(h, top);
  }

  /** Five cards of five ranks: one of each. */
  lemma OnePerRank(h: set<Card>, r: int)
    requires |h| == 5 && |RankSet(h)| == 5
    ensures RankCount(h, r) <= 1
  {
    var held := set c | c in h && c.rank == r;
    if |held| >= 2 {
      var c := AnyMember(held);
      assert RankSet(h - {c}) == RankSet(h) by {
        var d := AnyMember(held - {c});
        forall q | q in RankSet(h)
          ensures q in RankSet(h - {c})
        {
          var e :| e in h && e.rank == q;
          assert (if e == c then d else e) in h - {c};
        }
      }
      RankSetSize(h - {c});
    }
  }
}
