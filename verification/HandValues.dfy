/** Hand values and their ordering operators (`hand_evaluator.cpp`, lines 42-64). */
module HandValues {

  datatype HandCategory =
    | HighCard | OnePair | TwoPair | ThreeOfAKind | Straight
    | Flush | FullHouse | FourOfAKind | StraightFlush

  datatype HandValue = HandValue(category: HandCategory, tiebreak: seq<int>)

  const DEFAULT_VALUE := HandValue(HighCard, [0, 0, 0, 0, 0])

  function CategoryRank(c: HandCategory): int {
    match c
    case HighCard => 0
    case OnePair => 1
    case TwoPair => 2
    case ThreeOfAKind => 3
    case Straight => 4
    case Flush => 5
    case FullHouse => 6
    case FourOfAKind => 7
    case StraightFlush => 8
  }

  predicate LexLess(a: seq<int>, b: seq<int>) {
    if b == [] then false
    else if a == [] then true
    else a[0] < b[0] || (a[0] == b[0] && LexLess(a[1..], b[1..]))
  }

  predicate Less(a: HandValue, b: HandValue) {
    || CategoryRank(a.category) < CategoryRank(b.category)
    || (a.category == b.category && LexLess(a.tiebreak, b.tiebreak))
  }

  lemma {:induction false} LexTrichotomy(a: seq<int>, b: seq<int>)
    ensures a == b ==> !LexLess(a, b)
    ensures a != b ==> (LexLess(a, b) <==> !LexLess(b, a))
  {
    if a != [] && b != [] {
      LexTrichotomy(a[1..], b[1..]);
      assert a == [a[0]] + a[1..];
      assert b == [b[0]] + b[1..];
    }
  }

  lemma {:induction false} LexTransitive(a: seq<int>, b: seq<int>, c: seq<int>)
    requires LexLess(a, b) && LexLess(b, c)
    ensures LexLess(a, c)
  {
    if a != [] && a[0] == b[0] == c[0] {
      LexTransitive(a[1..], b[1..], c[1..]);
    }
  }

  /** The comparison is a strict total order, so "the best hand" is well defined. */
  lemma StrictTotalOrder(a: HandValue, b: HandValue, c: HandValue)
    ensures !Less(a, a)
    ensures a != b ==> (Less(a, b) <==> !Less(b, a))
    ensures Less(a, b) && Less(b, c) ==> Less(a, c)
  {
    LexTrichotomy(a.tiebreak, a.tiebreak);
    LexTrichotomy(a.tiebreak, b.tiebreak);
    if Less(a, b) && Less(b, c) && a.category == b.category == c.category {
      LexTransitive(a.tiebreak, b.tiebreak, c.tiebreak);
    }
  }
}
