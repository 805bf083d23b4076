/** Playing cards, as `card.hpp` numbers them. */
module Cards {
  type Rank = r: int | 2 <= r <= 14 witness 2
  type Suit = s: int | 0 <= s <= 3 witness 0

  datatype Card = Card(rank: Rank, suit: Suit)

  /** The value-initialised card of the source: the two of clubs. */
  const DEFAULT_CARD := Card(2, 0)

  function CardIndex(c: Card): (r: int)
    ensures 0 <= r < 52
  {
    c.suit * 13 + c.rank - 2
  }

  lemma CardIndexInjective(c: Card, d: Card)
    requires CardIndex(c) == CardIndex(d)
    ensures c == d
  {
    assert c.suit == CardIndex(c) / 13;
    assert d.suit == CardIndex(d) / 13;
  }

  ghost predicate Distinct<T>(s: seq<T>) {
    forall i, j :: 0 <= i < j < |s| ==> s[i] != s[j]
  }

  ghost function ToSet<T(!new)>(s: seq<T>): (r: set<T>)
    ensures forall x :: x in r <==> x in s
  {
    set x | x in s
  }

  lemma {:induction false} DistinctSize<T(!new)>(s: seq<T>)
    requires Distinct(s)
    ensures |ToSet(s)| == |s|
  {
    if s != [] {
      var n := |s| - 1;
      DistinctSize(s[..n]);
      assert s == s[..n] + [s[n]];
      assert ToSet(s) == ToSet(s[..n]) + {s[n]};
    }
  }

  lemma {:induction false} DistinctOnce<T>(s: seq<T>, x: T)
    requires Distinct(s)
    ensures multiset(s)[x] <= 1
  {
    if s != [] {
      var n := |s| - 1;
      assert s == s[..n] + [s[n]];
      DistinctOnce(s[..n], x);
      assert s[n] !in s[..n];
    }
  }

  lemma RepeatedCard(cards: seq<Card>, i: nat)
    requires i < |cards| && cards[i] in cards[..i]
    ensures !Distinct(cards)
  {
    var j :| 0 <= j < i && cards[..i][j] == cards[i];
    assert cards[j] == cards[i];
  }

  /** Whether some card is listed twice. */
  method HasRepeats(cards: seq<Card>) returns (repeats: bool)
    ensures repeats <==> !Distinct(cards)
  {
    var seen := new bool[52](_ => false);
    for i := 0 to |cards|
      invariant Distinct(cards[..i])
      invariant forall c: Card :: seen[CardIndex(c)] <==> c in cards[..i]
    {
      var c := cards[i];
      if seen[CardIndex(c)] {
        RepeatedCard(cards, i);
        return true;
      }
      assert cards[..i + 1] == cards[..i] + [c];
      forall d: Card | CardIndex(d) == CardIndex(c)
        ensures d == c
      {
        CardIndexInjective(d, c);
      }
      seen[CardIndex(c)] := true;
    }
    assert cards[..|cards|] == cards;
    return false;
  }
}
