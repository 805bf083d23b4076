/** The deck (`deck.cpp`, lines 78-115): shuffling, checking and drawing. */
module Decks {
  import opened Wrappers
  import opened Cards

  // ---------- the shuffle ----------

  /** One random choice per position; the choice for position i is at most i. */
  ghost predicate ValidChoices(choices: seq<nat>, n: nat) {
    |choices| == n && forall i :: 0 <= i < n ==> choices[i] <= i
  }

  function Swapped<T>(s: seq<T>, i: nat, j: nat): (r: seq<T>)
    requires i < |s| && j < |s|
    ensures |r| == |s|
  {
    s[i := s[j]][j := s[i]]
  }

  /** The order after the positions k-1 down to 1 have been swapped with their choices. */
  ghost function Shuffled<T>(s: seq<T>, choices: seq<nat>, k: nat): (r: seq<T>)
    requires ValidChoices(choices, |s|) && k <= |s|
    ensures |r| == |s|
    ensures r[k..] == s[k..]
    decreases k
  {
    if k <= 1 then s else Shuffled(Swapped(s, k - 1, choices[k - 1]), choices, k - 1)
  }

  lemma SwapKeeps<T>(s: seq<T>, i: nat, j: nat)
    requires i < |s| && j < |s|
    ensures multiset(Swapped(s, i, j)) == multiset(s)
  {}

  /** Shuffling only reorders. */
  lemma {:induction false} ShuffleIsPermutation<T>(s: seq<T>, choices: seq<nat>, k: nat)
    requires ValidChoices(choices, |s|) && k <= |s|
    ensures multiset(Shuffled(s, choices, k)) == multiset(s)
    decreases k
  {
    if k > 1 {
      SwapKeeps(s, k - 1, choices[k - 1]);
      ShuffleIsPermutation(Swapped(s, k - 1, choices[k - 1]), choices, k - 1);
    }
  }

  lemma DistinctSwap<T>(s: seq<T>, i: nat, j: nat)
    requires Distinct(s) && i < |s| && j < |s|
    ensures Distinct(Swapped(s, i, j))
  {
    var r := Swapped(s, i, j);
    forall x, y | 0 <= x < y < |r|
      ensures r[x] != r[y]
    {
      var x', y' := if x == i then j else if x == j then i else x, if y == i then j else if y == j then i else y;
      assert r[x] == s[x'] && r[y] == s[y'] && x' != y';
    }
  }

  /** What ends up on position k-1 is what was chosen for it. */
  lemma ChosenCard<T>(s: seq<T>, c: seq<nat>, k: nat)
    requires ValidChoices(c, |s|) && 1 < k <= |s|
    ensures Shuffled(s, c, k)[k - 1] == s[c[k - 1]]
  {
    var u := Swapped(s, k - 1, c[k - 1]);
    var r := Shuffled(u, c, k - 1);
    assert r[k - 1] == r[k - 1..][0];
    assert u[k - 1] == u[k - 1..][0];
  }

  /** Different choices give different orders. */
  lemma {:induction false} ShuffleInjective<T>(s: seq<T>, c: seq<nat>, d: seq<nat>, k: nat)
    requires Distinct(s) && ValidChoices(c, |s|) && ValidChoices(d, |s|) && k <= |s|
    requires Shuffled(s, c, k) == Shuffled(s, d, k)
    ensures forall i :: 0 <= i < k ==> c[i] == d[i]
    decreases k
  {
    if k == 1 {
      assert c[0] == 0 && d[0] == 0;
    } else if k > 1 {
      SameChoice(s, c, d, k);
      DistinctSwap(s, k - 1, c[k - 1]);
      ShuffleInjective(Swapped(s, k - 1, c[k - 1]), c, d, k - 1);
    }
  }

  lemma SameChoice<T>(s: seq<T>, c: seq<nat>, d: seq<nat>, k: nat)
    requires Distinct(s) && ValidChoices(c, |s|) && ValidChoices(d, |s|) && 1 < k <= |s|
    requires Shuffled(s, c, k) == Shuffled(s, d, k)
    ensures c[k - 1] == d[k - 1]
  {
    ChosenCard(s, c, k);
    ChosenCard(s, d, k);
    assert s[c[k - 1]] == s[d[k - 1]];
  }

  lemma Cancel<T>(a: multiset<T>, b: multiset<T>, c: multiset<T>)
    requires a + c == b + c
    ensures a == b
  {
    assert a == (a + c) - c;
    assert b == (b + c) - c;
  }

  lemma FindAmongFirst<T>(s: seq<T>, t: seq<T>, k: nat) returns (j: nat)
    requires |s| == |t| && multiset(s) == multiset(t) && 0 < k <= |s| && s[k..] == t[k..]
    ensures j < k && s[j] == t[k - 1]
  {
    assert s == s[..k] + s[k..] && t == t[..k] + t[k..];
    Cancel(multiset(s[..k]), multiset(t[..k]), multiset(t[k..]));
    assert t[k - 1] == t[..k][k - 1];
    assert t[k - 1] in multiset(t[..k]);
    assert t[k - 1] in s[..k];
    j :| 0 <= j < k && s[..k][j] == t[k - 1];
  }

  /** Every order of the cards is the result of some choices. */
  lemma {:induction false} ShuffleSurjective<T(!new)>(s: seq<T>, t: seq<T>, k: nat) returns (c: seq<nat>)
    requires |s| == |t| && multiset(s) == multiset(t) && k <= |s| && s[k..] == t[k..]
    ensures ValidChoices(c, |s|) && Shuffled(s, c, k) == t
    decreases k
  {
    if k <= 1 {
      FirstForced(s, t, k);
      c := NoChoices(|s|);
    } else {
      var j, u := PlaceLast(s, t, k);
      var d := ShuffleSurjective(u, t, k - 1);
      c := ChooseFirst(s, u, d, k, j);
    }
  }

  lemma ChooseFirst<T(!new)>(s: seq<T>, u: seq<T>, d: seq<nat>, k: nat, j: nat) returns (c: seq<nat>)
    requires |u| == |s| && 1 < k <= |s| && j < k && LeadsTo(s, u, k, j) && ValidChoices(d, |s|)
    ensures ValidChoices(c, |s|) && Shuffled(s, c, k) == Shuffled(u, d, k - 1)
  {
    c := d[k - 1 := j];
  }

  /** Choosing `j` for position k-1 leads from `s` to `u`, whatever is chosen after it. */
  ghost predicate LeadsTo<T(!new)>(s: seq<T>, u: seq<T>, k: nat, j: nat)
    requires |u| == |s| && 1 < k <= |s| && j < k
  {
    forall c: seq<nat> :: ValidChoices(c, |s|) ==>
      ValidChoices(c[k - 1 := j], |s|) && Shuffled(s, c[k - 1 := j], k) == Shuffled(u, c, k - 1)
  }

  /** A swap that puts the right card on position k-1. */
  lemma PlaceLast<T(!new)>(s: seq<T>, t: seq<T>, k: nat) returns (j: nat, u: seq<T>)
    requires |s| == |t| && multiset(s) == multiset(t) && 1 < k <= |s| && s[k..] == t[k..]
    ensures j < k && |u| == |t| && multiset(u) == multiset(t) && u[k - 1..] == t[k - 1..]
    ensures LeadsTo(s, u, k, j)
  {
    j := FindAmongFirst(s, t, k);
    u := Swapped(s, k - 1, j);
    SwapKeeps(s, k - 1, j);
    SwapFixes(s, t, k, j);
    SwapLeads(s, k, j);
  }

  lemma SwapLeads<T(!new)>(s: seq<T>, k: nat, j: nat)
    requires 1 < k <= |s| && j < k
    ensures LeadsTo(s, Swapped(s, k - 1, j), k, j)
  {
    forall d: seq<nat> | ValidChoices(d, |s|)
      ensures ValidChoices(d[k - 1 := j], |s|)
      ensures Shuffled(s, d[k - 1 := j], k) == Shuffled(Swapped(s, k - 1, j), d, k - 1)
    {
      var c := d[k - 1 := j];
      assert c[..k - 1] == d[..k - 1];
      ShuffleAgrees(Swapped(s, k - 1, j), c, d, k - 1);
    }
  }

  lemma NoChoices(n: nat) returns (c: seq<nat>)
    ensures ValidChoices(c, n)
  {
    c := seq(n, _ => 0);
  }

  lemma FirstForced<T>(s: seq<T>, t: seq<T>, k: nat)
    requires |s| == |t| && multiset(s) == multiset(t) && k <= |s| && k <= 1 && s[k..] == t[k..]
    ensures s == t
  {
    if k == 1 {
      var j := FindAmongFirst(s, t, 1);
      assert s == [s[0]] + s[1..] && t == [t[0]] + t[1..];
    } else {
      assert s == s[0..] && t == t[0..];
    }
  }

  lemma SwapFixes<T>(s: seq<T>, t: seq<T>, k: nat, j: nat)
    requires |s| == |t| && j < k <= |s| && s[k..] == t[k..] && s[j] == t[k - 1]
    ensures Swapped(s, k - 1, j)[k - 1..] == t[k - 1..]
  {
    var u := Swapped(s, k - 1, j);
    assert u[k - 1..] == [u[k - 1]] + s[k..];
    assert t[k - 1..] == [t[k - 1]] + t[k..];
  }

  /** Only the choices below position k matter for the first k positions. */
  lemma {:induction false} ShuffleAgrees<T>(s: seq<T>, c: seq<nat>, d: seq<nat>, k: nat)
    requires ValidChoices(c, |s|) && ValidChoices(d, |s|) && k <= |s| && c[..k] == d[..k]
    ensures Shuffled(s, c, k) == Shuffled(s, d, k)
    decreases k
  {
    if k > 1 {
      assert c[k - 1] == c[..k][k - 1] == d[..k][k - 1] == d[k - 1];
      assert c[..k - 1] == c[..k][..k - 1] && d[..k - 1] == d[..k][..k - 1];
      ShuffleAgrees(Swapped(s, k - 1, c[k - 1]), c, d, k - 1);
    }
  }

  /** Choices and orders correspond one to one, so fair choices make every order equally likely. */
  lemma ShuffleBijection<T(!new)>(s: seq<T>, t: seq<T>)
    requires Distinct(s) && |t| == |s| && multiset(t) == multiset(s)
    ensures exists c :: ValidChoices(c, |s|) && Shuffled(s, c, |s|) == t
                        && forall d :: ValidChoices(d, |s|) && Shuffled(s, d, |s|) == t ==> d == c
  {
    var c := ShuffleSurjective(s, t, |s|);
    forall d | ValidChoices(d, |s|) && Shuffled(s, d, |s|) == t
      ensures d == c
    {
      ShuffleInjective(s, c, d, |s|);
    }
  }

  /** The in-place shuffle. */
  method ShuffleInPlace(cards: array<Card>, choices: seq<nat>)
    requires ValidChoices(choices, cards.Length)
    modifies cards
    ensures cards[..] == Shuffled(old(cards[..]), choices, cards.Length)
  {
    var index := cards.Length;
    while index > 1
      invariant 0 <= index <= cards.Length
      invariant Shuffled(cards[..], choices, index) == Shuffled(old(cards[..]), choices, cards.Length)
    {
      var chosen := choices[index - 1];
      ghost var before := cards[..];
      cards[index - 1], cards[chosen] := cards[chosen], cards[index - 1];
      assert cards[..] == Swapped(before, index - 1, chosen);
      index := index - 1;
    }
  }

  // ---------- the ordered deck ----------

  /** All cards by suit, then by rank. */
  method OrderedDeck() returns (cards: array<Card>)
    ensures fresh(cards) && cards.Length == 52
    ensures forall i :: 0 <= i < 52 ==> CardIndex(cards[i]) == i
  {
    cards := new Card[52](_ => DEFAULT_CARD);
    var index := 0;
    for suit := 0 to 4
      invariant index == suit * 13
      invariant forall i :: 0 <= i < index ==> CardIndex(cards[i]) == i
    {
      for rank := 2 to 15
        invariant index == suit * 13 + rank - 2
        invariant forall i :: 0 <= i < index ==> CardIndex(cards[i]) == i
      {
        cards[index] := Card(rank, suit);
        index := index + 1;
      }
    }
  }

  lemma {:induction false} MultisetMembers<T>(s: seq<T>, t: seq<T>)
    requires Distinct(s) && |s| == |t| && multiset(s) == multiset(t)
    ensures Distinct(t)
  {
    forall i, j | 0 <= i < j < |t|
      ensures t[i] != t[j]
    {
      DistinctOnce(s, t[i]);
      if t[i] == t[j] {
        TwiceCounts(t, i, j);
      }
    }
  }

  lemma TwiceCounts<T>(t: seq<T>, i: nat, j: nat)
    requires i < j < |t| && t[i] == t[j]
    ensures multiset(t)[t[i]] >= 2
  {
    assert t == t[..j] + [t[j]] + t[j + 1..];
    assert t[i] in t[..j];
  }

  lemma KeepsAllCards(before: seq<Card>, after: seq<Card>)
    requires |before| == 52 && forall i :: 0 <= i < 52 ==> CardIndex(before[i]) == i
    requires |after| == 52 && multiset(after) == multiset(before)
    ensures Distinct(after) && forall c: Card :: c in after
  {
    DistinctByIndex(before);
    MultisetMembers(before, after);
    forall c: Card
      ensures c in after
    {
      CardIndexInjective(c, before[CardIndex(c)]);
      assert c in multiset(before);
      assert c in multiset(after);
    }
  }

  /** The shuffle only reorders. */
  method Reorder(cards: array<Card>, choices: seq<nat>)
    requires ValidChoices(choices, cards.Length)
    modifies cards
    ensures multiset(cards[..]) == multiset(old(cards[..]))
  {
    ShuffleIsPermutation(cards[..], choices, cards.Length);
    ShuffleInPlace(cards, choices);
  }

  /** All 52 cards, each once, in an order set by the choices. */
  method ShuffledCards(choices: seq<nat>) returns (cards: seq<Card>)
    requires ValidChoices(choices, 52)
    ensures |cards| == 52 && Distinct(cards) && forall c: Card :: c in cards
  {
    var ordered := OrderedDeck();
    ghost var before := ordered[..];
    Reorder(ordered, choices);
    cards := ordered[..];
    KeepsAllCards(before, cards);
  }

  // ---------- the deck object ----------

  class Deck {
    var cards: seq<Card>
    var next: nat

    ghost predicate Valid()
      reads this
    {
      |cards| == 52 && Distinct(cards) && next <= 52
    }

    /** A freshly shuffled deck, for any choices the random source makes. */
    constructor Shuffle(choices: seq<nat>)
      requires ValidChoices(choices, 52)
      ensures Valid() && next == 0
      ensures forall c: Card :: c in cards
    {
      var shuffled := ShuffledCards(choices);
      cards := shuffled;
      next := 0;
    }

    /** Takes the cards as given; the caller has checked them. */
    constructor (given: seq<Card>)
      requires |given| == 52 && Distinct(given)
      ensures Valid() && cards == given && next == 0
    {
      cards := given;
      next := 0;
    }

    /** The next card, or nothing when the deck is used up. */
    method Draw() returns (r: Option<Card>)
      requires Valid()
      modifies this`next
      ensures Valid()
      ensures if old(next) < 52 then r == Some(cards[old(next)]) && next == old(next) + 1
              else r == None && next == old(next)
    {
      if next >= |cards| {
        return None;
      }
      r := Some(cards[next]);
      next := next + 1;
    }

    method Remaining() returns (r: nat)
      requires Valid()
      ensures r == 52 - next
    {
      r := |cards| - next;
    }
  }

  lemma DistinctByIndex(cards: seq<Card>)
    requires |cards| == 52 && forall i :: 0 <= i < 52 ==> CardIndex(cards[i]) == i
    ensures Distinct(cards)
  {
    forall i, j | 0 <= i < j < |cards|
      ensures cards[i] != cards[j]
    {
      assert CardIndex(cards[i]) != CardIndex(cards[j]);
    }
  }

  /** A deck from given cards: refused exactly when they are not 52 different cards. */
  method CheckedDeck(cards: seq<Card>) returns (r: Deck?)
    ensures r == null <==> !(|cards| == 52 && Distinct(cards))
    ensures r != null ==> fresh(r) && r.Valid() && r.cards == cards && r.next == 0
  {
    if |cards| != 52 {
      return null;
    }
    var repeats := HasRepeats(cards);
    if repeats {
      return null;
    }
    r := new Deck(cards);
  }
}
