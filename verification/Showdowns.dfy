/** Who wins a hand, told from the cards. */
module Showdowns {
  import opened Cards
  import opened HandValues
  import opened HandEvaluator
  import opened HandOrder
  import opened TableModel
  import opened TableAccounting
  import opened TableRuns
  import opened TableCards
  import opened TableDeal
  import opened TableSettled
  import Pots

  /** The seven cards a player plays with. */
  ghost function CardsOf(p: Player, board: seq<Card>): set<Card> {
    ToSet(board + [p.hole.0, p.hole.1])
  }

  /** The player can show five cards that beat any five the other can show. */
  ghost predicate BetterHand(strong: Player, weak: Player, board: seq<Card>) {
    exists g :: FiveOf(g, CardsOf(strong, board))
                && forall h :: FiveOf(h, CardsOf(weak, board)) ==> Beats(g, h)
  }

  lemma BetterIsMore(strong: Player, weak: Player, board: seq<Card>)
    requires BetterHand(strong, weak, board) && |CardsOf(strong, board)| >= 5 && |CardsOf(weak, board)| >= 5
    ensures Less(BestValue(CardsOf(weak, board)), BestValue(CardsOf(strong, board)))
  {
    var g :| FiveOf(g, CardsOf(strong, board)) && forall h :: FiveOf(h, CardsOf(weak, board)) ==> Beats(g, h);
    BestExists(CardsOf(strong, board));
    BestExists(CardsOf(weak, board));
    var h :| FiveOf(h, CardsOf(weak, board)) && FiveValue(h) == BestValue(CardsOf(weak, board));
    StrictTotalOrder(FiveValue(h), FiveValue(g), BestValue(CardsOf(strong, board)));
    StrictTotalOrder(FiveValue(g), BestValue(CardsOf(strong, board)), FiveValue(h));
  }

  /** Neither folded nor sitting out. */
  predicate InIt(p: Player) {
    p.status != Folded && p.status != Idle
  }

  /**
   A player who has put in no more than somebody with a better hand, both still in the
   hand, is awarded nothing at a showdown.
   */
  lemma BetterHandWins(seats: Seats, board: seq<Card>, origin: nat, strong: nat, weak: nat)
    requires origin < |seats| && DistinctIds(seats) && Taken(seats, strong) && Taken(seats, weak)
    requires InIt(seats[strong].value) && InIt(seats[weak].value)
    requires seats[strong].value.handCommitment >= seats[weak].value.handCommitment
    requires |CardsOf(seats[strong].value, board)| >= 5 && |CardsOf(seats[weak].value, board)| >= 5
    requires BetterHand(seats[strong].value, seats[weak].value, board)
    ensures AwardedTo(ShowdownAwards(seats, board, origin), seats[weak].value.id) == 0
  {
    var es := Entries(seats, board);
    BetterIsMore(seats[strong].value, seats[weak].value, board);
    Pots.WeakerWinsNothing(es, origin, 0, strong, weak);
    WinnersTaken(seats, board, origin, 0);
    AwardedById(seats, Pots.Layers(es, origin, 0), weak);
  }

  /** Whoever folded is awarded nothing. */
  lemma FoldedWinNothing(seats: Seats, board: seq<Card>, origin: nat, i: nat)
    requires origin < |seats| && DistinctIds(seats) && Taken(seats, i) && !InIt(seats[i].value)
    requires forall j :: Taken(seats, j) ==> seats[j].value.handCommitment >= 0
    ensures AwardedTo(ShowdownAwards(seats, board, origin), seats[i].value.id) == 0
  {
    var es := Entries(seats, board);
    EntriesOk(seats, board);
    Pots.Entitlement(es, origin, i);
    WinnersTaken(seats, board, origin, 0);
    AwardedById(seats, Pots.Layers(es, origin, 0), i);
  }

  /** When all but one have folded, that one gets the whole pot and everybody else keeps what is left behind. */
  lemma LastOneWins(u: State, w: nat, i: nat)
    requires InHand(u) && Contenders(u.seats) == {w} && Taken(u.seats, i)
    ensures Taken(FoldWin(u).seats, i)
    ensures FoldWin(u).seats[i].value.stack == u.seats[i].value.stack + if i == w then PotSize(u.seats) else 0
  {
    assert FirstContender(u.seats) in {w};
    FoldPays(u.seats, w);
  }

  // ---------- played hands ----------

  /** The award of a pot between two neighbouring commitments, by seat, clockwise from the dealer's left. */
  ghost predicate AwardFollows(t: State, a: PotAward, lo: int, hi: int, l: Pots.Layer) {
    && t.dealerSeat.Some? && t.dealerSeat.value < |t.seats|
    && Pots.PotBetween(Entries(t.seats, t.board), t.dealerSeat.value, lo, hi, l)
    && a.potSize == l.pot && a.equalShare == l.share && a.oddChips == l.odd
    && |a.winners| == |l.winners|
    && forall k :: 0 <= k < |l.winners| ==> HasId(t.seats, l.winners[k], a.winners[k])
  }

  lemma {:induction false} AwardOfLayer(seats: Seats, layers: seq<Pots.Layer>, a: PotAward) returns (l: Pots.Layer)
    requires forall l, k :: l in layers && 0 <= k < |l.winners| ==> Taken(seats, l.winners[k])
    requires a in AwardsOf(seats, layers)
    ensures l in layers && a.potSize == l.pot && a.equalShare == l.share && a.oddChips == l.odd
    ensures |a.winners| == |l.winners| && forall k :: 0 <= k < |l.winners| ==> HasId(seats, l.winners[k], a.winners[k])
  {
    l := layers[0];
    assert l in layers;
    if a != AwardsOf(seats, layers)[0] {
      assert a in AwardsOf(seats, layers[1..]);
      l := AwardOfLayer(seats, layers[1..], a);
    }
  }

  /** The table right after a showdown. */
  lemma SettledFollows(u: State, t: State, a: PotAward) returns (lo: int, hi: int, l: Pots.Layer)
    requires SettledFrom(u, t) && |Contenders(t.seats)| >= 2 && a in t.lastAwards
    ensures AwardFollows(t, a, lo, hi, l)
  {
    SettledSame(u, t);
    var origin := u.dealerSeat.value;
    lo, hi, l := PotOfAward(u.seats, u.board, origin, a);
    forall k | 0 <= k < |l.winners|
      ensures HasId(t.seats, l.winners[k], a.winners[k])
    {
      assert HasId(u.seats, l.winners[k], a.winners[k]);
    }
  }

  lemma SettledSame(u: State, t: State)
    requires SettledFrom(u, t)
    ensures Entries(t.seats, t.board) == Entries(u.seats, u.board) && t.dealerSeat == u.dealerSeat
    ensures Contenders(t.seats) == Contenders(u.seats) && t.lastAwards == FinalAwards(u)
    ensures SameHands(u.seats, t.seats)
  {
    SettledFacts(u, t);
    SettleKeeps(u, FinalAwards(u));
    assert t == Settle(u, FinalAwards(u));
  }

  lemma PotOfAward(seats: Seats, board: seq<Card>, origin: nat, a: PotAward) returns (lo: int, hi: int, l: Pots.Layer)
    requires origin < |seats| && a in ShowdownAwards(seats, board, origin)
    ensures Pots.PotBetween(Entries(seats, board), origin, lo, hi, l)
    ensures a.potSize == l.pot && a.equalShare == l.share && a.oddChips == l.odd
    ensures |a.winners| == |l.winners| && forall k :: 0 <= k < |l.winners| ==> HasId(seats, l.winners[k], a.winners[k])
  {
    var es := Entries(seats, board);
    WinnersTaken(seats, board, origin, 0);
    l := AwardOfLayer(seats, Pots.Layers(es, origin, 0), a);
    Pots.AwardedPotsAre(es, origin, 0, l);
    lo, hi :| 0 <= lo && Pots.PotBetween(es, origin, lo, hi, l);
  }

  /**
   However a contested hand was played, every pot awarded goes to the unbeaten among those
   who put in enough for it and did not fold, in equal shares, the odd chips one each to the
   first of them left of the dealer.
   */
  lemma PlayedShowdown(s: State, cards: seq<Card>, ops: seq<Op>, t: State, a: PotAward)
      returns (lo: int, hi: int, l: Pots.Layer)
    requires PlayedHand(s, cards, ops, t) && |Contenders(t.seats)| >= 2 && a in t.lastAwards
    ensures AwardFollows(t, a, lo, hi, l)
  {
    PlayedHandSettles(s, cards, ops, t);
    var u :| SettledFrom(u, t);
    lo, hi, l := SettledFollows(u, t, a);
  }

  lemma SettledStrong(u: State, t: State, strong: nat, weak: nat)
    requires SettledFrom(u, t) && |Contenders(t.seats)| >= 2 && Taken(t.seats, strong) && Taken(t.seats, weak)
    requires InIt(t.seats[strong].value) && InIt(t.seats[weak].value)
    requires t.seats[strong].value.handCommitment >= t.seats[weak].value.handCommitment
    requires |CardsOf(t.seats[strong].value, t.board)| >= 5 && |CardsOf(t.seats[weak].value, t.board)| >= 5
    requires BetterHand(t.seats[strong].value, t.seats[weak].value, t.board)
    ensures AwardedTo(t.lastAwards, t.seats[weak].value.id) == 0
  {
    SettledSame(u, t);
    assert u.seats[strong].value.hole == t.seats[strong].value.hole && u.seats[weak].value.hole == t.seats[weak].value.hole;
    BetterHandWins(u.seats, u.board, u.dealerSeat.value, strong, weak);
  }

  /** And nobody wins a chip against a better hand that put in as much. */
  lemma PlayedBetterHand(s: State, cards: seq<Card>, ops: seq<Op>, t: State, strong: nat, weak: nat)
    requires PlayedHand(s, cards, ops, t) && |Contenders(t.seats)| >= 2
    requires Taken(t.seats, strong) && Taken(t.seats, weak)
    requires InIt(t.seats[strong].value) && InIt(t.seats[weak].value)
    requires t.seats[strong].value.handCommitment >= t.seats[weak].value.handCommitment
    requires BetterHand(t.seats[strong].value, t.seats[weak].value, t.board)
    ensures AwardedTo(t.lastAwards, t.seats[weak].value.id) == 0
  {
    PlayedHandSettles(s, cards, ops, t);
    var u :| SettledFrom(u, t);
    CardsThroughoutHand(s, cards, ops);
    SevenCards(u, t, cards, DealOrder(s), strong);
    SevenCards(u, t, cards, DealOrder(s), weak);
    SettledStrong(u, t, strong, weak);
  }

  /** Everybody at a showdown has seven cards to choose from. */
  lemma SevenCards(u: State, t: State, cards: seq<Card>, order: seq<nat>, i: nat)
    requires SettledFrom(u, t) && |Contenders(t.seats)| >= 2 && Holds(t, cards, order) && Distinct(cards)
    requires Taken(t.seats, i) && InIt(t.seats[i].value)
    ensures |CardsOf(t.seats[i].value, t.board)| == 7
  {
    SettledFacts(u, t);
    SettledSame(u, t);
    assert SeatPaid(t.seats[i].value, t.lastAwards);
    assert i in Participants(t.seats);
    SevenHeld(t, cards, order, i);
  }

  lemma SevenHeld(t: State, cards: seq<Card>, order: seq<nat>, i: nat)
    requires Holds(t, cards, order) && Distinct(cards) && |t.board| == 5 && i in Participants(t.seats)
    ensures |CardsOf(t.seats[i].value, t.board)| == 7
  {
    assert i in order;
    var k :| 0 <= k < |order| && order[k] == i;
    SevenDistinct(cards, |order|, k);
    assert t.seats[order[k]].value.hole == (cards[k], cards[|order| + k]);
    DistinctSize(t.board + [t.seats[i].value.hole.0, t.seats[i].value.hole.1]);
  }

  /** When everybody else folded, the last player is awarded the whole pot. */
  lemma PlayedFoldWin(s: State, cards: seq<Card>, ops: seq<Op>, t: State, w: nat)
    requires PlayedHand(s, cards, ops, t) && Contenders(t.seats) == {w}
    ensures Taken(t.seats, w) && AwardedTo(t.lastAwards, t.seats[w].value.id) == PotSize(t.seats)
  {
    PlayedHandSettles(s, cards, ops, t);
    var u :| SettledFrom(u, t);
    SettledAlone(u, t, w);
  }

  lemma SettledAlone(u: State, t: State, w: nat)
    requires SettledFrom(u, t) && Contenders(t.seats) == {w}
    ensures Taken(t.seats, w) && AwardedTo(t.lastAwards, t.seats[w].value.id) == PotSize(t.seats)
  {
    SettledFacts(u, t);
    SettleKeeps(u, FinalAwards(u));
    assert t == Settle(u, FinalAwards(u));
    assert w in Contenders(u.seats) && FirstContender(u.seats) in Contenders(u.seats);
    FoldPays(u.seats, w);
  }
}
