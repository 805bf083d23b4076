/**
 What the table computed is what the store accepts: the record of a settled hand
 is sound exactly when no chips were dropped, and storing it brings the stored
 stacks to the stacks on the table.
 */
module SettlementBridge {
  import opened Wrappers
  import opened Sums
  import opened Cards
  import opened TableModel
  import opened TableViews
  import opened TableStart
  import opened TableAccounting
  import opened TableRuns
  import opened TableUndo
  import opened TableCards
  import opened TableSettled
  import opened TableButton
  import opened HandRecords
  import opened StoreModel
  import StoreEscrow
  import Pots

  // ---------- lines by seat ----------

  function SeatLine(p: Player, awards: seq<PotAward>): PlayerSettlement {
    SettlementLine(ViewOf(p, true), AwardedTo(awards, p.id))
  }

  function SeatLines(seats: Seats, awards: seq<PotAward>): seq<PlayerSettlement> {
    if seats == [] then []
    else
      var n := |seats| - 1;
      SeatLines(seats[..n], awards)
      + if seats[n].Some? && seats[n].value.hasHole then [SeatLine(seats[n].value, awards)] else []
  }

  function SeatStarts(seats: Seats): seq<HandStartPlayer> {
    if seats == [] then []
    else
      var n := |seats| - 1;
      SeatStarts(seats[..n])
      + if seats[n].Some? && seats[n].value.hasHole then [StartLine(ViewOf(seats[n].value, true))] else []
  }

  lemma {:induction false} LinesOfSeats(seats: Seats, awards: seq<PotAward>)
    ensures SettlementLines(AuditViews(seats), awards) == SeatLines(seats, awards)
    ensures StartLines(AuditViews(seats)) == SeatStarts(seats)
  {
    if seats != [] {
      var n := |seats| - 1;
      LinesOfSeats(seats[..n], awards);
      var views := AuditViews(seats);
      if seats[n].Some? {
        assert views[..|views| - 1] == AuditViews(seats[..n]);
      } else {
        assert views == AuditViews(seats[..n]);
      }
    }
  }

  /** Every line comes from a seat, and every seat that was dealt in has a line. */
  lemma {:induction false} LineSeats(seats: Seats, awards: seq<PotAward>)
    requires forall i :: Taken(seats, i) ==> seats[i].value.seat == i
    ensures forall k :: 0 <= k < |SeatLines(seats, awards)| ==>
              var x := SeatLines(seats, awards)[k];
              Taken(seats, x.seat) && seats[x.seat].value.hasHole && x == SeatLine(seats[x.seat].value, awards)
    ensures forall k, l :: 0 <= k < l < |SeatLines(seats, awards)| ==>
              SeatLines(seats, awards)[k].seat < SeatLines(seats, awards)[l].seat
    ensures forall i :: Taken(seats, i) && seats[i].value.hasHole ==>
              SeatLine(seats[i].value, awards) in SeatLines(seats, awards)
  {
    if seats != [] {
      var n := |seats| - 1;
      var prefix := seats[..n];
      assert forall i :: Taken(prefix, i) <==> Taken(seats, i) && i != n;
      assert forall i :: Taken(prefix, i) ==> prefix[i] == seats[i];
      LineSeats(prefix, awards);
      var before := SeatLines(prefix, awards);
      assert forall k :: 0 <= k < |before| ==> Taken(prefix, before[k].seat);
    }
  }

  lemma {:induction false} StartSeats(seats: Seats)
    requires forall i :: Taken(seats, i) ==> seats[i].value.seat == i
    ensures forall k :: 0 <= k < |SeatStarts(seats)| ==>
              var x := SeatStarts(seats)[k];
              Taken(seats, x.seat) && seats[x.seat].value.hasHole && x == StartLine(ViewOf(seats[x.seat].value, true))
    ensures forall i :: Taken(seats, i) && seats[i].value.hasHole ==>
              StartLine(ViewOf(seats[i].value, true)) in SeatStarts(seats)
  {
    if seats != [] {
      var n := |seats| - 1;
      var prefix := seats[..n];
      assert forall i :: Taken(prefix, i) <==> Taken(seats, i) && i != n;
      assert forall i :: Taken(prefix, i) ==> prefix[i] == seats[i];
      StartSeats(prefix);
    }
  }

  ghost function DealtSeatsOf(seats: Seats): set<nat> {
    set i: nat | i < |seats| && Taken(seats, i) && seats[i].value.hasHole
  }

  lemma {:induction false} LineCount(seats: Seats, awards: seq<PotAward>)
    ensures |SeatLines(seats, awards)| == |SeatStarts(seats)| == |DealtSeatsOf(seats)|
  {
    if seats == [] {
      assert DealtSeatsOf(seats) == {};
    } else {
      var n := |seats| - 1;
      LineCount(seats[..n], awards);
      var before := DealtSeatsOf(seats[..n]);
      if seats[n].Some? && seats[n].value.hasHole {
        assert DealtSeatsOf(seats) == before + {n};
      } else {
        assert DealtSeatsOf(seats) == before;
      }
    }
  }

  /** Players without a line have committed and won nothing. */
  ghost predicate OutsidersIdle(seats: Seats, awards: seq<PotAward>) {
    forall i :: Taken(seats, i) && !seats[i].value.hasHole ==>
      seats[i].value.handCommitment == 0 && AwardedTo(awards, seats[i].value.id) == 0
  }

  lemma {:induction false} CommittedSum(seats: Seats, awards: seq<PotAward>)
    requires OutsidersIdle(seats, awards)
    ensures Sum(Committed(SeatLines(seats, awards))) == Sum(Commitments(seats))
  {
    if seats != [] {
      var n := |seats| - 1;
      var prefix := seats[..n];
      PrefixIdle(seats, awards, n);
      CommittedSum(prefix, awards);
      assert Commitments(seats) == Commitments(prefix) + [Commitments(seats)[n]];
      SumAppend(Commitments(prefix), Commitments(seats)[n]);
      var before := SeatLines(prefix, awards);
      if Holding(seats, n) {
        var x := SeatLine(seats[n].value, awards);
        assert Committed(before + [x]) == Committed(before) + [x.committed];
        SumAppend(Committed(before), x.committed);
      } else {
        assert SeatLines(seats, awards) == before;
      }
    }
  }

  lemma {:induction false} WinningsSum(seats: Seats, awards: seq<PotAward>)
    requires OutsidersIdle(seats, awards)
    ensures Sum(WinningsOf(SeatLines(seats, awards))) == Sum(AwardedBySeat(seats, awards))
  {
    if seats != [] {
      var n := |seats| - 1;
      var prefix := seats[..n];
      PrefixIdle(seats, awards, n);
      WinningsSum(prefix, awards);
      var all := AwardedBySeat(seats, awards);
      assert all == AwardedBySeat(prefix, awards) + [all[n]];
      SumAppend(AwardedBySeat(prefix, awards), all[n]);
      var before := SeatLines(prefix, awards);
      if Holding(seats, n) {
        var x := SeatLine(seats[n].value, awards);
        assert WinningsOf(before + [x]) == WinningsOf(before) + [x.winnings];
        SumAppend(WinningsOf(before), x.winnings);
      } else {
        assert SeatLines(seats, awards) == before;
      }
    }
  }

  lemma PrefixIdle(seats: Seats, awards: seq<PotAward>, n: nat)
    requires OutsidersIdle(seats, awards) && n < |seats|
    ensures OutsidersIdle(seats[..n], awards)
    ensures seats[n].Some? && !Holding(seats, n) ==>
              seats[n].value.handCommitment == 0 && AwardedTo(awards, seats[n].value.id) == 0
  {
    assert forall i :: Taken(seats[..n], i) ==> Taken(seats, i) && seats[..n][i] == seats[i];
    assert seats[n].Some? ==> Taken(seats, n);
  }

  // ---------- the cards ----------

  predicate HoleApart(p: Player, board: seq<Card>) {
    p.hole.0 != p.hole.1 && p.hole.0 !in board && p.hole.1 !in board
  }

  predicate HolesApart(p: Player, q: Player) {
    p.hole.0 != q.hole.0 && p.hole.0 != q.hole.1 && p.hole.1 != q.hole.0 && p.hole.1 != q.hole.1
  }

  predicate Holding(seats: Seats, i: int) {
    Taken(seats, i) && seats[i].value.hasHole
  }

  /** No card is on the board or in a hand twice. */
  ghost predicate CardsApart(seats: Seats, board: seq<Card>) {
    && Distinct(board)
    && (forall i :: Holding(seats, i) ==> HoleApart(seats[i].value, board))
    && (forall i, j :: Holding(seats, i) && Holding(seats, j) && i < j ==> HolesApart(seats[i].value, seats[j].value))
  }

  lemma HoldsApart(s: State, cards: seq<Card>, order: seq<nat>)
    requires Holds(s, cards, order) && ValidDeck(cards)
    requires forall i :: Taken(s.seats, i) && s.seats[i].value.hasHole ==> i in Participants(s.seats)
    ensures CardsApart(s.seats, s.board)
  {
    BoardIndices(cards, |order|, |s.board|);
    forall i: nat | Holding(s.seats, i)
      ensures HoleApart(s.seats[i].value, s.board)
    {
      var k := SeatPlace(s, cards, order, i);
      DealtApart(cards, |order|, k, |s.board|, s.seats[i].value);
    }
    forall i: nat, j: nat | Holding(s.seats, i) && Holding(s.seats, j) && i < j
      ensures HolesApart(s.seats[i].value, s.seats[j].value)
    {
      var k := SeatPlace(s, cards, order, i);
      var l := SeatPlace(s, cards, order, j);
      PlacesApart(cards, |order|, k, l, s.seats[i].value, s.seats[j].value);
    }
  }

  lemma DealtApart(cards: seq<Card>, m: nat, k: nat, size: nat, p: Player)
    requires |cards| == 52 && m <= 6 && Distinct(cards) && k < m && p.hole == (cards[k], cards[m + k])
    ensures HoleApart(p, BoardOf(cards, m, size))
  {
    BoardIndices(cards, m, size);
  }

  lemma PlacesApart(cards: seq<Card>, m: nat, k: nat, l: nat, p: Player, q: Player)
    requires |cards| == 52 && m <= 6 && Distinct(cards) && k < m && l < m && k != l
    requires p.hole == (cards[k], cards[m + k]) && q.hole == (cards[l], cards[m + l])
    ensures HolesApart(p, q)
  {}

  /** Where in the deal a participant's cards come from. */
  lemma SeatPlace(s: State, cards: seq<Card>, order: seq<nat>, i: nat) returns (k: nat)
    requires Holds(s, cards, order) && i in Participants(s.seats)
    ensures k < |order| && order[k] == i
    ensures s.seats[i].value.hole == (cards[k], cards[|order| + k])
  {
    k :| 0 <= k < |order| && order[k] == i;
  }

  lemma BoardIndices(cards: seq<Card>, m: nat, size: nat)
    requires |cards| == 52 && m <= 6 && Distinct(cards)
    ensures Distinct(BoardOf(cards, m, size))
    ensures forall c :: c in BoardOf(cards, m, size) ==> exists k :: 2 * m <= k < 52 && cards[k] == c
  {
    var b := BoardOf(cards, m, size);
    var at := [2 * m + 1, 2 * m + 2, 2 * m + 3, 2 * m + 5, 2 * m + 7];
    assert |b| <= 5 && forall k :: 0 <= k < |b| ==> b[k] == cards[at[k]];
  }

  /** The card is on the board or in somebody's hand. */
  ghost predicate InPlay(seats: Seats, board: seq<Card>, c: Card) {
    c in board || exists i :: Holding(seats, i) && (c == seats[i].value.hole.0 || c == seats[i].value.hole.1)
  }

  lemma {:induction false} AllCardsApart(seats: Seats, board: seq<Card>, awards: seq<PotAward>)
    requires CardsApart(seats, board)
    ensures Distinct(AllCards(board, SeatLines(seats, awards)))
    ensures forall c :: c in AllCards(board, SeatLines(seats, awards)) ==> InPlay(seats, board, c)
  {
    if seats != [] {
      var n := |seats| - 1;
      var prefix := seats[..n];
      PrefixApart(seats, board, n);
      AllCardsApart(prefix, board, awards);
      var before := SeatLines(prefix, awards);
      var lines := SeatLines(seats, awards);
      if Holding(seats, n) {
        assert lines[..|before|] == before;
        var p := seats[n].value;
        assert AllCards(board, lines) == AllCards(board, before) + [p.hole.0, p.hole.1];
        assert !InPlay(prefix, board, p.hole.0) && !InPlay(prefix, board, p.hole.1);
        TwoMore(AllCards(board, before), p.hole.0, p.hole.1);
      } else {
        assert lines == before;
      }
    }
  }

  lemma TwoMore(cards: seq<Card>, c: Card, d: Card)
    requires Distinct(cards) && c !in cards && d !in cards && c != d
    ensures Distinct(cards + [c, d])
  {}

  lemma PrefixApart(seats: Seats, board: seq<Card>, n: nat)
    requires CardsApart(seats, board) && n == |seats| - 1
    ensures CardsApart(seats[..n], board)
    ensures forall c :: InPlay(seats[..n], board, c) ==> InPlay(seats, board, c)
    ensures Holding(seats, n) ==>
              !InPlay(seats[..n], board, seats[n].value.hole.0) && !InPlay(seats[..n], board, seats[n].value.hole.1)
  {
    var prefix := seats[..n];
    assert forall i :: Holding(prefix, i) <==> Holding(seats, i) && i != n;
    assert forall i :: Holding(prefix, i) ==> prefix[i] == seats[i];
  }

  // ---------- soundness of the settlement ----------

  /** The ids that go into the record can be stored. */
  ghost predicate Storable(tableId: nat, t: State) {
    FitsUint32(tableId) && FitsUint32(t.handId) && IdsOk(t.seats)
  }

  ghost function SettlementOf(tableId: nat, t: State): HandSettlement {
    HandSettlementOf(tableId, AuditSnapshot(t), t.lastAwards)
  }

  lemma SettlementPlayers(tableId: nat, t: State)
    ensures SettlementOf(tableId, t).players == SeatLines(t.seats, t.lastAwards)
  {
    LinesOfSeats(t.seats, t.lastAwards);
  }

  lemma DealtAreParticipants(t: State)
    requires JustSettled(t)
    ensures DealtSeatsOf(t.seats) == Participants(t.seats)
    ensures OutsidersIdle(t.seats, t.lastAwards)
  {
    forall i | Taken(t.seats, i)
      ensures SeatPaid(t.seats[i].value, t.lastAwards)
    {}
    assert forall i: nat :: i in DealtSeatsOf(t.seats) <==> i in Participants(t.seats);
  }

  lemma WinningsFit(t: State)
    requires JustSettled(t) && Sum(Stacks(t.seats)) <= INT64_MAX
    ensures Sum(AwardedBySeat(t.seats, t.lastAwards)) <= INT64_MAX
    ensures forall i :: Taken(t.seats, i) ==> t.seats[i].value.stack <= INT64_MAX
    ensures PotSize(t.seats) >= 0
  {
    var stacks := Stacks(t.seats);
    var won := AwardedBySeat(t.seats, t.lastAwards);
    forall i | 0 <= i < |t.seats|
      ensures 0 <= won[i] <= stacks[i]
      ensures Commitments(t.seats)[i] >= 0
    {
      assert t.seats[i].Some? ==> Taken(t.seats, i) && SeatPaid(t.seats[i].value, t.lastAwards);
    }
    SumMonotone(won, stacks);
    forall i | Taken(t.seats, i)
      ensures t.seats[i].value.stack <= INT64_MAX
    {
      SumBoundsElement(stacks, i);
    }
    var zeros := seq(|t.seats|, _ => 0);
    SumZero(zeros);
    SumMonotone(zeros, Commitments(t.seats));
  }

  lemma LineOk(t: State, i: nat)
    requires JustSettled(t) && Sum(Stacks(t.seats)) <= INT64_MAX && Holding(t.seats, i)
    ensures PlayerLineOk(SeatLine(t.seats[i].value, t.lastAwards)) <==> t.seats[i].value.id != 0
  {
    WinningsFit(t);
    assert SeatPaid(t.seats[i].value, t.lastAwards);
  }

  /** Every player dealt in has an id that can be stored. */
  ghost predicate IdsOk(seats: Seats) {
    forall i :: Holding(seats, i) ==> seats[i].value.id != 0
  }

  ghost predicate AllLinesOk(lines: seq<PlayerSettlement>) {
    forall k :: 0 <= k < |lines| ==> PlayerLineOk(lines[k])
  }

  lemma LinesOk(t: State)
    requires JustSettled(t) && Sum(Stacks(t.seats)) <= INT64_MAX
    ensures AllLinesOk(SeatLines(t.seats, t.lastAwards)) <==> IdsOk(t.seats)
  {
    forall i: nat | Holding(t.seats, i)
      ensures PlayerLineOk(SeatLine(t.seats[i].value, t.lastAwards)) <==> t.seats[i].value.id != 0
    {
      LineOk(t, i);
    }
    IdsAndLines(t.seats, t.lastAwards);
  }

  lemma IdsAndLines(seats: Seats, awards: seq<PotAward>)
    requires forall i :: Taken(seats, i) ==> seats[i].value.seat == i
    requires forall i :: Holding(seats, i) ==>
               (PlayerLineOk(SeatLine(seats[i].value, awards)) <==> seats[i].value.id != 0)
    ensures AllLinesOk(SeatLines(seats, awards)) <==> IdsOk(seats)
  {
    var lines := SeatLines(seats, awards);
    LineSeats(seats, awards);
    if AllLinesOk(lines) {
      forall i | Holding(seats, i)
        ensures seats[i].value.id != 0
      {
        var k :| 0 <= k < |lines| && lines[k] == SeatLine(seats[i].value, awards);
      }
    }
    if IdsOk(seats) {
      forall k | 0 <= k < |lines|
        ensures PlayerLineOk(lines[k])
      {
        var i := lines[k].seat;
        assert Holding(seats, i) && lines[k] == SeatLine(seats[i].value, awards);
      }
    }
  }

  lemma LinesDistinct(seats: Seats, awards: seq<PotAward>)
    requires DistinctIds(seats) && forall i :: Taken(seats, i) ==> seats[i].value.seat == i
    ensures DistinctUsers(SeatLines(seats, awards))
  {
    LineSeats(seats, awards);
  }

  /**
   The record of a hand just settled is sound if and only if its ids can be stored and
   no chips were dropped.
   */
  lemma SettlementSound(tableId: nat, t: State, cards: seq<Card>, order: seq<nat>)
    requires JustSettled(t) && Holds(t, cards, order) && ValidDeck(cards)
    requires Sum(Stacks(t.seats)) <= INT64_MAX
    ensures ValidSettlement(SettlementOf(tableId, t)) <==> Storable(tableId, t) && LostIn(t) == 0
  {
    var lines := SeatLines(t.seats, t.lastAwards);
    SettlementPlayers(tableId, t);
    LinesOk(t);
    LinesDistinct(t.seats, t.lastAwards);
    LinesTotals(t);
    LineCardsDistinct(t, cards, order);
  }

  lemma LinesTotals(t: State)
    requires JustSettled(t) && Sum(Stacks(t.seats)) <= INT64_MAX
    ensures var lines := SeatLines(t.seats, t.lastAwards);
            && 2 <= |lines| <= 6
            && 0 <= Sum(Committed(lines)) == PotSize(t.seats)
            && Sum(WinningsOf(lines)) == AwardTotal(t.lastAwards) <= INT64_MAX
  {
    DealtAreParticipants(t);
    LineCount(t.seats, t.lastAwards);
    CommittedSum(t.seats, t.lastAwards);
    WinningsSum(t.seats, t.lastAwards);
    WinningsFit(t);
  }

  lemma LineCardsDistinct(t: State, cards: seq<Card>, order: seq<nat>)
    requires JustSettled(t) && Holds(t, cards, order) && ValidDeck(cards)
    ensures Distinct(AllCards(t.board, SeatLines(t.seats, t.lastAwards)))
  {
    DealtAreParticipants(t);
    assert forall i :: Holding(t.seats, i) ==> i in DealtSeatsOf(t.seats);
    HoldsApart(t, cards, order);
    AllCardsApart(t.seats, t.board, t.lastAwards);
  }

  /**
   However a hand is played to its settlement, the record made of it passes validation
   exactly when its ids can be stored and no layer of the pot was dropped.
   */
  lemma PlayedHandSound(s: State, cards: seq<Card>, ops: seq<Op>, t: State, tableId: nat)
    requires PlayedHand(s, cards, ops, t) && Sum(Stacks(t.seats)) <= INT64_MAX
    ensures ValidSettlement(SettlementOf(tableId, t)) <==> Storable(tableId, t) && LostIn(t) == 0
  {
    PlayedHandSettles(s, cards, ops, t);
    CardsThroughoutHand(s, cards, ops);
    SettlementSound(tableId, t, cards, DealOrder(s));
  }

  // ---------- storing the settlement ----------

  /** The store has every seated player on the same seat with the same stack. */
  ghost predicate Mirrors(st: StoredTable, seats: Seats) {
    forall i: nat :: Taken(seats, i) ==>
      var p := seats[i].value;
      p.id in st.seats && st.seats[p.id] == SeatRecord(p.id, i, p.stack)
  }

  /** The hand has been begun in the store and is waiting for its settlement. */
  ghost predicate Awaits(store: Store, tableId: nat, handId: nat) {
    && tableId in store.tables && !store.tables[tableId].aborted && store.tables[tableId].handInProgress
    && handId in store.handStarts && handId !in store.settlements
  }

  /** `t` is reached from `s` by playing one hand, seat by seat. */
  ghost predicate PaidOut(s: State, t: State) {
    forall i: nat :: Taken(t.seats, i) ==>
      && HasId(s.seats, i, t.seats[i].value.id)
      && t.seats[i].value.stack ==
         s.seats[i].value.stack - t.seats[i].value.handCommitment
         + AwardedTo(t.lastAwards, t.seats[i].value.id)
  }

  lemma LinesMatch(s: State, t: State, st: StoredTable)
    requires JustSettled(t) && PaidOut(s, t) && Mirrors(st, s.seats)
    ensures var lines := SeatLines(t.seats, t.lastAwards);
            forall k :: 0 <= k < |lines| ==> SettlementMatches(st, lines[k])
  {
    var lines := SeatLines(t.seats, t.lastAwards);
    LineSeats(t.seats, t.lastAwards);
    forall k | 0 <= k < |lines|
      ensures SettlementMatches(st, lines[k])
    {
      var i := lines[k].seat;
      assert SeatPaid(t.seats[i].value, t.lastAwards);
      assert Taken(s.seats, i) && s.seats[i].value.id == t.seats[i].value.id;
    }
  }

  lemma StacksMirrored(s: State, t: State, st: StoredTable, i: nat)
    requires JustSettled(t) && PaidOut(s, t) && Mirrors(st, s.seats) && Taken(t.seats, i)
    requires var lines := SeatLines(t.seats, t.lastAwards);
             DistinctUsers(lines) && forall k :: 0 <= k < |lines| ==> lines[k].userId in st.seats
    ensures var p := t.seats[i].value;
            p.id in st.seats
            && SetStacks(st.seats, SeatLines(t.seats, t.lastAwards))[p.id] == SeatRecord(p.id, i, p.stack)
  {
    var lines := SeatLines(t.seats, t.lastAwards);
    var p := t.seats[i].value;
    assert Taken(s.seats, i) && s.seats[i].value.id == p.id;
    LineSeats(t.seats, t.lastAwards);
    StoreEscrow.SetStacksAt(st.seats, lines, p.id);
    assert SeatPaid(p, t.lastAwards);
    if p.hasHole {
      var k :| 0 <= k < |lines| && lines[k] == SeatLine(p, t.lastAwards);
    } else {
      forall k | 0 <= k < |lines|
        ensures lines[k].userId != p.id
      {
        assert Taken(t.seats, lines[k].seat) && lines[k].seat != i;
      }
    }
  }

  /** A sound settlement is accepted, and then the store holds the stacks of the table. */
  lemma SettlementStored(s: State, t: State, tableId: nat, store: Store)
    requires JustSettled(t) && PaidOut(s, t)
    requires ValidSettlement(SettlementOf(tableId, t))
    requires Awaits(store, tableId, PersistentHandId(tableId, t.handId)) && Mirrors(store.tables[tableId], s.seats)
    ensures var r := SettleHand(store, SettlementOf(tableId, t));
            && r.error == StorageError.Ok
            && tableId in r.store.tables && Mirrors(r.store.tables[tableId], t.seats)
            && !r.store.tables[tableId].handInProgress
  {
    var v := SettlementOf(tableId, t);
    var st := store.tables[tableId];
    SettlementPlayers(tableId, t);
    LinesMatch(s, t, st);
    forall i: nat | Taken(t.seats, i)
      ensures t.seats[i].value.id in st.seats
      ensures SetStacks(st.seats, v.players)[t.seats[i].value.id]
              == SeatRecord(t.seats[i].value.id, i, t.seats[i].value.stack)
    {
      StacksMirrored(s, t, st, i);
    }
  }

  // ---------- storing the start ----------

  ghost function StartOf(tableId: nat, r: State): HandStartRecord {
    HandStartOf(tableId, AuditSnapshot(r))
  }

  /** The stored table is free for the next hand. */
  ghost predicate Free(store: Store, tableId: nat, handId: nat) {
    && tableId in store.tables && !store.tables[tableId].aborted && !store.tables[tableId].handInProgress
    && handId !in store.handStarts && handId !in store.settlements
  }

  /** What a hand has paid the player on seat `i`: nothing while it is running. */
  ghost function PaidTo(r: State, i: nat): int
    requires Taken(r.seats, i)
  {
    if r.street == Settled then AwardedTo(r.lastAwards, r.seats[i].value.id) else 0
  }

  /** The start record of a hand shows each stack before the hand, plus what the hand has already paid. */
  lemma StartLineIs(s: State, r: State, i: nat)
    requires StacksAtStake(s, r) && Taken(r.seats, i)
    ensures StartLine(ViewOf(r.seats[i].value, true)).startStack == s.seats[i].value.stack + PaidTo(r, i)
  {
    assert Stake(r, i) == s.seats[i].value.stack;
  }

  /** The start record matches the stored stacks if and only if the hand has paid nobody yet. */
  lemma StartMatchesIff(s: State, r: State, tableId: nat, st: StoredTable)
    requires SeatsOk(r) && StacksAtStake(s, r) && Mirrors(st, s.seats)
    ensures (forall k :: 0 <= k < |StartOf(tableId, r).players| ==> StartMatches(st, StartOf(tableId, r).players[k]))
            <==> (forall i :: Holding(r.seats, i) ==> PaidTo(r, i) == 0)
  {
    LinesOfSeats(r.seats, []);
    StartSeats(r.seats);
    var lines := SeatStarts(r.seats);
    assert StartOf(tableId, r).players == lines;
    forall i: nat | Holding(r.seats, i)
      ensures StartMatches(st, StartLine(ViewOf(r.seats[i].value, true))) <==> PaidTo(r, i) == 0
    {
      StartLineIs(s, r, i);
      assert Taken(s.seats, i);
    }
    forall k | 0 <= k < |lines|
      ensures Holding(r.seats, lines[k].seat)
      ensures StartMatches(st, lines[k]) <==> PaidTo(r, lines[k].seat) == 0
    {
      assert Taken(r.seats, lines[k].seat) && r.seats[lines[k].seat].value.hasHole;
    }
    if forall k :: 0 <= k < |lines| ==> StartMatches(st, lines[k]) {
      forall i | Holding(r.seats, i)
        ensures PaidTo(r, i) == 0
      {
        var k :| 0 <= k < |lines| && lines[k] == StartLine(ViewOf(r.seats[i].value, true));
      }
    } else {
      var k :| 0 <= k < |lines| && !StartMatches(st, lines[k]);
      assert Holding(r.seats, lines[k].seat) && PaidTo(r, lines[k].seat) != 0;
    }
  }

  // ---------- a hand that settles as it starts ----------

  lemma BigBlindLive(s: State, t: State, at: Positions, u: State)
    requires IsOpening(s, t, at) && SameHands(t.seats, u.seats)
    ensures Taken(u.seats, at.big) && u.seats[at.big].value.handCommitment > 0
    ensures u.seats[at.big].value.status in {Active, AllIn}
  {
    assert at.big in ReadySeats(s.seats);
    assert OpenedPlayer(s.seats[at.big].value, t.seats[at.big].value);
  }

  /** With a live commitment on the table, something is awarded. */
  lemma SomethingAwarded(u: State, i: nat)
    requires InHand(u) && Taken(u.seats, i)
    requires u.seats[i].value.handCommitment > 0 && u.seats[i].value.status in {Active, AllIn}
    ensures Sum(AwardedBySeat(u.seats, FinalAwards(u))) > 0
  {
    FinalAwardsPay(u);
    SomethingCapped(u, i);
  }

  lemma SomethingCapped(u: State, i: nat)
    requires InHand(u) && Taken(u.seats, i)
    requires u.seats[i].value.handCommitment > 0 && u.seats[i].value.status in {Active, AllIn}
    ensures PotSize(u.seats) - Pots.Dropped(Entries(u.seats, u.board)) > 0
    ensures PotSize(u.seats) > 0
  {
    assert forall j :: Taken(u.seats, j) ==> PlayerOk(u.seats[j].value);
    EntriesOk(u.seats, u.board);
    LiveAwarded(Entries(u.seats, u.board), u.dealerSeat.value, i);
  }

  lemma LiveAwarded(es: seq<Pots.Entry>, origin: nat, i: nat)
    requires origin < |es| && i < |es| && Pots.NonNegative(es) && es[i].live && es[i].committed > 0
    ensures Sum(Pots.Committed(es)) - Pots.Dropped(es) > 0 && Pots.Dropped(es) >= 0
  {
    Pots.DroppedBalance(es, origin);
    Pots.AwardedTotal(es, origin);
    SumBoundsElement(Pots.Capped(es, Pots.LiveMax(es)), i);
  }

  lemma SomebodyPaid(r: State)
    requires JustSettled(r) && Sum(AwardedBySeat(r.seats, r.lastAwards)) > 0
    ensures exists i :: Holding(r.seats, i) && PaidTo(r, i) > 0
  {
    var won := AwardedBySeat(r.seats, r.lastAwards);
    if forall i :: 0 <= i < |won| ==> won[i] <= 0 {
      var zeros := seq(|won|, _ => 0);
      SumZero(zeros);
      SumMonotone(won, zeros);
    }
    var i :| 0 <= i < |won| && won[i] > 0;
    assert Taken(r.seats, i) && SeatPaid(r.seats[i].value, r.lastAwards);
    assert Holding(r.seats, i) && PaidTo(r, i) > 0;
  }

  lemma BegunPays(s: State, t: State, at: Positions, r: State)
    requires Resting(s) && AllStacksOk(s.seats) && IsBegun(s, t, at, r) && r.street == Settled
    ensures exists i :: Holding(r.seats, i) && PaidTo(r, i) > 0
  {
    var u := BegunSettled(s, t, at, r);
    BigBlindLive(s, t, at, u);
    SettledPays(u, r, at.big);
  }

  lemma SettledPays(u: State, r: State, i: nat)
    requires SettledFrom(u, r) && Taken(u.seats, i)
    requires u.seats[i].value.handCommitment > 0 && u.seats[i].value.status in {Active, AllIn}
    ensures exists j :: Holding(r.seats, j) && PaidTo(r, j) > 0
  {
    SomethingAwarded(u, i);
    SettledFacts(u, r);
    SameAwards(u.seats, r.seats, FinalAwards(u));
    assert r.lastAwards == FinalAwards(u);
    SomebodyPaid(r);
  }

  lemma SameAwards(s: Seats, t: Seats, awards: seq<PotAward>)
    requires SameHands(s, t)
    ensures AwardedBySeat(t, awards) == AwardedBySeat(s, awards)
  {}

  // ---------- the whole hand in the store ----------

  lemma DealtWhileRunning(r: State)
    requires InHand(r)
    ensures DealtSeatsOf(r.seats) == Participants(r.seats)
  {
    assert forall i :: Taken(r.seats, i) ==> PlayerOk(r.seats[i].value);
    assert forall i: nat :: i in DealtSeatsOf(r.seats) <==> i in Participants(r.seats);
  }

  lemma StartLineCount(tableId: nat, r: State)
    requires InHand(r)
    ensures |StartOf(tableId, r).players| >= 2
  {
    LinesOfSeats(r.seats, []);
    LineCount(r.seats, []);
    DealtWhileRunning(r);
  }

  /** The stack shown at the start is the stack before the hand, unless the hand is already over. */
  lemma StartStored(s: State, r: State, tableId: nat, store: Store)
    requires SeatsOk(r) && StacksAtStake(s, r) && InHand(r)
    requires FitsUint32(tableId) && FitsUint32(r.handId)
    requires Free(store, tableId, PersistentHandId(tableId, r.handId)) && Mirrors(store.tables[tableId], s.seats)
    ensures var b := BeginHand(store, StartOf(tableId, r));
            && b.error == StorageError.Ok
            && Awaits(b.store, tableId, PersistentHandId(tableId, r.handId))
            && Mirrors(b.store.tables[tableId], s.seats)
  {
    StartLineCount(tableId, r);
    StartMatchesIff(s, r, tableId, store.tables[tableId]);
  }

  lemma StartRefused(s: State, r: State, tableId: nat, store: Store, i: nat)
    requires SeatsOk(r) && StacksAtStake(s, r) && Holding(r.seats, i) && PaidTo(r, i) > 0
    requires tableId in store.tables && Mirrors(store.tables[tableId], s.seats)
    ensures BeginHand(store, StartOf(tableId, r)).error != StorageError.Ok
    ensures BeginHand(store, StartOf(tableId, r)).store == store
  {
    StartMatchesIff(s, r, tableId, store.tables[tableId]);
  }

  lemma StartStates(s: State, cards: seq<Card>)
    requires Resting(s) && AllStacksOk(s.seats) && StartHand(s, cards).error == TableError.Ok
    ensures var r := StartHand(s, cards).state;
            && SeatsOk(r) && StacksAtStake(s, r)
            && (r.street != Settled ==> InHand(r))
            && (r.street == Settled ==> exists i :: Holding(r.seats, i) && PaidTo(r, i) > 0)
  {
    StartStakes(s, cards);
    StartProgress(s, cards);
    EnoughCanOpen(s, cards);
    var t := BeginIsBegun(s, cards);
    if Begin(s, cards).street == Settled {
      BegunPays(s, t, PositionsOf(s), Begin(s, cards));
    }
  }

  lemma StoredUnlessSettled(s: State, cards: seq<Card>, tableId: nat, store: Store)
    requires Resting(s) && AllStacksOk(s.seats) && StartHand(s, cards).error == TableError.Ok
    requires FitsUint32(tableId) && FitsUint32(StartHand(s, cards).state.handId)
    requires Free(store, tableId, PersistentHandId(tableId, StartHand(s, cards).state.handId))
    requires Mirrors(store.tables[tableId], s.seats)
    ensures var r := StartHand(s, cards).state;
            var b := BeginHand(store, StartOf(tableId, r));
            && (b.error == StorageError.Ok <==> r.street != Settled)
            && (r.street != Settled ==>
                  && Awaits(b.store, tableId, PersistentHandId(tableId, r.handId))
                  && Mirrors(b.store.tables[tableId], s.seats))
  {
    var r := StartHand(s, cards).state;
    StartStates(s, cards);
    if r.street != Settled {
      StartStored(s, r, tableId, store);
    } else {
      var i :| Holding(r.seats, i) && PaidTo(r, i) > 0;
      StartRefused(s, r, tableId, store, i);
    }
  }

  /**
   A store that holds the stacks of the table accepts the start record of the next hand
   unless that hand is over with its own start: unless, on the stacks before the hand, at
   most one ready player has chips beyond the blind owed and the hand does not stall.
   */
  lemma StartStoredIff(s: State, cards: seq<Card>, tableId: nat, store: Store)
    requires Resting(s) && AllStacksOk(s.seats) && StartHand(s, cards).error == TableError.Ok
    requires FitsUint32(tableId) && FitsUint32(StartHand(s, cards).state.handId)
    requires Free(store, tableId, PersistentHandId(tableId, StartHand(s, cards).state.handId))
    requires Mirrors(store.tables[tableId], s.seats)
    ensures ReadySeats(s.seats) != {}
    ensures BeginHand(store, StartOf(tableId, StartHand(s, cards).state)).error == StorageError.Ok
            <==> !SettlesAtStart(s)
  {
    StoredUnlessSettled(s, cards, tableId, store);
    StartSettlesIff(s, cards);
  }

  lemma HandIdStays(s: State, op: Op)
    requires Inv(s) && Betting(s.street) && !op.Abort?
    ensures Step(s, op).state.handId == s.handId
  {
    StepNumbers(s, op);
  }

  lemma {:induction false} HandIdKept(s: State, ops: seq<Op>)
    requires Inv(s) && WithinHand(s, ops)
    ensures Run(s, ops).handId == s.handId
    decreases ops
  {
    if ops != [] {
      WithinHandNext(s, ops);
      HandIdStays(s, ops[0]);
      HandIdKept(Step(s, ops[0]).state, ops[1..]);
    }
  }

  /** A call that neither closes this table nor settles this hand or a hand on this table. */
  predicate LeavesHand(c: StoreEscrow.Call, tableId: nat, handId: nat) {
    && (c.AbortTable? ==> c.tableId != tableId)
    && (c.Settle? ==> c.settlement.tableId != tableId && c.settlement.handId != handId)
  }

  /** While a hand is in progress no such call touches the table, nor the start of the hand. */
  lemma CallLeavesHand(store: Store, c: StoreEscrow.Call, tableId: nat, handId: nat)
    requires Awaits(store, tableId, handId) && LeavesHand(c, tableId, handId)
    ensures var r := StoreEscrow.Answer(store, c).store;
            Awaits(r, tableId, handId) && r.tables[tableId] == store.tables[tableId]
  {
    StoreEscrow.CallRemembers(store, c);
  }

  lemma {:induction false} CallsLeaveHand(store: Store, calls: seq<StoreEscrow.Call>, tableId: nat, handId: nat)
    requires Awaits(store, tableId, handId)
    requires forall k :: 0 <= k < |calls| ==> LeavesHand(calls[k], tableId, handId)
    ensures var r := StoreEscrow.Run(store, calls);
            Awaits(r, tableId, handId) && r.tables[tableId] == store.tables[tableId]
    decreases calls
  {
    if calls != [] {
      CallLeavesHand(store, calls[0], tableId, handId);
      CallsLeaveHand(StoreEscrow.Answer(store, calls[0]).store, calls[1..], tableId, handId);
    }
  }

  /**
   A hand in the store from start to end, with any calls in between, on this table and on
   others, that do not close the table or settle the hand: if it did not settle at its start
   and dropped no chips, its start and its settlement are accepted and the stored stacks end
   up as the table's; if it dropped chips, the settlement is refused and nothing is stored.
   */
  lemma HandStored(s: State, cards: seq<Card>, ops: seq<Op>, t: State, tableId: nat, store: Store,
                   calls: seq<StoreEscrow.Call>)
    requires PlayedHand(s, cards, ops, t) && ReadySeats(s.seats) != {} && !SettlesAtStart(s)
    requires Sum(Stacks(t.seats)) <= INT64_MAX && Storable(tableId, t)
    requires Free(store, tableId, PersistentHandId(tableId, t.handId)) && Mirrors(store.tables[tableId], s.seats)
    requires forall k :: 0 <= k < |calls| ==> LeavesHand(calls[k], tableId, PersistentHandId(tableId, t.handId))
    ensures var b := BeginHand(store, StartOf(tableId, StartHand(s, cards).state));
            var during := StoreEscrow.Run(b.store, calls);
            var e := SettleHand(during, SettlementOf(tableId, t));
            && b.error == StorageError.Ok
            && (if LostIn(t) == 0 then
                  && e.error == StorageError.Ok
                  && tableId in e.store.tables && Mirrors(e.store.tables[tableId], t.seats)
                else e.error == InvalidData && e.store == during)
  {
    var r := StartHand(s, cards).state;
    var b := BeginHand(store, StartOf(tableId, r));
    HandBegun(s, cards, ops, t, tableId, store);
    CallsLeaveHand(b.store, calls, tableId, PersistentHandId(tableId, t.handId));
    PlayedHandSettles(s, cards, ops, t);
    PlayedHandSound(s, cards, ops, t, tableId);
    if LostIn(t) == 0 {
      SettlementStored(s, t, tableId, StoreEscrow.Run(b.store, calls));
    }
  }

  lemma HandBegun(s: State, cards: seq<Card>, ops: seq<Op>, t: State, tableId: nat, store: Store)
    requires PlayedHand(s, cards, ops, t) && ReadySeats(s.seats) != {} && !SettlesAtStart(s)
    requires FitsUint32(tableId) && FitsUint32(t.handId)
    requires Free(store, tableId, PersistentHandId(tableId, t.handId)) && Mirrors(store.tables[tableId], s.seats)
    ensures var b := BeginHand(store, StartOf(tableId, StartHand(s, cards).state));
            && b.error == StorageError.Ok
            && Awaits(b.store, tableId, PersistentHandId(tableId, t.handId))
            && Mirrors(b.store.tables[tableId], s.seats)
  {
    HandIdKept(StartHand(s, cards).state, ops);
    StartSettlesIff(s, cards);
    StoredUnlessSettled(s, cards, tableId, store);
  }

  // ---------- the dealer in the record ----------

  lemma {:induction false} SeatInViews(seats: Seats, i: nat)
    requires DistinctIds(seats) && Taken(seats, i) && forall j :: Taken(seats, j) ==> seats[j].value.seat == j
    ensures SeatIn(AuditViews(seats), seats[i].value.id) == i
  {
    var n := |seats| - 1;
    var prefix := seats[..n];
    assert forall j :: Taken(prefix, j) ==> Taken(seats, j) && prefix[j] == seats[j];
    if i == n {
      NotInViews(prefix, seats[i].value.id);
      SeatInAppend(AuditViews(prefix), ViewOf(seats[n].value, seats[n].value.hasHole), seats[i].value.id);
    } else {
      SeatInViews(prefix, i);
      ViewPresent(prefix, i);
      if seats[n].Some? {
        SeatInAppend(AuditViews(prefix), ViewOf(seats[n].value, seats[n].value.hasHole), seats[i].value.id);
      } else {
        assert AuditViews(seats) == AuditViews(prefix);
      }
    }
  }

  ghost predicate ListsId(views: seq<PlayerView>, id: PlayerId) {
    exists k :: 0 <= k < |views| && views[k].id == id
  }

  lemma {:induction false} SeatInAppend(views: seq<PlayerView>, v: PlayerView, id: PlayerId)
    ensures SeatIn(views + [v], id) ==
            if ListsId(views, id) then SeatIn(views, id) else if v.id == id then v.seat else 0
  {
    if views == [] {
      assert (views + [v])[1..] == [];
    } else {
      assert (views + [v])[1..] == views[1..] + [v];
      SeatInAppend(views[1..], v, id);
      if ListsId(views, id) && views[0].id != id {
        var k :| 0 <= k < |views| && views[k].id == id;
        assert views[1..][k - 1].id == id;
      }
      if ListsId(views[1..], id) {
        var k :| 0 <= k < |views[1..]| && views[1..][k].id == id;
        assert views[k + 1].id == id;
      }
    }
  }

  lemma {:induction false} NotInViews(seats: Seats, id: PlayerId)
    requires forall j :: Taken(seats, j) ==> seats[j].value.id != id
    ensures !ListsId(AuditViews(seats), id)
  {
    if seats != [] {
      var n := |seats| - 1;
      assert forall j :: Taken(seats[..n], j) ==> Taken(seats, j) && seats[..n][j] == seats[j];
      NotInViews(seats[..n], id);
      assert seats[n].Some? ==> Taken(seats, n);
    }
  }

  lemma {:induction false} ViewPresent(seats: Seats, i: nat)
    requires Taken(seats, i)
    ensures ListsId(AuditViews(seats), seats[i].value.id)
  {
    var n := |seats| - 1;
    if i == n {
      var views := AuditViews(seats);
      assert views[|views| - 1].id == seats[i].value.id;
    } else {
      ViewPresent(seats[..n], i);
      var before := AuditViews(seats[..n]);
      var k :| 0 <= k < |before| && before[k].id == seats[i].value.id;
      assert AuditViews(seats)[k] == before[k];
    }
  }

  /** The record names the seat that had the dealer button. */
  lemma RecordedDealer(tableId: nat, t: State)
    requires SeatsOk(t) && t.dealerSeat.Some? && Taken(t.seats, t.dealerSeat.value)
    ensures SettlementOf(tableId, t).dealerSeat == t.dealerSeat.value
    ensures StartOf(tableId, t).dealerSeat == t.dealerSeat.value
  {
    SeatInViews(t.seats, t.dealerSeat.value);
  }

  // ---------- what the records say ----------

  /** The line of a player: stacks, commitment and winnings as on the table, the two cards dealt, folded or not. */
  ghost predicate LineSays(x: PlayerSettlement, p: Player, won: int) {
    && x.userId == p.id && x.seat == p.seat && x.committed == p.handCommitment && x.winnings == won
    && x.endStack == p.stack && x.startStack == p.stack + p.handCommitment - won
    && |x.holeCards| == 2 && x.holeCards[0] == p.hole.0 && x.holeCards[1] == p.hole.1
    && (x.folded <==> p.status == Folded)
  }

  /** The settlement record lists exactly the players dealt in, with board, hand number and pots of the table. */
  lemma RecordedHand(tableId: nat, t: State)
    requires SeatsOk(t)
    ensures var v := SettlementOf(tableId, t);
            && v.tableId == tableId && v.handNumber == t.handId && v.board == t.board
            && v.totalPot == AwardTotal(t.lastAwards)
            && (forall k :: 0 <= k < |v.players| ==>
                  && Holding(t.seats, v.players[k].seat)
                  && var p := t.seats[v.players[k].seat].value;
                     LineSays(v.players[k], p, AwardedTo(t.lastAwards, p.id)))
            && (forall i :: Holding(t.seats, i) ==> exists k :: 0 <= k < |v.players| && v.players[k].seat == i)
  {
    SettlementPlayers(tableId, t);
    LineSeats(t.seats, t.lastAwards);
    var lines := SeatLines(t.seats, t.lastAwards);
    forall k | 0 <= k < |lines|
      ensures Holding(t.seats, lines[k].seat)
      ensures LineSays(lines[k], t.seats[lines[k].seat].value, AwardedTo(t.lastAwards, t.seats[lines[k].seat].value.id))
    {}
    forall i | Holding(t.seats, i)
      ensures exists k :: 0 <= k < |lines| && lines[k].seat == i
    {
      var k :| 0 <= k < |lines| && lines[k] == SeatLine(t.seats[i].value, t.lastAwards);
    }
  }

  /** So does the start record, with the two cards dealt to each. */
  lemma RecordedStart(tableId: nat, r: State)
    requires SeatsOk(r)
    ensures var h := StartOf(tableId, r);
            && h.tableId == tableId && h.handNumber == r.handId
            && (forall k :: 0 <= k < |h.players| ==>
                  && Holding(r.seats, h.players[k].seat)
                  && var p := r.seats[h.players[k].seat].value;
                     && h.players[k].userId == p.id && h.players[k].startStack == p.stack + p.handCommitment
                     && h.players[k].holeCards == [p.hole.0, p.hole.1])
            && (forall i :: Holding(r.seats, i) ==> exists k :: 0 <= k < |h.players| && h.players[k].seat == i)
  {
    LinesOfSeats(r.seats, []);
    StartSeats(r.seats);
    var lines := SeatStarts(r.seats);
    forall i | Holding(r.seats, i)
      ensures exists k :: 0 <= k < |lines| && lines[k].seat == i
    {
      var k :| 0 <= k < |lines| && lines[k] == StartLine(ViewOf(r.seats[i].value, true));
    }
  }
}
