/** Building and paying the pots of a showdown (`table.cpp`, lines 751-825), as loops. */
module TablePots {
  import opened Wrappers
  import opened Cards
  import opened Clockwise
  import opened HandValues
  import opened BestHand
  import opened TableModel
  import opened TableAccounting
  import Pots

  // ---------- levels ----------

  ghost predicate Increasing(s: seq<int>) {
    forall i, j :: 0 <= i < j < |s| ==> s[i] < s[j]
  }

  /** Keeps a list of different levels sorted. */
  method InsertLevel(levels: seq<int>, x: int) returns (r: seq<int>)
    requires Increasing(levels)
    ensures Increasing(r)
    ensures forall y :: y in r <==> y in levels || y == x
  {
    var i := 0;
    while i < |levels| && levels[i] < x
      invariant 0 <= i <= |levels|
      invariant forall j :: 0 <= j < i ==> levels[j] < x
    {
      i := i + 1;
    }
    if i < |levels| && levels[i] == x {
      r := levels;
    } else {
      r := levels[..i] + [x] + levels[i..];
      assert levels == levels[..i] + levels[i..];
    }
  }

  /** `levels` are the commitments above `t`, each once, in increasing order. */
  ghost predicate LevelsAbove(es: seq<Pots.Entry>, t: int, levels: seq<int>) {
    && Increasing(levels)
    && forall x :: x in levels <==> x > t && exists i :: 0 <= i < |es| && es[i].committed == x
  }

  method SortedLevels(seats: Seats, ghost es: seq<Pots.Entry>, ghost board: seq<Card>) returns (levels: seq<int>)
    requires es == Entries(seats, board)
    ensures LevelsAbove(es, 0, levels)
  {
    levels := [];
    for k := 0 to |seats|
      invariant Increasing(levels)
      invariant forall x :: x in levels <==> x > 0 && exists i :: 0 <= i < k && es[i].committed == x
    {
      ghost var before := levels;
      if seats[k].Some? && seats[k].value.handCommitment > 0 {
        levels := InsertLevel(levels, seats[k].value.handCommitment);
      }
      forall x
        ensures x in levels <==> x > 0 && exists i :: 0 <= i < k + 1 && es[i].committed == x
      {
        if x > 0 && x in levels && x !in before {
          assert es[k].committed == x;
        }
      }
    }
  }

  lemma FirstLevel(es: seq<Pots.Entry>, t: int, levels: seq<int>)
    requires LevelsAbove(es, t, levels)
    ensures Pots.HasAbove(es, t) <==> levels != []
    ensures levels != [] ==> Pots.NextLevel(es, t) == levels[0]
    ensures levels != [] ==> LevelsAbove(es, levels[0], levels[1..])
  {
    if Pots.HasAbove(es, t) {
      var i :| 0 <= i < |es| && es[i].committed > t;
      assert es[i].committed in levels;
    }
    if levels != [] {
      assert levels[0] in levels;
      var i :| 0 <= i < |es| && es[i].committed == levels[0];
      assert Pots.HasAbove(es, t);
      var hi := Pots.NextLevel(es, t);
      assert hi in levels;
      assert levels == [levels[0]] + levels[1..];
      forall x
        ensures x in levels[1..] <==> x > levels[0] && exists j :: 0 <= j < |es| && es[j].committed == x
      {
        assert x in levels <==> x == levels[0] || x in levels[1..];
        if x in levels[1..] {
          var k :| 1 <= k < |levels| && levels[k] == x;
        }
      }
    }
  }

  // ---------- contributors, eligible seats, winners ----------

  method CountContributors(seats: Seats, level: int, ghost es: seq<Pots.Entry>, ghost board: seq<Card>)
    returns (n: nat, eligible: seq<nat>)
    requires es == Entries(seats, board) && level > 0
    ensures n == |Pots.Contributors(es, level)|
    ensures forall i :: i in eligible <==> i in Pots.Eligible(es, level)
  {
    n, eligible := 0, [];
    ghost var a := Pots.Contributors(es, level);
    ghost var done: set<nat> := {};
    for k := 0 to |seats|
      invariant done == (set x | x in a && x < k) && n == |done|
      invariant forall i :: i in eligible <==> i in Pots.Eligible(es, level) && i < k
    {
      if seats[k].Some? && seats[k].value.handCommitment >= level {
        assert k in a;
        done := done + {k};
        n := n + 1;
        if seats[k].value.status != Folded && seats[k].value.status != Idle {
          eligible := eligible + [k];
        }
      } else {
        assert k !in a;
      }
    }
    assert done == a;
  }

  /** Every seat in the list can be evaluated. */
  ghost predicate CanEvaluate(seats: Seats, board: seq<Card>, who: seq<nat>) {
    |board| == 5 && forall k :: 0 <= k < |who| ==>
      MayWin(seats, who[k]) && Distinct(board + [seats[who[k]].value.hole.0, seats[who[k]].value.hole.1])
  }

  /** The player on seat `i` is still in the hand. */
  ghost predicate MayWin(seats: Seats, i: nat) {
    Taken(seats, i) && seats[i].value.status != Folded && seats[i].value.status != Idle
  }

  method ValueOf(seats: Seats, board: seq<Card>, i: nat, ghost es: seq<Pots.Entry>) returns (v: HandValue)
    requires es == Entries(seats, board) && |board| == 5 && MayWin(seats, i)
    requires Distinct(board + [seats[i].value.hole.0, seats[i].value.hole.1])
    ensures v == es[i].value
  {
    var r := EvaluateBest(board + [seats[i].value.hole.0, seats[i].value.hole.1]);
    v := r.value;
  }

  /** `winners` are the best of `who`, and `best` is their value. */
  ghost predicate BestOf(es: seq<Pots.Entry>, who: seq<nat>, winners: seq<nat>, best: HandValue) {
    && (forall i :: i in winners ==> i in who)
    && (forall i :: i in who ==> i < |es| && !Less(best, es[i].value))
    && (forall i :: i in winners <==> i in who && es[i].value == best)
    && winners != []
  }

  lemma BestOfOne(es: seq<Pots.Entry>, i: nat)
    requires i < |es|
    ensures BestOf(es, [i], [i], es[i].value)
  {
    StrictTotalOrder(es[i].value, es[i].value, es[i].value);
  }

  lemma BestOfMore(es: seq<Pots.Entry>, who: seq<nat>, winners: seq<nat>, best: HandValue, i: nat)
    requires BestOf(es, who, winners, best) && i < |es|
    ensures if Less(best, es[i].value) then BestOf(es, who + [i], [i], es[i].value)
            else if es[i].value == best then BestOf(es, who + [i], winners + [i], best)
            else BestOf(es, who + [i], winners, best)
  {
    forall j | j in who + [i]
      ensures Less(best, es[i].value) ==> !Less(es[i].value, es[j].value)
      ensures Less(best, es[i].value) && es[j].value == es[i].value && j != i ==> false
      ensures !Less(best, es[i].value) ==> !Less(best, es[j].value)
    {
      StrictTotalOrder(best, es[i].value, es[j].value);
      StrictTotalOrder(es[i].value, es[j].value, best);
      StrictTotalOrder(es[j].value, best, es[i].value);
      assert j == i || j in who;
    }
  }

  lemma BestOfIsBest(es: seq<Pots.Entry>, who: seq<nat>, winners: seq<nat>, best: HandValue, a: set<nat>)
    requires BestOf(es, who, winners, best) && forall i :: i in who <==> i in a
    ensures forall i :: i in a ==> i < |es|
    ensures forall i :: i in winners <==> i in Pots.Best(es, a)
  {
    var w := winners[0];
    assert w in winners && w in who;
    forall i: nat
      ensures i in winners <==> i in Pots.Best(es, a)
    {
      if i in a {
        assert i in who;
        StrictTotalOrder(es[i].value, best, best);
        if i in Pots.Best(es, a) {
          assert w in a;
          assert !Less(es[i].value, es[w].value);
        }
      }
    }
  }

  method FindWinners(seats: Seats, board: seq<Card>, who: seq<nat>, ghost es: seq<Pots.Entry>) returns (winners: seq<nat>)
    requires es == Entries(seats, board) && who != [] && CanEvaluate(seats, board, who)
    ensures exists best :: BestOf(es, who, winners, best)
  {
    var best := ValueOf(seats, board, who[0], es);
    winners := [who[0]];
    BestOfOne(es, who[0]);
    assert who[..1] == [who[0]];
    for k := 1 to |who|
      invariant BestOf(es, who[..k], winners, best)
    {
      assert who[..k + 1] == who[..k] + [who[k]];
      assert MayWin(seats, who[k]);
      winners, best := Compare(seats, board, who[k], winners, best, who[..k], es);
    }
    assert who[..|who|] == who;
  }

  /** One more player against the best so far. */
  method Compare(seats: Seats, board: seq<Card>, i: nat, winners0: seq<nat>, best0: HandValue, ghost who: seq<nat>,
                 ghost es: seq<Pots.Entry>)
    returns (winners: seq<nat>, best: HandValue)
    requires es == Entries(seats, board) && |board| == 5 && MayWin(seats, i)
    requires Distinct(board + [seats[i].value.hole.0, seats[i].value.hole.1])
    requires BestOf(es, who, winners0, best0)
    ensures BestOf(es, who + [i], winners, best)
  {
    winners, best := winners0, best0;
    var value := ValueOf(seats, board, i, es);
    BestOfMore(es, who, winners, best, i);
    if Less(best, value) {
      best, winners := value, [i];
    } else if value == best {
      winners := winners + [i];
    }
  }

  // ---------- clockwise order ----------

  method InsertClockwise(r0: seq<nat>, x: nat, n: nat, origin: nat) returns (r: seq<nat>)
    requires origin < n && Sorted(r0, n, origin) && x < n && x !in r0
    ensures Sorted(r, n, origin)
    ensures forall i :: i in r <==> i in r0 || i == x
  {
    var k := 0;
    while k < |r0| && Distance(n, origin, r0[k]) < Distance(n, origin, x)
      invariant 0 <= k <= |r0|
      invariant forall j :: 0 <= j < k ==> Distance(n, origin, r0[j]) < Distance(n, origin, x)
    {
      k := k + 1;
    }
    r := r0[..k] + [x] + r0[k..];
    assert r0 == r0[..k] + r0[k..];
    InsertedSorted(r0, x, n, origin, k);
  }

  lemma InsertedSorted(r0: seq<nat>, x: nat, n: nat, origin: nat, k: nat)
    requires origin < n && Sorted(r0, n, origin) && x < n && x !in r0 && k <= |r0|
    requires forall j :: 0 <= j < k ==> Distance(n, origin, r0[j]) < Distance(n, origin, x)
    requires k < |r0| ==> Distance(n, origin, r0[k]) >= Distance(n, origin, x)
    ensures Sorted(r0[..k] + [x] + r0[k..], n, origin)
  {
    if k < |r0| {
      assert SeatAt(n, origin, Distance(n, origin, r0[k])) == r0[k];
      assert SeatAt(n, origin, Distance(n, origin, x)) == x;
      assert r0[k] != x;
    }
  }

  /** Winners clockwise from the dealer's left, the dealer last. */
  method OrderClockwise(winners: seq<nat>, n: nat, origin: nat, ghost a: set<nat>) returns (r: seq<nat>)
    requires origin < n && (forall i :: i in a ==> i < n) && (forall i :: i in winners <==> i in a)
    ensures r == Order(a, n, origin)
  {
    r := [];
    for k := 0 to |winners|
      invariant Sorted(r, n, origin)
      invariant forall i :: i in r <==> i in winners[..k]
    {
      assert winners[..k + 1] == winners[..k] + [winners[k]];
      assert winners[k] in a;
      if winners[k] !in r {
        r := InsertClockwise(r, winners[k], n, origin);
      }
    }
    assert winners[..|winners|] == winners;
    OrderMembers(a, n, origin);
    SortedUnique(r, Order(a, n, origin), n, origin);
  }

  // ---------- paying ----------

  /** The seats with the awards added to the stacks. */
  ghost function Credited(seats: Seats, awards: seq<PotAward>): (r: Seats)
    ensures |r| == |seats|
  {
    seq(|seats|, i requires 0 <= i < |seats| =>
      if seats[i].Some? then
        var p := seats[i].value;
        Some(p.(stack := p.stack + AwardedTo(awards, p.id)))
      else None)
  }

  /** The seats with one pot's shares added. */
  ghost function WithPortions(seats: Seats, winners: seq<nat>, share: int, odd: int): (r: Seats)
    ensures |r| == |seats|
  {
    seq(|seats|, i requires 0 <= i < |seats| =>
      if seats[i].Some? then
        var p := seats[i].value;
        Some(p.(stack := p.stack + Pots.Portion(winners, share, odd, i)))
      else None)
  }

  method PayWinners(seats0: Seats, winners: seq<nat>, share: int, odd: int) returns (seats: Seats)
    requires forall k :: 0 <= k < |winners| ==> Taken(seats0, winners[k])
    ensures seats == WithPortions(seats0, winners, share, odd)
  {
    seats := seats0;
    assert WithPortions(seats0, winners[..0], share, odd) == seats0;
    for k := 0 to |winners|
      invariant seats == WithPortions(seats0, winners[..k], share, odd)
    {
      var i := winners[k];
      assert Taken(seats0, i);
      var p := seats[i].value;
      PortionNext(seats0, winners, share, odd, k);
      seats := seats[i := Some(p.(stack := p.stack + share + (if k < odd then 1 else 0)))];
    }
    assert winners[..|winners|] == winners;
  }

  lemma PortionNext(seats: Seats, winners: seq<nat>, share: int, odd: int, k: nat)
    requires k < |winners| && Taken(seats, winners[k])
    ensures var i := winners[k];
            var before := WithPortions(seats, winners[..k], share, odd);
            var p := before[i].value;
            WithPortions(seats, winners[..k + 1], share, odd)
            == before[i := Some(p.(stack := p.stack + share + (if k < odd then 1 else 0)))]
  {
    var w := winners[..k + 1];
    assert w[..k] == winners[..k] && w[k] == winners[k];
    forall i
      ensures Pots.Portion(w, share, odd, i) == Pots.Portion(winners[..k], share, odd, i)
                + if winners[k] == i then share + (if k < odd then 1 else 0) else 0
    {}
  }

  /** Paying by seat is crediting by player. */
  lemma PaidIsCredited(seats: Seats, awards: seq<PotAward>, winners: seq<nat>, pot: int, share: int, odd: int)
    requires DistinctIds(seats) && forall k :: 0 <= k < |winners| ==> Taken(seats, winners[k])
    ensures WithPortions(Credited(seats, awards), winners, share, odd)
            == Credited(seats, awards + [PotAward(pot, Ids(seats, winners), share, odd)])
  {
    var award := PotAward(pot, Ids(seats, winners), share, odd);
    forall i | 0 <= i < |seats| && seats[i].Some?
      ensures AwardedTo(awards + [award], seats[i].value.id)
              == AwardedTo(awards, seats[i].value.id) + Pots.Portion(winners, share, odd, i)
    {
      AwardedAppend(awards, award, seats[i].value.id);
      PortionById(seats, winners, share, odd, i);
    }
  }

  lemma CreditedEntries(seats: Seats, awards: seq<PotAward>, board: seq<Card>)
    ensures Entries(Credited(seats, awards), board) == Entries(seats, board)
  {}

  /** Everybody who may win can be evaluated. */
  ghost predicate Evaluable(seats: Seats, board: seq<Card>) {
    |board| == 5 && forall i :: Taken(seats, i) && seats[i].value.status != Folded && seats[i].value.status != Idle ==>
      Distinct(board + [seats[i].value.hole.0, seats[i].value.hole.1])
  }

  method CollectIds(seats: Seats, winners: seq<nat>) returns (ids: seq<PlayerId>)
    requires forall k :: 0 <= k < |winners| ==> Taken(seats, winners[k])
    ensures ids == Ids(seats, winners)
  {
    ids := [];
    for k := 0 to |winners|
      invariant ids == Ids(seats, winners)[..k]
    {
      assert Taken(seats, winners[k]);
      ids := ids + [seats[winners[k]].value.id];
    }
  }

  /** The best eligible seats, clockwise. */
  method PotWinners(seats: Seats, board: seq<Card>, origin: nat, hi: int, eligible: seq<nat>, ghost es: seq<Pots.Entry>)
    returns (winners: seq<nat>)
    requires es == Entries(seats, board) && origin < |seats| && Evaluable(seats, board)
    requires eligible != [] && forall i :: i in eligible <==> i in Pots.Eligible(es, hi)
    ensures Pots.Eligible(es, hi) != {}
    ensures winners == Order(Pots.Best(es, Pots.Eligible(es, hi)), |es|, origin)
  {
    ghost var a := Pots.Eligible(es, hi);
    assert eligible[0] in a;
    EligibleEvaluable(seats, board, es, hi, eligible);
    var best := FindWinners(seats, board, eligible, es);
    ghost var value :| BestOf(es, eligible, best, value);
    BestOfIsBest(es, eligible, best, value, a);
    winners := OrderClockwise(best, |seats|, origin, Pots.Best(es, a));
  }

  lemma LayerWinners(seats: Seats, board: seq<Card>, origin: nat, lo: int, hi: int, winners: seq<nat>)
    requires origin < |seats| && Pots.Eligible(Entries(seats, board), hi) != {}
    requires winners == Order(Pots.Best(Entries(seats, board), Pots.Eligible(Entries(seats, board), hi)), |seats|, origin)
    ensures winners != [] && winners == Pots.MakeLayer(Entries(seats, board), origin, lo, hi).winners
    ensures forall k :: 0 <= k < |winners| ==> Taken(seats, winners[k])
  {
    var es := Entries(seats, board);
    var a := Pots.Eligible(es, hi);
    Pots.BestExists(es, a);
    OrderSize(Pots.Best(es, a), |es|, origin);
    forall k | 0 <= k < |winners|
      ensures Taken(seats, winners[k])
    {
      assert winners[k] in a;
    }
  }

  /** One pot that somebody can win: the best eligible seats share it. */
  method AwardPot(seats0: Seats, board: seq<Card>, origin: nat, ghost lo: int, hi: int, eligible: seq<nat>, pot: int,
                  ghost es: seq<Pots.Entry>)
    returns (seats: Seats, award: PotAward, ghost layer: Pots.Layer)
    requires es == Entries(seats0, board) && origin < |seats0| && Evaluable(seats0, board)
    requires eligible != [] && forall i :: i in eligible <==> i in Pots.Eligible(es, hi)
    requires pot == (hi - lo) * |Pots.Contributors(es, hi)|
    ensures Pots.Eligible(es, hi) != {} && layer == Pots.MakeLayer(es, origin, lo, hi)
    ensures forall k :: 0 <= k < |layer.winners| ==> Taken(seats0, layer.winners[k])
    ensures award == PotAward(layer.pot, Ids(seats0, layer.winners), layer.share, layer.odd)
    ensures seats == WithPortions(seats0, layer.winners, layer.share, layer.odd)
  {
    var winners := PotWinners(seats0, board, origin, hi, eligible, es);
    LayerWinners(seats0, board, origin, lo, hi, winners);
    var share, odd := pot / |winners|, pot % |winners|;
    layer := Pots.Layer(pot, winners, share, odd);
    seats := PayWinners(seats0, winners, share, odd);
    var ids := CollectIds(seats0, winners);
    award := PotAward(pot, ids, share, odd);
  }

  lemma EligibleEvaluable(seats: Seats, board: seq<Card>, es: seq<Pots.Entry>, level: int, eligible: seq<nat>)
    requires es == Entries(seats, board) && Evaluable(seats, board)
    requires forall i :: i in eligible ==> i in Pots.Eligible(es, level)
    ensures CanEvaluate(seats, board, eligible)
  {
    forall k | 0 <= k < |eligible|
      ensures MayWin(seats, eligible[k])
      ensures Distinct(board + [seats[eligible[k]].value.hole.0, seats[eligible[k]].value.hole.1])
    {
      assert eligible[k] in Pots.Eligible(es, level);
    }
  }

  /** The awards of the pots above `t`. */
  ghost function AwardsAbove(seats: Seats, board: seq<Card>, origin: nat, t: int): seq<PotAward>
    requires origin < |seats|
  {
    WinnersTaken(seats, board, origin, t);
    AwardsOf(seats, Pots.Layers(Entries(seats, board), origin, t))
  }

  lemma AwardsStep(seats: Seats, board: seq<Card>, origin: nat, t: int)
    requires origin < |seats| && Pots.HasAbove(Entries(seats, board), t)
    ensures var es := Entries(seats, board);
            var hi := Pots.NextLevel(es, t);
            if Pots.Eligible(es, hi) == {} then AwardsAbove(seats, board, origin, t) == AwardsAbove(seats, board, origin, hi)
            else
              var l := Pots.MakeLayer(es, origin, t, hi);
              && (forall k :: 0 <= k < |l.winners| ==> Taken(seats, l.winners[k]))
              && AwardsAbove(seats, board, origin, t)
                 == [PotAward(l.pot, Ids(seats, l.winners), l.share, l.odd)] + AwardsAbove(seats, board, origin, hi)
  {
    var es := Entries(seats, board);
    var hi := Pots.NextLevel(es, t);
    WinnersTaken(seats, board, origin, t);
    WinnersTaken(seats, board, origin, hi);
    Pots.FewerAbove(es, t, hi);
    if Pots.Eligible(es, hi) != {} {
      var all := Pots.Layers(es, origin, t);
      assert all[0] == Pots.MakeLayer(es, origin, t, hi) && all[0] in all;
      assert all[1..] == Pots.Layers(es, origin, hi);
    }
  }

  /** Splits the commitments into pots, lowest first, and pays each to its winners. */
  method BuildAndAwardPots(seats0: Seats, board: seq<Card>, origin: nat) returns (seats: Seats, awards: seq<PotAward>)
    requires origin < |seats0| && DistinctIds(seats0) && Evaluable(seats0, board)
    ensures awards == ShowdownAwards(seats0, board, origin)
    ensures seats == Credited(seats0, awards)
  {
    ghost var es := Entries(seats0, board);
    var levels := SortedLevels(seats0, es, board);
    var previous := 0;
    seats, awards := seats0, [];
    assert Credited(seats0, []) == seats0;
    assert levels[0..] == levels;
    assert [] + AwardsAbove(seats0, board, origin, 0) == AwardsAbove(seats0, board, origin, 0);
    for j := 0 to |levels|
      invariant LevelsAbove(es, previous, levels[j..]) && previous >= 0
      invariant awards + AwardsAbove(seats0, board, origin, previous) == AwardsAbove(seats0, board, origin, 0)
      invariant seats == Credited(seats0, awards)
    {
      var level := levels[j];
      FirstLevel(es, previous, levels[j..]);
      assert levels[j..][1..] == levels[j + 1..];
      seats, awards := AwardLevel(seats0, seats, awards, board, origin, previous, level);
      previous := level;
    }
    FirstLevel(es, previous, levels[|levels|..]);
    assert awards + [] == awards;
  }

  method AwardLevel(ghost seats0: Seats, seats1: Seats, awards1: seq<PotAward>, board: seq<Card>, origin: nat, lo: int, hi: int)
    returns (seats: Seats, awards: seq<PotAward>)
    requires origin < |seats0| && DistinctIds(seats0) && Evaluable(seats0, board) && 0 <= lo
    requires seats1 == Credited(seats0, awards1)
    requires Pots.HasAbove(Entries(seats0, board), lo) && hi == Pots.NextLevel(Entries(seats0, board), lo)
    ensures seats == Credited(seats0, awards)
    ensures awards + AwardsAbove(seats0, board, origin, hi) == awards1 + AwardsAbove(seats0, board, origin, lo)
  {
    ghost var es := Entries(seats0, board);
    CreditedEntries(seats0, awards1, board);
    var contributors, eligible := CountContributors(seats1, hi, es, board);
    var pot := (hi - lo) * contributors;
    AwardsStep(seats0, board, origin, lo);
    PotPositive(es, lo, hi, contributors);
    if pot <= 0 || eligible == [] {
      assert Pots.Eligible(es, hi) == {};
      return seats1, awards1;
    }
    CreditedEvaluable(seats0, awards1, board);
    var award;
    ghost var layer;
    seats, award, layer := AwardPot(seats1, board, origin, lo, hi, eligible, pot, es);
    awards := awards1 + [award];
    LevelAwarded(seats0, awards1, layer, AwardsAbove(seats0, board, origin, hi));
  }

  lemma LevelAwarded(seats: Seats, awards: seq<PotAward>, layer: Pots.Layer, rest: seq<PotAward>)
    requires DistinctIds(seats)
    requires forall k :: 0 <= k < |layer.winners| ==> Taken(Credited(seats, awards), layer.winners[k])
    ensures forall k :: 0 <= k < |layer.winners| ==> Taken(seats, layer.winners[k])
    ensures Ids(Credited(seats, awards), layer.winners) == Ids(seats, layer.winners)
    ensures var award := PotAward(layer.pot, Ids(seats, layer.winners), layer.share, layer.odd);
            && WithPortions(Credited(seats, awards), layer.winners, layer.share, layer.odd) == Credited(seats, awards + [award])
            && (awards + [award]) + rest == awards + ([award] + rest)
  {
    CreditedIds(seats, awards, layer.winners);
    PaidIsCredited(seats, awards, layer.winners, layer.pot, layer.share, layer.odd);
  }

  lemma PotPositive(es: seq<Pots.Entry>, lo: int, hi: int, n: nat)
    requires Pots.IsNextLevel(es, lo, hi) && n == |Pots.Contributors(es, hi)|
    ensures (hi - lo) * n > 0
  {
    var i :| 0 <= i < |es| && es[i].committed == hi;
    assert i in Pots.Contributors(es, hi);
    assert n >= 1;
  }

  lemma CreditedEvaluable(seats: Seats, awards: seq<PotAward>, board: seq<Card>)
    requires Evaluable(seats, board)
    ensures Evaluable(Credited(seats, awards), board)
  {
    var t := Credited(seats, awards);
    forall i | Taken(t, i)
      ensures Taken(seats, i) && t[i].value.hole == seats[i].value.hole && t[i].value.status == seats[i].value.status
    {}
  }

  lemma CreditedIds(seats: Seats, awards: seq<PotAward>, winners: seq<nat>)
    requires forall k :: 0 <= k < |winners| ==> Taken(Credited(seats, awards), winners[k])
    ensures forall k :: 0 <= k < |winners| ==> Taken(seats, winners[k])
    ensures Ids(Credited(seats, awards), winners) == Ids(seats, winners)
  {
    forall k | 0 <= k < |winners|
      ensures Taken(seats, winners[k])
    {
      assert Taken(Credited(seats, awards), winners[k]);
    }
  }
}
