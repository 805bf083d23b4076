/**
 Side pots (`table.cpp`, lines 751-825), over one entry per seat: what the seat
 has committed to the hand, whether it can still win, and its hand value.
 */
module Pots {
  import opened Cards
  import opened Clockwise
  import opened HandValues
  import opened Sums

  datatype Entry = Entry(committed: int, live: bool, value: HandValue)

  /** One awarded pot: winning seats in the order in which odd chips are handed out. */
  datatype Layer = Layer(pot: int, winners: seq<nat>, share: int, odd: int)

  ghost predicate NonNegative(es: seq<Entry>) {
    forall i :: 0 <= i < |es| ==> es[i].committed >= 0
  }

  ghost function Contributors(es: seq<Entry>, level: int): set<nat> {
    set i: nat | i < |es| && es[i].committed >= level
  }

  ghost function Eligible(es: seq<Entry>, level: int): set<nat> {
    set i: nat | i < |es| && es[i].committed >= level && es[i].live
  }

  /** The seats of `a` that nobody in `a` beats. */
  ghost function Best(es: seq<Entry>, a: set<nat>): set<nat>
    requires forall i :: i in a ==> i < |es|
  {
    set i | i in a && forall j :: j in a ==> !Less(es[i].value, es[j].value)
  }

  lemma {:induction false} BestExists(es: seq<Entry>, a: set<nat>)
    requires a != {} && forall i :: i in a ==> i < |es|
    ensures Best(es, a) != {}
  {
    var x :| x in a;
    var rest := a - {x};
    if rest == {} {
      assert a == {x};
      StrictTotalOrder(es[x].value, es[x].value, es[x].value);
      assert x in Best(es, a);
    } else {
      BestExists(es, rest);
      var y :| y in Best(es, rest);
      var top := if Less(es[y].value, es[x].value) then x else y;
      forall j | j in a
        ensures !Less(es[top].value, es[j].value)
      {
        StrictTotalOrder(es[y].value, es[x].value, es[j].value);
        StrictTotalOrder(es[x].value, es[y].value, es[j].value);
        StrictTotalOrder(es[x].value, es[j].value, es[y].value);
        assert j == x || j in rest;
      }
      assert top in Best(es, a);
    }
  }

  ghost predicate HasAbove(es: seq<Entry>, t: int) {
    exists i :: 0 <= i < |es| && es[i].committed > t
  }

  ghost predicate IsNextLevel(es: seq<Entry>, t: int, level: int) {
    && t < level
    && (exists i :: 0 <= i < |es| && es[i].committed == level)
    && (forall i :: 0 <= i < |es| && es[i].committed > t ==> es[i].committed >= level)
  }

  lemma NextLevelExists(es: seq<Entry>, t: int) returns (level: int)
    requires HasAbove(es, t)
    ensures IsNextLevel(es, t, level)
  {
    var i :| 0 <= i < |es| && es[i].committed > t;
    level := es[i].committed;
    while exists j :: 0 <= j < |es| && t < es[j].committed < level
      invariant t < level && exists j :: 0 <= j < |es| && es[j].committed == level
      decreases level - t
    {
      var j :| 0 <= j < |es| && t < es[j].committed < level;
      level := es[j].committed;
    }
  }

  /** The smallest commitment above `t`. */
  ghost function NextLevel(es: seq<Entry>, t: int): (r: int)
    requires HasAbove(es, t)
    ensures IsNextLevel(es, t, r)
  {
    assert exists level :: IsNextLevel(es, t, level) by { var level := NextLevelExists(es, t); }
    var level :| IsNextLevel(es, t, level);
    level
  }

  lemma FewerAbove(es: seq<Entry>, t: int, level: int)
    requires IsNextLevel(es, t, level)
    ensures Contributors(es, level + 1) < Contributors(es, t + 1)
  {
    var i :| 0 <= i < |es| && es[i].committed == level;
    assert i in Contributors(es, t + 1) && i !in Contributors(es, level + 1);
  }

  /** The pot between `lo` and `hi`, split among the best eligible seats. */
  ghost function MakeLayer(es: seq<Entry>, origin: nat, lo: int, hi: int): Layer
    requires origin < |es| && Eligible(es, hi) != {}
  {
    BestExists(es, Eligible(es, hi));
    var winners := Order(Best(es, Eligible(es, hi)), |es|, origin);
    OrderSize(Best(es, Eligible(es, hi)), |es|, origin);
    var pot := (hi - lo) * |Contributors(es, hi)|;
    Layer(pot, winners, pot / |winners|, pot % |winners|)
  }

  /** The awarded pots above level `t`, lowest first; a pot nobody can win is skipped. */
  ghost function Layers(es: seq<Entry>, origin: nat, t: int): seq<Layer>
    requires origin < |es|
    decreases Contributors(es, t + 1)
  {
    if !HasAbove(es, t) then []
    else
      var hi := NextLevel(es, t);
      FewerAbove(es, t, hi);
      var rest := Layers(es, origin, hi);
      if Eligible(es, hi) == {} then rest else [MakeLayer(es, origin, t, hi)] + rest
  }

  // ---------- who gets what ----------

  /** What `who` receives when each winner gets `share` and the first `odd` of them one chip more. */
  function Portion(winners: seq<nat>, share: int, odd: int, who: nat): int {
    if winners == [] then 0
    else
      var k := |winners| - 1;
      Portion(winners[..k], share, odd, who)
      + if winners[k] == who then share + (if k < odd then 1 else 0) else 0
  }

  ghost function Portions(winners: seq<nat>, share: int, odd: int, n: nat): (r: seq<int>)
    ensures |r| == n
  {
    seq(n, i requires 0 <= i < n => Portion(winners, share, odd, i))
  }

  /** Handing out a pot gives out exactly the shares, whoever the winners are. */
  lemma {:induction false} PortionTotal(winners: seq<nat>, share: int, odd: nat, n: nat)
    requires forall k :: 0 <= k < |winners| ==> winners[k] < n
    ensures Sum(Portions(winners, share, odd, n)) == share * |winners| + Min(odd, |winners|)
  {
    if winners == [] {
      SumZero(Portions(winners, share, odd, n));
    } else {
      var k := |winners| - 1;
      var before := Portions(winners[..k], share, odd, n);
      var after := Portions(winners, share, odd, n);
      var w := winners[k];
      PortionTotal(winners[..k], share, odd, n);
      assert after == before[w := after[w]];
      SumUpdate(before, w, after[w]);
      Distribute(share, k, 1);
    }
  }

  lemma {:induction false} PortionOfOther(winners: seq<nat>, share: int, odd: int, who: nat)
    requires who !in winners
    ensures Portion(winners, share, odd, who) == 0
  {
    if winners != [] {
      PortionOfOther(winners[..|winners| - 1], share, odd, who);
    }
  }

  /** With no winner listed twice, the k-th winner gets the share, plus one chip while odd chips last. */
  lemma {:induction false} PortionOfWinner(winners: seq<nat>, share: int, odd: int, k: nat)
    requires Distinct(winners) && k < |winners|
    ensures Portion(winners, share, odd, winners[k]) == share + (if k < odd then 1 else 0)
  {
    var last := |winners| - 1;
    if k == last {
      PortionOfOther(winners[..last], share, odd, winners[k]);
    } else {
      PortionOfWinner(winners[..last], share, odd, k);
    }
  }

  lemma {:induction false} PortionNonNegative(winners: seq<nat>, share: nat, odd: int, who: nat)
    ensures Portion(winners, share, odd, who) >= 0
  {
    if winners != [] {
      PortionNonNegative(winners[..|winners| - 1], share, odd, who);
    }
  }

  ghost function Winnings(layers: seq<Layer>, who: nat): int {
    if layers == [] then 0
    else Portion(layers[0].winners, layers[0].share, layers[0].odd, who) + Winnings(layers[1..], who)
  }

  ghost function AllWinnings(layers: seq<Layer>, n: nat): (r: seq<int>)
    ensures |r| == n
  {
    seq(n, i requires 0 <= i < n => Winnings(layers, i))
  }

  ghost function PotTotal(layers: seq<Layer>): int {
    if layers == [] then 0 else layers[0].pot + PotTotal(layers[1..])
  }

  /** A pot divides exactly into its shares and odd chips, over distinct seats of the table. */
  ghost predicate Exact(l: Layer, n: nat) {
    && l.winners != []
    && Distinct(l.winners)
    && (forall k :: 0 <= k < |l.winners| ==> l.winners[k] < n)
    && 0 <= l.share
    && 0 <= l.odd < |l.winners|
    && l.pot == l.share * |l.winners| + l.odd
  }

  lemma MakeLayerExact(es: seq<Entry>, origin: nat, lo: int, hi: int)
    requires origin < |es| && Eligible(es, hi) != {} && lo <= hi
    ensures Exact(MakeLayer(es, origin, lo, hi), |es|)
  {
    var best := Best(es, Eligible(es, hi));
    BestExists(es, Eligible(es, hi));
    OrderSize(best, |es|, origin);
    var m := |best|;
    var pot := (hi - lo) * |Contributors(es, hi)|;
    assert pot >= 0;
    DivisionExact(pot, m);
  }

  lemma DivisionExact(pot: nat, m: nat)
    requires 0 < m
    ensures pot == pot / m * m + pot % m && 0 <= pot % m < m && 0 <= pot / m
  {}

  lemma {:induction false} LayersExact(es: seq<Entry>, origin: nat, t: int)
    requires origin < |es|
    ensures forall l :: l in Layers(es, origin, t) ==> Exact(l, |es|)
    decreases Contributors(es, t + 1)
  {
    if HasAbove(es, t) {
      var hi := NextLevel(es, t);
      FewerAbove(es, t, hi);
      LayersExact(es, origin, hi);
      if Eligible(es, hi) != {} {
        MakeLayerExact(es, origin, t, hi);
      }
    }
  }

  /** Everything in the awarded pots is paid to some seat, and nothing else is. */
  lemma {:induction false} AllPotsPaid(layers: seq<Layer>, n: nat)
    requires forall l :: l in layers ==> Exact(l, n)
    ensures Sum(AllWinnings(layers, n)) == PotTotal(layers)
    ensures forall i :: 0 <= i < n ==> AllWinnings(layers, n)[i] >= 0
  {
    if layers == [] {
      SumZero(AllWinnings(layers, n));
    } else {
      var l := layers[0];
      assert l in layers;
      AllPotsPaid(layers[1..], n);
      PortionTotal(l.winners, l.share, l.odd, n);
      SumAdd(Portions(l.winners, l.share, l.odd, n), AllWinnings(layers[1..], n), AllWinnings(layers, n));
      forall i | 0 <= i < n
        ensures AllWinnings(layers, n)[i] >= 0
      {
        PortionNonNegative(l.winners, l.share, l.odd, i);
        assert AllWinnings(layers[1..], n)[i] >= 0;
      }
    }
  }

  // ---------- how much is awarded ----------

  ghost function Capped(es: seq<Entry>, m: int): (r: seq<int>)
    ensures |r| == |es|
  {
    seq(|es|, i requires 0 <= i < |es| => Min(es[i].committed, m))
  }

  ghost function Committed(es: seq<Entry>): (r: seq<int>)
    ensures |r| == |es|
  {
    seq(|es|, i requires 0 <= i < |es| => es[i].committed)
  }

  /** The largest commitment of a seat that can still win; 0 when there is none. */
  ghost function LiveMax(es: seq<Entry>): (m: int)
    ensures 0 <= m
    ensures forall i :: 0 <= i < |es| && es[i].live ==> es[i].committed <= m
    ensures m == 0 || exists i :: 0 <= i < |es| && es[i].live && es[i].committed == m
  {
    if es == [] then 0
    else
      var n := |es| - 1;
      var m := LiveMax(es[..n]);
      assert m > 0 ==> exists i :: 0 <= i < n && es[..n][i].live && es[..n][i].committed == m && es[i] == es[..n][i];
      assert forall i :: 0 <= i < n ==> es[i] == es[..n][i];
      if es[n].live && es[n].committed > m then es[n].committed else m
  }

  ghost function Indicator(n: nat, a: set<nat>, v: int): (r: seq<int>)
    ensures |r| == n
  {
    seq(n, i requires 0 <= i < n => if i in a then v else 0)
  }

  lemma {:induction false} SumIndicator(n: nat, a: set<nat>, v: int)
    requires forall i :: i in a ==> i < n
    ensures Sum(Indicator(n, a, v)) == v * |a|
  {
    if n == 0 {
      assert a == {};
    } else {
      var b := a - {n - 1};
      SumIndicator(n - 1, b, v);
      assert Indicator(n, a, v)[..n - 1] == Indicator(n - 1, b, v);
      if n - 1 in a {
        assert |a| == |b| + 1;
        Distribute(v, |b|, 1);
      } else {
        assert a == b;
      }
    }
  }

  /** A pot is the chips that raising the cap from `lo` to `hi` brings in. */
  lemma CapStep(es: seq<Entry>, lo: int, hi: int)
    requires IsNextLevel(es, lo, hi)
    ensures Sum(Capped(es, hi)) == Sum(Capped(es, lo)) + (hi - lo) * |Contributors(es, hi)|
  {
    var a := Contributors(es, hi);
    var step := Indicator(|es|, a, hi - lo);
    SumIndicator(|es|, a, hi - lo);
    SumAdd(Capped(es, lo), step, Capped(es, hi));
  }

  lemma EligibleBelowMax(es: seq<Entry>, level: int)
    requires level > 0
    ensures Eligible(es, level) != {} <==> level <= LiveMax(es)
  {
    if level <= LiveMax(es) {
      var i :| 0 <= i < |es| && es[i].live && es[i].committed == LiveMax(es);
      assert i in Eligible(es, level);
    }
  }

  /** The pots above `t` hold what seats put in between `t` and the largest live commitment. */
  lemma {:induction false} AwardedAbove(es: seq<Entry>, origin: nat, t: int)
    requires origin < |es| && t >= 0
    ensures PotTotal(Layers(es, origin, t)) == Sum(Capped(es, Max(t, LiveMax(es)))) - Sum(Capped(es, t))
    decreases Contributors(es, t + 1)
  {
    var m := LiveMax(es);
    if HasAbove(es, t) {
      var hi := NextLevel(es, t);
      FewerAbove(es, t, hi);
      AwardedAbove(es, origin, hi);
      CapStep(es, t, hi);
      EligibleBelowMax(es, hi);
      if Eligible(es, hi) != {} {
        assert Layers(es, origin, t)[1..] == Layers(es, origin, hi);
      } else {
        NoLevelBetween(es, t, m, hi);
      }
    } else {
      assert forall i :: 0 <= i < |es| ==> es[i].committed <= t;
      assert Capped(es, Max(t, m)) == Capped(es, t);
    }
  }

  lemma NoLevelBetween(es: seq<Entry>, t: int, m: int, hi: int)
    requires IsNextLevel(es, t, hi) && m == LiveMax(es) && m < hi && 0 <= t
    ensures m <= t
  {
    assert m == 0 || exists i :: 0 <= i < |es| && es[i].live && es[i].committed == m;
  }

  /**
   The awarded total is the sum of min(commitment, M), M the largest commitment
   of a seat that can still win; the rest, what others put in above M, is lost.
   */
  lemma AwardedTotal(es: seq<Entry>, origin: nat)
    requires origin < |es| && NonNegative(es)
    ensures PotTotal(Layers(es, origin, 0)) == Sum(Capped(es, LiveMax(es)))
    ensures Sum(AllWinnings(Layers(es, origin, 0), |es|)) == Sum(Capped(es, LiveMax(es)))
  {
    AwardedAbove(es, origin, 0);
    SumZero(Capped(es, 0));
    LayersExact(es, origin, 0);
    AllPotsPaid(Layers(es, origin, 0), |es|);
  }

  /** Chips committed above the largest live commitment. */
  ghost function Excess(es: seq<Entry>, m: int): (r: seq<int>)
    ensures |r| == |es|
  {
    seq(|es|, i requires 0 <= i < |es| => Max(0, es[i].committed - m))
  }

  ghost function Dropped(es: seq<Entry>): int {
    Sum(Excess(es, LiveMax(es)))
  }

  /** Chips in, chips awarded and chips dropped balance; nothing is dropped iff nobody out-committed M. */
  lemma DroppedBalance(es: seq<Entry>, origin: nat)
    requires origin < |es| && NonNegative(es)
    ensures PotTotal(Layers(es, origin, 0)) + Dropped(es) == Sum(Committed(es))
    ensures Dropped(es) >= 0
    ensures Dropped(es) == 0 <==> forall i :: 0 <= i < |es| ==> es[i].committed <= LiveMax(es)
  {
    var m := LiveMax(es);
    AwardedTotal(es, origin);
    SumAdd(Capped(es, m), Excess(es, m), Committed(es));
    var zeros := seq(|es|, _ => 0);
    SumZero(zeros);
    SumMonotone(zeros, Excess(es, m));
    if forall i :: 0 <= i < |es| ==> es[i].committed <= m {
      SumZero(Excess(es, m));
    } else {
      var i :| 0 <= i < |es| && es[i].committed > m;
      assert zeros[i] < Excess(es, m)[i];
    }
  }

  // ---------- nothing exceeds what was committed ----------

  lemma CappedBelow(es: seq<Entry>, m: int)
    ensures Sum(Capped(es, m)) <= Sum(Committed(es))
  {
    SumMonotone(Capped(es, m), Committed(es));
  }

  /** The pot of every level, whether it is awarded or skipped, fits in what is committed above the level before. */
  lemma LevelPotBounded(es: seq<Entry>, lo: int, hi: int)
    requires IsNextLevel(es, lo, hi)
    ensures 0 <= (hi - lo) * |Contributors(es, hi)| <= Sum(Committed(es)) - Sum(Capped(es, lo))
  {
    TimesNonNegative(hi - lo, |Contributors(es, hi)|);
    CapStep(es, lo, hi);
    CappedBelow(es, hi);
  }

  /** So does every awarded pot, and all of them together. */
  lemma {:induction false} LayersBounded(es: seq<Entry>, origin: nat, t: int)
    requires origin < |es|
    ensures forall l :: l in Layers(es, origin, t) ==> 0 <= l.pot <= Sum(Committed(es)) - Sum(Capped(es, t))
    ensures 0 <= PotTotal(Layers(es, origin, t)) <= Sum(Committed(es)) - Sum(Capped(es, t))
    decreases Contributors(es, t + 1)
  {
    CappedBelow(es, t);
    if HasAbove(es, t) {
      var hi := NextLevel(es, t);
      FewerAbove(es, t, hi);
      LayersBounded(es, origin, hi);
      LevelPotBounded(es, t, hi);
      CapStep(es, t, hi);
      if Eligible(es, hi) != {} {
        assert Layers(es, origin, t)[1..] == Layers(es, origin, hi);
      }
    }
  }

  // ---------- pots against the chip-by-chip game ----------

  /** The sizes of the one-chip pots at heights lo+1..hi. */
  ghost function UnitPots(es: seq<Entry>, lo: int, hi: int): int
    requires lo <= hi
    decreases hi - lo
  {
    if lo == hi then 0 else UnitPots(es, lo, hi - 1) + |Contributors(es, hi)|
  }

  /**
   Playing every single chip as a pot of its own gives the same pots: within a
   layer each chip height has the same contributors and the same eligible seats.
   */
  lemma {:induction false} LayerIsUnitPots(es: seq<Entry>, lo: int, hi: int, k: int)
    requires IsNextLevel(es, lo, hi) && lo < k <= hi
    ensures Contributors(es, k) == Contributors(es, hi)
    ensures Eligible(es, k) == Eligible(es, hi)
    ensures UnitPots(es, lo, k) == (k - lo) * |Contributors(es, hi)|
    decreases k - lo
  {
    assert Contributors(es, k) == Contributors(es, hi);
    if k == lo + 1 {
      assert UnitPots(es, lo, lo) == 0;
    } else {
      LayerIsUnitPots(es, lo, hi, k - 1);
      assert (k - lo) * |Contributors(es, hi)| == (k - 1 - lo) * |Contributors(es, hi)| + |Contributors(es, hi)|;
    }
  }

  // ---------- entitlement ----------

  lemma PortionAtMostPot(l: Layer, n: nat, who: nat)
    requires Exact(l, n)
    ensures 0 <= Portion(l.winners, l.share, l.odd, who) <= l.pot
    ensures who !in l.winners ==> Portion(l.winners, l.share, l.odd, who) == 0
  {
    PortionNonNegative(l.winners, l.share, l.odd, who);
    if who in l.winners {
      var k :| 0 <= k < |l.winners| && l.winners[k] == who;
      PortionOfWinner(l.winners, l.share, l.odd, k);
      TimesAtLeast(l.share, |l.winners|);
    } else {
      PortionOfOther(l.winners, l.share, l.odd, who);
    }
  }

  /** One pot adds at most its size, and only for a seat that is live and reaches its level. */
  lemma WinningsStep(es: seq<Entry>, origin: nat, t: int, hi: int, who: nat) returns (won: int)
    requires origin < |es| && who < |es| && HasAbove(es, t) && hi == NextLevel(es, t)
    ensures Winnings(Layers(es, origin, t), who) == won + Winnings(Layers(es, origin, hi), who)
    ensures 0 <= won <= (hi - t) * |Contributors(es, hi)|
    ensures !es[who].live || es[who].committed < hi ==> won == 0
  {
    FewerAbove(es, t, hi);
    if Eligible(es, hi) == {} {
      won := 0;
      TimesNonNegative(hi - t, |Contributors(es, hi)|);
    } else {
      var l := MakeLayer(es, origin, t, hi);
      var all := Layers(es, origin, t);
      assert all[0] == l && all[1..] == Layers(es, origin, hi);
      LayerPortion(es, origin, t, hi, who);
      won := Portion(l.winners, l.share, l.odd, who);
    }
  }

  lemma LayerPortion(es: seq<Entry>, origin: nat, lo: int, hi: int, who: nat)
    requires origin < |es| && lo <= hi && Eligible(es, hi) != {}
    ensures var l := MakeLayer(es, origin, lo, hi);
            && 0 <= Portion(l.winners, l.share, l.odd, who) <= (hi - lo) * |Contributors(es, hi)|
            && (who !in Eligible(es, hi) ==> Portion(l.winners, l.share, l.odd, who) == 0)
  {
    var l := MakeLayer(es, origin, lo, hi);
    MakeLayerExact(es, origin, lo, hi);
    PortionAtMostPot(l, |es|, who);
    assert who in l.winners ==> who in Eligible(es, hi);
  }

  lemma {:induction false} EntitlementAbove(es: seq<Entry>, origin: nat, t: int, who: nat)
    requires origin < |es| && who < |es| && 0 <= t
    ensures Winnings(Layers(es, origin, t), who) >= 0
    ensures !es[who].live ==> Winnings(Layers(es, origin, t), who) == 0
    ensures Winnings(Layers(es, origin, t), who) <= Sum(Capped(es, Max(t, es[who].committed))) - Sum(Capped(es, t))
    decreases Contributors(es, t + 1)
  {
    if HasAbove(es, t) {
      var hi := NextLevel(es, t);
      FewerAbove(es, t, hi);
      EntitlementAbove(es, origin, hi, who);
      CapStep(es, t, hi);
      var won := WinningsStep(es, origin, t, hi, who);
      assert es[who].committed < hi ==> es[who].committed <= t;
    }
  }

  /**
   A seat out of the hand wins nothing, and a seat that committed c wins at most
   the sum over all seats j of min(c, c_j).
   */
  lemma Entitlement(es: seq<Entry>, origin: nat, who: nat)
    requires origin < |es| && who < |es| && NonNegative(es)
    ensures 0 <= Winnings(Layers(es, origin, 0), who) <= Sum(Capped(es, es[who].committed))
    ensures !es[who].live ==> Winnings(Layers(es, origin, 0), who) == 0
  {
    EntitlementAbove(es, origin, 0, who);
    SumZero(Capped(es, 0));
  }

  /**
   Inside one pot: only unbeaten eligible seats are paid, each of them the same
   share, and the odd chips go one each to the first of them clockwise from the
   seat after the origin.
   */
  lemma LayerSplit(es: seq<Entry>, origin: nat, lo: int, hi: int, who: nat)
    requires origin < |es| && who < |es| && lo < hi && Eligible(es, hi) != {}
    ensures var l := MakeLayer(es, origin, lo, hi);
            var best := Best(es, Eligible(es, hi));
            var ahead := set j | j in best && Distance(|es|, origin, j) < Distance(|es|, origin, who);
            Portion(l.winners, l.share, l.odd, who) ==
            if who in best then l.share + (if |ahead| < l.odd then 1 else 0) else 0
  {
    var l := MakeLayer(es, origin, lo, hi);
    var best := Best(es, Eligible(es, hi));
    var n := |es|;
    BestExists(es, Eligible(es, hi));
    OrderSize(best, n, origin);
    OrderMembers(best, n, origin);
    if who in best {
      var k :| 0 <= k < |l.winners| && l.winners[k] == who;
      PortionOfWinner(l.winners, l.share, l.odd, k);
      AheadCount(l.winners, n, origin, best, k);
    } else {
      PortionOfOther(l.winners, l.share, l.odd, who);
    }
  }

  lemma AheadCount(winners: seq<nat>, n: nat, origin: nat, best: set<nat>, k: nat)
    requires origin < n && Sorted(winners, n, origin) && k < |winners|
    requires Distinct(winners) && ToSet(winners) == best
    ensures |set j | j in best && Distance(n, origin, j) < Distance(n, origin, winners[k])| == k
  {
    var ahead := set j | j in best && Distance(n, origin, j) < Distance(n, origin, winners[k]);
    forall j | j in best
      ensures j in ahead <==> j in winners[..k]
    {
      var m :| 0 <= m < |winners| && winners[m] == j;
      if j in winners[..k] {
        var q :| 0 <= q < k && winners[q] == j;
      }
    }
    assert ahead == ToSet(winners[..k]);
    DistinctSize(winners[..k]);
  }

  // ---------- each pot, told from the entries ----------

  /** Nobody live who has put in at least `hi` beats seat `i`. */
  ghost predicate Unbeaten(es: seq<Entry>, hi: int, i: nat) {
    && i < |es| && es[i].live && es[i].committed >= hi
    && forall j :: 0 <= j < |es| && es[j].live && es[j].committed >= hi ==> !Less(es[i].value, es[j].value)
  }

  /**
   The pot between two neighbouring commitments: as many chips from each who put in at least
   the higher one; divided among the unbeaten, clockwise from the origin, odd chips first.
   */
  ghost predicate PotBetween(es: seq<Entry>, origin: nat, lo: int, hi: int, l: Layer)
    requires origin < |es|
  {
    && IsNextLevel(es, lo, hi)
    && l.pot == (hi - lo) * |set i: nat | i < |es| && es[i].committed >= hi|
    && (forall i :: i in l.winners <==> Unbeaten(es, hi, i))
    && l.winners != [] && Distinct(l.winners) && Sorted(l.winners, |es|, origin)
    && l.share == l.pot / |l.winners| && l.odd == l.pot % |l.winners|
  }

  lemma MadeBetween(es: seq<Entry>, origin: nat, lo: int, hi: int)
    requires origin < |es| && Eligible(es, hi) != {} && IsNextLevel(es, lo, hi)
    ensures PotBetween(es, origin, lo, hi, MakeLayer(es, origin, lo, hi))
  {
    var best := Best(es, Eligible(es, hi));
    BestExists(es, Eligible(es, hi));
    OrderSize(best, |es|, origin);
    OrderMembers(best, |es|, origin);
    assert Contributors(es, hi) == set i: nat | i < |es| && es[i].committed >= hi;
    forall i: nat
      ensures i in best <==> Unbeaten(es, hi, i)
    {}
  }

  /** Every awarded pot lies between two neighbouring commitments and goes to the unbeaten. */
  lemma {:induction false} AwardedPotsAre(es: seq<Entry>, origin: nat, t: int, l: Layer)
    requires origin < |es| && l in Layers(es, origin, t)
    ensures exists lo, hi :: t <= lo && PotBetween(es, origin, lo, hi, l)
    decreases Contributors(es, t + 1)
  {
    if HasAbove(es, t) {
      var hi := NextLevel(es, t);
      FewerAbove(es, t, hi);
      if Eligible(es, hi) != {} && l == MakeLayer(es, origin, t, hi) {
        MadeBetween(es, origin, t, hi);
      } else {
        AwardedPotsAre(es, origin, hi, l);
      }
    }
  }

  /** And every level somebody can win is awarded. */
  lemma {:induction false} WinnablePotsAwarded(es: seq<Entry>, origin: nat, t: int, lo: int, hi: int)
    requires origin < |es| && t <= lo && IsNextLevel(es, lo, hi) && Eligible(es, hi) != {}
    requires lo == t || exists i :: 0 <= i < |es| && es[i].committed == lo
    ensures MakeLayer(es, origin, lo, hi) in Layers(es, origin, t)
    decreases Contributors(es, t + 1)
  {
    var next := NextLevel(es, t);
    FewerAbove(es, t, next);
    if lo == t {
      assert next == hi;
    } else {
      assert next <= lo;
      WinnablePotsAwarded(es, origin, next, lo, hi);
    }
  }

  /** Somebody with a better hand and at least as much in the pot leaves nothing to a weaker one. */
  lemma {:induction false} WeakerWinsNothing(es: seq<Entry>, origin: nat, t: int, strong: nat, weak: nat)
    requires origin < |es| && strong < |es| && weak < |es| && es[strong].live
    requires es[strong].committed >= es[weak].committed && Less(es[weak].value, es[strong].value)
    ensures Winnings(Layers(es, origin, t), weak) == 0
    decreases Contributors(es, t + 1)
  {
    if HasAbove(es, t) {
      var hi := NextLevel(es, t);
      FewerAbove(es, t, hi);
      WeakerWinsNothing(es, origin, hi, strong, weak);
      if Eligible(es, hi) != {} {
        var l := MakeLayer(es, origin, t, hi);
        MadeBetween(es, origin, t, hi);
        assert !Unbeaten(es, hi, weak);
        PortionOfOther(l.winners, l.share, l.odd, weak);
        assert Layers(es, origin, t)[1..] == Layers(es, origin, hi);
      }
    }
  }
}
