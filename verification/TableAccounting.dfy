/** Where the chips go in one operation of the table. */
module TableAccounting {
  import opened Wrappers
  import opened Sums
  import opened Cards
  import opened TableModel
  import opened TableInvariant
  import opened TableStart
  import Pots

  // ---------- awards by player and by seat ----------

  lemma {:induction false} PortionById(seats: Seats, winners: seq<nat>, share: int, odd: int, i: nat)
    requires DistinctIds(seats) && Taken(seats, i)
    requires forall k :: 0 <= k < |winners| ==> Taken(seats, winners[k])
    ensures Pots.Portion(Ids(seats, winners), share, odd, seats[i].value.id) == Pots.Portion(winners, share, odd, i)
  {
    if winners != [] {
      var k := |winners| - 1;
      PortionById(seats, winners[..k], share, odd, i);
      assert Ids(seats, winners)[..k] == Ids(seats, winners[..k]);
      assert Ids(seats, winners)[k] == seats[i].value.id <==> winners[k] == i;
    }
  }

  /** Paying by player id is paying by seat. */
  lemma {:induction false} AwardedById(seats: Seats, layers: seq<Pots.Layer>, i: nat)
    requires DistinctIds(seats) && Taken(seats, i)
    requires forall l, k :: l in layers && 0 <= k < |l.winners| ==> Taken(seats, l.winners[k])
    ensures AwardedTo(AwardsOf(seats, layers), seats[i].value.id) == Pots.Winnings(layers, i)
  {
    if layers != [] {
      var l := layers[0];
      assert l in layers;
      AwardedById(seats, layers[1..], i);
      PortionById(seats, l.winners, l.share, l.odd, i);
      assert AwardsOf(seats, layers)[1..] == AwardsOf(seats, layers[1..]);
    }
  }

  lemma {:induction false} AwardedAppend(awards: seq<PotAward>, a: PotAward, id: PlayerId)
    ensures AwardedTo(awards + [a], id) == AwardedTo(awards, id) + Pots.Portion(a.winners, a.equalShare, a.oddChips, id)
  {
    if awards == [] {
      assert [] + [a] == [a];
      assert [a][1..] == [];
    } else {
      AwardedAppend(awards[1..], a, id);
      assert (awards + [a])[1..] == awards[1..] + [a];
    }
  }

  /** A seat without a player wins nothing. */
  lemma {:induction false} EmptySeatWinsNothing(seats: Seats, layers: seq<Pots.Layer>, i: nat)
    requires forall l, k :: l in layers && 0 <= k < |l.winners| ==> Taken(seats, l.winners[k])
    requires !Taken(seats, i)
    ensures Pots.Winnings(layers, i) == 0
  {
    if layers != [] {
      var l := layers[0];
      assert l in layers;
      assert i !in l.winners;
      Pots.PortionOfOther(l.winners, l.share, l.odd, i);
      EmptySeatWinsNothing(seats, layers[1..], i);
    }
  }

  ghost function AwardedBySeat(seats: Seats, awards: seq<PotAward>): (r: seq<int>)
    ensures |r| == |seats|
  {
    seq(|seats|, i requires 0 <= i < |seats| =>
      if seats[i].Some? then AwardedTo(awards, seats[i].value.id) else 0)
  }

  lemma PaidStacks(seats: Seats, awards: seq<PotAward>)
    ensures Sum(Stacks(PaidSeats(seats, awards))) == Sum(Stacks(seats)) + Sum(AwardedBySeat(seats, awards))
  {
    SumAdd(Stacks(seats), AwardedBySeat(seats, awards), Stacks(PaidSeats(seats, awards)));
  }

  lemma EntriesOk(seats: Seats, board: seq<Card>)
    requires forall i :: Taken(seats, i) ==> seats[i].value.handCommitment >= 0
    ensures Pots.NonNegative(Entries(seats, board))
    ensures Pots.Committed(Entries(seats, board)) == Commitments(seats)
  {
    var es := Entries(seats, board);
    forall i | 0 <= i < |es|
      ensures es[i].committed >= 0
    {
      assert seats[i].Some? ==> Taken(seats, i);
    }
  }

  /** What a showdown pays out: everything committed, less what is dropped. */
  lemma ShowdownPays(seats: Seats, board: seq<Card>, origin: nat)
    requires origin < |seats| && DistinctIds(seats)
    requires forall i :: Taken(seats, i) ==> seats[i].value.handCommitment >= 0
    ensures Sum(AwardedBySeat(seats, ShowdownAwards(seats, board, origin)))
            == PotSize(seats) - Pots.Dropped(Entries(seats, board))
    ensures forall i :: Taken(seats, i) ==> AwardedTo(ShowdownAwards(seats, board, origin), seats[i].value.id) >= 0
  {
    var es := Entries(seats, board);
    var layers := Pots.Layers(es, origin, 0);
    WinnersTaken(seats, board, origin, 0);
    EntriesOk(seats, board);
    Pots.DroppedBalance(es, origin);
    Pots.AwardedTotal(es, origin);
    Pots.LayersExact(es, origin, 0);
    Pots.AllPotsPaid(layers, |es|);
    var paid := Pots.AllWinnings(layers, |es|);
    forall i | 0 <= i < |seats|
      ensures AwardedBySeat(seats, ShowdownAwards(seats, board, origin))[i] == paid[i]
    {
      if seats[i].Some? {
        AwardedById(seats, layers, i);
      } else {
        EmptySeatWinsNothing(seats, layers, i);
      }
    }
    assert AwardedBySeat(seats, ShowdownAwards(seats, board, origin)) == paid;
    forall i | Taken(seats, i)
      ensures AwardedTo(ShowdownAwards(seats, board, origin), seats[i].value.id) >= 0
    {
      assert AwardedBySeat(seats, ShowdownAwards(seats, board, origin))[i] == paid[i];
    }
  }

  lemma FoldPays(seats: Seats, winner: nat)
    requires DistinctIds(seats) && Taken(seats, winner)
    ensures Sum(AwardedBySeat(seats, FoldAwards(seats, winner))) == PotSize(seats)
    ensures forall i :: Taken(seats, i) ==>
              AwardedTo(FoldAwards(seats, winner), seats[i].value.id) == if i == winner then PotSize(seats) else 0
  {
    var awards := FoldAwards(seats, winner);
    var pot := PotSize(seats);
    forall i | Taken(seats, i)
      ensures AwardedTo(awards, seats[i].value.id) == if i == winner then pot else 0
    {
      assert AwardedTo(awards[1..], seats[i].value.id) == 0;
      if i == winner {
        Pots.PortionOfWinner([seats[winner].value.id], pot, 0, 0);
      } else {
        Pots.PortionOfOther([seats[winner].value.id], pot, 0, seats[i].value.id);
      }
    }
    var zeros := seq(|seats|, _ => 0);
    SumZero(zeros);
    SumUpdate(zeros, winner, pot);
    assert AwardedBySeat(seats, awards) == zeros[winner := pot];
  }

  // ---------- settlement ----------

  /** Chips lost in a hand that has just been settled: nothing after a fold win. */
  ghost function LostIn(s: State): int {
    if s.street == Settled && |Contenders(s.seats)| >= 2 then Pots.Dropped(Entries(s.seats, s.board)) else 0
  }

  lemma SettleKeeps(s: State, awards: seq<PotAward>)
    ensures Contenders(Settle(s, awards).seats) == Contenders(s.seats)
    ensures Entries(Settle(s, awards).seats, s.board) == Entries(s.seats, s.board)
    ensures Commitments(Settle(s, awards).seats) == Commitments(s.seats)
  {
    var t := Settle(s, awards).seats;
    assert forall i :: Taken(t, i) <==> Taken(s.seats, i);
    assert forall i :: Taken(t, i) ==> t[i].value == s.seats[i].value.(stack := t[i].value.stack, ready := false);
    assert forall i: nat :: i in Contenders(t) <==> i in Contenders(s.seats);
  }

  ghost predicate AllStacksOk(seats: Seats) {
    forall i :: Taken(seats, i) ==> seats[i].value.stack >= 0
  }

  lemma ShowdownAccounting(s: State)
    requires InHand(s) && |Contenders(s.seats)| >= 2
    ensures TotalChips(ShowdownWin(s)) == TotalChips(s) - LostIn(ShowdownWin(s))
    ensures AllStacksOk(s.seats) ==> AllStacksOk(ShowdownWin(s).seats)
  {
    var awards := ShowdownAwards(s.seats, s.board, s.dealerSeat.value);
    ShowdownPays(s.seats, s.board, s.dealerSeat.value);
    PaidStacks(s.seats, awards);
    SettleKeeps(s, awards);
    var t := PaidSeats(s.seats, awards);
    assert forall i :: Taken(t, i) ==> Taken(s.seats, i);
  }

  lemma FoldWinAccounting(s: State)
    requires InHand(s) && |Contenders(s.seats)| <= 1
    ensures TotalChips(FoldWin(s)) == TotalChips(s) && LostIn(FoldWin(s)) == 0
    ensures AllStacksOk(s.seats) ==> AllStacksOk(FoldWin(s).seats)
  {
    FoldSettleAccounting(s, FirstContender(s.seats));
  }

  lemma FoldSettleAccounting(s: State, winner: nat)
    requires InHand(s) && |Contenders(s.seats)| <= 1 && Taken(s.seats, winner)
    ensures var t := Settle(s, FoldAwards(s.seats, winner));
            && TotalChips(t) == TotalChips(s) && LostIn(t) == 0
            && (AllStacksOk(s.seats) ==> AllStacksOk(t.seats))
  {
    var awards := FoldAwards(s.seats, winner);
    FoldPays(s.seats, winner);
    PaidStacks(s.seats, awards);
    SettleKeeps(s, awards);
    PotNonNegative(s);
    var t := PaidSeats(s.seats, awards);
    assert forall i :: Taken(t, i) ==> Taken(s.seats, i);
  }

  lemma PotNonNegative(s: State)
    requires InHand(s)
    ensures PotSize(s.seats) >= 0
  {
    var c := Commitments(s.seats);
    var zeros := seq(|c|, _ => 0);
    SumZero(zeros);
    forall i | 0 <= i < |c|
      ensures zeros[i] <= c[i]
    {
      assert s.seats[i].Some? ==> Taken(s.seats, i);
    }
    SumMonotone(zeros, c);
  }

  // ---------- moving on ----------

  lemma StreetAccounting(s: State)
    requires InHand(s) && s.street != River && CanAdvance(s)
    ensures TotalChips(AdvanceStreet(s)) == TotalChips(s)
    ensures AllStacksOk(s.seats) ==> AllStacksOk(AdvanceStreet(s).seats)
  {
    var t := AdvanceStreet(s).seats;
    assert Stacks(t) == Stacks(s.seats);
    assert Commitments(t) == Commitments(s.seats);
    assert forall i :: Taken(t, i) ==> Taken(s.seats, i) && t[i].value.stack == s.seats[i].value.stack;
  }

  lemma {:induction false} AdvanceAccounting(s: State)
    requires InHand(s) && CanAdvance(s)
    ensures TotalChips(Advance(s)) == TotalChips(s) - LostIn(Advance(s))
    ensures AllStacksOk(s.seats) ==> AllStacksOk(Advance(s).seats)
    decreases StreetsLeft(s.street), 1
  {
    if |Contenders(s.seats)| <= 1 {
      FoldWinAccounting(s);
    } else if !RoundComplete(s) {
    } else if s.street == River {
      ShowdownAccounting(s);
    } else {
      RunOnAccounting(s);
    }
  }

  lemma {:induction false} RunOnAccounting(s: State)
    requires InHand(s) && CanAdvance(s) && |Contenders(s.seats)| >= 2 && RoundComplete(s) && s.street != River
    ensures TotalChips(Advance(s)) == TotalChips(s) - LostIn(Advance(s))
    ensures AllStacksOk(s.seats) ==> AllStacksOk(Advance(s).seats)
    decreases StreetsLeft(s.street), 0
  {
    StreetAccounting(s);
    AdvanceStreetMidHand(s);
    var t := AdvanceStreet(s);
    if |Able(t.seats)| <= 1 {
      BoundedCards(t);
      AdvanceAccounting(t.(pending := {}, actingSeat := None));
    }
  }

  lemma ContinueAccounting(s: State, from: nat)
    requires InHand(s) && CanAdvance(s) && from < |s.seats|
    ensures TotalChips(Continue(s, from)) == TotalChips(s) - LostIn(Continue(s, from))
    ensures AllStacksOk(s.seats) ==> AllStacksOk(Continue(s, from).seats)
  {
    if |Contenders(s.seats)| <= 1 {
      FoldWinAccounting(s);
    } else if RoundComplete(s) {
      AdvanceAccounting(s.(actingSeat := None));
    }
  }

  // ---------- acting ----------

  lemma SeatChangeTotals(s: State, t: State, i: nat)
    requires i < |s.seats| == |t.seats| && t.seats == s.seats[i := t.seats[i]] && t.street == s.street
    ensures TotalChips(t) == TotalChips(s) - Stacks(s.seats)[i] + Stacks(t.seats)[i]
                             + if s.street == Settled then 0 else Commitments(t.seats)[i] - Commitments(s.seats)[i]
  {
    assert Stacks(t.seats) == Stacks(s.seats)[i := Stacks(t.seats)[i]];
    assert Commitments(t.seats) == Commitments(s.seats)[i := Commitments(t.seats)[i]];
    SumUpdate(Stacks(s.seats), i, Stacks(t.seats)[i]);
    SumUpdate(Commitments(s.seats), i, Commitments(t.seats)[i]);
  }

  /** An action only moves chips between the actor's stack and the actor's commitment. */
  lemma PlayedAccounting(s: State, cmd: ActionCommand)
    requires Deciding(s) && BetPhase(s, s.actingSeat.value, cmd).error == Ok
    ensures TotalChips(Played(s, cmd)) == TotalChips(s)
    ensures AllStacksOk(s.seats) ==> AllStacksOk(Played(s, cmd).seats)
  {
    var a := s.actingSeat.value;
    var lift, q, target := ActionKinds(s, a, cmd);
    ActorAccounting(s, Played(s, cmd), a, q);
  }

  lemma ActorAccounting(s: State, t: State, a: nat, q: Player)
    requires Taken(s.seats, a) && t.seats == s.seats[a := Some(q)] && t.street == s.street && q.stack >= 0
    requires q.stack + q.handCommitment == s.seats[a].value.stack + s.seats[a].value.handCommitment
    requires s.street != Settled
    ensures TotalChips(t) == TotalChips(s)
    ensures AllStacksOk(s.seats) ==> AllStacksOk(t.seats)
  {
    SeatChangeTotals(s, t, a);
    assert forall i :: Taken(t.seats, i) && i != a ==> Taken(s.seats, i) && t.seats[i] == s.seats[i];
  }

  lemma ActAccounting(s: State, cmd: ActionCommand)
    requires Deciding(s) && Act(s, cmd).result.error == Ok
    ensures TotalChips(Act(s, cmd).state) == TotalChips(s) - LostIn(Act(s, cmd).state)
    ensures AllStacksOk(s.seats) ==> AllStacksOk(Act(s, cmd).state.seats)
  {
    ActCases(s, cmd);
    PlayedMidHand(s, cmd);
    PlayedAccounting(s, cmd);
    ContinueAccounting(Played(s, cmd), s.actingSeat.value);
  }

  // ---------- starting ----------

  /** Blinds move chips from stacks to commitments; what was committed before is history. */
  lemma OpeningAccounting(s: State, t: State, at: Positions)
    requires Resting(s) && IsOpening(s, t, at)
    ensures TotalChips(t) == TotalChips(s)
    ensures AllStacksOk(s.seats) ==> AllStacksOk(t.seats)
  {
    forall i | 0 <= i < |s.seats|
      ensures Stacks(s.seats)[i] == Stacks(t.seats)[i] + Commitments(t.seats)[i]
    {}
    SumAdd(Stacks(t.seats), Commitments(t.seats), Stacks(s.seats));
    if s.street == Waiting {
      forall i | 0 <= i < |s.seats|
        ensures Commitments(s.seats)[i] == 0
      {
        assert s.seats[i].Some? ==> Taken(s.seats, i);
      }
      SumZero(Commitments(s.seats));
    }
    forall i | Taken(t.seats, i) && AllStacksOk(s.seats)
      ensures t.seats[i].value.stack >= 0
    {
      assert Taken(s.seats, i) && OpenedPlayer(s.seats[i].value, t.seats[i].value);
    }
  }

  lemma BegunAccounting(s: State, t: State, at: Positions, r: State)
    requires Resting(s) && IsBegun(s, t, at, r)
    ensures TotalChips(r) == TotalChips(s) - LostIn(r)
    ensures AllStacksOk(s.seats) ==> AllStacksOk(r.seats)
  {
    OpeningAccounting(s, t, at);
    OpeningInHand(s, t, at);
    if |Able(t.seats)| <= 1 {
      AdvanceAccounting(t);
    }
  }

  lemma StartAccounting(s: State, cards: seq<Card>)
    requires Resting(s) && StartHand(s, cards).error == Ok
    ensures TotalChips(StartHand(s, cards).state) == TotalChips(s) - LostIn(StartHand(s, cards).state)
    ensures AllStacksOk(s.seats) ==> AllStacksOk(StartHand(s, cards).state.seats)
  {
    EnoughCanOpen(s, cards);
    var t := BeginIsBegun(s, cards);
    BegunAccounting(s, t, PositionsOf(s), Begin(s, cards));
  }

  // ---------- aborting ----------

  /** Aborting gives each seat what it committed and takes back what it was awarded. */
  lemma AbortAccounting(s: State)
    requires s.street != Waiting
    ensures TotalChips(AbortHand(s).state) ==
            Sum(Stacks(s.seats)) + PotSize(s.seats)
            - if s.street == Settled then Sum(AwardedBySeat(s.seats, s.lastAwards)) else 0
  {
    var t := AbortHand(s).state.seats;
    var unpaid := seq(|t|, i requires 0 <= i < |t| => if s.seats[i].Some? then Unpaid(s, s.seats[i].value) else 0);
    SumAdd(unpaid, Commitments(s.seats), Stacks(t));
    SumZero(Commitments(t));
    if s.street == Settled {
      SumAdd(unpaid, AwardedBySeat(s.seats, s.lastAwards), Stacks(s.seats));
    } else {
      assert unpaid == Stacks(s.seats);
    }
  }
}
