/** Taking back awards and refunding commitments, as loops (`table.cpp`, lines 114-151). */
module TableAbort {
  import opened Wrappers
  import opened TableModel
  import opened TableAccounting
  import opened TableLoops
  import Pots

  /** The seats with the awards taken off the stacks. */
  ghost function Debited(seats: Seats, awards: seq<PotAward>): (r: Seats)
    ensures |r| == |seats|
  {
    seq(|seats|, i requires 0 <= i < |seats| =>
      if seats[i].Some? then
        var p := seats[i].value;
        Some(p.(stack := p.stack - AwardedTo(awards, p.id)))
      else None)
  }

  /** The award as far as its first `k` winners go. */
  function FirstWinners(award: PotAward, k: nat): PotAward
    requires k <= |award.winners|
  {
    award.(winners := award.winners[..k])
  }

  lemma OneAward(a: PotAward, id: PlayerId)
    ensures AwardedTo([a], id) == Pots.Portion(a.winners, a.equalShare, a.oddChips, id)
  {
    assert AwardedTo([a][1..], id) == 0;
  }

  /** Takes one award back from its winners; winners who have left are skipped. */
  method TakeBack(seats0: Seats, award: PotAward) returns (seats: Seats)
    requires DistinctIds(seats0)
    ensures seats == Debited(seats0, [award])
  {
    seats := seats0;
    forall id: PlayerId { OneAward(FirstWinners(award, 0), id); }
    assert seats == Debited(seats0, [FirstWinners(award, 0)]);
    for k := 0 to |award.winners|
      invariant seats == Debited(seats0, [FirstWinners(award, k)])
    {
      var id := award.winners[k];
      var amount := award.equalShare + if k < award.oddChips then 1 else 0;
      ghost var before := seats;
      var seat := FindSeat(seats, id);
      if seat.Some? {
        var p := seats[seat.value].value;
        seats := seats[seat.value := Some(p.(stack := p.stack - amount))];
      }
      TakeBackStep(seats0, award, k, before, seats, seat);
    }
    assert award.winners[..|award.winners|] == award.winners;
  }

  lemma TakeBackStep(seats0: Seats, award: PotAward, k: nat, before: Seats, after: Seats, seat: Option<nat>)
    requires DistinctIds(seats0) && k < |award.winners| && before == Debited(seats0, [FirstWinners(award, k)])
    requires seat == SeatOf(before, award.winners[k])
    requires var amount := award.equalShare + if k < award.oddChips then 1 else 0;
             after == if seat.None? then before
                      else before[seat.value := Some(before[seat.value].value.(stack := before[seat.value].value.stack - amount))]
    ensures after == Debited(seats0, [FirstWinners(award, k + 1)])
  {
    var w := award.winners[..k + 1];
    assert w[..k] == award.winners[..k] && w[k] == award.winners[k];
    forall i | 0 <= i < |seats0|
      ensures after[i] == Debited(seats0, [FirstWinners(award, k + 1)])[i]
    {
      if seats0[i].Some? {
        var id := seats0[i].value.id;
        OneAward(FirstWinners(award, k), id);
        OneAward(FirstWinners(award, k + 1), id);
        SeatHit(seats0, before, award.winners[k], seat, i);
      }
    }
  }

  /** The seat found is the only one with that player. */
  lemma SeatHit(seats0: Seats, before: Seats, w: PlayerId, seat: Option<nat>, i: nat)
    requires DistinctIds(seats0) && |before| == |seats0| && Taken(seats0, i) && seat == SeatOf(before, w)
    requires forall j :: 0 <= j < |seats0| ==>
               && (before[j].Some? <==> seats0[j].Some?)
               && (before[j].Some? ==> before[j].value.id == seats0[j].value.id)
    ensures seat == Some(i) <==> seats0[i].value.id == w
  {
    if seats0[i].value.id == w {
      assert HasId(before, i, w);
    }
  }

  lemma DebitedTwice(seats: Seats, awards: seq<PotAward>, a: PotAward)
    ensures Debited(Debited(seats, awards), [a]) == Debited(seats, awards + [a])
  {
    forall i | 0 <= i < |seats| && seats[i].Some?
      ensures AwardedTo(awards + [a], seats[i].value.id) == AwardedTo(awards, seats[i].value.id) + AwardedTo([a], seats[i].value.id)
    {
      OneAward(a, seats[i].value.id);
      AwardedAppend(awards, a, seats[i].value.id);
    }
  }

  lemma DebitedIds(seats: Seats, awards: seq<PotAward>)
    requires DistinctIds(seats)
    ensures DistinctIds(Debited(seats, awards))
  {}

  /** Takes all awards back. */
  method TakeAllBack(seats0: Seats, awards: seq<PotAward>) returns (seats: Seats)
    requires DistinctIds(seats0)
    ensures seats == Debited(seats0, awards)
  {
    seats := seats0;
    assert Debited(seats0, awards[..0]) == seats0;
    for k := 0 to |awards|
      invariant seats == Debited(seats0, awards[..k])
    {
      assert awards[..k + 1] == awards[..k] + [awards[k]];
      DebitedIds(seats0, awards[..k]);
      DebitedTwice(seats0, awards[..k], awards[k]);
      seats := TakeBack(seats, awards[k]);
    }
    assert awards[..|awards|] == awards;
  }

  /** Refunds every commitment and clears every seat's part in the hand. */
  method RefundSeats(seats0: Seats) returns (seats: Seats)
    ensures |seats| == |seats0|
    ensures forall i :: 0 <= i < |seats0| ==> seats[i] == if seats0[i].None? then None else Some(Refunded(seats0[i].value))
  {
    seats := seats0;
    for i := 0 to |seats0|
      invariant |seats| == |seats0| && seats[i..] == seats0[i..]
      invariant forall j :: 0 <= j < i ==> seats[j] == if seats0[j].None? then None else Some(Refunded(seats0[j].value))
    {
      if seats[i].Some? {
        seats := seats[i := Some(Refunded(seats[i].value))];
      }
    }
  }

  function Refunded(p: Player): Player {
    p.(stack := p.stack + p.handCommitment, streetCommitment := 0, handCommitment := 0, status := Idle,
       ready := false, hasHole := false)
  }

  /** The two loops of an abort. */
  method UndoHand(seats0: Seats, settled: bool, awards: seq<PotAward>, ghost s: State) returns (seats: Seats)
    requires s.seats == seats0 && settled == (s.street == Settled) && s.lastAwards == awards && DistinctIds(seats0)
    ensures seats == RefundedSeats(s)
  {
    seats := seats0;
    if settled {
      seats := TakeAllBack(seats, awards);
    }
    seats := RefundSeats(seats);
  }
}
