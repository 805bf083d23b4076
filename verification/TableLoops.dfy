/** The table's searches, counts and lists, as loops over its seats. */
module TableLoops {
  import opened Wrappers
  import opened Sums
  import opened Clockwise
  import opened TableModel

  method FindSeat(seats: Seats, id: PlayerId) returns (r: Option<nat>)
    ensures r == SeatOf(seats, id)
  {
    for i := 0 to |seats|
      invariant forall j :: 0 <= j < i ==> !HasId(seats, j, id)
    {
      if seats[i].Some? && seats[i].value.id == id {
        FirstIsIt(seats, id, i);
        return Some(i);
      }
    }
    return None;
  }

  lemma FirstIsIt(seats: Seats, id: PlayerId, i: nat)
    requires HasId(seats, i, id) && forall j :: 0 <= j < i ==> !HasId(seats, j, id)
    ensures SeatOf(seats, id) == Some(i)
  {}

  ghost function UpTo(a: set<nat>, i: nat): set<nat> {
    set x | x in a && x < i
  }

  lemma UpToNext(a: set<nat>, i: nat)
    ensures |UpTo(a, i + 1)| == |UpTo(a, i)| + if i in a then 1 else 0
  {
    assert UpTo(a, i + 1) == UpTo(a, i) + if i in a then {i} else {};
  }

  lemma UpToAll(a: set<nat>, n: nat)
    requires forall x :: x in a ==> x < n
    ensures UpTo(a, n) == a
  {}

  method CountContenders(seats: Seats) returns (n: nat)
    ensures n == |Contenders(seats)|
  {
    n := 0;
    ghost var a := Contenders(seats);
    assert UpTo(a, 0) == {};
    for i := 0 to |seats|
      invariant n == |UpTo(a, i)|
    {
      UpToNext(a, i);
      assert i in a <==> Taken(seats, i) && IsContender(seats[i].value);
      if seats[i].Some? && IsContender(seats[i].value) {
        n := n + 1;
      }
    }
    UpToAll(a, |seats|);
  }

  method CountAble(seats: Seats) returns (n: nat)
    ensures n == |Able(seats)|
  {
    n := 0;
    ghost var a := Able(seats);
    assert UpTo(a, 0) == {};
    for i := 0 to |seats|
      invariant n == |UpTo(a, i)|
    {
      UpToNext(a, i);
      assert i in a <==> Taken(seats, i) && CanAct(seats[i].value);
      if seats[i].Some? && CanAct(seats[i].value) {
        n := n + 1;
      }
    }
    UpToAll(a, |seats|);
  }

  method CountReady(seats: Seats) returns (n: nat)
    ensures n == |ReadySeats(seats)|
  {
    n := 0;
    ghost var a := ReadySeats(seats);
    assert UpTo(a, 0) == {};
    for i := 0 to |seats|
      invariant n == |UpTo(a, i)|
    {
      UpToNext(a, i);
      assert i in a <==> Taken(seats, i) && IsReady(seats[i].value);
      if seats[i].Some? && IsReady(seats[i].value) {
        n := n + 1;
      }
    }
    UpToAll(a, |seats|);
  }

  /** The players who can act. */
  method CollectAble(seats: Seats) returns (ids: set<PlayerId>)
    ensures ids == AbleIds(seats)
  {
    ids := {};
    for i := 0 to |seats|
      invariant forall x :: x in ids <==> exists j: nat :: j < i && Taken(seats, j) && CanAct(seats[j].value) && seats[j].value.id == x
    {
      if seats[i].Some? && CanAct(seats[i].value) {
        ids := ids + {seats[i].value.id};
      }
    }
  }

  /** Everyone but the raiser who can act (`resetAfterFullRaise`). */
  method CollectOthers(seats: Seats, raiser: PlayerId) returns (ids: set<PlayerId>)
    ensures ids == OtherAble(seats, raiser)
  {
    ids := {};
    for i := 0 to |seats|
      invariant forall x :: x in ids <==>
                              exists j: nat :: j < i && Taken(seats, j) && seats[j].value.id != raiser
                                               && CanAct(seats[j].value) && seats[j].value.id == x
    {
      if seats[i].Some? && seats[i].value.id != raiser && CanAct(seats[i].value) {
        ids := ids + {seats[i].value.id};
      }
    }
  }

  /** Everyone but the actor who can act and is behind the bet (`addUnderCalledPlayers`). */
  method CollectUnderCalled(seats: Seats, actor: PlayerId, bet: int) returns (ids: set<PlayerId>)
    ensures ids == UnderCalled(seats, actor, bet)
  {
    ids := {};
    for i := 0 to |seats|
      invariant forall x :: x in ids <==>
                              exists j: nat :: j < i && Taken(seats, j) && seats[j].value.id != actor
                                               && CanAct(seats[j].value) && seats[j].value.streetCommitment < bet
                                               && seats[j].value.id == x
    {
      if seats[i].Some? && seats[i].value.id != actor && CanAct(seats[i].value)
         && seats[i].value.streetCommitment < bet {
        ids := ids + {seats[i].value.id};
      }
    }
  }

  /** The next seat clockwise whose player takes part in the hand. */
  method NextParticipant(seats: Seats, from: nat) returns (r: Option<nat>)
    requires from < |seats|
    ensures r == Next(Participants(seats), |seats|, from)
  {
    var n := |seats|;
    ghost var a := Participants(seats);
    for offset := 1 to n + 1
      invariant forall k :: 1 <= k < offset ==> SeatAt(n, from, k) !in a
    {
      var index := SeatAt(n, from, offset);
      if seats[index].Some? && IsParticipant(seats[index].value) {
        NearestIsNext(a, n, from, offset);
        return Some(index);
      }
    }
    NobodyNext(a, n, from);
    return None;
  }

  /** The next seat clockwise whose player can act and owes a decision. */
  method NextDecider(seats: Seats, pending: set<PlayerId>, from: nat, ghost s: State) returns (r: Option<nat>)
    requires s.seats == seats && s.pending == pending && from < |seats|
    ensures r == Next(Deciders(s), |s.seats|, from)
  {
    var n := |seats|;
    ghost var a := Deciders(s);
    for offset := 1 to n + 1
      invariant forall k :: 1 <= k < offset ==> SeatAt(n, from, k) !in a
    {
      var index := SeatAt(n, from, offset);
      if seats[index].Some? && CanAct(seats[index].value) && seats[index].value.id in pending {
        NearestIsNext(a, n, from, offset);
        return Some(index);
      }
    }
    NobodyNext(a, n, from);
    return None;
  }

  lemma NearestIsNext(a: set<nat>, n: nat, from: nat, offset: nat)
    requires from < n && 1 <= offset <= n && SeatAt(n, from, offset) in a
    requires forall k :: 1 <= k < offset ==> SeatAt(n, from, k) !in a
    ensures Next(a, n, from) == Some(SeatAt(n, from, offset))
  {
    var index := SeatAt(n, from, offset);
    forall j | j in a && j < n
      ensures Distance(n, from, index) <= Distance(n, from, j)
    {
      assert SeatAt(n, from, Distance(n, from, j)) == j;
      DistanceUnique(n, from, offset);
    }
    NextUnique(a, n, from, index);
  }

  lemma NobodyNext(a: set<nat>, n: nat, from: nat)
    requires from < n && forall k :: 1 <= k <= n ==> SeatAt(n, from, k) !in a
    ensures Next(a, n, from) == None
  {
    forall i: nat | i < n
      ensures i !in a
    {
      assert SeatAt(n, from, Distance(n, from, i)) == i;
    }
  }

  method IsRoundComplete(seats: Seats, pending: set<PlayerId>, bet: int, ghost s: State) returns (done: bool)
    requires s.seats == seats && s.pending == pending && s.currentBet == bet
    ensures done <==> RoundComplete(s)
  {
    var contenders := CountContenders(seats);
    if contenders <= 1 {
      return true;
    }
    for i := 0 to |seats|
      invariant forall j :: 0 <= j < i ==> !Unmatched(s, j) && j !in Deciders(s)
    {
      if seats[i].Some? && CanAct(seats[i].value) {
        if seats[i].value.id in pending {
          assert i in Deciders(s);
          return false;
        }
        if seats[i].value.streetCommitment != bet {
          assert Unmatched(s, i);
          return false;
        }
      }
    }
    assert Deciders(s) == {};
    return true;
  }

  method SumPot(seats: Seats) returns (pot: int)
    ensures pot == PotSize(seats)
  {
    pot := 0;
    ghost var c := Commitments(seats);
    for i := 0 to |seats|
      invariant pot == Sum(c[..i])
    {
      assert c[..i + 1] == c[..i] + [c[i]];
      SumAppend(c[..i], c[i]);
      if seats[i].Some? {
        pot := pot + seats[i].value.handCommitment;
      }
    }
    assert c[..|seats|] == c;
  }

  method SumChips(seats: Seats, settled: bool, ghost s: State) returns (total: int)
    requires s.seats == seats && settled == (s.street == Settled)
    ensures total == TotalChips(s)
  {
    total := 0;
    ghost var c, k := Commitments(seats), Stacks(seats);
    for i := 0 to |seats|
      invariant total == Sum(k[..i]) + if settled then 0 else Sum(c[..i])
    {
      assert c[..i + 1] == c[..i] + [c[i]] && k[..i + 1] == k[..i] + [k[i]];
      SumAppend(c[..i], c[i]);
      SumAppend(k[..i], k[i]);
      if seats[i].Some? {
        total := total + seats[i].value.stack;
        if !settled {
          total := total + seats[i].value.handCommitment;
        }
      }
    }
    assert c[..|seats|] == c && k[..|seats|] == k;
  }

  /** The lowest seat still in the hand. */
  method FindFirstContender(seats: Seats) returns (r: nat)
    requires Contenders(seats) != {}
    ensures r == FirstContender(seats)
  {
    r := 0;
    while !(seats[r].Some? && IsContender(seats[r].value))
      invariant r <= FirstContender(seats) < |seats|
      decreases |seats| - r
    {
      r := r + 1;
    }
    assert r in Contenders(seats);
  }

  method ClearStreets(seats: Seats) returns (r: Seats)
    ensures r == ClearStreet(seats)
  {
    r := seats;
    for i := 0 to |seats|
      invariant |r| == |seats| && r[i..] == seats[i..]
      invariant forall j :: 0 <= j < i ==> r[j] == ClearStreet(seats)[j]
    {
      if r[i].Some? {
        r := r[i := Some(r[i].value.(streetCommitment := 0))];
      }
    }
  }

  /** Everybody's ready flag lowered. */
  ghost function NobodyReady(seats: Seats): (r: Seats)
    ensures |r| == |seats|
  {
    seq(|seats|, i requires 0 <= i < |seats| => if seats[i].Some? then Some(seats[i].value.(ready := false)) else None)
  }

  method ClearReady(seats: Seats) returns (r: Seats)
    ensures r == NobodyReady(seats)
  {
    r := seats;
    for i := 0 to |seats|
      invariant |r| == |seats| && r[i..] == seats[i..]
      invariant forall j :: 0 <= j < i ==> r[j] == NobodyReady(seats)[j]
    {
      if r[i].Some? {
        r := r[i := Some(r[i].value.(ready := false))];
      }
    }
  }

  /** Every seat reset for a new hand. */
  method EnterSeats(seats: Seats) returns (r: Seats)
    ensures r == EnterAll(seats)
  {
    r := seats;
    for i := 0 to |seats|
      invariant |r| == |seats| && r[i..] == seats[i..]
      invariant forall j :: 0 <= j < i ==> r[j] == EnterAll(seats)[j]
    {
      if r[i].Some? {
        r := r[i := Some(Enter(r[i].value))];
      }
    }
  }
}
