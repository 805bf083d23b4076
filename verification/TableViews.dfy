/** What the table shows: snapshots for a viewer and for the audit (`table.cpp`, lines 389-440). */
module TableViews {
  import opened Wrappers
  import opened Sums
  import opened Cards
  import opened TableModel

  datatype PlayerView = PlayerView(
    id: PlayerId, seat: nat, stack: int, streetCommitment: int, handCommitment: int,
    status: Status, ready: bool, connected: bool, holeCards: seq<Card>)

  datatype Snapshot = Snapshot(
    street: Street, handId: nat, serverSequence: nat, dealer: Option<PlayerId>, actingPlayer: Option<PlayerId>,
    currentBet: int, minimumRaise: int, pot: int, board: seq<Card>, players: seq<PlayerView>)

  /** Own cards always; other players' cards only once the hand is settled and they did not fold. */
  predicate Shows(st: Street, p: Player, viewer: Option<PlayerId>) {
    p.hasHole && (viewer == Some(p.id) || (st == Settled && p.status != Folded && p.status != Idle))
  }

  function ViewOf(p: Player, shown: bool): PlayerView {
    PlayerView(p.id, p.seat, p.stack, p.streetCommitment, p.handCommitment, p.status, p.ready, p.connected,
               if shown then [p.hole.0, p.hole.1] else [])
  }

  function Views(seats: Seats, st: Street, viewer: Option<PlayerId>): seq<PlayerView> {
    if seats == [] then []
    else
      var n := |seats| - 1;
      Views(seats[..n], st, viewer)
      + if seats[n].Some? then [ViewOf(seats[n].value, Shows(st, seats[n].value, viewer))] else []
  }

  function AuditViews(seats: Seats): seq<PlayerView> {
    if seats == [] then []
    else
      var n := |seats| - 1;
      AuditViews(seats[..n]) + if seats[n].Some? then [ViewOf(seats[n].value, seats[n].value.hasHole)] else []
  }

  function IdAt(seats: Seats, seat: Option<nat>): Option<PlayerId> {
    if seat.Some? && seat.value < |seats| && seats[seat.value].Some? then Some(seats[seat.value].value.id) else None
  }

  ghost function SnapshotWith(s: State, players: seq<PlayerView>): Snapshot {
    Snapshot(s.street, s.handId, s.serverSequence, IdAt(s.seats, s.dealerSeat), IdAt(s.seats, s.actingSeat),
             s.currentBet, s.minimumRaise, if s.street == Settled then 0 else PotSize(s.seats), s.board, players)
  }

  ghost function SnapshotFor(s: State, viewer: Option<PlayerId>): Snapshot {
    SnapshotWith(s, Views(s.seats, s.street, viewer))
  }

  ghost function AuditSnapshot(s: State): Snapshot {
    SnapshotWith(s, AuditViews(s.seats))
  }

  method CollectViews(seats: Seats, st: Street, viewer: Option<PlayerId>) returns (views: seq<PlayerView>)
    ensures views == Views(seats, st, viewer)
  {
    views := [];
    for i := 0 to |seats|
      invariant views == Views(seats[..i], st, viewer)
    {
      assert seats[..i + 1][..i] == seats[..i];
      if seats[i].Some? {
        views := views + [ViewOf(seats[i].value, Shows(st, seats[i].value, viewer))];
      }
    }
    assert seats[..|seats|] == seats;
  }

  method CollectAuditViews(seats: Seats) returns (views: seq<PlayerView>)
    ensures views == AuditViews(seats)
  {
    views := [];
    for i := 0 to |seats|
      invariant views == AuditViews(seats[..i])
    {
      assert seats[..i + 1][..i] == seats[..i];
      if seats[i].Some? {
        views := views + [ViewOf(seats[i].value, seats[i].value.hasHole)];
      }
    }
    assert seats[..|seats|] == seats;
  }

  // ---------- what a snapshot tells ----------

  /** The view shows the player as seated, with exactly the two cards dealt if `shown`, and none otherwise. */
  ghost predicate ViewShows(v: PlayerView, p: Player, shown: bool) {
    && v.id == p.id && v.stack == p.stack && v.status == p.status
    && v.streetCommitment == p.streetCommitment && v.handCommitment == p.handCommitment
    && v.ready == p.ready && v.connected == p.connected
    && |v.holeCards| == (if shown then 2 else 0)
    && (shown ==> v.holeCards[0] == p.hole.0 && v.holeCards[1] == p.hole.1)
  }

  /** Every seated player is listed once, in seat order. */
  ghost predicate ListsSeats(views: seq<PlayerView>, seats: Seats) {
    && (forall k :: 0 <= k < |views| ==> Taken(seats, views[k].seat))
    && (forall k, l :: 0 <= k < l < |views| ==> views[k].seat < views[l].seat)
    && (forall i :: Taken(seats, i) ==> exists k :: 0 <= k < |views| && views[k].seat == i)
  }

  /**
   A player's cards are listed if and only if that player was dealt in and is the viewer, or
   the hand is settled and that player did not fold.
   */
  ghost predicate ShowsSeat(v: PlayerView, seats: Seats, st: Street, viewer: Option<PlayerId>) {
    && Taken(seats, v.seat)
    && var p := seats[v.seat].value;
       ViewShows(v, p, p.hasHole && (viewer == Some(p.id) || (st == Settled && p.status != Folded)))
  }

  ghost predicate ListsCards(views: seq<PlayerView>, seats: Seats, st: Street, viewer: Option<PlayerId>) {
    forall k :: 0 <= k < |views| ==> ShowsSeat(views[k], seats, st, viewer)
  }

  ghost predicate SeatsSound(seats: Seats) {
    forall i :: Taken(seats, i) ==>
      seats[i].value.seat == i && (seats[i].value.status == Idle ==> !seats[i].value.hasHole)
  }

  lemma PrefixSound(seats: Seats, n: nat)
    requires SeatsSound(seats) && n == |seats| - 1
    ensures SeatsSound(seats[..n])
    ensures seats[n].Some? ==> seats[n].value.seat == n && (seats[n].value.status == Idle ==> !seats[n].value.hasHole)
  {
    assert forall i :: Taken(seats[..n], i) ==> Taken(seats, i) && seats[..n][i] == seats[i];
    assert seats[n].Some? ==> Taken(seats, n);
  }

  lemma PrefixLists(views: seq<PlayerView>, seats: Seats, n: nat, st: Street, viewer: Option<PlayerId>)
    requires n == |seats| - 1 && ListsCards(views, seats[..n], st, viewer)
    ensures ListsCards(views, seats, st, viewer)
  {
    forall k | 0 <= k < |views|
      ensures ShowsSeat(views[k], seats, st, viewer)
    {
      assert ShowsSeat(views[k], seats[..n], st, viewer);
      assert seats[..n][views[k].seat] == seats[views[k].seat];
    }
  }

  lemma {:induction false} ViewsList(seats: Seats, st: Street, viewer: Option<PlayerId>)
    requires SeatsSound(seats)
    ensures ListsSeats(Views(seats, st, viewer), seats) && ListsCards(Views(seats, st, viewer), seats, st, viewer)
  {
    if seats != [] {
      var n := |seats| - 1;
      var before := Views(seats[..n], st, viewer);
      PrefixSound(seats, n);
      ViewsList(seats[..n], st, viewer);
      PrefixLists(before, seats, n, st, viewer);
      if seats[n].Some? {
        var v := ViewOf(seats[n].value, Shows(st, seats[n].value, viewer));
        OneMoreView(seats[..n], seats, before, v);
        assert ShowsSeat(v, seats, st, viewer);
      } else {
        NoMoreView(seats[..n], seats, before);
        assert Views(seats, st, viewer) == before;
      }
    }
  }

  lemma NoMoreView(prefix: Seats, seats: Seats, views: seq<PlayerView>)
    requires |seats| > 0 && prefix == seats[..|seats| - 1] && seats[|seats| - 1].None? && ListsSeats(views, prefix)
    ensures ListsSeats(views, seats)
  {
    assert forall i :: Taken(prefix, i) <==> Taken(seats, i);
  }

  lemma OneMoreView(prefix: Seats, seats: Seats, before: seq<PlayerView>, v: PlayerView)
    requires |seats| > 0 && prefix == seats[..|seats| - 1] && ListsSeats(before, prefix)
    requires seats[|seats| - 1].Some? && v.seat == |seats| - 1
    ensures ListsSeats(before + [v], seats)
  {
    var views := before + [v];
    forall i | Taken(seats, i)
      ensures exists k :: 0 <= k < |views| && views[k].seat == i
    {
      if i == |seats| - 1 {
        assert views[|before|].seat == i;
      } else {
        assert Taken(prefix, i);
        var k :| 0 <= k < |before| && before[k].seat == i;
        assert views[k].seat == i;
      }
    }
  }

  /** The table's own fields: the pot is what is committed until the hand is settled. */
  ghost predicate ShowsTable(r: Snapshot, s: State) {
    && r.street == s.street && r.handId == s.handId && r.serverSequence == s.serverSequence
    && r.currentBet == s.currentBet && r.minimumRaise == s.minimumRaise && r.board == s.board
    && r.pot == (if s.street == Settled then 0 else Sum(Commitments(s.seats)))
    && NamesSeat(r.dealer, s.seats, s.dealerSeat) && NamesSeat(r.actingPlayer, s.seats, s.actingSeat)
  }

  /** The player on the given seat, if there is one. */
  ghost predicate NamesSeat(id: Option<PlayerId>, seats: Seats, seat: Option<nat>) {
    if seat.Some? && Taken(seats, seat.value) then id == Some(seats[seat.value].value.id) else id == None
  }

  /** What every snapshot of a sound table tells, and what it does not. */
  lemma SnapshotTells(s: State, viewer: Option<PlayerId>)
    requires Inv(s)
    ensures var r := SnapshotFor(s, viewer);
            ShowsTable(r, s) && ListsSeats(r.players, s.seats) && ListsCards(r.players, s.seats, s.street, viewer)
  {
    InvSound(s);
    ViewsList(s.seats, s.street, viewer);
  }

  lemma InvSound(s: State)
    requires Inv(s)
    ensures SeatsSound(s.seats)
  {
    if !Resting(s) {
      assert forall i :: Taken(s.seats, i) ==> PlayerOk(s.seats[i].value);
    }
  }
}
