/** From the table's audit snapshot to the records the store keeps (`protocol_service.cpp`, lines 80-153). */
module HandRecords {
  import opened Wrappers
  import opened TableModel
  import opened TableAccounting
  import opened TableViews
  import opened StoreModel
  import opened TableSettled
  import Pots

  predicate FitsUint32(n: nat) {
    0 < n <= UINT32_MAX
  }

  /** Table id in the upper half, hand number in the lower one; 0 stands for "cannot be stored". */
  function PersistentHandId(tableId: nat, handNumber: nat): (r: nat)
    ensures r < 0x1_0000_0000_0000_0000
    ensures r == 0 <==> !FitsUint32(tableId) || !FitsUint32(handNumber)
  {
    if !FitsUint32(tableId) || !FitsUint32(handNumber) then 0 else tableId * 0x1_0000_0000 + handNumber
  }

  /** The table id is the upper half of a hand's id and the hand number the lower one. */
  lemma PersistentHandIdHalves(tableId: nat, handNumber: nat)
    requires FitsUint32(tableId) && FitsUint32(handNumber)
    ensures PersistentHandId(tableId, handNumber) / 0x1_0000_0000 == tableId
    ensures PersistentHandId(tableId, handNumber) % 0x1_0000_0000 == handNumber
  {}

  /** No two hands share an id. */
  lemma PersistentHandIdInjective(a: nat, m: nat, b: nat, n: nat)
    requires PersistentHandId(a, m) == PersistentHandId(b, n) != 0
    ensures a == b && m == n
  {
    var id := PersistentHandId(a, m);
    assert id / 0x1_0000_0000 == a && id / 0x1_0000_0000 == b;
  }

  /** The seat of the player with the dealer button; 0 when there is none. */
  function DealerSeat(v: Snapshot): nat {
    if v.dealer.None? then 0 else SeatIn(v.players, v.dealer.value)
  }

  function SeatIn(views: seq<PlayerView>, id: PlayerId): nat {
    if views == [] then 0 else if views[0].id == id then views[0].seat else SeatIn(views[1..], id)
  }

  predicate DealtIn(v: PlayerView) {
    |v.holeCards| == 2
  }

  function StartLine(v: PlayerView): HandStartPlayer {
    HandStartPlayer(v.id, v.seat, v.stack + v.handCommitment, v.holeCards)
  }

  function StartLines(views: seq<PlayerView>): seq<HandStartPlayer> {
    if views == [] then []
    else
      var n := |views| - 1;
      StartLines(views[..n]) + if DealtIn(views[n]) then [StartLine(views[n])] else []
  }

  function HandStartOf(tableId: nat, v: Snapshot): HandStartRecord {
    HandStartRecord(PersistentHandId(tableId, v.handId), tableId, v.handId, DealerSeat(v), StartLines(v.players))
  }

  function SettlementLine(v: PlayerView, won: int): PlayerSettlement {
    PlayerSettlement(v.id, v.seat, v.stack + v.handCommitment - won, v.handCommitment, won, v.stack, v.holeCards,
                     v.status == Folded)
  }

  function SettlementLines(views: seq<PlayerView>, awards: seq<PotAward>): seq<PlayerSettlement> {
    if views == [] then []
    else
      var n := |views| - 1;
      SettlementLines(views[..n], awards)
      + if DealtIn(views[n]) then [SettlementLine(views[n], AwardedTo(awards, views[n].id))] else []
  }

  ghost function HandSettlementOf(tableId: nat, v: Snapshot, awards: seq<PotAward>): HandSettlement {
    HandSettlement(PersistentHandId(tableId, v.handId), tableId, v.handId, DealerSeat(v), v.board,
                   AwardTotal(awards), SettlementLines(v.players, awards))
  }

  // ---------- the loops ----------

  method MakeHandStart(tableId: nat, v: Snapshot) returns (r: HandStartRecord)
    ensures r == HandStartOf(tableId, v)
  {
    var lines := [];
    for i := 0 to |v.players|
      invariant lines == StartLines(v.players[..i])
    {
      assert v.players[..i + 1][..i] == v.players[..i];
      if |v.players[i].holeCards| == 2 {
        lines := lines + [StartLine(v.players[i])];
      }
    }
    assert v.players[..|v.players|] == v.players;
    r := HandStartRecord(PersistentHandId(tableId, v.handId), tableId, v.handId, DealerSeat(v), lines);
  }

  function WonBy(winnings: map<PlayerId, int>, id: PlayerId): int {
    if id in winnings then winnings[id] else 0
  }

  /** One pot is added to the winnings of its winners. */
  method AddPot(winnings: map<PlayerId, int>, award: PotAward) returns (r: map<PlayerId, int>)
    ensures forall id: PlayerId ::
              WonBy(r, id) == WonBy(winnings, id) + Pots.Portion(award.winners, award.equalShare, award.oddChips, id)
  {
    r := winnings;
    for k := 0 to |award.winners|
      invariant forall id: PlayerId ::
          WonBy(r, id) == WonBy(winnings, id)
                          + Pots.Portion(award.winners[..k], award.equalShare, award.oddChips, id)
    {
      assert award.winners[..k + 1][..k] == award.winners[..k];
      var w := award.winners[k];
      r := r[w := WonBy(r, w) + award.equalShare + (if k < award.oddChips then 1 else 0)];
    }
    assert award.winners[..|award.winners|] == award.winners;
  }

  lemma {:induction false} TotalAppend(awards: seq<PotAward>, a: PotAward)
    ensures AwardTotal(awards + [a]) == AwardTotal(awards) + a.potSize
  {
    if awards == [] {
      assert [] + [a] == [a];
      assert [a][1..] == [];
    } else {
      TotalAppend(awards[1..], a);
      assert (awards + [a])[1..] == awards[1..] + [a];
    }
  }

  method TallyAwards(awards: seq<PotAward>) returns (winnings: map<PlayerId, int>, total: int)
    ensures total == AwardTotal(awards)
    ensures forall id: PlayerId :: WonBy(winnings, id) == AwardedTo(awards, id)
  {
    winnings, total := map[], 0;
    for k := 0 to |awards|
      invariant total == AwardTotal(awards[..k])
      invariant forall id: PlayerId :: WonBy(winnings, id) == AwardedTo(awards[..k], id)
    {
      assert awards[..k + 1] == awards[..k] + [awards[k]];
      TotalAppend(awards[..k], awards[k]);
      forall id: PlayerId
        ensures AwardedTo(awards[..k + 1], id) == AwardedTo(awards[..k], id)
                  + Pots.Portion(awards[k].winners, awards[k].equalShare, awards[k].oddChips, id)
      {
        AwardedAppend(awards[..k], awards[k], id);
      }
      total := total + awards[k].potSize;
      winnings := AddPot(winnings, awards[k]);
    }
    assert awards[..|awards|] == awards;
  }

  method MakeHandSettlement(tableId: nat, v: Snapshot, awards: seq<PotAward>) returns (r: HandSettlement)
    ensures r == HandSettlementOf(tableId, v, awards)
  {
    var winnings, total := TallyAwards(awards);
    var lines := [];
    for i := 0 to |v.players|
      invariant lines == SettlementLines(v.players[..i], awards)
    {
      assert v.players[..i + 1][..i] == v.players[..i];
      if |v.players[i].holeCards| == 2 {
        lines := lines + [SettlementLine(v.players[i], WonBy(winnings, v.players[i].id))];
      }
    }
    assert v.players[..|v.players|] == v.players;
    r := HandSettlement(PersistentHandId(tableId, v.handId), tableId, v.handId, DealerSeat(v), v.board, total, lines);
  }
}
