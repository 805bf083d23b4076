/**
 The game store object (`in_memory_game_store.cpp`) and settlement validation
 (`game_store_validation.hpp`). Each method does to the maps what the model says.
 */
module GameStores {
  import opened Wrappers
  import opened Sums
  import opened Cards
  import opened StoreModel
  import opened StoreEscrow

  // ---------- validation ----------

  /** Marks cards as seen, stopping at the first one seen before. */
  method AddCards(seen: array<bool>, more: seq<Card>, ghost before: seq<Card>) returns (ok: bool)
    requires seen.Length == 52 && Distinct(before)
    requires forall c: Card :: seen[CardIndex(c)] <==> c in before
    modifies seen
    ensures ok <==> Distinct(before + more)
    ensures ok ==> forall c: Card :: seen[CardIndex(c)] <==> c in before + more
  {
    assert before + more[..0] == before;
    for i := 0 to |more|
      invariant Distinct(before + more[..i])
      invariant forall c: Card :: seen[CardIndex(c)] <==> c in before + more[..i]
    {
      var c := more[i];
      ghost var so := before + more[..i];
      assert before + more[..i + 1] == so + [c];
      if seen[CardIndex(c)] {
        RepeatSpoils(before, more, i);
        return false;
      }
      forall d: Card | CardIndex(d) == CardIndex(c)
        ensures d == c
      {
        CardIndexInjective(d, c);
      }
      seen[CardIndex(c)] := true;
    }
    assert more[..|more|] == more;
    return true;
  }

  lemma RepeatSpoils(before: seq<Card>, more: seq<Card>, i: nat)
    requires i < |more| && more[i] in before + more[..i]
    ensures !Distinct(before + more)
  {
    var all := before + more;
    var k :| 0 <= k < |before| + i && (before + more[..i])[k] == more[i];
    assert all[k] == more[i] == all[|before| + i];
  }

  /** What the loop over players has established after the first `k` of them. */
  ghost predicate LinesOk(v: HandSettlement, k: nat)
    requires k <= |v.players|
  {
    && (forall i :: 0 <= i < k ==> PlayerLineOk(v.players[i]))
    && DistinctUsers(v.players[..k])
    && Distinct(AllCards(v.board, v.players[..k]))
    && Sum(Committed(v.players[..k])) <= INT64_MAX && Sum(WinningsOf(v.players[..k])) <= INT64_MAX
  }

  lemma LinesStep(v: HandSettlement, k: nat)
    requires k < |v.players|
    ensures AllCards(v.board, v.players[..k + 1]) == AllCards(v.board, v.players[..k]) + v.players[k].holeCards
    ensures Sum(Committed(v.players[..k + 1])) == Sum(Committed(v.players[..k])) + v.players[k].committed
    ensures Sum(WinningsOf(v.players[..k + 1])) == Sum(WinningsOf(v.players[..k])) + v.players[k].winnings
  {
    var p := v.players[..k + 1];
    assert p[..k] == v.players[..k] && p[k] == v.players[k];
    assert Committed(p)[..k] == Committed(v.players[..k]);
    assert WinningsOf(p)[..k] == WinningsOf(v.players[..k]);
  }

  /** A bad prefix cannot be repaired by what follows. */
  lemma {:induction false} LinesMonotone(v: HandSettlement, k: nat)
    requires k <= |v.players| && LinesOk(v, |v.players|)
    ensures LinesOk(v, k)
    decreases |v.players| - k
  {
    if k < |v.players| {
      LinesMonotone(v, k + 1);
      LinesStep(v, k);
      var all, before := AllCards(v.board, v.players[..k + 1]), AllCards(v.board, v.players[..k]);
      assert before == all[..|before|];
      assert PlayerLineOk(v.players[k]);
    }
  }

  /** One player's line: well formed, a new user, new cards, and no overflow so far. */
  method CheckLine(v: HandSettlement, k: nat, seen: array<bool>, users: set<UserId>, committed: int, winnings: int)
    returns (ok: bool)
    requires k < |v.players| && LinesOk(v, k) && seen.Length == 52
    requires forall c: Card :: seen[CardIndex(c)] <==> c in AllCards(v.board, v.players[..k])
    requires forall u :: u in users <==> exists i :: 0 <= i < k && v.players[i].userId == u
    requires committed == Sum(Committed(v.players[..k])) && winnings == Sum(WinningsOf(v.players[..k]))
    modifies seen
    ensures ok <==> LinesOk(v, k + 1)
    ensures ok ==> forall c: Card :: seen[CardIndex(c)] <==> c in AllCards(v.board, v.players[..k + 1])
  {
    var p := v.players[k];
    LinesStep(v, k);
    UsersStep(v.players, k);
    if p.userId == 0 || p.seat >= 6 || p.startStack < 0 || p.committed < 0 || p.committed > p.startStack
       || p.winnings < 0 || p.endStack < 0 || |p.holeCards| != 2 || p.userId in users {
      return false;
    }
    var newCards := AddCards(seen, p.holeCards, AllCards(v.board, v.players[..k]));
    if !newCards {
      return false;
    }
    var after := p.startStack - p.committed;
    if p.winnings > INT64_MAX - after || p.endStack != after + p.winnings
       || p.committed > INT64_MAX - committed || p.winnings > INT64_MAX - winnings {
      return false;
    }
    return true;
  }

  lemma UsersStep(players: seq<PlayerSettlement>, k: nat)
    requires k < |players|
    ensures DistinctUsers(players[..k + 1]) <==>
            DistinctUsers(players[..k]) && forall i :: 0 <= i < k ==> players[i].userId != players[k].userId
  {
    var p, q := players[..k + 1], players[..k];
    if DistinctUsers(p) {
      forall i, j | 0 <= i < j < k
        ensures q[i].userId != q[j].userId
      {
        assert p[i].userId != p[j].userId;
      }
      forall i | 0 <= i < k
        ensures players[i].userId != players[k].userId
      {
        assert p[i].userId != p[k].userId;
      }
    }
    if DistinctUsers(q) && forall i :: 0 <= i < k ==> players[i].userId != players[k].userId {
      forall i, j | 0 <= i < j < |p|
        ensures p[i].userId != p[j].userId
      {
        assert j < k ==> q[i].userId != q[j].userId;
      }
    }
  }

  method ValidHandSettlement(v: HandSettlement) returns (ok: bool)
    ensures ok <==> ValidSettlement(v)
  {
    if v.handId == 0 || v.tableId == 0 || v.handNumber == 0 || |v.players| < 2 || |v.players| > 6
       || |v.board| > 5 || v.totalPot < 0 {
      return false;
    }
    var seen := new bool[52](_ => false);
    assert [] + v.board == v.board;
    var boardOk := AddCards(seen, v.board, []);
    assert v.players[..|v.players|] == v.players;
    if !boardOk {
      if ValidSettlement(v) {
        ValidBoard(v);
      }
      return false;
    }
    ok := CheckLines(v, seen);
  }

  /** The loop over the players, with running totals, seen cards and seen users. */
  method CheckLines(v: HandSettlement, seen: array<bool>) returns (ok: bool)
    requires seen.Length == 52 && Distinct(v.board)
    requires forall c: Card :: seen[CardIndex(c)] <==> c in v.board
    modifies seen
    ensures ok <==> LinesOk(v, |v.players|)
                    && Sum(Committed(v.players)) == v.totalPot && Sum(WinningsOf(v.players)) == v.totalPot
  {
    var users, committed, winnings := {}, 0, 0;
    assert v.players[..0] == [];
    for k := 0 to |v.players|
      invariant LinesOk(v, k)
      invariant forall c: Card :: seen[CardIndex(c)] <==> c in AllCards(v.board, v.players[..k])
      invariant forall u :: u in users <==> exists i :: 0 <= i < k && v.players[i].userId == u
      invariant committed == Sum(Committed(v.players[..k])) && winnings == Sum(WinningsOf(v.players[..k]))
    {
      var fine := CheckLine(v, k, seen, users, committed, winnings);
      LinesStep(v, k);
      if !fine {
        if LinesOk(v, |v.players|) {
          LinesMonotone(v, k + 1);
        }
        return false;
      }
      users := users + {v.players[k].userId};
      committed := committed + v.players[k].committed;
      winnings := winnings + v.players[k].winnings;
    }
    assert v.players[..|v.players|] == v.players;
    return committed == v.totalPot && winnings == v.totalPot;
  }

  lemma ValidBoard(v: HandSettlement)
    requires ValidSettlement(v)
    ensures Distinct(v.board)
  {
    assert v.players[..|v.players|] == v.players;
    LinesMonotone(v, 0);
    assert AllCards(v.board, v.players[..0]) == v.board;
  }

  /** Whether two settlements agree in every field. */
  method EquivalentHandSettlement(a: HandSettlement, b: HandSettlement) returns (same: bool)
    ensures same <==> a == b
  {
    if a.handId != b.handId || a.tableId != b.tableId || a.handNumber != b.handNumber || a.dealerSeat != b.dealerSeat
       || a.board != b.board || a.totalPot != b.totalPot || |a.players| != |b.players| {
      return false;
    }
    for i := 0 to |a.players|
      invariant a.players[..i] == b.players[..i]
    {
      if a.players[i] != b.players[i] {
        return false;
      }
    }
    assert a.players == a.players[..|a.players|] && b.players == b.players[..|b.players|];
    return true;
  }

  // ---------- the store object ----------

  class GameStore {
    var wallets: map<UserId, int>
    var tables: map<nat, StoredTable>
    var ledger: map<string, LedgerResult>
    var actions: map<(nat, nat), HandActionRecord>
    var handStarts: map<nat, HandStartRecord>
    var settlements: map<nat, HandSettlement>

    ghost function Value(): Store
      reads this
    {
      Store(wallets, tables, ledger, actions, handStarts, settlements)
    }

    ghost predicate Valid()
      reads this
    {
      StoreInv(Value())
    }

    constructor ()
      ensures Valid() && Value() == EMPTY_STORE
    {
      wallets, tables, ledger := map[], map[], map[];
      actions, handStarts, settlements := map[], map[], map[];
    }

    method SeedWallet(user: UserId, balance: int) returns (error: StorageError)
      requires Valid()
      modifies this
      ensures Valid()
      ensures Reply(Value(), error, None) == StoreModel.SeedWallet(old(Value()), user, balance)
    {
      SeedKeeps(Value(), user, balance);
      if user == 0 || balance < 0 {
        return InvalidData;
      }
      if user in wallets {
        return Duplicate;
      }
      wallets := wallets[user := balance];
      return Ok;
    }

    method CreateTable(t: TableRecord) returns (error: StorageError)
      requires Valid()
      modifies this
      ensures Valid()
      ensures Reply(Value(), error, None) == StoreModel.CreateTable(old(Value()), t)
    {
      CreateKeeps(Value(), t);
      if !RecordOk(t) {
        return InvalidData;
      }
      if t.tableId in tables {
        return Duplicate;
      }
      tables := tables[t.tableId := StoredTable(t, false, false, map[], map[])];
      return Ok;
    }

    method ReserveBuyIn(tableId: nat, user: UserId, seat: nat, amount: int, key: string)
      returns (error: StorageError, receipt: Option<Receipt>)
      requires Valid()
      modifies this
      ensures Valid()
      ensures Reply(Value(), error, receipt) == StoreModel.ReserveBuyIn(old(Value()), tableId, user, seat, amount, key)
    {
      BuyInKeeps(Value(), tableId, user, seat, amount, key);
      error, receipt := TakeBuyIn(tableId, user, seat, amount, key);
    }

    method TakeBuyIn(tableId: nat, user: UserId, seat: nat, amount: int, key: string)
      returns (error: StorageError, receipt: Option<Receipt>)
      modifies this
      ensures Reply(Value(), error, receipt) == StoreModel.ReserveBuyIn(old(Value()), tableId, user, seat, amount, key)
    {
      if tableId == 0 || user == 0 || amount <= 0 || !KeyOk(key) {
        return InvalidData, None;
      }
      var entry := LedgerKey(user, key);
      if entry in ledger {
        var past := ledger[entry];
        if past.kind != BuyIn || past.tableId != tableId || past.chips != amount || past.seat != seat {
          return Conflict, None;
        }
        if tableId !in tables {
          return Conflict, None;
        }
        var seats := tables[tableId].seats;
        if user !in seats || seats[user].seat != seat || seats[user].stack != amount {
          return Conflict, None;
        }
        return Ok, Some(Receipt(past.walletBalance, past.chips));
      }
      if tableId !in tables || tables[tableId].aborted || user !in wallets {
        return NotFound, None;
      }
      var t := tables[tableId];
      if t.handInProgress {
        return Conflict, None;
      }
      var config := t.record.config;
      if seat >= config.maxPlayers || amount < config.minBuyIn || amount > config.maxBuyIn {
        return InvalidData, None;
      }
      if user in t.seats || seat in t.occupied {
        return Conflict, None;
      }
      if wallets[user] < amount {
        return InsufficientFunds, None;
      }
      var balance := wallets[user] - amount;
      wallets := wallets[user := balance];
      tables := tables[tableId := SeatedTable(t, user, seat, amount)];
      ledger := ledger[entry := LedgerResult(BuyIn, tableId, balance, amount, seat)];
      return Ok, Some(Receipt(balance, amount));
    }

    method CashOutPlayer(tableId: nat, user: UserId, key: string) returns (error: StorageError, receipt: Option<Receipt>)
      requires Valid()
      modifies this
      ensures Valid()
      ensures Reply(Value(), error, receipt) == CashOutSeat(old(Value()), tableId, user, key)
    {
      CashOutKeeps(Value(), tableId, user, key);
      error, receipt := PayOut(tableId, user, key);
    }

    method PayOut(tableId: nat, user: UserId, key: string) returns (error: StorageError, receipt: Option<Receipt>)
      modifies this
      ensures Reply(Value(), error, receipt) == CashOutSeat(old(Value()), tableId, user, key)
    {
      if tableId == 0 || user == 0 || !KeyOk(key) {
        return InvalidData, None;
      }
      var entry := LedgerKey(user, key);
      if entry in ledger {
        var past := ledger[entry];
        if past.kind != CashOut || past.tableId != tableId {
          return Conflict, None;
        }
        return Ok, Some(Receipt(past.walletBalance, past.chips));
      }
      if tableId !in tables || user !in wallets {
        return NotFound, None;
      }
      var t := tables[tableId];
      if t.handInProgress {
        return Conflict, None;
      }
      if user !in t.seats {
        return NotFound, None;
      }
      var chips, seat := t.seats[user].stack, t.seats[user].seat;
      var balance := wallets[user] + chips;
      wallets := wallets[user := balance];
      tables := tables[tableId := VacatedTable(t, user)];
      ledger := ledger[entry := LedgerResult(CashOut, tableId, balance, chips, seat)];
      return Ok, Some(Receipt(balance, chips));
    }

    method BeginHand(h: HandStartRecord) returns (error: StorageError)
      requires Valid()
      modifies this
      ensures Valid()
      ensures Reply(Value(), error, None) == StoreModel.BeginHand(old(Value()), h)
    {
      BeginKeeps(Value(), h);
      if h.handId == 0 || h.tableId == 0 || h.handNumber == 0 || |h.players| < 2 {
        return InvalidData;
      }
      if h.handId in handStarts || h.handId in settlements {
        return Duplicate;
      }
      if h.tableId !in tables || tables[h.tableId].aborted {
        return NotFound;
      }
      var t := tables[h.tableId];
      if t.handInProgress {
        return Conflict;
      }
      for i := 0 to |h.players|
        invariant forall j :: 0 <= j < i ==> StartMatches(t, h.players[j])
      {
        if !StartMatches(t, h.players[i]) {
          return Conflict;
        }
      }
      handStarts := handStarts[h.handId := h];
      tables := tables[h.tableId := t.(handInProgress := true)];
      return Ok;
    }

    /** Some stored action of the same request, found by going through all of them. */
    method FindRequest(a: HandActionRecord) returns (r: Option<HandActionRecord>)
      requires Valid()
      ensures r.Some? <==> RequestSeen(Value(), a)
      ensures r.Some? ==> r.value == SeenAction(Value(), a)
    {
      var keys := actions.Keys;
      while keys != {}
        invariant keys <= actions.Keys
        invariant forall k :: k in actions && k !in keys ==> !SameRequest(actions[k], a)
        decreases keys
      {
        var k :| k in keys;
        if SameRequest(actions[k], a) {
          OnlyRequest(Value(), a, k);
          return Some(actions[k]);
        }
        keys := keys - {k};
      }
      return None;
    }

    method AppendAction(a: HandActionRecord) returns (error: StorageError)
      requires Valid()
      modifies this
      ensures Valid()
      ensures Reply(Value(), error, None) == StoreModel.AppendAction(old(Value()), a)
    {
      AppendKeeps(Value(), a);
      if a.handId == 0 || a.sequence == 0 || a.requestId == 0 || a.userId == 0 {
        return InvalidData;
      }
      if a.handId !in handStarts {
        return NotFound;
      }
      if a.handId in settlements {
        return Conflict;
      }
      if (a.handId, a.sequence) in actions {
        return if actions[(a.handId, a.sequence)] == a then Duplicate else Conflict;
      }
      var seen := FindRequest(a);
      if seen.Some? {
        return if seen.value == a then Duplicate else Conflict;
      }
      actions := actions[(a.handId, a.sequence) := a];
      return Ok;
    }

    method SettleHand(v: HandSettlement) returns (error: StorageError)
      requires Valid()
      modifies this
      ensures Valid()
      ensures Reply(Value(), error, None) == StoreModel.SettleHand(old(Value()), v)
    {
      SettleKeeps(Value(), v);
      error := ApplySettlement(v);
    }

    method ApplySettlement(v: HandSettlement) returns (error: StorageError)
      modifies this
      ensures Reply(Value(), error, None) == StoreModel.SettleHand(old(Value()), v)
    {
      var sound := ValidHandSettlement(v);
      if !sound {
        return InvalidData;
      }
      if v.handId in settlements {
        var same := EquivalentHandSettlement(settlements[v.handId], v);
        return if same then Duplicate else Conflict;
      }
      if v.handId !in handStarts {
        return NotFound;
      }
      if v.tableId !in tables || tables[v.tableId].aborted {
        return NotFound;
      }
      var t := tables[v.tableId];
      if !t.handInProgress {
        return Duplicate;
      }
      for i := 0 to |v.players|
        invariant forall j :: 0 <= j < i ==> SettlementMatches(t, v.players[j])
      {
        if !SettlementMatches(t, v.players[i]) {
          return Conflict;
        }
      }
      var seats := WriteStacks(t.seats, v.players);
      tables := tables[v.tableId := t.(seats := seats, handInProgress := false)];
      settlements := settlements[v.handId := v];
      return Ok;
    }

    method AbortTableAndRefund(tableId: nat) returns (error: StorageError)
      requires Valid()
      modifies this
      ensures Valid()
      ensures Reply(Value(), error, None) == StoreModel.AbortTableAndRefund(old(Value()), tableId)
    {
      AbortKeeps(Value(), tableId);
      if tableId !in tables {
        return NotFound;
      }
      var t := tables[tableId];
      if t.aborted {
        return Ok;
      }
      var paid, complete := PayBack(wallets, t.seats);
      wallets := paid;
      var emptied := t.(seats := map[], occupied := map[], aborted := true, handInProgress := false);
      tables := if complete then tables[tableId := emptied] else tables;
      error := if complete then Ok else Conflict;
    }
  }

  lemma OnlyRequest(s: Store, a: HandActionRecord, k: (nat, nat))
    requires ActionsOk(s.actions) && k in s.actions && SameRequest(s.actions[k], a)
    ensures RequestSeen(s, a) && SeenAction(s, a) == s.actions[k]
  {
    var r := SeenAction(s, a);
    var j :| j in s.actions && s.actions[j] == r;
    assert SameRequest(s.actions[j], s.actions[k]);
  }

  /** The loop that writes the end stacks. */
  method WriteStacks(seats0: map<UserId, SeatRecord>, players: seq<PlayerSettlement>) returns (seats: map<UserId, SeatRecord>)
    requires forall i :: 0 <= i < |players| ==> players[i].userId in seats0
    ensures seats == SetStacks(seats0, players)
  {
    seats := seats0;
    for i := 0 to |players|
      invariant seats == SetStacks(seats0, players[..i])
    {
      assert players[..i + 1][..i] == players[..i];
      var u := players[i].userId;
      seats := seats[u := seats[u].(stack := players[i].endStack)];
    }
    assert players[..|players|] == players;
  }

  /** The loop that refunds every seat; it stops half way exactly when some seated user has no wallet. */
  method PayBack(wallets0: map<UserId, int>, seats: map<UserId, SeatRecord>)
    returns (wallets: map<UserId, int>, complete: bool)
    ensures complete <==> seats.Keys <= wallets0.Keys
    ensures complete ==> wallets == Refunded(wallets0, seats)
  {
    wallets := wallets0;
    var left := seats.Keys;
    while left != {}
      invariant left <= seats.Keys && wallets.Keys == wallets0.Keys && seats.Keys - left <= wallets0.Keys
      invariant forall u :: u in wallets0 ==> wallets[u] == wallets0[u] + if u in seats && u !in left then seats[u].stack else 0
      decreases left
    {
      var u :| u in left;
      if u !in wallets {
        return wallets, false;
      }
      wallets := wallets[u := wallets[u] + seats[u].stack];
      left := left - {u};
    }
    return wallets, true;
  }
}
