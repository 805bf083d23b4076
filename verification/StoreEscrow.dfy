/** What every sequence of calls on the store keeps: chips, balances, seats, settlements, actions. */
module StoreEscrow {
  import opened Wrappers
  import opened Sums
  import opened StoreModel

  // ---------- sums over maps ----------

  ghost function MapSum(m: map<nat, int>): int {
    if m == map[] then 0
    else
      var k :| k in m;
      m[k] + MapSum(m - {k})
  }

  /** Any key may be taken out first. */
  lemma {:induction false} MapSumRemove(m: map<nat, int>, k: nat)
    requires k in m
    ensures MapSum(m) == m[k] + MapSum(m - {k})
    decreases |m|
  {
    var j :| j in m && MapSum(m) == m[j] + MapSum(m - {j});
    if j != k {
      MapSumRemove(m - {j}, k);
      MapSumRemove(m - {k}, j);
      assert m - {j} - {k} == m - {k} - {j};
    }
  }

  lemma MapSumUpdate(m: map<nat, int>, k: nat, v: int)
    ensures MapSum(m[k := v]) == MapSum(m) - (if k in m then m[k] else 0) + v
  {
    var u := m[k := v];
    MapSumRemove(u, k);
    if k in m {
      MapSumRemove(m, k);
      assert u - {k} == m - {k};
    } else {
      assert u - {k} == m;
    }
  }

  lemma {:induction false} MapSumBounds(m: map<nat, int>, k: nat)
    requires (forall j :: j in m ==> m[j] >= 0) && k in m
    ensures 0 <= m[k] <= MapSum(m)
    decreases |m|
  {
    MapSumRemove(m, k);
    MapSumNonNegative(m - {k});
  }

  lemma {:induction false} MapSumNonNegative(m: map<nat, int>)
    requires forall j :: j in m ==> m[j] >= 0
    ensures MapSum(m) >= 0
    decreases |m|
  {
    if m != map[] {
      var k :| k in m;
      MapSumRemove(m, k);
      MapSumNonNegative(m - {k});
    }
  }

  // ---------- totals ----------

  ghost function StacksOf(seats: map<UserId, SeatRecord>): map<nat, int> {
    map u | u in seats :: seats[u].stack
  }

  ghost function TableChips(tables: map<nat, StoredTable>): map<nat, int> {
    map t | t in tables :: MapSum(StacksOf(tables[t].seats))
  }

  /** Every chip the store knows of: in wallets and on tables. */
  ghost function TotalChips(s: Store): int {
    MapSum(s.wallets) + MapSum(TableChips(s.tables))
  }

  lemma TableChipsUpdate(tables: map<nat, StoredTable>, id: nat, t: StoredTable)
    ensures MapSum(TableChips(tables[id := t])) ==
            MapSum(TableChips(tables)) + MapSum(StacksOf(t.seats))
            - if id in tables then MapSum(StacksOf(tables[id].seats)) else 0
  {
    assert TableChips(tables[id := t]) == TableChips(tables)[id := MapSum(StacksOf(t.seats))];
    MapSumUpdate(TableChips(tables), id, MapSum(StacksOf(t.seats)));
  }

  // ---------- the invariant ----------

  /** The two seat maps of a table are each other's inverse, and an aborted table is empty. */
  ghost predicate TableOk(s: Store, t: StoredTable) {
    && (forall u :: u in t.seats ==>
          && t.seats[u].userId == u
          && u in s.wallets
          && t.seats[u].stack >= 0
          && t.seats[u].seat in t.occupied && t.occupied[t.seats[u].seat] == u)
    && (forall n :: n in t.occupied ==> t.occupied[n] in t.seats && t.seats[t.occupied[n]].seat == n)
    && (t.aborted ==> t.seats == map[])
  }

  /** Actions are filed under their hand and sequence, and no request of a player in a hand is filed twice. */
  ghost predicate ActionsOk(actions: map<(nat, nat), HandActionRecord>) {
    && (forall k :: k in actions ==> k == (actions[k].handId, actions[k].sequence))
    && (forall j, k :: j in actions && k in actions && SameRequest(actions[j], actions[k]) ==> j == k)
  }

  ghost predicate StoreInv(s: Store) {
    && (forall u :: u in s.wallets ==> s.wallets[u] >= 0)
    && (forall t :: t in s.tables ==> TableOk(s, s.tables[t]))
    && ActionsOk(s.actions)
  }

  lemma EmptyStoreInv()
    ensures StoreInv(EMPTY_STORE) && TotalChips(EMPTY_STORE) == 0
  {
    assert TableChips(map[]) == map[];
  }

  // ---------- settling ----------

  lemma {:induction false} SetStacksAt(seats: map<UserId, SeatRecord>, players: seq<PlayerSettlement>, u: UserId)
    requires forall i :: 0 <= i < |players| ==> players[i].userId in seats
    requires DistinctUsers(players) && u in seats
    ensures var r := SetStacks(seats, players);
            && (forall i :: 0 <= i < |players| && players[i].userId == u ==> r[u] == seats[u].(stack := players[i].endStack))
            && ((forall i :: 0 <= i < |players| ==> players[i].userId != u) ==> r[u] == seats[u])
  {
    if players != [] {
      var n := |players| - 1;
      SetStacksAt(seats, players[..n], u);
    }
  }

  ghost function EndStacks(players: seq<PlayerSettlement>): (r: seq<int>)
    ensures |r| == |players|
  {
    seq(|players|, i requires 0 <= i < |players| => players[i].endStack)
  }

  ghost function StartStacks(players: seq<PlayerSettlement>): (r: seq<int>)
    ensures |r| == |players|
  {
    seq(|players|, i requires 0 <= i < |players| => players[i].startStack)
  }

  /** Replacing start stacks by end stacks changes the table by the difference of their sums. */
  lemma {:induction false} SetStacksSum(seats: map<UserId, SeatRecord>, players: seq<PlayerSettlement>)
    requires forall i :: 0 <= i < |players| ==> players[i].userId in seats
    requires forall i :: 0 <= i < |players| ==> seats[players[i].userId].stack == players[i].startStack
    requires DistinctUsers(players)
    ensures MapSum(StacksOf(SetStacks(seats, players)))
            == MapSum(StacksOf(seats)) + Sum(EndStacks(players)) - Sum(StartStacks(players))
  {
    if players != [] {
      var n := |players| - 1;
      var p := players[n];
      SetStacksSum(seats, players[..n]);
      SetStacksAt(seats, players[..n], p.userId);
      var before := SetStacks(seats, players[..n]);
      assert StacksOf(SetStacks(seats, players)) == StacksOf(before)[p.userId := p.endStack];
      MapSumUpdate(StacksOf(before), p.userId, p.endStack);
      assert EndStacks(players)[..n] == EndStacks(players[..n]);
      assert StartStacks(players)[..n] == StartStacks(players[..n]);
    }
  }

  /** A sound settlement takes as much as it gives. */
  lemma SettlementBalances(v: HandSettlement)
    requires ValidSettlement(v)
    ensures Sum(EndStacks(v.players)) == Sum(StartStacks(v.players))
  {
    var n := |v.players|;
    var behind := seq(n, i requires 0 <= i < n => v.players[i].startStack - v.players[i].committed);
    SumAdd(behind, Committed(v.players), StartStacks(v.players));
    SumAdd(behind, WinningsOf(v.players), EndStacks(v.players));
  }

  // ---------- refunding ----------

  lemma {:induction false} RefundSum(wallets: map<UserId, int>, seats: map<UserId, SeatRecord>)
    requires seats.Keys <= wallets.Keys
    ensures MapSum(Refunded(wallets, seats)) == MapSum(wallets) + MapSum(StacksOf(seats))
    decreases |seats|
  {
    if seats == map[] {
      assert Refunded(wallets, seats) == wallets;
      assert StacksOf(seats) == map[];
    } else {
      var u :| u in seats;
      var rest := seats - {u};
      RefundSum(wallets, rest);
      var before := Refunded(wallets, rest);
      assert Refunded(wallets, seats) == before[u := before[u] + seats[u].stack];
      MapSumUpdate(before, u, before[u] + seats[u].stack);
      assert StacksOf(seats) - {u} == StacksOf(rest);
      MapSumRemove(StacksOf(seats), u);
    }
  }

  // ---------- calls ----------

  datatype Call =
    | Seed(user: UserId, balance: int)
    | Create(table: TableRecord)
    | BuyInCall(tableId: nat, user: UserId, seat: nat, amount: int, key: string)
    | CashOutCall(tableId: nat, user: UserId, key: string)
    | Begin(start: HandStartRecord)
    | Append(action: HandActionRecord)
    | Settle(settlement: HandSettlement)
    | AbortTable(tableId: nat)

  ghost function Answer(s: Store, c: Call): Reply {
    match c
    case Seed(user, balance) => SeedWallet(s, user, balance)
    case Create(table) => CreateTable(s, table)
    case BuyInCall(tableId, user, seat, amount, key) => ReserveBuyIn(s, tableId, user, seat, amount, key)
    case CashOutCall(tableId, user, key) => CashOutSeat(s, tableId, user, key)
    case Begin(start) => BeginHand(s, start)
    case Append(action) => AppendAction(s, action)
    case Settle(settlement) => SettleHand(s, settlement)
    case AbortTable(tableId) => AbortTableAndRefund(s, tableId)
  }

  /** New chips only ever come from seeding a wallet. */
  ghost function Seeded(s: Store, c: Call): int {
    if c.Seed? && Answer(s, c).error == Ok then c.balance else 0
  }

  /** What one call keeps. */
  ghost predicate Keeps(s: Store, r: Store, seeded: int) {
    StoreInv(r) && TotalChips(r) == TotalChips(s) + seeded
  }

  lemma SameTables(s: Store, r: Store)
    requires StoreInv(s) && r.tables == s.tables && s.wallets.Keys <= r.wallets.Keys
    ensures forall t :: t in r.tables ==> TableOk(r, r.tables[t])
  {
    forall t | t in r.tables
      ensures TableOk(r, r.tables[t])
    {
      assert TableOk(s, s.tables[t]);
    }
  }

  /** One table replaced: the others stay sound. */
  lemma OneTable(s: Store, r: Store, id: nat, t: StoredTable)
    requires StoreInv(s) && r.tables == s.tables[id := t] && s.wallets.Keys <= r.wallets.Keys && TableOk(r, t)
    ensures forall k :: k in r.tables ==> TableOk(r, r.tables[k])
  {
    forall k | k in r.tables
      ensures TableOk(r, r.tables[k])
    {
      if k != id {
        assert TableOk(s, s.tables[k]);
      }
    }
  }

  lemma SeedKeeps(s: Store, user: UserId, balance: int)
    requires StoreInv(s)
    ensures var r := SeedWallet(s, user, balance); Keeps(s, r.store, if r.error == Ok then balance else 0)
  {
    var r := SeedWallet(s, user, balance);
    if r.error == Ok {
      SameTables(s, r.store);
      MapSumUpdate(s.wallets, user, balance);
    }
  }

  lemma CreateKeeps(s: Store, t: TableRecord)
    requires StoreInv(s)
    ensures Keeps(s, CreateTable(s, t).store, 0)
  {
    var r := CreateTable(s, t);
    if r.error == Ok {
      var created := StoredTable(t, false, false, map[], map[]);
      OneTable(s, r.store, t.tableId, created);
      TableChipsUpdate(s.tables, t.tableId, created);
      assert StacksOf(map[]) == map[];
    }
  }

  /** One wallet and one table change: so does the total, by the sum of the changes. */
  lemma WalletAndTable(s: Store, r: Store, user: UserId, w: int, id: nat, t: StoredTable)
    requires user in s.wallets && id in s.tables
    requires r.wallets == s.wallets[user := w] && r.tables == s.tables[id := t]
    ensures TotalChips(r) == TotalChips(s) + w - s.wallets[user]
                             + MapSum(StacksOf(t.seats)) - MapSum(StacksOf(s.tables[id].seats))
  {
    MapSumUpdate(s.wallets, user, w);
    TableChipsUpdate(s.tables, id, t);
  }

  lemma SeatedChips(t: StoredTable, user: UserId, seat: nat, amount: int)
    requires user !in t.seats
    ensures MapSum(StacksOf(SeatedTable(t, user, seat, amount).seats)) == MapSum(StacksOf(t.seats)) + amount
  {
    assert StacksOf(SeatedTable(t, user, seat, amount).seats) == StacksOf(t.seats)[user := amount];
    MapSumUpdate(StacksOf(t.seats), user, amount);
  }

  lemma SeatedOk(s: Store, r: Store, t: StoredTable, user: UserId, seat: nat, amount: int)
    requires TableOk(s, t) && s.wallets.Keys <= r.wallets.Keys && user in s.wallets && !t.aborted
    requires user !in t.seats && seat !in t.occupied && amount >= 0
    ensures TableOk(r, SeatedTable(t, user, seat, amount))
  {}

  lemma BuyInKeeps(s: Store, tableId: nat, user: UserId, seat: nat, amount: int, key: string)
    requires StoreInv(s)
    ensures Keeps(s, ReserveBuyIn(s, tableId, user, seat, amount, key).store, 0)
  {
    var r := ReserveBuyIn(s, tableId, user, seat, amount, key);
    if r.store != s {
      var t := s.tables[tableId];
      BuyInMoves(s, r.store, tableId, t, user, seat, amount);
    }
  }

  /** A table and a wallet trade chips: the store stays sound and the total stays the same. */
  lemma TradeKeeps(s: Store, r: Store, user: UserId, w: nat, id: nat, t: StoredTable)
    requires StoreInv(s) && user in s.wallets && id in s.tables
    requires r.wallets == s.wallets[user := w] && r.tables == s.tables[id := t] && r.actions == s.actions
    requires TableOk(r, t)
    requires w + MapSum(StacksOf(t.seats)) == s.wallets[user] + MapSum(StacksOf(s.tables[id].seats))
    ensures Keeps(s, r, 0)
  {
    OneTable(s, r, id, t);
    WalletAndTable(s, r, user, w, id, t);
  }

  /** A table moves chips among its own seats, or none at all. */
  lemma TableKeeps(s: Store, r: Store, id: nat, t: StoredTable)
    requires StoreInv(s) && id in s.tables
    requires r.wallets == s.wallets && r.tables == s.tables[id := t] && r.actions == s.actions
    requires TableOk(r, t) && MapSum(StacksOf(t.seats)) == MapSum(StacksOf(s.tables[id].seats))
    ensures Keeps(s, r, 0)
  {
    OneTable(s, r, id, t);
    TableChipsUpdate(s.tables, id, t);
  }

  lemma BuyInMoves(s: Store, r: Store, tableId: nat, t: StoredTable, user: UserId, seat: nat, amount: int)
    requires StoreInv(s) && tableId in s.tables && t == s.tables[tableId] && user in s.wallets && !t.aborted
    requires user !in t.seats && seat !in t.occupied && 0 <= amount <= s.wallets[user]
    requires r.wallets == s.wallets[user := s.wallets[user] - amount] && r.actions == s.actions
    requires r.tables == s.tables[tableId := SeatedTable(t, user, seat, amount)]
    ensures Keeps(s, r, 0)
  {
    assert TableOk(s, t);
    SeatedOk(s, r, t, user, seat, amount);
    SeatedChips(t, user, seat, amount);
    TradeKeeps(s, r, user, s.wallets[user] - amount, tableId, SeatedTable(t, user, seat, amount));
  }

  lemma VacatedChips(t: StoredTable, user: UserId)
    requires user in t.seats
    ensures MapSum(StacksOf(VacatedTable(t, user).seats)) == MapSum(StacksOf(t.seats)) - t.seats[user].stack
  {
    assert StacksOf(VacatedTable(t, user).seats) == StacksOf(t.seats) - {user};
    MapSumRemove(StacksOf(t.seats), user);
  }

  lemma CashOutKeeps(s: Store, tableId: nat, user: UserId, key: string)
    requires StoreInv(s)
    ensures Keeps(s, CashOutSeat(s, tableId, user, key).store, 0)
  {
    var r := CashOutSeat(s, tableId, user, key);
    if r.store != s {
      CashOutMoves(s, r.store, tableId, s.tables[tableId], user);
    }
  }

  lemma CashOutMoves(s: Store, r: Store, tableId: nat, t: StoredTable, user: UserId)
    requires StoreInv(s) && tableId in s.tables && t == s.tables[tableId] && user in s.wallets && user in t.seats
    requires r.wallets == s.wallets[user := s.wallets[user] + t.seats[user].stack] && r.actions == s.actions
    requires r.tables == s.tables[tableId := VacatedTable(t, user)]
    ensures Keeps(s, r, 0)
  {
    assert TableOk(s, t);
    VacatedOk(s, r, t, user);
    VacatedChips(t, user);
    TradeKeeps(s, r, user, s.wallets[user] + t.seats[user].stack, tableId, VacatedTable(t, user));
  }

  lemma VacatedOk(s: Store, r: Store, t: StoredTable, user: UserId)
    requires TableOk(s, t) && user in t.seats && s.wallets.Keys <= r.wallets.Keys
    ensures TableOk(r, VacatedTable(t, user))
  {
    var t' := VacatedTable(t, user);
    forall n | n in t'.occupied
      ensures t'.occupied[n] in t'.seats && t'.seats[t'.occupied[n]].seat == n
    {
      assert t.occupied[n] in t.seats;
    }
  }

  lemma BeginKeeps(s: Store, h: HandStartRecord)
    requires StoreInv(s)
    ensures Keeps(s, BeginHand(s, h).store, 0)
  {
    var r := BeginHand(s, h);
    if r.error == Ok {
      var t := s.tables[h.tableId];
      assert TableOk(s, t);
      TableKeeps(s, r.store, h.tableId, t.(handInProgress := true));
    }
  }

  lemma AppendKeeps(s: Store, a: HandActionRecord)
    requires StoreInv(s)
    ensures Keeps(s, AppendAction(s, a).store, 0)
  {
    var r := AppendAction(s, a);
    if r.error == Ok {
      SameTables(s, r.store);
      assert forall k :: k in s.actions ==> !SameRequest(s.actions[k], a);
    }
  }

  lemma SettleKeeps(s: Store, v: HandSettlement)
    requires StoreInv(s)
    ensures Keeps(s, SettleHand(s, v).store, 0)
  {
    var r := SettleHand(s, v);
    if r.error == Ok {
      var t := s.tables[v.tableId];
      assert forall i :: 0 <= i < |v.players| ==> SettlementMatches(t, v.players[i]);
      SettleMoves(s, r.store, t, v);
    }
  }

  lemma SettleMoves(s: Store, r: Store, t: StoredTable, v: HandSettlement)
    requires StoreInv(s) && v.tableId in s.tables && t == s.tables[v.tableId] && !t.aborted && ValidSettlement(v)
    requires forall i :: 0 <= i < |v.players| ==> v.players[i].userId in t.seats && SettlementMatches(t, v.players[i])
    requires r.wallets == s.wallets && r.actions == s.actions
    requires r.tables == s.tables[v.tableId := t.(seats := SetStacks(t.seats, v.players), handInProgress := false)]
    ensures Keeps(s, r, 0)
  {
    var t' := t.(seats := SetStacks(t.seats, v.players), handInProgress := false);
    assert TableOk(s, t);
    SettledOk(s, r, t, v);
    SettledChips(t, v);
    TableKeeps(s, r, v.tableId, t');
  }

  lemma SettledChips(t: StoredTable, v: HandSettlement)
    requires ValidSettlement(v)
    requires forall i :: 0 <= i < |v.players| ==> v.players[i].userId in t.seats && SettlementMatches(t, v.players[i])
    ensures MapSum(StacksOf(SetStacks(t.seats, v.players))) == MapSum(StacksOf(t.seats))
  {
    SetStacksSum(t.seats, v.players);
    SettlementBalances(v);
  }

  lemma SettledOk(s: Store, r: Store, t: StoredTable, v: HandSettlement)
    requires TableOk(s, t) && s.wallets.Keys <= r.wallets.Keys && !t.aborted && DistinctUsers(v.players)
    requires forall i :: 0 <= i < |v.players| ==> v.players[i].userId in t.seats && SettlementMatches(t, v.players[i])
    ensures TableOk(r, t.(seats := SetStacks(t.seats, v.players), handInProgress := false))
  {
    forall u | u in t.seats
      ensures var x := SetStacks(t.seats, v.players)[u];
              x.userId == u && x.seat == t.seats[u].seat && x.stack >= 0
    {
      SetStacksAt(t.seats, v.players, u);
      assert t.seats[u].userId == u;
      if i :| 0 <= i < |v.players| && v.players[i].userId == u {
        assert SettlementMatches(t, v.players[i]);
      }
    }
  }

  lemma AbortKeeps(s: Store, tableId: nat)
    requires StoreInv(s)
    ensures Keeps(s, AbortTableAndRefund(s, tableId).store, 0)
    ensures tableId in s.tables ==> s.tables[tableId].seats.Keys <= s.wallets.Keys
  {
    var r := AbortTableAndRefund(s, tableId);
    if tableId in s.tables {
      var t := s.tables[tableId];
      assert TableOk(s, t);
      assert t.seats.Keys <= s.wallets.Keys;
      if !t.aborted {
        var t' := t.(seats := map[], occupied := map[], aborted := true, handInProgress := false);
        assert TableOk(r.store, t');
        OneTable(s, r.store, tableId, t');
        RefundSum(s.wallets, t.seats);
        TableChipsUpdate(s.tables, tableId, t');
        assert StacksOf(map[]) == map[];
      }
    }
  }

  /** Every call keeps the store sound and moves chips without making or losing any. */
  lemma CallKeeps(s: Store, c: Call)
    requires StoreInv(s)
    ensures Keeps(s, Answer(s, c).store, Seeded(s, c))
  {
    match c
    case Seed(user, balance) => SeedKeeps(s, user, balance);
    case Create(table) => CreateKeeps(s, table);
    case BuyInCall(tableId, user, seat, amount, key) => BuyInKeeps(s, tableId, user, seat, amount, key);
    case CashOutCall(tableId, user, key) => CashOutKeeps(s, tableId, user, key);
    case Begin(start) => BeginKeeps(s, start);
    case Append(action) => AppendKeeps(s, action);
    case Settle(settlement) => SettleKeeps(s, settlement);
    case AbortTable(tableId) => AbortKeeps(s, tableId);
  }

  // ---------- runs ----------

  ghost function Run(s: Store, calls: seq<Call>): Store
    decreases calls
  {
    if calls == [] then s else Run(Answer(s, calls[0]).store, calls[1..])
  }

  ghost function SeededIn(s: Store, calls: seq<Call>): int
    decreases calls
  {
    if calls == [] then 0 else Seeded(s, calls[0]) + SeededIn(Answer(s, calls[0]).store, calls[1..])
  }

  lemma {:induction false} RunKeeps(s: Store, calls: seq<Call>)
    requires StoreInv(s)
    ensures Keeps(s, Run(s, calls), SeededIn(s, calls))
    decreases calls
  {
    if calls != [] {
      CallKeeps(s, calls[0]);
      RunKeeps(Answer(s, calls[0]).store, calls[1..]);
    }
  }

  lemma BalancesBounded(s: Store)
    requires StoreInv(s)
    ensures forall u :: u in s.wallets ==> 0 <= s.wallets[u] <= TotalChips(s)
    ensures forall t, u :: t in s.tables && u in s.tables[t].seats ==> 0 <= s.tables[t].seats[u].stack <= TotalChips(s)
  {
    var chips := TableChips(s.tables);
    forall t | t in chips
      ensures chips[t] >= 0
    {
      assert TableOk(s, s.tables[t]);
      MapSumNonNegative(StacksOf(s.tables[t].seats));
    }
    MapSumNonNegative(chips);
    MapSumNonNegative(s.wallets);
    forall u | u in s.wallets
      ensures 0 <= s.wallets[u] <= TotalChips(s)
    {
      MapSumBounds(s.wallets, u);
    }
    forall t, u | t in s.tables && u in s.tables[t].seats
      ensures 0 <= s.tables[t].seats[u].stack <= TotalChips(s)
    {
      assert TableOk(s, s.tables[t]);
      var stacks := StacksOf(s.tables[t].seats);
      MapSumBounds(stacks, u);
      assert t in chips && stacks[u] == s.tables[t].seats[u].stack;
      MapSumBounds(chips, t);
    }
  }

  /**
   Escrow: after any calls on any number of tables, wallets and seats together hold exactly what
   was seeded; no balance is negative or larger than that, so nothing overflows if the total fits.
   */
  lemma EscrowConserved(calls: seq<Call>)
    ensures var s := Run(EMPTY_STORE, calls);
            && StoreInv(s)
            && TotalChips(s) == SeededIn(EMPTY_STORE, calls)
            && (forall u :: u in s.wallets ==> 0 <= s.wallets[u] <= SeededIn(EMPTY_STORE, calls))
            && (forall t, u :: t in s.tables && u in s.tables[t].seats ==>
                                 0 <= s.tables[t].seats[u].stack <= SeededIn(EMPTY_STORE, calls))
  {
    EmptyStoreInv();
    RunKeeps(EMPTY_STORE, calls);
    BalancesBounded(Run(EMPTY_STORE, calls));
  }

  // ---------- idempotence ----------

  /** What is in `m` stays in `n`. */
  ghost predicate Grows<K(!new), V>(m: map<K, V>, n: map<K, V>) {
    forall k :: k in m ==> k in n && n[k] == m[k]
  }

  ghost predicate TablesStay(m: map<nat, StoredTable>, n: map<nat, StoredTable>) {
    forall t :: t in m ==> t in n && (m[t].aborted ==> n[t].aborted)
  }

  /** What is on record stays on record: ledger entries, actions, hand starts, settlements, aborted tables. */
  ghost predicate Remembers(s: Store, r: Store) {
    && Grows(s.ledger, r.ledger) && Grows(s.actions, r.actions)
    && Grows(s.handStarts, r.handStarts) && Grows(s.settlements, r.settlements)
    && TablesStay(s.tables, r.tables)
  }

  lemma RemembersAll(s: Store, r: Store, m: Store)
    requires Remembers(s, m) && Remembers(m, r)
    ensures Remembers(s, r)
  {}

  lemma SeedRemembers(s: Store, user: UserId, balance: int)
    ensures Remembers(s, SeedWallet(s, user, balance).store)
  {}

  /** A table is opened or replaced; whatever is added to the records is new there. */
  lemma TableRemembers(s: Store, r: Store, id: nat, t: StoredTable)
    requires r.tables == s.tables[id := t] && (id in s.tables && s.tables[id].aborted ==> t.aborted)
    requires Grows(s.ledger, r.ledger) && Grows(s.handStarts, r.handStarts) && Grows(s.settlements, r.settlements)
    requires r.actions == s.actions
    ensures Remembers(s, r)
  {}

  lemma CreateRemembers(s: Store, t: TableRecord)
    ensures Remembers(s, CreateTable(s, t).store)
  {
    var r := CreateTable(s, t).store;
    if r != s {
      TableRemembers(s, r, t.tableId, StoredTable(t, false, false, map[], map[]));
    }
  }

  lemma BuyInRemembers(s: Store, tableId: nat, user: UserId, seat: nat, amount: int, key: string)
    ensures Remembers(s, ReserveBuyIn(s, tableId, user, seat, amount, key).store)
  {
    var r := ReserveBuyIn(s, tableId, user, seat, amount, key).store;
    if r != s {
      TableRemembers(s, r, tableId, SeatedTable(s.tables[tableId], user, seat, amount));
    }
  }

  lemma CashOutRemembers(s: Store, tableId: nat, user: UserId, key: string)
    ensures Remembers(s, CashOutSeat(s, tableId, user, key).store)
  {
    var r := CashOutSeat(s, tableId, user, key).store;
    if r != s {
      TableRemembers(s, r, tableId, VacatedTable(s.tables[tableId], user));
    }
  }

  lemma BeginRemembers(s: Store, h: HandStartRecord)
    ensures Remembers(s, BeginHand(s, h).store)
  {}

  lemma AppendRemembers(s: Store, a: HandActionRecord)
    ensures Remembers(s, AppendAction(s, a).store)
  {}

  lemma SettleRemembers(s: Store, v: HandSettlement)
    ensures Remembers(s, SettleHand(s, v).store)
  {}

  lemma AbortRemembers(s: Store, tableId: nat)
    ensures Remembers(s, AbortTableAndRefund(s, tableId).store)
  {}

  lemma CallRemembers(s: Store, c: Call)
    ensures Remembers(s, Answer(s, c).store)
  {
    match c
    case Seed(user, balance) => SeedRemembers(s, user, balance);
    case Create(table) => CreateRemembers(s, table);
    case BuyInCall(tableId, user, seat, amount, key) => BuyInRemembers(s, tableId, user, seat, amount, key);
    case CashOutCall(tableId, user, key) => CashOutRemembers(s, tableId, user, key);
    case Begin(start) => BeginRemembers(s, start);
    case Append(action) => AppendRemembers(s, action);
    case Settle(settlement) => SettleRemembers(s, settlement);
    case AbortTable(tableId) => AbortRemembers(s, tableId);
  }

  lemma {:induction false} RunRemembers(s: Store, calls: seq<Call>)
    ensures Remembers(s, Run(s, calls))
    decreases calls
  {
    if calls != [] {
      CallRemembers(s, calls[0]);
      RunRemembers(Answer(s, calls[0]).store, calls[1..]);
      RemembersAll(s, Run(s, calls), Answer(s, calls[0]).store);
    }
  }

  /** A key used once never moves chips again, however much later and for whatever call. */
  lemma ReplayMovesNothing(s: Store, calls: seq<Call>, c: Call)
    requires (c.BuyInCall? || c.CashOutCall?) && LedgerKey(c.user, c.key) in s.ledger
    ensures var later := Run(s, calls); Answer(later, c).store == later
  {
    RunRemembers(s, calls);
  }

  /** A hand is settled at most once: later settlements of it are refused and change nothing. */
  lemma SettledOnce(s: Store, calls: seq<Call>, v: HandSettlement)
    requires v.handId in s.settlements
    ensures var later := Run(s, calls);
            && v.handId in later.settlements && later.settlements[v.handId] == s.settlements[v.handId]
            && Answer(later, Settle(v)).store == later
            && Answer(later, Settle(v)).error != Ok
  {
    RunRemembers(s, calls);
  }

  /** An aborted table stays aborted and empty: refunding it again pays nothing. */
  lemma RefundedOnce(s: Store, calls: seq<Call>, tableId: nat)
    requires StoreInv(s) && tableId in s.tables && s.tables[tableId].aborted
    ensures var later := Run(s, calls);
            && tableId in later.tables && later.tables[tableId].seats == map[]
            && Answer(later, AbortTable(tableId)) == Reply(later, Ok, None)
  {
    RunRemembers(s, calls);
    RunKeeps(s, calls);
    assert TableOk(Run(s, calls), Run(s, calls).tables[tableId]);
  }

  // ---------- ledger keys ----------

  predicate IsDigit(c: char) {
    '0' <= c <= '9'
  }

  lemma {:induction false} DecimalDigits(n: nat)
    ensures |Decimal(n)| >= 1 && forall i :: 0 <= i < |Decimal(n)| ==> IsDigit(Decimal(n)[i])
  {
    if n >= 10 {
      DecimalDigits(n / 10);
    }
  }

  lemma DigitInjective(a: nat, b: nat)
    requires a < 10 && b < 10 && Digit(a) == Digit(b)
    ensures a == b
  {}

  lemma {:induction false} DecimalInjective(m: nat, n: nat)
    requires Decimal(m) == Decimal(n)
    ensures m == n
    decreases m
  {
    DecimalDigits(m / 10);
    DecimalDigits(n / 10);
    if m < 10 && n < 10 {
      DigitInjective(m, n);
    } else if m >= 10 && n >= 10 {
      var a, b := Decimal(m), Decimal(n);
      assert a[..|a| - 1] == Decimal(m / 10) && b[..|b| - 1] == Decimal(n / 10);
      assert a[|a| - 1] == Digit(m % 10) && b[|b| - 1] == Digit(n % 10);
      DecimalInjective(m / 10, n / 10);
      DigitInjective(m % 10, n % 10);
    }
  }

  /** Text without colons before the first colon is determined by the whole. */
  lemma SplitAtColon(a: string, b: string, x: string, y: string)
    requires (forall i :: 0 <= i < |a| ==> a[i] != ':') && (forall i :: 0 <= i < |b| ==> b[i] != ':')
    requires a + ":" + x == b + ":" + y
    ensures a == b && x == y
  {
    var s := a + ":" + x;
    assert s[|a|] == ':' && s == b + ":" + y && s[|b|] == ':';
    assert forall i :: 0 <= i < |a| ==> s[i] == a[i];
    assert forall i :: 0 <= i < |b| ==> s[i] == b[i];
    assert a == s[..|a|] && b == s[..|b|];
    assert x == s[|a| + 1..] && y == s[|b| + 1..];
  }

  /** Different users or different keys never share a ledger entry. */
  lemma LedgerKeyInjective(u: UserId, k: string, v: UserId, l: string)
    requires LedgerKey(u, k) == LedgerKey(v, l)
    ensures u == v && k == l
  {
    DecimalDigits(u);
    DecimalDigits(v);
    SplitAtColon(Decimal(u), Decimal(v), k, l);
    DecimalInjective(u, v);
  }
}
