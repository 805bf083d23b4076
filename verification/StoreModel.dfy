/**
 The escrow of the in-memory game store (`in_memory_game_store.cpp`,
 `game_store_validation.hpp`) as a value, and what each call does to it.
 */
module StoreModel {
  import opened Wrappers
  import opened Sums
  import opened Cards
  import TableModel

  type UserId = nat

  datatype StorageError = Ok | Duplicate | NotFound | InsufficientFunds | Conflict | InvalidData

  datatype TableRecord = TableRecord(
    tableId: nat, name: string, nodeId: string, config: TableModel.Config, createdBy: UserId)

  datatype SeatRecord = SeatRecord(userId: UserId, seat: nat, stack: int)

  datatype StoredTable = StoredTable(
    record: TableRecord, aborted: bool, handInProgress: bool,
    seats: map<UserId, SeatRecord>, occupied: map<nat, UserId>)

  datatype LedgerKind = BuyIn | CashOut

  datatype LedgerResult = LedgerResult(kind: LedgerKind, tableId: nat, walletBalance: int, chips: int, seat: nat)

  datatype Receipt = Receipt(walletBalance: int, chips: int)

  datatype HandActionRecord = HandActionRecord(
    handId: nat, sequence: nat, requestId: nat, userId: UserId,
    street: TableModel.Street, action: TableModel.ActionType, targetAmount: int)

  datatype HandStartPlayer = HandStartPlayer(userId: UserId, seat: nat, startStack: int, holeCards: seq<Card>)

  datatype HandStartRecord = HandStartRecord(
    handId: nat, tableId: nat, handNumber: nat, dealerSeat: nat, players: seq<HandStartPlayer>)

  datatype PlayerSettlement = PlayerSettlement(
    userId: UserId, seat: nat, startStack: int, committed: int, winnings: int, endStack: int,
    holeCards: seq<Card>, folded: bool)

  datatype HandSettlement = HandSettlement(
    handId: nat, tableId: nat, handNumber: nat, dealerSeat: nat, board: seq<Card>, totalPot: int,
    players: seq<PlayerSettlement>)

  datatype Store = Store(
    wallets: map<UserId, int>, tables: map<nat, StoredTable>, ledger: map<string, LedgerResult>,
    actions: map<(nat, nat), HandActionRecord>, handStarts: map<nat, HandStartRecord>,
    settlements: map<nat, HandSettlement>)

  datatype Reply = Reply(store: Store, error: StorageError, receipt: Option<Receipt>)

  const EMPTY_STORE := Store(map[], map[], map[], map[], map[], map[])

  // ---------- settlement validation ----------

  function Committed(players: seq<PlayerSettlement>): (r: seq<int>)
    ensures |r| == |players|
  {
    seq(|players|, i requires 0 <= i < |players| => players[i].committed)
  }

  function WinningsOf(players: seq<PlayerSettlement>): (r: seq<int>)
    ensures |r| == |players|
  {
    seq(|players|, i requires 0 <= i < |players| => players[i].winnings)
  }

  /** Board and hole cards, in the order in which they are checked. */
  function AllCards(board: seq<Card>, players: seq<PlayerSettlement>): seq<Card> {
    if players == [] then board
    else AllCards(board, players[..|players| - 1]) + players[|players| - 1].holeCards
  }

  predicate PlayerLineOk(p: PlayerSettlement) {
    && p.userId != 0 && p.seat < 6
    && 0 <= p.committed <= p.startStack
    && 0 <= p.winnings && 0 <= p.endStack
    && |p.holeCards| == 2
    && p.startStack - p.committed + p.winnings <= INT64_MAX
    && p.endStack == p.startStack - p.committed + p.winnings
  }

  ghost predicate DistinctUsers(players: seq<PlayerSettlement>) {
    forall i, j :: 0 <= i < j < |players| ==> players[i].userId != players[j].userId
  }

  /** A settlement is sound: different players with different cards, and every chip committed is won. */
  ghost predicate ValidSettlement(v: HandSettlement) {
    && v.handId != 0 && v.tableId != 0 && v.handNumber != 0
    && 2 <= |v.players| <= 6 && |v.board| <= 5 && 0 <= v.totalPot
    && (forall i :: 0 <= i < |v.players| ==> PlayerLineOk(v.players[i]))
    && DistinctUsers(v.players)
    && Distinct(AllCards(v.board, v.players))
    && Sum(Committed(v.players)) <= INT64_MAX && Sum(WinningsOf(v.players)) <= INT64_MAX
    && Sum(Committed(v.players)) == v.totalPot == Sum(WinningsOf(v.players))
  }

  // ---------- ledger keys ----------

  function Digit(d: nat): char
    requires d < 10
  {
    ['0', '1', '2', '3', '4', '5', '6', '7', '8', '9'][d]
  }

  function Decimal(n: nat): string {
    if n < 10 then [Digit(n)] else Decimal(n / 10) + [Digit(n % 10)]
  }

  function LedgerKey(user: UserId, key: string): string {
    Decimal(user) + ":" + key
  }

  // ---------- calls ----------

  predicate KeyOk(key: string) {
    0 < |key| <= 96
  }

  function SeedWallet(s: Store, user: UserId, balance: int): Reply {
    if user == 0 || balance < 0 then Reply(s, InvalidData, None)
    else if user in s.wallets then Reply(s, Duplicate, None)
    else Reply(s.(wallets := s.wallets[user := balance]), Ok, None)
  }

  predicate RecordOk(t: TableRecord) {
    t.tableId != 0 && t.createdBy != 0 && t.name != "" && t.nodeId != "" && TableModel.ConfigOk(t.config)
  }

  function CreateTable(s: Store, t: TableRecord): Reply {
    if !RecordOk(t) then Reply(s, InvalidData, None)
    else if t.tableId in s.tables then Reply(s, Duplicate, None)
    else Reply(s.(tables := s.tables[t.tableId := StoredTable(t, false, false, map[], map[])]), Ok, None)
  }

  /** The answer to a buy-in key seen before; it never moves chips. */
  function ReplayBuyIn(s: Store, tableId: nat, user: UserId, seat: nat, amount: int, past: LedgerResult): Reply {
    if past.kind != BuyIn || past.tableId != tableId || past.chips != amount || past.seat != seat then
      Reply(s, Conflict, None)
    else if tableId !in s.tables then Reply(s, Conflict, None)
    else if user !in s.tables[tableId].seats || s.tables[tableId].seats[user].seat != seat
         || s.tables[tableId].seats[user].stack != amount then Reply(s, Conflict, None)
    else Reply(s, Ok, Some(Receipt(past.walletBalance, past.chips)))
  }

  function SeatedTable(t: StoredTable, user: UserId, seat: nat, amount: int): StoredTable {
    t.(seats := t.seats[user := SeatRecord(user, seat, amount)], occupied := t.occupied[seat := user])
  }

  function ReserveBuyIn(s: Store, tableId: nat, user: UserId, seat: nat, amount: int, key: string): Reply {
    if tableId == 0 || user == 0 || amount <= 0 || !KeyOk(key) then Reply(s, InvalidData, None)
    else if LedgerKey(user, key) in s.ledger then
      ReplayBuyIn(s, tableId, user, seat, amount, s.ledger[LedgerKey(user, key)])
    else if tableId !in s.tables || s.tables[tableId].aborted || user !in s.wallets then Reply(s, NotFound, None)
    else
      var t := s.tables[tableId];
      if t.handInProgress then Reply(s, Conflict, None)
      else if seat >= t.record.config.maxPlayers || amount < t.record.config.minBuyIn
           || amount > t.record.config.maxBuyIn then Reply(s, InvalidData, None)
      else if user in t.seats || seat in t.occupied then Reply(s, Conflict, None)
      else if s.wallets[user] < amount then Reply(s, InsufficientFunds, None)
      else
        var balance := s.wallets[user] - amount;
        Reply(s.(wallets := s.wallets[user := balance],
                 tables := s.tables[tableId := SeatedTable(t, user, seat, amount)],
                 ledger := s.ledger[LedgerKey(user, key) := LedgerResult(BuyIn, tableId, balance, amount, seat)]),
              Ok, Some(Receipt(balance, amount)))
  }

  function VacatedTable(t: StoredTable, user: UserId): StoredTable
    requires user in t.seats
  {
    t.(seats := t.seats - {user}, occupied := t.occupied - {t.seats[user].seat})
  }

  function CashOutSeat(s: Store, tableId: nat, user: UserId, key: string): Reply {
    if tableId == 0 || user == 0 || !KeyOk(key) then Reply(s, InvalidData, None)
    else if LedgerKey(user, key) in s.ledger then
      var past := s.ledger[LedgerKey(user, key)];
      if past.kind != CashOut || past.tableId != tableId then Reply(s, Conflict, None)
      else Reply(s, Ok, Some(Receipt(past.walletBalance, past.chips)))
    else if tableId !in s.tables || user !in s.wallets then Reply(s, NotFound, None)
    else
      var t := s.tables[tableId];
      if t.handInProgress then Reply(s, Conflict, None)
      else if user !in t.seats then Reply(s, NotFound, None)
      else
        var chips := t.seats[user].stack;
        var balance := s.wallets[user] + chips;
        Reply(s.(wallets := s.wallets[user := balance],
                 tables := s.tables[tableId := VacatedTable(t, user)],
                 ledger := s.ledger[LedgerKey(user, key) :=
                                    LedgerResult(CashOut, tableId, balance, chips, t.seats[user].seat)]),
              Ok, Some(Receipt(balance, chips)))
  }

  /** The stored seat is what the hand start says it is. */
  predicate StartMatches(t: StoredTable, p: HandStartPlayer) {
    p.userId in t.seats && t.seats[p.userId].seat == p.seat && t.seats[p.userId].stack == p.startStack
    && |p.holeCards| == 2
  }

  ghost function BeginHand(s: Store, h: HandStartRecord): Reply {
    if h.handId == 0 || h.tableId == 0 || h.handNumber == 0 || |h.players| < 2 then Reply(s, InvalidData, None)
    else if h.handId in s.handStarts || h.handId in s.settlements then Reply(s, Duplicate, None)
    else if h.tableId !in s.tables || s.tables[h.tableId].aborted then Reply(s, NotFound, None)
    else if s.tables[h.tableId].handInProgress then Reply(s, Conflict, None)
    else if exists i :: 0 <= i < |h.players| && !StartMatches(s.tables[h.tableId], h.players[i]) then
      Reply(s, Conflict, None)
    else Reply(s.(handStarts := s.handStarts[h.handId := h],
                  tables := s.tables[h.tableId := s.tables[h.tableId].(handInProgress := true)]), Ok, None)
  }

  /** Another action of the same request. */
  predicate SameRequest(a: HandActionRecord, b: HandActionRecord) {
    a.handId == b.handId && a.userId == b.userId && a.requestId == b.requestId
  }

  ghost predicate RequestSeen(s: Store, a: HandActionRecord) {
    exists k :: k in s.actions && SameRequest(s.actions[k], a)
  }

  /** Which stored action a repeated request is compared with: some action of that request. */
  ghost function SeenAction(s: Store, a: HandActionRecord): (r: HandActionRecord)
    requires RequestSeen(s, a)
    ensures SameRequest(r, a) && exists k :: k in s.actions && s.actions[k] == r
  {
    var k :| k in s.actions && SameRequest(s.actions[k], a);
    s.actions[k]
  }

  ghost function AppendAction(s: Store, a: HandActionRecord): Reply {
    if a.handId == 0 || a.sequence == 0 || a.requestId == 0 || a.userId == 0 then Reply(s, InvalidData, None)
    else if a.handId !in s.handStarts then Reply(s, NotFound, None)
    else if a.handId in s.settlements then Reply(s, Conflict, None)
    else if (a.handId, a.sequence) in s.actions then
      Reply(s, if s.actions[(a.handId, a.sequence)] == a then Duplicate else Conflict, None)
    else if RequestSeen(s, a) then Reply(s, if SeenAction(s, a) == a then Duplicate else Conflict, None)
    else Reply(s.(actions := s.actions[(a.handId, a.sequence) := a]), Ok, None)
  }

  predicate SettlementMatches(t: StoredTable, p: PlayerSettlement) {
    && p.userId in t.seats && t.seats[p.userId].seat == p.seat && t.seats[p.userId].stack == p.startStack
    && 0 <= p.committed && 0 <= p.winnings && 0 <= p.endStack
    && p.endStack == p.startStack - p.committed + p.winnings
  }

  /** The seats with the end stacks of the listed players. */
  function SetStacks(seats: map<UserId, SeatRecord>, players: seq<PlayerSettlement>): (r: map<UserId, SeatRecord>)
    requires forall i :: 0 <= i < |players| ==> players[i].userId in seats
    ensures r.Keys == seats.Keys
  {
    if players == [] then seats
    else
      var n := |players| - 1;
      var before := SetStacks(seats, players[..n]);
      before[players[n].userId := before[players[n].userId].(stack := players[n].endStack)]
  }

  ghost function SettleHand(s: Store, v: HandSettlement): Reply {
    if !ValidSettlement(v) then Reply(s, InvalidData, None)
    else if v.handId in s.settlements then
      Reply(s, if s.settlements[v.handId] == v then Duplicate else Conflict, None)
    else if v.handId !in s.handStarts then Reply(s, NotFound, None)
    else if v.tableId !in s.tables || s.tables[v.tableId].aborted then Reply(s, NotFound, None)
    else if !s.tables[v.tableId].handInProgress then Reply(s, Duplicate, None)
    else if exists i :: 0 <= i < |v.players| && !SettlementMatches(s.tables[v.tableId], v.players[i]) then
      Reply(s, Conflict, None)
    else
      var t := s.tables[v.tableId];
      Reply(s.(tables := s.tables[v.tableId := t.(seats := SetStacks(t.seats, v.players), handInProgress := false)],
               settlements := s.settlements[v.handId := v]), Ok, None)
  }

  /** Wallets with the stacks of the given seats paid in. */
  function Refunded(wallets: map<UserId, int>, seats: map<UserId, SeatRecord>): map<UserId, int> {
    map u | u in wallets :: wallets[u] + if u in seats then seats[u].stack else 0
  }

  function AbortTableAndRefund(s: Store, tableId: nat): Reply {
    if tableId !in s.tables then Reply(s, NotFound, None)
    else if s.tables[tableId].aborted then Reply(s, Ok, None)
    else
      var t := s.tables[tableId];
      Reply(s.(wallets := Refunded(s.wallets, t.seats),
               tables := s.tables[tableId := t.(seats := map[], occupied := map[], aborted := true,
                                                handInProgress := false)]), Ok, None)
  }
}
