/** The escrow player by player: whose money moves, by how much, and what the answers say about it. */
module StoreAccounts {
  import opened Wrappers
  import opened Sums
  import Cards
  import opened StoreModel
  import opened StoreEscrow

  // ---------- what a player is worth ----------

  function StackAt(t: StoredTable, u: UserId): int {
    if u in t.seats then t.seats[u].stack else 0
  }

  ghost function StakesOf(tables: map<nat, StoredTable>, u: UserId): map<nat, int> {
    map id | id in tables :: StackAt(tables[id], u)
  }

  function WalletOf(wallets: map<UserId, int>, u: UserId): int {
    if u in wallets then wallets[u] else 0
  }

  /** A player's wallet and stacks on all tables together. */
  ghost function Worth(s: Store, u: UserId): int {
    WalletOf(s.wallets, u) + MapSum(StakesOf(s.tables, u))
  }

  lemma StakeUpdate(tables: map<nat, StoredTable>, id: nat, t: StoredTable, u: UserId)
    ensures MapSum(StakesOf(tables[id := t], u)) ==
            MapSum(StakesOf(tables, u)) + StackAt(t, u) - if id in tables then StackAt(tables[id], u) else 0
  {
    assert StakesOf(tables[id := t], u) == StakesOf(tables, u)[id := StackAt(t, u)];
    MapSumUpdate(StakesOf(tables, u), id, StackAt(t, u));
  }

  /** What a settlement gives a player: end stack less start stack on the player's line. */
  function LineGain(players: seq<PlayerSettlement>, u: UserId): int {
    if players == [] then 0
    else
      var n := |players| - 1;
      LineGain(players[..n], u) + if players[n].userId == u then players[n].endStack - players[n].startStack else 0
  }

  /** What a call adds to a player's worth. */
  ghost function Gain(s: Store, c: Call, u: UserId): int {
    if Answer(s, c).error != Ok then 0
    else if c.Seed? && c.user == u then c.balance
    else if c.Settle? then LineGain(c.settlement.players, u)
    else 0
  }

  // ---------- call by call ----------

  lemma SeedWorth(s: Store, user: UserId, balance: int, u: UserId)
    ensures var r := SeedWallet(s, user, balance);
            Worth(r.store, u) == Worth(s, u) + if r.error == Ok && user == u then balance else 0
  {}

  lemma CreateWorth(s: Store, t: TableRecord, u: UserId)
    ensures Worth(CreateTable(s, t).store, u) == Worth(s, u)
  {
    StakeUpdate(s.tables, t.tableId, StoredTable(t, false, false, map[], map[]), u);
  }

  /** A table and a player's wallet trade chips of that player, and of nobody else. */
  lemma TradeWorth(s: Store, r: Store, user: UserId, w: int, id: nat, t: StoredTable, u: UserId)
    requires user in s.wallets && id in s.tables
    requires r.wallets == s.wallets[user := w] && r.tables == s.tables[id := t]
    requires w + StackAt(t, user) == s.wallets[user] + StackAt(s.tables[id], user)
    requires u != user ==> StackAt(t, u) == StackAt(s.tables[id], u)
    ensures Worth(r, u) == Worth(s, u)
  {
    StakeUpdate(s.tables, id, t, u);
  }

  lemma BuyInWorth(s: Store, tableId: nat, user: UserId, seat: nat, amount: int, key: string, u: UserId)
    ensures Worth(ReserveBuyIn(s, tableId, user, seat, amount, key).store, u) == Worth(s, u)
  {
    var r := ReserveBuyIn(s, tableId, user, seat, amount, key).store;
    if r != s {
      var t := s.tables[tableId];
      TradeWorth(s, r, user, s.wallets[user] - amount, tableId, SeatedTable(t, user, seat, amount), u);
    }
  }

  lemma CashOutWorth(s: Store, tableId: nat, user: UserId, key: string, u: UserId)
    ensures Worth(CashOutSeat(s, tableId, user, key).store, u) == Worth(s, u)
  {
    var r := CashOutSeat(s, tableId, user, key).store;
    if r != s {
      var t := s.tables[tableId];
      TradeWorth(s, r, user, s.wallets[user] + t.seats[user].stack, tableId, VacatedTable(t, user), u);
    }
  }

  lemma BeginWorth(s: Store, h: HandStartRecord, u: UserId)
    ensures Worth(BeginHand(s, h).store, u) == Worth(s, u)
  {
    if BeginHand(s, h).error == Ok {
      StakeUpdate(s.tables, h.tableId, s.tables[h.tableId].(handInProgress := true), u);
    }
  }

  lemma {:induction false} GainOfLine(players: seq<PlayerSettlement>, u: UserId)
    requires DistinctUsers(players)
    ensures forall i :: 0 <= i < |players| && players[i].userId == u ==>
              LineGain(players, u) == players[i].endStack - players[i].startStack
    ensures (forall i :: 0 <= i < |players| ==> players[i].userId != u) ==> LineGain(players, u) == 0
  {
    if players != [] {
      GainOfLine(players[..|players| - 1], u);
    }
  }

  lemma SettledStack(t: StoredTable, players: seq<PlayerSettlement>, u: UserId)
    requires DistinctUsers(players)
    requires forall i :: 0 <= i < |players| ==> players[i].userId in t.seats && SettlementMatches(t, players[i])
    ensures StackAt(t.(seats := SetStacks(t.seats, players), handInProgress := false), u) ==
            StackAt(t, u) + LineGain(players, u)
  {
    GainOfLine(players, u);
    if u in t.seats {
      SetStacksAt(t.seats, players, u);
      if i :| 0 <= i < |players| && players[i].userId == u {
        assert SettlementMatches(t, players[i]);
      }
    }
  }

  lemma SettleWorth(s: Store, v: HandSettlement, u: UserId)
    ensures var r := SettleHand(s, v);
            Worth(r.store, u) == Worth(s, u) + if r.error == Ok then LineGain(v.players, u) else 0
  {
    if SettleHand(s, v).error == Ok {
      var t := s.tables[v.tableId];
      assert forall i :: 0 <= i < |v.players| ==> SettlementMatches(t, v.players[i]);
      SettledStack(t, v.players, u);
      StakeUpdate(s.tables, v.tableId, t.(seats := SetStacks(t.seats, v.players), handInProgress := false), u);
    }
  }

  lemma AbortWorth(s: Store, tableId: nat, u: UserId)
    requires StoreInv(s)
    ensures Worth(AbortTableAndRefund(s, tableId).store, u) == Worth(s, u)
  {
    if tableId in s.tables && !s.tables[tableId].aborted {
      var t := s.tables[tableId];
      assert TableOk(s, t);
      StakeUpdate(s.tables, tableId, t.(seats := map[], occupied := map[], aborted := true, handInProgress := false), u);
    }
  }

  /**
   No call touches anybody's money but as it should: a player's wallet and stacks together
   change only by the player's own seeding and by the player's own line of an accepted settlement.
   */
  lemma CallWorth(s: Store, c: Call, u: UserId)
    requires StoreInv(s)
    ensures Worth(Answer(s, c).store, u) == Worth(s, u) + Gain(s, c, u)
  {
    if c.Seed? || c.BuyInCall? || c.CashOutCall? || c.AbortTable? {
      MoneyWorth(s, c, u);
    } else {
      HandWorth(s, c, u);
    }
  }

  lemma MoneyWorth(s: Store, c: Call, u: UserId)
    requires StoreInv(s) && (c.Seed? || c.BuyInCall? || c.CashOutCall? || c.AbortTable?)
    ensures Worth(Answer(s, c).store, u) == Worth(s, u) + Gain(s, c, u)
  {
    if c.Seed? {
      SeedWorth(s, c.user, c.balance, u);
    } else if c.BuyInCall? {
      BuyInWorth(s, c.tableId, c.user, c.seat, c.amount, c.key, u);
    } else if c.CashOutCall? {
      CashOutWorth(s, c.tableId, c.user, c.key, u);
    } else {
      AbortWorth(s, c.tableId, u);
    }
  }

  lemma HandWorth(s: Store, c: Call, u: UserId)
    requires c.Create? || c.Begin? || c.Append? || c.Settle?
    ensures Worth(Answer(s, c).store, u) == Worth(s, u) + Gain(s, c, u)
  {
    if c.Create? {
      CreateWorth(s, c.table, u);
    } else if c.Begin? {
      BeginWorth(s, c.start, u);
    } else if c.Settle? {
      SettleWorth(s, c.settlement, u);
    }
  }

  // ---------- runs ----------

  ghost function GainIn(s: Store, calls: seq<Call>, u: UserId): int
    decreases calls
  {
    if calls == [] then 0 else Gain(s, calls[0], u) + GainIn(Answer(s, calls[0]).store, calls[1..], u)
  }

  lemma {:induction false} RunWorth(s: Store, calls: seq<Call>, u: UserId)
    requires StoreInv(s)
    ensures Worth(Run(s, calls), u) == Worth(s, u) + GainIn(s, calls, u)
    decreases calls
  {
    if calls != [] {
      CallWorth(s, calls[0], u);
      CallKeeps(s, calls[0]);
      RunWorth(Answer(s, calls[0]).store, calls[1..], u);
    }
  }

  /** Over any calls from an empty store, every player is worth what was seeded and what settlements gave. */
  lemma PlayersConserved(calls: seq<Call>, u: UserId)
    ensures Worth(Run(EMPTY_STORE, calls), u) == GainIn(EMPTY_STORE, calls, u)
  {
    EmptyStoreInv();
    RunWorth(EMPTY_STORE, calls, u);
    assert StakesOf(map[], u) == map[];
  }

  // ---------- what the answers say ----------

  /** A new buy-in: what it takes, what it moves, and what the answer says. */
  lemma BuyInAnswer(s: Store, tableId: nat, user: UserId, seat: nat, amount: int, key: string)
    requires LedgerKey(user, key) !in s.ledger
    ensures var r := ReserveBuyIn(s, tableId, user, seat, amount, key);
            && (r.error == Ok <==>
                  && tableId != 0 && user != 0 && amount > 0 && 1 <= |key| <= 96
                  && tableId in s.tables && user in s.wallets
                  && !s.tables[tableId].aborted && !s.tables[tableId].handInProgress
                  && seat < s.tables[tableId].record.config.maxPlayers
                  && s.tables[tableId].record.config.minBuyIn <= amount <= s.tables[tableId].record.config.maxBuyIn
                  && user !in s.tables[tableId].seats && seat !in s.tables[tableId].occupied
                  && amount <= s.wallets[user])
            && (r.error != Ok ==> r.store == s && r.receipt == None)
            && (r.error == Ok ==>
                  && user in r.store.wallets && r.store.wallets[user] == s.wallets[user] - amount
                  && r.receipt == Some(Receipt(r.store.wallets[user], amount))
                  && tableId in r.store.tables
                  && user in r.store.tables[tableId].seats
                  && r.store.tables[tableId].seats[user] == SeatRecord(user, seat, amount)
                  && r.store.settlements == s.settlements && r.store.handStarts == s.handStarts)
  {}

  /** A new cash-out pays the player's own stack into the player's own wallet and empties the seat. */
  lemma CashOutAnswer(s: Store, tableId: nat, user: UserId, key: string)
    requires LedgerKey(user, key) !in s.ledger
    ensures var r := CashOutSeat(s, tableId, user, key);
            && (r.error == Ok <==>
                  && tableId != 0 && user != 0 && 1 <= |key| <= 96
                  && tableId in s.tables && user in s.wallets
                  && !s.tables[tableId].handInProgress && user in s.tables[tableId].seats)
            && (r.error != Ok ==> r.store == s && r.receipt == None)
            && (r.error == Ok ==>
                  && user in r.store.wallets && tableId in r.store.tables
                  && r.store.wallets[user] == s.wallets[user] + s.tables[tableId].seats[user].stack
                  && r.receipt == Some(Receipt(r.store.wallets[user], s.tables[tableId].seats[user].stack))
                  && user !in r.store.tables[tableId].seats)
  {}

  /** The ledger remembers what was answered. */
  lemma AnswerRecorded(s: Store, c: Call)
    requires (c.BuyInCall? || c.CashOutCall?) && Answer(s, c).error == Ok
    ensures var r := Answer(s, c);
            && LedgerKey(c.user, c.key) in r.store.ledger && r.receipt.Some?
            && var past := r.store.ledger[LedgerKey(c.user, c.key)];
               && r.receipt == Some(Receipt(past.walletBalance, past.chips)) && past.tableId == c.tableId
               && past.kind == (if c.BuyInCall? then BuyIn else CashOut)
  {}

  /** However much later, a repeated call that is answered at all is answered with the same numbers; a cash-out always is. */
  lemma ReplayAnswersSame(s: Store, c: Call, calls: seq<Call>)
    requires (c.BuyInCall? || c.CashOutCall?) && Answer(s, c).error == Ok
    ensures var later := Run(Answer(s, c).store, calls);
            && (Answer(later, c).error == Ok ==> Answer(later, c).receipt == Answer(s, c).receipt)
            && (c.CashOutCall? ==> Answer(later, c).error == Ok)
            && Answer(later, c).store == later
  {
    AnswerRecorded(s, c);
    RunRemembers(Answer(s, c).store, calls);
    ReplayMovesNothing(Answer(s, c).store, calls, c);
  }

  // ---------- what the other calls take ----------

  lemma SeedAnswer(s: Store, user: UserId, balance: int)
    ensures SeedWallet(s, user, balance).error == Ok <==> user != 0 && balance >= 0 && user !in s.wallets
    ensures SeedWallet(s, user, balance).error == Ok ==>
              user in SeedWallet(s, user, balance).store.wallets && SeedWallet(s, user, balance).store.wallets[user] == balance
  {}

  /** A hand can begin when its table is open and free, its id is new, and every player sits as the record says. */
  lemma BeginAnswer(s: Store, h: HandStartRecord)
    ensures BeginHand(s, h).error == Ok <==>
            && h.handId != 0 && h.tableId != 0 && h.handNumber != 0 && |h.players| >= 2
            && h.handId !in s.handStarts && h.handId !in s.settlements
            && h.tableId in s.tables && !s.tables[h.tableId].aborted && !s.tables[h.tableId].handInProgress
            && forall i :: 0 <= i < |h.players| ==>
                 && h.players[i].userId in s.tables[h.tableId].seats
                 && s.tables[h.tableId].seats[h.players[i].userId].seat == h.players[i].seat
                 && s.tables[h.tableId].seats[h.players[i].userId].stack == h.players[i].startStack
                 && |h.players[i].holeCards| == 2
    ensures BeginHand(s, h).error == Ok ==>
              var r := BeginHand(s, h).store;
              && h.handId in r.handStarts && r.handStarts[h.handId] == h
              && h.tableId in r.tables && r.tables[h.tableId].handInProgress
  {
    if h.tableId in s.tables {
      var t := s.tables[h.tableId];
      assert (forall i :: 0 <= i < |h.players| ==> StartMatches(t, h.players[i]))
          <==> !(exists i :: 0 <= i < |h.players| && !StartMatches(t, h.players[i]));
    }
  }

  /** An action is filed once, under its hand and sequence, while the hand is open. */
  lemma AppendAnswer(s: Store, a: HandActionRecord)
    ensures AppendAction(s, a).error == Ok <==>
            && a.handId != 0 && a.sequence != 0 && a.requestId != 0 && a.userId != 0
            && a.handId in s.handStarts && a.handId !in s.settlements && (a.handId, a.sequence) !in s.actions
            && forall k :: k in s.actions ==>
                 s.actions[k].handId != a.handId || s.actions[k].userId != a.userId || s.actions[k].requestId != a.requestId
    ensures AppendAction(s, a).error == Ok ==> AppendAction(s, a).store == s.(actions := s.actions[(a.handId, a.sequence) := a])
    ensures AppendAction(s, a).error != Ok ==> AppendAction(s, a).store == s
  {}

  /** A settlement is taken once, for a hand begun on an open table, when every line starts from the stored stack. */
  lemma SettleAnswer(s: Store, v: HandSettlement)
    ensures SettleHand(s, v).error == Ok <==>
            && ValidSettlement(v) && v.handId !in s.settlements && v.handId in s.handStarts
            && v.tableId in s.tables && !s.tables[v.tableId].aborted && s.tables[v.tableId].handInProgress
            && forall i :: 0 <= i < |v.players| ==>
                 && v.players[i].userId in s.tables[v.tableId].seats
                 && s.tables[v.tableId].seats[v.players[i].userId].seat == v.players[i].seat
                 && s.tables[v.tableId].seats[v.players[i].userId].stack == v.players[i].startStack
    ensures SettleHand(s, v).error == Ok ==>
              var r := SettleHand(s, v).store;
              && v.handId in r.settlements && r.settlements[v.handId] == v
              && v.tableId in r.tables && !r.tables[v.tableId].handInProgress
    ensures SettleHand(s, v).error != Ok ==> SettleHand(s, v).store == s
  {
    if ValidSettlement(v) && v.tableId in s.tables {
      LinesMatch(s.tables[v.tableId], v);
    }
  }

  lemma LinesMatch(t: StoredTable, v: HandSettlement)
    requires ValidSettlement(v)
    ensures (exists i :: 0 <= i < |v.players| && !SettlementMatches(t, v.players[i])) <==>
            !(forall i :: 0 <= i < |v.players| ==>
                && v.players[i].userId in t.seats
                && t.seats[v.players[i].userId].seat == v.players[i].seat
                && t.seats[v.players[i].userId].stack == v.players[i].startStack)
  {
    forall i | 0 <= i < |v.players|
      ensures SettlementMatches(t, v.players[i]) <==>
              && v.players[i].userId in t.seats
              && t.seats[v.players[i].userId].seat == v.players[i].seat
              && t.seats[v.players[i].userId].stack == v.players[i].startStack
    {
      assert PlayerLineOk(v.players[i]);
    }
  }

  /** Closing a table empties it; the players are paid as `CallWorth` says. */
  lemma AbortAnswer(s: Store, tableId: nat)
    ensures var r := AbortTableAndRefund(s, tableId);
            && (r.error == Ok <==> tableId in s.tables)
            && (r.error == Ok ==> tableId in r.store.tables && r.store.tables[tableId].aborted)
            && (r.error == Ok && !s.tables[tableId].aborted ==>
                  r.store.tables[tableId].seats == map[] && r.store.tables[tableId].occupied == map[])
  {}

  /** A table is opened under a new id, empty. */
  lemma CreateAnswer(s: Store, t: TableRecord)
    ensures CreateTable(s, t).error == Ok <==>
            && t.tableId != 0 && t.createdBy != 0 && |t.name| > 0 && |t.nodeId| > 0
            && 2 <= t.config.minPlayers <= t.config.maxPlayers <= 6 && 0 < t.config.smallBlind
            && t.config.smallBlind * 2 <= t.config.bigBlind && 0 < t.config.minBuyIn <= t.config.maxBuyIn
            && t.tableId !in s.tables
    ensures CreateTable(s, t).error == Ok ==>
              var r := CreateTable(s, t).store;
              t.tableId in r.tables && r.tables[t.tableId].record == t && r.tables[t.tableId].seats == map[]
  {}

  // ---------- what a sound settlement is ----------

  ghost predicate TwoCardsEach(players: seq<PlayerSettlement>) {
    forall k :: 0 <= k < |players| ==> |players[k].holeCards| == 2
  }

  /** Among all cards, the board comes first and then each player's two. */
  lemma {:induction false} CardPlace(board: seq<Cards.Card>, players: seq<PlayerSettlement>, i: nat)
    requires TwoCardsEach(players) && i < |players|
    ensures var all := AllCards(board, players);
            && |all| == |board| + 2 * |players|
            && all[|board| + 2 * i] == players[i].holeCards[0] && all[|board| + 2 * i + 1] == players[i].holeCards[1]
  {
    var n := |players| - 1;
    AllCardsSize(board, players[..n]);
    if i < n {
      CardPlace(board, players[..n], i);
    }
  }

  lemma {:induction false} AllCardsSize(board: seq<Cards.Card>, players: seq<PlayerSettlement>)
    requires TwoCardsEach(players)
    ensures |AllCards(board, players)| == |board| + 2 * |players|
    ensures forall k :: 0 <= k < |board| ==> AllCards(board, players)[k] == board[k]
  {
    if players != [] {
      AllCardsSize(board, players[..|players| - 1]);
    }
  }

  lemma PlayerPlace(all: seq<Cards.Card>, board: seq<Cards.Card>, players: seq<PlayerSettlement>, i: nat) returns (p: nat)
    requires all == AllCards(board, players) && TwoCardsEach(players) && i < |players|
    ensures p == |board| + 2 * i && p + 1 < |all| && all[p] == players[i].holeCards[0] && all[p + 1] == players[i].holeCards[1]
  {
    CardPlace(board, players, i);
    p := |board| + 2 * i;
  }

  predicate Apart(a: seq<Cards.Card>, b: seq<Cards.Card>) {
    |a| == 2 && |b| == 2 && a[0] != b[0] && a[0] != b[1] && a[1] != b[0] && a[1] != b[1]
  }

  /** The hole cards of two players are four different cards. */
  lemma SoundHands(v: HandSettlement, i: nat, j: nat)
    requires ValidSettlement(v) && i < j < |v.players|
    ensures Apart(v.players[i].holeCards, v.players[j].holeCards)
  {
    SoundLines(v);
    var all := AllCards(v.board, v.players);
    var p := PlayerPlace(all, v.board, v.players, i);
    var q := PlayerPlace(all, v.board, v.players, j);
  }

  /** A player's two cards differ and are not on the board, which has no card twice. */
  lemma SoundHole(v: HandSettlement, i: nat, b: nat)
    requires ValidSettlement(v) && i < |v.players|
    ensures |v.players[i].holeCards| == 2 && v.players[i].holeCards[0] != v.players[i].holeCards[1]
    ensures b < |v.board| ==> v.players[i].holeCards[0] != v.board[b] && v.players[i].holeCards[1] != v.board[b]
    ensures forall c :: 0 <= c < b < |v.board| ==> v.board[c] != v.board[b]
  {
    SoundLines(v);
    var all := AllCards(v.board, v.players);
    AllCardsSize(v.board, v.players);
    var p := PlayerPlace(all, v.board, v.players, i);
    if b < |v.board| {
      assert all[b] == v.board[b] && b < p;
      forall c | 0 <= c < b
        ensures v.board[c] != v.board[b]
      {
        assert all[c] == v.board[c];
      }
    }
  }

  lemma SoundLines(v: HandSettlement)
    requires ValidSettlement(v)
    ensures TwoCardsEach(v.players)
  {
    assert forall k :: 0 <= k < |v.players| ==> PlayerLineOk(v.players[k]);
  }

  /** The money of a sound settlement adds up on every line and in all. */
  lemma SoundMoney(v: HandSettlement, i: nat)
    requires ValidSettlement(v) && i < |v.players|
    ensures v.players[i].userId != 0 && v.players[i].seat < 6
    ensures 0 <= v.players[i].committed <= v.players[i].startStack && v.players[i].winnings >= 0
    ensures v.players[i].endStack == v.players[i].startStack - v.players[i].committed + v.players[i].winnings
    ensures Sum(Committed(v.players)) == v.totalPot == Sum(WinningsOf(v.players))
    ensures forall j :: 0 <= j < |v.players| && j != i ==> v.players[j].userId != v.players[i].userId
  {
    assert PlayerLineOk(v.players[i]);
  }
}
