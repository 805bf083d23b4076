/** The idempotency cache as an object (`idempotency_cache.cpp`). */
module IdempotencyCaches {
  import opened Wrappers
  import opened CacheModel

  /** What is left to do from `at` on gives the same result as starting over. */
  ghost predicate EvictedSoFar(before: UserState, entries: map<RequestId, Entry>, order: seq<RequestId>, at: nat, max: nat)
    requires at <= |order|
  {
    var k := Evict(entries, order[at..], max);
    Evict(before.entries, before.order, max) == Kept(k.entries, order[..at] + k.order)
  }

  lemma EraseStep(before: UserState, entries: map<RequestId, Entry>, order: seq<RequestId>, at: nat, max: nat)
    requires at < |order| && |entries| >= max && EvictedSoFar(before, entries, order, at, max)
    requires order[at] in entries ==> entries[order[at]].response.Some?
    ensures EvictedSoFar(before, entries - {order[at]}, order[..at] + order[at + 1..], at, max)
  {
    var rest := order[..at] + order[at + 1..];
    assert rest[..at] == order[..at] && rest[at..] == order[at..][1..];
    if order[at] !in entries {
      assert entries - {order[at]} == entries;
    }
  }

  lemma KeepStep(before: UserState, entries: map<RequestId, Entry>, order: seq<RequestId>, at: nat, max: nat)
    requires at < |order| && |entries| >= max && EvictedSoFar(before, entries, order, at, max)
    requires order[at] in entries && entries[order[at]].response.None?
    ensures EvictedSoFar(before, entries, order, at + 1, max)
  {
    var k := Evict(entries, order[at + 1..], max);
    assert order[at..][1..] == order[at + 1..];
    assert order[..at] + ([order[at]] + k.order) == order[..at + 1] + k.order;
  }

  method EvictCompleted(st: UserState, max: nat) returns (r: UserState)
    ensures Kept(r.entries, r.order) == Evict(st.entries, st.order, max) && r.lastSequence == st.lastSequence
  {
    var entries, order, at := st.entries, st.order, 0;
    assert order[..0] + Evict(entries, order, max).order == Evict(entries, order, max).order;
    while |entries| >= max && at < |order|
      invariant at <= |order|
      invariant EvictedSoFar(st, entries, order, at, max)
      decreases |order| - at
    {
      var id := order[at];
      if id !in entries {
        EraseStep(st, entries, order, at, max);
        assert entries - {id} == entries;
        order := order[..at] + order[at + 1..];
      } else if entries[id].response.Some? {
        EraseStep(st, entries, order, at, max);
        entries := entries - {id};
        order := order[..at] + order[at + 1..];
      } else {
        KeepStep(st, entries, order, at, max);
        at := at + 1;
      }
    }
    assert order[..at] + order[at..] == order;
    return UserState(st.lastSequence, entries, order);
  }

  class IdempotencyCache {
    const maxRequestsPerUser: nat
    var users: Cache
    ghost var log: seq<Call>

    /** The cache holds what the calls on it so far have made of it. */
    ghost predicate Valid()
      reads this
    {
      0 < maxRequestsPerUser && users == Run(log, maxRequestsPerUser)
    }

    /** What a user's requests went through since the last reset. */
    ghost function HistoryOf(user: UserId): seq<Event>
      reads this
    {
      History(log, maxRequestsPerUser, user)
    }

    /** The entries of a user are as the history says, listed in the order they were accepted. */
    ghost predicate Faithful(user: UserId)
      reads this
    {
      var st := StateOf(users, user);
      OrderOk(st) && Matches(st, HistoryOf(user), maxRequestsPerUser)
    }

    constructor (maxRequestsPerUser: nat)
      requires 0 < maxRequestsPerUser
      ensures Valid() && log == [] && this.maxRequestsPerUser == maxRequestsPerUser
    {
      this.maxRequestsPerUser := maxRequestsPerUser;
      users := map[];
      log := [];
    }

    method Begin(userId: UserId, requestId: RequestId, sequence: nat) returns (d: Decision)
      requires Valid()
      modifies this
      ensures Valid() && Faithful(userId) && log == old(log) + [Call.Begin(userId, requestId, sequence)]
      ensures if userId == 0 || requestId == 0 || sequence == 0 then d == Decision(InvalidRequest, None)
              else DecidedBy(d, old(HistoryOf(userId)), old(requestId in StateOf(users, userId).entries),
                             requestId, sequence, maxRequestsPerUser)
      ensures HistoryOf(userId) == old(HistoryOf(userId))
                                   + if d.status == Accepted then [Started(requestId, sequence)] else []
    {
      ghost var before := log;
      if userId != 0 && requestId != 0 && sequence != 0 {
        DecisionsFromHistory(log, maxRequestsPerUser, userId, requestId, sequence);
      }
      BeginAnswer(users, userId, requestId, sequence, maxRequestsPerUser);
      d := Decide(userId, requestId, sequence);
      Note(before, Call.Begin(userId, requestId, sequence), Decided(d));
    }

    /** The decision and its effect on the entries. */
    method Decide(userId: UserId, requestId: RequestId, sequence: nat) returns (d: Decision)
      modifies `users
      ensures Reply(users, Decided(d)) == BeginCall(old(users), userId, requestId, sequence, maxRequestsPerUser)
    {
      if userId == 0 || requestId == 0 || sequence == 0 {
        return Decision(InvalidRequest, None);
      }
      if userId !in users {
        users := users[userId := NEW_USER];
      }
      var state := users[userId];
      if requestId in state.entries {
        if state.entries[requestId].response.Some? {
          return Decision(Duplicate, state.entries[requestId].response);
        }
        return Decision(InFlight, None);
      }
      if sequence <= state.lastSequence {
        return Decision(StaleSequence, None);
      }
      if sequence != state.lastSequence + 1 {
        return Decision(SequenceGap, None);
      }
      state := EvictCompleted(state, maxRequestsPerUser);
      users := users[userId := state];
      if |state.entries| >= maxRequestsPerUser {
        return Decision(CapacityExceeded, None);
      }
      state := state.(lastSequence := sequence);
      state := state.(entries := state.entries[requestId := Entry(sequence, None)]);
      state := state.(order := state.order + [requestId]);
      users := users[userId := state];
      return Decision(Accepted, None);
    }

    /** Keeps the log: the cache is as after the calls so far and the given one. */
    ghost method Note(before: seq<Call>, call: Call, answer: Answer)
      requires log == before && 0 < maxRequestsPerUser
      requires Reply(users, answer) == Apply(Run(before, maxRequestsPerUser), call, maxRequestsPerUser)
      modifies `log
      ensures Valid() && Faithful(call.user) && log == before + [call]
      ensures HistoryOf(call.user) == Recorded(History(before, maxRequestsPerUser, call.user), call.user, call, answer)
    {
      Noted(users, before, call, answer, maxRequestsPerUser);
      log := before + [call];
    }

    method Complete(userId: UserId, requestId: RequestId, response: Bytes) returns (known: bool)
      requires Valid()
      modifies this
      ensures Valid() && Faithful(userId) && log == old(log) + [Call.Complete(userId, requestId, response)]
      ensures known <==> old(requestId in StateOf(users, userId).entries)
      ensures requestId in Pending(old(HistoryOf(userId))) ==> known
      ensures HistoryOf(userId) == old(HistoryOf(userId)) + if known then [Finished(requestId, response)] else []
    {
      ghost var before := log;
      CacheMatchesHistory(log, maxRequestsPerUser, userId);
      known := Store(userId, requestId, response);
      Note(before, Call.Complete(userId, requestId, response), Completed(known));
    }

    method Store(userId: UserId, requestId: RequestId, response: Bytes) returns (known: bool)
      modifies `users
      ensures Reply(users, Completed(known)) == CompleteCall(old(users), userId, requestId, response)
    {
      if userId !in users {
        return false;
      }
      if requestId !in users[userId].entries {
        return false;
      }
      var state := users[userId];
      var entry := state.entries[requestId].(response := Some(response));
      users := users[userId := state.(entries := state.entries[requestId := entry])];
      return true;
    }

    method Reset(userId: UserId)
      requires Valid()
      modifies this
      ensures Valid() && Faithful(userId) && log == old(log) + [Call.Reset(userId)]
      ensures HistoryOf(userId) == [] && StateOf(users, userId) == NEW_USER
    {
      ghost var before := log;
      users := users - {userId};
      Note(before, Call.Reset(userId), Done);
    }
  }

  /** One more call on a cache that holds what the calls so far have made of it. */
  lemma Noted(users: Cache, calls: seq<Call>, call: Call, answer: Answer, max: nat)
    requires Reply(users, answer) == Apply(Run(calls, max), call, max)
    ensures users == Run(calls + [call], max)
    ensures var st := StateOf(users, call.user);
            OrderOk(st) && Matches(st, History(calls + [call], max, call.user), max)
    ensures History(calls + [call], max, call.user) ==
            Recorded(History(calls, max, call.user), call.user, call, answer)
  {
    RunMore(calls, call, max, call.user);
    CacheMatchesHistory(calls + [call], max, call.user);
  }

  lemma BeginAnswer(c: Cache, user: UserId, id: RequestId, sequence: nat, max: nat)
    ensures var d := BeginCall(c, user, id, sequence, max).answer.decision;
            d.status == Accepted <==> d == Decision(Accepted, None)
  {}

  /** A cache, unless it is to retain nothing. */
  method NewCache(maxRequestsPerUser: nat) returns (r: Option<IdempotencyCache>)
    ensures r.Some? <==> maxRequestsPerUser > 0
    ensures r.Some? ==> fresh(r.value) && r.value.Valid() && r.value.log == []
                        && r.value.maxRequestsPerUser == maxRequestsPerUser
  {
    if maxRequestsPerUser == 0 {
      return None;
    }
    var cache := new IdempotencyCache(maxRequestsPerUser);
    return Some(cache);
  }
}
