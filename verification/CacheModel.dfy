/**
 The bounded idempotency cache (`idempotency_cache.cpp`) as a value, held against
 the unbounded history of what it accepted and completed.
 */
module CacheModel {
  import opened Wrappers
  import opened Cards
  import opened Sums

  type UserId = nat
  type RequestId = nat
  type Bytes = seq<int>

  datatype Status = Accepted | Duplicate | InFlight | StaleSequence | SequenceGap | CapacityExceeded | InvalidRequest

  datatype Decision = Decision(status: Status, cached: Option<Bytes>)

  datatype Entry = Entry(sequence: nat, response: Option<Bytes>)

  datatype UserState = UserState(lastSequence: nat, entries: map<RequestId, Entry>, order: seq<RequestId>)

  datatype Begun = Begun(state: UserState, decision: Decision)

  const NEW_USER := UserState(0, map[], [])

  type Cache = map<UserId, UserState>

  // ---------- eviction ----------

  datatype Kept = Kept(entries: map<RequestId, Entry>, order: seq<RequestId>)

  /** Walks the ids in order and drops completed ones while there are too many entries. */
  function Evict(entries: map<RequestId, Entry>, order: seq<RequestId>, max: nat): Kept {
    if |entries| < max || order == [] then Kept(entries, order)
    else if order[0] !in entries then Evict(entries, order[1..], max)
    else if entries[order[0]].response.Some? then Evict(entries - {order[0]}, order[1..], max)
    else
      var k := Evict(entries, order[1..], max);
      Kept(k.entries, [order[0]] + k.order)
  }

  // ---------- the calls ----------

  function BeginFor(st: UserState, id: RequestId, sequence: nat, max: nat): Begun {
    if id in st.entries then
      if st.entries[id].response.Some? then Begun(st, Decision(Duplicate, st.entries[id].response))
      else Begun(st, Decision(InFlight, None))
    else if sequence <= st.lastSequence then Begun(st, Decision(StaleSequence, None))
    else if sequence != st.lastSequence + 1 then Begun(st, Decision(SequenceGap, None))
    else
      var k := Evict(st.entries, st.order, max);
      if |k.entries| >= max then Begun(UserState(st.lastSequence, k.entries, k.order), Decision(CapacityExceeded, None))
      else Begun(UserState(sequence, k.entries[id := Entry(sequence, None)], k.order + [id]), Decision(Accepted, None))
  }

  function StateOf(c: Cache, user: UserId): UserState {
    if user in c then c[user] else NEW_USER
  }

  datatype Call =
    | Begin(user: UserId, id: RequestId, sequence: nat)
    | Complete(user: UserId, id: RequestId, response: Bytes)
    | Reset(user: UserId)

  datatype Answer = Decided(decision: Decision) | Completed(known: bool) | Done

  datatype Reply = Reply(cache: Cache, answer: Answer)

  function BeginCall(c: Cache, user: UserId, id: RequestId, sequence: nat, max: nat): Reply {
    if user == 0 || id == 0 || sequence == 0 then Reply(c, Decided(Decision(InvalidRequest, None)))
    else
      var b := BeginFor(StateOf(c, user), id, sequence, max);
      Reply(c[user := b.state], Decided(b.decision))
  }

  function CompleteCall(c: Cache, user: UserId, id: RequestId, response: Bytes): Reply {
    if user !in c || id !in c[user].entries then Reply(c, Completed(false))
    else
      var st := c[user];
      Reply(c[user := st.(entries := st.entries[id := st.entries[id].(response := Some(response))])], Completed(true))
  }

  function Apply(c: Cache, call: Call, max: nat): Reply {
    match call
    case Begin(user, id, sequence) => BeginCall(c, user, id, sequence, max)
    case Complete(user, id, response) => CompleteCall(c, user, id, response)
    case Reset(user) => Reply(c - {user}, Done)
  }

  function Run(calls: seq<Call>, max: nat): Cache {
    if calls == [] then map[]
    else
      var n := |calls| - 1;
      Apply(Run(calls[..n], max), calls[n], max).cache
  }

  // ---------- the history of one user since the last reset ----------

  datatype Event = Started(id: RequestId, sequence: nat) | Finished(id: RequestId, response: Bytes)

  /** What a call adds to the history of `user`. */
  function Recorded(h: seq<Event>, user: UserId, call: Call, answer: Answer): seq<Event> {
    if call.user != user then h
    else match call
      case Begin(_, id, sequence) =>
        if answer == Decided(Decision(Accepted, None)) then h + [Started(id, sequence)] else h
      case Complete(_, id, response) => if answer == Completed(true) then h + [Finished(id, response)] else h
      case Reset(_) => []
  }

  function History(calls: seq<Call>, max: nat, user: UserId): seq<Event> {
    if calls == [] then []
    else
      var n := |calls| - 1;
      Recorded(History(calls[..n], max, user), user, calls[n], Apply(Run(calls[..n], max), calls[n], max).answer)
  }

  function AcceptedSequences(h: seq<Event>): seq<nat> {
    if h == [] then []
    else
      var n := |h| - 1;
      AcceptedSequences(h[..n]) + if h[n].Started? then [h[n].sequence] else []
  }

  /** The request as last accepted, with the bytes it was last completed with since. */
  function Current(h: seq<Event>, id: RequestId): Option<Entry> {
    if h == [] then None
    else
      var n := |h| - 1;
      var before := Current(h[..n], id);
      if h[n].id != id then before
      else match h[n]
        case Started(_, sequence) => Some(Entry(sequence, None))
        case Finished(_, response) => if before.Some? then Some(before.value.(response := Some(response))) else None
  }

  /** Requests accepted and not completed since. */
  function Pending(h: seq<Event>): set<RequestId> {
    if h == [] then {}
    else
      var n := |h| - 1;
      if h[n].Started? then Pending(h[..n]) + {h[n].id} else Pending(h[..n]) - {h[n].id}
  }

  // ---------- the cache holds what the history says ----------

  function OneTo(n: nat): (r: seq<nat>)
    ensures |r| == n
  {
    seq(n, i requires 0 <= i < n => i + 1)
  }

  /** The order lists exactly the retained requests, earlier accepted ones first. */
  ghost predicate OrderOk(st: UserState) {
    && Distinct(st.order)
    && (forall id :: id in st.order <==> id in st.entries)
    && (forall i, j :: 0 <= i < j < |st.order| ==>
          st.entries[st.order[i]].sequence < st.entries[st.order[j]].sequence)
    && (forall id :: id in st.entries ==> st.entries[id].sequence <= st.lastSequence)
  }

  ghost predicate Matches(st: UserState, h: seq<Event>, max: nat) {
    && AcceptedSequences(h) == OneTo(st.lastSequence)
    && (forall id :: id in st.entries ==> Current(h, id) == Some(st.entries[id]))
    && (forall id :: id in Pending(h) <==> id in st.entries && st.entries[id].response.None?)
    && |st.entries| <= max
  }

  // ---------- what eviction does ----------

  ghost predicate AllPending(entries: map<RequestId, Entry>, order: seq<RequestId>) {
    forall i :: 0 <= i < |order| ==> order[i] in entries && entries[order[i]].response.None?
  }

  /** The oldest completed request is at `k`. */
  ghost predicate OldestDone(entries: map<RequestId, Entry>, order: seq<RequestId>, k: nat) {
    && k < |order|
    && AllPending(entries, order[..k])
    && order[k] in entries && entries[order[k]].response.Some?
  }

  lemma {:induction false} EvictNothing(entries: map<RequestId, Entry>, order: seq<RequestId>, max: nat)
    requires |entries| < max || AllPending(entries, order)
    ensures Evict(entries, order, max) == Kept(entries, order)
    decreases order
  {
    if |entries| >= max && order != [] {
      assert order[0] in entries && entries[order[0]].response.None?;
      EvictNothing(entries, order[1..], max);
    }
  }

  /** A full cache with a completed request loses exactly the oldest completed one. */
  lemma {:induction false} EvictOldest(entries: map<RequestId, Entry>, order: seq<RequestId>, max: nat, k: nat)
    requires |entries| == max && OldestDone(entries, order, k)
    ensures Evict(entries, order, max) == Kept(entries - {order[k]}, order[..k] + order[k + 1..])
    decreases order
  {
    if k == 0 {
      assert entries.Keys == (entries - {order[0]}).Keys + {order[0]};
      EvictNothing(entries - {order[0]}, order[1..], max);
      assert order[..0] + order[1..] == order[1..];
    } else {
      assert order[..k][0] == order[0];
      assert order[1..][..k - 1] == order[..k][1..];
      assert AllPending(entries, order[1..][..k - 1]) by {
        forall i | 0 <= i < k - 1
          ensures order[1..][i] in entries && entries[order[1..][i]].response.None?
        {
          assert order[..k][i + 1] == order[1..][i];
        }
      }
      EvictOldest(entries, order[1..], max, k - 1);
      assert [order[0]] + (order[1..][..k - 1] + order[1..][k..]) == order[..k] + order[k + 1..];
    }
  }

  lemma {:induction false} FindDone(entries: map<RequestId, Entry>, order: seq<RequestId>) returns (k: nat)
    requires forall i :: 0 <= i < |order| ==> order[i] in entries
    ensures k <= |order|
    ensures if k == |order| then AllPending(entries, order) else OldestDone(entries, order, k)
  {
    k := 0;
    while k < |order| && entries[order[k]].response.None?
      invariant k <= |order| && AllPending(entries, order[..k])
    {
      assert order[..k + 1] == order[..k] + [order[k]];
      k := k + 1;
    }
    assert order[..|order|] == order;
  }

  /** Eviction leaves the waiting requests alone, keeps the order and makes room unless all are waiting. */
  lemma EvictKeeps(st: UserState, h: seq<Event>, max: nat)
    requires OrderOk(st) && Matches(st, h, max)
    ensures var k := Evict(st.entries, st.order, max);
            var t := UserState(st.lastSequence, k.entries, k.order);
            && OrderOk(t) && Matches(t, h, max)
            && (|k.entries| >= max <==> |Pending(h)| >= max)
            && (forall id :: id in k.entries ==> id in st.entries)
  {
    PendingRetained(st, h, max);
    var i := FindDone(st.entries, st.order);
    if |st.entries| < max || i == |st.order| {
      EvictNothing(st.entries, st.order, max);
      if i == |st.order| {
        AllPendingCount(st, h, max);
      }
    } else {
      EvictOldest(st.entries, st.order, max, i);
      DropKeeps(st, h, max, i);
    }
  }

  lemma PendingRetained(st: UserState, h: seq<Event>, max: nat)
    requires Matches(st, h, max)
    ensures |Pending(h)| <= |st.entries|
  {
    assert Pending(h) <= st.entries.Keys;
    SubsetSize(Pending(h), st.entries.Keys);
  }

  lemma AllPendingCount(st: UserState, h: seq<Event>, max: nat)
    requires OrderOk(st) && Matches(st, h, max) && AllPending(st.entries, st.order)
    ensures |Pending(h)| == |st.entries|
  {
    forall id | id in st.entries
      ensures st.entries[id].response.None?
    {
      assert id in st.order;
    }
    assert Pending(h) == st.entries.Keys;
  }

  lemma DropKeeps(st: UserState, h: seq<Event>, max: nat, k: nat)
    requires OrderOk(st) && Matches(st, h, max) && OldestDone(st.entries, st.order, k) && |st.entries| == max
    ensures var t := UserState(st.lastSequence, st.entries - {st.order[k]}, st.order[..k] + st.order[k + 1..]);
            OrderOk(t) && Matches(t, h, max) && |t.entries| < max && |Pending(h)| < max
  {
    var x := st.order[k];
    var t := UserState(st.lastSequence, st.entries - {x}, st.order[..k] + st.order[k + 1..]);
    assert st.entries.Keys == t.entries.Keys + {x};
    DropOrder(st, t, k);
    PendingRetained(t, h, max);
  }

  lemma DropOrder(st: UserState, t: UserState, k: nat)
    requires OrderOk(st) && k < |st.order|
    requires t == UserState(st.lastSequence, st.entries - {st.order[k]}, st.order[..k] + st.order[k + 1..])
    ensures OrderOk(t)
  {
    WithoutOne(st.order, k);
    forall i, j | 0 <= i < j < |t.order|
      ensures t.entries[t.order[i]].sequence < t.entries[t.order[j]].sequence
    {
      DropIncreasing(st, t, k, i, j);
    }
  }

  lemma DropIncreasing(st: UserState, t: UserState, k: nat, i: nat, j: nat)
    requires OrderOk(st) && k < |st.order| && i < j < |t.order|
    requires t == UserState(st.lastSequence, st.entries - {st.order[k]}, st.order[..k] + st.order[k + 1..])
    ensures t.order[i] in t.entries && t.order[j] in t.entries
    ensures t.entries[t.order[i]].sequence < t.entries[t.order[j]].sequence
  {
    var p := if i < k then i else i + 1;
    var q := if j < k then j else j + 1;
    assert t.order[i] == st.order[p] && t.order[j] == st.order[q];
    assert st.order[p] in st.entries && st.order[q] in st.entries;
    assert st.entries[st.order[p]].sequence < st.entries[st.order[q]].sequence;
  }

  lemma WithoutOne(s: seq<RequestId>, k: nat)
    requires Distinct(s) && k < |s|
    ensures var r := s[..k] + s[k + 1..];
            Distinct(r) && forall x :: x in r <==> x in s && x != s[k]
  {
    var r := s[..k] + s[k + 1..];
    assert forall i :: 0 <= i < |r| ==> r[i] == s[if i < k then i else i + 1];
    forall x | x in s && x != s[k]
      ensures x in r
    {
      var i :| 0 <= i < |s| && s[i] == x;
      assert r[if i < k then i else i - 1] == x;
    }
  }

  // ---------- every call ----------

  lemma BeginKeeps(st: UserState, h: seq<Event>, id: RequestId, sequence: nat, max: nat)
    requires OrderOk(st) && Matches(st, h, max)
    ensures var b := BeginFor(st, id, sequence, max);
            && OrderOk(b.state)
            && Matches(b.state, if b.decision.status == Accepted then h + [Started(id, sequence)] else h, max)
            && (b.decision.status == Accepted ==> b.decision.cached.None?)
  {
    if id !in st.entries && sequence == st.lastSequence + 1 {
      EvictKeeps(st, h, max);
      var k := Evict(st.entries, st.order, max);
      if |k.entries| < max {
        AdmitKeeps(UserState(st.lastSequence, k.entries, k.order), h, id, max);
      }
    }
  }

  lemma AdmitKeeps(st: UserState, h: seq<Event>, id: RequestId, max: nat)
    requires OrderOk(st) && Matches(st, h, max) && |st.entries| < max && id !in st.entries
    ensures var n := st.lastSequence + 1;
            var t := UserState(n, st.entries[id := Entry(n, None)], st.order + [id]);
            OrderOk(t) && Matches(t, h + [Started(id, n)], max)
  {
    AdmitOrder(st, id);
    AdmitMatches(st, h, id, max);
  }

  lemma AdmitOrder(st: UserState, id: RequestId)
    requires OrderOk(st) && id !in st.entries
    ensures var n := st.lastSequence + 1;
            OrderOk(UserState(n, st.entries[id := Entry(n, None)], st.order + [id]))
  {
    var n := st.lastSequence + 1;
    var t := UserState(n, st.entries[id := Entry(n, None)], st.order + [id]);
    assert forall i :: 0 <= i < |st.order| ==> t.order[i] == st.order[i] && st.order[i] in st.entries;
  }

  lemma AdmitMatches(st: UserState, h: seq<Event>, id: RequestId, max: nat)
    requires Matches(st, h, max) && |st.entries| < max && id !in st.entries
    ensures var n := st.lastSequence + 1;
            Matches(UserState(n, st.entries[id := Entry(n, None)], st.order + [id]), h + [Started(id, n)], max)
  {
    var n := st.lastSequence + 1;
    var t := UserState(n, st.entries[id := Entry(n, None)], st.order + [id]);
    var g := h + [Started(id, n)];
    assert g[..|h|] == h;
    assert OneTo(n) == OneTo(st.lastSequence) + [n];
    assert t.entries.Keys == st.entries.Keys + {id};
  }

  lemma CompleteKeeps(st: UserState, h: seq<Event>, id: RequestId, response: Bytes, max: nat)
    requires OrderOk(st) && Matches(st, h, max) && id in st.entries
    ensures var t := st.(entries := st.entries[id := st.entries[id].(response := Some(response))]);
            OrderOk(t) && Matches(t, h + [Finished(id, response)], max)
  {
    var t := st.(entries := st.entries[id := st.entries[id].(response := Some(response))]);
    var g := h + [Finished(id, response)];
    assert g[..|h|] == h;
    assert t.entries.Keys == st.entries.Keys;
    assert AcceptedSequences(g) == AcceptedSequences(h);
  }

  lemma NewUserMatches(max: nat)
    ensures OrderOk(NEW_USER) && Matches(NEW_USER, [], max)
  {
    assert OneTo(0) == [];
  }

  /**
   The bounded cache against the unbounded history, for every run and every user: accepted
   sequences are exactly 1, 2, 3, ...; the order lists exactly the retained requests in
   the order they were accepted; a retained request has the bytes it was last completed with; and a
   request in flight is never evicted.
   */
  lemma {:induction false} CacheMatchesHistory(calls: seq<Call>, max: nat, user: UserId)
    ensures var st := StateOf(Run(calls, max), user);
            OrderOk(st) && Matches(st, History(calls, max, user), max)
  {
    NewUserMatches(max);
    if calls != [] {
      var n := |calls| - 1;
      CacheMatchesHistory(calls[..n], max, user);
      ApplyKeeps(Run(calls[..n], max), calls[n], max, user, History(calls[..n], max, user));
    }
  }

  lemma ApplyKeeps(c: Cache, call: Call, max: nat, user: UserId, h: seq<Event>)
    requires OrderOk(StateOf(c, user)) && Matches(StateOf(c, user), h, max)
    ensures var r := Apply(c, call, max);
            var st := StateOf(r.cache, user);
            OrderOk(st) && Matches(st, Recorded(h, user, call, r.answer), max)
  {
    NewUserMatches(max);
    if call.user != user {
      UsersApart(c, call, max, user);
    } else if call.Begin? {
      BeginKeeps(StateOf(c, user), h, call.id, call.sequence, max);
    } else if call.Complete? {
      CompleteCallKeeps(c, user, call.id, call.response, max, h);
    }
  }

  lemma CompleteCallKeeps(c: Cache, user: UserId, id: RequestId, response: Bytes, max: nat, h: seq<Event>)
    requires OrderOk(StateOf(c, user)) && Matches(StateOf(c, user), h, max)
    ensures var r := CompleteCall(c, user, id, response);
            var st := StateOf(r.cache, user);
            && OrderOk(st)
            && Matches(st, if r.answer == Completed(true) then h + [Finished(id, response)] else h, max)
  {
    if user in c && id in c[user].entries {
      CompleteKeeps(c[user], h, id, response, max);
    }
  }

  // ---------- what the answers mean ----------

  /**
   A decision read off the history. "In flight" and "capacity exceeded" are exact: a request
   is reported in flight iff it was accepted and not completed since, and a new request with
   the next sequence is refused for capacity iff as many requests as the cache can hold are in
   flight. A duplicate gets the bytes last completed for the request.
   */
  ghost predicate DecidedBy(d: Decision, h: seq<Event>, retained: bool, id: RequestId, sequence: nat, max: nat) {
    var last := |AcceptedSequences(h)|;
    && (d.status == InFlight <==> id in Pending(h))
    && (d.status == Duplicate <==> retained && id !in Pending(h))
    && (d.status == Duplicate ==> Current(h, id).Some? && Current(h, id).value.response.Some?
                                  && d.cached == Current(h, id).value.response)
    && (d.status != Duplicate ==> d.cached.None?)
    && (d.status == StaleSequence <==> !retained && sequence <= last)
    && (d.status == SequenceGap <==> !retained && sequence > last + 1)
    && (d.status == CapacityExceeded <==> !retained && sequence == last + 1 && |Pending(h)| >= max)
    && (d.status == Accepted <==> !retained && sequence == last + 1 && |Pending(h)| < max)
  }

  /** Every decision follows from the history and from which completed requests are still retained. */
  lemma DecisionsFromHistory(calls: seq<Call>, max: nat, user: UserId, id: RequestId, sequence: nat)
    requires user != 0 && id != 0 && sequence != 0
    ensures DecidedBy(BeginCall(Run(calls, max), user, id, sequence, max).answer.decision,
                      History(calls, max, user), id in StateOf(Run(calls, max), user).entries, id, sequence, max)
  {
    var st := StateOf(Run(calls, max), user);
    var h := History(calls, max, user);
    CacheMatchesHistory(calls, max, user);
    EvictKeeps(st, h, max);
  }

  /** A request that was accepted and never completed is still known, however many came after it. */
  lemma InFlightKept(calls: seq<Call>, max: nat, user: UserId, id: RequestId)
    requires id in Pending(History(calls, max, user))
    ensures user in Run(calls, max) && id in Run(calls, max)[user].entries
    ensures forall response :: CompleteCall(Run(calls, max), user, id, response).answer == Completed(true)
  {
    CacheMatchesHistory(calls, max, user);
  }

  lemma RunMore(calls: seq<Call>, call: Call, max: nat, user: UserId)
    ensures Run(calls + [call], max) == Apply(Run(calls, max), call, max).cache
    ensures History(calls + [call], max, user) ==
            Recorded(History(calls, max, user), user, call, Apply(Run(calls, max), call, max).answer)
  {
    assert (calls + [call])[..|calls|] == calls;
  }

  /** One user's calls do not touch another user's requests. */
  lemma UsersApart(c: Cache, call: Call, max: nat, user: UserId)
    requires call.user != user
    ensures StateOf(Apply(c, call, max).cache, user) == StateOf(c, user)
  {}
}
