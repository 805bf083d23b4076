/**
 Seats in clockwise order. A table has seats 0..n-1; the seats of a set are
 listed by distance from an origin seat, the origin itself coming last.
 */
module Clockwise {
  import opened Wrappers
  import opened Cards

  /** The seat `offset` places clockwise from `from`. */
  function SeatAt(n: nat, from: nat, offset: nat): (r: nat)
    requires from < n && 1 <= offset <= n
    ensures r < n
    ensures r == (from + offset) % n
  {
    if from + offset < n then from + offset
    else
      ModuloOnce(from + offset, n);
      from + offset - n
  }

  lemma ModuloOnce(x: nat, n: nat)
    requires n <= x < 2 * n
    ensures x % n == x - n
  {
    var q := x / n;
    assert x == n * q + x % n;
    assert q <= 0 ==> n * q <= 0;
    assert q >= 2 ==> n * q >= n * 2;
  }

  /** Distance of a seat from the origin, the origin being furthest (`table.cpp`, lines 816-821). */
  function Distance(n: nat, origin: nat, seat: nat): (r: nat)
    requires origin < n && seat < n
    ensures 1 <= r <= n && SeatAt(n, origin, r) == seat
  {
    if seat > origin then seat - origin else seat + n - origin
  }

  lemma DistanceUnique(n: nat, origin: nat, offset: nat)
    requires origin < n && 1 <= offset <= n
    ensures Distance(n, origin, SeatAt(n, origin, offset)) == offset
  {}

  /** The members of `a` at distance `d` or more from the origin, nearest first. */
  ghost function From(a: set<nat>, n: nat, origin: nat, d: nat): (r: seq<nat>)
    requires origin < n && 1 <= d
    ensures forall k :: 0 <= k < |r| ==> r[k] in a && r[k] < n
    decreases n + 1 - d
  {
    if d > n then []
    else if SeatAt(n, origin, d) in a then [SeatAt(n, origin, d)] + From(a, n, origin, d + 1)
    else From(a, n, origin, d + 1)
  }

  lemma {:induction false} FromMembers(a: set<nat>, n: nat, origin: nat, d: nat)
    requires origin < n && 1 <= d <= n + 1
    ensures var r := From(a, n, origin, d);
            && (forall k :: 0 <= k < |r| ==> d <= Distance(n, origin, r[k]))
            && (forall i :: i in a && i < n && d <= Distance(n, origin, i) ==> i in r)
            && Sorted(r, n, origin)
    decreases n + 1 - d
  {
    if d <= n {
      FromMembers(a, n, origin, d + 1);
      var rest := From(a, n, origin, d + 1);
      var seat := SeatAt(n, origin, d);
      DistanceUnique(n, origin, d);
      if seat in a {
        SortedMore(seat, rest, n, origin, d);
      }
      forall i | i in a && i < n && d <= Distance(n, origin, i)
        ensures i == seat || i in rest
      {
        assert SeatAt(n, origin, Distance(n, origin, i)) == i;
      }
    }
  }

  lemma SortedMore(seat: nat, rest: seq<nat>, n: nat, origin: nat, d: nat)
    requires origin < n && seat < n && Distance(n, origin, seat) == d && Sorted(rest, n, origin)
    requires forall k :: 0 <= k < |rest| ==> d < Distance(n, origin, rest[k])
    ensures Sorted([seat] + rest, n, origin)
    ensures forall k :: 0 <= k < |[seat] + rest| ==> d <= Distance(n, origin, ([seat] + rest)[k])
  {}

  /** All members of `a`, clockwise from the seat after the origin. */
  ghost function Order(a: set<nat>, n: nat, origin: nat): (r: seq<nat>)
    requires origin < n
    ensures forall k :: 0 <= k < |r| ==> r[k] in a && r[k] < n
  {
    From(a, n, origin, 1)
  }

  lemma OrderMembers(a: set<nat>, n: nat, origin: nat)
    requires origin < n
    ensures var r := Order(a, n, origin);
            && (forall i :: i in a && i < n ==> i in r)
            && Sorted(r, n, origin)
  {
    FromMembers(a, n, origin, 1);
  }

  ghost predicate Sorted(r: seq<nat>, n: nat, origin: nat)
    requires origin < n
  {
    && (forall k :: 0 <= k < |r| ==> r[k] < n)
    && (forall j, k :: 0 <= j < k < |r| ==> Distance(n, origin, r[j]) < Distance(n, origin, r[k]))
  }

  lemma OrderSize(a: set<nat>, n: nat, origin: nat)
    requires origin < n && forall i :: i in a ==> i < n
    ensures |Order(a, n, origin)| == |a|
    ensures ToSet(Order(a, n, origin)) == a
    ensures Distinct(Order(a, n, origin))
  {
    var r := Order(a, n, origin);
    OrderMembers(a, n, origin);
    assert ToSet(r) == a;
    DistinctSize(r);
  }

  /** A clockwise listing is determined by its members. */
  lemma {:induction false} SortedUnique(r: seq<nat>, t: seq<nat>, n: nat, origin: nat)
    requires origin < n && Sorted(r, n, origin) && Sorted(t, n, origin)
    requires forall i :: i in r <==> i in t
    ensures r == t
  {
    if r != [] {
      NonEmpty(r, t);
    } else if t != [] {
      NonEmpty(t, r);
    }
    if |r| > 0 && |t| > 0 {
      HeadsAgree(r, t, n, origin);
      forall i
        ensures i in r[1..] <==> i in t[1..]
      {
        TailMembers(r, n, origin, i);
        TailMembers(t, n, origin, i);
      }
      SortedUnique(r[1..], t[1..], n, origin);
      assert r == [r[0]] + r[1..];
      assert t == [t[0]] + t[1..];
    }
  }

  lemma NonEmpty(r: seq<nat>, t: seq<nat>)
    requires r != [] && forall i :: i in r ==> i in t
    ensures t != []
  {
    assert r[0] in t;
  }

  lemma HeadNearest(r: seq<nat>, n: nat, origin: nat, seat: nat)
    requires origin < n && Sorted(r, n, origin) && seat in r
    ensures Distance(n, origin, r[0]) <= Distance(n, origin, seat)
  {
    var k :| 0 <= k < |r| && r[k] == seat;
  }

  lemma HeadsAgree(r: seq<nat>, t: seq<nat>, n: nat, origin: nat)
    requires origin < n && Sorted(r, n, origin) && Sorted(t, n, origin)
    requires |r| > 0 && |t| > 0 && r[0] in t && t[0] in r
    ensures r[0] == t[0]
  {
    HeadNearest(r, n, origin, t[0]);
    HeadNearest(t, n, origin, r[0]);
    assert SeatAt(n, origin, Distance(n, origin, t[0])) == t[0];
    assert SeatAt(n, origin, Distance(n, origin, r[0])) == r[0];
  }

  lemma TailMembers(r: seq<nat>, n: nat, origin: nat, i: nat)
    requires origin < n && Sorted(r, n, origin) && r != []
    ensures i in r[1..] <==> i in r && i != r[0]
  {
    assert r == [r[0]] + r[1..];
    assert forall k :: 1 <= k < |r| ==> Distance(n, origin, r[0]) < Distance(n, origin, r[k]);
  }

  /** The first member of `a` met going clockwise from `from`; `from` itself is tried last. */
  ghost function Next(a: set<nat>, n: nat, from: nat): (r: Option<nat>)
    requires from < n
    ensures r.Some? ==> r.value in a && r.value < n
    ensures r.None? ==> forall i :: i in a ==> n <= i
  {
    OrderMembers(a, n, from);
    var o := Order(a, n, from);
    if o == [] then None else Some(o[0])
  }

  lemma NextNearest(a: set<nat>, n: nat, from: nat, i: nat)
    requires from < n && i in a && i < n
    ensures Next(a, n, from).Some? && Distance(n, from, Next(a, n, from).value) <= Distance(n, from, i)
  {
    OrderMembers(a, n, from);
    HeadNearest(Order(a, n, from), n, from, i);
  }

  lemma NextUnique(a: set<nat>, n: nat, from: nat, i: nat)
    requires from < n && i < n && i in a
    requires forall j :: j in a && j < n ==> Distance(n, from, i) <= Distance(n, from, j)
    ensures Next(a, n, from) == Some(i)
  {
    NextNearest(a, n, from, i);
    var r := Next(a, n, from);
    assert SeatAt(n, from, Distance(n, from, r.value)) == r.value;
    assert SeatAt(n, from, Distance(n, from, i)) == i;
  }

  lemma DistanceShift(n: nat, origin: nat, from: nat, seat: nat)
    requires origin < n && from < n && seat < n
    ensures var d := Distance(n, origin, seat) - Distance(n, origin, from);
            Distance(n, from, seat) == if d > 0 then d else d + n
  {}

  /** Walking from one member to the next visits the members in clockwise order, cyclically. */
  lemma NextInOrder(a: set<nat>, n: nat, origin: nat, k: nat)
    requires origin < n && k < |Order(a, n, origin)|
    ensures var o := Order(a, n, origin);
            Next(a, n, o[k]) == Some(if k + 1 < |o| then o[k + 1] else o[0])
  {
    OrderMembers(a, n, origin);
    var o := Order(a, n, origin);
    var next := if k + 1 < |o| then k + 1 else 0;
    forall j | j in a && j < n
      ensures Distance(n, o[k], o[next]) <= Distance(n, o[k], j)
    {
      var m :| 0 <= m < |o| && o[m] == j;
      NearerInOrder(o, n, origin, k, next, m);
    }
    NextUnique(a, n, o[k], o[next]);
  }

  lemma NearerInOrder(o: seq<nat>, n: nat, origin: nat, k: nat, next: nat, m: nat)
    requires origin < n && Sorted(o, n, origin)
    requires k < |o| && m < |o| && next == if k + 1 < |o| then k + 1 else 0
    ensures Distance(n, o[k], o[next]) <= Distance(n, o[k], o[m])
  {
    DistanceShift(n, origin, o[k], o[next]);
    DistanceShift(n, origin, o[k], o[m]);
    if next == k + 1 {
      assert Distance(n, origin, o[k]) < Distance(n, origin, o[next]);
    }
  }
}
