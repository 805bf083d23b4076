/** Every hand ends: a measure that falls with each accepted action. */
module TableTermination {
  import opened Wrappers
  import opened Sums
  import opened TableModel
  import opened TableInvariant
  import opened TableRuns

  /** Chips the dealt-in players still have behind. */
  ghost function Behind(seats: Seats): (r: seq<int>)
    ensures |r| == |seats|
  {
    seq(|seats|, i requires 0 <= i < |seats| =>
      if seats[i].Some? && IsParticipant(seats[i].value) then seats[i].value.stack else 0)
  }

  /** n times (chips behind + streets to come), plus the decisions owed. */
  ghost function Measure(s: State): int {
    |Participants(s.seats)| * (Sum(Behind(s.seats)) + StreetsLeft(s.street)) + |s.pending|
  }

  ghost function IdsAt(seats: Seats, a: set<nat>): set<PlayerId> {
    set i | i in a && Taken(seats, i) :: seats[i].value.id
  }

  lemma {:induction false} ImageSize(seats: Seats, a: set<nat>)
    ensures |IdsAt(seats, a)| <= |a|
  {
    if a != {} {
      var x :| x in a;
      var b := a - {x};
      ImageSize(seats, b);
      assert IdsAt(seats, a) == IdsAt(seats, b) + if Taken(seats, x) then {seats[x].value.id} else {};
    }
  }

  /** Decisions are owed by dealt-in players only, so there are at most n of them. */
  lemma PendingBound(s: State)
    requires s.pending <= AbleIds(s.seats)
    ensures |s.pending| <= |Participants(s.seats)|
  {
    var able := Able(s.seats);
    ImageSize(s.seats, able);
    assert AbleIds(s.seats) == IdsAt(s.seats, able);
    SubsetSize(s.pending, AbleIds(s.seats));
    SubsetSize(able, Participants(s.seats));
  }

  lemma BehindNonNegative(s: State)
    requires InHand(s)
    ensures Sum(Behind(s.seats)) >= 0
  {
    var zeros := seq(|s.seats|, _ => 0);
    SumZero(zeros);
    forall i | 0 <= i < |s.seats|
      ensures 0 <= Behind(s.seats)[i]
    {
      if s.seats[i].Some? {
        assert Taken(s.seats, i) && PlayerOk(s.seats[i].value);
      }
    }
    SumMonotone(zeros, Behind(s.seats));
  }

  lemma ScaleDown(n: nat, x: int, y: int)
    requires x <= y
    ensures n * x <= n * y
    ensures x < y ==> n * x <= n * y - n
  {
    Distribute(n, x, y - x);
    if x < y {
      TimesAtLeast(n, y - x);
    }
  }

  lemma BehindUpdate(seats: Seats, a: nat, q: Player)
    requires Taken(seats, a) && IsParticipant(seats[a].value) && IsParticipant(q)
    ensures Sum(Behind(seats[a := Some(q)])) == Sum(Behind(seats)) - seats[a].value.stack + q.stack
  {
    assert Behind(seats[a := Some(q)]) == Behind(seats)[a := q.stack];
    SumUpdate(Behind(seats), a, q.stack);
  }

  /** Paying costs at least n; a decision made without paying is one decision fewer. */
  lemma MeasureFalls(s: State, t: State, a: nat, q: Player)
    requires Replaced(s.seats, t.seats, a, q) && t.street == s.street && q.stack <= s.seats[a].value.stack
    requires t.pending <= AbleIds(t.seats) && q.id in s.pending
    requires q.stack < s.seats[a].value.stack || t.pending == s.pending - {q.id}
    ensures Measure(t) < Measure(s)
  {
    var n := |Participants(s.seats)|;
    BehindUpdate(s.seats, a, q);
    ReplacedGroups(s.seats, t.seats, a, q);
    ScaleDown(n, Sum(Behind(t.seats)) + StreetsLeft(t.street), Sum(Behind(s.seats)) + StreetsLeft(s.street));
    SubsetSize({q.id}, s.pending);
    PendingBound(t);
  }

  lemma PlayedDecreases(s: State, cmd: ActionCommand)
    requires Deciding(s) && BetPhase(s, s.actingSeat.value, cmd).error == Ok
    ensures Measure(Played(s, cmd)) < Measure(s)
  {
    var q, lift := PlayedSeat(s, cmd);
    PlayedMidHand(s, cmd);
    PlayedFalls(s, Played(s, cmd), s.actingSeat.value, q, lift);
  }

  /** What an accepted action does to the actor's seat. */
  lemma PlayedSeat(s: State, cmd: ActionCommand) returns (q: Player, lift: bool)
    requires Deciding(s) && BetPhase(s, s.actingSeat.value, cmd).error == Ok
    ensures var t := Played(s, cmd);
            var a := s.actingSeat.value;
            && t.street == s.street && t.seats == s.seats[a := Some(q)]
            && IsParticipant(q) && q.stack <= s.seats[a].value.stack
            && q.id == s.seats[a].value.id && q.seat == s.seats[a].value.seat
            && (if lift then q.stack < s.seats[a].value.stack else t.pending == s.pending - {q.id})
  {
    var target;
    lift, q, target := ActionKinds(s, s.actingSeat.value, cmd);
  }

  lemma PlayedFalls(s: State, t: State, a: nat, q: Player, lift: bool)
    requires Deciding(s) && a == s.actingSeat.value && SetsOk(t) && t.street == s.street
    requires t.seats == s.seats[a := Some(q)] && IsParticipant(q) && q.stack <= s.seats[a].value.stack
    requires q.id == s.seats[a].value.id && q.seat == s.seats[a].value.seat
    requires if lift then q.stack < s.seats[a].value.stack else t.pending == s.pending - {q.id}
    ensures Measure(t) < Measure(s)
  {
    MeasureFalls(s, t, a, q);
  }

  lemma StreetMeasure(s: State)
    requires InHand(s) && s.street != River && CanAdvance(s)
    ensures var t := AdvanceStreet(s);
            Measure(t) <= Measure(s) && Measure(t.(pending := {}, actingSeat := None)) <= Measure(s)
  {
    var t := AdvanceStreet(s);
    ClearStreetKeeps(s.seats);
    PendingBound(t);
    assert Behind(t.seats) == Behind(s.seats);
    FewerStreets(s, t);
    FewerStreets(s, t.(pending := {}, actingSeat := None));
  }

  /** One street fewer to come outweighs everybody's decision. */
  lemma FewerStreets(s: State, t: State)
    requires |Participants(t.seats)| == |Participants(s.seats)| && Behind(t.seats) == Behind(s.seats)
    requires StreetsLeft(t.street) < StreetsLeft(s.street) && |t.pending| <= |Participants(t.seats)|
    ensures Measure(t) <= Measure(s)
  {
    ScaleDown(|Participants(s.seats)|, Sum(Behind(t.seats)) + StreetsLeft(t.street),
              Sum(Behind(s.seats)) + StreetsLeft(s.street));
  }

  lemma ActorIrrelevant(s: State, t: State)
    requires t == s.(actingSeat := t.actingSeat)
    ensures Measure(t) == Measure(s)
  {}

  lemma {:induction false} AdvanceMeasure(s: State)
    requires InHand(s) && CanAdvance(s)
    ensures Advance(s).street == Settled || Measure(Advance(s)) <= Measure(s)
    decreases StreetsLeft(s.street)
  {
    if |Contenders(s.seats)| <= 1 {
      assert Advance(s).street == Settled;
    } else if !RoundComplete(s) {
      ActorIrrelevant(s, Advance(s));
    } else if s.street == River {
      assert Advance(s).street == Settled;
    } else {
      RunOutMeasure(s);
    }
  }

  lemma {:induction false} RunOutMeasure(s: State)
    requires InHand(s) && CanAdvance(s) && RoundComplete(s) && |Contenders(s.seats)| >= 2 && s.street != River
    ensures Advance(s).street == Settled || Measure(Advance(s)) <= Measure(s)
    decreases StreetsLeft(s.street), 0
  {
    StreetMeasure(s);
    AdvanceStreetMidHand(s);
    ClearStreetKeeps(s.seats);
    var t := AdvanceStreet(s);
    if |Able(t.seats)| <= 1 {
      var u := t.(pending := {}, actingSeat := None);
      assert Advance(s) == Advance(u);
      AdvanceMeasure(u);
    } else {
      ActorIrrelevant(t, Advance(s));
    }
  }

  lemma ContinueMeasure(s: State, from: nat)
    requires InHand(s) && CanAdvance(s) && from < |s.seats|
    ensures Continue(s, from).street == Settled || Measure(Continue(s, from)) <= Measure(s)
  {
    if |Contenders(s.seats)| <= 1 {
      assert Continue(s, from).street == Settled;
    } else if RoundComplete(s) {
      var u := s.(actingSeat := None);
      ActorIrrelevant(s, u);
      assert InHand(u) && CanAdvance(u);
      AdvanceMeasure(u);
    } else {
      ActorIrrelevant(s, Continue(s, from));
    }
  }

  /** An accepted action that does not settle the hand lowers the measure. */
  lemma ActDecreases(s: State, cmd: ActionCommand)
    requires Deciding(s) && Act(s, cmd).result.error == Ok && Deciding(Act(s, cmd).state)
    ensures Measure(Act(s, cmd).state) < Measure(s)
  {
    ActCases(s, cmd);
    PlayedMidHand(s, cmd);
    PlayedDecreases(s, cmd);
    ContinueMeasure(Played(s, cmd), s.actingSeat.value);
  }

  lemma MeasurePositive(s: State)
    requires Deciding(s)
    ensures Measure(s) >= 1
  {
    BehindNonNegative(s);
    var id := s.seats[s.actingSeat.value].value.id;
    SubsetSize({id}, s.pending);
    MeasureAtLeast(s);
  }

  lemma MeasureAtLeast(s: State)
    requires Sum(Behind(s.seats)) >= 0
    ensures Measure(s) >= |s.pending|
  {
    TimesNonNegative(|Participants(s.seats)|, Sum(Behind(s.seats)) + StreetsLeft(s.street));
  }

  lemma QuietMeasure(s: State, t: State)
    requires Quiet(s, t) && InHand(s)
    ensures Measure(t) == Measure(s)
  {
    QuietGroups(s, t);
    assert Behind(t.seats) == Behind(s.seats);
  }

  /** Accepted actions of the hand in progress, up to the first moment it is over. */
  ghost function ActionsTaken(s: State, ops: seq<Op>): nat
    requires Inv(s)
    decreases ops
  {
    if ops == [] || !Deciding(s) then 0
    else
      StepInv(s, ops[0]);
      var r := Step(s, ops[0]);
      (if ops[0].Play? && r.error == Ok then 1 else 0) + ActionsTaken(r.state, ops[1..])
  }

  /** Operations other than actions leave the hand's measure alone, or end the hand. */
  lemma OtherMeasure(s: State, op: Op)
    requires Deciding(s) && !op.Play?
    ensures Deciding(Step(s, op).state) ==> Measure(Step(s, op).state) == Measure(s)
  {
    if Step(s, op).error != Ok {
      StepInv(s, op);
    } else if !op.Abort? {
      SeatingQuiet(s, op);
      QuietMeasure(s, Step(s, op).state);
    }
  }

  lemma {:induction false} ActionsBounded(s: State, ops: seq<Op>)
    requires Deciding(s)
    ensures ActionsTaken(s, ops) <= Measure(s)
    decreases ops
  {
    MeasurePositive(s);
    if ops != [] {
      StepInv(s, ops[0]);
      var t := Step(s, ops[0]).state;
      if Deciding(t) {
        ActionsBounded(t, ops[1..]);
        ActionsStep(s, ops[0]);
      }
    }
  }

  lemma ActionsStep(s: State, op: Op)
    requires Deciding(s) && Deciding(Step(s, op).state)
    ensures Measure(Step(s, op).state) + (if op.Play? && Step(s, op).error == Ok then 1 else 0) <= Measure(s)
  {
    if op.Play? {
      ActProgress(s, op.cmd);
      if Step(s, op).error == Ok {
        ActDecreases(s, op.cmd);
      }
    } else {
      OtherMeasure(s, op);
    }
  }

  /**
   Every hand ends: with n players dealt in and S chips behind, at most n * (S + 4)
   further actions are accepted, whatever the operations are.
   */
  lemma HandEnds(s: State, ops: seq<Op>)
    requires Deciding(s)
    ensures ActionsTaken(s, ops) <= |Participants(s.seats)| * (Sum(Behind(s.seats)) + 4)
  {
    ActionsBounded(s, ops);
    PendingBound(s);
    MeasureAtMost(s);
  }

  lemma MeasureAtMost(s: State)
    requires |s.pending| <= |Participants(s.seats)|
    ensures Measure(s) <= |Participants(s.seats)| * (Sum(Behind(s.seats)) + 4)
  {
    MeasureBelow(|Participants(s.seats)|, Sum(Behind(s.seats)), StreetsLeft(s.street), |s.pending|);
  }

  lemma MeasureBelow(n: nat, behind: int, streets: nat, pending: nat)
    requires streets <= 3 && pending <= n
    ensures n * (behind + streets) + pending <= n * (behind + 4)
  {
    ScaleDown(n, behind + streets, behind + 3);
    Distribute(n, behind + 3, 1);
  }
}
