/** What a start of a hand leads to. */
module TableStart {
  import opened Wrappers
  import opened Sums
  import opened Cards
  import opened Clockwise
  import opened TableModel
  import opened TableInvariant

  /** The blind a seat owes, before anything is posted. */
  function Owed(c: Config, at: Positions, i: nat): int {
    if i == at.big then c.bigBlind else if i == at.small then c.smallBlind else 0
  }

  /** What a ready seat puts in: its blind, or its whole stack if that is less. */
  ghost function Posts(s: State, at: Positions, i: nat): int
    requires Taken(s.seats, i)
  {
    Min(Owed(s.config, at, i), s.seats[i].value.stack)
  }

  /** The bet the blinds make. */
  ghost function BlindBet(s: State, at: Positions): int
    requires Taken(s.seats, at.small) && Taken(s.seats, at.big)
  {
    Max(Posts(s, at, at.small), Posts(s, at, at.big))
  }

  /** `t` is the table `s` with a hand dealt and the blinds posted. */
  ghost predicate IsOpening(s: State, t: State, at: Positions) {
    && SeatsOk(s) && ConfigOk(s.config)
    && 2 <= |ReadySeats(s.seats)| <= 6
    && {at.dealer, at.small, at.big} <= ReadySeats(s.seats) && at.small != at.big
    && |t.seats| == |s.seats|
    && (forall i :: 0 <= i < |s.seats| ==>
          && (t.seats[i].Some? <==> s.seats[i].Some?)
          && (t.seats[i].Some? ==> OpenedPlayer(s.seats[i].value, t.seats[i].value))
          && (t.seats[i].Some? && IsReady(s.seats[i].value) ==> t.seats[i].value.streetCommitment == Posts(s, at, i)))
    && t.config == s.config && t.street == Preflop && t.dealerSeat == Some(at.dealer)
    && t.currentBet == BlindBet(s, at) && t.minimumRaise == s.config.bigBlind
    && t.board == [] && t.lastAwards == []
    && t.deck.Some? && |t.deck.value.cards| == 52 && t.deck.value.next == 2 * |ReadySeats(s.seats)|
  }

  lemma TwoReady(ready: set<nat>, n: nat, sb: nat)
    requires |ready| >= 2 && sb in ready && forall i :: i in ready ==> i < n
    ensures Next(ready, n, sb) != Some(sb)
  {
    if forall i :: i in ready ==> i == sb {
      SubsetSize(ready, {sb});
    }
    var other :| other in ready && other != sb;
    NextNearest(ready, n, sb, other);
    assert Distance(n, sb, other) < n == Distance(n, sb, sb);
  }

  lemma BlindsDiffer(s: State)
    requires SeatsOk(s) && |ReadySeats(s.seats)| >= 2
    ensures PositionsOf(s).small != PositionsOf(s).big
  {
    TwoReady(ReadySeats(s.seats), |s.seats|, PositionsOf(s).small);
  }

  lemma BlindedPosts(s: State, dealt: Seats, at: Positions)
    requires ConfigOk(s.config) && |dealt| == |s.seats|
    requires Taken(dealt, at.small) && Taken(dealt, at.big) && at.small != at.big
    requires forall i :: 0 <= i < |dealt| ==>
               && (dealt[i].Some? <==> s.seats[i].Some?)
               && (dealt[i].Some? ==> DealtPlayer(s.seats[i].value, dealt[i].value))
    ensures var r := BlindedSeats(dealt, at.small, at.big, s.config);
            forall i :: 0 <= i < |dealt| && r[i].Some? && IsReady(s.seats[i].value) ==>
              r[i].value.streetCommitment == Posts(s, at, i)
  {
    var r := BlindedSeats(dealt, at.small, at.big, s.config);
    forall i | 0 <= i < |dealt| && r[i].Some? && IsReady(s.seats[i].value)
      ensures r[i].value.streetCommitment == Posts(s, at, i)
    {
      assert DealtPlayer(s.seats[i].value, dealt[i].value);
    }
  }

  lemma BlindedIsOpening(s: State, dealt: Seats, t: State, at: Positions)
    requires SeatsOk(s) && ConfigOk(s.config) && 2 <= |ReadySeats(s.seats)| <= 6 && |dealt| == |s.seats|
    requires {at.dealer, at.small, at.big} <= ReadySeats(s.seats) && at.small != at.big
    requires forall i :: 0 <= i < |dealt| ==>
               && (dealt[i].Some? <==> s.seats[i].Some?)
               && (dealt[i].Some? ==> DealtPlayer(s.seats[i].value, dealt[i].value))
    requires Taken(dealt, at.small) && Taken(dealt, at.big)
    requires t.seats == BlindedSeats(dealt, at.small, at.big, s.config)
    requires t.currentBet == Max(t.seats[at.small].value.streetCommitment, t.seats[at.big].value.streetCommitment)
    requires t.config == s.config && t.street == Preflop && t.dealerSeat == Some(at.dealer)
    requires t.minimumRaise == s.config.bigBlind && t.board == [] && t.lastAwards == []
    requires t.deck.Some? && |t.deck.value.cards| == 52 && t.deck.value.next == 2 * |ReadySeats(s.seats)|
    ensures IsOpening(s, t, at)
  {
    BlindedFacts(s.seats, dealt, at.small, at.big, s.config);
    BlindedPosts(s, dealt, at);
  }

  lemma OpenedIsOpening(s: State, cards: seq<Card>)
    requires CanOpen(s, cards) && ConfigOk(s.config) && |ReadySeats(s.seats)| >= 2
    ensures IsOpening(s, Opened(s, cards), PositionsOf(s))
    ensures Opened(s, cards).pending == Opened(s, cards).raiseAllowed == AbleIds(Opened(s, cards).seats)
    ensures var t := Opened(s, cards);
            var at := PositionsOf(s);
            t.actingSeat == InitialActor(t.(actingSeat := None), at.dealer, at.big, |ReadySeats(s.seats)|)
  {
    var at := PositionsOf(s);
    BlindsDiffer(s);
    DealtSeatsFacts(s, at.dealer, cards);
    BlindedIsOpening(s, DealtSeats(s, at.dealer, cards), Opened(s, cards), at);
  }

  lemma OpeningInHand(s: State, t: State, at: Positions)
    requires IsOpening(s, t, at)
    ensures InHand(t) && t.currentBet > 0
    ensures Participants(t.seats) == Contenders(t.seats) == ReadySeats(s.seats)
  {
    SameGroups(s.seats, t.seats);
    forall i | Taken(t.seats, i)
      ensures Taken(s.seats, i) && OpenedPlayer(s.seats[i].value, t.seats[i].value)
      ensures t.seats[i].value.streetCommitment <= t.currentBet
    {}
    assert Taken(t.seats, at.small) && Taken(t.seats, at.big);
    OpeningSeatsOk(s, t, at);
  }

  lemma OpeningSeatsOk(s: State, t: State, at: Positions)
    requires IsOpening(s, t, at)
    ensures SeatsOk(t)
    ensures forall i :: Taken(t.seats, i) ==> PlayerOk(t.seats[i].value)
  {
    assert forall i :: Taken(t.seats, i) ==> Taken(s.seats, i) && OpenedPlayer(s.seats[i].value, t.seats[i].value);
  }

  /** Able after the blinds: ready, with more than the blind it owes; such a seat has posted its blind. */
  lemma AbleAfterBlinds(s: State, t: State, at: Positions, i: nat)
    requires IsOpening(s, t, at)
    ensures i in Able(t.seats) <==> i in ReadySeats(s.seats) && s.seats[i].value.stack > Owed(s.config, at, i)
    ensures i in Able(t.seats) ==> t.seats[i].value.streetCommitment == Owed(s.config, at, i)
  {
    if Taken(t.seats, i) {
      assert OpenedPlayer(s.seats[i].value, t.seats[i].value);
    }
  }

  /**
   The start position in which a hand stalls, on the stacks before the hand: seat `x`
   alone has chips beyond its blind, and its blind is not the bet the blinds make.
   */
  ghost predicate StallsOn(s: State, at: Positions, x: nat)
    requires {at.small, at.big} <= ReadySeats(s.seats)
  {
    && x in ReadySeats(s.seats)
    && (forall y :: y in ReadySeats(s.seats) ==> (s.seats[y].value.stack > Owed(s.config, at, y) <==> y == x))
    && Owed(s.config, at, x) != BlindBet(s, at)
  }

  ghost predicate StallsAtStart(s: State)
    requires SeatsOk(s) && ReadySeats(s.seats) != {}
  {
    exists x :: StallsOn(s, PositionsOf(s), x)
  }

  lemma StallsMeans(s: State, t: State, at: Positions, x: nat)
    requires IsOpening(s, t, at)
    ensures StallsOn(s, at, x) <==> Able(t.seats) == {x} && Unmatched(t, x)
  {
    forall y: nat
      ensures y in Able(t.seats) <==> y in ReadySeats(s.seats) && s.seats[y].value.stack > Owed(s.config, at, y)
      ensures y in Able(t.seats) ==> t.seats[y].value.streetCommitment == Owed(s.config, at, y)
    {
      AbleAfterBlinds(s, t, at, y);
    }
    if Able(t.seats) == {x} {
      assert x in Able(t.seats);
    }
    if StallsOn(s, at, x) {
      assert x in Able(t.seats);
      assert Able(t.seats) == {x};
    }
  }

  lemma OpeningSets(s: State, t: State, at: Positions)
    requires IsOpening(s, t, at) && t.pending == t.raiseAllowed == AbleIds(t.seats)
    ensures MidHand(t)
  {
    OpeningInHand(s, t, at);
    forall j | Unmatched(t, j)
      ensures t.seats[j].value.id in t.pending
    {
      assert j in Able(t.seats);
    }
  }

  lemma OpeningDeciding(s: State, t: State, at: Positions)
    requires IsOpening(s, t, at) && t.pending == t.raiseAllowed == AbleIds(t.seats)
    requires t.actingSeat == InitialActor(t.(actingSeat := None), at.dealer, at.big, |ReadySeats(s.seats)|)
    requires |Able(t.seats)| >= 2
    ensures Deciding(t)
  {
    OpeningSets(s, t, at);
    OpeningInHand(s, t, at);
    AbleDeciders(t);
    assert Deciders(t.(actingSeat := None)) == Deciders(t);
  }

  /** With nobody to ask and somebody behind the bet, running the hand on changes nothing. */
  lemma StalledStart(s: State, t: State, at: Positions)
    requires IsOpening(s, t, at) && |Able(t.seats)| <= 1 && t.pending == {} && t.actingSeat.None?
    requires !RoundComplete(t) && CanAdvance(t)
    ensures Advance(t) == t && Stuck(t)
    ensures exists x :: StallsOn(s, at, x)
  {
    OpeningInHand(s, t, at);
    assert Deciders(t) == {};
    var x :| Unmatched(t, x);
    assert x in Able(t.seats);
    SubsetSize({x}, Able(t.seats));
    assert Able(t.seats) == {x};
    StallsMeans(s, t, at, x);
  }

  lemma NotStalled(s: State, t: State, at: Positions)
    requires IsOpening(s, t, at) && (|Able(t.seats)| >= 2 || RoundComplete(t))
    ensures forall x :: !StallsOn(s, at, x)
  {
    OpeningInHand(s, t, at);
    forall x: nat
      ensures !StallsOn(s, at, x)
    {
      StallsMeans(s, t, at, x);
    }
  }

  /**
   The outcome of an accepted start: the hand stalls exactly in the position above; otherwise
   somebody who can act is asked to, or the hand has already been run out and settled.
   */
  lemma StartProgress(s: State, cards: seq<Card>)
    requires Resting(s) && StartHand(s, cards).error == Ok
    ensures ReadySeats(s.seats) != {}
    ensures var t := StartHand(s, cards).state;
            if StallsAtStart(s) then Stuck(t)
            else Deciding(t) || (Resting(t) && t.street == Settled)
  {
    EnoughCanOpen(s, cards);
    var t := BeginIsBegun(s, cards);
    BegunProgress(s, t, PositionsOf(s), Begin(s, cards));
  }

  /** `r` is what the opened table `t` becomes: itself, or run on when at most one player can act. */
  ghost predicate IsBegun(s: State, t: State, at: Positions, r: State) {
    && IsOpening(s, t, at)
    && if |Able(t.seats)| <= 1 then t.pending == {} && t.actingSeat.None? && CanAdvance(t) && r == Advance(t)
       else
         && t.pending == t.raiseAllowed == AbleIds(t.seats)
         && t.actingSeat == InitialActor(t.(actingSeat := None), at.dealer, at.big, |ReadySeats(s.seats)|)
         && r == t
  }

  lemma BeginIsBegun(s: State, cards: seq<Card>) returns (t: State)
    requires CanOpen(s, cards) && ConfigOk(s.config) && |ReadySeats(s.seats)| >= 2
    ensures IsBegun(s, t, PositionsOf(s), Begin(s, cards))
    ensures t == Opened(s, cards).(pending := t.pending, actingSeat := t.actingSeat)
  {
    t := Opened(s, cards);
    OpenedIsOpening(s, cards);
    OpenedCanAdvance(s, cards);
    if |Able(t.seats)| <= 1 {
      t := t.(pending := {}, actingSeat := None);
    }
  }

  lemma BegunProgress(s: State, t: State, at: Positions, r: State)
    requires IsBegun(s, t, at, r)
    ensures if exists x :: StallsOn(s, at, x) then Stuck(r)
            else Deciding(r) || (Resting(r) && r.street == Settled)
  {
    if |Able(t.seats)| <= 1 {
      RunOnProgress(s, t, at);
    } else {
      OpeningDeciding(s, t, at);
      NotStalled(s, t, at);
    }
  }

  lemma RunOnProgress(s: State, t: State, at: Positions)
    requires IsOpening(s, t, at) && |Able(t.seats)| <= 1 && t.pending == {} && t.actingSeat.None? && CanAdvance(t)
    ensures if exists x :: StallsOn(s, at, x) then Stuck(Advance(t))
            else Deciding(Advance(t)) || (Resting(Advance(t)) && Advance(t).street == Settled)
  {
    if RoundComplete(t) {
      OpeningInHand(s, t, at);
      NotStalled(s, t, at);
      AdvanceProgress(t);
    } else {
      StalledStart(s, t, at);
    }
  }

  // ---------- starts that settle the hand ----------

  /** The ready seats with chips beyond the blind they owe. */
  ghost function ChipsBeyondBlinds(s: State): set<nat>
    requires SeatsOk(s) && ReadySeats(s.seats) != {}
  {
    set y | y in ReadySeats(s.seats) && s.seats[y].value.stack > Owed(s.config, PositionsOf(s), y)
  }

  /** The start position in which a hand settles itself, on the stacks before the hand. */
  ghost predicate SettlesAtStart(s: State)
    requires SeatsOk(s) && ReadySeats(s.seats) != {}
  {
    |ChipsBeyondBlinds(s)| <= 1 && !StallsAtStart(s)
  }

  lemma AbleHaveChips(s: State, t: State)
    requires SeatsOk(s) && ReadySeats(s.seats) != {} && IsOpening(s, t, PositionsOf(s))
    ensures Able(t.seats) == ChipsBeyondBlinds(s)
  {
    forall y: nat
      ensures y in Able(t.seats) <==> y in ChipsBeyondBlinds(s)
    {
      AbleAfterBlinds(s, t, PositionsOf(s), y);
    }
  }

  lemma BegunSettlesIff(s: State, t: State, at: Positions, r: State)
    requires IsBegun(s, t, at, r)
    ensures r.street == Settled <==> |Able(t.seats)| <= 1 && forall x :: !StallsOn(s, at, x)
  {
    OpeningInHand(s, t, at);
    if |Able(t.seats)| <= 1 {
      if RoundComplete(t) {
        NotStalled(s, t, at);
        FewAbleSettles(t);
      } else {
        StalledStart(s, t, at);
      }
    }
  }

  /**
   An accepted start settles the hand if and only if at most one ready player has chips
   beyond the blind owed and the hand does not stall.
   */
  lemma StartSettlesIff(s: State, cards: seq<Card>)
    requires Resting(s) && StartHand(s, cards).error == Ok
    ensures ReadySeats(s.seats) != {}
    ensures StartHand(s, cards).state.street == Settled <==> SettlesAtStart(s)
  {
    EnoughCanOpen(s, cards);
    var t := BeginIsBegun(s, cards);
    AbleHaveChips(s, t);
    BegunSettlesIff(s, t, PositionsOf(s), Begin(s, cards));
  }

  // ---------- heads-up ----------

  lemma HeadsUpSeats(s: State)
    requires SeatsOk(s) && |ReadySeats(s.seats)| == 2
    ensures var at := PositionsOf(s);
            at.small == at.dealer != at.big && ReadySeats(s.seats) == {at.dealer, at.big}
  {
    var at := PositionsOf(s);
    BlindsDiffer(s);
    SubsetSize({at.dealer, at.big}, ReadySeats(s.seats));
  }

  lemma HeadsUpStalls(s: State)
    requires SeatsOk(s) && ConfigOk(s.config) && |ReadySeats(s.seats)| == 2
    ensures var at := PositionsOf(s);
            StallsAtStart(s) <==>
            && s.seats[at.dealer].value.stack > s.config.smallBlind
            && s.config.smallBlind < s.seats[at.big].value.stack <= s.config.bigBlind
  {
    var at := PositionsOf(s);
    HeadsUpSeats(s);
    if s.seats[at.dealer].value.stack > s.config.smallBlind
       && s.config.smallBlind < s.seats[at.big].value.stack <= s.config.bigBlind {
      assert StallsOn(s, at, at.dealer);
    }
  }

  lemma HeadsUpChips(s: State)
    requires SeatsOk(s) && ConfigOk(s.config) && |ReadySeats(s.seats)| == 2
    ensures var at := PositionsOf(s);
            |ChipsBeyondBlinds(s)| <= 1 <==>
            s.seats[at.dealer].value.stack <= s.config.smallBlind || s.seats[at.big].value.stack <= s.config.bigBlind
  {
    var at := PositionsOf(s);
    var able := ChipsBeyondBlinds(s);
    HeadsUpSeats(s);
    if at.dealer in able && at.big in able {
      assert able == {at.dealer, at.big};
    } else {
      SubsetSize(able, if at.dealer in able then {at.dealer} else {at.big});
    }
  }

  /**
   Two players: the hand stalls iff the dealer has more than the small blind and the other
   player more than the small but no more than the big blind; it settles at once iff one of
   them has no more than the small blind; otherwise it is played.
   */
  lemma HeadsUpStart(s: State, cards: seq<Card>)
    requires Resting(s) && |ReadySeats(s.seats)| == 2 && StartHand(s, cards).error == Ok
    ensures var at := PositionsOf(s);
            var dealer, other := s.seats[at.dealer].value.stack, s.seats[at.big].value.stack;
            var t := StartHand(s, cards).state;
            && (Stuck(t) <==> dealer > s.config.smallBlind && s.config.smallBlind < other <= s.config.bigBlind)
            && (t.street == Settled <==> dealer <= s.config.smallBlind || other <= s.config.smallBlind)
            && (Deciding(t) <==> dealer > s.config.smallBlind && other > s.config.bigBlind)
  {
    StartProgress(s, cards);
    StartSettlesIff(s, cards);
    HeadsUpStalls(s);
    HeadsUpChips(s);
  }
}
