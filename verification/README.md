# A verified model of the poker server's core

The server deals no-limit Texas hold'em to tables of two to six seats, keeps the players' money in an
escrow, and talks to clients over length-prefixed frames with idempotent requests. This project models
the parts in which a mistake costs chips or leaks cards, and proves what they do:

- the **table** (`src/poker/domain/table.cpp`): seating, blinds, six betting actions, streets, side pots,
  settlement, abort and snapshots;
- the **deck** and the **hand evaluator**;
- the **game store** (`src/poker/storage/in_memory_game_store.cpp`) and the validation of settlements;
- the **bridge** that turns a table snapshot into the store's records (`apps/server/protocol_service.cpp`,
  lines 80-153);
- the **frame decoder** and the **idempotency cache**.

## How it is built

Each stateful component appears twice. A `...Model` module describes it as a value: a `State`, and one
function per operation that says what the operation does to it. A class with the source's fields and
loops (`HoldemTable.Table`, `GameStores.GameStore`, `Decks.Deck`,
`LengthFieldCodecs.LengthFieldCodec`, `IdempotencyCaches.IdempotencyCache`) is proved to do exactly that. The theorems
about runs are lemmas over the value; they say what an operation does without naming the function
that models it.

| files | content |
|---|---|
| `Sums`, `Wrappers`, `Cards`, `HandValues`, `Clockwise` | sums, cards, order of hand values, seats in clockwise order |
| `HandEvaluator`, `BestHand`, `HandOrder`, `Decks`, `Pots` | evaluation of five and of five to seven cards, which hand beats which, shuffling, side pots |
| `TableModel`, `TableInvariant`, `TableStart` | the table as a value, its invariant, what a start leads to |
| `TableAccounting`, `TableRuns`, `TableTermination`, `TableRaises`, `TableUndo`, `TableCards`, `TableSettled`, `TableReversal`, `TableBounds`, `TableFolds`, `TableSecrecy`, `TableTraps` | the theorems about hands and runs |
| `TableTurns`, `TableButton`, `TableBets`, `TableSeating`, `Showdowns`, `TableReveals` | whose turn it is, button and blinds, which actions are legal and what they cost, coming and going, who wins, what a settled hand shows |
| `TableViews`, `TableLoops`, `TablePots`, `TableDeal`, `TableAbort`, `Table` | the table as an object, loop by loop |
| `StoreModel`, `StoreEscrow`, `StoreAccounts`, `GameStore` | the escrow as a value, its theorems in all and player by player, the store as an object |
| `HandRecords`, `SettlementBridge` | the records of a hand and what the store makes of them |
| `CodecModel`, `LengthFieldCodec`, `CacheModel`, `IdempotencyCache` | decoder and cache, as value and as object |

`dafny verify dfyconfig.toml` checks everything.

## Where the code does not do what one would expect

The code is modelled as it is. Where a natural promise is false of it, there is a run from a new table
that breaks the promise, and the exact condition under which it holds.

- **Chips can leave the table at a showdown.** A side-pot layer whose contributors have all folded is
  skipped (`src/poker/domain/table.cpp`, lines 777-779). `docs/state-machine.md`, line 33, promises
  conservation; `TableTraps.ChipsLost` is a run in which 5 of 108 chips vanish, and
  `TableTraps.NothingLostIff` says when nothing does: exactly when every commitment is matched by a player
  who did not fold. `TableFolds.ChipsConserved` gives a rule players can follow: in a run in which nobody
  folds who could check, nothing is ever lost. `TableRuns.TableAccounts` accounts for the loss in every
  run. The store refuses the settlement of such a hand (`SettlementBridge.HandStored`).
- **A hand can start with nobody to act.** `TableStart.StartProgress` gives the exact condition on the
  stacks before the hand, `TableStart.HeadsUpStart` what it comes to for two players, and
  `TableTraps.StallReached` a run. Such a hand stays as it is until it is aborted
  (`TableRuns.StuckForever`).
- **An abort of a settled hand restores neither the total nor the stacks once players have come and
  gone.** In `TableTraps.AbortOverdraws` the winner leaves, returns with a small stack and ends with -5
  chips, and the table loses 10. `TableReversal.AbortAfterDepartures` says what the abort does to the
  total after any coming and going, when it keeps the total, and when it leaves no stack negative.
- **A start record made after the hand has settled itself** shows the stacks before the hand plus the
  winnings, and is refused: `SettlementBridge.StartStoredIff`, with the condition on the stacks before
  the hand (`TableStart.StartSettlesIff`) and a run (`TableTraps.SettledByStart`).

## Model

| member | source | states |
|---|---|---|
| `TableRuns.TableAccounts` | src/poker/domain/table.cpp:31-387 | over every run from a new table, the chips on the table are those brought, less those carried away, less those dropped at showdowns, less what aborts of settled hands took off; no stack is ever negative iff every such abort finds the awards still on the table |
| `TableRuns.RunAccounting` | src/poker/domain/table.cpp:31-458 | the same balance from any reachable state |
| `TableRuns.StepAccounting` | src/poker/domain/table.cpp:31-387 | one operation of any kind balances, and makes no stack negative iff it is not the abort of a settled hand whose awards have left |
| `TableRuns.SettledAbortAccounting` | src/poker/domain/table.cpp:118-139 | aborting a settled hand changes the total by the commitments less the awards of those seated, and leaves no stack negative iff everybody seated can give back the awards |
| `TableRuns.RunStacks` | src/poker/domain/table.cpp:31-387 | no stack is negative anywhere in a run iff every abort of a settled hand in it is repayable |
| `TableRuns.StepInv` | src/poker/domain/table.cpp:31-387 | every operation keeps the invariant (resting, somebody to act, or stalled), and a refused operation changes nothing |
| `TableInvariant.NewTableInv` | src/poker/domain/table.cpp:18-20 | a new table satisfies the invariant |
| `TableInvariant.ActProgress` | src/poker/domain/table.cpp:241-387 | an action is refused without effect, or settles the hand, or leaves an acting seat whose player can act and owes a decision |
| `TableInvariant.ActionKinds` | src/poker/domain/table.cpp:269-366 | every accepted action either settles for the current bet or lifts it within the stack, by a full raise unless all-in, and only with the right to raise |
| `TableInvariant.AdvanceProgress` | src/poker/domain/table.cpp:629-700 | running streets from a finished round ends, with the hand settled or with a player to act |
| `TableInvariant.FewAbleSettles` | src/poker/domain/table.cpp:629-664 | when at most one player can act, a finished round runs the board out and settles the hand |
| `TableStart.StartProgress` | src/poker/domain/table.cpp:153-239 | an accepted start stalls if and only if exactly one ready player has more than the blind owed and that blind is not the bet; otherwise somebody acts or the hand is settled |
| `TableStart.StallsMeans` | src/poker/domain/table.cpp:219-237 | the condition on the stacks before the hand is the condition on the table after the blinds |
| `TableStart.AbleAfterBlinds` | src/poker/domain/table.cpp:207-217 | who can act after the blinds, from the stacks before them |
| `TableStart.StartSettlesIff` | src/poker/domain/table.cpp:219-237 | an accepted start settles the hand iff at most one ready player has chips beyond the blind owed and the hand does not stall |
| `TableStart.HeadsUpStart` | src/poker/domain/table.cpp:153-239 | two players: stalls iff the dealer has more than the small and the other more than the small but at most the big blind; settles at once iff either has at most the small blind; else is played |
| `TableButton.ButtonMoves` | src/poker/domain/table.cpp:200-205 | the button goes clockwise to the first ready player after its old seat, or to the lowest ready seat when it had none |
| `TableButton.ButtonLeaves` | src/poker/domain/table.cpp:200-205 | the button moves whenever another player is ready |
| `TableButton.ButtonGoesRound` | src/poker/domain/table.cpp:200-205 | while the same players play on, any as many hands as players give each of them the button exactly once |
| `TableButton.BlindsAndFirstActor` | src/poker/domain/table.cpp:209-226 | where the blinds and the first actor sit relative to the button, and that everybody has put in exactly the blind owed or the whole stack |
| `TableButton.DealtClockwise` | src/poker/domain/table.cpp:530-543 | with m players, whoever is served after k others clockwise from the dealer's left holds cards k and m+k |
| `TableButton.RunNumbers` | src/poker/domain/table.cpp:182-192 | the hand number counts the hands started and the sequence never falls |
| `TableButton.StepNumbers` | src/poker/domain/table.cpp:31-387 | every accepted operation raises the sequence and no refused one does |
| `TableButton.ActReports` | src/poker/domain/table.cpp:368-387 | the answer to an action carries the new sequence, the street it was taken on and the awards of a settled hand |
| `TableRuns.StuckRefuses` | src/poker/domain/table.cpp:241-267 | a stalled hand refuses every action |
| `TableRuns.StuckForever` | src/poker/domain/table.cpp:233-237 | through any operations other than an abort a stalled hand stays stalled |
| `TableRuns.FoldAccepted` | src/poker/domain/table.cpp:268-273 | the player to act can always fold, so a hand with an actor never blocks |
| `TableSeating.SitIff` | src/poker/domain/table.cpp:31-58 | who may sit where with what buy-in |
| `TableSeating.SitSeats` | src/poker/domain/table.cpp:50-58 | a newcomer holds the buy-in, is in no hand, and nobody else changes |
| `TableSeating.SitRefused` | src/poker/domain/table.cpp:31-49 | every refusal of a seat names a reason that holds |
| `TableSeating.LeaveIff` | src/poker/domain/table.cpp:60-74 | who may leave, what it changes, and when the button is given up |
| `TableSeating.ReadyIff` | src/poker/domain/table.cpp:76-90 | who may get ready, and that nothing else changes |
| `TableSeating.ConnectAlways` | src/poker/domain/table.cpp:92-100 | connections change at any time and change nothing else |
| `TableSeating.StartIff` | src/poker/domain/table.cpp:106-169 | a hand starts iff there are 52 different cards, no hand in progress and enough ready players; refusals are true |
| `TableSeating.AbortClears` | src/poker/domain/table.cpp:127-150 | after an abort everybody is out of any hand and not ready, and button and hand number stay |
| `TableTraps.ChipsLost` | src/poker/domain/table.cpp:751-808 | with any cards, stacks 3, 5 and 100 at blinds 5/10 lead from a new table to a settled hand that lost 5 of 108 chips |
| `TableTraps.StallReached` | src/poker/domain/table.cpp:219-237 | stacks of 100 and 8 lead from a new table to a hand that is stalled and stays so until aborted |
| `TableTraps.SettledByStart` | src/poker/domain/table.cpp:228-237 | stacks of 5 and 100 lead from a new table to a start that settles the hand |
| `TableTraps.AbortOverdraws` | src/poker/domain/table.cpp:114-151 | from a new table: the winner leaves, returns with 10 chips, the settled hand is aborted, and the winner holds -5 while the total falls from 105 to 95 |
| `TableTraps.NothingLostIff` | src/poker/domain/table.cpp:763-783 | a showdown drops nothing if and only if every commitment is matched by a player who did not fold |
| `TableTermination.HandEnds` | src/poker/domain/table.cpp:241-387 | with n players and S chips behind, at most n(S+4) further actions are accepted, whatever the operations |
| `TableTermination.ActDecreases` | src/poker/domain/table.cpp:241-387 | n(chips behind + streets left) + decisions owed strictly falls with every accepted action that does not settle the hand |
| `TableTermination.ActionsBounded` | src/poker/domain/table.cpp:241-387 | that measure bounds the accepted actions of every run |
| `TableTurns.TurnPasses` | src/poker/domain/table.cpp:368-381 | after an accepted action it is the turn of the first seat clockwise that can act and owes a decision: from the actor on the same street, from the dealer on a new one, where everybody able owes one |
| `TableTurns.TurnsOverHistory` | src/poker/domain/table.cpp:503-519 | at every moment of every hand the turn is at the first seat that owes a decision, clockwise from the last player to lift the bet on this street, else from the dealer, before the flop from the big blind |
| `TableTurns.OneTurn` | src/poker/domain/table.cpp:503-512 | until the bet is lifted or the street ends, play goes once round the table: no seat acts twice and all act in clockwise order |
| `TableTurns.StreetEndsAnswered` | src/poker/domain/table.cpp:610-664 | a street ends, with the hand contested, only when every other player who can act has matched the bet and acted since the street began or was last raised in full |
| `TableBets.AcceptedIffLegal` | src/poker/domain/table.cpp:241-366 | an action is accepted iff it is that player's turn and it is legal by stack, bet, least raise and right to raise |
| `TableBets.ActPays` | src/poker/domain/table.cpp:257-381 | whatever follows it, an accepted action has cost the actor exactly its price, set the actor's standing, and touched nobody else's |
| `TableBets.WhoOwes` | src/poker/domain/table.cpp:582-608 | after a full raise everybody else able owes an answer; otherwise those who owed one before or are behind the bet; the actor owes none |
| `TableBets.MinimumRaiseOverHistory` | src/poker/domain/table.cpp:290-365 | the least full raise is at every moment the largest lift of the bet on this street, or the big blind |
| `TableBets.RefusalsTrue` | src/poker/domain/table.cpp:241-366 | every refusal of an action names a reason that holds |
| `TableRaises.RaiseRightsOverHistory` | src/poker/domain/table.cpp:582-608 | throughout a hand the players allowed to raise are exactly those able who have not acted since the last street start or full raise |
| `TableRaises.LiftsAtMostOnce` | src/poker/domain/table.cpp:290-365 | at any point of any hand, from a full raise on or from anywhere else until the betting is next reopened, each player lifts the bet at most once |
| `TableRaises.LiftNeedsRight` | src/poker/domain/table.cpp:290-365 | whoever lifts the bet had the right to raise |
| `TableRaises.ShortRaiseReopensNothing` | src/poker/domain/table.cpp:587-608 | within a street the minimum raise never falls nor is below the big blind, and a short all-in gives nobody a right to raise |
| `TableUndo.AbortUndoes` | src/poker/domain/table.cpp:114-151 | from any running or settled point of a hand, abort returns everyone who kept the seat to the stack held before the hand |
| `TableUndo.RunStake` | src/poker/domain/table.cpp:241-387 | what a seated player has at stake in a hand is the same in every state of the hand |
| `TableReversal.AbortAfterDepartures` | src/poker/domain/table.cpp:114-151 | after any coming and going at a settled table, the abort adds the dropped chips and what leavers won, and takes what leavers committed and returners won; it keeps the total iff these balance, and leaves no stack negative iff every newcomer holds what the hand paid under the same id |
| `TableReversal.AbortAtOnce` | src/poker/domain/table.cpp:114-151 | aborted before anybody moves, a settled hand gives back exactly the chips it dropped |
| `TableReversal.PlayedHandReverts` | src/poker/domain/table.cpp:114-151 | so it is after every hand, however it was played |
| `TableBounds.TableWithin` | src/poker/domain/table.cpp:31-387 | over every run whose aborts of settled hands are repayable, every stack, commitment, bet, pot and award lies between zero and the chips that came in, so none overflows while those fit |
| `TableBounds.TableWithinBuyIns` | src/poker/domain/table.cpp:31-387 | without aborts of settled hands that bound is the sum of the buy-ins |
| `TableFolds.ChipsConserved` | src/poker/domain/table.cpp:269-387 | in every run from a new table in which nobody folds who could check, no showdown drops a chip |
| `TableFolds.StepLevel` | src/poker/domain/table.cpp:269-387 | each operation keeps somebody in the hand who has put in as much as anybody, unless a player who could check folds |
| `TableAccounting.ShowdownPays` | src/poker/domain/table.cpp:737-808 | a showdown pays out everything committed less what is dropped, never a negative amount |
| `TableAccounting.FoldPays` | src/poker/domain/table.cpp:714-735 | after a fold win the last player gets the whole pot and nobody else anything |
| `TableAccounting.AwardedById` | src/poker/domain/table.cpp:784-806 | paying by player id is paying by seat |
| `TableAccounting.AbortAccounting` | src/poker/domain/table.cpp:114-151 | the total after an abort, from stacks, commitments and awards |
| `TableSettled.PlayedHandSettles` | src/poker/domain/table.cpp:153-387 | however a hand is played, at its settlement each stack is the stack before the hand, less the commitment, plus the awards; the awards add up to the pot less what was dropped |
| `TableSettled.SettledFacts` | src/poker/domain/table.cpp:714-749 | a hand just settled changed nobody's cards, commitment or status, and paid each player exactly the award |
| `TableCards.CardsThroughoutHand` | src/poker/domain/table.cpp:488-543 | in every state of a hand each participant holds the two cards dealt clockwise, and board and deck position are those of the street |
| `TableCards.CardsPartition` | src/poker/domain/table.cpp:666-712 | hole cards, board, burns and undealt cards are the 52 cards, each once, and at most 20 are used |
| `TableSecrecy.HandsLookAlike` | src/poker/domain/table.cpp:389-429 | two hands with the same commands whose decks agree on the viewer's cards and the board so far are answered and shown alike until settled |
| `TableSecrecy.TwinRun` | src/poker/domain/table.cpp:241-387 | hands that differ only in unseen cards stay so, with the same answers, through every run |
| `TableReveals.FoldedCardsStayHidden` | src/poker/domain/table.cpp:420-425 | a settled hand shows nothing of folded cards: two hands with the same commands whose decks agree on the viewer's cards, the board and the cards of those who did not fold end in the same snapshot |
| `TableViews.SnapshotTells` | src/poker/domain/table.cpp:389-429 | a snapshot lists every seated player once; it lists a player's two cards iff that player was dealt in and is the viewer, or the hand is settled and that player did not fold |
| `Pots.AwardedTotal` | src/poker/domain/table.cpp:751-808 | the pots award the sum of min(commitment, M), M the largest commitment of a player who can win |
| `Pots.DroppedBalance` | src/poker/domain/table.cpp:763-783 | awarded plus dropped is committed; nothing is dropped iff nobody committed more than M |
| `Pots.LevelPotBounded` | src/poker/domain/table.cpp:763-779 | the pot of every level, awarded or skipped, is between zero and what is committed above the level before |
| `Pots.LayersBounded` | src/poker/domain/table.cpp:751-808 | every awarded pot, and all of them together, are between zero and what is committed |
| `Pots.LayerIsUnitPots` | src/poker/domain/table.cpp:763-781 | a layer is the pots of its single chips: same contributors, same eligible seats, summed size |
| `Pots.Entitlement` | src/poker/domain/table.cpp:763-806 | a folded seat wins nothing; a seat that committed c wins at most the sum of min(c, c_j) |
| `Pots.LayerSplit` | src/poker/domain/table.cpp:784-806 | a layer is paid to its unbeaten eligible seats in equal shares, odd chips one each to the first clockwise from the dealer's left |
| `Pots.AwardedPotsAre` | src/poker/domain/table.cpp:763-806 | every awarded pot is that between two neighbouring commitments and goes to exactly the unbeaten among those in it, clockwise from the origin |
| `Pots.WinnablePotsAwarded` | src/poker/domain/table.cpp:763-806 | every level that somebody can win is awarded |
| `Showdowns.PlayedShowdown` | src/poker/domain/table.cpp:737-825 | however a contested hand was played, each of its pots goes to the unbeaten who did not fold and put in enough, odd chips to the first left of the dealer |
| `Showdowns.PlayedBetterHand` | src/poker/domain/table.cpp:784-806 | in every played hand, nobody wins a chip against somebody still in it who put in as much and can show five better cards |
| `Showdowns.PlayedFoldWin` | src/poker/domain/table.cpp:714-735 | in every played hand that all but one folded, that one is awarded the whole pot |
| `Pots.AllPotsPaid` | src/poker/domain/table.cpp:784-806 | everything in the awarded pots is paid to some seat and nothing else is |
| `Pots.PortionTotal` | src/poker/domain/table.cpp:799-804 | shares and odd chips handed out add up, whoever the winners are |
| `TablePots.BuildAndAwardPots` | src/poker/domain/table.cpp:751-808 | the loop over sorted levels credits exactly the awards of the layered pots |
| `TablePots.SortedLevels` | src/poker/domain/table.cpp:752-761 | the sorted, duplicate-free list of the non-zero commitments |
| `TablePots.FindWinners` | src/poker/domain/table.cpp:781-796 | the running best finds exactly the unbeaten seats |
| `TablePots.OrderClockwise` | src/poker/domain/table.cpp:810-825 | the seats in clockwise order from the dealer's left, the dealer last |
| `TablePots.PayWinners` | src/poker/domain/table.cpp:801-804 | each winner's stack grows by its portion and nothing else changes |
| `Clockwise.OrderMembers` | src/poker/domain/table.cpp:810-825 | the clockwise listing has exactly the members, by distance |
| `Clockwise.SortedUnique` | src/poker/domain/table.cpp:810-825 | a clockwise listing is determined by its members |
| `Clockwise.NextNearest` | src/poker/domain/table.cpp:488-512 | the next seat is the nearest clockwise |
| `TableLoops.NextDecider` | src/poker/domain/table.cpp:503-512 | the search finds the nearest seat that can act and owes a decision |
| `TableLoops.NextParticipant` | src/poker/domain/table.cpp:488-501 | the search finds the nearest seat dealt in |
| `TableLoops.IsRoundComplete` | src/poker/domain/table.cpp:610-623 | the loop decides whether nobody owes a decision and nobody able is behind the bet |
| `TableLoops.CollectUnderCalled` | src/poker/domain/table.cpp:599-608 | exactly the others who can act and are behind the bet |
| `TableLoops.CollectOthers` | src/poker/domain/table.cpp:587-597 | exactly the others who can act |
| `TableLoops.CountContenders` | src/poker/domain/table.cpp:572-580 | the number of players who have not folded |
| `TableLoops.SumChips` | src/poker/domain/table.cpp:446-458 | stacks, plus commitments while the hand is not settled |
| `TableDeal.DealHoleCards` | src/poker/domain/table.cpp:530-543 | two rounds of one card each in clockwise order, from the front of the deck |
| `TableDeal.Reveal` | src/poker/domain/table.cpp:702-712 | one card is burnt and the next ones turned up |
| `TableDeal.HoldsEvaluable` | src/poker/domain/table.cpp:784-795 | at a showdown every player's seven cards are different, so evaluation cannot fail |
| `TableAbort.UndoHand` | src/poker/domain/table.cpp:118-139 | taking back awards by id and refunding commitments leaves each seat its stake |
| `TableViews.CollectViews` | src/poker/domain/table.cpp:406-427 | the loop collects the views that `TableViews.SnapshotTells` is about |
| `HoldemTable.Table.constructor` | src/poker/domain/table.cpp:18-29 | a new table, valid, as the model's new table |
| `HoldemTable.Table.SeatPlayer` | src/poker/domain/table.cpp:31-58 | the object is seated as the model says, with the same error, and stays valid |
| `HoldemTable.Table.RemovePlayer` | src/poker/domain/table.cpp:60-74 | as the model, error included |
| `HoldemTable.Table.SetReady` | src/poker/domain/table.cpp:76-90 | as the model, error included |
| `HoldemTable.Table.SetConnected` | src/poker/domain/table.cpp:92-100 | as the model, error included |
| `HoldemTable.Table.StartHandShuffled` | src/poker/domain/table.cpp:102-104 | starts as the model does with the deck the random choices make |
| `HoldemTable.Table.StartHandWithDeck` | src/poker/domain/table.cpp:106-112 | refuses exactly what is not 52 different cards, else starts as the model does |
| `HoldemTable.Table.StartHand` | src/poker/domain/table.cpp:153-239 | reset, deal, blinds, action sets, first actor and run-out give the model's start |
| `HoldemTable.Table.Act` | src/poker/domain/table.cpp:241-387 | checks, action, follow-up and awards give the model's outcome |
| `HoldemTable.Table.AdvanceUntilActionOrSettlement` | src/poker/domain/table.cpp:629-664 | the loop over streets ends in the model's advanced state |
| `HoldemTable.Table.AbortHand` | src/poker/domain/table.cpp:114-151 | as the model, error included |
| `HoldemTable.Table.TotalChips` | src/poker/domain/table.cpp:446-458 | the model's total |
| `HoldemTable.Table.TakeSnapshot` | src/poker/domain/table.cpp:389-429 | the table's own fields, every seated player once, and a player's two cards iff that player was dealt in and is the viewer, or the hand is settled and that player did not fold |
| `HoldemTable.Table.TakeAuditSnapshot` | src/poker/domain/table.cpp:431-440 | the model's snapshot with all cards |
| `Decks.ShuffleIsPermutation` | src/poker/domain/deck.cpp:78-85 | shuffling only reorders, for any length and any choices |
| `Decks.ShuffleInjective` | src/poker/domain/deck.cpp:78-85 | different choices give different orders of distinct cards |
| `Decks.ShuffleSurjective` | src/poker/domain/deck.cpp:78-85 | every order comes from some choices |
| `Decks.ShuffleBijection` | src/poker/domain/deck.cpp:78-85 | choices and orders correspond one to one |
| `Decks.ShuffleInPlace` | src/poker/domain/deck.cpp:81-84 | the swapping loop computes the shuffle |
| `Decks.ShuffledCards` | src/poker/domain/deck.cpp:78-85 | a shuffled deck has every card exactly once |
| `Decks.CheckedDeck` | src/poker/domain/deck.cpp:87-100 | given cards are refused iff they are not 52 different ones |
| `Decks.Deck.Draw` | src/poker/domain/deck.cpp:102-107 | the next card, or none when the deck is used up |
| `HandEvaluator.EvaluateFive` | src/poker/domain/hand_evaluator.cpp:66-153 | five different cards get the category and tiebreak of the definition by rank counts, suits and runs; anything else is refused |
| `HandEvaluator.StraightHigh` | src/poker/domain/hand_evaluator.cpp:10-27 | the top of the run the ranks form, five for the wheel, else zero |
| `HandEvaluator.DescendingRanks` | src/poker/domain/hand_evaluator.cpp:29-38 | the ranks of a hand without pairs, highest first |
| `HandEvaluator.FindGroups` | src/poker/domain/hand_evaluator.cpp:87-100 | the ranks held four, three and two times |
| `HandEvaluator.MoreCardsNoWorse` | src/poker/domain/hand_evaluator.cpp:155-188 | five or more cards: adding cards never makes the best hand worse |
| `HandEvaluator.BestExists` | src/poker/domain/hand_evaluator.cpp:155-188 | five or more cards have a best value, attained by some five of them and beaten by none |
| `HandEvaluator.IsBestUnique` | src/poker/domain/hand_evaluator.cpp:155-188 | the best value depends on the set of cards only |
| `BestHand.EvaluateBest` | src/poker/domain/hand_evaluator.cpp:155-188 | five to seven different cards get the attained maximum over all their five-card hands; anything else is refused |
| `HandValues.StrictTotalOrder` | src/poker/domain/hand_evaluator.cpp:42-64 | hand values are totally ordered, so a best one is well defined |
| `HandOrder.ClassDecides` | include/poker/domain/hand_evaluator.hpp:13-23 | by rank counts, suits and runs alone: whoever makes a class beats whoever makes neither it nor a higher one, through all nine |
| `HandOrder.NamedAfterClass` | src/poker/domain/hand_evaluator.cpp:81-152 | a hand is called after the highest class its cards make |
| `HandOrder.TopDecides` | src/poker/domain/hand_evaluator.cpp:10-27 | runs compare by their top cards, the wheel being five high |
| `HandOrder.RanksDecide` | src/poker/domain/hand_evaluator.cpp:42-64 | other hands of one class compare by the ranks held four, three, two and one times: the highest rank that only one of them has wins |
| `HandOrder.SameRanksTie` | src/poker/domain/hand_evaluator.cpp:42-64 | hands of one class with the same ranks are equal whatever their suits |
| `Cards.CardIndexInjective` | include/poker/domain/card.hpp:51-54 | different cards have different indices |
| `Cards.HasRepeats` | src/poker/domain/deck.cpp:92-99 | the seen-array finds a repeated card iff there is one |
| `StoreEscrow.EscrowConserved` | src/poker/storage/in_memory_game_store.cpp:10-337 | over any call sequence wallets plus seat stacks equal what was seeded, every balance is between zero and that total, and the seat maps stay inverse |
| `StoreEscrow.RunKeeps` | src/poker/storage/in_memory_game_store.cpp:10-337 | from any sound store, a run keeps it sound and changes the total only by seeding |
| `StoreEscrow.CallKeeps` | src/poker/storage/in_memory_game_store.cpp:10-337 | so does a single call of any kind |
| `StoreEscrow.BalancesBounded` | src/poker/storage/in_memory_game_store.cpp:109-211 | no wallet and no seat holds more than the total, so sums that fit do not overflow |
| `StoreEscrow.SettlementBalances` | include/poker/storage/game_store_validation.hpp:58-69 | a valid settlement takes as much as it gives |
| `StoreEscrow.RunRemembers` | src/poker/storage/in_memory_game_store.cpp:109-337 | ledger entries, actions, starts and settlements never change, aborted tables stay aborted |
| `StoreEscrow.ReplayMovesNothing` | src/poker/storage/in_memory_game_store.cpp:119-189 | a ledger key used once never moves chips again, whatever happened since |
| `StoreEscrow.SettledOnce` | src/poker/storage/in_memory_game_store.cpp:278-297 | a hand's settlement is written once, never changes, and later ones are refused without effect |
| `StoreEscrow.RefundedOnce` | src/poker/storage/in_memory_game_store.cpp:316-324 | refunding an aborted table again, at any later time, pays nothing |
| `StoreEscrow.LedgerKeyInjective` | src/poker/storage/in_memory_game_store.cpp:339-342 | ledger keys of different users or keys differ |
| `StoreAccounts.CallWorth` | src/poker/storage/in_memory_game_store.cpp:10-337 | no call touches anybody's money but as it should: wallet and stacks of a player change only by the player's own seeding or line of an accepted settlement |
| `StoreAccounts.PlayersConserved` | src/poker/storage/in_memory_game_store.cpp:10-337 | over any calls every player is worth what was seeded and what settlements gave |
| `StoreAccounts.BuyInAnswer` | src/poker/storage/in_memory_game_store.cpp:109-169 | what a new buy-in takes, what it moves, and that the answer is the wallet after it and the chips moved |
| `StoreAccounts.CashOutAnswer` | src/poker/storage/in_memory_game_store.cpp:171-211 | a new cash-out pays the player's own stack into the player's own wallet and answers with both numbers |
| `StoreAccounts.ReplayAnswersSame` | src/poker/storage/in_memory_game_store.cpp:119-189 | a repeated call that is answered at all is answered with the same numbers, however much later; a cash-out always is |
| `StoreAccounts.BeginAnswer` | src/poker/storage/in_memory_game_store.cpp:213-239 | when a hand can begin, and what is kept of it |
| `StoreAccounts.AppendAnswer` | src/poker/storage/in_memory_game_store.cpp:241-276 | an action is filed once under its hand and sequence while the hand is open |
| `StoreAccounts.SettleAnswer` | src/poker/storage/in_memory_game_store.cpp:278-314 | a settlement is taken once, for a hand begun on an open table, when every line starts from the stored stack |
| `StoreAccounts.AbortAnswer` | src/poker/storage/in_memory_game_store.cpp:316-337 | closing a table empties it |
| `StoreAccounts.CreateAnswer` | src/poker/storage/in_memory_game_store.cpp:91-107 | when a table can be opened, empty, under a new id |
| `StoreAccounts.SoundHands` | include/poker/storage/game_store_validation.hpp:26-57 | in a valid settlement two players' hole cards are four different cards |
| `StoreAccounts.SoundHole` | include/poker/storage/game_store_validation.hpp:26-57 | a player's two cards differ and are not on the board, which has no card twice |
| `GameStores.ValidHandSettlement` | include/poker/storage/game_store_validation.hpp:18-70 | the loop with running totals, seen cards and users accepts exactly sound settlements: distinct users and cards, all committed chips won, no overflow |
| `GameStores.EquivalentHandSettlement` | include/poker/storage/game_store_validation.hpp:72-91 | the comparison is equality |
| `GameStores.GameStore.SeedWallet` | src/poker/storage/in_memory_game_store.cpp:10-20 | as the model, error included |
| `GameStores.GameStore.CreateTable` | src/poker/storage/in_memory_game_store.cpp:91-107 | as the model, error included |
| `GameStores.GameStore.ReserveBuyIn` | src/poker/storage/in_memory_game_store.cpp:109-169 | as the model, error and receipt included |
| `GameStores.GameStore.CashOutPlayer` | src/poker/storage/in_memory_game_store.cpp:171-211 | as the model, error and receipt included |
| `GameStores.GameStore.BeginHand` | src/poker/storage/in_memory_game_store.cpp:213-239 | as the model, error included |
| `GameStores.GameStore.AppendAction` | src/poker/storage/in_memory_game_store.cpp:241-276 | as the model; actions stay unique by (hand, sequence) and by (hand, user, request) |
| `GameStores.GameStore.SettleHand` | src/poker/storage/in_memory_game_store.cpp:278-314 | as the model, error included |
| `GameStores.GameStore.AbortTableAndRefund` | src/poker/storage/in_memory_game_store.cpp:316-337 | as the model; the conflict in mid-refund is never reached |
| `GameStores.PayBack` | src/poker/storage/in_memory_game_store.cpp:325-331 | the refund loop stops half way iff some seated user has no wallet, and otherwise pays every seat |
| `HandRecords.PersistentHandId` | apps/server/protocol_service.cpp:80-86 | fits 64 bits, and is zero iff table id or hand number is outside 1..2^32-1 |
| `HandRecords.PersistentHandIdHalves` | apps/server/protocol_service.cpp:80-86 | the table id is the upper half and the hand number the lower half |
| `HandRecords.PersistentHandIdInjective` | apps/server/protocol_service.cpp:80-86 | no two hands share an id |
| `HandRecords.MakeHandStart` | apps/server/protocol_service.cpp:100-116 | one line per player dealt in |
| `HandRecords.TallyAwards` | apps/server/protocol_service.cpp:128-137 | the winnings map holds for every id what all awards give it, and the total is that of the pots |
| `HandRecords.MakeHandSettlement` | apps/server/protocol_service.cpp:118-153 | the record with one line per player dealt in |
| `SettlementBridge.PlayedHandSound` | apps/server/protocol_service.cpp:118-153 | however a hand is played to settlement, its record is valid iff the ids can be stored and no layer was dropped |
| `SettlementBridge.HandStored` | src/poker/storage/in_memory_game_store.cpp:213-314 | begun and settled in a store that mirrors the table, with any calls in between that do not close the table or settle the hand, a hand leaves the stored stacks equal to the table's; with dropped chips its settlement is refused and nothing changes |
| `SettlementBridge.StartStoredIff` | apps/server/protocol_service.cpp:100-116 | a store that mirrors the table accepts a start record iff the stacks before the hand do not let its start settle it |
| `SettlementBridge.StartLineIs` | apps/server/protocol_service.cpp:107-114 | the recorded start stack is the stack before the hand plus what the hand has already paid |
| `SettlementBridge.SettlementStored` | src/poker/storage/in_memory_game_store.cpp:278-314 | a sound settlement of a begun hand is accepted and brings every stored stack to the table's |
| `SettlementBridge.CallsLeaveHand` | src/poker/storage/in_memory_game_store.cpp:109-337 | while a hand is in progress no calls but closing its table or settling it touch its table or its start |
| `SettlementBridge.RecordedDealer` | apps/server/protocol_service.cpp:88-98 | the recorded dealer seat is the seat with the button |
| `SettlementBridge.RecordedHand` | apps/server/protocol_service.cpp:118-153 | the settlement record has the table's board, hand number and pots and exactly one line per player dealt in: stacks, commitment, winnings, cards, folded or not |
| `SettlementBridge.RecordedStart` | apps/server/protocol_service.cpp:100-116 | the start record has exactly one line per player dealt in, with the two cards dealt |
| `CodecModel.ChunkIndependence` | src/poker/net/length_field_codec.cpp:41-78 | a stream fed in pieces never fails iff it decodes without error and every piece fits, and then exactly the frames of the whole stream are delivered and its rest is waiting |
| `CodecModel.PayloadsDelivered` | src/poker/net/length_field_codec.cpp:16-78 | however the encodings of payloads are cut into pieces that fit, the payloads are delivered in order and nothing is left |
| `CodecModel.RoundTrip` | src/poker/net/length_field_codec.cpp:16-78 | decoding undoes encoding, for any list of non-empty payloads within the maximum |
| `CodecModel.DecodeSound` | src/poker/net/length_field_codec.cpp:58-76 | the bytes are the encodings of the frames followed by the rest, which is no whole frame |
| `CodecModel.DecodeAppend` | src/poker/net/length_field_codec.cpp:58-76 | later bytes change nothing about what was decoded |
| `CodecModel.SingleBytesFit` | src/poker/net/length_field_codec.cpp:51-55 | byte by byte, every piece fits |
| `CodecModel.HeaderRoundTrip` | src/poker/net/length_field_codec.cpp:25-31 | the header announces the length written into it |
| `CodecModel.ErrorsTrue` | src/poker/net/length_field_codec.cpp:61-67 | an error is reported at a header of length zero, or of a length above the maximum |
| `CodecModel.FeedErrorsTrue` | src/poker/net/length_field_codec.cpp:41-78 | a piece that does not fit is refused unread; a failing call delivers no frames |
| `LengthFieldCodecs.EncodePayload` | src/poker/net/length_field_codec.cpp:16-34 | empty and too large payloads are refused; otherwise four bytes of length, most significant first, then the payload, which the frame decodes to |
| `LengthFieldCodecs.ReadFrames` | src/poker/net/length_field_codec.cpp:58-76 | the loop takes off exactly the whole frames and reports what is wrong after them |
| `LengthFieldCodecs.LengthFieldCodec.Feed` | src/poker/net/length_field_codec.cpp:41-78 | as the model; after success at most max+3 bytes are unread and the buffer holds at most twice that |
| `LengthFieldCodecs.LengthFieldCodec.Compact` | src/poker/net/length_field_codec.cpp:106-119 | unread bytes stay, and bytes already read take less room than they do |
| `LengthFieldCodecs.LengthFieldCodec.Reset` | src/poker/net/length_field_codec.cpp:88-92 | back to a new decoder |
| `CacheModel.CacheMatchesHistory` | src/poker/application/idempotency_cache.cpp:15-66 | in every run, since a user's last reset: accepted sequences are 1, 2, 3, ...; the order lists exactly the retained ids by acceptance; retained entries are as last completed; requests in flight are never evicted |
| `CacheModel.DecisionsFromHistory` | src/poker/application/idempotency_cache.cpp:15-47 | each decision read off the history: in flight iff accepted and not completed since, capacity exceeded iff as many are in flight as fit, a duplicate gets the bytes last completed |
| `CacheModel.EvictOldest` | src/poker/application/idempotency_cache.cpp:73-89 | a full cache loses exactly its oldest completed request |
| `CacheModel.InFlightKept` | src/poker/application/idempotency_cache.cpp:49-61 | a request in flight can always be completed |
| `IdempotencyCaches.EvictCompleted` | src/poker/application/idempotency_cache.cpp:73-89 | the erasing loop computes the model's eviction |
| `IdempotencyCaches.IdempotencyCache.Begin` | src/poker/application/idempotency_cache.cpp:15-47 | the decision is the one the user's history calls for, the history grows exactly by an accepted request, and the entries stay as the history says |
| `IdempotencyCaches.IdempotencyCache.Complete` | src/poker/application/idempotency_cache.cpp:49-61 | known iff retained, always for a request in flight; the history grows by the completion and the entries stay as the history says |
| `IdempotencyCaches.IdempotencyCache.Reset` | src/poker/application/idempotency_cache.cpp:63-66 | the user's history and entries start afresh, consistent with the log of calls |

## Left out

- Integer widths: chips, ids and counters are unbounded integers. `TableBounds.TableWithin` and `Pots.LayersBounded` bound every amount of the table by the chips that came in, `StoreEscrow.EscrowConserved` every balance of the store by what was seeded, so no amount overflows while those fit 64 bits; `SettlementBridge.PlayedHandSound` takes that as a condition. Counters (hand number, server sequence) are not bounded.
- Messages and their texts: results carry the error code only.
- Pot winners are handled as seats and mapped to player ids, where the source handles ids and looks up seats; ids on a table are distinct.
- `std::sort` with `std::unique`, and the sort of the winners, are modelled by sorted insertion.
- The second count of participants in `startHand` (lines 194-198) is not modelled: it cannot differ from the first.
- Random sources: a shuffle takes an arbitrary list of choices, each within its bound; how they are drawn is not modelled.
- Cards with raw enum values outside the ranks and suits: a card here always has a rank from 2 to 14 and one of four suits.
- A null data pointer with a non-zero size, which the decoder rejects by an exception: there is no such value here.
- Read-only queries of the store and the cache (`walletBalance`, `seatStack`, `settlement`, `findTable`, `listOpenTables`, `countOpenTables`, `userCount`): they would only add easy members.
- Locks: each call of the store and the cache is one atomic step, as it holds one lock throughout.
- The rest of `ProtocolService`, `RoomManager` and the executors: callbacks and queues around the modelled operations, among them aborts that do nothing without a callback (`src/poker/application/room_manager.cpp`, lines 188-190).
- Network and HTTP servers, the Qt client, MySQL, Redis and libsodium adapters, authentication, cluster registry, router, reaper, rate limits, metrics and configuration.
