# Poker agent arena — a verified model of its logic

The arena is a browser prototype of a product in which poker-playing agents meet. It has a landing page, an agent lab, a mock match viewer, a leaderboard and a match history. Nearly all of it is markup. This project models the parts that make decisions, in Dafny:

- **The round simulation engine** of the felt table (`client/src/components/PokerTableSimulation.jsx`). It builds a 52-card deck and shuffles it with Fisher–Yates. It then drives one mutable round record through the steps `startRound → preflop → dealFlop → flop → dealTurn → turn → dealRiver → river → showdown → endRound → startRound`, with one timer pending at a time.
  - Modules `Deck`, `Simulation` (the round record, its invariant `RoundOk`, one transition function per step and a lemma per step that it keeps the invariant) and `SimulationHook` (class `RoundEngine`, whose methods update the record field by field as the source does).
- **The manual hand stepper** of the table demo (`client/src/App.jsx`): deal, next street (clamped at the showdown), reset.
  - Modules `ManualHand` (pure rules and the table invariant `TableOk`) and `ManualHandTable` (class `HandTable`).
  - The demo keeps an identical copy of the deck helpers, which is modelled once, in `Deck`.
- **The in-memory store** (`client/src/state/mockStore.js`): leaderboards sorted by Elo and numbered, the match-result update of the active agent's rows, the history capped at 50, and the listener set.
  - Modules `Leaderboard`, `Store` (the state value) and `MockStore` (class `MockStore`).
- **The match replay screen** (`client/src/screens/MatchScreen.jsx`): `parseCard`, `formatAction`, the `applyEvent` reducer, the display order of the log, the mm:ss clock and the playback loop.
  - Modules `MatchReplay` and `MatchPlayback` (class `Playback`).
- **The pre-seeded history** and its `relativeTime` labels (`client/src/mocks/mockHistorySeed.js`, module `HistorySeed`), and the **history screen's** summary bar and badges (`client/src/screens/HistoryScreen.jsx`, module `HistoryScreen`).
- **The agent lab** (`client/src/AgentLab.jsx`): initials, name trimming in the modals, set-active, import, create, the average win rate, colour bands and toasts.
  - Modules `AgentLab` and `AgentLabPage` (class `LabPage`).
- **The two table views**: hole-card visibility, bet chip stacks, board slots, pot and chip labels (`client/src/components/PokerTable.jsx`, module `PokerTable`), and the country venue's own card rule and camera tilt (`client/src/venues/CountryPokerTable.jsx`, module `CountryPokerTable`).
  - The country venue's board slots, pot label, placeholders and chip label (lines 44-48, 75-85 and 160-172) follow the same rules as the felt table's. The model states them once, in `PokerTable.CommunitySlots`, `PokerTable.PotLabel`, `PokerTable.HandSlots` and `PokerTable.ChipsLabel`.
- **The landing page's logic** (`client/src/HomePage.jsx`): the tournament countdown and its `hh:mm:ss` text, the cosmetics store's tab filter and the navigation targets.
  - Modules `HomePage` and `HomeCountdown` (class `CountdownClock`).

Shared helpers:

- `Text`: decimal digits and their round trip, two-digit padding and ASCII upper-casing.
- `Wrappers`: `Option`.
- `Arith`: small division lemmas.

Randomness, clocks and generated ids are parameters of the modelled operations, each with its source range as a precondition. This covers the shuffle's swap indices, the actor, action, bet and name picks, `Date.now()` and `generateMatchId()`. Every scheduled step of the simulation is a method that requires its own timer to be the pending one. The display strings of the ticker and the match log are datatypes naming what each line says.

Where the behaviour as written differs from what a reader might expect, the model follows the code:

- The showdown zeroes the bets but leaves the pot.
- `startRound` draws three different names.
- The "at most one active player" check runs at the start of `flop`, `turn` and `river`. So a fold on the river still leads to the showdown, which then names the only player left.
- `deal` in the demo gives the dealer seat two cards as well.
- `BetChipStack`'s comment speaks of 1–5 chips, but its formula draws 2 to 5 for any positive amount.
- The country venue's card rule has no folded case, so a folded "you" seat keeps its cards face up (`CountryPokerTable.CountryCardPropsAgree`).
- The store tab "Avatars" shows the items of type "Agent Avatar", through the map in `tabFilter`.

## Model

| member | source | states |
|---|---|---|
| Text.NatToStringRoundTrip | client/src/screens/MatchScreen.jsx:494 | the decimal text of a number reads back as that number |
| Text.IntToString | client/src/components/PokerTable.jsx:90 | a negative number's text is "-" followed by the digits of its magnitude; otherwise it is the digits alone |
| Text.Pad2 | client/src/HomePage.jsx:240-242 | `padStart(2, "0")`: the input ends the result, and the result is at least two long with zeros in front |
| Text.ClockField | client/src/screens/MatchScreen.jsx:337-338 | a padded field is all digits, two long below 100, and reads back as its number |
| Text.UpperChar | client/src/AgentLab.jsx:107 | lower-case ASCII letters go to upper case; every other character stays |
| Text.Upper | client/src/AgentLab.jsx:107 | upper-casing keeps the length and maps each character on its own |
| Deck.MakeCard | client/src/components/PokerTableSimulation.jsx:12 | a pushed card has its suit and rank, and is red exactly for ♥ and ♦ |
| Deck.FullDeck | client/src/components/PokerTableSimulation.jsx:8-14 | the deck has 52 cards |
| Deck.MakeDeck | client/src/components/PokerTableSimulation.jsx:8-14 | the two nested loops build exactly the suit-major, rank-minor deck |
| Deck.FullDeckAt | client/src/components/PokerTableSimulation.jsx:10-12 | card `13 s + r` has suit `s` and rank `r` |
| Deck.FullDeckCoversPairs | client/src/components/PokerTableSimulation.jsx:8-14 | a card is in the deck exactly when its suit is one of the 4 and its rank one of the 13 |
| Deck.FullDeckDistinct | client/src/components/PokerTableSimulation.jsx:8-14 | no card appears twice |
| Deck.FullDeckRedness | client/src/components/PokerTableSimulation.jsx:12 | in the deck, `red` holds exactly for hearts and diamonds |
| Deck.Swap | client/src/components/PokerTableSimulation.jsx:20 | the destructuring swap exchanges two places and leaves every other place alone |
| Deck.FisherYates | client/src/components/PokerTableSimulation.jsx:18-21 | the swap loop keeps the length |
| Deck.SwapPermutes | client/src/components/PokerTableSimulation.jsx:20 | a swap is a permutation |
| Deck.FisherYatesPermutes | client/src/components/PokerTableSimulation.jsx:16-23 | whatever the picks, the shuffle is a permutation of its input |
| Deck.Shuffle | client/src/components/PokerTableSimulation.jsx:16-23 | shuffling a copy in place gives the Fisher–Yates result, a permutation of the input of the same length; the input is a value and cannot change |
| Simulation.Available | client/src/components/PokerTableSimulation.jsx:36 | the filtered pool holds exactly the pool names not excluded, and is the whole pool when nothing is excluded |
| Simulation.NamesDistinct | client/src/components/PokerTableSimulation.jsx:25 | the eight pool names are pairwise different |
| Simulation.NamePool | client/src/components/PokerTableSimulation.jsx:25 | the pool is `PLAYER_NAMES`, eight distinct names |
| Simulation.AvailableShrinks | client/src/components/PokerTableSimulation.jsx:35-37 | excluding one more pool name shrinks the filtered pool by exactly one |
| Simulation.AvailableKeeps | client/src/components/PokerTableSimulation.jsx:36 | excluding a name outside the pool changes nothing |
| Simulation.GetRandomName | client/src/components/PokerTableSimulation.jsx:35-38 | a name is returned exactly when some pool name is not excluded, and it is a pool name that is not excluded |
| Simulation.Menu | client/src/components/PokerTableSimulation.jsx:40-50 | each menu offers 2 to 5 actions, and none offers a check when a call is due; specified by `GetRandomAction` and `GetRandomActionOnto` |
| Simulation.GetRandomAction | client/src/components/PokerTableSimulation.jsx:40-50 | with `mustCall` the action is call, raise or fold; with only `canCheck` it is check or bet |
| Simulation.GetRandomActionOnto | client/src/components/PokerTableSimulation.jsx:40-50 | every action of the menu in force can be drawn |
| Simulation.Active | client/src/components/PokerTableSimulation.jsx:107 | the active list is no longer than the seats |
| Simulation.ActiveMembers | client/src/components/PokerTableSimulation.jsx:107 | the active list holds exactly the seated non-dealer players that have not folded |
| Simulation.FoldActor | client/src/components/PokerTableSimulation.jsx:111 | folding keeps the number of seats |
| Simulation.FoldActorSeats | client/src/components/PokerTableSimulation.jsx:111 | folding marks exactly the seats with the actor's id, and changes nothing else about any seat |
| Simulation.FoldKeepsHands | client/src/components/PokerTableSimulation.jsx:111 | folding leaves every hole card where it was |
| Simulation.FoldRemovesOne | client/src/components/PokerTableSimulation.jsx:137-139 | folding an active player takes exactly one player out of the active list |
| Simulation.FoldHeadRemoved | client/src/components/PokerTableSimulation.jsx:111 | folding the first seat, whose id no other seat shares, drops just that seat from the active list |
| Simulation.FoldNoMatch | client/src/components/PokerTableSimulation.jsx:111 | folding an id no seat has changes nothing |
| Simulation.RosterFacts | client/src/components/PokerTableSimulation.jsx:86-91 | the four seats have distinct ids; the hands are the three players' six cards; the active list is built seat by seat |
| Simulation.FoldKeepsRoster | client/src/components/PokerTableSimulation.jsx:111 | folding a non-dealer seat keeps the roster shape |
| Simulation.PickWinner | client/src/components/PokerTableSimulation.jsx:207-221 | a winner already named stays; otherwise it is an active player, or `players[0]` when nobody is active |
| Simulation.Wager | client/src/components/PokerTableSimulation.jsx:110-200 | no chips go in exactly for a fold, or for a check after the preflop; preflop raise 50..149, other preflop actions 20; flop 30..179, turn 50..249, river 100..399 |
| Simulation.IdleOk | client/src/components/PokerTableSimulation.jsx:55-65 | the hook's initial record keeps the invariant, and the first timer starts round 1 |
| Simulation.DrawFrom | client/src/components/PokerTableSimulation.jsx:80-82 | a draw gives a pool name not yet excluded, and excluding it shrinks the pool by one |
| Simulation.DrawNames | client/src/components/PokerTableSimulation.jsx:80-82 | the drawn names come from the pool, are none of the excluded ones, and are pairwise different |
| Simulation.NewRound | client/src/components/PokerTableSimulation.jsx:84-101 | the new record seats the three names, each with 1000 chips and not folded; the hands followed by the deck are the shuffled deck; board empty, pot 30, bets zero, preflop, no winner, the given round number |
| Simulation.NewRoundOk | client/src/components/PokerTableSimulation.jsx:79-101 | a round dealt from a permutation of the 52 cards keeps the invariant, with all three players in the hand |
| Simulation.FreshRoundOk | client/src/components/PokerTableSimulation.jsx:85-101 | a dealt record with an empty board, pot 30, zero bets and nobody folded satisfies the invariant at the preflop |
| Simulation.ActOn | client/src/components/PokerTableSimulation.jsx:110-118 | a betting move leaves board, deck, phase and winner alone; a wager adds the same amount to the pot and to the actor's bet and leaves every other bet, while a fold, or a check after the preflop, changes neither pot nor bets; specified by `ActKeeps` |
| Simulation.ActKeeps | client/src/components/PokerTableSimulation.jsx:110-118 | a betting move keeps seats, cards and pot accounting; the pot never shrinks; folds stay; a fold takes exactly one player out; board, deck, phase and winner stay |
| Simulation.DealKeeps | client/src/components/PokerTableSimulation.jsx:124-126 | moving the front `n` deck cards to the end of the board conserves the cards and their order |
| Simulation.StepAfter | client/src/components/PokerTableSimulation.jsx:120-204 | each street schedules the deal (or showdown) that follows it; only the preflop schedules `dealFlop` |
| Simulation.StepOf | client/src/components/PokerTableSimulation.jsx:106-205 | each street's step fires in that street's phase |
| Simulation.BetKeeps | client/src/components/PokerTableSimulation.jsx:106-205 | one betting step keeps the invariant and fits the step it schedules; the pot never decreases; folds stay; after the preflop at least two players remain |
| Simulation.DealFlopOf | client/src/components/PokerTableSimulation.jsx:123-130 | the board becomes the deck's first three cards and the flop begins; specified by `DealFlopKeeps` |
| Simulation.DealCardOf | client/src/components/PokerTableSimulation.jsx:151-158 | one more board card, taken from the deck, with board and deck together unchanged; specified by `DealTurnKeeps` and `DealRiverKeeps` (lines 179-186 deal the river the same way) |
| Simulation.DealFlopKeeps | client/src/components/PokerTableSimulation.jsx:123-130 | `dealFlop` takes the first three deck cards as the board, in order, and keeps the invariant |
| Simulation.DealTurnKeeps | client/src/components/PokerTableSimulation.jsx:151-158 | `dealTurn` moves exactly the first deck card onto the board and keeps the invariant |
| Simulation.DealRiverKeeps | client/src/components/PokerTableSimulation.jsx:179-186 | `dealRiver` moves exactly the first deck card onto the board and keeps the invariant |
| Simulation.DealtBoardOk | client/src/components/PokerTableSimulation.jsx:123-186 | a deal that conserves the cards and gives the board the new phase's size keeps the invariant |
| Simulation.ShowdownOf | client/src/components/PokerTableSimulation.jsx:207-216 | a winner is named, the pot kept, every seat's bet reset to zero and the showdown phase entered; specified by `ShowdownKeeps` |
| Simulation.EndRoundOf | client/src/components/PokerTableSimulation.jsx:218-226 | the round completes with a winner, keeping one already named; specified by `EndRoundKeeps` |
| Simulation.ShowdownKeeps | client/src/components/PokerTableSimulation.jsx:207-216 | `showdown` names an active player as winner and keeps the invariant |
| Simulation.EndRoundKeeps | client/src/components/PokerTableSimulation.jsx:218-226 | `endRound` keeps the invariant from any street it can run on, keeps an existing winner, and schedules the next round's number |
| SimulationHook.DealRound | client/src/components/PokerTableSimulation.jsx:79-101 | `startRound`'s record is the one built from the drawn names and the shuffled fresh deck, and it keeps the invariant |
| SimulationHook.RoundEngine.constructor | client/src/components/PokerTableSimulation.jsx:55-66 | the initial record, with the mount effect's round-1 timer pending |
| SimulationHook.RoundEngine.After | client/src/components/PokerTableSimulation.jsx:69-75 | scheduling replaces any pending step, so exactly one step is pending |
| SimulationHook.RoundEngine.Cancel | client/src/components/PokerTableSimulation.jsx:230 | the unmount cleanup leaves no step pending |
| SimulationHook.RoundEngine.StartRound | client/src/components/PokerTableSimulation.jsx:79-104 | the record is replaced by a freshly dealt round, numbered as the timer asked, and the preflop is pending |
| SimulationHook.RoundEngine.Act | client/src/components/PokerTableSimulation.jsx:110-118 | the field updates of a betting move give the move's transition |
| SimulationHook.RoundEngine.PreflopBet | client/src/components/PokerTableSimulation.jsx:106-121 | an active player calls, raises or folds; the invariant holds and `dealFlop` is pending |
| SimulationHook.RoundEngine.DealFlop | client/src/components/PokerTableSimulation.jsx:123-130 | the first three deck cards become the board; the invariant holds and `flop` is pending |
| SimulationHook.RoundEngine.EndRoundBody | client/src/components/PokerTableSimulation.jsx:218-226 | the round completes with a winner and the next round's number is pending |
| SimulationHook.RoundEngine.StreetBet | client/src/components/PokerTableSimulation.jsx:132-205 | with at most one active player the round ends at once; otherwise one active player acts and the next deal or the showdown is pending |
| SimulationHook.RoundEngine.DealTurn | client/src/components/PokerTableSimulation.jsx:151-158 | the first deck card becomes the fourth board card; `turn` is pending |
| SimulationHook.RoundEngine.DealRiver | client/src/components/PokerTableSimulation.jsx:179-186 | the first deck card becomes the fifth board card; `river` is pending |
| SimulationHook.RoundEngine.CallShowdown | client/src/components/PokerTableSimulation.jsx:207-216 | an active player is named winner and the bets are zeroed, the pot kept; `endRound` is pending |
| SimulationHook.RoundEngine.EndRound | client/src/components/PokerTableSimulation.jsx:218-226 | after a showdown, `endRound` keeps the showdown's winner and schedules the next round |
| ManualHand.PhaseIndex | client/src/App.jsx:34 | `PHASES.indexOf(p)` finds the phase |
| ManualHand.NextPhase | client/src/App.jsx:71-72 | the clamped step never leads back to the waiting phase; specified by `NextPhaseSteps` |
| ManualHand.NextPhaseSteps | client/src/App.jsx:71-72 | the phase moves one place along `PHASES` and stays at the showdown, so it never goes back |
| ManualHand.CanAdvance | client/src/App.jsx:111 | when the button is enabled the hand is dealt and a step changes the phase; specified by `CanAdvanceIff` |
| ManualHand.CanAdvanceIff | client/src/App.jsx:111 | the button is enabled exactly in a dealt phase that a step still changes |
| ManualHand.CardsForGrowsBoard | client/src/App.jsx:74-79 | entering the flop adds 3 board cards, the turn or river 1, and the showdown none |
| ManualHand.DealSeats | client/src/App.jsx:53-56 | dealing keeps the number of seats |
| ManualHand.DealSeatsTakesFront | client/src/App.jsx:51-58 | the hands together are the front `2 n` cards of the deck, in order |
| ManualHand.DealSeatsAt | client/src/App.jsx:53-56 | seat `i` gets cards `2 i` and `2 i + 1`, and nothing else about it changes |
| ManualHand.Street | client/src/App.jsx:74-81 | the deck loses exactly the front cards the new phase needs; specified by `StreetTakesFront` |
| ManualHand.StreetTakesFront | client/src/App.jsx:74-81 | from a dealt phase, a street moves exactly the right number of front deck cards to the end of the board |
| ManualHand.DealOk | client/src/App.jsx:49-66 | dealing four seats from a shuffled 52-card deck keeps the table invariant at the preflop with pot 120 |
| ManualHand.StepOk | client/src/App.jsx:69-87 | a step from a dealt phase keeps the table invariant |
| ManualHandTable.HandTable.constructor | client/src/App.jsx:39-45 | the initial seats, empty board and deck, waiting phase, pot 0 |
| ManualHandTable.HandTable.Deal | client/src/App.jsx:49-66 | all four seats take two cards each from the front of the shuffled fresh deck, 44 remain; board empty, pot 120, preflop |
| ManualHandTable.HandTable.NextStreet | client/src/App.jsx:69-87 | one clamped step along `PHASES`; the board takes exactly the front deck cards the new phase needs; the pot grows by 50..199 except on the step to the showdown |
| ManualHandTable.HandTable.Reset | client/src/App.jsx:100-108 | back to the initial seats, empty board and deck, waiting phase and pot 0 |
| Leaderboard.Insert | client/src/state/mockStore.js:20 | insertion adds one row |
| Leaderboard.SortDesc | client/src/state/mockStore.js:20 | sorting keeps the number of rows |
| Leaderboard.Ranked | client/src/state/mockStore.js:20 | row `i` is numbered `i + 1`, and nothing else about it changes |
| Leaderboard.InsertPermutes | client/src/state/mockStore.js:20 | insertion adds exactly the new row |
| Leaderboard.InsertDescending | client/src/state/mockStore.js:20 | insertion into a descending board keeps it descending |
| Leaderboard.InsertStable | client/src/state/mockStore.js:20 | the inserted row goes after every row of equal Elo |
| Leaderboard.WithEloAppend | client/src/state/mockStore.js:20 | the rows of one Elo in a concatenation are those of each part, in order |
| Leaderboard.WithEloNone | client/src/state/mockStore.js:20 | a board whose rows all have lower Elo has no rows of that Elo |
| Leaderboard.SortDescOrders | client/src/state/mockStore.js:20 | the sort orders by descending Elo |
| Leaderboard.SortDescKeeps | client/src/state/mockStore.js:20 | the sort is a permutation |
| Leaderboard.SortDescPermutes | client/src/state/mockStore.js:20 | the sort is an ordered permutation |
| Leaderboard.SortDescStable | client/src/state/mockStore.js:20 | rows of equal Elo keep their input order, as in JavaScript's stable sort |
| Leaderboard.SortByElo | client/src/state/mockStore.js:19-21 | one ranked row per input row; specified by `SortByEloSpec`, `SortByEloKeeps` and `SortByEloFrom` |
| Leaderboard.SortByEloSpec | client/src/state/mockStore.js:19-21 | `sortByElo` is a stable permutation sorted by descending Elo, with row `i` numbered `i + 1` |
| Leaderboard.SortByEloKeeps | client/src/state/mockStore.js:19-21 | every input row is on the sorted board, numbered by its new position |
| Leaderboard.SortByEloFrom | client/src/state/mockStore.js:19-21 | every row of the sorted board comes from the input |
| Leaderboard.SignedDelta | client/src/state/mockStore.js:106 | the delta's magnitude, positive for a win and negative otherwise |
| Leaderboard.PatchRow | client/src/state/mockStore.js:110-120 | the row moves its Elo by the signed delta; a win adds one win and extends the streak, a loss adds one loss and resets the streak, any other outcome keeps both counts and resets the streak; every other field is unchanged; specified by `RecordOnBoardKeeps` |
| Leaderboard.Applied | client/src/state/mockStore.js:110-120 | only the active agent's rows are patched; every row keeps its agent; specified by `RecordOnBoardKeeps` and `RecordOnBoardFrom` |
| Leaderboard.PatchActive | client/src/state/mockStore.js:110-120 | the patch keeps the number of rows |
| Leaderboard.RecordOnBoard | client/src/state/mockStore.js:109-121 | the board keeps its number of rows; specified by `RecordOnBoardShape`, `RecordOnBoardKeeps` and `RecordOnBoardFrom` |
| Leaderboard.RecordOnBoardShape | client/src/state/mockStore.js:109-121 | after a match a board keeps its length, is sorted by Elo and numbered 1..n |
| Leaderboard.RecordOnBoardKeeps | client/src/state/mockStore.js:109-136 | every old row is on the new board: another agent's unchanged, the active agent's with Elo moved by the signed delta, a win or loss counted, and the streak extended or reset |
| Leaderboard.RecordOnBoardFrom | client/src/state/mockStore.js:109-136 | every new row is an old row, patched exactly when it is the active agent's |
| Store.ThreeTenths | client/src/state/mockStore.js:36-37 | `Math.round(n * 0.3)` is within half of three tenths of `n` |
| Store.WeeklyRow | client/src/state/mockStore.js:32-40 | only Elo, wins, losses and streak change: the Elo by the jitter, the streak to the drawn one; specified by `WeeklyRowFrom` |
| Store.WeeklyRows | client/src/state/mockStore.js:32-40 | one weekly row per seed row |
| Store.InitialState | client/src/state/mockStore.js:29-53 | the active agent, the given history, no last match, and one row on each board per seed row; specified by `InitialStateOk` |
| Store.InitialStateOk | client/src/state/mockStore.js:29-53 | the initial state has the active agent, the global board sorted from the seed, the given history, no last match, and both boards sorted and numbered |
| Store.WeeklyRowFrom | client/src/state/mockStore.js:32-40 | each weekly row is a seed row with Elo within 30, record cut to three tenths, and a streak in 0..6 |
| Store.EntryOf | client/src/state/mockStore.js:95-106 | the recorded Elo change is non-negative for a win and non-positive otherwise; specified by `EntryDefaults` |
| Store.EntryDefaults | client/src/state/mockStore.js:95-106 | missing fields default to "Unknown", "unknown", "win", 0, `{}` and `null`; every given field is kept, `opponentId`, `stats` and `replayRef` included; the recorded delta is the signed one |
| Store.Prepend | client/src/state/mockStore.js:156 | the new entry comes first and at most 50 entries remain; specified by `PrependSpec` |
| Store.PrependSpec | client/src/state/mockStore.js:156 | the new entry comes first, then the old history in order, capped at 50 |
| Store.RecordMatch | client/src/state/mockStore.js:94-163 | the active agent and the agents stay, and a last match id and Elo change are recorded; specified by `RecordMatchKeeps` |
| Store.RecordMatchKeeps | client/src/state/mockStore.js:94-163 | recording keeps the active agent and agents, keeps both boards sorted and numbered and their lengths, prepends the entry under the cap, and sets the last delta and match id to the entry's |
| MockStore.MockStore.constructor | client/src/state/mockStore.js:57-58 | module load: the initial state and no listeners |
| MockStore.MockStore.GetState | client/src/state/mockStore.js:66-68 | returns the current state |
| MockStore.MockStore.Emit | client/src/state/mockStore.js:60-62 | every current listener receives the current state |
| MockStore.MockStore.Subscribe | client/src/state/mockStore.js:70-72 | adds the listener and nothing else |
| MockStore.MockStore.Unsubscribe | client/src/state/mockStore.js:72 | removes exactly that listener |
| MockStore.MockStore.SetActiveAgent | client/src/state/mockStore.js:75-78 | only the active agent id changes, and the listeners are told |
| MockStore.MockStore.RecordMatchResult | client/src/state/mockStore.js:94-163 | the state becomes the recorded one, the store invariant holds, and the listeners are told |
| MockStore.MockStore.ResetSession | client/src/state/mockStore.js:165-168 | a fresh initial state from the seeds, no last match, and the listeners are told |
| HistorySeed.Seed | client/src/mocks/mockHistorySeed.js:10-111 | the seed has ten entries |
| HistorySeed.NewestFirstFromNeighbours | client/src/mocks/mockHistorySeed.js:1-4 | strictly decreasing neighbours make the whole list most recent first |
| HistorySeed.SeedNewestFirst | client/src/mocks/mockHistorySeed.js:10-111 | the seed's timestamps strictly decrease, whatever the load time |
| HistorySeed.SeedDeltaSign | client/src/mocks/mockHistorySeed.js:10-111 | a seed entry's Elo change is positive exactly for a win |
| HistorySeed.AgoOf | client/src/mocks/mockHistorySeed.js:116-125 | the bucket `relativeTime` picks; specified by `AgoThresholds` and `AgoMonotone` |
| HistorySeed.AgoLabel | client/src/mocks/mockHistorySeed.js:117-125 | the printed label of a bucket; specified through `RelativeTime` and `AgoThresholds` |
| HistorySeed.RelativeTime | client/src/mocks/mockHistorySeed.js:115-126 | anything under two minutes ago, the future included, is "Just now" |
| HistorySeed.AgoThresholds | client/src/mocks/mockHistorySeed.js:116-125 | the exact elapsed ranges of "Just now", minutes, hours, "Yesterday" and days; each count is the floor of the elapsed time over its unit |
| HistorySeed.AgoMonotone | client/src/mocks/mockHistorySeed.js:117-125 | a longer elapsed time never lands in an earlier bucket, nor on a smaller count |
| HistoryScreen.Wins | client/src/screens/HistoryScreen.jsx:211 | the win count is at most the number of entries |
| HistoryScreen.NetElo | client/src/screens/HistoryScreen.jsx:213 | the net Elo of a history is non-negative when every change is, and non-positive when every change is; specified by `SummaryAdditive` |
| HistoryScreen.SummaryAdditive | client/src/screens/HistoryScreen.jsx:211-213 | wins and net Elo add up over a split history |
| HistoryScreen.WinsCounts | client/src/screens/HistoryScreen.jsx:211 | wins equal the length exactly when every entry is a win, and 0 exactly when none is |
| HistoryScreen.Percent | client/src/screens/HistoryScreen.jsx:214 | the rounded win rate is never negative; specified by `PercentSpec` |
| HistoryScreen.PercentSpec | client/src/screens/HistoryScreen.jsx:214 | the rounded rate is within half a point of the exact one, and in 0..100 |
| HistoryScreen.SummaryOf | client/src/screens/HistoryScreen.jsx:209-214 | no summary exactly for an empty history; otherwise the matches are the entries and wins plus losses make them up; specified by `SummarySpec` |
| HistoryScreen.SummarySpec | client/src/screens/HistoryScreen.jsx:209-214 | no bar for an empty history; wins plus losses are the matches; the rate is the rounded percentage in 0..100 |
| HistoryScreen.SignedLabel | client/src/screens/HistoryScreen.jsx:228 | the label starts with "+" exactly for a non-negative value and with "-" exactly for a negative one (the Elo badge at line 28 prints the same way); specified by `SignedLabelSpec` |
| HistoryScreen.SignedLabelSpec | client/src/screens/HistoryScreen.jsx:228 | the label starts with "+" exactly for a non-negative value, otherwise with "-", and its digits read back as the magnitude |
| HistoryScreen.OutcomeLabel | client/src/screens/HistoryScreen.jsx:7-21 | "WIN" exactly for a win, else "LOSS" |
| HistoryScreen.ReplayTarget | client/src/screens/HistoryScreen.jsx:248-251 | the match screen, replaying the entry's match |
| HistoryScreen.AnimDelay | client/src/screens/HistoryScreen.jsx:333 | the delay is at most 500 ms and at most 40 ms per row; specified by `AnimDelaySpec` |
| HistoryScreen.AnimDelaySpec | client/src/screens/HistoryScreen.jsx:333 | the delay is 40 ms per row, capped at 500 and never decreasing |
| MatchReplay.ParseCard | client/src/screens/MatchScreen.jsx:10-15 | null exactly for the empty string; specified by `ParseCardSpec` and `ParseCardOfParts` |
| MatchReplay.ParseCardSpec | client/src/screens/MatchScreen.jsx:10-15 | null exactly for the empty string; otherwise rank followed by suit is the input, red means h or d, and an unknown suit is its own symbol |
| MatchReplay.ParseCardOfParts | client/src/screens/MatchScreen.jsx:10-15 | any rank followed by a suit letter parses back to them |
| MatchReplay.Capitalized | client/src/screens/MatchScreen.jsx:493 | the first letter upper-cased, the rest kept |
| MatchReplay.FormatAction | client/src/screens/MatchScreen.jsx:492-495 | the capitalised verb starts the text, and only a positive amount lengthens it; specified by `FormatActionSpec` |
| MatchReplay.FormatActionSpec | client/src/screens/MatchScreen.jsx:492-495 | the capitalised verb, then exactly for a positive amount a space and the amount's digits |
| MatchReplay.ApplyEvent | client/src/screens/MatchScreen.jsx:530-623 | an unknown event changes nothing; a handled one prepends its log line; specified by `ApplyEventLog`, `HandStartResets`, `ActionTouchesActor`, `DealsSetBoard` and `EndingsSetFlags` |
| MatchReplay.ApplyEventLog | client/src/screens/MatchScreen.jsx:530-623 | an unknown event type changes nothing; a handled one prepends exactly one log line |
| MatchReplay.HandStartResets | client/src/screens/MatchScreen.jsx:535-548 | a new hand clears board, winner, revealed cards and last actions, and takes the payload's pot or 15 |
| MatchReplay.ActionTouchesActor | client/src/screens/MatchScreen.jsx:549-561 | an action sets only the actor's last action, and pot and stacks only when the payload has them |
| MatchReplay.DealsSetBoard | client/src/screens/MatchScreen.jsx:562-594 | the flop sets the board to its cards; the turn and river append exactly one |
| MatchReplay.EndingsSetFlags | client/src/screens/MatchScreen.jsx:595-620 | the showdown reveals the cards, the award names the winner, and the match end only logs |
| MatchReplay.ApplyAllSnoc | client/src/screens/MatchScreen.jsx:636-639 | applying one more event extends the replayed list by that event |
| MatchReplay.Reverse | client/src/screens/MatchScreen.jsx:678 | reversing keeps the length |
| MatchReplay.ReversePrepend | client/src/screens/MatchScreen.jsx:678 | a prepended line ends up last once reversed |
| MatchReplay.DisplayLogInOrder | client/src/screens/MatchScreen.jsx:675-678 | the reversed log lists the handled events' lines in the order they happened |
| MatchReplay.Clock | client/src/screens/MatchScreen.jsx:337-338 | the seconds field is two characters and the minutes field at least two; specified by `ClockSpec` |
| MatchReplay.ClockSpec | client/src/screens/MatchScreen.jsx:337-338 | the two fields read back as minutes and seconds that make up the elapsed time; seconds below 60 |
| MatchPlayback.Playback.constructor | client/src/screens/MatchScreen.jsx:508-512 | the initial match state, event 0, playing, clock 0 |
| MatchPlayback.Playback.FireEvent | client/src/screens/MatchScreen.jsx:626-650 | when playing, the current event is applied and the index moves on by one except at `match_end`; when paused, nothing happens |
| MatchPlayback.Playback.Tick | client/src/screens/MatchScreen.jsx:522-527 | the clock counts only while playing |
| MatchPlayback.Playback.Pause | client/src/screens/MatchScreen.jsx:652-655 | stops playing and nothing else |
| MatchPlayback.Playback.Resume | client/src/screens/MatchScreen.jsx:657-659 | resumes playing and nothing else |
| MatchPlayback.Playback.Replay | client/src/screens/MatchScreen.jsx:661-668 | back to the initial match state, event 0, clock 0, playing, with a new replay key |
| AgentLab.Split | client/src/AgentLab.jsx:107 | splitting gives at least one piece |
| AgentLab.Initials | client/src/AgentLab.jsx:106-107 | at most two characters |
| AgentLab.SplitLastEmpty | client/src/AgentLab.jsx:107 | the last piece is empty exactly for an empty name or a trailing space |
| AgentLab.Heads | client/src/AgentLab.jsx:107 | at most one character per piece; specified by `HeadsAppend` and `HeadsOfSplit` |
| AgentLab.HeadsAppend | client/src/AgentLab.jsx:107 | first characters of a concatenation are those of each part |
| AgentLab.HeadsOfSplit | client/src/AgentLab.jsx:107 | the first characters of the pieces are exactly the word starts |
| AgentLab.InitialsSpec | client/src/AgentLab.jsx:106-107 | the initials are the upper-cased first letters of the first two words, whatever the spacing |
| AgentLab.TrimStart | client/src/AgentLab.jsx:204 | a suffix, with only spaces cut off in front and no space at its start |
| AgentLab.TrimEnd | client/src/AgentLab.jsx:204 | a prefix, with only spaces cut off behind and no space at its end |
| AgentLab.Trim | client/src/AgentLab.jsx:204 | no longer than the input; which piece it is, and that no space is left at either end, is specified by `TrimSpec` |
| AgentLab.TrimSpec | client/src/AgentLab.jsx:204-205 | the trimmed name is a piece of the input with only spaces around it, none at its ends, and empty exactly for an all-space input |
| AgentLab.TrimEmptyIff | client/src/AgentLab.jsx:204 | only an all-space input trims to nothing |
| AgentLab.ModalSubmit | client/src/AgentLab.jsx:203-206 | a blank name submits nothing; otherwise the non-empty trimmed name is passed |
| AgentLab.SetActive | client/src/AgentLab.jsx:584 | setting the active agent keeps the list length |
| AgentLab.SetActiveSpec | client/src/AgentLab.jsx:583-584 | exactly the agents with that id are active afterwards; order and other fields stay |
| AgentLab.FindName | client/src/AgentLab.jsx:585 | found exactly when some agent has the id, and then it is the name of the first such agent |
| AgentLab.ImportedAgent | client/src/AgentLab.jsx:589-605 | an API agent, connected, unranked, version 1.0.0, no matches, win rate 45..64 |
| AgentLab.DescriptionOr | client/src/AgentLab.jsx:625 | the given description, or "{strategy} agent. No matches played yet." when it is empty |
| AgentLab.CreatedAgent | client/src/AgentLab.jsx:611-627 | a local agent, offline, win rate 0, version 0.1.0, with the described or default description |
| AgentLab.SumWinRates | client/src/AgentLab.jsx:365 | the sum is 0 for no agents and the win rate itself for one; specified by `SumBounds` |
| AgentLab.AvgWin | client/src/AgentLab.jsx:365 | the rounded mean: within half a point of the exact mean; specified by `AvgWinBounds` |
| AgentLab.SumBounds | client/src/AgentLab.jsx:365 | the sum of win rates lies between n times the lowest and n times the highest |
| AgentLab.AvgWinBounds | client/src/AgentLab.jsx:365 | the rounded average lies between the lowest and the highest win rate |
| AgentLab.WinRateBand | client/src/AgentLab.jsx:334-337 | green from 55, amber for 45..54, red below 45 |
| AgentLab.CardColour | client/src/AgentLab.jsx:310 | one of the five card colours; specified by `CardColourCycle` |
| AgentLab.CardColourCycle | client/src/AgentLab.jsx:310 | card colours repeat every five cards, and five neighbouring cards differ |
| AgentLab.Without | client/src/AgentLab.jsx:574 | the filter keeps no more toasts than it was given; specified by `WithoutSpec` |
| AgentLab.WithoutSpec | client/src/AgentLab.jsx:574 | exactly the toasts with the dismissed id go: every other toast stays, as many times as it was there |
| AgentLab.WithoutAppend | client/src/AgentLab.jsx:574 | the filter works piece by piece, so the kept toasts keep their relative order |
| AgentLabPage.LabPage.constructor | client/src/AgentLab.jsx:563-569 | the initial agents, no toasts, no modal open |
| AgentLabPage.LabPage.Notify | client/src/AgentLab.jsx:571-573 | a toast is added at the end |
| AgentLabPage.LabPage.Dismiss | client/src/AgentLab.jsx:574 | the toasts become the old ones without that id, in order and with duplicates kept |
| AgentLabPage.LabPage.HandleSetActive | client/src/AgentLab.jsx:583-587 | only that agent is active; the toast names it, or "Agent" when no agent has the id |
| AgentLabPage.LabPage.HandleImport | client/src/AgentLab.jsx:589-609 | the imported agent is appended, the modal closes, and the toast reports it |
| AgentLabPage.LabPage.HandleCreate | client/src/AgentLab.jsx:611-631 | the created agent is appended, the modal closes, and the toast quotes its name |
| AgentLabPage.LabPage.HandleTest | client/src/AgentLab.jsx:633-635 | only a toast |
| PokerTable.CardProps | client/src/components/PokerTable.jsx:60-67 | a peeking card is face up; specified by `CardPropsSpec` |
| PokerTable.CardPropsSpec | client/src/components/PokerTable.jsx:60-67 | a folded seat's cards are down whatever else holds; otherwise they are up exactly under show-all, for "you", in dealer view or for the peeking dealer, and peek only in that last case |
| PokerTable.BetChips | client/src/components/PokerTable.jsx:22-28 | a drawn stack has 2 to 5 chips of one of the five colours; specified by `BetChipsSpec` |
| PokerTable.Ceil60 | client/src/components/PokerTable.jsx:27 | `Math.ceil(amount / 60)`: the least count of 60s that covers the amount |
| PokerTable.BetChipsSpec | client/src/components/PokerTable.jsx:22-28 | a stack exactly for a positive amount; 2 chips up to 60, 3 up to 120, 4 up to 180, 5 beyond; colour index is the amount over 50, mod 5 |
| PokerTable.BetColourCycle | client/src/components/PokerTable.jsx:28 | amounts 250 apart get the same colour |
| PokerTable.CommunitySlots | client/src/components/PokerTable.jsx:117-123 | five slots; slot `i` holds and shows `community[i]` exactly when there is one |
| PokerTable.PotLabel | client/src/components/PokerTable.jsx:127-128 | shown exactly for a positive pot, as "POT: " and digits reading back as the pot |
| PokerTable.HandSlots | client/src/components/PokerTable.jsx:75-80 | an empty hand shows two placeholders; otherwise one slot per card |
| PokerTable.ChipsLabel | client/src/components/PokerTable.jsx:89-90 | shown exactly for a seat with chips |
| PokerTable.IsWinner | client/src/components/PokerTable.jsx:151 | the highlight is on only for the seat named as winner, and never when no winner is set |
| PokerTable.BetStacks | client/src/components/PokerTable.jsx:156-162 | at most one stack per seat; specified by `BetStacksSpec` |
| PokerTable.BetStacksSpec | client/src/components/PokerTable.jsx:156-162 | one stack per non-dealer seat, in order, at its position, with that seat's bet |
| CountryPokerTable.CountryCardProps | client/src/venues/CountryPokerTable.jsx:20-25 | the venue never marks cards folded |
| CountryPokerTable.CountryCardPropsAgree | client/src/venues/CountryPokerTable.jsx:20-25 | the venue's rule is the felt table's rule for an unfolded seat without show-all; a folded "you" seat stays face up here |
| CountryPokerTable.Tilt | client/src/venues/CountryPokerTable.jsx:101-104 | topdown tilts 10deg, the dealer view 35deg turned round, every other view 35deg |
| CountryPokerTable.TiltDistinct | client/src/venues/CountryPokerTable.jsx:100-104 | two views get the same tilt exactly when they agree on being topdown and on being the dealer's |
| HomePage.TickOf | client/src/HomePage.jsx:237 | one second off, never below zero |
| HomePage.TicksSpec | client/src/HomePage.jsx:236-238 | `n` ticks take `n` seconds off, then the countdown rests at zero |
| HomePage.SplitSpec | client/src/HomePage.jsx:240-242 | `3600 h + 60 m + s` is the count, with `m` and `s` below 60 |
| HomePage.Countdown | client/src/HomePage.jsx:240-243 | the text is never empty; its fields and their values are specified by `CountdownSpec` and `CountdownOfFields` |
| HomePage.CountdownSpec | client/src/HomePage.jsx:240-243 | the text's three fields read back as hours, minutes and seconds that make up the count; eight characters under 100 hours |
| HomePage.ClockFields | client/src/HomePage.jsx:240-243 | the fields of `h:m:s` read back as the three numbers |
| HomePage.JoinFields | client/src/HomePage.jsx:243 | the three fields can be cut back out of the joined text |
| HomePage.TournamentStartText | client/src/HomePage.jsx:249 | the initial count shows "07:23:10" |
| HomePage.StartDigits | client/src/HomePage.jsx:249 | the initial count's text is the digits 0,7 : 2,3 : 1,0 |
| HomePage.StartChars | client/src/HomePage.jsx:249 | those digits spell "07:23:10" |
| HomePage.CountdownOfFields | client/src/HomePage.jsx:240-243 | under 100 hours, each field is its tens digit then its units digit |
| HomePage.SplitOf | client/src/HomePage.jsx:240-242 | the split of `3600 h + 60 m + s` is `h`, `m`, `s` |
| HomePage.TwoDigitField | client/src/HomePage.jsx:240-242 | a padded field below 100 is its two digits |
| HomePage.TabKind | client/src/HomePage.jsx:75-79 | the map knows exactly the three typed tabs; specified by `TabKinds` and `UnknownTabEmpty` |
| HomePage.Shown | client/src/HomePage.jsx:75-79 | "All" shows every item, and a tab outside the map shows none; specified by `VisibleItemsSpec` and `UnknownTabEmpty` |
| HomePage.VisibleItems | client/src/HomePage.jsx:81 | the filter never adds items |
| HomePage.VisibleItemsSpec | client/src/HomePage.jsx:75-81 | a tab keeps exactly the items it shows, in their original order; "All" keeps everything |
| HomePage.UnknownTabEmpty | client/src/HomePage.jsx:75-79 | a tab outside the map shows nothing |
| HomePage.TabKinds | client/src/HomePage.jsx:77-78 | each tab other than "All" shows the items of one type; "Avatars" shows "Agent Avatar" |
| HomePage.StoreTabsNonEmpty | client/src/HomePage.jsx:75-81 | no store tab comes up empty on the store's items |
| HomePage.ShownItemKept | client/src/HomePage.jsx:81 | a list with a shown item filters to a non-empty list |
| HomePage.NavTargets | client/src/HomePage.jsx:40-51 | every nav link has a target; Play and Watch go offline, Tournaments and Leaderboard to the leaderboard |
| HomeCountdown.CountdownClock.constructor | client/src/HomePage.jsx:235 | the count starts at the given seconds |
| HomeCountdown.CountdownClock.Display | client/src/HomePage.jsx:240-243 | the hook's text is never empty; it is `Countdown` of the current count, specified by `CountdownSpec` |
| HomeCountdown.CountdownClock.Tick | client/src/HomePage.jsx:237 | the interval takes one second off and rests at zero |

## Left out

- Rendering, markup, inline styles, CSS, hover handlers and the `useSyncExternalStore` wiring. They have no behaviour to state.
- Real timers. Each scheduled step is a method that requires its own step to be the pending one. Delays, `rerender` and the peek-hint timers are not modelled.
- `Math.random` distributions. Random choices are caller-supplied values with their source ranges as preconditions. Probabilities are not modelled.
- Floating-point rounding. `Math.round` of a ratio is exact rational rounding, halves up. Float representation ties are not modelled.
- `toUpperCase` is ASCII-only, and `trim` removes a fixed set of whitespace characters (space, tab, line feed, carriage return, vertical tab, form feed, no-break space, byte-order mark). Other Unicode case mappings and spaces are not modelled.
- Strings are sequences of code points. JavaScript indexes UTF-16 code units, so `w[0]`, `.slice(0, 2)` and `charAt(0)` can split a character outside the Basic Multilingual Plane (an emoji) into a lone surrogate. The model takes whole code points instead, which affects `AgentLab.Heads`, `AgentLab.Initials` and `MatchReplay.Capitalized`.
- `toLocaleDateString`, `Date.now()` ids and `generateMatchId()`. They are parameters (`created`, `now`, `freshId`).
- The fixtures `leaderboardSeed` and `INITIAL_AGENTS` are parameters of the store and lab constructors. Their contents are not reproduced.
- `mockMatchEvents.js` is not part of this model. `applyEvent` is modelled over arbitrary events.
- A payload field that is absent and read anyway (for example `cards` of a `deal_flop` without cards) is modelled as a present value.
- UI-only state: the view switch, selection, the dealer peek and its hint, the expand toggles and modals other than the two name forms.
- The unused `filtered` computation in `client/src/HomePage.jsx:69-72`. The store shows `visibleItems`.
- ManualHandTable.HandTable.NextStreet: requires a dealt phase. The only caller is the "Next Street" button, which is disabled in the waiting phase.
- AgentLab.AvgWin: requires a non-empty list, which the source does not guard. The page's list always holds the initial agents and only grows.
- SimulationHook.RoundEngine.CallShowdown: requires an active player to pick. The round invariant guarantees one, so `PickWinner`'s fallback to `players[0]` is unreachable there.
- MatchPlayback.Playback.FireEvent: the playback effect re-runs after a pause and resume. Re-arming the timer on `match_end` (the index stays put) is modelled only as the result timer being set.
- HomeCountdown.CountdownClock.constructor: the count is a natural number. A negative initial count, which the source would show as negative fields, is not modelled.
- React's possible double invocation of the updaters nested in `nextStreet`. The model takes the intended single sequential step.
