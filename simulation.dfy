/**
 * The auto-playing round simulation of the landing table: a timer-driven
 * state machine over one mutable round record. Every random draw of the
 * source (names, shuffle swaps, actor, action, bet size, winner) is a
 * parameter here, bounded by the range the source draws from.
 */
module Simulation {
  import opened Wrappers
  import opened Deck

  const PLAYER_NAMES: seq<string> :=
    ["DeepStack", "AlphaFold", "NeuralBluff", "PokerBot9000", "ShadowCall", "QuantumFold", "Maverick", "BlazeFold"]

  datatype Action = Check | Bet | Raise | Call | Fold

  const ACTIONS: seq<Action> := [Check, Bet, Raise, Call, Fold]

  // ---- names ----

  /** `PLAYER_NAMES.filter(n => !exclude.includes(n))`. */
  function Available(names: seq<string>, exclude: seq<string>): (r: seq<string>)
    ensures |r| <= |names|
    ensures forall n :: n in r <==> n in names && n !in exclude
    ensures exclude == [] ==> r == names
  {
    if names == [] then []
    else (if names[0] in exclude then [] else [names[0]]) + Available(names[1..], exclude)
  }

  predicate Distinct(names: seq<string>) {
    forall i, j :: 0 <= i < j < |names| ==> names[i] != names[j]
  }

  /** The eight pool names are pairwise different (their first letters already are). */
  lemma NamesDistinct()
    ensures Distinct(PLAYER_NAMES)
  {
    var firsts := seq(8, k requires 0 <= k < 8 => PLAYER_NAMES[k][0]);
    assert firsts == ['D', 'A', 'N', 'P', 'S', 'Q', 'M', 'B'];
    forall i, j | 0 <= i < j < |PLAYER_NAMES|
      ensures PLAYER_NAMES[i] != PLAYER_NAMES[j]
    {
      assert firsts[i] != firsts[j];
    }
  }

  /** A pool to draw three names from: distinct names, eight of them. */
  predicate PoolOk(pool: seq<string>) {
    Distinct(pool) && |pool| == 8
  }

  /** `PLAYER_NAMES`, with the facts the draws rely on. */
  function NamePool(): (pool: seq<string>)
    ensures pool == PLAYER_NAMES && PoolOk(pool)
  {
    NamesDistinct();
    PLAYER_NAMES
  }

  /** Excluding one more listed, not yet excluded name shrinks the pool by exactly one. */
  lemma {:induction false} AvailableShrinks(names: seq<string>, exclude: seq<string>, n: string)
    requires Distinct(names) && n in names && n !in exclude
    ensures |Available(names, exclude + [n])| == |Available(names, exclude)| - 1
  {
    if names[0] == n {
      assert n !in names[1..];
      AvailableKeeps(names[1..], exclude, n);
    } else {
      AvailableShrinks(names[1..], exclude, n);
    }
  }

  lemma {:induction false} AvailableKeeps(names: seq<string>, exclude: seq<string>, n: string)
    requires n !in names
    ensures Available(names, exclude + [n]) == Available(names, exclude)
  {
    if names != [] {
      AvailableKeeps(names[1..], exclude, n);
    }
  }

  /**
   * `getRandomName(exclude)` over `pool` (`PLAYER_NAMES` at every call):
   * the name at index `pick` of the pool that is
   * left after exclusion; `undefined` (None) when the pool is empty.
   */
  function GetRandomName(pool: seq<string>, exclude: seq<string>, pick: nat): (r: Option<string>)
    requires |Available(pool, exclude)| == 0 || pick < |Available(pool, exclude)|
    ensures r.Some? <==> exists n :: n in pool && n !in exclude
    ensures r.Some? ==> r.value in pool && r.value !in exclude
  {
    var left := Available(pool, exclude);
    if |left| == 0 then None
    else
      assert left[pick] in pool;
      Some(left[pick])
  }

  // ---- actions ----

  /** The menu `getRandomAction(canCheck, mustCall)` draws from. */
  function Menu(canCheck: bool, mustCall: bool): (r: seq<Action>)
    ensures 2 <= |r| <= 5
    ensures mustCall ==> Check !in r
  {
    if mustCall then [Call, Raise, Fold]
    else if canCheck then [Check, Bet]
    else ACTIONS
  }

  function GetRandomAction(canCheck: bool, mustCall: bool, pick: nat): (a: Action)
    requires pick < |Menu(canCheck, mustCall)|
    ensures mustCall ==> a == Call || a == Raise || a == Fold
    ensures !mustCall && canCheck ==> a == Check || a == Bet
  {
    Menu(canCheck, mustCall)[pick]
  }

  /** Every action of the menu can be drawn: the three menus are exactly these. */
  lemma GetRandomActionOnto(canCheck: bool, mustCall: bool, a: Action)
    requires mustCall ==> a == Call || a == Raise || a == Fold
    requires !mustCall && canCheck ==> a == Check || a == Bet
    ensures exists pick: nat :: pick < |Menu(canCheck, mustCall)| && GetRandomAction(canCheck, mustCall, pick) == a
  {
    var m := Menu(canCheck, mustCall);
    assert a in m by {
      if !mustCall && !canCheck {
        assert m == [Check, Bet, Raise, Call, Fold];
      }
    }
    var k: nat :| k < |m| && m[k] == a;
    assert GetRandomAction(canCheck, mustCall, k) == a;
  }

  // ---- the round record ----

  datatype Phase = Idle | Preflop | Flop | Turn | River | Showdown | Complete

  /** The seat ids `"p1"`, `"p2"`, `"p3"` and `"dealer"`, and the seat positions around the table. */
  datatype SeatId = P1 | P2 | P3 | DealerId
  datatype Position = Bottom | Left | Right | Top

  datatype Player = Player(id: SeatId, name: string, position: Position, cards: seq<Card>, chips: Option<int>, folded: bool)

  /** The ticker line of the round record (`action`), as structured data. */
  datatype TickerEvent = DealingCards | Acted(act: Action, amount: Option<int>) | FlopDealt | TurnDealt | RiverDealt
                       | ShowdownCalled | Wins(chips: int)
  datatype Ticker = Ticker(player: string, event: TickerEvent)

  /** The step function a pending timer will run. */
  datatype Step = StartRoundStep(num: int) | PreflopStep | DealFlopStep | FlopStep | DealTurnStep | TurnStep
                | DealRiverStep | RiverStep | ShowdownStep | EndRoundStep

  predicate IsActive(p: Player) {
    p.id != DealerId && !p.folded
  }

  /** `players.filter(p => p.id !== "dealer" && !p.folded)`. */
  function Active(ps: seq<Player>): (r: seq<Player>)
    ensures |r| <= |ps|
  {
    if ps == [] then [] else (if IsActive(ps[0]) then [ps[0]] else []) + Active(ps[1..])
  }

  /** The active list holds exactly the seated players that are not the dealer and have not folded. */
  lemma {:induction false} ActiveMembers(ps: seq<Player>)
    ensures forall p :: p in Active(ps) <==> p in ps && IsActive(p)
  {
    if ps != [] {
      ActiveMembers(ps[1..]);
      assert ps == [ps[0]] + ps[1..];
    }
  }

  /** All hole cards, seat by seat. */
  function Hands(ps: seq<Player>): seq<Card>
  {
    if ps == [] then [] else ps[0].cards + Hands(ps[1..])
  }

  /** `players.map(p => p.id === id ? { ...p, folded: true } : p)`. */
  function FoldActor(ps: seq<Player>, id: SeatId): (r: seq<Player>)
    ensures |r| == |ps|
  {
    if ps == [] then []
    else [if ps[0].id == id then ps[0].(folded := true) else ps[0]] + FoldActor(ps[1..], id)
  }

  /** Folding marks exactly the seats with that id as folded and changes nothing else about any seat. */
  lemma {:induction false} FoldActorSeats(ps: seq<Player>, id: SeatId)
    ensures forall i :: 0 <= i < |ps| ==> FoldActor(ps, id)[i].folded == (ps[i].folded || ps[i].id == id)
    ensures forall i :: 0 <= i < |ps| ==> FoldActor(ps, id)[i] == ps[i].(folded := FoldActor(ps, id)[i].folded)
  {
    if ps != [] {
      FoldActorSeats(ps[1..], id);
      var r := FoldActor(ps, id);
      assert r[1..] == FoldActor(ps[1..], id);
      forall i | 1 <= i < |ps|
        ensures r[i] == FoldActor(ps[1..], id)[i - 1] && ps[i] == ps[1..][i - 1]
      {
      }
    }
  }

  /** Same seats, and nobody who had folded is back in the hand. */
  predicate FoldsKept(before: seq<Player>, after: seq<Player>) {
    |after| == |before| && forall i :: 0 <= i < |before| ==> (before[i].folded ==> after[i].folded)
  }

  predicate UniqueIds(ps: seq<Player>) {
    forall i, j :: 0 <= i < j < |ps| ==> ps[i].id != ps[j].id
  }

  /** Folding leaves every hole card where it was. */
  lemma {:induction false} FoldKeepsHands(ps: seq<Player>, id: SeatId)
    ensures Hands(FoldActor(ps, id)) == Hands(ps)
  {
    if ps != [] {
      FoldKeepsHands(ps[1..], id);
      assert FoldActor(ps, id)[1..] == FoldActor(ps[1..], id);
    }
  }

  /** Folding an active player removes exactly that player from the active list. */
  lemma {:induction false} FoldRemovesOne(ps: seq<Player>, actor: Player)
    requires UniqueIds(ps) && actor in ps && IsActive(actor)
    ensures |Active(FoldActor(ps, actor.id))| == |Active(ps)| - 1
  {
    if ps[0] == actor {
      FoldHeadRemoved(ps);
    } else {
      var r := FoldActor(ps, actor.id);
      assert r[0] == ps[0] && r[1..] == FoldActor(ps[1..], actor.id);
      assert actor in ps[1..] by {
        var k :| 0 <= k < |ps| && ps[k] == actor;
        assert ps[1..][k - 1] == actor;
      }
      UniqueIdsTail(ps);
      FoldRemovesOne(ps[1..], actor);
    }
  }

  lemma UniqueIdsTail(ps: seq<Player>)
    requires UniqueIds(ps) && ps != []
    ensures UniqueIds(ps[1..])
  {
    forall i, j | 0 <= i < j < |ps[1..]|
      ensures ps[1..][i].id != ps[1..][j].id
    {
      assert ps[1..][i] == ps[i + 1] && ps[1..][j] == ps[j + 1];
    }
  }

  /** Folding the first seat, when no other seat shares its id, drops just that seat from the active list. */
  lemma FoldHeadRemoved(ps: seq<Player>)
    requires UniqueIds(ps) && ps != [] && IsActive(ps[0])
    ensures |Active(FoldActor(ps, ps[0].id))| == |Active(ps)| - 1
  {
    forall p | p in ps[1..]
      ensures p.id != ps[0].id
    {
      var j :| 0 <= j < |ps[1..]| && ps[1..][j] == p;
      assert ps[j + 1] == p;
    }
    FoldNoMatch(ps[1..], ps[0].id);
    assert FoldActor(ps, ps[0].id)[1..] == ps[1..];
  }

  lemma {:induction false} FoldNoMatch(ps: seq<Player>, id: SeatId)
    requires forall p :: p in ps ==> p.id != id
    ensures FoldActor(ps, id) == ps
  {
    if ps != [] {
      FoldNoMatch(ps[1..], id);
    }
  }

  /** The four seats of a dealt round: p1, p2, p3 with two cards each, then the card-less dealer. */
  predicate Roster(ps: seq<Player>) {
    && |ps| == 4
    && ps[0].id == P1 && ps[1].id == P2 && ps[2].id == P3 && ps[3].id == DealerId
    && |ps[0].cards| == 2 && |ps[1].cards| == 2 && |ps[2].cards| == 2
    && ps[3].cards == [] && ps[3].chips == None && !ps[3].folded
  }

  /** The active list of a roster, seat by seat. */
  function ActiveOfSeats(a: Player, b: Player, c: Player): seq<Player>
  {
    (if IsActive(a) then [a] else []) + (if IsActive(b) then [b] else []) + (if IsActive(c) then [c] else [])
  }

  lemma RosterFacts(ps: seq<Player>)
    requires Roster(ps)
    ensures UniqueIds(ps)
    ensures Hands(ps) == ps[0].cards + ps[1].cards + ps[2].cards
    ensures |Hands(ps)| == 6
    ensures Active(ps) == ActiveOfSeats(ps[0], ps[1], ps[2])
  {
    var t1 := ps[1..];
    var t2 := t1[1..];
    var t3 := t2[1..];
    assert t3 == [ps[3]] && t3[1..] == [];
    assert Hands(t3) == t3[0].cards + Hands(t3[1..]) == [];
    assert !IsActive(t3[0]);
    assert Active(t3) == Active(t3[1..]) == [];
    assert Hands(t2) == ps[2].cards && Active(t2) == (if IsActive(ps[2]) then [ps[2]] else []);
    assert Hands(t1) == ps[1].cards + ps[2].cards;
    assert Active(t1) == (if IsActive(ps[1]) then [ps[1]] else []) + (if IsActive(ps[2]) then [ps[2]] else []);
  }

  lemma FoldKeepsRoster(ps: seq<Player>, id: SeatId)
    requires Roster(ps) && id != DealerId
    ensures Roster(FoldActor(ps, id))
  {
    FoldActorSeats(ps, id);
  }

  /**
   * Who `showdown` and `endRound` name: the winner already chosen if any
   * (`s.current.winner || ...`), else the active player at `pick`, else
   * `players[0]` when nobody is active.
   */
  function PickWinner(current: Option<Player>, ps: seq<Player>, pick: nat): (w: Player)
    requires |ps| > 0
    requires |Active(ps)| == 0 || pick < |Active(ps)|
    ensures current.Some? ==> w == current.value
    ensures current.None? && |Active(ps)| > 0 ==> w in ps && IsActive(w)
    ensures current.None? && |Active(ps)| == 0 ==> w == ps[0]
  {
    if current.Some? then current.value
    else if |Active(ps)| > 0 then
      ActiveMembers(ps);
      assert Active(ps)[pick] in Active(ps);
      Active(ps)[pick]
    else ps[0]
  }

  /** Width of the bet-size draw of each street, `Math.floor(Math.random() * span + base)`. */
  function RollSpan(street: Phase): nat
  {
    match street
    case Preflop => 100
    case Flop => 150
    case Turn => 200
    case _ => 300
  }

  function RollBase(street: Phase): nat
  {
    match street
    case Preflop => 50
    case Flop => 30
    case Turn => 50
    case _ => 100
  }

  predicate IsStreet(p: Phase) {
    p == Preflop || p == Flop || p == Turn || p == River
  }

  /**
   * The chips an action puts in. Preflop: a raise draws the bet, every other
   * non-fold action puts in 20. Later streets: fold and check put in nothing,
   * every other action draws the bet.
   */
  function Wager(street: Phase, act: Action, roll: nat): (w: Option<int>)
    requires IsStreet(street) && roll < RollSpan(street)
    ensures w.None? <==> act == Fold || (act == Check && street != Preflop)
    ensures w.Some? && street == Preflop ==> (act == Raise ==> 50 <= w.value <= 149) && (act != Raise ==> w.value == 20)
    ensures w.Some? && street == Flop ==> 30 <= w.value <= 179
    ensures w.Some? && street == Turn ==> 50 <= w.value <= 249
    ensures w.Some? && street == River ==> 100 <= w.value <= 399
  {
    if act == Fold then None
    else if street == Preflop then Some(if act == Raise then RollBase(street) + roll else 20)
    else if act == Check then None
    else Some(RollBase(street) + roll)
  }

  function BetOf(bets: map<SeatId, int>, id: SeatId): int {
    if id in bets then bets[id] else 0
  }

  const ZERO_BETS: map<SeatId, int> := map[P1 := 0, P2 := 0, P3 := 0]

  /** Sum of the three seat bets. */
  function BetTotal(bets: map<SeatId, int>): int
    requires bets.Keys == ZERO_BETS.Keys
  {
    bets[P1] + bets[P2] + bets[P3]
  }

  // ---- the round record ----

  /** `s.current`: what the table shows, plus the undealt deck. */
  datatype Round = Round(
    players: seq<Player>, community: seq<Card>, pot: int, phase: Phase, action: Option<Ticker>,
    winner: Option<Player>, roundNumber: int, showdown: bool, deck: seq<Card>, bets: map<SeatId, int>)

  /** The record the hook starts from, before the first deal. */
  const IDLE_ROUND: Round := Round([], [], 0, Idle, None, None, 1, false, [], map[])

  /** Every card of the deck is in exactly one place: a hand, the board or the deck. */
  predicate CardsConserved(r: Round) {
    multiset(Hands(r.players)) + multiset(r.community) + multiset(r.deck) == multiset(FullDeck())
  }

  /** One bet per seat, none negative, and until the showdown the pot is the 30 blinds plus every bet. */
  predicate BetsOk(bets: map<SeatId, int>, pot: int, showdown: bool) {
    && bets.Keys == ZERO_BETS.Keys
    && (forall k :: k in bets ==> bets[k] >= 0)
    && (!showdown ==> pot == 30 + BetTotal(bets))
  }

  /** What holds from `startRound` on: seats, cards, bets, pot, someone left to win. */
  predicate Dealt(r: Round) {
    && Roster(r.players)
    && CardsConserved(r)
    && |r.community| + |r.deck| == 46
    && BetsOk(r.bets, r.pot, r.showdown)
    && r.pot >= 30
    && |Active(r.players)| >= 1
  }

  /** The fewest and the most board cards a record in `phase` shows. */
  function BoardMin(phase: Phase): nat {
    match phase
    case Idle => 0
    case Preflop => 0
    case Flop => 3
    case Turn => 4
    case River => 5
    case Showdown => 5
    case Complete => 3
  }

  function BoardMax(phase: Phase): nat {
    match phase
    case Idle => 0
    case Preflop => 0
    case Flop => 3
    case Turn => 4
    case River => 5
    case Showdown => 5
    case Complete => 5
  }

  /** The board has as many cards as the phase says: none before the flop, 3, 4, then 5. */
  predicate BoardMatchesPhase(r: Round) {
    BoardMin(r.phase) <= |r.community| <= BoardMax(r.phase)
  }

  /** A winner is named exactly from the showdown on, and is a player still in the hand. */
  predicate WinnerMatchesPhase(r: Round) {
    if r.phase == Showdown || r.phase == Complete then
      r.showdown && r.winner.Some? && r.winner.value in r.players && IsActive(r.winner.value)
    else r.winner == None && !r.showdown
  }

  /** The invariant of the round record. */
  predicate RoundOk(r: Round) {
    && (r.phase == Idle ==> r.players == [] && r.community == [] && r.deck == [] && r.pot == 0)
    && (r.phase != Idle ==> Dealt(r))
    && BoardMatchesPhase(r)
    && WinnerMatchesPhase(r)
  }

  /** The phase the record is in when each step other than `startRound` fires. */
  function PhaseBefore(step: Step): Phase {
    match step
    case StartRoundStep(_) => Complete
    case PreflopStep => Preflop
    case DealFlopStep => Preflop
    case FlopStep => Flop
    case DealTurnStep => Flop
    case TurnStep => Turn
    case DealRiverStep => Turn
    case RiverStep => River
    case ShowdownStep => River
    case EndRoundStep => Showdown
  }

  /**
   * What a step may assume about the record when its timer fires: the phase
   * it follows, all three players in at the preflop, at least two at the flop
   * deal, and for `startRound` the number of the round it starts.
   */
  predicate StepFits(r: Round, step: Step) {
    if step.StartRoundStep? then
      (r.phase == Complete && step.num == r.roundNumber + 1) || (r.phase == Idle && step.num == 1)
    else
      && r.phase == PhaseBefore(step)
      && (step == PreflopStep ==> |Active(r.players)| == 3)
      && (step == DealFlopStep ==> |Active(r.players)| >= 2)
  }

  /** The initial record keeps the invariant, and the first timer starts round 1. */
  lemma IdleOk()
    ensures RoundOk(IDLE_ROUND) && StepFits(IDLE_ROUND, StartRoundStep(1))
  {
  }

  // ---- the steps, as transitions of the record ----

  /** One `getRandomName(exclude)` draw that finds a name: that name then leaves the pool. */
  function DrawFrom(pool: seq<string>, exclude: seq<string>, pick: nat): (n: string)
    requires Distinct(pool) && pick < |Available(pool, exclude)|
    ensures n in pool && n !in exclude
    ensures |Available(pool, exclude + [n])| == |Available(pool, exclude)| - 1
  {
    var n := GetRandomName(pool, exclude, pick).value;
    AvailableShrinks(pool, exclude, n);
    n
  }

  /**
   * `startRound`'s names: each draw excludes the names drawn before it (the
   * source draws three, with `[]`, `[n1]` and `[n1, n2]` excluded), so the
   * names are different, from the pool, and none of the excluded ones.
   */
  function DrawNames(pool: seq<string>, exclude: seq<string>, picks: seq<nat>): (names: seq<string>)
    requires Distinct(pool)
    requires forall k :: 0 <= k < |picks| ==> picks[k] + k < |Available(pool, exclude)|
    ensures |names| == |picks|
    ensures forall i :: 0 <= i < |names| ==> names[i] in pool && names[i] !in exclude
    ensures forall i, j :: 0 <= i < j < |names| ==> names[i] != names[j]
    decreases |picks|
  {
    if picks == [] then []
    else
      var n := DrawFrom(pool, exclude, picks[0]);
      assert forall x :: x in exclude + [n] <==> x in exclude || x == n;
      [n] + DrawNames(pool, exclude + [n], picks[1..])
  }

  /** The record `startRound(num)` builds: the three drawn names seated, two cards each from the front of `d`. */
  function NewRound(names: seq<string>, d: seq<Card>, num: int): (r: Round)
    requires |names| == 3 && |d| >= 6
    ensures Roster(r.players) && Hands(r.players) + r.deck == d
    ensures forall i :: 0 <= i < 3 ==> r.players[i].name == names[i] && r.players[i].chips == Some(1000) && !r.players[i].folded
    ensures r.community == [] && r.pot == 30 && r.bets == ZERO_BETS && r.phase == Preflop
    ensures r.winner == None && !r.showdown && r.roundNumber == num
  {
    var seats := [
      Player(P1, names[0], Bottom, [d[0], d[1]], Some(1000), false),
      Player(P2, names[1], Left, [d[2], d[3]], Some(1000), false),
      Player(P3, names[2], Right, [d[4], d[5]], Some(1000), false),
      Player(DealerId, "Dealer", Top, [], None, false)
    ];
    RosterFacts(seats);
    assert Hands(seats) == d[..6];
    Round(seats, [], 30, Preflop, Some(Ticker("Dealer", DealingCards)), None, num, false, d[6..], ZERO_BETS)
  }

  /** A fresh round from a full shuffled deck keeps the invariant, with all three seats in the hand. */
  lemma NewRoundOk(names: seq<string>, d: seq<Card>, num: int)
    requires |names| == 3 && |d| == 52 && multiset(d) == multiset(FullDeck())
    ensures RoundOk(NewRound(names, d, num)) && StepFits(NewRound(names, d, num), PreflopStep)
  {
    var r := NewRound(names, d, num);
    RosterFacts(r.players);
    assert multiset(d) == multiset(Hands(r.players)) + multiset(r.deck) by {
      assert d == Hands(r.players) + r.deck;
    }
    assert CardsConserved(r) && |r.community| + |r.deck| == 46;
    FreshRoundOk(r);
  }

  /** A dealt record with an empty board, the blinds in the pot, no bets and every seat in the hand starts the preflop. */
  lemma FreshRoundOk(r: Round)
    requires Roster(r.players) && CardsConserved(r) && |r.community| + |r.deck| == 46
    requires r.community == [] && r.pot == 30 && r.bets == ZERO_BETS && r.phase == Preflop
    requires r.winner == None && !r.showdown
    requires !r.players[0].folded && !r.players[1].folded && !r.players[2].folded
    ensures RoundOk(r) && StepFits(r, PreflopStep)
  {
    RosterFacts(r.players);
  }

  /**
   * The betting move each betting step repeats: a fold marks the actor
   * folded, a wager adds the same amount to the pot and to the actor's bet;
   * the ticker names the actor and what they did.
   */
  function ActOn(r: Round, street: Phase, actor: Player, act: Action, roll: nat): (r': Round)
    requires IsStreet(street) && roll < RollSpan(street)
    ensures r'.community == r.community && r'.deck == r.deck && r'.phase == r.phase && r'.winner == r.winner
    ensures r'.pot >= r.pot
    ensures act != Fold && Wager(street, act, roll).Some? ==>
      r'.pot == r.pot + Wager(street, act, roll).value &&
      r'.bets == r.bets[actor.id := BetOf(r.bets, actor.id) + Wager(street, act, roll).value]
    ensures act == Fold || Wager(street, act, roll).None? ==> r'.pot == r.pot && r'.bets == r.bets
  {
    var w := Wager(street, act, roll);
    var shown := Some(Ticker(actor.name, Acted(act, w)));
    if act == Fold then r.(players := FoldActor(r.players, actor.id), action := shown)
    else if w.Some? then r.(pot := r.pot + w.value, bets := r.bets[actor.id := BetOf(r.bets, actor.id) + w.value], action := shown)
    else r.(action := shown)
  }

  /**
   * A betting move keeps the seats, the cards and the pot accounting: a fold
   * takes exactly the actor out of the hand, a wager raises the pot and the
   * actor's bet by the same amount, and nobody comes back from a fold.
   */
  lemma ActKeeps(r: Round, street: Phase, actor: Player, act: Action, roll: nat)
    requires Dealt(r) && !r.showdown && IsStreet(street) && roll < RollSpan(street)
    requires actor in r.players && IsActive(actor)
    ensures var r' := ActOn(r, street, actor, act, roll);
      && Roster(r'.players) && CardsConserved(r') && BetsOk(r'.bets, r'.pot, r'.showdown)
      && FoldsKept(r.players, r'.players)
      && r'.pot >= r.pot
      && |Active(r'.players)| == (if act == Fold then |Active(r.players)| - 1 else |Active(r.players)|)
      && r'.community == r.community && r'.deck == r.deck && r'.phase == r.phase
      && r'.winner == r.winner && r'.showdown == r.showdown && r'.roundNumber == r.roundNumber
  {
    RosterFacts(r.players);
    var r' := ActOn(r, street, actor, act, roll);
    if act == Fold {
      FoldKeepsHands(r.players, actor.id);
      FoldRemovesOne(r.players, actor);
      FoldKeepsRoster(r.players, actor.id);
      FoldActorSeats(r.players, actor.id);
    } else if Wager(street, act, roll).Some? {
      assert actor.id in ZERO_BETS;
    }
  }

  /** Dealing `n` cards moves them, in order, from the front of the deck to the end of the board. */
  lemma DealKeeps(r: Round, n: nat)
    requires CardsConserved(r) && n <= |r.deck|
    ensures CardsConserved(r.(community := r.community + r.deck[..n], deck := r.deck[n..]))
    ensures (r.community + r.deck[..n]) + r.deck[n..] == r.community + r.deck
  {
    assert r.deck == r.deck[..n] + r.deck[n..];
    assert multiset(r.deck) == multiset(r.deck[..n]) + multiset(r.deck[n..]);
  }

  /** `dealFlop`: the first three deck cards become the board. */
  function DealFlopOf(r: Round): (r': Round)
    requires |r.deck| >= 3
    ensures |r'.community| == 3 && r'.community + r'.deck == r.deck && r'.phase == Flop
  {
    assert r.deck[..3] + r.deck[3..] == r.deck;
    r.(community := r.deck[..3], deck := r.deck[3..], action := Some(Ticker("Dealer", FlopDealt)), phase := Flop)
  }

  /** `dealTurn` and `dealRiver`: the first deck card joins the board. */
  function DealCardOf(r: Round, next: Phase, event: TickerEvent): (r': Round)
    requires |r.deck| >= 1
    ensures |r'.community| == |r.community| + 1 && r'.community + r'.deck == r.community + r.deck
  {
    assert r.community + r.deck == r.community + [r.deck[0]] + r.deck[1..];
    r.(community := r.community + [r.deck[0]], deck := r.deck[1..], action := Some(Ticker("Dealer", event)), phase := next)
  }

  /** `showdown`: the active player at `pick` (else the first seat) wins; bets are zeroed, the pot stays. */
  function ShowdownOf(r: Round, pick: nat): (r': Round)
    requires |r.players| > 0 && (|Active(r.players)| == 0 || pick < |Active(r.players)|)
    ensures r'.winner.Some? && r'.pot == r.pot && r'.phase == Showdown
    ensures r'.bets == ZERO_BETS
  {
    r.(winner := Some(PickWinner(None, r.players, pick)), showdown := true, phase := Showdown,
       action := Some(Ticker("Dealer", ShowdownCalled)), bets := ZERO_BETS)
  }

  /** `endRound`: the winner already named stays, else one is picked; the ticker announces the pot. */
  function EndRoundOf(r: Round, pick: nat): (r': Round)
    requires |r.players| > 0 && (|Active(r.players)| == 0 || pick < |Active(r.players)|)
    ensures r'.winner.Some? && (r.winner.Some? ==> r'.winner == r.winner) && r'.phase == Complete
  {
    var w := PickWinner(r.winner, r.players, pick);
    r.(winner := Some(w), showdown := true, action := Some(Ticker(w.name, Wins(r.pot))), phase := Complete)
  }

  /** The step a betting street schedules next. */
  function StepAfter(street: Phase): (step: Step)
    ensures IsStreet(street) ==> PhaseBefore(step) == street && !step.StartRoundStep?
    ensures step == DealFlopStep <==> street == Preflop
  {
    if street == Preflop then DealFlopStep
    else if street == Flop then DealTurnStep
    else if street == Turn then DealRiverStep
    else ShowdownStep
  }

  /** The step that runs a betting street. */
  function StepOf(street: Phase): (step: Step)
    ensures IsStreet(street) ==> PhaseBefore(step) == street && !step.StartRoundStep?
    ensures step == PreflopStep <==> street == Preflop
  {
    if street == Preflop then PreflopStep
    else if street == Flop then FlopStep
    else if street == Turn then TurnStep
    else RiverStep
  }

  // ---- each step keeps the invariant and hands over to the step it schedules ----

  /**
   * One betting move on a street keeps the invariant; the pot never shrinks,
   * nobody comes back from a fold, and on the preflop, where all three start
   * in the hand, two are still in it afterwards.
   */
  lemma BetKeeps(r: Round, street: Phase, actorPick: nat, act: Action, roll: nat)
    requires RoundOk(r) && IsStreet(street) && StepFits(r, StepOf(street))
    requires street != Preflop ==> |Active(r.players)| >= 2
    requires actorPick < |Active(r.players)| && roll < RollSpan(street)
    ensures var r' := ActOn(r, street, Active(r.players)[actorPick], act, roll);
      && RoundOk(r') && StepFits(r', StepAfter(street))
      && FoldsKept(r.players, r'.players) && r.pot <= r'.pot
  {
    var actor := Active(r.players)[actorPick];
    ActiveMembers(r.players);
    ActKeeps(r, street, actor, act, roll);
  }

  /** `dealFlop` keeps the invariant; the three cards come off the front of the deck in order. */
  lemma DealFlopKeeps(r: Round)
    requires RoundOk(r) && StepFits(r, DealFlopStep)
    ensures |r.deck| >= 3
    ensures RoundOk(DealFlopOf(r)) && StepFits(DealFlopOf(r), FlopStep)
    ensures DealFlopOf(r).community + DealFlopOf(r).deck == r.deck
  {
    assert Dealt(r) && r.community == [] && !r.showdown;
    DealKeeps(r, 3);
    DealtBoardOk(r, DealFlopOf(r));
  }

  /** `dealTurn` keeps the invariant; the fourth board card comes off the front of the deck. */
  lemma DealTurnKeeps(r: Round)
    requires RoundOk(r) && StepFits(r, DealTurnStep)
    ensures |r.deck| >= 1
    ensures RoundOk(DealCardOf(r, Turn, TurnDealt)) && StepFits(DealCardOf(r, Turn, TurnDealt), TurnStep)
    ensures DealCardOf(r, Turn, TurnDealt).community + DealCardOf(r, Turn, TurnDealt).deck == r.community + r.deck
  {
    assert Dealt(r) && |r.community| == 3 && !r.showdown;
    DealKeeps(r, 1);
    assert r.deck[..1] == [r.deck[0]];
    DealtBoardOk(r, DealCardOf(r, Turn, TurnDealt));
  }

  /** `dealRiver` keeps the invariant; the fifth board card comes off the front of the deck. */
  lemma DealRiverKeeps(r: Round)
    requires RoundOk(r) && StepFits(r, DealRiverStep)
    ensures |r.deck| >= 1
    ensures RoundOk(DealCardOf(r, River, RiverDealt)) && StepFits(DealCardOf(r, River, RiverDealt), RiverStep)
    ensures DealCardOf(r, River, RiverDealt).community + DealCardOf(r, River, RiverDealt).deck == r.community + r.deck
  {
    assert Dealt(r) && |r.community| == 4 && !r.showdown;
    DealKeeps(r, 1);
    assert r.deck[..1] == [r.deck[0]];
    DealtBoardOk(r, DealCardOf(r, River, RiverDealt));
  }

  /**
   * Moving cards from the deck to the board before the showdown, touching
   * nothing but the ticker and the phase besides, keeps the invariant when
   * the board then has the new phase's card count.
   */
  lemma DealtBoardOk(r: Round, r': Round)
    requires Dealt(r) && !r.showdown && CardsConserved(r')
    requires r'.players == r.players && r'.pot == r.pot && r'.bets == r.bets && r'.showdown == r.showdown
    requires |r'.community| + |r'.deck| == |r.community| + |r.deck|
    requires IsStreet(r'.phase) && |r'.community| == BoardMin(r'.phase) && r'.winner == None
    ensures RoundOk(r')
  {
  }

  /** `showdown` keeps the invariant: the named winner is a player still in the hand. */
  lemma ShowdownKeeps(r: Round, pick: nat)
    requires RoundOk(r) && StepFits(r, ShowdownStep) && pick < |Active(r.players)|
    ensures RoundOk(ShowdownOf(r, pick)) && StepFits(ShowdownOf(r, pick), EndRoundStep)
  {
    RosterFacts(r.players);
  }

  /**
   * `endRound` keeps the invariant from any street on which it can run, and
   * schedules the next round's number.
   */
  lemma EndRoundKeeps(r: Round, pick: nat)
    requires RoundOk(r) && (r.phase == Flop || r.phase == Turn || r.phase == River || r.phase == Showdown)
    requires pick < |Active(r.players)|
    ensures RoundOk(EndRoundOf(r, pick)) && StepFits(EndRoundOf(r, pick), StartRoundStep(r.roundNumber + 1))
    ensures r.winner.Some? ==> EndRoundOf(r, pick).winner == r.winner
  {
    RosterFacts(r.players);
  }
}
