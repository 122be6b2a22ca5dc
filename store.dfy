/**
 * The in-memory session store: its state value, the initial state, and
 * what recording a match result makes of it.
 */
module Store {
  import opened Wrappers
  import opened HistorySeed
  import opened Leaderboard

  /** The agent profile the session plays as. */
  datatype Agent = Agent(
    id: string,
    name: string,
    rank: string,
    elo: int,
    winRate: int,
    matches: int,
    style: string,
    avatar: string,
    color: string,
    description: string)

  /** `activeAgent`. */
  const ACTIVE_AGENT: Agent := Agent(
    "deepstack", "DeepStack v2.1", "Gold II", 1482, 61, 214, "Balanced", "DS", "#ef4444",
    "Deep reinforcement learning with multi-street decision trees.")

  /** The store's state; the source replaces it wholesale on every change. */
  datatype State = State(
    activeAgentId: string,
    agents: seq<Agent>,
    global: seq<Row>,
    weekly: seq<Row>,
    matchHistory: seq<Entry>,
    lastEloDelta: Option<int>,
    lastMatchId: Option<string>)

  const HISTORY_CAP: nat := 50

  /** A board as `sortByElo` leaves it: highest Elo first, numbered 1..n. */
  predicate BoardOk(b: seq<Row>) {
    Descending(b) && forall i :: 0 <= i < |b| ==> b[i].rank == Some(i + 1)
  }

  /** What every state of the store satisfies. */
  predicate StoreOk(st: State) {
    BoardOk(st.global) && BoardOk(st.weekly) && |st.matchHistory| <= HISTORY_CAP
  }

  /** `Math.round(n * 0.3)`: the integer nearest to three tenths of `n`, halves rounded up. */
  function ThreeTenths(n: int): (r: int)
    ensures 10 * r - 5 <= 3 * n < 10 * r + 5
  {
    (3 * n + 5) / 10
  }

  /**
   * The caller-supplied random choices of the weekly board, one per seed
   * row: the Elo jitter `Math.round((Math.random() - 0.5) * 60)` lies in
   * -30..30 and the streak `Math.floor(Math.random() * 7)` in 0..6.
   */
  predicate WeeklyChoicesOk(seed: seq<Row>, jitters: seq<int>, streaks: seq<int>) {
    && |jitters| == |seed| && |streaks| == |seed|
    && (forall i :: 0 <= i < |jitters| ==> -30 <= jitters[i] <= 30)
    && (forall i :: 0 <= i < |streaks| ==> 0 <= streaks[i] <= 6)
  }

  /** One weekly row: the seed row with jittered Elo, three tenths of its record and a random streak. */
  function WeeklyRow(e: Row, jitter: int, streak: int): (r: Row)
    ensures r.(elo := e.elo, wins := e.wins, losses := e.losses, streak := e.streak) == e
    ensures r.elo - e.elo == jitter && r.streak == streak
  {
    e.(elo := e.elo + jitter, wins := ThreeTenths(e.wins), losses := ThreeTenths(e.losses), streak := streak)
  }

  function WeeklyRows(seed: seq<Row>, jitters: seq<int>, streaks: seq<int>): (r: seq<Row>)
    requires |jitters| == |seed| && |streaks| == |seed|
    ensures |r| == |seed|
  {
    seq(|seed|, i requires 0 <= i < |seed| => WeeklyRow(seed[i], jitters[i], streaks[i]))
  }

  /** `buildInitialState`, given the two seeds and the weekly board's random choices. */
  function InitialState(seed: seq<Row>, history: seq<Entry>, jitters: seq<int>, streaks: seq<int>): (st: State)
    requires WeeklyChoicesOk(seed, jitters, streaks)
    ensures st.activeAgentId == ACTIVE_AGENT.id && st.matchHistory == history
    ensures st.lastEloDelta.None? && st.lastMatchId.None?
    ensures |st.global| == |seed| && |st.weekly| == |seed|
  {
    State(
      ACTIVE_AGENT.id,
      [ACTIVE_AGENT],
      SortByElo(seed),
      SortByElo(WeeklyRows(seed, jitters, streaks)),
      history,
      None,
      None)
  }

  /**
   * The initial state: the active agent, the global board sorted from the
   * seed, the given history, no last match; both boards sorted and numbered,
   * and the history within the cap when the seed is.
   */
  lemma InitialStateOk(seed: seq<Row>, history: seq<Entry>, jitters: seq<int>, streaks: seq<int>)
    requires WeeklyChoicesOk(seed, jitters, streaks)
    ensures var st := InitialState(seed, history, jitters, streaks);
      && st.activeAgentId == "deepstack" && st.agents == [ACTIVE_AGENT]
      && st.global == SortByElo(seed) && |st.global| == |seed| && |st.weekly| == |seed|
      && st.matchHistory == history
      && st.lastEloDelta == None && st.lastMatchId == None
      && BoardOk(st.global) && BoardOk(st.weekly)
      && (|history| <= HISTORY_CAP ==> StoreOk(st))
  {
    SortByEloSpec(seed);
    SortByEloSpec(WeeklyRows(seed, jitters, streaks));
  }

  /**
   * Every weekly row comes from a seed row: same agent and fields, an Elo
   * at most 30 away, wins and losses cut to three tenths, and a streak in 0..6.
   */
  lemma WeeklyRowFrom(seed: seq<Row>, jitters: seq<int>, streaks: seq<int>, i: int)
    requires WeeklyChoicesOk(seed, jitters, streaks) && 0 <= i < |seed|
    ensures var w := InitialState(seed, [], jitters, streaks).weekly[i];
      exists e :: (e in seed
        && w.agentId == e.agentId && w.agentName == e.agentName && w.ownerName == e.ownerName
        && w.badge == e.badge && w.isLive == e.isLive
        && e.elo - 30 <= w.elo <= e.elo + 30
        && w.wins == ThreeTenths(e.wins) && w.losses == ThreeTenths(e.losses)
        && 0 <= w.streak <= 6
        && w.rank == Some(i + 1))
  {
    var ws := WeeklyRows(seed, jitters, streaks);
    SortByEloFrom(ws, i);
    var q :| q in ws && SortByElo(ws)[i] == q.(rank := Some(i + 1));
    var j :| 0 <= j < |ws| && ws[j] == q;
    assert seed[j] in seed;
  }

  /** A `recordMatchResult` argument; `None` is a field the caller left out. */
  datatype Summary = Summary(
    matchId: Option<string>,
    opponentName: Option<string>,
    opponentId: Option<string>,
    outcome: Option<string>,
    eloDelta: Option<int>,
    timestamp: Option<int>,
    stats: Option<MatchStats>,
    replayRef: Option<string>)

  /**
   * The history entry for a summary, with the destructuring defaults applied;
   * `freshId` stands for `generateMatchId()` and `now` for `Date.now()`.
   * A left-out `stats` is the empty object and a left-out `replayRef` is
   * `null`, so both carry over as given.
   */
  function EntryOf(sum: Summary, freshId: string, now: int): (e: Entry)
    ensures e.outcome == "win" ==> e.eloDelta >= 0
    ensures e.outcome != "win" ==> e.eloDelta <= 0
  {
    var outcome := sum.outcome.GetOr("win");
    Entry(
      sum.matchId.GetOr(freshId),
      sum.opponentName.GetOr("Unknown"),
      sum.opponentId.GetOr("unknown"),
      outcome,
      SignedDelta(outcome, sum.eloDelta.GetOr(0)),
      sum.timestamp.GetOr(now),
      sum.replayRef,
      sum.stats)
  }

  /**
   * The defaults: a missing opponent is "Unknown"/"unknown", a missing
   * outcome a win, a missing delta 0, a missing id or time the fresh ones;
   * given fields are kept; the recorded delta is the signed one.
   */
  lemma EntryDefaults(sum: Summary, freshId: string, now: int)
    ensures var e := EntryOf(sum, freshId, now);
      && (sum.matchId.None? ==> e.matchId == freshId)
      && (sum.opponentName.None? ==> e.opponentName == "Unknown")
      && (sum.opponentId.None? ==> e.opponentId == "unknown")
      && (sum.outcome.None? ==> e.outcome == "win")
      && (sum.eloDelta.None? ==> e.eloDelta == 0)
      && (sum.timestamp.None? ==> e.timestamp == now)
      && (sum.matchId.Some? ==> e.matchId == sum.matchId.value)
      && (sum.opponentName.Some? ==> e.opponentName == sum.opponentName.value)
      && (sum.outcome.Some? ==> e.outcome == sum.outcome.value)
      && (sum.timestamp.Some? ==> e.timestamp == sum.timestamp.value)
      && (sum.opponentId.Some? ==> e.opponentId == sum.opponentId.value)
      && e.stats == sum.stats
      && e.replayRef == sum.replayRef
      && (sum.eloDelta.Some? ==> e.eloDelta == sum.eloDelta.value || e.eloDelta == -sum.eloDelta.value)
      && (e.outcome == "win" ==> e.eloDelta >= 0)
      && (e.outcome != "win" ==> e.eloDelta <= 0)
  {
  }

  /** `[entry, ...history].slice(0, 50)`. */
  function Prepend(e: Entry, h: seq<Entry>): (r: seq<Entry>)
    ensures 1 <= |r| <= HISTORY_CAP && r[0] == e
  {
    var full := [e] + h;
    if |full| <= HISTORY_CAP then full else full[..HISTORY_CAP]
  }

  /** The new entry comes first, the old history follows in order, and at most 50 entries remain. */
  lemma PrependSpec(e: Entry, h: seq<Entry>)
    ensures var r := Prepend(e, h);
      && |r| == (if |h| + 1 <= HISTORY_CAP then |h| + 1 else HISTORY_CAP)
      && r[0] == e
      && r[1..] == h[..|r| - 1]
  {
  }

  /** `recordMatchResult` on the state value. */
  function RecordMatch(st: State, sum: Summary, freshId: string, now: int): (r: State)
    ensures r.activeAgentId == st.activeAgentId && r.agents == st.agents
    ensures r.lastMatchId.Some? && r.lastEloDelta.Some?
  {
    var e := EntryOf(sum, freshId, now);
    st.(
      global := RecordOnBoard(st.global, st.activeAgentId, e.outcome, e.eloDelta),
      weekly := RecordOnBoard(st.weekly, st.activeAgentId, e.outcome, e.eloDelta),
      matchHistory := Prepend(e, st.matchHistory),
      lastEloDelta := Some(e.eloDelta),
      lastMatchId := Some(e.matchId))
  }

  /**
   * Recording a match keeps the active agent and the agent list, keeps both
   * boards sorted and numbered and the history within its cap, puts the
   * new entry first, and sets the last delta and match id to the entry's.
   */
  lemma RecordMatchKeeps(st: State, sum: Summary, freshId: string, now: int)
    requires StoreOk(st)
    ensures var r := RecordMatch(st, sum, freshId, now);
      && StoreOk(r)
      && r.activeAgentId == st.activeAgentId && r.agents == st.agents
      && |r.global| == |st.global| && |r.weekly| == |st.weekly|
      && r.matchHistory[0] == EntryOf(sum, freshId, now)
      && r.matchHistory[1..] == st.matchHistory[..|r.matchHistory| - 1]
      && r.lastEloDelta == Some(SignedDelta(sum.outcome.GetOr("win"), sum.eloDelta.GetOr(0)))
      && r.lastMatchId == Some(sum.matchId.GetOr(freshId))
  {
    var e := EntryOf(sum, freshId, now);
    RecordOnBoardShape(st.global, st.activeAgentId, e.outcome, e.eloDelta);
    RecordOnBoardShape(st.weekly, st.activeAgentId, e.outcome, e.eloDelta);
    PrependSpec(e, st.matchHistory);
  }
}

/** The module-level `_state` and `_listeners` of the store and its exported API. */
module MockStore {
  import opened Wrappers
  import opened HistorySeed
  import opened Leaderboard
  import opened Store

  /** One `_emit()`: the listeners called and the state they were given. */
  datatype Delivery = Delivery(listeners: set<nat>, snapshot: State)

  /**
   * The store. Listeners are known by an identity; `deliveries` records
   * every `_emit` in order.
   */
  class MockStore {
    var state: State
    var listeners: set<nat>
    var deliveries: seq<Delivery>
    /** `leaderboardSeed`. */
    const leaderboardSeed: seq<Row>
    /** `historySeed`, as built when the module loaded. */
    const historySeed: seq<Entry>

    ghost predicate Valid()
      reads this
    {
      StoreOk(state) && |historySeed| <= HISTORY_CAP
    }

    /** Module load: `historySeed` is read at `loadTime` and `_state = buildInitialState()`. */
    constructor (seed: seq<Row>, loadTime: int, jitters: seq<int>, streaks: seq<int>)
      requires WeeklyChoicesOk(seed, jitters, streaks)
      ensures Valid()
      ensures leaderboardSeed == seed && historySeed == Seed(loadTime)
      ensures state == InitialState(seed, Seed(loadTime), jitters, streaks)
      ensures listeners == {} && deliveries == []
    {
      leaderboardSeed := seed;
      historySeed := Seed(loadTime);
      state := InitialState(seed, Seed(loadTime), jitters, streaks);
      listeners := {};
      deliveries := [];
      InitialStateOk(seed, Seed(loadTime), jitters, streaks);
    }

    /** `getState`. */
    method GetState() returns (r: State)
      ensures r == state
    {
      r := state;
    }

    /** `_emit`: every current listener is called with the current state. */
    method Emit()
      modifies this
      ensures deliveries == old(deliveries) + [Delivery(listeners, state)]
      ensures state == old(state) && listeners == old(listeners)
    {
      deliveries := deliveries + [Delivery(listeners, state)];
    }

    /** `subscribe`: adds the listener; the returned handle stands for the unsubscribe function. */
    method Subscribe(listener: nat) returns (handle: nat)
      modifies this
      ensures listeners == old(listeners) + {listener} && handle == listener
      ensures state == old(state) && deliveries == old(deliveries)
    {
      listeners := listeners + {listener};
      handle := listener;
    }

    /** The function `subscribe` returned: removes exactly its own listener. */
    method Unsubscribe(handle: nat)
      modifies this
      ensures listeners == old(listeners) - {handle}
      ensures state == old(state) && deliveries == old(deliveries)
    {
      listeners := listeners - {handle};
    }

    /** `setActiveAgent`: only the active agent id changes; listeners are told. */
    method SetActiveAgent(agentId: string)
      requires Valid()
      modifies this
      ensures Valid()
      ensures state == old(state).(activeAgentId := agentId)
      ensures listeners == old(listeners)
      ensures deliveries == old(deliveries) + [Delivery(listeners, state)]
    {
      state := state.(activeAgentId := agentId);
      Emit();
    }

    /** `recordMatchResult`; `freshId` and `now` stand for `generateMatchId()` and `Date.now()`. */
    method RecordMatchResult(sum: Summary, freshId: string, now: int) returns (r: State)
      requires Valid()
      modifies this
      ensures Valid()
      ensures state == RecordMatch(old(state), sum, freshId, now) && r == state
      ensures listeners == old(listeners)
      ensures deliveries == old(deliveries) + [Delivery(listeners, state)]
    {
      RecordMatchKeeps(state, sum, freshId, now);
      state := RecordMatch(state, sum, freshId, now);
      Emit();
      r := state;
    }

    /** `resetSession`: a fresh initial state with new weekly random choices; listeners are told. */
    method ResetSession(jitters: seq<int>, streaks: seq<int>)
      requires Valid() && WeeklyChoicesOk(leaderboardSeed, jitters, streaks)
      modifies this
      ensures Valid()
      ensures state == InitialState(leaderboardSeed, historySeed, jitters, streaks)
      ensures listeners == old(listeners)
      ensures deliveries == old(deliveries) + [Delivery(listeners, state)]
    {
      InitialStateOk(leaderboardSeed, historySeed, jitters, streaks);
      state := InitialState(leaderboardSeed, historySeed, jitters, streaks);
      Emit();
    }
  }
}
