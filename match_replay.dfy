/**
 * The match replay screen: card strings such as "Ah", the action labels,
 * the reducer that folds one match event into the displayed match state,
 * and the clock in the header.
 */
module MatchReplay {
  import opened Wrappers
  import opened Text

  /** A card string split into rank and suit letter, with its display symbol and colour. */
  datatype ParsedCard = ParsedCard(rank: string, suit: char, symbol: string, red: bool)

  /** `SUIT_SYMBOLS[suit] || suit`. */
  function SuitSymbol(suit: char): string {
    if suit == 'h' then "♥"
    else if suit == 'd' then "♦"
    else if suit == 'c' then "♣"
    else if suit == 's' then "♠"
    else [suit]
  }

  /** `parseCard`: `null` for the empty string, else the last character is the suit and the rest the rank. */
  function ParseCard(str: string): (r: Option<ParsedCard>)
    ensures r.None? <==> str == ""
  {
    if str == "" then None
    else
      var suit := str[|str| - 1];
      Some(ParsedCard(str[..|str| - 1], suit, SuitSymbol(suit), suit == 'h' || suit == 'd'))
  }

  /**
   * `parseCard` loses nothing: a non-empty string is its rank followed by its
   * suit, and any rank followed by a suit letter parses back to them; red
   * means hearts or diamonds; an unknown suit letter is its own symbol.
   */
  lemma ParseCardSpec(str: string)
    ensures ParseCard(str).None? <==> str == ""
    ensures ParseCard(str).Some? ==> var c := ParseCard(str).value;
      && c.rank + [c.suit] == str
      && (c.red <==> c.suit == 'h' || c.suit == 'd')
      && (c.suit != 'h' && c.suit != 'd' && c.suit != 'c' && c.suit != 's' ==> c.symbol == [c.suit])
  {
    if str != "" {
      assert str[..|str| - 1] + [str[|str| - 1]] == str;
    }
  }

  lemma ParseCardOfParts(rank: string, suit: char)
    ensures ParseCard(rank + [suit]).Some?
    ensures ParseCard(rank + [suit]).value.rank == rank && ParseCard(rank + [suit]).value.suit == suit
  {
    assert (rank + [suit])[..|rank|] == rank;
  }

  /** `verb.charAt(0).toUpperCase() + verb.slice(1)`. */
  function Capitalized(verb: string): (r: string)
    ensures |r| == |verb|
    ensures verb != [] ==> r[0] == UpperChar(verb[0]) && r[1..] == verb[1..]
  {
    if verb == [] then [] else [UpperChar(verb[0])] + verb[1..]
  }

  /** `formatAction`: the capitalised verb, followed by " amount" when there is a positive amount. */
  function FormatAction(verb: string, amount: Option<int>): (r: string)
    ensures Capitalized(verb) <= r
    ensures |r| == |verb| <==> amount.None? || amount.value <= 0
  {
    if amount.Some? && amount.value > 0 then Capitalized(verb) + " " + NatToString(amount.value)
    else Capitalized(verb)
  }

  /**
   * The label starts with the capitalised verb; exactly for a positive
   * amount it goes on with a space and digits that read back as the amount.
   */
  lemma FormatActionSpec(verb: string, amount: Option<int>)
    ensures var r := FormatAction(verb, amount);
      && |r| >= |verb| && r[..|verb|] == Capitalized(verb)
      && (|r| > |verb| <==> amount.Some? && amount.value > 0)
      && (amount.Some? && amount.value > 0 ==>
            r[|verb|] == ' ' && AllDigits(r[|verb| + 1..]) && DigitsValue(r[|verb| + 1..]) == amount.value)
  {
    var r := FormatAction(verb, amount);
    if amount.Some? && amount.value > 0 {
      NatToStringRoundTrip(amount.value);
      assert r[|verb| + 1..] == NatToString(amount.value);
    }
  }

  /** Both seats' chip stacks. */
  datatype Stacks = Stacks(a: int, b: int)

  /** One line of the action log; the source renders each as a typed text line. */
  datatype LogEntry =
    | Divider(hand: int)
    | ActionLine(actor: string, name: string, action: string)
    | DealerLine(street: string, cards: seq<string>)
    | ShowdownLine(reason: string)
    | WinnerLine(name: string, amount: Option<int>)
    | MatchOverLine(name: string)

  /** What the screen shows of the match; `actionLog` is newest first. */
  datatype MatchState = MatchState(
    hand: int,
    board: seq<string>,
    pot: int,
    stacks: Stacks,
    lastAction: map<string, Option<string>>,
    actionLog: seq<LogEntry>,
    winner: Option<string>,
    showCards: bool)

  const NO_ACTIONS: map<string, Option<string>> := map["a" := None, "b" := None]

  /** `INITIAL_MATCH_STATE`. */
  const INITIAL_MATCH_STATE: MatchState := MatchState(1, [], 0, Stacks(1000, 1000), NO_ACTIONS, [], None, false)

  /** The payload fields the reducer reads; `None` is a field the event leaves out. */
  datatype Payload = Payload(
    actor: string,
    verb: string,
    amount: Option<int>,
    cards: seq<string>,
    card: string,
    reason: string,
    pot: Option<int>,
    stacks: Option<Stacks>)

  datatype Event = Event(kind: string, payload: Payload, handNumber: int)

  /** The two agents' display names. */
  datatype Names = Names(a: string, b: string)

  /** The event types `applyEvent` handles; any other type falls to `default`. */
  predicate Handled(kind: string) {
    || kind == "hand_start" || kind == "action" || kind == "deal_flop" || kind == "deal_turn"
    || kind == "deal_river" || kind == "showdown" || kind == "pot_awarded" || kind == "match_end"
  }

  /** Seat "a" is agent A; every other actor is shown as agent B. */
  function NameOf(actor: string, names: Names): string {
    if actor == "a" then names.a else names.b
  }

  /** The log line a handled event prepends. */
  function LogEntryOf(ev: Event, names: Names): LogEntry
    requires Handled(ev.kind)
  {
    var p := ev.payload;
    match ev.kind
    case "hand_start" => Divider(ev.handNumber)
    case "action" => ActionLine(p.actor, NameOf(p.actor, names), FormatAction(p.verb, p.amount))
    case "deal_flop" => DealerLine("Flop", p.cards)
    case "deal_turn" => DealerLine("Turn", [p.card])
    case "deal_river" => DealerLine("River", [p.card])
    case "showdown" => ShowdownLine(p.reason)
    case "pot_awarded" => WinnerLine(NameOf(p.actor, names), p.amount)
    case _ => MatchOverLine(names.a)
  }

  /** The state fields other than the log that an event sets. */
  function Updated(ev: Event, st: MatchState): MatchState {
    var p := ev.payload;
    match ev.kind
    case "hand_start" =>
      st.(hand := ev.handNumber, board := [], showCards := false, winner := None,
          pot := p.pot.GetOr(15), stacks := p.stacks.GetOr(st.stacks), lastAction := NO_ACTIONS)
    case "action" =>
      st.(pot := p.pot.GetOr(st.pot), stacks := p.stacks.GetOr(st.stacks),
          lastAction := st.lastAction[p.actor := Some(FormatAction(p.verb, p.amount))])
    case "deal_flop" =>
      st.(board := p.cards, pot := p.pot.GetOr(st.pot), stacks := p.stacks.GetOr(st.stacks))
    case "deal_turn" =>
      st.(board := st.board + [p.card], pot := p.pot.GetOr(st.pot), stacks := p.stacks.GetOr(st.stacks))
    case "deal_river" =>
      st.(board := st.board + [p.card], pot := p.pot.GetOr(st.pot), stacks := p.stacks.GetOr(st.stacks))
    case "showdown" => st.(showCards := true)
    case "pot_awarded" => st.(stacks := p.stacks.GetOr(st.stacks), winner := Some(p.actor))
    case _ => st
  }

  /** `applyEvent`: a new state; the incoming one is a value and stays as it was. */
  function ApplyEvent(ev: Event, st: MatchState, names: Names): (r: MatchState)
    ensures !Handled(ev.kind) ==> r == st
    ensures Handled(ev.kind) ==> r.actionLog == [LogEntryOf(ev, names)] + st.actionLog
  {
    if Handled(ev.kind) then Updated(ev, st).(actionLog := [LogEntryOf(ev, names)] + st.actionLog)
    else st
  }

  /**
   * An unknown event type changes nothing; a handled one prepends exactly
   * one log line and keeps the rest of the log.
   */
  lemma ApplyEventLog(ev: Event, st: MatchState, names: Names)
    ensures !Handled(ev.kind) ==> ApplyEvent(ev, st, names) == st
    ensures Handled(ev.kind) ==> var r := ApplyEvent(ev, st, names);
      |r.actionLog| == |st.actionLog| + 1 && r.actionLog[0] == LogEntryOf(ev, names) && r.actionLog[1..] == st.actionLog
  {
  }

  /**
   * A new hand clears the board, the winner, the revealed cards and both
   * last actions, and takes the payload's pot or 15.
   */
  lemma HandStartResets(ev: Event, st: MatchState, names: Names)
    requires ev.kind == "hand_start"
    ensures var r := ApplyEvent(ev, st, names);
      && r.hand == ev.handNumber && r.board == [] && !r.showCards && r.winner == None
      && r.lastAction == NO_ACTIONS && r.lastAction["a"] == None && r.lastAction["b"] == None
      && (ev.payload.pot.None? ==> r.pot == 15)
      && (ev.payload.pot.Some? ==> r.pot == ev.payload.pot.value)
  {
  }

  /**
   * An action sets only the acting side's last action, and overwrites the
   * pot and stacks only when the payload carries them; the hand, board,
   * winner and revealed cards stay.
   */
  lemma ActionTouchesActor(ev: Event, st: MatchState, names: Names)
    requires ev.kind == "action"
    ensures var r := ApplyEvent(ev, st, names);
      && r.lastAction[ev.payload.actor] == Some(FormatAction(ev.payload.verb, ev.payload.amount))
      && (forall k :: k in st.lastAction && k != ev.payload.actor ==> k in r.lastAction && r.lastAction[k] == st.lastAction[k])
      && r.lastAction.Keys == st.lastAction.Keys + {ev.payload.actor}
      && (ev.payload.pot.None? ==> r.pot == st.pot)
      && (ev.payload.stacks.None? ==> r.stacks == st.stacks)
      && r.hand == st.hand && r.board == st.board && r.winner == st.winner && r.showCards == st.showCards
  {
  }

  /** The flop sets the board to exactly its cards; the turn and the river each append exactly one. */
  lemma DealsSetBoard(ev: Event, st: MatchState, names: Names)
    requires ev.kind == "deal_flop" || ev.kind == "deal_turn" || ev.kind == "deal_river"
    ensures var r := ApplyEvent(ev, st, names);
      && (ev.kind == "deal_flop" ==> r.board == ev.payload.cards)
      && (ev.kind != "deal_flop" ==> r.board == st.board + [ev.payload.card] && |r.board| == |st.board| + 1)
      && r.lastAction == st.lastAction && r.winner == st.winner && r.showCards == st.showCards
  {
  }

  /** The showdown reveals the cards; the award names the actor as winner; the match end only logs. */
  lemma EndingsSetFlags(ev: Event, st: MatchState, names: Names)
    ensures ev.kind == "showdown" ==> ApplyEvent(ev, st, names).showCards
    ensures ev.kind == "showdown" ==> ApplyEvent(ev, st, names).board == st.board
    ensures ev.kind == "pot_awarded" ==> ApplyEvent(ev, st, names).winner == Some(ev.payload.actor)
    ensures ev.kind == "match_end" ==> ApplyEvent(ev, st, names) == st.(actionLog := [MatchOverLine(names.a)] + st.actionLog)
  {
  }

  /** The events applied one after another, oldest first. */
  function ApplyAll(evs: seq<Event>, st: MatchState, names: Names): MatchState {
    if evs == [] then st else ApplyEvent(evs[|evs| - 1], ApplyAll(evs[..|evs| - 1], st, names), names)
  }

  /** Applying one more event to a replayed list is replaying the longer list. */
  lemma ApplyAllSnoc(evs: seq<Event>, ev: Event, st: MatchState, names: Names)
    ensures ApplyAll(evs + [ev], st, names) == ApplyEvent(ev, ApplyAll(evs, st, names), names)
  {
    assert (evs + [ev])[..|evs|] == evs;
  }

  /** The log lines of the handled events, oldest first. */
  function LogOf(evs: seq<Event>, names: Names): seq<LogEntry> {
    if evs == [] then []
    else LogOf(evs[..|evs| - 1], names) + (if Handled(evs[|evs| - 1].kind) then [LogEntryOf(evs[|evs| - 1], names)] else [])
  }

  function Reverse<T>(s: seq<T>): (r: seq<T>)
    ensures |r| == |s|
  {
    if s == [] then [] else Reverse(s[1..]) + [s[0]]
  }

  lemma ReversePrepend<T>(x: T, s: seq<T>)
    ensures Reverse([x] + s) == Reverse(s) + [x]
  {
    assert ([x] + s)[1..] == s;
  }

  /**
   * The log is newest first, so the display's reversal lists the lines of
   * the applied events in the order they happened, after whatever was there.
   */
  lemma {:induction false} DisplayLogInOrder(evs: seq<Event>, st: MatchState, names: Names)
    ensures Reverse(ApplyAll(evs, st, names).actionLog) == Reverse(st.actionLog) + LogOf(evs, names)
  {
    if evs != [] {
      var init, ev := evs[..|evs| - 1], evs[|evs| - 1];
      var mid := ApplyAll(init, st, names);
      DisplayLogInOrder(init, st, names);
      if Handled(ev.kind) {
        ReversePrepend(LogEntryOf(ev, names), mid.actionLog);
      }
    }
  }

  /** The header clock: whole minutes and the remaining seconds, each padded to two digits. */
  function Clock(elapsed: nat): (r: (string, string))
    ensures |r.1| == 2 && |r.0| >= 2
  {
    (ClockField(elapsed / 60), ClockField(elapsed % 60))
  }

  /** The two fields read back as minutes and seconds that make up the elapsed time. */
  lemma ClockSpec(elapsed: nat)
    ensures var (m, s) := Clock(elapsed);
      && |m| >= 2 && |s| == 2 && AllDigits(m) && AllDigits(s)
      && 60 * DigitsValue(m) + DigitsValue(s) == elapsed && DigitsValue(s) < 60
  {
  }
}

/** The playback loop of the replay screen. */
module MatchPlayback {
  import opened Wrappers
  import opened MatchReplay

  /**
   * The playback state: the match state, the index of the next event, the
   * play/pause flag, the elapsed seconds and the replay counter. `applied`
   * is the list of events folded in so far.
   */
  class Playback {
    const events: seq<Event>
    const names: Names
    var matchState: MatchState
    var eventIdx: nat
    var isPlaying: bool
    var elapsed: nat
    var replayKey: nat
    /** The match-end timer that moves on to the result screen has been set. */
    var resultScheduled: bool
    ghost var applied: seq<Event>

    ghost predicate Valid()
      reads this
    {
      eventIdx <= |events| && matchState == ApplyAll(applied, INITIAL_MATCH_STATE, names)
    }

    constructor (events: seq<Event>, names: Names)
      ensures Valid()
      ensures this.events == events && this.names == names
      ensures matchState == INITIAL_MATCH_STATE && eventIdx == 0 && isPlaying && elapsed == 0
      ensures replayKey == 0 && !resultScheduled && applied == []
    {
      this.events := events;
      this.names := names;
      matchState := INITIAL_MATCH_STATE;
      eventIdx := 0;
      isPlaying := true;
      elapsed := 0;
      replayKey := 0;
      resultScheduled := false;
      applied := [];
    }

    /**
     * The event timer fires (one is set only while an event remains): when
     * still playing, the current event is applied, and the index moves on by
     * one unless the event ends the match, which sets the result timer.
     */
    method FireEvent()
      requires Valid() && eventIdx < |events|
      modifies this
      ensures Valid()
      ensures !old(isPlaying) ==> matchState == old(matchState) && eventIdx == old(eventIdx) && applied == old(applied)
      ensures old(isPlaying) ==> var ev := events[old(eventIdx)];
        && matchState == ApplyEvent(ev, old(matchState), names)
        && applied == old(applied) + [ev]
        && eventIdx == old(eventIdx) + (if ev.kind == "match_end" then 0 else 1)
        && resultScheduled == (old(resultScheduled) || ev.kind == "match_end")
      ensures isPlaying == old(isPlaying) && elapsed == old(elapsed) && replayKey == old(replayKey)
    {
      if !isPlaying {
        return;
      }
      var ev := events[eventIdx];
      ApplyAllSnoc(applied, ev, INITIAL_MATCH_STATE, names);
      matchState := ApplyEvent(ev, matchState, names);
      applied := applied + [ev];
      if ev.kind == "match_end" {
        resultScheduled := true;
      } else {
        eventIdx := eventIdx + 1;
      }
    }

    /** The one-second clock: counts only while playing. */
    method Tick()
      modifies this
      ensures elapsed == old(elapsed) + (if isPlaying then 1 else 0)
      ensures matchState == old(matchState) && eventIdx == old(eventIdx) && isPlaying == old(isPlaying)
      ensures applied == old(applied) && replayKey == old(replayKey) && resultScheduled == old(resultScheduled)
    {
      if isPlaying {
        elapsed := elapsed + 1;
      }
    }

    /** `handlePause`. */
    method Pause()
      requires Valid()
      modifies this
      ensures Valid() && !isPlaying
      ensures matchState == old(matchState) && eventIdx == old(eventIdx) && elapsed == old(elapsed)
      ensures applied == old(applied) && replayKey == old(replayKey) && resultScheduled == old(resultScheduled)
    {
      isPlaying := false;
    }

    /** `handleResume`. */
    method Resume()
      requires Valid()
      modifies this
      ensures Valid() && isPlaying
      ensures matchState == old(matchState) && eventIdx == old(eventIdx) && elapsed == old(elapsed)
      ensures applied == old(applied) && replayKey == old(replayKey) && resultScheduled == old(resultScheduled)
    {
      isPlaying := true;
    }

    /** `handleReplay`: back to the initial match state, the first event and a zero clock, playing. */
    method Replay()
      modifies this
      ensures Valid()
      ensures matchState == INITIAL_MATCH_STATE && eventIdx == 0 && elapsed == 0 && isPlaying
      ensures replayKey == old(replayKey) + 1 && applied == [] && resultScheduled == old(resultScheduled)
    {
      matchState := INITIAL_MATCH_STATE;
      eventIdx := 0;
      elapsed := 0;
      isPlaying := true;
      replayKey := replayKey + 1;
      applied := [];
    }
  }
}
