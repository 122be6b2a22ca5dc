/**
 * The manual hand stepper of the table demo: a "Deal Hand" button that gives
 * every seat two cards from a fresh shuffled deck, a "Next Street" button that
 * walks the phase along `PHASES` (dealing the board from the front of the deck
 * and growing the pot), and a "Reset" button.
 */
module ManualHand {
  import opened Wrappers
  import opened Deck

  datatype HandPhase = Waiting | Preflop | Flop | Turn | River | Showdown

  /** `PHASES`, in order. */
  const PHASES: seq<HandPhase> := [Waiting, Preflop, Flop, Turn, River, Showdown]

  /** `PHASES.indexOf(p)`. */
  function PhaseIndex(p: HandPhase): (i: nat)
    ensures i < |PHASES| && PHASES[i] == p
  {
    match p
    case Waiting => 0
    case Preflop => 1
    case Flop => 2
    case Turn => 3
    case River => 4
    case Showdown => 5
  }

  /** `PHASES[Math.min(idx + 1, PHASES.length - 1)]`. */
  function NextPhase(p: HandPhase): (q: HandPhase)
    ensures q != Waiting
  {
    var idx := PhaseIndex(p);
    PHASES[if idx + 1 < |PHASES| - 1 then idx + 1 else |PHASES| - 1]
  }

  /** The phase moves one place along `PHASES`, except that it stays at the showdown: it never goes back. */
  lemma NextPhaseSteps(p: HandPhase)
    ensures PhaseIndex(p) <= PhaseIndex(NextPhase(p))
    ensures p != Showdown ==> PhaseIndex(NextPhase(p)) == PhaseIndex(p) + 1
    ensures p == Showdown ==> NextPhase(p) == Showdown
  {
    var i := PhaseIndex(NextPhase(p));
    assert PHASES[i] == NextPhase(p);
    if PhaseIndex(p) == 0 { assert i == 1; }
    else if PhaseIndex(p) == 1 { assert i == 2; }
    else if PhaseIndex(p) == 2 { assert i == 3; }
    else if PhaseIndex(p) == 3 { assert i == 4; }
  }

  /** `canAdvance`: the Next Street button is enabled. */
  predicate CanAdvance(p: HandPhase)
    ensures CanAdvance(p) ==> p != Waiting && NextPhase(p) != p
  {
    p != Waiting && p != Showdown
  }

  /** The button is enabled exactly in the dealt phases where a step still changes the phase. */
  lemma CanAdvanceIff(p: HandPhase)
    ensures CanAdvance(p) <==> p != Waiting && NextPhase(p) != p
  {
    NextPhaseSteps(p);
  }

  /** How many board cards are showing in each phase. */
  function BoardSize(p: HandPhase): nat {
    match p
    case Waiting => 0
    case Preflop => 0
    case Flop => 3
    case Turn => 4
    case River => 5
    case Showdown => 5
  }

  /** How many cards entering phase `next` takes off the deck: three for the flop, one for the turn and river. */
  function CardsFor(next: HandPhase): nat {
    if next == Flop then 3 else if next == Turn || next == River then 1 else 0
  }

  /** Stepping from a dealt phase grows the board to the next phase's size. */
  lemma CardsForGrowsBoard(p: HandPhase)
    requires p != Waiting
    ensures BoardSize(NextPhase(p)) == BoardSize(p) + CardsFor(NextPhase(p))
  {
    NextPhaseSteps(p);
  }

  /** One seat of `INITIAL_PLAYERS`, with its hole cards. */
  datatype Seat = Seat(id: string, name: string, position: string, cards: seq<Card>, chips: Option<int>)

  const INITIAL_PLAYERS: seq<Seat> := [
    Seat("you", "You", "bottom", [], Some(1000)),
    Seat("left", "Agent_L", "left", [], Some(1000)),
    Seat("right", "Agent_R", "right", [], Some(1000)),
    Seat("dealer", "Dealer", "top", [], None)
  ]

  /** All hole cards, seat by seat. */
  function SeatHands(ps: seq<Seat>): seq<Card> {
    if ps == [] then [] else ps[0].cards + SeatHands(ps[1..])
  }

  /** `INITIAL_PLAYERS.map(p => ({ ...p, cards: [d[idx++], d[idx++]] }))`. */
  function DealSeats(ps: seq<Seat>, d: seq<Card>): (r: seq<Seat>)
    requires |d| >= 2 * |ps|
    ensures |r| == |ps|
  {
    if ps == [] then [] else [ps[0].(cards := d[..2])] + DealSeats(ps[1..], d[2..])
  }

  /** The hands together are the front `2 * |ps|` cards of the deck, in order. */
  lemma {:induction false} DealSeatsTakesFront(ps: seq<Seat>, d: seq<Card>)
    requires |d| >= 2 * |ps|
    ensures SeatHands(DealSeats(ps, d)) == d[..2 * |ps|]
  {
    if ps != [] {
      DealSeatsTakesFront(ps[1..], d[2..]);
      assert DealSeats(ps, d)[1..] == DealSeats(ps[1..], d[2..]);
      assert d[..2 * |ps|] == d[..2] + d[2..][..2 * |ps[1..]|];
    }
  }

  /** Seat `i` gets cards `2i` and `2i + 1`, and nothing else about a seat changes. */
  lemma {:induction false} DealSeatsAt(ps: seq<Seat>, d: seq<Card>)
    requires |d| >= 2 * |ps|
    ensures forall i :: 0 <= i < |ps| ==> DealSeats(ps, d)[i] == ps[i].(cards := [d[2 * i], d[2 * i + 1]])
  {
    if ps != [] {
      DealSeatsAt(ps[1..], d[2..]);
      var r := DealSeats(ps, d);
      assert r[1..] == DealSeats(ps[1..], d[2..]);
      forall i | 1 <= i < |ps|
        ensures r[i] == ps[i].(cards := [d[2 * i], d[2 * i + 1]])
      {
        assert r[i] == DealSeats(ps[1..], d[2..])[i - 1];
        assert ps[i] == ps[1..][i - 1];
        assert d[2..][2 * (i - 1)] == d[2 * i] && d[2..][2 * (i - 1) + 1] == d[2 * i + 1];
      }
      assert d[..2] == [d[0], d[1]];
    }
  }

  /**
   * The `setDeck` callback of `nextStreet`: the flop is the first three deck
   * cards, the turn and the river append the first deck card to the board,
   * other phases leave both alone; returns the board and the deck left.
   */
  function Street(next: HandPhase, community: seq<Card>, deck: seq<Card>): (r: (seq<Card>, seq<Card>))
    requires CardsFor(next) <= |deck|
    ensures r.1 == deck[CardsFor(next)..]
  {
    if next == Flop then ([deck[0], deck[1], deck[2]], deck[3..])
    else if next == Turn || next == River then (community + [deck[0]], deck[1..])
    else (community, deck)
  }

  /** From a dealt phase with its board, a street moves exactly `CardsFor` cards from the front of the deck to the end of the board. */
  lemma StreetTakesFront(phase: HandPhase, community: seq<Card>, deck: seq<Card>)
    requires phase != Waiting && |community| == BoardSize(phase) && |community| + |deck| == 44
    ensures CardsFor(NextPhase(phase)) <= |deck|
    ensures var n := CardsFor(NextPhase(phase));
      Street(NextPhase(phase), community, deck) == (community + deck[..n], deck[n..])
  {
    NextPhaseSteps(phase);
    var next := NextPhase(phase);
    if next == Flop {
      assert community == [] && CardsFor(next) == 3;
      assert community + deck[..3] == [deck[0], deck[1], deck[2]];
    } else if next == Turn || next == River {
      assert deck[..1] == [deck[0]];
    } else {
      assert community + deck[..0] == community && deck[0..] == deck;
    }
  }

  /**
   * What holds in every phase: the four seats; before a deal nothing is
   * dealt and the pot is empty; after it the 52 cards are split between the
   * hands, the board and the deck, the board has the phase's size and the pot
   * holds at least the 120 of blinds.
   */
  predicate TableOk(phase: HandPhase, players: seq<Seat>, community: seq<Card>, deck: seq<Card>, pot: int) {
    && |players| == 4
    && (phase == Waiting ==> players == INITIAL_PLAYERS && community == [] && deck == [] && pot == 0)
    && (phase != Waiting ==>
          && multiset(SeatHands(players) + community + deck) == multiset(FullDeck())
          && |SeatHands(players)| == 8
          && |community| == BoardSize(phase)
          && |community| + |deck| == 44
          && pot >= 120)
  }

  /** Dealing four seats from a fresh shuffled deck `d` keeps the table consistent. */
  lemma DealOk(ps: seq<Seat>, d: seq<Card>)
    requires |ps| == 4 && |d| == 52 && multiset(d) == multiset(FullDeck())
    ensures TableOk(Preflop, DealSeats(ps, d), [], d[8..], 120)
  {
    DealSeatsTakesFront(ps, d);
    assert SeatHands(DealSeats(ps, d)) + [] + d[8..] == d;
  }

  /** Stepping from a dealt phase moves the next cards from the front of the deck onto the board. */
  lemma StepOk(phase: HandPhase, players: seq<Seat>, community: seq<Card>, deck: seq<Card>, pot: int, grown: int)
    requires TableOk(phase, players, community, deck, pot) && phase != Waiting && grown >= 0
    ensures CardsFor(NextPhase(phase)) <= |deck|
    ensures var n := CardsFor(NextPhase(phase));
      TableOk(NextPhase(phase), players, community + deck[..n], deck[n..], pot + grown)
  {
    var next := NextPhase(phase);
    var n := CardsFor(next);
    CardsForGrowsBoard(phase);
    NextPhaseSteps(phase);
    assert n <= |deck|;
    assert community + deck[..n] + deck[n..] == community + deck;
    assert SeatHands(players) + (community + deck[..n]) + deck[n..] == SeatHands(players) + community + deck;
  }
}

/** The demo table's `useState` variables and its three buttons. */
module ManualHandTable {
  import opened Wrappers
  import opened Deck
  import opened ManualHand

  /** The phase, seats, board, deck and pot of the demo table. */
  class HandTable {
    var phase: HandPhase
    var players: seq<Seat>
    var community: seq<Card>
    var deck: seq<Card>
    var pot: int

    ghost predicate Valid()
      reads this
    {
      TableOk(phase, players, community, deck, pot)
    }

    /** The `useState` initial values. */
    constructor ()
      ensures Valid()
      ensures phase == Waiting && players == INITIAL_PLAYERS && community == [] && deck == [] && pot == 0
    {
      phase := Waiting;
      players := INITIAL_PLAYERS;
      community := [];
      deck := [];
      pot := 0;
    }

    /**
     * `deal`: each of the four seats, the dealer included, takes two cards
     * from the front of a fresh shuffled deck; 44 cards remain.
     */
    method Deal(swaps: seq<nat>)
      requires ValidPicks(52, swaps)
      modifies this
      ensures Valid()
      ensures var d := FisherYates(FullDeck(), swaps, 51);
        players == DealSeats(INITIAL_PLAYERS, d) && deck == d[8..]
      ensures SeatHands(players) + deck == FisherYates(FullDeck(), swaps, 51)
      ensures community == [] && pot == 120 && phase == Preflop
    {
      var made := MakeDeck();
      var d := Shuffle(made, swaps);
      DealOk(INITIAL_PLAYERS, d);
      DealSeatsTakesFront(INITIAL_PLAYERS, d);
      assert d[..8] + d[8..] == d;
      deck := d[8..];
      players := DealSeats(INITIAL_PLAYERS, d);
      community := [];
      pot := 120;
      phase := Preflop;
    }

    /**
     * `nextStreet`: one step along `PHASES`, clamped at the showdown. The
     * flop replaces the (empty) board with the first three deck cards, the
     * turn and the river each append the first deck card, and every step but
     * the one to the showdown adds `50 + roll` to the pot.
     */
    method NextStreet(roll: nat)
      requires Valid() && phase != Waiting && roll < 150
      modifies this
      ensures Valid()
      ensures phase == NextPhase(old(phase)) && players == old(players)
      ensures var n := CardsFor(phase);
        community == old(community) + old(deck)[..n] && deck == old(deck)[n..]
      ensures pot == old(pot) + (if phase != Showdown then 50 + roll else 0)
    {
      var next := NextPhase(phase);
      ghost var grown := if next != Showdown then 50 + roll else 0;
      StepOk(phase, players, community, deck, pot, grown);
      StreetTakesFront(phase, community, deck);
      var (board, remaining) := Street(next, community, deck);
      var newPot := if next != Showdown then pot + (roll + 50) else pot;
      community, deck, pot, phase := board, remaining, newPot, next;
    }

    /** `reset`: back to the initial seats, an empty board and deck, the waiting phase and an empty pot. */
    method Reset()
      modifies this
      ensures Valid()
      ensures phase == Waiting && players == INITIAL_PLAYERS && community == [] && deck == [] && pot == 0
    {
      players := INITIAL_PLAYERS;
      community := [];
      deck := [];
      phase := Waiting;
      pot := 0;
    }
  }
}
