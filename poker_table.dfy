/**
 * The display rules of the felt table: which hole cards show face up, the
 * chip stack drawn for a bet, the five board slots, the pot label, the
 * placeholders of an empty hand and the winner highlight.
 */
module PokerTable {
  import opened Wrappers
  import opened Text

  /** The props one hole card is drawn with. */
  datatype CardFace = CardFace(faceUp: bool, peeking: bool, folded: bool)

  /**
   * `Seat.cardProps`: a folded seat's cards are down whatever else holds;
   * then all cards show in simulation mode, for the "you" seat and in the
   * dealer's view; the dealer's own cards show while the dealer peeks.
   */
  function CardProps(id: string, folded: bool, showAllCards: bool, isDealerView: bool, dealerPeeking: bool): (c: CardFace)
    ensures c.peeking ==> c.faceUp
  {
    if folded then CardFace(false, false, true)
    else if showAllCards then CardFace(true, false, false)
    else if id == "you" then CardFace(true, false, false)
    else if isDealerView then CardFace(true, false, false)
    else if id == "dealer" && dealerPeeking then CardFace(true, true, false)
    else CardFace(false, false, false)
  }

  /**
   * Folding wins over every other rule; otherwise a card is up exactly when
   * one of the four showing rules applies, and it peeks exactly when only
   * the dealer's peek applies.
   */
  lemma CardPropsSpec(id: string, folded: bool, showAllCards: bool, isDealerView: bool, dealerPeeking: bool)
    ensures var c := CardProps(id, folded, showAllCards, isDealerView, dealerPeeking);
      && (c.folded <==> folded)
      && (folded ==> !c.faceUp && !c.peeking)
      && (c.faceUp <==> !folded && (showAllCards || id == "you" || isDealerView || (id == "dealer" && dealerPeeking)))
      && (c.peeking <==> !folded && !showAllCards && id != "you" && !isDealerView && id == "dealer" && dealerPeeking)
  {
  }

  const CHIP_COLORS: seq<string> := ["#e01b2d", "#1a6fe8", "#1db954", "#ffd700", "#9b59b6"]

  /** A drawn bet: the number of chip circles and their colour. */
  datatype ChipStack = ChipStack(count: nat, colour: string)

  /** `Math.ceil(amount / 60)` for a positive amount. */
  function Ceil60(amount: int): (c: int)
    requires amount > 0
    ensures (c - 1) * 60 < amount <= c * 60
  {
    (amount + 59) / 60
  }

  /** `BetChipStack`: nothing for a missing or non-positive amount, else `min(5, ceil(amount / 60) + 1)` chips. */
  function BetChips(amount: Option<int>): (r: Option<ChipStack>)
    ensures r.Some? ==> 2 <= r.value.count <= 5 && r.value.colour in CHIP_COLORS
  {
    if amount.None? || amount.value <= 0 then None
    else
      var a := amount.value;
      var c := Ceil60(a) + 1;
      Some(ChipStack(if c < 5 then c else 5, CHIP_COLORS[(a / 50) % |CHIP_COLORS|]))
  }

  /**
   * A stack is drawn exactly for a positive amount; it has 2 to 5 chips,
   * 2 up to 60, 3 up to 120, 4 up to 180 and 5 beyond; the colour moves on
   * every 50 and cycles through the five colours.
   */
  lemma BetChipsSpec(amount: Option<int>)
    ensures BetChips(amount).None? <==> amount.None? || amount.value <= 0
    ensures BetChips(amount).Some? ==> var a, s := amount.value, BetChips(amount).value;
      && 2 <= s.count <= 5
      && (s.count == 2 <==> a <= 60)
      && (s.count == 3 <==> 60 < a <= 120)
      && (s.count == 4 <==> 120 < a <= 180)
      && (s.count == 5 <==> 180 < a)
      && s.colour == CHIP_COLORS[(a / 50) % 5]
  {
  }

  /** Amounts 250 apart get the same colour. */
  lemma BetColourCycle(a: int)
    requires a > 0
    ensures BetChips(Some(a + 250)).value.colour == BetChips(Some(a)).value.colour
  {
    assert (a + 250) / 50 == a / 50 + 5;
  }

  /** The five board slots: slot `i` holds `community[i]` when there is one, and is face up exactly then. */
  function CommunitySlots<C>(community: seq<C>): (r: seq<Option<C>>)
    ensures |r| == 5
    ensures forall i :: 0 <= i < 5 ==> (r[i].Some? <==> i < |community|)
    ensures forall i :: 0 <= i < 5 && i < |community| ==> r[i] == Some(community[i])
  {
    seq(5, i requires 0 <= i < 5 => if i < |community| then Some(community[i]) else None)
  }

  /** The pot label shows only for a positive pot. */
  function PotLabel(pot: int): (r: Option<string>)
    ensures r.Some? <==> pot > 0
    ensures r.Some? ==> |r.value| > 5 && r.value[..5] == "POT: " && AllDigits(r.value[5..]) && DigitsValue(r.value[5..]) == pot
  {
    if pot > 0 then
      NatToStringRoundTrip(pot);
      assert ("POT: " + NatToString(pot))[5..] == NatToString(pot);
      Some("POT: " + NatToString(pot))
    else None
  }

  /** A seat's card row: its cards, or two empty placeholders before the deal. */
  function HandSlots<C>(cards: seq<C>): (r: seq<Option<C>>)
    ensures cards == [] ==> r == [None, None]
    ensures cards != [] ==> |r| == |cards| && forall i :: 0 <= i < |cards| ==> r[i] == Some(cards[i])
  {
    if cards == [] then [None, None] else seq(|cards|, i requires 0 <= i < |cards| => Some(cards[i]))
  }

  /** The chip count under a seat, shown only when the seat has chips. */
  function ChipsLabel(chips: Option<int>): (r: Option<string>)
    ensures r.Some? <==> chips.Some?
  {
    if chips.Some? then Some(IntToString(chips.value) + " chips") else None
  }

  /** `highlightWinner === player.id`. */
  predicate IsWinner(highlightWinner: Option<string>, id: string)
    ensures IsWinner(highlightWinner, id) ==> highlightWinner.Some? && highlightWinner.value == id
    ensures highlightWinner.None? ==> !IsWinner(highlightWinner, id)
  {
    highlightWinner == Some(id)
  }

  /** The seat fields the bet stacks read. */
  datatype BetSeat = BetSeat(id: string, position: string)

  /** One bet stack per non-dealer seat, in seat order, with that seat's bet (if any). */
  function BetStacks(seats: seq<BetSeat>, bets: map<string, int>): (r: seq<(string, Option<ChipStack>)>)
    ensures |r| <= |seats|
  {
    if seats == [] then []
    else
      var s := seats[0];
      (if s.id == "dealer" then [] else [(s.position, BetChips(if s.id in bets then Some(bets[s.id]) else None))])
        + BetStacks(seats[1..], bets)
  }

  function NonDealers(seats: seq<BetSeat>): seq<BetSeat> {
    if seats == [] then [] else (if seats[0].id == "dealer" then [] else [seats[0]]) + NonDealers(seats[1..])
  }

  /** The dealer never gets a bet stack; every other seat gets exactly one, at its own position, in order. */
  lemma {:induction false} BetStacksSpec(seats: seq<BetSeat>, bets: map<string, int>)
    ensures var r, nd := BetStacks(seats, bets), NonDealers(seats);
      && |r| == |nd|
      && (forall i :: 0 <= i < |nd| ==> nd[i].id != "dealer")
      && (forall i :: 0 <= i < |nd| ==> r[i].0 == nd[i].position)
      && (forall i :: 0 <= i < |nd| ==> r[i].1 == BetChips(if nd[i].id in bets then Some(bets[nd[i].id]) else None))
  {
    if seats != [] {
      BetStacksSpec(seats[1..], bets);
    }
  }
}
