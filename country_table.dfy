/**
 * The country-venue table: the same board, pot and chip rules as the felt
 * table, its own hole-card rule (which knows nothing of folding) and the
 * camera tilt of each view.
 */
module CountryPokerTable {
  import opened Wrappers
  import PokerTable

  /** `CountrySeat.cardProps`: the "you" seat and the dealer's view show cards, the dealer's own show while peeking. */
  function CountryCardProps(id: string, isDealerView: bool, dealerPeeking: bool): (r: PokerTable.CardFace)
    ensures !r.folded
  {
    if id == "you" then PokerTable.CardFace(true, false, false)
    else if isDealerView then PokerTable.CardFace(true, false, false)
    else if id == "dealer" && dealerPeeking then PokerTable.CardFace(true, true, false)
    else PokerTable.CardFace(false, false, false)
  }

  /**
   * The venue's rule is the felt table's rule for a seat that has not
   * folded, outside simulation mode; a folded seat is drawn here exactly as
   * an active one, so the "you" seat's cards stay up after folding.
   */
  lemma CountryCardPropsAgree(id: string, folded: bool, isDealerView: bool, dealerPeeking: bool)
    ensures CountryCardProps(id, isDealerView, dealerPeeking) == PokerTable.CardProps(id, false, false, isDealerView, dealerPeeking)
    ensures folded && id == "you" ==>
      CountryCardProps(id, isDealerView, dealerPeeking).faceUp && !PokerTable.CardProps(id, folded, false, isDealerView, dealerPeeking).faceUp
  {
  }

  /** `view === "dealer"`. */
  predicate IsDealerView(view: string) {
    view == "dealer"
  }

  /** The CSS transform of the table for each camera view. */
  function Tilt(view: string): (r: string)
    ensures view == "topdown" ==> r == "rotateX(10deg)"
    ensures IsDealerView(view) ==> r == "rotateX(35deg) rotate(180deg)"
    ensures view != "topdown" && !IsDealerView(view) ==> r == "rotateX(35deg)"
  {
    if view == "topdown" then "rotateX(10deg)"
    else if view == "dealer" then "rotateX(35deg) rotate(180deg)"
    else "rotateX(35deg)"
  }

  /** The three views get three different tilts, and only the dealer's view turns the table round. */
  lemma TiltDistinct(v: string, w: string)
    ensures Tilt(v) == Tilt(w) <==> (v == "topdown") == (w == "topdown") && IsDealerView(v) == IsDealerView(w)
  {
  }
}
