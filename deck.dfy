/**
 * Deck helpers of the round simulation and of the manual hand stepper
 * (both source files carry identical copies): a fresh 52-card deck and a
 * Fisher-Yates shuffle that works on a copy of its input.
 */
module Deck {

  const SUITS: seq<string> := ["♠", "♥", "♦", "♣"]
  const RANKS: seq<string> := ["A", "2", "3", "4", "5", "6", "7", "8", "9", "10", "J", "Q", "K"]

  datatype Card = Card(suit: string, rank: string, red: bool)

  predicate IsRedSuit(suit: string) {
    suit == "♥" || suit == "♦"
  }

  /** The card `makeDeck` pushes for one (suit, rank) pair. */
  function MakeCard(suit: string, rank: string): (c: Card)
    ensures c.suit == suit && c.rank == rank
    ensures c.red <==> IsRedSuit(suit)
  {
    Card(suit, rank, IsRedSuit(suit))
  }

  /** The deck in `makeDeck` order: suit-major, rank-minor. */
  function FullDeck(): (d: seq<Card>)
    ensures |d| == 52
  {
    seq(|SUITS| * |RANKS|, k requires 0 <= k < |SUITS| * |RANKS| => MakeCard(SUITS[k / |RANKS|], RANKS[k % |RANKS|]))
  }

  /** Builds the deck with the two nested loops of the source. */
  method MakeDeck() returns (deck: seq<Card>)
    ensures deck == FullDeck()
  {
    deck := [];
    var s := 0;
    while s < |SUITS|
      invariant 0 <= s <= |SUITS|
      invariant deck == FullDeck()[..s * |RANKS|]
    {
      var r := 0;
      while r < |RANKS|
        invariant 0 <= r <= |RANKS|
        invariant deck == FullDeck()[..s * |RANKS| + r]
      {
        FullDeckAt(s, r);
        assert FullDeck()[..s * |RANKS| + r + 1] == FullDeck()[..s * |RANKS| + r] + [MakeCard(SUITS[s], RANKS[r])];
        deck := deck + [MakeCard(SUITS[s], RANKS[r])];
        r := r + 1;
      }
      assert s * |RANKS| + |RANKS| == (s + 1) * |RANKS|;
      s := s + 1;
    }
  }

  /** Card `si * 13 + ri` of the deck has suit `si` and rank `ri`. */
  lemma FullDeckAt(si: int, ri: int)
    requires 0 <= si < |SUITS| && 0 <= ri < |RANKS|
    ensures 0 <= si * |RANKS| + ri < |FullDeck()|
    ensures FullDeck()[si * |RANKS| + ri] == MakeCard(SUITS[si], RANKS[ri])
  {
    var k := si * |RANKS| + ri;
    assert k / |RANKS| == si && k % |RANKS| == ri;
  }

  /** Every (suit, rank) pair appears, and nothing else does. */
  lemma FullDeckCoversPairs(suit: string, rank: string)
    ensures MakeCard(suit, rank) in FullDeck() <==> suit in SUITS && rank in RANKS
  {
    if suit in SUITS && rank in RANKS {
      var si :| 0 <= si < |SUITS| && SUITS[si] == suit;
      var ri :| 0 <= ri < |RANKS| && RANKS[ri] == rank;
      FullDeckAt(si, ri);
    }
    if MakeCard(suit, rank) in FullDeck() {
      var k :| 0 <= k < |FullDeck()| && FullDeck()[k] == MakeCard(suit, rank);
      assert SUITS[k / |RANKS|] == suit && RANKS[k % |RANKS|] == rank;
    }
  }

  /** No card appears twice. */
  lemma FullDeckDistinct(i: int, j: int)
    requires 0 <= i < j < |FullDeck()|
    ensures FullDeck()[i] != FullDeck()[j]
  {
    var n := |RANKS|;
    if i / n == j / n {
      assert i % n != j % n;
      assert RANKS[i % n] != RANKS[j % n] by { RanksDistinct(i % n, j % n); }
    } else {
      assert SUITS[i / n] != SUITS[j / n] by { SuitsDistinct(i / n, j / n); }
    }
  }

  lemma SuitsDistinct(a: int, b: int)
    requires 0 <= a < |SUITS| && 0 <= b < |SUITS| && a != b
    ensures SUITS[a] != SUITS[b]
  {
  }

  lemma RanksDistinct(a: int, b: int)
    requires 0 <= a < |RANKS| && 0 <= b < |RANKS| && a != b
    ensures RANKS[a] != RANKS[b]
  {
  }

  /** In the deck, `red` holds exactly for hearts and diamonds. */
  lemma FullDeckRedness(c: Card)
    requires c in FullDeck()
    ensures c.red <==> c.suit == "♥" || c.suit == "♦"
  {
  }

  // ---- shuffle ----

  function Swap<T>(s: seq<T>, i: int, j: int): (r: seq<T>)
    requires 0 <= i < |s| && 0 <= j < |s|
    ensures |r| == |s| && r[i] == s[j] && r[j] == s[i]
    ensures forall k :: 0 <= k < |s| && k != i && k != j ==> r[k] == s[k]
  {
    s[i := s[j]][j := s[i]]
  }

  /**
   * Fisher-Yates from index `i` down to 1: position `i` swaps with `picks[i]`,
   * the value `Math.floor(Math.random() * (i + 1))` drew.
   */
  function FisherYates<T>(s: seq<T>, picks: seq<nat>, i: int): (r: seq<T>)
    requires |picks| == |s| && i < |s|
    requires forall k :: 0 < k < |s| ==> picks[k] <= k
    ensures |r| == |s|
    decreases i
  {
    if i <= 0 then s else FisherYates(Swap(s, i, picks[i]), picks, i - 1)
  }

  predicate ValidPicks(n: nat, picks: seq<nat>) {
    |picks| == n && forall k :: 0 < k < n ==> picks[k] <= k
  }

  /** A swap is a permutation. */
  lemma SwapPermutes<T>(s: seq<T>, i: int, j: int)
    requires 0 <= i < |s| && 0 <= j < |s|
    ensures multiset(Swap(s, i, j)) == multiset(s)
  {
    if i != j {
      var t := s[i := s[j]];
      assert multiset(t) == multiset(s) - multiset{s[i]} + multiset{s[j]};
      assert multiset(t[j := s[i]]) == multiset(t) - multiset{t[j]} + multiset{s[i]};
    }
  }

  /** Whatever the picks, the shuffle is a permutation of its input. */
  lemma {:induction false} FisherYatesPermutes<T>(s: seq<T>, picks: seq<nat>, i: int)
    requires ValidPicks(|s|, picks) && i < |s|
    ensures |FisherYates(s, picks, i)| == |s|
    ensures multiset(FisherYates(s, picks, i)) == multiset(s)
    decreases i
  {
    if i > 0 {
      SwapPermutes(s, i, picks[i]);
      FisherYatesPermutes(Swap(s, i, picks[i]), picks, i - 1);
    }
  }

  /**
   * `shuffle(arr)`: copies the input into a fresh array and swaps in place
   * from the last index down to 1. The input, a value here, is untouched.
   */
  method Shuffle<T>(arr: seq<T>, picks: seq<nat>) returns (r: seq<T>)
    requires ValidPicks(|arr|, picks)
    ensures r == FisherYates(arr, picks, |arr| - 1)
    ensures multiset(r) == multiset(arr) && |r| == |arr|
  {
    var a := new T[|arr|](k requires 0 <= k < |arr| => arr[k]);
    assert a[..] == arr;
    var i := a.Length - 1;
    while i > 0
      invariant -1 <= i < a.Length
      invariant i == -1 ==> a.Length == 0
      invariant FisherYates(a[..], picks, i) == FisherYates(arr, picks, |arr| - 1)
    {
      var j := picks[i];
      a[i], a[j] := a[j], a[i];
      i := i - 1;
    }
    r := a[..];
    FisherYatesPermutes(arr, picks, |arr| - 1);
  }
}
