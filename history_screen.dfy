/**
 * The match history screen: the summary bar over the whole history, the
 * win/loss and Elo badges of each row, the replay link and the staggered
 * row animation.
 */
module HistoryScreen {
  import opened Wrappers
  import opened Text
  import opened HistorySeed
  import opened Arith

  /** `history.filter(h => h.outcome === "win").length`. */
  function Wins(h: seq<Entry>): (r: nat)
    ensures r <= |h|
  {
    if h == [] then 0 else (if h[0].outcome == "win" then 1 else 0) + Wins(h[1..])
  }

  /** `history.reduce((acc, h) => acc + h.eloDelta, 0)`. */
  function NetElo(h: seq<Entry>): (r: int)
    ensures (forall i :: 0 <= i < |h| ==> h[i].eloDelta >= 0) ==> r >= 0
    ensures (forall i :: 0 <= i < |h| ==> h[i].eloDelta <= 0) ==> r <= 0
  {
    if h == [] then 0
    else
      assert forall i :: 0 <= i < |h| - 1 ==> h[1..][i] == h[i + 1];
      h[0].eloDelta + NetElo(h[1..])
  }

  /** Both counts add up over a split history, so they count each entry once. */
  lemma {:induction false} SummaryAdditive(a: seq<Entry>, b: seq<Entry>)
    ensures Wins(a + b) == Wins(a) + Wins(b)
    ensures NetElo(a + b) == NetElo(a) + NetElo(b)
  {
    if a != [] {
      SummaryAdditive(a[1..], b);
      assert (a + b)[0] == a[0] && (a + b)[1..] == a[1..] + b;
    } else {
      assert a + b == b;
    }
  }

  /** Wins are the won entries: all of them when every entry is a win, none when none is. */
  lemma {:induction false} WinsCounts(h: seq<Entry>)
    ensures (forall i :: 0 <= i < |h| ==> h[i].outcome == "win") <==> Wins(h) == |h|
    ensures (forall i :: 0 <= i < |h| ==> h[i].outcome != "win") <==> Wins(h) == 0
  {
    if h != [] {
      WinsCounts(h[1..]);
      assert forall i :: 1 <= i < |h| ==> h[i] == h[1..][i - 1];
    }
  }

  /** `Math.round((wins / n) * 100)`: the whole percentage nearest to `wins / n`, halves rounded up. */
  function Percent(wins: nat, n: nat): (r: int)
    requires 0 < n
    ensures r >= 0
  {
    (200 * wins + n) / (2 * n)
  }

  /** The rounded percentage is within half a point of the exact one, and in 0..100 when `wins <= n`. */
  lemma PercentSpec(wins: nat, n: nat)
    requires 0 < n
    ensures var r := Percent(wins, n);
      && 2 * n * r - n <= 200 * wins < 2 * n * r + n
      && (wins <= n ==> 0 <= r <= 100)
  {
    var r := Percent(wins, n);
    var q := 200 * wins + n;
    assert q == (2 * n) * r + q % (2 * n);
    if wins <= n {
      DivBelow(q, 2 * n, 100);
    }
  }

  /** The five figures of the summary bar. */
  datatype Summary = Summary(matches: nat, wins: nat, losses: int, winRate: int, netElo: int)

  /** `SummaryBar`: nothing for an empty history. */
  function SummaryOf(h: seq<Entry>): (r: Option<Summary>)
    ensures r.None? <==> h == []
    ensures r.Some? ==> r.value.matches == |h| && r.value.wins + r.value.losses == |h|
  {
    if h == [] then None
    else
      var w := Wins(h);
      Some(Summary(|h|, w, |h| - w, Percent(w, |h|), NetElo(h)))
  }

  /** The bar shows for a non-empty history only; wins and losses add up to the matches, the rate is in 0..100. */
  lemma SummarySpec(h: seq<Entry>)
    ensures SummaryOf(h).None? <==> h == []
    ensures SummaryOf(h).Some? ==> var s := SummaryOf(h).value;
      && s.matches == |h| && s.wins + s.losses == |h| && 0 <= s.losses
      && 0 <= s.winRate <= 100
      && 2 * |h| * s.winRate - |h| <= 200 * s.wins < 2 * |h| * s.winRate + |h|
  {
    if h != [] {
      PercentSpec(Wins(h), |h|);
    }
  }

  /** `{pos ? "+" : ""}{delta}`: a signed number, with "+" in front of zero and positive values. */
  function SignedLabel(n: int): (r: string)
    ensures r != [] && (r[0] == '+' <==> n >= 0) && (r[0] == '-' <==> n < 0)
  {
    if n >= 0 then "+" + NatToString(n) else IntToString(n)
  }

  /** The label starts with "+" exactly for `n >= 0`, with "-" otherwise, and its digits read back as `|n|`. */
  lemma SignedLabelSpec(n: int)
    ensures var r := SignedLabel(n);
      && |r| >= 2
      && (r[0] == '+' <==> n >= 0) && (r[0] == '-' <==> n < 0)
      && AllDigits(r[1..]) && DigitsValue(r[1..]) == (if n >= 0 then n else -n)
  {
    var r := SignedLabel(n);
    if n >= 0 {
      NatToStringRoundTrip(n);
      assert r[1..] == NatToString(n);
    } else {
      NatToStringRoundTrip(-n);
    }
  }

  /** `OutcomeBadge`. */
  function OutcomeLabel(outcome: string): (r: string)
    ensures r == "WIN" <==> outcome == "win"
    ensures r == "WIN" || r == "LOSS"
  {
    if outcome == "win" then "WIN" else "LOSS"
  }

  /** Where `handleReplay` sends the app: the match screen, replaying that match. */
  datatype Navigation = Navigation(screen: string, matchId: string, replay: bool)

  function ReplayTarget(e: Entry): (r: Navigation)
    ensures r.screen == "match" && r.matchId == e.matchId && r.replay
  {
    Navigation("match", e.matchId, true)
  }

  /** `Math.min(i * 40, 500)`: the row's animation delay in milliseconds. */
  function AnimDelay(i: nat): (d: nat)
    ensures d <= 500 && d <= 40 * i
  {
    if i * 40 < 500 then i * 40 else 500
  }

  /** Rows come in 40 ms apart, the thirteenth row and later all at 500 ms. */
  lemma AnimDelaySpec(i: nat, j: nat)
    ensures AnimDelay(i) <= 500
    ensures i <= 12 ==> AnimDelay(i) == 40 * i
    ensures i >= 13 ==> AnimDelay(i) == 500
    ensures i <= j ==> AnimDelay(i) <= AnimDelay(j)
  {
  }
}
