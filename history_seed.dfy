/**
 * The pre-seeded match history of the active agent (most recent match
 * first) and the "x ago" labels the history screen prints for timestamps.
 */
module HistorySeed {
  import opened Wrappers
  import opened Text
  import opened Arith

  /** Per-match statistics of a history entry. */
  datatype MatchStats = MatchStats(handsPlayed: int, handsWon: int, vpip: int, aggression: int, avgPot: int, biggestPot: int)

  /**
   * One match of the history. `stats` is `None` for the empty `{}` object
   * and `replayRef` is `None` for `null`.
   */
  datatype Entry = Entry(
    matchId: string,
    opponentName: string,
    opponentId: string,
    outcome: string,
    eloDelta: int,
    timestamp: int,
    replayRef: Option<string>,
    stats: Option<MatchStats>)

  const HOUR: int := 3600000
  const DAY: int := 86400000

  function SeedEntry(id: string, name: string, opp: string, outcome: string, delta: int, ts: int, stats: MatchStats): Entry {
    Entry(id, name, opp, outcome, delta, ts, Some(id), Some(stats))
  }

  /** `historySeed`, where `now` is the clock reading taken when the module loads. */
  function Seed(now: int): (h: seq<Entry>)
    ensures |h| == 10
  {
    [ SeedEntry("match-seed-01", "GTOMaster", "gtomaster", "win", 22, now - HOUR * 2, MatchStats(20, 13, 42, 68, 187, 410)),
      SeedEntry("match-seed-02", "BluffMachine", "bluffmachine", "loss", -18, now - HOUR * 5, MatchStats(20, 8, 38, 54, 210, 520)),
      SeedEntry("match-seed-03", "RiverRat", "riverrat", "win", 19, now - HOUR * 11, MatchStats(20, 12, 45, 72, 198, 480)),
      SeedEntry("match-seed-04", "CardShark Elite", "cardshark", "loss", -21, now - DAY, MatchStats(20, 9, 36, 50, 225, 600)),
      SeedEntry("match-seed-05", "FlopWhiz", "flopwhiz", "win", 16, now - DAY - HOUR * 3, MatchStats(20, 14, 48, 60, 178, 390)),
      SeedEntry("match-seed-06", "TurboBet v1.2", "turbobet", "win", 14, now - DAY * 2, MatchStats(20, 12, 40, 65, 200, 450)),
      SeedEntry("match-seed-07", "RazorSharp", "razorsharp", "loss", -24, now - DAY * 2 - HOUR * 6, MatchStats(20, 7, 33, 44, 240, 700)),
      SeedEntry("match-seed-08", "StackSurge", "stacksurge", "win", 12, now - DAY * 3, MatchStats(20, 13, 43, 70, 190, 420)),
      SeedEntry("match-seed-09", "EchidnaBot v2", "echidna", "loss", -20, now - DAY * 4, MatchStats(20, 9, 37, 52, 215, 550)),
      SeedEntry("match-seed-10", "IronCurtain AI", "ironcurtain", "win", 17, now - DAY * 5, MatchStats(20, 11, 41, 63, 202, 460))
    ]
  }

  /** Most recent first: timestamps strictly decrease along the list. */
  predicate NewestFirst(h: seq<Entry>) {
    forall i, j :: 0 <= i < j < |h| ==> h[i].timestamp > h[j].timestamp
  }

  /** Strictly decreasing neighbours make the whole list strictly decreasing. */
  lemma {:induction false} NewestFirstFromNeighbours(h: seq<Entry>)
    requires forall i :: 0 <= i < |h| - 1 ==> h[i].timestamp > h[i + 1].timestamp
    ensures NewestFirst(h)
    decreases |h|
  {
    if |h| > 1 {
      NewestFirstFromNeighbours(h[1..]);
      forall i, j | 0 <= i < j < |h|
        ensures h[i].timestamp > h[j].timestamp
      {
        if i > 0 {
          assert h[i] == h[1..][i - 1] && h[j] == h[1..][j - 1];
        } else if j > 1 {
          assert h[1] == h[1..][0] && h[j] == h[1..][j - 1];
        }
      }
    }
  }

  /** The seed is ordered most recent first, whatever the load time. */
  lemma SeedNewestFirst(now: int)
    ensures NewestFirst(Seed(now))
  {
    var h := Seed(now);
    assert forall i :: 0 <= i < |h| - 1 ==> h[i].timestamp > h[i + 1].timestamp;
    NewestFirstFromNeighbours(h);
  }

  /** In the seed an Elo change is positive exactly for the won matches. */
  lemma SeedDeltaSign(now: int)
    ensures forall e :: e in Seed(now) ==> (e.eloDelta > 0 <==> e.outcome == "win")
  {
  }

  /** Which label `relativeTime` picks, with the floored count it prints. */
  datatype Ago = JustNow | MinutesAgo(mins: int) | HoursAgo(hours: int) | Yesterday | DaysAgo(days: int)

  /**
   * The if-chain of `relativeTime` on the elapsed milliseconds `diff`;
   * Dafny's `/` by a positive divisor is the floor division of the source.
   */
  function AgoOf(diff: int): Ago {
    var mins := diff / 60000;
    var hours := diff / 3600000;
    var days := diff / 86400000;
    if mins < 2 then JustNow
    else if mins < 60 then MinutesAgo(mins)
    else if hours < 24 then HoursAgo(hours)
    else if days == 1 then Yesterday
    else DaysAgo(days)
  }

  /** The printed label. */
  function AgoLabel(a: Ago): (r: string)
    requires a.MinutesAgo? ==> a.mins >= 0
    requires a.HoursAgo? ==> a.hours >= 0
    requires a.DaysAgo? ==> a.days >= 0
  {
    match a
    case JustNow => "Just now"
    case MinutesAgo(m) => NatToString(m) + "m ago"
    case HoursAgo(h) => NatToString(h) + "h ago"
    case Yesterday => "Yesterday"
    case DaysAgo(d) => NatToString(d) + "d ago"
  }

  /** `relativeTime(ts)` read at clock time `now`. */
  function RelativeTime(now: int, ts: int): (r: string)
    ensures now - ts < 120000 ==> r == "Just now"
  {
    AgoThresholds(now - ts);
    AgoLabel(AgoOf(now - ts))
  }

  /**
   * The buckets by elapsed time: under two minutes (the future included) is
   * "Just now", then whole minutes below an hour, whole hours below a day,
   * "Yesterday" for a whole day count of one, and whole days beyond.
   */
  lemma AgoThresholds(diff: int)
    ensures AgoOf(diff) == JustNow <==> diff < 120000
    ensures AgoOf(diff).MinutesAgo? <==> 120000 <= diff < 3600000
    ensures AgoOf(diff).HoursAgo? <==> 3600000 <= diff < 86400000
    ensures AgoOf(diff) == Yesterday <==> 86400000 <= diff < 172800000
    ensures AgoOf(diff).DaysAgo? <==> 172800000 <= diff
    ensures AgoOf(diff).MinutesAgo? ==> 2 <= AgoOf(diff).mins < 60 && AgoOf(diff).mins * 60000 <= diff < (AgoOf(diff).mins + 1) * 60000
    ensures AgoOf(diff).HoursAgo? ==> 1 <= AgoOf(diff).hours < 24 && AgoOf(diff).hours * 3600000 <= diff < (AgoOf(diff).hours + 1) * 3600000
    ensures AgoOf(diff).DaysAgo? ==> 2 <= AgoOf(diff).days && AgoOf(diff).days * 86400000 <= diff < (AgoOf(diff).days + 1) * 86400000
  {
  }

  /** Position of a bucket in the order the if-chain tries them. */
  function AgoRank(a: Ago): nat {
    match a
    case JustNow => 0
    case MinutesAgo(_) => 1
    case HoursAgo(_) => 2
    case Yesterday => 3
    case DaysAgo(_) => 4
  }

  /** A longer elapsed time never lands in an earlier bucket, nor on a smaller count within one. */
  lemma AgoMonotone(d1: int, d2: int)
    requires d1 <= d2
    ensures AgoRank(AgoOf(d1)) <= AgoRank(AgoOf(d2))
    ensures AgoOf(d1).MinutesAgo? && AgoOf(d2).MinutesAgo? ==> AgoOf(d1).mins <= AgoOf(d2).mins
    ensures AgoOf(d1).HoursAgo? && AgoOf(d2).HoursAgo? ==> AgoOf(d1).hours <= AgoOf(d2).hours
    ensures AgoOf(d1).DaysAgo? && AgoOf(d2).DaysAgo? ==> AgoOf(d1).days <= AgoOf(d2).days
  {
    AgoThresholds(d1);
    AgoThresholds(d2);
    DivMonotone(d1, d2, 60000);
    DivMonotone(d1, d2, 3600000);
    DivMonotone(d1, d2, 86400000);
  }
}
