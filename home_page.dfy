/**
 * The landing page's logic: the tournament countdown and its h:m:s text,
 * the cosmetics store's tab filter and the navigation bar's targets.
 */
module HomePage {
  import opened Wrappers
  import opened Text

  /** One countdown tick: down by a second, never below zero. */
  function TickOf(s: nat): (r: nat)
    ensures s > 0 ==> r == s - 1
    ensures s == 0 ==> r == 0
  {
    if s > 0 then s - 1 else 0
  }

  /** The value after `n` ticks. */
  function Ticks(s: nat, n: nat): nat {
    if n == 0 then s else Ticks(TickOf(s), n - 1)
  }

  /** `n` ticks take `n` seconds off, and the countdown then rests at zero. */
  lemma {:induction false} TicksSpec(s: nat, n: nat)
    ensures n <= s ==> Ticks(s, n) == s - n
    ensures n >= s ==> Ticks(s, n) == 0
  {
    if n > 0 {
      TicksSpec(TickOf(s), n - 1);
    }
  }

  /** The hours, minutes and seconds of a second count, as `useCountdown` splits it. */
  function Hours(secs: nat): nat { secs / 3600 }
  function Minutes(secs: nat): nat { (secs % 3600) / 60 }
  function Seconds(secs: nat): nat { secs % 60 }

  /** `n % 60` read off any split `n == 60 k + t` with `t` below 60. */
  lemma Mod60(n: nat, k: nat, t: nat)
    requires n == 60 * k + t && t < 60
    ensures n % 60 == t && n / 60 == k
  {
  }

  /** `n / 3600` and `n % 3600` read off any split `n == 3600 k + t` with `t` below 3600. */
  lemma Div3600(n: nat, k: nat, t: nat)
    requires n == 3600 * k + t && t < 3600
    ensures n / 3600 == k && n % 3600 == t
  {
  }

  /** The split loses nothing and leaves minutes and seconds below 60. */
  lemma SplitSpec(secs: nat)
    ensures 3600 * Hours(secs) + 60 * Minutes(secs) + Seconds(secs) == secs
    ensures Minutes(secs) < 60 && Seconds(secs) < 60
  {
    var q, r := secs / 3600, secs % 3600;
    assert secs == 3600 * q + r;
    Mod60(r, r / 60, r % 60);
    Mod60(secs, 60 * q + r / 60, r % 60);
  }

  /** `${h}:${m}:${s}`, each field padded to two digits. */
  function Countdown(secs: nat): (r: string)
    ensures r != []
  {
    ClockField(Hours(secs)) + ":" + ClockField(Minutes(secs)) + ":" + ClockField(Seconds(secs))
  }

  /**
   * The text reads back as the second count: the last two fields are two
   * digits each below 60, the hours field before them has at least two, and
   * `3600 h + 60 m + s` is the count; under 100 hours the text is 8 long.
   */
  lemma CountdownSpec(secs: nat)
    ensures var r := Countdown(secs);
      && |r| >= 8 && r[|r| - 6] == ':' && r[|r| - 3] == ':'
      && AllDigits(r[..|r| - 6]) && AllDigits(r[|r| - 5..|r| - 3]) && AllDigits(r[|r| - 2..])
      && DigitsValue(r[|r| - 5..|r| - 3]) < 60 && DigitsValue(r[|r| - 2..]) < 60
      && 3600 * DigitsValue(r[..|r| - 6]) + 60 * DigitsValue(r[|r| - 5..|r| - 3]) + DigitsValue(r[|r| - 2..]) == secs
      && (secs < 360000 ==> |r| == 8)
  {
    var h, m, sec := Hours(secs), Minutes(secs), Seconds(secs);
    SplitSpec(secs);
    ClockFields(h, m, sec);
    var r := Countdown(secs);
    assert r == ClockField(h) + ":" + ClockField(m) + ":" + ClockField(sec);
    if secs < 360000 {
      assert h < 100;
    }
  }

  /** The fields of `h:m:s` built from three numbers read back as those numbers. */
  lemma ClockFields(hv: nat, mv: nat, sv: nat)
    requires mv < 60 && sv < 60
    ensures var r := ClockField(hv) + ":" + ClockField(mv) + ":" + ClockField(sv);
      && |r| == |ClockField(hv)| + 6 && |r| >= 8 && r[|r| - 6] == ':' && r[|r| - 3] == ':'
      && AllDigits(r[..|r| - 6]) && AllDigits(r[|r| - 5..|r| - 3]) && AllDigits(r[|r| - 2..])
      && DigitsValue(r[..|r| - 6]) == hv && DigitsValue(r[|r| - 5..|r| - 3]) == mv && DigitsValue(r[|r| - 2..]) == sv
  {
    JoinFields(ClockField(hv), ClockField(mv), ClockField(sv));
  }

  /** The three fields of `h:m:s` can be cut back out of it when the last two are two long. */
  lemma JoinFields(h: string, m: string, s: string)
    requires |m| == 2 && |s| == 2
    ensures var r := h + ":" + m + ":" + s;
      && |r| == |h| + 6 && r[|r| - 6] == ':' && r[|r| - 3] == ':'
      && r[..|r| - 6] == h && r[|r| - 5..|r| - 3] == m && r[|r| - 2..] == s
  {
  }

  /** The tournament countdown starts at 7 h 23 min 10 s. */
  const TOURNAMENT_START: nat := 7 * 3600 + 23 * 60 + 10

  lemma TournamentStartText(secs: nat)
    requires secs == TOURNAMENT_START
    ensures Countdown(secs) == "07:23:10"
  {
    StartDigits(secs);
    StartChars();
  }

  lemma StartDigits(secs: nat)
    requires secs == TOURNAMENT_START
    ensures Countdown(secs) == [DigitChar(0), DigitChar(7), ':', DigitChar(2), DigitChar(3), ':', DigitChar(1), DigitChar(0)]
  {
    CountdownOfFields(secs, 7, 23, 10);
  }

  lemma StartChars()
    ensures [DigitChar(0), DigitChar(7), ':', DigitChar(2), DigitChar(3), ':', DigitChar(1), DigitChar(0)] == "07:23:10"
  {
  }

  /** The text of `3600 h + 60 m + s` under 100 hours: each field its tens digit then its units digit. */
  lemma CountdownOfFields(secs: nat, h: nat, m: nat, s: nat)
    requires secs == 3600 * h + 60 * m + s && h < 100 && m < 60 && s < 60
    ensures Countdown(secs) == [DigitChar(h / 10), DigitChar(h % 10), ':', DigitChar(m / 10), DigitChar(m % 10), ':', DigitChar(s / 10), DigitChar(s % 10)]
  {
    SplitOf(secs, h, m, s);
    TwoDigitField(h);
    TwoDigitField(m);
    TwoDigitField(s);
    JoinPairs(ClockField(h), ClockField(m), ClockField(s));
  }

  /** The split of `3600 h + 60 m + s` with `m` and `s` below 60 is `h`, `m`, `s`. */
  lemma SplitOf(secs: nat, h: nat, m: nat, s: nat)
    requires secs == 3600 * h + 60 * m + s && m < 60 && s < 60
    ensures Hours(secs) == h && Minutes(secs) == m && Seconds(secs) == s
  {
    Div3600(secs, h, 60 * m + s);
    Mod60(60 * m + s, m, s);
    Mod60(secs, 60 * h + m, s);
  }

  lemma JoinPairs(x: string, y: string, z: string)
    requires |x| == 2 && |y| == 2 && |z| == 2
    ensures x + ":" + y + ":" + z == [x[0], x[1], ':', y[0], y[1], ':', z[0], z[1]]
  {
  }

  /** A field below 100 is its tens digit then its units digit. */
  lemma TwoDigitField(n: nat)
    requires n < 100
    ensures ClockField(n) == [DigitChar(n / 10), DigitChar(n % 10)]
  {
    if n >= 10 {
      assert NatToString(n) == NatToString(n / 10) + [DigitChar(n % 10)];
    }
  }

  /** A store item; `kind` is its `type`. */
  datatype Cosmetic = Cosmetic(id: nat, name: string, kind: string, price: nat)

  const COSMETICS: seq<Cosmetic> := [
    Cosmetic(1, "Neon Felt", "Table Skin", 250),
    Cosmetic(2, "Royal Chips", "Chip Style", 180),
    Cosmetic(3, "Cyber Shade", "Agent Avatar", 320),
    Cosmetic(4, "Blaze Table", "Table Skin", 400),
    Cosmetic(5, "Gold Rush", "Chip Style", 220),
    Cosmetic(6, "Ghost Agent", "Agent Avatar", 290),
    Cosmetic(7, "Arctic Felt", "Table Skin", 270)
  ]

  const STORE_TABS: seq<string> := ["All", "Table Skins", "Chip Styles", "Avatars"]

  /** The item type each tab other than "All" shows; an unknown tab maps to nothing. */
  function TabKind(tab: string): (r: Option<string>)
    ensures r.Some? <==> tab == "Table Skins" || tab == "Chip Styles" || tab == "Avatars"
  {
    if tab == "Table Skins" then Some("Table Skin")
    else if tab == "Chip Styles" then Some("Chip Style")
    else if tab == "Avatars" then Some("Agent Avatar")
    else None
  }

  /** `tabFilter`. */
  predicate Shown(tab: string, item: Cosmetic)
    ensures tab == "All" ==> Shown(tab, item)
    ensures tab != "All" && TabKind(tab).None? ==> !Shown(tab, item)
  {
    tab == "All" || TabKind(tab) == Some(item.kind)
  }

  /** `COSMETICS.filter(tabFilter)` over any item list. */
  function VisibleItems(tab: string, items: seq<Cosmetic>): (r: seq<Cosmetic>)
    ensures |r| <= |items|
  {
    if items == [] then []
    else (if Shown(tab, items[0]) then [items[0]] else []) + VisibleItems(tab, items[1..])
  }

  /** `a` is `b` with some elements dropped, the rest in their order. */
  predicate Subsequence<T(==)>(a: seq<T>, b: seq<T>)
    decreases |b|
  {
    if a == [] then true
    else if b == [] then false
    else (a[0] == b[0] && Subsequence(a[1..], b[1..])) || Subsequence(a, b[1..])
  }

  /**
   * The tab keeps exactly the items it shows, in their original order;
   * "All" keeps the whole list.
   */
  lemma {:induction false} VisibleItemsSpec(tab: string, items: seq<Cosmetic>)
    ensures var r := VisibleItems(tab, items);
      && Subsequence(r, items)
      && (forall x :: x in r <==> x in items && Shown(tab, x))
      && (tab == "All" ==> r == items)
  {
    if items != [] {
      VisibleItemsSpec(tab, items[1..]);
      var rest := VisibleItems(tab, items[1..]);
      var r := VisibleItems(tab, items);
      if Shown(tab, items[0]) {
        assert r == [items[0]] + rest && r[0] == items[0] && r[1..] == rest;
      } else {
        assert r == rest;
      }
      assert forall x :: x in items <==> x == items[0] || x in items[1..];
    }
  }

  /** An unknown tab shows nothing. */
  lemma {:induction false} UnknownTabEmpty(tab: string, items: seq<Cosmetic>)
    requires tab != "All" && TabKind(tab).None?
    ensures VisibleItems(tab, items) == []
  {
    if items != [] {
      UnknownTabEmpty(tab, items[1..]);
    }
  }

  /** Each tab other than "All" shows the items of one kind, "Avatars" those of kind "Agent Avatar". */
  lemma TabKinds(x: Cosmetic)
    ensures Shown("Table Skins", x) <==> x.kind == "Table Skin"
    ensures Shown("Chip Styles", x) <==> x.kind == "Chip Style"
    ensures Shown("Avatars", x) <==> x.kind == "Agent Avatar"
  {
  }

  /** No store tab comes up empty on the store's items. */
  lemma StoreTabsNonEmpty(tab: string)
    requires tab in STORE_TABS
    ensures VisibleItems(tab, COSMETICS) != []
  {
    var i := if tab == "Chip Styles" then 1 else if tab == "Avatars" then 2 else 0;
    ShownItemKept(tab, COSMETICS, i);
  }

  lemma ShownItemKept(tab: string, items: seq<Cosmetic>, i: nat)
    requires i < |items| && Shown(tab, items[i])
    ensures VisibleItems(tab, items) != []
  {
    VisibleItemsSpec(tab, items);
    assert items[i] in items;
  }

  const NAV_LINKS: seq<string> := ["Play", "Watch", "Tournaments", "Leaderboard"]

  const NAV_LINK_MAP: map<string, string> := map[
    "Play" := "offline",
    "Watch" := "offline",
    "Tournaments" := "leaderboard",
    "Leaderboard" := "leaderboard"
  ]

  /** Every nav link has a target: Play and Watch go offline, the other two to the leaderboard. */
  lemma NavTargets()
    ensures forall l :: l in NAV_LINKS ==> l in NAV_LINK_MAP
    ensures forall l :: l in NAV_LINK_MAP ==> (NAV_LINK_MAP[l] == "offline" <==> l == "Play" || l == "Watch")
    ensures forall l :: l in NAV_LINK_MAP ==> (NAV_LINK_MAP[l] == "leaderboard" <==> l == "Tournaments" || l == "Leaderboard")
  {
  }
}

/** The `useCountdown` hook's state: a second count an interval ticks down. */
module HomeCountdown {
  import opened Text
  import opened HomePage

  class CountdownClock {
    var secs: nat

    constructor(initialSeconds: nat)
      ensures secs == initialSeconds
    {
      secs := initialSeconds;
    }

    /** The text the hook returns for the current count. */
    function Display(): (r: string)
      reads this
      ensures r != []
    {
      Countdown(secs)
    }

    /** The interval callback: one second off, resting at zero. */
    method Tick()
      modifies this
      ensures secs == TickOf(old(secs))
      ensures old(secs) > 0 ==> secs == old(secs) - 1
      ensures old(secs) == 0 ==> secs == 0
    {
      secs := if secs > 0 then secs - 1 else 0;
    }
  }
}
