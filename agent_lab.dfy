/**
 * The agent lab: the list of the user's agents with one active agent, the
 * import and create forms that append to it, the toasts that report each
 * action, and the small display rules of the agent cards.
 */
module AgentLab {
  import opened Wrappers
  import opened Text
  import opened Arith

  /** One agent of the lab's list. */
  datatype LabAgent = LabAgent(
    id: int,
    name: string,
    kind: string,
    status: string,
    winRate: int,
    matches: int,
    updated: string,
    rank: string,
    avgProfit: int,
    version: string,
    created: string,
    active: bool,
    description: string,
    perf: seq<int>)

  /** `name.split(" ")`: the pieces between single spaces, empty pieces included. */
  function Split(s: string): (r: seq<string>)
    ensures |r| >= 1
  {
    if s == "" then [""]
    else
      var w := Split(s[..|s| - 1]);
      var c := s[|s| - 1];
      if c == ' ' then w + [""] else w[..|w| - 1] + [w[|w| - 1] + [c]]
  }

  /** `.map((w) => w[0]).join("")`: an empty piece gives `undefined`, which `join` prints as nothing. */
  function Heads(words: seq<string>): (r: string)
    ensures |r| <= |words|
  {
    if words == [] then ""
    else Heads(words[..|words| - 1]) + (if words[|words| - 1] == "" then "" else [words[|words| - 1][0]])
  }

  /** `initials`: the first two word initials, upper-cased. */
  function Initials(name: string): (r: string)
    ensures |r| <= 2
  {
    var h := Heads(Split(name));
    Upper(if |h| <= 2 then h else h[..2])
  }

  /** The first letter of every word: each non-space character at the start or after a space. */
  function WordStarts(s: string): string {
    if s == "" then ""
    else
      var init, c := s[..|s| - 1], s[|s| - 1];
      WordStarts(init) + (if c != ' ' && (init == "" || init[|init| - 1] == ' ') then [c] else "")
  }

  /** The last piece is empty exactly when the name is empty or ends in a space. */
  lemma {:induction false} SplitLastEmpty(s: string)
    ensures var w := Split(s); w[|w| - 1] == "" <==> s == "" || s[|s| - 1] == ' '
  {
  }

  lemma {:induction false} HeadsAppend(a: seq<string>, b: seq<string>)
    ensures Heads(a + b) == Heads(a) + Heads(b)
    decreases |b|
  {
    if b == [] {
      assert a + b == a;
    } else {
      var bi := b[..|b| - 1];
      HeadsAppend(a, bi);
      assert (a + b)[..|a + b| - 1] == a + bi;
      assert (a + b)[|a + b| - 1] == b[|b| - 1];
    }
  }

  /** Splitting at spaces and taking each piece's first character gives exactly the word starts. */
  lemma {:induction false} HeadsOfSplit(s: string)
    ensures Heads(Split(s)) == WordStarts(s)
    decreases |s|
  {
    if s != "" {
      var init, c := s[..|s| - 1], s[|s| - 1];
      var w := Split(init);
      HeadsOfSplit(init);
      SplitLastEmpty(init);
      if c == ' ' {
        HeadsAppend(w, [""]);
        assert Heads([""]) == "";
      } else {
        var front, last := w[..|w| - 1], w[|w| - 1];
        assert w == front + [last];
        HeadsAppend(front, [last]);
        HeadsAppend(front, [last + [c]]);
        assert Heads([last + [c]]) == [(last + [c])[0]];
        if last != "" {
          assert Heads([last]) == [last[0]];
        } else {
          assert Heads([last]) == "";
        }
      }
    }
  }

  /** The initials are the upper-cased first letters of the first two words, whatever the spacing. */
  lemma InitialsSpec(name: string)
    ensures var ws := WordStarts(name);
      Initials(name) == Upper(if |ws| <= 2 then ws else ws[..2])
  {
    HeadsOfSplit(name);
  }

  /** The characters `String.prototype.trim` removes that the model knows. */
  predicate IsSpace(c: char) {
    c == ' ' || c == '\t' || c == '\n' || c == '\r' || c == '\U{000B}' || c == '\U{000C}' || c == '\U{00A0}' || c == '\U{FEFF}'
  }

  predicate AllSpace(s: string) {
    forall i :: 0 <= i < |s| ==> IsSpace(s[i])
  }

  function TrimStart(s: string): (r: string)
    ensures |r| <= |s| && r == s[|s| - |r|..]
    ensures AllSpace(s[..|s| - |r|])
    ensures r != "" ==> !IsSpace(r[0])
  {
    if s != "" && IsSpace(s[0]) then TrimStart(s[1..]) else s
  }

  function TrimEnd(s: string): (r: string)
    ensures |r| <= |s| && r == s[..|r|]
    ensures AllSpace(s[|r|..])
    ensures r != "" ==> !IsSpace(r[|r| - 1])
  {
    if s != "" && IsSpace(s[|s| - 1]) then TrimEnd(s[..|s| - 1]) else s
  }

  /** `trim()`. */
  function Trim(s: string): (r: string)
    ensures |r| <= |s|
  {
    TrimEnd(TrimStart(s))
  }

  /**
   * The trimmed name is a piece `s[i..j]` of the input with only spaces
   * around it and none at its ends; it is empty exactly for an all-space input.
   */
  lemma TrimSpec(s: string)
    ensures var r := Trim(s);
      exists i, j :: 0 <= i <= j <= |s| && r == s[i..j] && AllSpace(s[..i]) && AllSpace(s[j..])
    ensures Trim(s) != "" ==> !IsSpace(Trim(s)[0]) && !IsSpace(Trim(s)[|Trim(s)| - 1])
    ensures Trim(s) == "" <==> AllSpace(s)
  {
    var t := TrimStart(s);
    var r := TrimEnd(t);
    var i := |s| - |t|;
    var j := i + |r|;
    assert r == s[i..j];
    assert s[j..] == t[|r|..];
    TrimEmptyIff(s);
  }

  /** Only an all-space input trims to nothing. */
  lemma TrimEmptyIff(s: string)
    ensures Trim(s) == "" <==> AllSpace(s)
  {
    var t := TrimStart(s);
    assert t != "" ==> IsSpace(s[|s| - |t|]) == IsSpace(t[0]);
    if Trim(s) == "" {
      assert t[0..] == t;
      assert s[..|s| - |t|] == s;
    }
  }

  /** What the import and create modals pass on: nothing for a blank name, else the trimmed name. */
  function ModalSubmit(name: string): (r: Option<string>)
    ensures r.None? <==> AllSpace(name)
    ensures r.Some? ==> r.value == Trim(name) && r.value != ""
  {
    TrimSpec(name);
    if Trim(name) == "" then None else Some(Trim(name))
  }

  /** `prev.map((a) => ({ ...a, active: a.id === id }))`. */
  function SetActive(agents: seq<LabAgent>, id: int): (r: seq<LabAgent>)
    ensures |r| == |agents|
  {
    seq(|agents|, i requires 0 <= i < |agents| => agents[i].(active := agents[i].id == id))
  }

  /** Exactly the agents with that id are active afterwards; order and every other field stay. */
  lemma SetActiveSpec(agents: seq<LabAgent>, id: int)
    ensures var r := SetActive(agents, id);
      && (forall i :: 0 <= i < |r| ==> (r[i].active <==> agents[i].id == id))
      && (forall i :: 0 <= i < |r| ==> r[i].(active := agents[i].active) == agents[i])
  {
  }

  /** `agents.find((a) => a.id === id)?.name`: the name of the first agent with the id. */
  function FindName(agents: seq<LabAgent>, id: int): (r: Option<string>)
    ensures r.None? <==> forall i :: 0 <= i < |agents| ==> agents[i].id != id
    ensures r.Some? ==> exists i :: 0 <= i < |agents| && agents[i].id == id && agents[i].name == r.value &&
                                    forall j :: 0 <= j < i ==> agents[j].id != id
  {
    if agents == [] then None
    else if agents[0].id == id then Some(agents[0].name)
    else
      var rest := FindName(agents[1..], id);
      assert forall i :: 1 <= i < |agents| ==> agents[i] == agents[1..][i - 1];
      rest
  }

  const FLAT_PERF: seq<int> := [50, 50, 50, 50, 50, 50, 50, 50, 50, 50, 50, 50]

  /**
   * `handleImport`'s new agent; `id` stands for `Date.now()`, `created` for
   * the formatted date, and `roll` for `Math.floor(Math.random() * 20)`.
   */
  function ImportedAgent(name: string, id: int, created: string, roll: int): (a: LabAgent)
    requires 0 <= roll < 20
    ensures 45 <= a.winRate <= 64
    ensures a.kind == "API Agent" && a.status == "Connected" && a.matches == 0
    ensures a.rank == "Unranked" && a.version == "1.0.0" && !a.active && a.name == name
  {
    LabAgent(id, name, "API Agent", "Connected", 45 + roll, 0, "just now", "Unranked", 0, "1.0.0", created, false,
      "Newly imported agent. Play some matches to start building a performance history.", FLAT_PERF)
  }

  /** `description || \`${strategy} agent. No matches played yet.\``. */
  function DescriptionOr(description: string, strategy: string): (r: string)
    ensures description != "" ==> r == description
    ensures description == "" ==> r == strategy + " agent. No matches played yet."
  {
    if description != "" then description else strategy + " agent. No matches played yet."
  }

  /** `handleCreate`'s new agent. */
  function CreatedAgent(name: string, description: string, strategy: string, id: int, created: string): (a: LabAgent)
    ensures a.kind == "Local Agent" && a.status == "Offline" && a.winRate == 0 && a.matches == 0
    ensures a.version == "0.1.0" && !a.active && a.name == name
    ensures a.description == DescriptionOr(description, strategy)
  {
    LabAgent(id, name, "Local Agent", "Offline", 0, 0, "just now", "Unranked", 0, "0.1.0", created, false,
      DescriptionOr(description, strategy), FLAT_PERF)
  }

  function SumWinRates(agents: seq<LabAgent>): (r: int)
    ensures agents == [] ==> r == 0
    ensures |agents| == 1 ==> r == agents[0].winRate
  {
    if agents == [] then 0 else SumWinRates(agents[..|agents| - 1]) + agents[|agents| - 1].winRate
  }

  /**
   * `Math.round(sum / agents.length)`, halves rounded up. The source divides
   * by the list length unguarded; the list it is given always holds the
   * initial agents, so it is never empty.
   */
  function AvgWin(agents: seq<LabAgent>): (r: int)
    requires |agents| > 0
    ensures 2 * |agents| * r - |agents| <= 2 * SumWinRates(agents) < 2 * |agents| * r + |agents|
  {
    var q := 2 * SumWinRates(agents) + |agents|;
    assert q == (2 * |agents|) * (q / (2 * |agents|)) + q % (2 * |agents|);
    q / (2 * |agents|)
  }

  lemma {:induction false} SumBounds(agents: seq<LabAgent>, lo: int, hi: int)
    requires forall i :: 0 <= i < |agents| ==> lo <= agents[i].winRate <= hi
    ensures |agents| * lo <= SumWinRates(agents) <= |agents| * hi
    decreases |agents|
  {
    if agents != [] {
      var n, init := |agents|, agents[..|agents| - 1];
      assert forall i :: 0 <= i < n - 1 ==> init[i] == agents[i];
      SumBounds(init, lo, hi);
      assert SumWinRates(agents) == SumWinRates(init) + agents[n - 1].winRate;
      assert n * lo == (n - 1) * lo + lo && n * hi == (n - 1) * hi + hi;
    }
  }

  /** The average lies between the lowest and the highest win rate. */
  lemma AvgWinBounds(agents: seq<LabAgent>, lo: int, hi: int)
    requires |agents| > 0
    requires forall i :: 0 <= i < |agents| ==> lo <= agents[i].winRate <= hi
    ensures lo <= AvgWin(agents) <= hi
  {
    var n := |agents|;
    var s := SumWinRates(agents);
    SumBounds(agents, lo, hi);
    DivAtLeast(2 * s + n, 2 * n, lo);
    assert (2 * n) * (hi + 1) == 2 * (n * hi) + 2 * n;
    DivBelow(2 * s + n, 2 * n, hi);
  }

  datatype Band = Green | Amber | Red

  /** The win-rate colour: green from 55, amber from 45, red below. */
  function WinRateBand(winRate: int): (b: Band)
    ensures b == Green <==> winRate >= 55
    ensures b == Amber <==> 45 <= winRate < 55
    ensures b == Red <==> winRate < 45
  {
    if winRate >= 55 then Green else if winRate >= 45 then Amber else Red
  }

  const AGENT_COLORS: seq<string> := ["#ef4444", "#7c3aed", "#0891b2", "#059669", "#d97706"]

  /** `AGENT_COLORS[colorIdx % AGENT_COLORS.length]`. */
  function CardColour(idx: nat): (r: string)
    ensures r in AGENT_COLORS
  {
    AGENT_COLORS[idx % |AGENT_COLORS|]
  }

  /** The colours repeat every five cards, and five neighbouring cards all differ. */
  lemma CardColourCycle(idx: nat, k: nat)
    ensures CardColour(idx + 5) == CardColour(idx)
    ensures 0 < k < 5 ==> CardColour(idx + k) != CardColour(idx)
  {
    assert (idx + 5) % 5 == idx % 5;
  }

  /** A toast: `id` stands for `Date.now()` at the moment it was raised. */
  datatype Toast = Toast(id: int, message: string, icon: string)

  /** `toasts.filter((t) => t.id !== id)`: the other toasts, in order, duplicates kept. */
  function Without(ts: seq<Toast>, id: int): seq<Toast> {
    if ts == [] then []
    else Without(ts[..|ts| - 1], id) + (if ts[|ts| - 1].id == id then [] else [ts[|ts| - 1]])
  }

  /**
   * Dismissing removes exactly the toasts with that id: each one left is an
   * old toast with another id, every old toast with another id is left, and
   * each is left as many times as it was there.
   */
  lemma {:induction false} WithoutSpec(ts: seq<Toast>, id: int)
    ensures |Without(ts, id)| <= |ts|
    ensures forall t :: t in Without(ts, id) <==> t in ts && t.id != id
    ensures forall t: Toast :: t.id != id ==> multiset(Without(ts, id))[t] == multiset(ts)[t]
    ensures forall t: Toast :: t.id == id ==> multiset(Without(ts, id))[t] == 0
  {
    if ts != [] {
      var init, last := ts[..|ts| - 1], ts[|ts| - 1];
      WithoutSpec(init, id);
      assert ts == init + [last];
    }
  }

  /** The filter works piece by piece, so the toasts left keep their old relative order. */
  lemma {:induction false} WithoutAppend(a: seq<Toast>, b: seq<Toast>, id: int)
    ensures Without(a + b, id) == Without(a, id) + Without(b, id)
  {
    if b != [] {
      var init, last := b[..|b| - 1], b[|b| - 1];
      WithoutAppend(a, init, id);
      assert a + b == (a + init) + [last];
      assert (a + b)[..|a + b| - 1] == a + init;
    } else {
      assert a + b == a;
    }
  }
}

/** The lab page's `agents` and `toasts` state and its handlers. */
module AgentLabPage {
  import opened Wrappers
  import opened AgentLab

  class LabPage {
    var agents: seq<LabAgent>
    var toasts: seq<Toast>
    var showImport: bool
    var showCreate: bool

    ghost predicate Valid()
      reads this
    {
      |agents| > 0
    }

    /** The initial list (the source's five fixture agents) and no toasts. */
    constructor (initial: seq<LabAgent>)
      requires |initial| > 0
      ensures Valid() && agents == initial && toasts == [] && !showImport && !showCreate
    {
      agents := initial;
      toasts := [];
      showImport := false;
      showCreate := false;
    }

    /** `toast`: one more toast at the end. */
    method Notify(id: int, message: string, icon: string)
      modifies this
      ensures toasts == old(toasts) + [Toast(id, message, icon)]
      ensures agents == old(agents) && showImport == old(showImport) && showCreate == old(showCreate)
    {
      toasts := toasts + [Toast(id, message, icon)];
    }

    /** The toast's timer: every toast with that id goes, the others stay in order. */
    method Dismiss(id: int)
      modifies this
      ensures toasts == Without(old(toasts), id)
      ensures agents == old(agents) && showImport == old(showImport) && showCreate == old(showCreate)
    {
      var kept: seq<Toast> := [];
      var i := 0;
      while i < |toasts|
        invariant 0 <= i <= |toasts|
        invariant kept == Without(toasts[..i], id)
      {
        assert toasts[..i + 1][..i] == toasts[..i];
        if toasts[i].id != id {
          kept := kept + [toasts[i]];
        }
        i := i + 1;
      }
      assert toasts[..i] == toasts;
      toasts := kept;
    }

    /** `handleSetActive`: only that agent is active; the toast names it, or "Agent" when no agent has the id. */
    method HandleSetActive(id: int, now: int)
      requires Valid()
      modifies this
      ensures Valid() && agents == SetActive(old(agents), id)
      ensures toasts == old(toasts) + [Toast(now, FindName(old(agents), id).GetOr("Agent") + " set as active agent", "⚡")]
      ensures showImport == old(showImport) && showCreate == old(showCreate)
    {
      var name := FindName(agents, id).GetOr("Agent");
      agents := SetActive(agents, id);
      Notify(now, name + " set as active agent", "⚡");
    }

    /** `handleImport`: appends the imported agent, closes the modal and reports it. */
    method HandleImport(name: string, now: int, created: string, roll: int)
      requires Valid() && 0 <= roll < 20
      modifies this
      ensures Valid() && agents == old(agents) + [ImportedAgent(name, now, created, roll)]
      ensures toasts == old(toasts) + [Toast(now, "Agent imported successfully", "✅")]
      ensures !showImport && showCreate == old(showCreate)
    {
      agents := agents + [ImportedAgent(name, now, created, roll)];
      showImport := false;
      Notify(now, "Agent imported successfully", "✅");
    }

    /** `handleCreate`: appends the new local agent, closes the modal and reports it. */
    method HandleCreate(name: string, description: string, strategy: string, now: int, created: string)
      requires Valid()
      modifies this
      ensures Valid() && agents == old(agents) + [CreatedAgent(name, description, strategy, now, created)]
      ensures toasts == old(toasts) + [Toast(now, "\"" + name + "\" created", "🤖")]
      ensures showCreate == false && showImport == old(showImport)
    {
      agents := agents + [CreatedAgent(name, description, strategy, now, created)];
      showCreate := false;
      Notify(now, "\"" + name + "\" created", "🤖");
    }

    /** `handleTest`: only a toast. */
    method HandleTest(agent: LabAgent, now: int)
      modifies this
      ensures toasts == old(toasts) + [Toast(now, "Testing " + agent.name + "...", "🔬")]
      ensures agents == old(agents) && showImport == old(showImport) && showCreate == old(showCreate)
    {
      Notify(now, "Testing " + agent.name + "...", "🔬");
    }
  }
}
