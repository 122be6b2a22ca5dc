/**
 * The leaderboard rows of the store and the two pure operations on them:
 * `sortByElo` (a stable sort by descending Elo that numbers the rows 1..n)
 * and the patch that a finished match applies to the active agent's row.
 */
module Leaderboard {
  import opened Wrappers

  /** One leaderboard row; `rank` is `None` until `sortByElo` numbers the row. */
  datatype Row = Row(
    agentId: string,
    agentName: string,
    ownerName: string,
    elo: int,
    wins: int,
    losses: int,
    streak: int,
    badge: string,
    isLive: bool,
    rank: Option<int>)

  /** Highest Elo first. */
  predicate Descending(s: seq<Row>) {
    forall i, j :: 0 <= i < j < |s| ==> s[i].elo >= s[j].elo
  }

  /** Places `x` after every leading row whose Elo is at least its own. */
  function Insert(x: Row, s: seq<Row>): (r: seq<Row>)
    ensures |r| == |s| + 1
  {
    if s == [] then [x]
    else if s[0].elo >= x.elo then [s[0]] + Insert(x, s[1..])
    else [x] + s
  }

  /**
   * `[...arr].sort((a, b) => b.elo - a.elo)`: JavaScript's sort is stable,
   * so rows of equal Elo keep their input order; insertion of each row after
   * the equal ones already placed gives exactly that order.
   */
  function SortDesc(a: seq<Row>): (r: seq<Row>)
    ensures |r| == |a|
  {
    if a == [] then [] else Insert(a[|a| - 1], SortDesc(a[..|a| - 1]))
  }

  /** `.map((e, i) => ({ ...e, rank: i + 1 }))`. */
  function Ranked(s: seq<Row>): (r: seq<Row>)
    ensures |r| == |s|
    ensures forall i :: 0 <= i < |s| ==> r[i] == s[i].(rank := Some(i + 1))
  {
    seq(|s|, i requires 0 <= i < |s| => s[i].(rank := Some(i + 1)))
  }

  /** `sortByElo`: a new, sorted and numbered array; the input is a value and stays as it was. */
  function SortByElo(a: seq<Row>): (r: seq<Row>)
    ensures |r| == |a|
  {
    Ranked(SortDesc(a))
  }

  lemma {:induction false} InsertPermutes(x: Row, s: seq<Row>)
    ensures multiset(Insert(x, s)) == multiset(s) + multiset{x}
  {
    if s != [] && s[0].elo >= x.elo {
      InsertPermutes(x, s[1..]);
      assert s == [s[0]] + s[1..];
    }
  }

  lemma {:induction false} InsertDescending(x: Row, s: seq<Row>)
    requires Descending(s)
    ensures Descending(Insert(x, s))
  {
    if s != [] && s[0].elo >= x.elo {
      var t := s[1..];
      var u := Insert(x, t);
      InsertDescending(x, t);
      InsertPermutes(x, t);
      forall k | 0 <= k < |u|
        ensures s[0].elo >= u[k].elo
      {
        var y := u[k];
        assert y in multiset(t) + multiset{x};
        if y != x {
          assert y in t;
          var j :| 0 <= j < |t| && t[j] == y;
          assert s[j + 1] == y;
        }
      }
      assert Insert(x, s) == [s[0]] + u;
    }
  }

  /** The rows of `s` whose Elo is `e`, in order. */
  function WithElo(s: seq<Row>, e: int): seq<Row> {
    if s == [] then [] else (if s[0].elo == e then [s[0]] else []) + WithElo(s[1..], e)
  }

  lemma {:induction false} WithEloAppend(s: seq<Row>, t: seq<Row>, e: int)
    ensures WithElo(s + t, e) == WithElo(s, e) + WithElo(t, e)
  {
    if s == [] {
      assert s + t == t;
    } else {
      var h := if s[0].elo == e then [s[0]] else [];
      calc {
        WithElo(s + t, e);
        { assert (s + t)[0] == s[0]; }
        h + WithElo((s + t)[1..], e);
        { assert (s + t)[1..] == s[1..] + t; }
        h + WithElo(s[1..] + t, e);
        { WithEloAppend(s[1..], t, e); }
        h + (WithElo(s[1..], e) + WithElo(t, e));
      }
    }
  }

  lemma {:induction false} WithEloNone(s: seq<Row>, e: int)
    requires forall k :: 0 <= k < |s| ==> s[k].elo < e
    ensures WithElo(s, e) == []
  {
    if s != [] {
      WithEloNone(s[1..], e);
    }
  }

  /** Inserting into a descending list puts `x` after every row of the same Elo. */
  lemma {:induction false} InsertStable(x: Row, s: seq<Row>, e: int)
    requires Descending(s)
    ensures WithElo(Insert(x, s), e) == WithElo(s, e) + (if x.elo == e then [x] else [])
  {
    if s != [] {
      if s[0].elo >= x.elo {
        InsertStable(x, s[1..], e);
        assert Insert(x, s)[1..] == Insert(x, s[1..]);
      } else if x.elo == e {
        WithEloNone(s, e);
      }
    }
  }

  lemma {:induction false} SortDescPermutes(a: seq<Row>)
    ensures Descending(SortDesc(a))
    ensures multiset(SortDesc(a)) == multiset(a)
  {
    SortDescOrders(a);
    SortDescKeeps(a);
  }

  lemma {:induction false} SortDescOrders(a: seq<Row>)
    ensures Descending(SortDesc(a))
  {
    if a != [] {
      SortDescOrders(a[..|a| - 1]);
      InsertDescending(a[|a| - 1], SortDesc(a[..|a| - 1]));
    }
  }

  lemma {:induction false} SortDescKeeps(a: seq<Row>)
    ensures multiset(SortDesc(a)) == multiset(a)
  {
    if a != [] {
      var init := a[..|a| - 1];
      SortDescKeeps(init);
      InsertPermutes(a[|a| - 1], SortDesc(init));
      assert a == init + [a[|a| - 1]];
    }
  }

  lemma {:induction false} SortDescStable(a: seq<Row>, e: int)
    ensures WithElo(SortDesc(a), e) == WithElo(a, e)
  {
    if a != [] {
      var init, x := a[..|a| - 1], a[|a| - 1];
      SortDescStable(init, e);
      SortDescOrders(init);
      InsertStable(x, SortDesc(init), e);
      assert a == init + [x];
      WithEloAppend(init, [x], e);
      assert WithElo([x], e) == (if x.elo == e then [x] else []) by {
        assert [x][1..] == [];
      }
    }
  }

  /**
   * `sortByElo` keeps the rows and their number, orders them by descending
   * Elo, numbers them 1..n by position, and keeps rows of equal Elo in their
   * input order.
   */
  lemma SortByEloSpec(a: seq<Row>)
    ensures var r := SortByElo(a);
      && |r| == |a|
      && Descending(r)
      && (forall i :: 0 <= i < |r| ==> r[i].rank == Some(i + 1))
      && (forall i :: 0 <= i < |r| ==> r[i] == SortDesc(a)[i].(rank := Some(i + 1)))
      && multiset(SortDesc(a)) == multiset(a)
    ensures forall e :: WithElo(SortDesc(a), e) == WithElo(a, e)
  {
    SortDescPermutes(a);
    forall e ensures WithElo(SortDesc(a), e) == WithElo(a, e) {
      SortDescStable(a, e);
    }
  }

  /** A row of the input shows up in the sorted board, numbered by its new position. */
  lemma SortByEloKeeps(a: seq<Row>, row: Row)
    requires row in a
    ensures exists i :: 0 <= i < |SortByElo(a)| && SortByElo(a)[i] == row.(rank := Some(i + 1))
  {
    SortDescPermutes(a);
    assert row in multiset(SortDesc(a));
    var i :| 0 <= i < |SortDesc(a)| && SortDesc(a)[i] == row;
    assert SortByElo(a)[i] == row.(rank := Some(i + 1));
  }

  /** Every row of the sorted board comes from the input. */
  lemma SortByEloFrom(a: seq<Row>, i: int)
    requires 0 <= i < |a|
    ensures exists row :: row in a && SortByElo(a)[i] == row.(rank := Some(i + 1))
  {
    SortDescPermutes(a);
    var row := SortDesc(a)[i];
    assert row in multiset(a);
  }

  /** `signedDelta`: the size of the change, counted up for a win and down otherwise. */
  function SignedDelta(outcome: string, delta: int): (r: int)
    ensures r == delta || r == -delta
    ensures outcome == "win" ==> r >= 0
    ensures outcome != "win" ==> r <= 0
  {
    if outcome == "win" then (if delta >= 0 then delta else -delta)
    else (if delta >= 0 then -delta else delta)
  }

  /** The patch a finished match applies to the active agent's row. */
  function PatchRow(row: Row, outcome: string, signed: int): (r: Row)
    ensures r.agentId == row.agentId && r.elo == row.elo + signed
    ensures r.wins + r.losses <= row.wins + row.losses + 1
    ensures outcome == "win" ==> r.streak == row.streak + 1
    ensures outcome == "win" ==> r.wins == row.wins + 1 && r.losses == row.losses
    ensures outcome == "loss" ==> r.losses == row.losses + 1 && r.wins == row.wins && r.streak == 0
    ensures outcome != "win" && outcome != "loss" ==> r.wins == row.wins && r.losses == row.losses && r.streak == 0
    ensures r.(elo := row.elo, wins := row.wins, losses := row.losses, streak := row.streak) == row
  {
    row.(
      elo := row.elo + signed,
      wins := if outcome == "win" then row.wins + 1 else row.wins,
      losses := if outcome == "loss" then row.losses + 1 else row.losses,
      streak := if outcome == "win" then row.streak + 1 else 0)
  }

  /** What the `.map` makes of one row: the active agent's row is patched, every other row is kept. */
  function Applied(row: Row, activeId: string, outcome: string, signed: int): (r: Row)
    ensures r.agentId == row.agentId
    ensures row.agentId != activeId ==> r == row
  {
    if row.agentId == activeId then PatchRow(row, outcome, signed) else row
  }

  /** The `.map` that patches the rows whose `agentId` is the active agent's. */
  function PatchActive(board: seq<Row>, activeId: string, outcome: string, signed: int): (r: seq<Row>)
    ensures |r| == |board|
  {
    seq(|board|, i requires 0 <= i < |board| => Applied(board[i], activeId, outcome, signed))
  }

  /** One board after a match: patched, then re-sorted and re-numbered. */
  function RecordOnBoard(board: seq<Row>, activeId: string, outcome: string, signed: int): (r: seq<Row>)
    ensures |r| == |board|
  {
    SortByElo(PatchActive(board, activeId, outcome, signed))
  }

  /** After a match the board has as many rows as before, sorted by Elo and numbered 1..n. */
  lemma RecordOnBoardShape(board: seq<Row>, activeId: string, outcome: string, signed: int)
    ensures var r := RecordOnBoard(board, activeId, outcome, signed);
      && |r| == |board|
      && Descending(r)
      && (forall i :: 0 <= i < |r| ==> r[i].rank == Some(i + 1))
  {
    SortByEloSpec(PatchActive(board, activeId, outcome, signed));
  }

  /**
   * Every row of the old board is on the new one, at some position `i`
   * and numbered `i + 1`: another agent's row with nothing else changed, the
   * active agent's row with its Elo moved by the signed delta, a win or a
   * loss counted, and its streak extended by a win or reset otherwise.
   */
  lemma RecordOnBoardKeeps(board: seq<Row>, activeId: string, outcome: string, signed: int, row: Row)
    requires row in board
    ensures var r := RecordOnBoard(board, activeId, outcome, signed);
      row.agentId != activeId ==> exists i :: 0 <= i < |r| && r[i] == row.(rank := Some(i + 1))
    ensures var r := RecordOnBoard(board, activeId, outcome, signed);
      row.agentId == activeId ==> exists i :: 0 <= i < |r| && r[i] == PatchRow(row, outcome, signed).(rank := Some(i + 1))
  {
    var p := PatchActive(board, activeId, outcome, signed);
    var j :| 0 <= j < |board| && board[j] == row;
    SortByEloKeeps(p, p[j]);
    var i :| 0 <= i < |SortByElo(p)| && SortByElo(p)[i] == p[j].(rank := Some(i + 1));
    assert RecordOnBoard(board, activeId, outcome, signed) == SortByElo(p);
    if row.agentId != activeId {
      assert p[j] == row;
    } else {
      assert p[j] == PatchRow(row, outcome, signed);
    }
  }

  /** Every row of the new board comes from a row of the old one, patched when it is the active agent's. */
  lemma RecordOnBoardFrom(board: seq<Row>, activeId: string, outcome: string, signed: int, i: int)
    requires 0 <= i < |board|
    ensures exists row :: (row in board &&
      RecordOnBoard(board, activeId, outcome, signed)[i] == Applied(row, activeId, outcome, signed).(rank := Some(i + 1)))
  {
    var p := PatchActive(board, activeId, outcome, signed);
    SortByEloFrom(p, i);
    var q :| q in p && SortByElo(p)[i] == q.(rank := Some(i + 1));
    var j :| 0 <= j < |p| && p[j] == q;
    assert board[j] in board;
  }
}
