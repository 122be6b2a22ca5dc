/**
 * The simulation hook's mutable state: the round record `s.current` and the
 * single pending timer, with one method per step function.
 */
module SimulationHook {
  import opened Wrappers
  import opened Deck
  import opened Simulation

  /**
   * The record `startRound(num)` builds: three names drawn from `pool`, a
   * freshly made and shuffled deck, two cards each to p1, p2 and p3 from its
   * front. It keeps the invariant and is ready for the preflop.
   */
  method DealRound(pool: seq<string>, namePicks: seq<nat>, swaps: seq<nat>, num: int) returns (r: Round)
    requires PoolOk(pool)
    requires |namePicks| == 3 && namePicks[0] < 8 && namePicks[1] < 7 && namePicks[2] < 6
    requires ValidPicks(52, swaps)
    ensures r == NewRound(DrawNames(pool, [], namePicks), FisherYates(FullDeck(), swaps, 51), num)
    ensures RoundOk(r) && StepFits(r, PreflopStep)
  {
    var names := DrawNames(pool, [], namePicks);
    var newDeck := MakeDeck();
    var d := Shuffle(newDeck, swaps);
    NewRoundOk(names, d, num);
    r := NewRound(names, d, num);
  }

  /** `s.current` of the simulation hook, with `timer.current` as `pending`. */
  class RoundEngine {
    /** `s.current`. */
    var s: Round
    /** `timer.current`: the one step scheduled to run next, if any. */
    var pending: Option<Step>
    /** The pool `getRandomName` draws from: `PLAYER_NAMES`. */
    const pool: seq<string>

    ghost predicate Valid()
      reads this
    {
      && RoundOk(s) && (pending.Some? ==> StepFits(s, pending.value))
      && PoolOk(pool)
    }

    /** The hook's initial record, with the mount effect's `after(() => startRound(1), 400)`. */
    constructor ()
      ensures Valid() && s == IDLE_ROUND && pending == Some(StartRoundStep(1)) && pool == NamePool()
    {
      pool := NamePool();
      IdleOk();
      s := IDLE_ROUND;
      pending := Some(StartRoundStep(1));
    }

    /** `after(fn, ms)`: clears any pending timer, then schedules `step`; one timer at a time. */
    method After(step: Step)
      modifies this`pending
      ensures pending == Some(step)
    {
      pending := Some(step);
    }

    /** The unmount cleanup: clears the pending timer, if any. */
    method Cancel()
      modifies this`pending
      ensures pending == None
    {
      pending := None;
    }

    /**
     * `startRound(num)`: the record is replaced as a whole by a freshly
     * dealt one, and the preflop is scheduled.
     */
    method StartRound(namePicks: seq<nat>, swaps: seq<nat>)
      requires PoolOk(pool) && pending.Some? && pending.value.StartRoundStep?
      requires |namePicks| == 3 && namePicks[0] < 8 && namePicks[1] < 7 && namePicks[2] < 6
      requires ValidPicks(52, swaps)
      modifies this
      ensures Valid() && pending == Some(PreflopStep)
      ensures s == NewRound(DrawNames(pool, [], namePicks), FisherYates(FullDeck(), swaps, 51), old(pending).value.num)
    {
      var r := DealRound(pool, namePicks, swaps, pending.value.num);
      s := r;
      After(PreflopStep);
    }

    /**
     * The betting move each betting step repeats: a fold marks the actor
     * folded, a wager adds the same amount to the pot and to the actor's bet.
     */
    method Act(street: Phase, actor: Player, act: Action, roll: nat)
      requires IsStreet(street) && roll < RollSpan(street)
      modifies this`s
      ensures s == ActOn(old(s), street, actor, act, roll)
    {
      var w := Wager(street, act, roll);
      var shown := Some(Ticker(actor.name, Acted(act, w)));
      if act == Fold {
        s := s.(players := FoldActor(s.players, actor.id), action := shown);
        assert s == ActOn(old(s), street, actor, act, roll);
      } else if w.Some? {
        s := s.(pot := s.pot + w.value, bets := s.bets[actor.id := BetOf(s.bets, actor.id) + w.value], action := shown);
        assert s == ActOn(old(s), street, actor, act, roll);
      } else {
        s := s.(action := shown);
        assert s == ActOn(old(s), street, actor, act, roll);
      }
    }

    /** `preflop`: one active player calls (20), raises (50..149) or folds; the hand goes on. */
    method PreflopBet(actorPick: nat, actionPick: nat, roll: nat)
      requires Valid() && pending == Some(PreflopStep)
      requires actorPick < |Active(s.players)| && actionPick < 3 && roll < 100
      modifies this
      ensures Valid() && pending == Some(DealFlopStep)
      ensures s == ActOn(old(s), Preflop, Active(old(s).players)[actorPick], GetRandomAction(false, true, actionPick), roll)
    {
      var active := Active(s.players);
      var act := GetRandomAction(false, true, actionPick);
      BetKeeps(s, Preflop, actorPick, act, roll);
      Act(Preflop, active[actorPick], act, roll);
      s := s.(phase := Preflop);
      After(DealFlopStep);
    }

    /** `dealFlop`: the first three deck cards become the board. */
    method DealFlop()
      requires Valid() && pending == Some(DealFlopStep)
      modifies this
      ensures Valid() && pending == Some(FlopStep)
      ensures s == DealFlopOf(old(s))
    {
      DealFlopKeeps(s);
      var d := s.deck;
      s := s.(community := d[..3]);
      s := s.(deck := d[3..]);
      s := s.(action := Some(Ticker("Dealer", FlopDealt)));
      s := s.(phase := Flop);
      assert s == DealFlopOf(old(s));
      After(FlopStep);
    }

    /** `endRound`: the round is complete and the next one is scheduled. */
    method EndRoundBody(winnerPick: nat)
      requires RoundOk(s) && PoolOk(pool) && (s.phase == Flop || s.phase == Turn || s.phase == River || s.phase == Showdown)
      requires winnerPick < |Active(s.players)|
      modifies this
      ensures Valid() && pending == Some(StartRoundStep(old(s).roundNumber + 1))
      ensures s == EndRoundOf(old(s), winnerPick)
    {
      EndRoundKeeps(s, winnerPick);
      var w := PickWinner(s.winner, s.players, winnerPick);
      s := s.(winner := Some(w), showdown := true, action := Some(Ticker(w.name, Wins(s.pot))), phase := Complete);
      After(StartRoundStep(s.roundNumber + 1));
    }

    /**
     * `flop`, `turn` and `river`: with at most one active player the round
     * ends at once; otherwise one active player acts and the next step is
     * scheduled. On these streets `mustCall` is itself a coin flip.
     */
    method StreetBet(street: Phase, actorPick: nat, mustCall: bool, actionPick: nat, roll: nat, winnerPick: nat)
      requires Valid() && (street == Flop || street == Turn || street == River) && pending == Some(StepOf(street))
      requires actorPick < |Active(s.players)| && winnerPick < |Active(s.players)|
      requires actionPick < |Menu(true, mustCall)| && roll < RollSpan(street)
      modifies this
      ensures Valid()
      ensures |Active(old(s).players)| <= 1 ==>
                s == EndRoundOf(old(s), winnerPick) && pending == Some(StartRoundStep(old(s).roundNumber + 1))
      ensures |Active(old(s).players)| > 1 ==>
                s == ActOn(old(s), street, Active(old(s).players)[actorPick], GetRandomAction(true, mustCall, actionPick), roll)
                && pending == Some(StepAfter(street))
    {
      var active := Active(s.players);
      if |active| <= 1 {
        EndRoundBody(winnerPick);
        return;
      }
      var act := GetRandomAction(true, mustCall, actionPick);
      BetKeeps(s, street, actorPick, act, roll);
      Act(street, active[actorPick], act, roll);
      After(StepAfter(street));
    }

    /** `dealTurn`: the first deck card becomes the fourth board card. */
    method DealTurn()
      requires Valid() && pending == Some(DealTurnStep)
      modifies this
      ensures Valid() && pending == Some(TurnStep)
      ensures s == DealCardOf(old(s), Turn, TurnDealt)
    {
      DealTurnKeeps(s);
      var d := s.deck;
      s := s.(community := s.community + [d[0]]);
      s := s.(deck := d[1..]);
      s := s.(action := Some(Ticker("Dealer", TurnDealt)));
      s := s.(phase := Turn);
      assert s == DealCardOf(old(s), Turn, TurnDealt);
      After(TurnStep);
    }

    /** `dealRiver`: the first deck card becomes the fifth board card. */
    method DealRiver()
      requires Valid() && pending == Some(DealRiverStep)
      modifies this
      ensures Valid() && pending == Some(RiverStep)
      ensures s == DealCardOf(old(s), River, RiverDealt)
    {
      DealRiverKeeps(s);
      var d := s.deck;
      s := s.(community := s.community + [d[0]]);
      s := s.(deck := d[1..]);
      s := s.(action := Some(Ticker("Dealer", RiverDealt)));
      s := s.(phase := River);
      assert s == DealCardOf(old(s), River, RiverDealt);
      After(RiverStep);
    }

    /** `showdown`: names a winner among the active players and zeroes the bets; the pot stays. */
    method CallShowdown(winnerPick: nat)
      requires Valid() && pending == Some(ShowdownStep)
      requires winnerPick < |Active(s.players)|
      modifies this
      ensures Valid() && pending == Some(EndRoundStep)
      ensures s == ShowdownOf(old(s), winnerPick)
    {
      ShowdownKeeps(s, winnerPick);
      var w := PickWinner(None, s.players, winnerPick);
      s := s.(winner := Some(w));
      s := s.(showdown := true);
      s := s.(phase := Showdown);
      s := s.(action := Some(Ticker("Dealer", ShowdownCalled)));
      s := s.(bets := ZERO_BETS);
      assert s == ShowdownOf(old(s), winnerPick);
      After(EndRoundStep);
    }

    /** `endRound` run by its own timer, after `showdown`: the showdown's winner stays. */
    method EndRound(winnerPick: nat)
      requires Valid() && pending == Some(EndRoundStep)
      requires winnerPick < |Active(s.players)|
      modifies this
      ensures Valid() && pending == Some(StartRoundStep(old(s).roundNumber + 1))
      ensures s == EndRoundOf(old(s), winnerPick) && s.winner == old(s).winner
    {
      EndRoundBody(winnerPick);
    }
  }
}
