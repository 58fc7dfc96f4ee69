/**
 * When each call of a run is taken, and what it leaves (ArenaRun.cs, lines 218-435): who may pick, shop and check in,
 * what becomes of them, and which of them moves the run on.
 */
module ArenaAnswers {
  import opened Options
  import opened ArenaTypes
  import opened ArenaShop
  import opened ArenaSteps
  import opened ArenaInvariant
  import opened ArenaRounds
  import opened ArenaTransitions
  import opened ArenaCalls
  import opened ArenaProgress
  import opened ArenaPhases
  import opened ArenaPicks
  import opened ArenaTrades

  // ---- Checking in ----

  ghost predicate OthersCheckedIn(s: Run, id: string) {
    forall x | x in PlayersIn(s) && x != id :: s.players[x].checkedInRound == s.round
  }

  lemma LastCheckin(s: Run, id: string)
    requires id in PlayersIn(s)
    ensures var m := Updated(s, id, s.players[id].(checkedInRound := s.round));
      (AllCheckedIn(m) <==> OthersCheckedIn(s, id)) && id in PlayersIn(m)
  {
    var m := Updated(s, id, s.players[id].(checkedInRound := s.round));
    forall x ensures x in PlayersIn(m) <==> x in PlayersIn(s) {}
  }

  /**
   * A check-in is taken exactly from a player still in, once a round, while the round is played or over. The last one
   * of them, once it is over, begins the next round; any other marks its player and nothing else.
   */
  lemma CheckinLeaves(setup: Setup, s: Run, id: string, round: int, chance: Chance, now: int)
    requires Inv(setup, s) && Fair(chance) && 0 <= now
    ensures var (r, step) := Checkin(setup, s, id, round, chance, now);
      && (step.accepted <==>
            s.phase in {Shop, Match, Results} && round == s.round && id in PlayersIn(s)
            && s.players[id].checkedInRound != s.round)
      && (!step.accepted ==> r == s)
      && (step.accepted ==>
            var m := s.(players := s.players[id := s.players[id].(checkedInRound := s.round)]);
            if s.phase == Results && OthersCheckedIn(s, id) then NextBegun(setup, m, r, chance) else r == m)
  {
    hide Inv, StartReady, StartRound, Fair, AllCheckedIn, OthersCheckedIn, NextBegun;
    if MayCheckIn(s, id, round) {
      CheckinKeeps(setup, s, id, round);
      LastCheckin(s, id);
      var m := Updated(s, id, s.players[id].(checkedInRound := round));
      if m.phase == Results && AllCheckedIn(m) { StartRoundLeaves(setup, m, chance, now); }
    }
  }

  // ---- Closing the shop ----

  ghost predicate OthersShopped(s: Run, id: string) {
    forall x | x in PlayersIn(s) && x != id :: s.players[x].shopDone
  }

  lemma LastShop(s: Run, id: string, player: Player)
    requires id in s.players && !s.players[id].isBot && player.isBot == s.players[id].isBot
    requires player.team == s.players[id].team && player.shopDone
    ensures AllShopsDone(Updated(s, id, player)) <==> OthersShopped(s, id)
  {
    var m := Updated(s, id, player);
    forall x ensures x in PlayersIn(m) <==> x in PlayersIn(s) {}
  }

  /** A shop call is taken exactly from a player whose shop of this round is open. */
  ghost predicate ShopOpenFor(s: Run, id: string, round: int) {
    s.phase == Shop && round == s.round && id in s.players && !s.players[id].isBot && !s.players[id].shopDone
  }

  /** What closing a shop leads to: with another player's still open nothing more; otherwise the round's matches. */
  ghost predicate ShopShut(setup: Setup, s: Run, id: string, player: Player, r: Run, bots: BotMatches, chance: Chance,
                           now: int)
    requires Fair(chance) && 0 <= now
  {
    var m := s.(players := s.players[id := player]);
    if OthersShopped(s, id) then ShopReady(setup, m) && r == EndShop(setup, m, bots, chance, now).0 else r == m
  }

  lemma ShutShop(setup: Setup, s: Run, id: string, round: int, player: Player, bots: BotMatches, chance: Chance,
    now: int)
    requires Inv(setup, s) && MayClose(s, id, round) && Fair(chance) && 0 <= now
    requires player == s.players[id].(coins := player.coins, inventory := player.inventory, shopDone := true)
    requires 0 <= player.coins && Stocked(setup, player.inventory)
    ensures ShopOpen(setup, Updated(s, id, player))
    ensures var (r, step) := AfterShop(setup, Updated(s, id, player), bots, chance, now);
      step.accepted && ShopShut(setup, s, id, player, r, bots, chance, now)
  {
    hide Inv, ShopOpen, ShopReady, EndShop, Fair, AllShopsDone, OthersShopped, Stocked;
    CloseKeeps(setup, s, id, round, player);
    AllShopsReady(setup, Updated(s, id, player));
    LastShop(s, id, player);
  }

  /**
   * A closed shop's rerolls are paid for and its transactions settled one by one, in order; nobody else's things
   * change. If it was the last one open, the round's matches follow.
   */
  lemma ShopClosedLeaves(setup: Setup, s: Run, id: string, round: int, rerolls: int, ts: seq<Transaction>,
                         bots: BotMatches, chance: Chance, now: int) returns (steps: seq<Player>)
    requires Inv(setup, s) && Fair(chance) && 0 <= now
    ensures var (r, step) := ShopClosed(setup, s, id, round, rerolls, ts, bots, chance, now);
      && (step.accepted <==> ShopOpenFor(s, id, round)) && (!step.accepted ==> r == s)
      && (step.accepted ==>
            && |steps| == |ts| + 1 && steps[0] == s.players[id].(coins := steps[0].coins)
            && (forall k | 0 <= k < |ts| :: Traded(setup, steps[k], ts[k], steps[k + 1]))
            && ShopShut(setup, s, id, steps[|ts|].(shopDone := true), r, bots, chance, now)
            && var price := if rerolls <= 0 then 0 else rerolls * setup.rules.shopRerollCost;
            0 <= setup.rules.shopRerollCost && price < 0x8000_0000 && s.players[id].coins < 0x8000_0000 ==>
              && steps[0].coins == (if price <= s.players[id].coins then s.players[id].coins - price else 0)
              && Wealth(steps[|ts|]) <= Wealth(s.players[id]))
  {
    hide Inv, ShopOpen, Stocked, Ready, AfterShop, Settled, Traded, ShopShut, Resale, Fair;
    steps := [];
    if MayClose(s, id, round) {
      Shopper(setup, s, id);
      SettledOnly(setup, s.players[id], rerolls, ts);
      ShutShop(setup, s, id, round, Settled(setup, s.players[id], rerolls, ts), bots, chance, now);
      steps := SettledInOrder(setup, s.players[id], rerolls, ts);
    }
  }

  lemma ShopAbsentLeaves(setup: Setup, s: Run, id: string, round: int, bots: BotMatches, chance: Chance, now: int)
    requires Inv(setup, s) && Fair(chance) && 0 <= now
    ensures var (r, step) := ShopAbsent(setup, s, id, round, bots, chance, now);
      && (step.accepted <==> ShopOpenFor(s, id, round)) && (!step.accepted ==> r == s)
      && (step.accepted ==> ShopShut(setup, s, id, s.players[id].(shopDone := true), r, bots, chance, now))
  {
    hide Inv, ShopOpen, Stocked, Ready, AfterShop, ShopShut, Fair;
    if MayClose(s, id, round) {
      Shopper(setup, s, id);
      ShutShop(setup, s, id, round, s.players[id].(shopDone := true), bots, chance, now);
    }
  }

  // ---- The deadline ----

  /** Every player without a fighter is given one of their offer at random, with no bonus. */
  ghost predicate AbsentTake(setup: Setup, s: Run, m: Run, chance: Chance) {
    && m == s.(players := m.players) && m.players.Keys == s.players.Keys
    && forall x | x in s.players ::
         if x in PlayersIn(s) && s.players[x].character.None? then
           var pool := s.players[x].pool;
           var drawn := chance.draw(x, |pool|);
           drawn < |pool| && ArenaPicks.Takes(setup, s.players[x], m.players[x], pool[drawn], None, 0, false)
         else m.players[x] == s.players[x]
  }

  lemma AbsentTakes(setup: Setup, s: Run, chance: Chance)
    requires Fair(chance)
    requires forall id | id in PlayersIn(s) && s.players[id].character.None? :: s.players[id].pool != []
    ensures AbsentTake(setup, s, AbsentPicked(setup, s, chance), chance)
  {
    hide Picked, ArenaPicks.Takes;
    forall x | x in PlayersIn(s) && s.players[x].character.None?
      ensures var pool := s.players[x].pool;
        ArenaPicks.Takes(setup, s.players[x], Drawn(setup, s.players[x], x, chance), pool[chance.draw(x, |pool|)], None,
          0,
                         false)
    {
      var pool := s.players[x].pool;
      PickedTakes(setup, s.players[x], pool[chance.draw(x, |pool|)], None);
    }
  }

  /** A shop that opens with no player in is followed by the rest of the bots' Arena. */
  lemma OpenShopEnds(setup: Setup, s: Run, chance: Chance, now: int)
    requires OpenReady(setup, s) && Fair(chance) && 0 <= now && s.phase != Ended && PlayersIn(s) == {}
    ensures OpenShop(setup, s, chance, now).0.phase == Ended
  {
    hide OpenReady, Inv, Sound, PlayersIn, OpenShop, Fair;
    var r := OpenShop(setup, s, chance, now);
    OpenShopSound(setup, s, chance, now);
    SoundFrozen(s.(phase := Shop), r.0, r.1, now);
    SameGamePlayers(s, s.(phase := Shop));
    StillNobody(s.(phase := Shop), r.0);
    OpenShopEnters(setup, s, chance, now);
    NobodyWaited(setup, r.0);
  }

  lemma AbsentIn(setup: Setup, s: Run, chance: Chance, now: int)
    requires Inv(setup, s) && s.phase == CharacterSelect && Fair(chance) && 0 <= now
    ensures forall id | id in PlayersIn(s) && s.players[id].character.None? :: s.players[id].pool != []
    ensures var m := AbsentPicked(setup, s, chance);
      && OpenReady(setup, m) && setup.roster != []
      && var r := EndCharacterSelect(setup, m, chance, now).0;
      if PlayersIn(s) == {} then r.phase == Ended else ShopOpened(setup, m, r, chance)
  {
    hide Inv, OpenReady, OpenShop, AbsentPicked, BotsPicked, Fair, PlayersIn, ShopOpened;
    AbsentPickedKeeps(setup, s, chance);
    RosterThere(setup, s);
    var m := AbsentPicked(setup, s, chance);
    SameGamePlayers(s, m);
    if PlayersIn(s) == {} {
      BotsPickedKeeps(setup, m, chance);
      BotsPickedIn(setup, m, chance);
      PicksPhase(setup, s, chance);
      OpenShopEnds(setup, BotsPicked(setup, m, chance), chance, now);
    } else {
      SelectEnds(setup, m, chance, now);
    }
  }

  lemma PicksPhase(setup: Setup, s: Run, chance: Chance)
    requires Ready(setup) && Fair(chance)
    requires forall id | id in PlayersIn(s) && s.players[id].character.None? :: s.players[id].pool != []
    ensures BotsPicked(setup, AbsentPicked(setup, s, chance), chance).phase == s.phase
  {
  }

  /** Every player in has a closed shop; nothing else. */
  ghost predicate ShopsShut(s: Run, m: Run) {
    && m == s.(players := m.players) && m.players.Keys == s.players.Keys
    && forall x | x in s.players ::
         m.players[x] == if x in PlayersIn(s) then s.players[x].(shopDone := true) else s.players[x]
  }

  /**
   * A deadline is acted on exactly once it has passed, and decides for whoever has not acted: a fighter at random
   * without the bonus, a shop with nothing bought, matches with no report (DeadlineLeaves), games not waited for.
   */
  lemma TickLeaves(setup: Setup, s: Run, bots: BotMatches, chance: Chance, now: int, connected: set<string>)
    returns (m: Run)
    requires Inv(setup, s) && Fair(chance) && 0 <= now
    ensures setup.roster != []
    ensures var (r, step) := Tick(setup, s, bots, chance, now, connected);
      && (step.accepted <==> s.phase != Ended && s.deadlineMs <= now) && (!step.accepted ==> r == s)
      && (step.accepted && s.phase == CharacterSelect ==>
            AbsentTake(setup, s, m, chance)
            && if PlayersIn(s) == {} then r.phase == Ended else ShopOpened(setup, m, r, chance))
      && (step.accepted && s.phase == Shop ==>
            ShopsShut(s, m) && ShopReady(setup, m) && r == EndShop(setup, m, bots, chance, now).0)
      && (step.accepted && s.phase == Results ==> NextBegun(setup, s, r, chance))
  {
    hide Core, Ready, OpenReady, ShopReady, StartReady, AbsentPicked, SettleOpen, EndCharacterSelect, EndShop, EndRound,
      StartRound, AbsentTake, ShopOpened, NextBegun, PlayersOk, Fair, RoundReady, Advances, Seated;
    RosterThere(setup, s);
    m := s;
    if s.deadlineMs != 0 && s.deadlineMs <= now {
      match s.phase
      case CharacterSelect =>
        AbsentIn(setup, s, chance, now);
        AbsentTakes(setup, s, chance);
        m := AbsentPicked(setup, s, chance);
      case Shop =>
        ShopsClosedKeeps(setup, s);
        m := ShopsClosed(s);
      case Match =>
        UnreportedKeeps(setup, s, connected);
      case Results =>
        ResultsReady(setup, s);
        StartRoundLeaves(setup, s, chance, now);
      case Ended =>
    }
  }
}
