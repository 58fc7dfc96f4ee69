/**
 * Whole runs, told by their rounds: every team's record at any moment is what the pairings of all the rounds so far
 * say.
 */
module ArenaWholeHistory {
  import opened Options
  import opened ArenaRules
  import opened ArenaTypes
  import opened ArenaSteps
  import opened ArenaInvariant
  import opened ArenaResults
  import opened ArenaRounds
  import opened ArenaShop
  import opened ArenaPairing
  import opened ArenaTransitions
  import opened ArenaVerdicts
  import opened ArenaCalls
  import opened ArenaProgress
  import opened ArenaCallProgress
  import opened ArenaWholeRun
  import opened ArenaHistory

  /** Rounds that go on from these, and tell a later run. */
  ghost predicate GoesOnAs(setup: Setup, r: Run, rounds: seq<seq<Pairing>>, later: seq<seq<Pairing>>) {
    RoundsOf(setup.rules, r, later) && Extends(rounds, later)
  }

  lemma SameRounds(setup: Setup, s: Run, r: Run, rounds: seq<seq<Pairing>>)
    requires RoundsOf(setup.rules, s, rounds) && SameGame(s, r)
    ensures GoesOnAs(setup, r, rounds, rounds)
  {
    hide RoundsOf, Extends;
    SameGameRounds(setup.rules, s, r, rounds);
    RoundsThere(setup.rules, s, rounds);
    ExtendsSelf(rounds);
  }

  // ---- What was ruled, found among the rounds ----

  /** A run's pairings as they stood at some moment, found among the rounds: their results have stayed. */
  ghost predicate SeenIn(s: Run, rounds: seq<seq<Pairing>>) {
    1 <= s.round <= |rounds| && KeptAll(s.pairings, rounds[s.round - 1])
  }

  lemma SeenLater(s: Run, rounds: seq<seq<Pairing>>, later: seq<seq<Pairing>>)
    requires SeenIn(s, rounds) && Extends(rounds, later)
    ensures SeenIn(s, later)
  {
    var k := s.round - 1;
    if k == |rounds| - 1 {
      forall i | 0 <= i < |s.pairings| ensures KeptResult(s.pairings[i], later[k][i]) {
        assert KeptResult(s.pairings[i], rounds[k][i]) && KeptResult(rounds[k][i], later[k][i]);
      }
    }
  }

  lemma SeenNow(rules: Rules, s: Run, rounds: seq<seq<Pairing>>)
    requires RoundsOf(rules, s, rounds)
    ensures SeenIn(s, rounds)
  {
    ExtendsSelf(rounds);
  }

  /** The i-th match of a run's round, undecided there, was decided as its reports and connections rule. */
  ghost predicate Ruling(s: Run, side: Option<int>, connected: set<string>, i: int, rounds: seq<seq<Pairing>>) {
    && 1 <= s.round <= |rounds| && 0 <= i < |s.pairings| && i < |rounds[s.round - 1]|
    && rounds[s.round - 1][i].winner.Some?
    && WonBy(s, s.pairings[i], side, connected, rounds[s.round - 1][i].winner.value)
  }

  /** The i-th match of a run's round, between bots, went as the bots' match did. */
  ghost predicate BotRuling(s: Run, bots: BotMatches, i: int, rounds: seq<seq<Pairing>>) {
    && 1 <= s.round <= |rounds| && 0 <= i < |s.pairings| && i < |rounds[s.round - 1]|
    && rounds[s.round - 1][i].winner == Some(if bots(s.round, i) then s.pairings[i].a else s.pairings[i].b)
  }

  /** If the shop is over, the matches between bots are decided. */
  ghost predicate BotsClosed(s: Run, r: Run, bots: BotMatches, rounds: seq<seq<Pairing>>) {
    !(r.phase == Shop && r.round == s.round) ==>
      forall i | 0 <= i < |s.pairings| && !s.pairings[i].hasPlayer :: BotRuling(s, bots, i, rounds)
  }

  /** The calls that can end a shop. */
  predicate ShopCall(call: Call) {
    call.ShopClosedCall? || call.ShopAbsentCall? || call.TickCall?
  }

  /**
   * What a call taken decides: a result, its match; the match deadline, every match of the round still undecided; the
   * end of the shop, every match between bots.
   */
  ghost predicate RuledIn(s: Run, move: Move, r: Run, rounds: seq<seq<Pairing>>) {
    && (move.call.MatchResultCall? ==>
          forall i | 0 <= i < |s.pairings| && s.pairings[i].matchId == Some(move.call.matchId) ::
            Ruling(s, move.call.side, move.call.connected, i, rounds))
    && (move.call.TickCall? && s.phase == Match ==>
          forall i | 0 <= i < |s.pairings| && s.pairings[i].winner.None? ::
            Ruling(s, None, move.call.connected, i, rounds))
    && (ShopCall(move.call) && s.phase == Shop ==> BotsClosed(s, r, move.bots, rounds))
  }

  lemma RulingSeen(s: Run, m: Run, side: Option<int>, connected: set<string>, i: nat, rounds: seq<seq<Pairing>>)
    requires SeenIn(m, rounds) && m.round == s.round && i < |s.pairings| == |m.pairings| && m.pairings[i].winner.Some?
    requires WonBy(s, s.pairings[i], side, connected, m.pairings[i].winner.value)
    ensures Ruling(s, side, connected, i, rounds)
  {
    hide WonBy;
    assert KeptResult(m.pairings[i], rounds[m.round - 1][i]);
  }

  lemma BotSeen(s: Run, m: Run, bots: BotMatches, i: nat, rounds: seq<seq<Pairing>>)
    requires SeenIn(m, rounds) && m.round == s.round && i < |s.pairings| == |m.pairings|
    requires m.pairings[i].winner == Some(if bots(s.round, i) then s.pairings[i].a else s.pairings[i].b)
    ensures BotRuling(s, bots, i, rounds)
  {
    assert KeptResult(m.pairings[i], rounds[m.round - 1][i]);
  }

  lemma SeenThen(rules: Rules, m: Run, more: seq<seq<Pairing>>, later: seq<seq<Pairing>>)
    requires RoundsOf(rules, m, more) && Extends(more, later)
    ensures SeenIn(m, later)
  {
    hide RoundsOf, Extends, SeenIn;
    SeenNow(rules, m, more);
    SeenLater(m, more, later);
  }

  lemma RuledLater(s: Run, move: Move, r: Run, rounds: seq<seq<Pairing>>, later: seq<seq<Pairing>>)
    requires RuledIn(s, move, r, rounds) && Extends(rounds, later)
    ensures RuledIn(s, move, r, later)
  {
    hide WonBy, Extends;
    forall side, connected, i | Ruling(s, side, connected, i, rounds) ensures Ruling(s, side, connected, i, later) {
      KeptAt(rounds, later, s.round - 1, i);
    }
    forall i | BotRuling(s, move.bots, i, rounds) ensures BotRuling(s, move.bots, i, later) {
      KeptAt(rounds, later, s.round - 1, i);
    }
  }

  lemma KeptAt(rounds: seq<seq<Pairing>>, later: seq<seq<Pairing>>, k: nat, i: nat)
    requires Extends(rounds, later) && k < |rounds| && i < |rounds[k]|
    ensures k < |later| && i < |later[k]| && KeptResult(rounds[k][i], later[k][i])
  {
    if k < |rounds| - 1 { assert later[k] == rounds[k]; }
  }

  // ---- The four that call each other ----

  lemma ShopsOpenedSame(setup: Setup, s: Run, chance: Chance, deadline: int)
    requires Fair(chance)
    ensures SameGame(s, ShopsOpened(setup, s.(phase := Shop), chance).(deadlineMs := deadline))
  {
  }

  lemma {:induction false} OpenShopRounds(setup: Setup, s: Run, chance: Chance, now: int, rounds: seq<seq<Pairing>>)
    returns (later: seq<seq<Pairing>>)
    requires OpenReady(setup, s) && Fair(chance) && 0 <= now && RoundsOf(setup.rules, s, rounds)
    ensures GoesOnAs(setup, OpenShop(setup, s, chance, now).0, rounds, later)
    decreases RoundsLeft(setup, s), 3
  {
    hide OpenReady, ShopReady, Inv, Ready, EndShop, ShopsOpened, RoundsLeft, Fair, RoundsOf, GoesOnAs, SameGame,
      PlayersIn;
    OpenShopSteps(setup, s, chance, now);
    var s1 := s.(phase := Shop);
    if PlayersIn(s1) == {} {
      var s2 := s1.(deadlineMs := 0);
      Rephasing(setup, s, s2, rounds);
      later := EndShopRounds(setup, s2, chance.coin, chance, now, rounds);
    } else {
      var deadline := now + (setup.rules.shopSeconds + setup.rules.graceSeconds) * 1000;
      ShopsOpenedSame(setup, s, chance, deadline);
      SameRounds(setup, s, ShopsOpened(setup, s1, chance).(deadlineMs := deadline), rounds);
      later := rounds;
    }
  }

  lemma Rephasing(setup: Setup, s: Run, r: Run, rounds: seq<seq<Pairing>>)
    requires RoundsOf(setup.rules, s, rounds) && r == s.(phase := r.phase, deadlineMs := r.deadlineMs)
    ensures RoundsOf(setup.rules, r, rounds)
  {
    hide RoundsOf;
    SameGameRounds(setup.rules, s, r, rounds);
  }

  /** The bots' matches decided, as the shop closes. */
  lemma BotsDecidedRounds(setup: Setup, s: Run, bots: BotMatches, deadline: int, rounds: seq<seq<Pairing>>)
    returns (later: seq<seq<Pairing>>)
    requires ShopReady(setup, s) && RoundsOf(setup.rules, s, rounds)
    ensures Playable(setup.rules)
    ensures var s1 := s.(phase := Match, deadlineMs := deadline);
      Seated(s1) && GoesOnAs(setup, DecideBots(setup.rules, s1, bots, |s1.pairings|), rounds, later)
  {
    hide RoundOpen, RoundsOf, DecideBots, BotsOpen, Core;
    var s1 := s.(phase := Match, deadlineMs := deadline);
    ShopDecides(setup, s, bots, deadline);
    Rephasing(setup, s, s1, rounds);
    later := BotsRounds(setup.rules, s1, bots, |s1.pairings|, rounds);
  }

  lemma Onwards(setup: Setup, r: Run, rounds: seq<seq<Pairing>>, more: seq<seq<Pairing>>, later: seq<seq<Pairing>>)
    requires Extends(rounds, more) && GoesOnAs(setup, r, more, later)
    ensures GoesOnAs(setup, r, rounds, later)
  {
    hide RoundsOf, Extends;
    ExtendsTrans(rounds, more, later);
  }

  lemma {:induction false} EndShopRounds(setup: Setup, s: Run, bots: BotMatches, chance: Chance, now: int,
                                         rounds: seq<seq<Pairing>>)
    returns (later: seq<seq<Pairing>>)
    requires ShopReady(setup, s) && Fair(chance) && 0 <= now && RoundsOf(setup.rules, s, rounds)
    ensures GoesOnAs(setup, EndShop(setup, s, bots, chance, now).0, rounds, later)
    ensures forall i | 0 <= i < |s.pairings| && !s.pairings[i].hasPlayer :: BotRuling(s, bots, i, later)
    decreases RoundsLeft(setup, s), 2
  {
    hide ShopReady, RoundReady, Inv, Ready, DecideBots, Advances, EndRound, RoundsLeft, Fair, Seated, AllDecided,
      RoundsOf, Extends;
    EndShopSteps(setup, s, bots, now);
    var s1 := s.(phase := Match, deadlineMs := now + setup.rules.matchDeadlineSeconds * 1000);
    var s2 := DecideBots(setup.rules, s1, bots, |s1.pairings|);
    var more := BotsDecidedRounds(setup, s, bots, now + setup.rules.matchDeadlineSeconds * 1000, rounds);
    if AllDecided(s2) {
      later := EndRoundRounds(setup, s2, chance, now, more);
      Onwards(setup, EndRound(setup, s2, chance, now).0, rounds, more, later);
    } else {
      later := more;
      RoundsThere(setup.rules, s2, more);
      ExtendsSelf(more);
    }
    SeenThen(setup.rules, s2, more, later);
    BotsRuled(setup, s, bots, now, s2, later);
  }

  lemma BotsRuled(setup: Setup, s: Run, bots: BotMatches, now: int, m: Run, rounds: seq<seq<Pairing>>)
    requires ShopReady(setup, s) && Playable(setup.rules) && 0 <= now && SeenIn(m, rounds)
    requires var s1 := s.(phase := Match, deadlineMs := now + setup.rules.matchDeadlineSeconds * 1000);
      Seated(s1) && m == DecideBots(setup.rules, s1, bots, |s1.pairings|)
    ensures forall i | 0 <= i < |s.pairings| && !s.pairings[i].hasPlayer :: BotRuling(s, bots, i, rounds)
  {
    hide ShopReady, DecideBots, SeenIn, Core, TeamAfter;
    var s1 := s.(phase := Match, deadlineMs := now + setup.rules.matchDeadlineSeconds * 1000);
    ShopBots(setup, s, bots, now + setup.rules.matchDeadlineSeconds * 1000);
    BotsLeave(setup.rules, s1, bots, |s1.pairings|);
    forall i | 0 <= i < |s.pairings| && !s.pairings[i].hasPlayer ensures BotRuling(s, bots, i, rounds) {
      BotSeen(s, m, bots, i, rounds);
    }
  }

  /** A round's end changes ranks, coins, the phase and the deadline. */
  lemma RoundEndedRounds(setup: Setup, s: Run, deadline: int, rounds: seq<seq<Pairing>>)
    requires RoundReady(setup, s) && RoundsOf(setup.rules, s, rounds)
    ensures var s1 := WentOut(s);
      if Left(s1) <= 1 then GoesOnAs(setup, Crowned(s1).(phase := Ended, deadlineMs := 0), rounds, rounds)
      else (forall id | id in s1.players :: s1.players[id].team < |s1.teams|)
           && GoesOnAs(setup, Paid(setup.rules, s1).(phase := Results, deadlineMs := deadline), rounds, rounds)
  {
    hide Core, Ready, PlayersOk, WentOut, Crowned, Paid, RoundsOf, Left, AllPlaying, ShopsDone, AllDecided, GoesOn;
    RoundEndKeeps(setup, s);
    WentOutReranks(s);
    var s1 := WentOut(s);
    if Left(s1) <= 1 {
      RerankedRounds(setup.rules, s, Crowned(s1), rounds);
      SameRounds(setup, Crowned(s1), Crowned(s1).(phase := Ended, deadlineMs := 0), rounds);
    } else {
      RerankedRounds(setup.rules, s, s1, rounds);
      PaidKeeps(setup, s1, deadline);
      OwnTeams(setup, s);
      SameRounds(setup, s1, Paid(setup.rules, s1).(phase := Results, deadlineMs := deadline), rounds);
    }
  }

  lemma {:induction false} EndRoundRounds(setup: Setup, s: Run, chance: Chance, now: int, rounds: seq<seq<Pairing>>)
    returns (later: seq<seq<Pairing>>)
    requires RoundReady(setup, s) && Fair(chance) && 0 <= now && RoundsOf(setup.rules, s, rounds)
    ensures GoesOnAs(setup, EndRound(setup, s, chance, now).0, rounds, later)
    decreases RoundsLeft(setup, s), 1
  {
    hide StartReady, Inv, Ready, StartRound, Paid, WentOut, Crowned, OutNow, RoundReady, AllCheckedIn, Fair, RoundsOf,
      Extends, PlayersIn;
    EndRoundSteps(setup, s, now);
    RoundEndedRounds(setup, s, now + setup.rules.checkinSeconds * 1000, rounds);
    var s1 := WentOut(s);
    later := rounds;
    if Left(s1) > 1 {
      var s2 := Paid(setup.rules, s1).(phase := Results, deadlineMs := now + setup.rules.checkinSeconds * 1000);
      if AllCheckedIn(s2) { later := StartRoundRounds(setup, s2, chance, now, rounds); }
    }
  }

  /** The next round paired: one more. */
  lemma NextRoundRounds(setup: Setup, s: Run, chance: Chance, rounds: seq<seq<Pairing>>)
    returns (later: seq<seq<Pairing>>)
    requires StartReady(setup, s) && Fair(chance) && RoundsOf(setup.rules, s, rounds)
    ensures GoesOnAs(setup, PairRound(s.(round := s.round + 1), chance), rounds, later)
  {
    hide Core, Ready, PlayersOk, Paired, OrderOf, JustPaired, RoundsOf, Extends, InTeams, AllDecided, GoesOn,
      NoneDecided;
    NextRoundCore(setup.rules, s, chance);
    var r, order := PairRound(s.(round := s.round + 1), chance), chance.order(s.round + 1, InTeams(s.teams, |s.teams|));
    PairedRounds(setup.rules, s, order, r, rounds);
    later := rounds + [r.pairings];
  }

  lemma {:induction false} StartRoundRounds(setup: Setup, s: Run, chance: Chance, now: int, rounds: seq<seq<Pairing>>)
    returns (later: seq<seq<Pairing>>)
    requires StartReady(setup, s) && Fair(chance) && 0 <= now && RoundsOf(setup.rules, s, rounds)
    ensures GoesOnAs(setup, StartRound(setup, s, chance, now).0, rounds, later)
    decreases RoundsLeft(setup, s), 0
  {
    hide StartReady, OpenReady, Inv, Ready, PairRound, OpenShop, Launches, RoundsLeft, Fair, RoundsOf, Extends;
    NextRoundOpens(setup, s, chance);
    var s1 := PairRound(s.(round := s.round + 1), chance);
    var more := NextRoundRounds(setup, s, chance, rounds);
    later := OpenShopRounds(setup, s1, chance, now, more);
    Onwards(setup, OpenShop(setup, s1, chance, now).0, rounds, more, later);
  }

  // ---- Every call ----

  lemma Updating(setup: Setup, s: Run, id: string, player: Player, rounds: seq<seq<Pairing>>)
    requires RoundsOf(setup.rules, s, rounds) && id in s.players
    requires player.isBot == s.players[id].isBot && player.team == s.players[id].team
    ensures GoesOnAs(setup, Updated(s, id, player), rounds, rounds)
      && RoundsOf(setup.rules, Updated(s, id, player), rounds)
  {
    hide RoundsOf, Extends;
    SameRounds(setup, s, Updated(s, id, player), rounds);
  }

  lemma SelectedRounds(setup: Setup, s: Run, chance: Chance, now: int, rounds: seq<seq<Pairing>>)
    returns (later: seq<seq<Pairing>>)
    requires OpenReady(setup, s) && Fair(chance) && 0 <= now && RoundsOf(setup.rules, s, rounds)
    ensures GoesOnAs(setup, EndCharacterSelect(setup, s, chance, now).0, rounds, later)
  {
    hide OpenReady, Inv, Ready, Fair, RoundsOf, GoesOnAs, OpenShop, BotsPicked, SameGame;
    BotsPickedKeeps(setup, s, chance);
    SameGameRounds(setup.rules, s, BotsPicked(setup, s, chance), rounds);
    later := OpenShopRounds(setup, BotsPicked(setup, s, chance), chance, now, rounds);
  }

  lemma PickRounds(setup: Setup, s: Run, id: string, player: Player, chance: Chance, now: int,
    rounds: seq<seq<Pairing>>)
    returns (later: seq<seq<Pairing>>)
    requires Inv(setup, s) && MayPick(s, id) && Fair(chance) && 0 <= now && RoundsOf(setup.rules, s, rounds)
    requires player == s.players[id].(pool := player.pool, coins := player.coins, character := player.character,
                                      skin := player.skin, randomPick := player.randomPick)
    requires 0 <= player.coins && (player.character.None? ==> player.pool != [])
    ensures var m := Updated(s, id, player);
      Inv(setup, m) && OpenReady(setup, m) && GoesOnAs(setup, AfterPick(setup, m, chance, now).0, rounds, later)
  {
    hide Inv, OpenReady, Fair, RoundsOf, GoesOnAs, EndCharacterSelect;
    PickKeeps(setup, s, id, player);
    Updating(setup, s, id, player, rounds);
    var m := Updated(s, id, player);
    if AllPicked(m) { later := SelectedRounds(setup, m, chance, now, rounds); } else { later := rounds; }
  }

  lemma Unchanged(setup: Setup, s: Run, rounds: seq<seq<Pairing>>)
    requires RoundsOf(setup.rules, s, rounds)
    ensures GoesOnAs(setup, s, rounds, rounds)
  {
    ExtendsSelf(rounds);
  }

  lemma RerollRounds(setup: Setup, s: Run, id: string, chance: Chance, rounds: seq<seq<Pairing>>)
    requires Inv(setup, s) && Fair(chance) && RoundsOf(setup.rules, s, rounds)
    ensures GoesOnAs(setup, RerollCharacters(setup, s, id, chance).0, rounds, rounds)
  {
    hide Inv, OpenReady, Fair, RoundsOf, GoesOnAs;
    Unchanged(setup, s, rounds);
    if MayPick(s, id) && s.players[id].coins >= setup.rules.characterRerollCost {
      PoolFilled(setup, s, id);
      Updating(setup, s, id, s.players[id].(coins := s.players[id].coins - setup.rules.characterRerollCost,
                                            pool := Offer(setup, id, chance)), rounds);
    }
  }

  lemma SelectRounds(setup: Setup, s: Run, id: string, character: Option<string>, skin: Option<string>,
    chooseRandom: bool, chance: Chance, now: int, rounds: seq<seq<Pairing>>) returns (later: seq<seq<Pairing>>)
    requires Inv(setup, s) && Fair(chance) && 0 <= now && RoundsOf(setup.rules, s, rounds)
    ensures GoesOnAs(setup, Select(setup, s, id, character, skin, chooseRandom, chance, now).0, rounds, later)
  {
    hide Inv, OpenReady, AfterPick, RoundsOf, GoesOnAs;
    Unchanged(setup, s, rounds);
    later := rounds;
    if MayPick(s, id) {
      PoolFilled(setup, s, id);
      if chooseRandom {
        var player := Drawn(setup, s.players[id], id, chance)
          .(coins := s.players[id].coins + setup.rules.randomCharacterBonus, randomPick := true);
        later := PickRounds(setup, s, id, player, chance, now, rounds);
      } else if character.Some? && character.value in s.players[id].pool {
        later := PickRounds(setup, s, id, Picked(setup, s.players[id], character.value, skin), chance, now, rounds);
      }
    }
  }

  lemma SelectAbsentRounds(setup: Setup, s: Run, id: string, chance: Chance, now: int, rounds: seq<seq<Pairing>>)
    returns (later: seq<seq<Pairing>>)
    requires Inv(setup, s) && Fair(chance) && 0 <= now && RoundsOf(setup.rules, s, rounds)
    ensures GoesOnAs(setup, SelectAbsent(setup, s, id, chance, now).0, rounds, later)
  {
    hide Inv, OpenReady, AfterPick, RoundsOf, GoesOnAs;
    Unchanged(setup, s, rounds);
    later := rounds;
    if MayPick(s, id) {
      PoolFilled(setup, s, id);
      later := PickRounds(setup, s, id, Drawn(setup, s.players[id], id, chance), chance, now, rounds);
    }
  }

  lemma SameBots(s: Run, m: Run, bots: BotMatches, rounds: seq<seq<Pairing>>)
    requires m.round == s.round && m.pairings == s.pairings
    requires forall i | 0 <= i < |m.pairings| && !m.pairings[i].hasPlayer :: BotRuling(m, bots, i, rounds)
    ensures forall i | 0 <= i < |s.pairings| && !s.pairings[i].hasPlayer :: BotRuling(s, bots, i, rounds)
  {
    forall i | 0 <= i < |s.pairings| && !s.pairings[i].hasPlayer ensures BotRuling(s, bots, i, rounds) {
      assert BotRuling(m, bots, i, rounds);
    }
  }

  lemma CloseRounds(setup: Setup, s: Run, id: string, round: int, player: Player, bots: BotMatches, chance: Chance,
    now: int, rounds: seq<seq<Pairing>>) returns (later: seq<seq<Pairing>>)
    requires Inv(setup, s) && MayClose(s, id, round) && Fair(chance) && 0 <= now && RoundsOf(setup.rules, s, rounds)
    requires player == s.players[id].(coins := player.coins, inventory := player.inventory, shopDone := true)
    requires 0 <= player.coins && Stocked(setup, player.inventory)
    ensures var m := Updated(s, id, player);
      && ShopOpen(setup, m) && GoesOnAs(setup, AfterShop(setup, m, bots, chance, now).0, rounds, later)
      && BotsClosed(s, AfterShop(setup, m, bots, chance, now).0, bots, later)
  {
    hide Inv, ShopOpen, ShopReady, Fair, RoundsOf, GoesOnAs, EndShop;
    CloseKeeps(setup, s, id, round, player);
    Updating(setup, s, id, player, rounds);
    var m := Updated(s, id, player);
    AllShopsReady(setup, m);
    if AllShopsDone(m) {
      later := EndShopRounds(setup, m, bots, chance, now, rounds);
      SameBots(s, m, bots, later);
    } else {
      later := rounds;
      StillShop(setup, m);
    }
  }

  lemma StillShop(setup: Setup, s: Run)
    requires ShopOpen(setup, s)
    ensures s.phase == Shop
  {
  }

  lemma ShopClosedRounds(setup: Setup, s: Run, id: string, round: int, rerolls: int, ts: seq<Transaction>,
                         bots: BotMatches, chance: Chance, now: int, rounds: seq<seq<Pairing>>)
    returns (later: seq<seq<Pairing>>)
    requires Inv(setup, s) && Fair(chance) && 0 <= now && RoundsOf(setup.rules, s, rounds)
    ensures var r := ShopClosed(setup, s, id, round, rerolls, ts, bots, chance, now);
      GoesOnAs(setup, r.0, rounds, later) && (r.1.accepted ==> BotsClosed(s, r.0, bots, later))
  {
    hide Inv, ShopOpen, Stocked, Ready, AfterShop, RoundsOf, GoesOnAs, BotsClosed;
    Unchanged(setup, s, rounds);
    later := rounds;
    if MayClose(s, id, round) {
      Shopper(setup, s, id);
      SettledOnly(setup, s.players[id], rerolls, ts);
      later := CloseRounds(setup, s, id, round, Settled(setup, s.players[id], rerolls, ts), bots, chance, now, rounds);
    }
  }

  lemma ShopAbsentRounds(setup: Setup, s: Run, id: string, round: int, bots: BotMatches, chance: Chance, now: int,
                         rounds: seq<seq<Pairing>>) returns (later: seq<seq<Pairing>>)
    requires Inv(setup, s) && Fair(chance) && 0 <= now && RoundsOf(setup.rules, s, rounds)
    ensures var r := ShopAbsent(setup, s, id, round, bots, chance, now);
      GoesOnAs(setup, r.0, rounds, later) && (r.1.accepted ==> BotsClosed(s, r.0, bots, later))
  {
    hide Inv, ShopOpen, Stocked, Ready, AfterShop, RoundsOf, GoesOnAs, BotsClosed;
    Unchanged(setup, s, rounds);
    later := rounds;
    if MayClose(s, id, round) {
      Shopper(setup, s, id);
      later := CloseRounds(setup, s, id, round, s.players[id].(shopDone := true), bots, chance, now, rounds);
    }
  }

  lemma MatchResultRounds(setup: Setup, s: Run, id: MatchId, side: Option<int>, connected: set<string>, chance: Chance,
    now: int, rounds: seq<seq<Pairing>>) returns (later: seq<seq<Pairing>>)
    requires Inv(setup, s) && Fair(chance) && 0 <= now && RoundsOf(setup.rules, s, rounds)
    ensures var r := MatchResult(setup, s, id, side, connected, chance, now);
      && GoesOnAs(setup, r.0, rounds, later)
      && (r.1.accepted ==> forall i | 0 <= i < |s.pairings| && s.pairings[i].matchId == Some(id) ::
                             Ruling(s, side, connected, i, later))
  {
    hide Inv, RoundReady, Settle, EndRound, RoundsOf, Extends, Spares, WinnerBy, Fair, WonBy, MatchAfter, SeenIn,
      Ruling,
      Advances;
    Unchanged(setup, s, rounds);
    later := rounds;
    if MayEnd(s, id, side) {
      InvParts(setup, s);
      ResultKeeps(setup, s, id, side, connected);
      var i := FindMatch(s.pairings, id, 0);
      var m := Settle(setup.rules, s, i, side, connected);
      CoreOf(setup, s);
      var more := SettledRounds(setup.rules, s, i, side, connected, rounds);
      if m.phase == Match && AllDecided(m) {
        later := EndRoundRounds(setup, m, chance, now, more);
        Onwards(setup, EndRound(setup, m, chance, now).0, rounds, more, later);
      } else {
        later := more;
        RoundsThere(setup.rules, m, more);
        ExtendsSelf(more);
      }
      SeenThen(setup.rules, m, more, later);
      ResultRuled(setup, s, id, side, connected, m, later);
    }
  }

  lemma ResultRuled(setup: Setup, s: Run, id: MatchId, side: Option<int>, connected: set<string>, m: Run,
                    rounds: seq<seq<Pairing>>)
    requires Inv(setup, s) && MayEnd(s, id, side) && Playable(setup.rules) && Seated(s) && SeenIn(m, rounds)
    requires m == Settle(setup.rules, s, FindMatch(s.pairings, id, 0), side, connected)
    ensures forall i | 0 <= i < |s.pairings| && s.pairings[i].matchId == Some(id) ::
      Ruling(s, side, connected, i, rounds)
  {
    hide Inv, Settle, WinnerBy, WonBy, TeamAfter, AllGone, SeenIn, Ruling;
    var i := FindMatch(s.pairings, id, 0);
    CoreOf(setup, s);
    SettleLeaves(setup.rules, s, i, side, connected);
    RulingSeen(s, m, side, connected, i, rounds);
    forall j | 0 <= j < |s.pairings| && s.pairings[j].matchId == Some(id) ensures j == i {
      PairingIs(setup.rules, s, i);
      PairingIs(setup.rules, s, j);
    }
  }

  lemma CheckinRounds(setup: Setup, s: Run, id: string, round: int, chance: Chance, now: int, rounds: seq<seq<Pairing>>)
    returns (later: seq<seq<Pairing>>)
    requires Inv(setup, s) && Fair(chance) && 0 <= now && RoundsOf(setup.rules, s, rounds)
    ensures GoesOnAs(setup, Checkin(setup, s, id, round, chance, now).0, rounds, later)
  {
    hide Inv, StartReady, StartRound, RoundsOf, GoesOnAs, Fair;
    Unchanged(setup, s, rounds);
    later := rounds;
    if MayCheckIn(s, id, round) {
      CheckinKeeps(setup, s, id, round);
      Updating(setup, s, id, s.players[id].(checkedInRound := round), rounds);
      var m := Updated(s, id, s.players[id].(checkedInRound := round));
      if m.phase == Results && AllCheckedIn(m) { later := StartRoundRounds(setup, m, chance, now, rounds); }
    }
  }

  lemma TickRounds(setup: Setup, s: Run, bots: BotMatches, chance: Chance, now: int, connected: set<string>,
                   rounds: seq<seq<Pairing>>) returns (later: seq<seq<Pairing>>)
    requires Inv(setup, s) && Fair(chance) && 0 <= now && RoundsOf(setup.rules, s, rounds)
    ensures var r := Tick(setup, s, bots, chance, now, connected);
      && GoesOnAs(setup, r.0, rounds, later)
      && (r.1.accepted && s.phase == Shop ==> BotsClosed(s, r.0, bots, later))
      && (r.1.accepted && s.phase == Match ==>
            forall i | 0 <= i < |s.pairings| && s.pairings[i].winner.None? :: Ruling(s, None, connected, i, later))
  {
    hide Inv, OpenReady, ShopReady, RoundReady, StartReady, AbsentPicked, ShopsClosed, SettleOpen, Advances, RoundsOf,
      Extends, EndCharacterSelect, EndShop, EndRound, StartRound, Core, Ready, SameGame, Fair, Ruling, BotRuling,
        SeenIn;
    Unchanged(setup, s, rounds);
    later := rounds;
    if s.deadlineMs == 0 || now < s.deadlineMs { return; }
    InvParts(setup, s);
    match s.phase
    case CharacterSelect =>
      AbsentPickedKeeps(setup, s, chance);
      SameGameRounds(setup.rules, s, AbsentPicked(setup, s, chance), rounds);
      later := SelectedRounds(setup, AbsentPicked(setup, s, chance), chance, now, rounds);
    case Shop =>
      ShopsClosedKeeps(setup, s);
      SameGameRounds(setup.rules, s, ShopsClosed(s), rounds);
      later := EndShopRounds(setup, ShopsClosed(s), bots, chance, now, rounds);
      SameBots(s, ShopsClosed(s), bots, later) by { ClosedSame(s); }
    case Match =>
      UnreportedKeeps(setup, s, connected);
      var more := OpenRounds(setup.rules, s, connected, |s.pairings|, rounds);
      var m := SettleOpen(setup.rules, s, connected, |s.pairings|);
      later := EndRoundRounds(setup, m, chance, now, more);
      Onwards(setup, EndRound(setup, m, chance, now).0, rounds, more, later);
      SeenThen(setup.rules, m, more, later);
      DeadlineRuled(setup.rules, s, connected, m, later);
    case Results =>
      ResultsReady(setup, s);
      later := StartRoundRounds(setup, s, chance, now, rounds);
    case Ended =>
  }

  lemma ClosedSame(s: Run)
    ensures ShopsClosed(s).pairings == s.pairings && ShopsClosed(s).round == s.round
  {
  }

  lemma DeadlineRuled(rules: Rules, s: Run, connected: set<string>, m: Run, rounds: seq<seq<Pairing>>)
    requires Core(rules, s) && Seated(s) && SeenIn(m, rounds)
    requires Playable(rules) && m == SettleOpen(rules, s, connected, |s.pairings|)
    ensures forall i | 0 <= i < |s.pairings| && s.pairings[i].winner.None? :: Ruling(s, None, connected, i, rounds)
  {
    hide Core, SettleOpen, WonBy, TeamAfter, AllGone, SeenIn, Ruling;
    OpenLeaves(rules, s, connected, |s.pairings|);
    forall i | 0 <= i < |s.pairings| && s.pairings[i].winner.None? ensures Ruling(s, None, connected, i, rounds) {
      assert EndedAs(rules, s, m, i, connected);
      RulingSeen(s, m, None, connected, i, rounds);
    }
  }

  lemma ApplyRounds(setup: Setup, s: Run, move: Move, rounds: seq<seq<Pairing>>) returns (later: seq<seq<Pairing>>)
    requires Inv(setup, s) && Playing(move) && RoundsOf(setup.rules, s, rounds)
    ensures var r := Apply(setup, s, move);
      GoesOnAs(setup, r.0, rounds, later) && (r.1.accepted ==> RuledIn(s, move, r.0, later))
  {
    hide Inv, Fair, RoundsOf, GoesOnAs, RerollCharacters, Select, SelectAbsent, ShopClosed, ShopAbsent, MatchResult,
      Checkin, Tick, Ruling, BotsClosed;
    match move.call
    case RerollCall(id) =>
      RerollRounds(setup, s, id, move.chance, rounds);
      later := rounds;
    case SelectCall(id, character, skin, random) =>
      later := SelectRounds(setup, s, id, character, skin, random, move.chance, move.now, rounds);
    case SelectAbsentCall(id) => later := SelectAbsentRounds(setup, s, id, move.chance, move.now, rounds);
    case ShopClosedCall(id, round, rerolls, ts) =>
      later := ShopClosedRounds(setup, s, id, round, rerolls, ts, move.bots, move.chance, move.now, rounds);
    case ShopAbsentCall(id, round) =>
      later := ShopAbsentRounds(setup, s, id, round, move.bots, move.chance, move.now, rounds);
    case MatchResultCall(id, side, connected) =>
      later := MatchResultRounds(setup, s, id, side, connected, move.chance, move.now, rounds);
    case CheckinCall(id, round) => later := CheckinRounds(setup, s, id, round, move.chance, move.now, rounds);
    case TickCall(connected) =>
      later := TickRounds(setup, s, move.bots, move.chance, move.now, connected, rounds);
  }

  // ---- Any calls, from the start ----

  /** The k-th of these calls, if it was taken, decided what it rules. */
  ghost predicate RuledAt(setup: Setup, s: Run, moves: seq<Move>, k: nat, rounds: seq<seq<Pairing>>)
    requires Inv(setup, s) && AllPlayable(moves) && k < |moves|
  {
    && AllPlayable(moves[..k]) && moves[k] in moves
    && var m := Play(setup, s, moves[..k]).0;
       var r := Apply(setup, m, moves[k]);
       r.1.accepted ==> RuledIn(m, moves[k], r.0, rounds)
  }

  lemma {:induction false} PlayRounds(setup: Setup, s: Run, moves: seq<Move>, rounds: seq<seq<Pairing>>)
    returns (later: seq<seq<Pairing>>)
    requires Inv(setup, s) && AllPlayable(moves) && RoundsOf(setup.rules, s, rounds)
    ensures RoundsOf(setup.rules, Play(setup, s, moves).0, later)
    ensures forall k | 0 <= k <= |moves| :: AllPlayable(moves[..k]) && SeenIn(Play(setup, s, moves[..k]).0, later)
    ensures forall k | 0 <= k < |moves| :: RuledAt(setup, s, moves, k, later)
  {
    hide Inv, Apply, Playing, RoundsOf, Extends, SeenIn, RuledIn;
    if moves == [] {
      later := rounds;
      SeenNow(setup.rules, s, rounds);
      assert moves[..0] == moves;
    } else {
      var init, last := moves[..|moves| - 1], moves[|moves| - 1];
      var more := PlayRounds(setup, s, init, rounds);
      assert last in moves;
      later := ApplyRounds(setup, Play(setup, s, init).0, last, more);
      SeenNow(setup.rules, Play(setup, s, moves).0, later);
      forall k | 0 <= k <= |moves| ensures AllPlayable(moves[..k]) && SeenIn(Play(setup, s, moves[..k]).0, later) {
        if k <= |init| {
          assert moves[..k] == init[..k];
          SeenLater(Play(setup, s, init[..k]).0, more, later);
        } else {
          assert moves[..k] == moves;
        }
      }
      forall k | 0 <= k < |moves| ensures RuledAt(setup, s, moves, k, later) {
        if k < |init| {
          RuledStill(setup, s, init, last, k, more, later);
          assert moves == init + [last];
        } else {
          assert moves[..k] == init && moves[..k + 1] == moves;
        }
      }
    }
  }

  lemma RuledStill(setup: Setup, s: Run, init: seq<Move>, last: Move, k: nat, rounds: seq<seq<Pairing>>,
                   later: seq<seq<Pairing>>)
    requires Inv(setup, s) && AllPlayable(init) && AllPlayable(init + [last]) && k < |init|
    requires RuledAt(setup, s, init, k, rounds) && Extends(rounds, later)
    ensures RuledAt(setup, s, init + [last], k, later)
  {
    hide Inv, Apply, Playing, Play, Extends, RuledIn;
    var moves := init + [last];
    assert moves[..k] == init[..k] && moves[k] == init[k];
    var m := Play(setup, s, init[..k]).0;
    assert init[k] in init;
    var r := Apply(setup, m, init[k]);
    if r.1.accepted { RuledLater(m, init[k], r.0, rounds, later); }
  }

  /** At the start there is one round, with no result yet. */
  lemma FirstRound(setup: Setup, s: Run)
    requires Inv(setup, s) && s.phase == CharacterSelect
    ensures RoundsOf(setup.rules, s, [s.pairings])
  {
    hide Rostered, Histories, Ranked, Counted, Ready, PlayersOk, WinnersPlay, Faced, Decided, WonIn, Explains,
      HasPlayer;
    var rounds := [s.pairings];
    CoreWinners(setup.rules, s);
    forall t | 0 <= t < |s.teams| ensures TeamRounds(setup.rules, s, rounds, t) {
      assert |s.teams[t].opponents| == 1;
      NowFaced(s, t);
      NoneYet(s.pairings, t);
      AddRound([], s.pairings, t);
      assert [] + [s.pairings] == rounds;
      NoResults(setup, s, t);
      assert ResultsOf(rounds, t) == [];
    }
  }

  lemma NoResults(setup: Setup, s: Run, t: int)
    requires Inv(setup, s) && s.phase == CharacterSelect && 0 <= t < |s.teams|
    ensures Explains(setup.rules, HasPlayer(s, t), s.teams[t], [])
  {
    hide Rostered, Histories, Ranked, Counted, Ready, PlayersOk, HasPlayer, Explains;
    assert Recorded(setup.rules, s, t);
    var i :| 0 <= i < |s.pairings| && s.pairings[i].Plays(t);
    assert PlayedOk(s, s.pairings[i], t) && s.pairings[i] in s.pairings;
    var results :| Explains(setup.rules, HasPlayer(s, t), s.teams[t], results);
    Lengths(setup.rules, HasPlayer(s, t), s.teams[t], results);
    assert results == [];
  }

  // ---- What a record says of each round ----

  /** A team's pairing of a round is decided, and the result is whether it names the team the winner. */
  ghost predicate ResultIn(pairings: seq<Pairing>, t: int, i: int, opponent: int, won: bool) {
    Faces(pairings, t, i, opponent) && pairings[i].winner.Some? && (won <==> pairings[i].winner == Some(t))
  }

  ghost predicate HasResult(pairings: seq<Pairing>, t: int, opponent: int, won: bool) {
    exists i :: ResultIn(pairings, t, i, opponent, won)
  }

  /**
   * A team's record is that of a list of results: for each round decided for it, whether it won its pairing of that
   * round.
   */
  ghost predicate RecordReads(rules: Rules, s: Run, rounds: seq<seq<Pairing>>, t: int)
    requires Playable(rules) && 0 <= t < |s.teams|
  {
    var results := ResultsOf(rounds, t);
    && Explains(rules, HasPlayer(s, t), s.teams[t], results)
    && |results| == |s.teams[t].opponents| - (if Pending(s, t) then 1 else 0) <= |rounds|
    && forall r | 0 <= r < |results| :: HasResult(rounds[r], t, s.teams[t].opponents[r], results[r])
  }

  lemma {:induction false} ResultsInOrder(rounds: seq<seq<Pairing>>, t: int, n: nat)
    requires n <= |rounds| && forall k | 0 <= k < n :: Decided(rounds[k], t)
    ensures n <= |ResultsOf(rounds, t)| && forall k | 0 <= k < n :: ResultsOf(rounds, t)[k] == WonIn(rounds[k], t)
    decreases |rounds|
  {
    hide Decided, WonIn;
    if rounds != [] {
      var init := rounds[..|rounds| - 1];
      ResultsInOrder(init, t, if n < |rounds| then n else n - 1);
      ResultsFew(init, t);
    }
  }

  lemma {:induction false} ResultsFew(rounds: seq<seq<Pairing>>, t: int)
    ensures |ResultsOf(rounds, t)| <= |rounds|
    decreases |rounds|
  {
    if rounds != [] { ResultsFew(rounds[..|rounds| - 1], t); }
  }

  /** A decided round says of a team what its pairing there says. */
  lemma RoundReads(pairings: seq<Pairing>, t: int, opponent: int)
    requires Faced(pairings, t, opponent) && WinnersPlay(pairings) && 0 <= t && Decided(pairings, t)
    ensures HasResult(pairings, t, opponent, WonIn(pairings, t))
  {
    var i :| Faces(pairings, t, i, opponent);
    var p :| p in pairings && p.Plays(t) && p.winner.Some?;
    var j :| 0 <= j < |pairings| && pairings[j] == p;
    assert j == i && pairings[i] in pairings;
    if WonIn(pairings, t) {
      var q :| q in pairings && q.winner == Some(t);
      var k :| 0 <= k < |pairings| && pairings[k] == q;
      assert q.Plays(t) && k == i;
    }
    assert ResultIn(pairings, t, i, opponent, WonIn(pairings, t));
  }

  lemma AllDecidedIn(pairings: seq<Pairing>, t: int, opponent: int)
    requires Faced(pairings, t, opponent) && forall p | p in pairings :: p.winner.Some?
    ensures Decided(pairings, t)
  {
    var i :| Faces(pairings, t, i, opponent);
    assert pairings[i] in pairings && pairings[i].Plays(t);
  }

  /** This round is decided for a team of it that does not wait for its match. */
  lemma DecidedNow(s: Run, t: int)
    requires 0 <= t < |s.teams| && |s.teams[t].opponents| == s.round && Matched(s) && !Pending(s, t)
    ensures Decided(s.pairings, t)
  {
    var i :| 0 <= i < |s.pairings| && s.pairings[i].Plays(t);
    assert s.pairings[i] in s.pairings;
  }

  lemma RecordIsRead(setup: Setup, s: Run, rounds: seq<seq<Pairing>>, t: int)
    requires Inv(setup, s) && RoundsOf(setup.rules, s, rounds) && 0 <= t < |s.teams|
    ensures RecordReads(setup.rules, s, rounds, t)
  {
    hide Inv, Explains, HasPlayer, Faced, WinnersPlay, Decided, WonIn, ResultsOf, HasResult, Pending, Recorded;
    assert TeamRounds(setup.rules, s, rounds, t);
    RecordAddsUp(setup, s, t);
    var results := ResultsOf(rounds, t);
    Lengths(setup.rules, HasPlayer(s, t), s.teams[t], results);
    forall r | 0 <= r < |results| ensures Decided(rounds[r], t) {
      if r < s.round - 1 { AllDecidedIn(rounds[r], t, s.teams[t].opponents[r]); }
      else { DecidedNow(s, t) by { MatchedNow(setup, s); } }
    }
    ResultsInOrder(rounds, t, |results|);
    forall r | 0 <= r < |results| ensures HasResult(rounds[r], t, s.teams[t].opponents[r], results[r]) {
      RoundReads(rounds[r], t, s.teams[t].opponents[r]);
    }
  }

  lemma MatchedNow(setup: Setup, s: Run)
    requires Inv(setup, s)
    ensures Matched(s)
  {
  }

  /** One list of rounds that tells all of a run's moments, and every team's record at the last of them. */
  ghost predicate Tells(o: Opening, moves: seq<Move>, rounds: seq<seq<Pairing>>)
    requires Opens(o) && AllPlayable(moves)
  {
    var s := Story(o, moves).0;
    && RoundsOf(o.setup.rules, s, rounds)
    && (forall k | 0 <= k <= |moves| :: AllPlayable(moves[..k]) && SeenIn(Story(o, moves[..k]).0, rounds))
    && (forall k | 0 <= k < |moves| :: RuledAt(o.setup, Story(o, []).0, moves, k, rounds))
    && (forall t | 0 <= t < |s.teams| :: RecordReads(o.setup.rules, s, rounds, t))
  }

  /** A run's start, and what its calls make of it. */
  lemma StoryFrom(o: Opening) returns (s: Run)
    requires Opens(o)
    ensures Inv(o.setup, s) && s.phase == CharacterSelect
    ensures forall moves | AllPlayable(moves) :: Story(o, moves).0 == Play(o.setup, s, moves).0
    ensures Story(o, []).0 == s
  {
    hide Ready, Fair, Cast, Inv, Begun, Play, AllPlayable;
    BegunKeeps(o);
    s := Begun(o.setup, o.teams, o.chance, o.now).0;
    NothingPlayed(o.setup, s);
  }

  lemma NothingPlayed(setup: Setup, s: Run)
    requires Inv(setup, s)
    ensures Play(setup, s, []).0 == s
  {
  }

  /**
   * Whatever is called, from the start: the run went through rounds, each with one set of pairings, those seen at any
   * moment with the results they had then; what a call decided went as its reports and connections rule; and every
   * team's wins, losses, streaks and health are those of the list that is true at a round exactly when the team won its
   * pairing of that round.
   */
  lemma RecordsTold(o: Opening, moves: seq<Move>)
    requires Opens(o) && AllPlayable(moves)
    ensures exists rounds :: Tells(o, moves, rounds)
  {
    hide Opens, Inv, Story, Play, RoundsOf, SeenIn, RecordReads, RuledAt;
    var s := StoryFrom(o);
    FirstRound(o.setup, s);
    var rounds := PlayRounds(o.setup, s, moves, [s.pairings]);
    RoundsThere(o.setup.rules, Story(o, moves).0, rounds);
    forall t | 0 <= t < |Story(o, moves).0.teams| ensures RecordReads(o.setup.rules, Story(o, moves).0, rounds, t) {
      RecordIsRead(o.setup, Story(o, moves).0, rounds, t);
    }
    assert Tells(o, moves, rounds);
  }
}
