/**
 * The run as the program keeps it (ArenaRun.cs, lines 197-676): one object, its fields assigned in place by loops and
 * by the four methods that call each other. Each method leaves what the function of the same name says, whose
 * properties are proved.
 */
module ArenaRunObject {
  import opened Options
  import opened ArenaRules
  import opened ArenaItems
  import opened ArenaTypes
  import opened ArenaInvariant
  import opened ArenaRounds
  import opened ArenaPairing
  import opened ArenaWholeRun
  import Shop = ArenaShop
  import S = ArenaSteps
  import T = ArenaTransitions
  import P = ArenaProgress
  import C = ArenaCalls

  class ArenaRun {
    const setup: Setup
    var round: int
    var phase: Phase
    var deadlineMs: int
    var teams: seq<Team>
    var players: map<string, Player>
    var pairings: seq<Pairing>

    /** The run's value, field by field. */
    function Snapshot(): Run
      reads this
    {
      Run(round, phase, deadlineMs, teams, players, pairings)
    }

    ghost predicate Valid()
      reads this
    {
      T.Inv(setup, Snapshot())
    }

    // ---- A match's end ----

    method Lose(t: int)
      requires Playable(setup.rules) && S.Side(Snapshot(), t)
      modifies `teams
      ensures Snapshot() == S.Lose(setup.rules, old(Snapshot()), t)
    {
      if t == MIRROR { return; }
      var lost := teams[t];
      lost := lost.(losses := lost.losses + 1);
      lost := lost.(loseStreak := lost.loseStreak + 1);
      lost := lost.(winStreak := 0);
      lost := lost.(life := lost.life - LifeLost(setup.rules, round));
      teams := teams[t := lost];
    }

    method Decide(i: nat, winner: int)
      requires Playable(setup.rules) && S.Seated(Snapshot()) && i < |pairings| && S.Side(Snapshot(), winner)
      modifies `teams, `pairings
      ensures Snapshot() == S.Decide(setup.rules, old(Snapshot()), i, winner)
    {
      assert pairings[i] in pairings;
      pairings := pairings[i := pairings[i].(winner := Some(winner))];
      if winner != MIRROR {
        var won := teams[winner];
        won := won.(wins := won.wins + 1);
        won := won.(winStreak := won.winStreak + 1);
        won := won.(loseStreak := 0);
        teams := teams[winner := won];
      }
      Lose(if winner == pairings[i].a then pairings[i].b else pairings[i].a);
    }

    /**
     * The reports decide, else the players' side against bots, else both lose; then teams whose players are all gone
     * are out.
     */
    method Settle(i: nat, side: Option<int>, connected: set<string>)
      requires Playable(setup.rules) && S.Seated(Snapshot()) && i < |pairings|
      modifies `teams, `pairings
      ensures Snapshot() == S.Settle(setup.rules, old(Snapshot()), i, side, connected)
    {
      hide S.Decide, S.Lose, HasPlayer;
      ghost var s := Snapshot();
      var a, b := pairings[i].a, pairings[i].b;
      assert pairings[i] in pairings;
      if side.Some? {
        Decide(i, if side.value == 0 then a else b);
      } else if !HasPlayer(Snapshot(), b) {
        Decide(i, if Gone(Snapshot(), a, connected) then b else a);
      } else {
        pairings := pairings[i := pairings[i].(winner := Some(BOTH_LOST))];
        LoseSides(setup.rules, Snapshot(), a, b);
        Lose(a);
        Lose(b);
      }
      ghost var ruled := Snapshot();
      assert ruled == S.Ruled(setup.rules, s, i, side, connected);
      for k := 0 to 2
        invariant Snapshot() == (if k == 0 then ruled else if k == 1 then S.Emptied(ruled, a, connected)
                                 else S.Emptied(S.Emptied(ruled, a, connected), b, connected))
      {
        var team := [a, b][k];
        if Gone(Snapshot(), team, connected) {
          GoneInRange(Snapshot(), team, connected);
          teams := teams[team := teams[team].(life := 0)];
        }
      }
    }

    // ---- The four that call each other ----

    method OpenShop(chance: Chance, now: int) returns (effects: seq<Effect>)
      requires T.OpenReady(setup, Snapshot()) && Fair(chance) && 0 <= now
      modifies this
      ensures Valid() && (Snapshot(), effects) == T.OpenShop(setup, old(Snapshot()), chance, now)
      decreases T.RoundsLeft(setup, Snapshot()), 3
    {
      hide T.OpenReady, T.ShopReady, T.Inv, Ready, T.EndShop;
      T.OpenShopSteps(setup, Snapshot(), chance, now);
      ghost var s := Snapshot();
      phase := Phase.Shop;
      if PlayersIn(Snapshot()) == {} {
        deadlineMs := 0;
        effects := EndShop(chance.coin, chance, now);
        return;
      }
      ghost var s1 := Snapshot();
      OpenShops(chance);
      deadlineMs := now + (setup.rules.shopSeconds + setup.rules.graceSeconds) * 1000;
      effects := [SendPhaseConfigs];
    }

    /** Every player still in gets this round's shop. */
    method OpenShops(chance: Chance)
      requires Fair(chance)
      modifies `players
      ensures Snapshot() == S.ShopsOpened(setup, old(Snapshot()), chance)
    {
      hide PagesOf, FairDice, PlayersIn, Halfway, S.ShopsOpened;
      ghost var s := Snapshot();
      ghost var goal := S.ShopsOpened(setup, s, chance);
      var todo := PlayersIn(Snapshot());
      OpenedHalfway(setup, s, chance);
      while todo != {}
        invariant Halfway(s, goal, players, todo)
        decreases todo
      {
        var id :| id in todo;
        HalfwayIs(s, goal, players, todo, id);
        OpenedIs(setup, s, chance, id);
        ghost var before := players;
        players := players[id := players[id].(shopDone := false)];
        var pages := Pages(setup.items, round, setup.rules.shopPages, setup.rules.offersPerPage, chance.dice(id));
        players := players[id := players[id].(shopPages := pages)];
        assert players == before[id := goal.players[id]];
        todo := todo - {id};
      }
      HalfwayDone(s, goal, players);
    }

    method EndShop(bots: BotMatches, chance: Chance, now: int) returns (effects: seq<Effect>)
      requires T.ShopReady(setup, Snapshot()) && Fair(chance) && 0 <= now
      modifies this
      ensures Valid() && (Snapshot(), effects) == T.EndShop(setup, old(Snapshot()), bots, chance, now)
      decreases T.RoundsLeft(setup, Snapshot()), 2
    {
      hide T.ShopReady, T.RoundReady, T.Inv, Ready, T.EndRound, S.Decide, S.DecideBots, S.Seated, T.Advances, Fair,
        AllDecided;
      T.EndShopSteps(setup, Snapshot(), bots, now);
      phase := Match;
      deadlineMs := now + setup.rules.matchDeadlineSeconds * 1000;
      DecideBotMatches(bots);
      if AllDecided(Snapshot()) {
        effects := EndRound(chance, now);
      } else {
        effects := [SendPhaseConfigs];
      }
    }

    /** The bots' pairings decided now. */
    method DecideBotMatches(bots: BotMatches)
      requires Playable(setup.rules) && S.Seated(Snapshot())
      modifies `teams, `pairings
      ensures Snapshot() == S.DecideBots(setup.rules, old(Snapshot()), bots, |old(pairings)|)
    {
      hide S.Decide, S.DecideBots, S.SameBoard, S.Seated;
      ghost var s := Snapshot();
      DecideNone(setup.rules, s, bots);
      for i := 0 to |pairings|
        invariant |pairings| == |s.pairings| && Snapshot() == S.DecideBots(setup.rules, s, bots, i)
      {
        DecideOneMore(setup.rules, s, bots, i);
        if !pairings[i].hasPlayer {
          Decide(i, if bots(round, i) then pairings[i].a else pairings[i].b);
        }
      }
    }

    method EndRound(chance: Chance, now: int) returns (effects: seq<Effect>)
      requires T.RoundReady(setup, Snapshot()) && Fair(chance) && 0 <= now
      modifies this
      ensures Valid() && (Snapshot(), effects) == T.EndRound(setup, old(Snapshot()), chance, now)
      decreases T.RoundsLeft(setup, Snapshot()), 1
    {
      hide T.RoundReady, T.StartReady, T.Inv, Ready, S.Paid, WentOut, Crowned, S.OutNow, InTeams, AllCheckedIn, Fair,
        PlayersIn, T.StartRound;
      T.EndRoundSteps(setup, Snapshot(), now);
      var out := S.OutNow(teams);
      P.OwnTeams(setup, Snapshot());
      RankOuts(out);
      var still := InTeams(teams, |teams|);
      if |still| <= 1 {
        var ended := out;
        CrownLast(still);
        if |still| == 1 {
          ended := [still[0]] + ended;
        }
        assert ended == still + out;
        phase := Ended;
        deadlineMs := 0;
        effects := [TeamsEnded(ended), ArenaFinished];
        return;
      }
      PayPlayers();
      phase := Results;
      deadlineMs := now + setup.rules.checkinSeconds * 1000;
      effects := if |out| > 0 then [TeamsEnded(out)] else [];
      if AllCheckedIn(Snapshot()) {
        var more := StartRound(chance, now);
        effects := effects + more;
      }
    }

    /** The teams going out take the ranks below those left, one after another. */
    method RankOuts(out: seq<int>)
      requires out == S.OutNow(teams)
      modifies `teams
      ensures Snapshot() == WentOut(old(Snapshot()))
    {
      hide S.OutNow, RankedUpTo, WentOut, InTeams;
      ghost var s := Snapshot();
      RanksFit(s);
      var left := |InTeams(teams, |teams|)| - |out|;
      RankedNone(s, out, left);
      for i := 0 to |out|
        invariant RankedUpTo(s, out, i, left, teams)
      {
        RankOneMore(s, out, i, left, teams);
        teams := teams[out[i] := teams[out[i]].(finalRank := left + 1 + i)];
      }
      RankedAll(s, out, left, teams);
    }

    method CrownLast(still: seq<int>)
      requires still == InTeams(teams, |teams|)
      modifies `teams
      ensures Snapshot() == Crowned(old(Snapshot()))
    {
      if |still| == 1 {
        assert still[0] in still;
        teams := teams[still[0] := teams[still[0]].(finalRank := 1)];
      }
    }

    method PayPlayers()
      requires forall id | id in players :: players[id].team < |teams|
      modifies `players
      ensures Snapshot() == S.Paid(setup.rules, old(Snapshot()))
    {
      hide At, Interest, PlayersIn, Halfway, S.Paid;
      ghost var s := Snapshot();
      ghost var goal := S.Paid(setup.rules, s);
      var todo := PlayersIn(Snapshot());
      PaidHalfway(setup.rules, s);
      while todo != {}
        invariant Halfway(s, goal, players, todo)
        decreases todo
      {
        var id :| id in todo;
        HalfwayIs(s, goal, players, todo, id);
        PaidIs(setup.rules, s, id);
        var team := teams[players[id].team];
        var won := exists p | p in pairings :: p.winner == Some(players[id].team);
        var coins := players[id].coins
          + (Interest(setup.rules, players[id].coins) + At(setup.rules.currencyPerRound, round - 1)
             + (if won then setup.rules.currencyForWin else 0)
             + At(setup.rules.currencyForWinStreak, team.winStreak)
               + At(setup.rules.currencyForLoseStreak, team.loseStreak));
        players := players[id := players[id].(coins := coins)];
        todo := todo - {id};
      }
      HalfwayDone(s, goal, players);
    }

    method StartRound(chance: Chance, now: int) returns (effects: seq<Effect>)
      requires T.StartReady(setup, Snapshot()) && Fair(chance) && 0 <= now
      modifies this
      ensures Valid() && (Snapshot(), effects) == T.StartRound(setup, old(Snapshot()), chance, now)
      decreases T.RoundsLeft(setup, Snapshot()), 0
    {
      hide T.StartReady, T.OpenReady, T.Inv, Ready, S.PairRound, T.OpenShop, Fair;
      T.NextRoundOpens(setup, Snapshot(), chance);
      StartPairable(setup, Snapshot(), chance);
      round := round + 1;
      Pair(chance);
      effects := S.Launches(pairings, |pairings|);
      var more := OpenShop(chance, now);
      effects := effects + more;
    }

    /** Every team still in against another, two by two along the shuffled order; an odd one out against its mirror. */
    method Pair(chance: Chance)
      requires OrderOf(Snapshot(), chance.order(round, InTeams(teams, |teams|)))
      modifies `teams, `pairings
      ensures Snapshot() == S.PairRound(old(Snapshot()), chance)
    {
      hide HasPlayer, OrderOf, PairedUpTo, S.Paired, S.Partner, S.IndexOf, InTeams, S.NoRepeats;
      ghost var s := Snapshot();
      var order := chance.order(round, InTeams(teams, |teams|));
      OrderParts(s, order);
      pairings := [];
      PairedNone(s, order);
      var i := 0;
      while i < |order|
        invariant i == 2 * |pairings| && PairedUpTo(s, order, i, teams, pairings)
      {
        PlayerKept(s, Snapshot(), order, i, order[i]);
        PlayerKept(s, Snapshot(), order, i, if i + 1 < |order| then order[i + 1] else MIRROR);
        var a, b := order[i], if i + 1 < |order| then order[i + 1] else MIRROR;
        if !HasPlayer(Snapshot(), a) && HasPlayer(Snapshot(), b) {
          a, b := b, a;
        }
        var hasPlayer := HasPlayer(Snapshot(), a);
        var pairing := Pairing(a, b, hasPlayer, if hasPlayer then Some(MatchId(round, i / 2)) else None, None);
        PairOneMore(s, order, i, teams, pairings, pairing);
        pairings := pairings + [pairing];
        teams := teams[a := teams[a].(opponents := teams[a].opponents + [b])];
        if b != MIRROR {
          teams := teams[b := teams[b].(opponents := teams[b].opponents + [a])];
        }
        i := i + 2;
      }
      PairedAll(s, order, i, teams, pairings);
    }

    // ---- The start ----

    /** A new run: every participant enrolled team by team, round 1 paired, the character select open. */
    constructor Start(o: Opening)
      requires Opens(o)
      ensures Valid() && setup == o.setup
      ensures Snapshot() == S.Begun(o.setup, o.teams, o.chance, o.now).0
    {
      hide Ready, Fair, S.Cast, S.NewPlayer, S.EnrolTeam, T.Inv;
      setup, round, phase, deadlineMs := o.setup, 1, CharacterSelect, 0;
      teams, players, pairings := [], map[], [];
      new;
      hide S.Enrol, S.NewTeams, S.PairRound, OrderOf, InTeams;
      EnrolAll(o);
      UnstartedOrder(o);
      Pair(o.chance);
      deadlineMs := o.now + (setup.rules.characterSelectSeconds + setup.rules.graceSeconds) * 1000;
      BegunKeeps(o);
    }

    method EnrolAll(o: Opening)
      requires Ready(o.setup) && Fair(o.chance) && setup == o.setup && teams == [] && players == map[]
      modifies `teams, `players
      ensures teams == S.NewTeams(o.setup, o.teams) && players == S.Enrol(o.setup, o.teams, o.chance)
    {
      hide Ready, Fair, S.NewPlayer, S.EnrolTeam, S.Enrol, S.NewTeams;
      NobodyYet(o);
      for t := 0 to |o.teams|
        invariant teams == S.NewTeams(o.setup, o.teams[..t]) && players == S.Enrol(o.setup, o.teams[..t], o.chance)
      {
        teams := teams + [Team(S.Ids(o.teams[t]), setup.rules.startingLife, 0, 0, 0, 0, [], 0)];
        EnrolTeam(o, t);
        OneTeamMore(o, t);
      }
      assert o.teams[..|o.teams|] == o.teams;
    }

    method EnrolTeam(o: Opening, t: nat)
      requires Ready(o.setup) && Fair(o.chance) && t < |o.teams| && setup == o.setup
      modifies `players
      ensures players == old(players) + S.EnrolTeam(o.setup, o.teams[t], t, o.chance)
    {
      hide Ready, Fair, S.NewPlayer;
      var places := o.teams[t];
      for i := 0 to |places|
        invariant players == old(players) + S.EnrolTeam(o.setup, places[..i], t, o.chance)
      {
        assert places[..i + 1][..i] == places[..i];
        players := players[places[i].id := S.NewPlayer(setup, places[i], t, o.chance)];
      }
      assert places[..|places|] == places;
    }

    // ---- The character select ----

    method RerollCharacters(id: string, chance: Chance) returns (step: Step)
      requires Valid() && Fair(chance)
      modifies `players
      ensures Valid() && (Snapshot(), step) == C.RerollCharacters(setup, old(Snapshot()), id, chance)
    {
      hide T.Inv, Fair, S.Offer;
      if !C.MayPick(Snapshot(), id) || players[id].coins < setup.rules.characterRerollCost { return REFUSED; }
      C.PoolFilled(setup, Snapshot(), id);
      ghost var s := Snapshot();
      players := players[id := players[id].(coins := players[id].coins - setup.rules.characterRerollCost)];
      players := players[id := players[id].(pool := S.Offer(setup, id, chance))];
      assert players == C.RerollCharacters(setup, s, id, chance).0.players;
      step := Step(true, []);
    }

    method Pick(id: string, character: string, skin: Option<string>)
      requires id in players
      modifies `players
      ensures players == old(players)[id := S.Picked(setup, old(players[id]), character, skin)]
    {
      var skins := S.SkinsOf(setup.roster, character);
      var player := players[id];
      player := player.(character := Some(character));
      player := player.(skin := Some(if skin.Some? && skin.value != "" && skin.value in skins then skin.value
                                     else if |skins| > 0 then skins[0] else ""));
      player := player.(pool := []);
      players := players[id := player];
    }

    /** A pick of the offer, or Random; the last pick opens the shop. */
    method Select(id: string, character: Option<string>, skin: Option<string>, chooseRandom: bool, chance: Chance,
      now: int)
      returns (step: Step)
      requires Valid() && Fair(chance) && 0 <= now
      modifies this
      ensures Valid()
      ensures (Snapshot(), step) == C.Select(setup, old(Snapshot()), id, character, skin, chooseRandom, chance, now)
    {
      hide T.Inv, T.OpenReady, C.AfterPick, S.Picked;
      if !C.MayPick(Snapshot(), id) { return REFUSED; }
      ghost var s := Snapshot();
      C.PoolFilled(setup, s, id);
      if chooseRandom {
        Pick(id, players[id].pool[chance.draw(id, |players[id].pool|)], None);
        players := players[id := players[id].(coins := players[id].coins + setup.rules.randomCharacterBonus)];
        players := players[id := players[id].(randomPick := true)];
        DrawnCoins(setup, s.players[id], id, chance);
        ghost var player := S.Drawn(setup, s.players[id], id, chance)
          .(coins := s.players[id].coins + setup.rules.randomCharacterBonus, randomPick := true);
        assert players == s.players[id := player];
        PickedKeeps(setup, s, id, player);
      } else if character.Some? && character.value in players[id].pool {
        Pick(id, character.value, skin);
        PickedIs(setup, s.players[id], character.value, skin);
        PickedKeeps(setup, s, id, S.Picked(setup, s.players[id], character.value, skin));
      } else {
        return REFUSED;
      }
      step := AfterPick(chance, now);
    }

    method SelectAbsent(id: string, chance: Chance, now: int) returns (step: Step)
      requires Valid() && Fair(chance) && 0 <= now
      modifies this
      ensures Valid() && (Snapshot(), step) == C.SelectAbsent(setup, old(Snapshot()), id, chance, now)
    {
      hide T.Inv, T.OpenReady, C.AfterPick, S.Picked;
      if !C.MayPick(Snapshot(), id) { return REFUSED; }
      ghost var s := Snapshot();
      C.PoolFilled(setup, s, id);
      Pick(id, players[id].pool[chance.draw(id, |players[id].pool|)], None);
      DrawnCoins(setup, s.players[id], id, chance);
      PickedKeeps(setup, s, id, S.Drawn(setup, s.players[id], id, chance));
      step := AfterPick(chance, now);
    }

    method AfterPick(chance: Chance, now: int) returns (step: Step)
      requires Valid() && T.OpenReady(setup, Snapshot()) && Fair(chance) && 0 <= now
      modifies this
      ensures Valid() && (Snapshot(), step) == C.AfterPick(setup, old(Snapshot()), chance, now)
    {
      hide T.Inv, T.OpenReady, Fair, AllPicked;
      var effects: seq<Effect> := [];
      if AllPicked(Snapshot()) { effects := EndCharacterSelect(chance, now); }
      step := Step(true, effects);
    }

    /** Bots take a random fighter, and the shop opens. */
    method EndCharacterSelect(chance: Chance, now: int) returns (effects: seq<Effect>)
      requires T.OpenReady(setup, Snapshot()) && Fair(chance) && 0 <= now
      modifies this
      ensures Valid() && (Snapshot(), effects) == C.EndCharacterSelect(setup, old(Snapshot()), chance, now)
    {
      hide T.OpenReady, T.Inv, Ready, Fair, Halfway, S.BotsPicked, S.BotPicked, T.OpenShop;
      ghost var s := Snapshot();
      C.BotsPickedKeeps(setup, s, chance);
      ghost var goal := S.BotsPicked(setup, s, chance);
      var todo := set id | id in players && players[id].isBot && players[id].character.None?;
      BotsHalfway(setup, s, chance);
      while todo != {}
        invariant Halfway(s, goal, players, todo)
        invariant todo <= BotsToPick(s)
        invariant Snapshot() == s.(players := players)
        decreases todo
      {
        var id :| id in todo;
        HalfwayIs(s, goal, players, todo, id);
        BotsPickedIs(setup, s, chance, id);
        players := players[id := S.BotPicked(setup, players[id], id, chance)];
        todo := todo - {id};
      }
      HalfwayDone(s, goal, players);
      effects := OpenShop(chance, now);
    }

    // ---- The shop ----

    /** A purchase levels a slot holding the same item or fills the first empty one. */
    method Buy(id: string, page: int, index: int)
      requires id in players && Shop.Stocked(setup, players[id].inventory)
      modifies `players
      ensures players == old(players)[id := Shop.Buy(setup, old(players[id]), page, index)]
    {
      hide Shop.Held;
      var player := players[id];
      var item := Shop.Payable(setup, player, page, index);
      if item.None? { return; }
      var cost := item.value.cost;
      var i := Shop.FindSlot(player.inventory, item.value.slug);
      if i < |player.inventory| {
        var owned := player.inventory[i];
        if owned.level >= |setup.rules.itemXpPerLevel| { return; }
        StockedLevel(setup, player.inventory, i, item.value);
        owned := owned.(xp := owned.xp + 1);
        owned := owned.(sellValue := owned.sellValue + cost / 2);
        if owned.xp >= setup.rules.itemXpPerLevel[owned.level] {
          owned := owned.(xp := 0, level := owned.level + 1);
        }
        players := players[id := player.(coins := player.coins - cost, inventory := player.inventory[i := owned])];
        return;
      }
      var free := Shop.FindSlot(player.inventory, "");
      if free == |player.inventory| { return; }
      players := players[id := player.(coins := player.coins - cost,
                                       inventory :=
                                         player.inventory[free := OwnedItem(item.value.slug, 1, 0, cost / 2)])];
    }

    /** A sale empties its slot in place. */
    method Sell(id: string, slot: int)
      requires id in players
      modifies `players
      ensures players == old(players)[id := Shop.Sell(old(players[id]), slot)]
    {
      var player := players[id];
      if slot < 0 || slot >= |player.inventory| || player.inventory[slot].IsEmpty() { return; }
      player := player.(coins := player.coins + player.inventory[slot].sellValue);
      player := player.(inventory := player.inventory[slot := EMPTY_SLOT]);
      players := players[id := player];
    }

    /** The game's summary, replayed in its order. */
    method Transact(id: string, ts: seq<Transaction>)
      requires id in players && Ready(setup) && Shop.Stocked(setup, players[id].inventory) && 0 <= players[id].coins
      modifies `players
      ensures players == old(players)[id := Shop.TransactAll(setup, old(players[id]), ts)]
    {
      hide Ready, Shop.Stocked, Shop.Buy, Shop.Sell;
      ghost var first := players[id];
      for i := 0 to |ts|
        invariant id in players && players == old(players)[id := players[id]]
        invariant Shop.Stocked(setup, players[id].inventory) && 0 <= players[id].coins
        invariant Shop.TransactAll(setup, players[id], ts[i..]) == Shop.TransactAll(setup, first, ts)
      {
        Shop.TransactKeeps(setup, players[id], ts[i]);
        assert ts[i..][1..] == ts[i + 1..];
        if ts[i].purchase { Buy(id, ts[i].page, ts[i].index); } else { Sell(id, ts[i].index); }
      }
    }

    method ShopClosed(id: string, closed: int, rerolls: int, ts: seq<Transaction>, bots: BotMatches, chance: Chance,
      now: int)
      returns (step: Step)
      requires Valid() && Fair(chance) && 0 <= now
      modifies this
      ensures Valid()
      ensures (Snapshot(), step) == C.ShopClosed(setup, old(Snapshot()), id, closed, rerolls, ts, bots, chance, now)
    {
      hide T.Inv, C.ShopOpen, Shop.Stocked, Ready, Fair, C.AfterShop, Shop.TransactAll;
      if !C.MayClose(Snapshot(), id, closed) { return REFUSED; }
      ghost var s := Snapshot();
      C.Shopper(setup, s, id);
      C.SettledOnly(setup, s.players[id], rerolls, ts);
      players :=
        players[id := players[id].(coins := Shop.AfterRerolls(players[id].coins, rerolls, setup.rules.shopRerollCost))];
      Transact(id, ts);
      players := players[id := players[id].(shopDone := true)];
      assert players == s.players[id := C.Settled(setup, s.players[id], rerolls, ts)];
      C.CloseKeeps(setup, s, id, closed, C.Settled(setup, s.players[id], rerolls, ts));
      step := AfterShop(bots, chance, now);
    }

    method ShopAbsent(id: string, closed: int, bots: BotMatches, chance: Chance, now: int) returns (step: Step)
      requires Valid() && Fair(chance) && 0 <= now
      modifies this
      ensures Valid() && (Snapshot(), step) == C.ShopAbsent(setup, old(Snapshot()), id, closed, bots, chance, now)
    {
      hide T.Inv, C.ShopOpen, Shop.Stocked, Ready, Fair, C.AfterShop;
      if !C.MayClose(Snapshot(), id, closed) { return REFUSED; }
      C.Shopper(setup, Snapshot(), id);
      C.CloseKeeps(setup, Snapshot(), id, closed, players[id].(shopDone := true));
      players := players[id := players[id].(shopDone := true)];
      step := AfterShop(bots, chance, now);
    }

    method AfterShop(bots: BotMatches, chance: Chance, now: int) returns (step: Step)
      requires C.ShopOpen(setup, Snapshot()) && Fair(chance) && 0 <= now
      modifies this
      ensures Valid() && (Snapshot(), step) == C.AfterShop(setup, old(Snapshot()), bots, chance, now)
    {
      hide C.ShopOpen, T.ShopReady, T.Inv, Fair, AllShopsDone, T.EndShop;
      C.AllShopsReady(setup, Snapshot());
      var effects: seq<Effect> := [];
      if AllShopsDone(Snapshot()) { effects := EndShop(bots, chance, now); }
      step := Step(true, effects);
    }

    // ---- A node match's end, and checking in ----

    method MatchResult(id: MatchId, side: Option<int>, connected: set<string>, chance: Chance, now: int)
      returns (step: Step)
      requires Valid() && Fair(chance) && 0 <= now
      modifies this
      ensures Valid() && (Snapshot(), step) == C.MatchResult(setup, old(Snapshot()), id, side, connected, chance, now)
    {
      hide T.Inv, T.RoundReady, S.Settle, S.Seated, T.Advances, Fair, AllDecided, T.EndRound, WinnerBy;
      if !C.MayEnd(Snapshot(), id, side) { return REFUSED; }
      C.ResultKeeps(setup, Snapshot(), id, side, connected);
      Settle(C.FindMatch(pairings, id, 0), side, connected);
      var effects: seq<Effect> := [];
      if phase == Match && AllDecided(Snapshot()) { effects := EndRound(chance, now); }
      step := Step(true, effects);
    }

    method Checkin(id: string, left: int, chance: Chance, now: int) returns (step: Step)
      requires Valid() && Fair(chance) && 0 <= now
      modifies this
      ensures Valid() && (Snapshot(), step) == C.Checkin(setup, old(Snapshot()), id, left, chance, now)
    {
      hide T.Inv, T.StartReady, Fair, AllCheckedIn, T.StartRound;
      if !C.MayCheckIn(Snapshot(), id, left) { return REFUSED; }
      C.CheckinKeeps(setup, Snapshot(), id, left);
      players := players[id := players[id].(checkedInRound := left)];
      var effects: seq<Effect> := [];
      if phase == Results && AllCheckedIn(Snapshot()) { effects := StartRound(chance, now); }
      step := Step(true, effects);
    }

    // ---- The deadline ----

    /** Whoever has not acted is decided for, and the phase ends. */
    method Tick(bots: BotMatches, chance: Chance, now: int, connected: set<string>) returns (step: Step)
      requires Valid() && Fair(chance) && 0 <= now
      modifies this
      ensures Valid() && (Snapshot(), step) == C.Tick(setup, old(Snapshot()), bots, chance, now, connected)
    {
      hide T.Inv, T.OpenReady, T.ShopReady, T.RoundReady, T.StartReady, S.AbsentPicked, S.ShopsClosed, S.SettleOpen,
        T.Advances,
        C.EndCharacterSelect, T.EndShop, T.EndRound, T.StartRound, Fair, S.Seated;
      if deadlineMs == 0 || now < deadlineMs { return REFUSED; }
      var effects: seq<Effect>;
      match phase {
      case CharacterSelect =>
        C.AbsentPickedKeeps(setup, Snapshot(), chance);
        PickAbsent(chance);
        effects := EndCharacterSelect(chance, now);
      case Shop =>
        C.ShopsClosedKeeps(setup, Snapshot());
        CloseShops();
        effects := EndShop(bots, chance, now);
      case Match =>
        C.UnreportedKeeps(setup, Snapshot(), connected);
        SettleUnreported(connected);
        effects := EndRound(chance, now);
      case Results =>
        C.ResultsReady(setup, Snapshot());
        effects := StartRound(chance, now);
      case Ended =>
        return REFUSED;
      }
      step := Step(true, effects);
    }

    /** Every player who has not picked is given a fighter of their offer. */
    method PickAbsent(chance: Chance)
      requires Fair(chance)
      requires forall id | id in PlayersIn(Snapshot()) && players[id].character.None? :: players[id].pool != []
      modifies `players
      ensures Snapshot() == S.AbsentPicked(setup, old(Snapshot()), chance)
    {
      hide PlayersIn, Halfway, S.AbsentPicked, S.Picked;
      ghost var s := Snapshot();
      ghost var goal := S.AbsentPicked(setup, s, chance);
      InPlayers(s);
      var todo := set id | id in PlayersIn(Snapshot()) && players[id].character.None?;
      AbsentHalfway(setup, s, chance, todo);
      while todo != {}
        invariant Halfway(s, goal, players, todo)
        invariant forall id | id in todo :: id in PlayersIn(s) && id in s.players && s.players[id].character.None?
        decreases todo
      {
        var id :| id in todo;
        HalfwayIs(s, goal, players, todo, id);
        AbsentIs(setup, s, chance, id);
        Pick(id, players[id].pool[chance.draw(id, |players[id].pool|)], None);
        todo := todo - {id};
      }
      HalfwayDone(s, goal, players);
    }

    method CloseShops()
      modifies `players
      ensures Snapshot() == S.ShopsClosed(old(Snapshot()))
    {
      hide PlayersIn, Halfway, S.ShopsClosed;
      ghost var s := Snapshot();
      ghost var goal := S.ShopsClosed(s);
      var todo := PlayersIn(Snapshot());
      ClosedHalfway(s);
      while todo != {}
        invariant Halfway(s, goal, players, todo)
        invariant todo <= PlayersIn(s)
        decreases todo
      {
        var id :| id in todo;
        HalfwayIs(s, goal, players, todo, id);
        ClosedIs(s, id);
        players := players[id := players[id].(shopDone := true)];
        todo := todo - {id};
      }
      HalfwayDone(s, goal, players);
    }

    method SettleUnreported(connected: set<string>)
      requires Playable(setup.rules) && S.Seated(Snapshot())
      modifies `teams, `pairings
      ensures Snapshot() == S.SettleOpen(setup.rules, old(Snapshot()), connected, |old(pairings)|)
    {
      hide S.Settle, S.SettleOpen, S.SameBoard, S.Seated;
      ghost var s := Snapshot();
      SettleNone(setup.rules, s, connected);
      for i := 0 to |pairings|
        invariant |pairings| == |s.pairings| && Snapshot() == S.SettleOpen(setup.rules, s, connected, i)
      {
        SettleOneMore(setup.rules, s, connected, i);
        if pairings[i].winner.None? {
          Settle(i, None, connected);
        }
      }
    }
  }

  // ---- What the loops keep ----

  lemma InPlayers(s: Run)
    ensures PlayersIn(s) <= s.players.Keys
  {
  }

  lemma NobodyYet(o: Opening)
    requires Ready(o.setup) && Fair(o.chance)
    ensures S.NewTeams(o.setup, o.teams[..0]) == [] && S.Enrol(o.setup, o.teams[..0], o.chance) == map[]
  {
  }

  lemma OneTeamMore(o: Opening, t: nat)
    requires Ready(o.setup) && Fair(o.chance) && t < |o.teams|
    ensures S.NewTeams(o.setup, o.teams[..t + 1])
      == S.NewTeams(o.setup, o.teams[..t]) + [Team(S.Ids(o.teams[t]), o.setup.rules.startingLife, 0, 0, 0, 0, [], 0)]
    ensures S.Enrol(o.setup, o.teams[..t + 1], o.chance)
      == S.Enrol(o.setup, o.teams[..t], o.chance) + S.EnrolTeam(o.setup, o.teams[t], t, o.chance)
  {
    assert o.teams[..t + 1][..t] == o.teams[..t];
  }

  lemma UnstartedOrder(o: Opening)
    requires Opens(o)
    ensures var s := Unstarted(o); OrderOf(s, o.chance.order(1, InTeams(s.teams, |s.teams|)))
  {
    var s := Unstarted(o);
    ShuffleOrders(s, o.chance.order(1, InTeams(s.teams, |s.teams|)));
  }

  lemma PickedIs(setup: Setup, player: Player, character: string, skin: Option<string>)
    ensures var r := S.Picked(setup, player, character, skin);
      r == player.(pool := r.pool, character := r.character, skin := r.skin) && r.character.Some?
  {
  }

  lemma DrawnCoins(setup: Setup, player: Player, id: string, chance: Chance)
    requires Fair(chance) && player.pool != []
    ensures var r := S.Drawn(setup, player, id, chance);
      r == player.(pool := r.pool, character := r.character, skin := r.skin) && r.character.Some?
  {
  }

  lemma PickedKeeps(setup: Setup, s: Run, id: string, player: Player)
    requires T.Inv(setup, s) && C.MayPick(s, id)
    requires player == s.players[id].(pool := player.pool, coins := player.coins, character := player.character,
                                      skin := player.skin, randomPick := player.randomPick)
    requires 0 <= player.coins && player.character.Some?
    ensures var r := C.Updated(s, id, player); T.Inv(setup, r) && T.OpenReady(setup, r)
  {
    hide T.Inv, T.OpenReady;
    C.PickKeeps(setup, s, id, player);
  }

  function BotsToPick(s: Run): set<string> {
    set id | id in s.players && s.players[id].isBot && s.players[id].character.None?
  }

  lemma BotsHalfway(setup: Setup, s: Run, chance: Chance)
    requires Ready(setup) && Fair(chance)
    ensures Halfway(s, S.BotsPicked(setup, s, chance), s.players, BotsToPick(s))
    ensures S.BotsPicked(setup, s, chance) == s.(players := S.BotsPicked(setup, s, chance).players)
  {
  }

  lemma BotsPickedIs(setup: Setup, s: Run, chance: Chance, id: string)
    requires Ready(setup) && Fair(chance) && id in BotsToPick(s)
    ensures id in S.BotsPicked(setup, s, chance).players
    ensures S.BotsPicked(setup, s, chance).players[id] == S.BotPicked(setup, s.players[id], id, chance)
  {
  }

  lemma StockedLevel(setup: Setup, inventory: seq<OwnedItem>, i: nat, item: Item)
    requires Shop.Stocked(setup, inventory) && i < |inventory| && inventory[i].slug == item.slug
    ensures 0 <= inventory[i].level
  {
  }

  lemma AbsentHalfway(setup: Setup, s: Run, chance: Chance, todo: set<string>)
    requires Fair(chance) && todo == set id | id in PlayersIn(s) && s.players[id].character.None?
    requires forall id | id in PlayersIn(s) && s.players[id].character.None? :: s.players[id].pool != []
    ensures Halfway(s, S.AbsentPicked(setup, s, chance), s.players, todo)
    ensures S.AbsentPicked(setup, s, chance) == s.(players := S.AbsentPicked(setup, s, chance).players)
  {
  }

  lemma AbsentIs(setup: Setup, s: Run, chance: Chance, id: string)
    requires Fair(chance) && id in PlayersIn(s) && s.players[id].character.None?
    requires forall id | id in PlayersIn(s) && s.players[id].character.None? :: s.players[id].pool != []
    ensures id in S.AbsentPicked(setup, s, chance).players && s.players[id].pool != []
    ensures S.AbsentPicked(setup, s, chance).players[id] == S.Drawn(setup, s.players[id], id, chance)
  {
  }

  lemma ClosedHalfway(s: Run)
    ensures Halfway(s, S.ShopsClosed(s), s.players, PlayersIn(s))
    ensures S.ShopsClosed(s) == s.(players := S.ShopsClosed(s).players)
  {
  }

  lemma ClosedIs(s: Run, id: string)
    requires id in PlayersIn(s)
    ensures id in S.ShopsClosed(s).players && S.ShopsClosed(s).players[id] == s.players[id].(shopDone := true)
  {
  }

  lemma SettleNone(rules: Rules, s: Run, connected: set<string>)
    requires Playable(rules) && S.Seated(s)
    ensures S.SettleOpen(rules, s, connected, 0) == s
  {
  }

  lemma SettleOneMore(rules: Rules, s: Run, connected: set<string>, i: nat)
    requires Playable(rules) && S.Seated(s) && i < |s.pairings|
    ensures var m, r := S.SettleOpen(rules, s, connected, i), S.SettleOpen(rules, s, connected, i + 1);
      && S.Seated(m) && |r.pairings| == |m.pairings| == |s.pairings|
      && r == (if m.pairings[i].winner.Some? then m else S.Settle(rules, m, i, None, connected))
  {
  }

  lemma GoneInRange(s: Run, t: int, connected: set<string>)
    requires Gone(s, t, connected)
    ensures 0 <= t < |s.teams|
  {
  }

  lemma LoseSides(rules: Rules, s: Run, a: int, b: int)
    requires Playable(rules) && S.Side(s, a) && S.Side(s, b)
    ensures S.Side(S.Lose(rules, s, a), b)
  {
  }

  lemma StartPairable(setup: Setup, s: Run, chance: Chance)
    requires T.StartReady(setup, s) && Fair(chance)
    ensures var s1 := s.(round := s.round + 1); OrderOf(s1, chance.order(s1.round, InTeams(s1.teams, |s1.teams|)))
  {
    hide T.StartReady;
    ShuffleOrders(s.(round := s.round + 1), chance.order(s.round + 1, InTeams(s.teams, |s.teams|)));
  }

  /** Some players changed already as they will be, the others not yet. */
  ghost predicate Halfway(s: Run, goal: Run, players: map<string, Player>, todo: set<string>) {
    && players.Keys == s.players.Keys == goal.players.Keys && todo <= s.players.Keys
    && (forall id | id in s.players :: players[id] == (if id in todo then s.players[id] else goal.players[id]))
  }

  lemma HalfwayIs(s: Run, goal: Run, players: map<string, Player>, todo: set<string>, id: string)
    requires Halfway(s, goal, players, todo) && id in todo
    ensures id in players && id in s.players && id in goal.players && players[id] == s.players[id]
    ensures Halfway(s, goal, players[id := goal.players[id]], todo - {id})
  {
  }

  lemma HalfwayDone(s: Run, goal: Run, players: map<string, Player>)
    requires Halfway(s, goal, players, {})
    ensures players == goal.players
  {
    assert forall id | id in players :: players[id] == goal.players[id];
  }

  lemma OpenedHalfway(setup: Setup, s: Run, chance: Chance)
    requires Fair(chance)
    ensures Halfway(s, S.ShopsOpened(setup, s, chance), s.players, PlayersIn(s))
    ensures S.ShopsOpened(setup, s, chance) == s.(players := S.ShopsOpened(setup, s, chance).players)
  {
  }

  lemma OpenedIs(setup: Setup, s: Run, chance: Chance, id: string)
    requires Fair(chance) && id in PlayersIn(s)
    ensures id in S.ShopsOpened(setup, s, chance).players
    ensures S.ShopsOpened(setup, s, chance).players[id] == s.players[id].(shopDone := false,
      shopPages := PagesOf(setup.items, s.round, setup.rules.shopPages, setup.rules.offersPerPage, chance.dice(id)))
  {
  }

  lemma PaidHalfway(rules: Rules, s: Run)
    requires forall id | id in s.players :: s.players[id].team < |s.teams|
    ensures Halfway(s, S.Paid(rules, s), s.players, PlayersIn(s))
    ensures S.Paid(rules, s) == s.(players := S.Paid(rules, s).players)
  {
  }

  lemma PaidIs(rules: Rules, s: Run, id: string)
    requires id in PlayersIn(s)
    ensures id in S.Paid(rules, s).players
    ensures S.Paid(rules, s).players[id]
      == s.players[id].(coins := s.players[id].coins + S.Income(rules, s, s.players[id]))
  {
  }

  lemma DecideNone(rules: Rules, s: Run, bots: BotMatches)
    requires Playable(rules) && S.Seated(s)
    ensures S.DecideBots(rules, s, bots, 0) == s
  {
  }

  lemma DecideOneMore(rules: Rules, s: Run, bots: BotMatches, i: nat)
    requires Playable(rules) && S.Seated(s) && i < |s.pairings|
    ensures var m, r := S.DecideBots(rules, s, bots, i), S.DecideBots(rules, s, bots, i + 1);
      && S.Seated(m) && |r.pairings| == |m.pairings| == |s.pairings| && m.round == s.round
      && S.Side(m, m.pairings[i].a) && S.Side(m, m.pairings[i].b)
      && r == (if m.pairings[i].hasPlayer then m
               else S.Decide(rules, m, i, if bots(m.round, i) then m.pairings[i].a else m.pairings[i].b))
  {
    var m := S.DecideBots(rules, s, bots, i);
    assert m.pairings[i] in m.pairings;
  }

  /** The first i of those going out have their rank. */
  ghost predicate RankedUpTo(s: Run, out: seq<int>, i: int, left: int, teams: seq<Team>) {
    && |teams| == |s.teams| && 0 <= left && S.NoRepeats(out) && (forall j | 0 <= j < |out| :: 0 <= out[j] < |s.teams|)
    && forall t | 0 <= t < |s.teams| ::
         teams[t] == (if t in out && S.IndexOf(out, t) < i then s.teams[t].(finalRank := left + 1 + S.IndexOf(out, t))
           else s.teams[t])
  }

  lemma RanksFit(s: Run)
    ensures |S.OutNow(s.teams)| <= |InTeams(s.teams, |s.teams|)|
    ensures S.NoRepeats(S.OutNow(s.teams))
      && forall j | 0 <= j < |S.OutNow(s.teams)| :: 0 <= S.OutNow(s.teams)[j] < |s.teams|
  {
    OutFits(s.teams, |s.teams|);
    OutNowInOrder(s.teams);
  }

  lemma RankedNone(s: Run, out: seq<int>, left: int)
    requires 0 <= left && S.NoRepeats(out) && (forall j | 0 <= j < |out| :: 0 <= out[j] < |s.teams|)
    ensures RankedUpTo(s, out, 0, left, s.teams)
  {
  }

  lemma RankOneMore(s: Run, out: seq<int>, i: nat, left: int, teams: seq<Team>)
    requires i < |out| && RankedUpTo(s, out, i, left, teams)
    ensures 0 <= out[i] < |teams| && 0 <= left + 1 + i
    ensures RankedUpTo(s, out, i + 1, left, teams[out[i] := teams[out[i]].(finalRank := left + 1 + i)])
  {
    IndexOfAt(out, i);
  }

  lemma RankedAll(s: Run, out: seq<int>, left: int, teams: seq<Team>)
    requires out == S.OutNow(s.teams) && |out| <= |InTeams(s.teams, |s.teams|)|
    requires left == |InTeams(s.teams, |s.teams|)| - |out| && RankedUpTo(s, out, |out|, left, teams)
    ensures s.(teams := teams) == WentOut(s)
  {
    hide S.OutNow, S.RankOut, S.IndexOf, InTeams, RankedUpTo;
    RankOutIs(s, out, left, teams);
  }

  lemma RankOutIs(s: Run, out: seq<int>, left: int, teams: seq<Team>)
    requires 0 <= left && RankedUpTo(s, out, |out|, left, teams)
    ensures teams == S.RankOut(s.teams, out, left)
  {
    forall t | 0 <= t < |s.teams| ensures teams[t] == S.RankOut(s.teams, out, left)[t] {}
  }

  lemma OrderParts(s: Run, order: seq<int>)
    requires OrderOf(s, order)
    ensures S.NoRepeats(order) && MIRROR !in order && forall j | 0 <= j < |order| :: 0 <= order[j] < |s.teams|
  {
    NotMirror(s, order);
  }

  /** The first i places of an order are paired, and the opponents of their teams kept. */
  ghost predicate PairedUpTo(s: Run, order: seq<int>, i: int, teams: seq<Team>, pairings: seq<Pairing>) {
    && S.NoRepeats(order) && MIRROR !in order && (forall j | 0 <= j < |order| :: 0 <= order[j] < |s.teams|)
    && |teams| == |s.teams| && |pairings| <= (|order| + 1) / 2
    && (forall k | 0 <= k < |pairings| :: pairings[k] == S.PairingAt(s, order, k))
    && forall t | 0 <= t < |s.teams| :: teams[t] ==
         (if t in order && S.IndexOf(order, t) < i
          then s.teams[t].(opponents := s.teams[t].opponents + [S.Partner(order, t)])
          else s.teams[t])
  }

  lemma PairedNone(s: Run, order: seq<int>)
    requires S.NoRepeats(order) && MIRROR !in order && forall j | 0 <= j < |order| :: 0 <= order[j] < |s.teams|
    ensures PairedUpTo(s, order, 0, s.teams, [])
  {
  }

  lemma PlayerKept(s: Run, r: Run, order: seq<int>, i: int, t: int)
    requires PairedUpTo(s, order, i, r.teams, r.pairings) && r.players == s.players
    ensures HasPlayer(r, t) == HasPlayer(s, t)
  {
    PlayerSame(s, r, t);
  }

  /** The two places of a pairing are each other's partners, whichever of them is its A. */
  lemma Swapped(order: seq<int>, i: nat, a: int, b: int)
    requires S.NoRepeats(order) && MIRROR !in order && i < |order| && i % 2 == 0
    requires var x, y := order[i], if i + 1 < |order| then order[i + 1] else MIRROR;
      (a == x && b == y) || (a == y && b == x && y != MIRROR)
    ensures a in order && S.Partner(order, a) == b && i <= S.IndexOf(order, a) < i + 2
    ensures b != MIRROR ==> b in order && S.Partner(order, b) == a && i <= S.IndexOf(order, b) < i + 2 && b != a
    ensures forall t | t in order && i <= S.IndexOf(order, t) < i + 2 :: t == a || t == b
  {
    IndexOfAt(order, i);
    if i + 1 < |order| { IndexOfAt(order, i + 1); }
  }

  lemma PairOneMore(s: Run, order: seq<int>, i: nat, teams: seq<Team>, pairings: seq<Pairing>, p: Pairing)
    requires PairedUpTo(s, order, i, teams, pairings) && i == 2 * |pairings| < |order|
    requires p == S.PairingAt(s, order, i / 2)
    ensures 0 <= p.a < |teams| && (p.b == MIRROR || (0 <= p.b < |teams| && p.b != p.a))
    ensures var teams1 := teams[p.a := teams[p.a].(opponents := teams[p.a].opponents + [p.b])];
      var teams2 := if p.b == MIRROR then teams1
        else teams1[p.b := teams1[p.b].(opponents := teams1[p.b].opponents + [p.a])];
      PairedUpTo(s, order, i + 2, teams2, pairings + [p])
  {
    hide S.Partner, S.IndexOf;
    Swapped(order, i, p.a, p.b);
  }

  lemma PairedAll(s: Run, order: seq<int>, i: int, teams: seq<Team>, pairings: seq<Pairing>)
    requires PairedUpTo(s, order, i, teams, pairings) && |order| <= i == 2 * |pairings|
    ensures s.(teams := teams, pairings := pairings) == S.Paired(s, order)
  {
    assert pairings == S.Paired(s, order).pairings;
    assert teams == S.Paired(s, order).teams;
  }
}
