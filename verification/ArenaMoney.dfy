/**
 * What a player's picks and rounds cost and pay, and what their shop shows (ArenaRun.cs, lines 249-303, 440-458 and
 * 557-563).
 */
module ArenaMoney {
  import opened Options
  import opened ArenaRules
  import Items = ArenaItems
  import opened ArenaTypes
  import opened ArenaSteps
  import opened ArenaInvariant
  import opened ArenaRounds
  import opened ArenaTransitions
  import opened ArenaCalls

  // ---- A round's pay ----

  /** A win's coins are paid to exactly the teams whose win streak is running: those that won this round. */
  lemma WonIsStreak(rules: Rules, s: Run, t: int)
    requires Core(rules, s) && AllDecided(s) && TeamIn(s, t)
    ensures (exists p :: p in s.pairings && p.winner == Some(t)) <==> 0 < s.teams[t].winStreak
  {
    hide Rostered, Histories, Ranked, Counted, HasPlayer;
    var i :| 0 <= i < |s.pairings| && s.pairings[i].Plays(t);
    assert PlayedOk(s, s.pairings[i], t) && s.pairings[i] in s.pairings;
    if p :| p in s.pairings && p.winner == Some(t) {
      var j :| 0 <= j < |s.pairings| && s.pairings[j] == p;
      WinnerPlays(s, j, t);
      SamePairing(s, i, j, t);
    }
  }

  lemma WinnerPlays(s: Run, j: nat, t: int)
    requires Matched(s) && j < |s.pairings| && s.pairings[j].winner == Some(t) && 0 <= t
    ensures s.pairings[j].Plays(t)
  {
    assert PairingOk(s, j);
  }

  lemma SamePairing(s: Run, i: int, j: int, t: int)
    requires Matched(s) && 0 <= i < |s.pairings| && 0 <= j < |s.pairings| && 0 <= t < |s.teams|
    requires s.pairings[i].Plays(t) && s.pairings[j].Plays(t)
    ensures i == j
  {
  }

  lemma OneStreakRuns(rules: Rules, s: Run, t: int)
    requires Playable(rules) && 0 <= t < |s.teams| && Recorded(rules, s, t)
    ensures s.teams[t].winStreak == 0 || s.teams[t].loseStreak == 0
  {
    var results :| Explains(rules, HasPlayer(s, t), s.teams[t], results);
  }

  /**
   * The round's pay: every player still in gains interest, the round's coins, and their streak's; the winners a win's
   * coins too. Nobody's coins fall, and nobody else is paid.
   */
  lemma RoundPays(setup: Setup, s: Run, id: string)
    requires Ready(setup) && Core(setup.rules, s) && AllDecided(s) && PlayersOk(setup, s) && id in s.players
    ensures s.players[id].team < |s.teams| && id in Paid(setup.rules, s).players
    ensures var before, after, team := s.players[id], Paid(setup.rules, s).players[id], s.teams[s.players[id].team];
      if id !in PlayersIn(s) then after == before
      else
        && after == before.(coins := after.coins) && before.coins <= after.coins
        && after.coins - before.coins
           - Interest(setup.rules, before.coins) - At(setup.rules.currencyPerRound, s.round - 1)
           == (if 0 < team.winStreak
               then setup.rules.currencyForWin + At(setup.rules.currencyForWinStreak, team.winStreak)
                 + At(setup.rules.currencyForLoseStreak, 0)
               else At(setup.rules.currencyForWinStreak, 0) + At(setup.rules.currencyForLoseStreak, team.loseStreak))
  {
    hide Ready, Matched, Histories, Ranked, Counted, Recorded;
    assert PlayerOk(setup, s, s.players[id]);
    if id in PlayersIn(s) {
      WonIsStreak(setup.rules, s, s.players[id].team);
      OneStreakRuns(setup.rules, s, s.players[id].team);
      PayNonNegative(setup, s, s.players[id]);
    }
  }

  lemma PayNonNegative(setup: Setup, s: Run, player: Player)
    requires Ready(setup) && player.team < |s.teams| && 0 <= player.coins
    ensures 0 <= Income(setup.rules, s, player)
  {
    IncomeOk(setup.rules, s, player);
  }

  // ---- Picking a fighter ----

  lemma {:induction false} NamesOfRoster(roster: seq<Fighter>, i: nat)
    requires i < |roster|
    ensures Names(roster)[i] == roster[i].character
  {
    if i > 0 { NamesOfRoster(roster[1..], i - 1); }
  }

  lemma OffersFighters(setup: Setup, id: string, chance: Chance)
    requires Ready(setup) && Fair(chance)
    ensures forall x | x in Offer(setup, id, chance) :: exists i ::
      0 <= i < |setup.roster| && setup.roster[i].character == x
    ensures |Offer(setup, id, chance)| == Min(setup.rules.selectableCount, |setup.roster|)
  {
    var names := chance.offer(id, Names(setup.roster));
    assert |names| == |multiset(names)| == |multiset(Names(setup.roster))|;
    forall x | x in Offer(setup, id, chance)
      ensures exists i :: 0 <= i < |setup.roster| && setup.roster[i].character == x
    {
      assert x in multiset(names) && x in multiset(Names(setup.roster));
      var i :| 0 <= i < |Names(setup.roster)| && Names(setup.roster)[i] == x;
      NamesOfRoster(setup.roster, i);
    }
  }

  /** A reroll costs its price at once, and offers fighters of the roster again, as many as there can be. */
  lemma RerollSettles(setup: Setup, s: Run, id: string, chance: Chance)
    requires Inv(setup, s) && Fair(chance)
    ensures var (r, step) := RerollCharacters(setup, s, id, chance);
      && (step.accepted <==> MayPick(s, id) && setup.rules.characterRerollCost <= s.players[id].coins)
      && (step.accepted ==>
            && r.players[id].coins == s.players[id].coins - setup.rules.characterRerollCost && 0 <= r.players[id].coins
            && |r.players[id].pool| == Min(setup.rules.selectableCount, |setup.roster|)
            && (forall x | x in r.players[id].pool :: exists i ::
              0 <= i < |setup.roster| && setup.roster[i].character == x)
            && forall other | other in s.players && other != id :: r.players[other] == s.players[other])
  {
    hide Inv, OpenReady, Fair, Offer;
    if MayPick(s, id) {
      PoolFilled(setup, s, id);
      OffersFighters(setup, id, chance);
    }
  }

  /** What the pick left a player is still theirs once the shop is open. */
  lemma PickStays(setup: Setup, s: Run, id: string, chance: Chance, now: int)
    requires Inv(setup, s) && OpenReady(setup, s) && Fair(chance) && 0 <= now && id in PlayersIn(s)
    ensures var r := AfterPick(setup, s, chance, now).0;
      id in r.players
        && r.players[id] == s.players[id].(shopDone := r.players[id].shopDone, shopPages := r.players[id].shopPages)
  {
    hide Inv, OpenReady, Ready, Core, AllPicked, EndShop;
    if AllPicked(s) {
      BotsPickedKeeps(setup, s, chance);
      var m := BotsPicked(setup, s, chance);
      BotsIn(setup, s, chance);
      SameGamePlayers(s, m);
      SameGamePlayers(m, m.(phase := Shop));
    }
  }

  lemma BotsIn(setup: Setup, s: Run, chance: Chance)
    requires Ready(setup) && Fair(chance)
    ensures SameGame(s, BotsPicked(setup, s, chance))
    ensures forall id | id in s.players && !s.players[id].isBot ::
      BotsPicked(setup, s, chance).players[id] == s.players[id]
  {
  }

  lemma PickerIn(setup: Setup, s: Run, id: string, player: Player)
    requires Inv(setup, s) && MayPick(s, id) && player.isBot == s.players[id].isBot && player.team == s.players[id].team
    ensures id in PlayersIn(Updated(s, id, player))
  {
    hide PlayersOk;
  }

  /** A player's fighter is one they were offered. */
  ghost predicate TookPick(s: Run, r: Run, id: string) {
    id in s.players && id in r.players && r.players[id].character.Some?
      && r.players[id].character.value in s.players[id].pool
  }

  /**
   * A pick taken is a fighter of the player's offer: the one asked for, at no charge, or one at random, with the bonus;
   * given to an absent player, without it.
   */
  lemma PicksSettle(setup: Setup, s: Run, id: string, character: Option<string>, skin: Option<string>,
    chooseRandom: bool, chance: Chance, now: int)
    requires Inv(setup, s) && Fair(chance) && 0 <= now
    ensures var (r, step) := Select(setup, s, id, character, skin, chooseRandom, chance, now);
      step.accepted ==>
        && TookPick(s, r, id) && r.players[id].pool == []
        && (!chooseRandom ==> r.players[id].character == character && r.players[id].coins == s.players[id].coins)
        && (chooseRandom ==>
          r.players[id].randomPick && r.players[id].coins == s.players[id].coins + setup.rules.randomCharacterBonus)
    ensures var (r, step) := SelectAbsent(setup, s, id, chance, now);
      step.accepted ==> TookPick(s, r, id) && r.players[id].coins == s.players[id].coins
  {
    hide Inv, OpenReady, AfterPick, SkinsOf, PlayersIn;
    if MayPick(s, id) {
      PoolFilled(setup, s, id);
      if chooseRandom {
        PickTaken(setup, s, id, Drawn(setup, s.players[id], id, chance)
          .(coins := s.players[id].coins + setup.rules.randomCharacterBonus, randomPick := true), chance, now);
      } else if character.Some? && character.value in s.players[id].pool {
        PickTaken(setup, s, id, Picked(setup, s.players[id], character.value, skin), chance, now);
      }
      PickTaken(setup, s, id, Drawn(setup, s.players[id], id, chance), chance, now);
    }
  }

  lemma PickTaken(setup: Setup, s: Run, id: string, player: Player, chance: Chance, now: int)
    requires Inv(setup, s) && MayPick(s, id) && Fair(chance) && 0 <= now
    requires player == s.players[id].(pool := player.pool, coins := player.coins, character := player.character,
                                      skin := player.skin, randomPick := player.randomPick)
    requires 0 <= player.coins && player.character.Some?
    ensures var m := Updated(s, id, player);
      && Inv(setup, m) && OpenReady(setup, m)
      && var r := AfterPick(setup, m, chance, now).0;
      id in r.players
        && r.players[id] == player.(shopDone := r.players[id].shopDone, shopPages := r.players[id].shopPages)
  {
    hide Inv, OpenReady, AfterPick, Fair, PlayersIn;
    PickKeeps(setup, s, id, player);
    PickerIn(setup, s, id, player);
    PickStays(setup, Updated(s, id, player), id, chance, now);
  }

  // ---- The shop ----

  /**
   * Every player still in finds as many pages as the rules say, each full of different items of the catalog that have a
   * weight this round; everyone else keeps what they had.
   */
  lemma ShopShows(setup: Setup, s: Run, chance: Chance, id: string, p: nat)
    requires Ready(setup) && Fair(chance) && id in s.players && p < setup.rules.shopPages
    ensures var r := ShopsOpened(setup, s, chance);
      && id in r.players
      && (id !in PlayersIn(s) ==> r.players[id] == s.players[id])
      && (id in PlayersIn(s) ==>
            && !r.players[id].shopDone && |r.players[id].shopPages| == setup.rules.shopPages
            && var page := r.players[id].shopPages[p];
            && |page| == Min(setup.rules.offersPerPage, |Items.Offered(setup.items, s.round)|) && Items.Different(page)
            && forall x | x in page :: exists i :: i in setup.items && i.slug == x && 0 < i.Weight(s.round))
  {
    hide Items.Offered, Items.Page, Items.FairDice, PlayersIn;
    Items.PagesShow(setup.items, s.round, setup.rules.shopPages, setup.rules.offersPerPage, chance.dice(id), p);
  }
}
