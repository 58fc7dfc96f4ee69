/**
 * The character select (ArenaRun.cs, lines 249-303, 382-396 and 440-451): what a pick leaves a player, and how the last
 * one, or the deadline, opens the shop with everyone's fighter chosen.
 */
module ArenaPicks {
  import opened Options
  import opened ArenaItems
  import opened ArenaTypes
  import opened ArenaSteps
  import opened ArenaInvariant
  import opened ArenaTransitions
  import opened ArenaCalls
  import opened ArenaPhases

  // ---- A fighter taken ----

  /** The skin asked for if the fighter has it, else the fighter's first. */
  ghost predicate Wears(roster: seq<Fighter>, character: string, asked: Option<string>, skin: string) {
    && (forall i | 0 <= i < |roster| && roster[i].character == character
                   && (forall j | 0 <= j < i :: roster[j].character != character) && roster[i].skins != [] ::
          skin == if asked.Some? && asked.value != "" && asked.value in roster[i].skins then asked.value
                  else roster[i].skins[0])
    && ((forall f | f in roster :: f.character != character) ==> skin == "")
  }

  /** The fighter is the player's, in a skin of it; their offer is gone, and so much is added to their coins. */
  ghost predicate Takes(setup: Setup, before: Player, after: Player, character: string, asked: Option<string>,
    bonus: int, random: bool)
  {
    && after.skin.Some? && Wears(setup.roster, character, asked, after.skin.value)
    && after == before.(character := Some(character), skin := after.skin, pool := [], coins := before.coins + bonus,
                        randomPick := before.randomPick || random)
  }

  lemma {:induction false} FirstSkins(roster: seq<Fighter>, character: string, i: nat)
    requires i < |roster| && roster[i].character == character
    requires forall j | 0 <= j < i :: roster[j].character != character
    ensures SkinsOf(roster, character) == roster[i].skins
  {
    if i > 0 { FirstSkins(roster[1..], character, i - 1); }
  }

  lemma {:induction false} NoSkins(roster: seq<Fighter>, character: string)
    requires forall f | f in roster :: f.character != character
    ensures SkinsOf(roster, character) == []
  {
    if roster != [] { NoSkins(roster[1..], character); }
  }

  lemma PickedTakes(setup: Setup, player: Player, character: string, asked: Option<string>)
    ensures Takes(setup, player, Picked(setup, player, character, asked), character, asked, 0, false)
  {
    var roster := setup.roster;
    forall i | 0 <= i < |roster| && roster[i].character == character
               && (forall j | 0 <= j < i :: roster[j].character != character)
      ensures SkinsOf(roster, character) == roster[i].skins
    {
      FirstSkins(roster, character, i);
    }
    if forall f | f in roster :: f.character != character { NoSkins(roster, character); }
  }

  // ---- The shop opened ----

  /** A bot without a fighter is given one of the roster, in one of its skins. */
  ghost predicate BotTakes(setup: Setup, before: Player, after: Player, id: string, chance: Chance)
    requires setup.roster != []
  {
    var drawn := chance.draw(id, |setup.roster|);
    && drawn < |setup.roster|
    && var skins := setup.roster[drawn].skins;
    && chance.skin(id, |skins|) < |skins|
    && after == before.(character := Some(setup.roster[drawn].character), skin := Some(skins[chance.skin(id, |skins|)]))
  }

  /** The character select over: bots take their fighters, and every player has an open shop, with the round's pages. */
  ghost predicate ShopOpened(setup: Setup, s: Run, r: Run, chance: Chance)
    requires Fair(chance) && setup.roster != []
  {
    && r == s.(phase := Shop, deadlineMs := r.deadlineMs, players := r.players) && r.players.Keys == s.players.Keys
    && forall x | x in s.players ::
         if s.players[x].isBot && s.players[x].character.None?
         then BotTakes(setup, s.players[x], r.players[x], x, chance)
         else if x in PlayersIn(s) then
           r.players[x] == s.players[x].(shopDone := false,
             shopPages :=
               PagesOf(setup.items, s.round, setup.rules.shopPages, setup.rules.offersPerPage, chance.dice(x)))
         else r.players[x] == s.players[x]
  }

  lemma BotPickedTakes(setup: Setup, player: Player, id: string, chance: Chance)
    requires Ready(setup) && Fair(chance)
    ensures BotTakes(setup, player, BotPicked(setup, player, id, chance), id, chance)
  {
  }

  lemma SelectEnds(setup: Setup, s: Run, chance: Chance, now: int)
    requires OpenReady(setup, s) && Fair(chance) && 0 <= now && PlayersIn(s) != {}
    ensures Ready(setup) && ShopOpened(setup, s, EndCharacterSelect(setup, s, chance, now).0, chance)
  {
    hide OpenReady, Inv, OpenShop, BotPicked, BotTakes, PagesOf, Fair;
    BotsPickedKeeps(setup, s, chance);
    var m := BotsPicked(setup, s, chance);
    BotsPickedIn(setup, s, chance);
    OpenShopLeaves(setup, m, chance, now);
    forall x | x in s.players
      ensures BotTakes(setup, s.players[x], BotPicked(setup, s.players[x], x, chance), x, chance)
    {
      BotPickedTakes(setup, s.players[x], x, chance);
    }
  }

  lemma BotsPickedIn(setup: Setup, s: Run, chance: Chance)
    requires Ready(setup) && Fair(chance)
    ensures PlayersIn(BotsPicked(setup, s, chance)) == PlayersIn(s)
  {
    hide Ready, Fair;
    var m := BotsPicked(setup, s, chance);
    forall x ensures x in PlayersIn(m) <==> x in PlayersIn(s) {}
  }

  // ---- A pick ----

  ghost predicate OthersPicked(s: Run, id: string) {
    forall x | x in PlayersIn(s) && x != id :: s.players[x].character.Some?
  }

  /** A pick leads to nothing more while another player has no fighter; the last one opens the shop. */
  ghost predicate PickLeaves(setup: Setup, s: Run, id: string, player: Player, r: Run, chance: Chance)
    requires Fair(chance) && setup.roster != []
  {
    var m := s.(players := s.players[id := player]);
    if OthersPicked(s, id) then ShopOpened(setup, m, r, chance) else r == m
  }

  lemma LastPick(setup: Setup, s: Run, id: string, player: Player)
    requires Inv(setup, s) && MayPick(s, id) && player.isBot == s.players[id].isBot && player.team == s.players[id].team
    requires player.character.Some?
    ensures var m := Updated(s, id, player); (AllPicked(m) <==> OthersPicked(s, id)) && id in PlayersIn(m)
  {
    hide PlayersOk, Ready, Matched, Histories, Ranked, Records, Counted, NoneDecided;
    var m := Updated(s, id, player);
    forall x ensures x in PlayersIn(m) <==> x in PlayersIn(s) {}
  }

  lemma PickTaken(setup: Setup, s: Run, id: string, player: Player, chance: Chance, now: int)
    requires Inv(setup, s) && MayPick(s, id) && Fair(chance) && 0 <= now
    requires player == s.players[id].(pool := player.pool, coins := player.coins, character := player.character,
                                      skin := player.skin, randomPick := player.randomPick)
    requires 0 <= player.coins && player.character.Some?
    ensures var m := Updated(s, id, player); Inv(setup, m) && OpenReady(setup, m) && setup.roster != []
    ensures var (r, step) := AfterPick(setup, Updated(s, id, player), chance, now);
      step.accepted && PickLeaves(setup, s, id, player, r, chance)
  {
    hide Inv, OpenReady, Fair, AllPicked, OthersPicked, ShopOpened, EndCharacterSelect;
    PickKeeps(setup, s, id, player);
    LastPick(setup, s, id, player);
    RosterThere(setup, s);
    var m := Updated(s, id, player);
    if AllPicked(m) { SelectEnds(setup, m, chance, now); }
  }

  lemma RosterThere(setup: Setup, s: Run)
    requires Inv(setup, s)
    ensures setup.roster != []
  {
  }

  /** A player without a fighter may pick while the character select lasts. */
  ghost predicate Picking(s: Run, id: string) {
    s.phase == CharacterSelect && id in s.players && !s.players[id].isBot && s.players[id].character.None?
  }

  /**
   * A pick is taken exactly from a player still to pick, for a random fighter of their offer, with the bonus, or for
   * the one named, if it is on their offer; they have it in the skin they asked for, if it is theirs. Only the last one
   * moves the run on.
   */
  lemma SelectLeaves(setup: Setup, s: Run, id: string, character: Option<string>, skin: Option<string>,
                     chooseRandom: bool, chance: Chance, now: int) returns (player: Player)
    requires Inv(setup, s) && Fair(chance) && 0 <= now
    ensures setup.roster != []
    ensures var (r, step) := Select(setup, s, id, character, skin, chooseRandom, chance, now);
      && (step.accepted <==>
            Picking(s, id) && (chooseRandom || (character.Some? && character.value in s.players[id].pool)))
      && (!step.accepted ==> r == s)
      && (step.accepted ==>
            var pool := s.players[id].pool;
            && PickLeaves(setup, s, id, player, r, chance)
            && (chooseRandom ==>
                  chance.draw(id, |pool|) < |pool|
                  && Takes(setup, s.players[id], player, pool[chance.draw(id, |pool|)], None,
                           setup.rules.randomCharacterBonus, true))
            && (!chooseRandom ==> Takes(setup, s.players[id], player, character.value, skin, 0, false)))
  {
    hide Inv, OpenReady, AfterPick, Picked, Wears, PickLeaves;
    RosterThere(setup, s);
    player := *;
    if MayPick(s, id) {
      PoolFilled(setup, s, id);
      var pool := s.players[id].pool;
      if chooseRandom {
        var drawn := pool[chance.draw(id, |pool|)];
        PickedTakes(setup, s.players[id], drawn, None);
        player := Drawn(setup, s.players[id], id, chance)
          .(coins := s.players[id].coins + setup.rules.randomCharacterBonus, randomPick := true);
        PickTaken(setup, s, id, player, chance, now);
      } else if character.Some? && character.value in pool {
        PickedTakes(setup, s.players[id], character.value, skin);
        player := Picked(setup, s.players[id], character.value, skin);
        PickTaken(setup, s, id, player, chance, now);
      }
    }
  }

  lemma SelectAbsentLeaves(setup: Setup, s: Run, id: string, chance: Chance, now: int) returns (player: Player)
    requires Inv(setup, s) && Fair(chance) && 0 <= now
    ensures setup.roster != []
    ensures var (r, step) := SelectAbsent(setup, s, id, chance, now);
      && (step.accepted <==> Picking(s, id)) && (!step.accepted ==> r == s)
      && (step.accepted ==>
            var pool := s.players[id].pool;
            && PickLeaves(setup, s, id, player, r, chance) && chance.draw(id, |pool|) < |pool|
            && Takes(setup, s.players[id], player, pool[chance.draw(id, |pool|)], None, 0, false))
  {
    hide Inv, OpenReady, AfterPick, Picked, Wears, PickLeaves;
    RosterThere(setup, s);
    player := *;
    if MayPick(s, id) {
      PoolFilled(setup, s, id);
      var pool := s.players[id].pool;
      PickedTakes(setup, s.players[id], pool[chance.draw(id, |pool|)], None);
      player := Drawn(setup, s.players[id], id, chance);
      PickTaken(setup, s, id, player, chance, now);
    }
  }
}
