/** Every call, whoever makes it and whatever the draws: refused with nothing changed, or one more moment of the run. */
module ArenaCallProgress {
  import opened Options
  import opened ArenaRules
  import opened ArenaTypes
  import opened ArenaShop
  import opened ArenaSteps
  import opened ArenaInvariant
  import opened ArenaResults
  import opened ArenaRounds
  import opened ArenaTransitions
  import opened ArenaCalls
  import opened ArenaProgress

  // ---- One call ----

  /** What a call leaves: refused, the run as it was; taken, a later moment, told and launched right. */
  ghost predicate CallSound(s: Run, r: (Run, Step)) {
    && Follows(s, r.0, r.1.effects) && Launched(s, r.0, r.1.effects)
    && (!r.1.accepted ==> r == (s, REFUSED))
  }

  lemma RefusedSound(s: Run)
    ensures CallSound(s, (s, REFUSED))
  {
    forall i | 0 <= i < |s.pairings| ensures KeptResult(s.pairings[i], s.pairings[i]) {}
  }

  lemma UpdatedFollows(s: Run, id: string, player: Player)
    requires id in s.players && s.phase != Ended && TeamIn(s, s.players[id].team)
    requires player.isBot == s.players[id].isBot && player.team == s.players[id].team
    ensures SameGame(s, Updated(s, id, player)) && Follows(s, Updated(s, id, player), [])
  {
    SameGameFollows(s, Updated(s, id, player));
  }

  lemma SoundQuiet(s: Run, m: Run)
    requires Follows(s, m, []) && m.round == s.round
    ensures CallSound(s, (m, Step(true, [])))
  {
    hide Follows;
  }

  lemma SoundStep(s: Run, m: Run, r: (Run, seq<Effect>), now: int)
    requires Follows(s, m, []) && m.round == s.round && Sound(m, r.0, r.1, now)
    ensures CallSound(s, (r.0, Step(true, r.1)))
  {
    hide Follows;
    var none: seq<Effect> := [];
    SoundAfter(s, m, r.0, none, r.1, now);
    assert none + r.1 == r.1;
  }

  lemma SoundClock(s: Run, r: (Run, seq<Effect>), now: int)
    requires Sound(s, r.0, r.1, now)
    ensures Clock(s) <= Clock(r.0)
  {
  }

  lemma BotsPickedFollows(setup: Setup, s: Run, chance: Chance)
    requires OpenReady(setup, s) && Ready(setup) && Fair(chance) && s.phase == CharacterSelect && EveryoneIn(s)
    ensures var r := BotsPicked(setup, s, chance);
      Follows(s, r.(phase := Shop), []) && r.round == s.round && r.phase == s.phase && OpenReady(setup, r)
  {
    hide Core, Ready;
    BotsPickedKeeps(setup, s, chance);
    var r := BotsPicked(setup, s, chance);
    forall id | id in s.players ensures TeamIn(s, s.players[id].team) {
      OwnTeam(setup.rules, s, id);
    }
    SameGameFollows(s, r.(phase := Shop));
  }

  lemma OwnTeam(rules: Rules, s: Run, id: string)
    requires Core(rules, s) && id in s.players
    ensures s.players[id].team < |s.teams|
  {
  }

  /** The character select's end: the shop opens later than now, or the bots' Arena is played out. */
  lemma SelectedSound(setup: Setup, s: Run, m: Run, chance: Chance, now: int)
    requires OpenReady(setup, m) && Ready(setup) && Fair(chance) && 0 <= now && EveryoneIn(m)
    requires s.phase == m.phase == CharacterSelect && m.round == s.round && Follows(s, m, [])
    ensures var r := EndCharacterSelect(setup, m, chance, now); Moved(s, r, now)
  {
    hide OpenReady, Follows, OpenShop, BotsPicked, Ready;
    BotsPickedFollows(setup, m, chance);
    var m1 := BotsPicked(setup, m, chance);
    OpenShopSound(setup, m1, chance, now);
    QuietTrans(s, m, m1.(phase := Shop));
    SoundStep(s, m1.(phase := Shop), OpenShop(setup, m1, chance, now), now);
    SoundClock(m1.(phase := Shop), OpenShop(setup, m1, chance, now), now);
  }

  /** A step that ends a phase: told and launched right, a later phase, whose deadline (if any) is ahead. */
  ghost predicate Moved(s: Run, r: (Run, seq<Effect>), now: int) {
    CallSound(s, (r.0, Step(true, r.1))) && Clock(s) < Clock(r.0) && (r.0.deadlineMs == 0 || now < r.0.deadlineMs)
  }

  lemma SoundMoved(s: Run, m: Run, r: (Run, seq<Effect>), now: int)
    requires Follows(s, m, []) && m.round == s.round && Sound(m, r.0, r.1, now) && Clock(m) < Clock(r.0)
    ensures Moved(s, r, now)
  {
    SoundStep(s, m, r, now);
  }

  lemma InvParts(setup: Setup, s: Run)
    requires Inv(setup, s)
    ensures Ready(setup) && Core(setup.rules, s) && (s.phase == CharacterSelect ==> EveryoneIn(s))
    ensures forall id | id in s.players :: s.players[id].team < |s.teams|
  {
  }

  lemma AfterPickSound(setup: Setup, s: Run, id: string, player: Player, chance: Chance, now: int)
    requires Inv(setup, s) && MayPick(s, id) && Fair(chance) && 0 <= now
    requires player == s.players[id].(pool := player.pool, coins := player.coins, character := player.character,
                                      skin := player.skin, randomPick := player.randomPick)
    requires 0 <= player.coins && (player.character.None? ==> player.pool != [])
    ensures var m := Updated(s, id, player);
      Inv(setup, m) && OpenReady(setup, m) && Follows(s, m, []) && CallSound(s, AfterPick(setup, m, chance, now))
  {
    hide Inv, OpenReady, Follows, EndCharacterSelect, Core;
    InvParts(setup, s);
    PickKeeps(setup, s, id, player);
    UpdatedFollows(s, id, player);
    var m := Updated(s, id, player);
    if AllPicked(m) { SelectedSound(setup, s, m, chance, now); } else { SoundQuiet(s, m); }
  }

  lemma RerollSound(setup: Setup, s: Run, id: string, chance: Chance)
    requires Inv(setup, s) && Fair(chance)
    ensures CallSound(s, RerollCharacters(setup, s, id, chance))
  {
    hide Inv, OpenReady, Fair, Follows, Core;
    if !MayPick(s, id) || s.players[id].coins < setup.rules.characterRerollCost { RefusedSound(s); } else {
      InvParts(setup, s);
      PoolFilled(setup, s, id);
      var player :=
        s.players[id].(coins := s.players[id].coins - setup.rules.characterRerollCost,
        pool := Offer(setup, id, chance));
      UpdatedFollows(s, id, player);
      SoundQuiet(s, Updated(s, id, player));
    }
  }

  lemma SelectSound(setup: Setup, s: Run, id: string, character: Option<string>, skin: Option<string>,
    chooseRandom: bool, chance: Chance, now: int)
    requires Inv(setup, s) && Fair(chance) && 0 <= now
    ensures CallSound(s, Select(setup, s, id, character, skin, chooseRandom, chance, now))
  {
    hide Inv, OpenReady, Follows, AfterPick, CallSound;
    if !MayPick(s, id) { RefusedSound(s); } else {
      PoolFilled(setup, s, id);
      if chooseRandom {
        var player := Drawn(setup, s.players[id], id, chance)
          .(coins := s.players[id].coins + setup.rules.randomCharacterBonus, randomPick := true);
        AfterPickSound(setup, s, id, player, chance, now);
      } else if character.Some? && character.value in s.players[id].pool {
        AfterPickSound(setup, s, id, Picked(setup, s.players[id], character.value, skin), chance, now);
      } else { RefusedSound(s); }
    }
  }

  lemma SelectAbsentSound(setup: Setup, s: Run, id: string, chance: Chance, now: int)
    requires Inv(setup, s) && Fair(chance) && 0 <= now
    ensures CallSound(s, SelectAbsent(setup, s, id, chance, now))
  {
    hide Inv, OpenReady, Follows, AfterPick, CallSound;
    if !MayPick(s, id) { RefusedSound(s); } else {
      PoolFilled(setup, s, id);
      AfterPickSound(setup, s, id, Drawn(setup, s.players[id], id, chance), chance, now);
    }
  }

  // ---- The shop ----

  /** A player whose shop is still open is in: no one else's call is taken. */
  lemma CloserIn(setup: Setup, s: Run, id: string, round: int)
    requires Inv(setup, s) && MayClose(s, id, round)
    ensures TeamIn(s, s.players[id].team)
  {
    hide Core, Ready;
    assert PlayerOk(setup, s, s.players[id]);
  }

  lemma AfterShopSound(setup: Setup, s: Run, id: string, round: int, player: Player, bots: BotMatches, chance: Chance,
    now: int)
    requires Inv(setup, s) && MayClose(s, id, round) && Fair(chance) && 0 <= now
    requires player == s.players[id].(coins := player.coins, inventory := player.inventory, shopDone := true)
    requires 0 <= player.coins && Stocked(setup, player.inventory)
    ensures var m := Updated(s, id, player); ShopOpen(setup, m) && CallSound(s, AfterShop(setup, m, bots, chance, now))
  {
    hide Inv, ShopOpen, ShopReady, Follows, EndShop;
    CloseKeeps(setup, s, id, round, player);
    CloserIn(setup, s, id, round);
    UpdatedFollows(s, id, player);
    var m := Updated(s, id, player);
    AllShopsReady(setup, m);
    if AllShopsDone(m) {
      EndShopSound(setup, m, bots, chance, now);
      SoundStep(s, m, EndShop(setup, m, bots, chance, now), now);
    } else { SoundQuiet(s, m); }
  }

  lemma ShopClosedSound(setup: Setup, s: Run, id: string, round: int, rerolls: int, ts: seq<Transaction>,
                        bots: BotMatches, chance: Chance, now: int)
    requires Inv(setup, s) && Fair(chance) && 0 <= now
    ensures CallSound(s, ShopClosed(setup, s, id, round, rerolls, ts, bots, chance, now))
  {
    hide Inv, ShopOpen, Stocked, Ready, AfterShop, CallSound;
    if !MayClose(s, id, round) { RefusedSound(s); } else {
      Shopper(setup, s, id);
      SettledOnly(setup, s.players[id], rerolls, ts);
      AfterShopSound(setup, s, id, round, Settled(setup, s.players[id], rerolls, ts), bots, chance, now);
    }
  }

  lemma ShopAbsentSound(setup: Setup, s: Run, id: string, round: int, bots: BotMatches, chance: Chance, now: int)
    requires Inv(setup, s) && Fair(chance) && 0 <= now
    ensures CallSound(s, ShopAbsent(setup, s, id, round, bots, chance, now))
  {
    hide Inv, ShopOpen, Stocked, Ready, AfterShop, CallSound;
    if !MayClose(s, id, round) { RefusedSound(s); } else {
      Shopper(setup, s, id);
      AfterShopSound(setup, s, id, round, s.players[id].(shopDone := true), bots, chance, now);
    }
  }

  // ---- A match's end, and checking in ----

  lemma MatchResultSound(setup: Setup, s: Run, id: MatchId, side: Option<int>, connected: set<string>, chance: Chance,
    now: int)
    requires Inv(setup, s) && Fair(chance) && 0 <= now
    ensures CallSound(s, MatchResult(setup, s, id, side, connected, chance, now))
  {
    hide Inv, RoundReady, Settle, Spares, WinnerBy, Follows, EndRound;
    if !MayEnd(s, id, side) { RefusedSound(s); } else {
      ResultKeeps(setup, s, id, side, connected);
      var m := Settle(setup.rules, s, FindMatch(s.pairings, id, 0), side, connected);
      AdvancesFollow(s, m);
      if m.phase == Match && AllDecided(m) {
        EndRoundSound(setup, m, chance, now);
        SoundStep(s, m, EndRound(setup, m, chance, now), now);
      } else { SoundQuiet(s, m); }
    }
  }

  lemma CheckinSound(setup: Setup, s: Run, id: string, round: int, chance: Chance, now: int)
    requires Inv(setup, s) && Fair(chance) && 0 <= now
    ensures CallSound(s, Checkin(setup, s, id, round, chance, now))
  {
    hide Inv, StartReady, Follows, StartRound;
    if !MayCheckIn(s, id, round) { RefusedSound(s); } else {
      CheckinKeeps(setup, s, id, round);
      var player := s.players[id].(checkedInRound := round);
      UpdatedFollows(s, id, player);
      var m := Updated(s, id, player);
      if m.phase == Results && AllCheckedIn(m) {
        StartRoundSound(setup, m, chance, now);
        SoundStep(s, m, StartRound(setup, m, chance, now), now);
      } else { SoundQuiet(s, m); }
    }
  }

  // ---- The deadline ----

  lemma AbsentFollows(setup: Setup, s: Run, chance: Chance)
    requires Inv(setup, s) && s.phase == CharacterSelect && Fair(chance)
    requires forall id | id in PlayersIn(s) && s.players[id].character.None? :: s.players[id].pool != []
    ensures var m := AbsentPicked(setup, s, chance);
      Follows(s, m, []) && EveryoneIn(m) && m.phase == s.phase && m.round == s.round
  {
    hide Core, Ready;
    AbsentPickedKeeps(setup, s, chance);
    SameGameFollows(s, AbsentPicked(setup, s, chance));
  }

  /** A taken Tick ends the phase; it is refused exactly before the deadline or once the run has ended. */
  lemma TickSound(setup: Setup, s: Run, bots: BotMatches, chance: Chance, now: int, connected: set<string>)
    requires Inv(setup, s) && Fair(chance) && 0 <= now
    ensures var r := Tick(setup, s, bots, chance, now, connected);
      if s.phase == Ended || now < s.deadlineMs then r == (s, REFUSED)
      else r.1.accepted && Moved(s, (r.0, r.1.effects), now)
  {
    hide Inv, OpenReady, ShopReady, RoundReady, StartReady, AbsentPicked, ShopsClosed, SettleOpen, Follows,
      EndCharacterSelect, EndShop, EndRound, StartRound, Core, Ready, CallSound;
    DeadlineOpen(setup, s);
    if s.phase == Ended || now < s.deadlineMs { return; }
    InvParts(setup, s);
    match s.phase
    case CharacterSelect =>
      AbsentPickedKeeps(setup, s, chance);
      AbsentFollows(setup, s, chance);
      SelectedSound(setup, s, AbsentPicked(setup, s, chance), chance, now);
    case Shop =>
      ShopsClosedKeeps(setup, s);
      ClosedFollows(s);
      EndShopSound(setup, ShopsClosed(s), bots, chance, now);
      SoundMoved(s, ShopsClosed(s), EndShop(setup, ShopsClosed(s), bots, chance, now), now);
    case Match =>
      UnreportedKeeps(setup, s, connected);
      var m := SettleOpen(setup.rules, s, connected, |s.pairings|);
      UnreportedFollows(s, m);
      EndRoundSound(setup, m, chance, now);
      SoundMoved(s, m, EndRound(setup, m, chance, now), now);
    case Results =>
      ResultsReady(setup, s);
      StartRoundSound(setup, s, chance, now);
      Stays(s);
      SoundMoved(s, s, StartRound(setup, s, chance, now), now);
    case Ended =>
  }

  lemma DeadlineOpen(setup: Setup, s: Run)
    requires Inv(setup, s)
    ensures s.deadlineMs >= 0 && (s.deadlineMs == 0 <==> s.phase == Ended)
  {
  }

  lemma ClosedFollows(s: Run)
    requires s.phase == Shop
    ensures Follows(s, ShopsClosed(s), []) && ShopsClosed(s).phase == s.phase && ShopsClosed(s).round == s.round
  {
    SameGameFollows(s, ShopsClosed(s));
  }

  lemma UnreportedFollows(s: Run, m: Run)
    requires Advances(s, m) && s.phase == Match
    ensures Follows(s, m, []) && m.phase == s.phase && m.round == s.round && Clock(m) == Clock(s)
  {
    AdvancesFollow(s, m);
  }

  lemma Stays(s: Run)
    requires s.phase != Ended
    ensures Follows(s, s, [])
  {
    SameGameFollows(s, s);
  }

  // ---- Any call ----

  /** Whatever is called, whoever calls it and however the draws fall. */
  lemma ApplySound(setup: Setup, s: Run, move: Move)
    requires Inv(setup, s) && Playing(move)
    ensures Inv(setup, Apply(setup, s, move).0) && CallSound(s, Apply(setup, s, move))
  {
    hide Inv, Fair, CallSound, RerollCharacters, Select, SelectAbsent, ShopClosed, ShopAbsent, MatchResult, Checkin,
      Tick;
    match move.call
    case RerollCall(id) => RerollSound(setup, s, id, move.chance);
    case SelectCall(id, character, skin, random) =>
      SelectSound(setup, s, id, character, skin, random, move.chance, move.now);
    case SelectAbsentCall(id) => SelectAbsentSound(setup, s, id, move.chance, move.now);
    case ShopClosedCall(id, round, rerolls, ts) =>
      ShopClosedSound(setup, s, id, round, rerolls, ts, move.bots, move.chance, move.now);
    case ShopAbsentCall(id, round) => ShopAbsentSound(setup, s, id, round, move.bots, move.chance, move.now);
    case MatchResultCall(id, side, connected) => MatchResultSound(setup, s, id, side, connected, move.chance, move.now);
    case CheckinCall(id, round) => CheckinSound(setup, s, id, round, move.chance, move.now);
    case TickCall(connected) =>
      TickSound(setup, s, move.bots, move.chance, move.now, connected);
      RefusedSound(s);
      TickedSound(s, Tick(setup, s, move.bots, move.chance, move.now, connected), move.now);
  }

  lemma TickedSound(s: Run, r: (Run, Step), now: int)
    requires CallSound(s, (s, REFUSED)) && (r == (s, REFUSED) || (r.1.accepted && Moved(s, (r.0, r.1.effects), now)))
    ensures CallSound(s, r)
  {
  }
}
