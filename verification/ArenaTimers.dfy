/**
 * The deadlines of whole runs (ArenaRun.cs, lines 218-246 and 440-577): a call that stays in its phase leaves the
 * deadline alone, and one that moves on sets the new phase's own; and a run's start, whose character select always
 * waits for someone.
 */
module ArenaTimers {
  import opened Options
  import opened ArenaRules
  import opened ArenaTypes
  import opened ArenaShop
  import opened ArenaSteps
  import opened ArenaInvariant
  import opened ArenaTransitions
  import opened ArenaCalls
  import opened ArenaProgress
  import opened ArenaWholeRun
  import Money = ArenaMoney
  import opened ArenaPhases
  import Picks = ArenaPicks
  import opened ArenaVerdicts

  // ---- Every call ----

  ghost predicate Timed(rules: Rules, s: Run, r: (Run, Step), now: int) {
    if r.0.round == s.round && r.0.phase == s.phase
    then r.0.deadlineMs == s.deadlineMs && SendPhaseConfigs !in r.1.effects
    else Entered(rules, (r.0, r.1.effects), now)
  }

  lemma Stays(rules: Rules, s: Run, r: (Run, Step), now: int)
    requires r.0 == s.(players := r.0.players, teams := r.0.teams, pairings := r.0.pairings) && r.1.effects == []
    ensures Timed(rules, s, r, now)
  {
  }

  lemma MovesOn(rules: Rules, s: Run, m: Run, r: (Run, Step), now: int)
    requires Clock(s) <= Clock(m) < Clock(r.0) && Entered(rules, (r.0, r.1.effects), now)
    ensures Timed(rules, s, r, now)
  {
  }

  lemma SelectOver(setup: Setup, s: Run, chance: Chance, now: int)
    requires OpenReady(setup, s) && Fair(chance) && 0 <= now
    ensures Entered(setup.rules, EndCharacterSelect(setup, s, chance, now), now)
  {
    hide OpenReady, Fair, BotsPicked, Entered, OpenShop, Ready, Inv;
    BotsPickedKeeps(setup, s, chance);
    OpenShopEnters(setup, BotsPicked(setup, s, chance), chance, now);
  }

  lemma PickTimed(setup: Setup, s: Run, id: string, player: Player, chance: Chance, now: int)
    requires Inv(setup, s) && MayPick(s, id) && Fair(chance) && 0 <= now
    requires player == s.players[id].(pool := player.pool, coins := player.coins, character := player.character,
                                      skin := player.skin, randomPick := player.randomPick)
    requires 0 <= player.coins && (player.character.None? ==> player.pool != [])
    ensures var m := Updated(s, id, player);
      Inv(setup, m) && OpenReady(setup, m) && Timed(setup.rules, s, AfterPick(setup, m, chance, now), now)
  {
    hide Inv, OpenReady, Fair, EndCharacterSelect, AllPicked;
    PickKeeps(setup, s, id, player);
    var m := Updated(s, id, player);
    if AllPicked(m) { SelectOver(setup, m, chance, now); }
  }

  lemma ShopOver(setup: Setup, s: Run, m: Run, bots: BotMatches, chance: Chance, now: int)
    requires ShopReady(setup, m) && Fair(chance) && 0 <= now && m == s.(players := m.players) && s.phase == Shop
    ensures Timed(setup.rules, s, Accepted(EndShop(setup, m, bots, chance, now)), now)
  {
    hide ShopReady, Inv, EndShop, Fair, Sound, Entered;
    EndShopSound(setup, m, bots, chance, now);
    EndShopEnters(setup, m, bots, chance, now);
    MovesOn(setup.rules, s, m, Accepted(EndShop(setup, m, bots, chance, now)), now);
  }

  lemma CloseTimed(setup: Setup, s: Run, id: string, round: int, player: Player, bots: BotMatches, chance: Chance,
    now: int)
    requires Inv(setup, s) && MayClose(s, id, round) && Fair(chance) && 0 <= now
    requires player == s.players[id].(coins := player.coins, inventory := player.inventory, shopDone := true)
    requires 0 <= player.coins && Stocked(setup, player.inventory)
    ensures ShopOpen(setup, Updated(s, id, player))
    ensures Timed(setup.rules, s, AfterShop(setup, Updated(s, id, player), bots, chance, now), now)
  {
    hide Inv, ShopOpen, ShopReady, EndShop, Fair, AllShopsDone, Stocked, Timed;
    CloseKeeps(setup, s, id, round, player);
    var m := Updated(s, id, player);
    AllShopsReady(setup, m);
    if AllShopsDone(m) {
      ShopOver(setup, s, m, bots, chance, now);
    } else {
      Stays(setup.rules, s, AfterShop(setup, m, bots, chance, now), now);
    }
  }

  lemma RoundOver(setup: Setup, s: Run, m: Run, chance: Chance, now: int)
    requires RoundReady(setup, m) && Fair(chance) && 0 <= now && m.phase == s.phase == Match && m.round == s.round
    ensures Timed(setup.rules, s, Accepted(EndRound(setup, m, chance, now)), now)
  {
    hide RoundReady, Inv, EndRound, Fair, Sound, Entered;
    EndRoundSound(setup, m, chance, now);
    EndRoundEnters(setup, m, chance, now);
    MovesOn(setup.rules, s, m, Accepted(EndRound(setup, m, chance, now)), now);
  }

  lemma RoundNext(setup: Setup, s: Run, m: Run, chance: Chance, now: int)
    requires StartReady(setup, m) && Fair(chance) && 0 <= now && m.phase == s.phase == Results && m.round == s.round
    ensures Timed(setup.rules, s, Accepted(StartRound(setup, m, chance, now)), now)
  {
    hide StartReady, Inv, StartRound, Fair, Sound, Entered;
    StartRoundSound(setup, m, chance, now);
    StartRoundEnters(setup, m, chance, now);
    MovesOn(setup.rules, s, m, Accepted(StartRound(setup, m, chance, now)), now);
  }

  lemma SelectTimed(setup: Setup, s: Run, id: string, character: Option<string>, skin: Option<string>, random: bool,
                    chance: Chance, now: int)
    requires Inv(setup, s) && Fair(chance) && 0 <= now
    ensures Timed(setup.rules, s, Select(setup, s, id, character, skin, random, chance, now), now)
  {
    hide Inv, OpenReady, AfterPick, Timed;
    Stays(setup.rules, s, (s, REFUSED), now);
    if MayPick(s, id) {
      PoolFilled(setup, s, id);
      if random {
        PickTimed(setup, s, id, Drawn(setup, s.players[id], id, chance)
          .(coins := s.players[id].coins + setup.rules.randomCharacterBonus, randomPick := true), chance, now);
      } else if character.Some? && character.value in s.players[id].pool {
        PickTimed(setup, s, id, Picked(setup, s.players[id], character.value, skin), chance, now);
      }
    }
  }

  lemma AbsentTimed(setup: Setup, s: Run, id: string, chance: Chance, now: int)
    requires Inv(setup, s) && Fair(chance) && 0 <= now
    ensures Timed(setup.rules, s, SelectAbsent(setup, s, id, chance, now), now)
  {
    hide Inv, OpenReady, AfterPick, Timed;
    Stays(setup.rules, s, (s, REFUSED), now);
    if MayPick(s, id) {
      PoolFilled(setup, s, id);
      PickTimed(setup, s, id, Drawn(setup, s.players[id], id, chance), chance, now);
    }
  }

  lemma RerollTimed(setup: Setup, s: Run, id: string, chance: Chance, now: int)
    requires Inv(setup, s) && Fair(chance)
    ensures Timed(setup.rules, s, RerollCharacters(setup, s, id, chance), now)
  {
    hide Inv, OpenReady, Timed, Offer;
    Stays(setup.rules, s, RerollCharacters(setup, s, id, chance), now);
  }

  lemma ShopTimed(setup: Setup, s: Run, id: string, round: int, rerolls: int, ts: seq<Transaction>, bots: BotMatches,
                  chance: Chance, now: int)
    requires Inv(setup, s) && Fair(chance) && 0 <= now
    ensures Timed(setup.rules, s, ShopClosed(setup, s, id, round, rerolls, ts, bots, chance, now), now)
    ensures Timed(setup.rules, s, ShopAbsent(setup, s, id, round, bots, chance, now), now)
  {
    hide Inv, ShopOpen, Stocked, Ready, AfterShop, Settled, Timed;
    Stays(setup.rules, s, (s, REFUSED), now);
    if MayClose(s, id, round) {
      Shopper(setup, s, id);
      SettledOnly(setup, s.players[id], rerolls, ts);
      CloseTimed(setup, s, id, round, Settled(setup, s.players[id], rerolls, ts), bots, chance, now);
      CloseTimed(setup, s, id, round, s.players[id].(shopDone := true), bots, chance, now);
    }
  }

  lemma ResultTimed(setup: Setup, s: Run, id: MatchId, side: Option<int>, connected: set<string>, chance: Chance,
    now: int)
    requires Inv(setup, s) && Fair(chance) && 0 <= now
    ensures Timed(setup.rules, s, MatchResult(setup, s, id, side, connected, chance, now), now)
  {
    hide Inv, RoundReady, Settle, EndRound, WinnerBy, Fair, Timed;
    Stays(setup.rules, s, (s, REFUSED), now);
    if MayEnd(s, id, side) {
      ResultKeeps(setup, s, id, side, connected);
      var m := Settle(setup.rules, s, FindMatch(s.pairings, id, 0), side, connected);
      if m.phase == Match && AllDecided(m) { RoundOver(setup, s, m, chance, now); }
      else { Stays(setup.rules, s, (m, Step(true, [])), now); }
    }
  }

  lemma CheckinTimed(setup: Setup, s: Run, id: string, round: int, chance: Chance, now: int)
    requires Inv(setup, s) && Fair(chance) && 0 <= now
    ensures Timed(setup.rules, s, Checkin(setup, s, id, round, chance, now), now)
  {
    hide Inv, StartReady, StartRound, Fair, AllCheckedIn, Timed;
    Stays(setup.rules, s, (s, REFUSED), now);
    if MayCheckIn(s, id, round) {
      CheckinKeeps(setup, s, id, round);
      var m := Updated(s, id, s.players[id].(checkedInRound := round));
      if m.phase == Results && AllCheckedIn(m) { RoundNext(setup, s, m, chance, now); }
      else { Stays(setup.rules, s, (m, Step(true, [])), now); }
    }
  }

  lemma TickTimed(setup: Setup, s: Run, bots: BotMatches, chance: Chance, now: int, connected: set<string>)
    requires Inv(setup, s) && Fair(chance) && 0 <= now
    ensures Timed(setup.rules, s, Tick(setup, s, bots, chance, now, connected), now)
  {
    hide Inv, OpenReady, ShopReady, RoundReady, StartReady, AbsentPicked, SettleOpen, EndCharacterSelect, EndShop,
      EndRound,
      StartRound, Timed, Fair, Advances, Entered;
    Stays(setup.rules, s, (s, REFUSED), now);
    if s.deadlineMs != 0 && s.deadlineMs <= now {
      match s.phase
      case CharacterSelect =>
        AbsentPickedKeeps(setup, s, chance);
        SelectOver(setup, AbsentPicked(setup, s, chance), chance, now);
        LeftSelect(setup.rules, s, Accepted(EndCharacterSelect(setup, AbsentPicked(setup, s, chance), chance, now)),
          now);
      case Shop =>
        ShopsClosedKeeps(setup, s);
        ShopOver(setup, s, ShopsClosed(s), bots, chance, now);
      case Match =>
        UnreportedKeeps(setup, s, connected);
        StillMatch(s, SettleOpen(setup.rules, s, connected, |s.pairings|));
        RoundOver(setup, s, SettleOpen(setup.rules, s, connected, |s.pairings|), chance, now);
      case Results =>
        ResultsReady(setup, s);
        RoundNext(setup, s, s, chance, now);
      case Ended =>
    }
  }

  lemma LeftSelect(rules: Rules, s: Run, r: (Run, Step), now: int)
    requires s.phase == CharacterSelect && Entered(rules, (r.0, r.1.effects), now)
    ensures Timed(rules, s, r, now)
  {
  }

  lemma StillMatch(s: Run, m: Run)
    requires Advances(s, m)
    ensures m.phase == s.phase && m.round == s.round
  {
  }

  /**
   * Whatever is called: while the round and the phase stay, the deadline stays, and no configs are sent; when they
   * change, the deadline is the new phase's own, from now, and the configs are sent exactly if the phase has something
   * to play.
   */
  lemma ApplyTimed(setup: Setup, s: Run, move: Move)
    requires Inv(setup, s) && Playing(move)
    ensures Timed(setup.rules, s, Apply(setup, s, move), move.now)
  {
    hide Inv, Fair, Timed, RerollCharacters, Select, SelectAbsent, ShopClosed, ShopAbsent, MatchResult, Checkin, Tick;
    match move.call
    case RerollCall(id) => RerollTimed(setup, s, id, move.chance, move.now);
    case SelectCall(id, character, skin, random) =>
      SelectTimed(setup, s, id, character, skin, random, move.chance, move.now);
    case SelectAbsentCall(id) => AbsentTimed(setup, s, id, move.chance, move.now);
    case ShopClosedCall(id, round, rerolls, ts) =>
      ShopTimed(setup, s, id, round, rerolls, ts, move.bots, move.chance, move.now);
    case ShopAbsentCall(id, round) => ShopTimed(setup, s, id, round, 0, [], move.bots, move.chance, move.now);
    case MatchResultCall(id, side, connected) =>
      ResultTimed(setup, s, id, side, connected, move.chance, move.now);
    case CheckinCall(id, round) => CheckinTimed(setup, s, id, round, move.chance, move.now);
    case TickCall(connected) => TickTimed(setup, s, move.bots, move.chance, move.now, connected);
  }

  // ---- The start ----

  /** A participant as the rules start them: no fighter or item yet, and fighters of the roster to pick from. */
  ghost predicate Starts(setup: Setup, place: Place, t: int, player: Player) {
    && player.isBot == place.isBot && player.team == t
    && player.coins == (if place.isBot then 0 else setup.rules.startingCoins)
    && player.character.None? && player.skin.None? && !player.randomPick && !player.shopDone
      && player.checkedInRound == 0
    && player.shopPages == [] && |player.inventory| == setup.rules.maxItemsInInventory
    && (forall i | 0 <= i < |player.inventory| :: player.inventory[i] == OwnedItem("", 0, 0, 0))
    && (if place.isBot then player.pool == []
        else |player.pool| == Min(setup.rules.selectableCount, |setup.roster|)
             && forall x | x in player.pool :: exists i :: 0 <= i < |setup.roster| && setup.roster[i].character == x)
  }

  lemma NewStarts(setup: Setup, place: Place, t: nat, chance: Chance)
    requires Ready(setup) && Fair(chance)
    ensures Starts(setup, place, t, NewPlayer(setup, place, t, chance))
  {
    hide Ready, Fair, Offer;
    Money.OffersFighters(setup, place.id, chance);
  }

  /** A team as the rules start it: its members in their seats' order, full health, and no result. */
  ghost predicate TeamStarts(setup: Setup, places: seq<Place>, team: Team) {
    && |team.members| == |places| && (forall i | 0 <= i < |places| :: team.members[i] == places[i].id)
    && team == Team(team.members, setup.rules.startingLife, 0, 0, 0, 0, team.opponents, 0)
  }

  /**
   * A run starts in round 1 with its character select open for its own time, every seat's participant and every team as
   * the rules start them, the teams paired along a shuffle of them; nobody else takes part.
   */
  lemma BegunLeaves(o: Opening)
    requires Opens(o)
    ensures var s := Begun(o.setup, o.teams, o.chance, o.now).0;
      && s.round == 1 && s.phase == CharacterSelect
      && s.deadlineMs == o.now + (o.setup.rules.characterSelectSeconds + o.setup.rules.graceSeconds) * 1000
      && |s.teams| == |o.teams| && (forall t | 0 <= t < |s.teams| :: TeamStarts(o.setup, o.teams[t], s.teams[t]))
      && (forall id, t, i | Seat(o.teams, id, t, i) ::
        id in s.players && Starts(o.setup, o.teams[t][i], t, s.players[id]))
      && (forall id | id in s.players :: HasSeat(o.teams, id))
      && PairedAlong(s, o.chance.order(1, InTeams(Unstarted(o).teams, |o.teams|)), s)
  {
    hide Cast, Ready, Fair, Enrol, NewPlayer, NewTeams, Starts, HasSeat, PairRound, InTeams, Launches, PairedAlong;
    var u, s := Unstarted(o), Begun(o.setup, o.teams, o.chance, o.now).0;
    SeatsStart(o);
    PairRoundAlong(u, o.chance);
    NewTeamsStart(o.setup, o.teams);
    PairRoundOnly(u, o.chance);
    AlongToo(u, o.chance.order(1, InTeams(u.teams, |u.teams|)), PairRound(u, o.chance), s);
  }

  lemma SeatsStart(o: Opening)
    requires Opens(o)
    ensures var players := Unstarted(o).players;
      && (forall id, t, i | Seat(o.teams, id, t, i) :: id in players && Starts(o.setup, o.teams[t][i], t, players[id]))
      && (forall id | id in players :: HasSeat(o.teams, id))
  {
    hide Cast, Ready, Fair, Enrol, NewPlayer, NewTeams, Starts, HasSeat;
    var players := Unstarted(o).players;
    EnrolOk(o.setup, o.teams, o.chance, players);
    forall id, t, i | Seat(o.teams, id, t, i) ensures id in players && Starts(o.setup, o.teams[t][i], t, players[id]) {
      NewStarts(o.setup, o.teams[t][i], t, o.chance);
    }
  }

  lemma NewTeamsStart(setup: Setup, teams: seq<seq<Place>>)
    ensures |NewTeams(setup, teams)| == |teams|
    ensures forall t | 0 <= t < |teams| :: TeamStarts(setup, teams[t], NewTeams(setup, teams)[t])
  {
  }

  lemma PairRoundOnly(s: Run, chance: Chance)
    ensures var r := PairRound(s, chance);
      && r == s.(teams := r.teams, pairings := r.pairings) && |r.teams| == |s.teams|
      && forall t | 0 <= t < |s.teams| :: r.teams[t] == s.teams[t].(opponents := r.teams[t].opponents)
  {
    hide PairingAt, InTeams;
  }

  lemma AlongToo(u: Run, order: seq<int>, m: Run, s: Run)
    requires PairedAlong(u, order, m) && s.pairings == m.pairings && s.players == u.players && |s.teams| == |u.teams|
    requires forall t | 0 <= t < |s.teams| :: s.teams[t] == u.teams[t].(opponents := s.teams[t].opponents)
    ensures PairedAlong(s, order, s)
  {
    forall t ensures HasPlayers(u, t) == HasPlayers(s, t) {}
  }

  // ---- The character select ----

  /** Someone is still to pick, unless only bots take part. */
  ghost predicate SelectWaits(s: Run) {
    s.phase == CharacterSelect ==>
      PlayersIn(s) == {} || exists id :: id in PlayersIn(s) && s.players[id].character.None?
  }

  /** Nothing returns to the character select. */
  lemma NotBack(setup: Setup, s: Run, move: Move)
    requires Inv(setup, s) && Playing(move) && Apply(setup, s, move).0.phase == CharacterSelect
    ensures s.phase == CharacterSelect && Apply(setup, s, move).0.round == s.round
  {
    hide Inv, Fair, Apply;
    ApplyTimed(setup, s, move);
  }

  lemma OthersWait(setup: Setup, s: Run, id: string, player: Player, r: Run, chance: Chance)
    requires Fair(chance) && setup.roster != [] && id in s.players
    requires Picks.PickLeaves(setup, s, id, player, r, chance) && r.phase == CharacterSelect
    requires player.isBot == s.players[id].isBot && player.team == s.players[id].team
    ensures SelectWaits(r)
  {
    var x :| x in PlayersIn(s) && x != id && s.players[x].character.None?;
    assert x in PlayersIn(r) && r.players[x].character.None?;
  }

  lemma RerollWaits(setup: Setup, s: Run, id: string, chance: Chance)
    requires Inv(setup, s) && Fair(chance) && SelectWaits(s)
    ensures SelectWaits(RerollCharacters(setup, s, id, chance).0)
  {
    hide Inv, OpenReady, Fair, Offer;
    var r := RerollCharacters(setup, s, id, chance).0;
    forall x ensures x in PlayersIn(r) <==> x in PlayersIn(s) {}
    if s.phase == CharacterSelect && PlayersIn(s) != {} {
      var x :| x in PlayersIn(s) && s.players[x].character.None?;
      assert x in PlayersIn(r);
    }
  }

  /** A call that stays in the character select leaves someone to pick. */
  lemma ApplyWaits(setup: Setup, s: Run, move: Move)
    requires Inv(setup, s) && Playing(move) && SelectWaits(s)
    ensures SelectWaits(Apply(setup, s, move).0)
  {
    hide Inv, Fair, SelectWaits, Picks.Wears, Picks.PickLeaves, RerollCharacters, Select, SelectAbsent;
    var r := Apply(setup, s, move).0;
    if r.phase != CharacterSelect { NotThere(r); return; }
    NotBack(setup, s, move);
    match move.call
    case RerollCall(id) => RerollWaits(setup, s, id, move.chance);
    case SelectCall(id, character, skin, random) =>
      var player := Picks.SelectLeaves(setup, s, id, character, skin, random, move.chance, move.now);
      if Select(setup, s, id, character, skin, random, move.chance, move.now).1.accepted {
        OthersWait(setup, s, id, player, r, move.chance);
      }
    case SelectAbsentCall(id) =>
      var player := Picks.SelectAbsentLeaves(setup, s, id, move.chance, move.now);
      if SelectAbsent(setup, s, id, move.chance, move.now).1.accepted {
        OthersWait(setup, s, id, player, r, move.chance);
      }
    case TickCall(connected) => TickWaits(setup, s, move.bots, move.chance, move.now, connected);
    case _ =>
  }

  lemma NotThere(s: Run)
    requires s.phase != CharacterSelect
    ensures SelectWaits(s)
  {
  }

  lemma TickWaits(setup: Setup, s: Run, bots: BotMatches, chance: Chance, now: int, connected: set<string>)
    requires Inv(setup, s) && Fair(chance) && 0 <= now && s.phase == CharacterSelect
    requires Tick(setup, s, bots, chance, now, connected).0.phase == CharacterSelect
    ensures Tick(setup, s, bots, chance, now, connected).0 == s
  {
    hide Inv, OpenReady, AbsentPicked, EndCharacterSelect, Fair;
    if s.deadlineMs != 0 && s.deadlineMs <= now {
      AbsentPickedKeeps(setup, s, chance);
      SelectOver(setup, AbsentPicked(setup, s, chance), chance, now);
    }
  }

  lemma {:induction false} PlayWaits(setup: Setup, s: Run, moves: seq<Move>)
    requires Inv(setup, s) && AllPlayable(moves) && SelectWaits(s)
    ensures SelectWaits(Play(setup, s, moves).0)
  {
    hide Inv, Apply, Playing, SelectWaits;
    if moves != [] {
      PlayWaits(setup, s, moves[..|moves| - 1]);
      ApplyWaits(setup, Play(setup, s, moves[..|moves| - 1]).0, moves[|moves| - 1]);
    }
  }

  /**
   * From the start, whatever is called: the character select is over as soon as every player has a fighter; one that
   * only bots take part in waits for its deadline.
   */
  lemma SelectAlwaysWaits(o: Opening, moves: seq<Move>)
    requires Opens(o) && AllPlayable(moves)
    ensures SelectWaits(Story(o, moves).0)
  {
    hide Inv, Play, Begun, SelectWaits, Cast, Ready, Fair, AllPlayable;
    BegunKeeps(o);
    NobodyPicked(o);
    PlayWaits(o.setup, Begun(o.setup, o.teams, o.chance, o.now).0, moves);
  }

  lemma NobodyPicked(o: Opening)
    requires Opens(o)
    ensures SelectWaits(Begun(o.setup, o.teams, o.chance, o.now).0)
  {
    hide Begun, SelectWaits, Starts, TeamStarts, PairedAlong, HasSeat, Cast, Ready, Fair;
    BegunLeaves(o);
    BegunWaits(o, Begun(o.setup, o.teams, o.chance, o.now).0);
  }

  lemma BegunWaits(o: Opening, s: Run)
    requires Opens(o)
    requires forall id, t, i | Seat(o.teams, id, t, i) ::
      id in s.players && Starts(o.setup, o.teams[t][i], t, s.players[id])
    requires forall id | id in s.players :: HasSeat(o.teams, id)
    ensures SelectWaits(s)
  {
    hide Opens, TeamIn;
    if PlayersIn(s) != {} {
      var id :| id in PlayersIn(s);
      assert HasSeat(o.teams, id);
      var t, i :| Seat(o.teams, id, t, i);
      assert Starts(o.setup, o.teams[t][i], t, s.players[id]);
    }
  }
}
