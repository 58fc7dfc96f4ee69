/** The calls a run takes (ArenaRun.cs, lines 249-421): each refused, or a transition that keeps the invariant. */
module ArenaCalls {
  import opened Options
  import opened ArenaRules
  import opened ArenaTypes
  import opened ArenaShop
  import opened ArenaSteps
  import opened ArenaInvariant
  import opened ArenaResults
  import opened ArenaRounds
  import opened ArenaTransitions

  function Updated(s: Run, id: string, player: Player): Run {
    s.(players := s.players[id := player])
  }

  predicate IsPlayer(s: Run, id: string) {
    id in s.players && !s.players[id].isBot
  }

  // ---- The character select ----

  predicate MayPick(s: Run, id: string) {
    s.phase == CharacterSelect && IsPlayer(s, id) && s.players[id].character.None?
  }

  lemma PickKeeps(setup: Setup, s: Run, id: string, player: Player)
    requires Inv(setup, s) && MayPick(s, id)
    requires player == s.players[id].(pool := player.pool, coins := player.coins, character := player.character,
                                      skin := player.skin, randomPick := player.randomPick)
    requires 0 <= player.coins && (player.character.None? ==> player.pool != [])
    ensures var r := Updated(s, id, player); Inv(setup, r) && OpenReady(setup, r)
  {
    hide Core, Ready;
    var r := Updated(s, id, player);
    SameGameCore(setup.rules, s, r);
    assert PlayerOk(setup, s, s.players[id]);
    forall x | x in r.players ensures PlayerOk(setup, r, r.players[x]) {
      assert PlayerOk(setup, s, s.players[x]);
    }
  }

  lemma BotsPickedKeeps(setup: Setup, s: Run, chance: Chance)
    requires OpenReady(setup, s) && Fair(chance)
    ensures Ready(setup) && OpenReady(setup, BotsPicked(setup, s, chance)) && SameGame(s, BotsPicked(setup, s, chance))
  {
    hide Core, Ready;
    var r := BotsPicked(setup, s, chance);
    SameGameCore(setup.rules, s, r);
    forall x | x in r.players ensures PlayerOk(setup, r, r.players[x]) {
      assert PlayerOk(setup, s, s.players[x]);
    }
  }

  /** Bots take a fighter, and the shop opens. */
  function EndCharacterSelect(setup: Setup, s: Run, chance: Chance, now: int): (r: (Run, seq<Effect>))
    requires OpenReady(setup, s) && Fair(chance) && 0 <= now
    ensures Inv(setup, r.0)
  {
    hide OpenReady, Inv, Ready;
    BotsPickedKeeps(setup, s, chance);
    OpenShop(setup, BotsPicked(setup, s, chance), chance, now)
  }

  function AfterPick(setup: Setup, s: Run, chance: Chance, now: int): (r: (Run, Step))
    requires Inv(setup, s) && OpenReady(setup, s) && Fair(chance) && 0 <= now
    ensures Inv(setup, r.0)
  {
    if AllPicked(s) then
      var r := EndCharacterSelect(setup, s, chance, now);
      (r.0, Step(true, r.1))
    else (s, Step(true, []))
  }

  lemma PoolFilled(setup: Setup, s: Run, id: string)
    requires Inv(setup, s) && MayPick(s, id)
    ensures s.players[id].pool != [] && 0 <= s.players[id].coins && Ready(setup)
      && 0 <= setup.rules.randomCharacterBonus
  {
    hide Core;
    assert PlayerOk(setup, s, s.players[id]);
  }

  function RerollCharacters(setup: Setup, s: Run, id: string, chance: Chance): (r: (Run, Step))
    requires Inv(setup, s) && Fair(chance)
    ensures Inv(setup, r.0)
  {
    hide Inv, OpenReady, Fair;
    if !MayPick(s, id) || s.players[id].coins < setup.rules.characterRerollCost then (s, REFUSED)
    else
      PoolFilled(setup, s, id);
      var player := s.players[id].(coins := s.players[id].coins - setup.rules.characterRerollCost,
                                   pool := Offer(setup, id, chance));
      PickKeeps(setup, s, id, player);
      (Updated(s, id, player), Step(true, []))
  }

  function Select(setup: Setup, s: Run, id: string, character: Option<string>, skin: Option<string>, chooseRandom: bool,
                  chance: Chance, now: int): (r: (Run, Step))
    requires Inv(setup, s) && Fair(chance) && 0 <= now
    ensures Inv(setup, r.0)
  {
    hide Inv, OpenReady;
    if !MayPick(s, id) then (s, REFUSED)
    else
      PoolFilled(setup, s, id);
      if chooseRandom then
        var player := Drawn(setup, s.players[id], id, chance)
          .(coins := s.players[id].coins + setup.rules.randomCharacterBonus, randomPick := true);
        PickKeeps(setup, s, id, player);
        AfterPick(setup, Updated(s, id, player), chance, now)
      else if character.Some? && character.value in s.players[id].pool then
        var player := Picked(setup, s.players[id], character.value, skin);
        PickKeeps(setup, s, id, player);
        AfterPick(setup, Updated(s, id, player), chance, now)
      else (s, REFUSED)
  }

  function SelectAbsent(setup: Setup, s: Run, id: string, chance: Chance, now: int): (r: (Run, Step))
    requires Inv(setup, s) && Fair(chance) && 0 <= now
    ensures Inv(setup, r.0)
  {
    hide Inv, OpenReady;
    if !MayPick(s, id) then (s, REFUSED)
    else
      PoolFilled(setup, s, id);
      var player := Drawn(setup, s.players[id], id, chance);
      PickKeeps(setup, s, id, player);
      AfterPick(setup, Updated(s, id, player), chance, now)
  }

  // ---- The shop ----

  predicate MayClose(s: Run, id: string, round: int) {
    s.phase == Shop && round == s.round && IsPlayer(s, id) && !s.players[id].shopDone
  }

  /** A run whose shop is open, but for what it waits for. */
  ghost predicate ShopOpen(setup: Setup, s: Run) {
    RoundOpen(setup, s) && BotsOpen(s) && s.phase == Shop && 0 < s.deadlineMs
  }

  lemma CloseKeeps(setup: Setup, s: Run, id: string, round: int, player: Player)
    requires Inv(setup, s) && MayClose(s, id, round)
    requires player == s.players[id].(coins := player.coins, inventory := player.inventory, shopDone := true)
    requires 0 <= player.coins && Stocked(setup, player.inventory)
    ensures ShopOpen(setup, Updated(s, id, player))
  {
    hide Core, Ready;
    var r := Updated(s, id, player);
    SameGameCore(setup.rules, s, r);
    assert PlayerOk(setup, s, s.players[id]);
    forall x | x in r.players ensures PlayerOk(setup, r, r.players[x]) {
      assert PlayerOk(setup, s, s.players[x]);
    }
  }

  lemma AllShopsReady(setup: Setup, s: Run)
    requires ShopOpen(setup, s)
    ensures if AllShopsDone(s) then ShopReady(setup, s) else Inv(setup, s)
  {
    hide Core, Ready;
    if AllShopsDone(s) {
      forall id | id in s.players && !s.players[id].isBot ensures s.players[id].shopDone {
        assert PlayerOk(setup, s, s.players[id]);
        if TeamIn(s, s.players[id].team) { assert id in PlayersIn(s); }
      }
    }
  }

  function AfterShop(setup: Setup, s: Run, bots: BotMatches, chance: Chance, now: int): (r: (Run, Step))
    requires ShopOpen(setup, s) && Fair(chance) && 0 <= now
    ensures Inv(setup, r.0)
  {
    hide ShopOpen, ShopReady, Inv;
    AllShopsReady(setup, s);
    if AllShopsDone(s) then
      var r := EndShop(setup, s, bots, chance, now);
      (r.0, Step(true, r.1))
    else (s, Step(true, []))
  }

  lemma Shopper(setup: Setup, s: Run, id: string)
    requires Inv(setup, s) && IsPlayer(s, id)
    ensures Ready(setup) && Stocked(setup, s.players[id].inventory) && 0 <= s.players[id].coins
  {
    hide Core, Ready;
    assert PlayerOk(setup, s, s.players[id]);
  }

  /** What closing their shop leaves a player: their rerolls paid, their transactions settled in order. */
  function Settled(setup: Setup, player: Player, rerolls: int, ts: seq<Transaction>): Player
    requires Ready(setup) && Stocked(setup, player.inventory)
  {
    TransactAll(setup, player.(coins := AfterRerolls(player.coins, rerolls, setup.rules.shopRerollCost)), ts)
      .(shopDone := true)
  }

  lemma SettledOnly(setup: Setup, player: Player, rerolls: int, ts: seq<Transaction>)
    requires Ready(setup) && Stocked(setup, player.inventory)
    ensures var r := Settled(setup, player, rerolls, ts);
      && r == player.(coins := r.coins, inventory := r.inventory, shopDone := true)
      && 0 <= r.coins && Stocked(setup, r.inventory)
  {
    NoListProfits(setup, player.(coins := AfterRerolls(player.coins, rerolls, setup.rules.shopRerollCost)), ts);
  }

  function ShopClosed(setup: Setup, s: Run, id: string, round: int, rerolls: int, ts: seq<Transaction>,
                      bots: BotMatches, chance: Chance, now: int): (r: (Run, Step))
    requires Inv(setup, s) && Fair(chance) && 0 <= now
    ensures Inv(setup, r.0)
  {
    hide Inv, ShopOpen, Stocked, Ready;
    if !MayClose(s, id, round) then (s, REFUSED)
    else
      Shopper(setup, s, id);
      SettledOnly(setup, s.players[id], rerolls, ts);
      var player := Settled(setup, s.players[id], rerolls, ts);
      CloseKeeps(setup, s, id, round, player);
      AfterShop(setup, Updated(s, id, player), bots, chance, now)
  }

  function ShopAbsent(setup: Setup, s: Run, id: string, round: int, bots: BotMatches, chance: Chance,
    now: int): (r: (Run, Step))
    requires Inv(setup, s) && Fair(chance) && 0 <= now
    ensures Inv(setup, r.0)
  {
    hide Inv, ShopOpen, Stocked, Ready;
    if !MayClose(s, id, round) then (s, REFUSED)
    else
      Shopper(setup, s, id);
      var player := s.players[id].(shopDone := true);
      CloseKeeps(setup, s, id, round, player);
      AfterShop(setup, Updated(s, id, player), bots, chance, now)
  }

  // ---- A match's end ----

  /** The pairing a match id names, or how many pairings there are. */
  function FindMatch(pairings: seq<Pairing>, id: MatchId, from: nat): (i: nat)
    requires from <= |pairings|
    ensures from <= i <= |pairings|
    ensures i < |pairings| ==> pairings[i].matchId == Some(id)
    ensures forall j | from <= j < i :: pairings[j].matchId != Some(id)
    decreases |pairings| - from
  {
    if from == |pairings| || pairings[from].matchId == Some(id) then from else FindMatch(pairings, id, from + 1)
  }

  predicate MayEnd(s: Run, id: MatchId, side: Option<int>) {
    && s.phase in {Shop, Match}
    && (var i := FindMatch(s.pairings, id, 0); i < |s.pairings| && s.pairings[i].winner.None?)
    && (side.Some? ==> side.value in {0, 1})
  }

  lemma ResultKeeps(setup: Setup, s: Run, id: MatchId, side: Option<int>, connected: set<string>)
    requires Inv(setup, s) && MayEnd(s, id, side)
    ensures Playable(setup.rules) && Seated(s)
    ensures var i := FindMatch(s.pairings, id, 0);
      var r := Settle(setup.rules, s, i, side, connected);
      && Advances(s, r) && Spares(s, r, i) && r.pairings[i].winner == Some(WinnerBy(s, i, side, connected))
      && (if r.phase == Match && AllDecided(r) then RoundReady(setup, r) else Inv(setup, r))
  {
    hide Core, Ready, Settle, WinnerBy;
    var i := FindMatch(s.pairings, id, 0);
    SettleKeeps(setup.rules, s, i, side, connected);
    var r := Settle(setup.rules, s, i, side, connected);
    MatchHasPlayer(setup.rules, s, i);
    ResultPlayers(setup, s, r);
    forall p | p in r.pairings && !p.hasPlayer ensures p in s.pairings {
      var j :| 0 <= j < |r.pairings| && r.pairings[j] == p;
      assert s.pairings[j] in s.pairings;
    }
  }

  lemma MatchHasPlayer(rules: Rules, s: Run, i: nat)
    requires Core(rules, s) && i < |s.pairings| && s.pairings[i].matchId.Some?
    ensures s.pairings[i].hasPlayer
  {
    assert PairingOk(s, i);
  }

  lemma ResultPlayers(setup: Setup, s: Run, r: Run)
    requires PlayersOk(setup, s) && SameBoard(s, r)
    ensures PlayersOk(setup, r) && (AllPlaying(s) ==> AllPlaying(r)) && PlayersIn(r) == PlayersIn(s)
    ensures (ShopsDone(s) ==> ShopsDone(r)) && (AllShopsDone(r) <==> AllShopsDone(s))
  {
    forall id | id in r.players ensures PlayerOk(setup, r, r.players[id]) {
      assert PlayerOk(setup, s, s.players[id]);
    }
  }

  function MatchResult(setup: Setup, s: Run, id: MatchId, side: Option<int>, connected: set<string>, chance: Chance,
    now: int)
    : (r: (Run, Step))
    requires Inv(setup, s) && Fair(chance) && 0 <= now
    ensures Inv(setup, r.0)
  {
    hide Inv, RoundReady, Settle, Advances, Spares, WinnerBy;
    if !MayEnd(s, id, side) then (s, REFUSED)
    else
      ResultKeeps(setup, s, id, side, connected);
      var s1 := Settle(setup.rules, s, FindMatch(s.pairings, id, 0), side, connected);
      if s1.phase == Match && AllDecided(s1) then
        var r := EndRound(setup, s1, chance, now);
        (r.0, Step(true, r.1))
      else (s1, Step(true, []))
  }

  // ---- Checking in ----

  predicate MayCheckIn(s: Run, id: string, round: int) {
    s.phase in {Shop, Match, Results} && round == s.round && IsPlayer(s, id)
    && TeamIn(s, s.players[id].team) && s.players[id].checkedInRound != round
  }

  lemma CheckinKeeps(setup: Setup, s: Run, id: string, round: int)
    requires Inv(setup, s) && MayCheckIn(s, id, round)
    ensures var r := Updated(s, id, s.players[id].(checkedInRound := round));
      && SameGame(s, r)
      && (if r.phase == Results && AllCheckedIn(r) then StartReady(setup, r) else Inv(setup, r))
  {
    hide Core, Ready, Stocked;
    var r := Updated(s, id, s.players[id].(checkedInRound := round));
    SameGameCore(setup.rules, s, r);
    SameGamePlayers(s, r);
    forall x | x in r.players ensures PlayerOk(setup, r, r.players[x]) {
      assert PlayerOk(setup, s, s.players[x]);
    }
    if s.phase == Shop {
      var x :| x in PlayersIn(s) && !s.players[x].shopDone;
      assert x in PlayersIn(r) && !r.players[x].shopDone;
    }
  }

  function Checkin(setup: Setup, s: Run, id: string, round: int, chance: Chance, now: int): (r: (Run, Step))
    requires Inv(setup, s) && Fair(chance) && 0 <= now
    ensures Inv(setup, r.0)
  {
    hide Inv, StartReady;
    if !MayCheckIn(s, id, round) then (s, REFUSED)
    else
      CheckinKeeps(setup, s, id, round);
      var s1 := Updated(s, id, s.players[id].(checkedInRound := round));
      if s1.phase == Results && AllCheckedIn(s1) then
        var r := StartRound(setup, s1, chance, now);
        (r.0, Step(true, r.1))
      else (s1, Step(true, []))
  }

  // ---- The deadline ----

  lemma AbsentPickedKeeps(setup: Setup, s: Run, chance: Chance)
    requires Inv(setup, s) && s.phase == CharacterSelect && Fair(chance)
    ensures forall id | id in PlayersIn(s) && s.players[id].character.None? :: s.players[id].pool != []
    ensures OpenReady(setup, AbsentPicked(setup, s, chance)) && SameGame(s, AbsentPicked(setup, s, chance))
  {
    hide Core, Ready, Stocked;
    var r := AbsentPicked(setup, s, chance);
    SameGameCore(setup.rules, s, r);
    forall x | x in r.players ensures PlayerOk(setup, r, r.players[x]) {
      assert PlayerOk(setup, s, s.players[x]);
    }
  }

  lemma ShopsClosedKeeps(setup: Setup, s: Run)
    requires Inv(setup, s) && s.phase == Shop
    ensures ShopReady(setup, ShopsClosed(s)) && SameGame(s, ShopsClosed(s))
  {
    hide Core, Ready;
    var r := ShopsClosed(s);
    SameGameCore(setup.rules, s, r);
    forall x | x in r.players ensures PlayerOk(setup, r, r.players[x]) {
      assert PlayerOk(setup, s, s.players[x]);
    }
    forall x | x in r.players && !r.players[x].isBot ensures r.players[x].shopDone {
      assert PlayerOk(setup, s, s.players[x]);
    }
  }

  lemma UnreportedKeeps(setup: Setup, s: Run, connected: set<string>)
    requires Inv(setup, s) && s.phase == Match
    ensures Playable(setup.rules) && Seated(s)
    ensures var r := SettleOpen(setup.rules, s, connected, |s.pairings|); RoundReady(setup, r) && Advances(s, r)
  {
    hide Core, Ready, SettleOpen;
    SettleOpenKeeps(setup.rules, s, connected, |s.pairings|);
    ResultPlayers(setup, s, SettleOpen(setup.rules, s, connected, |s.pairings|));
  }

  lemma ResultsReady(setup: Setup, s: Run)
    requires Inv(setup, s) && s.phase == Results
    ensures StartReady(setup, s)
  {
    hide Core, Ready;
  }

  function Accepted(r: (Run, seq<Effect>)): (Run, Step) {
    (r.0, Step(true, r.1))
  }

  function Tick(setup: Setup, s: Run, bots: BotMatches, chance: Chance, now: int,
    connected: set<string>): (r: (Run, Step))
    requires Inv(setup, s) && Fair(chance) && 0 <= now
    ensures Inv(setup, r.0)
  {
    hide Inv, OpenReady, ShopReady, RoundReady, StartReady, AbsentPicked, ShopsClosed, SettleOpen, Advances;
    if s.deadlineMs == 0 || now < s.deadlineMs then (s, REFUSED)
    else
      match s.phase
      case CharacterSelect =>
        AbsentPickedKeeps(setup, s, chance);
        Accepted(EndCharacterSelect(setup, AbsentPicked(setup, s, chance), chance, now))
      case Shop =>
        ShopsClosedKeeps(setup, s);
        Accepted(EndShop(setup, ShopsClosed(s), bots, chance, now))
      case Match =>
        UnreportedKeeps(setup, s, connected);
        Accepted(EndRound(setup, SettleOpen(setup.rules, s, connected, |s.pairings|), chance, now))
      case Results =>
        ResultsReady(setup, s);
        Accepted(StartRound(setup, s, chance, now))
      case Ended => (s, REFUSED)
  }

  // ---- A call, whichever it is ----

  datatype Call =
    | RerollCall(id: string)
    | SelectCall(id: string, character: Option<string>, skin: Option<string>, chooseRandom: bool)
    | SelectAbsentCall(id: string)
    | ShopClosedCall(id: string, round: int, rerolls: int, transactions: seq<Transaction>)
    | ShopAbsentCall(id: string, round: int)
    | MatchResultCall(matchId: MatchId, side: Option<int>, connected: set<string>)
    | CheckinCall(id: string, round: int)
    | TickCall(connected: set<string>)

  /** A call with its time and its draws. */
  datatype Move = Move(call: Call, bots: BotMatches, chance: Chance, now: int)

  ghost predicate Playing(move: Move) {
    Fair(move.chance) && 0 <= move.now
  }

  function Apply(setup: Setup, s: Run, move: Move): (r: (Run, Step))
    requires Inv(setup, s) && Playing(move)
    ensures Inv(setup, r.0)
  {
    hide Inv, Fair;
    match move.call
    case RerollCall(id) => RerollCharacters(setup, s, id, move.chance)
    case SelectCall(id, character, skin, random) => Select(setup, s, id, character, skin, random, move.chance, move.now)
    case SelectAbsentCall(id) => SelectAbsent(setup, s, id, move.chance, move.now)
    case ShopClosedCall(id, round, rerolls, ts) =>
      ShopClosed(setup, s, id, round, rerolls, ts, move.bots, move.chance, move.now)
    case ShopAbsentCall(id, round) => ShopAbsent(setup, s, id, round, move.bots, move.chance, move.now)
    case MatchResultCall(id, side, connected) => MatchResult(setup, s, id, side, connected, move.chance, move.now)
    case CheckinCall(id, round) => Checkin(setup, s, id, round, move.chance, move.now)
    case TickCall(connected) => Tick(setup, s, move.bots, move.chance, move.now, connected)
  }
}
