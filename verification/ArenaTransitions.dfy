/**
 * A run's transitions (ArenaRun.cs, lines 249-584), each as a function of the run. OpenShop, EndShop, EndRound and
 * StartRound call each other while no player is left in; they end because the round never passes the horizon.
 */
module ArenaTransitions {
  import opened Options
  import opened ArenaRules
  import opened ArenaTypes
  import opened ArenaShop
  import opened ArenaSteps
  import opened ArenaInvariant
  import opened ArenaResults
  import opened ArenaRounds
  import opened ArenaPairing

  // ---- What is true of a run between two calls ----

  /** A participant's belongings, and their part in the round. */
  ghost predicate PlayerOk(setup: Setup, s: Run, player: Player) {
    && Stocked(setup, player.inventory) && 0 <= player.coins
    && player.checkedInRound <= s.round
    && (!player.isBot && !TeamIn(s, player.team) ==> player.shopDone)
  }

  ghost predicate PlayersOk(setup: Setup, s: Run) {
    forall id | id in s.players :: PlayerOk(setup, s, s.players[id])
  }

  ghost predicate ShopsDone(s: Run) {
    forall id | id in s.players && !s.players[id].isBot :: s.players[id].shopDone
  }

  ghost predicate Offered(s: Run) {
    forall id | id in s.players && !s.players[id].isBot && s.players[id].character.None? :: s.players[id].pool != []
  }

  ghost predicate EveryoneIn(s: Run) {
    forall t | 0 <= t < |s.teams| :: s.teams[t].In()
  }

  ghost predicate BotsOpen(s: Run) {
    forall p | p in s.pairings && !p.hasPlayer :: p.winner.None?
  }

  ghost predicate NoneDecided(s: Run) {
    forall p | p in s.pairings :: p.winner.None?
  }

  ghost predicate BotsDecided(s: Run) {
    forall p | p in s.pairings && !p.hasPlayer :: p.winner.Some?
  }

  /** Two teams or more left, all of them healthy: there is a next round. */
  ghost predicate GoesOn(s: Run) {
    2 <= Left(s) && forall t | 0 <= t < |s.teams| && s.teams[t].In() :: 0 < s.teams[t].life
  }

  /** What each phase waits for: a phase never lingers with nothing to wait for. */
  ghost predicate PhaseOk(s: Run) {
    match s.phase
    case CharacterSelect => 0 < s.deadlineMs && s.round == 1 && EveryoneIn(s) && NoneDecided(s) && Offered(s)
    case Shop => 0 < s.deadlineMs && AllPlaying(s) && BotsOpen(s) && !AllShopsDone(s)
    case Match => 0 < s.deadlineMs && AllPlaying(s) && BotsDecided(s) && !AllDecided(s) && ShopsDone(s)
    case Results => 0 < s.deadlineMs && AllDecided(s) && GoesOn(s) && !AllCheckedIn(s) && ShopsDone(s)
    case Ended =>
      s.deadlineMs == 0 && AllDecided(s) && ShopsDone(s) && forall t | 0 <= t < |s.teams| :: !s.teams[t].In()
  }

  ghost predicate Inv(setup: Setup, s: Run) {
    Ready(setup) && Core(setup.rules, s) && PlayersOk(setup, s) && PhaseOk(s)
  }

  // ---- What deciding matches keeps ----

  /** Only matches were decided: results given stay, those out are as they were, no health rose. */
  ghost predicate Advances(s: Run, r: Run) {
    && SameBoard(s, r)
    && (forall t | 0 <= t < |s.teams| && !s.teams[t].In() :: r.teams[t] == s.teams[t])
    && (forall t | 0 <= t < |s.teams| :: r.teams[t].life <= s.teams[t].life)
    && (forall j | 0 <= j < |s.pairings| && s.pairings[j].winner.Some? :: r.pairings[j] == s.pairings[j])
  }

  lemma AdvancesTrans(s: Run, m: Run, r: Run)
    requires Advances(s, m) && Advances(m, r)
    ensures Advances(s, r)
  {
    SameBoardTrans(s, m, r);
  }

  lemma SparesAdvances(s: Run, r: Run, i: nat)
    requires SameBoard(s, r) && i < |s.pairings| && Spares(s, r, i) && s.pairings[i].winner.None?
    ensures Advances(s, r)
  {
  }

  lemma PairingIs(rules: Rules, s: Run, i: nat)
    requires Core(rules, s) && i < |s.pairings|
    ensures PairingOk(s, i) && s.pairings[i] in s.pairings
  {
  }

  lemma DecideBotKeeps(rules: Rules, s: Run, i: nat, winner: int)
    requires Core(rules, s) && i < |s.pairings| && s.pairings[i].winner.None?
    requires winner in {s.pairings[i].a, s.pairings[i].b}
    ensures Playable(rules) && Seated(s) && s.pairings[i] in s.pairings
    ensures var r := Decide(rules, s, i, winner);
      Core(rules, r) && Advances(s, r) && Spares(s, r, i) && r.pairings[i].winner == Some(winner)
  {
    hide Core, Decide, Resolved, SameBoard, Spares;
    CoreSeated(rules, s);
    PairingIs(rules, s, i);
    DecideResolves(rules, s, i, winner);
    ResolvedKeeps(rules, s, i, winner, false, false);
    SparesAdvances(s, Decide(rules, s, i, winner), i);
  }

  lemma SettleKeeps(rules: Rules, s: Run, i: nat, side: Option<int>, connected: set<string>)
    requires Core(rules, s) && i < |s.pairings| && s.pairings[i].winner.None?
    ensures Playable(rules) && Seated(s)
    ensures var r := Settle(rules, s, i, side, connected);
      Core(rules, r) && Advances(s, r) && Spares(s, r, i)
        && r.pairings[i].winner == Some(WinnerBy(s, i, side, connected))
  {
    hide Core, Settle, Resolved, SameBoard, Spares, WinnerBy, Gone;
    CoreSeated(rules, s);
    PairingIs(rules, s, i);
    var p := s.pairings[i];
    SettleResolves(rules, s, i, side, connected);
    ResolvedKeeps(rules, s, i, WinnerBy(s, i, side, connected), Gone(s, p.a, connected), Gone(s, p.b, connected));
    SparesAdvances(s, Settle(rules, s, i, side, connected), i);
  }

  /** The first k pairings' matches between bots are decided as the bots' matches say; nothing else is. */
  ghost predicate BotsSwept(s: Run, r: Run, bots: BotMatches, k: nat) {
    && Advances(s, r)
    && (forall j | 0 <= j < |s.pairings| ::
          if j < k && !s.pairings[j].hasPlayer
          then r.pairings[j].winner == Some(if bots(s.round, j) then s.pairings[j].a else s.pairings[j].b)
          else r.pairings[j] == s.pairings[j])
  }

  lemma BotsSweptStep(rules: Rules, s: Run, m: Run, bots: BotMatches, k: nat)
    requires Playable(rules) && Core(rules, m) && Seated(m) && BotsOpen(s) && BotsSwept(s, m, bots, k)
      && k < |s.pairings|
    ensures var r := DecideBot(rules, m, bots, k); Core(rules, r) && BotsSwept(s, r, bots, k + 1)
  {
    hide Core, Decide;
    var r := DecideBot(rules, m, bots, k);
    assert m.pairings[k] == s.pairings[k] && s.pairings[k] in s.pairings;
    if !m.pairings[k].hasPlayer {
      DecideBotKeeps(rules, m, k, if bots(m.round, k) then m.pairings[k].a else m.pairings[k].b);
      AdvancesTrans(s, m, r);
    }
  }

  lemma {:induction false} DecideBotsKeeps(rules: Rules, s: Run, bots: BotMatches, k: nat)
    requires Core(rules, s) && BotsOpen(s) && k <= |s.pairings|
    ensures Playable(rules) && Seated(s)
    ensures Core(rules, DecideBots(rules, s, bots, k)) && BotsSwept(s, DecideBots(rules, s, bots, k), bots, k)
  {
    hide Core, DecideBot;
    CoreSeated(rules, s);
    if k > 0 {
      DecideBotsKeeps(rules, s, bots, k - 1);
      BotsSweptStep(rules, s, DecideBots(rules, s, bots, k - 1), bots, k - 1);
    }
  }

  /** The first k pairings are all decided, those that were before as they were. */
  ghost predicate SweptTo(s: Run, r: Run, k: nat) {
    && Advances(s, r) && k <= |s.pairings|
    && (forall j | 0 <= j < k :: r.pairings[j].winner.Some?)
    && (forall j | k <= j < |s.pairings| :: r.pairings[j] == s.pairings[j])
  }

  lemma SweptStep(rules: Rules, s: Run, m: Run, connected: set<string>, k: nat)
    requires Playable(rules) && Core(rules, m) && Seated(m) && SweptTo(s, m, k) && k < |s.pairings|
    ensures var r := SettleIfOpen(rules, m, connected, k); Core(rules, r) && SweptTo(s, r, k + 1)
  {
    hide Core, Settle;
    var r := SettleIfOpen(rules, m, connected, k);
    if m.pairings[k].winner.None? {
      SettleKeeps(rules, m, k, None, connected);
      AdvancesTrans(s, m, r);
    }
  }

  lemma {:induction false} SettleOpenKeeps(rules: Rules, s: Run, connected: set<string>, k: nat)
    requires Core(rules, s) && k <= |s.pairings|
    ensures Playable(rules) && Seated(s)
    ensures Core(rules, SettleOpen(rules, s, connected, k)) && SweptTo(s, SettleOpen(rules, s, connected, k), k)
  {
    hide Core, SettleIfOpen;
    CoreSeated(rules, s);
    if k > 0 {
      SettleOpenKeeps(rules, s, connected, k - 1);
      SweptStep(rules, s, SettleOpen(rules, s, connected, k - 1), connected, k - 1);
    }
  }

  // ---- The four that call each other ----

  /** Every round's shop opens and closes on what the round before left. */
  ghost predicate RoundOpen(setup: Setup, s: Run) {
    Ready(setup) && Core(setup.rules, s) && AllPlaying(s) && PlayersOk(setup, s)
  }

  lemma ShopDecides(setup: Setup, s: Run, bots: BotMatches, deadline: int)
    requires RoundOpen(setup, s) && BotsOpen(s) && ShopsDone(s)
    ensures var s1 := s.(phase := Match, deadlineMs := deadline);
      && Core(setup.rules, s1) && BotsOpen(s1) && Seated(s1)
      && var s2 := DecideBots(setup.rules, s1, bots, |s1.pairings|);
      && RoundOpen(setup, s2) && Advances(s1, s2) && BotsDecided(s2) && ShopsDone(s2)
  {
    hide Core, Ready;
    var s1 := s.(phase := Match, deadlineMs := deadline);
    SameGameCore(setup.rules, s, s1);
    DecideBotsKeeps(setup.rules, s1, bots, |s1.pairings|);
    var s2 := DecideBots(setup.rules, s1, bots, |s1.pairings|);
    forall p | p in s2.pairings && !p.hasPlayer ensures p.winner.Some? {
      var j :| 0 <= j < |s2.pairings| && s2.pairings[j] == p;
      assert s2.pairings[j] == s1.pairings[j].(winner := s2.pairings[j].winner);
    }
    AdvancedPlayers(setup, s, s1, s2);
  }

  lemma AdvancedPlayers(setup: Setup, s: Run, s1: Run, s2: Run)
    requires AllPlaying(s) && PlayersOk(setup, s) && ShopsDone(s)
    requires s1 == s.(phase := s1.phase, deadlineMs := s1.deadlineMs) && SameBoard(s1, s2)
    ensures AllPlaying(s2) && PlayersOk(setup, s2) && ShopsDone(s2)
  {
    forall id | id in s2.players ensures PlayerOk(setup, s2, s2.players[id]) {
      assert PlayerOk(setup, s, s.players[id]);
    }
  }

  /** Those who go out go out, and if it was the last round the winner is crowned. */
  function RoundEnded(s: Run): Run {
    if Left(WentOut(s)) <= 1 then Crowned(WentOut(s)) else WentOut(s)
  }

  lemma RerankedPlayers(setup: Setup, s: Run, r: Run)
    requires PlayersOk(setup, s) && ShopsDone(s) && Reranked(s, r)
    ensures PlayersOk(setup, r) && ShopsDone(r)
  {
    forall id | id in r.players ensures PlayerOk(setup, r, r.players[id]) {
      assert PlayerOk(setup, s, s.players[id]);
    }
  }

  lemma RoundEndKeeps(setup: Setup, s: Run)
    requires RoundOpen(setup, s) && AllDecided(s) && ShopsDone(s)
    ensures var r := RoundEnded(s);
      && Core(setup.rules, r) && Reranked(s, r) && AllDecided(r) && PlayersOk(setup, r) && ShopsDone(r)
      && (if Left(WentOut(s)) <= 1 then forall t | 0 <= t < |r.teams| :: !r.teams[t].In() else GoesOn(r))
  {
    hide Core, Ready, WentOut, Crowned, PlayersOk;
    WentOutKeeps(setup.rules, s);
    if Left(WentOut(s)) <= 1 { CrownedKeeps(setup.rules, WentOut(s)); }
    RerankedPlayers(setup, s, RoundEnded(s));
  }

  lemma AtOk(table: seq<int>, i: int)
    requires forall v | v in table :: 0 <= v
    ensures 0 <= At(table, i)
  {
    if table != [] { assert table[Clamp(i, 0, |table| - 1)] in table; }
  }

  lemma IncomeOk(rules: Rules, s: Run, player: Player)
    requires Playable(rules) && player.team < |s.teams| && 0 <= player.coins
    ensures 0 <= Income(rules, s, player)
  {
    AtOk(rules.currencyPerRound, s.round - 1);
    AtOk(rules.currencyForWinStreak, s.teams[player.team].winStreak);
    AtOk(rules.currencyForLoseStreak, s.teams[player.team].loseStreak);
  }

  lemma PaidKeeps(setup: Setup, s: Run, deadline: int)
    requires Ready(setup) && Core(setup.rules, s) && PlayersOk(setup, s) && ShopsDone(s)
    ensures var r := Paid(setup.rules, s).(phase := Results, deadlineMs := deadline);
      && SameGame(s, r) && Core(setup.rules, r) && PlayersOk(setup, r) && ShopsDone(r)
      && (forall id | id in s.players :: r.players[id] == s.players[id].(coins := r.players[id].coins))
  {
    hide Core, Income;
    var r := Paid(setup.rules, s).(phase := Results, deadlineMs := deadline);
    SameGameCore(setup.rules, s, r);
    forall id | id in r.players ensures PlayerOk(setup, r, r.players[id]) {
      assert PlayerOk(setup, s, s.players[id]);
      if id in PlayersIn(s) { IncomeOk(setup.rules, s, s.players[id]); }
    }
  }

  lemma Rephased(setup: Setup, s: Run, phase: Phase, deadline: int)
    requires RoundOpen(setup, s)
    ensures RoundOpen(setup, s.(phase := phase, deadlineMs := deadline))
  {
    hide Core, Ready;
    var r := s.(phase := phase, deadlineMs := deadline);
    SameGameCore(setup.rules, s, r);
    forall id | id in r.players ensures PlayerOk(setup, r, r.players[id]) {
      assert PlayerOk(setup, s, s.players[id]);
    }
  }

  /** With no player left in, every player's shop is done already. */
  lemma NobodyShops(setup: Setup, s: Run)
    requires RoundOpen(setup, s) && PlayersIn(s) == {}
    ensures ShopsDone(s)
  {
    hide Core, Ready;
    forall id | id in s.players && !s.players[id].isBot ensures s.players[id].shopDone {
      assert PlayerOk(setup, s, s.players[id]);
      assert id !in PlayersIn(s);
    }
  }

  /** The shop is open to every player still in: the phase waits for them. */
  lemma OpenedKeeps(setup: Setup, s: Run, chance: Chance, deadline: int)
    requires RoundOpen(setup, s) && NoneDecided(s) && Fair(chance) && 0 < deadline && PlayersIn(s) != {}
    ensures var r := ShopsOpened(setup, s.(phase := Shop), chance).(deadlineMs := deadline);
      Inv(setup, r) && PlayersIn(r) == PlayersIn(s) && forall id | id in PlayersIn(r) :: !r.players[id].shopDone
  {
    hide Core, Ready, Stocked, Fair;
    var r := ShopsOpened(setup, s.(phase := Shop), chance).(deadlineMs := deadline);
    SameGameCore(setup.rules, s, r);
    SameGamePlayers(s, r);
    forall id | id in r.players ensures PlayerOk(setup, r, r.players[id]) {
      assert PlayerOk(setup, s, s.players[id]);
    }
    var id :| id in PlayersIn(s);
    assert id in PlayersIn(r) && !r.players[id].shopDone;
  }

  // What each of the four is called with.

  ghost predicate OpenReady(setup: Setup, s: Run) {
    RoundOpen(setup, s) && NoneDecided(s)
  }

  ghost predicate ShopReady(setup: Setup, s: Run) {
    RoundOpen(setup, s) && BotsOpen(s) && ShopsDone(s)
  }

  ghost predicate RoundReady(setup: Setup, s: Run) {
    RoundOpen(setup, s) && AllDecided(s) && ShopsDone(s)
  }

  ghost predicate StartReady(setup: Setup, s: Run) {
    Ready(setup) && Core(setup.rules, s) && PlayersOk(setup, s) && AllDecided(s) && GoesOn(s)
  }

  /** How many rounds are still ahead, at most. */
  ghost function RoundsLeft(setup: Setup, s: Run): int {
    if Playable(setup.rules) then Horizon(setup.rules, s) - s.round else 0
  }

  lemma NextRoundCore(rules: Rules, s: Run, chance: Chance)
    requires Core(rules, s) && AllDecided(s) && GoesOn(s) && Fair(chance)
    ensures var s1, order := s.(round := s.round + 1), chance.order(s.round + 1, InTeams(s.teams, |s.teams|));
      var r := Paired(s1, order);
      OrderOf(s1, order) && JustPaired(s1, order, r) && Core(rules, r) && AllPlaying(r) && NoneDecided(r)
  {
    hide Core, Unpaired, Paired, OrderOf, JustPaired;
    var s1, order := s.(round := s.round + 1), chance.order(s.round + 1, InTeams(s.teams, |s.teams|));
    NextRound(rules, s);
    ShuffleOrders(s1, order);
    PairedJust(s1, order);
    PairedKeeps(rules, s1, order, Paired(s1, order));
  }

  lemma NextRoundOpens(setup: Setup, s: Run, chance: Chance)
    requires StartReady(setup, s) && Fair(chance)
    ensures var r := PairRound(s.(round := s.round + 1), chance);
      OpenReady(setup, r) && r == s.(round := s.round + 1, teams := r.teams, pairings := r.pairings)
      && 0 <= RoundsLeft(setup, r) == RoundsLeft(setup, s) - 1
  {
    hide Ready, Paired;
    NextRoundCore(setup.rules, s, chance);
    var s1, order := s.(round := s.round + 1), chance.order(s.round + 1, InTeams(s.teams, |s.teams|));
    var r := Paired(s1, order);
    NextPlayers(setup, s, order, r);
  }

  lemma NextPlayers(setup: Setup, s: Run, order: seq<int>, r: Run)
    requires PlayersOk(setup, s) && JustPaired(s.(round := s.round + 1), order, r)
    ensures PlayersOk(setup, r) && |r.teams| == |s.teams|
  {
    forall id | id in r.players ensures PlayerOk(setup, r, r.players[id]) {
      assert PlayerOk(setup, s, s.players[id]);
    }
  }

  lemma OpenShopSteps(setup: Setup, s: Run, chance: Chance, now: int)
    requires OpenReady(setup, s) && Fair(chance) && 0 <= now
    ensures Ready(setup) && 0 <= RoundsLeft(setup, s)
    ensures var s1 := s.(phase := Shop);
      if PlayersIn(s1) == {} then ShopReady(setup, s1.(deadlineMs := 0))
        && RoundsLeft(setup, s1.(deadlineMs := 0)) == RoundsLeft(setup, s)
      else Inv(setup,
        ShopsOpened(setup, s1, chance)
          .(deadlineMs := now + (setup.rules.shopSeconds + setup.rules.graceSeconds) * 1000))
  {
    hide PlayersOk, Rostered, Matched, Histories, Ranked, Records, Counted;
    SameGamePlayers(s, s.(phase := Shop));
    if PlayersIn(s) == {} {
      Rephased(setup, s, Shop, 0);
      NobodyShops(setup, s);
    } else {
      OpenedKeeps(setup, s, chance, now + (setup.rules.shopSeconds + setup.rules.graceSeconds) * 1000);
    }
  }

  function OpenShop(setup: Setup, s: Run, chance: Chance, now: int): (r: (Run, seq<Effect>))
    requires OpenReady(setup, s) && Fair(chance) && 0 <= now
    ensures Inv(setup, r.0)
    decreases RoundsLeft(setup, s), 3
  {
    hide OpenReady, ShopReady, Inv, Ready;
    OpenShopSteps(setup, s, chance, now);
    var s1 := s.(phase := Shop);
    if PlayersIn(s1) == {} then
      EndShop(setup, s1.(deadlineMs := 0), chance.coin, chance, now)
    else
      (ShopsOpened(setup, s1, chance).(deadlineMs := now + (setup.rules.shopSeconds + setup.rules.graceSeconds) * 1000),
       [SendPhaseConfigs])
  }

  lemma EndShopSteps(setup: Setup, s: Run, bots: BotMatches, now: int)
    requires ShopReady(setup, s) && 0 <= now
    ensures Ready(setup) && Playable(setup.rules) && 0 <= RoundsLeft(setup, s)
    ensures var s1 := s.(phase := Match, deadlineMs := now + setup.rules.matchDeadlineSeconds * 1000);
      && Seated(s1)
      && var s2 := DecideBots(setup.rules, s1, bots, |s1.pairings|);
      && RoundsLeft(setup, s2) == RoundsLeft(setup, s) && Advances(s1, s2)
      && (if AllDecided(s2) then RoundReady(setup, s2) else Inv(setup, s2))
  {
    hide PlayersOk, Rostered, Matched, Histories, Ranked, Records, Counted, DecideBots;
    ShopDecides(setup, s, bots, now + setup.rules.matchDeadlineSeconds * 1000);
  }

  /**
   * The round's matches: the bots' decided now; with every match decided the round ends, otherwise the players' are
   * waited for.
   */
  function EndShop(setup: Setup, s: Run, bots: BotMatches, chance: Chance, now: int): (r: (Run, seq<Effect>))
    requires ShopReady(setup, s) && Fair(chance) && 0 <= now
    ensures Inv(setup, r.0)
    decreases RoundsLeft(setup, s), 2
  {
    hide ShopReady, RoundReady, Inv, Ready, DecideBots, Advances, AllDecided, RoundsLeft, Fair, Seated;
    EndShopSteps(setup, s, bots, now);
    var s1 := s.(phase := Match, deadlineMs := now + setup.rules.matchDeadlineSeconds * 1000);
    var s2 := DecideBots(setup.rules, s1, bots, |s1.pairings|);
    if AllDecided(s2) then EndRound(setup, s2, chance, now) else (s2, [SendPhaseConfigs])
  }

  lemma EndRoundSteps(setup: Setup, s: Run, now: int)
    requires RoundReady(setup, s) && 0 <= now
    ensures Ready(setup) && 0 <= RoundsLeft(setup, s)
    ensures var s1 := WentOut(s);
      if Left(s1) <= 1 then Inv(setup, Crowned(s1).(phase := Ended, deadlineMs := 0))
      else var s2 := Paid(setup.rules, s1).(phase := Results, deadlineMs := now + setup.rules.checkinSeconds * 1000);
        && RoundsLeft(setup, s2) == RoundsLeft(setup, s)
        && (if AllCheckedIn(s2) then StartReady(setup, s2) else Inv(setup, s2))
  {
    hide Rostered, Matched, Histories, Ranked, Records, Counted, Paid, WentOut, Crowned;
    RoundEndKeeps(setup, s);
    var s1 := WentOut(s);
    if Left(s1) <= 1 {
      EndedKeeps(setup, Crowned(s1));
    } else {
      PaidKeeps(setup, s1, now + setup.rules.checkinSeconds * 1000);
    }
  }

  lemma EndedKeeps(setup: Setup, s: Run)
    requires Ready(setup) && Core(setup.rules, s) && PlayersOk(setup, s) && AllDecided(s) && ShopsDone(s)
    requires forall t | 0 <= t < |s.teams| :: !s.teams[t].In()
    ensures Inv(setup, s.(phase := Ended, deadlineMs := 0))
  {
    hide Core, Ready;
    var r := s.(phase := Ended, deadlineMs := 0);
    SameGameCore(setup.rules, s, r);
    forall id | id in r.players ensures PlayerOk(setup, r, r.players[id]) {
      assert PlayerOk(setup, s, s.players[id]);
    }
  }

  function EndRound(setup: Setup, s: Run, chance: Chance, now: int): (r: (Run, seq<Effect>))
    requires RoundReady(setup, s) && Fair(chance) && 0 <= now
    ensures Inv(setup, r.0)
    decreases RoundsLeft(setup, s), 1
  {
    hide RoundReady, StartReady, Inv, Ready, Paid, WentOut, Crowned, OutNow, InTeams, AllCheckedIn, Fair, PlayersIn;
    EndRoundSteps(setup, s, now);
    var out, s1 := OutNow(s.teams), WentOut(s);
    var still := InTeams(s1.teams, |s1.teams|);
    if |still| <= 1 then
      (Crowned(s1).(phase := Ended, deadlineMs := 0), [TeamsEnded(still + out), ArenaFinished])
    else
      var s2 := Paid(setup.rules, s1).(phase := Results, deadlineMs := now + setup.rules.checkinSeconds * 1000);
      var told := if out == [] then [] else [TeamsEnded(out)];
      if AllCheckedIn(s2) then
        var r := StartRound(setup, s2, chance, now);
        (r.0, told + r.1)
      else (s2, told)
  }

  function StartRound(setup: Setup, s: Run, chance: Chance, now: int): (r: (Run, seq<Effect>))
    requires StartReady(setup, s) && Fair(chance) && 0 <= now
    ensures Inv(setup, r.0)
    decreases RoundsLeft(setup, s), 0
  {
    hide StartReady, OpenReady, Inv, Ready, PairRound;
    NextRoundOpens(setup, s, chance);
    var s1 := PairRound(s.(round := s.round + 1), chance);
    var r := OpenShop(setup, s1, chance, now);
    (r.0, Launches(s1.pairings, |s1.pairings|) + r.1)
  }
}
