/**
 * Where a run's transitions leave it (ArenaRun.cs, lines 440-477 and 533-584): the phase, its deadline, what is
 * announced, and who has what; however far the same call runs on.
 */
module ArenaPhases {
  import opened ArenaRules
  import opened ArenaItems
  import opened ArenaTypes
  import opened ArenaSteps
  import opened ArenaInvariant
  import opened ArenaRounds
  import opened ArenaPairing
  import opened ArenaTransitions
  import opened ArenaProgress
  import opened ArenaVerdicts
  import opened ArenaPay

  // ---- A phase's deadline, and what is announced ----

  /**
   * A phase entered now: its deadline is its own timer's, and the players' games are sent their configs, once and last,
   * exactly if there is something to play in it.
   */
  ghost predicate Entered(rules: Rules, r: (Run, seq<Effect>), now: int) {
    && (match r.0.phase
        case CharacterSelect => false
        case Shop => r.0.deadlineMs == now + (rules.shopSeconds + rules.graceSeconds) * 1000
        case Match => r.0.deadlineMs == now + rules.matchDeadlineSeconds * 1000
        case Results => r.0.deadlineMs == now + rules.checkinSeconds * 1000
        case Ended => r.0.deadlineMs == 0)
    && (SendPhaseConfigs in r.1 <==> r.0.phase in {Shop, Match})
    && forall i | 0 <= i < |r.1| && r.1[i] == SendPhaseConfigs :: i == |r.1| - 1
  }

  lemma ThenEntered(rules: Rules, told: seq<Effect>, r: (Run, seq<Effect>), now: int)
    requires Entered(rules, r, now) && SendPhaseConfigs !in told
    ensures Entered(rules, (r.0, told + r.1), now)
  {
    assert forall i | 0 <= i < |told| :: told[i] in told;
  }

  lemma {:induction false} OpenShopEnters(setup: Setup, s: Run, chance: Chance, now: int)
    requires OpenReady(setup, s) && Fair(chance) && 0 <= now
    ensures Entered(setup.rules, OpenShop(setup, s, chance, now), now)
    decreases RoundsLeft(setup, s), 3
  {
    hide OpenReady, ShopReady, Inv, Ready, EndShop, RoundsLeft, Fair, PagesOf, PlayersIn;
    OpenShopSteps(setup, s, chance, now);
    if PlayersIn(s.(phase := Shop)) == {} {
      EndShopEnters(setup, s.(phase := Shop, deadlineMs := 0), chance.coin, chance, now);
    }
  }

  lemma {:induction false} EndShopEnters(setup: Setup, s: Run, bots: BotMatches, chance: Chance, now: int)
    requires ShopReady(setup, s) && Fair(chance) && 0 <= now
    ensures Entered(setup.rules, EndShop(setup, s, bots, chance, now), now)
    decreases RoundsLeft(setup, s), 2
  {
    hide ShopReady, RoundReady, Inv, Ready, DecideBots, EndRound, RoundsLeft, Fair, Seated, AllDecided;
    EndShopSteps(setup, s, bots, now);
    var s1 := s.(phase := Match, deadlineMs := now + setup.rules.matchDeadlineSeconds * 1000);
    var s2 := DecideBots(setup.rules, s1, bots, |s1.pairings|);
    if AllDecided(s2) { EndRoundEnters(setup, s2, chance, now); }
  }

  lemma {:induction false} EndRoundEnters(setup: Setup, s: Run, chance: Chance, now: int)
    requires RoundReady(setup, s) && Fair(chance) && 0 <= now
    ensures Entered(setup.rules, EndRound(setup, s, chance, now), now)
    decreases RoundsLeft(setup, s), 1
  {
    hide RoundReady, StartReady, Inv, Ready, Paid, WentOut, Crowned, OutNow, AllCheckedIn, Fair, PlayersIn, StartRound,
      RoundsLeft;
    EndRoundSteps(setup, s, now);
    var out, s1 := OutNow(s.teams), WentOut(s);
    if Left(s1) > 1 {
      var s2 := Paid(setup.rules, s1).(phase := Results, deadlineMs := now + setup.rules.checkinSeconds * 1000);
      if AllCheckedIn(s2) {
        StartRoundEnters(setup, s2, chance, now);
        ThenEntered(setup.rules, if out == [] then [] else [TeamsEnded(out)], StartRound(setup, s2, chance, now), now);
      }
    }
  }

  lemma {:induction false} StartRoundEnters(setup: Setup, s: Run, chance: Chance, now: int)
    requires StartReady(setup, s) && Fair(chance) && 0 <= now
    ensures Entered(setup.rules, StartRound(setup, s, chance, now), now)
    decreases RoundsLeft(setup, s), 0
  {
    hide StartReady, OpenReady, Inv, Ready, PairRound, OpenShop, Launches, RoundsLeft, Fair, Entered;
    NextRoundOpens(setup, s, chance);
    var s1 := PairRound(s.(round := s.round + 1), chance);
    OpenShopEnters(setup, s1, chance, now);
    LaunchesTold(s1.pairings, |s1.pairings|);
    ThenEntered(setup.rules, Launches(s1.pairings, |s1.pairings|), OpenShop(setup, s1, chance, now), now);
  }

  // ---- A shop opened ----

  /** Every player in has an open shop, with this round's pages; nobody else changes. */
  ghost predicate ShopsOpen(setup: Setup, s: Run, r: Run, chance: Chance)
    requires Fair(chance)
  {
    && r.players.Keys == s.players.Keys
    && forall id | id in s.players ::
         r.players[id] == if id in PlayersIn(s)
           then s.players[id].(shopDone := false,
             shopPages :=
               PagesOf(setup.items, r.round, setup.rules.shopPages, setup.rules.offersPerPage, chance.dice(id)))
           else s.players[id]
  }

  lemma OpenShopLeaves(setup: Setup, s: Run, chance: Chance, now: int)
    requires OpenReady(setup, s) && Fair(chance) && 0 <= now && PlayersIn(s) != {}
    ensures var r := OpenShop(setup, s, chance, now).0;
      && r == s.(phase := Shop, deadlineMs := r.deadlineMs, players := r.players) && ShopsOpen(setup, s, r, chance)
  {
    hide OpenReady, ShopReady, Inv, Ready, EndShop, RoundsLeft, PagesOf;
    OpenShopSteps(setup, s, chance, now);
    SameGamePlayers(s, s.(phase := Shop));
  }

  // ---- The next round ----

  /**
   * The teams in, in this order, are paired two by two; the last odd one with its mirror. A team with players is side
   * A.
   */
  ghost predicate PairedAlong(s: Run, order: seq<int>, r: Run) {
    && NoRepeats(order) && (forall t :: t in order <==> 0 <= t < |s.teams| && s.teams[t].finalRank == 0)
    && |r.pairings| == (|order| + 1) / 2
    && forall k | 0 <= k < |r.pairings| ::
         var first, second := order[2 * k], if 2 * k + 1 < |order| then order[2 * k + 1] else MIRROR;
         var swapped := HasPlayers(s, second) && !HasPlayers(s, first);
         r.pairings[k].a == (if swapped then second else first) && r.pairings[k].b == if swapped then first else second
  }

  lemma PairRoundAlong(s: Run, chance: Chance)
    requires Fair(chance)
    ensures PairedAlong(s, chance.order(s.round, InTeams(s.teams, |s.teams|)), PairRound(s, chance))
  {
    hide InTeams, Partner;
    var order := chance.order(s.round, InTeams(s.teams, |s.teams|));
    ShuffleOrders(s, order);
    forall t ensures HasPlayer(s, t) == HasPlayers(s, t) {}
  }

  /** Every team's results and health are as they were. */
  ghost predicate SameRecords(s: Run, r: Run) {
    && |r.teams| == |s.teams|
    && forall t | 0 <= t < |s.teams| ::
         r.teams[t] == s.teams[t].(finalRank := r.teams[t].finalRank, opponents := r.teams[t].opponents)
  }

  /** The next round begun: its teams paired along a shuffle of those in, its players' shops open. */
  ghost predicate NextBegun(setup: Setup, s: Run, r: Run, chance: Chance)
    requires Fair(chance)
  {
    && r == s.(round := s.round + 1, phase := Shop, deadlineMs := r.deadlineMs, teams := r.teams,
               pairings := r.pairings, players := r.players)
    && SameRecords(s, r) && (forall t | 0 <= t < |s.teams| :: r.teams[t].finalRank == s.teams[t].finalRank)
    && ShopsOpen(setup, s, r, chance)
    && PairedAlong(s, chance.order(s.round + 1, InTeams(s.teams, |s.teams|)), r)
  }

  lemma StartRoundLeaves(setup: Setup, s: Run, chance: Chance, now: int)
    requires StartReady(setup, s) && Fair(chance) && 0 <= now && PlayersIn(s) != {}
    ensures NextBegun(setup, s, StartRound(setup, s, chance, now).0, chance)
  {
    hide StartReady, OpenReady, Inv, Ready, OpenShop, Launches, RoundsLeft, PagesOf, InTeams, Partner, PairedAlong;
    NextRoundOpens(setup, s, chance);
    var s0 := s.(round := s.round + 1);
    var s1 := PairRound(s0, chance);
    PairRoundAlong(s0, chance);
    SamePlayersIn(s, s1);
    OpenShopLeaves(setup, s1, chance, now);
    SamePairs(s0, s, chance.order(s.round + 1, InTeams(s.teams, |s.teams|)), s1, OpenShop(setup, s1, chance, now).0);
  }

  lemma SamePlayersIn(s: Run, r: Run)
    requires r.players == s.players && SameRecords(s, r)
    requires forall t | 0 <= t < |s.teams| :: r.teams[t].finalRank == s.teams[t].finalRank
    ensures PlayersIn(r) == PlayersIn(s)
  {
  }

  lemma SamePairs(s: Run, s': Run, order: seq<int>, m: Run, r: Run)
    requires PairedAlong(s, order, m) && s'.teams == s.teams && s'.players == s.players && r.pairings == m.pairings
    ensures PairedAlong(s', order, r)
  {
    forall t ensures HasPlayers(s', t) == HasPlayers(s, t) {}
  }

  // ---- With no player in ----

  lemma NobodyWaited(setup: Setup, r: Run)
    requires Inv(setup, r) && PlayersIn(r) == {} && r.phase != CharacterSelect
    ensures r.phase == Ended
  {
    hide Histories, Ranked, Counted, Ready;
    if r.phase == Match {
      var p :| p in r.pairings && p.winner.None?;
      var i :| 0 <= i < |r.pairings| && r.pairings[i] == p;
      assert PairingOk(r, i) && PlayedOk(r, p, p.a);
      OnlyBotsIn(r, p.a);
    }
  }

  lemma OnlyBotsIn(r: Run, t: int)
    requires Rostered(r) && PlayersIn(r) == {} && TeamIn(r, t)
    ensures !HasPlayer(r, t)
  {
    forall m | m in r.teams[t].members && m in r.players ensures r.players[m].isBot { assert m !in PlayersIn(r); }
  }

  lemma StillNobody(s: Run, r: Run)
    requires Frozen(s, r) && PlayersIn(s) == {}
    ensures PlayersIn(r) == {}
  {
    forall id ensures id !in PlayersIn(r) { assert id !in PlayersIn(s); }
  }

  lemma SoundFrozen(s: Run, r: Run, effects: seq<Effect>, now: int)
    requires Sound(s, r, effects, now)
    ensures Frozen(s, r)
  {
  }

  /** A round started with no player in runs on to the Arena's end. */
  lemma StartRoundEnds(setup: Setup, s: Run, chance: Chance, now: int)
    requires StartReady(setup, s) && Fair(chance) && 0 <= now && s.phase == Results && PlayersIn(s) == {}
    ensures StartRound(setup, s, chance, now).0.phase == Ended
  {
    hide StartReady, Inv, Sound, PlayersIn, StartRound, Fair;
    var r := StartRound(setup, s, chance, now);
    StartRoundSound(setup, s, chance, now);
    SoundFrozen(s, r.0, r.1, now);
    StillNobody(s, r.0);
    StartRoundEnters(setup, s, chance, now);
    NobodyWaited(setup, r.0);
  }

  // ---- A round ended ----

  ghost predicate PlayerGoesOn(s: Run) {
    exists id :: GoesOnPlayer(s, id)
  }

  /** A player goes on whose game has not left its match yet. */
  ghost predicate PlayerLate(s: Run) {
    exists id :: GoesOnPlayer(s, id) && s.players[id].checkedInRound != s.round
  }

  lemma GoersMean(s: Run, s1: Run, s2: Run)
    requires Reranked(s, s1) && forall t | 0 <= t < |s.teams| :: TeamIn(s1, t) <==> GoesOnTeam(s, t)
    requires forall id | id in s.players :: s.players[id].team < |s.teams|
    requires s2 == s1.(players := s2.players, phase := s2.phase, deadlineMs := s2.deadlineMs)
    requires s2.players.Keys == s1.players.Keys
    requires forall id | id in s1.players :: s2.players[id] == s1.players[id].(coins := s2.players[id].coins)
    ensures forall id :: id in PlayersIn(s2) <==> GoesOnPlayer(s, id)
    ensures PlayersIn(s2) != {} <==> PlayerGoesOn(s)
    ensures AllCheckedIn(s2) <==> !PlayerLate(s)
  {
    forall id ensures id in PlayersIn(s2) <==> GoesOnPlayer(s, id) {}
    if PlayerGoesOn(s) {
      var id :| GoesOnPlayer(s, id);
      assert id in PlayersIn(s2);
    }
    if !AllCheckedIn(s2) {
      var id :| id in PlayersIn(s2) && s2.players[id].checkedInRound != s2.round;
      assert GoesOnPlayer(s, id);
    }
    if PlayerLate(s) {
      var id :| GoesOnPlayer(s, id) && s.players[id].checkedInRound != s.round;
      assert id in PlayersIn(s2);
    }
  }

  /**
   * A round's end: with no two teams, or no player, going on the Arena ends; otherwise the next round is waited for, or
   * started at once if every player who goes on has checked in. The teams in then are those that go on, and no team's
   * results or health are touched.
   */
  ghost predicate RoundEndedAs(s: Run, r: Run) {
    && (!TwoGoOn(s) ==> r.phase == Ended && r.round == s.round && r.pairings == s.pairings && SameRecords(s, r))
    && (TwoGoOn(s) && !PlayerGoesOn(s) ==> r.phase == Ended)
    && (TwoGoOn(s) && PlayerLate(s) ==> r.phase == Results && r.round == s.round && r.pairings == s.pairings)
    && (TwoGoOn(s) && PlayerGoesOn(s) && !PlayerLate(s) ==> r.phase == Shop && r.round == s.round + 1)
    && (TwoGoOn(s) && PlayerGoesOn(s) ==>
          SameRecords(s, r) && forall t | 0 <= t < |s.teams| :: TeamIn(r, t) <==> GoesOnTeam(s, t))
  }

  lemma EndsLast(s: Run, c: Run)
    requires Reranked(s, c) && !TwoGoOn(s)
    ensures RoundEndedAs(s, c.(phase := Ended, deadlineMs := 0))
  {
    hide TwoGoOn, PlayerGoesOn, PlayerLate, GoesOnTeam;
  }

  lemma GoesOnWaiting(s: Run, s1: Run, s2: Run)
    requires Reranked(s, s1) && TwoGoOn(s) && (forall t | 0 <= t < |s.teams| :: TeamIn(s1, t) <==> GoesOnTeam(s, t))
    requires s2 == s1.(players := s2.players, phase := Results, deadlineMs := s2.deadlineMs) && PlayerLate(s)
    ensures RoundEndedAs(s, s2)
  {
    hide TwoGoOn, GoesOnTeam;
  }

  lemma GoesOnStarted(s: Run, s1: Run, s2: Run, r: Run)
    requires Reranked(s, s1) && TwoGoOn(s) && (forall t | 0 <= t < |s.teams| :: TeamIn(s1, t) <==> GoesOnTeam(s, t))
    requires s2 == s1.(players := s2.players, phase := Results, deadlineMs := s2.deadlineMs)
    requires PlayerGoesOn(s) && !PlayerLate(s) && r.phase == Shop && r.round == s2.round + 1 && SameRecords(s2, r)
    requires forall t | 0 <= t < |s2.teams| :: r.teams[t].finalRank == s2.teams[t].finalRank
    ensures RoundEndedAs(s, r)
  {
    hide TwoGoOn, GoesOnTeam, PlayerGoesOn, PlayerLate;
  }

  lemma GoesOnOver(s: Run, r: Run)
    requires TwoGoOn(s) && !PlayerGoesOn(s) && r.phase == Ended
    ensures RoundEndedAs(s, r)
  {
    hide TwoGoOn, GoesOnTeam;
  }

  lemma EndRoundLeaves(setup: Setup, s: Run, chance: Chance, now: int)
    requires RoundReady(setup, s) && Fair(chance) && 0 <= now
    ensures RoundEndedAs(s, EndRound(setup, s, chance, now).0)
  {
    hide StartReady, Inv, Ready, StartRound, Paid, WentOut, Crowned, OutNow, RoundReady, AllCheckedIn, Fair, TwoGoOn,
      PlayersIn, PlayerGoesOn, PlayerLate, GoesOnPlayer, GoesOnTeam, RoundEndedAs, Reranked, TeamIn;
    EndRoundSteps(setup, s, now);
    WentOutReranks(s);
    OwnTeams(setup, s);
    LeftMeans(s);
    var s1 := WentOut(s);
    if Left(s1) <= 1 {
      CrownedLast(setup, s);
      EndsLast(s, Crowned(s1));
    } else {
      var s2 := Paid(setup.rules, s1).(phase := Results, deadlineMs := now + setup.rules.checkinSeconds * 1000);
      PaidOnly(setup.rules, s1) by { SamePlayers(s, s1); }
      GoersMean(s, s1, s2);
      if !AllCheckedIn(s2) {
        GoesOnWaiting(s, s1, s2);
      } else if PlayersIn(s2) == {} {
        StartRoundEnds(setup, s2, chance, now);
        GoesOnOver(s, StartRound(setup, s2, chance, now).0);
      } else {
        StartRoundLeaves(setup, s2, chance, now);
        GoesOnStarted(s, s1, s2, StartRound(setup, s2, chance, now).0);
      }
    }
  }

  lemma SamePlayers(s: Run, s1: Run)
    requires Reranked(s, s1)
    ensures s1.players == s.players
  {
  }

  lemma CrownedLast(setup: Setup, s: Run)
    requires RoundReady(setup, s) && Left(WentOut(s)) <= 1
    ensures Reranked(s, Crowned(WentOut(s)))
  {
    hide WentOut, Crowned, Core, Ready;
    RoundEndKeeps(setup, s);
  }

  lemma PaidOnly(rules: Rules, s: Run)
    requires forall id | id in s.players :: s.players[id].team < |s.teams|
    ensures var r := Paid(rules, s);
      && r == s.(players := r.players) && r.players.Keys == s.players.Keys
      && forall id | id in s.players :: r.players[id] == s.players[id].(coins := r.players[id].coins)
  {
    hide Income;
  }
}
