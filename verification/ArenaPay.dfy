/**
 * A round's end pays the players who go on (ArenaRun.cs, lines 533-574), once, however far the same call then runs on:
 * the transitions that call each other with no player left in pay nobody.
 */
module ArenaPay {
  import opened Options
  import opened ArenaRules
  import opened ArenaTypes
  import opened ArenaSteps
  import opened ArenaInvariant
  import opened ArenaRounds
  import opened ArenaTransitions
  import opened ArenaProgress

  // ---- Who is paid, and what ----

  /** Two teams go on: in, and with health left. */
  ghost predicate TwoGoOn(s: Run) {
    exists t, u :: 0 <= t < u < |s.teams| && GoesOnTeam(s, t) && GoesOnTeam(s, u)
  }

  ghost predicate GoesOnTeam(s: Run, t: int) {
    0 <= t < |s.teams| && s.teams[t].finalRank == 0 && 0 < s.teams[t].life
  }

  /** A player, no bot, of a team that goes on. */
  ghost predicate GoesOnPlayer(s: Run, id: string) {
    id in s.players && !s.players[id].isBot && GoesOnTeam(s, s.players[id].team)
  }

  ghost predicate WonRound(s: Run, t: int) {
    exists i :: 0 <= i < |s.pairings| && s.pairings[i].winner == Some(t)
  }

  /** Interest up to its cap, the round's coins, a win's, and the streak's, whichever runs. */
  ghost function RoundPay(rules: Rules, s: Run, id: string): int
    requires GoesOnPlayer(s, id)
  {
    var coins, team := s.players[id].coins, s.teams[s.players[id].team];
    var interest := if rules.interestPer <= 1 then coins else coins / rules.interestPer;
    (if interest < rules.maxInterest then interest else rules.maxInterest) + Entry(rules.currencyPerRound, s.round - 1)
    + (if WonRound(s, s.players[id].team) then rules.currencyForWin else 0)
    + Entry(rules.currencyForWinStreak, team.winStreak) + Entry(rules.currencyForLoseStreak, team.loseStreak)
  }

  /** Every player as they were, but for the shop they see. */
  ghost predicate Unpaid(s: Run, r: Run) {
    && r.players.Keys == s.players.Keys
    && forall id | id in s.players ::
         r.players[id] == s.players[id].(shopDone := r.players[id].shopDone, shopPages := r.players[id].shopPages)
  }

  ghost predicate PaidForRound(rules: Rules, s: Run, r: Run) {
    && r.players.Keys == s.players.Keys
    && forall id | id in s.players ::
         r.players[id] == s.players[id]
           .(coins := s.players[id].coins + (if TwoGoOn(s) && GoesOnPlayer(s, id) then RoundPay(rules, s, id) else 0),
             shopDone := r.players[id].shopDone, shopPages := r.players[id].shopPages)
  }

  // ---- Those who go out, and those who go on ----

  lemma TwoIn(teams: seq<Team>)
    ensures |InTeams(teams, |teams|)| >= 2 <==> exists t, u :: 0 <= t < u < |teams| && teams[t].In() && teams[u].In()
  {
    var still := InTeams(teams, |teams|);
    InTeamsAscend(teams, |teams|);
    if |still| >= 2 {
      assert still[0] in still && still[1] in still && still[0] < still[1];
    }
    if t, u :| 0 <= t < u < |teams| && teams[t].In() && teams[u].In() {
      assert t in still && u in still;
    }
  }

  lemma LeftMeans(s: Run)
    ensures Left(WentOut(s)) >= 2 <==> TwoGoOn(s)
    ensures forall t | 0 <= t < |s.teams| :: TeamIn(WentOut(s), t) <==> GoesOnTeam(s, t)
    ensures |WentOut(s).teams| == |s.teams|
  {
    hide WentOut, InTeams, OutNow, InOrder;
    WentOutReranks(s);
    var r := WentOut(s);
    TwoIn(r.teams);
    if t, u :| 0 <= t < u < |r.teams| && r.teams[t].In() && r.teams[u].In() {
      assert GoesOnTeam(s, t) && GoesOnTeam(s, u);
    }
    if TwoGoOn(s) {
      var t, u :| 0 <= t < u < |s.teams| && GoesOnTeam(s, t) && GoesOnTeam(s, u);
      assert r.teams[t].In() && r.teams[u].In();
    }
  }

  lemma PaidHalf(rules: Rules, s: Run, s1: Run, deadline: int)
    requires Reranked(s, s1) && TwoGoOn(s)
    requires forall t | 0 <= t < |s.teams| :: TeamIn(s1, t) <==> GoesOnTeam(s, t)
    requires forall id | id in s1.players :: s1.players[id].team < |s1.teams|
    ensures PaidForRound(rules, s, Paid(rules, s1).(phase := Results, deadlineMs := deadline))
  {
    hide Interest, At, TwoGoOn;
    var r := Paid(rules, s1).(phase := Results, deadlineMs := deadline);
    forall id | id in s.players
      ensures r.players[id] == s.players[id]
        .(coins := s.players[id].coins + (if TwoGoOn(s) && GoesOnPlayer(s, id) then RoundPay(rules, s, id) else 0),
          shopDone := r.players[id].shopDone, shopPages := r.players[id].shopPages)
    {
      assert id in PlayersIn(s1) <==> GoesOnPlayer(s, id);
      if GoesOnPlayer(s, id) { IncomeIs(rules, s, s1, id); }
    }
  }

  lemma IncomeIs(rules: Rules, s: Run, s1: Run, id: string)
    requires Reranked(s, s1) && GoesOnPlayer(s, id)
    ensures Income(rules, s1, s1.players[id]) == RoundPay(rules, s, id)
  {
    var t := s.players[id].team;
    if WonRound(s, t) {
      var i :| 0 <= i < |s.pairings| && s.pairings[i].winner == Some(t);
      assert s.pairings[i] in s1.pairings;
    }
    if p :| p in s1.pairings && p.winner == Some(t) {
      var i :| 0 <= i < |s1.pairings| && s1.pairings[i] == p;
    }
  }

  lemma NobodyPaid(rules: Rules, s: Run, r: Run)
    requires r.players == s.players && !TwoGoOn(s)
    ensures PaidForRound(rules, s, r)
  {
  }

  lemma ThenUnpaid(rules: Rules, s: Run, m: Run, r: Run)
    requires PaidForRound(rules, s, m) && Unpaid(m, r)
    ensures PaidForRound(rules, s, r)
  {
  }

  lemma UnpaidTrans(s: Run, m: Run, r: Run)
    requires Unpaid(s, m) && Unpaid(m, r)
    ensures Unpaid(s, r)
  {
  }

  /** With nobody in, a round's end pays nobody. */
  lemma NobodyIn(rules: Rules, s: Run, r: Run)
    requires PaidForRound(rules, s, r) && PlayersIn(s) == {}
    ensures Unpaid(s, r)
  {
    forall id | id in s.players ensures !GoesOnPlayer(s, id) { assert id !in PlayersIn(s); }
  }

  // ---- The four that call each other ----

  lemma ShopsOpenedUnpaid(setup: Setup, s: Run, chance: Chance, deadline: int)
    requires Fair(chance)
    ensures Unpaid(s, ShopsOpened(setup, s.(phase := Shop), chance).(deadlineMs := deadline))
  {
  }

  lemma {:induction false} OpenShopUnpaid(setup: Setup, s: Run, chance: Chance, now: int)
    requires OpenReady(setup, s) && Fair(chance) && 0 <= now
    ensures Unpaid(s, OpenShop(setup, s, chance, now).0)
    decreases RoundsLeft(setup, s), 3
  {
    hide OpenReady, ShopReady, Inv, Ready, EndShop, ShopsOpened, RoundsLeft, Fair;
    OpenShopSteps(setup, s, chance, now);
    SameGamePlayers(s, s.(phase := Shop));
    if PlayersIn(s.(phase := Shop)) == {} {
      var s2 := s.(phase := Shop, deadlineMs := 0);
      SameGamePlayers(s, s2);
      EndShopUnpaid(setup, s2, chance.coin, chance, now);
      UnpaidTrans(s, s2, EndShop(setup, s2, chance.coin, chance, now).0);
    } else {
      ShopsOpenedUnpaid(setup, s, chance, now + (setup.rules.shopSeconds + setup.rules.graceSeconds) * 1000);
    }
  }

  lemma {:induction false} EndShopUnpaid(setup: Setup, s: Run, bots: BotMatches, chance: Chance, now: int)
    requires ShopReady(setup, s) && Fair(chance) && 0 <= now && PlayersIn(s) == {}
    ensures Unpaid(s, EndShop(setup, s, bots, chance, now).0)
    decreases RoundsLeft(setup, s), 2
  {
    hide ShopReady, RoundReady, Inv, Ready, DecideBots, Advances, EndRound, RoundsLeft, Fair, Seated, AllDecided,
      PlayersIn;
    EndShopSteps(setup, s, bots, now);
    var s1 := s.(phase := Match, deadlineMs := now + setup.rules.matchDeadlineSeconds * 1000);
    var s2 := DecideBots(setup.rules, s1, bots, |s1.pairings|);
    AdvancesPlayers(s, s1, s2);
    if AllDecided(s2) {
      EndRoundPays(setup, s2, chance, now);
      NobodyIn(setup.rules, s2, EndRound(setup, s2, chance, now).0);
      UnpaidTrans(s, s2, EndRound(setup, s2, chance, now).0);
    }
  }

  lemma AdvancesPlayers(s: Run, s1: Run, s2: Run)
    requires s1 == s.(phase := s1.phase, deadlineMs := s1.deadlineMs) && Advances(s1, s2)
    ensures PlayersIn(s2) == PlayersIn(s) && Unpaid(s, s2) && s2.players == s.players
  {
  }

  /**
   * At a round's end, if two teams or more go on, every player of theirs is paid for it; nobody else's coins change,
   * and if no two go on, nobody's. Nothing else of a player changes but the shop they see.
   */
  lemma {:induction false} EndRoundPays(setup: Setup, s: Run, chance: Chance, now: int)
    requires RoundReady(setup, s) && Fair(chance) && 0 <= now
    ensures PaidForRound(setup.rules, s, EndRound(setup, s, chance, now).0)
    decreases RoundsLeft(setup, s), 1
  {
    hide StartReady, Inv, Ready, StartRound, Paid, WentOut, Crowned, OutNow, RoundReady, AllCheckedIn, Fair,
      PaidForRound,
      Unpaid, TwoGoOn, PlayersIn;
    EndRoundSteps(setup, s, now);
    WentOutReranks(s);
    OwnTeams(setup, s);
    LeftMeans(s);
    var s1 := WentOut(s);
    if Left(s1) <= 1 {
      NobodyPaid(setup.rules, s, EndRound(setup, s, chance, now).0) by { CrownedPlayers(s1); }
    } else {
      var s2 := Paid(setup.rules, s1).(phase := Results, deadlineMs := now + setup.rules.checkinSeconds * 1000);
      PaidHalf(setup.rules, s, s1, now + setup.rules.checkinSeconds * 1000);
      if AllCheckedIn(s2) {
        StartRoundUnpaid(setup, s2, chance, now);
        ThenUnpaid(setup.rules, s, s2, StartRound(setup, s2, chance, now).0);
      }
    }
  }

  lemma CrownedPlayers(s: Run)
    ensures Crowned(s).players == s.players
  {
  }

  lemma {:induction false} StartRoundUnpaid(setup: Setup, s: Run, chance: Chance, now: int)
    requires StartReady(setup, s) && Fair(chance) && 0 <= now
    ensures Unpaid(s, StartRound(setup, s, chance, now).0)
    decreases RoundsLeft(setup, s), 0
  {
    hide StartReady, OpenReady, Inv, Ready, PairRound, OpenShop, Launches, RoundsLeft, Fair;
    NextRoundOpens(setup, s, chance);
    var s1 := PairRound(s.(round := s.round + 1), chance);
    OpenShopUnpaid(setup, s1, chance, now);
    UnpaidTrans(s, s1, OpenShop(setup, s1, chance, now).0);
  }
}
