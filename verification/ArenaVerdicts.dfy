/**
 * What the end of a match leaves (ArenaRun.cs, lines 348-358, 409-415 and 461-530): who its reports and connections
 * make the winner, what its two teams gain and lose, and who is emptied; for one match reported, for all those never
 * reported, and for the bots' among themselves.
 */
module ArenaVerdicts {
  import opened Options
  import opened ArenaRules
  import opened ArenaTypes
  import opened ArenaSteps
  import opened ArenaInvariant
  import opened ArenaResults
  import opened ArenaTransitions
  import opened ArenaCalls

  // ---- What a match's end leaves ----

  /** All of a team's players, and it has one, have left their games. */
  ghost predicate AllGone(s: Run, t: int, connected: set<string>) {
    && 0 <= t < |s.teams|
    && (exists id :: id in s.teams[t].members && id in s.players && !s.players[id].isBot)
    && forall id | id in s.teams[t].members :: id !in connected
  }

  ghost predicate HasPlayers(s: Run, t: int) {
    0 <= t < |s.teams| && exists id :: id in s.teams[t].members && id in s.players && !s.players[id].isBot
  }

  /**
   * The winner: the side the reports name; with no report, both lose between two teams with players; against bots (or a
   * mirror) the players win, unless they have all left.
   */
  ghost predicate WonBy(s: Run, p: Pairing, side: Option<int>, connected: set<string>, winner: int) {
    && (side == Some(0) ==> winner == p.a)
    && (side == Some(1) ==> winner == p.b)
    && (side == None && HasPlayers(s, p.b) ==> winner == BOTH_LOST)
    && (side == None && !HasPlayers(s, p.b) ==> winner == if AllGone(s, p.a, connected) then p.b else p.a)
  }

  /**
   * A team after its match: one result more, its streaks, and the health the round's loss takes; or nothing left of it.
   */
  ghost predicate TeamAfter(rules: Rules, round: int, before: Team, after: Team, won: bool, emptied: bool)
  {
    && after == before.(wins := after.wins, losses := after.losses, winStreak := after.winStreak,
                        loseStreak := after.loseStreak, life := after.life)
    && after.wins == before.wins + (if won then 1 else 0) && after.losses == before.losses + (if won then 0 else 1)
    && after.winStreak == (if won then before.winStreak + 1 else 0)
    && after.loseStreak == (if won then 0 else before.loseStreak + 1)
    && after.life == if emptied then 0 else if won then before.life
      else before.life - Entry(rules.healthRoundValues, round - 1)
  }

  /** The i-th pairing, and its two teams; nothing else. */
  ghost predicate MatchAfter(rules: Rules, s: Run, m: Run, i: int, winner: int, connected: set<string>)
    requires 0 <= i < |s.pairings|
  {
    var p := s.pairings[i];
    && m == s.(teams := m.teams, pairings := s.pairings[i := p.(winner := Some(winner))]) && |m.teams| == |s.teams|
    && (forall t | 0 <= t < |s.teams| && p.Plays(t) ::
          TeamAfter(rules, s.round, s.teams[t], m.teams[t], winner == t, AllGone(s, t, connected)))
    && (forall t | 0 <= t < |s.teams| && !p.Plays(t) :: m.teams[t] == s.teams[t])
  }

  // ---- One match ----

  lemma GoneIsLeft(s: Run, t: int, connected: set<string>)
    ensures Gone(s, t, connected) == AllGone(s, t, connected)
    ensures HasPlayer(s, t) == HasPlayers(s, t)
  {
  }

  lemma OutcomeIs(rules: Rules, round: int, team: Team, won: bool, emptied: bool)
    requires Playable(rules)
    ensures TeamAfter(rules, round, team, Outcome(rules, round, team, won, emptied), won, emptied)
  {
  }

  lemma WinnerIs(s: Run, i: nat, side: Option<int>, connected: set<string>)
    requires i < |s.pairings| && (side.Some? ==> side.value in {0, 1})
    ensures WonBy(s, s.pairings[i], side, connected, WinnerBy(s, i, side, connected))
  {
    GoneIsLeft(s, s.pairings[i].a, connected);
    GoneIsLeft(s, s.pairings[i].b, connected);
  }

  lemma SettleLeaves(rules: Rules, s: Run, i: nat, side: Option<int>, connected: set<string>)
    requires Core(rules, s) && i < |s.pairings| && s.pairings[i].winner.None? && (side.Some? ==> side.value in {0, 1})
    ensures Playable(rules) && Seated(s)
    ensures var winner := WinnerBy(s, i, side, connected);
      WonBy(s, s.pairings[i], side, connected, winner)
      && MatchAfter(rules, s, Settle(rules, s, i, side, connected), i, winner, connected)
  {
    hide Core, Settle, Gone, WinnerBy, WonBy, AllGone, TeamAfter, Outcome;
    CoreSeated(rules, s);
    PairingIs(rules, s, i);
    SettleResolves(rules, s, i, side, connected);
    WinnerIs(s, i, side, connected);
    var p, winner := s.pairings[i], WinnerBy(s, i, side, connected);
    GoneIsLeft(s, p.a, connected);
    GoneIsLeft(s, p.b, connected);
    OutcomeIs(rules, s.round, s.teams[p.a], winner == p.a, Gone(s, p.a, connected));
    if p.b != MIRROR { OutcomeIs(rules, s.round, s.teams[p.b], winner == p.b, Gone(s, p.b, connected)); }
    Sides(s, i);
  }

  lemma Sides(s: Run, i: nat)
    requires i < |s.pairings| && PairingOk(s, i)
    ensures s.pairings[i].a != s.pairings[i].b && 0 <= s.pairings[i].a < |s.teams|
    ensures s.pairings[i].b == MIRROR || 0 <= s.pairings[i].b < |s.teams|
  {
  }

  // ---- A result reported ----

  /**
   * A result is taken exactly in an open shop or a round's matches, for an undecided match of the round, with a proper
   * side or none. It leaves that match decided for the side its reports name, its two teams with their result, and
   * exactly those of them emptied whose players have all left; and if that decides the round, the round ends on just
   * that.
   */
  lemma ResultLeaves(setup: Setup, s: Run, id: MatchId, side: Option<int>, connected: set<string>, chance: Chance,
    now: int)
    returns (m: Run, i: nat)
    requires Inv(setup, s) && Fair(chance) && 0 <= now
    ensures var (r, step) := MatchResult(setup, s, id, side, connected, chance, now);
      && (step.accepted <==>
            && s.phase in {Shop, Match} && (side.Some? ==> side.value in {0, 1})
            && exists j :: 0 <= j < |s.pairings| && s.pairings[j].matchId == Some(id) && s.pairings[j].winner.None?)
      && (!step.accepted ==> r == s)
      && (step.accepted ==>
            && i < |s.pairings| && s.pairings[i].matchId == Some(id) && s.pairings[i].winner.None?
            && m.pairings != [] && i < |m.pairings| && m.pairings[i].winner.Some?
            && WonBy(s, s.pairings[i], side, connected, m.pairings[i].winner.value)
            && MatchAfter(setup.rules, s, m, i, m.pairings[i].winner.value, connected)
            && (if s.phase == Match && AllDecided(m)
                then RoundReady(setup, m) && r == EndRound(setup, m, chance, now).0
                else r == m))
  {
    hide Inv, RoundReady, Settle, Spares, WinnerBy, EndRound, WonBy, MatchAfter, Fair, Advances;
    m, i := s, 0;
    MayEndIs(setup, s, id, side);
    if MayEnd(s, id, side) {
      i := FindMatch(s.pairings, id, 0);
      ResultKeeps(setup, s, id, side, connected);
      m := Settle(setup.rules, s, i, side, connected);
      SettleLeaves(setup.rules, s, i, side, connected) by { CoreOf(setup, s); }
      MatchStays(setup, s, m, i, WinnerBy(s, i, side, connected), connected);
    }
  }

  lemma CoreOf(setup: Setup, s: Run)
    requires Inv(setup, s)
    ensures Core(setup.rules, s) && Playable(setup.rules)
  {
  }

  lemma MatchStays(setup: Setup, s: Run, m: Run, i: nat, winner: int, connected: set<string>)
    requires Playable(setup.rules) && i < |s.pairings| && MatchAfter(setup.rules, s, m, i, winner, connected)
    ensures |m.pairings| == |s.pairings| && m.pairings[i].winner == Some(winner) && m.phase == s.phase
  {
    hide TeamAfter, AllGone;
  }

  lemma MayEndIs(setup: Setup, s: Run, id: MatchId, side: Option<int>)
    requires Inv(setup, s)
    ensures MayEnd(s, id, side) <==>
      && s.phase in {Shop, Match} && (side.Some? ==> side.value in {0, 1})
      && exists j :: 0 <= j < |s.pairings| && s.pairings[j].matchId == Some(id) && s.pairings[j].winner.None?
  {
    hide Rostered, Histories, Ranked, Records, Counted, Ready, PlayersOk, PhaseOk;
    var i := FindMatch(s.pairings, id, 0);
    if j :| 0 <= j < |s.pairings| && s.pairings[j].matchId == Some(id) && s.pairings[j].winner.None? {
      assert PairingOk(s, j) && i <= j && PairingOk(s, i);
    }
  }

  // ---- Those never reported ----

  /**
   * The first k pairings, those of them that were undecided, each as its own match's end; everything else as it was. A
   * team's match is its own: no two of them share one.
   */
  ghost predicate UnreportedAfter(rules: Rules, s: Run, m: Run, k: int, connected: set<string>)
    requires 0 <= k <= |s.pairings|
  {
    && m == s.(teams := m.teams, pairings := m.pairings) && |m.teams| == |s.teams| && |m.pairings| == |s.pairings|
    && (forall i | 0 <= i < |s.pairings| && (k <= i || s.pairings[i].winner.Some?) :: m.pairings[i] == s.pairings[i])
    && (forall i | 0 <= i < k && s.pairings[i].winner.None? :: EndedAs(rules, s, m, i, connected))
    && (forall t | 0 <= t < |s.teams| && !UndecidedFor(s, t, k) :: m.teams[t] == s.teams[t])
  }

  ghost predicate UndecidedFor(s: Run, t: int, k: int) {
    exists i :: 0 <= i < k && i < |s.pairings| && s.pairings[i].winner.None? && s.pairings[i].Plays(t)
  }

  /** The i-th match ended with no report. */
  ghost predicate EndedAs(rules: Rules, s: Run, m: Run, i: int, connected: set<string>)
    requires 0 <= i < |s.pairings|
  {
    && i < |m.pairings| && |m.teams| == |s.teams|
    && m.pairings[i].winner.Some? && m.pairings[i] == s.pairings[i].(winner := m.pairings[i].winner)
    && WonBy(s, s.pairings[i], None, connected, m.pairings[i].winner.value)
    && forall t | 0 <= t < |s.teams| && s.pairings[i].Plays(t) ::
         TeamAfter(rules, s.round, s.teams[t], m.teams[t], m.pairings[i].winner == Some(t), AllGone(s, t, connected))
  }

  /** Who plays is as it was: so is who has left, and who would win. */
  lemma SameSeats(s: Run, m: Run)
    requires SameBoard(s, m)
    ensures forall t, connected :: AllGone(m, t, connected) == AllGone(s, t, connected)
    ensures forall p, side, connected, w :: WonBy(m, p, side, connected, w) == WonBy(s, p, side, connected, w)
  {
    forall t ensures HasPlayers(m, t) == HasPlayers(s, t) {}
    forall t, connected ensures AllGone(m, t, connected) == AllGone(s, t, connected) {}
  }

  lemma OneMatch(s: Run, i: int, j: int, t: int)
    requires Matched(s) && 0 <= i < |s.pairings| && 0 <= j < |s.pairings| && 0 <= t < |s.teams|
    requires s.pairings[i].Plays(t) && s.pairings[j].Plays(t)
    ensures i == j
  {
  }

  /** Until its own match ends a team is as it was. */
  lemma NotYet(rules: Rules, s: Run, m: Run, k: int, connected: set<string>, t: int)
    requires 0 <= k < |s.pairings| && UnreportedAfter(rules, s, m, k, connected)
    requires Matched(s) && 0 <= t < |s.teams| && s.pairings[k].Plays(t)
    ensures m.teams[t] == s.teams[t] && !UndecidedFor(s, t, k)
  {
    hide EndedAs;
  }

  lemma StillEnded(rules: Rules, s: Run, m: Run, r: Run, k: int, i: int, connected: set<string>)
    requires 0 <= i < k < |s.pairings| == |m.pairings| && Matched(s)
    requires EndedAs(rules, s, m, i, connected)
    requires |r.pairings| == |m.pairings| && r.pairings == m.pairings[k := r.pairings[k]] && |r.teams| == |m.teams|
    requires forall t | 0 <= t < |s.teams| && !s.pairings[k].Plays(t) :: r.teams[t] == m.teams[t]
    ensures EndedAs(rules, s, r, i, connected)
  {
    hide TeamAfter, AllGone, WonBy;
    forall t | 0 <= t < |s.teams| && s.pairings[i].Plays(t) ensures r.teams[t] == m.teams[t] {
      if s.pairings[k].Plays(t) { OneMatch(s, i, k, t); }
    }
  }

  lemma UnreportedStep(rules: Rules, s: Run, m: Run, k: nat, connected: set<string>)
    requires Playable(rules) && Core(rules, m) && Seated(m) && Matched(s) && SameBoard(s, m)
    requires k < |s.pairings| && UnreportedAfter(rules, s, m, k, connected)
    ensures UnreportedAfter(rules, s, SettleIfOpen(rules, m, connected, k), k + 1, connected)
  {
    hide Core, Settle, WonBy, TeamAfter, AllGone, EndedAs, Matched, WinnerBy, UndecidedFor;
    UndecidedMore(s, k);
    var r := SettleIfOpen(rules, m, connected, k);
    if s.pairings[k].winner.None? {
      SettleLeaves(rules, m, k, None, connected);
      SameSeats(s, m);
      forall t | 0 <= t < |s.teams| && s.pairings[k].Plays(t) ensures m.teams[t] == s.teams[t] {
        NotYet(rules, s, m, k, connected, t);
      }
      assert EndedAs(rules, s, r, k, connected) by { JustEnded(rules, s, m, r, k, connected); }
      forall i | 0 <= i < k && s.pairings[i].winner.None? ensures EndedAs(rules, s, r, i, connected) {
        StillEnded(rules, s, m, r, k, i, connected);
      }
    }
  }

  lemma UndecidedMore(s: Run, k: nat)
    requires k < |s.pairings|
    ensures forall t :: UndecidedFor(s, t, k + 1) <==>
      UndecidedFor(s, t, k) || (s.pairings[k].winner.None? && s.pairings[k].Plays(t))
  {
  }

  lemma JustEnded(rules: Rules, s: Run, m: Run, r: Run, k: nat, connected: set<string>)
    requires k < |s.pairings| == |m.pairings| && m.round == s.round
    requires m.pairings[k] == s.pairings[k] && |m.teams| == |s.teams|
    requires forall t | 0 <= t < |s.teams| && s.pairings[k].Plays(t) :: m.teams[t] == s.teams[t]
    requires forall t :: AllGone(m, t, connected) == AllGone(s, t, connected)
    requires var winner := WinnerBy(m, k, None, connected);
      WonBy(s, s.pairings[k], None, connected, winner) && MatchAfter(rules, m, r, k, winner, connected)
    ensures EndedAs(rules, s, r, k, connected)
  {
    hide WonBy, TeamAfter, AllGone, WinnerBy;
  }

  lemma NoneEndedYet(rules: Rules, s: Run, connected: set<string>)
    requires Playable(rules)
    ensures UnreportedAfter(rules, s, s, 0, connected)
  {
  }

  lemma {:induction false} OpenLeaves(rules: Rules, s: Run, connected: set<string>, k: nat)
    requires Core(rules, s) && k <= |s.pairings|
    ensures Playable(rules) && Seated(s)
    ensures UnreportedAfter(rules, s, SettleOpen(rules, s, connected, k), k, connected)
  {
    hide Core, SettleIfOpen, UnreportedAfter, SweptTo, Matched;
    CoreSeated(rules, s);
    if k == 0 {
      NoneEndedYet(rules, s, connected);
    } else {
      OpenLeaves(rules, s, connected, k - 1);
      SettleOpenKeeps(rules, s, connected, k - 1);
      UnreportedStep(rules, s, SettleOpen(rules, s, connected, k - 1), k - 1, connected) by { MatchedIn(rules, s); }
    }
  }

  lemma MatchedIn(rules: Rules, s: Run)
    requires Core(rules, s)
    ensures Matched(s)
  {
  }

  /**
   * At the match deadline every match still undecided ends as one never reported, each for its own two teams, and the
   * round ends on just that.
   */
  lemma DeadlineLeaves(setup: Setup, s: Run, bots: BotMatches, chance: Chance, now: int, connected: set<string>)
    returns (m: Run)
    requires Inv(setup, s) && s.phase == Match && s.deadlineMs <= now && Fair(chance) && 0 <= now
    ensures Playable(setup.rules) && UnreportedAfter(setup.rules, s, m, |s.pairings|, connected)
    ensures RoundReady(setup, m) && Tick(setup, s, bots, chance, now, connected).0 == EndRound(setup, m, chance, now).0
  {
    hide Core, Ready, SettleOpen, UnreportedAfter, EndRound, RoundReady, Advances, Fair;
    DeadlineThere(setup, s);
    UnreportedKeeps(setup, s, connected);
    OpenLeaves(setup.rules, s, connected, |s.pairings|) by { CoreOf(setup, s); }
    m := SettleOpen(setup.rules, s, connected, |s.pairings|);
  }

  lemma DeadlineThere(setup: Setup, s: Run)
    requires Inv(setup, s) && s.phase == Match
    ensures 0 < s.deadlineMs
  {
  }

  // ---- The bots' ----

  /** Exactly the matches between bots are decided, as the bots' matches went; everything else is as it was. */
  ghost predicate BotsAfter(rules: Rules, s: Run, m: Run, bots: BotMatches, k: int)
    requires 0 <= k <= |s.pairings|
  {
    && m == s.(teams := m.teams, pairings := m.pairings) && |m.teams| == |s.teams| && |m.pairings| == |s.pairings|
    && (forall i | 0 <= i < |s.pairings| ::
          m.pairings[i] == if i < k && !s.pairings[i].hasPlayer
                           then s.pairings[i].(winner := Some(if bots(s.round, i) then s.pairings[i].a
                           else s.pairings[i].b))
                           else s.pairings[i])
    && (forall t | 0 <= t < |s.teams| && !BotsFor(s, t, k) :: m.teams[t] == s.teams[t])
    && (forall i, t | 0 <= i < k && !s.pairings[i].hasPlayer && 0 <= t < |s.teams| && s.pairings[i].Plays(t) ::
          TeamAfter(rules, s.round, s.teams[t], m.teams[t], m.pairings[i].winner == Some(t), false))
  }

  ghost predicate BotsFor(s: Run, t: int, k: int) {
    exists i :: 0 <= i < k && i < |s.pairings| && !s.pairings[i].hasPlayer && s.pairings[i].Plays(t)
  }

  lemma DecideLeaves(rules: Rules, s: Run, i: nat, winner: int)
    requires Core(rules, s) && i < |s.pairings| && s.pairings[i].winner.None?
    requires winner in {s.pairings[i].a, s.pairings[i].b}
    ensures Playable(rules) && Seated(s) && s.pairings[i] in s.pairings
    ensures var p, m := s.pairings[i], Decide(rules, s, i, winner);
      && m == s.(teams := m.teams, pairings := s.pairings[i := p.(winner := Some(winner))]) && |m.teams| == |s.teams|
      && (forall t | 0 <= t < |s.teams| && p.Plays(t) ::
            TeamAfter(rules, s.round, s.teams[t], m.teams[t], winner == t, false))
      && (forall t | 0 <= t < |s.teams| && !p.Plays(t) :: m.teams[t] == s.teams[t])
  {
    hide Core, Decide, TeamAfter, Outcome;
    CoreSeated(rules, s);
    PairingIs(rules, s, i);
    DecideResolves(rules, s, i, winner);
    var p := s.pairings[i];
    OutcomeIs(rules, s.round, s.teams[p.a], winner == p.a, false);
    if p.b != MIRROR { OutcomeIs(rules, s.round, s.teams[p.b], winner == p.b, false); }
    Sides(s, i);
  }

  lemma BotsMore(s: Run, k: nat)
    requires k < |s.pairings|
    ensures forall t :: BotsFor(s, t, k + 1) <==>
      BotsFor(s, t, k) || (!s.pairings[k].hasPlayer && s.pairings[k].Plays(t))
  {
  }

  lemma BotsNotYet(s: Run, k: nat, t: int)
    requires Matched(s) && k < |s.pairings| && 0 <= t < |s.teams| && s.pairings[k].Plays(t)
    ensures !BotsFor(s, t, k)
  {
    if i :| 0 <= i < k && !s.pairings[i].hasPlayer && s.pairings[i].Plays(t) { OneMatch(s, i, k, t); }
  }

  lemma BotsStep(rules: Rules, s: Run, m: Run, bots: BotMatches, k: nat)
    requires Playable(rules) && Core(rules, m) && Seated(m) && Matched(s) && BotsOpen(s)
    requires k < |s.pairings| && BotsAfter(rules, s, m, bots, k)
    ensures BotsAfter(rules, s, DecideBot(rules, m, bots, k), bots, k + 1)
  {
    hide Core, Decide, TeamAfter, Matched, BotsFor;
    BotsMore(s, k);
    assert s.pairings[k] in s.pairings;
    var p, r := m.pairings[k], DecideBot(rules, m, bots, k);
    if !p.hasPlayer {
      DecideLeaves(rules, m, k, if bots(m.round, k) then p.a else p.b);
      forall t | 0 <= t < |s.teams| && p.Plays(t) ensures m.teams[t] == s.teams[t] { BotsNotYet(s, k, t); }
      forall i, t | 0 <= i < k && !s.pairings[i].hasPlayer && 0 <= t < |s.teams| && s.pairings[i].Plays(t)
        ensures r.teams[t] == m.teams[t]
      {
        if p.Plays(t) { OneMatch(s, i, k, t); }
      }
    }
  }

  lemma {:induction false} BotsLeave(rules: Rules, s: Run, bots: BotMatches, k: nat)
    requires Core(rules, s) && BotsOpen(s) && k <= |s.pairings|
    ensures Playable(rules) && Seated(s)
    ensures BotsAfter(rules, s, DecideBots(rules, s, bots, k), bots, k)
  {
    hide Core, DecideBot, Matched, BotsAfter, BotsSwept, BotsOpen;
    CoreSeated(rules, s);
    if k == 0 {
      NoBotsYet(rules, s, bots);
    } else {
      BotsLeave(rules, s, bots, k - 1);
      DecideBotsKeeps(rules, s, bots, k - 1);
      BotsStep(rules, s, DecideBots(rules, s, bots, k - 1), bots, k - 1) by { MatchedIn(rules, s); }
    }
  }

  lemma NoBotsYet(rules: Rules, s: Run, bots: BotMatches)
    requires Playable(rules)
    ensures BotsAfter(rules, s, s, bots, 0)
  {
  }

  /**
   * Closing the shop decides exactly the matches between bots, and the phase is the matches', with their deadline; with
   * none left for players, the round ends on just that.
   */
  lemma ShopEndLeaves(setup: Setup, s: Run, bots: BotMatches, chance: Chance, now: int) returns (m: Run)
    requires ShopReady(setup, s) && Fair(chance) && 0 <= now
    ensures Playable(setup.rules)
    ensures BotsAfter(setup.rules, s.(phase := Match, deadlineMs := now + setup.rules.matchDeadlineSeconds * 1000), m,
      bots,
                      |s.pairings|)
    ensures if AllDecided(m) then RoundReady(setup, m)
      && EndShop(setup, s, bots, chance, now).0 == EndRound(setup, m, chance, now).0
            else EndShop(setup, s, bots, chance, now).0 == m
  {
    hide ShopReady, RoundReady, Inv, Ready, DecideBots, Advances, EndRound, RoundsLeft, Fair, Seated, AllDecided,
      BotsAfter,
      Core;
    EndShopSteps(setup, s, bots, now);
    var s1 := s.(phase := Match, deadlineMs := now + setup.rules.matchDeadlineSeconds * 1000);
    ShopBots(setup, s, bots, now + setup.rules.matchDeadlineSeconds * 1000);
    BotsLeave(setup.rules, s1, bots, |s1.pairings|);
    m := DecideBots(setup.rules, s1, bots, |s1.pairings|);
  }

  lemma ShopBots(setup: Setup, s: Run, bots: BotMatches, deadline: int)
    requires ShopReady(setup, s)
    ensures var s1 := s.(phase := Match, deadlineMs := deadline); Core(setup.rules, s1) && BotsOpen(s1)
  {
    hide Core, DecideBots;
    ShopDecides(setup, s, bots, deadline);
  }
}
