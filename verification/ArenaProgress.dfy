/**
 * How a run goes on, from any moment to any later one: what never changes, what only moves one way, and what is told
 * when.
 */
module ArenaProgress {
  import opened ArenaRules
  import opened ArenaTypes
  import opened ArenaSteps
  import opened ArenaInvariant
  import opened ArenaRounds
  import opened ArenaPairing
  import opened ArenaTransitions

  // ---- What is told ----

  function EndedIn(effects: seq<Effect>): seq<int> {
    if effects == [] then []
    else (if effects[0].TeamsEnded? then effects[0].teams else []) + EndedIn(effects[1..])
  }

  function LaunchedIn(effects: seq<Effect>): seq<nat> {
    if effects == [] then []
    else (if effects[0].LaunchPairing? then [effects[0].pairing] else []) + LaunchedIn(effects[1..])
  }

  /** The pairings with a player among the first k, by index. */
  function PlayerPairings(pairings: seq<Pairing>, k: nat): seq<nat>
    requires k <= |pairings|
  {
    if k == 0 then [] else PlayerPairings(pairings, k - 1) + if pairings[k - 1].hasPlayer then [k - 1] else []
  }

  lemma {:induction false} EndedAdd(e: seq<Effect>, f: seq<Effect>)
    ensures EndedIn(e + f) == EndedIn(e) + EndedIn(f)
  {
    if e == [] { assert e + f == f; } else {
      assert (e + f)[1..] == e[1..] + f && (e + f)[0] == e[0];
      EndedAdd(e[1..], f);
    }
  }

  lemma {:induction false} LaunchedAdd(e: seq<Effect>, f: seq<Effect>)
    ensures LaunchedIn(e + f) == LaunchedIn(e) + LaunchedIn(f)
  {
    if e == [] { assert e + f == f; } else {
      assert (e + f)[1..] == e[1..] + f && (e + f)[0] == e[0];
      LaunchedAdd(e[1..], f);
    }
  }

  lemma NothingTold()
    ensures LaunchedIn([]) == [] && EndedIn([]) == []
  {
  }

  lemma EndedTold(teams: seq<int>)
    ensures EndedIn([TeamsEnded(teams)]) == teams && LaunchedIn([TeamsEnded(teams)]) == []
  {
    assert [TeamsEnded(teams)][1..] == [];
  }

  lemma OneLaunch(pairing: nat)
    ensures LaunchedIn([LaunchPairing(pairing)]) == [pairing] && EndedIn([LaunchPairing(pairing)]) == []
  {
    assert [LaunchPairing(pairing)][1..] == [];
  }

  lemma {:induction false} LaunchesTold(pairings: seq<Pairing>, k: nat)
    requires k <= |pairings|
    ensures LaunchedIn(Launches(pairings, k)) == PlayerPairings(pairings, k) && EndedIn(Launches(pairings, k)) == []
    ensures forall e | e in Launches(pairings, k) :: e.LaunchPairing?
  {
    hide LaunchedIn, EndedIn;
    if k == 0 {
      NothingTold();
    } else {
      OneLaunch(k - 1);
      NothingTold();
      LaunchesTold(pairings, k - 1);
      var last := if pairings[k - 1].hasPlayer then [LaunchPairing(k - 1)] else [];
      LaunchedAdd(Launches(pairings, k - 1), last);
      EndedAdd(Launches(pairings, k - 1), last);
    }
  }

  // ---- From one moment to a later one ----

  /** Who plays does not change; a team that is out, and its players, never change again. */
  ghost predicate Frozen(s: Run, r: Run) {
    && |r.teams| == |s.teams| && r.players.Keys == s.players.Keys
    && (forall t | 0 <= t < |s.teams| :: r.teams[t].members == s.teams[t].members)
    && (forall id | id in s.players ::
      r.players[id].isBot == s.players[id].isBot && r.players[id].team == s.players[id].team)
    && (forall t | 0 <= t < |s.teams| && !s.teams[t].In() :: r.teams[t] == s.teams[t])
    && (forall id | id in s.players && !TeamIn(s, s.players[id].team) :: r.players[id] == s.players[id])
  }

  function PhaseIndex(phase: Phase): nat {
    match phase case CharacterSelect => 0 case Shop => 1 case Match => 2 case Results => 3 case Ended => 4
  }

  /** Where a run is: the round, then the phase. */
  function Clock(s: Run): int {
    5 * s.round + PhaseIndex(s.phase)
  }

  /** Time runs one way: rounds and phases, health, histories, and the results of a round's pairings. */
  ghost predicate Onward(s: Run, r: Run) {
    && Clock(s) <= Clock(r) && |r.teams| == |s.teams|
    && (forall t | 0 <= t < |s.teams| ::
      r.teams[t].life <= s.teams[t].life && s.teams[t].opponents <= r.teams[t].opponents)
    && (r.round == s.round ==>
      |r.pairings| == |s.pairings| && forall i | 0 <= i < |s.pairings| :: KeptResult(s.pairings[i], r.pairings[i]))
  }

  ghost predicate KeptResult(p: Pairing, q: Pairing) {
    q == p.(winner := q.winner) && (p.winner.Some? ==> q == p)
  }

  /** The teams told that their Arena has ended are those that went out, each once. */
  ghost predicate Told(s: Run, r: Run, effects: seq<Effect>) {
    NoRepeats(EndedIn(effects)) && forall t :: t in EndedIn(effects) <==> TeamIn(s, t) && !TeamIn(r, t)
  }

  /** The Arena's finish is told once, last, when it is entered; nothing happens after it. */
  ghost predicate Finishes(s: Run, r: Run, effects: seq<Effect>) {
    && (forall i | 0 <= i < |effects| && effects[i] == ArenaFinished :: i == |effects| - 1)
    && (ArenaFinished in effects <==> s.phase != Ended && r.phase == Ended)
    && (s.phase == Ended ==> r == s && effects == [])
  }

  ghost predicate Follows(s: Run, r: Run, effects: seq<Effect>) {
    Frozen(s, r) && Onward(s, r) && Told(s, r, effects) && Finishes(s, r, effects)
  }

  /**
   * A step that starts a round launches exactly that round's pairings with a player; any other step launches nothing.
   */
  ghost predicate Launched(s: Run, r: Run, effects: seq<Effect>) {
    LaunchedIn(effects) == if r.round == s.round then [] else PlayerPairings(r.pairings, |r.pairings|)
  }

  lemma OnwardTrans(s: Run, m: Run, r: Run)
    requires Onward(s, m) && Onward(m, r)
    ensures Onward(s, r)
  {
    if r.round == s.round {
      forall i | 0 <= i < |s.pairings| ensures KeptResult(s.pairings[i], r.pairings[i]) {
        assert KeptResult(s.pairings[i], m.pairings[i]) && KeptResult(m.pairings[i], r.pairings[i]);
      }
    }
  }

  lemma ToldTrans(s: Run, m: Run, r: Run, e: seq<Effect>, f: seq<Effect>)
    requires Told(s, m, e) && Told(m, r, f) && Frozen(s, m) && Frozen(m, r)
    ensures Told(s, r, e + f)
  {
    EndedAdd(e, f);
    var a, b := EndedIn(e), EndedIn(f);
    forall t ensures t in a + b <==> TeamIn(s, t) && !TeamIn(r, t) {}
    forall i, j | 0 <= i < j < |a + b| ensures (a + b)[i] != (a + b)[j] {
      if i < |a| <= j { assert a[i] in a && b[j - |a|] in b; }
    }
  }

  lemma FinishesTrans(s: Run, m: Run, r: Run, e: seq<Effect>, f: seq<Effect>)
    requires Finishes(s, m, e) && Finishes(m, r, f)
    ensures Finishes(s, r, e + f)
  {
    if m.phase == Ended { assert e + f == e; }
    else { assert ArenaFinished !in e; }
    forall i | 0 <= i < |e + f| && (e + f)[i] == ArenaFinished ensures i == |e + f| - 1 {
      if i < |e| { assert e[i] in e; }
    }
  }

  lemma FollowsTrans(s: Run, m: Run, r: Run, e: seq<Effect>, f: seq<Effect>)
    requires Follows(s, m, e) && Follows(m, r, f)
    ensures Follows(s, r, e + f)
  {
    hide Onward, Told, Finishes;
    OnwardTrans(s, m, r);
    ToldTrans(s, m, r, e, f);
    FinishesTrans(s, m, r, e, f);
  }

  lemma QuietTrans(s: Run, m: Run, r: Run)
    requires Follows(s, m, []) && Follows(m, r, [])
    ensures Follows(s, r, [])
  {
    var none: seq<Effect> := [];
    FollowsTrans(s, m, r, none, none);
    assert none + none == none;
  }

  // ---- Each part of a step ----

  lemma AdvancesFollow(s: Run, r: Run)
    requires Advances(s, r) && s.phase != Ended
    ensures Follows(s, r, [])
  {
    forall i | 0 <= i < |s.pairings| ensures KeptResult(s.pairings[i], r.pairings[i]) {}
  }

  /** A change of players in, the phase and the deadline. */
  lemma SameGameFollows(s: Run, r: Run)
    requires SameGame(s, r) && s.phase != Ended && r.phase != Ended && PhaseIndex(s.phase) <= PhaseIndex(r.phase)
    requires forall id | id in s.players && !TeamIn(s, s.players[id].team) :: r.players[id] == s.players[id]
    ensures Follows(s, r, [])
  {
    forall i | 0 <= i < |s.pairings| ensures KeptResult(s.pairings[i], r.pairings[i]) {}
  }

  lemma PairedFollows(rules: Rules, s: Run, order: seq<int>, r: Run)
    requires JustPaired(s.(round := s.round + 1), order, r) && OrderOf(s.(round := s.round + 1), order)
    requires s.phase == Results
    ensures Follows(s, r.(phase := Shop), [])
  {
    NotMirror(s.(round := s.round + 1), order);
    forall t | 0 <= t < |s.teams| && !s.teams[t].In() ensures t !in order {}
  }

  lemma WentOutFollows(s: Run, r: Run, effects: seq<Effect>)
    requires s.phase == Match && Reranked(s, r) && (forall t | t in OutNow(s.teams) :: !r.teams[t].In())
    requires forall t | 0 <= t < |s.teams| && s.teams[t].In() && t !in OutNow(s.teams) :: r.teams[t].In()
    requires effects == if OutNow(s.teams) == [] then [] else [TeamsEnded(OutNow(s.teams))]
    ensures Follows(s, r, effects)
  {
    hide OutNow, InOrder, EndedIn, Frozen, Onward, Reranked;
    OutNowInOrder(s.teams);
    NothingTold();
    EndedTold(OutNow(s.teams));
    WentOutOnward(s, r);
    WentOutTells(s, r);
  }

  lemma WentOutTells(s: Run, r: Run)
    requires Reranked(s, r) && (forall t | t in OutNow(s.teams) :: !r.teams[t].In())
    requires forall t | 0 <= t < |s.teams| && s.teams[t].In() && t !in OutNow(s.teams) :: r.teams[t].In()
    ensures r.phase == s.phase && forall t :: t in OutNow(s.teams) <==> TeamIn(s, t) && !TeamIn(r, t)
  {
    hide OutNow;
  }

  lemma WentOutOnward(s: Run, r: Run)
    requires s.phase == Match && Reranked(s, r)
    ensures Frozen(s, r) && Onward(s, r)
  {
    forall i | 0 <= i < |s.pairings| ensures KeptResult(s.pairings[i], r.pairings[i]) {}
  }

  /** A run's last round: those who go out and the one left are told, and the Arena's finish. */
  lemma EndedFollows(s: Run, r: Run, still: seq<int>)
    requires s.phase == Match && r.phase == Ended && r == s.(teams := r.teams, phase := Ended, deadlineMs := 0)
    requires Reranked(s, s.(teams := r.teams)) && forall t | 0 <= t < |r.teams| :: !r.teams[t].In()
    requires |still| <= 1 && forall t :: t in still <==> TeamIn(s, t) && t !in OutNow(s.teams)
    ensures Follows(s, r, [TeamsEnded(still + OutNow(s.teams)), ArenaFinished])
  {
    hide OutNow, Reranked;
    var out := OutNow(s.teams);
    var effects := [TeamsEnded(still + out), ArenaFinished];
    assert EndedIn([ArenaFinished]) == [] by { assert [ArenaFinished][1..] == []; }
    assert effects[1..] == [ArenaFinished];
    assert EndedIn(effects) == still + out;
    LastOnes(s.teams, still);
    EndedOnward(s, r);
  }

  lemma LastOnes(teams: seq<Team>, still: seq<int>)
    requires |still| <= 1 && forall t | t in still :: t !in OutNow(teams)
    ensures NoRepeats(still + OutNow(teams))
  {
    OutNowInOrder(teams);
    if still != [] { assert still[0] in still; }
  }

  lemma EndedOnward(s: Run, r: Run)
    requires s.phase == Match && r.phase == Ended && r == s.(teams := r.teams, phase := Ended, deadlineMs := 0)
    requires Reranked(s, s.(teams := r.teams))
    ensures Frozen(s, r) && Onward(s, r)
  {
    forall i | 0 <= i < |s.pairings| ensures KeptResult(s.pairings[i], r.pairings[i]) {}
  }

  // ---- The four that call each other ----

  /** What a part of a step leaves behind, begun at s: a later moment, told and launched right, its deadline ahead. */
  ghost predicate Sound(s: Run, r: Run, effects: seq<Effect>, now: int) {
    Follows(s, r, effects) && Launched(s, r, effects) && (r.deadlineMs == 0 || now < r.deadlineMs)
  }

  /** Nobody with a player is left in: no pairing of this round has a player, nor of any later one. */
  ghost predicate OnlyBots(s: Run) {
    forall t | 0 <= t < |s.teams| && HasPlayer(s, t) :: !s.teams[t].In() && |s.teams[t].opponents| < s.round
  }

  lemma BotsStay(s: Run, r: Run)
    requires OnlyBots(s) && Frozen(s, r) && s.round <= r.round
    ensures OnlyBots(r)
  {
    forall t | 0 <= t < |r.teams| && HasPlayer(r, t) ensures HasPlayer(s, t) {
      PlayerSame(s, r, t);
    }
  }

  lemma {:induction false} NoPlayerPairings(pairings: seq<Pairing>, k: nat)
    requires k <= |pairings| && forall i | 0 <= i < |pairings| :: !pairings[i].hasPlayer
    ensures PlayerPairings(pairings, k) == [] && Launches(pairings, k) == []
  {
    if k > 0 { NoPlayerPairings(pairings, k - 1); }
  }

  lemma BotsLaunchNothing(rules: Rules, r: Run)
    requires Core(rules, r) && OnlyBots(r)
    ensures PlayerPairings(r.pairings, |r.pairings|) == [] && Launches(r.pairings, |r.pairings|) == []
  {
    forall i | 0 <= i < |r.pairings| ensures !r.pairings[i].hasPlayer { assert PairingOk(r, i); }
    NoPlayerPairings(r.pairings, |r.pairings|);
  }

  lemma NobodyIn(rules: Rules, s: Run)
    requires Core(rules, s) && AllPlaying(s) && PlayersIn(s) == {}
    ensures OnlyBots(s)
  {
    forall t | 0 <= t < |s.teams| && HasPlayer(s, t) ensures !s.teams[t].In() && |s.teams[t].opponents| < s.round {
      var m :| m in s.teams[t].members && m in s.players && !s.players[m].isBot;
      assert s.players[m].team == t && m !in PlayersIn(s);
    }
  }

  lemma DeadlineAhead(setup: Setup, now: int)
    requires Ready(setup)
    ensures now < now + (setup.rules.shopSeconds + setup.rules.graceSeconds) * 1000
    ensures now < now + setup.rules.matchDeadlineSeconds * 1000 && now < now + setup.rules.checkinSeconds * 1000
  {
  }

  lemma SoundAfter(s: Run, m: Run, r: Run, e: seq<Effect>, f: seq<Effect>, now: int)
    requires Follows(s, m, e) && m.round == s.round && LaunchedIn(e) == [] && Sound(m, r, f, now)
    ensures Sound(s, r, e + f, now)
  {
    hide Frozen, Onward, Told, Finishes;
    FollowsTrans(s, m, r, e, f);
    LaunchedAdd(e, f);
  }

  lemma {:induction false} OpenShopSound(setup: Setup, s: Run, chance: Chance, now: int)
    requires OpenReady(setup, s) && Fair(chance) && 0 <= now && s.phase != Ended
    ensures var r := OpenShop(setup, s, chance, now); Sound(s.(phase := Shop), r.0, r.1, now)
    ensures PlayersIn(s) == {} ==> OnlyBots(s)
    decreases RoundsLeft(setup, s), 3
  {
    hide OpenReady, ShopReady, Inv, Ready, Follows, EndShop, ShopsOpened, RoundsLeft, Fair, LaunchedIn, PlayerPairings,
      OnlyBots;
    OpenShopSteps(setup, s, chance, now);
    var s1 := s.(phase := Shop);
    SameGamePlayers(s, s1);
    if PlayersIn(s) == {} {
      OpenNobody(setup, s);
      var s2 := s1.(deadlineMs := 0);
      EndShopSound(setup, s2, chance.coin, chance, now);
      Retimed(s1, s2);
      NothingTold();
      var r := EndShop(setup, s2, chance.coin, chance, now);
      SoundAfter(s1, s2, r.0, [], r.1, now);
      assert [] + r.1 == r.1;
    } else {
      OpenedFollows(setup, s1, chance, now);
    }
  }

  lemma OpenNobody(setup: Setup, s: Run)
    requires OpenReady(setup, s) && PlayersIn(s) == {}
    ensures OnlyBots(s)
  {
    hide Core;
    NobodyIn(setup.rules, s);
  }

  lemma Retimed(s: Run, r: Run)
    requires s.phase != Ended && r == s.(deadlineMs := r.deadlineMs)
    ensures Follows(s, r, [])
  {
    SameGameFollows(s, r);
  }

  lemma FollowsQuietly(s: Run, r: Run)
    requires Follows(s, r, []) && s.phase != Ended && r.phase != Ended
    ensures Follows(s, r, [SendPhaseConfigs]) && LaunchedIn([SendPhaseConfigs]) == []
  {
    hide Frozen, Onward;
    assert EndedIn([SendPhaseConfigs]) == [] by { assert [SendPhaseConfigs][1..] == []; }
    assert LaunchedIn([SendPhaseConfigs]) == [] by { assert [SendPhaseConfigs][1..] == []; }
  }

  lemma OpenedFollows(setup: Setup, s: Run, chance: Chance, now: int)
    requires Ready(setup) && Fair(chance) && s.phase == Shop
    ensures Sound(s,
      ShopsOpened(setup, s, chance).(deadlineMs := now + (setup.rules.shopSeconds + setup.rules.graceSeconds) * 1000),
                  [SendPhaseConfigs], now)
  {
    var r :=
      ShopsOpened(setup, s, chance).(deadlineMs := now + (setup.rules.shopSeconds + setup.rules.graceSeconds) * 1000);
    SameGameFollows(s, r);
    FollowsQuietly(s, r);
    DeadlineAhead(setup, now);
  }

  lemma {:induction false} EndShopSound(setup: Setup, s: Run, bots: BotMatches, chance: Chance, now: int)
    requires ShopReady(setup, s) && Fair(chance) && 0 <= now && s.phase == Shop
    ensures var r := EndShop(setup, s, bots, chance, now); Sound(s, r.0, r.1, now) && Clock(s) < Clock(r.0)
    decreases RoundsLeft(setup, s), 2
  {
    hide ShopReady, RoundReady, Inv, Ready, DecideBots, Advances, Follows, EndRound, RoundsLeft, Fair, Seated,
      AllDecided, PlayerPairings;
    EndShopSteps(setup, s, bots, now);
    var s1 := s.(phase := Match, deadlineMs := now + setup.rules.matchDeadlineSeconds * 1000);
    var s2 := DecideBots(setup.rules, s1, bots, |s1.pairings|);
    SameGameFollows(s, s1);
    AdvancesFollow(s1, s2);
    QuietTrans(s, s1, s2);
    DeadlineAhead(setup, now);
    if AllDecided(s2) {
      EndRoundSound(setup, s2, chance, now);
      var r := EndRound(setup, s2, chance, now);
      SoundAfter(s, s2, r.0, [], r.1, now);
      assert [] + r.1 == r.1;
    } else {
      FollowsQuietly(s, s2);
    }
  }

  lemma {:induction false} EndRoundSound(setup: Setup, s: Run, chance: Chance, now: int)
    requires RoundReady(setup, s) && Fair(chance) && 0 <= now && s.phase == Match
    ensures var r := EndRound(setup, s, chance, now); Sound(s, r.0, r.1, now) && Clock(s) < Clock(r.0)
    decreases RoundsLeft(setup, s), 1
  {
    hide StartReady, Inv, Ready, Follows, StartRound, Paid, WentOut, Crowned, OutNow, RoundReady, AllCheckedIn, Fair,
      LaunchedIn, PlayerPairings;
    EndRoundSteps(setup, s, now);
    WentOutTold(setup, s);
    var out, s1 := OutNow(s.teams), WentOut(s);
    if Left(s1) <= 1 {
      CrownedTold(setup, s);
    } else {
      var s2 := Paid(setup.rules, s1).(phase := Results, deadlineMs := now + setup.rules.checkinSeconds * 1000);
      var told := if out == [] then [] else [TeamsEnded(out)];
      PaidFollows(setup, s1, now + setup.rules.checkinSeconds * 1000);
      FollowsTrans(s, s1, s2, told, []);
      assert told + [] == told;
      DeadlineAhead(setup, now);
      if AllCheckedIn(s2) {
        StartRoundSound(setup, s2, chance, now);
        var r := StartRound(setup, s2, chance, now);
        SoundAfter(s, s2, r.0, told, r.1, now);
      }
    }
  }

  lemma WentOutTold(setup: Setup, s: Run)
    requires RoundReady(setup, s) && s.phase == Match
    ensures var s1, out := WentOut(s), OutNow(s.teams);
      var told := if out == [] then [] else [TeamsEnded(out)];
      && Follows(s, s1, told) && LaunchedIn(told) == [] && s1 == s.(teams := s1.teams)
      && (forall id | id in s1.players :: s1.players[id].team < |s1.teams|)
  {
    hide Core, Follows, WentOut, OutNow, InOrder, NoRepeats, RoundReady, Reranked;
    WentOutReranks(s);
    OwnTeams(setup, s);
    WentOutFollows(s, WentOut(s), if OutNow(s.teams) == [] then [] else [TeamsEnded(OutNow(s.teams))]);
    assert LaunchedIn([TeamsEnded(OutNow(s.teams))]) == [] by { assert [TeamsEnded(OutNow(s.teams))][1..] == []; }
  }

  lemma OwnTeams(setup: Setup, s: Run)
    requires RoundReady(setup, s)
    ensures forall id | id in s.players :: s.players[id].team < |s.teams|
    ensures |WentOut(s).teams| == |s.teams|
  {
  }

  lemma CrownedTold(setup: Setup, s: Run)
    requires RoundReady(setup, s) && s.phase == Match && Left(WentOut(s)) <= 1
    ensures var s1 := WentOut(s);
      Sound(s, Crowned(s1).(phase := Ended, deadlineMs := 0),
        [TeamsEnded(InTeams(s1.teams, |s1.teams|) + OutNow(s.teams)), ArenaFinished], 0)
      && Crowned(s1).round == s.round
  {
    hide Core, Follows, OutNow, PlayersOk, Crowned, WentOut;
    RoundEndKeeps(setup, s);
    WentOutReranks(s);
    var s1 := WentOut(s);
    var still, r := InTeams(s1.teams, |s1.teams|), Crowned(s1).(phase := Ended, deadlineMs := 0);
    assert s.(teams := r.teams) == Crowned(s1);
    EndedFollows(s, r, still);
    var effects := [TeamsEnded(still + OutNow(s.teams)), ArenaFinished];
    assert LaunchedIn([ArenaFinished]) == [] by { assert [ArenaFinished][1..] == []; }
    assert effects[1..] == [ArenaFinished];
  }

  lemma PaidFollows(setup: Setup, s: Run, deadline: int)
    requires Ready(setup) && s.phase == Match
    requires forall id | id in s.players :: s.players[id].team < |s.teams|
    ensures Follows(s, Paid(setup.rules, s).(phase := Results, deadlineMs := deadline), [])
    ensures Paid(setup.rules, s).round == s.round
  {
    hide Income;
    SameGameFollows(s, Paid(setup.rules, s).(phase := Results, deadlineMs := deadline));
  }

  lemma {:induction false} StartRoundSound(setup: Setup, s: Run, chance: Chance, now: int)
    requires StartReady(setup, s) && Fair(chance) && 0 <= now && s.phase == Results
    ensures var r := StartRound(setup, s, chance, now); Sound(s, r.0, r.1, now) && Clock(s) < Clock(r.0)
    decreases RoundsLeft(setup, s), 0
  {
    hide StartReady, OpenReady, Inv, Ready, PairRound, Follows, OpenShop, Launches, PlayerPairings, RoundsLeft, Fair,
      LaunchedIn, EndedIn, OnlyBots, Clock;
    NextRoundOpens(setup, s, chance);
    var s1 := PairRound(s.(round := s.round + 1), chance);
    var launches := Launches(s1.pairings, |s1.pairings|);
    OpenShopSound(setup, s1, chance, now);
    var r := OpenShop(setup, s1, chance, now);
    NextRoundFollows(setup, s, chance);
    FollowsTrans(s, s1.(phase := Shop), r.0, launches, r.1);
    LaunchedAdd(launches, r.1);
    LaunchesTold(s1.pairings, |s1.pairings|);
    NextRoundLaunches(setup, s1, chance, now);
    LaterClock(s, r.0);
  }

  lemma LaterClock(s: Run, r: Run)
    requires s.round < r.round
    ensures Clock(s) < Clock(r)
  {
  }

  lemma NextRoundFollows(setup: Setup, s: Run, chance: Chance)
    requires StartReady(setup, s) && Fair(chance) && s.phase == Results
    ensures var s1 := PairRound(s.(round := s.round + 1), chance);
      Follows(s, s1.(phase := Shop), Launches(s1.pairings, |s1.pairings|))
  {
    hide Core, Paired, Launches, OrderOf, JustPaired, PlayersOk;
    NextRoundCore(setup.rules, s, chance);
    var s1, order := PairRound(s.(round := s.round + 1), chance),
      chance.order(s.round + 1, InTeams(s.teams, |s.teams|));
    PairedFollows(setup.rules, s, order, s1);
    LaunchesTold(s1.pairings, |s1.pairings|);
    LaunchesQuiet(s, s1.(phase := Shop), Launches(s1.pairings, |s1.pairings|));
  }

  lemma LaunchesQuiet(s: Run, r: Run, effects: seq<Effect>)
    requires Follows(s, r, []) && EndedIn(effects) == [] && r.phase != Ended && s.phase != Ended
    requires forall e | e in effects :: e.LaunchPairing?
    ensures Follows(s, r, effects)
  {
    hide Frozen, Onward;
    forall i | 0 <= i < |effects| ensures effects[i] != ArenaFinished { assert effects[i] in effects; }
  }

  /** A round just started: its own launches are all there are, whether its shop opens or only bots are left. */
  lemma NextRoundLaunches(setup: Setup, s: Run, chance: Chance, now: int)
    requires OpenReady(setup, s) && Fair(chance) && 0 <= now && s.phase == Results
    requires var r := OpenShop(setup, s, chance, now); Sound(s.(phase := Shop), r.0, r.1, now)
    requires PlayersIn(s) == {} ==> OnlyBots(s)
    ensures var r := OpenShop(setup, s, chance, now);
      PlayerPairings(s.pairings, |s.pairings|) + LaunchedIn(r.1) == PlayerPairings(r.0.pairings, |r.0.pairings|)
        && s.round <= r.0.round
  {
    hide Core, PlayersOk, PlayerPairings, ShopsOpened, OnlyBots, EndShop, LaunchedIn, Told, Finishes;
    var r := OpenShop(setup, s, chance, now);
    SameGamePlayers(s, s.(phase := Shop));
    if PlayersIn(s) == {} {
      BotsFollow(s, r.0);
      BotsLaunchNothing(setup.rules, r.0);
      BotsLaunchNothing(setup.rules, s);
    } else {
      OpenedPairings(setup, s.(phase := Shop), chance);
    }
  }

  lemma BotsFollow(s: Run, r: Run)
    requires OnlyBots(s) && Frozen(s.(phase := Shop), r) && Onward(s.(phase := Shop), r)
    ensures OnlyBots(r)
  {
    BotsStay(s, r);
  }

  lemma OpenedPairings(setup: Setup, s: Run, chance: Chance)
    requires Fair(chance)
    ensures ShopsOpened(setup, s, chance).pairings == s.pairings && ShopsOpened(setup, s, chance).round == s.round
  {
  }
}
