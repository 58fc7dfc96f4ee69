/** What is true of a run at every moment, in the middle of a transition too; and what every part of one keeps of it. */
module ArenaInvariant {
  import opened Options
  import opened ArenaRules
  import opened ArenaTypes
  import opened ArenaSteps

  // ---- The cast ----

  /** Each player is a member of their own team, and of no other; every member is a participant. */
  ghost predicate Rostered(s: Run) {
    && (forall id | id in s.players :: s.players[id].team < |s.teams| && id in s.teams[s.players[id].team].members)
    && (forall t, m | 0 <= t < |s.teams| && m in s.teams[t].members :: m in s.players && s.players[m].team == t)
  }

  // ---- The pairings ----

  ghost predicate PairingOk(s: Run, i: nat)
    requires i < |s.pairings|
  {
    var p, n := s.pairings[i], |s.teams|;
    && 1 <= s.round && 0 <= p.a < n && p.a != p.b
    && |s.teams[p.a].opponents| == s.round && s.teams[p.a].opponents[s.round - 1] == p.b
    && (if p.b == MIRROR then i == |s.pairings| - 1
        else 0 <= p.b < n && |s.teams[p.b].opponents| == s.round && s.teams[p.b].opponents[s.round - 1] == p.a)
    && p.hasPlayer == HasPlayer(s, p.a) && (HasPlayer(s, p.b) ==> HasPlayer(s, p.a))
    && p.matchId == (if p.hasPlayer then Some(MatchId(s.round, i)) else None)
    && (p.winner.Some? ==>
      p.winner.value in {p.a, p.b, BOTH_LOST} && (p.winner.value == BOTH_LOST ==> HasPlayer(s, p.b)))
  }

  /** The round's pairings are a perfect matching of the teams that play it, each with its opponent kept. */
  ghost predicate Matched(s: Run) {
    && 1 <= s.round
    && (forall t | 0 <= t < |s.teams| :: |s.teams[t].opponents| <= s.round)
    && (forall t | 0 <= t < |s.teams| && s.teams[t].In() :: |s.teams[t].opponents| == s.round)
    && (forall i | 0 <= i < |s.pairings| :: PairingOk(s, i))
    && (forall i, j, t | 0 <= i < j < |s.pairings| && 0 <= t < |s.teams| ::
      !(s.pairings[i].Plays(t) && s.pairings[j].Plays(t)))
    && (forall t | 0 <= t < |s.teams| && |s.teams[t].opponents| == s.round ::
          exists i :: 0 <= i < |s.pairings| && s.pairings[i].Plays(t))
  }

  /** Whom a team met in a round met it in the same round. */
  ghost predicate Meets(s: Run, t: int, r: int)
    requires 0 <= t < |s.teams| && 0 <= r < |s.teams[t].opponents|
  {
    var o := s.teams[t].opponents[r];
    o == MIRROR || (0 <= o < |s.teams| && o != t && r < |s.teams[o].opponents| && s.teams[o].opponents[r] == t)
  }

  /** The histories are symmetric round by round, and a round has one mirror at most. */
  ghost predicate Histories(s: Run) {
    && (forall t, r | 0 <= t < |s.teams| && 0 <= r < |s.teams[t].opponents| :: Meets(s, t, r))
    && (forall t, u, r | 0 <= t < u < |s.teams| && 0 <= r < |s.teams[t].opponents| && r < |s.teams[u].opponents| ::
          !(s.teams[t].opponents[r] == MIRROR && s.teams[u].opponents[r] == MIRROR))
  }

  // ---- The ranks ----

  function Left(s: Run): nat {
    |InTeams(s.teams, |s.teams|)|
  }

  /** Ended better: later out, or healthier in the same round, or as healthy and first by index. */
  predicate Better(s: Run, t: int, u: int)
    requires 0 <= t < |s.teams| && 0 <= u < |s.teams|
  {
    |s.teams[t].opponents| > |s.teams[u].opponents|
    || (|s.teams[t].opponents| == |s.teams[u].opponents| && Ahead(s.teams, t, u))
  }

  ghost predicate Ranked(s: Run) {
    && (forall t | 0 <= t < |s.teams| && !s.teams[t].In() :: Left(s) < s.teams[t].finalRank <= |s.teams|)
    && (forall t, u | 0 <= t < |s.teams| && 0 <= u < |s.teams| && !s.teams[t].In() && !s.teams[u].In()
      && Better(s, t, u) ::
          s.teams[t].finalRank < s.teams[u].finalRank)
  }

  // ---- The records ----

  function Count(results: seq<bool>, won: bool): nat {
    if results == [] then 0 else Count(results[..|results| - 1], won) + if results[|results| - 1] == won then 1 else 0
  }

  /** How many of the last results in a row are this one. */
  function Trail(results: seq<bool>, won: bool): nat {
    if results == [] || results[|results| - 1] != won then 0 else 1 + Trail(results[..|results| - 1], won)
  }

  /** The health left after a team's results: the starting health less what each round lost took. */
  function Health(rules: Rules, results: seq<bool>): int
    requires Playable(rules)
  {
    if results == [] then rules.startingLife
    else Health(rules, results[..|results| - 1]) - if results[|results| - 1] then 0 else LifeLost(rules, |results|)
  }

  /**
   * A team's record, streaks and health are those of its results, round by round; a team with players may be emptied
   * instead.
   */
  ghost predicate Explains(rules: Rules, hasPlayer: bool, team: Team, results: seq<bool>)
    requires Playable(rules)
  {
    && team.wins == Count(results, true) && team.losses == Count(results, false)
    && team.wins + team.losses == |results|
    && team.winStreak == Trail(results, true) && team.loseStreak == Trail(results, false)
    && (forall k | 0 <= k < |results| :: 0 < Health(rules, results[..k]))
    && (team.life == Health(rules, results) || (hasPlayer && team.life == 0 && results != []))
  }

  ghost predicate Recorded(rules: Rules, s: Run, t: int)
    requires Playable(rules) && 0 <= t < |s.teams|
  {
    exists results: seq<bool> :: Explains(rules, HasPlayer(s, t), s.teams[t], results)
  }

  /**
   * A team of one of this round's pairings has a result for every round before, and for this one once it is decided.
   */
  ghost predicate PlayedOk(s: Run, p: Pairing, t: int)
    requires 0 <= t < |s.teams|
  {
    && s.teams[t].wins + s.teams[t].losses == s.round - (if p.winner.None? then 1 else 0)
    && (p.winner.None? ==> s.teams[t].In() && 0 < s.teams[t].life)
    && (p.winner.Some? ==> (p.winner.value == t <==> 0 < s.teams[t].winStreak))
  }

  ghost predicate Records(rules: Rules, s: Run)
    requires Playable(rules)
  {
    && (forall t | 0 <= t < |s.teams| :: Recorded(rules, s, t))
    && (forall i, t | 0 <= i < |s.pairings| && 0 <= t < |s.teams| && s.pairings[i].Plays(t) ::
      PlayedOk(s, s.pairings[i], t))
    && (forall t | 0 <= t < |s.teams| && |s.teams[t].opponents| < s.round ::
          s.teams[t].wins + s.teams[t].losses == |s.teams[t].opponents|)
    && (forall t | 0 <= t < |s.teams| && s.teams[t].finalRank > 1 :: s.teams[t].life <= 0)
  }

  // ---- How long it can last ----

  function TotalLosses(teams: seq<Team>): nat {
    if teams == [] then 0 else teams[0].losses + TotalLosses(teams[1..])
  }

  /** The round by which a run is over. */
  function Horizon(rules: Rules, s: Run): int
    requires Playable(rules)
  {
    |s.teams| * LossLimit(rules)
  }

  /** Every round decided took a loss: the first pairing is never a mirror while two teams are left. */
  ghost predicate Counted(s: Run) {
    && s.round - 1 <= TotalLosses(s.teams)
    && (s.pairings != [] && s.pairings[0].b != MIRROR && s.pairings[0].winner.Some? ==> s.round <= TotalLosses(s.teams))
  }

  ghost predicate Core(rules: Rules, s: Run) {
    && Playable(rules)
    && Rostered(s) && Matched(s) && Histories(s) && Ranked(s) && Records(rules, s) && Counted(s)
    && s.round <= Horizon(rules, s)
  }

  /** Nobody has gone out since the round began. */
  ghost predicate AllPlaying(s: Run) {
    forall t | 0 <= t < |s.teams| && |s.teams[t].opponents| == s.round :: s.teams[t].In()
  }

  lemma CoreSeated(rules: Rules, s: Run)
    requires Core(rules, s)
    ensures Playable(rules) && Seated(s)
  {
    forall p | p in s.pairings ensures 0 <= p.a < |s.teams| && Side(s, p.b) {
      var i :| 0 <= i < |s.pairings| && s.pairings[i] == p;
      assert PairingOk(s, i);
    }
  }

  // ---- A match's end, as one change of the run ----

  function Outcome(rules: Rules, round: int, team: Team, won: bool, emptied: bool): Team
    requires Playable(rules)
  {
    var after := if won then Won(team) else Lost(team, LifeLost(rules, round));
    if emptied then after.(life := 0) else after
  }

  /** The i-th pairing decided for the winner (one side, or BOTH_LOST), with either side's health emptied or not. */
  function Resolved(rules: Rules, s: Run, i: nat, winner: int, emptyA: bool, emptyB: bool): Run
    requires Playable(rules) && i < |s.pairings| && 0 <= s.pairings[i].a < |s.teams| && Side(s, s.pairings[i].b)
  {
    var p := s.pairings[i];
    var teams := s.teams[p.a := Outcome(rules, s.round, s.teams[p.a], winner == p.a, emptyA)];
    s.(pairings := s.pairings[i := p.(winner := Some(winner))],
       teams := if p.b == MIRROR then teams
         else teams[p.b := Outcome(rules, s.round, s.teams[p.b], winner == p.b, emptyB)])
  }

  ghost predicate Verdict(s: Run, i: nat, winner: int, emptyA: bool, emptyB: bool)
    requires i < |s.pairings|
  {
    var p := s.pairings[i];
    && PairingOk(s, i) && p.winner.None?
    && winner in {p.a, p.b, BOTH_LOST} && (winner == BOTH_LOST ==> HasPlayer(s, p.b))
    && (emptyA ==> HasPlayer(s, p.a)) && (emptyB ==> HasPlayer(s, p.b))
  }

  lemma DecideResolves(rules: Rules, s: Run, i: nat, winner: int)
    requires Playable(rules) && Seated(s) && i < |s.pairings| && s.pairings[i].a != s.pairings[i].b
    requires winner in {s.pairings[i].a, s.pairings[i].b}
    ensures s.pairings[i] in s.pairings && Decide(rules, s, i, winner) == Resolved(rules, s, i, winner, false, false)
  {
  }

  lemma BothLoseResolves(rules: Rules, s: Run, i: nat)
    requires Playable(rules) && Seated(s) && i < |s.pairings| && s.pairings[i].a != s.pairings[i].b
    requires HasPlayer(s, s.pairings[i].b)
    ensures s.pairings[i] in s.pairings && BothLose(rules, s, i) == Resolved(rules, s, i, BOTH_LOST, false, false)
  {
  }

  /** The side a match's end names the winner, or BOTH_LOST. */
  function WinnerBy(s: Run, i: nat, side: Option<int>, connected: set<string>): int
    requires i < |s.pairings|
  {
    var p := s.pairings[i];
    match side
    case Some(x) => if x == 0 then p.a else p.b
    case None => if HasPlayer(s, p.b) then BOTH_LOST else if Gone(s, p.a, connected) then p.b else p.a
  }

  lemma RuledResolves(rules: Rules, s: Run, i: nat, side: Option<int>, connected: set<string>)
    requires Playable(rules) && Seated(s) && i < |s.pairings| && s.pairings[i].a != s.pairings[i].b
    ensures s.pairings[i] in s.pairings
    ensures Ruled(rules, s, i, side, connected) == Resolved(rules, s, i, WinnerBy(s, i, side, connected), false, false)
  {
    var winner := WinnerBy(s, i, side, connected);
    if side.None? && HasPlayer(s, s.pairings[i].b) {
      BothLoseResolves(rules, s, i);
    } else {
      DecideResolves(rules, s, i, winner);
    }
  }

  lemma EmptiedResolves(rules: Rules, s: Run, i: nat, winner: int, connected: set<string>)
    requires Playable(rules) && Seated(s) && i < |s.pairings| && s.pairings[i].a != s.pairings[i].b
    requires s.pairings[i] in s.pairings
    ensures var p := s.pairings[i];
      Emptied(Emptied(Resolved(rules, s, i, winner, false, false), p.a, connected), p.b, connected)
        == Resolved(rules, s, i, winner, Gone(s, p.a, connected), Gone(s, p.b, connected))
  {
    var p, s1 := s.pairings[i], Resolved(rules, s, i, winner, false, false);
    GoneSame(s, s1, p.a, connected);
    GoneSame(s, Emptied(s1, p.a, connected), p.b, connected);
  }

  /**
   * A node match's end is one verdict: the winner it names, and both sides' health emptied where all their players are
   * gone.
   */
  lemma SettleResolves(rules: Rules, s: Run, i: nat, side: Option<int>, connected: set<string>)
    requires Playable(rules) && Seated(s) && i < |s.pairings| && PairingOk(s, i) && s.pairings[i].winner.None?
    ensures s.pairings[i] in s.pairings
    ensures var p, winner := s.pairings[i], WinnerBy(s, i, side, connected);
      && Verdict(s, i, winner, Gone(s, p.a, connected), Gone(s, p.b, connected))
      && Settle(rules, s, i, side, connected)
        == Resolved(rules, s, i, winner, Gone(s, p.a, connected), Gone(s, p.b, connected))
  {
    RuledResolves(rules, s, i, side, connected);
    EmptiedResolves(rules, s, i, WinnerBy(s, i, side, connected), connected);
  }

  lemma RecordedSame(rules: Rules, s: Run, r: Run, t: int)
    requires Playable(rules) && 0 <= t < |s.teams| == |r.teams| && Recorded(rules, s, t)
    requires HasPlayer(r, t) == HasPlayer(s, t)
    requires r.teams[t] == s.teams[t].(opponents := r.teams[t].opponents, finalRank := r.teams[t].finalRank)
    ensures Recorded(rules, r, t)
  {
    var results :| Explains(rules, HasPlayer(s, t), s.teams[t], results);
    assert Explains(rules, HasPlayer(r, t), r.teams[t], results);
  }

  lemma PlayerSame(s: Run, r: Run, t: int)
    requires |r.teams| == |s.teams| && (0 <= t < |s.teams| ==> r.teams[t].members == s.teams[t].members)
    requires forall id :: (id in s.players && !s.players[id].isBot) <==> (id in r.players && !r.players[id].isBot)
    ensures HasPlayer(r, t) == HasPlayer(s, t)
  {
  }

  lemma GoneSame(s: Run, r: Run, t: int, connected: set<string>)
    requires |r.teams| == |s.teams| && (0 <= t < |s.teams| ==> r.teams[t].members == s.teams[t].members)
      && r.players == s.players
    ensures Gone(r, t, connected) == Gone(s, t, connected)
  {
    PlayerSame(s, r, t);
  }

  lemma {:induction false} InTeamsSame(teams: seq<Team>, teams': seq<Team>, k: nat)
    requires k <= |teams| == |teams'| && forall t | 0 <= t < |teams| :: teams'[t].finalRank == teams[t].finalRank
    ensures InTeams(teams', k) == InTeams(teams, k)
  {
    if k > 0 { InTeamsSame(teams, teams', k - 1); }
  }
}
