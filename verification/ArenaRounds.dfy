/**
 * A round's end and start keep a run's invariant: the ranks of those who go out, the winner's, and the next pairings.
 */
module ArenaRounds {
  import opened ArenaRules
  import opened ArenaTypes
  import opened ArenaSteps
  import opened ArenaInvariant

  // ---- Players ----

  /** Only what a player has, the phase and the deadline differ: who plays, and for whom, does not. */
  ghost predicate SameGame(s: Run, r: Run) {
    && r == s.(players := r.players, phase := r.phase, deadlineMs := r.deadlineMs)
    && r.players.Keys == s.players.Keys
    && (forall id | id in s.players ::
      r.players[id].isBot == s.players[id].isBot && r.players[id].team == s.players[id].team)
  }

  lemma SameGamePlayers(s: Run, r: Run)
    requires SameGame(s, r)
    ensures forall t :: HasPlayer(r, t) == HasPlayer(s, t)
    ensures PlayersIn(r) == PlayersIn(s)
  {
    forall t ensures HasPlayer(r, t) == HasPlayer(s, t) { PlayerSame(s, r, t); }
  }

  lemma SameGameRecords(rules: Rules, s: Run, r: Run)
    requires Playable(rules) && SameGame(s, r) && Records(rules, s)
    ensures Records(rules, r)
  {
    SameGamePlayers(s, r);
    forall t | 0 <= t < |r.teams| ensures Recorded(rules, r, t) {
      assert Recorded(rules, s, t);
      RecordedSame(rules, s, r, t);
    }
    forall i, t | 0 <= i < |r.pairings| && 0 <= t < |r.teams| && r.pairings[i].Plays(t)
      ensures PlayedOk(r, r.pairings[i], t)
    {
      assert s.pairings[i].Plays(t) && PlayedOk(s, s.pairings[i], t);
    }
  }

  lemma SameGameMatched(s: Run, r: Run)
    requires SameGame(s, r) && Matched(s) && Histories(s) && Ranked(s)
    ensures Matched(r) && Histories(r) && Ranked(r)
  {
    SameGamePlayers(s, r);
    forall i | 0 <= i < |r.pairings| ensures PairingOk(r, i) { assert PairingOk(s, i); }
    forall t, x | 0 <= t < |r.teams| && 0 <= x < |r.teams[t].opponents| ensures Meets(r, t, x) {
      assert Meets(s, t, x);
    }
    forall t, u | 0 <= t < |r.teams| && 0 <= u < |r.teams| && !r.teams[t].In() && !r.teams[u].In() && Better(r, t, u)
      ensures r.teams[t].finalRank < r.teams[u].finalRank
    {
      assert Better(s, t, u);
    }
  }

  lemma SameGameRostered(s: Run, r: Run)
    requires SameGame(s, r) && Rostered(s)
    ensures Rostered(r)
  {
  }

  lemma SameGameCore(rules: Rules, s: Run, r: Run)
    requires Core(rules, s) && SameGame(s, r)
    ensures Core(rules, r)
  {
    SameGameRostered(s, r);
    SameGameRecords(rules, s, r);
    SameGameMatched(s, r);
  }

  // ---- The order of those going out ----

  ghost predicate InOrder(teams: seq<Team>, xs: seq<int>)
    requires Indexes(teams, xs)
  {
    forall i, j | 0 <= i < j < |xs| :: Ahead(teams, xs[i], xs[j])
  }

  lemma {:induction false} InsertInOrder(teams: seq<Team>, xs: seq<int>, t: int)
    requires 0 <= t < |teams| && Indexes(teams, xs) && InOrder(teams, xs) && forall i | 0 <= i < |xs| :: xs[i] < t
    ensures InOrder(teams, Insert(teams, xs, t))
  {
    if xs != [] && teams[xs[|xs| - 1]].life < teams[t].life {
      var init, last := xs[..|xs| - 1], xs[|xs| - 1];
      InsertInOrder(teams, init, t);
      var ys := Insert(teams, init, t);
      forall y | y in ys ensures 0 <= y < |teams| && Ahead(teams, y, last) {
        if y != t {
          var j :| 0 <= j < |init| && init[j] == y;
          assert Ahead(teams, xs[j], xs[|xs| - 1]);
        }
      }
      AppendInOrder(teams, ys, last);
    }
  }

  lemma AppendInOrder(teams: seq<Team>, ys: seq<int>, last: int)
    requires Indexes(teams, ys) && InOrder(teams, ys) && 0 <= last < |teams|
    requires forall y | y in ys :: 0 <= y < |teams| && Ahead(teams, y, last)
    ensures InOrder(teams, ys + [last])
  {
    hide Ahead;
  }

  /** A list of teams by index, put in order of health, is in order. */
  lemma {:induction false} ByLifeInOrder(teams: seq<Team>, xs: seq<int>)
    requires Indexes(teams, xs) && forall i, j | 0 <= i < j < |xs| :: xs[i] < xs[j]
    ensures InOrder(teams, ByLife(teams, xs))
  {
    if xs != [] {
      var init := xs[..|xs| - 1];
      ByLifeInOrder(teams, init);
      var ys := ByLife(teams, init);
      forall i | 0 <= i < |ys| ensures ys[i] < xs[|xs| - 1] {
        assert ys[i] in ys && ys[i] in init;
        var j :| 0 <= j < |init| && init[j] == ys[i];
      }
      InsertInOrder(teams, ys, xs[|xs| - 1]);
    }
  }

  lemma {:induction false} OutTeamsAscend(teams: seq<Team>, k: nat)
    requires k <= |teams|
    ensures var xs := OutTeams(teams, k); Indexes(teams, xs) && forall i, j | 0 <= i < j < |xs| :: xs[i] < xs[j]
  {
    var xs := OutTeams(teams, k);
    forall i | 0 <= i < |xs| ensures 0 <= xs[i] < k { assert xs[i] in xs; }
    if k > 0 {
      OutTeamsAscend(teams, k - 1);
      var ys := OutTeams(teams, k - 1);
      forall i | 0 <= i < |ys| ensures ys[i] < k - 1 { assert ys[i] in ys; }
    }
  }

  lemma {:induction false} InTeamsAscend(teams: seq<Team>, k: nat)
    requires k <= |teams|
    ensures var xs := InTeams(teams, k); Indexes(teams, xs) && forall i, j | 0 <= i < j < |xs| :: xs[i] < xs[j]
  {
    var xs := InTeams(teams, k);
    forall i | 0 <= i < |xs| ensures 0 <= xs[i] < k { assert xs[i] in xs; }
    if k > 0 {
      InTeamsAscend(teams, k - 1);
      var ys := InTeams(teams, k - 1);
      forall i | 0 <= i < |ys| ensures ys[i] < k - 1 { assert ys[i] in ys; }
    }
  }

  /** Those going out, each once, in order: the healthiest first. */
  lemma OutNowInOrder(teams: seq<Team>)
    ensures Indexes(teams, OutNow(teams)) && InOrder(teams, OutNow(teams)) && NoRepeats(OutNow(teams))
    ensures |OutNow(teams)| == |OutTeams(teams, |teams|)|
  {
    OutTeamsAscend(teams, |teams|);
    ByLifeInOrder(teams, OutTeams(teams, |teams|));
  }

  lemma {:induction false} LeftAfter(teams: seq<Team>, teams': seq<Team>, k: nat)
    requires k <= |teams| == |teams'|
    requires forall t | 0 <= t < |teams| :: teams'[t].In() <==> teams[t].In() && 0 < teams[t].life
    ensures |InTeams(teams', k)| == |InTeams(teams, k)| - |OutTeams(teams, k)|
  {
    if k > 0 { LeftAfter(teams, teams', k - 1); }
  }

  // ---- Going out ----

  /** Only final ranks are given, and none taken away. */
  ghost predicate Reranked(s: Run, r: Run) {
    && r == s.(teams := r.teams) && |r.teams| == |s.teams|
    && (forall t | 0 <= t < |s.teams| :: r.teams[t] == s.teams[t].(finalRank := r.teams[t].finalRank))
    && (forall t | 0 <= t < |s.teams| && !s.teams[t].In() :: r.teams[t] == s.teams[t])
  }

  lemma {:induction false} TotalSame(teams: seq<Team>, teams': seq<Team>)
    requires |teams| == |teams'| && forall t | 0 <= t < |teams| :: teams'[t].losses == teams[t].losses
    ensures TotalLosses(teams') == TotalLosses(teams)
  {
    if teams != [] { TotalSame(teams[1..], teams'[1..]); }
  }

  lemma RerankedMatched(s: Run, r: Run)
    requires Reranked(s, r) && Rostered(s) && Matched(s) && Histories(s)
    ensures Rostered(r) && Matched(r) && Histories(r)
    ensures forall t :: HasPlayer(r, t) == HasPlayer(s, t)
  {
    forall t ensures HasPlayer(r, t) == HasPlayer(s, t) { PlayerSame(s, r, t); }
    RerankedPairings(s, r);
    RerankedHistories(s, r);
  }

  lemma RerankedPairings(s: Run, r: Run)
    requires Reranked(s, r) && Matched(s)
    requires forall t :: HasPlayer(r, t) == HasPlayer(s, t)
    ensures Matched(r)
  {
    hide HasPlayer;
    forall i | 0 <= i < |r.pairings| ensures PairingOk(r, i) { assert PairingOk(s, i); }
  }

  lemma RerankedHistories(s: Run, r: Run)
    requires Reranked(s, r) && Histories(s)
    ensures Histories(r)
  {
    forall t, x | 0 <= t < |r.teams| && 0 <= x < |r.teams[t].opponents| ensures Meets(r, t, x) {
      assert Meets(s, t, x);
    }
  }

  lemma RerankedRecords(rules: Rules, s: Run, r: Run)
    requires Playable(rules) && Reranked(s, r) && Records(rules, s) && AllDecided(s)
    requires forall t :: HasPlayer(r, t) == HasPlayer(s, t)
    requires forall t | 0 <= t < |r.teams| && r.teams[t].finalRank > 1 :: r.teams[t].life <= 0
    ensures Records(rules, r)
  {
    forall t | 0 <= t < |r.teams| ensures Recorded(rules, r, t) {
      assert Recorded(rules, s, t);
      RecordedSame(rules, s, r, t);
    }
    forall i, t | 0 <= i < |r.pairings| && 0 <= t < |r.teams| && r.pairings[i].Plays(t)
      ensures PlayedOk(r, r.pairings[i], t)
    {
      assert s.pairings[i].Plays(t) && PlayedOk(s, s.pairings[i], t) && s.pairings[i] in s.pairings;
    }
  }

  lemma RerankedKeeps(rules: Rules, s: Run, r: Run)
    requires Core(rules, s) && Reranked(s, r) && AllDecided(s) && Ranked(r)
    requires forall t | 0 <= t < |r.teams| && r.teams[t].finalRank > 1 :: r.teams[t].life <= 0
    ensures Core(rules, r)
  {
    RerankedMatched(s, r);
    RerankedRecords(rules, s, r);
    TotalSame(s.teams, r.teams);
  }

  lemma IndexOfAt(xs: seq<int>, i: nat)
    requires i < |xs| && NoRepeats(xs)
    ensures xs[i] in xs && IndexOf(xs, xs[i]) == i
  {
    assert xs[i] in xs;
  }

  function WentOut(s: Run): Run {
    var out := OutNow(s.teams);
    s.(teams := RankOut(s.teams, out, if |out| <= Left(s) then Left(s) - |out| else 0))
  }

  lemma OutFits(teams: seq<Team>, k: nat)
    requires k <= |teams|
    ensures |OutTeams(teams, k)| <= |InTeams(teams, k)|
  {
    if k > 0 { OutFits(teams, k - 1); }
  }

  lemma WentOutReranks(s: Run)
    ensures var r, out := WentOut(s), OutNow(s.teams);
      && Reranked(s, r) && NoRepeats(out) && InOrder(s.teams, out)
      && Left(r) == Left(s) - |out|
      && (forall t | 0 <= t < |s.teams| :: r.teams[t].In() <==> s.teams[t].In() && 0 < s.teams[t].life)
      && (forall t | t in out :: r.teams[t].finalRank == Left(r) + 1 + IndexOf(out, t))
  {
    OutNowInOrder(s.teams);
    OutFits(s.teams, |s.teams|);
    LeftAfter(s.teams, WentOut(s).teams, |s.teams|);
  }

  lemma WentOutOrder(s: Run, t: int, u: int)
    requires Matched(s) && Ranked(s) && AllPlaying(s) && 0 <= t < |s.teams| && 0 <= u < |s.teams| && Better(s, t, u)
    requires !WentOut(s).teams[t].In() && !WentOut(s).teams[u].In()
    ensures WentOut(s).teams[t].finalRank < WentOut(s).teams[u].finalRank
  {
    var r, out := WentOut(s), OutNow(s.teams);
    WentOutReranks(s);
    if t in out {
      assert r.teams[t].finalRank <= Left(s);
      if u in out { PlaceInOrder(s.teams, out, t, u); }
    } else {
      assert u !in out;
    }
  }

  lemma PlaceInOrder(teams: seq<Team>, out: seq<int>, t: int, u: int)
    requires Indexes(teams, out) && InOrder(teams, out) && t in out && u in out
    requires 0 <= t < |teams| && 0 <= u < |teams| && Ahead(teams, t, u)
    ensures IndexOf(out, t) < IndexOf(out, u)
  {
    var i, j := IndexOf(out, t), IndexOf(out, u);
    assert out[i] == t && out[j] == u;
  }

  /** Those who go out take the ranks just below those left, in order, and above all who went out before. */
  lemma WentOutRanked(s: Run)
    requires Matched(s) && Ranked(s) && AllPlaying(s)
    ensures Ranked(WentOut(s))
  {
    hide WentOut, OutNow, InOrder, Matched, HasPlayer, IndexOf;
    var r := WentOut(s);
    WentOutReranks(s);
    forall t, u | 0 <= t < |r.teams| && 0 <= u < |r.teams| && !r.teams[t].In() && !r.teams[u].In() && Better(r, t, u)
      ensures r.teams[t].finalRank < r.teams[u].finalRank
    {
      assert Better(s, t, u);
      WentOutOrder(s, t, u);
    }
    InBound(s.teams, |s.teams|);
  }

  lemma InBound(teams: seq<Team>, k: nat)
    requires k <= |teams|
    ensures |InTeams(teams, k)| <= k
  {
  }

  lemma WentOutKeeps(rules: Rules, s: Run)
    requires Core(rules, s) && AllPlaying(s) && AllDecided(s)
    ensures Core(rules, WentOut(s)) && Reranked(s, WentOut(s))
    ensures forall t | 0 <= t < |s.teams| && WentOut(s).teams[t].In() :: 0 < s.teams[t].life
  {
    hide WentOut, Rostered, Histories, Ranked, Matched, Counted, OutNow;
    WentOutReranks(s);
    WentOutRanked(s);
    RerankedKeeps(rules, s, WentOut(s));
  }

  // ---- The last one in ----

  function Crowned(s: Run): Run {
    var still := InTeams(s.teams, |s.teams|);
    assert forall i | 0 <= i < |still| :: still[i] in still;
    s.(teams := Crown(s.teams, still))
  }

  lemma {:induction false} NoneLeft(teams: seq<Team>, k: nat)
    requires k <= |teams| && forall t | 0 <= t < k :: !teams[t].In()
    ensures InTeams(teams, k) == []
  {
    if k > 0 { NoneLeft(teams, k - 1); }
  }

  /** The winner is first: it is the healthiest of those who played the last round. */
  lemma CrownedRanked(s: Run, c: int)
    requires Matched(s) && Ranked(s) && InTeams(s.teams, |s.teams|) == [c]
    requires 0 <= c < |s.teams| && 0 < s.teams[c].life
    requires forall t | 0 <= t < |s.teams| && t != c :: !s.teams[t].In() && s.teams[t].life <= 0
    ensures var r := s.(teams := s.teams[c := s.teams[c].(finalRank := 1)]);
      Ranked(r) && forall t | 0 <= t < |r.teams| :: !r.teams[t].In()
  {
    var r := s.(teams := s.teams[c := s.teams[c].(finalRank := 1)]);
    NoneLeft(r.teams, |r.teams|);
    assert c in InTeams(s.teams, |s.teams|);
    forall t, u | 0 <= t < |r.teams| && 0 <= u < |r.teams| && Better(r, t, u)
      ensures r.teams[t].finalRank < r.teams[u].finalRank
    {
      assert Better(s, t, u);
    }
  }

  lemma CrownedKeeps(rules: Rules, s: Run)
    requires Core(rules, s) && AllDecided(s) && Left(s) <= 1
    requires forall t | 0 <= t < |s.teams| && s.teams[t].In() :: 0 < s.teams[t].life
    ensures var r := Crowned(s);
      Core(rules, r) && Reranked(s, r) && forall t | 0 <= t < |r.teams| :: !r.teams[t].In()
  {
    hide Rostered, Histories, Ranked, Matched, Records, Counted, RankOut, InTeams;
    var r, still := Crowned(s), InTeams(s.teams, |s.teams|);
    if |still| == 1 {
      OthersOut(rules, s, still[0]);
      CrownedRanked(s, still[0]);
      RerankedKeeps(rules, s, r);
    } else {
      forall t | 0 <= t < |s.teams| ensures !s.teams[t].In() { assert t !in still; }
    }
  }

  lemma OthersOut(rules: Rules, s: Run, c: int)
    requires Core(rules, s) && InTeams(s.teams, |s.teams|) == [c]
    ensures 0 <= c < |s.teams| && s.teams[c].In()
    ensures forall t | 0 <= t < |s.teams| && t != c ::
      !s.teams[t].In() && s.teams[t].finalRank > 1 && s.teams[t].life <= 0
  {
    hide Rostered, Histories, Matched, Counted, Recorded;
    assert c in InTeams(s.teams, |s.teams|);
    forall t | 0 <= t < |s.teams| && t != c
      ensures !s.teams[t].In() && s.teams[t].finalRank > 1 && s.teams[t].life <= 0
    {
      assert t !in InTeams(s.teams, |s.teams|);
    }
  }
}
