/** A match's end keeps a run's invariant: the matching, the records and the count of losses. */
module ArenaResults {
  import opened Options
  import opened ArenaRules
  import opened ArenaTypes
  import opened ArenaSteps
  import opened ArenaInvariant

  lemma ResolvedBoard(rules: Rules, s: Run, i: nat, winner: int, emptyA: bool, emptyB: bool)
    requires Playable(rules) && i < |s.pairings| && PairingOk(s, i)
    ensures SameBoard(s, Resolved(rules, s, i, winner, emptyA, emptyB))
  {
  }

  lemma SameCast(s: Run, r: Run)
    requires SameBoard(s, r)
    ensures Rostered(s) ==> Rostered(r)
    ensures Histories(s) ==> Histories(r)
    ensures forall t :: HasPlayer(r, t) == HasPlayer(s, t)
  {
    forall t ensures HasPlayer(r, t) == HasPlayer(s, t) { PlayerSame(s, r, t); }
    if Histories(s) {
      forall t, x | 0 <= t < |r.teams| && 0 <= x < |r.teams[t].opponents| ensures Meets(r, t, x) {
        assert Meets(s, t, x);
      }
    }
  }

  lemma SameMatching(s: Run, r: Run)
    requires SameBoard(s, r) && Matched(s)
    requires forall i | 0 <= i < |s.pairings| && r.pairings[i] != s.pairings[i] ::
      r.pairings[i].winner.Some? && r.pairings[i].winner.value in {s.pairings[i].a, s.pairings[i].b, BOTH_LOST}
      && (r.pairings[i].winner.value == BOTH_LOST ==> HasPlayer(s, s.pairings[i].b))
    ensures Matched(r)
  {
    SameCast(s, r);
    forall i | 0 <= i < |r.pairings| ensures PairingOk(r, i) {
      assert PairingOk(s, i);
    }
    forall t | 0 <= t < |r.teams| && |r.teams[t].opponents| == r.round
      ensures exists i :: 0 <= i < |r.pairings| && r.pairings[i].Plays(t)
    {
      var i :| 0 <= i < |s.pairings| && s.pairings[i].Plays(t);
      assert r.pairings[i].Plays(t);
    }
    forall i, j, t | 0 <= i < j < |r.pairings| && 0 <= t < |r.teams|
      ensures !(r.pairings[i].Plays(t) && r.pairings[j].Plays(t))
    {
      assert !(s.pairings[i].Plays(t) && s.pairings[j].Plays(t));
    }
  }

  /** No team of the match was out before it: the ranks are as they were. */
  lemma SameRanks(s: Run, r: Run)
    requires SameBoard(s, r) && Ranked(s)
    requires forall t | 0 <= t < |s.teams| && !s.teams[t].In() :: r.teams[t].life == s.teams[t].life
    ensures Ranked(r)
  {
    InTeamsSame(s.teams, r.teams, |s.teams|);
    forall t, u | 0 <= t < |r.teams| && 0 <= u < |r.teams| && !r.teams[t].In() && !r.teams[u].In() && Better(r, t, u)
      ensures r.teams[t].finalRank < r.teams[u].finalRank
    {
      assert Better(s, t, u);
    }
  }

  lemma AddResult(rules: Rules, results: seq<bool>, won: bool)
    requires Playable(rules)
    ensures var more := results + [won];
      && Count(more, true) == Count(results, true) + (if won then 1 else 0)
      && Count(more, false) == Count(results, false) + (if won then 0 else 1)
      && Trail(more, true) == (if won then Trail(results, true) + 1 else 0)
      && Trail(more, false) == (if won then 0 else Trail(results, false) + 1)
      && Health(rules, more) == Health(rules, results) - (if won then 0 else LifeLost(rules, |more|))
  {
    assert (results + [won])[..|results|] == results;
  }

  lemma AddPrefixes(rules: Rules, results: seq<bool>, won: bool)
    requires Playable(rules) && 0 < Health(rules, results)
    requires forall k | 0 <= k < |results| :: 0 < Health(rules, results[..k])
    ensures var more := results + [won]; forall k | 0 <= k < |more| :: 0 < Health(rules, more[..k])
  {
    var more := results + [won];
    forall k | 0 <= k < |more| ensures 0 < Health(rules, more[..k]) {
      if k == |results| { assert more[..k] == results; } else { assert more[..k] == results[..k]; }
    }
  }

  /** One more result, at the round after the last. */
  lemma ResultAdded(rules: Rules, hasPlayer: bool, team: Team, results: seq<bool>, won: bool, emptied: bool)
    requires Playable(rules) && Explains(rules, hasPlayer, team, results) && 0 < team.life && (emptied ==> hasPlayer)
    ensures Explains(rules, hasPlayer, Outcome(rules, |results| + 1, team, won, emptied), results + [won])
  {
    AddResult(rules, results, won);
    AddPrefixes(rules, results, won);
  }

  lemma RecordedKept(rules: Rules, s: Run, r: Run, t: int, won: bool, emptied: bool)
    requires Playable(rules) && 0 <= t < |s.teams| == |r.teams| && Recorded(rules, s, t)
    requires HasPlayer(r, t) == HasPlayer(s, t) && (emptied ==> HasPlayer(s, t))
    requires s.teams[t].wins + s.teams[t].losses == s.round - 1 && 0 < s.teams[t].life
    requires r.teams[t] == Outcome(rules, s.round, s.teams[t], won, emptied)
    ensures Recorded(rules, r, t)
  {
    var results :| Explains(rules, HasPlayer(s, t), s.teams[t], results);
    ResultAdded(rules, HasPlayer(s, t), s.teams[t], results, won, emptied);
    assert Explains(rules, HasPlayer(r, t), r.teams[t], results + [won]);
  }

  lemma {:induction false} TotalUpdate(teams: seq<Team>, t: nat, team: Team)
    requires t < |teams|
    ensures TotalLosses(teams[t := team]) == TotalLosses(teams) - teams[t].losses + team.losses
  {
    if t == 0 {
      assert teams[t := team][1..] == teams[1..];
    } else {
      TotalUpdate(teams[1..], t - 1, team);
      assert teams[t := team][1..] == teams[1..][t - 1 := team];
    }
  }

  /** Between two teams at least one loses; the round's first pairing is the one that counts. */
  lemma LossCounted(rules: Rules, s: Run, i: nat, winner: int, emptyA: bool, emptyB: bool)
    requires Core(rules, s) && i < |s.pairings| && Verdict(s, i, winner, emptyA, emptyB)
    ensures Counted(Resolved(rules, s, i, winner, emptyA, emptyB))
    ensures s.pairings[i].b != MIRROR ==>
      TotalLosses(s.teams) < TotalLosses(Resolved(rules, s, i, winner, emptyA, emptyB).teams)
  {
    hide Rostered, Histories, Ranked, Records, Matched, HasPlayer, TotalLosses;
    var p := s.pairings[i];
    assert PairingOk(s, i);
    var r := Resolved(rules, s, i, winner, emptyA, emptyB);
    var teams := s.teams[p.a := r.teams[p.a]];
    TotalUpdate(s.teams, p.a, r.teams[p.a]);
    if p.b != MIRROR { TotalUpdate(teams, p.b, r.teams[p.b]); }
  }

  /** The two teams of a match stand before their result: in, healthy, with every earlier round played. */
  lemma BeforeMatch(rules: Rules, s: Run, i: nat, t: int)
    requires Core(rules, s) && i < |s.pairings| && s.pairings[i].winner.None? && 0 <= t < |s.teams|
    requires s.pairings[i].Plays(t)
    ensures s.teams[t].wins + s.teams[t].losses == s.round - 1 && s.teams[t].In() && 0 < s.teams[t].life
  {
    assert PlayedOk(s, s.pairings[i], t);
  }

  lemma AllRecordedKept(rules: Rules, s: Run, i: nat, winner: int, emptyA: bool, emptyB: bool)
    requires Core(rules, s) && i < |s.pairings| && Verdict(s, i, winner, emptyA, emptyB)
    ensures var r := Resolved(rules, s, i, winner, emptyA, emptyB);
      SameBoard(s, r) && forall t | 0 <= t < |r.teams| :: Recorded(rules, r, t)
  {
    hide Outcome, Rostered, Histories, Ranked, Counted, Matched, Recorded, HasPlayer;
    var p, r := s.pairings[i], Resolved(rules, s, i, winner, emptyA, emptyB);
    ResolvedBoard(rules, s, i, winner, emptyA, emptyB);
    SameCast(s, r);
    BeforeMatch(rules, s, i, p.a);
    if p.b != MIRROR { BeforeMatch(rules, s, i, p.b); }
    forall t | 0 <= t < |r.teams| ensures Recorded(rules, r, t) {
      assert Recorded(rules, s, t);
      if t == p.a { RecordedKept(rules, s, r, t, winner == t, emptyA); }
      else if t == p.b { RecordedKept(rules, s, r, t, winner == t, emptyB); }
      else { RecordedSame(rules, s, r, t); }
    }
  }

  lemma RecordsKept(rules: Rules, s: Run, i: nat, winner: int, emptyA: bool, emptyB: bool)
    requires Core(rules, s) && i < |s.pairings| && Verdict(s, i, winner, emptyA, emptyB)
    ensures var r := Resolved(rules, s, i, winner, emptyA, emptyB);
      forall j, t | 0 <= j < |r.pairings| && 0 <= t < |r.teams| && r.pairings[j].Plays(t) ::
        PlayedOk(r, r.pairings[j], t)
  {
    var p, r := s.pairings[i], Resolved(rules, s, i, winner, emptyA, emptyB);
    BeforeMatch(rules, s, i, p.a);
    if p.b != MIRROR { BeforeMatch(rules, s, i, p.b); }
    forall j, t | 0 <= j < |r.pairings| && 0 <= t < |r.teams| && r.pairings[j].Plays(t)
      ensures PlayedOk(r, r.pairings[j], t)
    {
      assert s.pairings[j].Plays(t) && PlayedOk(s, s.pairings[j], t);
      assert s.pairings[i].Plays(t) ==> j == i;
    }
  }

  lemma LossTaken(rules: Rules, round: int)
    requires Playable(rules)
    ensures Least(rules.healthRoundValues) <= LifeLost(rules, round) && 0 < Least(rules.healthRoundValues)
  {
    assert rules.healthRoundValues[Clamp(round - 1, 0, |rules.healthRoundValues| - 1)] in rules.healthRoundValues;
  }

  /** What a match's end leaves alone: every team out, every other pairing; and no health rises. */
  ghost predicate Spares(s: Run, r: Run, i: nat)
    requires SameBoard(s, r) && i < |s.pairings|
  {
    && (forall t | 0 <= t < |s.teams| && !s.teams[t].In() :: r.teams[t] == s.teams[t])
    && (forall t | 0 <= t < |s.teams| :: r.teams[t].life <= s.teams[t].life)
    && (forall j | 0 <= j < |s.pairings| && j != i :: r.pairings[j] == s.pairings[j])
  }

  lemma ResolvedSpares(rules: Rules, s: Run, i: nat, winner: int, emptyA: bool, emptyB: bool)
    requires Playable(rules) && i < |s.pairings| && PairingOk(s, i)
    requires forall t | 0 <= t < |s.teams| && s.pairings[i].Plays(t) :: s.teams[t].In() && 0 < s.teams[t].life
    ensures var r := Resolved(rules, s, i, winner, emptyA, emptyB); SameBoard(s, r) && Spares(s, r, i)
  {
    hide Outcome, HasPlayer;
    var p := s.pairings[i];
    assert p.Plays(p.a) && p.Plays(p.b);
    ResolvedBoard(rules, s, i, winner, emptyA, emptyB);
    OutcomeLife(rules, s.round, s.teams[p.a], winner == p.a, emptyA);
    if p.b != MIRROR { OutcomeLife(rules, s.round, s.teams[p.b], winner == p.b, emptyB); }
  }

  lemma OutcomeLife(rules: Rules, round: int, team: Team, won: bool, emptied: bool)
    requires Playable(rules) && 0 < team.life
    ensures Outcome(rules, round, team, won, emptied).life <= team.life
  {
    LossTaken(rules, round);
  }

  lemma SparedMatching(s: Run, r: Run, i: nat, winner: int)
    requires Matched(s) && SameBoard(s, r) && i < |s.pairings| && Spares(s, r, i)
    requires r.pairings[i].winner == Some(winner) && winner in {s.pairings[i].a, s.pairings[i].b, BOTH_LOST}
    requires winner == BOTH_LOST ==> HasPlayer(s, s.pairings[i].b)
    ensures Matched(r)
  {
    SameMatching(s, r);
  }

  lemma SparedRanks(s: Run, r: Run, i: nat)
    requires Ranked(s) && SameBoard(s, r) && i < |s.pairings| && Spares(s, r, i)
    ensures Ranked(r)
  {
    SameRanks(s, r);
  }

  lemma SparedRecords(rules: Rules, s: Run, r: Run, i: nat)
    requires Playable(rules) && Records(rules, s) && Matched(s) && SameBoard(s, r) && i < |s.pairings|
      && Spares(s, r, i)
    requires forall t | 0 <= t < |r.teams| :: Recorded(rules, r, t)
    requires forall j, t | 0 <= j < |r.pairings| && 0 <= t < |r.teams| && r.pairings[j].Plays(t) ::
      PlayedOk(r, r.pairings[j], t)
    ensures Records(rules, r)
  {
    forall t | 0 <= t < |r.teams| && |r.teams[t].opponents| < r.round
      ensures r.teams[t].wins + r.teams[t].losses == |r.teams[t].opponents|
    {
      assert !s.teams[t].In();
    }
  }

  /** A match's end keeps the invariant, and changes only its own two teams, both of them in. */
  lemma ResolvedKeeps(rules: Rules, s: Run, i: nat, winner: int, emptyA: bool, emptyB: bool)
    requires Core(rules, s) && i < |s.pairings| && Verdict(s, i, winner, emptyA, emptyB)
    ensures var r := Resolved(rules, s, i, winner, emptyA, emptyB);
      SameBoard(s, r) && Core(rules, r) && Spares(s, r, i) && r.pairings[i].winner == Some(winner)
  {
    hide Outcome, Rostered, Histories, Ranked, Counted, Records, Matched;
    var r := Resolved(rules, s, i, winner, emptyA, emptyB);
    forall t | 0 <= t < |s.teams| && s.pairings[i].Plays(t) ensures s.teams[t].In() && 0 < s.teams[t].life {
      BeforeMatch(rules, s, i, t);
    }
    ResolvedSpares(rules, s, i, winner, emptyA, emptyB);
    SameCast(s, r);
    SparedMatching(s, r, i, winner);
    SparedRanks(s, r, i);
    AllRecordedKept(rules, s, i, winner, emptyA, emptyB);
    RecordsKept(rules, s, i, winner, emptyA, emptyB);
    SparedRecords(rules, s, r, i);
    LossCounted(rules, s, i, winner, emptyA, emptyB);
  }
}
