/** The round's pairing: any order of the teams in makes a perfect matching, and starts the round with the invariant. */
module ArenaPairing {
  import opened Options
  import opened ArenaRules
  import opened ArenaTypes
  import opened ArenaSteps
  import opened ArenaInvariant
  import opened ArenaRounds

  /** A run whose round has its number but no pairings yet: a run just made, or one between two rounds. */
  ghost predicate Unpaired(rules: Rules, s: Run) {
    && Playable(rules) && Rostered(s) && Histories(s) && Ranked(s)
    && 1 <= s.round <= Horizon(rules, s) && s.round - 1 <= TotalLosses(s.teams)
    && (forall t | 0 <= t < |s.teams| :: Standing(rules, s, t))
  }

  /** A team before a round: in, healthy, with every round before played; or out for good. */
  ghost predicate Standing(rules: Rules, s: Run, t: int)
    requires Playable(rules) && 0 <= t < |s.teams|
  {
    var team := s.teams[t];
    && Recorded(rules, s, t)
    && team.wins + team.losses == |team.opponents|
    && (if team.In() then |team.opponents| == s.round - 1 && 0 < team.life else |team.opponents| < s.round)
    && (team.finalRank > 1 ==> team.life <= 0)
  }

  /** An order of the teams in: each of them once. */
  ghost predicate OrderOf(s: Run, order: seq<int>) {
    && NoRepeats(order)
    && (forall i | 0 <= i < |order| :: TeamIn(s, order[i]))
    && (forall t | 0 <= t < |s.teams| && s.teams[t].In() :: t in order)
    && |order| == Left(s)
  }

  lemma {:induction false} RepeatsShow(xs: seq<int>, i: int, j: int)
    requires 0 <= i < j < |xs| && xs[i] == xs[j]
    ensures multiset(xs)[xs[i]] >= 2
  {
    assert xs == xs[..j] + xs[j..];
    assert xs[i] in xs[..j] && xs[j] in xs[j..];
    assert multiset(xs) == multiset(xs[..j]) + multiset(xs[j..]);
  }

  lemma {:induction false} OnceEach(xs: seq<int>, x: int)
    requires forall i, j | 0 <= i < j < |xs| :: xs[i] < xs[j]
    ensures multiset(xs)[x] <= 1
  {
    if xs != [] {
      OnceEach(xs[1..], x);
      assert xs == [xs[0]] + xs[1..];
      if x == xs[0] { assert x !in xs[1..]; }
    }
  }

  /** Whatever the shuffle, it is an order of the teams in. */
  lemma ShuffleOrders(s: Run, order: seq<int>)
    requires multiset(order) == multiset(InTeams(s.teams, |s.teams|))
    ensures OrderOf(s, order)
  {
    hide InTeams, InOrder;
    var teams := InTeams(s.teams, |s.teams|);
    InTeamsAscend(s.teams, |s.teams|);
    assert |order| == |multiset(order)| == |multiset(teams)|;
    forall i, j | 0 <= i < j < |order| ensures order[i] != order[j] {
      OnceEach(teams, order[i]);
      if order[i] == order[j] { RepeatsShow(order, i, j); }
    }
    forall i | 0 <= i < |order| ensures TeamIn(s, order[i]) {
      assert order[i] in multiset(order) && order[i] in multiset(teams);
    }
    forall t | 0 <= t < |s.teams| && s.teams[t].In() ensures t in order {
      assert t in teams && t in multiset(teams) && t in multiset(order);
    }
  }

  /** Partners are partners of each other; only the last of an odd order has none. */
  lemma PartnersMeet(order: seq<int>, t: int)
    requires NoRepeats(order) && t in order && MIRROR !in order
    ensures var o := Partner(order, t);
      if o == MIRROR then IndexOf(order, t) == |order| - 1 && |order| % 2 == 1
      else o in order && o != t && Partner(order, o) == t
  {
    var i := IndexOf(order, t);
    if i % 2 == 1 { IndexOfAt(order, i - 1); }
    else if i + 1 < |order| { IndexOfAt(order, i + 1); }
  }

  lemma NotMirror(s: Run, order: seq<int>)
    requires OrderOf(s, order)
    ensures MIRROR !in order
    ensures forall t | 0 <= t < |s.teams| :: t in order <==> s.teams[t].In()
    ensures forall t | t in order :: 0 <= t < |s.teams|
  {
    forall t | t in order ensures TeamIn(s, t) {
      var i :| 0 <= i < |order| && order[i] == t;
      assert TeamIn(s, order[i]);
    }
  }

  /** The k-th pairing of an order: of two partners, not decided, launched under its own id if it has a player. */
  ghost predicate NewPairing(s: Run, order: seq<int>, p: Pairing, k: nat) {
    && p.winner.None? && p.a != p.b
    && p.a in order && p.b == Partner(order, p.a) && IndexOf(order, p.a) / 2 == k
    && (if p.b == MIRROR then 2 * k + 1 == |order|
        else 2 * k + 1 < |order| && p.b in order && Partner(order, p.b) == p.a && IndexOf(order, p.b) / 2 == k)
    && p.hasPlayer == HasPlayer(s, p.a) && (HasPlayer(s, p.b) ==> HasPlayer(s, p.a))
    && p.matchId == (if p.hasPlayer then Some(MatchId(s.round, k)) else None)
  }

  lemma PairingAtNew(s: Run, order: seq<int>, k: nat)
    requires OrderOf(s, order) && 2 * k < |order|
    ensures NewPairing(s, order, PairingAt(s, order, k), k)
    ensures PairingAt(s, order, k).Plays(order[2 * k])
      && (2 * k + 1 < |order| ==> PairingAt(s, order, k).Plays(order[2 * k + 1]))
  {
    NotMirror(s, order);
    IndexOfAt(order, 2 * k);
    if 2 * k + 1 < |order| { IndexOfAt(order, 2 * k + 1); }
  }

  /** What pairing an order does to a run. */
  ghost predicate JustPaired(s: Run, order: seq<int>, r: Run) {
    && r == s.(teams := r.teams, pairings := r.pairings) && |r.teams| == |s.teams|
    && (forall t | 0 <= t < |s.teams| ::
          r.teams[t] == if t in order then s.teams[t].(opponents := s.teams[t].opponents + [Partner(order, t)])
            else s.teams[t])
    && |r.pairings| == (|order| + 1) / 2
    && (forall k | 0 <= k < |r.pairings| :: NewPairing(s, order, r.pairings[k], k))
    && (forall t | t in order :: r.pairings[IndexOf(order, t) / 2].Plays(t))
  }

  lemma PairingsNew(s: Run, order: seq<int>, ps: seq<Pairing>)
    requires OrderOf(s, order) && |ps| == (|order| + 1) / 2
    requires forall k | 0 <= k < |ps| :: ps[k] == PairingAt(s, order, k)
    ensures forall k | 0 <= k < |ps| :: NewPairing(s, order, ps[k], k)
    ensures forall t | t in order :: ps[IndexOf(order, t) / 2].Plays(t)
  {
    forall k | 0 <= k < |ps| ensures NewPairing(s, order, ps[k], k) { PairingAtNew(s, order, k); }
    forall t | t in order ensures ps[IndexOf(order, t) / 2].Plays(t) { PairingAtNew(s, order, IndexOf(order, t) / 2); }
  }

  lemma PairedJust(s: Run, order: seq<int>)
    requires OrderOf(s, order)
    ensures JustPaired(s, order, Paired(s, order))
  {
    PairingsNew(s, order, Paired(s, order).pairings);
  }

  lemma PairedPlayers(s: Run, order: seq<int>, r: Run)
    requires JustPaired(s, order, r)
    ensures forall t :: HasPlayer(r, t) == HasPlayer(s, t)
  {
    forall t ensures HasPlayer(r, t) == HasPlayer(s, t) { PlayerSame(s, r, t); }
  }

  /** Before a round's pairing, the teams in are those one round short of it. */
  lemma BeforeRound(rules: Rules, s: Run, order: seq<int>)
    requires Unpaired(rules, s) && OrderOf(s, order)
    ensures forall t | 0 <= t < |s.teams| :: |s.teams[t].opponents| <= s.round - 1
    ensures forall t | 0 <= t < |s.teams| && t in order :: |s.teams[t].opponents| == s.round - 1
    ensures forall t | 0 <= t < |s.teams| :: t in order <==> s.teams[t].In()
    ensures MIRROR !in order && forall t | t in order :: 0 <= t < |s.teams|
  {
    NotMirror(s, order);
    forall t | 0 <= t < |s.teams|
      ensures |s.teams[t].opponents| <= s.round - 1 && (t in order ==> |s.teams[t].opponents| == s.round - 1)
    {
      assert Standing(rules, s, t);
    }
  }

  lemma PairedPairing(rules: Rules, s: Run, order: seq<int>, r: Run, k: nat)
    requires Unpaired(rules, s) && OrderOf(s, order) && JustPaired(s, order, r) && k < |r.pairings|
    ensures PairingOk(r, k)
  {
    BeforeRound(rules, s, order);
    PairedPlayers(s, order, r);
    assert NewPairing(s, order, r.pairings[k], k);
  }

  lemma OneSeat(s: Run, order: seq<int>, r: Run, i: int, t: int)
    requires JustPaired(s, order, r) && 0 <= i < |r.pairings| && t != MIRROR && r.pairings[i].Plays(t)
    ensures t in order && IndexOf(order, t) / 2 == i
  {
    assert NewPairing(s, order, r.pairings[i], i);
  }

  lemma PairedMatched(rules: Rules, s: Run, order: seq<int>, r: Run)
    requires Unpaired(rules, s) && OrderOf(s, order) && JustPaired(s, order, r)
    ensures Matched(r) && AllPlaying(r)
  {
    BeforeRound(rules, s, order);
    forall t | 0 <= t < |r.teams|
      ensures |r.teams[t].opponents| <= r.round && (t in order <==> |r.teams[t].opponents| == r.round)
    {}
    forall i | 0 <= i < |r.pairings| ensures PairingOk(r, i) { PairedPairing(rules, s, order, r, i); }
    forall i, j, t | 0 <= i < j < |r.pairings| && 0 <= t < |r.teams|
      ensures !(r.pairings[i].Plays(t) && r.pairings[j].Plays(t))
    {
      if r.pairings[i].Plays(t) && r.pairings[j].Plays(t) {
        OneSeat(s, order, r, i, t);
        OneSeat(s, order, r, j, t);
      }
    }
  }

  lemma PairedHistories(rules: Rules, s: Run, order: seq<int>, r: Run)
    requires Unpaired(rules, s) && OrderOf(s, order) && JustPaired(s, order, r)
    ensures Histories(r)
  {
    BeforeRound(rules, s, order);
    forall t, x | 0 <= t < |r.teams| && 0 <= x < |r.teams[t].opponents| ensures Meets(r, t, x) {
      if x < |s.teams[t].opponents| { assert Meets(s, t, x); } else { PartnersMeet(order, t); }
    }
    forall t, u, x | 0 <= t < u < |r.teams| && 0 <= x < |r.teams[t].opponents| && x < |r.teams[u].opponents|
      ensures !(r.teams[t].opponents[x] == MIRROR && r.teams[u].opponents[x] == MIRROR)
    {
      if x < |s.teams[t].opponents| && x < |s.teams[u].opponents| {
        assert !(s.teams[t].opponents[x] == MIRROR && s.teams[u].opponents[x] == MIRROR);
      } else {
        PartnersMeet(order, t);
        PartnersMeet(order, u);
      }
    }
  }

  lemma PairedRanked(rules: Rules, s: Run, order: seq<int>, r: Run)
    requires Unpaired(rules, s) && OrderOf(s, order) && JustPaired(s, order, r)
    ensures Ranked(r) && Left(r) == Left(s)
  {
    BeforeRound(rules, s, order);
    InTeamsSame(s.teams, r.teams, |s.teams|);
    forall t, u | 0 <= t < |r.teams| && 0 <= u < |r.teams| && !r.teams[t].In() && !r.teams[u].In() && Better(r, t, u)
      ensures r.teams[t].finalRank < r.teams[u].finalRank
    {
      assert Better(s, t, u);
    }
  }

  lemma AllStand(rules: Rules, s: Run)
    requires Unpaired(rules, s)
    ensures Playable(rules) && forall t | 0 <= t < |s.teams| :: Standing(rules, s, t)
  {
  }

  lemma PairedRecords(rules: Rules, s: Run, order: seq<int>, r: Run)
    requires Unpaired(rules, s) && OrderOf(s, order) && JustPaired(s, order, r)
    ensures Records(rules, r)
  {
    hide Unpaired, OrderOf, Partner, IndexOf, HasPlayer, Recorded;
    BeforeRound(rules, s, order);
    AllStand(rules, s);
    PairedPlayers(s, order, r);
    forall t | 0 <= t < |r.teams|
      ensures Recorded(rules, r, t)
      ensures |r.teams[t].opponents| < r.round ==> r.teams[t].wins + r.teams[t].losses == |r.teams[t].opponents|
      ensures r.teams[t].finalRank > 1 ==> r.teams[t].life <= 0
    {
      assert Standing(rules, s, t);
      RecordedSame(rules, s, r, t);
    }
    forall i, t | 0 <= i < |r.pairings| && 0 <= t < |r.teams| && r.pairings[i].Plays(t)
      ensures PlayedOk(r, r.pairings[i], t)
    {
      assert NewPairing(s, order, r.pairings[i], i);
      assert Standing(rules, s, t);
    }
  }

  lemma PairedCore(rules: Rules, s: Run, order: seq<int>, r: Run)
    requires Unpaired(rules, s) && OrderOf(s, order) && JustPaired(s, order, r)
    ensures Core(rules, r) && AllPlaying(r)
  {
    PairedMatched(rules, s, order, r);
    PairedHistories(rules, s, order, r);
    PairedRanked(rules, s, order, r);
    PairedRecords(rules, s, order, r);
    PairedRest(rules, s, order, r);
  }

  lemma PairedRest(rules: Rules, s: Run, order: seq<int>, r: Run)
    requires Unpaired(rules, s) && OrderOf(s, order) && JustPaired(s, order, r)
    ensures Rostered(r) && Counted(r) && r.round <= Horizon(rules, r)
  {
    hide Standing, HasPlayer, Histories, Ranked, OrderOf, Partner, IndexOf;
    TotalSame(s.teams, r.teams);
    if r.pairings != [] { assert NewPairing(s, order, r.pairings[0], 0); }
  }

  /**
   * A round begins: every order of the teams in gives a perfect matching of them (one mirror, when they are an odd
   * number), nothing of it decided.
   */
  lemma PairedKeeps(rules: Rules, s: Run, order: seq<int>, r: Run)
    requires Unpaired(rules, s) && OrderOf(s, order) && JustPaired(s, order, r)
    ensures Core(rules, r) && AllPlaying(r)
    ensures forall i | 0 <= i < |r.pairings| :: r.pairings[i].winner.None?
    ensures 2 * |r.pairings| == Left(s) + Left(s) % 2
    ensures Left(s) % 2 == 1 <==> exists i :: 0 <= i < |r.pairings| && r.pairings[i].b == MIRROR
  {
    PairedCore(rules, s, order, r);
    MirrorWhenOdd(s, order, r);
  }

  lemma MirrorWhenOdd(s: Run, order: seq<int>, r: Run)
    requires OrderOf(s, order) && JustPaired(s, order, r)
    ensures forall i | 0 <= i < |r.pairings| :: r.pairings[i].winner.None?
    ensures 2 * |r.pairings| == Left(s) + Left(s) % 2
    ensures Left(s) % 2 == 1 <==> exists i :: 0 <= i < |r.pairings| && r.pairings[i].b == MIRROR
  {
    forall i | 0 <= i < |r.pairings|
      ensures r.pairings[i].winner.None? && (r.pairings[i].b == MIRROR <==> 2 * i + 1 == |order|)
    {
      assert NewPairing(s, order, r.pairings[i], i);
    }
    if Left(s) % 2 == 1 { assert r.pairings[|order| / 2].b == MIRROR; }
  }

  // ---- Between two rounds ----

  lemma {:induction false} LossesBound(rules: Rules, results: seq<bool>)
    requires Playable(rules)
    ensures Health(rules, results) <= rules.startingLife - Least(rules.healthRoundValues) * Count(results, false)
  {
    hide Least;
    if results != [] {
      LossesBound(rules, results[..|results| - 1]);
      assert rules.healthRoundValues[Clamp(|results| - 1, 0, |rules.healthRoundValues| - 1)] in rules.healthRoundValues;
    }
  }

  /** A team takes no more losses than the limit, and one still healthy can take one more. */
  lemma LossesLimited(rules: Rules, s: Run, t: int)
    requires Playable(rules) && 0 <= t < |s.teams| && Recorded(rules, s, t)
    ensures s.teams[t].losses <= LossLimit(rules)
    ensures 0 < s.teams[t].life ==> s.teams[t].losses < LossLimit(rules)
  {
    var results :| Explains(rules, HasPlayer(s, t), s.teams[t], results);
    var m := Least(rules.healthRoundValues);
    if 0 < s.teams[t].life {
      LossesBound(rules, results);
      QuotientBound(Count(results, false), m, rules.startingLife - 1);
    } else if results != [] {
      var before := results[..|results| - 1];
      LossesBound(rules, before);
      QuotientBound(Count(before, false), m, rules.startingLife - 1);
    }
  }

  lemma {:induction false} TotalLimited(rules: Rules, teams: seq<Team>, limit: int, healthy: int)
    requires forall t | 0 <= t < |teams| :: teams[t].losses <= limit
    requires 0 <= healthy < |teams| ==> teams[healthy].losses < limit
    ensures TotalLosses(teams) <= |teams| * limit
    ensures 0 <= healthy < |teams| ==> TotalLosses(teams) < |teams| * limit
  {
    if teams != [] {
      TotalLimited(rules, teams[1..], limit, healthy - 1);
      assert |teams| * limit == |teams[1..]| * limit + limit;
    }
  }

  /** Losses run out: while a team is healthy, the losses counted are below the horizon. */
  lemma HorizonAhead(rules: Rules, s: Run, healthy: int)
    requires Playable(rules) && (forall t | 0 <= t < |s.teams| :: Recorded(rules, s, t))
    requires 0 <= healthy < |s.teams| && 0 < s.teams[healthy].life
    ensures TotalLosses(s.teams) < Horizon(rules, s)
  {
    forall t | 0 <= t < |s.teams| ensures s.teams[t].losses <= LossLimit(rules) { LossesLimited(rules, s, t); }
    LossesLimited(rules, s, healthy);
    TotalLimited(rules, s.teams, LossLimit(rules), healthy);
  }

  lemma {:induction false} TwoLeft(teams: seq<Team>, k: nat)
    requires k <= |teams| && 2 <= |InTeams(teams, k)|
    ensures exists t, u :: 0 <= t < u < k && teams[t].In() && teams[u].In()
  {
    InTeamsAscend(teams, k);
    var xs := InTeams(teams, k);
    assert xs[0] in xs && xs[1] in xs && xs[0] < xs[1];
  }

  /** With two teams left after a round, its first pairing was of two teams: one of them lost. */
  lemma RoundCounted(rules: Rules, s: Run)
    requires Core(rules, s) && AllDecided(s) && 2 <= Left(s)
    ensures s.round <= TotalLosses(s.teams)
  {
    hide Rostered, Histories, Ranked, Records, TotalLosses, Matched;
    FirstNotMirror(s);
    assert s.pairings[0] in s.pairings;
  }

  /** Only the last pairing is a mirror: with two teams left, the first one is not. */
  lemma FirstNotMirror(s: Run)
    requires Matched(s) && 2 <= Left(s)
    ensures s.pairings != [] && s.pairings[0].b != MIRROR
  {
    hide HasPlayer, Matched, InTeams;
    TwoLeft(s.teams, |s.teams|);
    var t, u :| 0 <= t < u < |s.teams| && s.teams[t].In() && s.teams[u].In();
    var i := PairingOf(s, t);
    var j := PairingOf(s, u);
    FirstOk(s);
  }

  lemma PairingOf(s: Run, t: int) returns (i: int)
    requires Matched(s) && TeamIn(s, t)
    ensures 0 <= i < |s.pairings| && s.pairings[i].Plays(t)
  {
    i :| 0 <= i < |s.pairings| && s.pairings[i].Plays(t);
  }

  lemma FirstOk(s: Run)
    requires Matched(s) && s.pairings != []
    ensures s.pairings[0].b == MIRROR ==> |s.pairings| == 1
  {
    assert PairingOk(s, 0);
  }

  /**
   * A round that leaves two teams or more, all of them healthy, is ready for the next one, and that one is within the
   * horizon.
   */
  lemma NextRound(rules: Rules, s: Run)
    requires Core(rules, s) && AllDecided(s) && 2 <= Left(s)
    requires forall t | 0 <= t < |s.teams| && s.teams[t].In() :: 0 < s.teams[t].life
    ensures Unpaired(rules, s.(round := s.round + 1))
  {
    hide Standing, Rostered, Histories, Ranked, Recorded, InTeams, TotalLosses, PairingOk;
    RoundCounted(rules, s);
    var t := SomeoneHealthy(s);
    HorizonAhead(rules, s, t);
    NextStanding(rules, s);
    NextHistories(s);
  }

  lemma SomeoneHealthy(s: Run) returns (t: int)
    requires 2 <= Left(s) && forall t | 0 <= t < |s.teams| && s.teams[t].In() :: 0 < s.teams[t].life
    ensures 0 <= t < |s.teams| && 0 < s.teams[t].life
  {
    TwoLeft(s.teams, |s.teams|);
    var u;
    t, u :| 0 <= t < u < |s.teams| && s.teams[t].In() && s.teams[u].In();
  }

  lemma NextHistories(s: Run)
    requires Histories(s) && Ranked(s) && Rostered(s)
    ensures var r := s.(round := s.round + 1); Histories(r) && Ranked(r) && Rostered(r)
  {
    var r := s.(round := s.round + 1);
    forall t, x | 0 <= t < |r.teams| && 0 <= x < |r.teams[t].opponents| ensures Meets(r, t, x) {
      assert Meets(s, t, x);
    }
    forall t, u | 0 <= t < |r.teams| && 0 <= u < |r.teams| && !r.teams[t].In() && !r.teams[u].In() && Better(r, t, u)
      ensures r.teams[t].finalRank < r.teams[u].finalRank
    {
      assert Better(s, t, u);
    }
  }

  lemma NextStanding(rules: Rules, s: Run)
    requires Core(rules, s) && AllDecided(s)
    requires forall t | 0 <= t < |s.teams| && s.teams[t].In() :: 0 < s.teams[t].life
    ensures var r := s.(round := s.round + 1); forall t | 0 <= t < |r.teams| :: Standing(rules, r, t)
  {
    var r := s.(round := s.round + 1);
    forall t | 0 <= t < |r.teams| ensures Standing(rules, r, t) {
      assert Recorded(rules, s, t);
      PlayerSame(s, r, t);
      RecordedSame(rules, s, r, t);
      if |s.teams[t].opponents| == s.round {
        var i :| 0 <= i < |s.pairings| && s.pairings[i].Plays(t);
        assert PlayedOk(s, s.pairings[i], t) && s.pairings[i] in s.pairings;
      }
    }
  }
}
