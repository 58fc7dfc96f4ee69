/**
 * The ranks a run shows (ArenaState.cs, lines 137-160): at every moment a permutation, and at the end the final ranks.
 */
module ArenaRanks {
  import opened ArenaItems
  import opened ArenaTypes
  import opened ArenaSteps
  import opened ArenaInvariant
  import opened ArenaRounds
  import opened ArenaTransitions

  // ---- Counting ----

  function Image(f: int -> int, d: set<int>): set<int> {
    set t | t in d :: f(t)
  }

  ghost predicate OneToOne(f: int -> int, d: set<int>) {
    forall t, u | t in d && u in d && t != u :: f(t) != f(u)
  }

  function SeqSet(xs: seq<int>): set<int> {
    set x | x in xs
  }

  lemma {:induction false} ImageSize(f: int -> int, xs: seq<int>)
    requires NoRepeats(xs) && OneToOne(f, SeqSet(xs))
    ensures |Image(f, SeqSet(xs))| == |xs|
  {
    if xs == [] {
      assert Image(f, SeqSet(xs)) == {};
    } else {
      var init, last := xs[..|xs| - 1], xs[|xs| - 1];
      ImageSize(f, init);
      assert SeqSet(xs) == SeqSet(init) + {last};
      assert Image(f, SeqSet(xs)) == Image(f, SeqSet(init)) + {f(last)};
    }
  }

  lemma SameSize(a: set<int>, b: set<int>)
    requires a <= b && |a| == |b|
    ensures a == b
  {
    assert a + (b - a) == b && |a + (b - a)| == |a| + |b - a|;
    assert b - a == {};
  }

  /** As many different values as there are places for them fill those places. */
  lemma FillsRange(f: int -> int, xs: seq<int>, lo: int, hi: int)
    requires NoRepeats(xs) && OneToOne(f, SeqSet(xs)) && (forall t | t in xs :: lo <= f(t) < hi) && |xs| == hi - lo
    ensures Image(f, SeqSet(xs)) == Range(lo, hi)
  {
    ImageSize(f, xs);
    SameSize(Image(f, SeqSet(xs)), Range(lo, hi));
  }

  // ---- The ranks of those out ----

  function OutSet(s: Run): set<int> {
    set t | 0 <= t < |s.teams| && !s.teams[t].In()
  }

  function FinalRank(s: Run): int -> int {
    t => if 0 <= t < |s.teams| then s.teams[t].finalRank else 0
  }

  /** The teams out among the first k, by index. */
  function OutList(teams: seq<Team>, k: nat): (r: seq<int>)
    requires k <= |teams|
    ensures forall t :: t in r <==> 0 <= t < k && !teams[t].In()
    ensures NoRepeats(r) && |r| == k - |InTeams(teams, k)|
  {
    if k == 0 then []
    else
      var r := OutList(teams, k - 1);
      assert forall i | 0 <= i < |r| :: r[i] in r;
      r + if teams[k - 1].In() then [] else [k - 1]
  }

  function Upto(n: nat): (r: seq<int>)
    ensures |r| == n && NoRepeats(r)
    ensures forall x :: x in r <==> 0 <= x < n
  {
    if n == 0 then []
    else
      var r := Upto(n - 1);
      assert forall i | 0 <= i < |r| :: r[i] in r;
      r + [n - 1]
  }

  /** Of two teams, one ended better than the other. */
  lemma OneIsBetter(s: Run, t: int, u: int)
    requires 0 <= t < |s.teams| && 0 <= u < |s.teams| && t != u
    ensures Better(s, t, u) <==> !Better(s, u, t)
  {
  }

  lemma FinalOneToOne(s: Run)
    requires Ranked(s)
    ensures OneToOne(FinalRank(s), OutSet(s))
  {
    forall t, u | t in OutSet(s) && u in OutSet(s) && t != u ensures FinalRank(s)(t) != FinalRank(s)(u) {
      OneIsBetter(s, t, u);
    }
  }

  /** The final ranks of the teams out are exactly those below the teams left. */
  lemma FinalRanksFill(setup: Setup, s: Run)
    requires Inv(setup, s)
    ensures Image(FinalRank(s), OutSet(s)) == Range(Left(s) + 1, |s.teams| + 1)
  {
    hide Rostered, Matched, Histories, Records, Counted, Ready, PlayersOk, PhaseOk;
    FinalOneToOne(s);
    var out := OutList(s.teams, |s.teams|);
    assert SeqSet(out) == OutSet(s);
    FillsRange(FinalRank(s), out, Left(s) + 1, |s.teams| + 1);
  }

  /** Everyone is out: ranked before exactly those they ended better than. */
  lemma RankedBefore(s: Run, t: int, u: int)
    requires Ranked(s) && 0 <= t < |s.teams| && 0 <= u < |s.teams| && t != u && !s.teams[t].In() && !s.teams[u].In()
    ensures s.teams[t].finalRank < s.teams[u].finalRank <==> Better(s, t, u)
  {
    hide Better;
    OneIsBetter(s, t, u);
  }

  lemma EndParts(setup: Setup, s: Run)
    requires Inv(setup, s) && s.phase == Ended
    ensures Ranked(s) && Left(s) == 0 && OutSet(s) == Range(0, |s.teams|)
    ensures forall t | 0 <= t < |s.teams| :: !s.teams[t].In()
  {
    hide Rostered, Matched, Histories, Records, Counted, Ready, PlayersOk, Ranked;
    NoneLeft(s.teams, |s.teams|);
  }

  /** At the end the final ranks are 1 to n, and a team is ranked before another exactly when it ended better. */
  lemma EndRanks(setup: Setup, s: Run)
    requires Inv(setup, s) && s.phase == Ended
    ensures Image(FinalRank(s), Range(0, |s.teams|)) == Range(1, |s.teams| + 1)
    ensures forall t, u | 0 <= t < |s.teams| && 0 <= u < |s.teams| && t != u ::
      s.teams[t].finalRank < s.teams[u].finalRank <==> Better(s, t, u)
  {
    hide Inv, Ranked, Better;
    FinalRanksFill(setup, s);
    EndParts(setup, s);
    forall t, u | 0 <= t < |s.teams| && 0 <= u < |s.teams| && t != u
      ensures s.teams[t].finalRank < s.teams[u].finalRank <==> Better(s, t, u)
    {
      RankedBefore(s, t, u);
    }
  }

  // ---- The ranks shown ----

  /** The teams in, the healthiest first. */
  function StandingOrder(s: Run): (r: seq<int>)
    ensures forall t :: t in r <==> TeamIn(s, t)
    ensures |r| == Left(s)
  {
    var still := InTeams(s.teams, |s.teams|);
    assert forall i | 0 <= i < |still| :: still[i] in still;
    ByLife(s.teams, still)
  }

  function Shown(s: Run, t: int): int {
    if TeamIn(s, t) then IndexOf(StandingOrder(s), t) + 1 else if 0 <= t < |s.teams| then s.teams[t].finalRank else 0
  }

  function ShownRank(s: Run): int -> int {
    t => Shown(s, t)
  }

  lemma StandingInOrder(s: Run)
    ensures Indexes(s.teams, StandingOrder(s)) && InOrder(s.teams, StandingOrder(s))
  {
    InTeamsAscend(s.teams, |s.teams|);
    ByLifeInOrder(s.teams, InTeams(s.teams, |s.teams|));
  }

  lemma ShownInBounds(s: Run, t: int)
    requires Ranked(s) && 0 <= t < |s.teams|
    ensures if TeamIn(s, t) then 1 <= ShownRank(s)(t) <= Left(s) else Left(s) < ShownRank(s)(t) <= |s.teams|
  {
    hide StandingOrder;
  }

  lemma ShownDiffers(s: Run, t: int, u: int)
    requires Ranked(s) && 0 <= t < |s.teams| && 0 <= u < |s.teams| && t != u
    ensures ShownRank(s)(t) != ShownRank(s)(u)
  {
    hide StandingOrder, Better;
    ShownInBounds(s, t);
    ShownInBounds(s, u);
    OneIsBetter(s, t, u);
  }

  lemma ShownOneToOne(s: Run)
    requires Ranked(s)
    ensures OneToOne(ShownRank(s), Range(0, |s.teams|))
    ensures forall t | t in Range(0, |s.teams|) :: 1 <= ShownRank(s)(t) <= |s.teams|
  {
    hide ShownRank, Ranked;
    InBound(s.teams, |s.teams|);
    forall t | t in Range(0, |s.teams|) ensures 1 <= ShownRank(s)(t) <= |s.teams| { ShownInBounds(s, t); }
    forall t, u | t in Range(0, |s.teams|) && u in Range(0, |s.teams|) && t != u
      ensures ShownRank(s)(t) != ShownRank(s)(u)
    {
      ShownDiffers(s, t, u);
    }
  }

  lemma ShownBefore(s: Run, t: int, u: int)
    requires Ranked(s) && TeamIn(s, t) && 0 <= u < |s.teams| && t != u
    ensures ShownRank(s)(t) < ShownRank(s)(u) <==> !TeamIn(s, u) || Ahead(s.teams, t, u)
  {
    hide StandingOrder;
    if TeamIn(s, u) { StandingPlaces(s, t, u); } else {
      ShownInBounds(s, t);
      ShownInBounds(s, u);
    }
  }

  /** At every moment the ranks shown are 1 to n: those in by health, then by index, before all those out. */
  lemma ShownRanksFill(setup: Setup, s: Run)
    requires Inv(setup, s)
    ensures Image(ShownRank(s), Range(0, |s.teams|)) == Range(1, |s.teams| + 1)
    ensures forall t, u | TeamIn(s, t) && 0 <= u < |s.teams| && t != u ::
      ShownRank(s)(t) < ShownRank(s)(u) <==> !TeamIn(s, u) || Ahead(s.teams, t, u)
  {
    hide Rostered, Matched, Histories, Ranked, Records, Counted, Ready, PlayersOk, PhaseOk, ShownRank;
    ShownOneToOne(s);
    assert SeqSet(Upto(|s.teams|)) == Range(0, |s.teams|);
    FillsRange(ShownRank(s), Upto(|s.teams|), 1, |s.teams| + 1);
    forall t, u | TeamIn(s, t) && 0 <= u < |s.teams| && t != u
      ensures ShownRank(s)(t) < ShownRank(s)(u) <==> !TeamIn(s, u) || Ahead(s.teams, t, u)
    {
      ShownBefore(s, t, u);
    }
  }

  lemma StandingPlaces(s: Run, t: int, u: int)
    requires TeamIn(s, t) && TeamIn(s, u) && t != u
    ensures IndexOf(StandingOrder(s), t) < IndexOf(StandingOrder(s), u) <==> Ahead(s.teams, t, u)
  {
    hide StandingOrder;
    StandingInOrder(s);
    if Ahead(s.teams, t, u) {
      PlaceInOrder(s.teams, StandingOrder(s), t, u);
    } else {
      PlaceInOrder(s.teams, StandingOrder(s), u, t);
    }
  }
}
