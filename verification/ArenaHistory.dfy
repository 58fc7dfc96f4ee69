/**
 * The rounds of a run, each with the pairings it ended with (the last as it stands): what a team's record says of them,
 * and that each part of a transition only adds to them.
 */
module ArenaHistory {
  import opened Options
  import opened ArenaRules
  import opened ArenaTypes
  import opened ArenaSteps
  import opened ArenaInvariant
  import opened ArenaResults
  import opened ArenaRounds
  import opened ArenaPairing
  import opened ArenaTransitions
  import opened ArenaProgress

  // ---- A run's rounds ----

  predicate Decided(pairings: seq<Pairing>, t: int) {
    exists p | p in pairings :: p.Plays(t) && p.winner.Some?
  }

  predicate WonIn(pairings: seq<Pairing>, t: int) {
    exists p | p in pairings :: p.winner == Some(t)
  }

  /** A team's result in each of the rounds decided for it: whether its pairing of the round names it the winner. */
  function ResultsOf(rounds: seq<seq<Pairing>>, t: int): seq<bool> {
    if rounds == [] then []
    else
      var last := rounds[|rounds| - 1];
      ResultsOf(rounds[..|rounds| - 1], t) + if Decided(last, t) then [WonIn(last, t)] else []
  }

  /** A team's one pairing of a round, against this opponent. */
  ghost predicate Faces(pairings: seq<Pairing>, t: int, i: int, opponent: int) {
    && 0 <= i < |pairings|
    && ((pairings[i].a == t && pairings[i].b == opponent) || (pairings[i].b == t && pairings[i].a == opponent))
    && forall j | 0 <= j < |pairings| && pairings[j].Plays(t) :: j == i
  }

  ghost predicate Faced(pairings: seq<Pairing>, t: int, opponent: int) {
    exists i :: Faces(pairings, t, i, opponent)
  }

  /** A winner is a side of its pairing, or nobody. */
  ghost predicate WinnersPlay(pairings: seq<Pairing>) {
    forall p | p in pairings && p.winner.Some? :: p.Plays(p.winner.value) || p.winner.value == BOTH_LOST
  }

  /**
   * One list of rounds for the whole run: the last is the round it is in, all before it are decided, each team met its
   * opponents in them, and its record, streaks and health are those of its results in them.
   */
  ghost predicate RoundsOf(rules: Rules, s: Run, rounds: seq<seq<Pairing>>) {
    && Playable(rules) && 1 <= s.round == |rounds| && rounds[s.round - 1] == s.pairings
    && (forall r, p | 0 <= r < s.round - 1 && p in rounds[r] :: p.winner.Some?)
    && (forall r | 0 <= r < s.round :: WinnersPlay(rounds[r]))
    && (forall t | 0 <= t < |s.teams| :: TeamRounds(rules, s, rounds, t))
  }

  ghost predicate TeamRounds(rules: Rules, s: Run, rounds: seq<seq<Pairing>>, t: int)
    requires Playable(rules) && 0 <= t < |s.teams|
  {
    && |s.teams[t].opponents| <= |rounds|
    && (forall r | 0 <= r < |s.teams[t].opponents| :: Faced(rounds[r], t, s.teams[t].opponents[r]))
    && Explains(rules, HasPlayer(s, t), s.teams[t], ResultsOf(rounds, t))
  }

  ghost predicate KeptAll(pairings: seq<Pairing>, later: seq<Pairing>) {
    |later| == |pairings| && forall i | 0 <= i < |pairings| :: KeptResult(pairings[i], later[i])
  }

  /** The rounds before the last stay as they are; results given in the last stay. */
  ghost predicate Extends(rounds: seq<seq<Pairing>>, later: seq<seq<Pairing>>) {
    && 0 < |rounds| <= |later|
    && (forall k | 0 <= k < |rounds| - 1 :: later[k] == rounds[k])
    && KeptAll(rounds[|rounds| - 1], later[|rounds| - 1])
  }

  lemma ExtendsTrans(rounds: seq<seq<Pairing>>, more: seq<seq<Pairing>>, later: seq<seq<Pairing>>)
    requires Extends(rounds, more) && Extends(more, later)
    ensures Extends(rounds, later)
  {
    var k := |rounds| - 1;
    if |more| == |rounds| {
      forall i | 0 <= i < |rounds[k]| ensures KeptResult(rounds[k][i], later[k][i]) {
        assert KeptResult(rounds[k][i], more[k][i]) && KeptResult(more[k][i], later[k][i]);
      }
    }
  }

  lemma ExtendsSelf(rounds: seq<seq<Pairing>>)
    requires 0 < |rounds|
    ensures Extends(rounds, rounds)
  {
    var last := rounds[|rounds| - 1];
    forall i | 0 <= i < |last| ensures KeptResult(last[i], last[i]) {}
  }

  // ---- A change of anything but pairings and records ----

  /** A team's opponents and record, whatever its rank. */
  ghost predicate SameRecord(x: Team, y: Team) {
    y == x.(finalRank := y.finalRank)
  }

  lemma RecordsStay(rules: Rules, s: Run, r: Run, rounds: seq<seq<Pairing>>)
    requires RoundsOf(rules, s, rounds) && r.round == s.round && r.pairings == s.pairings && |r.teams| == |s.teams|
    requires forall t | 0 <= t < |s.teams| :: SameRecord(s.teams[t], r.teams[t]) && HasPlayer(r, t) == HasPlayer(s, t)
    ensures RoundsOf(rules, r, rounds)
  {
    hide Explains, Faced, WinnersPlay, HasPlayer;
    forall t | 0 <= t < |r.teams| ensures TeamRounds(rules, r, rounds, t) {
      assert TeamRounds(rules, s, rounds, t);
      SameExplained(rules, HasPlayer(s, t), s.teams[t], r.teams[t], ResultsOf(rounds, t));
    }
  }

  lemma SameExplained(rules: Rules, hasPlayer: bool, x: Team, y: Team, results: seq<bool>)
    requires Playable(rules) && SameRecord(x, y) && Explains(rules, hasPlayer, x, results)
    ensures Explains(rules, hasPlayer, y, results)
  {
  }

  lemma SameGameRounds(rules: Rules, s: Run, r: Run, rounds: seq<seq<Pairing>>)
    requires RoundsOf(rules, s, rounds) && SameGame(s, r)
    ensures RoundsOf(rules, r, rounds)
  {
    hide RoundsOf;
    SameGamePlayers(s, r);
    RecordsStay(rules, s, r, rounds);
  }

  lemma RerankedRounds(rules: Rules, s: Run, r: Run, rounds: seq<seq<Pairing>>)
    requires RoundsOf(rules, s, rounds) && Reranked(s, r)
    ensures RoundsOf(rules, r, rounds)
  {
    hide RoundsOf;
    forall t ensures HasPlayer(r, t) == HasPlayer(s, t) { PlayerSame(s, r, t); }
    RecordsStay(rules, s, r, rounds);
  }

  // ---- A match's end ----

  lemma LastRound(rounds: seq<seq<Pairing>>, pairings: seq<Pairing>, t: int)
    requires rounds != []
    ensures ResultsOf(rounds[|rounds| - 1 := pairings], t)
      == ResultsOf(rounds[..|rounds| - 1], t) + if Decided(pairings, t) then [WonIn(pairings, t)] else []
  {
    var later := rounds[|rounds| - 1 := pairings];
    assert later[..|later| - 1] == rounds[..|rounds| - 1];
  }

  lemma OthersFound(before: seq<Pairing>, after: seq<Pairing>, i: nat, t: int)
    requires i < |before| == |after| && 0 <= t && !before[i].Plays(t) && WinnersPlay(before)
    requires forall j | 0 <= j < |before| && j != i :: after[j] == before[j]
    ensures Decided(before, t) ==> Decided(after, t)
    ensures WonIn(before, t) ==> WonIn(after, t)
  {
    if Decided(before, t) {
      var p :| p in before && p.Plays(t) && p.winner.Some?;
      var j :| 0 <= j < |before| && before[j] == p;
      assert after[j] == p;
    }
    if WonIn(before, t) {
      var p :| p in before && p.winner == Some(t);
      var j :| 0 <= j < |before| && before[j] == p;
      assert p.Plays(t) && after[j] == p;
    }
  }

  /** A team of another match has the result it had. */
  lemma OthersAsBefore(s: Run, r: Run, i: nat, t: int)
    requires i < |s.pairings| == |r.pairings| && 0 <= t && !s.pairings[i].Plays(t)
    requires r.pairings == s.pairings[i := s.pairings[i].(winner := r.pairings[i].winner)]
    requires WinnersPlay(s.pairings) && WinnersPlay(r.pairings)
    ensures Decided(r.pairings, t) == Decided(s.pairings, t) && WonIn(r.pairings, t) == WonIn(s.pairings, t)
  {
    hide WinnersPlay, Decided, WonIn;
    OthersFound(s.pairings, r.pairings, i, t);
    OthersFound(r.pairings, s.pairings, i, t);
  }

  /** A team of the match had no result, and has this one now. */
  lemma TheirsNow(s: Run, r: Run, i: nat, winner: int, t: int)
    requires Matched(s) && i < |s.pairings| && s.pairings[i].winner.None? && 0 <= t < |s.teams|
      && s.pairings[i].Plays(t)
    requires r.pairings == s.pairings[i := s.pairings[i].(winner := Some(winner))] && WinnersPlay(r.pairings)
    ensures !Decided(s.pairings, t) && Decided(r.pairings, t) && WonIn(r.pairings, t) == (winner == t)
  {
    assert r.pairings[i] in r.pairings && r.pairings[i].Plays(t);
    forall p | p in s.pairings && p.Plays(t) ensures p.winner.None? {
      var j :| 0 <= j < |s.pairings| && s.pairings[j] == p;
      assert j == i;
    }
    forall p | p in r.pairings && p.winner == Some(t) ensures winner == t {
      var j :| 0 <= j < |r.pairings| && r.pairings[j] == p;
      assert p.Plays(t) && s.pairings[j].Plays(t);
      assert j == i;
    }
  }

  lemma FacedStays(s: Run, r: Run, t: int, opponent: int)
    requires |r.pairings| == |s.pairings| && Faced(s.pairings, t, opponent)
    requires forall i | 0 <= i < |s.pairings| :: r.pairings[i] == s.pairings[i].(winner := r.pairings[i].winner)
    ensures Faced(r.pairings, t, opponent)
  {
    var i :| Faces(s.pairings, t, i, opponent);
    assert Faces(r.pairings, t, i, opponent);
  }

  lemma CoreWinners(rules: Rules, s: Run)
    requires Core(rules, s)
    ensures WinnersPlay(s.pairings)
  {
    forall p | p in s.pairings && p.winner.Some? ensures p.Plays(p.winner.value) || p.winner.value == BOTH_LOST {
      var i :| 0 <= i < |s.pairings| && s.pairings[i] == p;
      assert PairingOk(s, i);
    }
  }

  /** A verdict adds one result, its own, to the lists of the two teams it is on. */
  lemma ResolvedResults(s: Run, r: Run, i: nat, winner: int, rounds: seq<seq<Pairing>>, t: int)
    requires Matched(s) && i < |s.pairings| && s.pairings[i].winner.None? && 0 <= t < |s.teams|
    requires r.pairings == s.pairings[i := s.pairings[i].(winner := Some(winner))]
    requires WinnersPlay(s.pairings) && WinnersPlay(r.pairings) && rounds != [] && rounds[|rounds| - 1] == s.pairings
    ensures ResultsOf(rounds[|rounds| - 1 := r.pairings], t)
      == ResultsOf(rounds, t) + if s.pairings[i].Plays(t) then [winner == t] else []
  {
    hide ResultsOf, Decided, WonIn, WinnersPlay, Matched;
    LastRound(rounds, r.pairings, t);
    LastRound(rounds, s.pairings, t);
    assert rounds[|rounds| - 1 := s.pairings] == rounds;
    if s.pairings[i].Plays(t) { TheirsNow(s, r, i, winner, t); } else { OthersAsBefore(s, r, i, t); }
  }

  lemma ResolvedTeam(rules: Rules, s: Run, r: Run, i: nat, winner: int, emptyA: bool, emptyB: bool,
                     rounds: seq<seq<Pairing>>, t: int)
    requires Core(rules, s) && i < |s.pairings| && Verdict(s, i, winner, emptyA, emptyB) && RoundsOf(rules, s, rounds)
    requires r == Resolved(rules, s, i, winner, emptyA, emptyB) && WinnersPlay(r.pairings) && 0 <= t < |s.teams|
    ensures |r.teams| == |s.teams|
    ensures Explains(rules, HasPlayer(s, t), r.teams[t], ResultsOf(rounds[|rounds| - 1 := r.pairings], t))
  {
    hide Rostered, Histories, Ranked, Records, Counted, Matched, Outcome, HasPlayer, Explains, ResultsOf, WinnersPlay,
      Faced;
    var p, results := s.pairings[i], ResultsOf(rounds, t);
    assert TeamRounds(rules, s, rounds, t);
    assert WinnersPlay(rounds[s.round - 1]);
    ResolvedResults(s, r, i, winner, rounds, t);
    if p.Plays(t) {
      BeforeMatch(rules, s, i, t);
      Lengths(rules, HasPlayer(s, t), s.teams[t], results);
      ResultAdded(rules, HasPlayer(s, t), s.teams[t], results, winner == t, if t == p.a then emptyA else emptyB);
    } else {
      assert results + [] == results;
    }
  }

  lemma Lengths(rules: Rules, hasPlayer: bool, team: Team, results: seq<bool>)
    requires Playable(rules) && Explains(rules, hasPlayer, team, results)
    ensures |results| == team.wins + team.losses
  {
  }

  lemma ResolvedRounds(rules: Rules, s: Run, i: nat, winner: int, emptyA: bool, emptyB: bool, rounds: seq<seq<Pairing>>)
    returns (later: seq<seq<Pairing>>)
    requires Core(rules, s) && i < |s.pairings| && Verdict(s, i, winner, emptyA, emptyB) && RoundsOf(rules, s, rounds)
    ensures RoundsOf(rules, Resolved(rules, s, i, winner, emptyA, emptyB), later) && Extends(rounds, later)
  {
    hide Core, Explains, HasPlayer, Outcome, Faced, ResultsOf, WinnersPlay, Verdict;
    StillOpen(s, i, winner, emptyA, emptyB);
    var r := Resolved(rules, s, i, winner, emptyA, emptyB);
    later := rounds[|rounds| - 1 := r.pairings];
    ResolvedKeeps(rules, s, i, winner, emptyA, emptyB);
    CoreWinners(rules, r);
    SameCast(s, r);
    forall t | 0 <= t < |r.teams| ensures TeamRounds(rules, r, later, t) {
      assert TeamRounds(rules, s, rounds, t);
      ResolvedTeam(rules, s, r, i, winner, emptyA, emptyB, rounds, t);
      forall k | 0 <= k < |r.teams[t].opponents| ensures Faced(later[k], t, r.teams[t].opponents[k]) {
        if k == |rounds| - 1 { FacedStays(s, r, t, s.teams[t].opponents[k]); }
      }
    }
    forall j | 0 <= j < |s.pairings| ensures KeptResult(s.pairings[j], r.pairings[j]) {}
  }

  lemma StillOpen(s: Run, i: nat, winner: int, emptyA: bool, emptyB: bool)
    requires i < |s.pairings| && Verdict(s, i, winner, emptyA, emptyB)
    ensures s.pairings[i].winner.None? && PairingOk(s, i)
  {
  }

  lemma DecidedRounds(rules: Rules, s: Run, i: nat, winner: int, rounds: seq<seq<Pairing>>)
    returns (later: seq<seq<Pairing>>)
    requires Core(rules, s) && i < |s.pairings| && s.pairings[i].winner.None?
    requires winner in {s.pairings[i].a, s.pairings[i].b} && RoundsOf(rules, s, rounds)
    ensures Playable(rules) && Seated(s) && s.pairings[i] in s.pairings
    ensures RoundsOf(rules, Decide(rules, s, i, winner), later) && Extends(rounds, later)
  {
    hide Core, RoundsOf, Extends, Decide, Resolved;
    CoreSeated(rules, s);
    PairingIs(rules, s, i);
    DecideResolves(rules, s, i, winner);
    later := ResolvedRounds(rules, s, i, winner, false, false, rounds);
  }

  lemma SettledRounds(rules: Rules, s: Run, i: nat, side: Option<int>, connected: set<string>,
    rounds: seq<seq<Pairing>>)
    returns (later: seq<seq<Pairing>>)
    requires Core(rules, s) && i < |s.pairings| && s.pairings[i].winner.None? && RoundsOf(rules, s, rounds)
    ensures Playable(rules) && Seated(s)
    ensures RoundsOf(rules, Settle(rules, s, i, side, connected), later) && Extends(rounds, later)
  {
    hide Core, RoundsOf, Extends, Settle, Resolved, Gone, WinnerBy;
    CoreSeated(rules, s);
    PairingIs(rules, s, i);
    var p := s.pairings[i];
    SettleResolves(rules, s, i, side, connected);
    later :=
      ResolvedRounds(rules, s, i, WinnerBy(s, i, side, connected), Gone(s, p.a, connected), Gone(s, p.b, connected),
      rounds);
  }

  /** The k-th pairing's match, decided if it is between bots. */
  lemma BotRounds(rules: Rules, s: Run, m: Run, bots: BotMatches, k: nat, rounds: seq<seq<Pairing>>)
    returns (later: seq<seq<Pairing>>)
    requires Playable(rules) && Core(rules, m) && Seated(m) && BotsOpen(s) && BotsSwept(s, m, bots, k)
      && k < |s.pairings|
    requires RoundsOf(rules, m, rounds)
    ensures RoundsOf(rules, DecideBot(rules, m, bots, k), later) && Extends(rounds, later)
  {
    hide Core, RoundsOf, Extends, Decide;
    assert m.pairings[k] == s.pairings[k] && s.pairings[k] in s.pairings;
    if m.pairings[k].hasPlayer {
      RoundsThere(rules, m, rounds);
      ExtendsSelf(rounds);
      later := rounds;
    } else {
      later := DecidedRounds(rules, m, k, if bots(m.round, k) then m.pairings[k].a else m.pairings[k].b, rounds);
    }
  }

  lemma {:induction false} BotsRounds(rules: Rules, s: Run, bots: BotMatches, k: nat, rounds: seq<seq<Pairing>>)
    returns (later: seq<seq<Pairing>>)
    requires Core(rules, s) && BotsOpen(s) && k <= |s.pairings| && RoundsOf(rules, s, rounds)
    ensures Playable(rules) && Seated(s)
    ensures RoundsOf(rules, DecideBots(rules, s, bots, k), later) && Extends(rounds, later)
    decreases k
  {
    hide Core, RoundsOf, Extends, DecideBot, BotsSwept, BotsOpen;
    CoreSeated(rules, s);
    if k == 0 {
      RoundsThere(rules, s, rounds);
      ExtendsSelf(rounds);
      later := rounds;
    } else {
      var more := BotsRounds(rules, s, bots, k - 1, rounds);
      DecideBotsKeeps(rules, s, bots, k - 1);
      later := BotRounds(rules, s, DecideBots(rules, s, bots, k - 1), bots, k - 1, more);
      ExtendsTrans(rounds, more, later);
    }
  }

  lemma RoundsThere(rules: Rules, s: Run, rounds: seq<seq<Pairing>>)
    requires RoundsOf(rules, s, rounds)
    ensures Playable(rules) && 0 < |rounds| == s.round && rounds[|rounds| - 1] == s.pairings
  {
  }

  /** The k-th pairing settled as never reported, if it is still open. */
  lemma OpenRound(rules: Rules, m: Run, connected: set<string>, k: nat, rounds: seq<seq<Pairing>>)
    returns (later: seq<seq<Pairing>>)
    requires Core(rules, m) && k < |m.pairings| && RoundsOf(rules, m, rounds)
    ensures Playable(rules) && Seated(m)
    ensures RoundsOf(rules, SettleIfOpen(rules, m, connected, k), later) && Extends(rounds, later)
  {
    hide Core, RoundsOf, Extends, Settle;
    CoreSeated(rules, m);
    if m.pairings[k].winner.Some? {
      RoundsThere(rules, m, rounds);
      ExtendsSelf(rounds);
      later := rounds;
    } else {
      later := SettledRounds(rules, m, k, None, connected, rounds);
    }
  }

  lemma {:induction false} OpenRounds(rules: Rules, s: Run, connected: set<string>, k: nat, rounds: seq<seq<Pairing>>)
    returns (later: seq<seq<Pairing>>)
    requires Core(rules, s) && k <= |s.pairings| && RoundsOf(rules, s, rounds)
    ensures Playable(rules) && Seated(s)
    ensures RoundsOf(rules, SettleOpen(rules, s, connected, k), later) && Extends(rounds, later)
    decreases k
  {
    hide Core, RoundsOf, Extends, SettleIfOpen, SweptTo;
    CoreSeated(rules, s);
    if k == 0 {
      RoundsThere(rules, s, rounds);
      ExtendsSelf(rounds);
      later := rounds;
    } else {
      var more := OpenRounds(rules, s, connected, k - 1, rounds);
      SettleOpenKeeps(rules, s, connected, k - 1);
      later := OpenRound(rules, SettleOpen(rules, s, connected, k - 1), connected, k - 1, more);
      ExtendsTrans(rounds, more, later);
    }
  }

  // ---- The next round ----

  lemma NoneYet(pairings: seq<Pairing>, t: int)
    requires forall p | p in pairings :: p.winner.None?
    ensures !Decided(pairings, t)
  {
  }

  lemma AddRound(rounds: seq<seq<Pairing>>, pairings: seq<Pairing>, t: int)
    ensures ResultsOf(rounds + [pairings], t)
      == ResultsOf(rounds, t) + if Decided(pairings, t) then [WonIn(pairings, t)] else []
  {
    assert (rounds + [pairings])[..|rounds|] == rounds;
  }

  /** The teams of a round's pairings face each other in it. */
  lemma NowFaced(s: Run, t: int)
    requires Matched(s) && 0 <= t < |s.teams| && |s.teams[t].opponents| == s.round
    ensures Faced(s.pairings, t, s.teams[t].opponents[s.round - 1])
  {
    var i :| 0 <= i < |s.pairings| && s.pairings[i].Plays(t);
    assert PairingOk(s, i);
    assert Faces(s.pairings, t, i, s.teams[t].opponents[s.round - 1]);
  }

  /** A team paired was in every round before. */
  lemma PairedLength(s: Run, order: seq<int>, r: Run, t: int)
    requires JustPaired(s.(round := s.round + 1), order, r) && Matched(r) && t in order && 0 <= t < |s.teams|
    ensures |s.teams[t].opponents| == s.round
      && r.teams[t] == s.teams[t].(opponents := s.teams[t].opponents + [Partner(order, t)])
  {
    hide Partner, NewPairing;
    assert r.pairings[IndexOf(order, t) / 2].Plays(t);
    assert PairingOk(r, IndexOf(order, t) / 2);
  }

  lemma PairedTeam(rules: Rules, s: Run, order: seq<int>, r: Run, rounds: seq<seq<Pairing>>, t: int)
    requires RoundsOf(rules, s, rounds) && JustPaired(s.(round := s.round + 1), order, r)
    requires Matched(r) && NoneDecided(r) && 0 <= t < |s.teams| && HasPlayer(r, t) == HasPlayer(s, t)
    ensures TeamRounds(rules, r, rounds + [r.pairings], t)
  {
    hide Explains, HasPlayer, Faced, ResultsOf, Decided, WonIn, WinnersPlay, Matched, Partner, NewPairing;
    var later := rounds + [r.pairings];
    assert TeamRounds(rules, s, rounds, t);
    AddRound(rounds, r.pairings, t);
    NoneYet(r.pairings, t);
    assert ResultsOf(rounds, t) + [] == ResultsOf(rounds, t);
    PairedExplained(rules, HasPlayer(s, t), s.teams[t], r.teams[t], ResultsOf(rounds, t));
    if t in order {
      PairedLength(s, order, r, t);
      NowFaced(r, t);
    }
  }

  /** A round paired on what the one before left: one more round, no result yet. */
  lemma PairedRounds(rules: Rules, s: Run, order: seq<int>, r: Run, rounds: seq<seq<Pairing>>)
    requires RoundsOf(rules, s, rounds) && AllDecided(s) && JustPaired(s.(round := s.round + 1), order, r)
    requires Core(rules, r) && NoneDecided(r)
    ensures RoundsOf(rules, r, rounds + [r.pairings]) && Extends(rounds, rounds + [r.pairings])
  {
    hide Rostered, Histories, Ranked, Records, Counted, HasPlayer, WinnersPlay, NewPairing, TeamRounds, NoneDecided,
      Matched;
    PairedPlayers(s.(round := s.round + 1), order, r);
    SameCastPlayers(s, s.round + 1);
    CoreWinners(rules, r);
    ExtendsSelf(rounds);
    forall t | 0 <= t < |r.teams| ensures TeamRounds(rules, r, rounds + [r.pairings], t) {
      PairedTeam(rules, s, order, r, rounds, t);
    }
  }

  lemma SameCastPlayers(s: Run, round: int)
    ensures forall t :: HasPlayer(s.(round := round), t) == HasPlayer(s, t)
  {
    forall t ensures HasPlayer(s.(round := round), t) == HasPlayer(s, t) { PlayerSame(s, s.(round := round), t); }
  }

  lemma PairedExplained(rules: Rules, hasPlayer: bool, x: Team, y: Team, results: seq<bool>)
    requires Playable(rules) && y == x.(opponents := y.opponents) && Explains(rules, hasPlayer, x, results)
    ensures Explains(rules, hasPlayer, y, results)
  {
  }
}
