/**
 * A match's result that is lost (ArenaRun.cs line 350, ArenaResults.cs lines 157-164): acknowledged, never given up on,
 * and never taken, event by event from an empty store.
 */
module ArenaStoreRuns {
  import opened Options
  import opened ArenaTypes
  import opened ArenaSteps
  import opened ArenaTransitions
  import opened ArenaCalls
  import opened ArenaWholeRun
  import opened ArenaStore

  /** One event before the others. */
  lemma Then(o: Opening, w: World, ev: Event, m: World, rest: seq<Event>)
    requires Opens(o) && Sane(w) && Enabled(o, w, ev) && After(o, w, ev) == m && Happens(o, m, rest)
    ensures Happens(o, w, [ev] + rest) && Later(o, w, [ev] + rest) == Later(o, m, rest)
  {
    hide Opens, Enabled, After, Sane;
    assert ([ev] + rest)[1..] == rest;
  }

  function ResultMove(o: Opening, id: MatchId, side: Option<int>): Move {
    Move(MatchResultCall(id, side, {}), o.chance.coin, o.chance, 0)
  }

  /** The run is started, and the result of one of its matches comes before its character select is over. */
  function EarlyResult(o: Opening, id: MatchId, side: Option<int>): seq<Event> {
    [Create(0), Publish(id, side), Deliver(1, 0, {}), Read(1, ResultMove(o, id, side)), Ack(1)]
  }

  /** The store with the run as it was started, a result as it stands, and the second replica at it. */
  function Started(o: Opening, w: World, results: seq<Result>, client: Client): World
    requires Opens(o) && |w.clients| >= 2
  {
    w.(record := Some(First(o)), due := DueOf(First(o)), born := true, results := results,
       clients := w.clients[0 := Carrying(Job(TickCall({}), None), 0, 0)][1 := client])
  }

  lemma EarlyRefused(o: Opening, id: MatchId, side: Option<int>)
    requires Opens(o)
    ensures var s, move := First(o), ResultMove(o, id, side); Playing(move) && !Apply(o.setup, s, move).1.accepted
  {
    hide Inv, Fair, Apply, Begun;
    BegunKeeps(o);
    assert Playing(ResultMove(o, id, side)) by { FairOpening(o); }
    ResultTaken(o, First(o), ResultMove(o, id, side));
  }

  lemma FairOpening(o: Opening)
    requires Opens(o)
    ensures Fair(o.chance)
  {
  }

  lemma StartedSane(o: Opening, w: World, results: seq<Result>, client: Client)
    requires Opens(o) && Empty(w) && |w.clients| >= 2 && !client.Carrying?
    ensures Sane(Started(o, w, results, client))
  {
    hide Opens, First;
    var r := Started(o, w, results, client);
    forall c | c in r.clients && c.Carrying? ensures c.commit <= |r.moves| {
      var i :| 0 <= i < |r.clients| && r.clients[i] == c;
      assert w.clients[i] in w.clients;
    }
  }

  /** Delivered, the result is refused, and acknowledged all the same. */
  lemma EarlyHandled(o: Opening, w: World, given: Result)
    requires Opens(o) && Empty(w) && |w.clients| >= 2 && !given.acked
    ensures var move := ResultMove(o, given.matchId, given.side);
      var s := Started(o, w, [given], Trying(Job(move.call, Some(0)), 0));
      && Happens(o, s, [Read(1, move), Ack(1)])
      && Later(o, s, [Read(1, move), Ack(1)])
         == Started(o, w, [given.(acked := true, handling := Some(Declined(0)))], Idle)
  {
    hide Opens, Inv, Fair, First, Apply, EffectsAt, StateAt;
    var move := ResultMove(o, given.matchId, given.side);
    var job := Job(move.call, Some(0));
    EarlyRefused(o, given.matchId, given.side);
    StartedSane(o, w, [given], Trying(job, 0));
    StartedSane(o, w, [given], Acking(0, Declined(0)));
    var w3, w4 := Started(o, w, [given], Trying(job, 0)), Started(o, w, [given], Acking(0, Declined(0)));
    var w5 := Started(o, w, [given.(acked := true, handling := Some(Declined(0)))], Idle);
    Then(o, w4, Ack(1), w5, []);
    Then(o, w3, Read(1, move), w4, [Ack(1)]);
  }

  lemma EarlySteps(o: Opening, w: World, id: MatchId, side: Option<int>)
    requires Opens(o) && Empty(w) && |w.clients| >= 2
    ensures var r := Result(id, side, 1, true, false, 0, Some(Declined(0)));
      Happens(o, w, EarlyResult(o, id, side)) && Later(o, w, EarlyResult(o, id, side)) == Started(o, w, [r], Idle)
  {
    hide Opens, Inv, Fair, First, Apply, EffectsAt, StateAt;
    var move, published := ResultMove(o, id, side), Result(id, side, 0, false, false, 0, None);
    var given := published.(deliveries := 1);
    assert w.clients[0] in w.clients && w.clients[1] in w.clients;
    var w1, w2 := Started(o, w, [], Idle), Started(o, w, [published], Idle);
    var w3 := Started(o, w, [given], Trying(Job(move.call, Some(0)), 0));
    StartedSane(o, w, [], Idle);
    StartedSane(o, w, [published], Idle);
    EarlyHandled(o, w, given);
    Then(o, w2, Deliver(1, 0, {}), w3, [Read(1, move), Ack(1)]);
    Then(o, w1, Publish(id, side), w2, [Deliver(1, 0, {}), Read(1, move), Ack(1)]);
    Then(o, w, Create(0), w1, [Publish(id, side), Deliver(1, 0, {}), Read(1, move), Ack(1)]);
  }

  /**
   * The result of any match launched at the start is lost if it is handled before the character select is over:
   * acknowledged after one delivery, not given up on, its match not decided, and nothing left to hand out again.
   */
  lemma ResultCanBeLost(o: Opening, w: World, id: MatchId, side: Option<int>)
    requires Opens(o) && Empty(w) && |w.clients| >= 2 && HasLaunched(First(o), id)
    ensures var evs := EarlyResult(o, id, side);
      && Happens(o, w, evs)
      && var r := Later(o, w, evs);
         && |r.results| == 1 && r.results[0].matchId == id && r.results[0].side == side
         && r.results[0].acked && !r.results[0].dropped && !r.gone
         && r.record == Some(First(o)) && !Used(First(o), id)
         && forall c, connected :: !Enabled(o, r, Deliver(c, 0, connected))
  {
    hide Opens, Inv, Fair, Happens, Later, Begun;
    EarlySteps(o, w, id, side);
    BegunKeeps(o);
    NotUsed(o.setup, First(o), id);
  }

  lemma NotUsed(setup: Setup, s: Run, id: MatchId)
    requires Inv(setup, s) && s.phase == CharacterSelect && HasLaunched(s, id)
    ensures !Used(s, id)
  {
    if id.round == s.round { assert s.pairings[id.index] in s.pairings; }
  }

  /** There is a run to lose one of: two players against each other, and their match. */
  lemma SomeResultLost()
    ensures exists o: Opening, id: MatchId :: Opens(o) && HasLaunched(First(o), id)
  {
    hide Opens, Inv, First;
    SomePlayerOpens();
    var o: Opening :| Opens(o) && "1" in PlayersIn(First(o));
    PlayerPaired(o.setup, First(o), "1");
    var i :| OnlyLaunch(First(o), First(o).players["1"].team, i);
    LaunchedNow(o.setup, First(o), i);
    assert HasLaunched(First(o), MatchId(First(o).round, i));
  }

  lemma LaunchedNow(setup: Setup, s: Run, i: nat)
    requires Inv(setup, s) && i < |s.pairings| && s.pairings[i].hasPlayer
    ensures HasLaunched(s, MatchId(s.round, i))
  {
  }

  lemma SomePlayerOpens()
    ensures exists o: Opening :: Opens(o) && "1" in PlayersIn(First(o))
  {
    hide Ready, Fair, Cast, Begun, Inv, NewPlayer;
    var setup := SomeSetup();
    var chance := SomeChance();
    var teams := SomeCast();
    var o := Opening(setup, teams, chance, 0);
    assert Opens(o);
    FirstSeat(o);
  }

  /** A player of the first team's first place is in at the start. */
  lemma FirstSeat(o: Opening)
    requires Opens(o) && o.teams[0] != [] && !o.teams[0][0].isBot
    ensures o.teams[0][0].id in PlayersIn(First(o))
  {
    hide Ready, Fair, Cast, Inv, PairRound, Launches;
    BegunKeeps(o);
    EnrolOk(o.setup, o.teams, o.chance, Unstarted(o).players);
    assert Seat(o.teams, o.teams[0][0].id, 0, 0);
    StartedPlayers(o);
  }

  lemma StartedPlayers(o: Opening)
    requires Opens(o)
    ensures First(o).players == Enrol(o.setup, o.teams, o.chance) && |First(o).teams| == |o.teams|
  {
    hide Ready, Fair, Cast, Inv;
    BegunKeeps(o);
  }
}
