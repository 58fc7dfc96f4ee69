/** Whole runs: from an Arena's start, whatever is called and however the draws fall. */
module ArenaWholeRun {
  import opened Options
  import opened ArenaRules
  import Items = ArenaItems
  import opened ArenaTypes
  import opened ArenaSteps
  import opened ArenaInvariant
  import opened ArenaResults
  import opened ArenaRounds
  import opened ArenaPairing
  import opened ArenaTransitions
  import opened ArenaCalls
  import opened ArenaProgress
  import opened ArenaCallProgress

  // ---- The start ----

  ghost predicate Seat(teams: seq<seq<Place>>, id: string, t: int, i: int) {
    0 <= t < |teams| && 0 <= i < |teams[t]| && teams[t][i].id == id
  }

  ghost predicate HasSeat(teams: seq<seq<Place>>, id: string) {
    exists t, i :: Seat(teams, id, t, i)
  }

  ghost predicate Listed(places: seq<Place>, id: string) {
    exists i :: 0 <= i < |places| && places[i].id == id
  }

  lemma {:induction false} EnrolTeamOk(setup: Setup, places: seq<Place>, team: nat, chance: Chance,
    m: map<string, Player>)
    requires Ready(setup) && Fair(chance) && m == EnrolTeam(setup, places, team, chance)
    requires forall i, j | 0 <= i < j < |places| :: places[i].id != places[j].id
    ensures forall i | 0 <= i < |places| ::
      places[i].id in m && m[places[i].id] == NewPlayer(setup, places[i], team, chance)
    ensures forall id | id in m :: Listed(places, id)
  {
    hide Ready, Fair, NewPlayer;
    if places != [] {
      var init := places[..|places| - 1];
      var m0 := EnrolTeam(setup, init, team, chance);
      EnrolTeamOk(setup, init, team, chance, m0);
      forall i | 0 <= i < |places|
        ensures places[i].id in m && m[places[i].id] == NewPlayer(setup, places[i], team, chance)
      {
        if i < |init| { assert init[i].id in m0; }
      }
      forall id | id in m ensures Listed(places, id) {
        if id != places[|places| - 1].id {
          assert Listed(init, id);
          var i :| 0 <= i < |init| && init[i].id == id;
          assert places[i].id == id;
        }
      }
    }
  }

  lemma CastParts(teams: seq<seq<Place>>, init: seq<seq<Place>>, last: seq<Place>)
    requires Cast(teams) && teams == init + [last]
    ensures Cast(init)
    ensures forall i, j | 0 <= i < j < |last| :: last[i].id != last[j].id
    ensures forall id, t, i | Seat(init, id, t, i) :: !Listed(last, id)
  {
    var n := |init|;
    assert teams[n] == last && forall t | 0 <= t < n :: teams[t] == init[t];
    forall i, j | 0 <= i < j < |last| ensures last[i].id != last[j].id {
      assert teams[n][i].id != teams[n][j].id;
    }
    forall id, t, i | Seat(init, id, t, i) ensures !Listed(last, id) {
      forall j | 0 <= j < |last| ensures last[j].id != id {
        assert teams[n][j].id != teams[t][i].id;
      }
    }
  }

  lemma SeatParts(teams: seq<seq<Place>>, init: seq<seq<Place>>, last: seq<Place>, id: string)
    requires teams == init + [last]
    ensures HasSeat(teams, id) <==> HasSeat(init, id) || Listed(last, id)
    ensures forall t, i | Seat(teams, id, t, i) ::
      Seat(init, id, t, i) || (t == |init| && 0 <= i < |last| && last[i].id == id)
  {
    if HasSeat(init, id) {
      var t, i :| Seat(init, id, t, i);
      assert Seat(teams, id, t, i);
    }
    if Listed(last, id) {
      var i :| 0 <= i < |last| && last[i].id == id;
      assert Seat(teams, id, |init|, i);
    }
    if HasSeat(teams, id) {
      var t, i :| Seat(teams, id, t, i);
      assert t == |init| || Seat(init, id, t, i);
    }
  }

  /** Every participant is enrolled once, on their own team. */
  lemma {:induction false} EnrolOk(setup: Setup, teams: seq<seq<Place>>, chance: Chance, m: map<string, Player>)
    requires Ready(setup) && Fair(chance) && Cast(teams) && m == Enrol(setup, teams, chance)
    ensures forall id, t, i | Seat(teams, id, t, i) :: id in m && m[id] == NewPlayer(setup, teams[t][i], t, chance)
    ensures forall id | id in m :: HasSeat(teams, id)
  {
    hide Ready, Fair, NewPlayer, EnrolTeam, Cast, HasSeat, Listed;
    if teams == [] {
      assert m == map[];
      NoSeats(teams);
    } else {
      var init, last := teams[..|teams| - 1], teams[|teams| - 1];
      CastParts(teams, init, last);
      var m0, m1 := Enrol(setup, init, chance), EnrolTeam(setup, last, |teams| - 1, chance);
      EnrolOk(setup, init, chance, m0);
      EnrolTeamOk(setup, last, |teams| - 1, chance, m1);
      forall id, t, i | Seat(teams, id, t, i) ensures id in m && m[id] == NewPlayer(setup, teams[t][i], t, chance) {
        SeatParts(teams, init, last, id);
        if Seat(init, id, t, i) { assert id !in m1; }
      }
      forall id | id in m ensures HasSeat(teams, id) {
        SeatParts(teams, init, last, id);
      }
    }
  }

  lemma NoSeats(teams: seq<seq<Place>>)
    requires teams == []
    ensures forall id, t, i :: !Seat(teams, id, t, i)
  {
  }

  /** What a run is started with. */
  datatype Opening = Opening(setup: Setup, teams: seq<seq<Place>>, chance: Chance, now: int)

  ghost predicate Opens(o: Opening) {
    Ready(o.setup) && Fair(o.chance) && Cast(o.teams) && o.teams != [] && 0 <= o.now
  }

  lemma SomeRules() returns (rules: Rules)
    ensures Playable(rules)
  {
    rules := Rules(10, 5, 3, 1, 2, 1, 5, 5, 30, 30, 5, 30, 300, [2], [5], 1, [1], [1], [1], 6, 3, 2);
  }

  lemma SomeSetup() returns (setup: Setup)
    ensures Ready(setup)
  {
    hide Playable;
    var rules := SomeRules();
    setup := Setup(rules, [Fighter("shaggy", ["default"])], [Items.Item("gem", 1, 1, 4)]);
    assert "gem"[0] == 'g';
  }

  lemma SomeChance() returns (chance: Chance)
    ensures Fair(chance)
  {
    chance :=
      Chance((_, teams) => teams, (_, _) => true, (_, fighters) => fighters, (_, _) => 0, (_, _) => 0,
      _ => ((_, _, _) => 0));
  }

  lemma SomeCast() returns (teams: seq<seq<Place>>)
    ensures Cast(teams) && |teams| == 2 && teams[0] == [Place("1", false)]
  {
    teams := [[Place("1", false)], [Place("2", false)]];
    assert "1"[0] != "2"[0];
    forall t, i, u, j | 0 <= t < |teams| && 0 <= i < |teams[t]| && 0 <= u < |teams| && 0 <= j < |teams[u]|
      ensures teams[t][i].id == teams[u][j].id ==> t == u && i == j
    {
      assert teams[t][i].id[0] == if t == 0 then '1' else '2';
      assert teams[u][j].id[0] == if u == 0 then '1' else '2';
    }
  }

  /** There is an Arena to start: two players against each other. */
  lemma SomeArenaOpens()
    ensures exists o: Opening :: Opens(o) && |o.teams| == 2
  {
    hide Ready, Fair, Cast;
    var setup := SomeSetup();
    var chance := SomeChance();
    var teams := SomeCast();
    var o := Opening(setup, teams, chance, 0);
    assert Opens(o) && |o.teams| == 2;
  }

  /** The run before its first round is paired. */
  function Unstarted(o: Opening): Run
    requires Ready(o.setup) && Fair(o.chance)
  {
    Run(1, CharacterSelect, 0, NewTeams(o.setup, o.teams), Enrol(o.setup, o.teams, o.chance), [])
  }

  lemma UnstartedRostered(o: Opening)
    requires Opens(o)
    ensures Rostered(Unstarted(o))
    ensures forall id | id in Unstarted(o).players ::
      var p := Unstarted(o).players[id];
      p.inventory == seq(o.setup.rules.maxItemsInInventory, _ => EMPTY_SLOT) && 0 <= p.coins && p.checkedInRound == 0
      && (!p.isBot ==> p.pool != [])
  {
    hide Enrol, Cast;
    var s := Unstarted(o);
    EnrolOk(o.setup, o.teams, o.chance, s.players);
    forall id | id in s.players
      ensures s.players[id].team < |s.teams| && id in s.teams[s.players[id].team].members
      ensures var p := s.players[id];
        p.inventory == seq(o.setup.rules.maxItemsInInventory, _ => EMPTY_SLOT) && 0 <= p.coins && p.checkedInRound == 0
        && (!p.isBot ==> p.pool != [])
    {
      assert HasSeat(o.teams, id);
      var t, i :| Seat(o.teams, id, t, i);
      assert s.teams[t].members[i] == id;
    }
    forall t, m | 0 <= t < |s.teams| && m in s.teams[t].members ensures m in s.players && s.players[m].team == t {
      var i :| 0 <= i < |o.teams[t]| && Ids(o.teams[t])[i] == m;
      assert Seat(o.teams, m, t, i);
    }
  }

  lemma HorizonPositive(rules: Rules, s: Run)
    requires Playable(rules) && s.teams != []
    ensures 1 <= Horizon(rules, s)
  {
    var least := Least(rules.healthRoundValues);
    assert 0 < least;
    QuotientBound(0, least, rules.startingLife - 1);
    Monotone(LossLimit(rules), 1, |s.teams|);
  }

  lemma UnstartedUnpaired(o: Opening)
    requires Opens(o)
    ensures Unpaired(o.setup.rules, Unstarted(o))
  {
    hide Enrol, Cast, LossLimit;
    var s, rules := Unstarted(o), o.setup.rules;
    UnstartedRostered(o);
    HorizonPositive(rules, s);
    forall t | 0 <= t < |s.teams| ensures Standing(rules, s, t) {
      assert Explains(rules, HasPlayer(s, t), s.teams[t], []);
    }
  }

  lemma BegunPlayers(o: Opening, r: Run)
    requires Opens(o) && r.players == Unstarted(o).players && 1 <= r.round && |r.teams| == |Unstarted(o).teams|
    requires EveryoneIn(r)
    ensures PlayersOk(o.setup, r) && Offered(r)
  {
    hide Enrol, Cast, Ready;
    UnstartedRostered(o);
    forall id | id in r.players ensures PlayerOk(o.setup, r, r.players[id]) {}
  }

  lemma BegunPaired(o: Opening)
    requires Opens(o)
    ensures var s := Unstarted(o);
      var r, order := PairRound(s, o.chance), o.chance.order(1, InTeams(s.teams, |s.teams|));
      && JustPaired(s, order, r) && Core(o.setup.rules, r) && NoneDecided(r) && EveryoneIn(r)
      && r == s.(teams := r.teams, pairings := r.pairings) && |r.teams| == |s.teams| == |o.teams|
  {
    hide Enrol, Cast, Ready, Paired, Core, Unpaired;
    var s := Unstarted(o);
    UnstartedUnpaired(o);
    var order := o.chance.order(1, InTeams(s.teams, |s.teams|));
    ShuffleOrders(s, order);
    PairedJust(s, order);
    PairedKeeps(o.setup.rules, s, order, Paired(s, order));
  }

  /** A run starts with its invariant: round 1 paired, its players' matches launched, the character select open. */
  lemma BegunKeeps(o: Opening)
    requires Opens(o)
    ensures var (s, effects) := Begun(o.setup, o.teams, o.chance, o.now);
      && Inv(o.setup, s) && s.phase == CharacterSelect && s.round == 1 && EveryoneIn(s) && |s.teams| == |o.teams|
      && LaunchedIn(effects) == PlayerPairings(s.pairings, |s.pairings|)
      && EndedIn(effects) == [] && ArenaFinished !in effects
  {
    hide Enrol, Cast, PairRound, Core, NewTeams, Launches, LaunchedIn, PlayerPairings, PlayersOk, JustPaired, InTeams;
    BegunPaired(o);
    var r := PairRound(Unstarted(o), o.chance);
    var (s, effects) := Begun(o.setup, o.teams, o.chance, o.now);
    SameGameCore(o.setup.rules, r, s);
    BegunPlayers(o, s);
    LaunchesTold(s.pairings, |s.pairings|);
    LaunchedAdd(Launches(s.pairings, |s.pairings|), [SendPhaseConfigs]);
    EndedAdd(Launches(s.pairings, |s.pairings|), [SendPhaseConfigs]);
    ConfigsTold();
  }

  lemma ConfigsTold()
    ensures LaunchedIn([SendPhaseConfigs]) == [] && EndedIn([SendPhaseConfigs]) == []
  {
    assert [SendPhaseConfigs][1..] == [];
  }

  // ---- Any calls, in any order ----

  ghost predicate AllPlayable(moves: seq<Move>) {
    forall m | m in moves :: Playing(m)
  }

  /** A run after a list of calls, and everything it had told by then. */
  function Play(setup: Setup, s: Run, moves: seq<Move>): (r: (Run, seq<Effect>))
    requires Inv(setup, s) && AllPlayable(moves)
    ensures Inv(setup, r.0)
  {
    hide Inv, Apply, Playing;
    if moves == [] then (s, [])
    else
      var before := Play(setup, s, moves[..|moves| - 1]);
      var last := Apply(setup, before.0, moves[|moves| - 1]);
      (last.0, before.1 + last.1.effects)
  }

  /** The run any list of calls leads to is a later moment of it: nothing frozen moved, everything told once. */
  lemma {:induction false} PlayFollows(setup: Setup, s: Run, moves: seq<Move>)
    requires Inv(setup, s) && AllPlayable(moves)
    ensures var r := Play(setup, s, moves); Inv(setup, r.0) && Follows(s, r.0, r.1)
  {
    hide Inv, Apply, Playing, Frozen, Onward, Told, Finishes;
    if moves == [] {
      RefusedSound(s);
    } else {
      var before := Play(setup, s, moves[..|moves| - 1]);
      PlayFollows(setup, s, moves[..|moves| - 1]);
      ApplySound(setup, before.0, moves[|moves| - 1]);
      var last := Apply(setup, before.0, moves[|moves| - 1]);
      FollowsTrans(s, before.0, last.0, before.1, last.1.effects);
    }
  }

  /** A run from its start: what is told at the start, then what each call tells. */
  function Story(o: Opening, moves: seq<Move>): (r: (Run, seq<Effect>))
    requires Opens(o) && AllPlayable(moves)
    ensures Inv(o.setup, r.0)
  {
    hide Inv;
    BegunKeeps(o);
    var (s, effects) := Begun(o.setup, o.teams, o.chance, o.now);
    var r := Play(o.setup, s, moves);
    (r.0, effects + r.1)
  }

  /**
   * Every team is told that its Arena has ended exactly once, when it goes out; the Arena's finish is told once, last.
   */
  lemma StoryTold(o: Opening, moves: seq<Move>)
    requires Opens(o) && AllPlayable(moves)
    ensures var (r, effects) := Story(o, moves);
      && NoRepeats(EndedIn(effects))
      && (forall t :: t in EndedIn(effects) <==> 0 <= t < |o.teams| && !TeamIn(r, t))
      && (forall i | 0 <= i < |effects| && effects[i] == ArenaFinished :: i == |effects| - 1)
      && (ArenaFinished in effects <==> r.phase == Ended)
      && (r.phase == Ended ==> forall t | 0 <= t < |o.teams| :: t in EndedIn(effects))
  {
    hide Inv, Play, Begun, Follows;
    BegunKeeps(o);
    var (s, effects) := Begun(o.setup, o.teams, o.chance, o.now);
    PlayFollows(o.setup, s, moves);
    var r := Play(o.setup, s, moves);
    BeganTold(s, effects, r.0, r.1);
    if r.0.phase == Ended { EndedOut(o.setup, r.0); }
  }

  lemma BeganTold(s: Run, e: seq<Effect>, r: Run, f: seq<Effect>)
    requires Follows(s, r, f) && s.phase != Ended && EveryoneIn(s) && EndedIn(e) == [] && ArenaFinished !in e
    ensures NoRepeats(EndedIn(e + f))
    ensures forall t :: t in EndedIn(e + f) <==> 0 <= t < |s.teams| && !TeamIn(r, t)
    ensures forall i | 0 <= i < |e + f| && (e + f)[i] == ArenaFinished :: i == |e + f| - 1
    ensures ArenaFinished in e + f <==> r.phase == Ended
  {
    hide Frozen, Onward, EndedIn;
    EndedAdd(e, f);
    assert [] + EndedIn(f) == EndedIn(f);
    LaterOnly(e, f);
  }

  lemma LaterOnly(e: seq<Effect>, f: seq<Effect>)
    requires ArenaFinished !in e
    requires forall i | 0 <= i < |f| && f[i] == ArenaFinished :: i == |f| - 1
    ensures forall i | 0 <= i < |e + f| && (e + f)[i] == ArenaFinished :: i == |e + f| - 1
    ensures ArenaFinished in e + f <==> ArenaFinished in f
  {
    assert forall i | 0 <= i < |e| :: e[i] in e;
  }

  lemma EndedOut(setup: Setup, s: Run)
    requires Inv(setup, s) && s.phase == Ended
    ensures forall t | 0 <= t < |s.teams| :: !TeamIn(s, t)
  {
  }

  // ---- Every run ends ----

  lemma ClockLimit(setup: Setup, s: Run)
    requires Inv(setup, s)
    ensures Playable(setup.rules) && s.round <= Horizon(setup.rules, s) && Clock(s) <= 5 * Horizon(setup.rules, s) + 4
  {
  }

  /** Each call is a Tick, at or after the deadline it finds. */
  ghost predicate DueTicks(setup: Setup, s: Run, moves: seq<Move>)
    requires Inv(setup, s) && AllPlayable(moves)
  {
    forall k | 0 <= k < |moves| :: moves[k].call.TickCall? && Play(setup, s, moves[..k]).0.deadlineMs <= moves[k].now
  }

  lemma {:induction false} DueTicksAdvance(setup: Setup, s: Run, moves: seq<Move>)
    requires Inv(setup, s) && AllPlayable(moves) && DueTicks(setup, s, moves)
    ensures var r := Play(setup, s, moves).0; r.phase == Ended || Clock(s) + |moves| <= Clock(r)
  {
    hide Inv, Apply, Playing, Clock;
    if moves != [] {
      var init, last := moves[..|moves| - 1], moves[|moves| - 1];
      forall k | 0 <= k < |init|
        ensures init[k].call.TickCall? && Play(setup, s, init[..k]).0.deadlineMs <= init[k].now
      {
        assert init[..k] == moves[..k] && moves[k] == init[k];
      }
      DueTicksAdvance(setup, s, init);
      var before := Play(setup, s, init).0;
      assert last in moves && Playing(last) && moves[..|init|] == init;
      LastTick(setup, before, last);
    }
  }

  lemma LastTick(setup: Setup, s: Run, move: Move)
    requires Inv(setup, s) && Playing(move) && move.call.TickCall? && s.deadlineMs <= move.now
    ensures var r := Apply(setup, s, move).0; r.phase == Ended || (s.phase != Ended && Clock(s) < Clock(r))
  {
    hide Inv, Tick, CallSound;
    TickSound(setup, s, move.bots, move.chance, move.now, move.call.connected);
  }

  /** However it stands, a run that is only ticked is over within this many deadlines. */
  lemma EveryRunEnds(setup: Setup, s: Run, moves: seq<Move>)
    requires Inv(setup, s) && AllPlayable(moves) && DueTicks(setup, s, moves)
    requires Playable(setup.rules) && |moves| > 5 * Horizon(setup.rules, s) + 4 - Clock(s)
    ensures Play(setup, s, moves).0.phase == Ended
  {
    hide Inv, Play, DueTicks, Horizon;
    DueTicksAdvance(setup, s, moves);
    PlayFollows(setup, s, moves);
    ClockLimit(setup, Play(setup, s, moves).0);
    SameHorizon(setup.rules, s, Play(setup, s, moves).0);
  }

  lemma SameHorizon(rules: Rules, s: Run, r: Run)
    requires Playable(rules) && |r.teams| == |s.teams|
    ensures Horizon(rules, r) == Horizon(rules, s)
  {
  }

  /** Whatever else is called meanwhile, a run accepts only so many Ticks, and its rounds stay within the horizon. */
  lemma {:induction false} TicksLimited(setup: Setup, s: Run, moves: seq<Move>)
    requires Inv(setup, s) && AllPlayable(moves)
    ensures Clock(s) + Ticks(setup, s, moves) <= Clock(Play(setup, s, moves).0)
    ensures Playable(setup.rules) && Clock(Play(setup, s, moves).0) <= 5 * Horizon(setup.rules, s) + 4
  {
    hide Inv, Tick, Playing, Horizon, Frozen, Told, Finishes;
    if moves != [] {
      var init, last := moves[..|moves| - 1], moves[|moves| - 1];
      TicksLimited(setup, s, init);
      var before := Play(setup, s, init).0;
      assert last in moves && Playing(last);
      OneTick(setup, before, last);
    }
    PlayFollows(setup, s, moves);
    ClockLimit(setup, Play(setup, s, moves).0);
    SameTeams(s, Play(setup, s, moves).0, Play(setup, s, moves).1);
    SameHorizon(setup.rules, s, Play(setup, s, moves).0);
  }

  lemma SameTeams(s: Run, r: Run, effects: seq<Effect>)
    requires Follows(s, r, effects)
    ensures |r.teams| == |s.teams|
  {
  }

  lemma OneTick(setup: Setup, s: Run, move: Move)
    requires Inv(setup, s) && Playing(move)
    ensures var r := Apply(setup, s, move);
      Clock(s) + (if move.call.TickCall? && r.1.accepted then 1 else 0) <= Clock(r.0)
  {
    hide Inv, Frozen, Told, Finishes, Playing;
    ApplySound(setup, s, move);
    if move.call.TickCall? {
      TickTaken(setup, s, move);
    }
  }

  lemma TickTaken(setup: Setup, s: Run, move: Move)
    requires Inv(setup, s) && Playing(move) && move.call.TickCall?
    ensures var r := Apply(setup, s, move);
      && (r.1.accepted <==> s.phase != Ended && s.deadlineMs <= move.now)
      && (r.1.accepted ==> Clock(s) < Clock(r.0) && (r.0.deadlineMs == 0 || move.now < r.0.deadlineMs))
  {
    hide Inv, Tick, CallSound;
    TickSound(setup, s, move.bots, move.chance, move.now, move.call.connected);
  }

  /** How many of the calls are Ticks taken. */
  function Ticks(setup: Setup, s: Run, moves: seq<Move>): nat
    requires Inv(setup, s) && AllPlayable(moves)
  {
    if moves == [] then 0
    else
      var last := moves[|moves| - 1];
      var r := Apply(setup, Play(setup, s, moves[..|moves| - 1]).0, last);
      Ticks(setup, s, moves[..|moves| - 1]) + if last.call.TickCall? && r.1.accepted then 1 else 0
  }

  /** Two replicas acting on the same deadline: whoever comes second finds the phase moved on, and is refused. */
  lemma SecondTickRefused(setup: Setup, s: Run, first: Move, second: Move)
    requires Inv(setup, s) && Playing(first) && Playing(second) && first.call.TickCall? && second.call.TickCall?
    requires Apply(setup, s, first).1.accepted && second.now <= first.now
    ensures var r := Apply(setup, s, first).0; Apply(setup, r, second) == (r, REFUSED)
  {
    hide Inv, Tick, CallSound, Playing;
    TickTaken(setup, s, first);
    var r := Apply(setup, s, first).0;
    TickTaken(setup, r, second);
    ApplySound(setup, r, second);
    DeadlineOpen(setup, r);
    RefusedStays(r, Apply(setup, r, second));
  }

  lemma RefusedStays(s: Run, r: (Run, Step))
    requires CallSound(s, r) && !r.1.accepted
    ensures r == (s, REFUSED)
  {
  }

  /** Before the end there is always a deadline: a Tick at it is taken. */
  lemma TickEndsPhase(setup: Setup, s: Run, move: Move)
    requires Inv(setup, s) && Playing(move) && move.call.TickCall?
    ensures s.phase != Ended <==> 0 < s.deadlineMs
    ensures var r := Apply(setup, s, move);
      && (r.1.accepted <==> s.phase != Ended && s.deadlineMs <= move.now)
      && (r.1.accepted ==> s.round < r.0.round || (s.round == r.0.round && PhaseIndex(s.phase) < PhaseIndex(r.0.phase)))
  {
    hide Inv, Apply, Playing;
    TickTaken(setup, s, move);
    DeadlineOpen(setup, s);
  }

  /** No phase lingers: each waits for someone. */
  lemma NobodyLingers(setup: Setup, s: Run)
    requires Inv(setup, s)
    ensures s.phase == Shop ==> exists id :: id in PlayersIn(s) && !s.players[id].shopDone
    ensures s.phase == Match ==> exists p :: p in s.pairings && p.hasPlayer && p.matchId.Some? && p.winner.None?
    ensures s.phase == Results ==> exists id :: id in PlayersIn(s) && s.players[id].checkedInRound != s.round
  {
    hide Rostered, Histories, Ranked, Records, Counted, Ready;
    if s.phase == Match {
      var p :| p in s.pairings && p.winner.None?;
      var i :| 0 <= i < |s.pairings| && s.pairings[i] == p;
      assert PairingOk(s, i);
    }
  }

  // ---- A match's result settles it once ----

  /** A match that can be ended no more: its round is over, or it is decided. */
  predicate Used(s: Run, id: MatchId) {
    id.round < s.round || (id.round == s.round && id.index < |s.pairings| && s.pairings[id.index].winner.Some?)
  }

  lemma UsedRefuses(setup: Setup, s: Run, id: MatchId, side: Option<int>)
    requires Inv(setup, s) && Used(s, id)
    ensures !MayEnd(s, id, side)
  {
    hide Rostered, Histories, Ranked, Records, Counted, Ready, PlayersOk;
    var i := FindMatch(s.pairings, id, 0);
    if i < |s.pairings| { assert PairingOk(s, i); }
  }

  lemma UsedStays(s: Run, r: Run, id: MatchId)
    requires Used(s, id) && Onward(s, r) && s.round <= r.round
    ensures Used(r, id)
  {
    if id.round == s.round == r.round { assert KeptResult(s.pairings[id.index], r.pairings[id.index]); }
  }

  lemma RoundsRise(s: Run, r: Run)
    requires Clock(s) <= Clock(r)
    ensures s.round <= r.round
  {
  }

  lemma ResultUses(setup: Setup, s: Run, move: Move)
    requires Inv(setup, s) && Playing(move) && move.call.MatchResultCall?
    requires Apply(setup, s, move).1.accepted
    ensures !Used(s, move.call.matchId) && Used(Apply(setup, s, move).0, move.call.matchId)
  {
    hide Inv, RoundReady, Settle, Spares, WinnerBy, Follows, EndRound, Used, Fair, PairingAt;
    var id, side, connected := move.call.matchId, move.call.side, move.call.connected;
    if Used(s, id) { UsedRefuses(setup, s, id, side); }
    ResultKeeps(setup, s, id, side, connected);
    var m := Settle(setup.rules, s, FindMatch(s.pairings, id, 0), side, connected);
    SettledUses(setup, s, m, id);
    if m.phase == Match && AllDecided(m) {
      EndRoundSound(setup, m, move.chance, move.now);
      SoundOnward(m, EndRound(setup, m, move.chance, move.now), move.now);
      UsedStays(m, EndRound(setup, m, move.chance, move.now).0, id);
    }
  }

  lemma SettledUses(setup: Setup, s: Run, m: Run, id: MatchId)
    requires Inv(setup, s) && Advances(s, m)
    requires var i := FindMatch(s.pairings, id, 0); i < |s.pairings| && m.pairings[i].winner.Some?
    ensures Used(m, id)
  {
    hide Rostered, Histories, Ranked, Records, Counted, Ready, PlayersOk;
    assert PairingOk(s, FindMatch(s.pairings, id, 0));
  }

  lemma SoundOnward(s: Run, r: (Run, seq<Effect>), now: int)
    requires Sound(s, r.0, r.1, now)
    ensures Onward(s, r.0) && s.round <= r.0.round
  {
    hide Told, Finishes, Frozen;
    RoundsRise(s, r.0);
  }

  /** However often a match's result is delivered, and whatever comes between, it is taken at most once. */
  lemma ResultTakenOnce(setup: Setup, s: Run, first: Move, between: seq<Move>, again: Move)
    requires Inv(setup, s) && Playing(first) && Playing(again) && AllPlayable(between)
    requires first.call.MatchResultCall? && again.call.MatchResultCall? && again.call.matchId == first.call.matchId
    requires Apply(setup, s, first).1.accepted
    ensures var r := Play(setup, Apply(setup, s, first).0, between).0; Apply(setup, r, again) == (r, REFUSED)
  {
    hide Inv, Apply, Playing, Used, Play, Told, Finishes, Frozen;
    ResultUses(setup, s, first);
    var m := Apply(setup, s, first).0;
    PlayFollows(setup, m, between);
    var r := Play(setup, m, between).0;
    RoundsRise(m, r);
    UsedStays(m, r, first.call.matchId);
    if Apply(setup, r, again).1.accepted { ResultUses(setup, r, again); }
    ApplySound(setup, r, again);
    RefusedStays(r, Apply(setup, r, again));
  }

  /** A match of a round that has begun, with a player: its node was launched. */
  predicate HasLaunched(s: Run, id: MatchId) {
    1 <= id.round
      && (id.round < s.round || (id.round == s.round && id.index < |s.pairings| && s.pairings[id.index].hasPlayer))
  }

  /** A result that says a side, says one of the two. */
  predicate Proper(side: Option<int>) {
    side.Some? ==> side.value in {0, 1}
  }

  lemma LaunchedStays(s: Run, r: Run, id: MatchId)
    requires HasLaunched(s, id) && Onward(s, r)
    ensures HasLaunched(r, id)
  {
    RoundsRise(s, r);
    if id.round == s.round == r.round { assert KeptResult(s.pairings[id.index], r.pairings[id.index]); }
  }

  /** A launched match that cannot be ended is one that has been, unless it is the character select still. */
  lemma CannotEnd(setup: Setup, s: Run, id: MatchId, side: Option<int>)
    requires Inv(setup, s) && HasLaunched(s, id) && Proper(side) && !MayEnd(s, id, side)
    ensures Used(s, id) <==> s.phase != CharacterSelect
  {
    hide Rostered, Histories, Ranked, Records, Counted, Ready, PlayersOk;
    if id.round == s.round {
      var p := s.pairings[id.index];
      assert PairingOk(s, id.index) && p in s.pairings && p.matchId == Some(id);
      var i := FindMatch(s.pairings, id, 0);
      assert i <= id.index && PairingOk(s, i);
    }
  }

  // ---- Who plays whom ----

  /** The team's one pairing, launched under its match id. */
  ghost predicate OnlyLaunch(s: Run, t: int, i: int) {
    && 0 <= i < |s.pairings| && s.pairings[i].Plays(t)
    && s.pairings[i].hasPlayer && s.pairings[i].matchId == Some(MatchId(s.round, i))
    && forall j | 0 <= j < |s.pairings| && s.pairings[j].Plays(t) :: j == i
  }

  lemma OnePairing(s: Run, t: int, i: int)
    requires Matched(s) && 0 <= t < |s.teams| && 0 <= i < |s.pairings| && s.pairings[i].Plays(t)
    ensures forall j | 0 <= j < |s.pairings| && s.pairings[j].Plays(t) :: j == i
  {
  }

  /** Every player still in is in exactly one of the round's pairings, launched under its match id. */
  lemma PlayerPaired(setup: Setup, s: Run, id: string)
    requires Inv(setup, s) && id in PlayersIn(s)
    ensures exists i :: OnlyLaunch(s, s.players[id].team, i)
  {
    hide Histories, Ranked, Records, Counted, Ready, PlayersOk;
    var t := s.players[id].team;
    assert HasPlayer(s, t);
    var i :| 0 <= i < |s.pairings| && s.pairings[i].Plays(t);
    assert PairingOk(s, i);
    OnePairing(s, t, i);
    assert OnlyLaunch(s, t, i);
  }

  // ---- What a team's record says ----

  /**
   * Wins and losses are the rounds decided for it, health is what the rounds lost left (or nothing, for a team whose
   * players had all gone), and one streak at most is running.
   */
  lemma RecordAddsUp(setup: Setup, s: Run, t: int)
    requires Inv(setup, s) && 0 <= t < |s.teams|
    ensures Playable(setup.rules) && Recorded(setup.rules, s, t)
    ensures s.teams[t].winStreak == 0 || s.teams[t].loseStreak == 0
    ensures s.teams[t].wins + s.teams[t].losses == |s.teams[t].opponents| - if Pending(s, t) then 1 else 0
  {
    hide Rostered, Histories, Ranked, Counted, Ready, PlayersOk, Explains;
    assert Recorded(setup.rules, s, t);
    var results :| Explains(setup.rules, HasPlayer(s, t), s.teams[t], results);
    OneStreak(setup.rules, HasPlayer(s, t), s.teams[t], results);
    if |s.teams[t].opponents| == s.round {
      var i :| 0 <= i < |s.pairings| && s.pairings[i].Plays(t);
      assert PlayedOk(s, s.pairings[i], t);
      OnePairing(s, t, i);
    }
  }

  lemma OneStreak(rules: Rules, hasPlayer: bool, team: Team, results: seq<bool>)
    requires Playable(rules) && Explains(rules, hasPlayer, team, results)
    ensures team.winStreak == 0 || team.loseStreak == 0
  {
  }

  /** Its match of this round is not decided yet. */
  predicate Pending(s: Run, t: int)
    requires 0 <= t < |s.teams|
  {
    |s.teams[t].opponents| == s.round
      && exists i :: 0 <= i < |s.pairings| && s.pairings[i].Plays(t) && s.pairings[i].winner.None?
  }
}
