/**
 * The parts a run's transitions are made of (ArenaRun.cs, lines 226-246, 427-611 and 661-670), each as a function of
 * the run.
 */
module ArenaSteps {
  import opened Options
  import opened ArenaRules
  import opened ArenaItems
  import opened ArenaTypes

  // ---- Small things about sequences ----

  function FindFrom(xs: seq<int>, x: int, from: nat): (i: nat)
    requires from <= |xs|
    ensures from <= i <= |xs|
    ensures i < |xs| ==> xs[i] == x
    ensures forall j | from <= j < i :: xs[j] != x
    decreases |xs| - from
  {
    if from == |xs| || xs[from] == x then from else FindFrom(xs, x, from + 1)
  }

  function IndexOf(xs: seq<int>, x: int): (i: nat)
    requires x in xs
    ensures i < |xs| && xs[i] == x
    ensures forall j | 0 <= j < i :: xs[j] != x
  {
    FindFrom(xs, x, 0)
  }

  ghost predicate NoRepeats(xs: seq<int>) {
    forall i, j | 0 <= i < j < |xs| :: xs[i] != xs[j]
  }

  // ---- A match's end ----

  function Won(team: Team): Team {
    team.(wins := team.wins + 1, winStreak := team.winStreak + 1, loseStreak := 0)
  }

  function Lost(team: Team, amount: int): Team {
    team.(losses := team.losses + 1, loseStreak := team.loseStreak + 1, winStreak := 0, life := team.life - amount)
  }

  /** A pairing's sides are teams of the run, or the mirror. */
  predicate Side(s: Run, t: int) {
    t == MIRROR || 0 <= t < |s.teams|
  }

  predicate Seated(s: Run) {
    forall p | p in s.pairings :: 0 <= p.a < |s.teams| && Side(s, p.b)
  }

  /** Nothing but the results of this round's pairings, and what they do to the teams' records and health, differs. */
  ghost predicate SameBoard(s: Run, r: Run) {
    && r == s.(teams := r.teams, pairings := r.pairings)
    && |r.teams| == |s.teams|
    && (forall t | 0 <= t < |s.teams| ::
          r.teams[t].members == s.teams[t].members && r.teams[t].opponents == s.teams[t].opponents
          && r.teams[t].finalRank == s.teams[t].finalRank)
    && |r.pairings| == |s.pairings|
    && (forall i | 0 <= i < |s.pairings| :: r.pairings[i] == s.pairings[i].(winner := r.pairings[i].winner))
  }

  lemma SameBoardSeated(s: Run, r: Run)
    requires Seated(s) && SameBoard(s, r)
    ensures Seated(r)
  {
    forall p | p in r.pairings ensures 0 <= p.a < |r.teams| && Side(r, p.b) {
      var i :| 0 <= i < |r.pairings| && r.pairings[i] == p;
      assert s.pairings[i] in s.pairings;
    }
  }

  function Lose(rules: Rules, s: Run, t: int): Run
    requires Playable(rules) && Side(s, t)
  {
    if t == MIRROR then s else s.(teams := s.teams[t := Lost(s.teams[t], LifeLost(rules, s.round))])
  }

  function Decide(rules: Rules, s: Run, i: nat, winner: int): (r: Run)
    requires Playable(rules) && Seated(s) && i < |s.pairings| && Side(s, winner)
    ensures SameBoard(s, r)
  {
    var p := s.pairings[i];
    var s1 := s.(pairings := s.pairings[i := p.(winner := Some(winner))]);
    var s2 := if winner == MIRROR then s1 else s1.(teams := s1.teams[winner := Won(s1.teams[winner])]);
    Lose(rules, s2, if winner == p.a then p.b else p.a)
  }

  function BothLose(rules: Rules, s: Run, i: nat): (r: Run)
    requires Playable(rules) && Seated(s) && i < |s.pairings|
    ensures SameBoard(s, r)
  {
    var p := s.pairings[i];
    Lose(rules, Lose(rules, s.(pairings := s.pairings[i := p.(winner := Some(BOTH_LOST))]), p.a), p.b)
  }

  function Emptied(s: Run, t: int, connected: set<string>): (r: Run)
    ensures SameBoard(s, r)
  {
    if Gone(s, t, connected) then s.(teams := s.teams[t := s.teams[t].(life := 0)]) else s
  }

  lemma SameBoardTrans(s: Run, m: Run, r: Run)
    requires SameBoard(s, m) && SameBoard(m, r)
    ensures SameBoard(s, r)
  {
    forall i | 0 <= i < |s.pairings| ensures r.pairings[i] == s.pairings[i].(winner := r.pairings[i].winner) {
      assert m.pairings[i] == s.pairings[i].(winner := m.pairings[i].winner);
    }
  }

  /** What the reports say of a match, or its absence of reports. */
  function Ruled(rules: Rules, s: Run, i: nat, side: Option<int>, connected: set<string>): (r: Run)
    requires Playable(rules) && Seated(s) && i < |s.pairings|
    ensures SameBoard(s, r)
  {
    var p := s.pairings[i];
    if side.Some? then Decide(rules, s, i, if side.value == 0 then p.a else p.b)
    else if !HasPlayer(s, p.b) then Decide(rules, s, i, if Gone(s, p.a, connected) then p.b else p.a)
    else BothLose(rules, s, i)
  }

  /**
   * A node match's end: the reports' side, else the players' side against bots, else both lose; then the gone are out.
   */
  function Settle(rules: Rules, s: Run, i: nat, side: Option<int>, connected: set<string>): (r: Run)
    requires Playable(rules) && Seated(s) && i < |s.pairings|
    ensures SameBoard(s, r)
  {
    var p, s1 := s.pairings[i], Ruled(rules, s, i, side, connected);
    var s2 := Emptied(s1, p.a, connected);
    var r := Emptied(s2, p.b, connected);
    SameBoardTrans(s, s1, s2);
    SameBoardTrans(s, s2, r);
    r
  }

  /** A pairing's match, decided if it is between bots. */
  function DecideBot(rules: Rules, s: Run, bots: BotMatches, i: nat): (r: Run)
    requires Playable(rules) && Seated(s) && i < |s.pairings|
    ensures SameBoard(s, r)
  {
    var p := s.pairings[i];
    assert p in s.pairings;
    if p.hasPlayer then s else Decide(rules, s, i, if bots(s.round, i) then p.a else p.b)
  }

  /** The first k pairings' matches between bots decided. */
  function DecideBots(rules: Rules, s: Run, bots: BotMatches, k: nat): (r: Run)
    requires Playable(rules) && Seated(s) && k <= |s.pairings|
    ensures SameBoard(s, r) && Seated(r)
  {
    if k == 0 then s
    else
      var m := DecideBots(rules, s, bots, k - 1);
      var r := DecideBot(rules, m, bots, k - 1);
      SameBoardTrans(s, m, r);
      SameBoardSeated(s, r);
      r
  }

  /** A pairing settled as never reported, if it is still open. */
  function SettleIfOpen(rules: Rules, s: Run, connected: set<string>, i: nat): (r: Run)
    requires Playable(rules) && Seated(s) && i < |s.pairings|
    ensures SameBoard(s, r)
  {
    if s.pairings[i].winner.Some? then s else Settle(rules, s, i, None, connected)
  }

  /** The first k pairings settled as never reported, where they are still open. */
  function SettleOpen(rules: Rules, s: Run, connected: set<string>, k: nat): (r: Run)
    requires Playable(rules) && Seated(s) && k <= |s.pairings|
    ensures SameBoard(s, r) && Seated(r)
  {
    if k == 0 then s
    else
      var m := SettleOpen(rules, s, connected, k - 1);
      var r := SettleIfOpen(rules, m, connected, k - 1);
      SameBoardTrans(s, m, r);
      SameBoardSeated(s, r);
      r
  }

  // ---- A round's end ----

  /** Ranked before: healthier, or as healthy and first by index. */
  predicate Ahead(teams: seq<Team>, t: int, u: int)
    requires 0 <= t < |teams| && 0 <= u < |teams|
  {
    teams[t].life > teams[u].life || (teams[t].life == teams[u].life && t < u)
  }

  predicate Indexes(teams: seq<Team>, xs: seq<int>) {
    forall i | 0 <= i < |xs| :: 0 <= xs[i] < |teams|
  }

  /** A team put in its place in a list ordered by health, after those as healthy as it. */
  function Insert(teams: seq<Team>, xs: seq<int>, t: int): (r: seq<int>)
    requires 0 <= t < |teams| && Indexes(teams, xs)
    ensures |r| == |xs| + 1 && Indexes(teams, r)
    ensures forall x :: x in r <==> x == t || x in xs
  {
    if xs == [] then [t]
    else if teams[xs[|xs| - 1]].life >= teams[t].life then xs + [t]
    else Insert(teams, xs[..|xs| - 1], t) + [xs[|xs| - 1]]
  }

  /** A list of teams, the healthiest first; those as healthy keep their order. */
  function ByLife(teams: seq<Team>, xs: seq<int>): (r: seq<int>)
    requires Indexes(teams, xs)
    ensures |r| == |xs| && Indexes(teams, r)
    ensures forall x :: x in r <==> x in xs
  {
    if xs == [] then []
    else Insert(teams, ByLife(teams, xs[..|xs| - 1]), xs[|xs| - 1])
  }

  function OutNow(teams: seq<Team>): (r: seq<int>)
    ensures forall t :: t in r <==> 0 <= t < |teams| && teams[t].In() && teams[t].life <= 0
  {
    var xs := OutTeams(teams, |teams|);
    assert forall i | 0 <= i < |xs| :: xs[i] in xs;
    ByLife(teams, xs)
  }

  /** The teams going out take the ranks below those left, in their order. */
  function RankOut(teams: seq<Team>, out: seq<int>, left: nat): (r: seq<Team>)
    ensures |r| == |teams|
  {
    seq(|teams|, t requires 0 <= t < |teams| =>
      if t in out then teams[t].(finalRank := left + 1 + IndexOf(out, t)) else teams[t])
  }

  function Crown(teams: seq<Team>, still: seq<int>): seq<Team>
    requires Indexes(teams, still)
  {
    if |still| == 1 then teams[still[0] := teams[still[0]].(finalRank := 1)] else teams
  }

  function Income(rules: Rules, s: Run, player: Player): int
    requires player.team < |s.teams|
  {
    var team := s.teams[player.team];
    var won := exists p | p in s.pairings :: p.winner == Some(player.team);
    Interest(rules, player.coins) + At(rules.currencyPerRound, s.round - 1) + (if won then rules.currencyForWin else 0)
    + At(rules.currencyForWinStreak, team.winStreak) + At(rules.currencyForLoseStreak, team.loseStreak)
  }

  /** Every player still in is paid for the round. */
  function Paid(rules: Rules, s: Run): Run {
    s.(players := map id | id in s.players ::
      if id in PlayersIn(s) then s.players[id].(coins := s.players[id].coins + Income(rules, s, s.players[id]))
      else s.players[id])
  }

  // ---- A round's start ----

  /** Whom a team of an order plays: the one beside it, or its mirror at an odd end. */
  function Partner(order: seq<int>, t: int): int
    requires t in order
  {
    var i := IndexOf(order, t);
    if i % 2 == 1 then order[i - 1] else if i + 1 < |order| then order[i + 1] else MIRROR
  }

  /** The k-th pairing of an order; a side with a player is its A. */
  function PairingAt(s: Run, order: seq<int>, k: nat): Pairing
    requires 2 * k < |order|
  {
    var a, b := order[2 * k], if 2 * k + 1 < |order| then order[2 * k + 1] else MIRROR;
    var swap := !HasPlayer(s, a) && HasPlayer(s, b);
    var (a', b') := if swap then (b, a) else (a, b);
    Pairing(a', b', HasPlayer(s, a'), if HasPlayer(s, a') then Some(MatchId(s.round, k)) else None, None)
  }

  /** The round's pairings, from an order of the teams still in; each team's opponent is kept. */
  function Paired(s: Run, order: seq<int>): Run {
    s.(pairings := seq((|order| + 1) / 2, k requires 0 <= k < (|order| + 1) / 2 => PairingAt(s, order, k)),
       teams := seq(|s.teams|, t requires 0 <= t < |s.teams| =>
         if t in order then s.teams[t].(opponents := s.teams[t].opponents + [Partner(order, t)]) else s.teams[t]))
  }

  function PairRound(s: Run, chance: Chance): Run {
    Paired(s, chance.order(s.round, InTeams(s.teams, |s.teams|)))
  }

  /** The first k pairings' node launches. */
  function Launches(pairings: seq<Pairing>, k: nat): (r: seq<Effect>)
    requires k <= |pairings|
  {
    if k == 0 then []
    else Launches(pairings, k - 1) + if pairings[k - 1].hasPlayer then [LaunchPairing(k - 1)] else []
  }

  // ---- Players ----

  function SkinsOf(roster: seq<Fighter>, character: string): seq<string> {
    if roster == [] then [] else if roster[0].character == character then roster[0].skins
    else SkinsOf(roster[1..], character)
  }

  function Picked(setup: Setup, player: Player, character: string, skin: Option<string>): Player {
    var skins := SkinsOf(setup.roster, character);
    var worn := if skin.Some? && skin.value != "" && skin.value in skins then skin.value else if skins == [] then ""
      else skins[0];
    player.(character := Some(character), skin := Some(worn), pool := [])
  }

  /** A fighter of their offer at random. */
  function Drawn(setup: Setup, player: Player, id: string, chance: Chance): Player
    requires Fair(chance) && player.pool != []
  {
    Picked(setup, player, player.pool[chance.draw(id, |player.pool|)], None)
  }

  function Names(roster: seq<Fighter>): (r: seq<string>)
    ensures |r| == |roster|
  {
    if roster == [] then [] else [roster[0].character] + Names(roster[1..])
  }

  function Offer(setup: Setup, id: string, chance: Chance): (r: seq<string>)
    requires Ready(setup) && Fair(chance)
    ensures 0 < |r| <= setup.rules.selectableCount
  {
    var names := chance.offer(id, Names(setup.roster));
    assert |names| == |multiset(names)| == |multiset(Names(setup.roster))|;
    if |names| < setup.rules.selectableCount then names else names[..setup.rules.selectableCount]
  }

  function BotPicked(setup: Setup, player: Player, id: string, chance: Chance): Player
    requires Ready(setup) && Fair(chance)
  {
    var fighter := setup.roster[chance.draw(id, |setup.roster|)];
    player.(character := Some(fighter.character), skin := Some(fighter.skins[chance.skin(id, |fighter.skins|)]))
  }

  function AbsentPicked(setup: Setup, s: Run, chance: Chance): Run
    requires Fair(chance)
    requires forall id | id in PlayersIn(s) && s.players[id].character.None? :: s.players[id].pool != []
  {
    s.(players := map id | id in s.players ::
      if id in PlayersIn(s) && s.players[id].character.None? then Drawn(setup, s.players[id], id, chance)
      else s.players[id])
  }

  function BotsPicked(setup: Setup, s: Run, chance: Chance): Run
    requires Ready(setup) && Fair(chance)
  {
    s.(players := map id | id in s.players ::
      if s.players[id].isBot && s.players[id].character.None? then BotPicked(setup, s.players[id], id, chance)
      else s.players[id])
  }

  function ShopsOpened(setup: Setup, s: Run, chance: Chance): Run
    requires Fair(chance)
  {
    s.(players := map id | id in s.players ::
      if id in PlayersIn(s)
      then s.players[id].(shopDone := false,
                          shopPages :=
                            PagesOf(setup.items, s.round, setup.rules.shopPages, setup.rules.offersPerPage,
                            chance.dice(id)))
      else s.players[id])
  }

  function ShopsClosed(s: Run): Run {
    s.(players := map id | id in s.players :: if id in PlayersIn(s) then s.players[id].(shopDone := true)
      else s.players[id])
  }

  // ---- A run's start ----

  function NewPlayer(setup: Setup, place: Place, team: nat, chance: Chance): Player
    requires Ready(setup) && Fair(chance)
  {
    Player(place.isBot, team, if place.isBot then [] else Offer(setup, place.id, chance),
           if place.isBot then 0 else setup.rules.startingCoins, None, None, false, false, 0,
           seq(setup.rules.maxItemsInInventory, _ => EMPTY_SLOT), [])
  }

  function EnrolTeam(setup: Setup, places: seq<Place>, team: nat, chance: Chance): map<string, Player>
    requires Ready(setup) && Fair(chance)
  {
    if places == [] then map[]
    else EnrolTeam(setup, places[..|places| - 1], team, chance)
         [places[|places| - 1].id := NewPlayer(setup, places[|places| - 1], team, chance)]
  }

  function Enrol(setup: Setup, teams: seq<seq<Place>>, chance: Chance): map<string, Player>
    requires Ready(setup) && Fair(chance)
  {
    if teams == [] then map[]
    else Enrol(setup, teams[..|teams| - 1], chance) + EnrolTeam(setup, teams[|teams| - 1], |teams| - 1, chance)
  }

  function Ids(places: seq<Place>): (r: seq<string>)
    ensures |r| == |places|
    ensures forall i | 0 <= i < |places| :: r[i] == places[i].id
  {
    if places == [] then [] else [places[0].id] + Ids(places[1..])
  }

  function NewTeams(setup: Setup, teams: seq<seq<Place>>): seq<Team> {
    seq(|teams|, t requires 0 <= t < |teams| => Team(Ids(teams[t]), setup.rules.startingLife, 0, 0, 0, 0, [], 0))
  }

  /** Every participant is named once. */
  ghost predicate Cast(teams: seq<seq<Place>>) {
    forall t, i, u, j | 0 <= t < |teams| && 0 <= i < |teams[t]| && 0 <= u < |teams| && 0 <= j < |teams[u]| ::
      teams[t][i].id == teams[u][j].id ==> t == u && i == j
  }

  function Begun(setup: Setup, teams: seq<seq<Place>>, chance: Chance, now: int): (Run, seq<Effect>)
    requires Ready(setup) && Fair(chance)
  {
    var s := Run(1, CharacterSelect, 0, NewTeams(setup, teams), Enrol(setup, teams, chance), []);
    var s1 :=
      PairRound(s, chance).(deadlineMs := now + (setup.rules.characterSelectSeconds + setup.rules.graceSeconds) * 1000);
    (s1, Launches(s1.pairings, |s1.pairings|) + [SendPhaseConfigs])
  }
}
