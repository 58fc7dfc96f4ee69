/** What an Arena run is made of (ArenaRun.cs, lines 60-216), and what its transitions take and give. */
module ArenaTypes {
  import opened Options
  import opened ArenaRules
  import opened ArenaItems

  /** The opponent of a team playing its own mirror. */
  const MIRROR := -1

  /** A pairing's winner when both teams took a loss. */
  const BOTH_LOST := -2

  datatype Phase = CharacterSelect | Shop | Match | Results | Ended

  /** An inventory slot: an item a player owns, or empty (slug ""). */
  datatype OwnedItem = OwnedItem(slug: string, level: int, xp: int, sellValue: int) {
    predicate IsEmpty() { slug == "" }
  }

  const EMPTY_SLOT := OwnedItem("", 0, 0, 0)

  datatype Player = Player(
    isBot: bool,
    team: nat,
    pool: seq<string>,
    coins: int,
    character: Option<string>,
    skin: Option<string>,
    randomPick: bool,
    shopDone: bool,
    checkedInRound: int,
    inventory: seq<OwnedItem>,
    shopPages: seq<seq<string>>)

  datatype Team = Team(
    members: seq<string>,
    life: int,
    wins: nat,
    losses: nat,
    winStreak: nat,
    loseStreak: nat,
    opponents: seq<int>,
    finalRank: nat)
  {
    predicate In() { finalRank == 0 }
  }

  /** A match id, by the draw that gave it: two draws never coincide. */
  datatype MatchId = MatchId(round: int, index: nat)

  datatype Pairing = Pairing(a: int, b: int, hasPlayer: bool, matchId: Option<MatchId>, winner: Option<int>) {
    predicate Plays(team: int) { team == a || team == b }
  }

  datatype Run = Run(
    round: int,
    phase: Phase,
    deadlineMs: int,
    teams: seq<Team>,
    players: map<string, Player>,
    pairings: seq<Pairing>)

  datatype Effect =
    | SendPhaseConfigs
    | LaunchPairing(pairing: nat)
    | TeamsEnded(teams: seq<int>)
    | ArenaFinished

  datatype Step = Step(accepted: bool, effects: seq<Effect>)

  const REFUSED := Step(false, [])

  datatype Transaction = Transaction(purchase: bool, page: int, index: int)

  datatype Fighter = Fighter(character: string, skins: seq<string>)

  /** A participant's place, as a run is started with. */
  datatype Place = Place(id: string, isBot: bool)

  /** What a run is played by: the rules, the fighters, and the shop's catalog. */
  datatype Setup = Setup(rules: Rules, roster: seq<Fighter>, items: seq<Item>)

  ghost predicate Ready(setup: Setup) {
    && Playable(setup.rules)
    && Catalog(setup.items)
    && setup.roster != []
    && (forall f | f in setup.roster :: f.skins != [])
  }

  /** Who decides a match between bots: whether the pairing's side A wins it, by round and pairing. */
  type BotMatches = (int, nat) -> bool

  /**
   * A transition's random draws. A draw is named by what it is for, so that every outcome of every draw is some Chance.
   */
  datatype Chance = Chance(
    order: (int, seq<int>) -> seq<int>,
    coin: BotMatches,
    offer: (string, seq<string>) -> seq<string>,
    draw: (string, nat) -> nat,
    skin: (string, nat) -> nat,
    dice: string -> Dice)

  ghost predicate Fair(chance: Chance) {
    && (forall r, s :: multiset(chance.order(r, s)) == multiset(s))
    && (forall id, s :: multiset(chance.offer(id, s)) == multiset(s))
    && (forall id, n: nat :: 0 < n ==> chance.draw(id, n) < n)
    && (forall id, n: nat :: 0 < n ==> chance.skin(id, n) < n)
    && (forall id :: FairDice(chance.dice(id)))
  }

  // ---- Who is in ----

  predicate TeamIn(s: Run, t: int) {
    0 <= t < |s.teams| && s.teams[t].In()
  }

  /** The players (not bots) still in. */
  function PlayersIn(s: Run): set<string> {
    set id | id in s.players && !s.players[id].isBot && TeamIn(s, s.players[id].team)
  }

  predicate HasPlayer(s: Run, team: int) {
    0 <= team < |s.teams|
    && exists m | m in s.teams[team].members :: m in s.players && !s.players[m].isBot
  }

  predicate Gone(s: Run, team: int, connected: set<string>) {
    HasPlayer(s, team) && forall m | m in s.teams[team].members :: m !in connected
  }

  /** The teams still in among the first k, by index. */
  function InTeams(teams: seq<Team>, k: nat): (r: seq<int>)
    requires k <= |teams|
    ensures forall t :: t in r <==> 0 <= t < k && teams[t].In()
    ensures |r| <= k
  {
    if k == 0 then []
    else InTeams(teams, k - 1) + if teams[k - 1].In() then [k - 1] else []
  }

  /** The teams that go out now among the first k, by index. */
  function OutTeams(teams: seq<Team>, k: nat): (r: seq<int>)
    requires k <= |teams|
    ensures forall t :: t in r <==> 0 <= t < k && teams[t].In() && teams[t].life <= 0
    ensures |r| <= k
  {
    if k == 0 then []
    else OutTeams(teams, k - 1) + if teams[k - 1].In() && teams[k - 1].life <= 0 then [k - 1] else []
  }

  predicate AllDecided(s: Run) {
    forall p | p in s.pairings :: p.winner.Some?
  }

  predicate AllPicked(s: Run) {
    forall id | id in PlayersIn(s) :: s.players[id].character.Some?
  }

  predicate AllShopsDone(s: Run) {
    forall id | id in PlayersIn(s) :: s.players[id].shopDone
  }

  predicate AllCheckedIn(s: Run) {
    forall id | id in PlayersIn(s) :: s.players[id].checkedInRound == s.round
  }
}
