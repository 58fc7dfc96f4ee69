/**
 * An Arena's run under any number of replicas (ArenaRunStore.cs, ArenaService.cs lines 180-298, ArenaResults.cs lines
 * 108-170): each reads the record, runs a transition on what it read, and writes it back only if the record is still
 * that; then it carries out the effects. Redis does each of its commands at once; the replicas' steps come in any
 * order.
 */
module ArenaStore {
  import opened Options
  import opened ArenaTypes
  import opened ArenaSteps
  import opened ArenaTransitions
  import opened ArenaCalls
  import opened ArenaProgress
  import opened ArenaWholeRun

  const ATTEMPTS := 10
  const MAX_DELIVERIES := 5

  /** What a replica does for one request: the call, and the match result it was delivered with, if it was one. */
  datatype Job = Job(call: Call, entry: Option<nat>)

  /** How a delivered result was handled: on no record; refused on the run after a commit; or committed by its own. */
  datatype Handling = Missing | Declined(at: nat) | Committed(at: nat)

  datatype Client =
    | Idle
    | Trying(job: Job, attempt: nat)
    | Holding(job: Job, attempt: nat, raw: Run, move: Move)
    | Carrying(job: Job, commit: nat, done: nat)
    | Acking(entry: nat, handling: Handling)
    | Forgetting

  /**
   * A match's result, from its stream: handed out again and again until it is acknowledged. For the proof only: how
   * many commits there were when it was published, and how the one who first acknowledged it had handled it.
   */
  datatype Result = Result(
    matchId: MatchId,
    side: Option<int>,
    deliveries: nat,
    acked: bool,
    dropped: bool,
    publishedAt: nat,
    handling: Option<Handling>)

  /**
   * `told` is each effect carried out, as its commit and its place there. For the proof only: `moves` is what was
   * committed, `cut` the commits whose replica crashed before it had carried them out.
   */
  datatype World = World(
    record: Option<Run>,
    due: Option<int>,
    clients: seq<Client>,
    results: seq<Result>,
    told: seq<(nat, nat)>,
    moves: seq<Move>,
    cut: set<nat>,
    born: bool,
    gone: bool)

  /** The record's entry among the deadlines: there while the run has one. */
  function DueOf(run: Run): Option<int> {
    if run.deadlineMs > 0 then Some(run.deadlineMs) else None
  }

  ghost predicate Empty(w: World) {
    && w.record.None? && w.due.None? && !w.born && !w.gone && w.moves == [] && w.told == [] && w.cut == {}
    && (forall c | c in w.clients :: c.Idle?) && w.results == []
  }

  // ---- What was committed ----

  function First(o: Opening): (r: Run)
    requires Opens(o)
    ensures Inv(o.setup, r)
  {
    hide Inv;
    BegunKeeps(o);
    Begun(o.setup, o.teams, o.chance, o.now).0
  }

  /** The run after the first k commits. */
  function StateAt(o: Opening, moves: seq<Move>, k: nat): (r: Run)
    requires Opens(o) && AllPlayable(moves) && k <= |moves|
    ensures Inv(o.setup, r)
  {
    hide Inv, Opens, Playing;
    Play(o.setup, First(o), moves[..k]).0
  }

  /** The effects of a commit: the start's, then each transition's. */
  function EffectsAt(o: Opening, moves: seq<Move>, k: nat): seq<Effect>
    requires Opens(o) && AllPlayable(moves) && k <= |moves|
  {
    hide Inv;
    if k == 0 then Begun(o.setup, o.teams, o.chance, o.now).1
    else Apply(o.setup, StateAt(o, moves, k - 1), moves[k - 1]).1.effects
  }

  /** One total order of transitions from the start, each accepted on what the one before left. */
  ghost predicate Ordered(o: Opening, moves: seq<Move>)
    requires Opens(o)
  {
    hide Inv;
    AllPlayable(moves) && forall k | 0 <= k < |moves| :: Apply(o.setup, StateAt(o, moves, k), moves[k]).1.accepted
  }

  // ---- The steps ----

  datatype Event =
    | Create(c: nat)
    | Begin(c: nat, call: Call)
    | Publish(matchId: MatchId, side: Option<int>)
    | Deliver(c: nat, e: nat, connected: set<string>)
    | DropResult(e: nat)
    | Read(c: nat, move: Move)
    | Write(c: nat)
    | CarryOut(c: nat)
    | Ack(c: nat)
    | Forget(c: nat)
    | Crash(c: nat)
    | Expire

  /** A request's end: a delivered result is acknowledged, whatever came of it. */
  function Finished(job: Job, handling: Handling): Client {
    if job.entry.Some? then Acking(job.entry.value, handling) else Idle
  }

  ghost predicate Enabled(o: Opening, w: World, ev: Event)
    requires Opens(o)
  {
    match ev
    case Create(c) => c < |w.clients| && w.clients[c].Idle? && (w.born ==> w.record.Some?)
    case Begin(c, call) =>
      c < |w.clients| && w.clients[c].Idle? && !call.MatchResultCall? && (call.TickCall? ==> w.due.Some?)
    case Publish(_, _) => w.born
    case Deliver(c, e, _) => c < |w.clients| && w.clients[c].Idle? && e < |w.results| && !w.results[e].acked
    case DropResult(e) => e < |w.results| && !w.results[e].acked && w.results[e].deliveries > MAX_DELIVERIES
    case Read(c, move) =>
      c < |w.clients| && w.clients[c].Trying? && Playing(move) && move.call == w.clients[c].job.call
      && (w.record.Some? ==> Inv(o.setup, w.record.value))
    case Write(c) =>
      c < |w.clients| && w.clients[c].Holding? && Playing(w.clients[c].move) && Inv(o.setup, w.clients[c].raw)
    case CarryOut(c) => c < |w.clients| && w.clients[c].Carrying?
    case Ack(c) => c < |w.clients| && w.clients[c].Acking? && w.clients[c].entry < |w.results|
    case Forget(c) => c < |w.clients| && w.clients[c].Forgetting?
    case Crash(c) => c < |w.clients|
    case Expire => w.record.Some?
  }

  /** The start, unless a run with its id is there already. */
  function Creating(o: Opening, w: World, c: nat): World
    requires Opens(o) && c < |w.clients|
  {
    if w.record.Some? then w
    else w.(record := Some(First(o)), due := DueOf(First(o)), born := true,
            clients := w.clients[c := Carrying(Job(TickCall({}), None), 0, 0)])
  }

  function Reading(o: Opening, w: World, c: nat, move: Move): World
    requires Opens(o) && Enabled(o, w, Read(c, move))
  {
    hide Inv;
    var job := w.clients[c].job;
    if w.record.None?
      then w.(clients := w.clients[c := if job.call.TickCall? then Forgetting else Finished(job, Missing)])
    else if !Apply(o.setup, w.record.value, move).1.accepted
      then w.(clients := w.clients[c := Finished(job, Declined(|w.moves|))])
    else w.(clients := w.clients[c := Holding(job, w.clients[c].attempt, w.record.value, move)])
  }

  /** The record and its deadline, in one transaction, if the record is still what was read; otherwise another round. */
  function Writing(o: Opening, w: World, c: nat): World
    requires Opens(o) && Enabled(o, w, Write(c))
  {
    hide Inv;
    var client := w.clients[c];
    if w.record == Some(client.raw) then
      var next := Apply(o.setup, client.raw, client.move).0;
      w.(record := Some(next), due := DueOf(next), moves := w.moves + [client.move],
         clients := w.clients[c := Carrying(client.job, |w.moves| + 1, 0)])
    else w.(clients := w.clients[c := if client.attempt + 1 < ATTEMPTS then Trying(client.job, client.attempt + 1)
      else Idle])
  }

  /** The next effect; once all are done, the request is. */
  function Carried(o: Opening, w: World, c: nat): World
    requires Opens(o) && c < |w.clients| && w.clients[c].Carrying?
    requires AllPlayable(w.moves) && w.clients[c].commit <= |w.moves|
  {
    var client := w.clients[c];
    if client.done < |EffectsAt(o, w.moves, client.commit)|
    then w.(told := w.told + [(client.commit, client.done)],
      clients := w.clients[c := client.(done := client.done + 1)])
    else w.(clients := w.clients[c := Finished(client.job, Committed(client.commit))])
  }

  /** Only the first acknowledgement counts. */
  function Acked(result: Result, handling: Handling): Result {
    if result.acked then result else result.(acked := true, handling := Some(handling))
  }

  /** True of every state reached: what a step needs for its effects to have a meaning. */
  ghost predicate Sane(w: World) {
    AllPlayable(w.moves) && forall c | c in w.clients && c.Carrying? :: c.commit <= |w.moves|
  }

  function After(o: Opening, w: World, ev: Event): World
    requires Opens(o) && Enabled(o, w, ev) && Sane(w)
  {
    match ev
    case Create(c) => Creating(o, w, c)
    case Begin(c, call) => w.(clients := w.clients[c := Trying(Job(call, None), 0)])
    case Publish(id, side) => w.(results := w.results + [Result(id, side, 0, false, false, |w.moves|, None)])
    case Deliver(c, e, connected) =>
      var result := w.results[e];
      w.(results := w.results[e := result.(deliveries := result.deliveries + 1)],
         clients := w.clients[c := Trying(Job(MatchResultCall(result.matchId, result.side, connected), Some(e)), 0)])
    case DropResult(e) => w.(results := w.results[e := w.results[e].(acked := true, dropped := true)])
    case Read(c, move) => Reading(o, w, c, move)
    case Write(c) => Writing(o, w, c)
    case CarryOut(c) => Carried(o, w, c)
    case Ack(c) =>
      var e := w.clients[c].entry;
      w.(results := w.results[e := Acked(w.results[e], w.clients[c].handling)], clients := w.clients[c := Idle])
    case Forget(c) => w.(due := None, clients := w.clients[c := Idle])
    case Crash(c) =>
      w.(clients := w.clients[c := Idle],
         cut := if w.clients[c].Carrying? then w.cut + {w.clients[c].commit} else w.cut)
    case Expire => w.(record := None, gone := true)
  }

  // ---- What is true of the whole, at every moment ----

  /**
   * The record is what the committed transitions left, and the deadlines agree with it; an expired one is never back.
   */
  ghost predicate StoreOk(o: Opening, w: World)
    requires Opens(o)
  {
    && Ordered(o, w.moves)
    && (if !w.born then w.record.None? && w.due.None? && w.moves == [] && !w.gone
        else if w.gone then w.record.None?
        else w.record == Some(StateAt(o, w.moves, |w.moves|)) && w.due == DueOf(StateAt(o, w.moves, |w.moves|)))
  }

  /** How much of a commit was carried out: the first of its effects, in order. */
  function ToldOf(told: seq<(nat, nat)>, k: nat): seq<nat> {
    if told == [] then []
    else ToldOf(told[..|told| - 1], k) + if told[|told| - 1].0 == k then [told[|told| - 1].1] else []
  }

  ghost predicate Counting(xs: seq<nat>) {
    forall i | 0 <= i < |xs| :: xs[i] == i
  }

  ghost predicate SameResult(w: World, call: Call, e: nat) {
    e < |w.results| && call.MatchResultCall? && call.matchId == w.results[e].matchId && call.side == w.results[e].side
  }

  ghost predicate JobOk(w: World, job: Job) {
    && (job.call.MatchResultCall? <==> job.entry.Some?)
    && (job.entry.Some? ==> w.born && SameResult(w, job.call, job.entry.value))
    && (job.call.TickCall? ==> w.born)
  }

  /** A commit is the taking of a result. */
  ghost predicate TakesResult(moves: seq<Move>, k: nat, result: Result) {
    && 1 <= k <= |moves| && moves[k - 1].call.MatchResultCall?
    && moves[k - 1].call.matchId == result.matchId && moves[k - 1].call.side == result.side
  }

  /**
   * Handled on a state not before its publishing, and not to be taken there any more: it was refused there, or what its
   * own commit left; or the record was gone.
   */
  ghost predicate HandledOk(o: Opening, moves: seq<Move>, gone: bool, result: Result, handling: Handling)
    requires Opens(o) && AllPlayable(moves)
  {
    match handling
    case Missing => gone
    case Declined(k) => result.publishedAt <= k <= |moves| && !MayEnd(StateAt(o, moves, k), result.matchId, result.side)
    case Committed(k) =>
      && result.publishedAt < k <= |moves| && TakesResult(moves, k, result)
      && !MayEnd(StateAt(o, moves, k), result.matchId, result.side)
  }

  ghost predicate ClientOk(o: Opening, w: World, client: Client)
    requires Opens(o) && AllPlayable(w.moves)
  {
    match client
    case Idle => true
    case Trying(job, _) => JobOk(w, job)
    case Holding(job, _, raw, move) =>
      JobOk(w, job) && w.born && Inv(o.setup, raw) && Playing(move) && move.call == job.call
        && Apply(o.setup, raw, move).1.accepted
    case Carrying(job, k, done) =>
      && w.born && k <= |w.moves| && done <= |EffectsAt(o, w.moves, k)| && |ToldOf(w.told, k)| == done
      && (k == 0 ==> job.entry.None?)
      && (k != 0 ==> JobOk(w, job))
      && (k != 0 && job.entry.Some? ==> HandledOk(o, w.moves, w.gone, w.results[job.entry.value], Committed(k)))
    case Acking(e, handling) => e < |w.results| && HandledOk(o, w.moves, w.gone, w.results[e], handling)
    case Forgetting => w.gone
  }

  /** No two replicas carry out the same commit, and each commit was carried out from its first effect on, in order. */
  ghost predicate ToldOk(o: Opening, w: World)
    requires Opens(o) && AllPlayable(w.moves)
  {
    && (!w.born ==> w.told == [] && w.results == [])
    && (forall c, d | 0 <= c < d < |w.clients| && w.clients[c].Carrying? && w.clients[d].Carrying? ::
          w.clients[c].commit != w.clients[d].commit)
    && (forall k: nat :: Counting(ToldOf(w.told, k)))
    && (forall k: nat | |w.moves| < k :: ToldOf(w.told, k) == [])
    && (forall k: nat | k <= |w.moves| :: |ToldOf(w.told, k)| <= |EffectsAt(o, w.moves, k)|)
  }

  ghost predicate ResultsOk(o: Opening, w: World)
    requires Opens(o) && AllPlayable(w.moves)
  {
    forall e | 0 <= e < |w.results| ::
      && w.results[e].publishedAt <= |w.moves|
      && (w.results[e].acked && !w.results[e].dropped ==>
            w.results[e].handling.Some?
            && HandledOk(o, w.moves, w.gone, w.results[e], w.results[e].handling.value))
  }

  ghost predicate Whole(o: Opening, w: World)
    requires Opens(o)
  {
    && StoreOk(o, w) && ToldOk(o, w) && ResultsOk(o, w)
    && (forall c | 0 <= c < |w.clients| :: ClientOk(o, w, w.clients[c]))
  }

  lemma EmptyOk(o: Opening, w: World)
    requires Opens(o) && Empty(w)
    ensures Whole(o, w)
  {
    hide Inv, Opens, Playing;
    assert forall c | 0 <= c < |w.clients| :: w.clients[c] in w.clients;
  }

  // ---- One more commit changes none before it ----

  lemma StatesStay(o: Opening, moves: seq<Move>, m: Move, k: nat)
    requires Opens(o) && AllPlayable(moves) && Playing(m) && k <= |moves|
    ensures AllPlayable(moves + [m]) && StateAt(o, moves + [m], k) == StateAt(o, moves, k)
  {
    hide Inv, Opens, Playing, Play;
    assert (moves + [m])[..k] == moves[..k];
  }

  lemma NextState(o: Opening, moves: seq<Move>, m: Move)
    requires Opens(o) && AllPlayable(moves) && Playing(m)
    ensures AllPlayable(moves + [m])
    ensures StateAt(o, moves + [m], |moves| + 1) == Apply(o.setup, StateAt(o, moves, |moves|), m).0
  {
    hide Inv, Opens, Playing, Apply;
    var more := moves + [m];
    assert more[..|moves| + 1] == more && more[..|moves|] == moves && moves[..|moves|] == moves;
  }

  lemma EffectsStay(o: Opening, moves: seq<Move>, m: Move, k: nat)
    requires Opens(o) && AllPlayable(moves) && Playing(m) && k <= |moves|
    ensures AllPlayable(moves + [m]) && EffectsAt(o, moves + [m], k) == EffectsAt(o, moves, k)
  {
    hide Inv, Opens, Playing, StateAt, Apply, Begun;
    StatesStay(o, moves, m, k);
    if k > 0 { StatesStay(o, moves, m, k - 1); }
  }

  lemma OrderGrows(o: Opening, moves: seq<Move>, m: Move)
    requires Opens(o) && Ordered(o, moves) && Playing(m) && Apply(o.setup, StateAt(o, moves, |moves|), m).1.accepted
    ensures Ordered(o, moves + [m])
  {
    hide Inv, Opens, Playing, StateAt, Apply;
    var more := moves + [m];
    StatesStay(o, moves, m, |moves|);
    forall k | 0 <= k < |more| ensures Apply(o.setup, StateAt(o, more, k), more[k]).1.accepted {
      StatesStay(o, moves, m, k);
    }
  }

  lemma HandledStays(o: Opening, moves: seq<Move>, m: Move, gone: bool, result: Result, handling: Handling)
    requires Opens(o) && AllPlayable(moves) && Playing(m) && HandledOk(o, moves, gone, result, handling)
    ensures AllPlayable(moves + [m]) && HandledOk(o, moves + [m], gone, result, handling)
  {
    hide Inv, Opens, Playing, StateAt, MayEnd;
    StatesStay(o, moves, m, if handling.Missing? then 0 else handling.at);
  }

  /** A result is taken exactly when its match can end; once taken, it never is again. */
  lemma ResultTaken(o: Opening, s: Run, move: Move)
    requires Inv(o.setup, s) && Playing(move) && move.call.MatchResultCall?
    ensures Apply(o.setup, s, move).1.accepted <==> MayEnd(s, move.call.matchId, move.call.side)
    ensures Apply(o.setup, s, move).1.accepted ==> !MayEnd(Apply(o.setup, s, move).0, move.call.matchId, move.call.side)
  {
    hide Inv, MayEnd, Fair, EndRound, Used;
    if Apply(o.setup, s, move).1.accepted {
      ResultUses(o.setup, s, move);
      UsedRefuses(o.setup, Apply(o.setup, s, move).0, move.call.matchId, move.call.side);
    }
  }

  // ---- Each step keeps the whole ----

  /** What a client relies on, when only others moved. */
  ghost predicate Same(w: World, r: World) {
    && r.moves == w.moves && r.told == w.told && (w.born ==> r.born) && (w.gone ==> r.gone)
      && |w.results| <= |r.results|
    && (forall e | 0 <= e < |w.results| :: SameMatch(w.results[e], r.results[e]))
  }

  ghost predicate SameMatch(x: Result, y: Result) {
    y.matchId == x.matchId && y.side == x.side && y.publishedAt == x.publishedAt
  }

  lemma ClientStays(o: Opening, w: World, r: World, client: Client)
    requires Opens(o) && AllPlayable(w.moves) && ClientOk(o, w, client) && Same(w, r)
    ensures ClientOk(o, r, client)
  {
    hide Opens, Playing, StateAt, Apply, Inv, MayEnd, EffectsAt;
  }

  /** One client's step, the commits as they were. */
  lemma OneClient(o: Opening, w: World, r: World, c: nat)
    requires Opens(o) && Whole(o, w) && AllPlayable(w.moves) && Same(w, r) && c < |w.clients| == |r.clients|
    requires r.clients == w.clients[c := r.clients[c]] && ClientOk(o, r, r.clients[c]) && !r.clients[c].Carrying?
    requires StoreOk(o, r) && ResultsOk(o, r) && (!r.born ==> r.results == [])
    ensures Whole(o, r)
  {
    hide Opens, Playing, AllPlayable, StateAt, StoreOk, EffectsAt, ResultsOk, ClientOk, Inv;
    forall d | 0 <= d < |r.clients| ensures ClientOk(o, r, r.clients[d]) {
      if d != c { ClientStays(o, w, r, w.clients[d]); }
    }
  }

  lemma Parts(o: Opening, w: World)
    requires Opens(o) && Whole(o, w)
    ensures AllPlayable(w.moves) && StoreOk(o, w) && ToldOk(o, w) && ResultsOk(o, w) && Ordered(o, w.moves)
    ensures forall c | 0 <= c < |w.clients| :: ClientOk(o, w, w.clients[c])
    ensures Sane(w)
  {
    hide Opens, Playing, StateAt, EffectsAt, ResultsOk, Inv;
  }

  lemma StartState(o: Opening)
    requires Opens(o)
    ensures StateAt(o, [], 0) == First(o)
  {
    hide Inv, Opens;
  }

  lemma CreateKeeps(o: Opening, w: World, c: nat)
    requires Opens(o) && Whole(o, w) && Enabled(o, w, Create(c))
    ensures Whole(o, Creating(o, w, c))
  {
    hide Opens, Playing, StateAt, EffectsAt, Inv, First;
    if w.record.None? {
      var r := Creating(o, w, c);
      Parts(o, w);
      StartState(o);
      forall d | 0 <= d < |r.clients| ensures ClientOk(o, r, r.clients[d]) {
        if d != c { ClientStays(o, w, r, w.clients[d]); }
      }
    }
  }

  /** A step that leaves the store alone. */
  lemma StoreSame(o: Opening, w: World, r: World)
    requires Opens(o) && StoreOk(o, w) && r.moves == w.moves && r.record == w.record && r.due == w.due
    requires r.born == w.born && r.gone == w.gone
    ensures StoreOk(o, r)
  {
    hide Opens, Playing, StateAt, Inv, Ordered;
  }

  lemma ResultsSame(o: Opening, w: World, r: World)
    requires Opens(o) && AllPlayable(w.moves) && ResultsOk(o, w) && Same(w, r)
    requires forall e | 0 <= e < |r.results| :: r.results[e].publishedAt <= |r.moves|
    requires forall e | 0 <= e < |r.results| && r.results[e].acked && !r.results[e].dropped ::
      || (e < |w.results| && w.results[e].acked && !w.results[e].dropped
        && r.results[e].handling == w.results[e].handling)
      || (r.results[e].handling.Some? && HandledOk(o, r.moves, r.gone, r.results[e], r.results[e].handling.value))
    ensures ResultsOk(o, r)
  {
    hide Opens, Playing, StateAt, Inv, MayEnd;
  }

  lemma BeginKeeps(o: Opening, w: World, ev: Event)
    requires Opens(o) && Whole(o, w) && Enabled(o, w, ev) && (ev.Begin? || ev.Crash?)
    ensures Sane(w)
    ensures Whole(o, After(o, w, ev))
  {
    hide Opens, Playing, StateAt, EffectsAt, Inv, Ordered, HandledOk;
    Parts(o, w);
    var r := After(o, w, ev);
    StoreSame(o, w, r);
    ResultsSame(o, w, r);
    OneClient(o, w, r, ev.c);
  }

  lemma ResultKeeps(o: Opening, w: World, ev: Event)
    requires Opens(o) && Whole(o, w) && Enabled(o, w, ev) && (ev.Publish? || ev.DropResult?)
    ensures Sane(w)
    ensures Whole(o, After(o, w, ev))
  {
    hide Opens, Playing, StateAt, EffectsAt, Inv, Ordered, HandledOk, ClientOk;
    Parts(o, w);
    var r := After(o, w, ev);
    StoreSame(o, w, r);
    ResultsSame(o, w, r);
    forall d | 0 <= d < |r.clients| ensures ClientOk(o, r, r.clients[d]) {
      ClientStays(o, w, r, w.clients[d]);
    }
  }

  lemma DeliverKeeps(o: Opening, w: World, c: nat, e: nat, connected: set<string>)
    requires Opens(o) && Whole(o, w) && Enabled(o, w, Deliver(c, e, connected))
    ensures Sane(w)
    ensures Whole(o, After(o, w, Deliver(c, e, connected)))
  {
    hide Opens, Playing, StateAt, EffectsAt, Inv, Ordered, HandledOk;
    Parts(o, w);
    var r := After(o, w, Deliver(c, e, connected));
    StoreSame(o, w, r);
    ResultsSame(o, w, r);
    OneClient(o, w, r, c);
  }

  lemma AckKeeps(o: Opening, w: World, c: nat)
    requires Opens(o) && Whole(o, w) && Enabled(o, w, Ack(c))
    ensures Sane(w)
    ensures Whole(o, After(o, w, Ack(c)))
  {
    hide Opens, Playing, StateAt, EffectsAt, Inv, Ordered;
    Parts(o, w);
    var r := After(o, w, Ack(c));
    assert ClientOk(o, w, w.clients[c]);
    StoreSame(o, w, r);
    ResultsSame(o, w, r);
    OneClient(o, w, r, c);
  }

  lemma GoneKeeps(o: Opening, w: World, ev: Event)
    requires Opens(o) && Whole(o, w) && Enabled(o, w, ev) && (ev.Forget? || ev.Expire?)
    ensures Sane(w)
    ensures Whole(o, After(o, w, ev))
  {
    hide Opens, Playing, StateAt, EffectsAt, Inv, Ordered;
    Parts(o, w);
    var r := After(o, w, ev);
    ResultsSame(o, w, r);
    if ev.Forget? {
      assert ClientOk(o, w, w.clients[ev.c]);
      OneClient(o, w, r, ev.c);
    } else {
      forall d | 0 <= d < |r.clients| ensures ClientOk(o, r, r.clients[d]) {
        ClientStays(o, w, r, w.clients[d]);
      }
    }
  }

  // ---- Reading ----

  /** A result refused could not be taken on the state that refused it. */
  lemma RefusedHandled(o: Opening, w: World, job: Job, move: Move)
    requires Opens(o) && StoreOk(o, w) && AllPlayable(w.moves) && ResultsOk(o, w) && JobOk(w, job) && job.entry.Some?
    requires Playing(move) && move.call == job.call
    requires w.record.Some? && Inv(o.setup, w.record.value) && !Apply(o.setup, w.record.value, move).1.accepted
    ensures HandledOk(o, w.moves, w.gone, w.results[job.entry.value], Declined(|w.moves|))
  {
    hide Opens, Playing, AllPlayable, StateAt, Inv, MayEnd, Apply, Ordered;
    ResultTaken(o, w.record.value, move);
    assert w.record.value == StateAt(o, w.moves, |w.moves|);
  }

  lemma ReadKeeps(o: Opening, w: World, c: nat, move: Move)
    requires Opens(o) && Whole(o, w) && Enabled(o, w, Read(c, move))
    ensures Whole(o, Reading(o, w, c, move))
  {
    hide Opens, Playing, AllPlayable, StateAt, EffectsAt, Inv, Apply, Ordered, ResultsOk, MayEnd;
    Parts(o, w);
    var r, job := Reading(o, w, c, move), w.clients[c].job;
    assert ClientOk(o, w, w.clients[c]);
    StoreSame(o, w, r);
    ResultsTold(o, w, r);
    if w.record.Some? && job.entry.Some? && !Apply(o.setup, w.record.value, move).1.accepted {
      RefusedHandled(o, w, job, move);
    }
    OneClient(o, w, r, c);
  }

  // ---- Carrying out ----

  lemma ToldAdd(told: seq<(nat, nat)>, k: nat, d: nat, x: nat)
    ensures ToldOf(told + [(k, d)], x) == ToldOf(told, x) + if x == k then [d] else []
  {
    assert (told + [(k, d)])[..|told|] == told;
  }

  lemma CarrierStays(o: Opening, w: World, r: World, client: Client, k: nat, d: nat)
    requires Opens(o) && AllPlayable(w.moves) && ClientOk(o, w, client) && r.told == w.told + [(k, d)]
    requires r == w.(told := r.told, clients := r.clients) && (client.Carrying? ==> client.commit != k)
    ensures ClientOk(o, r, client)
  {
    hide Opens, Playing, StateAt, Apply, Inv, MayEnd, EffectsAt, HandledOk, ToldOf;
    if client.Carrying? { ToldAdd(w.told, k, d, client.commit); }
  }

  lemma CarryKeeps(o: Opening, w: World, c: nat)
    requires Opens(o) && Whole(o, w) && Enabled(o, w, CarryOut(c))
    ensures Sane(w)
    ensures Whole(o, After(o, w, CarryOut(c)))
  {
    hide Opens, Playing, AllPlayable, StateAt, EffectsAt, Inv, Ordered, HandledOk, ResultsOk, ToldOf;
    Parts(o, w);
    var client, r := w.clients[c], After(o, w, CarryOut(c));
    assert ClientOk(o, w, client) && w.clients[c] in w.clients;
    StoreSame(o, w, r);
    if client.done < |EffectsAt(o, w.moves, client.commit)| {
      forall x: nat ensures ToldOf(r.told, x) == ToldOf(w.told, x) + if x == client.commit then [client.done] else [] {
        ToldAdd(w.told, client.commit, client.done, x);
      }
      forall d | 0 <= d < |r.clients| ensures ClientOk(o, r, r.clients[d]) {
        if d != c { CarrierStays(o, w, r, w.clients[d], client.commit, client.done); }
      }
      ResultsTold(o, w, r);
    } else {
      ResultsTold(o, w, r);
      OneClient(o, w, r, c);
    }
  }

  lemma ResultsTold(o: Opening, w: World, r: World)
    requires Opens(o) && AllPlayable(w.moves) && ResultsOk(o, w) && r == w.(told := r.told, clients := r.clients)
    ensures ResultsOk(o, r)
  {
    hide Opens, Playing, StateAt, Inv, HandledOk;
  }

  // ---- Writing ----

  /** One more commit: what clients rely on of those before it stays. */
  lemma ClientGrows(o: Opening, w: World, r: World, m: Move, client: Client)
    requires Opens(o) && AllPlayable(w.moves) && Playing(m) && r.moves == w.moves + [m] && AllPlayable(r.moves)
    requires r == w.(record := r.record, due := r.due, moves := r.moves, clients := r.clients) && ClientOk(o, w, client)
    ensures ClientOk(o, r, client)
  {
    hide Opens, Playing, AllPlayable, StateAt, Apply, Inv, MayEnd, EffectsAt, HandledOk, ToldOf;
    match client
    case Carrying(job, k, _) =>
      EffectsStay(o, w.moves, m, k);
      if job.entry.Some? { HandledStays(o, w.moves, m, w.gone, w.results[job.entry.value], Committed(k)); }
    case Acking(e, handling) => HandledStays(o, w.moves, m, w.gone, w.results[e], handling);
    case _ =>
  }

  /** A result's commit handles it on what it left, where it cannot be taken again. */
  lemma CommitHandled(o: Opening, w: World, r: World, job: Job, m: Move)
    requires Opens(o) && StoreOk(o, w) && AllPlayable(w.moves) && ResultsOk(o, w) && Playing(m)
      && r.moves == w.moves + [m]
    requires AllPlayable(r.moves)
    requires JobOk(w, job) && job.entry.Some? && m.call == job.call && r.results == w.results
    requires Apply(o.setup, StateAt(o, w.moves, |w.moves|), m).1.accepted
    ensures HandledOk(o, r.moves, r.gone, r.results[job.entry.value], Committed(|w.moves| + 1))
  {
    hide Opens, Playing, AllPlayable, StateAt, Inv, MayEnd, Apply, Ordered;
    ResultTaken(o, StateAt(o, w.moves, |w.moves|), m);
    NextState(o, w.moves, m);
    assert !MayEnd(StateAt(o, r.moves, |r.moves|), m.call.matchId, m.call.side);
  }

  lemma CommitStore(o: Opening, w: World, r: World, s: Run, m: Move)
    requires Opens(o) && StoreOk(o, w) && w.record == Some(s) && Inv(o.setup, s) && Playing(m)
    requires Apply(o.setup, s, m).1.accepted
    requires var next := Apply(o.setup, s, m).0;
      r == w.(record := Some(next), due := DueOf(next), moves := w.moves + [m], clients := r.clients)
    ensures StoreOk(o, r) && AllPlayable(r.moves)
  {
    hide Opens, Playing, AllPlayable, StateAt, Inv, Apply;
    OrderGrows(o, w.moves, m);
    NextState(o, w.moves, m);
  }

  lemma CommitTold(o: Opening, w: World, r: World, c: nat, m: Move)
    requires Opens(o) && AllPlayable(w.moves) && ToldOk(o, w) && Playing(m) && r.moves == w.moves + [m]
    requires AllPlayable(r.moves)
    requires c < |w.clients| == |r.clients| && r.clients == w.clients[c := r.clients[c]] && r.told == w.told
    requires r.results == w.results && r.born == w.born
    requires r.clients[c].Carrying? && r.clients[c].commit == |w.moves| + 1
    requires forall d | 0 <= d < |w.clients| && w.clients[d].Carrying? :: w.clients[d].commit <= |w.moves|
    ensures ToldOk(o, r)
  {
    hide Opens, Playing, AllPlayable, StateAt, EffectsAt, Inv, ToldOf;
    forall k: nat | k <= |r.moves| ensures |ToldOf(r.told, k)| <= |EffectsAt(o, r.moves, k)| {
      if k <= |w.moves| { EffectsStay(o, w.moves, m, k); }
    }
  }

  lemma CommitResults(o: Opening, w: World, r: World, m: Move)
    requires Opens(o) && AllPlayable(w.moves) && ResultsOk(o, w) && Playing(m) && r.moves == w.moves + [m]
    requires AllPlayable(r.moves)
    requires r.results == w.results && r.gone == w.gone
    ensures ResultsOk(o, r)
  {
    hide Opens, Playing, AllPlayable, StateAt, Inv, HandledOk;
    forall e | 0 <= e < |r.results| && r.results[e].acked && !r.results[e].dropped
      ensures r.results[e].handling.Some?
      ensures HandledOk(o, r.moves, r.gone, r.results[e], r.results[e].handling.value)
    {
      HandledStays(o, w.moves, m, w.gone, r.results[e], r.results[e].handling.value);
    }
  }

  lemma CommitClient(o: Opening, w: World, c: nat)
    requires Opens(o) && Whole(o, w) && Enabled(o, w, Write(c)) && w.record == Some(w.clients[c].raw)
    requires AllPlayable(Writing(o, w, c).moves)
    ensures var r := Writing(o, w, c); ClientOk(o, r, r.clients[c])
  {
    hide Opens, Playing, AllPlayable, StateAt, EffectsAt, Inv, Apply, Ordered, ToldOf, HandledOk;
    Parts(o, w);
    var r, client := Writing(o, w, c), w.clients[c];
    assert ClientOk(o, w, client);
    if client.job.entry.Some? { CommitHandled(o, w, r, client.job, client.move); }
  }

  lemma WriteKeeps(o: Opening, w: World, c: nat)
    requires Opens(o) && Whole(o, w) && Enabled(o, w, Write(c))
    ensures Whole(o, Writing(o, w, c))
  {
    hide Opens, Playing, AllPlayable, StateAt, EffectsAt, Inv, Apply, Ordered, HandledOk, ResultsOk, ToldOk, StoreOk,
      ClientOk;
    Parts(o, w);
    var r, client := Writing(o, w, c), w.clients[c];
    if w.record == Some(client.raw) {
      HoldingIs(o, w, client) by { assert ClientOk(o, w, w.clients[c]); }
      CommitStore(o, w, r, client.raw, client.move);
      CommitClient(o, w, c);
      CarriersBefore(o, w);
      CommitTold(o, w, r, c, client.move);
      CommitResults(o, w, r, client.move);
      forall d | 0 <= d < |r.clients| ensures ClientOk(o, r, r.clients[d]) {
        if d != c { ClientGrows(o, w, r, client.move, w.clients[d]); }
      }
    } else {
      RetryKeeps(o, w, c);
    }
  }

  lemma HoldingIs(o: Opening, w: World, client: Client)
    requires Opens(o) && AllPlayable(w.moves) && ClientOk(o, w, client) && client.Holding?
    ensures Inv(o.setup, client.raw) && Playing(client.move) && Apply(o.setup, client.raw, client.move).1.accepted
  {
    hide Opens, Playing, AllPlayable, StateAt, EffectsAt, Inv, Apply;
  }

  lemma CarriersBefore(o: Opening, w: World)
    requires Opens(o) && Whole(o, w)
    ensures forall d | 0 <= d < |w.clients| && w.clients[d].Carrying? :: w.clients[d].commit <= |w.moves|
  {
    hide Opens, Playing, AllPlayable, StateAt, EffectsAt, Inv, Apply, Ordered, HandledOk, ResultsOk, StoreOk, ClientOk;
    Parts(o, w);
    forall d | 0 <= d < |w.clients| && w.clients[d].Carrying? ensures w.clients[d].commit <= |w.moves| {
      assert w.clients[d] in w.clients;
    }
  }

  lemma RetryKeeps(o: Opening, w: World, c: nat)
    requires Opens(o) && Whole(o, w) && Enabled(o, w, Write(c)) && w.record != Some(w.clients[c].raw)
    ensures Whole(o, Writing(o, w, c))
  {
    hide Opens, Playing, AllPlayable, StateAt, EffectsAt, Inv, Apply, Ordered, HandledOk, ResultsOk;
    Parts(o, w);
    var r := Writing(o, w, c);
    assert ClientOk(o, w, w.clients[c]);
    StoreSame(o, w, r);
    ResultsTold(o, w, r);
    OneClient(o, w, r, c);
  }

  // ---- Every step, and every history ----

  lemma StepKeeps(o: Opening, w: World, ev: Event)
    requires Opens(o) && Whole(o, w) && Enabled(o, w, ev)
    ensures Sane(w)
    ensures Whole(o, After(o, w, ev))
  {
    hide Opens, Playing, AllPlayable, StateAt, EffectsAt, Inv, Apply, Whole, Creating, Reading, Writing, Carried;
    Parts(o, w);
    match ev {
      case Create(c) => CreateKeeps(o, w, c);
      case Begin(_, _) => BeginKeeps(o, w, ev);
      case Publish(_, _) => ResultKeeps(o, w, ev);
      case Deliver(c, e, connected) => DeliverKeeps(o, w, c, e, connected);
      case DropResult(_) => ResultKeeps(o, w, ev);
      case Read(c, move) => ReadKeeps(o, w, c, move);
      case Write(c) => WriteKeeps(o, w, c);
      case CarryOut(c) => CarryKeeps(o, w, c);
      case Ack(c) => AckKeeps(o, w, c);
      case Forget(_) => GoneKeeps(o, w, ev);
      case Crash(_) => BeginKeeps(o, w, ev);
      case Expire => GoneKeeps(o, w, ev);
    }
  }

  /** What the steps take for granted of a record or of what a replica holds is true of every state reached. */
  lemma NothingTakenForGranted(o: Opening, w: World)
    requires Opens(o) && Whole(o, w)
    ensures Sane(w)
    ensures w.record.Some? ==> Inv(o.setup, w.record.value)
    ensures forall c | 0 <= c < |w.clients| && w.clients[c].Holding? ::
      Playing(w.clients[c].move) && Inv(o.setup, w.clients[c].raw)
    ensures forall c | 0 <= c < |w.clients| && w.clients[c].Acking? :: w.clients[c].entry < |w.results|
  {
    hide Opens, Playing, AllPlayable, EffectsAt, Inv, Apply, ToldOk, ResultsOk;
    Parts(o, w);
    forall c | 0 <= c < |w.clients| && w.clients[c].Holding?
      ensures Playing(w.clients[c].move) && Inv(o.setup, w.clients[c].raw)
    {
      assert ClientOk(o, w, w.clients[c]);
    }
    forall c | 0 <= c < |w.clients| && w.clients[c].Acking? ensures w.clients[c].entry < |w.results| {
      assert ClientOk(o, w, w.clients[c]);
    }
  }

  /** Any interleaving of the replicas' steps. */
  ghost predicate Happens(o: Opening, w: World, evs: seq<Event>)
    requires Opens(o)
    decreases |evs|
  {
    evs == [] || (Sane(w) && Enabled(o, w, evs[0]) && Happens(o, After(o, w, evs[0]), evs[1..]))
  }

  ghost function Later(o: Opening, w: World, evs: seq<Event>): World
    requires Opens(o) && Happens(o, w, evs)
    decreases |evs|
  {
    if evs == [] then w else Later(o, After(o, w, evs[0]), evs[1..])
  }

  lemma {:induction false} AlwaysWhole(o: Opening, w: World, evs: seq<Event>)
    requires Opens(o) && Whole(o, w) && Happens(o, w, evs)
    ensures Whole(o, Later(o, w, evs))
    decreases |evs|
  {
    hide Opens, Whole, After, Enabled, Sane;
    if evs != [] {
      StepKeeps(o, w, evs[0]);
      AlwaysWhole(o, After(o, w, evs[0]), evs[1..]);
    }
  }

  /**
   * However the replicas interleave: a run that has not expired is what one total order of accepted transitions made of
   * its start; its deadline entry is the record's deadline, absent when it has none; no commit's effects are carried
   * out twice or out of order.
   */
  lemma OneTotalOrder(o: Opening, w: World, evs: seq<Event>)
    requires Opens(o) && Empty(w) && Happens(o, w, evs)
    ensures var r := Later(o, w, evs);
      && Ordered(o, r.moves)
      && (r.born && !r.gone ==> r.record == Some(StateAt(o, r.moves, |r.moves|)) && r.due == DueOf(r.record.value))
      && (forall i, j | 0 <= i < j < |r.told| :: r.told[i] != r.told[j])
      && (forall k: nat ::
        Counting(ToldOf(r.told, k)) && (k <= |r.moves| ==> |ToldOf(r.told, k)| <= |EffectsAt(o, r.moves, k)|))
  {
    hide Opens, Playing, AllPlayable, StateAt, EffectsAt, Inv, Apply, ResultsOk, ClientOk, Empty, ToldOf;
    EmptyOk(o, w);
    AlwaysWhole(o, w, evs);
    var r := Later(o, w, evs);
    Parts(o, r);
    forall i, j | 0 <= i < j < |r.told| ensures r.told[i] != r.told[j] { NeverTwice(r.told, i, j); }
  }

  /** Effects counted in order are carried out once each. */
  lemma NeverTwice(told: seq<(nat, nat)>, i: int, j: int)
    requires 0 <= i < j < |told| && forall k: nat :: Counting(ToldOf(told, k))
    ensures told[i] != told[j]
  {
    var k := told[i].0;
    if told[j].0 == k {
      ToldPlaces(told, k, i);
      ToldPlaces(told, k, j);
      ToldGrows(told, k, i + 1, j);
    }
  }

  /** The i-th told of a commit is the one after those of it told before. */
  lemma {:induction false} ToldPlaces(told: seq<(nat, nat)>, k: nat, i: nat)
    requires i < |told| && told[i].0 == k
    ensures var n := |ToldOf(told[..i], k)|; n < |ToldOf(told, k)| && ToldOf(told, k)[n] == told[i].1
    decreases |told|
  {
    if i < |told| - 1 {
      ToldPlaces(told[..|told| - 1], k, i);
      assert told[..|told| - 1][..i] == told[..i];
    } else {
      assert told[..|told| - 1] == told[..i];
    }
  }

  lemma {:induction false} ToldGrows(told: seq<(nat, nat)>, k: nat, i: nat, j: nat)
    requires 0 < i <= j <= |told| && told[i - 1].0 == k
    ensures |ToldOf(told[..i - 1], k)| < |ToldOf(told[..j], k)|
    decreases j
  {
    assert told[..j][..j - 1] == told[..j - 1];
    if i < j { ToldGrows(told, k, i, j - 1); }
  }

  /** Later states of one order are later moments of the run. */
  lemma StatesOnward(o: Opening, moves: seq<Move>, i: nat, j: nat)
    requires Opens(o) && AllPlayable(moves) && i <= j <= |moves|
    ensures Onward(StateAt(o, moves, i), StateAt(o, moves, j))
  {
    hide Opens, Playing, Inv, StateAt, Onward, Frozen, Told, Finishes, Play;
    PlaySplit(o, moves, i, j);
    PlayFollows(o.setup, StateAt(o, moves, i), moves[i..j]);
  }

  /**
   * A result of a launched match, acknowledged and not given up on, while the run lives. It was handled on a state that
   * the order went through, not before its publishing, and there its match had been decided if and only if the
   * character select was over; decided then, it stays decided.
   */
  lemma NoResultLost(o: Opening, w: World, evs: seq<Event>, e: nat)
    requires Opens(o) && Empty(w) && Happens(o, w, evs)
    requires var r := Later(o, w, evs); e < |r.results| && r.results[e].acked && !r.results[e].dropped && !r.gone
    requires var r := Later(o, w, evs);
      AllPlayable(r.moves) && r.results[e].publishedAt <= |r.moves|
      && HasLaunched(StateAt(o, r.moves, r.results[e].publishedAt), r.results[e].matchId) && Proper(r.results[e].side)
    ensures var r := Later(o, w, evs);
      var id, handling := r.results[e].matchId, r.results[e].handling;
      && handling.Some? && !handling.value.Missing?
      && var k := handling.value.at;
         && r.results[e].publishedAt <= k <= |r.moves|
           && (handling.value.Committed? ==> TakesResult(r.moves, k, r.results[e]))
         && (Used(StateAt(o, r.moves, k), id) <==> StateAt(o, r.moves, k).phase != CharacterSelect)
         && (StateAt(o, r.moves, k).phase != CharacterSelect ==> Used(StateAt(o, r.moves, |r.moves|), id))
  {
    hide Opens, Playing, AllPlayable, StateAt, EffectsAt, Inv, Apply, ClientOk, Empty, ToldOf, Onward, Used, MayEnd,
      HasLaunched;
    EmptyOk(o, w);
    AlwaysWhole(o, w, evs);
    var r := Later(o, w, evs);
    Parts(o, r);
    var result := r.results[e];
    var k := result.handling.value.at;
    StatesOnward(o, r.moves, result.publishedAt, k);
    LaunchedStays(StateAt(o, r.moves, result.publishedAt), StateAt(o, r.moves, k), result.matchId);
    CannotEnd(o.setup, StateAt(o, r.moves, k), result.matchId, result.side);
    UsedLater(o, r.moves, k, |r.moves|, result.matchId);
  }

  /**
   * What a match's result may ask of its run's past: when it was published, the order had got no further than it has.
   */
  lemma PublishedBefore(o: Opening, w: World, evs: seq<Event>, e: nat)
    requires Opens(o) && Empty(w) && Happens(o, w, evs) && e < |Later(o, w, evs).results|
    ensures var r := Later(o, w, evs); AllPlayable(r.moves) && r.results[e].publishedAt <= |r.moves|
  {
    hide Opens, Playing, AllPlayable, StateAt, EffectsAt, Inv, Apply, ClientOk, Empty, ToldOf;
    EmptyOk(o, w);
    AlwaysWhole(o, w, evs);
    Parts(o, Later(o, w, evs));
  }

  lemma UsedLater(o: Opening, moves: seq<Move>, i: nat, j: nat, id: MatchId)
    requires Opens(o) && AllPlayable(moves) && i <= j <= |moves|
    ensures Used(StateAt(o, moves, i), id) ==> Used(StateAt(o, moves, j), id)
  {
    hide Opens, Playing, AllPlayable, Inv, StateAt, Used;
    StatesOnward(o, moves, i, j);
    if Used(StateAt(o, moves, i), id) {
      OnwardRises(StateAt(o, moves, i), StateAt(o, moves, j));
      UsedStays(StateAt(o, moves, i), StateAt(o, moves, j), id);
    }
  }

  lemma OnwardRises(s: Run, r: Run)
    requires Onward(s, r)
    ensures s.round <= r.round
  {
    RoundsRise(s, r);
  }

  /** Delivered however often, by however many replicas: a match's result is committed once at most. */
  lemma ResultCommittedOnce(o: Opening, moves: seq<Move>, i: nat, j: nat)
    requires Opens(o) && Ordered(o, moves) && i < j < |moves|
    requires moves[i].call.MatchResultCall? && moves[j].call.MatchResultCall?
    ensures moves[i].call.matchId != moves[j].call.matchId
  {
    hide Opens, Playing, Inv, Apply, Play, StateAt;
    assert Playing(moves[i]) && Playing(moves[j]) by { assert moves[i] in moves && moves[j] in moves; }
    var between := moves[i + 1..j];
    assert AllPlayable(between);
    StepState(o, moves, i);
    PlaySplit(o, moves, i + 1, j);
    assert Apply(o.setup, StateAt(o, moves, i), moves[i]).1.accepted
      && Apply(o.setup, StateAt(o, moves, j), moves[j]).1.accepted;
    if moves[i].call.matchId == moves[j].call.matchId {
      ResultTakenOnce(o.setup, StateAt(o, moves, i), moves[i], between, moves[j]);
    }
  }

  lemma StepState(o: Opening, moves: seq<Move>, i: nat)
    requires Opens(o) && AllPlayable(moves) && i < |moves|
    ensures Playing(moves[i]) && StateAt(o, moves, i + 1) == Apply(o.setup, StateAt(o, moves, i), moves[i]).0
  {
    hide Opens, Playing, Inv, Apply;
    assert moves[i] in moves;
    assert moves[..i + 1][..i] == moves[..i];
  }

  /** The run after more commits is what they make of the run before them. */
  lemma {:induction false} PlaySplit(o: Opening, moves: seq<Move>, i: nat, j: nat)
    requires Opens(o) && AllPlayable(moves) && i <= j <= |moves|
    ensures AllPlayable(moves[i..j]) && Play(o.setup, StateAt(o, moves, i), moves[i..j]).0 == StateAt(o, moves, j)
    decreases j
  {
    hide Opens, Playing, Inv, Apply, StateAt;
    if i < j {
      PlaySplit(o, moves, i, j - 1);
      StepState(o, moves, j - 1);
      assert moves[i..j][..j - i - 1] == moves[i..j - 1];
      assert AllPlayable(moves[i..j]);
    }
  }
}
