/**
 * What became of every commit's effects (ArenaService.cs, lines 251-298 and 337-369): all of them carried out, unless
 * the one replica that has them is still at it or crashed over them; and a result is acknowledged only after its own.
 */
module ArenaEffects {
  import opened Options
  import opened ArenaTransitions
  import opened ArenaCalls
  import opened ArenaWholeRun
  import opened ArenaStore

  /** Every effect of a commit was carried out. */
  ghost predicate AllTold(o: Opening, told: seq<(nat, nat)>, moves: seq<Move>, k: nat)
    requires Opens(o) && AllPlayable(moves)
  {
    k <= |moves| && |ToldOf(told, k)| == |EffectsAt(o, moves, k)|
  }

  ghost predicate Carries(w: World, c: int, k: nat) {
    0 <= c < |w.clients| && w.clients[c].Carrying? && w.clients[c].commit == k
  }

  ghost predicate Accounted(o: Opening, w: World, k: nat)
    requires Opens(o) && AllPlayable(w.moves)
  {
    AllTold(o, w.told, w.moves, k) || (exists c :: Carries(w, c, k)) || k in w.cut
  }

  ghost predicate AckOk(o: Opening, w: World, client: Client)
    requires Opens(o) && AllPlayable(w.moves)
  {
    client.Acking? && client.handling.Committed? ==> AllTold(o, w.told, w.moves, client.handling.at)
  }

  ghost predicate ResultOk(o: Opening, w: World, result: Result)
    requires Opens(o) && AllPlayable(w.moves)
  {
    result.handling.Some? && result.handling.value.Committed? ==> AllTold(o, w.told, w.moves, result.handling.value.at)
  }

  ghost predicate CarriedOk(o: Opening, w: World)
    requires Opens(o) && AllPlayable(w.moves)
  {
    && (w.born ==> forall k: nat | k <= |w.moves| :: Accounted(o, w, k))
    && (forall c | 0 <= c < |w.clients| :: AckOk(o, w, w.clients[c]))
    && (forall e | 0 <= e < |w.results| :: ResultOk(o, w, w.results[e]))
  }

  // ---- A step that carries nothing out ----

  /** No commit and no effect: what was carried out is as it was. */
  lemma SameTold(o: Opening, w: World, r: World)
    requires Opens(o) && AllPlayable(w.moves) && r.told == w.told && r.moves == w.moves
    ensures forall k: nat :: AllTold(o, r.told, r.moves, k) == AllTold(o, w.told, w.moves, k)
  {
    hide Opens, Playing, Inv, EffectsAt, ToldOf;
  }

  /** One replica moved, which was carrying nothing out, or crashed. */
  lemma OthersCarry(o: Opening, w: World, r: World, c: nat)
    requires Opens(o) && AllPlayable(w.moves) && CarriedOk(o, w) && r.told == w.told && r.moves == w.moves
    requires c < |w.clients| == |r.clients| && r.clients == w.clients[c := r.clients[c]] && r.born == w.born
    requires w.cut <= r.cut && (w.clients[c].Carrying? ==> w.clients[c].commit in r.cut)
    requires AckOk(o, r, r.clients[c]) && forall e | 0 <= e < |r.results| :: ResultOk(o, r, r.results[e])
    ensures CarriedOk(o, r)
  {
    hide Opens, Playing, Inv, AllPlayable, AllTold;
    forall k: nat | r.born && k <= |r.moves| ensures Accounted(o, r, k) {
      assert Accounted(o, w, k);
      if d :| Carries(w, d, k) {
        if d != c { assert Carries(r, d, k); }
      }
    }
    forall d | 0 <= d < |r.clients| ensures AckOk(o, r, r.clients[d]) {
      if d != c { assert AckOk(o, w, w.clients[d]); }
    }
  }

  lemma SameReplicas(o: Opening, w: World, r: World)
    requires Opens(o) && AllPlayable(w.moves) && CarriedOk(o, w) && r.told == w.told && r.moves == w.moves
    requires r.clients == w.clients && r.born == w.born && r.cut == w.cut
    requires forall e | 0 <= e < |r.results| :: ResultOk(o, r, r.results[e])
    ensures CarriedOk(o, r)
  {
    hide Opens, Playing, Inv, AllPlayable, AllTold;
    forall k: nat | r.born && k <= |r.moves| ensures Accounted(o, r, k) {
      assert Accounted(o, w, k);
      if d :| Carries(w, d, k) { assert Carries(r, d, k); }
    }
    forall d | 0 <= d < |r.clients| ensures AckOk(o, r, r.clients[d]) { assert AckOk(o, w, w.clients[d]); }
  }

  lemma QuietCarried(o: Opening, w: World, ev: Event)
    requires Opens(o) && Whole(o, w) && Enabled(o, w, ev) && AllPlayable(w.moves) && CarriedOk(o, w)
    requires ev.Begin? || ev.Deliver? || ev.Forget? || ev.Crash?
    ensures Sane(w)
    ensures AllPlayable(After(o, w, ev).moves) && CarriedOk(o, After(o, w, ev))
  {
    hide Opens, Playing, Inv, Whole, EffectsAt, AllTold, CarriedOk, AllPlayable, StoreOk, ToldOk, ResultsOk, ClientOk;
    Parts(o, w);
    Promised(o, w);
    OthersCarry(o, w, After(o, w, ev), ev.c);
  }

  /** A result read, or acknowledged: what it was handled by stays with it. */
  lemma HandledCarried(o: Opening, w: World, ev: Event)
    requires Opens(o) && Whole(o, w) && Enabled(o, w, ev) && AllPlayable(w.moves) && CarriedOk(o, w)
    requires ev.Ack? || ev.Read?
    ensures Sane(w)
    ensures AllPlayable(After(o, w, ev).moves) && CarriedOk(o, After(o, w, ev))
  {
    hide Opens, Playing, Inv, Whole, EffectsAt, Apply, AllTold, CarriedOk, AllPlayable, StoreOk, ToldOk, ResultsOk,
      ClientOk;
    Parts(o, w);
    Promised(o, w);
    OthersCarry(o, w, After(o, w, ev), ev.c);
  }

  /** What is promised of each replica and each result. */
  lemma Promised(o: Opening, w: World)
    requires Opens(o) && AllPlayable(w.moves) && CarriedOk(o, w)
    ensures forall c | 0 <= c < |w.clients| :: AckOk(o, w, w.clients[c])
    ensures forall e | 0 <= e < |w.results| :: ResultOk(o, w, w.results[e])
  {
  }

  lemma StillCarried(o: Opening, w: World, ev: Event)
    requires Opens(o) && Whole(o, w) && Enabled(o, w, ev) && AllPlayable(w.moves) && CarriedOk(o, w)
    requires ev.Publish? || ev.DropResult? || ev.Expire?
    ensures Sane(w)
    ensures AllPlayable(After(o, w, ev).moves) && CarriedOk(o, After(o, w, ev))
  {
    hide Opens, Playing, Inv, Whole, EffectsAt, AllTold, CarriedOk, AllPlayable, StoreOk, ToldOk, ResultsOk, ClientOk;
    Parts(o, w);
    Promised(o, w);
    SameReplicas(o, w, After(o, w, ev));
  }

  // ---- A commit, and its effects ----

  /** The start's effects are its replica's to carry out. */
  lemma CreatedCarried(o: Opening, w: World, c: nat)
    requires Opens(o) && Whole(o, w) && Enabled(o, w, Create(c)) && AllPlayable(w.moves) && CarriedOk(o, w)
    ensures CarriedOk(o, Creating(o, w, c))
  {
    hide Opens, Playing, Inv, EffectsAt, AllTold, First, Ordered;
    var r := Creating(o, w, c);
    if w.record.None? {
      assert Carries(r, c, 0);
      forall d | 0 <= d < |r.clients| ensures AckOk(o, r, r.clients[d]) {
        if d != c { assert AckOk(o, w, w.clients[d]); }
      }
    }
  }

  lemma ToldStays(o: Opening, w: World, m: Move, k: nat)
    requires Opens(o) && AllPlayable(w.moves) && Playing(m) && AllTold(o, w.told, w.moves, k)
    ensures AllPlayable(w.moves + [m]) && AllTold(o, w.told, w.moves + [m], k)
  {
    hide Opens, Playing, Inv, EffectsAt, ToldOf;
    EffectsStay(o, w.moves, m, k);
  }

  /** A commit's effects are its own replica's to carry out; those before it stand as they did. */
  lemma WrittenCarried(o: Opening, w: World, c: nat)
    requires Opens(o) && Whole(o, w) && Enabled(o, w, Write(c)) && AllPlayable(w.moves) && CarriedOk(o, w)
    ensures AllPlayable(Writing(o, w, c).moves) && CarriedOk(o, Writing(o, w, c))
  {
    hide Opens, Playing, Inv, Whole, EffectsAt, AllTold, AllPlayable, Apply, CarriedOk;
    var r, client := Writing(o, w, c), w.clients[c];
    if w.record == Some(client.raw) {
      CommitPlayable(w.moves, client.move);
      CommitCarried(o, w, r, c, client.move);
    } else {
      Promised(o, w);
      OthersCarry(o, w, r, c);
    }
  }

  lemma CommitPlayable(moves: seq<Move>, m: Move)
    requires AllPlayable(moves) && Playing(m)
    ensures AllPlayable(moves + [m])
  {
    hide Playing;
  }

  lemma CommitCarried(o: Opening, w: World, r: World, c: nat, m: Move)
    requires Opens(o) && AllPlayable(w.moves) && CarriedOk(o, w) && Playing(m) && r.moves == w.moves + [m]
    requires AllPlayable(r.moves) && r.told == w.told && r.results == w.results && r.born == w.born && r.cut == w.cut
    requires c < |w.clients| == |r.clients| && r.clients == w.clients[c := r.clients[c]] && !w.clients[c].Carrying?
    requires r.clients[c].Carrying? && r.clients[c].commit == |w.moves| + 1
    ensures CarriedOk(o, r)
  {
    hide Opens, Playing, Inv, AllPlayable, EffectsAt, AllTold;
    forall k: nat | AllTold(o, w.told, w.moves, k) ensures AllTold(o, r.told, r.moves, k) { ToldStays(o, w, m, k); }
    forall k: nat | r.born && k <= |r.moves| ensures Accounted(o, r, k) {
      if k == |r.moves| {
        assert Carries(r, c, k);
      } else {
        assert Accounted(o, w, k);
        if d :| Carries(w, d, k) { assert Carries(r, d, k); }
      }
    }
    forall d | 0 <= d < |r.clients| ensures AckOk(o, r, r.clients[d]) {
      if d != c { assert AckOk(o, w, w.clients[d]); }
    }
    forall e | 0 <= e < |r.results| ensures ResultOk(o, r, r.results[e]) { assert ResultOk(o, w, w.results[e]); }
  }

  lemma CarrierTold(o: Opening, w: World, client: Client)
    requires Opens(o) && AllPlayable(w.moves) && ClientOk(o, w, client) && client.Carrying?
    ensures client.commit <= |w.moves| && |ToldOf(w.told, client.commit)| == client.done
    ensures client.done <= |EffectsAt(o, w.moves, client.commit)|
  {
    hide Opens, Playing, AllPlayable, Inv, EffectsAt, ToldOf, HandledOk;
  }

  /** A replica carrying a commit out, with what it has carried out told. */
  ghost predicate AtWork(o: Opening, w: World, c: nat)
    requires Opens(o) && AllPlayable(w.moves)
  {
    && c < |w.clients| && w.clients[c].Carrying? && w.clients[c].commit <= |w.moves|
    && |ToldOf(w.told, w.clients[c].commit)| == w.clients[c].done
    && w.clients[c].done <= |EffectsAt(o, w.moves, w.clients[c].commit)|
  }

  lemma IsAtWork(o: Opening, w: World, c: nat)
    requires Opens(o) && Whole(o, w) && Enabled(o, w, CarryOut(c)) && AllPlayable(w.moves)
    ensures AtWork(o, w, c)
  {
    hide Opens, Playing, AllPlayable, Inv, EffectsAt, ToldOf, StoreOk, ToldOk, ResultsOk, HandledOk;
    Parts(o, w);
    CarrierTold(o, w, w.clients[c]);
  }

  /** A replica is done with a commit only once it has carried out all of its effects. */
  lemma DoneIsTold(o: Opening, w: World, c: nat)
    requires Opens(o) && AllPlayable(w.moves) && AtWork(o, w, c)
    ensures var r := Carried(o, w, c);
      r.moves == w.moves && (!r.clients[c].Carrying? ==> AllTold(o, r.told, w.moves, w.clients[c].commit))
  {
    hide Opens, Playing, Inv, EffectsAt, ToldOf, AllPlayable;
  }

  lemma ToldMore(o: Opening, w: World, c: nat, k: nat)
    requires Opens(o) && AllPlayable(w.moves) && AtWork(o, w, c) && AllTold(o, w.told, w.moves, k)
    ensures AllTold(o, Carried(o, w, c).told, w.moves, k)
  {
    hide Opens, Playing, Inv, EffectsAt, ToldOf, AllPlayable;
    ToldAdd(w.told, w.clients[c].commit, w.clients[c].done, k);
  }

  lemma CarriedCarried(o: Opening, w: World, c: nat)
    requires Opens(o) && AllPlayable(w.moves) && AtWork(o, w, c) && CarriedOk(o, w)
    ensures Carried(o, w, c).moves == w.moves && CarriedOk(o, Carried(o, w, c))
  {
    hide Opens, Playing, Inv, EffectsAt, AllPlayable, AllTold, ToldOf;
    var r := Carried(o, w, c);
    DoneIsTold(o, w, c);
    forall k: nat | AllTold(o, w.told, w.moves, k) ensures AllTold(o, r.told, r.moves, k) { ToldMore(o, w, c, k); }
    forall k: nat | r.born && k <= |r.moves| ensures Accounted(o, r, k) {
      assert Accounted(o, w, k);
      if d :| Carries(w, d, k) {
        if d != c || r.clients[c].Carrying? { assert Carries(r, d, k); }
      }
    }
    forall d | 0 <= d < |r.clients| ensures AckOk(o, r, r.clients[d]) {
      if d != c { assert AckOk(o, w, w.clients[d]); }
    }
    forall e | 0 <= e < |r.results| ensures ResultOk(o, r, r.results[e]) { assert ResultOk(o, w, w.results[e]); }
  }

  // ---- Every step, and every history ----

  lemma StepCarries(o: Opening, w: World, ev: Event)
    requires Opens(o) && Whole(o, w) && Enabled(o, w, ev) && AllPlayable(w.moves) && CarriedOk(o, w)
    ensures Sane(w)
    ensures AllPlayable(After(o, w, ev).moves) && CarriedOk(o, After(o, w, ev))
  {
    hide Opens, Playing, Inv, Whole, EffectsAt, AllPlayable, CarriedOk, AtWork, Creating, Writing, Carried,
      Reading;
    Parts(o, w);
    match ev {
      case Create(c) =>
        CreatedCarried(o, w, c);
        CreatedPlayable(o, w, c);
      case Write(c) => WrittenCarried(o, w, c);
      case CarryOut(c) =>
        IsAtWork(o, w, c);
        CarriedCarried(o, w, c);
      case Publish(_, _) => StillCarried(o, w, ev);
      case DropResult(_) => StillCarried(o, w, ev);
      case Expire => StillCarried(o, w, ev);
      case Ack(_) => HandledCarried(o, w, ev);
      case Read(_, _) => HandledCarried(o, w, ev);
      case _ => QuietCarried(o, w, ev);
    }
  }

  lemma CreatedPlayable(o: Opening, w: World, c: nat)
    requires Opens(o) && c < |w.clients|
    ensures Creating(o, w, c).moves == w.moves
  {
    hide Opens, First;
  }

  lemma {:induction false} AlwaysCarried(o: Opening, w: World, evs: seq<Event>)
    requires Opens(o) && Whole(o, w) && Happens(o, w, evs) && AllPlayable(w.moves) && CarriedOk(o, w)
    ensures AllPlayable(Later(o, w, evs).moves) && CarriedOk(o, Later(o, w, evs))
    decreases |evs|
  {
    hide Opens, Whole, After, Enabled, Sane, AllPlayable, CarriedOk;
    if evs != [] {
      StepKeeps(o, w, evs[0]);
      StepCarries(o, w, evs[0]);
      AlwaysCarried(o, After(o, w, evs[0]), evs[1..]);
    }
  }

  lemma {:induction false} ToldIn(told: seq<(nat, nat)>, k: nat, d: nat)
    ensures (k, d) in told <==> d in ToldOf(told, k)
    decreases |told|
  {
    if told != [] {
      ToldIn(told[..|told| - 1], k, d);
      assert told == told[..|told| - 1] + [told[|told| - 1]];
    }
  }

  /** All of a commit's effects, each by its place there, were carried out. */
  lemma AllInTold(o: Opening, told: seq<(nat, nat)>, moves: seq<Move>, k: nat)
    requires Opens(o) && AllPlayable(moves) && AllTold(o, told, moves, k) && Counting(ToldOf(told, k))
    ensures forall d: nat | d < |EffectsAt(o, moves, k)| :: (k, d) in told
  {
    hide Opens, Playing, Inv, EffectsAt, ToldOf;
    forall d: nat | d < |EffectsAt(o, moves, k)| ensures (k, d) in told {
      assert ToldOf(told, k)[d] == d;
      ToldIn(told, k, d);
    }
  }

  /**
   * However the replicas interleave: every effect of every commit, the start's included, was carried out, or the commit
   * is one replica's that is still at it, or its replica crashed over it. The commit of a result that was acknowledged
   * had all of its effects carried out before.
   */
  lemma EffectsCarriedOut(o: Opening, w: World, evs: seq<Event>)
    requires Opens(o) && Empty(w) && Happens(o, w, evs)
    ensures var r := Later(o, w, evs);
      && AllPlayable(r.moves)
      && (forall k: nat | r.born && k <= |r.moves| && k !in r.cut ::
            (forall d: nat | d < |EffectsAt(o, r.moves, k)| :: (k, d) in r.told) || (exists c :: Carries(r, c, k)))
      && (forall c, d, k: nat | Carries(r, c, k) && Carries(r, d, k) :: c == d)
      && (forall e | 0 <= e < |r.results| && r.results[e].handling.Some? && r.results[e].handling.value.Committed? ::
            var k := r.results[e].handling.value.at;
            k <= |r.moves| && forall d: nat | d < |EffectsAt(o, r.moves, k)| :: (k, d) in r.told)
  {
    hide Opens, Playing, Inv, EffectsAt, AllPlayable, Empty, AllTold, ToldOf, ClientOk, ResultsOk, StoreOk;
    EmptyOk(o, w);
    NothingYet(o, w);
    AlwaysWhole(o, w, evs);
    AlwaysCarried(o, w, evs);
    var r := Later(o, w, evs);
    Parts(o, r);
    forall k: nat | AllTold(o, r.told, r.moves, k)
      ensures k <= |r.moves| && forall d: nat | d < |EffectsAt(o, r.moves, k)| :: (k, d) in r.told
    {
      AllInTold(o, r.told, r.moves, k);
      InRange(o, r, k);
    }
    forall k: nat | r.born && k <= |r.moves| && k !in r.cut
      ensures (forall d: nat | d < |EffectsAt(o, r.moves, k)| :: (k, d) in r.told) || (exists c :: Carries(r, c, k))
    {
      assert Accounted(o, r, k);
    }
    forall c, d, k: nat | Carries(r, c, k) && Carries(r, d, k) ensures c == d { OneCarrier(o, r, c, d); }
    forall e | 0 <= e < |r.results| ensures ResultOk(o, r, r.results[e]) {}
  }

  lemma InRange(o: Opening, w: World, k: nat)
    requires Opens(o) && AllPlayable(w.moves) && AllTold(o, w.told, w.moves, k)
    ensures k <= |w.moves|
  {
  }

  lemma OneCarrier(o: Opening, w: World, c: int, d: int)
    requires Opens(o) && AllPlayable(w.moves) && ToldOk(o, w) && 0 <= c < |w.clients| && 0 <= d < |w.clients|
    requires w.clients[c].Carrying? && w.clients[d].Carrying? && w.clients[c].commit == w.clients[d].commit
    ensures c == d
  {
    hide Opens, Playing, Inv, EffectsAt, ToldOf;
  }

  lemma NothingYet(o: Opening, w: World)
    requires Opens(o) && Empty(w)
    ensures AllPlayable(w.moves) && CarriedOk(o, w)
  {
    hide Opens, Playing, Inv, EffectsAt, AllTold;
    forall c | 0 <= c < |w.clients| ensures AckOk(o, w, w.clients[c]) { assert w.clients[c] in w.clients; }
  }
}
