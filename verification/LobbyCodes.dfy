/**
 * An Arena lobby's join code (ArenaLobbyService.cs, lines 576-624; LobbyCodes.cs): two keys, each set only if it is not
 * there yet, asked for by any number of players at once, in one namespace with the custom lobbies' codes.
 */
module LobbyCodes {
  import opened Options

  const DRAWS := 5

  /** One ask for a lobby's code, and how far it is. */
  datatype Asker =
    | Asking(lobby: string)
    | Drawing(lobby: string, attempt: nat)
    | Claiming(lobby: string, code: string)
    | Losing(lobby: string, code: string)
    | Rereading(lobby: string)
    | Answered(lobby: string, answer: Option<string>)
    | Crashed(lobby: string, left: Option<string>)

  /** `codes` is lobby_code:{code}, `named` is arena_lobby_code:{lobby}. */
  datatype World = World(codes: map<string, string>, named: map<string, string>, askers: seq<Asker>)

  datatype Event =
    | Ask(lobby: string)
    | Look(a: nat)
    | Draw(a: nat, code: string)
    | Claim(a: nat)
    | Lose(a: nat)
    | Reread(a: nat)
    | Crash(a: nat)
    | CustomClaim(lobby: string, code: string)
    | CustomRelease(code: string)

  /** Custom lobbies share the codes: they set and delete their own, and name no Arena lobby. */
  predicate Enabled(w: World, arena: set<string>, ev: Event) {
    match ev
    case Ask(lobby) => lobby in arena
    case Look(a) => a < |w.askers| && w.askers[a].Asking?
    case Draw(a, _) => a < |w.askers| && w.askers[a].Drawing?
    case Claim(a) => a < |w.askers| && w.askers[a].Claiming?
    case Lose(a) => a < |w.askers| && w.askers[a].Losing?
    case Reread(a) => a < |w.askers| && w.askers[a].Rereading? && w.askers[a].lobby in w.named
    case Crash(a) => a < |w.askers| && !w.askers[a].Answered? && !w.askers[a].Crashed?
    case CustomClaim(lobby, code) => lobby !in arena && code !in w.codes
    case CustomRelease(code) => code in w.codes && w.codes[code] !in arena
  }

  function After(w: World, arena: set<string>, ev: Event): World
    requires Enabled(w, arena, ev)
  {
    match ev
    case Ask(lobby) => w.(askers := w.askers + [Asking(lobby)])
    case Look(a) =>
      var lobby := w.askers[a].lobby;
      Moved(w, a, if lobby in w.named then Answered(lobby, Some(w.named[lobby])) else Drawing(lobby, 0))
    case Draw(a, code) =>
      var lobby, attempt := w.askers[a].lobby, w.askers[a].attempt;
      if attempt >= DRAWS then Moved(w, a, Answered(lobby, None))
      else if code in w.codes then Moved(w, a, Drawing(lobby, attempt + 1))
      else Moved(w.(codes := w.codes[code := lobby]), a, Claiming(lobby, code))
    case Claim(a) =>
      var lobby, code := w.askers[a].lobby, w.askers[a].code;
      if lobby in w.named then Moved(w, a, Losing(lobby, code))
      else Moved(w.(named := w.named[lobby := code]), a, Answered(lobby, Some(code)))
    case Lose(a) => Moved(w.(codes := w.codes - {w.askers[a].code}), a, Rereading(w.askers[a].lobby))
    case Reread(a) => Moved(w, a, Answered(w.askers[a].lobby, Some(w.named[w.askers[a].lobby])))
    case Crash(a) =>
      Moved(w, a, Crashed(w.askers[a].lobby,
                          if w.askers[a].Claiming? || w.askers[a].Losing? then Some(w.askers[a].code) else None))
    case CustomClaim(lobby, code) => w.(codes := w.codes[code := lobby])
    case CustomRelease(code) => w.(codes := w.codes - {code})
  }

  function Moved(w: World, a: nat, asker: Asker): World
    requires a < |w.askers|
  {
    w.(askers := w.askers[a := asker])
  }

  // ---- What is true at every moment ----

  /** The draw an ask has set and not yet used, or left behind. */
  function HeldBy(asker: Asker): Option<string> {
    match asker
    case Claiming(_, code) => Some(code)
    case Losing(_, code) => Some(code)
    case Crashed(_, left) => left
    case _ => None
  }

  ghost predicate AskerOk(w: World, arena: set<string>, asker: Asker) {
    && asker.lobby in arena
    && (HeldBy(asker).Some? ==> var code := HeldBy(asker).value;
        code in w.codes && w.codes[code] == asker.lobby && (asker.lobby in w.named ==> w.named[asker.lobby] != code))
    && (asker.Losing? || asker.Rereading? ==> asker.lobby in w.named)
    && (asker.Answered? && asker.answer.Some? ==> asker.lobby in w.named && w.named[asker.lobby] == asker.answer.value)
  }

  ghost predicate Held(w: World, code: string) {
    exists a :: 0 <= a < |w.askers| && HeldBy(w.askers[a]) == Some(code)
  }

  ghost predicate Inv(w: World, arena: set<string>) {
    && (forall a | 0 <= a < |w.askers| :: AskerOk(w, arena, w.askers[a]))
    && (forall a, b | 0 <= a < b < |w.askers| && HeldBy(w.askers[a]).Some? ::
      HeldBy(w.askers[a]) != HeldBy(w.askers[b]))
    && (forall lobby | lobby in w.named ::
      lobby in arena && w.named[lobby] in w.codes && w.codes[w.named[lobby]] == lobby)
    && (forall code | code in w.codes && w.codes[code] in arena ::
          (w.codes[code] in w.named && w.named[w.codes[code]] == code) || Held(w, code))
  }

  lemma NobodyAsked(arena: set<string>, codes: map<string, string>)
    requires forall code | code in codes :: codes[code] !in arena
    ensures Inv(World(codes, map[], []), arena)
  {
  }

  lemma HeldStays(w: World, r: World, a: nat, code: string)
    requires a < |w.askers| == |r.askers| && r.askers == w.askers[a := r.askers[a]] && Held(w, code)
    requires HeldBy(w.askers[a]) == Some(code) ==> HeldBy(r.askers[a]) == Some(code)
    ensures Held(r, code)
  {
    var b :| 0 <= b < |w.askers| && HeldBy(w.askers[b]) == Some(code);
    assert HeldBy(r.askers[b]) == Some(code);
  }

  /** Every step of anyone keeps it. */
  lemma StepKeeps(w: World, arena: set<string>, ev: Event)
    requires Inv(w, arena) && Enabled(w, arena, ev)
    ensures Inv(After(w, arena, ev), arena)
  {
    match ev {
      case Ask(_) => AskKeeps(w, arena, ev);
      case Look(_) => QuietKeeps(w, arena, ev);
      case Reread(_) => QuietKeeps(w, arena, ev);
      case Crash(_) => QuietKeeps(w, arena, ev);
      case Draw(_, _) => DrawKeeps(w, arena, ev);
      case Claim(_) => ClaimKeeps(w, arena, ev);
      case Lose(_) => LoseKeeps(w, arena, ev);
      case CustomClaim(_, _) => CustomKeeps(w, arena, ev);
      case CustomRelease(_) => CustomKeeps(w, arena, ev);
    }
  }

  lemma AskKeeps(w: World, arena: set<string>, ev: Event)
    requires Inv(w, arena) && Enabled(w, arena, ev) && ev.Ask?
    ensures Inv(After(w, arena, ev), arena)
  {
    var r := After(w, arena, ev);
    forall code | Held(w, code) ensures Held(r, code) {
      var a :| 0 <= a < |w.askers| && HeldBy(w.askers[a]) == Some(code);
      assert r.askers[a] == w.askers[a];
    }
  }

  lemma QuietKeeps(w: World, arena: set<string>, ev: Event)
    requires Inv(w, arena) && Enabled(w, arena, ev) && (ev.Look? || ev.Reread? || ev.Crash?)
    ensures Inv(After(w, arena, ev), arena)
  {
    hide AskerOk, Held;
    var r := After(w, arena, ev);
    forall code | Held(w, code) ensures Held(r, code) { HeldStays(w, r, ev.a, code); }
    forall b | 0 <= b < |r.askers| ensures AskerOk(r, arena, r.askers[b]) { QuietAsker(w, arena, ev, b); }
  }

  lemma QuietAsker(w: World, arena: set<string>, ev: Event, b: nat)
    requires Inv(w, arena) && Enabled(w, arena, ev) && (ev.Look? || ev.Reread? || ev.Crash?) && b < |w.askers|
    ensures AskerOk(After(w, arena, ev), arena, After(w, arena, ev).askers[b])
  {
    hide Held;
    assert AskerOk(w, arena, w.askers[b]);
  }

  lemma DrawKeeps(w: World, arena: set<string>, ev: Event)
    requires Inv(w, arena) && Enabled(w, arena, ev) && ev.Draw?
    ensures Inv(After(w, arena, ev), arena)
  {
    var r := After(w, arena, ev);
    assert AskerOk(w, arena, w.askers[ev.a]);
    forall code | Held(w, code) ensures Held(r, code) { HeldStays(w, r, ev.a, code); }
    if w.askers[ev.a].attempt < DRAWS && ev.code !in w.codes {
      assert HeldBy(r.askers[ev.a]) == Some(ev.code);
      forall b | 0 <= b < |w.askers| ensures HeldBy(w.askers[b]) != Some(ev.code) {
        assert AskerOk(w, arena, w.askers[b]);
      }
    }
  }

  lemma ClaimKeeps(w: World, arena: set<string>, ev: Event)
    requires Inv(w, arena) && Enabled(w, arena, ev) && ev.Claim?
    ensures Inv(After(w, arena, ev), arena)
  {
    var r, asker := After(w, arena, ev), w.askers[ev.a];
    assert AskerOk(w, arena, asker);
    forall code | Held(w, code) && (asker.lobby in w.named || code != asker.code) ensures Held(r, code) {
      HeldStays(w, r, ev.a, code);
    }
    forall b | 0 <= b < |r.askers| ensures AskerOk(r, arena, r.askers[b]) {
      assert AskerOk(w, arena, w.askers[b]);
      if b != ev.a && asker.lobby !in w.named { assert HeldBy(w.askers[b]) != Some(asker.code); }
    }
  }

  lemma LoseKeeps(w: World, arena: set<string>, ev: Event)
    requires Inv(w, arena) && Enabled(w, arena, ev) && ev.Lose?
    ensures Inv(After(w, arena, ev), arena)
  {
    var r, asker := After(w, arena, ev), w.askers[ev.a];
    assert AskerOk(w, arena, asker);
    forall code | Held(w, code) && code != asker.code ensures Held(r, code) { HeldStays(w, r, ev.a, code); }
    forall b | 0 <= b < |r.askers| ensures AskerOk(r, arena, r.askers[b]) {
      assert AskerOk(w, arena, w.askers[b]);
      if b != ev.a { assert HeldBy(w.askers[b]) != Some(asker.code); }
    }
  }

  lemma CustomKeeps(w: World, arena: set<string>, ev: Event)
    requires Inv(w, arena) && Enabled(w, arena, ev) && (ev.CustomClaim? || ev.CustomRelease?)
    ensures Inv(After(w, arena, ev), arena)
  {
    var r := After(w, arena, ev);
    forall a | 0 <= a < |r.askers| ensures AskerOk(r, arena, r.askers[a]) { assert AskerOk(w, arena, w.askers[a]); }
    forall code | Held(w, code) ensures Held(r, code) {
      var a :| 0 <= a < |w.askers| && HeldBy(w.askers[a]) == Some(code);
      assert HeldBy(r.askers[a]) == Some(code);
    }
  }

  ghost predicate Happens(w: World, arena: set<string>, evs: seq<Event>)
    decreases |evs|
  {
    evs == [] || (Enabled(w, arena, evs[0]) && Happens(After(w, arena, evs[0]), arena, evs[1..]))
  }

  function Later(w: World, arena: set<string>, evs: seq<Event>): World
    requires Happens(w, arena, evs)
    decreases |evs|
  {
    if evs == [] then w else Later(After(w, arena, evs[0]), arena, evs[1..])
  }

  lemma {:induction false} AlwaysKept(w: World, arena: set<string>, evs: seq<Event>)
    requires Inv(w, arena) && Happens(w, arena, evs)
    ensures Inv(Later(w, arena, evs), arena)
    ensures forall lobby | lobby in w.named ::
      lobby in Later(w, arena, evs).named && Later(w, arena, evs).named[lobby] == w.named[lobby]
    decreases |evs|
  {
    hide Inv, Enabled;
    if evs != [] {
      StepKeeps(w, arena, evs[0]);
      AlwaysKept(After(w, arena, evs[0]), arena, evs[1..]);
    }
  }

  // ---- What askers and joiners can rely on ----

  /**
   * Under any interleaving of asks over any number of lobbies: a lobby's code names that lobby; every code answered for
   * a lobby is the one it has; and once its asks are all answered, none cut short, its code is the only one that names
   * it.
   */
  lemma OneCodePerLobby(codes: map<string, string>, arena: set<string>, evs: seq<Event>)
    requires (forall code | code in codes :: codes[code] !in arena) && Happens(World(codes, map[], []), arena, evs)
    ensures var w := Later(World(codes, map[], []), arena, evs);
      && (forall lobby | lobby in w.named :: w.named[lobby] in w.codes && w.codes[w.named[lobby]] == lobby)
      && (forall a, b | 0 <= a < |w.askers| && 0 <= b < |w.askers| && w.askers[a].Answered? && w.askers[b].Answered?
            && w.askers[a].lobby == w.askers[b].lobby && w.askers[a].answer.Some? && w.askers[b].answer.Some? ::
            w.askers[a].answer == w.askers[b].answer)
      && (forall lobby, code | lobby in arena && code in w.codes && w.codes[code] == lobby && AllAnswered(w, lobby) ::
            lobby in w.named && w.named[lobby] == code)
  {
    NobodyAsked(arena, codes);
    AlwaysKept(World(codes, map[], []), arena, evs);
    var w := Later(World(codes, map[], []), arena, evs);
    forall lobby, code | lobby in arena && code in w.codes && w.codes[code] == lobby && AllAnswered(w, lobby)
      ensures lobby in w.named && w.named[lobby] == code
    {
      NoneHeld(w, arena, code);
    }
  }

  lemma NoneHeld(w: World, arena: set<string>, code: string)
    requires Inv(w, arena) && code in w.codes && AllAnswered(w, w.codes[code])
    ensures !Held(w, code)
  {
    forall a | 0 <= a < |w.askers| ensures HeldBy(w.askers[a]) != Some(code) { assert AskerOk(w, arena, w.askers[a]); }
  }

  ghost predicate AllAnswered(w: World, lobby: string) {
    forall a | 0 <= a < |w.askers| && w.askers[a].lobby == lobby :: w.askers[a].Answered?
  }

  /** An ask only ever deletes the code it drew itself, which no lobby has and no other ask holds. */
  lemma DeletesOwnDraw(w: World, arena: set<string>, a: nat)
    requires Inv(w, arena) && Enabled(w, arena, Lose(a))
    ensures var code := w.askers[a].code;
      && (forall lobby | lobby in w.named :: w.named[lobby] != code)
      && (forall b | 0 <= b < |w.askers| && b != a :: HeldBy(w.askers[b]) != Some(code))
      && After(w, arena, Lose(a)).named == w.named && w.codes[code] == w.askers[a].lobby
  {
    assert AskerOk(w, arena, w.askers[a]);
  }

  /** An ask's last read always finds the code it lost to. */
  lemma RereadFinds(w: World, arena: set<string>, a: nat)
    requires Inv(w, arena) && a < |w.askers| && w.askers[a].Rereading?
    ensures Enabled(w, arena, Reread(a))
  {
    assert AskerOk(w, arena, w.askers[a]);
  }

  // ---- An ask that ends without a code ----

  /** An event that is the ask's own draw, of a code that is taken. */
  predicate InVain(w: World, ev: Event, a: nat) {
    ev.Draw? && ev.a == a && a < |w.askers| && w.askers[a].Drawing? && w.askers[a].attempt < DRAWS && ev.code in w.codes
  }

  /** How many of an ask's draws found their code taken, event by event. */
  function DrawsTaken(w: World, arena: set<string>, evs: seq<Event>, a: nat): nat
    requires Happens(w, arena, evs)
    decreases |evs|
  {
    if evs == [] then 0
    else (if InVain(w, evs[0], a) then 1 else 0) + DrawsTaken(After(w, arena, evs[0]), arena, evs[1..], a)
  }

  /** Still drawing, or not begun. */
  predicate MayFail(w: World, a: nat) {
    a >= |w.askers| || w.askers[a].Asking? || (w.askers[a].Drawing? && w.askers[a].attempt <= DRAWS)
  }

  predicate Failed(w: World, a: nat) {
    a < |w.askers| && w.askers[a].Answered? && w.askers[a].answer.None?
  }

  /** The draws an ask has behind it. */
  function Behind(w: World, a: nat): nat {
    if a < |w.askers| && w.askers[a].Drawing? then w.askers[a].attempt else 0
  }

  /** A draw in vain is one more behind it; only with all of them behind it does an ask give up. */
  lemma DrawCounts(w: World, arena: set<string>, ev: Event, a: nat)
    requires Enabled(w, arena, ev) && MayFail(w, a)
    ensures var r := After(w, arena, ev);
      && (MayFail(r, a) ==> Behind(r, a) == Behind(w, a) + if InVain(w, ev, a) then 1 else 0)
      && (Failed(r, a) ==> !InVain(w, ev, a) && Behind(w, a) == DRAWS)
      && (!MayFail(r, a) && !Failed(r, a) ==> a < |r.askers| && !r.askers[a].Drawing?)
  {
  }

  /** One that has won or lost a race, or was cut short, never ends without; one that gave up draws no more. */
  lemma {:induction false} Decided(w: World, arena: set<string>, evs: seq<Event>, a: nat)
    requires Happens(w, arena, evs) && a < |w.askers| && !w.askers[a].Asking? && !w.askers[a].Drawing?
    ensures Failed(Later(w, arena, evs), a) <==> Failed(w, a)
    ensures DrawsTaken(w, arena, evs, a) == 0
    decreases |evs|
  {
    if evs != [] { Decided(After(w, arena, evs[0]), arena, evs[1..], a); }
  }

  lemma {:induction false} FailsAfterDraws(w: World, arena: set<string>, evs: seq<Event>, a: nat)
    requires Happens(w, arena, evs) && MayFail(w, a) && Failed(Later(w, arena, evs), a)
    ensures Behind(w, a) + DrawsTaken(w, arena, evs, a) == DRAWS
    decreases |evs|
  {
    hide Enabled, After, Behind, InVain;
    if evs != [] {
      var r := After(w, arena, evs[0]);
      DrawCounts(w, arena, evs[0], a);
      if MayFail(r, a) { FailsAfterDraws(r, arena, evs[1..], a); } else { Decided(r, arena, evs[1..], a); }
    }
  }

  /** An ask ends without a code only after as many draws as it has, every one of a code that was taken. */
  lemma NoCodeMeansTaken(codes: map<string, string>, arena: set<string>, evs: seq<Event>, a: nat)
    requires Happens(World(codes, map[], []), arena, evs) && Failed(Later(World(codes, map[], []), arena, evs), a)
    ensures DrawsTaken(World(codes, map[], []), arena, evs, a) == DRAWS
  {
    FailsAfterDraws(World(codes, map[], []), arena, evs, a);
  }

  // ---- One ask, in place ----

  class CodeStore {
    var codes: map<string, string>
    var named: map<string, string>

    /** Every lobby's code names it. */
    ghost predicate Valid()
      reads this
    {
      forall lobby | lobby in named :: named[lobby] in codes && codes[named[lobby]] == lobby
    }

    constructor ()
      ensures Valid() && codes == map[] && named == map[]
    {
      codes, named := map[], map[];
    }

    /** Sets a code for a lobby, if nobody has it. */
    method SetCode(code: string, lobby: string) returns (done: bool)
      modifies `codes
      ensures done == (code !in old(codes)) && codes == if done then old(codes)[code := lobby] else old(codes)
    {
      if code in codes { return false; }
      codes := codes[code := lobby];
      done := true;
    }

    method SetName(lobby: string, code: string) returns (done: bool)
      modifies `named
      ensures done == (lobby !in old(named)) && named == if done then old(named)[lobby := code] else old(named)
    {
      if lobby in named { return false; }
      named := named[lobby := code];
      done := true;
    }

    /** Another ask for the same lobby, whole, if its draw is free. */
    method Rival(lobby: string, draw: string)
      requires Valid()
      modifies this
      ensures Valid() && (forall code | code in old(codes) :: code in codes && codes[code] == old(codes)[code])
      ensures if lobby in old(named) || draw in old(codes) then codes == old(codes) && named == old(named)
              else codes == old(codes)[draw := lobby] && named == old(named)[lobby := draw]
    {
      if lobby in named { return; }
      var done := SetCode(draw, lobby);
      if done { done := SetName(lobby, draw); }
    }

    /**
     * The ask: the code there is, else the first free draw of five; `rivals` are other asks' draws, each falling
     * between this one's two writes. What it drew in vain is deleted: only the code the lobby has is added.
     */
    method LobbyCodeAsync(lobby: string, draws: seq<string>, rivals: seq<string>) returns (answer: Option<string>)
      requires Valid() && |draws| == |rivals| == DRAWS
      modifies this
      ensures Valid()
      ensures answer.Some? ==> lobby in named && named[lobby] == answer.value
      ensures lobby in old(named) ==> answer == Some(old(named)[lobby]) && codes == old(codes) && named == old(named)
      ensures answer.None? <==> lobby !in old(named) && forall i | 0 <= i < DRAWS :: draws[i] in old(codes)
      ensures answer.None? ==> codes == old(codes) && named == old(named)
      ensures lobby !in old(named) && answer.Some? ==>
        answer.value !in old(codes) && codes == old(codes)[answer.value := lobby]
          && named == old(named)[lobby := answer.value]
    {
      if lobby in named { return Some(named[lobby]); }
      for attempt := 0 to DRAWS
        invariant Valid() && codes == old(codes) && named == old(named)
        invariant forall i | 0 <= i < attempt :: draws[i] in codes
      {
        var drawn := draws[attempt];
        var free := SetCode(drawn, lobby);
        if !free { continue; }
        Rival(lobby, rivals[attempt]);
        var first := SetName(lobby, drawn);
        if first { return Some(drawn); }
        codes := codes - {drawn};
        return Some(named[lobby]);
      }
      answer := None;
    }
  }
}
