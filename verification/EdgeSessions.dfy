/** The edge's end of a game (EdgeSession.cs): its place in the player's log, and what it has queued for the game. */
module EdgeSessions {
  import opened Options
  import opened GatewayLog

  const QUEUE_LIMIT := 4096

  /** A frame for the game (with its log id, if it came with one), or the game's close. */
  datatype ToGame = ForGame(id: Option<nat>, body: Body) | GameClose(code: int)

  datatype Edge = Edge(
    cursor: Option<nat>,
    handshaken: bool,
    toGame: seq<ToGame>,
    written: nat,
    closing: bool,
    aborted: bool,
    detachedAt: Option<int>,
    pinging: bool)

  const NEW_EDGE := Edge(None, false, [], 0, false, false, None, false)

  /** An aborted game's queue is never read again: nothing more is taken from it, and nothing fits. */
  predicate Room(e: Edge) {
    !e.aborted && |e.toGame| - e.written < QUEUE_LIMIT
  }

  /** A frame is queued unless the game is closing; a game that stopped reading is dropped. */
  function SendGame(e: Edge, id: Option<nat>, body: Body): Edge {
    if e.closing then e else if Room(e) then e.(toGame := e.toGame + [ForGame(id, body)]) else e.(aborted := true)
  }

  /** The game's close, after what is queued; once, whoever asks first. */
  function CloseGame(e: Edge, code: int): Edge {
    if e.closing then e
    else if Room(e) then e.(closing := true, toGame := e.toGame + [GameClose(code)])
    else e.(closing := true, aborted := true)
  }

  /** One frame of a link; the instruction to close is kept for the link's end. */
  function Receive(e: Edge, frame: Frame): Edge {
    match frame
    case Unlogged(body) => SendGame(e.(handshaken := e.handshaken || body == IdFrame), None, body)
    case Logged(id, body) =>
      if e.cursor.None? || id > e.cursor.value then SendGame(e.(cursor := Some(id)), Some(id), body) else e
    case Position(id) => e.(cursor := Some(id))
    case Close(_) => e
    case Raw(_) => e
  }

  function ReceiveAll(e: Edge, frames: seq<Frame>): Edge {
    if frames == [] then e else Receive(ReceiveAll(e, frames[..|frames| - 1]), frames[|frames| - 1])
  }

  /** The last instruction to close among a link's frames. */
  function CloseAsked(frames: seq<Frame>): Option<int> {
    if frames == [] then None
    else if frames[|frames| - 1].Close? then Some(frames[|frames| - 1].code)
    else CloseAsked(frames[..|frames| - 1])
  }

  /** What a new link resumes after: once the game has its id frame, the cursor. */
  function ResumeAfter(e: Edge): Option<nat> {
    if e.handshaken then e.cursor else None
  }

  function Detach(e: Edge, now: int): Edge {
    if e.detachedAt.Some? then e else e.(detachedAt := Some(now), pinging := e.handshaken)
  }

  function StopPinging(e: Edge): Edge {
    e.(pinging := false, detachedAt := None)
  }

  // ---- What a game's queue is, whatever was received ----

  /**
   * A close is the last thing queued, and there is none before one was asked for; only a game without a node is pinged.
   */
  ghost predicate Tidy(e: Edge) {
    && e.written <= |e.toGame|
    && (forall i | 0 <= i < |e.toGame| && e.toGame[i].GameClose? :: i == |e.toGame| - 1 && e.closing)
    && (e.pinging ==> e.handshaken && e.detachedAt.Some?)
  }

  /**
   * Nothing is taken back: what was queued stays, the game is told once that it is over, and the id frame is never
   * forgotten.
   */
  ghost predicate Continues(e: Edge, f: Edge) {
    && e.toGame <= f.toGame
    && (e.closing ==> f.toGame == e.toGame && f.closing)
    && (e.handshaken ==> f.handshaken)
  }

  lemma SendTidy(e: Edge, id: Option<nat>, body: Body)
    requires Tidy(e)
    ensures Tidy(SendGame(e, id, body)) && Continues(e, SendGame(e, id, body))
  {
    forall i | 0 <= i < |e.toGame| ensures e.closing || e.toGame[i].ForGame? {}
  }

  lemma CloseTidy(e: Edge, code: int)
    requires Tidy(e)
    ensures Tidy(CloseGame(e, code)) && Continues(e, CloseGame(e, code)) && CloseGame(e, code).closing
  {
  }

  lemma {:induction false} ReceiveAllTidy(e: Edge, frames: seq<Frame>)
    requires Tidy(e)
    ensures Tidy(ReceiveAll(e, frames)) && Continues(e, ReceiveAll(e, frames))
    decreases |frames|
  {
    if frames != [] {
      ReceiveAllTidy(e, frames[..|frames| - 1]);
      var m, frame := ReceiveAll(e, frames[..|frames| - 1]), frames[|frames| - 1];
      if frame.Unlogged? { SendTidy(m.(handshaken := m.handshaken || frame.body == IdFrame), None, frame.body); }
      if frame.Logged? { SendTidy(m.(cursor := Some(frame.id)), Some(frame.id), frame.body); }
    }
  }
}
