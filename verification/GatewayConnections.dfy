/**
 * One game's socket on a node (GatewayConnection.cs): its queue, what it holds while a log is replayed, and its close.
 * What each call does is a function of the connection; the class does it in place, and the functions' properties are
 * proved.
 */
module GatewayConnections {
  import opened Options
  import opened GatewayLog

  const QUEUE_LIMIT := 4096
  const NORMAL_CLOSURE := 1000

  datatype Outgoing = Data(frame: Frame) | SocketClose(status: int)

  datatype Held =
    | HeldMessage(body: Body, id: Option<nat>)
    | HeldClose(code: Option<int>, id: Option<nat>)

  /** On an edge's link or a game's own socket; `written` is how many of the queued the writer has taken. */
  datatype Conn = Conn(
    edge: bool,
    held: Option<seq<Held>>,
    lastLogged: nat,
    closing: bool,
    closedGame: bool,
    dropped: bool,
    out: seq<Outgoing>,
    written: nat)

  const NEW_LINK := Conn(true, None, 0, false, false, false, [], 0)

  predicate Room(c: Conn) {
    |c.out| - c.written < QUEUE_LIMIT
  }

  function Put(c: Conn, item: Outgoing): Conn {
    c.(out := c.out + [item])
  }

  function Drop(c: Conn): Conn {
    c.(closing := true, dropped := true)
  }

  /** A frame after a close has been asked for goes nowhere; a full queue ends the socket. */
  function Queue(c: Conn, frame: Frame): Conn {
    if c.closing then c else if Room(c) then Put(c, Data(frame)) else Drop(c)
  }

  function Send(c: Conn, body: Body): Conn {
    Queue(c, if c.edge then Unlogged(body) else Raw(body))
  }

  /** On a link, a logged message is sent once: one at or below the last sent is dropped. */
  function DeliverNow(c: Conn, body: Body, id: Option<nat>): Conn {
    if !c.edge || id.None? then Send(c, body)
    else if id.value <= c.lastLogged then c
    else Queue(c.(lastLogged := id.value), Logged(id.value, body))
  }

  function Deliver(c: Conn, body: Body, id: Option<nat>): Conn {
    if c.held.Some? then c.(held := Some(c.held.value + [HeldMessage(body, id)])) else DeliverNow(c, body, id)
  }

  /** The close: on a link its instruction, then the link's own; once, whoever asks first. */
  function CloseGame(c: Conn, code: int, status: int): Conn {
    if c.closing then c
    else
      var c1 := c.(closing := true, closedGame := true);
      if !c1.edge then (if Room(c1) then Put(c1, SocketClose(status)) else Drop(c1))
      else if !Room(c1) then Drop(c1)
      else
        var c2 := Put(c1, Data(Close(code)));
        if Room(c2) then Put(c2, SocketClose(NORMAL_CLOSURE)) else Drop(c2)
  }

  /** Drops the game with no close handshake, by the edge's hand if it is not being closed yet. */
  function Abort(c: Conn): Conn {
    if c.edge && !c.closing then CloseGame(c, 0, NORMAL_CLOSURE) else Drop(c.(closedGame := true))
  }

  function CloseFor(c: Conn, code: Option<int>): Conn {
    match code case Some(status) => CloseGame(c, status, status) case None => Abort(c)
  }

  function Disconnected(c: Conn, code: Option<int>, id: Option<nat>): Conn {
    if c.held.Some? then c.(held := Some(c.held.value + [HeldClose(code, id)])) else CloseFor(c, code)
  }

  function BeginReplay(c: Conn, after: nat): Conn {
    c.(held := Some([]), lastLogged := after)
  }

  function Replay(c: Conn, body: Body, id: nat): Conn {
    var c1 := c.(lastLogged := id);
    Queue(c1, if c1.edge then Logged(id, body) else Raw(body))
  }

  /** One held item, once the replay is done: skipped if the replay sent it, else as it would have been live. */
  function Flushed(c: Conn, item: Held, replayed: nat): Conn {
    if item.id.Some? && item.id.value <= replayed then c
    else match item
      case HeldClose(code, _) => CloseFor(c, code)
      case HeldMessage(body, id) => DeliverNow(c, body, id)
  }

  function Flush(c: Conn, held: seq<Held>, replayed: nat): Conn {
    if held == [] then c else Flushed(Flush(c, held[..|held| - 1], replayed), held[|held| - 1], replayed)
  }

  function EndReplay(c: Conn, replayed: nat): Conn {
    Flush(c.(held := None), if c.held.Some? then c.held.value else [], replayed)
  }

  /** The log's head at the claim: where the edge stands until a logged frame moves it. */
  function SendPosition(c: Conn, head: nat): Conn {
    if !c.edge then c else Queue(c.(lastLogged := head), Position(head))
  }

  function Answer(c: Conn, status: int): Conn {
    if c.closing then c
    else if Room(c) then Put(c.(closing := true), SocketClose(status)) else Drop(c)
  }

  // ---- What a queue is, whatever was called ----

  predicate Closes(item: Outgoing) {
    item.SocketClose? || item.frame.Close?
  }

  /** What was queued to close: on a link the instruction, then the link's close. */
  ghost predicate Ending(edge: bool, tail: seq<Outgoing>) {
    || tail == []
    || (|tail| == 1 && (tail[0].SocketClose? || (edge && tail[0].frame.Close?)))
    || (edge && |tail| == 2 && tail[0].Data? && tail[0].frame.Close? && tail[1] == SocketClose(NORMAL_CLOSURE))
  }

  /** A close ends the queue, and there is none before one was asked for. */
  ghost predicate Tidy(c: Conn) {
    && c.written <= |c.out|
    && (c.dropped ==> c.closing)
    && exists n :: 0 <= n <= |c.out| && EndsAt(c, n)
  }

  ghost predicate EndsAt(c: Conn, n: int)
    requires 0 <= n <= |c.out|
  {
    (forall i | 0 <= i < n :: !Closes(c.out[i])) && Ending(c.edge, c.out[n..]) && (!c.closing ==> n == |c.out|)
  }

  /** At most one instruction to close the game is ever queued, and nothing for the game after it. */
  lemma OneClose(c: Conn)
    requires Tidy(c)
    ensures forall i, j | 0 <= i < j < |c.out| && Closes(c.out[i]) ::
      c.edge && c.out[i].Data? && j == |c.out| - 1 && c.out[j] == SocketClose(NORMAL_CLOSURE)
  {
    var n :| 0 <= n <= |c.out| && EndsAt(c, n);
    forall i | n <= i < |c.out| ensures c.out[i] == c.out[n..][i - n] {}
  }

  lemma NewLinkTidy()
    ensures Tidy(NEW_LINK)
  {
    assert EndsAt(NEW_LINK, 0);
  }

  lemma QueueTidy(c: Conn, frame: Frame)
    requires Tidy(c) && !frame.Close?
    ensures Tidy(Queue(c, frame)) && (c.closing ==> Queue(c, frame) == c)
  {
    var n :| 0 <= n <= |c.out| && EndsAt(c, n);
    var r := Queue(c, frame);
    assert EndsAt(r, if c.closing || !Room(c) then n else |r.out|);
  }

  lemma CloseGameTidy(c: Conn, code: int, status: int)
    requires Tidy(c)
    ensures Tidy(CloseGame(c, code, status)) && CloseGame(c, code, status).closing
  {
    var n :| 0 <= n <= |c.out| && EndsAt(c, n);
    var r := CloseGame(c, code, status);
    if c.closing { assert EndsAt(r, n); } else {
      assert r.out[|c.out|..] == [] || r.out[|c.out|..] == [Data(Close(code))]
        || r.out[|c.out|..] == [SocketClose(status)]
        || r.out[|c.out|..] == [Data(Close(code)), SocketClose(NORMAL_CLOSURE)];
      assert EndsAt(r, |c.out|);
    }
  }

  lemma CloseForTidy(c: Conn, code: Option<int>)
    requires Tidy(c)
    ensures Tidy(CloseFor(c, code)) && CloseFor(c, code).closing && (c.closing ==> CloseFor(c, code).out == c.out)
  {
    match code
    case Some(status) => CloseGameTidy(c, status, status);
    case None =>
      if c.edge && !c.closing { CloseGameTidy(c, 0, NORMAL_CLOSURE); } else {
        var n :| 0 <= n <= |c.out| && EndsAt(c, n);
        assert EndsAt(Abort(c), n);
      }
  }

  lemma DeliverNowTidy(c: Conn, body: Body, id: Option<nat>)
    requires Tidy(c)
    ensures Tidy(DeliverNow(c, body, id))
      && (c.closing ==> DeliverNow(c, body, id).out == c.out && DeliverNow(c, body, id).closing)
  {
    if !c.edge || id.None? {
      QueueTidy(c, if c.edge then Unlogged(body) else Raw(body));
    } else if id.value > c.lastLogged {
      Relabelled(c, c.held, id.value);
      QueueTidy(c.(lastLogged := id.value), Logged(id.value, body));
    }
  }

  lemma Relabelled(c: Conn, held: Option<seq<Held>>, last: nat)
    requires Tidy(c)
    ensures Tidy(c.(held := held, lastLogged := last))
  {
    var n :| 0 <= n <= |c.out| && EndsAt(c, n);
    assert EndsAt(c.(held := held, lastLogged := last), n);
  }

  lemma {:induction false} FlushTidy(c: Conn, held: seq<Held>, replayed: nat)
    requires Tidy(c)
    ensures Tidy(Flush(c, held, replayed))
      && (c.closing ==> Flush(c, held, replayed).out == c.out && Flush(c, held, replayed).closing)
    decreases |held|
  {
    if held != [] {
      var m, item := Flush(c, held[..|held| - 1], replayed), held[|held| - 1];
      FlushTidy(c, held[..|held| - 1], replayed);
      match item
      case HeldClose(code, _) => CloseForTidy(m, code);
      case HeldMessage(body, id) => DeliverNowTidy(m, body, id);
    }
  }

  /** Every call keeps a queue tidy, and once a close was asked for nothing more is queued. */
  lemma CallsTidy(c: Conn, body: Body, id: nat, entry: Option<nat>, code: Option<int>, status: int)
    requires Tidy(c)
    ensures forall r | r in {Send(c, body), Deliver(c, body, entry), Disconnected(c, code, entry), BeginReplay(c, id),
      Replay(c, body, id),
      EndReplay(c, id), SendPosition(c, id), Answer(c, status), CloseFor(c, code), CloseGame(c, status, status)}
      :: Tidy(r) && (c.closing ==> r.closing && r.out == c.out)
  {
    QueueTidy(c, if c.edge then Unlogged(body) else Raw(body));
    DeliverNowTidy(c, body, entry);
    CloseForTidy(c, code);
    CloseGameTidy(c, status, status);
    HeldTidy(c, body, id, entry, code);
    ReplayTidy(c, body, id);
    AnswerTidy(c, status);
  }

  lemma HeldTidy(c: Conn, body: Body, id: nat, entry: Option<nat>, code: Option<int>)
    requires Tidy(c)
    ensures Tidy(BeginReplay(c, id)) && BeginReplay(c, id).out == c.out
    ensures c.held.Some? ==> Tidy(Deliver(c, body, entry)) && Tidy(Disconnected(c, code, entry))
    ensures Tidy(EndReplay(c, id)) && (c.closing ==> EndReplay(c, id).out == c.out && EndReplay(c, id).closing)
  {
    Relabelled(c, Some([]), id);
    Relabelled(c, None, c.lastLogged);
    FlushTidy(c.(held := None), if c.held.Some? then c.held.value else [], id);
    if c.held.Some? {
      Relabelled(c, Some(c.held.value + [HeldMessage(body, entry)]), c.lastLogged);
      Relabelled(c, Some(c.held.value + [HeldClose(code, entry)]), c.lastLogged);
    }
  }

  lemma ReplayTidy(c: Conn, body: Body, id: nat)
    requires Tidy(c)
    ensures Tidy(Replay(c, body, id)) && Tidy(SendPosition(c, id))
    ensures c.closing ==> Replay(c, body, id).out == c.out && SendPosition(c, id).out == c.out
  {
    Relabelled(c, c.held, id);
    QueueTidy(c.(lastLogged := id), if c.edge then Logged(id, body) else Raw(body));
    QueueTidy(c.(lastLogged := id), Position(id));
  }

  lemma AnswerTidy(c: Conn, status: int)
    requires Tidy(c)
    ensures Tidy(Answer(c, status))
  {
    var n :| 0 <= n <= |c.out| && EndsAt(c, n);
    var r := Answer(c, status);
    assert r.out[n..] == c.out[n..] || r.out[n..] == [SocketClose(status)];
    assert EndsAt(r, n);
  }
}
