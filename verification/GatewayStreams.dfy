/**
 * What a connection sends, over any calls (GatewayConnection.cs, lines 60-180): the frames of everything it was given,
 * in order, as long as it is not closed; a first part of them once it is.
 */
module GatewayStreams {
  import opened Options
  import opened GatewayLog
  import opened GatewayConnections

  // ---- One delivery ----

  /**
   * A delivery on an open connection that holds nothing back, with room, is one frame more at the end of the queue: the
   * message as it is on a game's own socket; on a link with its place in the log, if it has one and that is new. With
   * no room it is the connection's end.
   */
  lemma DeliveryAdds(c: Conn, body: Body, id: Option<nat>)
    requires !c.closing && c.held.None?
    ensures var r := Deliver(c, body, id);
      var frame := if !c.edge then Raw(body) else if id.None? then Unlogged(body) else Logged(id.value, body);
      if c.edge && id.Some? && id.value <= c.lastLogged then r == c
      else if !Room(c) then r.closing && r.dropped && r.out == c.out
      else
        && r.out == c.out + [Data(frame)] && !r.closing && r.held.None? && r.written == c.written
        && r.lastLogged == if c.edge && id.Some? then id.value else c.lastLogged
  {
  }

  /** While a log is replayed, a delivery is held, behind what is held already. */
  lemma DeliveryHeld(c: Conn, body: Body, id: Option<nat>)
    requires c.held.Some?
    ensures Deliver(c, body, id) == c.(held := Some(c.held.value + [HeldMessage(body, id)]))
  {
  }

  /**
   * The first to ask closes a connection: on a link by its instruction and the link's own close, as far as they fit.
   */
  lemma CloseAdds(c: Conn, code: Option<int>)
    requires !c.closing && |c.out| - c.written + 1 < QUEUE_LIMIT
    ensures var r := CloseFor(c, code);
      && r.closing && r.closedGame && r.held == c.held && r.written == c.written
      && (if c.edge
          then !r.dropped == !c.dropped
               && r.out == c.out + [Data(Close(if code.Some? then code.value else 0)), SocketClose(NORMAL_CLOSURE)]
          else r.dropped == (c.dropped || code.None?)
               && r.out == c.out + if code.Some? then [SocketClose(code.value)] else [])
  {
  }

  // ---- Any calls ----

  datatype Call =
    | Sending(body: Body)
    | Delivering(body: Body, id: Option<nat>)
    | Disconnecting(code: Option<int>, id: Option<nat>)
    | Beginning(after: nat)
    | Replaying(body: Body, place: nat)
    | Finishing(replayed: nat)
    | Positioning(head: nat)
    | Answering(status: int)
    | ClosingFor(code: Option<int>)
    | Writing

  function Called(c: Conn, call: Call): Conn {
    match call
    case Sending(body) => Send(c, body)
    case Delivering(body, id) => Deliver(c, body, id)
    case Disconnecting(code, id) => Disconnected(c, code, id)
    case Beginning(after) => BeginReplay(c, after)
    case Replaying(body, id) => Replay(c, body, id)
    case Finishing(replayed) => EndReplay(c, replayed)
    case Positioning(head) => SendPosition(c, head)
    case Answering(status) => Answer(c, status)
    case ClosingFor(code) => CloseFor(c, code)
    case Writing => if c.written < |c.out| then c.(written := c.written + 1) else c
  }

  function CalledAll(c: Conn, calls: seq<Call>): Conn {
    if calls == [] then c else Called(CalledAll(c, calls[..|calls| - 1]), calls[|calls| - 1])
  }

  /** What a connection that never closes, with room for everything, would have sent by now; and what it holds. */
  datatype Stream = Stream(frames: seq<Frame>, last: nat, holding: Option<seq<Held>>)

  function Framed(edge: bool, body: Body): Frame {
    if edge then Unlogged(body) else Raw(body)
  }

  /** One message live: on a link, one with a place in the log counts only if it is past the last. */
  function Given(edge: bool, s: Stream, body: Body, id: Option<nat>): Stream {
    if edge && id.Some?
    then (if id.value <= s.last then s else s.(frames := s.frames + [Logged(id.value, body)], last := id.value))
    else s.(frames := s.frames + [Framed(edge, body)])
  }

  /** What was held, in order, but for what the replay sent already. */
  function GivenAll(edge: bool, s: Stream, held: seq<Held>, replayed: nat): Stream {
    if held == [] then s
    else
      var before, item := GivenAll(edge, s, held[..|held| - 1], replayed), held[|held| - 1];
      if item.HeldClose? || (item.id.Some? && item.id.value <= replayed) then before
      else Given(edge, before, item.body, item.id)
  }

  function Streamed(edge: bool, s: Stream, call: Call): Stream {
    match call
    case Sending(body) => s.(frames := s.frames + [Framed(edge, body)])
    case Delivering(body, id) =>
      if s.holding.Some? then s.(holding := Some(s.holding.value + [HeldMessage(body, id)]))
      else Given(edge, s, body, id)
    case Disconnecting(code, id) =>
      if s.holding.Some? then s.(holding := Some(s.holding.value + [HeldClose(code, id)])) else s
    case Beginning(after) => s.(holding := Some([]), last := after)
    case Replaying(body, id) => s.(frames := s.frames + [if edge then Logged(id, body) else Raw(body)], last := id)
    case Finishing(replayed) =>
      GivenAll(edge, s.(holding := None), if s.holding.Some? then s.holding.value else [], replayed)
    case Positioning(head) => if edge then s.(frames := s.frames + [Position(head)], last := head) else s
    case Answering(_) => s
    case ClosingFor(_) => s
    case Writing => s
  }

  function StreamedAll(edge: bool, calls: seq<Call>): Stream {
    if calls == [] then Stream([], 0, None)
    else Streamed(edge, StreamedAll(edge, calls[..|calls| - 1]), calls[|calls| - 1])
  }

  /** The frames queued, but for the instruction to close. */
  function FramesOf(out: seq<Outgoing>): seq<Frame> {
    if out == [] then []
    else FramesOf(out[..|out| - 1])
         + var last := out[|out| - 1]; if last.Data? && !last.frame.Close? then [last.frame] else []
  }

  lemma FramesAdd(out: seq<Outgoing>, item: Outgoing)
    ensures FramesOf(out + [item]) == FramesOf(out) + if item.Data? && !item.frame.Close? then [item.frame] else []
  {
    assert (out + [item])[..|out|] == out;
  }

  /** While it is open, a connection has queued the whole of the stream; once it is closing, what it had by then. */
  ghost predicate Follows(c: Conn, s: Stream) {
    && FramesOf(c.out) <= s.frames
    && (!c.closing ==> FramesOf(c.out) == s.frames && c.lastLogged == s.last && c.held == s.holding)
  }

  lemma QueueFollows(c: Conn, s: Stream, frame: Frame, last: nat)
    requires Follows(c, s) && !frame.Close?
    ensures Follows(Queue(c.(lastLogged := last), frame), s.(frames := s.frames + [frame], last := last))
    ensures Queue(c.(lastLogged := last), frame).edge == c.edge
  {
    FramesAdd(c.out, Data(frame));
  }

  /** Whatever a closing connection is told, the stream only grows past it. */
  lemma ClosedFollows(c: Conn, s: Stream, r: Conn, t: Stream)
    requires Follows(c, s) && s.frames <= t.frames && r.closing && FramesOf(r.out) == FramesOf(c.out)
    ensures Follows(r, t)
  {
  }

  lemma CloseFollows(c: Conn, s: Stream, code: Option<int>)
    requires Follows(c, s)
    ensures Follows(CloseFor(c, code), s) && CloseFor(c, code).closing && CloseFor(c, code).edge == c.edge
    ensures FramesOf(CloseFor(c, code).out) == FramesOf(c.out)
  {
    var close, end := Data(Close(if code.Some? then code.value else 0)), SocketClose(NORMAL_CLOSURE);
    FramesAdd(c.out, close);
    FramesAdd(c.out + [close], end);
    if code.Some? { FramesAdd(c.out, SocketClose(code.value)); }
  }

  lemma GivenFollows(c: Conn, s: Stream, body: Body, id: Option<nat>)
    requires Follows(c, s) && c.held.None?
    ensures var r := DeliverNow(c, body, id);
      Follows(r, Given(c.edge, s, body, id)) && r.edge == c.edge && r.held == c.held && (c.closing ==> r.closing)
  {
    hide Follows, Queue;
    if c.edge && id.Some? {
      if c.closing || id.value > c.lastLogged {
        QueueFollows(c, s, Logged(id.value, body), id.value);
      }
      if c.closing { ClosedStays(c, s, body, id); }
      LastIs(c, s);
      QueueKeeps(c.(lastLogged := id.value), Logged(id.value, body));
    } else {
      QueueFollows(c, s, Framed(c.edge, body), c.lastLogged);
      LastKept(c, s, body);
      QueueKeeps(c, Framed(c.edge, body));
    }
  }

  lemma QueueKeeps(c: Conn, frame: Frame)
    ensures Queue(c, frame).held == c.held && Queue(c, frame).edge == c.edge && (c.closing ==> Queue(c, frame).closing)
  {
  }

  lemma LastIs(c: Conn, s: Stream)
    requires Follows(c, s)
    ensures !c.closing ==> c.lastLogged == s.last
  {
  }

  lemma LastKept(c: Conn, s: Stream, body: Body)
    requires Follows(c, s)
    ensures Follows(Queue(c, Framed(c.edge, body)), s.(frames := s.frames + [Framed(c.edge, body)]))
  {
    FramesAdd(c.out, Data(Framed(c.edge, body)));
  }

  lemma ClosedStays(c: Conn, s: Stream, body: Body, id: Option<nat>)
    requires Follows(c, s) && c.closing
    ensures Follows(DeliverNow(c, body, id), Given(c.edge, s, body, id))
  {
    assert DeliverNow(c, body, id).out == c.out;
  }

  lemma {:induction false} FlushFollows(c: Conn, s: Stream, held: seq<Held>, replayed: nat)
    requires Follows(c, s) && c.held.None?
    ensures var r := Flush(c, held, replayed);
      Follows(r, GivenAll(c.edge, s, held, replayed)) && r.edge == c.edge && r.held.None?
    decreases |held|
  {
    hide Follows, DeliverNow, CloseFor, Given;
    if held != [] {
      var before, item := held[..|held| - 1], held[|held| - 1];
      FlushFollows(c, s, before, replayed);
      var m, n := Flush(c, before, replayed), GivenAll(c.edge, s, before, replayed);
      if !(item.id.Some? && item.id.value <= replayed) {
        match item
        case HeldClose(code, _) =>
          CloseFollows(m, n, code);
          CloseHolds(m, code);
        case HeldMessage(body, id) => GivenFollows(m, n, body, id);
      }
    }
  }

  lemma CloseHolds(c: Conn, code: Option<int>)
    ensures CloseFor(c, code).held == c.held
  {
  }

  lemma ReleasedFollows(c: Conn, s: Stream)
    requires Follows(c, s)
    ensures Follows(c.(held := None), s.(holding := None))
  {
  }

  lemma {:induction false} GivenAllGrows(edge: bool, s: Stream, held: seq<Held>, replayed: nat)
    ensures s.frames <= GivenAll(edge, s, held, replayed).frames
    decreases |held|
  {
    if held != [] { GivenAllGrows(edge, s, held[..|held| - 1], replayed); }
  }

  lemma EndFollows(c: Conn, s: Stream, replayed: nat)
    requires Follows(c, s)
    ensures Follows(EndReplay(c, replayed), Streamed(c.edge, s, Finishing(replayed)))
      && EndReplay(c, replayed).edge == c.edge
  {
    hide Follows, Flush, GivenAll;
    var held := if c.held.Some? then c.held.value else [];
    ReleasedFollows(c, s);
    FlushFollows(c.(held := None), s.(holding := None), held, replayed);
    if c.closing {
      var all := if s.holding.Some? then s.holding.value else [];
      GivenAllGrows(c.edge, s.(holding := None), all, replayed);
      FlushedClosing(c.(held := None), held, replayed);
      ClosedFollows(c, s, EndReplay(c, replayed), Streamed(c.edge, s, Finishing(replayed)));
    } else {
      HoldsSame(c, s);
    }
  }

  lemma HoldsSame(c: Conn, s: Stream)
    requires Follows(c, s) && !c.closing
    ensures c.held == s.holding
  {
  }

  lemma {:induction false} FlushedClosing(c: Conn, held: seq<Held>, replayed: nat)
    requires c.closing
    ensures var r := Flush(c, held, replayed); r.closing && FramesOf(r.out) == FramesOf(c.out)
    decreases |held|
  {
    if held != [] { FlushedClosing(c, held[..|held| - 1], replayed); }
  }

  lemma AnswerFollows(c: Conn, s: Stream, status: int)
    requires Follows(c, s)
    ensures Follows(Answer(c, status), s) && Answer(c, status).edge == c.edge
  {
    FramesAdd(c.out, SocketClose(status));
  }

  lemma HeldFollows(c: Conn, s: Stream, item: Held)
    requires Follows(c, s) && c.held.Some?
    ensures Follows(c.(held := Some(c.held.value + [item])),
                    if s.holding.Some? then s.(holding := Some(s.holding.value + [item])) else s)
  {
  }

  lemma CallFollows(c: Conn, s: Stream, call: Call)
    requires Follows(c, s)
    ensures Follows(Called(c, call), Streamed(c.edge, s, call)) && Called(c, call).edge == c.edge
  {
    hide CloseFor, Flush, GivenAll, Answer, DeliverNow, FramesOf;
    match call
    case Sending(body) =>
      LastKept(c, s, body);
      QueueKeeps(c, Framed(c.edge, body));
    case Delivering(body, id) => DeliverFollows(c, s, body, id);
    case Disconnecting(code, id) =>
      if c.held.Some? { HeldFollows(c, s, HeldClose(code, id)); } else { CloseFollows(c, s, code); }
    case Beginning(_) =>
    case Replaying(body, id) => QueueFollows(c, s, if c.edge then Logged(id, body) else Raw(body), id);
    case Finishing(replayed) => EndFollows(c, s, replayed);
    case Positioning(head) => QueueFollows(c, s, Position(head), head);
    case Answering(status) => AnswerFollows(c, s, status);
    case ClosingFor(code) => CloseFollows(c, s, code);
    case Writing =>
  }

  lemma DeliverFollows(c: Conn, s: Stream, body: Body, id: Option<nat>)
    requires Follows(c, s)
    ensures Follows(Deliver(c, body, id), Streamed(c.edge, s, Delivering(body, id)))
      && Deliver(c, body, id).edge == c.edge
  {
    hide Follows, DeliverNow, Given;
    if c.closing {
      assert FramesOf(Deliver(c, body, id).out) == FramesOf(c.out) by { DeliverClosed(c, body, id); }
      DeliverClosed(c, body, id);
      GivenGrows(c.edge, s, body, id);
      ClosedFollows(c, s, Deliver(c, body, id), Streamed(c.edge, s, Delivering(body, id)));
    } else {
      HoldsSame(c, s);
      if c.held.Some? { HeldFollows(c, s, HeldMessage(body, id)); } else { GivenFollows(c, s, body, id); }
    }
  }

  lemma GivenGrows(edge: bool, s: Stream, body: Body, id: Option<nat>)
    ensures s.frames <= Given(edge, s, body, id).frames
  {
  }

  lemma DeliverClosed(c: Conn, body: Body, id: Option<nat>)
    requires c.closing
    ensures var r := Deliver(c, body, id); r.closing && r.edge == c.edge && r.out == c.out
  {
  }

  /**
   * Over any calls from a new connection: while it is open, it has queued exactly the frames of all it was given, in
   * order, and holds what is held back; once closing, a first part of them.
   */
  lemma {:induction false} QueueIsTheStream(edge: bool, calls: seq<Call>)
    ensures var c := CalledAll(NEW_LINK.(edge := edge), calls); c.edge == edge && Follows(c, StreamedAll(edge, calls))
    decreases |calls|
  {
    hide Follows, Called, Streamed;
    if calls == [] {
      NothingQueued(edge);
    } else {
      QueueIsTheStream(edge, calls[..|calls| - 1]);
      CallFollows(CalledAll(NEW_LINK.(edge := edge), calls[..|calls| - 1]), StreamedAll(edge, calls[..|calls| - 1]),
        calls[|calls| - 1]);
    }
  }

  lemma NothingQueued(edge: bool)
    ensures Follows(NEW_LINK.(edge := edge), Stream([], 0, None))
  {
  }

  /** What a game's own socket was given, call by call. */
  function Bodies(calls: seq<Call>): seq<Frame> {
    if calls == [] then []
    else
      var last := calls[|calls| - 1];
      Bodies(calls[..|calls| - 1])
      + if last.Sending? || last.Delivering? || last.Replaying? then [Raw(last.body)] else []
  }

  lemma {:induction false} OwnStream(calls: seq<Call>)
    requires forall call | call in calls :: !call.Beginning?
    ensures StreamedAll(false, calls).frames == Bodies(calls) && StreamedAll(false, calls).holding.None?
    decreases |calls|
  {
    if calls != [] {
      assert calls[|calls| - 1] in calls && forall call | call in calls[..|calls| - 1] :: call in calls;
      OwnStream(calls[..|calls| - 1]);
    }
  }

  /** A game's own socket, which nothing is held on: every message sent, delivered or replayed, as it is, in order. */
  lemma OwnSocketSends(calls: seq<Call>)
    requires forall call | call in calls :: !call.Beginning?
    ensures var c := CalledAll(NEW_LINK.(edge := false), calls);
      FramesOf(c.out) <= Bodies(calls) && (!c.closing ==> FramesOf(c.out) == Bodies(calls))
  {
    QueueIsTheStream(false, calls);
    OwnStream(calls);
  }
}
