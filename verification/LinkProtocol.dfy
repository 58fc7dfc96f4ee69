/**
 * A game's session across links and nodes (GatewayNode.cs lines 142-202 and 295-358, EdgeSession.cs lines 144-383): the
 * player's log, the node's two subscriptions, its connection, the link that may lose any suffix, and the edge, as one
 * step relation. Steps may come in any order their own conditions allow.
 */
module LinkProtocol {
  import opened Options
  import opened GatewayLog
  import N = GatewayConnections
  import E = EdgeSessions

  function Max(a: nat, b: nat): nat {
    if a < b then b else a
  }

  /**
   * How far a node is with a link: accepted; its claim made (a new game); the player's connection here; replaying;
   * live.
   */
  datatype Stage =
    | Opened
    | Claimed
    | Joined
    | Reading(next: nat, end: nat)
    | Live(base: nat)

  /**
   * One link to one node. The node has handled the player's ws:send up to `sendAt` and ws:disconnect up to `closeAt`
   * entries of the log, and had handled `joinedAt` and `closesFrom` of them when the connection got here; the edge has
   * received `taken` frames. What the link sends begins after `from`; `init` is the head at the claim, or what is
   * resumed after, and `handed` what the node gave it that is in no log.
   */
  datatype Link = Link(
    conn: N.Conn,
    resume: Option<nat>,
    sendAt: nat,
    closeAt: nat,
    joinedAt: nat,
    closesFrom: nat,
    stage: Stage,
    init: nat,
    from: nat,
    taken: nat,
    close: Option<int>,
    handed: seq<Body>)

  /**
   * Of what is in no log: what one link's node gave it, and what of that the edge received; or a ping of the edge's.
   */
  datatype Part = Part(handed: seq<Body>, got: seq<Body>)

  /**
   * `position` is the last position the edge was sent, `first` where what the game is sent began; `over` once the edge
   * makes no more links.
   */
  datatype World = World(
    log: seq<Entry>,
    edge: E.Edge,
    link: Option<Link>,
    position: nat,
    first: nat,
    ended: bool,
    over: bool,
    parts: seq<Part>)

  datatype Event =
    | Append(entry: Entry)
    | Attach(sendAt: nat, closeAt: nat)
    | AttachFails(now: int)
    | Claim
    | Join
    | HandleSend
    | HandleClose
    | HandleUnlogged(body: Body)
    | ReadLog
    | ReplayNext
    | FinishReplay
    | NodeCloses(status: Option<int>)
    | Write
    | Receive
    | LinkEnds(now: int)
    | GameEnds(dropped: bool, code: int)
    | GiveUp(code: int)
    | PingGame

  // ---- What each step does ----

  predicate Here(l: Link) {
    !l.stage.Opened? && !l.stage.Claimed?
  }

  predicate Enabled(w: World, ev: Event, connection: string) {
    match ev
    case Append(_) => true
    case Attach(sendAt, closeAt) => w.link.None? && !w.over && !w.ended && sendAt <= |w.log| && closeAt <= |w.log|
    case AttachFails(_) => w.link.None? && !w.over
    case Claim => w.link.Some? && w.link.value.resume.None? && w.link.value.stage.Opened?
    case Join =>
      w.link.Some? && (if w.link.value.resume.Some? then w.link.value.stage.Opened? else w.link.value.stage.Claimed?)
    case HandleSend => w.link.Some? && w.link.value.sendAt < |w.log|
    case HandleClose => w.link.Some? && w.link.value.closeAt < |w.log|
    case HandleUnlogged(body) => w.link.Some? && Here(w.link.value) && body != IdFrame
    case ReadLog => w.link.Some? && w.link.value.stage.Joined? && w.link.value.init <= |w.log|
    case ReplayNext =>
      w.link.Some? && w.link.value.stage.Reading? && w.link.value.stage.next < w.link.value.stage.end <= |w.log|
    case FinishReplay =>
      w.link.Some? && w.link.value.stage.Reading? && w.link.value.stage.next == w.link.value.stage.end
    case NodeCloses(_) => w.link.Some?
    case Write => w.link.Some? && w.link.value.conn.written < |w.link.value.conn.out| && !w.link.value.conn.dropped
    case Receive =>
      w.link.Some? && w.link.value.taken < w.link.value.conn.written <= |w.link.value.conn.out|
      && w.link.value.conn.out[w.link.value.taken].Data?
    case LinkEnds(_) => w.link.Some?
    case GameEnds(_, _) => !w.ended
    case GiveUp(_) => w.link.None? && !w.over
    case PingGame => w.edge.pinging
  }

  function Attached(w: World, sendAt: nat, closeAt: nat): World {
    var resume := E.ResumeAfter(w.edge);
    var at := if resume.Some? then resume.value else 0;
    var conn := if resume.Some? then N.BeginReplay(N.NEW_LINK, at) else N.NEW_LINK;
    w.(edge := E.StopPinging(w.edge),
       link := Some(Link(conn, resume, sendAt, closeAt, sendAt, closeAt, Opened, at, at, 0, None, [])))
  }

  /** The claim: the log's head first, then the id frame and a ping. */
  function Claiming(l: Link, head: nat): Link {
    l.(conn := N.Send(N.Send(N.SendPosition(l.conn, head), IdFrame), Ping), init := head, from := head,
      stage := Claimed, handed := l.handed + [IdFrame, Ping])
  }

  /** The player's connection on this node is this one now: deliveries reach it from here on. */
  function Joining(l: Link): Link {
    var l1 := l.(joinedAt := l.sendAt, closesFrom := l.closeAt);
    if l.resume.Some? then l1.(stage := Joined)
    else l1.(stage := Live(Max(l.init, l.sendAt)), from := Max(l.init, l.sendAt))
  }

  function Delivering(l: Link, log: seq<Entry>): Link
    requires l.sendAt < |log|
  {
    var l1 := l.(sendAt := l.sendAt + 1);
    if log[l.sendAt].Message? && Here(l) then l1.(conn := N.Deliver(l.conn, log[l.sendAt].body, Some(l.sendAt + 1)))
    else l1
  }

  function Closing(l: Link, log: seq<Entry>, connection: string): Link
    requires l.closeAt < |log|
  {
    var l1 := l.(closeAt := l.closeAt + 1);
    if AppliesTo(log[l.closeAt], connection) && Here(l)
    then l1.(conn := N.Disconnected(l.conn, log[l.closeAt].code, Some(l.closeAt + 1))) else l1
  }

  /** One entry of the log replayed; a close that applies ends the replay there. */
  function Replaying(l: Link, log: seq<Entry>, connection: string): Link
    requires l.stage.Reading? && l.stage.next < l.stage.end <= |log|
  {
    var entry, id := log[l.stage.next], l.stage.next + 1;
    if entry.Message? then l.(conn := N.Replay(l.conn, entry.body, id), stage := Reading(id, l.stage.end))
    else if AppliesTo(entry, connection) then l.(conn := N.CloseFor(l.conn, entry.code), stage := Reading(id, id))
    else l.(stage := Reading(id, l.stage.end))
  }

  function SentTo(toGame: seq<E.ToGame>): seq<Sent> {
    if toGame == [] then []
    else SentTo(toGame[..|toGame| - 1])
         + var last := toGame[|toGame| - 1]; if last.ForGame? && last.id.Some? then [(last.id.value, last.body)] else []
  }

  /** The bodies of a link's frames that are in no log. */
  function UnloggedOut(out: seq<N.Outgoing>): seq<Body> {
    if out == [] then []
    else UnloggedOut(out[..|out| - 1])
         + var last := out[|out| - 1]; if last.Data? && last.frame.Unlogged? then [last.frame.body] else []
  }

  /** The frames of a link that the edge received. */
  function Taken(l: Link): seq<N.Outgoing> {
    if l.taken <= |l.conn.out| then l.conn.out[..l.taken] else l.conn.out
  }

  function Receiving(w: World, l: Link): World
    requires l.taken < |l.conn.out| && l.conn.out[l.taken].Data?
  {
    var frame := l.conn.out[l.taken].frame;
    var edge := E.Receive(w.edge, frame);
    var before, after := SentTo(w.edge.toGame), SentTo(edge.toGame);
    w.(edge := edge,
       link := Some(l.(taken := l.taken + 1, close := if frame.Close? then Some(frame.code) else l.close)),
       position := if frame.Position? then frame.id else w.position,
       first := if before != [] then w.first
                else if frame.Position? then frame.id
                else if after != [] && l.resume.None? then l.from else w.first)
  }

  /**
   * The link ends, and whatever was not received is lost: the game is closed if the node asked for it, or is to be
   * moved.
   */
  function Ending(w: World, l: Link, now: int): World {
    var w1 := w.(link := None, parts := w.parts + [Part(l.handed, UnloggedOut(Taken(l)))]);
    if l.close.Some? then w1.(edge := E.CloseGame(w.edge, l.close.value), over := true)
    else if w.ended then w1.(over := true)
    else w1.(edge := E.Detach(w.edge, now))
  }

  function After(w: World, ev: Event, connection: string): World
    requires Enabled(w, ev, connection)
  {
    match ev
    case Append(entry) => w.(log := w.log + [entry])
    case Attach(sendAt, closeAt) => Attached(w, sendAt, closeAt)
    case AttachFails(now) => w.(edge := E.Detach(w.edge, now))
    case Claim => w.(link := Some(Claiming(w.link.value, |w.log|)))
    case Join => w.(link := Some(Joining(w.link.value)))
    case HandleSend => w.(link := Some(Delivering(w.link.value, w.log)))
    case HandleClose => w.(link := Some(Closing(w.link.value, w.log, connection)))
    case HandleUnlogged(body) =>
      var l := w.link.value;
      w.(link := Some(l.(conn := N.Deliver(l.conn, body, None), handed := l.handed + [body])))
    case ReadLog => var l := w.link.value; w.(link := Some(l.(stage := Reading(l.init, |w.log|))))
    case ReplayNext => w.(link := Some(Replaying(w.link.value, w.log, connection)))
    case FinishReplay =>
      var l := w.link.value;
      w.(link := Some(l.(conn := N.EndReplay(l.conn, l.stage.end), stage := Live(l.stage.end))))
    case NodeCloses(status) => var l := w.link.value; w.(link := Some(l.(conn := N.CloseFor(l.conn, status))))
    case Write => var l := w.link.value; w.(link := Some(l.(conn := l.conn.(written := l.conn.written + 1))))
    case Receive => Receiving(w, w.link.value)
    case LinkEnds(now) => Ending(w, w.link.value, now)
    case GameEnds(dropped, code) => w.(ended := true, edge := if dropped then w.edge else E.CloseGame(w.edge, code))
    case GiveUp(code) => w.(edge := E.CloseGame(w.edge, code), over := true)
    case PingGame => w.(edge := E.SendGame(w.edge, None, Ping), parts := w.parts + [Part([Ping], [Ping])])
  }

  // ---- What a link has queued ----

  function LoggedOut(out: seq<N.Outgoing>): seq<Sent> {
    if out == [] then []
    else LoggedOut(out[..|out| - 1])
         + var last := out[|out| - 1]; if last.Data? && last.frame.Logged? then [(last.frame.id, last.frame.body)]
           else []
  }

  lemma LoggedAdd(out: seq<N.Outgoing>, item: N.Outgoing)
    ensures LoggedOut(out + [item])
      == LoggedOut(out) + if item.Data? && item.frame.Logged? then [(item.frame.id, item.frame.body)] else []
  {
    assert (out + [item])[..|out|] == out;
  }

  /** What was received is a first part of what was queued. */
  lemma {:induction false} LoggedPrefix(out: seq<N.Outgoing>, n: nat)
    requires n <= |out|
    ensures |LoggedOut(out[..n])| <= |LoggedOut(out)|
    ensures LoggedOut(out[..n]) == LoggedOut(out)[..|LoggedOut(out[..n])|]
    decreases |out|
  {
    if n < |out| {
      LoggedPrefix(out[..|out| - 1], n);
      assert out[..|out| - 1][..n] == out[..n];
    } else {
      assert out[..n] == out;
    }
  }

  /**
   * The order of a link's frames: a new game's position, then its id frame, then the rest; a resumed one gets neither.
   */
  ghost predicate Shape(l: Link) {
    var out := l.conn.out;
    && (forall i | 0 <= i < |out| && out[i].Data? :: FrameOk(l, i))
    && (forall i | 0 <= i < |out| && out[i].Data? && out[i].frame.Logged? && l.resume.None? ::
          2 <= i && out[0] == N.Data(Position(l.init)) && out[1] == N.Data(Unlogged(IdFrame)))
  }

  ghost predicate FrameOk(l: Link, i: int)
    requires 0 <= i < |l.conn.out| && l.conn.out[i].Data?
  {
    match l.conn.out[i].frame
    case Raw(_) => false
    case Unlogged(body) => body == IdFrame ==> i == 1 && l.resume.None? && l.conn.out[0] == N.Data(Position(l.init))
    case Position(id) => i == 0 && id == l.init && l.resume.None?
    case Logged(_, _) => true
    case Close(_) => true
  }

  /** The logged messages held, in order. */
  function HeldSent(held: seq<N.Held>): seq<Sent> {
    if held == [] then []
    else HeldSent(held[..|held| - 1])
         + var last := held[|held| - 1]; if last.HeldMessage? && last.id.Some? then [(last.id.value, last.body)] else []
  }

  lemma HeldAdd(held: seq<N.Held>, item: N.Held)
    ensures HeldSent(held + [item])
      == HeldSent(held) + if item.HeldMessage? && item.id.Some? then [(item.id.value, item.body)] else []
  {
    assert (held + [item])[..|held|] == held;
  }

  ghost predicate HeldOk(held: seq<N.Held>) {
    forall item | item in held :: item.HeldMessage? && item.id.None? ==> item.body != IdFrame
  }

  /** No close in a part of the log applies to the connection. */
  ghost predicate NoClose(log: seq<Entry>, connection: string, after: nat, upto: nat)
    requires upto <= |log|
  {
    forall i | after <= i < upto :: !AppliesTo(log[i], connection)
  }

  /** While replaying: what arrived since is held, in the order of its channel. */
  ghost predicate Holding(log: seq<Entry>, l: Link)
    requires l.sendAt <= |log|
  {
    && l.conn.held.Some? && l.joinedAt <= l.sendAt
    && HeldSent(l.conn.held.value) == MessagesIn(log, l.joinedAt, l.sendAt)
  }

  /** Live: everything up to what the replay read, and what was handled since, is queued, each once. */
  ghost predicate Sending(log: seq<Entry>, l: Link, base: nat)
    requires l.sendAt <= |log|
  {
    && l.conn.held.None? && l.from <= base <= |log| && l.init <= l.from
    && (l.sendAt < base ==> l.init == l.from)
    && LoggedOut(l.conn.out) == MessagesIn(log, l.from, Max(base, l.sendAt))
    && l.conn.lastLogged == LastId(LoggedOut(l.conn.out), l.init)
  }

  /** The edge has been sent its position, then the game's id frame. */
  ghost predicate Introduced(l: Link) {
    2 <= |l.conn.out| && l.conn.out[0] == N.Data(Position(l.init)) && l.conn.out[1] == N.Data(Unlogged(IdFrame))
  }

  ghost predicate StageOk(log: seq<Entry>, connection: string, l: Link)
    requires l.sendAt <= |log|
  {
    var sent := LoggedOut(l.conn.out);
    match l.stage
    case Opened =>
      sent == [] && (if l.resume.Some? then l.conn.held == Some([]) && l.conn.lastLogged == l.init
        else l.conn.held.None? && l.conn.out == [])
    case Claimed =>
      sent == [] && l.conn.held.None? && l.resume.None? && l.conn.lastLogged == l.init && l.from == l.init
        && Introduced(l)
    case Joined => sent == [] && l.resume.Some? && l.conn.lastLogged == l.init && Holding(log, l)
    case Reading(next, end) =>
      && l.resume.Some? && Holding(log, l) && l.init <= next <= end <= |log| && l.joinedAt <= end
      && sent == MessagesIn(log, l.init, next) && l.conn.lastLogged == LastId(sent, l.init)
        && NoClose(log, connection, l.init, next)
    case Live(base) =>
      Sending(log, l, base) && if l.resume.Some? then NoClose(log, connection, l.init, base) else Introduced(l)
  }

  ghost predicate LinkOk(log: seq<Entry>, connection: string, l: Link) {
    var c := l.conn;
    && c.edge && N.Tidy(c) && Shape(l)
    && l.taken <= c.written <= |c.out| && l.sendAt <= |log| && l.closeAt <= |log| && l.from <= |log| && l.init <= |log|
    && l.init <= l.from && (l.resume.Some? ==> l.resume.value == l.init == l.from)
    && (c.held.Some? ==> HeldOk(c.held.value))
    && (l.resume.None? && !Here(l) ==> LoggedOut(c.out) == [])
    && (l.resume.None? && l.stage.Opened? ==> forall i | 0 <= i < |c.out| && c.out[i].Data? :: c.out[i].frame.Close?)
    && Complete(log, l.from, LoggedOut(c.out))
    && (!c.closing ==> StageOk(log, connection, l))
  }

  // ---- What the game was sent ----

  /** Nothing the edge queued for the game is lost: it is neither being closed nor was it dropped. */
  predicate Intact(e: E.Edge) {
    !e.closing && !e.aborted
  }

  /** Between two links, the game was sent everything up to the cursor, once it has its id frame. */
  ghost predicate EdgeOk(w: World) {
    var sent := SentTo(w.edge.toGame);
    && E.Tidy(w.edge) && w.first <= |w.log| && Complete(w.log, w.first, sent)
    && (w.edge.cursor.Some? ==> w.edge.cursor.value <= |w.log|)
    && (w.edge.handshaken ==> w.edge.cursor.Some? && w.first <= w.edge.cursor.value)
    && (!w.edge.handshaken ==> sent == [])
    && (w.edge.handshaken && Intact(w.edge) ==> sent == MessagesIn(w.log, w.first, w.edge.cursor.value))
  }

  /** With a link, the edge is where the frames it received put it. */
  ghost predicate InStep(w: World, l: Link)
    requires l.taken <= |l.conn.out|
  {
    var received, sent := LoggedOut(l.conn.out[..l.taken]), SentTo(w.edge.toGame);
    if l.resume.Some? then
      && w.edge.handshaken && w.edge.cursor == Some(LastId(received, l.init)) && w.first <= l.init
    else if l.taken >= 1 && l.conn.out[0] == N.Data(Position(l.init)) then
      && w.edge.cursor == Some(LastId(received, l.init))
      && (w.edge.handshaken <==> l.taken >= 2 && l.conn.out[1] == N.Data(Unlogged(IdFrame)))
      && (if sent == [] then w.first == l.init else w.first == l.from)
      && sent <= received && (Intact(w.edge) ==> sent == received)
    else
      !w.edge.handshaken
  }

  ghost predicate Inv(w: World, connection: string) {
    && EdgeOk(w)
    && (w.link.Some? ==> LinkOk(w.log, connection, w.link.value) && InStep(w, w.link.value))
  }

  const START := World([], E.NEW_EDGE, None, 0, 0, false, false, [])

  lemma StartOk(connection: string, log: seq<Entry>)
    ensures Inv(START.(log := log), connection)
  {
  }

  // ---- Each call on the connection keeps what the link is ----

  lemma CloseAdds(c: N.Conn, code: Option<int>)
    requires c.edge
    ensures var r := N.CloseFor(c, code);
      && r.closing && r.edge && c.out <= r.out && r.held == c.held && r.written == c.written
        && r.lastLogged == c.lastLogged
      && (forall i | |c.out| <= i < |r.out| && r.out[i].Data? :: r.out[i].frame.Close?)
  {
  }

  lemma {:induction false} LoggedTail(out: seq<N.Outgoing>, more: seq<N.Outgoing>)
    requires out <= more && forall i | |out| <= i < |more| && more[i].Data? :: !more[i].frame.Logged?
    ensures LoggedOut(more) == LoggedOut(out)
    decreases |more|
  {
    if |out| < |more| {
      LoggedTail(out, more[..|more| - 1]);
    } else {
      assert out == more;
    }
  }

  /** A link closed, or one whose socket is gone: what it queued stays as complete as it was. */
  lemma ClosedKeeps(log: seq<Entry>, connection: string, l: Link, r: Link)
    requires LinkOk(log, connection, l)
    requires r == l.(conn := r.conn, stage := r.stage, closeAt := r.closeAt, sendAt := r.sendAt)
    requires r.closeAt <= |log| && r.sendAt <= |log|
    requires (Here(l) <==> Here(r)) && (r.stage.Opened? ==> l.stage.Opened?)
    requires r.conn.closing && r.conn.edge && N.Tidy(r.conn) && r.conn.written == l.conn.written
    requires r.conn.held.Some? ==> HeldOk(r.conn.held.value)
    requires l.conn.out <= r.conn.out
    requires forall i | |l.conn.out| <= i < |r.conn.out| && r.conn.out[i].Data? :: r.conn.out[i].frame.Close?
    ensures LinkOk(log, connection, r)
  {
    LoggedTail(l.conn.out, r.conn.out);
    forall i | 0 <= i < |r.conn.out| && r.conn.out[i].Data? ensures FrameOk(r, i) {
      if i < |l.conn.out| { assert FrameOk(l, i); }
    }
  }

  lemma CloseKeeps(log: seq<Entry>, connection: string, l: Link, r: Link, code: Option<int>)
    requires LinkOk(log, connection, l)
    requires r == l.(conn := N.CloseFor(l.conn, code), stage := r.stage, closeAt := r.closeAt) && r.closeAt <= |log|
    requires (Here(l) <==> Here(r)) && (r.stage.Opened? ==> l.stage.Opened?)
    ensures LinkOk(log, connection, r) && r.conn.closing && l.conn.out <= r.conn.out
  {
    CloseAdds(l.conn, code);
    N.CloseForTidy(l.conn, code);
    ClosedKeeps(log, connection, l, r);
  }

  /** With the edge as it was, a link that only queued more is still in step with it. */
  lemma StillInStep(w: World, l: Link, w2: World, l2: Link)
    requires l.taken <= |l.conn.out| && InStep(w, l)
    requires w2.edge == w.edge && w2.first == w.first
    requires l2.taken == l.taken && l.conn.out <= l2.conn.out && l2.resume == l.resume
    requires l2.init == l.init
      || (l.resume.None? && forall i | 0 <= i < |l.conn.out| && l.conn.out[i].Data? :: l.conn.out[i].frame.Close?)
    requires l2.from == l.from || SentTo(w.edge.toGame) == []
    requires l2.init != l.init ==> l.taken <= |l2.conn.out| && (l.taken >= 1 ==> l2.conn.out[0] == l.conn.out[0])
    ensures InStep(w2, l2)
  {
    assert l2.conn.out[..l2.taken] == l.conn.out[..l.taken];
  }

  // ---- The node's steps ----

  lemma AppendStage(log: seq<Entry>, more: seq<Entry>, connection: string, l: Link)
    requires l.sendAt <= |log| && StageOk(log, connection, l)
    ensures StageOk(log + more, connection, l)
  {
    match l.stage
    case Opened =>
    case Claimed =>
    case Joined => MessagesStay(log, more, l.joinedAt, l.sendAt);
    case Reading(next, end) =>
      MessagesStay(log, more, l.joinedAt, l.sendAt);
      MessagesStay(log, more, l.init, next);
    case Live(base) => MessagesStay(log, more, l.from, Max(base, l.sendAt));
  }

  lemma AppendKeeps(w: World, connection: string, entry: Entry)
    requires Inv(w, connection)
    ensures Inv(w.(log := w.log + [entry]), connection)
  {
    CompleteStays(w.log, [entry], w.first, SentTo(w.edge.toGame));
    if w.edge.cursor.Some? { MessagesStay(w.log, [entry], w.first, w.edge.cursor.value); }
    if w.link.Some? {
      var l := w.link.value;
      CompleteStays(w.log, [entry], l.from, LoggedOut(l.conn.out));
      if !l.conn.closing { AppendStage(w.log, [entry], connection, l); }
    }
  }

  lemma AttachKeeps(w: World, connection: string, sendAt: nat, closeAt: nat)
    requires Inv(w, connection) && Enabled(w, Attach(sendAt, closeAt), connection)
    ensures Inv(After(w, Attach(sendAt, closeAt), connection), connection)
  {
    var r := After(w, Attach(sendAt, closeAt), connection);
    var l := r.link.value;
    N.NewLinkTidy();
    N.Relabelled(N.NEW_LINK, Some([]), l.init);
    assert LoggedOut(l.conn.out) == [];
    assert l.conn.out[..l.taken] == [];
  }

  lemma ClaimShape(l: Link, head: nat)
    requires l.conn.edge && l.conn.out == [] && l.conn.written == 0 && !l.conn.closing && l.resume.None?
    ensures var r := Claiming(l, head);
      && r.conn
        == l.conn.(lastLogged := head,
        out := [N.Data(Position(head)), N.Data(Unlogged(IdFrame)), N.Data(Unlogged(Ping))])
      && Shape(r) && LoggedOut(r.conn.out) == []
  {
    var r := Claiming(l, head);
    LoggedTail([], r.conn.out);
  }

  lemma ClaimKeeps(w: World, connection: string)
    requires Inv(w, connection) && Enabled(w, Claim, connection)
    ensures Inv(After(w, Claim, connection), connection)
  {
    hide EdgeOk, LinkOk, InStep, Claiming;
    var l := w.link.value;
    ClaimLink(w.log, connection, l);
    TakenInRange(w.log, connection, l);
    SentSoFar(w);
    ClaimStep(w, connection, l);
    EdgeLogOnly(w, After(w, Claim, connection));
  }

  lemma TakenInRange(log: seq<Entry>, connection: string, l: Link)
    requires LinkOk(log, connection, l)
    ensures l.taken <= |l.conn.out|
  {
  }

  lemma SentSoFar(w: World)
    requires EdgeOk(w)
    ensures !w.edge.handshaken ==> SentTo(w.edge.toGame) == []
  {
  }

  lemma EdgeLogOnly(w: World, r: World)
    requires EdgeOk(w) && r.edge == w.edge && r.first == w.first && r.log == w.log
    ensures EdgeOk(r)
  {
  }

  lemma ClaimStep(w: World, connection: string, l: Link)
    requires w.link == Some(l) && l.resume.None? && l.stage.Opened? && LinkOk(w.log, connection, l)
    requires l.taken <= |l.conn.out| && InStep(w, l) && (!w.edge.handshaken ==> SentTo(w.edge.toGame) == [])
    ensures var r := Claiming(l, |w.log|); r.taken <= |r.conn.out| && InStep(w.(link := Some(r)), r)
  {
    hide Complete, N.Tidy, HeldOk, StageOk;
    var r := Claiming(l, |w.log|);
    if l.conn.closing { ClosingClaim(l, |w.log|); } else { UnclosedOpened(w.log, connection, l); }
    StillInStep(w, l, w.(link := Some(r)), r);
  }

  lemma UnclosedOpened(log: seq<Entry>, connection: string, l: Link)
    requires LinkOk(log, connection, l) && l.resume.None? && l.stage.Opened? && !l.conn.closing
    ensures l.conn.out == [] && l.taken == 0 && l.conn.written == 0 && l.conn.held.None? && l.conn.edge
      && N.Tidy(l.conn)
  {
  }

  lemma ClaimLink(log: seq<Entry>, connection: string, l: Link)
    requires LinkOk(log, connection, l) && l.resume.None? && l.stage.Opened?
    ensures LinkOk(log, connection, Claiming(l, |log|))
  {
    hide N.Tidy, N.SendPosition, N.Send, N.Queue, HeldOk;
    var r := Claiming(l, |log|);
    if l.conn.closing {
      ClosingClaim(l, |log|);
      N.Relabelled(l.conn, l.conn.held, |log|);
    } else {
      UnclosedOpened(log, connection, l);
      ClaimShape(l, |log|);
      ClaimTidy(l, |log|);
    }
  }

  lemma ClosingClaim(l: Link, head: nat)
    requires l.conn.closing && l.conn.edge
    ensures Claiming(l, head).conn == l.conn.(lastLogged := head)
  {
  }

  lemma ClaimTidy(l: Link, head: nat)
    requires N.Tidy(l.conn) && l.conn.edge
    ensures N.Tidy(Claiming(l, head).conn)
  {
    hide N.Tidy;
    N.ReplayTidy(l.conn, Ping, head);
    var c := N.SendPosition(l.conn, head);
    N.QueueTidy(c, Unlogged(IdFrame));
    N.QueueTidy(N.Send(c, IdFrame), Unlogged(Ping));
  }

  /** A node's step that only queued more keeps the whole. */
  lemma NodeStep(w: World, connection: string, r: Link)
    requires Inv(w, connection) && w.link.Some? && LinkOk(w.log, connection, r)
    requires var l := w.link.value;
      && r.taken == l.taken && l.conn.out <= r.conn.out && r.resume == l.resume && r.init == l.init
      && (r.from == l.from || (l.resume.None? && !Here(l)))
    ensures Inv(w.(link := Some(r)), connection)
  {
    hide LinkOk, EdgeOk;
    var l := w.link.value;
    TakenInRange(w.log, connection, l);
    EdgeLogOnly(w, w.(link := Some(r)));
    if r.from != l.from { NothingSent(w, connection); }
    InStepGrown(w, l, w.(link := Some(r)), r);
  }

  lemma NothingSent(w: World, connection: string)
    requires Inv(w, connection) && w.link.Some? && w.link.value.resume.None? && !Here(w.link.value)
    ensures SentTo(w.edge.toGame) == []
  {
    LoggedPrefix(w.link.value.conn.out, w.link.value.taken);
  }

  lemma InStepGrown(w: World, l: Link, w2: World, l2: Link)
    requires l.taken <= |l.conn.out| && InStep(w, l)
    requires w2.edge == w.edge && w2.first == w.first
    requires l2.taken == l.taken && l.conn.out <= l2.conn.out && l2.resume == l.resume && l2.init == l.init
    requires l2.from == l.from || SentTo(w.edge.toGame) == []
    ensures InStep(w2, l2)
  {
    StillInStep(w, l, w2, l2);
  }

  lemma JoinLink(log: seq<Entry>, connection: string, l: Link)
    requires LinkOk(log, connection, l) && (if l.resume.Some? then l.stage.Opened? else l.stage.Claimed?)
    ensures LinkOk(log, connection, Joining(l))
  {
    hide N.Tidy, HeldOk;
    var r := Joining(l);
    forall i | 0 <= i < |r.conn.out| && r.conn.out[i].Data? ensures FrameOk(r, i) { assert FrameOk(l, i); }
  }

  lemma JoinKeeps(w: World, connection: string)
    requires Inv(w, connection) && Enabled(w, Join, connection)
    ensures Inv(After(w, Join, connection), connection)
  {
    hide EdgeOk, LinkOk, InStep;
    JoinLink(w.log, connection, w.link.value);
    NodeStep(w, connection, Joining(w.link.value));
  }

  // ---- Delivery ----

  lemma PlainShape(l: Link, r: Link)
    requires Shape(l) && r.resume == l.resume && r.init == l.init && l.conn.out <= r.conn.out
    requires forall i | |l.conn.out| <= i < |r.conn.out| && r.conn.out[i].Data? :: Plain(r.conn.out[i].frame)
    requires l.resume.Some? || Introduced(l)
    ensures Shape(r)
  {
    forall i | 0 <= i < |r.conn.out| && r.conn.out[i].Data? ensures FrameOk(r, i) {
      if i < |l.conn.out| { assert FrameOk(l, i); }
    }
  }

  /** What a connection queues once the game is introduced. */
  predicate Plain(frame: Frame) {
    frame.Logged? || frame.Close? || (frame.Unlogged? && frame.body != IdFrame)
  }

  /** A message the replay sent, or the claim was after, is at or below the last sent; the next one is above it. */
  lemma LastLogged(log: seq<Entry>, l: Link, base: nat)
    requires l.sendAt < |log| && Sending(log, l, base) && log[l.sendAt].Message?
    ensures l.sendAt + 1 <= l.conn.lastLogged <==> l.sendAt < base
  {
    var upto := Max(base, l.sendAt);
    MessagesAre(log, l.from, upto);
    if l.from < l.sendAt + 1 <= upto { MessageIn(log, l.from, upto, l.sendAt + 1); }
  }

  /** Delivered already: dropped. */
  lemma SentBefore(log: seq<Entry>, connection: string, l: Link)
    requires LinkOk(log, connection, l) && l.stage.Live? && !l.conn.closing && l.sendAt < l.stage.base
    ensures LinkOk(log, connection, l.(sendAt := l.sendAt + 1))
  {
    hide N.Tidy, HeldOk, NoClose, Complete;
    forall i | 0 <= i < |l.conn.out| && l.conn.out[i].Data? ensures FrameOk(l.(sendAt := l.sendAt + 1), i) {
      assert FrameOk(l, i);
    }
  }

  /** The next one: queued after all the others. */
  lemma SentNow(log: seq<Entry>, connection: string, l: Link, c: N.Conn)
    requires LinkOk(log, connection, l) && l.stage.Live? && !l.conn.closing && l.stage.base <= l.sendAt < |log|
    requires log[l.sendAt].Message?
    requires var id := l.sendAt + 1;
      c == l.conn.(lastLogged := id, out := l.conn.out + [N.Data(Logged(id, log[l.sendAt].body))]) && N.Tidy(c)
    ensures LinkOk(log, connection, l.(conn := c, sendAt := l.sendAt + 1))
  {
    hide N.Tidy, HeldOk, NoClose, FrameOk, Shape;
    var r, id := l.(conn := c, sendAt := l.sendAt + 1), l.sendAt + 1;
    LoggedAdd(l.conn.out, N.Data(Logged(id, log[l.sendAt].body)));
    CompleteUpto(log, l.from, id);
    PlainShape(l, r);
  }

  lemma FullKeeps(log: seq<Entry>, connection: string, l: Link, r: Link)
    requires LinkOk(log, connection, l) && r == l.(conn := r.conn, sendAt := r.sendAt, closeAt := r.closeAt)
    requires r.sendAt <= |log| && r.closeAt <= |log|
    requires r.conn.closing && r.conn.out == l.conn.out && r.conn.edge && r.conn.written == l.conn.written
      && N.Tidy(r.conn)
    requires r.conn.held.Some? ==> HeldOk(r.conn.held.value)
    ensures LinkOk(log, connection, r)
  {
    ClosedKeeps(log, connection, l, r);
  }

  lemma LiveDelivery(log: seq<Entry>, connection: string, l: Link)
    requires LinkOk(log, connection, l) && l.stage.Live? && !l.conn.closing && l.sendAt < |log|
      && log[l.sendAt].Message?
    ensures var r := Delivering(l, log); LinkOk(log, connection, r) && l.conn.out <= r.conn.out
  {
    hide LinkOk, N.Tidy, Complete, Shape, StageOk;
    var r, c, id, body := Delivering(l, log), l.conn, l.sendAt + 1, log[l.sendAt].body;
    LiveParts(log, connection, l);
    LastLogged(log, l, l.stage.base);
    N.DeliverNowTidy(c, body, Some(id));
    if id <= c.lastLogged {
      SentBefore(log, connection, l);
    } else if N.Room(c) {
      SentNow(log, connection, l, r.conn);
    } else {
      FullKeeps(log, connection, l, r);
    }
  }

  lemma LiveParts(log: seq<Entry>, connection: string, l: Link)
    requires LinkOk(log, connection, l) && l.stage.Live? && !l.conn.closing
    ensures l.sendAt <= |log| && l.closeAt <= |log| && Sending(log, l, l.stage.base) && N.Tidy(l.conn) && l.conn.edge
    ensures l.conn.held.None?
  {
  }

  lemma HoldMore(log: seq<Entry>, connection: string, l: Link, item: N.Held, sendAt: nat, closeAt: nat)
    requires LinkOk(log, connection, l) && l.conn.held.Some? && Here(l)
    requires closeAt <= |log| && l.sendAt <= sendAt <= |log|
    requires item.HeldMessage? && item.id.None? ==> item.body != IdFrame
    requires HeldSent([item]) == MessagesIn(log, l.sendAt, sendAt)
    ensures var c := l.conn.(held := Some(l.conn.held.value + [item]));
      LinkOk(log, connection, l.(conn := c, sendAt := sendAt, closeAt := closeAt))
  {
    hide N.Tidy, NoClose, Complete, HeldSent, MessagesIn, LoggedOut;
    var c := l.conn.(held := Some(l.conn.held.value + [item]));
    var r := l.(conn := c, sendAt := sendAt, closeAt := closeAt);
    N.Relabelled(l.conn, c.held, c.lastLogged);
    if !l.conn.closing { HoldingMore(log, connection, l, item, sendAt, closeAt); }
    SameShape(l, r);
  }

  lemma SameShape(l: Link, r: Link)
    requires Shape(l) && r.conn.out == l.conn.out && r.resume == l.resume && r.init == l.init
    ensures Shape(r)
  {
    forall i | 0 <= i < |r.conn.out| && r.conn.out[i].Data? ensures FrameOk(r, i) { assert FrameOk(l, i); }
  }

  lemma HoldingMore(log: seq<Entry>, connection: string, l: Link, item: N.Held, sendAt: nat, closeAt: nat)
    requires LinkOk(log, connection, l) && l.conn.held.Some? && Here(l) && !l.conn.closing
    requires l.sendAt <= sendAt <= |log| && HeldSent([item]) == MessagesIn(log, l.sendAt, sendAt)
    ensures var c := l.conn.(held := Some(l.conn.held.value + [item]));
      Holding(log, l.(conn := c, sendAt := sendAt, closeAt := closeAt))
  {
    hide N.Tidy, NoClose, Complete, Shape;
    HeldAdd(l.conn.held.value, item);
    HeldAdd([], item);
    assert [] + [item] == [item];
    MessagesSplit(log, l.joinedAt, l.sendAt, sendAt);
  }

  /** An entry of the other channel, or one that comes before the connection is here. */
  lemma PassOver(log: seq<Entry>, connection: string, l: Link)
    requires LinkOk(log, connection, l) && l.sendAt < |log| && (!log[l.sendAt].Message? || !Here(l))
    ensures LinkOk(log, connection, l.(sendAt := l.sendAt + 1))
  {
    hide N.Tidy, NoClose, Complete, HeldOk;
    var r := l.(sendAt := l.sendAt + 1);
    forall i | 0 <= i < |r.conn.out| && r.conn.out[i].Data? ensures FrameOk(r, i) { assert FrameOk(l, i); }
  }

  lemma DeliveringLink(log: seq<Entry>, connection: string, l: Link)
    requires LinkOk(log, connection, l) && l.sendAt < |log|
    ensures var r := Delivering(l, log); LinkOk(log, connection, r) && l.conn.out <= r.conn.out
  {
    hide LinkOk, N.Tidy, N.DeliverNow;
    var c, id, body := l.conn, l.sendAt + 1, if log[l.sendAt].Message? then log[l.sendAt].body else Ping;
    LinkParts(log, connection, l);
    if !log[l.sendAt].Message? || !Here(l) {
      PassOver(log, connection, l);
    } else if c.held.Some? {
      OneHeld(log, l.sendAt);
      HoldMore(log, connection, l, N.HeldMessage(body, Some(id)), l.sendAt + 1, l.closeAt);
    } else if c.closing {
      N.DeliverNowTidy(c, body, Some(id));
      ClosedDelivery(c, body, Some(id));
      FullKeeps(log, connection, l, Delivering(l, log));
    } else {
      LiveDelivery(log, connection, l);
    }
  }

  lemma OneHeld(log: seq<Entry>, at: nat)
    requires at < |log| && log[at].Message?
    ensures HeldSent([N.HeldMessage(log[at].body, Some(at + 1))]) == MessagesIn(log, at, at + 1)
  {
    HeldAdd([], N.HeldMessage(log[at].body, Some(at + 1)));
    assert [] + [N.HeldMessage(log[at].body, Some(at + 1))] == [N.HeldMessage(log[at].body, Some(at + 1))];
  }

  lemma ClosedDelivery(c: N.Conn, body: Body, id: Option<nat>)
    requires c.closing
    ensures var r := N.DeliverNow(c, body, id); r == c.(lastLogged := r.lastLogged)
  {
  }

  /** Before the connection is here nothing is held but by a resume; live, a new game's link holds nothing. */
  lemma LinkParts(log: seq<Entry>, connection: string, l: Link)
    requires LinkOk(log, connection, l)
    ensures l.sendAt <= |log| && l.closeAt <= |log| && N.Tidy(l.conn) && l.conn.edge
    ensures l.taken <= l.conn.written <= |l.conn.out|
    ensures l.conn.held.Some? ==> HeldOk(l.conn.held.value)
    ensures !l.conn.closing && l.conn.held.None? && Here(l) ==> l.stage.Live?
    ensures l.init <= |log| && l.from <= |log| && (l.resume.Some? ==> l.resume.value == l.init == l.from)
    ensures !l.conn.closing ==> StageOk(log, connection, l)
  {
  }

  lemma DeliveryKeeps(w: World, connection: string)
    requires Inv(w, connection) && Enabled(w, HandleSend, connection)
    ensures Inv(After(w, HandleSend, connection), connection)
  {
    hide EdgeOk, LinkOk, InStep;
    DeliveringLink(w.log, connection, w.link.value);
    NodeStep(w, connection, Delivering(w.link.value, w.log));
  }

  // ---- Closes, and what is in no log ----

  lemma ClosingLink(log: seq<Entry>, connection: string, l: Link)
    requires LinkOk(log, connection, l) && l.closeAt < |log|
    ensures var r := Closing(l, log, connection); LinkOk(log, connection, r) && l.conn.out <= r.conn.out
  {
    hide LinkOk, N.Tidy, N.CloseFor, HeldSent, MessagesIn, LoggedOut, StageOk;
    LinkParts(log, connection, l);
    if !AppliesTo(log[l.closeAt], connection) || !Here(l) {
      ClosePassed(log, connection, l);
    } else if l.conn.held.Some? {
      var item := N.HeldClose(log[l.closeAt].code, Some(l.closeAt + 1));
      CloseHeld(log, item, l.sendAt);
      HoldMore(log, connection, l, item, l.sendAt, l.closeAt + 1);
    } else {
      CloseKeeps(log, connection, l, Closing(l, log, connection), log[l.closeAt].code);
    }
  }

  lemma CloseHeld(log: seq<Entry>, item: N.Held, at: nat)
    requires at <= |log| && (item.HeldClose? || item.id.None?)
    ensures HeldSent([item]) == MessagesIn(log, at, at)
  {
    HeldAdd([], item);
    assert [] + [item] == [item];
  }

  lemma ClosePassed(log: seq<Entry>, connection: string, l: Link)
    requires LinkOk(log, connection, l) && l.closeAt < |log|
    ensures LinkOk(log, connection, l.(closeAt := l.closeAt + 1))
  {
    hide N.Tidy, NoClose, Complete, HeldOk;
    var r := l.(closeAt := l.closeAt + 1);
    forall i | 0 <= i < |r.conn.out| && r.conn.out[i].Data? ensures FrameOk(r, i) { assert FrameOk(l, i); }
  }

  lemma UnloggedLink(log: seq<Entry>, connection: string, l: Link, body: Body)
    requires LinkOk(log, connection, l) && Here(l) && body != IdFrame
    ensures var r := l.(conn := N.Deliver(l.conn, body, None)); LinkOk(log, connection, r) && l.conn.out <= r.conn.out
  {
    hide LinkOk, N.Tidy;
    LinkParts(log, connection, l);
    var r := l.(conn := N.Deliver(l.conn, body, None));
    if l.conn.held.Some? {
      CloseHeld(log, N.HeldMessage(body, None), l.sendAt);
      HoldMore(log, connection, l, N.HeldMessage(body, None), l.sendAt, l.closeAt);
    } else {
      N.DeliverNowTidy(l.conn, body, None);
      if r.conn.closing { FullKeeps(log, connection, l, r); } else { UnloggedLive(log, connection, l, r, body); }
    }
  }

  /** What a node gave a link that is in no log is counted, and nothing else hangs on it. */
  lemma HandedMore(log: seq<Entry>, connection: string, l: Link, handed: seq<Body>)
    requires LinkOk(log, connection, l)
    ensures LinkOk(log, connection, l.(handed := handed))
  {
    hide N.Tidy, NoClose, Complete, HeldOk;
    SameShape(l, l.(handed := handed));
  }

  lemma UnloggedLive(log: seq<Entry>, connection: string, l: Link, r: Link, body: Body)
    requires LinkOk(log, connection, l) && l.stage.Live? && !l.conn.closing && body != IdFrame
    requires r == l.(conn := l.conn.(out := l.conn.out + [N.Data(Unlogged(body))])) && N.Tidy(r.conn)
    ensures LinkOk(log, connection, r)
  {
    hide N.Tidy, HeldOk, FrameOk, Shape;
    LoggedAdd(l.conn.out, N.Data(Unlogged(body)));
    PlainShape(l, r);
  }

  // ---- The replay ----

  lemma ReadLink(log: seq<Entry>, connection: string, l: Link)
    requires LinkOk(log, connection, l) && l.stage.Joined?
    ensures l.init <= |log| && LinkOk(log, connection, l.(stage := Reading(l.init, |log|)))
  {
    hide N.Tidy, Complete, HeldOk, FrameOk;
    SameShape(l, l.(stage := Reading(l.init, |log|)));
  }

  lemma Replayed(log: seq<Entry>, connection: string, l: Link, c: N.Conn)
    requires LinkOk(log, connection, l) && l.stage.Reading? && l.stage.next < l.stage.end <= |log|
    requires log[l.stage.next].Message?
    requires !l.conn.closing && N.Tidy(c)
    requires var id := l.stage.next + 1;
      c == l.conn.(lastLogged := id, out := l.conn.out + [N.Data(Logged(id, log[l.stage.next].body))])
    ensures LinkOk(log, connection, l.(conn := c, stage := Reading(l.stage.next + 1, l.stage.end)))
  {
    hide N.Tidy, HeldOk, FrameOk, Shape;
    var r, id := l.(conn := c, stage := Reading(l.stage.next + 1, l.stage.end)), l.stage.next + 1;
    LoggedAdd(l.conn.out, N.Data(Logged(id, log[l.stage.next].body)));
    CompleteUpto(log, l.init, id);
    PlainShape(l, r);
  }

  lemma SkippedOver(log: seq<Entry>, connection: string, l: Link)
    requires LinkOk(log, connection, l) && l.stage.Reading? && l.stage.next < l.stage.end <= |log|
    requires l.conn.closing || (!log[l.stage.next].Message? && !AppliesTo(log[l.stage.next], connection))
    ensures LinkOk(log, connection, l.(stage := Reading(l.stage.next + 1, l.stage.end)))
  {
    hide N.Tidy, Complete, HeldOk, FrameOk;
    SameShape(l, l.(stage := Reading(l.stage.next + 1, l.stage.end)));
  }

  lemma ReplayingLink(log: seq<Entry>, connection: string, l: Link)
    requires LinkOk(log, connection, l) && l.stage.Reading? && l.stage.next < l.stage.end <= |log|
    ensures var r := Replaying(l, log, connection); LinkOk(log, connection, r) && l.conn.out <= r.conn.out
  {
    hide LinkOk, N.Tidy, N.CloseFor, HeldSent, MessagesIn, LoggedOut, StageOk;
    var r, entry, id := Replaying(l, log, connection), log[l.stage.next], l.stage.next + 1;
    LinkParts(log, connection, l);
    if entry.Message? {
      N.ReplayTidy(l.conn, entry.body, id);
      if l.conn.closing || !N.Room(l.conn) {
        ReplayFull(log, connection, l, r);
      } else {
        Replayed(log, connection, l, r.conn);
      }
    } else if AppliesTo(entry, connection) {
      CloseKeeps(log, connection, l, r, entry.code);
    } else {
      SkippedOver(log, connection, l);
    }
  }

  lemma ReplayFull(log: seq<Entry>, connection: string, l: Link, r: Link)
    requires LinkOk(log, connection, l) && r == l.(conn := r.conn, stage := r.stage) && l.stage.Reading?
      && r.stage.Reading?
    requires r.conn == l.conn.(lastLogged := r.conn.lastLogged, closing := true, dropped := r.conn.dropped)
    requires N.Tidy(r.conn)
    ensures LinkOk(log, connection, r)
  {
    ClosedKeeps(log, connection, l, r);
  }

  /** What the held items queue, once the replay is done: those after it, each once, in order; or a close ends them. */
  ghost predicate Flushes(log: seq<Entry>, c: N.Conn, r: N.Conn, init: nat, upto: nat)
    requires upto <= |log|
  {
    && r.edge && r.held.None? && r.written == c.written && c.out <= r.out
    && (forall i | |c.out| <= i < |r.out| && r.out[i].Data? :: Plain(r.out[i].frame))
    && Complete(log, init, LoggedOut(r.out))
    && (!r.closing ==>
      LoggedOut(r.out) == MessagesIn(log, init, upto) && r.lastLogged == LastId(LoggedOut(r.out), init))
  }

  lemma {:induction false} FlushSends(log: seq<Entry>, c: N.Conn, held: seq<N.Held>, init: nat, end: nat, joinedAt: nat)
    requires c.edge && c.held.None? && !c.closing && init <= end <= |log| && joinedAt <= end && HeldOk(held)
    requires LoggedOut(c.out) == MessagesIn(log, init, end) && c.lastLogged == LastId(LoggedOut(c.out), init)
    requires Complete(log, joinedAt, HeldSent(held))
    ensures Flushes(log, c, N.Flush(c, held, end), init, Max(end, LastId(HeldSent(held), joinedAt)))
    decreases |held|
  {
    hide Flushes, Complete, N.Flushed, HeldOk;
    if held == [] {
      FlushNone(log, c, init, end);
    } else {
      var before, item := held[..|held| - 1], held[|held| - 1];
      HeldParts(held);
      HeldPrefix(log, joinedAt, held);
      FlushSends(log, c, before, init, end, joinedAt);
      FlushOne(log, c, N.Flush(c, before, end), before, item, init, end, joinedAt);
    }
  }

  lemma FlushNone(log: seq<Entry>, c: N.Conn, init: nat, end: nat)
    requires c.edge && c.held.None? && init <= end <= |log|
    requires LoggedOut(c.out) == MessagesIn(log, init, end) && c.lastLogged == LastId(LoggedOut(c.out), init)
    ensures Flushes(log, c, c, init, end)
  {
    CompleteUpto(log, init, end);
  }

  lemma HeldParts(held: seq<N.Held>)
    requires held != [] && HeldOk(held)
    ensures HeldOk(held[..|held| - 1])
      && (held[|held| - 1].HeldMessage? && held[|held| - 1].id.None? ==> held[|held| - 1].body != IdFrame)
  {
    assert held[|held| - 1] in held;
  }

  lemma HeldPrefix(log: seq<Entry>, joinedAt: nat, held: seq<N.Held>)
    requires held != [] && joinedAt <= |log| && Complete(log, joinedAt, HeldSent(held))
    ensures Complete(log, joinedAt, HeldSent(held[..|held| - 1]))
  {
    var before := HeldSent(held[..|held| - 1]);
    CompletePrefix(log, joinedAt, HeldSent(held), |before|);
    assert HeldSent(held)[..|before|] == before;
  }

  /** A logged message held after others is the next one of its channel. */
  lemma HeldNext(log: seq<Entry>, joinedAt: nat, before: seq<Sent>, id: nat, body: Body)
    requires Complete(log, joinedAt, before) && Complete(log, joinedAt, before + [(id, body)]) && joinedAt <= |log|
    ensures var at := LastId(before, joinedAt);
      joinedAt <= at < id <= |log| && log[id - 1] == Message(body) && MessagesIn(log, at, id - 1) == []
  {
    var more := before + [(id, body)];
    MessagesAre(log, joinedAt, id);
    assert more[|before|] == (id, body);
    LastOne(log, joinedAt, before, id, body);
    LastOfMessages(log, joinedAt, id - 1);
  }

  lemma LastOne(log: seq<Entry>, joinedAt: nat, before: seq<Sent>, id: nat, body: Body)
    requires joinedAt < id <= |log| && log[id - 1] == Message(body)
    requires before + [(id, body)] == MessagesIn(log, joinedAt, id)
    ensures before == MessagesIn(log, joinedAt, id - 1)
  {
    var more := before + [(id, body)];
    assert more[..|before|] == before;
    assert more == MessagesIn(log, joinedAt, id - 1) + [(id, body)];
  }

  lemma FlushOne(log: seq<Entry>, c: N.Conn, m: N.Conn, before: seq<N.Held>, item: N.Held, init: nat, end: nat,
    joinedAt: nat)
    requires init <= end <= |log| && joinedAt <= end
    requires Complete(log, joinedAt, HeldSent(before)) && Complete(log, joinedAt, HeldSent(before + [item]))
    requires Flushes(log, c, m, init, Max(end, LastId(HeldSent(before), joinedAt)))
    requires item.HeldMessage? && item.id.None? ==> item.body != IdFrame
    ensures Flushes(log, c, N.Flushed(m, item, end), init, Max(end, LastId(HeldSent(before + [item]), joinedAt)))
  {
    hide Complete, HeldSent, MessagesIn, LoggedOut;
    HeldAdd(before, item);
    LastInLog(log, joinedAt, HeldSent(before));
    if item.HeldClose? {
      if !(item.id.Some? && item.id.value <= end) {
        FlushClose(log, c, m, init, Max(end, LastId(HeldSent(before), joinedAt)), item.code);
      }
    } else if item.id.None? {
      FlushUnlogged(log, c, m, init, Max(end, LastId(HeldSent(before), joinedAt)), item.body);
    } else {
      HeldNext(log, joinedAt, HeldSent(before), item.id.value, item.body);
      if item.id.value > end {
        FlushLogged(log, c, m, init, end, LastId(HeldSent(before), joinedAt), item.id.value);
      }
    }
  }

  lemma LastInLog(log: seq<Entry>, after: nat, sent: seq<Sent>)
    requires Complete(log, after, sent)
    ensures LastId(sent, after) <= |log|
  {
  }

  lemma FlushClose(log: seq<Entry>, c: N.Conn, m: N.Conn, init: nat, upto: nat, code: Option<int>)
    requires upto <= |log| && Flushes(log, c, m, init, upto)
    ensures Flushes(log, c, N.CloseFor(m, code), init, upto)
  {
    hide Complete, N.CloseFor;
    CloseAdds(m, code);
    LoggedTail(m.out, N.CloseFor(m, code).out);
  }

  lemma FlushUnlogged(log: seq<Entry>, c: N.Conn, m: N.Conn, init: nat, upto: nat, body: Body)
    requires upto <= |log| && Flushes(log, c, m, init, upto) && body != IdFrame
    ensures Flushes(log, c, N.DeliverNow(m, body, None), init, upto)
  {
    hide Complete, MessagesIn, LoggedOut;
    LoggedAdd(m.out, N.Data(Unlogged(body)));
  }

  lemma FlushLogged(log: seq<Entry>, c: N.Conn, m: N.Conn, init: nat, end: nat, at: nat, id: nat)
    requires init <= end <= |log| && at <= |log| && end < id <= |log| && at < id && log[id - 1].Message?
    requires MessagesIn(log, at, id - 1) == []
    requires Flushes(log, c, m, init, Max(end, at))
    ensures Flushes(log, c, N.DeliverNow(m, log[id - 1].body, Some(id)), init, id)
  {
    hide Complete, MessagesIn, LoggedOut;
    var upto, body := Max(end, at), log[id - 1].body;
    LoggedAdd(m.out, N.Data(Logged(id, body)));
    if !m.closing { NextInFlush(log, init, end, at, id); }
  }

  lemma NextInFlush(log: seq<Entry>, init: nat, end: nat, at: nat, id: nat)
    requires init <= end <= |log| && at <= |log| && end < id <= |log| && at < id && log[id - 1].Message?
    requires MessagesIn(log, at, id - 1) == []
    ensures var sent := MessagesIn(log, init, Max(end, at));
      && LastId(sent, init) < id && sent + [(id, log[id - 1].body)] == MessagesIn(log, init, id)
      && Complete(log, init, MessagesIn(log, init, id)) && LastId(MessagesIn(log, init, id), init) == id
  {
    var upto := Max(end, at);
    MessagesAre(log, init, upto);
    MessagesSplit(log, at, upto, id - 1);
    NextMessage(log, init, upto, id);
    CompleteUpto(log, init, id);
  }

  lemma FinishedLink(log: seq<Entry>, connection: string, l: Link)
    requires LinkOk(log, connection, l) && l.stage.Reading? && l.stage.next == l.stage.end
    ensures var r := l.(conn := N.EndReplay(l.conn, l.stage.end), stage := Live(l.stage.end));
      LinkOk(log, connection, r) && l.conn.out <= r.conn.out
  {
    hide LinkOk, N.Tidy, N.Flush, HeldSent, MessagesIn, LoggedOut, StageOk, Flushes;
    var c, r := l.conn, l.(conn := N.EndReplay(l.conn, l.stage.end), stage := Live(l.stage.end));
    LinkParts(log, connection, l);
    N.HeldTidy(c, Ping, l.stage.end, None, None);
    if c.closing {
      FlushClosed(c, l.stage.end);
      FinishedClosed(log, connection, l, r);
    } else {
      FinishedLive(log, connection, l, r);
    }
  }

  lemma {:induction false} FlushFrame(c: N.Conn, held: seq<N.Held>, replayed: nat)
    requires c.edge && c.closing
    ensures var r := N.Flush(c, held, replayed);
      r.edge && r.closing && r.held == c.held && r.written == c.written && r.out == c.out
    decreases |held|
  {
    if held != [] { FlushFrame(c, held[..|held| - 1], replayed); }
  }

  lemma FlushClosed(c: N.Conn, replayed: nat)
    requires c.edge && c.closing
    ensures var r := N.EndReplay(c, replayed);
      r.edge && r.closing && r.held.None? && r.written == c.written && r.out == c.out
  {
    FlushFrame(c.(held := None), if c.held.Some? then c.held.value else [], replayed);
  }

  lemma FinishedClosed(log: seq<Entry>, connection: string, l: Link, r: Link)
    requires LinkOk(log, connection, l) && l.stage.Reading? && r == l.(conn := r.conn, stage := Live(l.stage.end))
    requires r.conn.edge && r.conn.closing && r.conn.held.None? && r.conn.written == l.conn.written
    requires r.conn.out == l.conn.out && N.Tidy(r.conn)
    ensures LinkOk(log, connection, r)
  {
    ClosedKeeps(log, connection, l, r);
  }

  lemma FinishedLive(log: seq<Entry>, connection: string, l: Link, r: Link)
    requires LinkOk(log, connection, l) && l.stage.Reading? && l.stage.next == l.stage.end && !l.conn.closing
    requires r == l.(conn := N.EndReplay(l.conn, l.stage.end), stage := Live(l.stage.end)) && N.Tidy(r.conn)
    ensures LinkOk(log, connection, r) && l.conn.out <= r.conn.out
  {
    hide N.Tidy, N.Flush, HeldSent, LoggedOut, FrameOk, NoClose, Shape, MessagesIn;
    var c, held, end := l.conn.(held := None), l.conn.held.value, l.stage.end;
    CompleteUpto(log, l.joinedAt, l.sendAt);
    FlushSends(log, c, held, l.init, end, l.joinedAt);
    HeldCover(log, l, end);
    PlainShape(l, r);
  }

  /** Between the last message held and the last handled there is none. */
  lemma HeldCover(log: seq<Entry>, l: Link, end: nat)
    requires l.sendAt <= |log| && Holding(log, l) && l.init <= end <= |log| && l.joinedAt <= end
    ensures var at := LastId(HeldSent(l.conn.held.value), l.joinedAt);
      at <= |log| && MessagesIn(log, l.init, Max(end, at)) == MessagesIn(log, l.init, Max(end, l.sendAt))
  {
    LastOfMessages(log, l.joinedAt, l.sendAt);
    var at := LastId(HeldSent(l.conn.held.value), l.joinedAt);
    if end < l.sendAt {
      MessagesSplit(log, at, Max(end, at), l.sendAt);
      MessagesSplit(log, l.init, Max(end, at), l.sendAt);
    }
  }

  // ---- The node closes; the writer writes ----

  lemma NodeClosesLink(log: seq<Entry>, connection: string, l: Link, code: Option<int>)
    requires LinkOk(log, connection, l)
    ensures var r := l.(conn := N.CloseFor(l.conn, code)); LinkOk(log, connection, r) && l.conn.out <= r.conn.out
  {
    hide LinkOk, N.CloseFor;
    LinkParts(log, connection, l);
    CloseKeeps(log, connection, l, l.(conn := N.CloseFor(l.conn, code)), code);
  }

  lemma WriteLink(log: seq<Entry>, connection: string, l: Link)
    requires LinkOk(log, connection, l) && l.conn.written < |l.conn.out|
    ensures LinkOk(log, connection, l.(conn := l.conn.(written := l.conn.written + 1)))
  {
    hide Complete, HeldOk, FrameOk, NoClose;
    var r := l.(conn := l.conn.(written := l.conn.written + 1));
    var n :| 0 <= n <= |l.conn.out| && N.EndsAt(l.conn, n);
    assert N.EndsAt(r.conn, n);
    SameShape(l, r);
  }

  lemma NodeKeeps(w: World, ev: Event, connection: string)
    requires Inv(w, connection) && Enabled(w, ev, connection)
    requires ev.HandleClose? || ev.HandleUnlogged? || ev.ReadLog? || ev.ReplayNext? || ev.FinishReplay?
      || ev.NodeCloses? || ev.Write?
    ensures Inv(After(w, ev, connection), connection)
  {
    hide EdgeOk, LinkOk, InStep;
    var l := w.link.value;
    LinkParts(w.log, connection, l);
    match ev {
      case HandleClose => ClosingLink(w.log, connection, l);
      case HandleUnlogged(body) =>
        UnloggedLink(w.log, connection, l, body);
        HandedMore(w.log, connection, l.(conn := N.Deliver(l.conn, body, None)), l.handed + [body]);
      case ReadLog => ReadLink(w.log, connection, l);
      case ReplayNext => ReplayingLink(w.log, connection, l);
      case FinishReplay => FinishedLink(w.log, connection, l);
      case NodeCloses(status) => NodeClosesLink(w.log, connection, l, status);
      case Write => WriteLink(w.log, connection, l);
    }
    NodeStep(w, connection, After(w, ev, connection).link.value);
  }

  // ---- The edge's steps ----

  lemma SentAdd(toGame: seq<E.ToGame>, item: E.ToGame)
    ensures SentTo(toGame + [item]) == SentTo(toGame) + if item.ForGame?
      && item.id.Some? then [(item.id.value, item.body)] else []
  {
    assert (toGame + [item])[..|toGame|] == toGame;
  }

  /** A change at the edge that forwards nothing logged, and moves neither the cursor nor the id frame. */
  lemma EdgeSame(w: World, connection: string, edge: E.Edge, ended: bool)
    requires Inv(w, connection) && E.Tidy(edge) && SentTo(edge.toGame) == SentTo(w.edge.toGame)
    requires edge.cursor == w.edge.cursor && edge.handshaken == w.edge.handshaken && (Intact(edge) ==> Intact(w.edge))
    ensures Inv(w.(edge := edge, ended := ended), connection)
  {
    hide LinkOk, Complete;
    if w.link.Some? { TakenInRange(w.log, connection, w.link.value); }
  }

  lemma CloseGameSame(e: E.Edge, code: int)
    requires E.Tidy(e)
    ensures var r := E.CloseGame(e, code);
      E.Tidy(r) && SentTo(r.toGame) == SentTo(e.toGame) && r.cursor == e.cursor && r.handshaken == e.handshaken
        && !Intact(r)
  {
    E.CloseTidy(e, code);
    SentAdd(e.toGame, E.GameClose(code));
  }

  lemma PingSame(e: E.Edge, body: Body)
    requires E.Tidy(e)
    ensures var r := E.SendGame(e, None, body);
      && E.Tidy(r) && SentTo(r.toGame) == SentTo(e.toGame) && r.cursor == e.cursor && r.handshaken == e.handshaken
      && (Intact(r) ==> Intact(e))
  {
    E.SendTidy(e, None, body);
    SentAdd(e.toGame, E.ForGame(None, body));
  }

  lemma Unlinked(w: World, connection: string)
    requires Inv(w, connection)
    ensures Inv(w.(link := None), connection)
  {
  }

  lemma OverKeeps(w: World, connection: string)
    requires Inv(w, connection)
    ensures Inv(w.(over := true), connection)
  {
    hide LinkOk;
    if w.link.Some? { TakenInRange(w.log, connection, w.link.value); }
  }

  lemma PartsKeep(w: World, connection: string, parts: seq<Part>)
    requires Inv(w, connection)
    ensures Inv(w.(parts := parts), connection)
  {
    hide LinkOk;
    if w.link.Some? { TakenInRange(w.log, connection, w.link.value); }
  }

  /** The link's end: closed, over with its game, or only detached. */
  lemma EndKeeps(w: World, connection: string, now: int)
    requires Inv(w, connection) && w.link.Some?
    ensures Inv(Ending(w, w.link.value, now), connection)
  {
    hide LinkOk, InStep, Inv, SentTo, UnloggedOut, Taken;
    TidyEdge(w, connection);
    var l := w.link.value;
    var parts := w.parts + [Part(l.handed, UnloggedOut(Taken(l)))];
    Unlinked(w, connection);
    PartsKeep(w.(link := None), connection, parts);
    var w1 := w.(link := None, parts := parts);
    if l.close.Some? {
      CloseGameSame(w.edge, l.close.value);
      EdgeSame(w1, connection, E.CloseGame(w.edge, l.close.value), w.ended);
      OverKeeps(w1.(edge := E.CloseGame(w.edge, l.close.value)), connection);
    } else if w.ended {
      OverKeeps(w1, connection);
    } else {
      EdgeSame(w1, connection, E.Detach(w.edge, now), w.ended);
    }
  }

  lemma EdgeKeeps(w: World, ev: Event, connection: string)
    requires Inv(w, connection) && Enabled(w, ev, connection)
    requires ev.AttachFails? || ev.LinkEnds? || ev.GameEnds? || ev.GiveUp? || ev.PingGame?
    ensures Inv(After(w, ev, connection), connection)
  {
    hide LinkOk, InStep, Inv, SentTo;
    TidyEdge(w, connection);
    match ev {
      case AttachFails(now) => EdgeSame(w, connection, E.Detach(w.edge, now), w.ended);
      case LinkEnds(now) => EndKeeps(w, connection, now);
      case GameEnds(dropped, code) =>
        CloseGameSame(w.edge, code);
        EdgeSame(w, connection, if dropped then w.edge else E.CloseGame(w.edge, code), true);
      case GiveUp(code) =>
        CloseGameSame(w.edge, code);
        EdgeSame(w, connection, E.CloseGame(w.edge, code), w.ended);
        OverKeeps(w.(edge := E.CloseGame(w.edge, code)), connection);
      case PingGame =>
        PingSame(w.edge, Ping);
        EdgeSame(w, connection, E.SendGame(w.edge, None, Ping), w.ended);
        PartsKeep(w.(edge := E.SendGame(w.edge, None, Ping)), connection, w.parts + [Part([Ping], [Ping])]);
    }
  }

  lemma TidyEdge(w: World, connection: string)
    requires Inv(w, connection)
    ensures E.Tidy(w.edge) && EdgeOk(w)
  {
  }

  // ---- What the edge receives ----

  /** The next logged frame received is the next message of the log. */
  lemma ReceivedNext(log: seq<Entry>, connection: string, l: Link)
    requires LinkOk(log, connection, l) && l.taken < |l.conn.out| && l.conn.out[l.taken].Data?
    requires l.conn.out[l.taken].frame.Logged?
    ensures var received, frame := LoggedOut(l.conn.out[..l.taken]), l.conn.out[l.taken].frame;
      && LoggedOut(l.conn.out[..l.taken + 1]) == received + [(frame.id, frame.body)]
      && Complete(log, l.from, received + [(frame.id, frame.body)])
      && (var at := LastId(received, l.from);
          && l.from <= at < frame.id <= |log| && log[frame.id - 1] == Message(frame.body)
            && MessagesIn(log, at, frame.id - 1) == []
          && received == MessagesIn(log, l.from, at))
  {
    hide Shape, StageOk, N.Tidy, HeldOk, LoggedOut, MessagesIn, Complete;
    var n := l.taken;
    var received, frame := LoggedOut(l.conn.out[..n]), l.conn.out[n].frame;
    ReceivedAdd(l.conn.out, n);
    CompletePrefix(log, l.from, LoggedOut(l.conn.out), |received|);
    CompletePrefix(log, l.from, LoggedOut(l.conn.out), |received| + 1);
    HeldNext(log, l.from, received, frame.id, frame.body);
    CompleteIs(log, l.from, received);
  }

  lemma CompleteIs(log: seq<Entry>, after: nat, sent: seq<Sent>)
    requires Complete(log, after, sent)
    ensures LastId(sent, after) <= |log| && sent == MessagesIn(log, after, LastId(sent, after))
  {
  }

  lemma ReceivedAdd(out: seq<N.Outgoing>, n: nat)
    requires n < |out| && out[n].Data? && out[n].frame.Logged?
    ensures var received, all := LoggedOut(out[..n]), LoggedOut(out);
      && LoggedOut(out[..n + 1]) == received + [(out[n].frame.id, out[n].frame.body)]
      && |received| < |all| && all[..|received|] == received && all[..|received| + 1] == LoggedOut(out[..n + 1])
  {
    hide LoggedOut;
    assert out[..n + 1] == out[..n] + [out[n]];
    LoggedAdd(out[..n], out[n]);
    LoggedPrefix(out, n);
    LoggedPrefix(out, n + 1);
  }

  lemma ReceivedOther(l: Link)
    requires l.taken < |l.conn.out| && !(l.conn.out[l.taken].Data? && l.conn.out[l.taken].frame.Logged?)
    ensures LoggedOut(l.conn.out[..l.taken + 1]) == LoggedOut(l.conn.out[..l.taken])
  {
    assert l.conn.out[..l.taken + 1] == l.conn.out[..l.taken] + [l.conn.out[l.taken]];
    LoggedAdd(l.conn.out[..l.taken], l.conn.out[l.taken]);
  }

  /** A logged frame above the cursor is forwarded, unless the game is leaving. */
  lemma Forwarded(e: E.Edge, id: nat, body: Body)
    requires E.Tidy(e) && e.cursor.Some? && e.cursor.value < id
    ensures var r := E.Receive(e, Logged(id, body));
      && E.Tidy(r) && r.cursor == Some(id) && r.handshaken == e.handshaken && (Intact(r) ==> Intact(e))
      && SentTo(r.toGame) == (if Intact(e) && E.Room(e) then SentTo(e.toGame) + [(id, body)] else SentTo(e.toGame))
      && (Intact(r) ==> Intact(e) && E.Room(e))
  {
    E.SendTidy(e.(cursor := Some(id)), Some(id), body);
    SentAdd(e.toGame, E.ForGame(Some(id), body));
  }

  lemma LinkTaken(log: seq<Entry>, connection: string, l: Link, close: Option<int>)
    requires LinkOk(log, connection, l) && l.taken < l.conn.written
    ensures LinkOk(log, connection, l.(taken := l.taken + 1, close := close))
  {
    hide N.Tidy, Complete, HeldOk, NoClose;
    SameShape(l, l.(taken := l.taken + 1, close := close));
  }

  /** The edge one logged frame on: forwarded, or not any more. */
  ghost predicate Advanced(w: World, r: World, id: nat, body: Body, forwarded: bool) {
    && r.log == w.log && r.edge.cursor == Some(id) && r.edge.handshaken && E.Tidy(r.edge)
    && SentTo(r.edge.toGame) == (if forwarded then SentTo(w.edge.toGame) + [(id, body)] else SentTo(w.edge.toGame))
    && (forwarded ==> Intact(w.edge)) && (Intact(r.edge) ==> Intact(w.edge) && forwarded)
  }

  /** What is sent goes on from the cursor, or begins where the link's sending does. */
  lemma AdvancedOk(w: World, r: World, at: nat, from: nat, id: nat, body: Body, forwarded: bool)
    requires EdgeOk(w) && w.edge.handshaken && w.edge.cursor == Some(at) && Advanced(w, r, id, body, forwarded)
    requires from < id <= |w.log| && at < id && w.log[id - 1] == Message(body)
    requires if SentTo(w.edge.toGame) == [] && forwarded && r.first != w.first then r.first == from
      && MessagesIn(w.log, from, id - 1) == []
             else r.first == w.first && (forwarded ==> MessagesIn(w.log, at, id - 1) == [])
    ensures EdgeOk(r)
  {
    hide Complete, SentTo;
    CompleteIs(w.log, w.first, SentTo(w.edge.toGame));
    if forwarded {
      if r.first != w.first { NextMessage(w.log, from, from, id); } else { NextMessage(w.log, w.first, at, id); }
      CompleteUpto(w.log, r.first, id);
    }
  }

  lemma ReceiveLogged(w: World, connection: string)
    requires Inv(w, connection) && Enabled(w, Receive, connection)
    requires w.link.value.conn.out[w.link.value.taken].frame.Logged?
    ensures var r := After(w, Receive, connection); EdgeOk(r) && InStep(r, r.link.value)
  {
    hide N.Tidy, StageOk, HeldOk, E.Tidy, E.Receive, MessagesIn, LoggedOut, SentTo, Complete, FrameOk;
    var l, r := w.link.value, After(w, Receive, connection);
    var frame, sent := l.conn.out[l.taken].frame, SentTo(w.edge.toGame);
    var received := LoggedOut(l.conn.out[..l.taken]);
    ReceivedNext(w.log, connection, l);
    LoggedAfter(w, l);
    Forwarded(w.edge, frame.id, frame.body);
    var forwarded := Intact(w.edge) && E.Room(w.edge);
    assert Advanced(w, r, frame.id, frame.body, forwarded);
    AdvancedOk(w, r, w.edge.cursor.value, LastId(received, l.from), frame.id, frame.body, forwarded);
  }

  /** The cursor is where the received messages end, below the next. */
  lemma LoggedAfter(w: World, l: Link)
    requires l.taken < |l.conn.out| && InStep(w, l) && Shape(l) && l.conn.out[l.taken].Data?
    requires l.conn.out[l.taken].frame.Logged?
    ensures w.edge.cursor == Some(LastId(LoggedOut(l.conn.out[..l.taken]), l.init)) && w.edge.handshaken
  {
    hide LoggedOut, SentTo, FrameOk;
  }

  /** Any other frame forwards nothing logged; a position comes before anything was sent, and the id frame after it. */
  lemma ReceiveOther(w: World, connection: string)
    requires Inv(w, connection) && Enabled(w, Receive, connection)
    requires !w.link.value.conn.out[w.link.value.taken].frame.Logged?
    ensures var r := After(w, Receive, connection); EdgeOk(r) && InStep(r, r.link.value)
  {
    hide N.Tidy, StageOk, HeldOk, E.Tidy, MessagesIn, LoggedOut, SentTo, Complete;
    var l, r := w.link.value, After(w, Receive, connection);
    var frame := l.conn.out[l.taken].frame;
    ReceivedOther(l);
    assert FrameOk(l, l.taken);
    match frame {
      case Unlogged(body) =>
        UnloggedSame(w.edge, body);
        NoneYet(w.log, l.init);
        if body == IdFrame { NothingBefore(l); }
      case Position(id) => PositionFirst(w, connection, l, r);
      case Close(_) =>
    }
  }

  lemma UnloggedSame(e: E.Edge, body: Body)
    requires E.Tidy(e)
    ensures var r := E.Receive(e, Unlogged(body));
      && E.Tidy(r) && SentTo(r.toGame) == SentTo(e.toGame) && r.cursor == e.cursor
        && r.handshaken == (e.handshaken || body == IdFrame)
      && (Intact(r) ==> Intact(e))
  {
    E.SendTidy(e.(handshaken := e.handshaken || body == IdFrame), None, body);
    SentAdd(e.toGame, E.ForGame(None, body));
  }

  lemma PositionFirst(w: World, connection: string, l: Link, r: World)
    requires Inv(w, connection) && Enabled(w, Receive, connection) && w.link == Some(l)
    requires r == After(w, Receive, connection)
    requires l.taken == 0 && l.resume.None? && l.conn.out[0].frame == Position(l.init)
    ensures SentTo(w.edge.toGame) == [] && !w.edge.handshaken && EdgeOk(r) && LoggedOut(l.conn.out[..0]) == []
  {
    hide LoggedOut;
    assert l.conn.out[..0] == [];
    NothingLogged();
    CompleteUpto(w.log, l.init, l.init);
  }

  lemma NothingBefore(l: Link)
    requires 1 <= |l.conn.out| && l.conn.out[0] == N.Data(Position(l.init))
    ensures LoggedOut(l.conn.out[..1]) == []
  {
    assert l.conn.out[..1] == [] + [l.conn.out[0]];
    LoggedAdd([], l.conn.out[0]);
  }

  lemma NoneYet(log: seq<Entry>, at: nat)
    ensures at <= |log| ==> MessagesIn(log, at, at) == []
  {
  }

  lemma NothingLogged()
    ensures LoggedOut([]) == []
  {
  }

  lemma ReceiveKeeps(w: World, connection: string)
    requires Inv(w, connection) && Enabled(w, Receive, connection)
    ensures Inv(After(w, Receive, connection), connection)
  {
    hide EdgeOk, InStep, LinkOk;
    var l := w.link.value;
    if l.conn.out[l.taken].frame.Logged? { ReceiveLogged(w, connection); } else { ReceiveOther(w, connection); }
    LinkTaken(w.log, connection, l, After(w, Receive, connection).link.value.close);
  }

  // ---- Every step, and every run ----

  /** Every step of anyone keeps the whole. */
  lemma StepKeeps(w: World, ev: Event, connection: string)
    requires Inv(w, connection) && Enabled(w, ev, connection)
    ensures Inv(After(w, ev, connection), connection)
  {
    hide Inv, After;
    match ev {
      case Append(entry) => Appended(w, connection, entry);
      case Attach(sendAt, closeAt) => AttachKeeps(w, connection, sendAt, closeAt);
      case Claim => ClaimKeeps(w, connection);
      case Join => JoinKeeps(w, connection);
      case HandleSend => DeliveryKeeps(w, connection);
      case Receive => ReceiveKeeps(w, connection);
      case HandleClose => NodeKeeps(w, ev, connection);
      case HandleUnlogged(_) => NodeKeeps(w, ev, connection);
      case ReadLog => NodeKeeps(w, ev, connection);
      case ReplayNext => NodeKeeps(w, ev, connection);
      case FinishReplay => NodeKeeps(w, ev, connection);
      case NodeCloses(_) => NodeKeeps(w, ev, connection);
      case Write => NodeKeeps(w, ev, connection);
      case AttachFails(_) => EdgeKeeps(w, ev, connection);
      case LinkEnds(_) => EdgeKeeps(w, ev, connection);
      case GameEnds(_, _) => EdgeKeeps(w, ev, connection);
      case GiveUp(_) => EdgeKeeps(w, ev, connection);
      case PingGame => EdgeKeeps(w, ev, connection);
    }
  }

  lemma Appended(w: World, connection: string, entry: Entry)
    requires Inv(w, connection)
    ensures Inv(After(w, Append(entry), connection), connection)
  {
    hide Inv;
    AppendKeeps(w, connection, entry);
  }

  /** The events happen one after another, each when it can. */
  ghost predicate Happens(w: World, evs: seq<Event>, connection: string)
    decreases |evs|
  {
    evs == [] || (Enabled(w, evs[0], connection) && Happens(After(w, evs[0], connection), evs[1..], connection))
  }

  function Later(w: World, evs: seq<Event>, connection: string): World
    requires Happens(w, evs, connection)
    decreases |evs|
  {
    if evs == [] then w else Later(After(w, evs[0], connection), evs[1..], connection)
  }

  lemma {:induction false} AlwaysKept(w: World, evs: seq<Event>, connection: string)
    requires Inv(w, connection) && Happens(w, evs, connection)
    ensures Inv(Later(w, evs, connection), connection)
    decreases |evs|
  {
    hide Inv, After, Enabled;
    if evs != [] {
      StepKeeps(w, evs[0], connection);
      AlwaysKept(After(w, evs[0], connection), evs[1..], connection);
    }
  }
}
