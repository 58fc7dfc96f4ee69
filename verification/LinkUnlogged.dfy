/**
 * What is in no log (GatewayConnection.cs, lines 67-79, 140-163 and 166-180): the id frame, pings, and messages sent
 * without a place in the player's log. A node gives them to a connection; what the links carry of them reaches the game
 * in order.
 */
module LinkUnlogged {
  import opened Options
  import opened GatewayLog
  import opened LinkProtocol
  import opened LinkPositions
  import N = GatewayConnections
  import E = EdgeSessions

  /** The messages held that are in no log, in order. */
  function UnloggedHeld(held: seq<N.Held>): seq<Body> {
    if held == [] then []
    else UnloggedHeld(held[..|held| - 1])
         + var last := held[|held| - 1]; if last.HeldMessage? && last.id.None? then [last.body] else []
  }

  function Waiting(c: N.Conn): seq<Body> {
    if c.held.Some? then UnloggedHeld(c.held.value) else []
  }

  /** What the game was sent that is in no log, in order. */
  function UnloggedTo(toGame: seq<E.ToGame>): seq<Body> {
    if toGame == [] then []
    else UnloggedTo(toGame[..|toGame| - 1])
         + var last := toGame[|toGame| - 1]; if last.ForGame? && last.id.None? then [last.body] else []
  }

  function Got(parts: seq<Part>): seq<Body> {
    if parts == [] then [] else Got(parts[..|parts| - 1]) + parts[|parts| - 1].got
  }

  // ---- Small things about them ----

  lemma UnloggedAdd(out: seq<N.Outgoing>, item: N.Outgoing)
    ensures UnloggedOut(out + [item])
      == UnloggedOut(out) + if item.Data? && item.frame.Unlogged? then [item.frame.body] else []
  {
    assert (out + [item])[..|out|] == out;
  }

  lemma {:induction false} UnloggedTail(out: seq<N.Outgoing>, more: seq<N.Outgoing>)
    requires out <= more && forall i | |out| <= i < |more| && more[i].Data? :: !more[i].frame.Unlogged?
    ensures UnloggedOut(more) == UnloggedOut(out)
    decreases |more|
  {
    if |out| < |more| { UnloggedTail(out, more[..|more| - 1]); } else { assert out == more; }
  }

  lemma {:induction false} UnloggedPrefix(out: seq<N.Outgoing>, n: nat)
    requires n <= |out|
    ensures UnloggedOut(out[..n]) <= UnloggedOut(out)
    decreases |out|
  {
    if n < |out| {
      UnloggedPrefix(out[..|out| - 1], n);
      assert out[..|out| - 1][..n] == out[..n];
    } else {
      assert out[..n] == out;
    }
  }

  lemma WaitingAdd(held: seq<N.Held>, item: N.Held)
    ensures UnloggedHeld(held + [item])
      == UnloggedHeld(held) + if item.HeldMessage? && item.id.None? then [item.body] else []
  {
    assert (held + [item])[..|held|] == held;
  }

  lemma ToGameAdd(toGame: seq<E.ToGame>, item: E.ToGame)
    ensures UnloggedTo(toGame + [item])
      == UnloggedTo(toGame) + if item.ForGame? && item.id.None? then [item.body] else []
  {
    assert (toGame + [item])[..|toGame|] == toGame;
  }

  lemma GotAdd(parts: seq<Part>, part: Part)
    ensures Got(parts + [part]) == Got(parts) + part.got
  {
    assert (parts + [part])[..|parts|] == parts;
  }

  // ---- One link: what its node gave it is what it queued, in order ----

  /**
   * All of it is queued or held, in order, while the connection is not closed; closed, a first part of it was queued.
   */
  ghost predicate Carried(c: N.Conn, handed: seq<Body>) {
    && UnloggedOut(c.out) <= handed
    && (!c.closing ==> UnloggedOut(c.out) + Waiting(c) == handed)
  }

  lemma CloseCarried(c: N.Conn, code: Option<int>, handed: seq<Body>)
    requires c.edge && Carried(c, handed)
    ensures Carried(N.CloseFor(c, code), handed) && N.CloseFor(c, code).edge
  {
    CloseAdds(c, code);
    UnloggedTail(c.out, N.CloseFor(c, code).out);
  }

  /** A delivery that is in no log: queued, held, or the queue was full. */
  lemma HandedCarried(c: N.Conn, body: Body, handed: seq<Body>)
    requires c.edge && Carried(c, handed)
    ensures Carried(N.Deliver(c, body, None), handed + [body])
  {
    UnloggedAdd(c.out, N.Data(Unlogged(body)));
    if c.held.Some? { WaitingAdd(c.held.value, N.HeldMessage(body, None)); }
  }

  lemma LoggedCarried(c: N.Conn, body: Body, id: nat, handed: seq<Body>)
    requires c.edge && Carried(c, handed)
    ensures Carried(N.Deliver(c, body, Some(id)), handed)
  {
    UnloggedAdd(c.out, N.Data(Logged(id, body)));
    if c.held.Some? { WaitingAdd(c.held.value, N.HeldMessage(body, Some(id))); }
  }

  lemma CloseHeldCarried(c: N.Conn, code: Option<int>, id: Option<nat>, handed: seq<Body>)
    requires c.edge && Carried(c, handed)
    ensures Carried(N.Disconnected(c, code, id), handed)
  {
    if c.held.Some? { WaitingAdd(c.held.value, N.HeldClose(code, id)); } else { CloseCarried(c, code, handed); }
  }

  lemma ReplayCarried(c: N.Conn, body: Body, id: nat, handed: seq<Body>)
    requires c.edge && Carried(c, handed)
    ensures Carried(N.Replay(c, body, id), handed)
  {
    UnloggedAdd(c.out, N.Data(Logged(id, body)));
  }

  /** The flush queues what was held of it, in order, unless it is cut short. */
  lemma {:induction false} FlushCarried(c: N.Conn, held: seq<N.Held>, replayed: nat, handed: seq<Body>)
    requires c.edge && c.held.None? && UnloggedOut(c.out) <= handed
    requires !c.closing ==> UnloggedOut(c.out) + UnloggedHeld(held) <= handed
    ensures var r := N.Flush(c, held, replayed);
      && r.edge && r.held.None? && UnloggedOut(r.out) <= handed
      && (!r.closing ==> !c.closing && UnloggedOut(r.out) == UnloggedOut(c.out) + UnloggedHeld(held))
    decreases |held|
  {
    if held != [] {
      var before, item := held[..|held| - 1], held[|held| - 1];
      FlushCarried(c, before, replayed, handed);
      OneCarried(N.Flush(c, before, replayed), item, replayed);
    }
  }

  /** One held item: nothing but a message that is in no log is queued as one. */
  lemma OneCarried(c: N.Conn, item: N.Held, replayed: nat)
    requires c.edge && c.held.None?
    ensures var r := N.Flushed(c, item, replayed);
      && r.edge && r.held.None? && (c.closing ==> r.closing)
      && (r.closing ==> UnloggedOut(r.out) == UnloggedOut(c.out))
      && (!r.closing ==>
            UnloggedOut(r.out) == UnloggedOut(c.out) + if item.HeldMessage? && item.id.None? then [item.body] else [])
  {
    match item
    case HeldClose(code, _) =>
      CloseAdds(c, code);
      UnloggedTail(c.out, N.CloseFor(c, code).out);
    case HeldMessage(body, id) =>
      UnloggedAdd(c.out, N.Data(Unlogged(body)));
      if id.Some? { UnloggedAdd(c.out, N.Data(Logged(id.value, body))); }
  }

  lemma EndCarried(c: N.Conn, replayed: nat, handed: seq<Body>)
    requires c.edge && Carried(c, handed)
    ensures Carried(N.EndReplay(c, replayed), handed)
  {
    FlushCarried(c.(held := None), if c.held.Some? then c.held.value else [], replayed, handed);
  }

  /** The claim queues the id frame and a ping, first of all; on a connection closed already, nothing. */
  lemma ClaimCarried(log: seq<Entry>, connection: string, l: Link, head: nat)
    requires LinkOk(log, connection, l) && l.resume.None? && l.stage.Opened? && Carried(l.conn, l.handed)
    ensures Carried(Claiming(l, head).conn, Claiming(l, head).handed)
  {
    hide N.Tidy, Complete, HeldOk, StageOk, N.SendPosition, N.Send;
    if l.conn.closing {
      ClosingClaim(l, head);
    } else {
      UnclosedOpened(log, connection, l);
      ClaimShape(l, head);
      UnloggedAdd([], N.Data(Position(head)));
      UnloggedAdd([N.Data(Position(head))], N.Data(Unlogged(IdFrame)));
      UnloggedAdd([N.Data(Position(head)), N.Data(Unlogged(IdFrame))], N.Data(Unlogged(Ping)));
      assert [] + [N.Data(Position(head))] == [N.Data(Position(head))];
      assert [N.Data(Position(head))]
        + [N.Data(Unlogged(IdFrame))] == [N.Data(Position(head)), N.Data(Unlogged(IdFrame))];
      assert [N.Data(Position(head)), N.Data(Unlogged(IdFrame))]
        + [N.Data(Unlogged(Ping))] == Claiming(l, head).conn.out;
      assert l.handed == [] && [] + [IdFrame, Ping] == [IdFrame, Ping];
    }
  }

  ghost predicate LinkCarried(w: World) {
    w.link.Some? ==> Carried(w.link.value.conn, w.link.value.handed)
  }

  lemma AttachCarried(w: World, sendAt: nat, closeAt: nat)
    ensures LinkCarried(Attached(w, sendAt, closeAt))
  {
  }

  lemma NodeCarried(w: World, ev: Event, connection: string)
    requires Inv(w, connection) && LinkCarried(w) && Enabled(w, ev, connection)
    requires ev.HandleSend? || ev.HandleClose? || ev.HandleUnlogged? || ev.ReplayNext? || ev.FinishReplay?
      || ev.NodeCloses?
    ensures LinkCarried(After(w, ev, connection))
  {
    hide Inv, LinkOk, Carried, N.Deliver, N.Disconnected, N.Replay, N.EndReplay, N.CloseFor;
    LinkOf(w, connection);
    LinkParts(w.log, connection, w.link.value);
    var l := w.link.value;
    match ev {
      case HandleSend =>
        if w.log[l.sendAt].Message? { LoggedCarried(l.conn, w.log[l.sendAt].body, l.sendAt + 1, l.handed); }
      case HandleClose =>
        if w.log[l.closeAt].Disconnect? {
          CloseHeldCarried(l.conn, w.log[l.closeAt].code, Some(l.closeAt + 1), l.handed);
        }
      case HandleUnlogged(body) => HandedCarried(l.conn, body, l.handed);
      case ReplayNext =>
        var entry := w.log[l.stage.next];
        if entry.Message? {
          ReplayCarried(l.conn, entry.body, l.stage.next + 1, l.handed);
        } else {
          CloseCarried(l.conn, entry.code, l.handed);
        }
      case FinishReplay => EndCarried(l.conn, l.stage.end, l.handed);
      case NodeCloses(status) => CloseCarried(l.conn, status, l.handed);
    }
  }

  lemma StepCarried(w: World, ev: Event, connection: string)
    requires Inv(w, connection) && LinkCarried(w) && Enabled(w, ev, connection)
    ensures LinkCarried(After(w, ev, connection))
  {
    hide Inv, LinkOk, N.Deliver, N.Disconnected, N.Replay, N.EndReplay, N.CloseFor, Claiming, UnloggedOut, E.Receive,
      SentTo,
      E.CloseGame, E.SendGame, E.Detach;
    match ev {
      case Attach(sendAt, closeAt) => AttachCarried(w, sendAt, closeAt);
      case Claim =>
        LinkOf(w, connection);
        ClaimCarried(w.log, connection, w.link.value, |w.log|);
      case HandleSend => NodeCarried(w, ev, connection);
      case HandleClose => NodeCarried(w, ev, connection);
      case HandleUnlogged(_) => NodeCarried(w, ev, connection);
      case ReplayNext => NodeCarried(w, ev, connection);
      case FinishReplay => NodeCarried(w, ev, connection);
      case NodeCloses(_) => NodeCarried(w, ev, connection);
      case _ =>
    }
  }

  // ---- The game: what its links carried, in order ----

  /** What the edge received of it so far: from the links before, and its own pings, then from this one. */
  function Received(w: World): seq<Body> {
    Got(w.parts) + if w.link.Some? then UnloggedOut(Taken(w.link.value)) else []
  }

  ghost predicate GameCarried(w: World) {
    && (w.edge.pinging ==> w.link.None?)
    && UnloggedTo(w.edge.toGame) <= Received(w)
    && (Intact(w.edge) ==> UnloggedTo(w.edge.toGame) == Received(w))
    && (forall p | p in w.parts :: p.got <= p.handed)
  }

  lemma CloseGameCarried(e: E.Edge, code: int)
    ensures var r := E.CloseGame(e, code);
      UnloggedTo(r.toGame) == UnloggedTo(e.toGame) && !Intact(r) && r.pinging == e.pinging
  {
    ToGameAdd(e.toGame, E.GameClose(code));
  }

  /** A frame for the game is the last it was sent, unless it is leaving, or did not fit. */
  lemma SendCarried(e: E.Edge, id: Option<nat>, body: Body)
    ensures var r := E.SendGame(e, id, body);
      && r.pinging == e.pinging && (Intact(r) ==> Intact(e))
      && UnloggedTo(r.toGame) <= UnloggedTo(e.toGame) + (if id.None? then [body] else [])
      && UnloggedTo(e.toGame) <= UnloggedTo(r.toGame)
      && (!Intact(e) ==> UnloggedTo(r.toGame) == UnloggedTo(e.toGame))
      && (Intact(r) ==> UnloggedTo(r.toGame) == UnloggedTo(e.toGame) + if id.None? then [body] else [])
  {
    ToGameAdd(e.toGame, E.ForGame(id, body));
  }

  lemma PingCarried(w: World, connection: string)
    requires GameCarried(w) && Enabled(w, PingGame, connection)
    ensures GameCarried(After(w, PingGame, connection))
  {
    hide UnloggedTo, E.SendGame;
    SendCarried(w.edge, None, Ping);
    GotAdd(w.parts, Part([Ping], [Ping]));
  }

  lemma EndedCarried(w: World, connection: string, now: int)
    requires Inv(w, connection) && GameCarried(w) && LinkCarried(w) && w.link.Some?
    ensures GameCarried(Ending(w, w.link.value, now))
  {
    hide Inv, UnloggedTo, UnloggedOut, LinkOk, E.CloseGame, Got, Received, Taken, GameCarried, LinkCarried;
    var l := w.link.value;
    var taken := UnloggedOut(Taken(l));
    assert taken <= l.handed by {
      LinkOf(w, connection);
      TakenInRange(w.log, connection, l);
      TakenHanded(w);
    }
    if l.close.Some? { CloseGameCarried(w.edge, l.close.value); }
    LinkGone(w, Ending(w, l, now), taken);
  }

  lemma TakenHanded(w: World)
    requires LinkCarried(w) && w.link.Some? && w.link.value.taken <= |w.link.value.conn.out|
    ensures UnloggedOut(Taken(w.link.value)) <= w.link.value.handed
  {
    hide UnloggedOut;
    UnloggedPrefix(w.link.value.conn.out, w.link.value.taken);
  }

  /** A link's part stays when the link is gone. */
  lemma LinkGone(w: World, r: World, taken: seq<Body>)
    requires GameCarried(w) && w.link.Some? && taken == UnloggedOut(Taken(w.link.value)) <= w.link.value.handed
    requires r.link.None? && r.parts == w.parts + [Part(w.link.value.handed, taken)]
    requires UnloggedTo(r.edge.toGame) == UnloggedTo(w.edge.toGame) && (Intact(r.edge) ==> Intact(w.edge))
    ensures GameCarried(r)
  {
    hide UnloggedTo, UnloggedOut, Taken, Got;
    GotAdd(w.parts, Part(w.link.value.handed, taken));
  }

  /** A frame received: one that is in no log goes on to the game, and no other does as one. */
  lemma FrameCarried(e: E.Edge, frame: Frame)
    ensures var r, more := E.Receive(e, frame), if frame.Unlogged? then [frame.body] else [];
      && r.pinging == e.pinging && (Intact(r) ==> Intact(e))
      && UnloggedTo(r.toGame) <= UnloggedTo(e.toGame) + more && UnloggedTo(e.toGame) <= UnloggedTo(r.toGame)
      && (!Intact(e) ==> UnloggedTo(r.toGame) == UnloggedTo(e.toGame))
      && (Intact(r) ==> UnloggedTo(r.toGame) == UnloggedTo(e.toGame) + more)
  {
    hide UnloggedTo, E.SendGame;
    match frame {
      case Unlogged(body) => SendCarried(e.(handshaken := e.handshaken || body == IdFrame), None, body);
      case Logged(id, body) => SendCarried(e.(cursor := Some(id)), Some(id), body);
      case _ =>
    }
  }

  lemma TakenMore(l: Link)
    requires l.taken < |l.conn.out| && l.conn.out[l.taken].Data?
    ensures var frame, r := l.conn.out[l.taken].frame, l.(taken := l.taken + 1);
      UnloggedOut(Taken(r)) == UnloggedOut(Taken(l)) + if frame.Unlogged? then [frame.body] else []
  {
    assert l.conn.out[..l.taken + 1] == l.conn.out[..l.taken] + [l.conn.out[l.taken]];
    UnloggedAdd(l.conn.out[..l.taken], l.conn.out[l.taken]);
  }

  lemma ReceivedCarried(w: World, connection: string)
    requires GameCarried(w) && Enabled(w, Receive, connection)
    ensures GameCarried(After(w, Receive, connection))
  {
    hide UnloggedTo, UnloggedOut, Taken, SentTo, E.Receive, Got;
    var l, r := w.link.value, After(w, Receive, connection);
    FrameCarried(w.edge, l.conn.out[l.taken].frame);
    TakenMore(l);
    TakenSame(l.(taken := l.taken + 1), r.link.value);
  }

  lemma TakenSame(l: Link, r: Link)
    requires r.conn == l.conn && r.taken == l.taken
    ensures Taken(r) == Taken(l)
  {
  }

  lemma GameStepCarried(w: World, ev: Event, connection: string)
    requires Inv(w, connection) && GameCarried(w) && LinkCarried(w) && Enabled(w, ev, connection)
    ensures GameCarried(After(w, ev, connection))
  {
    hide Inv, UnloggedTo, UnloggedOut, LinkCarried, Receiving, Ending, E.CloseGame, Claiming, Joining, Delivering,
      Closing,
      Replaying, N.Deliver, N.EndReplay, N.CloseFor;
    match ev {
      case Attach(_, _) => AttachedCarried(w, ev, connection);
      case Receive => ReceivedCarried(w, connection);
      case LinkEnds(now) => EndedCarried(w, connection, now);
      case GameEnds(_, code) => CloseGameCarried(w.edge, code);
      case GiveUp(code) => CloseGameCarried(w.edge, code);
      case PingGame => PingCarried(w, connection);
      case AttachFails(_) =>
      case Append(_) =>
      case _ =>
        LinkOf(w, connection);
        TakenInRange(w.log, connection, w.link.value);
        QueuedCarried(w, ev, connection);
    }
  }

  lemma AttachedCarried(w: World, ev: Event, connection: string)
    requires GameCarried(w) && Enabled(w, ev, connection) && ev.Attach?
    ensures GameCarried(After(w, ev, connection))
  {
    hide UnloggedTo;
  }

  /** A node's step only adds to the queue: what was received is as it was. */
  lemma QueuedCarried(w: World, ev: Event, connection: string)
    requires Inv(w, connection) && GameCarried(w) && Enabled(w, ev, connection)
    requires w.link.Some? && w.link.value.taken <= |w.link.value.conn.out|
    requires ev.Claim? || ev.Join? || ev.HandleSend? || ev.HandleClose? || ev.HandleUnlogged? || ev.ReadLog?
      || ev.ReplayNext? || ev.FinishReplay? || ev.NodeCloses? || ev.Write?
    ensures GameCarried(After(w, ev, connection))
  {
    hide Inv, UnloggedTo, UnloggedOut, LinkOk, Claiming, Joining, Delivering, Closing, Replaying, N.Deliver,
      N.EndReplay,
      N.CloseFor;
    var l, r := w.link.value, After(w, ev, connection);
    if ev.Claim? {
      LinkOf(w, connection);
      ClaimedQueue(w.log, connection, l, |w.log|);
    } else {
      QueueGrows(w, ev, connection);
    }
    assert Taken(r.link.value) == Taken(l);
  }

  // ---- Any session ----

  lemma NothingCarried(log: seq<Entry>)
    ensures LinkCarried(START.(log := log)) && GameCarried(START.(log := log))
  {
  }

  lemma {:induction false} AlwaysCarried(w: World, evs: seq<Event>, connection: string)
    requires Inv(w, connection) && LinkCarried(w) && GameCarried(w) && Happens(w, evs, connection)
    ensures LinkCarried(Later(w, evs, connection)) && GameCarried(Later(w, evs, connection))
    decreases |evs|
  {
    hide Inv, LinkCarried, GameCarried, Enabled, After;
    if evs != [] {
      StepKeeps(w, evs[0], connection);
      StepCarried(w, evs[0], connection);
      GameStepCarried(w, evs[0], connection);
      AlwaysCarried(After(w, evs[0], connection), evs[1..], connection);
    }
  }
}
