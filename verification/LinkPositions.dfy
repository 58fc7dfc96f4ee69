/**
 * Where a new game's log position and what it is sent first lie apart (GatewayNode.cs lines 168-202): what the node
 * hands out between the claim and the registration of the game's connection reaches nobody.
 */
module LinkPositions {
  import opened Options
  import opened GatewayLog
  import opened LinkProtocol
  import N = GatewayConnections
  import E = EdgeSessions

  // ---- The position and where the sending began ----

  /** The sending began at the last position or after it, which was the head at the claim of the link it came on. */
  ghost predicate PositionOk(w: World) {
    && w.position <= w.first
    && (w.link.Some? ==> Positioned(w, w.link.value))
  }

  ghost predicate Positioned(w: World, l: Link) {
    l.resume.None? && 1 <= l.taken <= |l.conn.out| && l.conn.out[0] == N.Data(Position(l.init)) ==> w.position == l.init
  }

  lemma PositionKeeps(w: World, ev: Event, connection: string)
    requires Inv(w, connection) && PositionOk(w) && Enabled(w, ev, connection)
    ensures PositionOk(After(w, ev, connection))
  {
    hide Inv, N.Deliver, N.Disconnected, N.CloseFor, N.EndReplay, SentTo;
    match ev {
      case Receive => PositionReceived(w, connection);
      case Claim => PositionClaimed(w, connection);
      case Attach(_, _) =>
      case AttachFails(_) => SamePlace(w, After(w, ev, connection));
      case GiveUp(_) => SamePlace(w, After(w, ev, connection));
      case GameEnds(_, _) => SamePlace(w, After(w, ev, connection));
      case PingGame => SamePlace(w, After(w, ev, connection));
      case Append(_) => SamePlace(w, After(w, ev, connection));
      case LinkEnds(_) =>
      case _ => PositionOnNode(w, ev, connection);
    }
  }

  lemma SamePlace(w: World, r: World)
    requires PositionOk(w) && r.link == w.link && r.position == w.position && r.first == w.first
    ensures PositionOk(r)
  {
  }

  lemma PositionOnNode(w: World, ev: Event, connection: string)
    requires Inv(w, connection) && PositionOk(w) && Enabled(w, ev, connection)
    requires ev.Join? || ev.HandleSend? || ev.HandleClose? || ev.HandleUnlogged? || ev.ReadLog? || ev.ReplayNext?
      || ev.FinishReplay? || ev.NodeCloses? || ev.Write?
    ensures PositionOk(After(w, ev, connection))
  {
    hide Inv, LinkOk, LoggedOut, SentTo, MessagesIn, N.Deliver, N.Disconnected, N.CloseFor, N.EndReplay;
    LinkOf(w, connection);
    TakenInRange(w.log, connection, w.link.value);
    QueueGrows(w, ev, connection);
  }

  lemma LinkOf(w: World, connection: string)
    requires Inv(w, connection) && w.link.Some?
    ensures LinkOk(w.log, connection, w.link.value)
  {
  }

  /** A link's queue only grows, whatever its node does. */
  lemma QueueGrows(w: World, ev: Event, connection: string)
    requires Inv(w, connection) && Enabled(w, ev, connection)
    requires ev.Join? || ev.HandleSend? || ev.HandleClose? || ev.HandleUnlogged? || ev.ReadLog? || ev.ReplayNext?
      || ev.FinishReplay? || ev.NodeCloses? || ev.Write?
    ensures var l, r := w.link.value, After(w, ev, connection).link;
      && r.Some? && l.conn.out <= r.value.conn.out && r.value.init == l.init && r.value.taken == l.taken
        && r.value.resume == l.resume
  {
    hide InStep, EdgeOk, LinkOk, N.Deliver, N.Disconnected, N.CloseFor, N.EndReplay;
    var l := w.link.value;
    match ev {
      case HandleSend => DeliveringLink(w.log, connection, l);
      case HandleClose => ClosingLink(w.log, connection, l);
      case HandleUnlogged(body) => UnloggedLink(w.log, connection, l, body);
      case ReplayNext => ReplayingLink(w.log, connection, l);
      case FinishReplay => FinishedLink(w.log, connection, l);
      case NodeCloses(status) => NodeClosesLink(w.log, connection, l, status);
      case _ =>
    }
  }

  /** A claim queues the position only on a link that has sent nothing. */
  lemma PositionClaimed(w: World, connection: string)
    requires Inv(w, connection) && PositionOk(w) && Enabled(w, Claim, connection)
    ensures PositionOk(After(w, Claim, connection))
  {
    hide InStep, EdgeOk, LinkOk, Claiming;
    var l := w.link.value;
    ClaimedQueue(w.log, connection, l, |w.log|);
  }

  lemma ClaimedQueue(log: seq<Entry>, connection: string, l: Link, head: nat)
    requires LinkOk(log, connection, l) && l.resume.None? && l.stage.Opened?
    ensures var r := Claiming(l, head);
      && r.taken == l.taken && (l.taken >= 1 ==> l.conn.closing && r.conn.out == l.conn.out && 1 <= |l.conn.out|)
      && (1 <= |l.conn.out| && l.conn.out[0].Data? ==> l.conn.out[0].frame.Close?)
  {
    if l.conn.closing { ClosingClaim(l, head); }
  }

  lemma PositionReceived(w: World, connection: string)
    requires Inv(w, connection) && PositionOk(w) && Enabled(w, Receive, connection)
    ensures PositionOk(After(w, Receive, connection))
  {
    hide StageOk, EdgeOk, LoggedOut, SentTo, E.Receive, N.Tidy, Complete;
    var l := w.link.value;
    var frame := l.conn.out[l.taken].frame;
    assert FrameOk(l, l.taken);
    if frame.Position? {
      PositionFirst(w, connection, l, After(w, Receive, connection));
    } else if !frame.Logged? {
      NothingForwarded(w.edge, frame);
    }
  }

  /** Only a logged frame is forwarded as one. */
  lemma NothingForwarded(e: E.Edge, frame: Frame)
    requires !frame.Logged?
    ensures SentTo(E.Receive(e, frame).toGame) == SentTo(e.toGame)
  {
    if frame.Unlogged? { SentAdd(e.toGame, E.ForGame(None, frame.body)); }
  }

  // ---- What lies between a claim and the registration ----

  /** No message was handed out between the claim and the registration about to be made. */
  ghost predicate PromptJoin(w: World) {
    w.link.Some? && w.link.value.resume.None? ==>
      var upto := Max(w.link.value.init, w.link.value.sendAt);
        upto <= |w.log| && NoMessage(w.log, w.link.value.init, upto)
  }

  /** So at every registration among the events. */
  ghost predicate Prompt(w: World, evs: seq<Event>, connection: string)
    requires Happens(w, evs, connection)
    decreases |evs|
  {
    evs == [] || ((evs[0].Join? ==> PromptJoin(w)) && Prompt(After(w, evs[0], connection), evs[1..], connection))
  }

  /** No message lies between the position and where the sending began, nor will one for the link there is. */
  ghost predicate NothingMissed(w: World) {
    && w.first <= |w.log| && NoMessage(w.log, w.position, w.first)
    && (w.link.Some? && w.link.value.resume.None? && Here(w.link.value) ==>
          w.link.value.from <= |w.log| && NoMessage(w.log, w.link.value.init, w.link.value.from))
  }

  lemma MissedKeeps(w: World, ev: Event, connection: string)
    requires Inv(w, connection) && PositionOk(w) && NothingMissed(w) && Enabled(w, ev, connection)
    requires ev.Join? ==> PromptJoin(w)
    ensures NothingMissed(After(w, ev, connection))
  {
    hide Inv, EdgeOk, InStep, LinkOk, LoggedOut, SentTo, MessagesIn, N.Deliver, N.Disconnected, N.CloseFor, N.EndReplay,
      E.CloseGame, E.SendGame, E.Detach, E.Receive, Positioned;
    if ev.Receive? { MissedReceived(w, connection); }
  }

  lemma MissedReceived(w: World, connection: string)
    requires Inv(w, connection) && PositionOk(w) && NothingMissed(w) && Enabled(w, Receive, connection)
    ensures NothingMissed(After(w, Receive, connection))
  {
    hide StageOk, EdgeOk, LoggedOut, SentTo, E.Receive, N.Tidy, Complete, InStep;
    var l, r := w.link.value, After(w, Receive, connection);
    var frame := l.conn.out[l.taken].frame;
    assert FrameOk(l, l.taken);
    if frame.Position? {
      InLog(w, connection, l);
      PositionFirst(w, connection, l, r);
    } else if !frame.Logged? {
      NothingForwarded(w.edge, frame);
    } else if l.resume.None? {
      ReceivedAdd(l.conn.out, l.taken);
    }
  }

  lemma InLog(w: World, connection: string, l: Link)
    requires Inv(w, connection) && w.link == Some(l)
    ensures l.init <= |w.log|
  {
  }

  lemma {:induction false} PromptMisses(w: World, evs: seq<Event>, connection: string)
    requires Inv(w, connection) && PositionOk(w) && NothingMissed(w) && Happens(w, evs, connection)
      && Prompt(w, evs, connection)
    ensures NothingMissed(Later(w, evs, connection))
    decreases |evs|
  {
    hide Inv, PositionOk, NothingMissed, PromptJoin, Enabled, After;
    if evs != [] {
      StepKeeps(w, evs[0], connection);
      PositionKeeps(w, evs[0], connection);
      MissedKeeps(w, evs[0], connection);
      PromptMisses(After(w, evs[0], connection), evs[1..], connection);
    }
  }

  lemma {:induction false} PositionAlways(w: World, evs: seq<Event>, connection: string)
    requires Inv(w, connection) && PositionOk(w) && Happens(w, evs, connection)
    ensures PositionOk(Later(w, evs, connection))
    decreases |evs|
  {
    hide Inv, PositionOk, Enabled, After;
    if evs != [] {
      StepKeeps(w, evs[0], connection);
      PositionKeeps(w, evs[0], connection);
      PositionAlways(After(w, evs[0], connection), evs[1..], connection);
    }
  }

  // ---- A claim followed by its registration at once ----

  /** Nothing comes between a claim and the registration after it. */
  ghost predicate ClaimsJoin(evs: seq<Event>) {
    forall i | 0 <= i < |evs| - 1 && evs[i].Claim? :: evs[i + 1].Join?
  }

  /** A claim made a moment ago, with the log as it was. */
  ghost predicate JustClaimed(w: World, evs: seq<Event>) {
    w.link.Some? && w.link.value.stage.Claimed? && evs != [] ==> evs[0].Join? && w.link.value.init == |w.log|
  }

  lemma {:induction false} AtOnce(w: World, evs: seq<Event>, connection: string)
    requires Inv(w, connection) && Happens(w, evs, connection) && ClaimsJoin(evs) && JustClaimed(w, evs)
    ensures Prompt(w, evs, connection)
    decreases |evs|
  {
    hide Inv, Enabled, After;
    if evs != [] {
      var r := After(w, evs[0], connection);
      StepKeeps(w, evs[0], connection);
      JoinsPromptly(w, evs, connection);
      forall i | 0 <= i < |evs[1..]| - 1 && evs[1..][i].Claim? ensures evs[1..][i + 1].Join? {
        assert evs[i + 1].Claim?;
      }
      AtOnce(r, evs[1..], connection);
    }
  }

  lemma JoinsPromptly(w: World, evs: seq<Event>, connection: string)
    requires Inv(w, connection) && evs != [] && Enabled(w, evs[0], connection) && ClaimsJoin(evs) && JustClaimed(w, evs)
    ensures JustClaimed(After(w, evs[0], connection), evs[1..]) && (evs[0].Join? ==> PromptJoin(w))
  {
    hide InStep, EdgeOk, N.Deliver, N.Disconnected, N.CloseFor, N.EndReplay, StageOk, N.Tidy, Complete, LoggedOut,
      SentTo,
      E.CloseGame, E.SendGame, E.Detach, E.Receive, HeldOk, Shape;
    if evs[0].Claim? && |evs| > 1 { assert evs[1..][0] == evs[0 + 1]; }
  }
}
