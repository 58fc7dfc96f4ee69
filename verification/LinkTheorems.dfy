/** What a game is sent over a whole session: any log, any nodes, any losses, resumes and interleavings. */
module LinkTheorems {
  import opened Options
  import opened GatewayLog
  import opened LinkProtocol
  import opened LinkCloses
  import opened LinkPositions
  import opened LinkUnlogged
  import N = GatewayConnections
  import E = EdgeSessions

  /** Any session from its first moment: every state it can reach. */
  ghost predicate Session(log: seq<Entry>, evs: seq<Event>, connection: string) {
    Happens(START.(log := log), evs, connection)
  }

  function At(log: seq<Entry>, evs: seq<Event>, connection: string): World
    requires Session(log, evs, connection)
  {
    Later(START.(log := log), evs, connection)
  }

  lemma SessionInv(log: seq<Entry>, evs: seq<Event>, connection: string)
    requires Session(log, evs, connection)
    ensures Inv(At(log, evs, connection), connection)
  {
    hide Inv;
    StartOk(connection, log);
    AlwaysKept(START.(log := log), evs, connection);
  }

  /**
   * Across link losses, node changes and resumes, the logged entries a game has been sent are exactly the log's
   * messages from where its sending began up to the edge's cursor, in id order, none missing and none twice; a game
   * that is leaving has been sent a first part of them. It is closed once at most, and nothing is queued after its
   * close.
   */
  lemma GameIsSentTheLog(log: seq<Entry>, evs: seq<Event>, connection: string)
    requires Session(log, evs, connection)
    ensures var w := At(log, evs, connection);
      var sent := SentTo(w.edge.toGame);
      && Complete(w.log, w.first, sent) && Rising(sent)
      && (w.edge.handshaken && Intact(w.edge) ==>
            w.edge.cursor.Some? && w.edge.cursor.value <= |w.log|
              && sent == MessagesIn(w.log, w.first, w.edge.cursor.value))
      && (!w.edge.handshaken ==> sent == [])
      && (forall i | 0 <= i < |w.edge.toGame| && w.edge.toGame[i].GameClose? :: i == |w.edge.toGame| - 1)
  {
    SessionInv(log, evs, connection);
    var w := At(log, evs, connection);
    MessagesAre(w.log, w.first, LastId(SentTo(w.edge.toGame), w.first));
  }

  /**
   * What is in no log reaches the game too, in order: what it was sent is exactly what the edge received of it over all
   * links, with the edge's own pings between them, or a first part of that once it is leaving. What was received of a
   * link is a first part of what its node gave it: all of that is queued or held, in order, while the link's connection
   * is not closed.
   */
  lemma GameIsSentTheRest(log: seq<Entry>, evs: seq<Event>, connection: string)
    requires Session(log, evs, connection)
    ensures var w := At(log, evs, connection);
      && UnloggedTo(w.edge.toGame) <= Received(w)
      && (Intact(w.edge) ==> UnloggedTo(w.edge.toGame) == Received(w))
      && (forall p | p in w.parts :: p.got <= p.handed)
      && (w.link.Some? ==>
            var l := w.link.value;
            && UnloggedOut(Taken(l)) <= UnloggedOut(l.conn.out) <= l.handed
            && (!l.conn.closing ==> UnloggedOut(l.conn.out) + Waiting(l.conn) == l.handed))
  {
    hide Inv, UnloggedOut, UnloggedTo, Received, Waiting;
    StartOk(connection, log);
    SessionInv(log, evs, connection);
    NothingCarried(log);
    AlwaysCarried(START.(log := log), evs, connection);
    var w := At(log, evs, connection);
    if w.link.Some? {
      LinkOf(w, connection);
      TakenInRange(w.log, connection, w.link.value);
      UnloggedPrefix(w.link.value.conn.out, w.link.value.taken);
    }
  }

  lemma SessionPosition(log: seq<Entry>, evs: seq<Event>, connection: string)
    requires Session(log, evs, connection)
    ensures PositionOk(At(log, evs, connection))
  {
    hide Inv;
    StartOk(connection, log);
    PositionAlways(START.(log := log), evs, connection);
  }

  /**
   * Counted from the position the game was given: what it was not sent, of the messages up to the edge's cursor, is
   * exactly those between that position and where its sending began. It was sent them all exactly when none lies there.
   */
  lemma ClaimMisses(log: seq<Entry>, evs: seq<Event>, connection: string)
    requires Session(log, evs, connection)
    ensures var w := At(log, evs, connection);
      var sent := SentTo(w.edge.toGame);
      && w.position <= w.first <= |w.log|
      && (w.edge.handshaken && Intact(w.edge) ==>
            && w.edge.cursor.Some? && w.first <= w.edge.cursor.value <= |w.log|
            && MessagesIn(w.log, w.position, w.edge.cursor.value) == MessagesIn(w.log, w.position, w.first) + sent
            && (sent == MessagesIn(w.log, w.position, w.edge.cursor.value) <==> NoMessage(w.log, w.position, w.first)))
  {
    hide SentTo, MessagesIn;
    SessionInv(log, evs, connection);
    SessionPosition(log, evs, connection);
    var w := At(log, evs, connection);
    if w.edge.handshaken && Intact(w.edge) {
      MessagesSplit(w.log, w.position, w.first, w.edge.cursor.value);
      NoneBetween(w.log, w.position, w.first);
    }
  }

  /**
   * If at every registration of a new game no message was handed out since its claim, a game is sent every message of
   * the log after its position, up to the edge's cursor.
   */
  lemma PromptClaims(log: seq<Entry>, evs: seq<Event>, connection: string)
    requires Session(log, evs, connection) && Prompt(START.(log := log), evs, connection)
    ensures var w := At(log, evs, connection);
      w.edge.handshaken && Intact(w.edge) ==>
        && w.edge.cursor.Some? && w.edge.cursor.value <= |w.log|
        && SentTo(w.edge.toGame) == MessagesIn(w.log, w.position, w.edge.cursor.value)
  {
    hide Inv;
    StartOk(connection, log);
    PromptMisses(START.(log := log), evs, connection);
    ClaimMisses(log, evs, connection);
  }

  /** A claim with nothing between it and the registration misses nothing, whatever else happens. */
  lemma ClaimsAtOnce(log: seq<Entry>, evs: seq<Event>, connection: string)
    requires Session(log, evs, connection) && ClaimsJoin(evs)
    ensures Prompt(START.(log := log), evs, connection)
    ensures var w := At(log, evs, connection);
      w.edge.handshaken && Intact(w.edge) ==>
        && w.edge.cursor.Some? && w.edge.cursor.value <= |w.log|
        && SentTo(w.edge.toGame) == MessagesIn(w.log, w.position, w.edge.cursor.value)
  {
    hide Inv;
    StartOk(connection, log);
    AtOnce(START.(log := log), evs, connection);
    PromptClaims(log, evs, connection);
  }

  lemma SessionEnds(log: seq<Entry>, evs: seq<Event>, connection: string)
    requires Session(log, evs, connection)
    ensures EndsOk(At(log, evs, connection))
  {
    hide Inv;
    StartOk(connection, log);
    EndsAlways(START.(log := log), evs, connection);
  }

  /**
   * A link that ends with a close received closes the game with the last code asked for, after everything queued, if it
   * is not closing yet and there is room; and no more links are made. One that ends without leaves the game to be
   * moved, pinged meanwhile once it has its id frame, unless the game has ended.
   */
  lemma AskedIsClosed(log: seq<Entry>, evs: seq<Event>, connection: string, now: int)
    requires Session(log, evs, connection) && Enabled(At(log, evs, connection), LinkEnds(now), connection)
    ensures var w := At(log, evs, connection);
      var asked, r := CloseIn(Taken(w.link.value)), After(w, LinkEnds(now), connection);
      && r.link.None?
      && (asked.Some? ==>
            && r.over && r.edge.closing
            && (!w.edge.closing && E.Room(w.edge) ==> r.edge.toGame == w.edge.toGame + [E.GameClose(asked.value)]))
      && (asked.None? && !w.ended ==>
            && r.over == w.over && r.edge.toGame == w.edge.toGame && r.edge.detachedAt.Some?
            && r.edge.pinging == r.edge.handshaken)
  {
    hide CloseIn, Session, At;
    SessionEnds(log, evs, connection);
  }

  /** Over, the game is closing, or has ended itself. */
  lemma OverIsClosed(log: seq<Entry>, evs: seq<Event>, connection: string)
    requires Session(log, evs, connection)
    ensures var w := At(log, evs, connection);
      && (w.over ==> w.edge.closing || w.ended)
      && (w.edge.pinging <==> w.edge.detachedAt.Some? && w.edge.handshaken)
  {
    SessionEnds(log, evs, connection);
  }

  /** Once a game has its id frame there is a cursor, and every later link resumes after it. */
  lemma LaterLinksResume(w: World, connection: string, sendAt: nat, closeAt: nat)
    requires Inv(w, connection) && w.edge.handshaken && Enabled(w, Attach(sendAt, closeAt), connection)
    ensures w.edge.cursor.Some? && After(w, Attach(sendAt, closeAt), connection).link.value.resume == w.edge.cursor
  {
  }

  /** A position is only taken while nothing logged was forwarded, and before the game has its id frame. */
  lemma PositionsComeFirst(w: World, connection: string)
    requires Inv(w, connection) && Enabled(w, Receive, connection)
    requires w.link.value.conn.out[w.link.value.taken].frame.Position?
    ensures SentTo(w.edge.toGame) == [] && !w.edge.handshaken
  {
    var l := w.link.value;
    assert FrameOk(l, l.taken);
    PositionFirst(w, connection, l, After(w, Receive, connection));
  }

  /** What a game was sent is never taken back, whatever happens next; a game being closed is sent nothing more. */
  lemma NothingIsTakenBack(w: World, ev: Event, connection: string)
    requires Inv(w, connection) && Enabled(w, ev, connection)
    ensures var r := After(w, ev, connection);
      w.edge.toGame <= r.edge.toGame && (w.edge.closing ==> r.edge.toGame == w.edge.toGame)
        && (w.edge.handshaken ==> r.edge.handshaken)
  {
    hide Inv, SentTo, LoggedOut, E.Tidy;
    TidyEdge(w, connection);
    match ev {
      case Receive => ReceiveContinues(w.edge, w.link.value.conn.out[w.link.value.taken].frame);
      case LinkEnds(_) => if w.link.value.close.Some? { E.CloseTidy(w.edge, w.link.value.close.value); }
      case GameEnds(_, code) => E.CloseTidy(w.edge, code);
      case GiveUp(code) => E.CloseTidy(w.edge, code);
      case PingGame => E.SendTidy(w.edge, None, Ping);
      case _ =>
    }
  }

  lemma ReceiveContinues(e: E.Edge, frame: Frame)
    requires E.Tidy(e)
    ensures E.Continues(e, E.Receive(e, frame))
  {
    E.ReceiveAllTidy(e, [frame]);
    assert [frame][..0] == [];
    assert E.ReceiveAll(e, [frame]) == E.Receive(e, frame);
  }

  /**
   * Where the sending begins only moves while nothing was sent: to the head at a claim, or to where a new link's
   * sending began.
   */
  lemma BeginsOnce(w: World, ev: Event, connection: string)
    requires Inv(w, connection) && Enabled(w, ev, connection)
    ensures var r := After(w, ev, connection);
      r.first == w.first
      || (SentTo(w.edge.toGame) == [] && ev.Receive?
          && (r.edge.cursor == Some(r.first) || (w.link.value.resume.None? && r.first == w.link.value.from)))
  {
    hide Inv, LoggedOut, SentTo, MessagesIn;
  }

  // ---- The resumed connection's queue ----

  /**
   * The hold and the replay merge right: once the replay is done, and for as long as the connection is not closed, its
   * queue is the log's messages after the resume's position, up to what the replay read and what was handled since,
   * each once, in order; and no close that applies to it was passed over by the replay.
   */
  lemma MergedRight(w: World, connection: string)
    requires Inv(w, connection) && w.link.Some? && w.link.value.resume.Some? && w.link.value.stage.Live?
    requires !w.link.value.conn.closing
    ensures var l := w.link.value;
      && Max(l.stage.base, l.sendAt) <= |w.log|
      && LoggedOut(l.conn.out) == MessagesIn(w.log, l.resume.value, Max(l.stage.base, l.sendAt))
        && Rising(LoggedOut(l.conn.out))
      && forall i | l.resume.value <= i < l.stage.base :: !AppliesTo(w.log[i], connection)
  {
    hide InStep, EdgeOk;
    var l := w.link.value;
    MessagesAre(w.log, l.init, Max(l.stage.base, l.sendAt));
  }

  /** Closed or not, at any moment of a replay or after it, what it queued has no gap and nothing twice. */
  lemma NeverAGap(w: World, connection: string)
    requires Inv(w, connection) && w.link.Some?
    ensures var l := w.link.value; Complete(w.log, l.from, LoggedOut(l.conn.out)) && Rising(LoggedOut(l.conn.out))
  {
    hide InStep, EdgeOk;
    var l := w.link.value;
    MessagesAre(w.log, l.from, LastId(LoggedOut(l.conn.out), l.from));
  }

  /** A close met in the log ends the queue exactly there: every message before it, none after it. */
  lemma ReplayedClose(w: World, connection: string)
    requires Inv(w, connection) && Enabled(w, ReplayNext, connection) && !w.link.value.conn.closing
    requires AppliesTo(w.log[w.link.value.stage.next], connection)
    ensures var l, r := w.link.value, After(w, ReplayNext, connection).link.value;
      && r.conn.closing && LoggedOut(r.conn.out) == MessagesIn(w.log, l.resume.value, l.stage.next)
      && forall i | l.resume.value <= i < l.stage.next :: !AppliesTo(w.log[i], connection)
  {
    hide InStep, EdgeOk, MessagesIn;
    var l := w.link.value;
    CloseAdds(l.conn, w.log[l.stage.next].code);
    LoggedTail(l.conn.out, N.CloseFor(l.conn, w.log[l.stage.next].code).out);
  }

  /**
   * A close handled live ends the queue where the other channel has got to: at the messages before the close exactly
   * when none lies between the two, however far back the close's channel is.
   */
  lemma LiveClose(w: World, connection: string)
    requires Inv(w, connection) && Enabled(w, HandleClose, connection) && !w.link.value.conn.closing
    requires w.link.value.stage.Live?
    requires AppliesTo(w.log[w.link.value.closeAt], connection)
    ensures var l, r := w.link.value, After(w, HandleClose, connection).link.value;
      var got := Max(l.stage.base, l.sendAt);
      && r.conn.closing && got <= |w.log|
      && (LoggedOut(r.conn.out) == MessagesIn(w.log, l.from, l.closeAt)
          <==> NoMessage(w.log, got, l.closeAt) && NoMessage(w.log, Max(l.from, l.closeAt), got))
  {
    hide InStep, EdgeOk, MessagesIn, LoggedOut;
    var l := w.link.value;
    CloseAdds(l.conn, w.log[l.closeAt].code);
    LoggedTail(l.conn.out, N.CloseFor(l.conn, w.log[l.closeAt].code).out);
    var got := Max(l.stage.base, l.sendAt);
    if got <= l.closeAt {
      SameMessages(w.log, l.from, got, l.closeAt);
    } else {
      SameMessages(w.log, l.from, Max(l.from, l.closeAt), got);
      NoneAfter(w.log, l.from, l.closeAt);
    }
  }

  lemma NoneAfter(log: seq<Entry>, after: nat, upto: nat)
    requires after <= |log| && upto <= |log|
    ensures MessagesIn(log, after, upto) == MessagesIn(log, after, Max(after, upto))
  {
  }

  lemma SessionCloses(log: seq<Entry>, evs: seq<Event>, connection: string)
    requires Session(log, evs, connection)
    ensures ClosesKept(At(log, evs, connection), connection)
  {
    hide Inv;
    StartOk(connection, log);
    ClosesAlways(START.(log := log), evs, connection);
  }

  /**
   * A close that arrived during the replay, was held, and is what ends the flush: it is the first in the log that
   * applies to the connection since the position resumed after, and the queue is exactly the log's messages before it
   * if and only if, of what is held before it, no message was logged after it, and every message logged before it that
   * the replay did not read is there.
   */
  lemma FlushedClose(log: seq<Entry>, evs: seq<Event>, connection: string, j: nat)
    requires Session(log, evs, connection)
    requires var w := At(log, evs, connection); Enabled(w, FinishReplay, connection) && !w.link.value.conn.closing
    requires ClosesFlush(At(log, evs, connection).link.value, j)
    ensures var w := At(log, evs, connection);
      var l, r := w.link.value, After(w, FinishReplay, connection).link.value;
      var item := l.conn.held.value[j];
      && r.conn.closing && l.resume.Some? && item.id.Some? && l.stage.end < item.id.value <= |w.log|
      && AppliesTo(w.log[item.id.value - 1], connection)
      && (forall i | l.resume.value <= i < item.id.value - 1 :: !AppliesTo(w.log[i], connection))
      && (LoggedOut(r.conn.out) == MessagesIn(w.log, l.resume.value, item.id.value)
          <==> InOrder(w.log, l.conn.held.value[..j], l.stage.end, item.id.value))
  {
    hide Session, At, InStep, EdgeOk, MessagesIn, LoggedOut, HeldSent, N.EndReplay, N.Flush, ClosesOk, Complete,
      InOrder;
    SessionInv(log, evs, connection);
    SessionCloses(log, evs, connection);
    var w := At(log, evs, connection);
    var l := w.link.value;
    FlushedUpto(w.log, connection, l, j);
    FirstClose(w.log, connection, l, j);
    ClosedInOrder(w.log, l.conn.held.value[..j], l.joinedAt, l.init, l.stage.end, l.conn.held.value[j].id.value);
  }

  /** The flush gets to a held close that the replay did not pass. */
  ghost predicate ClosesFlush(l: Link, j: nat) {
    && l.stage.Reading? && l.conn.held.Some? && j < |l.conn.held.value|
    && !N.Flush(l.conn.(held := None), l.conn.held.value[..j], l.stage.end).closing
    && l.conn.held.value[j].HeldClose?
    && !(l.conn.held.value[j].id.Some? && l.conn.held.value[j].id.value <= l.stage.end)
  }

  lemma ClosedInOrder(log: seq<Entry>, before: seq<N.Held>, joinedAt: nat, init: nat, end: nat, closeId: nat)
    requires joinedAt <= end && init <= end < closeId <= |log| && !log[closeId - 1].Message?
    requires Complete(log, joinedAt, HeldSent(before))
    ensures var upto := Max(end, LastId(HeldSent(before), joinedAt));
      upto <= |log|
        && (MessagesIn(log, init, upto) == MessagesIn(log, init, closeId) <==> InOrder(log, before, end, closeId))
  {
    hide HeldSent, MessagesIn, InOrder, Complete;
    OrderIs(log, before, joinedAt, end, closeId);
    var upto := Max(end, LastId(HeldSent(before), joinedAt));
    if upto <= closeId { SameMessages(log, init, upto, closeId); } else { SameMessages(log, init, closeId, upto); }
  }

  /** A replay's end closes the connection only by such a close, or because a message held finds the queue full. */
  lemma FlushOnlyCloses(w: World, connection: string)
    requires Inv(w, connection) && Enabled(w, FinishReplay, connection) && !w.link.value.conn.closing
    requires After(w, FinishReplay, connection).link.value.conn.closing
    ensures var l := w.link.value;
      && l.conn.held.Some?
      && exists j: nat | j < |l.conn.held.value| ::
        || ClosesFlush(l, j)
        || (l.conn.held.value[j].HeldMessage? && FlushFull(l, j))
  {
    hide InStep, EdgeOk, N.Flush, MessagesIn, LoggedOut, HeldSent, N.Tidy;
    var l := w.link.value;
    FlushEnds(l.conn.(held := None), l.conn.held.value, l.stage.end);
    var j: nat :| 0 <= j < |l.conn.held.value|
      && !N.Flush(l.conn.(held := None), l.conn.held.value[..j], l.stage.end).closing
      && !(l.conn.held.value[j].id.Some? && l.conn.held.value[j].id.value <= l.stage.end)
      && (l.conn.held.value[j].HeldClose?
        || !N.Room(N.Flush(l.conn.(held := None), l.conn.held.value[..j], l.stage.end)));
    assert ClosesFlush(l, j) || FlushFull(l, j);
  }

  /** The flush gets to a held item with the queue full. */
  ghost predicate FlushFull(l: Link, j: nat) {
    && l.stage.Reading? && l.conn.held.Some? && j < |l.conn.held.value|
    && var m := N.Flush(l.conn.(held := None), l.conn.held.value[..j], l.stage.end); !m.closing && !N.Room(m)
  }
}
