/**
 * A close held during a replay (GatewayConnection.cs lines 85-97 and 153-156): which closes are held, where the first
 * of them comes in the log, and what has been queued when the flush reaches it.
 */
module LinkCloses {
  import opened Options
  import opened GatewayLog
  import opened LinkPositions
  import opened LinkProtocol
  import N = GatewayConnections
  import E = EdgeSessions

  // ---- Every close handled during a replay is held ----

  /**
   * The closes held are exactly the log's that apply to the connection, in the part handled since it got here, in
   * order.
   */
  ghost predicate HeldCloses(log: seq<Entry>, connection: string, held: seq<N.Held>, after: nat, upto: nat)
    requires upto <= |log|
  {
    && (forall i | 0 <= i < |held| && held[i].HeldClose? ::
          && held[i].id.Some? && after < held[i].id.value <= upto
          && AppliesTo(log[held[i].id.value - 1], connection) && held[i].code == log[held[i].id.value - 1].code)
    && (forall i, j | 0 <= i < j < |held| && held[i].HeldClose? && held[j].HeldClose? ::
          held[i].id.Some? && held[j].id.Some? && held[i].id.value < held[j].id.value)
    && (forall k | after <= k < upto && AppliesTo(log[k], connection) :: N.HeldClose(log[k].code, Some(k + 1)) in held)
  }

  ghost predicate ClosesOk(log: seq<Entry>, connection: string, l: Link) {
    && l.closesFrom <= l.closeAt <= |log|
    && (!l.conn.closing && (l.stage.Joined? || l.stage.Reading?) ==>
          l.conn.held.Some? && HeldCloses(log, connection, l.conn.held.value, l.closesFrom, l.closeAt))
    && (!l.conn.closing && l.stage.Reading? ==> l.closesFrom <= l.stage.end)
  }

  ghost predicate ClosesKept(w: World, connection: string) {
    w.link.Some? ==> ClosesOk(w.log, connection, w.link.value)
  }

  lemma ClosesStay(log: seq<Entry>, more: seq<Entry>, connection: string, l: Link)
    requires ClosesOk(log, connection, l)
    ensures ClosesOk(log + more, connection, l)
  {
    if l.conn.held.Some? {
      forall k | l.closesFrom <= k < l.closeAt ensures (log + more)[k] == log[k] {}
    }
  }

  /** A message held, or one that is in no log, leaves the closes as they are. */
  lemma MessageHeld(log: seq<Entry>, connection: string, held: seq<N.Held>, item: N.Held, after: nat, upto: nat)
    requires upto <= |log| && HeldCloses(log, connection, held, after, upto) && item.HeldMessage?
    ensures HeldCloses(log, connection, held + [item], after, upto)
  {
    forall k | after <= k < upto && AppliesTo(log[k], connection)
      ensures N.HeldClose(log[k].code, Some(k + 1)) in held + [item]
    {
      assert N.HeldClose(log[k].code, Some(k + 1)) in held;
    }
  }

  /** The next close of the log, held after the others. */
  lemma CloseIsHeld(log: seq<Entry>, connection: string, held: seq<N.Held>, after: nat, upto: nat)
    requires after <= upto < |log| && HeldCloses(log, connection, held, after, upto) && AppliesTo(log[upto], connection)
    ensures HeldCloses(log, connection, held + [N.HeldClose(log[upto].code, Some(upto + 1))], after, upto + 1)
  {
    var item := N.HeldClose(log[upto].code, Some(upto + 1));
    forall k | after <= k < upto + 1 && AppliesTo(log[k], connection)
      ensures N.HeldClose(log[k].code, Some(k + 1)) in held + [item]
    {
      if k < upto { assert N.HeldClose(log[k].code, Some(k + 1)) in held; } else { assert item in held + [item]; }
    }
  }

  /** An entry that closes nothing here. */
  lemma NotAClose(log: seq<Entry>, connection: string, held: seq<N.Held>, after: nat, upto: nat)
    requires after <= upto < |log| && HeldCloses(log, connection, held, after, upto)
      && !AppliesTo(log[upto], connection)
    ensures HeldCloses(log, connection, held, after, upto + 1)
  {
  }

  lemma ClosesOnClose(log: seq<Entry>, connection: string, l: Link)
    requires LinkOk(log, connection, l) && ClosesOk(log, connection, l) && l.closeAt < |log|
    ensures ClosesOk(log, connection, Closing(l, log, connection))
  {
    hide LinkOk, HeldCloses, N.CloseFor;
    LinkParts(log, connection, l);
    var applies := AppliesTo(log[l.closeAt], connection);
    if !l.conn.closing && (l.stage.Joined? || l.stage.Reading?) {
      if applies { CloseIsHeld(log, connection, l.conn.held.value, l.closesFrom, l.closeAt); }
      else { NotAClose(log, connection, l.conn.held.value, l.closesFrom, l.closeAt); }
    } else if applies && Here(l) && l.conn.held.None? {
      CloseAdds(l.conn, log[l.closeAt].code);
    }
  }

  /** A delivery, with the id of its place in the log or with none. */
  lemma ClosesOnMessage(log: seq<Entry>, connection: string, l: Link, body: Body, id: Option<nat>, sendAt: nat)
    requires LinkOk(log, connection, l) && ClosesOk(log, connection, l) && Here(l)
    ensures ClosesOk(log, connection, l.(conn := N.Deliver(l.conn, body, id), sendAt := sendAt))
  {
    hide LinkOk, HeldCloses, N.DeliverNow;
    LinkParts(log, connection, l);
    if !l.conn.closing && (l.stage.Joined? || l.stage.Reading?) {
      MessageHeld(log, connection, l.conn.held.value, N.HeldMessage(body, id), l.closesFrom, l.closeAt);
    } else if l.conn.closing && l.conn.held.None? {
      N.DeliverNowTidy(l.conn, body, id);
    }
  }

  lemma ClosesOnJoin(log: seq<Entry>, connection: string, l: Link)
    requires LinkOk(log, connection, l) && ClosesOk(log, connection, l)
    requires if l.resume.Some? then l.stage.Opened? else l.stage.Claimed?
    ensures ClosesOk(log, connection, Joining(l))
  {
    hide LinkOk;
    LinkParts(log, connection, l);
  }

  lemma ClosesOnReplay(log: seq<Entry>, connection: string, l: Link)
    requires LinkOk(log, connection, l) && ClosesOk(log, connection, l) && l.stage.Reading?
    requires l.stage.next < l.stage.end <= |log|
    ensures ClosesOk(log, connection, Replaying(l, log, connection))
  {
    hide LinkOk, HeldCloses, N.CloseFor;
    LinkParts(log, connection, l);
    if !log[l.stage.next].Message? { CloseAdds(l.conn, log[l.stage.next].code); }
  }

  lemma ClosesKeep(w: World, ev: Event, connection: string)
    requires Inv(w, connection) && ClosesKept(w, connection) && Enabled(w, ev, connection)
    ensures ClosesKept(After(w, ev, connection), connection)
  {
    hide Inv, LinkOk, HeldCloses, N.Deliver, N.EndReplay, N.CloseFor, Closing, Joining, Replaying, Claiming, Receiving,
      Ending;
    if w.link.Some? { LinkHere(w, connection); }
    match ev {
      case Append(entry) => if w.link.Some? { ClosesStay(w.log, [entry], connection, w.link.value); }
      case Claim => ClaimCloses(w.log, connection, w.link.value, |w.log|);
      case Join => ClosesOnJoin(w.log, connection, w.link.value);
      case HandleSend =>
        var l := w.link.value;
        if w.log[l.sendAt].Message? && Here(l) {
          ClosesOnMessage(w.log, connection, l, w.log[l.sendAt].body, Some(l.sendAt + 1), l.sendAt + 1);
        }
      case HandleClose => ClosesOnClose(w.log, connection, w.link.value);
      case HandleUnlogged(body) => ClosesOnMessage(w.log, connection, w.link.value, body, None, w.link.value.sendAt);
      case ReplayNext => ClosesOnReplay(w.log, connection, w.link.value);
      case NodeCloses(status) => CloseAdds(w.link.value.conn, status);
      case Receive => ReceiveCloses(w, connection);
      case LinkEnds(now) => EndCloses(w, now);
      case _ =>
    }
  }

  lemma LinkHere(w: World, connection: string)
    requires Inv(w, connection) && w.link.Some?
    ensures LinkOk(w.log, connection, w.link.value) && w.link.value.conn.edge && w.link.value.closeAt <= |w.log|
  {
  }

  lemma ClaimCloses(log: seq<Entry>, connection: string, l: Link, head: nat)
    requires ClosesOk(log, connection, l) && l.stage.Opened?
    ensures ClosesOk(log, connection, Claiming(l, head))
  {
    hide HeldCloses;
  }

  lemma ReceiveCloses(w: World, connection: string)
    requires ClosesKept(w, connection) && Enabled(w, Receive, connection)
    ensures ClosesKept(After(w, Receive, connection), connection)
  {
    hide HeldCloses, E.Receive, SentTo;
  }

  lemma EndCloses(w: World, now: int)
    requires w.link.Some?
    ensures Ending(w, w.link.value, now).link.None?
  {
  }

  lemma {:induction false} ClosesAlways(w: World, evs: seq<Event>, connection: string)
    requires Inv(w, connection) && ClosesKept(w, connection) && Happens(w, evs, connection)
    ensures ClosesKept(Later(w, evs, connection), connection)
    decreases |evs|
  {
    hide Inv, ClosesKept, Enabled, After;
    if evs != [] {
      StepKeeps(w, evs[0], connection);
      ClosesKeep(w, evs[0], connection);
      ClosesAlways(After(w, evs[0], connection), evs[1..], connection);
    }
  }

  // ---- The flush up to a held close ----

  /** A close ends the flush: what is held after it is not queued. */
  lemma {:induction false} FlushStops(c: N.Conn, held: seq<N.Held>, n: nat, replayed: nat)
    requires n <= |held| && N.Flush(c, held[..n], replayed).closing && N.Flush(c, held[..n], replayed).edge
    ensures var r, m := N.Flush(c, held, replayed), N.Flush(c, held[..n], replayed);
      r.closing && r.edge && r.out == m.out
    decreases |held|
  {
    if n < |held| {
      FlushStops(c, held[..|held| - 1], n, replayed) by { assert held[..|held| - 1][..n] == held[..n]; }
      assert held[..|held| - 1][..n] == held[..n];
      FlushedClosed(N.Flush(c, held[..|held| - 1], replayed), held[|held| - 1], replayed);
    } else {
      assert held[..n] == held;
    }
  }

  lemma FlushedClosed(c: N.Conn, item: N.Held, replayed: nat)
    requires c.closing && c.edge
    ensures var r := N.Flushed(c, item, replayed); r.closing && r.edge && r.out == c.out
  {
    if item.HeldClose? { CloseAdds(c, item.code); }
  }

  /** While the flush has not closed the connection, every close it passed was one the replay had passed before. */
  lemma {:induction false} NoCloseFlushed(c: N.Conn, held: seq<N.Held>, replayed: nat)
    requires c.edge && !N.Flush(c, held, replayed).closing
    ensures forall i | 0 <= i < |held| && held[i].HeldClose? :: held[i].id.Some? && held[i].id.value <= replayed
    ensures N.Flush(c, held, replayed).edge
    decreases |held|
  {
    if held != [] {
      var before, item := held[..|held| - 1], held[|held| - 1];
      var m := N.Flush(c, before, replayed);
      FlushEdge(c, before, replayed);
      if m.closing { FlushedClosed(m, item, replayed); }
      NoCloseFlushed(c, before, replayed);
      if item.HeldClose? { CloseAdds(m, item.code); }
      forall i | 0 <= i < |held| && held[i].HeldClose? ensures held[i].id.Some? && held[i].id.value <= replayed {
        if i < |before| { assert before[i] == held[i]; }
      }
    }
  }

  lemma {:induction false} FlushEdge(c: N.Conn, held: seq<N.Held>, replayed: nat)
    requires c.edge
    ensures N.Flush(c, held, replayed).edge
    decreases |held|
  {
    if held != [] { FlushEdge(c, held[..|held| - 1], replayed); }
  }

  /** What ends a flush: a held close the replay did not pass, or a message that found the queue full. */
  lemma {:induction false} FlushEnds(c: N.Conn, held: seq<N.Held>, replayed: nat)
    requires c.edge && !c.closing && N.Flush(c, held, replayed).closing
    ensures exists j | 0 <= j < |held| ::
      && !N.Flush(c, held[..j], replayed).closing && !(held[j].id.Some? && held[j].id.value <= replayed)
      && (held[j].HeldClose? || !N.Room(N.Flush(c, held[..j], replayed)))
    decreases |held|
  {
    if held != [] {
      var before := held[..|held| - 1];
      if N.Flush(c, before, replayed).closing {
        FlushEnds(c, before, replayed);
        var j :| 0 <= j < |before| && !N.Flush(c, before[..j], replayed).closing
          && !(before[j].id.Some? && before[j].id.value <= replayed)
          && (before[j].HeldClose? || !N.Room(N.Flush(c, before[..j], replayed)));
        assert before[..j] == held[..j] && before[j] == held[j];
      }
    }
  }

  // ---- What is held before a close, against the log ----

  lemma {:induction false} HeldIn(held: seq<N.Held>, id: nat, body: Body)
    ensures (id, body) in HeldSent(held) <==> N.HeldMessage(body, Some(id)) in held
    decreases |held|
  {
    if held != [] {
      var before, item := held[..|held| - 1], held[|held| - 1];
      HeldIn(before, id, body);
      assert held == before + [item];
    }
  }

  /** Held before the close: none logged after it, and every one logged before it that the replay did not read. */
  ghost predicate InOrder(log: seq<Entry>, before: seq<N.Held>, end: nat, closeId: nat)
    requires closeId <= |log|
  {
    && (forall i | 0 <= i < |before| && before[i].HeldMessage? && before[i].id.Some? :: before[i].id.value < closeId)
    && (forall k | end <= k < closeId && log[k].Message? :: N.HeldMessage(log[k].body, Some(k + 1)) in before)
  }

  /** In that order, there is no message between the last one queued and the close, on either side. */
  lemma OrderIs(log: seq<Entry>, before: seq<N.Held>, joinedAt: nat, end: nat, closeId: nat)
    requires joinedAt <= end < closeId <= |log| && !log[closeId - 1].Message?
    requires Complete(log, joinedAt, HeldSent(before))
    ensures var upto := Max(end, LastId(HeldSent(before), joinedAt));
      upto <= |log|
        && (InOrder(log, before, end, closeId) <==> NoMessage(log, upto, closeId) && NoMessage(log, closeId, upto))
  {
    hide HeldSent, MessagesIn;
    var sent := HeldSent(before);
    var last := LastId(sent, joinedAt);
    MessagesAre(log, joinedAt, last);
    if InOrder(log, before, end, closeId) { OrderLeaves(log, before, joinedAt, end, closeId); }
    if NoMessage(log, Max(end, last), closeId) && NoMessage(log, closeId, Max(end, last)) {
      OrderHolds(log, before, joinedAt, end, closeId);
    }
  }

  lemma OrderLeaves(log: seq<Entry>, before: seq<N.Held>, joinedAt: nat, end: nat, closeId: nat)
    requires joinedAt <= end < closeId <= |log| && Complete(log, joinedAt, HeldSent(before))
      && InOrder(log, before, end, closeId)
    ensures var upto := Max(end, LastId(HeldSent(before), joinedAt));
      upto <= closeId && NoMessage(log, upto, closeId)
  {
    hide HeldSent, MessagesIn;
    var sent := HeldSent(before);
    var last := LastId(sent, joinedAt);
    MessagesAre(log, joinedAt, last);
    if sent != [] {
      var final := sent[|sent| - 1];
      HeldIn(before, final.0, final.1);
    }
    forall k | Max(end, last) <= k < closeId ensures !log[k].Message? {
      if log[k].Message? { HeldIn(before, k + 1, log[k].body); }
    }
  }

  lemma OrderHolds(log: seq<Entry>, before: seq<N.Held>, joinedAt: nat, end: nat, closeId: nat)
    requires joinedAt <= end < closeId <= |log| && Complete(log, joinedAt, HeldSent(before))
      && !log[closeId - 1].Message?
    requires var upto := Max(end, LastId(HeldSent(before), joinedAt));
      NoMessage(log, upto, closeId) && NoMessage(log, closeId, upto)
    ensures InOrder(log, before, end, closeId)
  {
    hide HeldSent, MessagesIn;
    var sent := HeldSent(before);
    var last := LastId(sent, joinedAt);
    MessagesAre(log, joinedAt, last);
    if sent != [] { assert log[sent[|sent| - 1].0 - 1].Message?; }
    forall i | 0 <= i < |before| && before[i].HeldMessage? && before[i].id.Some? ensures before[i].id.value < closeId {
      HeldIn(before, before[i].id.value, before[i].body);
      assert before[i] == N.HeldMessage(before[i].body, Some(before[i].id.value));
      var n :| 0 <= n < |sent| && sent[n] == (before[i].id.value, before[i].body);
      assert log[sent[n].0 - 1].Message?;
    }
    forall k | end <= k < closeId && log[k].Message? ensures N.HeldMessage(log[k].body, Some(k + 1)) in before {
      MessageIn(log, joinedAt, last, k + 1);
      HeldIn(before, k + 1, log[k].body);
    }
  }

  lemma {:induction false} HeldSentPrefix(log: seq<Entry>, joinedAt: nat, held: seq<N.Held>, n: nat)
    requires n <= |held| && joinedAt <= |log| && Complete(log, joinedAt, HeldSent(held)) && HeldOk(held)
    ensures Complete(log, joinedAt, HeldSent(held[..n])) && HeldOk(held[..n])
    decreases |held|
  {
    hide HeldSent, Complete;
    if n < |held| {
      HeldPrefix(log, joinedAt, held);
      HeldParts(held);
      HeldSentPrefix(log, joinedAt, held[..|held| - 1], n);
      assert held[..|held| - 1][..n] == held[..n];
    } else {
      assert held[..n] == held;
    }
  }

  /**
   * The queue when the flush has got to a held close, and after it: the log's messages up to the last held before it.
   */
  lemma FlushedUpto(log: seq<Entry>, connection: string, l: Link, j: nat)
    requires LinkOk(log, connection, l) && l.stage.Reading? && l.stage.next == l.stage.end && !l.conn.closing
    requires l.conn.held.Some? && j < |l.conn.held.value| && l.conn.held.value[j].HeldClose?
    requires !(l.conn.held.value[j].id.Some? && l.conn.held.value[j].id.value <= l.stage.end)
    requires !N.Flush(l.conn.(held := None), l.conn.held.value[..j], l.stage.end).closing
    ensures var before, r := l.conn.held.value[..j], N.EndReplay(l.conn, l.stage.end);
      var upto := Max(l.stage.end, LastId(HeldSent(before), l.joinedAt));
      && r.closing && l.joinedAt <= l.stage.end && upto <= |log| && Complete(log, l.joinedAt, HeldSent(before))
      && LoggedOut(r.out) == MessagesIn(log, l.init, upto)
  {
    hide N.Flush, N.CloseFor, HeldSent, LoggedOut, MessagesIn, N.Tidy, Shape, HeldOk, NoClose;
    var c, held, end := l.conn.(held := None), l.conn.held.value, l.stage.end;
    var before := held[..j];
    CompleteUpto(log, l.joinedAt, l.sendAt);
    HeldSentPrefix(log, l.joinedAt, held, j);
    FlushSends(log, c, before, l.init, end, l.joinedAt);
    var m := N.Flush(c, before, end);
    FlushNext(c, held, j, end);
    CloseAdds(m, held[j].code);
    FlushStops(c, held, j + 1, end);
    LoggedTail(m.out, N.CloseFor(m, held[j].code).out);
  }

  lemma FlushNext(c: N.Conn, held: seq<N.Held>, j: nat, end: nat)
    requires j < |held|
    ensures N.Flush(c, held[..j + 1], end) == N.Flushed(N.Flush(c, held[..j], end), held[j], end)
  {
    assert held[..j + 1][..j] == held[..j];
  }

  /** The first close held that the replay did not pass is the first in the log after what is resumed after. */
  lemma FirstClose(log: seq<Entry>, connection: string, l: Link, j: nat)
    requires LinkOk(log, connection, l) && ClosesOk(log, connection, l)
    requires l.stage.Reading? && l.stage.next == l.stage.end && !l.conn.closing
    requires l.conn.held.Some? && j < |l.conn.held.value| && l.conn.held.value[j].HeldClose?
    requires !(l.conn.held.value[j].id.Some? && l.conn.held.value[j].id.value <= l.stage.end)
    requires !N.Flush(l.conn.(held := None), l.conn.held.value[..j], l.stage.end).closing
    ensures var id := l.conn.held.value[j].id;
      && id.Some? && l.init <= l.stage.end < id.value <= |log| && AppliesTo(log[id.value - 1], connection)
      && NoClose(log, connection, l.init, id.value - 1)
  {
    hide N.Flush, HeldSent, LoggedOut, MessagesIn, N.Tidy, Shape, HeldOk, Complete;
    var held, end, id := l.conn.held.value, l.stage.end, l.conn.held.value[j].id.value;
    NoCloseFlushed(l.conn.(held := None), held[..j], end);
    forall k | l.init <= k < id - 1 ensures !AppliesTo(log[k], connection) {}
  }

  // ---- The game's close, and the edge's pings ----

  /** The last instruction to close among the frames received. */
  function CloseIn(out: seq<N.Outgoing>): Option<int> {
    if out == [] then None
    else
      var last := out[|out| - 1];
      if last.Data? && last.frame.Close? then Some(last.frame.code) else CloseIn(out[..|out| - 1])
  }

  /**
   * A link's close is the last one its frames asked for; a session is over only for a game that is closing, or has
   * ended; and the edge pings a game exactly while it has no node, once the game has its id frame.
   */
  ghost predicate EndsOk(w: World) {
    && (w.link.Some? ==> w.link.value.close == CloseIn(Taken(w.link.value)))
    && (w.over ==> w.edge.closing || w.ended)
    && (w.edge.detachedAt.Some? ==> w.link.None?)
    && (w.edge.pinging <==> w.edge.detachedAt.Some? && w.edge.handshaken)
  }

  lemma CloseTaken(l: Link, r: Link)
    requires l.taken < |l.conn.out| && l.conn.out[l.taken].Data? && l.close == CloseIn(Taken(l))
    requires var frame := l.conn.out[l.taken].frame;
      r == l.(taken := l.taken + 1, close := if frame.Close? then Some(frame.code) else l.close)
    ensures r.close == CloseIn(Taken(r))
  {
    assert Taken(r) == Taken(l) + [l.conn.out[l.taken]];
    assert (Taken(l) + [l.conn.out[l.taken]])[..|Taken(l)|] == Taken(l);
  }

  lemma EdgeFrame(e: E.Edge, frame: Frame)
    ensures var r := E.Receive(e, frame);
      && r.detachedAt == e.detachedAt && r.pinging == e.pinging && (e.closing ==> r.closing)
      && (e.handshaken ==> r.handshaken)
  {
  }

  lemma ReceiveEnds(w: World, connection: string)
    requires EndsOk(w) && Enabled(w, Receive, connection)
    ensures EndsOk(After(w, Receive, connection))
  {
    hide E.Receive, CloseIn, Taken, SentTo;
    var l := w.link.value;
    EdgeFrame(w.edge, l.conn.out[l.taken].frame);
    CloseTaken(l, After(w, Receive, connection).link.value);
  }

  lemma NodeEnds(w: World, ev: Event, connection: string)
    requires Inv(w, connection) && EndsOk(w) && Enabled(w, ev, connection)
    requires ev.Claim? || ev.Join? || ev.HandleSend? || ev.HandleClose? || ev.HandleUnlogged? || ev.ReadLog?
      || ev.ReplayNext? || ev.FinishReplay? || ev.NodeCloses? || ev.Write?
    ensures EndsOk(After(w, ev, connection))
  {
    hide Inv, LinkOk, CloseIn, Claiming, N.Deliver, N.Disconnected, N.EndReplay, N.CloseFor, N.Replay;
    LinkOf(w, connection);
    TakenInRange(w.log, connection, w.link.value);
    if ev.Claim? {
      ClaimedQueue(w.log, connection, w.link.value, |w.log|);
      ClaimAsksNothing(w.link.value, |w.log|);
    } else {
      QueueGrows(w, ev, connection);
    }
    assert Taken(After(w, ev, connection).link.value) == Taken(w.link.value);
  }

  lemma ClaimAsksNothing(l: Link, head: nat)
    ensures Claiming(l, head).close == l.close
  {
    hide N.Send, N.SendPosition;
  }

  lemma StepEnds(w: World, ev: Event, connection: string)
    requires Inv(w, connection) && EndsOk(w) && Enabled(w, ev, connection)
    ensures EndsOk(After(w, ev, connection))
  {
    hide Inv, CloseIn, Receiving, Claiming, Joining, Delivering, Closing, Replaying, N.Deliver, N.EndReplay, N.CloseFor,
      UnloggedOut;
    match ev {
      case Receive => ReceiveEnds(w, connection);
      case Attach(_, _) => AttachEnds(w, ev, connection);
      case LinkEnds(_) =>
      case GameEnds(_, _) =>
      case GiveUp(_) =>
      case PingGame =>
      case AttachFails(_) =>
      case Append(_) =>
      case _ => NodeEnds(w, ev, connection);
    }
  }

  lemma AttachEnds(w: World, ev: Event, connection: string)
    requires EndsOk(w) && Enabled(w, ev, connection) && ev.Attach?
    ensures EndsOk(After(w, ev, connection))
  {
  }

  lemma {:induction false} EndsAlways(w: World, evs: seq<Event>, connection: string)
    requires Inv(w, connection) && EndsOk(w) && Happens(w, evs, connection)
    ensures EndsOk(Later(w, evs, connection))
    decreases |evs|
  {
    hide Inv, EndsOk, Enabled, After;
    if evs != [] {
      StepKeeps(w, evs[0], connection);
      StepEnds(w, evs[0], connection);
      EndsAlways(After(w, evs[0], connection), evs[1..], connection);
    }
  }
}
