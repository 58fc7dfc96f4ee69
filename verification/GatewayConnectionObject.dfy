/** A node's connection as the program keeps it (GatewayConnection.cs): its fields assigned in place, call by call. */
module GatewayConnectionObject {
  import opened Options
  import opened GatewayLog
  import opened K = GatewayConnections

  class GatewayConnection {
    const edge: bool
    var held: Option<seq<Held>>
    var lastLogged: nat
    var closing: bool
    var closedGame: bool
    var dropped: bool
    var out: seq<Outgoing>
    var written: nat

    function Snapshot(): Conn
      reads this
    {
      Conn(edge, held, lastLogged, closing, closedGame, dropped, out, written)
    }

    constructor (edge: bool)
      ensures Snapshot() == NEW_LINK.(edge := edge)
    {
      this.edge := edge;
      held, lastLogged, closing, closedGame, dropped, out, written := None, 0, false, false, false, [], 0;
    }

    method TryWrite(item: Outgoing) returns (queued: bool)
      modifies `out
      ensures queued == Room(old(Snapshot())) && Snapshot() == if queued then Put(old(Snapshot()), item)
        else old(Snapshot())
    {
      if |out| - written >= QUEUE_LIMIT { return false; }
      out := out + [item];
      queued := true;
    }

    method Queue(frame: Frame) returns (ok: bool)
      modifies this
      ensures Snapshot() == K.Queue(old(Snapshot()), frame)
      ensures ok == (old(closing) || Room(old(Snapshot())))
    {
      if closing { return true; }
      var queued := TryWrite(Data(frame));
      if queued { return true; }
      Drop();
      ok := false;
    }

    method Drop()
      modifies this
      ensures Snapshot() == K.Drop(old(Snapshot()))
    {
      closing := true;
      dropped := true;
    }

    method Send(body: Body) returns (ok: bool)
      modifies this
      ensures Snapshot() == K.Send(old(Snapshot()), body) && ok == (closing == old(closing))
    {
      ok := Queue(if edge then Unlogged(body) else Raw(body));
    }

    method DeliverNow(body: Body, id: Option<nat>) returns (ok: bool)
      modifies this
      ensures Snapshot() == K.DeliverNow(old(Snapshot()), body, id) && ok == (closing == old(closing))
    {
      if !edge || id.None? {
        ok := Send(body);
        return;
      }
      if id.value <= lastLogged { return true; }
      lastLogged := id.value;
      ok := Queue(Logged(id.value, body));
    }

    method Deliver(body: Body, id: Option<nat>) returns (ok: bool)
      modifies this
      ensures Snapshot() == K.Deliver(old(Snapshot()), body, id) && ok == (closing == old(closing))
    {
      if held.Some? {
        held := Some(held.value + [HeldMessage(body, id)]);
        return true;
      }
      ok := DeliverNow(body, id);
    }

    method Disconnect(code: Option<int>, id: Option<nat>)
      modifies this
      ensures Snapshot() == K.Disconnected(old(Snapshot()), code, id)
    {
      if held.Some? {
        held := Some(held.value + [HeldClose(code, id)]);
        return;
      }
      CloseFor(code);
    }

    method CloseFor(code: Option<int>)
      modifies this
      ensures Snapshot() == K.CloseFor(old(Snapshot()), code)
    {
      if code.Some? { CloseGame(code.value, code.value); } else { Abort(); }
    }

    method Abort()
      modifies this
      ensures Snapshot() == K.Abort(old(Snapshot()))
    {
      if edge && !closing {
        CloseGame(0, NORMAL_CLOSURE);
        return;
      }
      closedGame := true;
      Drop();
    }

    method CloseGame(code: int, status: int)
      modifies this
      ensures Snapshot() == K.CloseGame(old(Snapshot()), code, status)
    {
      if closing { return; }
      closing := true;
      closedGame := true;
      var queued;
      if edge {
        queued := TryWrite(Data(Close(code)));
        if queued { queued := TryWrite(SocketClose(NORMAL_CLOSURE)); }
      } else {
        queued := TryWrite(SocketClose(status));
      }
      if !queued { Drop(); }
    }

    method Answer(status: int)
      modifies this
      ensures Snapshot() == K.Answer(old(Snapshot()), status)
    {
      if closing { return; }
      closing := true;
      var queued := TryWrite(SocketClose(status));
      if !queued { Drop(); }
    }

    method BeginReplay(after: nat)
      modifies this
      ensures Snapshot() == K.BeginReplay(old(Snapshot()), after)
    {
      held := Some([]);
      lastLogged := after;
    }

    method Replay(body: Body, id: nat) returns (ok: bool)
      modifies this
      ensures Snapshot() == K.Replay(old(Snapshot()), body, id) && ok == (closing == old(closing))
    {
      lastLogged := id;
      ok := Queue(if edge then Logged(id, body) else Raw(body));
    }

    /** What was held goes out in order, but for what the replay sent; then delivery is live again. */
    method EndReplay(replayed: nat)
      modifies this
      ensures Snapshot() == K.EndReplay(old(Snapshot()), replayed)
    {
      var items := if held.Some? then held.value else [];
      held := None;
      ghost var c := Snapshot();
      for i := 0 to |items|
        invariant Snapshot() == K.Flush(c, items[..i], replayed)
      {
        var item := items[i];
        assert items[..i + 1][..i] == items[..i];
        if item.id.Some? && item.id.value <= replayed { continue; }
        if item.HeldClose? {
          CloseFor(item.code);
        } else {
          var ok := DeliverNow(item.body, item.id);
        }
      }
      assert items[..|items|] == items;
    }

    method SendPosition(head: nat) returns (ok: bool)
      modifies this
      ensures Snapshot() == K.SendPosition(old(Snapshot()), head) && ok == (closing == old(closing))
    {
      if !edge { return true; }
      lastLogged := head;
      ok := Queue(Position(head));
    }

    /** The writer takes what is queued, in order. */
    method TakeNext() returns (item: Option<Outgoing>)
      modifies `written
      ensures item == if old(written) < |out| then Some(out[old(written)]) else None
      ensures Snapshot() == old(Snapshot()).(written := old(written) + if item.Some? then 1 else 0)
    {
      if written >= |out| { return None; }
      item := Some(out[written]);
      written := written + 1;
    }
  }
}
