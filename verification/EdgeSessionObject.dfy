/** The edge's end of a game as the program keeps it (EdgeSession.cs): its fields assigned in place as frames arrive. */
module EdgeSessionObject {
  import opened Options
  import opened GatewayLog
  import opened E = EdgeSessions

  class EdgeSession {
    var cursor: Option<nat>
    var handshaken: bool
    var toGame: seq<ToGame>
    var written: nat
    var closing: bool
    var aborted: bool
    var detachedAt: Option<int>
    var pinging: bool

    function Snapshot(): Edge
      reads this
    {
      Edge(cursor, handshaken, toGame, written, closing, aborted, detachedAt, pinging)
    }

    constructor ()
      ensures Snapshot() == NEW_EDGE
    {
      cursor, handshaken, toGame, written, closing, aborted, detachedAt, pinging := None, false, [], 0, false, false,
        None, false;
    }

    method TryWrite(item: ToGame) returns (queued: bool)
      modifies `toGame
      ensures queued == Room(old(Snapshot()))
      ensures Snapshot() == old(Snapshot()).(toGame := if queued then old(toGame) + [item] else old(toGame))
    {
      if aborted || |toGame| - written >= E.QUEUE_LIMIT { return false; }
      toGame := toGame + [item];
      queued := true;
    }

    method SendGame(id: Option<nat>, body: Body)
      modifies `toGame, `aborted
      ensures Snapshot() == E.SendGame(old(Snapshot()), id, body)
    {
      if closing { return; }
      var queued := TryWrite(ForGame(id, body));
      if !queued { aborted := true; }
    }

    method CloseGame(code: int)
      modifies `toGame, `aborted, `closing
      ensures Snapshot() == E.CloseGame(old(Snapshot()), code)
    {
      if closing { return; }
      closing := true;
      var queued := TryWrite(GameClose(code));
      if !queued { aborted := true; }
    }

    /** A link's frames, in order, until it ends; then the close it asked for, if any. */
    method ReadLink(frames: seq<Frame>) returns (close: Option<int>)
      modifies this
      ensures close == CloseAsked(frames)
      ensures Snapshot() == (if close.Some? then E.CloseGame(ReceiveAll(old(Snapshot()), frames), close.value)
        else ReceiveAll(old(Snapshot()), frames))
    {
      ghost var e := Snapshot();
      close := None;
      for i := 0 to |frames|
        invariant Snapshot() == ReceiveAll(e, frames[..i]) && close == CloseAsked(frames[..i])
      {
        assert frames[..i + 1][..i] == frames[..i];
        match frames[i] {
          case Unlogged(body) =>
            handshaken := handshaken || body == IdFrame;
            SendGame(None, body);
          case Logged(id, body) =>
            if cursor.None? || id > cursor.value {
              cursor := Some(id);
              SendGame(Some(id), body);
            }
          case Position(id) =>
            cursor := Some(id);
          case Close(code) =>
            close := Some(code);
          case Raw(_) =>
        }
      }
      assert frames[..|frames|] == frames;
      if close.Some? { CloseGame(close.value); }
    }

    /** The game has no node, from the first failure on: the edge pings it itself once it has its id frame. */
    method Detach(now: int)
      modifies `detachedAt, `pinging
      ensures Snapshot() == E.Detach(old(Snapshot()), now)
    {
      if detachedAt.Some? { return; }
      detachedAt := Some(now);
      pinging := handshaken;
    }

    method StopPinging()
      modifies `detachedAt, `pinging
      ensures Snapshot() == E.StopPinging(old(Snapshot()))
    {
      pinging := false;
      detachedAt := None;
    }

    /**
     * The writer sends what is queued until the first close, and stops there; what it sent is a first part of the
     * queue.
     */
    method WriteGame() returns (sent: seq<ToGame>)
      requires written <= |toGame|
      modifies `written
      ensures old(written) <= written <= |toGame|
      ensures sent == toGame[old(written)..written]
      ensures forall i | 0 <= i < |sent| && sent[i].GameClose? :: i == |sent| - 1
      ensures written == |toGame| || (sent != [] && sent[|sent| - 1].GameClose?)
    {
      sent := [];
      while written < |toGame|
        invariant old(written) <= written <= |toGame|
        invariant sent == toGame[old(written)..written]
        invariant forall i | 0 <= i < |sent| :: sent[i].ForGame?
        decreases |toGame| - written
      {
        var item := toGame[written];
        written := written + 1;
        sent := sent + [item];
        if item.GameClose? { return; }
      }
    }
  }
}
