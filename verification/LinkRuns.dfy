/**
 * Sessions, event by event, that end where the exact conditions fail: each can happen, from a session's first moment.
 */
module LinkRuns {
  import opened Options
  import opened GatewayLog
  import opened LinkProtocol
  import opened LinkTheorems
  import N = GatewayConnections
  import E = EdgeSessions

  /** One event before the others. */
  lemma Then(w: World, ev: Event, m: World, rest: seq<Event>, connection: string)
    requires Enabled(w, ev, connection) && After(w, ev, connection) == m && Happens(m, rest, connection)
    ensures Happens(w, [ev] + rest, connection) && Later(w, [ev] + rest, connection) == Later(m, rest, connection)
  {
    hide Enabled, After;
    assert ([ev] + rest)[1..] == rest;
  }

  function Going(log: seq<Entry>, edge: E.Edge, link: Link, first: nat): World {
    World(log, edge, Some(link), 0, first, false, false, [])
  }

  const ONE := Message(Text(1))
  const TWO := Message(Text(2))
  const INTRODUCTION := [N.Data(Position(0)), N.Data(Unlogged(IdFrame)), N.Data(Unlogged(Ping))]

  /** A new game's link with its claim queued. */
  function Introduced0(sendAt: nat): Link {
    Link(N.NEW_LINK.(out := INTRODUCTION), None, sendAt, 0, 0, 0, Claimed, 0, 0, 0, None, [IdFrame, Ping])
  }

  // ---- A message handed out between a claim and the registration ----

  const MISSING :=
    [Attach(0, 0), Claim, Append(ONE), HandleSend, Join, Append(TWO), HandleSend, Write, Write, Write, Write,
    Receive, Receive, Receive, Receive]

  function MissingLink(written: nat, taken: nat): Link {
    var conn := N.NEW_LINK.(out := INTRODUCTION + [N.Data(Logged(2, Text(2)))], lastLogged := 2, written := written);
    Link(conn, None, 2, 0, 1, 0, Live(1), 0, 1, taken, None, [IdFrame, Ping])
  }

  const GREETED := E.NEW_EDGE.(cursor := Some(0), handshaken := true,
    toGame := [E.ForGame(None, IdFrame), E.ForGame(None, Ping)])

  const MISSED := E.NEW_EDGE.(cursor := Some(2), handshaken := true,
    toGame := [E.ForGame(None, IdFrame), E.ForGame(None, Ping), E.ForGame(Some(2), Text(2))])

  lemma SentSoFar()
    ensures SentTo([]) == [] && SentTo([E.ForGame(None, IdFrame)]) == []
    ensures SentTo(GREETED.toGame) == [] && SentTo(MISSED.toGame) == [(2, Text(2))]
  {
    var first, second, third := E.ForGame(None, IdFrame), E.ForGame(None, Ping), E.ForGame(Some(2), Text(2));
    SentAdd([], first);
    SentAdd([first], second);
    SentAdd([first, second], third);
    assert [] + [first] == [first] && [first] + [second] == [first, second];
    assert [first, second] + [third] == [first, second, third];
  }

  /** What the edge makes of the four frames, one by one. */
  lemma FramesReceived()
    ensures var e1 := E.Receive(E.NEW_EDGE, Position(0));
      var e2 := E.Receive(e1, Unlogged(IdFrame));
      && e1 == E.NEW_EDGE.(cursor := Some(0)) && e2 == GREETED.(toGame := [E.ForGame(None, IdFrame)])
      && E.Receive(e2, Unlogged(Ping)) == GREETED && E.Receive(GREETED, Logged(2, Text(2))) == MISSED
  {
  }

  lemma MissingReceived()
    ensures var w, evs := Going([ONE, TWO], E.NEW_EDGE, MissingLink(4, 0), 0), [Receive, Receive, Receive, Receive];
      Happens(w, evs, "game") && Later(w, evs, "game") == Going([ONE, TWO], MISSED, MissingLink(4, 4), 1)
  {
    hide SentTo, E.Receive;
    SentSoFar();
    FramesReceived();
    var log := [ONE, TWO];
    var w := Going(log, E.NEW_EDGE, MissingLink(4, 0), 0);
    var w1 := Going(log, E.NEW_EDGE.(cursor := Some(0)), MissingLink(4, 1), 0);
    var w2 := Going(log, GREETED.(toGame := [E.ForGame(None, IdFrame)]), MissingLink(4, 2), 0);
    var w3 := Going(log, GREETED, MissingLink(4, 3), 0);
    var w4 := Going(log, MISSED, MissingLink(4, 4), 1);
    Then(w3, Receive, w4, [], "game");
    Then(w2, Receive, w3, [Receive], "game");
    Then(w1, Receive, w2, [Receive, Receive], "game");
    Then(w, Receive, w1, [Receive, Receive, Receive], "game");
  }

  lemma MissingWritten(rest: seq<Event>, end: World)
    requires var w := Going([ONE, TWO], E.NEW_EDGE, MissingLink(4, 0), 0);
      Happens(w, rest, "game") && Later(w, rest, "game") == end
    ensures var w, evs := Going([ONE, TWO], E.NEW_EDGE, MissingLink(0, 0), 0), [Write, Write, Write, Write] + rest;
      Happens(w, evs, "game") && Later(w, evs, "game") == end
  {
    var w := (n: nat) => Going([ONE, TWO], E.NEW_EDGE, MissingLink(n, 0), 0);
    Then(w(3), Write, w(4), rest, "game");
    Then(w(2), Write, w(3), [Write] + rest, "game");
    Then(w(1), Write, w(2), [Write] + ([Write] + rest), "game");
    Then(w(0), Write, w(1), [Write] + ([Write] + ([Write] + rest)), "game");
    assert [Write] + ([Write] + ([Write] + ([Write] + rest))) == [Write, Write, Write, Write] + rest;
  }

  /** The link accepted and claimed, on an empty log; then whatever comes next. */
  lemma Claimed0(rest: seq<Event>, end: World)
    requires var w := Going([], E.NEW_EDGE, Introduced0(0), 0);
      Happens(w, rest, "game") && Later(w, rest, "game") == end
    ensures var evs := [Attach(0, 0), Claim] + rest; Happens(START, evs, "game") && Later(START, evs, "game") == end
  {
    hide N.SendPosition, N.Send;
    var l1 := Link(N.NEW_LINK, None, 0, 0, 0, 0, Opened, 0, 0, 0, None, []);
    var w1, w2 := Going([], E.NEW_EDGE, l1, 0), Going([], E.NEW_EDGE, Introduced0(0), 0);
    ClaimShape(l1, 0);
    assert [] + [IdFrame, Ping] == [IdFrame, Ping];
    Then(w1, Claim, w2, rest, "game");
    Then(START, Attach(0, 0), w1, [Claim] + rest, "game");
    assert [Attach(0, 0)] + ([Claim] + rest) == [Attach(0, 0), Claim] + rest;
  }

  lemma MissingSent(rest: seq<Event>, end: World)
    requires var w := Going([ONE, TWO], E.NEW_EDGE, MissingLink(0, 0), 0);
      Happens(w, rest, "game") && Later(w, rest, "game") == end
    ensures var w, evs := Going([], E.NEW_EDGE, Introduced0(0), 0),
      [Append(ONE), HandleSend, Join, Append(TWO), HandleSend] + rest;
      Happens(w, evs, "game") && Later(w, evs, "game") == end
  {
    var l5 := Introduced0(1).(stage := Live(1), from := 1, joinedAt := 1);
    var w2, w3 := Going([], E.NEW_EDGE, Introduced0(0), 0), Going([ONE], E.NEW_EDGE, Introduced0(0), 0);
    var w4, w5 := Going([ONE], E.NEW_EDGE, Introduced0(1), 0), Going([ONE], E.NEW_EDGE, l5, 0);
    var w6, w7 := Going([ONE, TWO], E.NEW_EDGE, l5, 0), Going([ONE, TWO], E.NEW_EDGE, MissingLink(0, 0), 0);
    Then(w6, HandleSend, w7, rest, "game");
    Then(w5, Append(TWO), w6, [HandleSend] + rest, "game");
    Then(w4, Join, w5, [Append(TWO)] + ([HandleSend] + rest), "game");
    Then(w3, HandleSend, w4, [Join] + ([Append(TWO)] + ([HandleSend] + rest)), "game");
    Then(w2, Append(ONE), w3, [HandleSend] + ([Join] + ([Append(TWO)] + ([HandleSend] + rest))), "game");
    assert [Append(ONE)] + ([HandleSend] + ([Join] + ([Append(TWO)] + ([HandleSend] + rest))))
      == [Append(ONE), HandleSend, Join, Append(TWO), HandleSend] + rest;
  }

  /**
   * A message handed out between the claim and the registration is missed: the game has its id frame, is open, and was
   * sent the second message of the two its cursor is past, with no loss of a link and no resume.
   */
  lemma ClaimCanMiss()
    ensures Session([], MISSING, "game")
    ensures var w := At([], MISSING, "game");
      && w.edge.handshaken && Intact(w.edge) && w.position == 0 && w.edge.cursor == Some(2) && w.log == [ONE, TWO]
      && SentTo(w.edge.toGame) == [(2, Text(2))] && MessagesIn(w.log, w.position, 2) == [(1, Text(1)), (2, Text(2))]
  {
    hide SentTo, Happens, Later;
    var end := Going([ONE, TWO], MISSED, MissingLink(4, 4), 1);
    var received := [Receive, Receive, Receive, Receive];
    MissingReceived();
    MissingWritten(received, end);
    var written := [Write, Write, Write, Write] + received;
    MissingSent(written, end);
    Claimed0([Append(ONE), HandleSend, Join, Append(TWO), HandleSend] + written, end);
    assert MISSING == [Attach(0, 0), Claim] + ([Append(ONE), HandleSend, Join, Append(TWO), HandleSend] + written);
    assert START.(log := []) == START;
    SentSoFar();
    TwoMessages();
  }

  lemma TwoMessages()
    ensures MessagesIn([ONE, TWO], 0, 2) == [(1, Text(1)), (2, Text(2))]
  {
    assert MessagesIn([ONE, TWO], 0, 1) == [(1, Text(1))];
  }

  // ---- A close that overtakes the message logged before it ----

  function CloseWith(code: int): Entry {
    Disconnect(None, None, Some(code))
  }

  function Overtaking(code: int): seq<Event> {
    [Attach(0, 0), Claim, Join, Append(ONE), Append(CloseWith(code)), HandleClose, HandleClose]
  }

  function LiveLink(closeAt: nat): Link {
    Introduced0(0).(stage := Live(0), closeAt := closeAt)
  }

  function OvertakenLink(code: int): Link {
    var conn := N.NEW_LINK.(closing := true, closedGame := true,
      out := INTRODUCTION + [N.Data(Close(code)), N.SocketClose(N.NORMAL_CLOSURE)]);
    LiveLink(2).(conn := conn)
  }

  /** A close is queued as its instruction, then the link's own. */
  lemma CloseQueued(c: N.Conn, code: int)
    requires c.edge && !c.closing && c.written <= |c.out| < N.QUEUE_LIMIT - 1
    ensures N.CloseFor(c, Some(code))
      == c.(closing := true, closedGame := true, out := c.out + [N.Data(Close(code)), N.SocketClose(N.NORMAL_CLOSURE)])
  {
    assert c.out + [N.Data(Close(code))] + [N.SocketClose(N.NORMAL_CLOSURE)]
      == c.out + [N.Data(Close(code)), N.SocketClose(N.NORMAL_CLOSURE)];
  }

  /** A new game's link, live; then whatever comes next. */
  lemma Live0(rest: seq<Event>, end: World)
    requires var w := Going([], E.NEW_EDGE, LiveLink(0), 0); Happens(w, rest, "game") && Later(w, rest, "game") == end
    ensures var evs := [Attach(0, 0), Claim, Join] + rest;
      Happens(START, evs, "game") && Later(START, evs, "game") == end
  {
    hide Happens, Later;
    Then(Going([], E.NEW_EDGE, Introduced0(0), 0), Join, Going([], E.NEW_EDGE, LiveLink(0), 0), rest, "game");
    Claimed0([Join] + rest, end);
    assert [Attach(0, 0), Claim] + ([Join] + rest) == [Attach(0, 0), Claim, Join] + rest;
  }

  lemma Overtaken(code: int)
    ensures var w, log := Going([], E.NEW_EDGE, LiveLink(0), 0), [ONE, CloseWith(code)];
      var evs := [Append(ONE), Append(CloseWith(code)), HandleClose, HandleClose];
      Happens(w, evs, "game") && Later(w, evs, "game") == Going(log, E.NEW_EDGE, OvertakenLink(code), 0)
  {
    var log := [ONE, CloseWith(code)];
    var w3, w4 := Going([], E.NEW_EDGE, LiveLink(0), 0), Going([ONE], E.NEW_EDGE, LiveLink(0), 0);
    var w5, w6 := Going(log, E.NEW_EDGE, LiveLink(0), 0), Going(log, E.NEW_EDGE, LiveLink(1), 0);
    CloseQueued(LiveLink(1).conn, code);
    Then(w6, HandleClose, Going(log, E.NEW_EDGE, OvertakenLink(code), 0), [], "game");
    Then(w5, HandleClose, w6, [HandleClose], "game");
    Then(w4, Append(CloseWith(code)), w5, [HandleClose, HandleClose], "game");
    Then(w3, Append(ONE), w4, [Append(CloseWith(code)), HandleClose, HandleClose], "game");
  }

  /** Two channels: a close overtakes the message logged before it, which this connection then never sends. */
  lemma CloseOvertakes(code: int)
    ensures Session([], Overtaking(code), "game")
    ensures var w := At([], Overtaking(code), "game");
      && w.log == [ONE, CloseWith(code)] && w.link.Some? && w.link.value.conn.closing && w.link.value.closeAt == 2
      && LoggedOut(w.link.value.conn.out) == [] && MessagesIn(w.log, w.link.value.from, 1) == [(1, Text(1))]
  {
    hide Happens, Later, LoggedOut;
    var end := Going([ONE, CloseWith(code)], E.NEW_EDGE, OvertakenLink(code), 0);
    var rest := [Append(ONE), Append(CloseWith(code)), HandleClose, HandleClose];
    Overtaken(code);
    Live0(rest, end);
    assert Overtaking(code) == [Attach(0, 0), Claim, Join] + rest;
    assert START.(log := []) == START;
    LoggedTail([], end.link.value.conn.out);
    NothingLogged();
  }

  // ---- A close held before the message logged before it ----

  /** The game is greeted, its link is lost, and the next one replays an empty log while a message and a close come. */
  function FlushedEarly(code: int): seq<Event> {
    [Attach(0, 0), Claim, Join, Write, Write, Receive, Receive, LinkEnds(0), Attach(0, 0), Join, ReadLog,
     Append(ONE), Append(CloseWith(code)), HandleClose, HandleClose, HandleSend, FinishReplay]
  }

  const NAMED := E.NEW_EDGE.(cursor := Some(0), handshaken := true, toGame := [E.ForGame(None, IdFrame)])

  function HoldingLink(held: seq<N.Held>, sendAt: nat, closeAt: nat, stage: Stage): Link {
    Link(N.NEW_LINK.(held := Some(held)), Some(0), sendAt, closeAt, 0, 0, stage, 0, 0, 0, None, [])
  }

  /** What the game's first link carried of what is in no log: its id frame, and not the ping after it. */
  const LOST := [Part([IdFrame, Ping], [IdFrame])]

  function Again(log: seq<Entry>, link: Link): World {
    World(log, NAMED, Some(link), 0, 0, false, false, LOST)
  }

  function FlushedLink(code: int): Link {
    var conn := N.NEW_LINK.(closing := true, closedGame := true, lastLogged := 1,
      out := [N.Data(Close(code)), N.SocketClose(N.NORMAL_CLOSURE)]);
    HoldingLink([], 1, 2, Live(0)).(conn := conn)
  }

  /** The position and the id frame received, the ping is lost with the link. */
  lemma TwoTaken(l: Link)
    requires l.conn.out == INTRODUCTION && l.taken == 2
    ensures UnloggedOut(Taken(l)) == [IdFrame]
  {
    assert Taken(l) == [N.Data(Position(0)), N.Data(Unlogged(IdFrame))];
    assert Taken(l)[..1] == [N.Data(Position(0))];
    assert UnloggedOut([N.Data(Position(0))]) == [];
  }

  lemma Greeted(rest: seq<Event>, end: World)
    requires var w := World([], NAMED.(detachedAt := Some(0), pinging := true), None, 0, 0, false, false, LOST);
      Happens(w, rest, "game") && Later(w, rest, "game") == end
    ensures var w, evs := Going([], E.NEW_EDGE, LiveLink(0), 0), [Write, Write, Receive, Receive, LinkEnds(0)] + rest;
      Happens(w, evs, "game") && Later(w, evs, "game") == end
  {
    hide SentTo, UnloggedOut;
    SentSoFar();
    var l := (written: nat, taken: nat) => LiveLink(0).(conn := LiveLink(0).conn.(written := written), taken := taken);
    var w3, w4, w5 := Going([], E.NEW_EDGE, l(0, 0), 0), Going([], E.NEW_EDGE, l(1, 0), 0),
      Going([], E.NEW_EDGE, l(2, 0), 0);
    var w6, w7 := Going([], E.NEW_EDGE.(cursor := Some(0)), l(2, 1), 0), Going([], NAMED, l(2, 2), 0);
    var w8 := World([], NAMED.(detachedAt := Some(0), pinging := true), None, 0, 0, false, false, LOST);
    assert w3 == Going([], E.NEW_EDGE, LiveLink(0), 0);
    TwoTaken(l(2, 2));
    Then(w7, LinkEnds(0), w8, rest, "game");
    Then(w6, Receive, w7, [LinkEnds(0)] + rest, "game");
    Then(w5, Receive, w6, [Receive] + ([LinkEnds(0)] + rest), "game");
    Then(w4, Write, w5, [Receive] + ([Receive] + ([LinkEnds(0)] + rest)), "game");
    Then(w3, Write, w4, [Write] + ([Receive] + ([Receive] + ([LinkEnds(0)] + rest))), "game");
    assert [Write] + ([Write] + ([Receive] + ([Receive] + ([LinkEnds(0)] + rest))))
      == [Write, Write, Receive, Receive, LinkEnds(0)] + rest;
  }

  lemma Resumed(rest: seq<Event>, end: World)
    requires var w := Again([], HoldingLink([], 0, 0, Reading(0, 0)));
      Happens(w, rest, "game") && Later(w, rest, "game") == end
    ensures var w := World([], NAMED.(detachedAt := Some(0), pinging := true), None, 0, 0, false, false, LOST);
      var evs := [Attach(0, 0), Join, ReadLog] + rest;
      Happens(w, evs, "game") && Later(w, evs, "game") == end
  {
    var w8 := World([], NAMED.(detachedAt := Some(0), pinging := true), None, 0, 0, false, false, LOST);
    var w9, w10 := Again([], HoldingLink([], 0, 0, Opened)),
      Again([], HoldingLink([], 0, 0, Joined));
    var w11 := Again([], HoldingLink([], 0, 0, Reading(0, 0)));
    Then(w10, ReadLog, w11, rest, "game");
    Then(w9, Join, w10, [ReadLog] + rest, "game");
    Then(w8, Attach(0, 0), w9, [Join] + ([ReadLog] + rest), "game");
    assert [Attach(0, 0)] + ([Join] + ([ReadLog] + rest)) == [Attach(0, 0), Join, ReadLog] + rest;
  }

  lemma FlushCloses(code: int)
    ensures var c := N.NEW_LINK.(held := Some([N.HeldClose(Some(code), Some(2)), N.HeldMessage(Text(1), Some(1))]));
      N.EndReplay(c, 0) == FlushedLink(code).conn
  {
    hide N.CloseFor, N.CloseGame;
    var first, second := N.HeldClose(Some(code), Some(2)), N.HeldMessage(Text(1), Some(1));
    CloseQueued(N.NEW_LINK, code);
    assert [] + [N.Data(Close(code)), N.SocketClose(N.NORMAL_CLOSURE)]
      == [N.Data(Close(code)), N.SocketClose(N.NORMAL_CLOSURE)];
    var m := N.CloseFor(N.NEW_LINK, Some(code));
    assert [first][..0] == [];
    assert N.Flush(N.NEW_LINK, [], 0) == N.NEW_LINK;
    assert N.Flush(N.NEW_LINK, [first], 0) == N.Flushed(N.NEW_LINK, first, 0) == m;
    assert [first, second][..1] == [first];
    assert N.Flush(N.NEW_LINK, [first, second], 0) == N.Flushed(m, second, 0);
  }

  lemma HeldEarly(code: int)
    ensures var w, log := Again([], HoldingLink([], 0, 0, Reading(0, 0))), [ONE, CloseWith(code)];
      var evs := [Append(ONE), Append(CloseWith(code)), HandleClose, HandleClose, HandleSend, FinishReplay];
      Happens(w, evs, "game") && Later(w, evs, "game") == Again(log, FlushedLink(code))
  {
    var log := [ONE, CloseWith(code)];
    var w11, w12 := Again([], HoldingLink([], 0, 0, Reading(0, 0))),
      Again([ONE], HoldingLink([], 0, 0, Reading(0, 0)));
    var w13 := Again(log, HoldingLink([], 0, 0, Reading(0, 0)));
    var rest := [HandleClose, HandleClose, HandleSend, FinishReplay];
    HeldThenFlushed(code);
    Then(w12, Append(CloseWith(code)), w13, rest, "game");
    Then(w11, Append(ONE), w12, [Append(CloseWith(code))] + rest, "game");
    assert [Append(ONE)] + ([Append(CloseWith(code))] + rest)
      == [Append(ONE), Append(CloseWith(code)), HandleClose, HandleClose, HandleSend, FinishReplay];
  }

  function Reading0(code: int, held: seq<N.Held>, sendAt: nat, closeAt: nat): World {
    Again([ONE, CloseWith(code)], HoldingLink(held, sendAt, closeAt, Reading(0, 0)))
  }

  lemma ItemsHeld(code: int)
    ensures var close, message := N.HeldClose(Some(code), Some(2)), N.HeldMessage(Text(1), Some(1));
      var w, m, r := Reading0(code, [], 0, 1), Reading0(code, [close], 0, 2), Reading0(code, [close, message], 1, 2);
      && Enabled(w, HandleClose, "game") && After(w, HandleClose, "game") == m
      && Enabled(m, HandleSend, "game") && After(m, HandleSend, "game") == r
  {
    var close, message := N.HeldClose(Some(code), Some(2)), N.HeldMessage(Text(1), Some(1));
    assert [] + [close] == [close] && [close] + [message] == [close, message];
  }

  lemma HeldThenFlushed(code: int)
    ensures var log := [ONE, CloseWith(code)];
      var w, evs := Reading0(code, [], 0, 0), [HandleClose, HandleClose, HandleSend, FinishReplay];
      Happens(w, evs, "game") && Later(w, evs, "game") == Again(log, FlushedLink(code))
  {
    hide N.EndReplay, N.CloseFor, N.Deliver, N.Disconnected;
    var close, message := N.HeldClose(Some(code), Some(2)), N.HeldMessage(Text(1), Some(1));
    var end := Again([ONE, CloseWith(code)], FlushedLink(code));
    FlushCloses(code);
    ItemsHeld(code);
    Then(Reading0(code, [close, message], 1, 2), FinishReplay, end, [], "game");
    Then(Reading0(code, [close], 0, 2), HandleSend, Reading0(code, [close, message], 1, 2), [FinishReplay], "game");
    Then(Reading0(code, [], 0, 1), HandleClose, Reading0(code, [close], 0, 2), [HandleSend, FinishReplay], "game");
    Then(Reading0(code, [], 0, 0), HandleClose, Reading0(code, [], 0, 1), [HandleClose, HandleSend, FinishReplay],
      "game");
  }

  /**
   * A close held before the message logged before it ends the flush, and the message is never sent by this connection.
   */
  lemma FlushOvertakes(code: int)
    ensures Session([], FlushedEarly(code), "game")
    ensures var w := At([], FlushedEarly(code), "game");
      && w.log == [ONE, CloseWith(code)] && w.link.Some? && w.link.value.resume == Some(0) && w.link.value.conn.closing
      && w.link.value.sendAt == 1 && w.link.value.closeAt == 2
      && LoggedOut(w.link.value.conn.out) == [] && MessagesIn(w.log, 0, 2) == [(1, Text(1))]
  {
    hide Happens, Later, LoggedOut;
    var end := Again([ONE, CloseWith(code)], FlushedLink(code));
    var early := [Append(ONE), Append(CloseWith(code)), HandleClose, HandleClose, HandleSend, FinishReplay];
    var resumed := [Attach(0, 0), Join, ReadLog] + early;
    var greeted := [Write, Write, Receive, Receive, LinkEnds(0)] + resumed;
    HeldEarly(code);
    Resumed(early, end);
    Greeted(resumed, end);
    Live0(greeted, end);
    assert FlushedEarly(code) == [Attach(0, 0), Claim, Join] + greeted;
    assert START.(log := []) == START;
    LoggedTail([], end.link.value.conn.out);
    NothingLogged();
    assert MessagesIn(end.log, 0, 1) == [(1, Text(1))];
  }
}
