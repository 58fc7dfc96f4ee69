/**
 * A player's replay log, and the frames that carry it (GatewayEdge.cs, GatewayHosting.cs lines 345-363,
 * PlayerMessages.cs). An entry's stream id is its place in the log: the first entry's is 1, and 0 is before every
 * entry.
 */
module GatewayLog {
  import opened Options

  datatype Body = IdFrame | Ping | Text(message: int)

  datatype Entry =
    | Message(body: Body)
    | Disconnect(only: Option<string>, except: Option<string>, code: Option<int>)

  /** A close applies to a connection only if it is the one named, and not the one excepted. */
  predicate AppliesTo(entry: Entry, connection: string) {
    entry.Disconnect? && (entry.only == None || entry.only == Some(connection)) && entry.except != Some(connection)
  }

  /** What a node sends on a link; a game's own socket gets a message's bytes as they are. */
  datatype Frame =
    | Raw(body: Body)
    | Unlogged(body: Body)
    | Logged(id: nat, body: Body)
    | Position(id: nat)
    | Close(code: int)

  type Sent = (nat, Body)

  /** The messages of the log after one position and up to another, with their ids, in order. */
  function MessagesIn(log: seq<Entry>, after: nat, upto: nat): seq<Sent>
    requires upto <= |log|
  {
    if upto <= after then []
    else MessagesIn(log, after, upto - 1) + if log[upto - 1].Message? then [(upto, log[upto - 1].body)] else []
  }

  /** The last id sent, or where the sending began. */
  function LastId(sent: seq<Sent>, after: nat): nat {
    if sent == [] then after else sent[|sent| - 1].0
  }

  ghost predicate Rising(sent: seq<Sent>) {
    forall i, j | 0 <= i < j < |sent| :: sent[i].0 < sent[j].0
  }

  /** Exactly the log's messages after a position, up to the last one sent: in order, none missing, none twice. */
  ghost predicate Complete(log: seq<Entry>, after: nat, sent: seq<Sent>) {
    LastId(sent, after) <= |log| && sent == MessagesIn(log, after, LastId(sent, after))
  }

  lemma {:induction false} MessagesAre(log: seq<Entry>, after: nat, upto: nat)
    requires upto <= |log|
    ensures var sent := MessagesIn(log, after, upto);
      && Rising(sent)
      && forall i | 0 <= i < |sent| :: after < sent[i].0 <= upto && log[sent[i].0 - 1] == Message(sent[i].1)
    decreases upto
  {
    if after < upto {
      MessagesAre(log, after, upto - 1);
      var init, sent := MessagesIn(log, after, upto - 1), MessagesIn(log, after, upto);
      if log[upto - 1].Message? {
        assert sent == init + [(upto, log[upto - 1].body)];
        forall i | 0 <= i < |init| ensures sent[i] == init[i] {}
      } else {
        assert sent == init;
      }
    }
  }

  /** Every message after the one position and up to the other is among them. */
  lemma {:induction false} MessageIn(log: seq<Entry>, after: nat, upto: nat, id: nat)
    requires after < id <= upto <= |log| && log[id - 1].Message?
    ensures (id, log[id - 1].body) in MessagesIn(log, after, upto) && id <= LastId(MessagesIn(log, after, upto), after)
    decreases upto
  {
    MessagesAre(log, after, upto);
    if id < upto {
      MessageIn(log, after, upto - 1, id);
      MessagesAre(log, after, upto - 1);
    }
  }

  /** The messages up to a position, then those from it on. */
  lemma {:induction false} MessagesSplit(log: seq<Entry>, after: nat, mid: nat, upto: nat)
    requires after <= mid <= upto <= |log|
    ensures MessagesIn(log, after, upto) == MessagesIn(log, after, mid) + MessagesIn(log, mid, upto)
    decreases upto
  {
    if mid < upto {
      MessagesSplit(log, after, mid, upto - 1);
      assert upto - 1 < |log|;
    }
  }

  /** No entry appended later changes them. */
  lemma {:induction false} MessagesStay(log: seq<Entry>, more: seq<Entry>, after: nat, upto: nat)
    requires upto <= |log|
    ensures MessagesIn(log + more, after, upto) == MessagesIn(log, after, upto)
    decreases upto
  {
    if after < upto { MessagesStay(log, more, after, upto - 1); }
  }

  /** There is none between the last one sent and where the sending has got to. */
  lemma {:induction false} LastOfMessages(log: seq<Entry>, after: nat, upto: nat)
    requires after <= upto <= |log|
    ensures var last := LastId(MessagesIn(log, after, upto), after);
      after <= last <= upto && MessagesIn(log, last, upto) == []
        && MessagesIn(log, after, last) == MessagesIn(log, after, upto)
    decreases upto
  {
    MessagesAre(log, after, upto);
    if after < upto && !log[upto - 1].Message? {
      LastOfMessages(log, after, upto - 1);
    }
  }

  lemma CompleteUpto(log: seq<Entry>, after: nat, upto: nat)
    requires upto <= |log|
    requires after <= |log|
    ensures Complete(log, after, MessagesIn(log, after, upto))
  {
    if after <= upto { LastOfMessages(log, after, upto); }
  }

  /** Whatever part of them was received, it is complete up to its own last. */
  lemma {:induction false} CompletePrefix(log: seq<Entry>, after: nat, sent: seq<Sent>, n: nat)
    requires after <= |log| && Complete(log, after, sent) && n <= |sent|
    ensures Complete(log, after, sent[..n])
    decreases |sent|
  {
    if n < |sent| {
      var last := LastId(sent, after);
      MessagesAre(log, after, last);
      var init := sent[..|sent| - 1];
      assert MessagesIn(log, after, last) == MessagesIn(log, after, last - 1) + [(last, log[last - 1].body)];
      assert init == MessagesIn(log, after, last - 1);
      CompleteUpto(log, after, last - 1);
      CompletePrefix(log, after, init, n);
      assert init[..n] == sent[..n];
    } else {
      assert sent[..n] == sent;
    }
  }

  lemma CompleteStays(log: seq<Entry>, more: seq<Entry>, after: nat, sent: seq<Sent>)
    requires Complete(log, after, sent)
    ensures Complete(log + more, after, sent)
  {
    MessagesStay(log, more, after, LastId(sent, after));
  }

  /** The next message in the log continues them. */
  lemma NextMessage(log: seq<Entry>, after: nat, upto: nat, id: nat)
    requires after <= upto < id <= |log| && log[id - 1].Message? && MessagesIn(log, upto, id - 1) == []
    ensures MessagesIn(log, after, upto) + [(id, log[id - 1].body)] == MessagesIn(log, after, id)
  {
    MessagesSplit(log, after, upto, id - 1);
  }

  ghost predicate NoMessage(log: seq<Entry>, after: nat, upto: nat)
    requires upto <= |log|
  {
    forall i | after <= i < upto :: !log[i].Message?
  }

  lemma {:induction false} NoneBetween(log: seq<Entry>, after: nat, upto: nat)
    requires upto <= |log|
    ensures MessagesIn(log, after, upto) == [] <==> NoMessage(log, after, upto)
    decreases upto
  {
    if after < upto {
      NoneBetween(log, after, upto - 1);
      NoMessageStep(log, after, upto);
    }
  }

  lemma NoMessageStep(log: seq<Entry>, after: nat, upto: nat)
    requires after < upto <= |log|
    ensures NoMessage(log, after, upto) <==> NoMessage(log, after, upto - 1) && !log[upto - 1].Message?
  {
  }

  lemma SameMessages(log: seq<Entry>, after: nat, a: nat, b: nat)
    requires after <= a <= b <= |log|
    ensures MessagesIn(log, after, a) == MessagesIn(log, after, b) <==> NoMessage(log, a, b)
  {
    MessagesSplit(log, after, a, b);
    NoneBetween(log, a, b);
  }
}
