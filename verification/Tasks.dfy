/** The tasks that read a connection: `process_passive` of `src/main.rs`, `process_one` and the
    receiving half of `process` of `src/session.rs`. */
module Tasks {
  import opened Basics
  import opened Errors
  import opened Message
  import opened Stream
  import opened Connection
  import opened Fsm

  /** The event an error gives rise to. */
  function Complaint(e: Error): seq<Event> {
    if e.code.MessageHeaderError? then [BgpHeaderErr(e)]
    else if e.code.OpenMessageError? then [BgpOpenMsgErr(e)]
    else []
  }

  // ---------------------------------------------------------------- the first message

  /** Reads the first message of a connection that was accepted, and hands the connection on only when
      it is an OPEN, which later messages are then decoded against. */
  method ProcessPassive(conn: BgpConn) returns (open: Option<OpenMsg>)
    requires conn.Valid()
    modifies conn
    ensures conn.Valid()
    ensures var r := ReadOne(old(conn.buffer), old(conn.peer), old(conn.socket));
      open == if r.Got? && r.message.Open? then Some(r.message.open) else None
    ensures open.Some? ==> conn.peer == open && conn.received == old(conn.received) + [Open(open.value)]
  {
    hide ReadOne, Orderly;
    var r := conn.ReadMessage();
    open := if r.Value? && r.value.Open? then Some(r.value.open) else None;
  }

  /** Reads the first message of a second connection; the connection comes back only with an OPEN. */
  method ProcessOne(conn: BgpConn, id: ConnId, remoteSyn: bool) returns (events: seq<Event>)
    requires conn.Valid()
    modifies conn
    ensures conn.Valid()
    ensures match ReadOne(old(conn.buffer), old(conn.peer), old(conn.socket))
      case Got(m, _, _, _) =>
        events == (if m.Open? then [ProcessOneDone(id), BgpOpen(m.open, remoteSyn)] else [])
        && (m.Open? ==> conn.peer == Some(m.open) && conn.received == old(conn.received) + [m])
      case Broke(e, _, _) =>
        if e.code == MessageHeaderError then events == [BgpHeaderErr(e)]
        else if e.code == OpenMessageError then events == [BgpOpenMsgErr(e)]
        else events == []
      case Panicked => events == []
      case Waiting(_) => events == []
  {
    hide ReadOne, Orderly;
    events := [];
    var r := conn.ReadMessage();
    match r {
      case Value(m) =>
        if m.Open? {
          events := [ProcessOneDone(id)];
          events := events + [BgpOpen(m.open, remoteSyn)];
        }
      case Failed(e) => events := Complaint(e);
      case TooShort =>
      case Crashed =>
    }
  }

  // ---------------------------------------------------------------- every message

  /** The event a message gives rise to: none for KEEPALIVE and NOTIFICATION. */
  function Told(m: Message, remoteSyn: bool): seq<Event> {
    match m
    case Open(open) => [BgpOpen(open, remoteSyn)]
    case Update(_) => [UpdateReceived]
    case Notification(_) => []
    case Keepalive => []
  }

  /** The events of `turns` turns of the loop of `process`, from a buffer, a peer and what is still to
      arrive. A bad header or OPEN is reported and reading goes on; another error ends the loop. */
  function ToldAll(buffer: bytes, peer: Option<OpenMsg>, chunks: seq<bytes>, remoteSyn: bool, turns: nat): seq<Event>
    decreases turns
  {
    if turns == 0 then [] else
    match ReadOne(buffer, peer, chunks)
    case Got(m, buffer', peer', chunks') => Told(m, remoteSyn) + ToldAll(buffer', peer', chunks', remoteSyn, turns - 1)
    case Broke(e, buffer', chunks') =>
      if Complaint(e) == [] then [] else Complaint(e) + ToldAll(buffer', peer, chunks', remoteSyn, turns - 1)
    case Panicked => []
    case Waiting(_) => []
  }

  /** Up to `turns` turns of the loop, as far as reading goes. */
  method Process(conn: BgpConn, remoteSyn: bool, turns: nat) returns (events: seq<Event>)
    requires conn.Valid()
    modifies conn
    ensures conn.Valid()
    ensures events == ToldAll(old(conn.buffer), old(conn.peer), old(conn.socket), remoteSyn, turns)
    ensures old(conn.received) <= conn.received
  {
    hide ReadOne, Orderly, Told, Complaint;
    events := [];
    ghost var all := ToldAll(conn.buffer, conn.peer, conn.socket, remoteSyn, turns);
    assert [] + all == all;
    for i := 0 to turns
      invariant conn.Valid()
      invariant old(conn.received) <= conn.received
      invariant all == events + ToldAll(conn.buffer, conn.peer, conn.socket, remoteSyn, turns - i)
    {
      ghost var before := events;
      var r := conn.ReadMessage();
      match r {
        case Value(m) =>
          events := events + Told(m, remoteSyn);
          assert forall later: seq<Event> :: before + (Told(m, remoteSyn) + later) == events + later;
        case Failed(e) =>
          if Complaint(e) == [] {
            assert events + [] == events;
            return;
          }
          events := events + Complaint(e);
          assert forall later: seq<Event> :: before + (Complaint(e) + later) == events + later;
        case TooShort =>
          assert events + [] == events;
          return;
        case Crashed =>
          assert events + [] == events;
          return;
      }
    }
    assert events + [] == events;
  }

  /** The events of one turn, and then those of the rest: an OPEN and an UPDATE each give their one event,
      the OPEN's marked with the connection's own side; the other messages give none; a bad header or OPEN
      gives its own event and reading goes on; any other error, and a panic, end the loop. */
  lemma TurnLaw(buffer: bytes, peer: Option<OpenMsg>, chunks: seq<bytes>, remoteSyn: bool, turns: nat)
    ensures ToldAll(buffer, peer, chunks, remoteSyn, 0) == []
    ensures turns > 0 ==>
      var all := ToldAll(buffer, peer, chunks, remoteSyn, turns);
      match ReadOne(buffer, peer, chunks)
      case Got(m, buffer', peer', chunks') =>
        var later := ToldAll(buffer', peer', chunks', remoteSyn, turns - 1);
        if m.Open? then all == [BgpOpen(m.open, remoteSyn)] + later
        else if m.Update? then all == [UpdateReceived] + later
        else all == later
      case Broke(e, buffer', chunks') =>
        var later := ToldAll(buffer', peer, chunks', remoteSyn, turns - 1);
        if e.code == MessageHeaderError then all == [BgpHeaderErr(e)] + later
        else if e.code == OpenMessageError then all == [BgpOpenMsgErr(e)] + later
        else all == []
      case Panicked => all == []
      case Waiting(_) => all == []
  {
    hide ReadOne;
    if turns > 0 && ReadOne(buffer, peer, chunks).Got? {
      var r := ReadOne(buffer, peer, chunks);
      var later := ToldAll(r.buffer, r.peer, r.chunks, remoteSyn, turns - 1);
      assert [] + later == later;
    }
  }

  /** The events that a sequence of messages gives, and then those of refusing `n` times. */
  function Report(ms: seq<Message>, remoteSyn: bool): seq<Event> {
    if ms == [] then []
    else if ms[0].Open? then [BgpOpen(ms[0].open, remoteSyn)] + Report(ms[1..], remoteSyn)
    else if ms[0].Update? then [UpdateReceived] + Report(ms[1..], remoteSyn)
    else Report(ms[1..], remoteSyn)
  }

  function Refusing(e: Error, n: nat): seq<Event> {
    if e.code == MessageHeaderError then seq(n, _ => BgpHeaderErr(e))
    else if e.code == OpenMessageError then seq(n, _ => BgpOpenMsgErr(e))
    else []
  }

  /** All the events of enough turns: those of the messages that can be read, in order, and then, where a
      bad header or OPEN stands in the way, that one's on every turn that is left. */
  lemma {:induction false} ToldInFull(
    buffer: bytes, peer: Option<OpenMsg>, chunks: seq<bytes>, remoteSyn: bool, turns: nat)
    requires |Reads(buffer, peer, chunks).messages| <= turns
    ensures var o := Reads(buffer, peer, chunks);
      ToldAll(buffer, peer, chunks, remoteSyn, turns) ==
        Report(o.messages, remoteSyn)
        + (if o.end.Refused? then Refusing(o.end.error, turns - |o.messages|) else [])
    decreases turns
  {
    hide ReadOne, Complaint, Told, ToldAll;
    TurnLaw(buffer, peer, chunks, remoteSyn, turns);
    var o := Reads(buffer, peer, chunks);
    var r := ReadOne(buffer, peer, chunks);
    if turns == 0 {
      assert Report([], remoteSyn) + [] == [];
    } else if r.Got? {
      ToldInFull(r.buffer, r.peer, r.chunks, remoteSyn, turns - 1);
      assert o.messages[1..] == Reads(r.buffer, r.peer, r.chunks).messages;
    } else if r.Broke? {
      RefusalRepeats(buffer, peer, chunks);
      ToldInFull(r.buffer, peer, r.chunks, remoteSyn, turns - 1);
      if r.error.code == MessageHeaderError {
        assert [BgpHeaderErr(r.error)] + Refusing(r.error, turns - 1) == Refusing(r.error, turns);
      } else if r.error.code == OpenMessageError {
        assert [BgpOpenMsgErr(r.error)] + Refusing(r.error, turns - 1) == Refusing(r.error, turns);
      }
    }
  }

  /** A connection that was handed over with an OPEN, or whose own OPEN came first: no UPDATE event
      without one. */
  lemma {:induction false} UpdateToldAfterOpen(
    buffer: bytes, peer: Option<OpenMsg>, chunks: seq<bytes>, remoteSyn: bool, turns: nat, i: nat)
    requires i < |ToldAll(buffer, peer, chunks, remoteSyn, turns)|
    requires ToldAll(buffer, peer, chunks, remoteSyn, turns)[i].UpdateReceived?
    ensures peer.Some? || exists j | 0 <= j < i :: ToldAll(buffer, peer, chunks, remoteSyn, turns)[j].BgpOpen?
    decreases turns
  {
    hide ReadOne, Decode, Concat;
    if peer.None? {
      ReadOneSplit(buffer, peer, chunks);
      UpdateNeedsPeer(buffer + Concat(chunks), peer);
      var r := ReadOne(buffer, peer, chunks);
      var all := ToldAll(buffer, peer, chunks, remoteSyn, turns);
      if r.Got? {
        if r.message.Open? {
          assert all[0] == BgpOpen(r.message.open, remoteSyn);
        } else {
          var later := ToldAll(r.buffer, r.peer, r.chunks, remoteSyn, turns - 1);
          assert all == [] + later == later;
          UpdateToldAfterOpen(r.buffer, r.peer, r.chunks, remoteSyn, turns - 1, i);
          var j :| 0 <= j < i && later[j].BgpOpen?;
          assert all[j].BgpOpen?;
        }
      } else {
        UpdateToldAfterOpen(r.buffer, peer, r.chunks, remoteSyn, turns - 1, i - 1);
        var j :| 0 <= j < i - 1 && ToldAll(r.buffer, peer, r.chunks, remoteSyn, turns - 1)[j].BgpOpen?;
        assert all[j + 1].BgpOpen?;
      }
    }
  }

  /** A refusal is final: the octets stay in the buffer, and reading again refuses them again. */
  lemma {:induction false} RefusalRepeats(buffer: bytes, peer: Option<OpenMsg>, chunks: seq<bytes>)
    requires ReadOne(buffer, peer, chunks).Broke?
    ensures var r := ReadOne(buffer, peer, chunks); ReadOne(r.buffer, peer, r.chunks) == r
    decreases |chunks|
  {
    hide Decode;
    if Decode(buffer, peer).Short? {
      RefusalRepeats(buffer + chunks[0], peer, chunks[1..]);
    }
  }

  lemma {:induction false} RefusalKeepsOctets(buffer: bytes, peer: Option<OpenMsg>, chunks: seq<bytes>)
    requires ReadOne(buffer, peer, chunks).Broke?
    ensures var r := ReadOne(buffer, peer, chunks); r.buffer + Concat(r.chunks) == buffer + Concat(chunks)
    decreases |chunks|
  {
    hide Decode;
    if Decode(buffer, peer).Short? {
      RefusalKeepsOctets(buffer + chunks[0], peer, chunks[1..]);
      assert buffer + chunks[0] + Concat(chunks[1..]) == buffer + Concat(chunks);
    }
  }

  /** The events of any number of turns depend on the octets and not on how they were cut, refusals and
      what follows them included. */
  lemma {:induction false} ToldAllSplitIndependent(
    b1: bytes, c1: seq<bytes>, b2: bytes, c2: seq<bytes>, peer: Option<OpenMsg>, remoteSyn: bool, turns: nat)
    requires b1 + Concat(c1) == b2 + Concat(c2)
    ensures ToldAll(b1, peer, c1, remoteSyn, turns) == ToldAll(b2, peer, c2, remoteSyn, turns)
    decreases turns
  {
    hide ReadOne, Decode, Concat;
    if turns > 0 {
      ReadOneSplit(b1, peer, c1);
      ReadOneSplit(b2, peer, c2);
      var r1, r2 := ReadOne(b1, peer, c1), ReadOne(b2, peer, c2);
      if r1.Got? {
        ToldAllSplitIndependent(r1.buffer, r1.chunks, r2.buffer, r2.chunks, r1.peer, remoteSyn, turns - 1);
      } else if r1.Broke? {
        RefusalKeepsOctets(b1, peer, c1);
        RefusalKeepsOctets(b2, peer, c2);
        ToldAllSplitIndependent(r1.buffer, r1.chunks, r2.buffer, r2.chunks, peer, remoteSyn, turns - 1);
      }
    }
  }

  /** `process` reports a bad header or a bad OPEN once on every turn, always the same and always as what
      it is; any other error it does not report at all. */
  lemma {:induction false} ComplaintRepeats(
    buffer: bytes, peer: Option<OpenMsg>, chunks: seq<bytes>, remoteSyn: bool, turns: nat)
    requires ReadOne(buffer, peer, chunks).Broke?
    ensures var e := ReadOne(buffer, peer, chunks).error;
      var all := ToldAll(buffer, peer, chunks, remoteSyn, turns);
      if e.code == MessageHeaderError then |all| == turns && forall i | 0 <= i < turns :: all[i] == BgpHeaderErr(e)
      else if e.code == OpenMessageError then |all| == turns && forall i | 0 <= i < turns :: all[i] == BgpOpenMsgErr(e)
      else all == []
    decreases turns
  {
    hide ReadOne, ToldAll, Complaint, Told;
    RefusalRepeats(buffer, peer, chunks);
    TurnLaw(buffer, peer, chunks, remoteSyn, turns);
    if turns > 0 {
      var r := ReadOne(buffer, peer, chunks);
      ComplaintRepeats(r.buffer, peer, r.chunks, remoteSyn, turns - 1);
    }
  }
}
