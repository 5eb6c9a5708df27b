/** `BgpConn` of `src/connection.rs`: a receive buffer over a socket, and the peer's OPEN. */
module Connection {
  import opened Basics
  import opened Message
  import opened OctetsCursor
  import opened Decoder
  import opened Stream

  class BgpConn {
    /** The pieces the socket has still to deliver. */
    var socket: seq<bytes>
    var buffer: bytes
    var peer: Option<OpenMsg>
    /** The messages returned so far, over every task that has held the connection. */
    ghost var received: seq<Message>

    /** The OPEN kept for decoding is the last one returned, and every UPDATE returned came after one. */
    ghost predicate Valid()
      reads this
    {
      peer == PeerAfter(None, received) && Orderly(received)
    }

    constructor (socket: seq<bytes>)
      ensures Valid()
      ensures this.socket == socket && buffer == [] && peer == None && received == []
    {
      this.socket := socket;
      buffer, peer, received := [], None, [];
    }

    /** One message, or the first error that is not "too short"; `TooShort` when the socket has
        nothing more to deliver, where the source waits. */
    method ReadMessage() returns (r: Result<Message>)
      requires Valid()
      modifies this
      ensures Valid()
      ensures match ReadOne(old(buffer), old(peer), old(socket))
        case Got(m, b, p, s) =>
          r == Value(m) && buffer == b && peer == p && socket == s && received == old(received) + [m]
        case Broke(e, b, s) =>
          r == Failed(e) && buffer == b && peer == old(peer) && socket == s && received == old(received)
        case Panicked =>
          r == Crashed && received == old(received)
        case Waiting(left) =>
          r == TooShort && buffer == left && peer == old(peer) && socket == [] && received == old(received)
      ensures r.Value? && r.value.Update? ==> AfterOpen(old(received))
    {
      while true
        invariant Valid() && peer == old(peer) && received == old(received)
        invariant ReadOne(buffer, peer, socket) == ReadOne(old(buffer), old(peer), old(socket))
        decreases |socket|
      {
        hide Decode;
        var frame, consumed := DecodeMessage(buffer, peer);
        match frame {
          case Value(m) =>
            UpdateNeedsPeer(buffer, peer);
            buffer := buffer[consumed..];
            if m.Open? {
              peer := Some(m.open);
            }
            received := received + [m];
            assert received[..|received| - 1] == old(received);
            if m.Update? {
              var j := LastOpen(old(received));
            }
            OrderlyOneMore(old(received), m);
            return frame;
          case TooShort =>
            if socket == [] {
              return TooShort;
            }
            buffer, socket := buffer + socket[0], socket[1..];
          case Failed(_) =>
            return frame;
          case Crashed =>
            return frame;
        }
      }
    }

    /** Reads until an error, as the receiving half of `process` does. */
    method ReadToEnd() returns (messages: seq<Message>, last: Result<Message>)
      requires Valid()
      modifies this
      ensures Valid()
      ensures received == old(received) + messages
      ensures var o := Reads(old(buffer), old(peer), old(socket));
        messages == o.messages
        && match o.end
           case Starved(left) => last == TooShort && buffer == left
           case Refused(e) => last == Failed(e)
           case Aborted => last == Crashed
    {
      hide Decode, ReadOne;
      ghost var o := Reads(buffer, peer, socket);
      messages := [];
      assert [] + o.messages == o.messages;
      while true
        invariant Valid() && received == old(received) + messages
        invariant var now := Reads(buffer, peer, socket); o == Outcome(messages + now.messages, now.end)
        decreases |buffer + Concat(socket)|
      {
        ghost var before := messages;
        last := ReadMessage();
        if !last.Value? {
          assert messages + [] == messages;
          return;
        }
        messages := messages + [last.value];
        assert forall later: seq<Message> :: before + ([last.value] + later) == messages + later;
      }
    }
  }

  /** There is an OPEN, and a last one. */
  ghost predicate AfterOpen(ms: seq<Message>) {
    exists j | 0 <= j < |ms| :: ms[j].Open? && forall k | j < k < |ms| :: !ms[k].Open?
  }

  /** No UPDATE precedes the first OPEN. */
  ghost predicate Orderly(ms: seq<Message>) {
    forall i | 0 <= i < |ms| :: ms[i].Update? ==> AfterOpen(ms[..i])
  }

  lemma OrderlyOneMore(ms: seq<Message>, m: Message)
    requires Orderly(ms) && (m.Update? ==> AfterOpen(ms))
    ensures Orderly(ms + [m])
  {
    var all := ms + [m];
    forall i | 0 <= i < |all| && all[i].Update? ensures AfterOpen(all[..i]) {
      assert all[..i] == ms[..i];
      if i == |ms| {
        assert ms[..i] == ms;
      }
    }
  }
}
