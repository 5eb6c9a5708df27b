/** Reading messages off a byte stream that arrives in pieces. */
module Stream {
  import opened Basics
  import opened Errors
  import opened Wire
  import opened Message
  import opened Printer
  import opened RoundTrip

  function Concat(chunks: seq<bytes>): bytes {
    if chunks == [] then [] else chunks[0] + Concat(chunks[1..])
  }

  /** The OPEN that a connection's later UPDATEs are decoded against. */
  function NextPeer(peer: Option<OpenMsg>, m: Message): Option<OpenMsg> {
    if m.Open? then Some(m.open) else peer
  }

  /** What one `read_message` comes to: the message, or an error that is not "too short", or a
      panic, or waiting for octets that never come; with what is then buffered and unread. */
  datatype Reading =
    | Got(message: Message, buffer: bytes, peer: Option<OpenMsg>, chunks: seq<bytes>)
    | Broke(error: Error, buffer: bytes, chunks: seq<bytes>)
    | Panicked
    | Waiting(buffer: bytes)

  function ReadOne(buffer: bytes, peer: Option<OpenMsg>, chunks: seq<bytes>): (r: Reading)
    ensures r.Got? ==> |r.buffer + Concat(r.chunks)| + MIN_MSG_LEN <= |buffer + Concat(chunks)|
    decreases |chunks|
  {
    match Decode(buffer, peer)
    case Ok(m, rest) => Got(m, rest, NextPeer(peer, m), chunks)
    case Fail(e) => Broke(e, buffer, chunks)
    case Crash => Panicked
    case Short => if chunks == [] then Waiting(buffer) else ReadOne(buffer + chunks[0], peer, chunks[1..])
  }

  datatype End = Starved(left: bytes) | Refused(error: Error) | Aborted

  /** Everything repeated `read_message` calls return, and how they end. */
  datatype Outcome = Outcome(messages: seq<Message>, end: End)

  function Reads(buffer: bytes, peer: Option<OpenMsg>, chunks: seq<bytes>): Outcome
    decreases |buffer + Concat(chunks)|
  {
    match ReadOne(buffer, peer, chunks)
    case Got(m, buffer', peer', chunks') =>
      var later := Reads(buffer', peer', chunks');
      Outcome([m] + later.messages, later.end)
    case Broke(e, _, _) => Outcome([], Refused(e))
    case Panicked => Outcome([], Aborted)
    case Waiting(left) => Outcome([], Starved(left))
  }

  // ---------------------------------------------------------------- independence of the split

  /** Octets after those a decision was made on do not change it. */
  lemma DecodeMonotone(b: bytes, x: bytes, peer: Option<OpenMsg>)
    ensures match Decode(b, peer)
      case Ok(m, rest) => Decode(b + x, peer) == Ok(m, rest + x)
      case Fail(e) => Decode(b + x, peer) == Fail(e)
      case Crash => Decode(b + x, peer) == Crash
      case Short => true
  {
    hide ParseBody;
    if |b| >= MIN_MSG_LEN {
      HeaderMonotone(b, x);
      var h := ParseHeader(b);
      if h.Ok? && |b| >= h.value.length {
        var body := TakeBytes(h.rest, h.value.length);
        if body.Ok? {
          assert (h.rest + x)[..h.value.length] == h.rest[..h.value.length];
          var m := ParseBody(h.value.msgType, body.value, peer);
          if m.Ok? {
            var k := MIN_MSG_LEN + (|body.value| - |m.rest|);
            assert (b + x)[k..] == b[k..] + x;
          }
        }
      }
    }
  }

  lemma HeaderMonotone(b: bytes, x: bytes)
    requires |b| >= MIN_MSG_LEN
    ensures match ParseHeader(b)
      case Ok(h, rest) => ParseHeader(b + x) == Ok(h, rest + x)
      case p => ParseHeader(b + x) == p
  {
    assert (b + x)[..16] == b[..16];
    assert (b + x)[16..] == b[16..] + x;
    assert (b + x)[16..][2..] == b[16..][2..] + x;
    assert (b + x)[16..][2..][1..] == b[16..][2..][1..] + x;
  }

  /** One read decides as one decode of all the octets that are still to come would. */
  lemma {:induction false} ReadOneSplit(b: bytes, peer: Option<OpenMsg>, chunks: seq<bytes>)
    ensures match ReadOne(b, peer, chunks)
      case Got(m, b', peer', chunks') =>
        Decode(b + Concat(chunks), peer) == Ok(m, b' + Concat(chunks')) && peer' == NextPeer(peer, m)
      case Broke(e, _, _) => Decode(b + Concat(chunks), peer) == Fail(e)
      case Panicked => Decode(b + Concat(chunks), peer) == Crash
      case Waiting(left) => Decode(b + Concat(chunks), peer) == Short && left == b + Concat(chunks)
    decreases |chunks|
  {
    hide Decode;
    DecodeMonotone(b, Concat(chunks), peer);
    if Decode(b, peer).Short? {
      if chunks == [] {
        assert b + Concat(chunks) == b;
      } else {
        ReadOneSplit(b + chunks[0], peer, chunks[1..]);
        assert b + chunks[0] + Concat(chunks[1..]) == b + Concat(chunks);
      }
    }
  }

  /** The outcome of reading depends on the octets and not on how they were split. */
  lemma {:induction false} SplitIndependent(b1: bytes, c1: seq<bytes>, b2: bytes, c2: seq<bytes>, peer: Option<OpenMsg>)
    requires b1 + Concat(c1) == b2 + Concat(c2)
    ensures Reads(b1, peer, c1) == Reads(b2, peer, c2)
    decreases |b1 + Concat(c1)|
  {
    ReadOneSplit(b1, peer, c1);
    ReadOneSplit(b2, peer, c2);
    var r1, r2 := ReadOne(b1, peer, c1), ReadOne(b2, peer, c2);
    if r1.Got? {
      SplitIndependent(r1.buffer, r1.chunks, r2.buffer, r2.chunks, r1.peer);
    }
  }

  /** Cutting a stream into pieces gives what the uncut stream gives. */
  lemma ChunkingIndependent(chunks: seq<bytes>, peer: Option<OpenMsg>)
    ensures Reads([], peer, chunks) == Reads([], peer, [Concat(chunks)])
  {
    assert Concat([Concat(chunks)]) == Concat(chunks) + Concat([]);
    SplitIndependent([], chunks, [], [Concat(chunks)], peer);
  }

  /** Reading on is decoding on: the messages are those at the front of the octets, one after the other,
      up to the first that is refused, panics, or is not there in full. */
  lemma ReadsByDecoding(b: bytes, peer: Option<OpenMsg>, chunks: seq<bytes>)
    ensures var all := b + Concat(chunks);
      var o := Reads(b, peer, chunks);
      match Decode(all, peer)
      case Ok(m, rest) =>
        var later := Reads(rest, if m.Open? then Some(m.open) else peer, []);
        o.messages == [m] + later.messages && o.end == later.end
      case Fail(e) => o == Outcome([], Refused(e))
      case Crash => o == Outcome([], Aborted)
      case Short => o == Outcome([], Starved(all))
  {
    hide Decode, ReadOne;
    ReadOneSplit(b, peer, chunks);
    var r := ReadOne(b, peer, chunks);
    if r.Got? {
      var rest := r.buffer + Concat(r.chunks);
      assert rest + Concat([]) == rest;
      SplitIndependent(r.buffer, r.chunks, rest, [], r.peer);
    }
  }

  // ---------------------------------------------------------------- UPDATE after OPEN

  function PeerAfter(peer: Option<OpenMsg>, ms: seq<Message>): Option<OpenMsg>
    decreases |ms|
  {
    if ms == [] then peer else NextPeer(PeerAfter(peer, ms[..|ms| - 1]), ms[|ms| - 1])
  }

  lemma {:induction false} PeerAfterFirst(peer: Option<OpenMsg>, m: Message, ms: seq<Message>)
    ensures PeerAfter(peer, [m] + ms) == PeerAfter(NextPeer(peer, m), ms)
    decreases |ms|
  {
    if ms != [] {
      assert ([m] + ms)[..|ms|] == [m] + ms[..|ms| - 1];
      PeerAfterFirst(peer, m, ms[..|ms| - 1]);
    }
  }

  /** The position of the OPEN that `PeerAfter` found. */
  lemma {:induction false} LastOpen(ms: seq<Message>) returns (j: nat)
    requires PeerAfter(None, ms).Some?
    ensures j < |ms| && ms[j] == Open(PeerAfter(None, ms).value)
    ensures forall k | j < k < |ms| :: !ms[k].Open?
    decreases |ms|
  {
    j := |ms| - 1;
    if !ms[j].Open? {
      j := LastOpen(ms[..j]);
    }
  }

  lemma {:induction false} ReadAgainstPeerAfter(b: bytes, peer: Option<OpenMsg>, chunks: seq<bytes>, i: nat)
    returns (d: bytes, t: bytes)
    requires i < |Reads(b, peer, chunks).messages|
    ensures var ms := Reads(b, peer, chunks).messages; Decode(d, PeerAfter(peer, ms[..i])) == Ok(ms[i], t)
    decreases i
  {
    hide Decode;
    var ms := Reads(b, peer, chunks).messages;
    var r := ReadOne(b, peer, chunks);
    ReadOneSplit(b, peer, chunks);
    if i == 0 {
      d, t := b + Concat(chunks), r.buffer + Concat(r.chunks);
    } else {
      d, t := ReadAgainstPeerAfter(r.buffer, r.peer, r.chunks, i - 1);
      assert ms[..i] == [ms[0]] + ms[1..][..i - 1];
      PeerAfterFirst(peer, ms[0], ms[1..][..i - 1]);
    }
  }

  /** On a new connection every UPDATE comes after an OPEN, and was decoded against the last one. */
  lemma UpdateFollowsOpen(chunks: seq<bytes>, i: nat) returns (j: nat, d: bytes, t: bytes)
    requires i < |Reads([], None, chunks).messages| && Reads([], None, chunks).messages[i].Update?
    ensures var ms := Reads([], None, chunks).messages;
      && j < i && ms[j].Open?
      && (forall k | j < k < i :: !ms[k].Open?)
      && Decode(d, Some(ms[j].open)) == Ok(ms[i], t)
  {
    hide Decode, Reads;
    var ms := Reads([], None, chunks).messages;
    d, t := ReadAgainstPeerAfter([], None, chunks, i);
    UpdateNeedsPeer(d, PeerAfter(None, ms[..i]));
    j := LastOpen(ms[..i]);
  }

  lemma UpdateNeedsPeer(b: bytes, peer: Option<OpenMsg>)
    ensures var p := Decode(b, peer); p.Ok? && p.value.Update? ==> peer.Some?
  {
    hide ParseOpen, ParseUpdate, ParseNotification, ParseHeader;
  }

  // ---------------------------------------------------------------- framing

  function TypeCode(m: Message): byte {
    match m
    case Open(_) => 1
    case Update(_) => 2
    case Notification(_) => 3
    case Keepalive => 4
  }

  function PutHeader(length: uint16, code: byte): (b: bytes)
    ensures |b| == MIN_MSG_LEN
  {
    Marker() + (PutU16(length) + [code])
  }

  predicate WellFormedNotification(n: NotificationMsg) {
    0 <= n.errorCode < 0x100 && 0 <= n.errorSubcode < 0x100 && n.data.Some?
  }

  predicate WellFormed(m: Message, peer: Option<OpenMsg>) {
    match m
    case Open(open) => WellFormedOpen(open)
    case Update(update) => peer.Some? && WellFormedUpdate(update, peer.value.optParams.fourOctetAs.Some?)
    case Notification(n) => WellFormedNotification(n)
    case Keepalive => true
  }

  function PutBody(m: Message, peer: Option<OpenMsg>): bytes
    requires WellFormed(m, peer)
  {
    match m
    case Open(open) => PutOpen(open)
    case Update(update) => PutUpdate(update, peer.value.optParams.fourOctetAs.Some?)
    case Notification(n) => [n.errorCode, n.errorSubcode] + n.data.value
    case Keepalive => []
  }

  /** The length fields under which the decoder reads a body of `size` octets as `m`: it takes
      `length` octets after the header, has a minimum per type, and reads UPDATE and NOTIFICATION
      to the end of what it took. */
  predicate LengthFits(m: Message, size: nat, length: uint16) {
    match m
    case Open(_) => length >= MIN_OPEN_LEN && length >= size
    case Update(_) => length >= MIN_UPDATE_LEN && length == size
    case Notification(_) => length >= MIN_NOTIFICATION_LEN && length == size
    case Keepalive => length == KEEPALIVE_LEN
  }

  function MsgTypeOf(m: Message): MsgType {
    match m
    case Open(_) => TOpen
    case Update(_) => TUpdate
    case Notification(_) => TNotification
    case Keepalive => TKeepalive
  }

  lemma HeaderBack(length: uint16, m: Message, size: nat, t: bytes)
    requires LengthFits(m, size, length)
    ensures ParseHeader(PutHeader(length, TypeCode(m)) + t) == Ok(MessageHeader(length, MsgTypeOf(m)), t)
  {
    var r := PutU16(length) + ([TypeCode(m)] + t);
    assert PutHeader(length, TypeCode(m)) + t == Marker() + r;
    TakeBytesFront(Marker(), r);
    U16Front(length, [TypeCode(m)] + t);
    U8Front(TypeCode(m), t);
  }

  lemma BodyBack(m: Message, peer: Option<OpenMsg>, t: bytes)
    requires WellFormed(m, peer)
    requires m.Update? || m.Notification? ==> t == []
    ensures ParseBody(MsgTypeOf(m), PutBody(m, peer) + t, peer) == Ok(m, t)
  {
    hide ParseOpen, ParseUpdate, PutOpen, WellFormedOpen, WellFormedUpdate;
    match m
    case Open(open) => OpenBack(open, t);
    case Update(update) =>
      UpdateBack(update, WidestAll(update.nlri), peer.value.optParams.fourOctetAs.Some?);
      assert PutBody(m, peer) + t == PutBody(m, peer);
    case Notification(n) =>
      assert PutBody(m, peer) + t == [n.errorCode] + ([n.errorSubcode] + n.data.value);
      U8Front(n.errorCode, [n.errorSubcode] + n.data.value);
      U8Front(n.errorSubcode, n.data.value);
    case Keepalive =>
      assert PutBody(m, peer) + t == t;
  }

  lemma PutBodySize(m: Message, peer: Option<OpenMsg>)
    requires WellFormed(m, peer)
    ensures m.Keepalive? ==> PutBody(m, peer) == []
  {
  }

  lemma FrameRefused(m: Message, peer: Option<OpenMsg>, length: uint16, t: bytes)
    requires WellFormed(m, peer)
    requires !LengthFits(m, |PutBody(m, peer)|, length)
    ensures Decode(PutHeader(length, TypeCode(m)) + (PutBody(m, peer) + t), peer) != Ok(m, t)
  {
    hide ParseOpen, ParseUpdate, PutOpen, PutUpdate;
  }

  /** A framed message decodes, and only its header and its own body are consumed, exactly when the
      length field fits it and `length` octets really follow the header. */
  lemma FrameDecodes(m: Message, peer: Option<OpenMsg>, length: uint16, t: bytes)
    requires WellFormed(m, peer)
    ensures
      var body := PutBody(m, peer);
      LengthFits(m, |body|, length) && length <= |body + t|
      <==> Decode(PutHeader(length, TypeCode(m)) + (body + t), peer) == Ok(m, t)
  {
    hide ParseHeader, ParseBody, PutHeader, PutBody;
    var body := PutBody(m, peer);
    var b := PutHeader(length, TypeCode(m)) + (body + t);
    if LengthFits(m, |body|, length) {
      HeaderBack(length, m, |body|, body + t);
      if length <= |body + t| {
        var size := if m.Keepalive? then 0 else |body|;
        PutBodySize(m, peer);
        var over := t[..length - size];
        assert (body + t)[..length] == body + over;
        BodyBack(m, peer, over);
        assert b[MIN_MSG_LEN + |body|..] == t;
      }
    } else {
      FrameRefused(m, peer, length, t);
    }
  }

  /** What a decoded message takes off the buffer: the header, and of the `length` octets behind it all
      for an UPDATE or a NOTIFICATION, none for a KEEPALIVE, and for an OPEN those it is made of. */
  lemma DecodeConserves(b: bytes, peer: Option<OpenMsg>) returns (length: uint16)
    requires Decode(b, peer).Ok?
    ensures ParseHeader(b).Ok? && length == ParseHeader(b).value.length && MIN_MSG_LEN + length <= |b|
    ensures var p := Decode(b, peer);
      match p.value
      case Update(m) =>
        && p.rest == b[MIN_MSG_LEN + length..] && peer.Some?
        && ParseUpdate(b[MIN_MSG_LEN..][..length], peer.value.optParams.fourOctetAs.Some?) == Ok(m, [])
      case Notification(n) =>
        && p.rest == b[MIN_MSG_LEN + length..]
        && b[MIN_MSG_LEN..][..length] == [n.errorCode, n.errorSubcode] + n.data.value
      case Keepalive => p.rest == b[MIN_MSG_LEN..]
      case Open(m) =>
        exists t :: ParseOpen(b[MIN_MSG_LEN..][..length]) == Ok(m, t) && p.rest == b[MIN_MSG_LEN + length - |t|..]
  {
    hide ParseOpen, ParseUpdate, ParseHeader;
    length := ParseHeader(b).value.length;
    HeaderTakes(b);
    var body := b[MIN_MSG_LEN..][..length];
    if Decode(b, peer).value.Open? {
      assert ParseOpen(body) == Ok(Decode(b, peer).value.open, ParseOpen(body).rest);
    }
  }

  lemma HeaderTakes(b: bytes)
    requires ParseHeader(b).Ok?
    ensures ParseHeader(b).rest == b[MIN_MSG_LEN..]
  {
  }

  // ---------------------------------------------------------------- whole streams

  /** The length a sender writes: the size of the body, or the least the decoder accepts. */
  function LengthOf(m: Message, size: nat): nat {
    match m
    case Open(_) => if size < MIN_OPEN_LEN then MIN_OPEN_LEN else size
    case Keepalive => KEEPALIVE_LEN
    case _ => size
  }

  /** Well formed, not too long for the length field, and not too short for the decoder. */
  predicate Sendable(m: Message, peer: Option<OpenMsg>) {
    && WellFormed(m, peer)
    && var size := |PutBody(m, peer)|;
       LengthOf(m, size) < 0x1_0000 && LengthFits(m, size, LengthOf(m, size))
  }

  predicate SendableAll(ms: seq<Message>, peer: Option<OpenMsg>) {
    ms == [] || (Sendable(ms[0], peer) && SendableAll(ms[1..], NextPeer(peer, ms[0])))
  }

  function Frame(m: Message, peer: Option<OpenMsg>): (b: bytes)
    requires Sendable(m, peer)
    ensures |b| >= MIN_MSG_LEN
  {
    PutHeader(LengthOf(m, |PutBody(m, peer)|), TypeCode(m)) + PutBody(m, peer)
  }

  function Frames(ms: seq<Message>, peer: Option<OpenMsg>): (b: bytes)
    requires SendableAll(ms, peer)
    ensures ms != [] ==> |b| >= MIN_MSG_LEN
  {
    if ms == [] then [] else Frame(ms[0], peer) + Frames(ms[1..], NextPeer(peer, ms[0]))
  }

  lemma OpenSize(m: OpenMsg)
    requires WellFormedOpen(m)
    ensures |PutOpen(m)| >= 20
  {
  }

  /** Every frame decodes when a header's worth of octets follows it: the decoder asks for octets
      beyond a short OPEN and beyond every KEEPALIVE without consuming them. */
  lemma FrameBack(m: Message, peer: Option<OpenMsg>, t: bytes)
    requires Sendable(m, peer)
    requires |t| >= MIN_MSG_LEN
    ensures Decode(Frame(m, peer) + t, peer) == Ok(m, t)
  {
    hide Decode, PutOpen, WellFormedOpen, PutUpdate, WellFormedUpdate;
    if m.Open? {
      OpenSize(m.open);
    }
    var body := PutBody(m, peer);
    var header := PutHeader(LengthOf(m, |body|), TypeCode(m));
    assert Frame(m, peer) + t == header + (body + t);
    FrameDecodes(m, peer, LengthOf(m, |body|), t);
  }

  /** The messages of a stream of frames are read back in order, however the stream was cut, and
      what follows the frames is read as it would be on its own. */
  lemma {:induction false} FramesBack(ms: seq<Message>, peer: Option<OpenMsg>, t: bytes)
    requires SendableAll(ms, peer)
    requires |t| >= MIN_MSG_LEN
    ensures
      var after := Reads(t, PeerAfter(peer, ms), []);
      Reads(Frames(ms, peer) + t, peer, []) == Outcome(ms + after.messages, after.end)
    decreases |ms|
  {
    hide Decode, Frame, Sendable;
    if ms == [] {
      assert Frames(ms, peer) + t == t;
      assert ms + Reads(t, peer, []).messages == Reads(t, peer, []).messages;
    } else {
      var peer' := NextPeer(peer, ms[0]);
      var r := Frames(ms[1..], peer') + t;
      assert Frames(ms, peer) + t == Frame(ms[0], peer) + r;
      FrameBack(ms[0], peer, r);
      FramesBack(ms[1..], peer', t);
      PeerAfterFirst(peer, ms[0], ms[1..]);
      assert [ms[0]] + ms[1..] == ms;
      var after := Reads(t, PeerAfter(peer, ms), []);
      assert [ms[0]] + (ms[1..] + after.messages) == ms + after.messages;
    }
  }

  /** What one side frames and sends, the other side reads back, whatever the pieces it arrives in. */
  lemma SentIsReceived(ms: seq<Message>, t: bytes, chunks: seq<bytes>)
    requires SendableAll(ms, None) && |t| >= MIN_MSG_LEN
    requires Concat(chunks) == Frames(ms, None) + t
    ensures ms <= Reads([], None, chunks).messages
    ensures var after := Reads(t, PeerAfter(None, ms), []);
      Reads([], None, chunks) == Outcome(ms + after.messages, after.end)
  {
    hide Reads, Frames;
    FramesBack(ms, None, t);
    assert [] + Concat(chunks) == Frames(ms, None) + t + Concat([]);
    SplitIndependent([], chunks, Frames(ms, None) + t, [], None);
  }

  /** A KEEPALIVE is not seen until nineteen more octets have arrived behind it. */
  lemma KeepaliveWaits(peer: Option<OpenMsg>, t: bytes)
    ensures Decode(PutHeader(KEEPALIVE_LEN, 4) + t, peer) == Ok(Keepalive, t) <==> |t| >= KEEPALIVE_LEN
    ensures Decode(PutHeader(KEEPALIVE_LEN, 4) + t, peer) == Short <==> |t| < KEEPALIVE_LEN
  {
    assert [] + t == t;
    FrameDecodes(Keepalive, peer, KEEPALIVE_LEN, t);
    HeaderBack(KEEPALIVE_LEN, Keepalive, 0, t);
  }

  /** An OPEN framed with the size of its body is refused exactly when it has fewer than two
      optional parameters, as every OPEN built from the configuration has. */
  lemma ShortOpenRefused(m: OpenMsg, peer: Option<OpenMsg>, t: bytes)
    requires WellFormedOpen(m) && |PutOpen(m)| < 0x1_0000
    ensures var b := PutHeader(|PutOpen(m)|, 1) + (PutOpen(m) + t);
      && (m.optParamsLen < 2 <==> Decode(b, peer) == Fail(HeaderError(BadMessageLength)))
      && (m.optParamsLen >= 2 <==> Decode(b, peer) == Ok(Open(m), t))
  {
    hide PutOpen, ParseBody;
    OpenSizeByParams(m);
    var b := PutHeader(|PutOpen(m)|, 1) + (PutOpen(m) + t);
    FrameDecodes(Open(m), peer, |PutOpen(m)|, t);
    if m.optParamsLen < 2 {
      OpenHeaderRefused(|PutOpen(m)|, PutOpen(m) + t);
    }
  }

  lemma OpenHeaderRefused(length: uint16, t: bytes)
    requires length < MIN_OPEN_LEN
    ensures ParseHeader(PutHeader(length, 1) + t) == Fail(HeaderError(BadMessageLength))
  {
    var r := PutU16(length) + ([1] + t);
    assert PutHeader(length, 1) + t == Marker() + r;
    TakeBytesFront(Marker(), r);
    U16Front(length, [1] + t);
    U8Front(1, t);
  }

  lemma OpenSizeByParams(m: OpenMsg)
    requires WellFormedOpen(m)
    ensures |PutOpen(m)| < MIN_OPEN_LEN <==> m.optParamsLen < 2
  {
    CapsSize(Caps(m.optParams), m.extOptParam);
    if m.optParams.fourOctetAs.Some? {
      var n := m.optParamsLen - |Caps(m.optParams)|;
      FourOctetAsTimesSize(m.optParams.fourOctetAs.value, n, m.extOptParam);
    }
  }

  lemma {:induction false} CapsSize(caps: seq<MpExtCap>, ext: bool)
    ensures 6 * |caps| <= |PutMpExtCaps(caps, ext)| <= 7 * |caps|
    decreases |caps|
  {
    if caps != [] {
      CapsSize(caps[1..], ext);
    }
  }

  lemma {:induction false} FourOctetAsTimesSize(asNum: uint32, n: nat, ext: bool)
    ensures 6 * n <= |PutFourOctetAsTimes(asNum, n, ext)| <= 7 * n
    decreases n
  {
    if n > 0 {
      FourOctetAsTimesSize(asNum, n - 1, ext);
    }
  }
}
