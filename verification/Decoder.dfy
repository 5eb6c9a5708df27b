/** The `decode` functions of `src/message.rs` as they are written: each advances a cursor, and
    each is proved to compute what the parsing function of the same name describes. */
module Decoder {
  import opened Basics
  import opened Errors
  import opened Wire
  import opened Message
  import opened OctetsCursor

  // ---------------------------------------------------------------- header

  method DecodeHeader(buf: Octets) returns (r: Result<MessageHeader>)
    requires buf.Valid()
    modifies buf
    ensures buf.Valid() && Agrees(r, buf.Rest(), ParseHeader(old(buf.Rest())))
  {
    hide U8, U16, TakeBytes;
    var marker :- buf.GetBytes(MARKER_LEN);
    if marker != Marker() {
      return Failed(HeaderError(ConnectionNotSync));
    }
    var length :- buf.GetU16();
    var code :- buf.GetU8();
    var t: MsgType;
    match code {
      case 1 => t := TOpen;
      case 2 => t := TUpdate;
      case 3 => t := TNotification;
      case 4 => t := TKeepalive;
      case _ => return Failed(HeaderError(BadMessageType));
    }
    match t {
      case TOpen =>
        if length < MIN_OPEN_LEN { return Failed(HeaderError(BadMessageLength)); }
      case TUpdate =>
        if length < MIN_UPDATE_LEN { return Failed(HeaderError(BadMessageLength)); }
      case TNotification =>
        if length < MIN_NOTIFICATION_LEN { return Failed(HeaderError(BadMessageLength)); }
      case TKeepalive =>
        if length != KEEPALIVE_LEN { return Failed(HeaderError(BadMessageLength)); }
    }
    r := Value(MessageHeader(length, t));
  }

  // ---------------------------------------------------------------- OPEN

  method DecodeMpExtCap(buf: Octets) returns (r: Result<MpExtCap>)
    requires buf.Valid()
    modifies buf
    ensures buf.Valid() && Agrees(r, buf.Rest(), ParseMpExtCap(old(buf.Rest())))
  {
    var afi :- buf.GetU16();
    var _ :- buf.Skip(1);
    var safi :- buf.GetU8();
    r := Value(MpExtCap(afi, safi));
  }

  method DecodeOptParam(buf: Octets, ext: bool) returns (r: Result<OptParam>)
    requires buf.Valid()
    modifies buf
    ensures buf.Valid() && Agrees(r, buf.Rest(), ParseOptParam(old(buf.Rest()), ext))
  {
    hide U8, U16, U32, ParseMpExtCap;
    var paramType :- buf.GetU8();
    var paramLen: uint16;
    if ext {
      paramLen :- buf.GetU16();
    } else {
      paramLen :- buf.GetU8();
    }
    match paramType {
      case 1 =>
        if paramLen != 4 {
          return Failed(OpenError(UnsupportedCapability));
        }
        var cap :- DecodeMpExtCap(buf);
        r := Value(MpExt(cap));
      case 63 =>
        if paramLen != 4 {
          return Failed(OpenError(UnsupportedCapability));
        }
        var asNum :- buf.GetU32();
        r := Value(FourOctetAs(asNum));
      case _ =>
        return Failed(OpenError(UnsupportedOptionalParameter));
    }
  }

  method DecodeOptParams(buf: Octets, n: uint16, ext: bool) returns (r: Result<OptParams>)
    requires buf.Valid()
    modifies buf
    ensures buf.Valid() && Agrees(r, buf.Rest(), ParseOptParams(old(buf.Rest()), n, ext, NO_PARAMS))
  {
    hide ParseOptParam;
    ghost var start := buf.Rest();
    var params := NO_PARAMS;
    for i := 0 to n
      invariant buf.Valid()
      invariant ParseOptParams(start, n, ext, NO_PARAMS) == ParseOptParams(buf.Rest(), n - i, ext, params)
    {
      var param :- DecodeOptParam(buf, ext);
      params := AddParam(params, param);
    }
    r := Value(params);
  }

  method DecodeOpenHead(buf: Octets) returns (r: Result<OpenHead>)
    requires buf.Valid()
    modifies buf
    ensures buf.Valid() && Agrees(r, buf.Rest(), ParseOpenHead(old(buf.Rest())))
  {
    hide U8, U16, TakeBytes;
    var version :- buf.GetU8();
    if version != 4 {
      return Failed(OpenError(UnsupportedVersionNumber));
    }
    var _ :- buf.Skip(3);
    var asNumber :- buf.GetU16();
    var _ :- buf.Skip(2);
    var holdTime :- buf.GetU16();
    if holdTime != 0 && holdTime < 3 {
      return Failed(OpenError(UnacceptableHoldTime));
    }
    var _ :- buf.Skip(2);
    r := Value(OpenHead(version, asNumber, holdTime));
  }

  method DecodeOpenForm(buf: Octets) returns (r: Result<OpenForm>)
    requires buf.Valid()
    modifies buf
    ensures buf.Valid() && Agrees(r, buf.Rest(), ParseOpenForm(old(buf.Rest())))
  {
    hide U8, U16, U32;
    var id :- buf.GetU32();
    if !AcceptableIdentifier(PutU32(id)) {
      return Failed(OpenError(BadBgpIdentifier));
    }
    var nonExtLen :- buf.GetU8();
    var nonExtType :- buf.GetU8();
    var extLen :- buf.GetU16();
    match nonExtType {
      case 255 => r := Value(OpenForm(PutU32(id), true, extLen));
      case _ => r := Value(OpenForm(PutU32(id), false, nonExtLen));
    }
  }

  method DecodeOpen(buf: Octets) returns (r: Result<OpenMsg>)
    requires buf.Valid()
    modifies buf
    ensures buf.Valid() && Agrees(r, buf.Rest(), ParseOpen(old(buf.Rest())))
  {
    hide ParseOpenHead, ParseOpenForm, ParseOptParams;
    var head :- DecodeOpenHead(buf);
    var form :- DecodeOpenForm(buf);
    var params :- DecodeOptParams(buf, form.len, form.ext);
    r := Value(OpenMsg(head.version, head.asNumber, head.holdTime, form.id, form.ext, form.len, params));
  }

  // ---------------------------------------------------------------- UPDATE

  method Pad(prefix: bytes, width: nat) returns (padded: bytes)
    requires |prefix| <= width
    ensures padded == prefix + Zeros(width - |prefix|)
  {
    padded := prefix;
    for i := |prefix| to width
      invariant padded == prefix + Zeros(i - |prefix|)
    {
      padded := padded + [0];
    }
  }

  method DecodeCidr(buf: Octets) returns (r: Result<Cidr>)
    requires buf.Valid()
    modifies buf
    ensures buf.Valid() && Agrees(r, buf.Rest(), ParseCidr(old(buf.Rest())))
  {
    var length :- buf.GetU8();
    if length as int + 7 > 255 {
      return Crashed;
    }
    var prefix :- buf.GetBytes(PaddedLength(length));
    if |prefix| > 4 {
      if |prefix| > 16 {
        return Crashed;
      }
      var octets := Pad(prefix, 16);
      r := Value(Cidr(length, V6(octets)));
    } else {
      var octets := Pad(prefix, 4);
      r := Value(Cidr(length, V4(octets)));
    }
  }

  method DecodeFlags(buf: Octets) returns (r: Result<AttrFlags>)
    requires buf.Valid()
    modifies buf
    ensures buf.Valid() && Agrees(r, buf.Rest(), ParseFlags(old(buf.Rest())))
  {
    var flags :- buf.GetU8();
    r := Value(AttrFlags(Bit(flags, 128), Bit(flags, 64), Bit(flags, 32), Bit(flags, 16)));
  }

  method DecodeOrigin(buf: Octets, attrLen: uint16) returns (r: Result<AttrValue>)
    requires buf.Valid()
    modifies buf
    ensures buf.Valid() && Agrees(r, buf.Rest(), ParseOrigin(old(buf.Rest()), attrLen))
  {
    if attrLen != 1 {
      return Failed(UpdateError(AttributeLengthError));
    }
    var origin :- buf.GetU8();
    match origin {
      case 0 => r := Value(OriginValue(Igp));
      case 1 => r := Value(OriginValue(Egp));
      case 2 => r := Value(OriginValue(Incomplete));
      case _ => r := Failed(UpdateError(InvalidOriginAttribute));
    }
  }

  /** A loop that has collected `front` and reads the rest of the list with outcome `p`: starting,
      pushing one more element, and finishing. */
  lemma PrependStart<T>(p: Parsed<seq<T>>)
    ensures Prepend([], p) == p
  {
    if p.Ok? {
      assert [] + p.value == p.value;
    }
  }

  lemma PrependOne<T>(front: seq<T>, x: T, p: Parsed<seq<T>>)
    ensures Prepend(front, Prepend([x], p)) == Prepend(front + [x], p)
  {
    if p.Ok? {
      assert front + ([x] + p.value) == front + [x] + p.value;
    }
  }

  lemma PrependEnd<T>(front: seq<T>, rest: bytes)
    ensures Prepend(front, Ok([], rest)) == Ok(front, rest)
  {
    assert front + [] == front;
  }

  method DecodeAsNumbers(buf: Octets, n: byte) returns (r: Result<seq<uint32>>)
    requires buf.Valid()
    modifies buf
    ensures buf.Valid() && Agrees(r, buf.Rest(), ParseAsNumbers(old(buf.Rest()), n))
  {
    ghost var start := buf.Rest();
    PrependStart(ParseAsNumbers(start, n));
    var numbers: seq<uint32> := [];
    for i := 0 to n
      invariant buf.Valid()
      invariant ParseAsNumbers(start, n) == Prepend(numbers, ParseAsNumbers(buf.Rest(), n - i))
    {
      var asNum :- buf.GetU16();
      PrependOne(numbers, asNum as uint32, ParseAsNumbers(buf.Rest(), n - i - 1));
      numbers := numbers + [asNum];
    }
    PrependEnd(numbers, buf.Rest());
    r := Value(numbers);
  }

  method DecodeSegmentType(buf: Octets) returns (r: Result<SegmentType>)
    requires buf.Valid()
    modifies buf
    ensures buf.Valid() && Agrees(r, buf.Rest(), ParseSegmentType(old(buf.Rest())))
  {
    var code :- buf.GetU8();
    match code {
      case 1 => r := Value(AsSet);
      case 2 => r := Value(AsSequence);
      case _ => r := Failed(UpdateError(MalformedAsPath));
    }
  }

  method DecodeAsPathSegment(buf: Octets, attrLen: uint16) returns (r: Result<AsPathSegment>)
    requires buf.Valid()
    modifies buf
    ensures buf.Valid() && Agrees(r, buf.Rest(), ParseAsPathSegment(old(buf.Rest()), attrLen))
  {
    hide ParseSegmentType, U8, ParseAsNumbers;
    var t :- DecodeSegmentType(buf);
    var n :- buf.GetU8();
    if n as int * 2 + 2 != attrLen {
      return Failed(UpdateError(MalformedAsPath));
    }
    var numbers :- DecodeAsNumbers(buf, n);
    r := Value(AsPathSegment(t, n, numbers));
  }

  method DecodeAggregator(buf: Octets, fourOctets: bool) returns (r: Result<AttrValue>)
    requires buf.Valid()
    modifies buf
    ensures buf.Valid() && Agrees(r, buf.Rest(), ParseAggregator(old(buf.Rest()), fourOctets))
  {
    var asNum: uint32;
    if fourOctets {
      asNum :- buf.GetU32();
    } else {
      asNum :- buf.GetU16();
    }
    var ip :- buf.GetBytes(4);
    r := Value(Aggregator(asNum, ip));
  }

  method DecodeAttrValue(buf: Octets, fourOctets: bool, code: byte, attrLen: uint16) returns (r: Result<AttrValue>)
    requires buf.Valid()
    modifies buf
    ensures buf.Valid() && Agrees(r, buf.Rest(), ParseAttrValue(old(buf.Rest()), fourOctets, code, attrLen))
  {
    match code {
      case 1 =>
        r := DecodeOrigin(buf, attrLen);
      case 2 =>
        var segment :- DecodeAsPathSegment(buf, attrLen);
        r := Value(AsPath(segment));
      case 3 =>
        if attrLen != 4 {
          return Failed(UpdateError(AttributeLengthError));
        }
        var hop :- buf.GetBytes(4);
        r := Value(NextHop(hop));
      case 4 =>
        var metric :- buf.GetU32();
        r := Value(MultiExitDisc(metric));
      case 5 =>
        var preference :- buf.GetU32();
        r := Value(LocalPref(preference));
      case 6 =>
        r := Value(AtomicAggregate);
      case 7 =>
        r := DecodeAggregator(buf, fourOctets);
      case _ =>
        var raw :- buf.GetBytes(attrLen);
        r := Value(Unknown(raw));
    }
  }

  method DecodeAttribute(buf: Octets, fourOctets: bool) returns (r: Result<PathAttribute>)
    requires buf.Valid()
    modifies buf
    ensures buf.Valid() && Agrees(r, buf.Rest(), ParseAttribute(old(buf.Rest()), fourOctets))
  {
    hide U8, U16, ParseFlags, ParseAttrValue;
    var flags :- DecodeFlags(buf);
    var code :- buf.GetU8();
    var attrLen: uint16;
    if flags.extendedLength {
      attrLen :- buf.GetU16();
    } else {
      attrLen :- buf.GetU8();
    }
    var value :- DecodeAttrValue(buf, fourOctets, code, attrLen);
    r := Value(PathAttribute(flags, code, attrLen, value));
  }

  method DecodeCidrs(buf: Octets) returns (r: Result<seq<Cidr>>)
    requires buf.Valid()
    modifies buf
    ensures buf.Valid() && Agrees(r, buf.Rest(), ParseCidrs(old(buf.Rest())))
  {
    hide ParseCidr;
    ghost var start := buf.Rest();
    PrependStart(ParseCidrs(start));
    var cidrs: seq<Cidr> := [];
    while buf.Cap() > 0
      invariant buf.Valid()
      invariant ParseCidrs(start) == Prepend(cidrs, ParseCidrs(buf.Rest()))
      decreases buf.Cap()
    {
      var c :- DecodeCidr(buf);
      PrependOne(cidrs, c, ParseCidrs(buf.Rest()));
      cidrs := cidrs + [c];
    }
    PrependEnd(cidrs, buf.Rest());
    r := Value(cidrs);
  }

  method DecodeAttributes(buf: Octets, fourOctets: bool) returns (r: Result<seq<PathAttribute>>)
    requires buf.Valid()
    modifies buf
    ensures buf.Valid() && Agrees(r, buf.Rest(), ParseAttributes(old(buf.Rest()), fourOctets))
  {
    hide ParseAttribute;
    ghost var start := buf.Rest();
    PrependStart(ParseAttributes(start, fourOctets));
    var attributes: seq<PathAttribute> := [];
    while buf.Cap() > 0
      invariant buf.Valid()
      invariant ParseAttributes(start, fourOctets)
             == Prepend(attributes, ParseAttributes(buf.Rest(), fourOctets))
      decreases buf.Cap()
    {
      var a :- DecodeAttribute(buf, fourOctets);
      PrependOne(attributes, a, ParseAttributes(buf.Rest(), fourOctets));
      attributes := attributes + [a];
    }
    PrependEnd(attributes, buf.Rest());
    r := Value(attributes);
  }

  method DecodeReach(buf: Octets) returns (r: Result<Reach>)
    requires buf.Valid()
    modifies buf
    ensures buf.Valid() && Agrees(r, buf.Rest(), ParseReach(old(buf.Rest())))
  {
    var length :- buf.GetU8();
    var cidr :- DecodeCidr(buf);
    r := Value(Reach(length, cidr.prefix));
  }

  method DecodeNlri(buf: Octets) returns (r: Result<seq<Reach>>)
    requires buf.Valid()
    modifies buf
    ensures buf.Valid() && Agrees(r, buf.Rest(), ParseNlri(old(buf.Rest())))
  {
    hide ParseReach;
    ghost var start := buf.Rest();
    PrependStart(ParseNlri(start));
    var nlri: seq<Reach> := [];
    while buf.Cap() > 0
      invariant buf.Valid()
      invariant ParseNlri(start) == Prepend(nlri, ParseNlri(buf.Rest()))
      decreases buf.Cap()
    {
      var reach :- DecodeReach(buf);
      PrependOne(nlri, reach, ParseNlri(buf.Rest()));
      nlri := nlri + [reach];
    }
    PrependEnd(nlri, buf.Rest());
    r := Value(nlri);
  }

  method DecodeWithdrawn(buf: Octets) returns (r: Result<seq<Cidr>>)
    requires buf.Valid()
    modifies buf
    ensures buf.Valid() && Agrees(r, buf.Rest(), ParseWithdrawn(old(buf.Rest())))
  {
    var section :- buf.GetBytesWithU16Length();
    var withdrawnBuf := new Octets(section);
    r := DecodeCidrs(withdrawnBuf);
  }

  method DecodeAttributeSection(buf: Octets, fourOctets: bool) returns (r: Result<seq<PathAttribute>>)
    requires buf.Valid()
    modifies buf
    ensures buf.Valid() && Agrees(r, buf.Rest(), ParseAttributeSection(old(buf.Rest()), fourOctets))
  {
    var section :- buf.GetBytesWithU16Length();
    var attributesBuf := new Octets(section);
    var attributes :- DecodeAttributes(attributesBuf, fourOctets);
    if attributesBuf.Cap() != 0 {
      return Failed(UpdateError(MalformedAttributeList));
    }
    r := Value(attributes);
  }

  method DecodeUpdate(buf: Octets, fourOctets: bool) returns (r: Result<UpdateMsg>)
    requires buf.Valid()
    modifies buf
    ensures buf.Valid() && Agrees(r, buf.Rest(), ParseUpdate(old(buf.Rest()), fourOctets))
  {
    hide ParseWithdrawn, ParseAttributeSection, ParseNlri;
    var withdrawn :- DecodeWithdrawn(buf);
    var attributes :- DecodeAttributeSection(buf, fourOctets);
    var nlri :- DecodeNlri(buf);
    if buf.Cap() != 0 {
      return Failed(UpdateError(InvalidNetworkField));
    }
    r := Value(UpdateMsg(withdrawn, attributes, nlri));
  }

  // ---------------------------------------------------------------- NOTIFICATION

  method DecodeNotification(buf: Octets) returns (r: Result<NotificationMsg>)
    requires buf.Valid()
    modifies buf
    ensures buf.Valid() && Agrees(r, buf.Rest(), ParseNotification(old(buf.Rest())))
  {
    var code :- buf.GetU8();
    var subcode :- buf.GetU8();
    ghost var left := buf.Rest();
    var data := buf.GetBytes(buf.Cap());
    assert left[..|left|] == left && left[|left|..] == [];
    r := Value(NotificationMsg(code, subcode, Some(data.value)));
  }

  // ---------------------------------------------------------------- any message

  method DecodeBody(t: MsgType, buf: Octets, peer: Option<OpenMsg>) returns (r: Result<Message>)
    requires buf.Valid()
    modifies buf
    ensures buf.Valid() && Agrees(r, buf.Rest(), ParseBody(t, old(buf.Rest()), peer))
  {
    hide ParseOpen, ParseUpdate, ParseNotification;
    match t {
      case TOpen =>
        var m :- DecodeOpen(buf);
        r := Value(Open(m));
      case TUpdate =>
        if peer.None? {
          return Failed(HeaderError(ConnectionNotSync));
        }
        var m :- DecodeUpdate(buf, peer.value.optParams.fourOctetAs.Some?);
        r := Value(Update(m));
      case TKeepalive =>
        r := Value(Keepalive);
      case TNotification =>
        var m :- DecodeNotification(buf);
        r := Value(Notification(m));
    }
  }

  /** `Message::decode`: `consumed` is how far a success advances the receive buffer. */
  method DecodeMessage(buffer: bytes, peer: Option<OpenMsg>) returns (r: Result<Message>, consumed: nat)
    ensures consumed <= |buffer|
    ensures !r.Value? ==> consumed == 0
    ensures Agrees(r, buffer[consumed..], Decode(buffer, peer))
  {
    hide ParseHeader, ParseBody;
    consumed := 0;
    if |buffer| < MIN_MSG_LEN {
      return TooShort, 0;
    }
    var oct := new Octets(buffer);
    var header := DecodeHeader(oct);
    if !header.Value? {
      return header.PropagateFailure<Message>(), 0;
    }
    if |buffer| < header.value.length {
      return TooShort, 0;
    }
    var body := oct.GetBytes(header.value.length);
    if !body.Value? {
      return body.PropagateFailure<Message>(), 0;
    }
    oct := new Octets(body.value);
    r := DecodeBody(header.value.msgType, oct, peer);
    if r.Value? {
      consumed := oct.pos + MIN_MSG_LEN;
    }
  }
}
