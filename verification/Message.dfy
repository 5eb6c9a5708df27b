/** The message types of `src/message.rs` and, for each `decode`, the function from the octets it
    is given to the value it yields and the octets it leaves. */
module Message {
  import opened Basics
  import opened Errors
  import opened Wire

  const MARKER_LEN: nat := 16
  const MIN_MSG_LEN: nat := 19
  const MIN_OPEN_LEN: nat := 29
  const MIN_UPDATE_LEN: nat := 23
  const KEEPALIVE_LEN: nat := 19
  const MIN_NOTIFICATION_LEN: nat := 21

  // ---------------------------------------------------------------- values

  datatype MsgType = TOpen | TUpdate | TNotification | TKeepalive

  datatype MessageHeader = MessageHeader(length: uint16, msgType: MsgType)

  datatype MpExtCap = MpExtCap(afi: uint16, safi: byte)

  datatype OptParams = OptParams(mpExtCaps: Option<seq<MpExtCap>>, fourOctetAs: Option<uint32>)

  datatype OpenMsg = OpenMsg(
    version: byte, asNumber: uint32, holdTime: uint16, bgpIdentifier: Octets4,
    extOptParam: bool, optParamsLen: uint16, optParams: OptParams)

  datatype IpAddr = V4(v4: Octets4) | V6(v6: Octets16)
  {
    function Octets(): bytes {
      if V4? then v4 else v6
    }
  }

  datatype Cidr = Cidr(length: byte, prefix: IpAddr)

  datatype AttrFlags = AttrFlags(optional: bool, transitive: bool, partial: bool, extendedLength: bool)

  datatype Origin = Igp | Egp | Incomplete

  datatype SegmentType = AsSet | AsSequence

  datatype AsPathSegment = AsPathSegment(segmentType: SegmentType, segmentLength: byte, segmentValue: seq<uint32>)

  datatype AttrValue =
    | OriginValue(origin: Origin)
    | AsPath(segment: AsPathSegment)
    | NextHop(hop: Octets4)
    | MultiExitDisc(metric: uint32)
    | LocalPref(preference: uint32)
    | AtomicAggregate
    | Aggregator(asNum: uint32, ip: Octets4)
    | Unknown(raw: bytes)

  datatype PathAttribute = PathAttribute(flags: AttrFlags, typeCode: byte, attrLen: uint16, value: AttrValue)

  datatype Reach = Reach(length: byte, prefix: IpAddr)

  datatype UpdateMsg = UpdateMsg(withdrawn: seq<Cidr>, attributes: seq<PathAttribute>, nlri: seq<Reach>)

  datatype NotificationMsg = NotificationMsg(errorCode: int, errorSubcode: int, data: Option<bytes>)

  datatype Message =
    | Open(open: OpenMsg)
    | Update(update: UpdateMsg)
    | Keepalive
    | Notification(note: NotificationMsg)

  // ---------------------------------------------------------------- header

  function MinimumLength(t: MsgType): nat {
    match t
    case TOpen => MIN_OPEN_LEN
    case TUpdate => MIN_UPDATE_LEN
    case TNotification => MIN_NOTIFICATION_LEN
    case TKeepalive => KEEPALIVE_LEN
  }

  /** `MessageHeader::decode`: the marker octet of this implementation is 1, not 255. */
  function ParseHeader(b: bytes): (p: Parsed<MessageHeader>)
    ensures p.Ok? ==> |b| == MIN_MSG_LEN + |p.rest| && p.value.length >= MIN_MSG_LEN
  {
    var (marker, b1) :- TakeBytes(b, MARKER_LEN);
    if marker != Marker() then Fail(HeaderError(ConnectionNotSync)) else
    var (length, b2) :- U16(b1);
    var (code, b3) :- U8(b2);
    if code < 1 || code > 4 then Fail(HeaderError(BadMessageType)) else
    var t :=
      if code == 1 then TOpen else if code == 2 then TUpdate
      else if code == 3 then TNotification else TKeepalive;
    if (if t == TKeepalive then length != KEEPALIVE_LEN else length < MinimumLength(t))
    then Fail(HeaderError(BadMessageLength))
    else Ok(MessageHeader(length, t), b3)
  }

  function Marker(): (m: bytes)
    ensures |m| == MARKER_LEN
  {
    [1, 1, 1, 1, 1, 1, 1, 1, 1, 1, 1, 1, 1, 1, 1, 1]
  }

  // ---------------------------------------------------------------- OPEN

  function ParseMpExtCap(b: bytes): (p: Parsed<MpExtCap>)
    ensures p.Ok? ==> |p.rest| + 4 == |b|
  {
    var (afi, b1) :- U16(b);
    var (_, b2) :- TakeBytes(b1, 1);
    var (safi, b3) :- U8(b2);
    Ok(MpExtCap(afi, safi), b3)
  }

  datatype OptParam = MpExt(cap: MpExtCap) | FourOctetAs(asNum: uint32)

  /** One optional parameter. */
  function ParseOptParam(b: bytes, ext: bool): (p: Parsed<OptParam>)
    ensures p.Ok? ==> |p.rest| < |b|
  {
    var (paramType, b1) :- U8(b);
    var (paramLen, b2) :- if ext then U16(b1) else U8(b1);
    if paramType == 1 then
      if paramLen != 4 then Fail(OpenError(UnsupportedCapability)) else
      var (cap, b3) :- ParseMpExtCap(b2);
      Ok(MpExt(cap), b3)
    else if paramType == 63 then
      if paramLen != 4 then Fail(OpenError(UnsupportedCapability)) else
      var (asNum, b3) :- U32(b2);
      Ok(FourOctetAs(asNum), b3)
    else
      Fail(OpenError(UnsupportedOptionalParameter))
  }

  function Caps(params: OptParams): seq<MpExtCap> {
    if params.mpExtCaps.Some? then params.mpExtCaps.value else []
  }

  /** Capabilities are collected; a later four-octet AS capability replaces an earlier one. */
  function AddParam(params: OptParams, param: OptParam): OptParams {
    match param
    case MpExt(cap) => params.(mpExtCaps := Some(Caps(params) + [cap]))
    case FourOctetAs(asNum) => params.(fourOctetAs := Some(asNum))
  }

  /** `OptParams::decode`: `n` is a number of parameters here, not a number of octets. */
  function ParseOptParams(b: bytes, n: nat, ext: bool, params: OptParams): (p: Parsed<OptParams>)
    ensures p.Ok? ==> |p.rest| <= |b|
    decreases n
  {
    if n == 0 then Ok(params, b) else
    var (param, b1) :- ParseOptParam(b, ext);
    ParseOptParams(b1, n - 1, ext, AddParam(params, param))
  }

  const NO_PARAMS := OptParams(None, None)

  predicate AcceptableHoldTime(holdTime: uint16) {
    holdTime == 0 || holdTime >= 3
  }

  predicate AcceptableIdentifier(id: Octets4) {
    id != [0, 0, 0, 0] && id != [255, 255, 255, 255]
  }

  /** The version, the AS number and the hold time, each followed by padding. */
  function ParseOpenHead(b: bytes): (p: Parsed<OpenHead>)
    ensures p.Ok? ==> |p.rest| + 12 == |b|
  {
    var (version, b1) :- U8(b);
    if version != 4 then Fail(OpenError(UnsupportedVersionNumber)) else
    var (_, b2) :- TakeBytes(b1, 3);
    var (asNumber, b3) :- U16(b2);
    var (_, b4) :- TakeBytes(b3, 2);
    var (holdTime, b5) :- U16(b4);
    if !AcceptableHoldTime(holdTime) then Fail(OpenError(UnacceptableHoldTime)) else
    var (_, b6) :- TakeBytes(b5, 2);
    Ok(OpenHead(version, asNumber, holdTime), b6)
  }

  /** The identifier and the form and number of the optional parameters. */
  function ParseOpenForm(b: bytes): (p: Parsed<OpenForm>)
    ensures p.Ok? ==> |p.rest| + 8 == |b|
  {
    var (id, b1) :- U32(b);
    if !AcceptableIdentifier(PutU32(id)) then Fail(OpenError(BadBgpIdentifier)) else
    var (nonExtLen, b2) :- U8(b1);
    var (nonExtType, b3) :- U8(b2);
    var (extLen, b4) :- U16(b3);
    var ext := nonExtType == 255;
    Ok(OpenForm(PutU32(id), ext, if ext then extLen else nonExtLen), b4)
  }

  datatype OpenHead = OpenHead(version: byte, asNumber: uint16, holdTime: uint16)
  datatype OpenForm = OpenForm(id: Octets4, ext: bool, len: uint16)

  /** `OpenMsg::decode`. */
  function ParseOpen(b: bytes): (p: Parsed<OpenMsg>)
    ensures p.Ok? ==> |p.rest| <= |b|
  {
    var (head, b1) :- ParseOpenHead(b);
    var (form, b2) :- ParseOpenForm(b1);
    var (params, b3) :- ParseOptParams(b2, form.len, form.ext, NO_PARAMS);
    Ok(OpenMsg(head.version, head.asNumber, head.holdTime, form.id, form.ext, form.len, params), b3)
  }

  // ---------------------------------------------------------------- UPDATE

  function PaddedLength(length: byte): nat {
    (length + 7) / 8
  }

  /** `Cidr::decode`. With overflow checks on, `length + 7` overflows an octet from 249 up; from
      129 up the prefix does not fit the sixteen octets it is converted to. */
  function ParseCidr(b: bytes): (p: Parsed<Cidr>)
    ensures p.Ok? ==> |p.rest| < |b|
  {
    var (length, b1) :- U8(b);
    if length + 7 > 255 then Crash else
    var (octets, b2) :- TakeBytes(b1, PaddedLength(length));
    if |octets| > 16 then Crash
    else if |octets| > 4 then Ok(Cidr(length, V6(octets + Zeros(16 - |octets|))), b2)
    else Ok(Cidr(length, V4(octets + Zeros(4 - |octets|))), b2)
  }

  function ParseCidrs(b: bytes): (p: Parsed<seq<Cidr>>)
    ensures p.Ok? ==> p.rest == []
    decreases |b|
  {
    if |b| == 0 then Ok([], b) else
    var (c, b1) :- ParseCidr(b);
    Prepend([c], ParseCidrs(b1))
  }

  function ParseFlags(b: bytes): (p: Parsed<AttrFlags>)
    ensures p.Ok? ==> |p.rest| + 1 == |b|
  {
    var (flags, b1) :- U8(b);
    Ok(AttrFlags(Bit(flags, 128), Bit(flags, 64), Bit(flags, 32), Bit(flags, 16)), b1)
  }

  predicate Bit(flags: byte, weight: int)
    requires weight > 0
  {
    flags / weight % 2 == 1
  }

  function ParseOrigin(b: bytes, attrLen: uint16): Parsed<AttrValue> {
    if attrLen != 1 then Fail(UpdateError(AttributeLengthError)) else
    var (origin, b1) :- U8(b);
    if origin == 0 then Ok(OriginValue(Igp), b1)
    else if origin == 1 then Ok(OriginValue(Egp), b1)
    else if origin == 2 then Ok(OriginValue(Incomplete), b1)
    else Fail(UpdateError(InvalidOriginAttribute))
  }

  function ParseAsNumbers(b: bytes, n: nat): (p: Parsed<seq<uint32>>)
    ensures p.Ok? ==> |p.value| == n && |p.rest| + 2 * n == |b|
    decreases n
  {
    if n == 0 then Ok([], b) else
    var (asNum, b1) :- U16(b);
    Prepend([asNum as uint32], ParseAsNumbers(b1, n - 1))
  }

  function ParseSegmentType(b: bytes): Parsed<SegmentType> {
    var (code, b1) :- U8(b);
    if code == 1 then Ok(AsSet, b1)
    else if code == 2 then Ok(AsSequence, b1)
    else Fail(UpdateError(MalformedAsPath))
  }

  function ParseAsPathSegment(b: bytes, attrLen: uint16): Parsed<AsPathSegment> {
    var (t, b1) :- ParseSegmentType(b);
    var (n, b2) :- U8(b1);
    if n * 2 + 2 != attrLen then Fail(UpdateError(MalformedAsPath)) else
    var (numbers, b3) :- ParseAsNumbers(b2, n);
    Ok(AsPathSegment(t, n, numbers), b3)
  }

  function ParseAggregator(b: bytes, fourOctets: bool): Parsed<AttrValue> {
    var (asNum, b1) :- if fourOctets then U32(b) else U16(b);
    var (ip, b2) :- TakeBytes(b1, 4);
    Ok(Aggregator(asNum, ip), b2)
  }

  /** `PathAttributeValue::decode`: codes 4 to 7 do not look at the attribute's length. */
  function ParseAttrValue(b: bytes, fourOctets: bool, code: byte, attrLen: uint16): Parsed<AttrValue> {
    match code
    case 1 => ParseOrigin(b, attrLen)
    case 2 =>
      var (segment, b1) :- ParseAsPathSegment(b, attrLen);
      Ok(AsPath(segment), b1)
    case 3 =>
      if attrLen != 4 then Fail(UpdateError(AttributeLengthError)) else
      var (hop, b1) :- TakeBytes(b, 4);
      Ok(NextHop(hop), b1)
    case 4 =>
      var (metric, b1) :- U32(b);
      Ok(MultiExitDisc(metric), b1)
    case 5 =>
      var (preference, b1) :- U32(b);
      Ok(LocalPref(preference), b1)
    case 6 => Ok(AtomicAggregate, b)
    case 7 => ParseAggregator(b, fourOctets)
    case _ =>
      var (raw, b1) :- TakeBytes(b, attrLen);
      Ok(Unknown(raw), b1)
  }

  function ParseAttribute(b: bytes, fourOctets: bool): (p: Parsed<PathAttribute>)
    ensures p.Ok? ==> |p.rest| < |b|
  {
    var (flags, b1) :- ParseFlags(b);
    var (code, b2) :- U8(b1);
    var (attrLen, b3) :- if flags.extendedLength then U16(b2) else U8(b2);
    var (value, b4) :- ParseAttrValue(b3, fourOctets, code, attrLen);
    AttrValueShrinks(b3, fourOctets, code, attrLen);
    Ok(PathAttribute(flags, code, attrLen, value), b4)
  }

  lemma AttrValueShrinks(b: bytes, fourOctets: bool, code: byte, attrLen: uint16)
    ensures var p := ParseAttrValue(b, fourOctets, code, attrLen); p.Ok? ==> |p.rest| <= |b|
  {
  }

  function ParseAttributes(b: bytes, fourOctets: bool): (p: Parsed<seq<PathAttribute>>)
    ensures p.Ok? ==> p.rest == []
    decreases |b|
  {
    if |b| == 0 then Ok([], b) else
    var (a, b1) :- ParseAttribute(b, fourOctets);
    Prepend([a], ParseAttributes(b1, fourOctets))
  }

  /** One NLRI entry: a length octet, then a whole prefix entry whose own length octet is dropped. */
  function ParseReach(b: bytes): (p: Parsed<Reach>)
    ensures p.Ok? ==> |p.rest| < |b|
  {
    var (length, b1) :- U8(b);
    var (cidr, b2) :- ParseCidr(b1);
    Ok(Reach(length, cidr.prefix), b2)
  }

  function ParseNlri(b: bytes): (p: Parsed<seq<Reach>>)
    ensures p.Ok? ==> p.rest == []
    decreases |b|
  {
    if |b| == 0 then Ok([], b) else
    var (r, b1) :- ParseReach(b);
    Prepend([r], ParseNlri(b1))
  }

  function ParseWithdrawn(b: bytes): (p: Parsed<seq<Cidr>>)
    ensures p.Ok? ==> |p.rest| < |b|
  {
    var (section, b1) :- Section(b);
    var (withdrawn, _) :- ParseCidrs(section);
    Ok(withdrawn, b1)
  }

  /** The path attributes, with the length check that follows their loop. */
  function ParseAttributeSection(b: bytes, fourOctets: bool): (p: Parsed<seq<PathAttribute>>)
    ensures p.Ok? ==> |p.rest| < |b|
  {
    var (section, b1) :- Section(b);
    var (attributes, left) :- ParseAttributes(section, fourOctets);
    if |left| != 0 then Fail(UpdateError(MalformedAttributeList)) else
    Ok(attributes, b1)
  }

  /** `UpdateMsg::decode`, with the length check that follows its last loop. */
  function ParseUpdate(b: bytes, fourOctets: bool): (p: Parsed<UpdateMsg>)
    ensures p.Ok? ==> p.rest == []
  {
    var (withdrawn, b1) :- ParseWithdrawn(b);
    var (attributes, b2) :- ParseAttributeSection(b1, fourOctets);
    var (nlri, b3) :- ParseNlri(b2);
    if |b3| != 0 then Fail(UpdateError(InvalidNetworkField)) else
    Ok(UpdateMsg(withdrawn, attributes, nlri), b3)
  }

  // ---------------------------------------------------------------- NOTIFICATION, any message

  function ParseNotification(b: bytes): Parsed<NotificationMsg> {
    var (code, b1) :- U8(b);
    var (subcode, b2) :- U8(b1);
    Ok(NotificationMsg(code, subcode, Some(b2)), [])
  }

  function ParseBody(t: MsgType, b: bytes, peer: Option<OpenMsg>): (p: Parsed<Message>)
    ensures p.Ok? ==> |p.rest| <= |b|
  {
    match t
    case TOpen =>
      var (m, rest) :- ParseOpen(b);
      Ok(Open(m), rest)
    case TUpdate =>
      if peer.None? then Fail(HeaderError(ConnectionNotSync)) else
      var (m, rest) :- ParseUpdate(b, peer.value.optParams.fourOctetAs.Some?);
      Ok(Update(m), rest)
    case TKeepalive => Ok(Keepalive, b)
    case TNotification =>
      var (m, rest) :- ParseNotification(b);
      Ok(Notification(m), rest)
  }

  /** `Message::decode` on the whole receive buffer: the message and the octets that stay buffered.
      The body is the `length` octets after the header, but only the header and the octets the body
      decoder read are removed. */
  function Decode(buffer: bytes, peer: Option<OpenMsg>): (p: Parsed<Message>)
    ensures p.Ok? ==> |p.rest| + MIN_MSG_LEN <= |buffer|
  {
    if |buffer| < MIN_MSG_LEN then Short else
    var (header, after) :- ParseHeader(buffer);
    if |buffer| < header.length then Short else
    var (body, _) :- TakeBytes(after, header.length);
    var (m, left) :- ParseBody(header.msgType, body, peer);
    Ok(m, buffer[MIN_MSG_LEN + (|body| - |left|)..])
  }
}
