/** What the decoders make of any octets, field by field: where each value stands, and what is refused
    first, with the error's own code. These say it by position and number, and so are about the same
    functions as `RoundTrip` without a printer in between. */
module DecoderLaws {
  import opened Basics
  import opened Errors
  import opened Wire
  import opened Message

  /** The number in two octets, the higher first. */
  function At2(b: bytes, i: nat): uint16
    requires i + 2 <= |b|
  {
    var hi: int := b[i];
    256 * hi + b[i + 1]
  }

  /** The number in four octets, the highest first. */
  function At4(b: bytes, i: nat): uint32
    requires i + 4 <= |b|
  {
    var hi: int := At2(b, i);
    65536 * hi + At2(b, i + 2)
  }

  lemma U16Law(b: bytes)
    ensures |b| < 2 ==> U16(b) == Short
    ensures |b| >= 2 ==> U16(b) == Ok(At2(b, 0), b[2..])
  {
  }

  lemma U32Law(b: bytes)
    ensures |b| < 4 ==> U32(b) == Short
    ensures |b| >= 4 ==> U32(b) == Ok(At4(b, 0), b[4..])
  {
  }

  /** `p` ends as `q` does, which is not in a value. */
  predicate EndsAs<T, U>(p: Parsed<T>, q: Parsed<U>) {
    match q
    case Ok(_, _) => false
    case Short => p.Short?
    case Fail(e) => p.Fail? && p.error == e
    case Crash => p.Crash?
  }

  // ---------------------------------------------------------------- header

  predicate RightMarker(b: bytes)
    requires |b| >= 16
  {
    forall i | 0 <= i < 16 :: b[i] == 1
  }

  /** The lengths a message type may have. */
  predicate RightLength(code: byte, length: uint16) {
    || (code == 1 && length >= 29)
    || (code == 2 && length >= 23)
    || (code == 3 && length >= 21)
    || (code == 4 && length == 19)
  }

  function TypeOf(code: byte): MsgType
    requires 1 <= code <= 4
  {
    match code
    case 1 => TOpen
    case 2 => TUpdate
    case 3 => TNotification
    case 4 => TKeepalive
  }

  /** Nineteen octets are a header exactly when the marker, the type and the length are right, and the
      first of these that is wrong gives the error. */
  lemma HeaderLaw(b: bytes)
    requires |b| >= 19
    ensures !RightMarker(b) ==> ParseHeader(b) == Fail(Error(MessageHeaderError, ConnectionNotSync, None))
    ensures RightMarker(b) && !(1 <= b[18] <= 4) ==>
      ParseHeader(b) == Fail(Error(MessageHeaderError, BadMessageType, None))
    ensures RightMarker(b) && 1 <= b[18] <= 4 && !RightLength(b[18], At2(b, 16)) ==>
      ParseHeader(b) == Fail(Error(MessageHeaderError, BadMessageLength, None))
    ensures RightMarker(b) && RightLength(b[18], At2(b, 16)) ==>
      ParseHeader(b) == Ok(MessageHeader(At2(b, 16), TypeOf(b[18])), b[19..])
  {
    assert RightMarker(b) <==> b[..16] == Marker();
    assert b[16..][2..] == b[18..];
    assert b[18..][1..] == b[19..];
  }

  /** A whole buffer: too short for a header or for the length in it, refused with its header, or what
      its body is. */
  lemma DecodeLaw(b: bytes, peer: Option<OpenMsg>)
    ensures |b| < 19 ==> Decode(b, peer) == Short
    ensures |b| >= 19 && ParseHeader(b).Fail? ==> Decode(b, peer) == Fail(ParseHeader(b).error)
    ensures |b| >= 19 && ParseHeader(b).Ok? && |b| < 19 + At2(b, 16) ==> Decode(b, peer) == Short
    ensures |b| >= 19 && ParseHeader(b).Ok? && |b| >= 19 + At2(b, 16) ==>
      var body := b[19..19 + At2(b, 16)];
      var q := ParseBody(TypeOf(b[18]), body, peer);
      if q.Ok? then Decode(b, peer) == Ok(q.value, b[19 + |body| - |q.rest|..]) else EndsAs(Decode(b, peer), q)
  {
    hide ParseHeader, ParseBody;
    if |b| >= 19 {
      HeaderLaw(b);
      if ParseHeader(b).Ok? {
        if |b| >= 19 + At2(b, 16) {
          assert b[19..][..At2(b, 16)] == b[19..19 + At2(b, 16)];
        }
      }
    }
  }

  /** A decoded message is of the kind that its own type octet names. */
  lemma DecodedKind(b: bytes, peer: Option<OpenMsg>)
    requires Decode(b, peer).Ok?
    ensures |b| >= 19 && RightMarker(b) && RightLength(b[18], At2(b, 16))
    ensures Decode(b, peer).value.Open? <==> b[18] == 1
    ensures Decode(b, peer).value.Update? <==> b[18] == 2
    ensures Decode(b, peer).value.Notification? <==> b[18] == 3
    ensures Decode(b, peer).value.Keepalive? <==> b[18] == 4
  {
    hide Decode, ParseHeader, ParseOpen, ParseUpdate, ParseNotification;
    DecodeLaw(b, peer);
    if |b| >= 19 {
      HeaderLaw(b);
    }
  }

  /** Each kind of body, and an UPDATE without an OPEN before it. */
  lemma BodyLaw(b: bytes, peer: Option<OpenMsg>)
    ensures var p, q := ParseBody(TOpen, b, peer), ParseOpen(b);
      if q.Ok? then p == Ok(Open(q.value), q.rest) else EndsAs(p, q)
    ensures peer.None? ==> ParseBody(TUpdate, b, peer) == Fail(Error(MessageHeaderError, ConnectionNotSync, None))
    ensures peer.Some? ==>
      var p, q := ParseBody(TUpdate, b, peer), ParseUpdate(b, peer.value.optParams.fourOctetAs.Some?);
      if q.Ok? then p == Ok(Update(q.value), q.rest) else EndsAs(p, q)
    ensures |b| < 2 ==> ParseBody(TNotification, b, peer) == Short
    ensures |b| >= 2 ==>
      ParseBody(TNotification, b, peer) == Ok(Notification(NotificationMsg(b[0], b[1], Some(b[2..]))), [])
    ensures ParseBody(TKeepalive, b, peer) == Ok(Keepalive, b)
  {
    hide ParseOpen, ParseUpdate;
    if |b| >= 2 {
      assert b[1..][1..] == b[2..];
    }
  }

  // ---------------------------------------------------------------- OPEN

  predicate RightHoldTime(b: bytes)
    requires |b| >= 10
  {
    At2(b, 8) != 1 && At2(b, 8) != 2
  }

  predicate RightIdentifier(b: bytes)
    requires |b| >= 16
  {
    At4(b, 12) != 0 && At4(b, 12) != 0xFFFF_FFFF
  }

  lemma HeadLaw(b: bytes)
    ensures |b| >= 1 && b[0] != 4 ==> ParseOpenHead(b) == Fail(Error(OpenMessageError, UnsupportedVersionNumber, None))
    ensures |b| >= 10 && b[0] == 4 && !RightHoldTime(b) ==>
      ParseOpenHead(b) == Fail(Error(OpenMessageError, UnacceptableHoldTime, None))
    ensures |b| >= 12 && b[0] == 4 && RightHoldTime(b) ==>
      ParseOpenHead(b) == Ok(OpenHead(4, At2(b, 4), At2(b, 8)), b[12..])
    ensures |b| == 0 || (|b| < 12 && b[0] == 4 && (|b| >= 10 ==> RightHoldTime(b))) ==> ParseOpenHead(b) == Short
  {
    hide U16;
    if |b| >= 1 {
      var b1 := b[1..];
      if |b| >= 4 {
        assert b1[3..] == b[4..];
        U16Law(b[4..]);
        if |b| >= 6 {
          assert b[4..][2..] == b[6..];
          if |b| >= 8 {
            assert b[6..][2..] == b[8..];
            U16Law(b[8..]);
            if |b| >= 10 {
              assert b[8..][2..] == b[10..];
              if |b| >= 12 {
                assert b[10..][2..] == b[12..];
              }
            }
          }
        }
      }
    }
  }

  lemma FormLaw(b: bytes)
    ensures |b| >= 4 && (At4(b, 0) == 0 || At4(b, 0) == 0xFFFF_FFFF) ==>
      ParseOpenForm(b) == Fail(Error(OpenMessageError, BadBgpIdentifier, None))
    ensures |b| >= 8 && At4(b, 0) != 0 && At4(b, 0) != 0xFFFF_FFFF ==>
      ParseOpenForm(b) == Ok(OpenForm(b[..4], b[5] == 255, if b[5] == 255 then At2(b, 6) else b[4]), b[8..])
    ensures |b| < 4 || (|b| < 8 && At4(b, 0) != 0 && At4(b, 0) != 0xFFFF_FFFF) ==> ParseOpenForm(b) == Short
  {
    hide U16, U32;
    U32Law(b);
    if |b| >= 4 {
      var id := At4(b, 0);
      WrittenBack(b);
      assert PutU32(id) == [0, 0, 0, 0] <==> id == 0;
      assert PutU32(id) == [255, 255, 255, 255] <==> id == 0xFFFF_FFFF;
      if |b| >= 6 {
        assert b[4..][1..][1..] == b[6..];
        U16Law(b[6..]);
        if |b| >= 8 {
          assert b[6..][2..] == b[8..];
        }
      }
    }
  }

  lemma WrittenBack(b: bytes)
    requires |b| >= 4
    ensures PutU32(At4(b, 0)) == b[..4]
  {
    PairDigits(b[0], b[1]);
    PairDigits(b[2], b[3]);
    var hi, lo := At2(b, 0), At2(b, 2);
    QuadDigits(hi, lo);
    assert hi == Pair(b[0], b[1]) && lo == Pair(b[2], b[3]) && At4(b, 0) == Quad(hi, lo);
    hide At2, At4, Pair, Quad;
  }

  /** One optional parameter, whose length is one octet or two. */
  lemma ParamLaw(b: bytes, ext: bool)
    ensures var w := if ext then 3 else 2;
      && (|b| < w ==> ParseOptParam(b, ext) == Short)
      && (|b| >= w ==>
            var length := if ext then At2(b, 1) else b[1];
            && (b[0] != 1 && b[0] != 63 ==>
                  ParseOptParam(b, ext) == Fail(Error(OpenMessageError, UnsupportedOptionalParameter, None)))
            && ((b[0] == 1 || b[0] == 63) && length != 4 ==>
                  ParseOptParam(b, ext) == Fail(Error(OpenMessageError, UnsupportedCapability, None)))
            && ((b[0] == 1 || b[0] == 63) && length == 4 && |b| < w + 4 ==> ParseOptParam(b, ext) == Short)
            && (b[0] == 1 && length == 4 && |b| >= w + 4 ==>
                  ParseOptParam(b, ext) == Ok(MpExt(MpExtCap(At2(b, w), b[w + 3])), b[w + 4..]))
            && (b[0] == 63 && length == 4 && |b| >= w + 4 ==>
                  ParseOptParam(b, ext) == Ok(FourOctetAs(At4(b, w)), b[w + 4..])))
  {
    hide U16, U32;
    var w := if ext then 3 else 2;
    if |b| >= 1 {
      U16Law(b[1..]);
      if |b| >= w {
        assert b[1..][w - 1..] == b[w..];
        var c := b[w..];
        U16Law(c);
        U32Law(c);
        if |c| >= 4 {
          assert c[2..][1..][1..] == b[w + 4..];
          assert c[4..] == b[w + 4..];
        }
      }
    }
  }

  /** The parameters of an OPEN one by one: `n` of them, whatever their sizes. */
  function Listed(b: bytes, n: nat, ext: bool): Parsed<seq<OptParam>>
    decreases n
  {
    if n == 0 then Ok([], b) else
    var (param, rest) :- ParseOptParam(b, ext);
    Prepend([param], Listed(rest, n - 1, ext))
  }

  /** The capabilities among the parameters, in order. */
  function CapsAmong(ps: seq<OptParam>): seq<MpExtCap> {
    if ps == [] then [] else (if ps[0].MpExt? then [ps[0].cap] else []) + CapsAmong(ps[1..])
  }

  /** The last four-octet AS number among the parameters, or `otherwise`. */
  function LastAs(ps: seq<OptParam>, otherwise: Option<uint32>): Option<uint32> {
    if ps == [] then otherwise
    else LastAs(ps[1..], if ps[0].FourOctetAs? then Some(ps[0].asNum) else otherwise)
  }

  /** The counted loop keeps every capability in order and the last AS number, and ends with the first
      parameter that is refused. */
  lemma {:induction false} ParamsLaw(b: bytes, n: nat, ext: bool, params: OptParams)
    ensures var p, q := ParseOptParams(b, n, ext, params), Listed(b, n, ext);
      if !q.Ok? then EndsAs(p, q) else
        var caps := Caps(params) + CapsAmong(q.value);
        p == Ok(OptParams(if caps == [] then params.mpExtCaps else Some(caps), LastAs(q.value, params.fourOctetAs)),
                q.rest)
    decreases n
  {
    hide ParseOptParam;
    if n == 0 {
      assert Caps(params) + CapsAmong([]) == Caps(params);
    } else if ParseOptParam(b, ext).Ok? {
      var p := ParseOptParam(b, ext);
      ParamsLaw(p.rest, n - 1, ext, AddParam(params, p.value));
      var later := Listed(p.rest, n - 1, ext);
      if later.Ok? {
        assert ([p.value] + later.value)[1..] == later.value;
        var one := if p.value.MpExt? then [p.value.cap] else [];
        assert Caps(params) + one + CapsAmong(later.value) == Caps(params) + (one + CapsAmong(later.value));
        if !p.value.MpExt? {
          assert Caps(params) + one == Caps(params);
        }
      }
    }
  }

  /** A whole OPEN. */
  lemma OpenLaw(b: bytes)
    ensures |b| >= 1 && b[0] != 4 ==> ParseOpen(b) == Fail(Error(OpenMessageError, UnsupportedVersionNumber, None))
    ensures |b| >= 10 && b[0] == 4 && !RightHoldTime(b) ==>
      ParseOpen(b) == Fail(Error(OpenMessageError, UnacceptableHoldTime, None))
    ensures |b| >= 16 && b[0] == 4 && RightHoldTime(b) && !RightIdentifier(b) ==>
      ParseOpen(b) == Fail(Error(OpenMessageError, BadBgpIdentifier, None))
    ensures |b| >= 20 && b[0] == 4 && RightHoldTime(b) && RightIdentifier(b) ==>
      var ext := b[17] == 255;
      var n := if ext then At2(b, 18) else b[16];
      var q := ParseOptParams(b[20..], n, ext, OptParams(None, None));
      if q.Ok? then ParseOpen(b) == Ok(OpenMsg(4, At2(b, 4), At2(b, 8), b[12..16], ext, n, q.value), q.rest)
      else EndsAs(ParseOpen(b), q)
    ensures
      || |b| == 0
      || (b[0] == 4 && |b| < 20 && (|b| >= 10 ==> RightHoldTime(b)) && (|b| >= 16 ==> RightIdentifier(b)))
      ==> ParseOpen(b) == Short
  {
    hide ParseOpenHead, ParseOpenForm, ParseOptParams;
    HeadLaw(b);
    if |b| >= 12 {
      var c := b[12..];
      FormLaw(c);
      if |b| >= 16 {
        assert At4(c, 0) == At4(b, 12) && c[..4] == b[12..16];
      }
      if |b| >= 20 {
        assert At2(c, 6) == At2(b, 18) && c[8..] == b[20..];
      }
    }
  }

  // ---------------------------------------------------------------- UPDATE

  /** A prefix: its octets padded with zeros, to four up to 32 bits and to sixteen beyond. */
  lemma CidrLaw(b: bytes)
    ensures |b| == 0 ==> ParseCidr(b) == Short
    ensures |b| >= 1 && b[0] >= 249 ==> ParseCidr(b) == Crash
    ensures |b| >= 1 && b[0] < 249 && |b| < 1 + (b[0] + 7) / 8 ==> ParseCidr(b) == Short
    ensures |b| >= 1 && 129 <= b[0] < 249 && |b| >= 1 + (b[0] + 7) / 8 ==> ParseCidr(b) == Crash
    ensures |b| >= 1 && b[0] <= 128 && |b| >= 1 + (b[0] + 7) / 8 ==>
      var n := (b[0] + 7) / 8;
      var p := ParseCidr(b);
      && p.Ok? && p.value.length == b[0] && p.rest == b[1 + n..]
      && (p.value.prefix.V4? <==> b[0] <= 32)
      && var all := p.value.prefix.Octets();
         |all| == (if b[0] <= 32 then 4 else 16) && forall i | 0 <= i < |all| :: all[i] == if i < n then b[1 + i] else 0
  {
  }

  lemma FlagsLaw(b: bytes)
    ensures |b| == 0 ==> ParseFlags(b) == Short
    ensures |b| >= 1 ==>
      ParseFlags(b) == Ok(AttrFlags(b[0] >= 128, b[0] % 128 >= 64, b[0] % 64 >= 32, b[0] % 32 >= 16), b[1..])
  {
  }

  lemma OriginLaw(b: bytes, attrLen: uint16)
    ensures attrLen != 1 ==> ParseOrigin(b, attrLen) == Fail(Error(UpdateMessageError, AttributeLengthError, None))
    ensures attrLen == 1 && |b| == 0 ==> ParseOrigin(b, attrLen) == Short
    ensures attrLen == 1 && |b| >= 1 ==>
      ParseOrigin(b, attrLen) ==
        match b[0]
        case 0 => Ok(OriginValue(Igp), b[1..])
        case 1 => Ok(OriginValue(Egp), b[1..])
        case 2 => Ok(OriginValue(Incomplete), b[1..])
        case _ => Fail(Error(UpdateMessageError, InvalidOriginAttribute, None))
  {
  }

  lemma {:induction false} AsNumbersLaw(b: bytes, n: nat)
    ensures |b| < 2 * n ==> ParseAsNumbers(b, n) == Short
    ensures |b| >= 2 * n ==>
      var p := ParseAsNumbers(b, n);
      p.Ok? && |p.value| == n && p.rest == b[2 * n..] && forall i | 0 <= i < n :: p.value[i] == At2(b, 2 * i)
    decreases n
  {
    hide U16;
    U16Law(b);
    if n > 0 && |b| >= 2 {
      AsNumbersLaw(b[2..], n - 1);
      if |b| >= 2 * n {
        assert b[2..][2 * (n - 1)..] == b[2 * n..];
        assert forall i | 1 <= i < n :: At2(b, 2 * i) == At2(b[2..], 2 * (i - 1));
      }
    }
  }

  lemma AsPathLaw(b: bytes, attrLen: uint16)
    ensures var p := ParseAsPathSegment(b, attrLen);
      && (|b| == 0 ==> p == Short)
      && (|b| >= 1 && b[0] != 1 && b[0] != 2 ==> p == Fail(Error(UpdateMessageError, MalformedAsPath, None)))
      && (|b| == 1 && (b[0] == 1 || b[0] == 2) ==> p == Short)
      && (|b| >= 2 && (b[0] == 1 || b[0] == 2) ==>
            var n: int := b[1];
            && (2 * n + 2 != attrLen ==> p == Fail(Error(UpdateMessageError, MalformedAsPath, None)))
            && (2 * n + 2 == attrLen && |b| < 2 + 2 * n ==> p == Short)
            && (2 * n + 2 == attrLen && |b| >= 2 + 2 * n ==>
                  && p.Ok? && p.value.segmentType == (if b[0] == 1 then AsSet else AsSequence)
                  && p.value.segmentLength == b[1] && |p.value.segmentValue| == n && p.rest == b[2 + 2 * n..]
                  && forall i | 0 <= i < n :: p.value.segmentValue[i] == At2(b, 2 + 2 * i)))
  {
    if |b| >= 2 {
      var c := b[1..][1..];
      assert c == b[2..];
      AsNumbersLaw(c, b[1]);
      assert forall i | 0 <= i < b[1] && 2 + 2 * i + 2 <= |b| :: At2(c, 2 * i) == At2(b, 2 + 2 * i);
    }
  }

  /** The value of an attribute, by its type code; the codes 4 to 7 whatever its length says. */
  lemma ValueLaw(b: bytes, fourOctets: bool, code: byte, attrLen: uint16)
    ensures var p := ParseAttrValue(b, fourOctets, code, attrLen);
      && (code == 1 ==> p == ParseOrigin(b, attrLen))
      && (code == 2 ==>
            var q := ParseAsPathSegment(b, attrLen);
            if q.Ok? then p == Ok(AsPath(q.value), q.rest) else EndsAs(p, q))
      && (code == 3 && attrLen != 4 ==> p == Fail(Error(UpdateMessageError, AttributeLengthError, None)))
      && ((code == 3 && attrLen == 4) || code == 4 || code == 5 ==>
            if |b| < 4 then p == Short
            else p == Ok(if code == 3 then NextHop(b[..4]) else if code == 4 then MultiExitDisc(At4(b, 0))
                         else LocalPref(At4(b, 0)), b[4..]))
      && (code == 6 ==> p == Ok(AtomicAggregate, b))
      && (code == 7 && fourOctets ==>
            p == if |b| < 8 then Short else Ok(Aggregator(At4(b, 0), b[4..8]), b[8..]))
      && (code == 7 && !fourOctets ==>
            p == if |b| < 6 then Short else Ok(Aggregator(At2(b, 0), b[2..6]), b[6..]))
      && (code == 0 || code >= 8 ==>
            p == if |b| < attrLen then Short else Ok(Unknown(b[..attrLen]), b[attrLen..]))
  {
    hide ParseOrigin, ParseAsPathSegment, U16, U32;
    U16Law(b);
    U32Law(b);
    if |b| >= 8 {
      assert b[4..][..4] == b[4..8] && b[4..][4..] == b[8..];
    }
    if |b| >= 6 {
      assert b[2..][..4] == b[2..6] && b[2..][4..] == b[6..];
    }
  }

  /** An attribute: its flags, its code, a length of one octet or two, and its value. */
  lemma AttributeLaw(b: bytes, fourOctets: bool)
    ensures var p := ParseAttribute(b, fourOctets);
      && (|b| < 3 ==> p == Short)
      && (|b| >= 3 ==>
            var ext := b[0] % 32 >= 16;
            if ext && |b| == 3 then p == Short else
              var w := if ext then 4 else 3;
              var attrLen := if ext then At2(b, 2) else b[2];
              var flags := AttrFlags(b[0] >= 128, b[0] % 128 >= 64, b[0] % 64 >= 32, ext);
              var q := ParseAttrValue(b[w..], fourOctets, b[1], attrLen);
              if q.Ok? then p == Ok(PathAttribute(flags, b[1], attrLen, q.value), q.rest) else EndsAs(p, q))
  {
    hide ParseFlags, ParseAttrValue, U16;
    FlagsLaw(b);
    if |b| >= 2 {
      assert b[1..][1..] == b[2..];
      U16Law(b[2..]);
      if |b| >= 3 {
        assert b[2..][1..] == b[3..];
      }
      if |b| >= 4 {
        assert b[2..][2..] == b[4..];
      }
    }
  }

  /** A list of prefixes, of attributes or of NLRI entries is what its first entry and the rest of it
      are, and ends with the first entry that is refused. */
  lemma ListLaw(b: bytes, fourOctets: bool)
    ensures ParseCidrs([]) == Ok([], []) && ParseAttributes([], fourOctets) == Ok([], []) && ParseNlri([]) == Ok([], [])
    ensures b != [] ==>
      var p, q := ParseCidrs(b), ParseCidr(b);
      if q.Ok? then p == Prepend([q.value], ParseCidrs(q.rest)) else EndsAs(p, q)
    ensures b != [] ==>
      var p, q := ParseAttributes(b, fourOctets), ParseAttribute(b, fourOctets);
      if q.Ok? then p == Prepend([q.value], ParseAttributes(q.rest, fourOctets)) else EndsAs(p, q)
    ensures b != [] ==>
      var p, q := ParseNlri(b), ParseCidr(b[1..]);
      if q.Ok? then p == Prepend([Reach(b[0], q.value.prefix)], ParseNlri(q.rest)) else EndsAs(p, q)
  {
    hide ParseCidr, ParseAttribute;
  }

  /** A whole UPDATE: two sections behind their lengths, and the rest; the first of the three that is
      refused decides. */
  lemma UpdateLaw(b: bytes, fourOctets: bool)
    ensures var p := ParseUpdate(b, fourOctets);
      if |b| < 2 || |b| < 2 + At2(b, 0) then p == Short else
        var w := 2 + At2(b, 0);
        var withdrawn := ParseCidrs(b[2..w]);
        if !withdrawn.Ok? then EndsAs(p, withdrawn)
        else if |b| < w + 2 || |b| < w + 2 + At2(b, w) then p == Short else
          var a := w + 2 + At2(b, w);
          var attributes, nlri := ParseAttributes(b[w + 2..a], fourOctets), ParseNlri(b[a..]);
          if !attributes.Ok? then EndsAs(p, attributes)
          else if !nlri.Ok? then EndsAs(p, nlri)
          else p == Ok(UpdateMsg(withdrawn.value, attributes.value, nlri.value), [])
  {
    hide ParseCidrs, ParseAttributes, ParseNlri;
    SectionLaw(b);
    if |b| >= 2 && |b| >= 2 + At2(b, 0) {
      var w := 2 + At2(b, 0);
      var c := b[w..];
      SectionLaw(c);
      if |c| >= 2 {
        assert At2(c, 0) == At2(b, w);
        if |c| >= 2 + At2(c, 0) {
          assert c[2..2 + At2(c, 0)] == b[w + 2..w + 2 + At2(b, w)];
          assert c[2 + At2(c, 0)..] == b[w + 2 + At2(b, w)..];
        }
      }
    }
  }

  lemma SectionLaw(b: bytes)
    ensures |b| < 2 || |b| < 2 + At2(b, 0) ==> Section(b) == Short
    ensures |b| >= 2 && |b| >= 2 + At2(b, 0) ==> Section(b) == Ok(b[2..2 + At2(b, 0)], b[2 + At2(b, 0)..])
  {
    hide U16;
    U16Law(b);
    if |b| >= 2 && |b| >= 2 + At2(b, 0) {
      assert b[2..][..At2(b, 0)] == b[2..2 + At2(b, 0)];
      assert b[2..][At2(b, 0)..] == b[2 + At2(b, 0)..];
    }
  }
}
