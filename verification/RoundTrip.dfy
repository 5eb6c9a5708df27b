/** Printing then decoding gives the value back, and every decoded value can be printed: the
    well-formed values of `Printer` are exactly the values the decoders produce. */
module RoundTrip {
  import opened Basics
  import opened Errors
  import opened Wire
  import opened Message
  import opened Printer

  // ---------------------------------------------------------------- OPEN

  lemma LengthBack(n: uint16, wide: bool, t: bytes)
    requires !wide ==> n < 0x100
    ensures (if wide then U16(PutLength(n, wide) + t) else U8(PutLength(n, wide) + t)) == Ok(n, t)
  {
    if wide { U16Front(n, t); }
  }

  lemma MpExtCapBack(c: MpExtCap, ext: bool, t: bytes)
    ensures ParseOptParam(PutMpExtCap(c, ext) + t, ext) == Ok(MpExt(c), t)
  {
    var r := PutU16(c.afi) + ([0] + ([c.safi] + t));
    assert PutMpExtCap(c, ext) + t == [1] + (PutLength(4, ext) + r);
    U8Front(1, PutLength(4, ext) + r);
    LengthBack(4, ext, r);
    U16Front(c.afi, [0] + ([c.safi] + t));
    TakeBytesFront([0], [c.safi] + t);
    U8Front(c.safi, t);
  }

  lemma FourOctetAsBack(asNum: uint32, ext: bool, t: bytes)
    ensures ParseOptParam(PutFourOctetAs(asNum, ext) + t, ext) == Ok(FourOctetAs(asNum), t)
  {
    var r := PutU32(asNum) + t;
    assert PutFourOctetAs(asNum, ext) + t == [63] + (PutLength(4, ext) + r);
    U8Front(63, PutLength(4, ext) + r);
    LengthBack(4, ext, r);
    U32Front(asNum, t);
  }

  function AddMpExtCaps(params: OptParams, caps: seq<MpExtCap>): OptParams
    decreases |caps|
  {
    if caps == [] then params else AddMpExtCaps(AddParam(params, MpExt(caps[0])), caps[1..])
  }

  lemma {:induction false} MpExtCapsBack(caps: seq<MpExtCap>, n: nat, ext: bool, params: OptParams, t: bytes)
    ensures ParseOptParams(PutMpExtCaps(caps, ext) + t, |caps| + n, ext, params)
         == ParseOptParams(t, n, ext, AddMpExtCaps(params, caps))
    decreases |caps|
  {
    hide ParseOptParam;
    if caps == [] {
      assert PutMpExtCaps(caps, ext) + t == t;
    } else {
      var r := PutMpExtCaps(caps[1..], ext) + t;
      assert PutMpExtCaps(caps, ext) + t == PutMpExtCap(caps[0], ext) + r;
      MpExtCapBack(caps[0], ext, r);
      MpExtCapsBack(caps[1..], n, ext, AddParam(params, MpExt(caps[0])), t);
    }
  }

  lemma {:induction false} FourOctetAsTimesBack(asNum: uint32, n: nat, ext: bool, params: OptParams, t: bytes)
    requires n > 0
    ensures ParseOptParams(PutFourOctetAsTimes(asNum, n, ext) + t, n, ext, params)
         == Ok(params.(fourOctetAs := Some(asNum)), t)
    decreases n
  {
    hide ParseOptParam;
    var r := PutFourOctetAsTimes(asNum, n - 1, ext) + t;
    assert PutFourOctetAsTimes(asNum, n, ext) + t == PutFourOctetAs(asNum, ext) + r;
    FourOctetAsBack(asNum, ext, r);
    if n > 1 {
      FourOctetAsTimesBack(asNum, n - 1, ext, params.(fourOctetAs := Some(asNum)), t);
    } else {
      assert r == t;
    }
  }

  lemma {:induction false} AddMpExtCapsToSome(params: OptParams, caps: seq<MpExtCap>)
    requires params.mpExtCaps.Some?
    ensures AddMpExtCaps(params, caps) == params.(mpExtCaps := Some(params.mpExtCaps.value + caps))
    decreases |caps|
  {
    if caps != [] {
      AddMpExtCapsToSome(AddParam(params, MpExt(caps[0])), caps[1..]);
      assert params.mpExtCaps.value + [caps[0]] + caps[1..] == params.mpExtCaps.value + caps;
    } else {
      assert params.mpExtCaps.value + caps == params.mpExtCaps.value;
    }
  }

  lemma OptParamsBack(params: OptParams, n: nat, ext: bool, t: bytes)
    requires WellFormedParams(params, n)
    ensures ParseOptParams(PutOptParams(params, n, ext) + t, n, ext, NO_PARAMS) == Ok(params, t)
  {
    hide ParseOptParam, PutMpExtCap, PutFourOctetAs, PutMpExtCaps, PutFourOctetAsTimes;
    var caps := Caps(params);
    var read := AddMpExtCaps(NO_PARAMS, caps);
    if caps != [] {
      AddMpExtCapsToSome(AddParam(NO_PARAMS, MpExt(caps[0])), caps[1..]);
      assert [] + [caps[0]] + caps[1..] == caps;
    }
    assert read == params.(fourOctetAs := None);
    if params.fourOctetAs.Some? {
      var r := PutFourOctetAsTimes(params.fourOctetAs.value, n - |caps|, ext) + t;
      assert PutOptParams(params, n, ext) + t == PutMpExtCaps(caps, ext) + r;
      MpExtCapsBack(caps, n - |caps|, ext, NO_PARAMS, r);
      FourOctetAsTimesBack(params.fourOctetAs.value, n - |caps|, ext, read, t);
    } else {
      assert PutOptParams(params, n, ext) + t == PutMpExtCaps(caps, ext) + t;
      MpExtCapsBack(caps, 0, ext, NO_PARAMS, t);
    }
  }

  lemma OpenHeadBack(h: OpenHead, t: bytes)
    requires h.version == 4 && AcceptableHoldTime(h.holdTime)
    ensures ParseOpenHead(PutOpenHead(h) + t) == Ok(h, t)
  {
    var r5 := [0, 0] + t;
    var r4 := PutU16(h.holdTime) + r5;
    var r3 := [0, 0] + r4;
    var r2 := PutU16(h.asNumber) + r3;
    var r1 := [0, 0, 0] + r2;
    assert PutOpenHead(h) + t == [h.version] + r1;
    U8Front(h.version, r1);
    TakeBytesFront([0, 0, 0], r2);
    U16Front(h.asNumber, r3);
    TakeBytesFront([0, 0], r4);
    U16Front(h.holdTime, r5);
    TakeBytesFront([0, 0], t);
  }

  /** Any four octets are the octets of the number they spell. */
  lemma Octets4Back(id: Octets4, t: bytes)
    ensures var p := U32(id + t); p.Ok? && PutU32(p.value) == id && p.rest == t
  {
    PairDigits(id[0], id[1]);
    PairDigits(id[2], id[3]);
    QuadDigits(Pair(id[0], id[1]), Pair(id[2], id[3]));
    assert (id + t)[2..][2..] == t;
  }

  lemma OpenFormBack(f: OpenForm, t: bytes)
    requires AcceptableIdentifier(f.id)
    requires !f.ext ==> f.len < 0x100
    ensures ParseOpenForm(PutOpenForm(f) + t) == Ok(f, t)
  {
    var first: byte, kind: byte := if f.ext then 0 else f.len, if f.ext then 255 else 0;
    var extLen: uint16 := if f.ext then f.len else 0;
    var r3 := PutU16(extLen) + t;
    var r2 := [kind] + r3;
    var r1 := [first] + r2;
    assert PutOpenForm(f) + t == f.id + r1;
    Octets4Back(f.id, r1);
    U8Front(first, r2);
    U8Front(kind, r3);
    U16Front(extLen, t);
  }

  /** Decoding a printed OPEN gives it back and reads nothing after it. */
  lemma OpenBack(m: OpenMsg, t: bytes)
    requires WellFormedOpen(m)
    ensures ParseOpen(PutOpen(m) + t) == Ok(m, t)
  {
    var head := OpenHead(m.version, m.asNumber, m.holdTime);
    var form := OpenForm(m.bgpIdentifier, m.extOptParam, m.optParamsLen);
    var r2 := PutOptParams(m.optParams, m.optParamsLen, m.extOptParam) + t;
    var r1 := PutOpenForm(form) + r2;
    assert PutOpen(m) + t == PutOpenHead(head) + r1;
    OpenHeadBack(head, r1);
    OpenFormBack(form, r2);
    OptParamsBack(m.optParams, m.optParamsLen, m.extOptParam, t);
  }

  // ---------------------------------------------------------------- what OPEN decoding produces

  lemma {:induction false} OptParamsShape(b: bytes, n: nat, ext: bool, params: OptParams)
    requires params.mpExtCaps.Some? ==> params.mpExtCaps.value != []
    ensures var p := ParseOptParams(b, n, ext, params);
      p.Ok? ==>
        && (p.value.mpExtCaps.Some? ==> p.value.mpExtCaps.value != [])
        && |Caps(params)| <= |Caps(p.value)| <= |Caps(params)| + n
        && (params.fourOctetAs.Some? ==> p.value.fourOctetAs.Some?)
        && (params.fourOctetAs.None? ==>
              if p.value.fourOctetAs.Some? then |Caps(p.value)| < |Caps(params)| + n
              else |Caps(p.value)| == |Caps(params)| + n)
    decreases n
  {
    hide ParseOptParam;
    if n > 0 {
      var p := ParseOptParam(b, ext);
      if p.Ok? {
        OptParamsShape(p.rest, n - 1, ext, AddParam(params, p.value));
      }
    }
  }

  lemma OpenShape(b: bytes)
    ensures ParseOpen(b).Ok? ==> WellFormedOpen(ParseOpen(b).value)
  {
    var head := ParseOpenHead(b);
    if head.Ok? {
      var form := ParseOpenForm(head.rest);
      if form.Ok? {
        OptParamsShape(form.rest, form.value.len, form.value.ext, NO_PARAMS);
      }
    }
  }

  /** Exactly the well-formed OPEN messages are ever decoded. */
  lemma OpenImage(m: OpenMsg)
    ensures WellFormedOpen(m) <==> exists b, t :: ParseOpen(b) == Ok(m, t)
  {
    if WellFormedOpen(m) {
      OpenBack(m, []);
    }
    forall b, t | ParseOpen(b) == Ok(m, t)
      ensures WellFormedOpen(m)
    {
      OpenShape(b);
    }
  }

  // ---------------------------------------------------------------- UPDATE

  lemma CidrBack(c: Cidr, t: bytes)
    requires WellFormedCidr(c)
    ensures ParseCidr(PutCidr(c) + t) == Ok(c, t)
  {
    var n := PaddedLength(c.length);
    var all := c.prefix.Octets();
    assert PutCidr(c) + t == [c.length] + (all[..n] + t);
    U8Front(c.length, all[..n] + t);
    TakeBytesFront(all[..n], t);
    assert all[..n] + Zeros(|all| - n) == all;
  }

  lemma {:induction false} CidrsBack(cs: seq<Cidr>)
    requires forall c <- cs :: WellFormedCidr(c)
    ensures ParseCidrs(PutCidrs(cs)) == Ok(cs, [])
    decreases |cs|
  {
    hide ParseCidr;
    if cs != [] {
      CidrBack(cs[0], PutCidrs(cs[1..]));
      CidrsBack(cs[1..]);
      assert [cs[0]] + cs[1..] == cs;
    }
  }

  lemma FlagsBack(f: AttrFlags, t: bytes)
    ensures ParseFlags(PutFlags(f) + t) == Ok(f, t)
  {
    U8Front(PutFlags(f)[0], t);
  }

  lemma {:induction false} AsNumbersBack(numbers: seq<uint32>, t: bytes)
    requires Narrow(numbers)
    ensures ParseAsNumbers(PutAsNumbers(numbers) + t, |numbers|) == Ok(numbers, t)
    decreases |numbers|
  {
    if numbers == [] {
      assert PutAsNumbers(numbers) + t == t;
    } else {
      var r := PutAsNumbers(numbers[1..]) + t;
      assert PutAsNumbers(numbers) + t == PutU16(numbers[0]) + r;
      U16Front(numbers[0], r);
      AsNumbersBack(numbers[1..], t);
      assert [numbers[0]] + numbers[1..] == numbers;
    }
  }

  lemma AsPathSegmentBack(s: AsPathSegment, attrLen: uint16, t: bytes)
    requires s.segmentLength as int == |s.segmentValue| && Narrow(s.segmentValue)
    requires attrLen == s.segmentLength as int * 2 + 2
    ensures var code: byte := if s.segmentType == AsSet then 1 else 2;
      ParseAsPathSegment([code] + ([s.segmentLength] + PutAsNumbers(s.segmentValue)) + t, attrLen) == Ok(s, t)
  {
    var code: byte := if s.segmentType == AsSet then 1 else 2;
    var r2 := PutAsNumbers(s.segmentValue) + t;
    var r1 := [s.segmentLength] + r2;
    assert [code] + ([s.segmentLength] + PutAsNumbers(s.segmentValue)) + t == [code] + r1;
    U8Front(code, r1);
    U8Front(s.segmentLength, r2);
    AsNumbersBack(s.segmentValue, t);
  }

  lemma AggregatorBack(asNum: uint32, ip: Octets4, fourOctets: bool, t: bytes)
    requires !fourOctets ==> asNum < 0x1_0000
    ensures ParseAggregator((if fourOctets then PutU32(asNum) else PutU16(asNum)) + ip + t, fourOctets)
         == Ok(Aggregator(asNum, ip), t)
  {
    var number := if fourOctets then PutU32(asNum) else PutU16(asNum);
    assert number + ip + t == number + (ip + t);
    if fourOctets { U32Front(asNum, ip + t); } else { U16Front(asNum, ip + t); }
    TakeBytesFront(ip, t);
  }

  lemma AttrValueBack(v: AttrValue, fourOctets: bool, code: byte, attrLen: uint16, t: bytes)
    requires WellFormedValue(v, fourOctets, code, attrLen)
    ensures ParseAttrValue(PutAttrValue(v, fourOctets, code, attrLen) + t, fourOctets, code, attrLen) == Ok(v, t)
  {
    hide ParseAsPathSegment, ParseAggregator;
    match v
    case OriginValue(_) => U8Front(PutAttrValue(v, fourOctets, code, attrLen)[0], t);
    case AsPath(s) => AsPathSegmentBack(s, attrLen, t);
    case NextHop(hop) => TakeBytesFront(hop, t);
    case MultiExitDisc(metric) => U32Front(metric, t);
    case LocalPref(preference) => U32Front(preference, t);
    case AtomicAggregate => assert [] + t == t;
    case Aggregator(asNum, ip) => AggregatorBack(asNum, ip, fourOctets, t);
    case Unknown(raw) => TakeBytesFront(raw, t);
  }

  lemma AttributeBack(a: PathAttribute, fourOctets: bool, t: bytes)
    requires WellFormedAttribute(a, fourOctets)
    ensures ParseAttribute(PutAttribute(a, fourOctets) + t, fourOctets) == Ok(a, t)
  {
    hide ParseAttrValue, ParseFlags, PutAttrValue;
    var r3 := PutAttrValue(a.value, fourOctets, a.typeCode, a.attrLen) + t;
    var r2 := PutLength(a.attrLen, a.flags.extendedLength) + r3;
    var r1 := [a.typeCode] + r2;
    assert PutAttribute(a, fourOctets) + t == PutFlags(a.flags) + r1;
    FlagsBack(a.flags, r1);
    U8Front(a.typeCode, r2);
    LengthBack(a.attrLen, a.flags.extendedLength, r3);
    AttrValueBack(a.value, fourOctets, a.typeCode, a.attrLen, t);
  }

  lemma {:induction false} AttributesBack(attrs: seq<PathAttribute>, fourOctets: bool)
    requires forall a <- attrs :: WellFormedAttribute(a, fourOctets)
    ensures ParseAttributes(PutAttributes(attrs, fourOctets), fourOctets) == Ok(attrs, [])
    decreases |attrs|
  {
    hide ParseAttribute, PutAttribute;
    if attrs != [] {
      AttributeBack(attrs[0], fourOctets, PutAttributes(attrs[1..], fourOctets));
      AttributesBack(attrs[1..], fourOctets);
      assert [attrs[0]] + attrs[1..] == attrs;
    }
  }

  lemma {:induction false} NlriBack(ws: seq<WireReach>)
    requires forall w <- ws :: WellFormedCidr(w.cidr)
    ensures ParseNlri(PutNlri(ws)) == Ok(KeptAll(ws), [])
    decreases |ws|
  {
    hide ParseCidr;
    if ws != [] {
      var r := PutNlri(ws[1..]);
      assert PutNlri(ws) == [ws[0].length] + (PutCidr(ws[0].cidr) + r);
      U8Front(ws[0].length, PutCidr(ws[0].cidr) + r);
      CidrBack(ws[0].cidr, r);
      NlriBack(ws[1..]);
    }
  }

  /** Decoding a printed UPDATE gives it back whatever second lengths its NLRI was printed with. */
  lemma UpdateBack(m: UpdateMsg, ws: seq<WireReach>, fourOctets: bool)
    requires WellFormedUpdate(m, fourOctets)
    requires forall w <- ws :: WellFormedCidr(w.cidr)
    requires m.nlri == KeptAll(ws)
    ensures ParseUpdate(PutUpdateAs(m, ws, fourOctets), fourOctets) == Ok(m, [])
  {
    hide ParseCidrs, ParseAttributes, ParseNlri, PutCidrs, PutAttributes, PutNlri;
    var w := PutCidrs(m.withdrawn);
    var a := PutAttributes(m.attributes, fourOctets);
    var r := PutU16(|a|) + (a + PutNlri(ws));
    SectionFront(w, r);
    CidrsBack(m.withdrawn);
    SectionFront(a, PutNlri(ws));
    AttributesBack(m.attributes, fourOctets);
    NlriBack(ws);
  }

  // ---------------------------------------------------------------- what UPDATE decoding produces

  lemma U16Split(b: bytes)
    ensures var p := U16(b); p.Ok? ==> PutU16(p.value) + p.rest == b
  {
    if |b| >= 2 {
      PairDigits(b[0], b[1]);
    }
  }

  lemma SectionSplit(b: bytes)
    ensures var p := Section(b); p.Ok? ==> PutU16(|p.value|) + (p.value + p.rest) == b
  {
    U16Split(b);
  }

  /** A decoded prefix entry is well formed and prints as the octets it was decoded from. */
  lemma CidrShape(b: bytes)
    ensures var p := ParseCidr(b); p.Ok? ==> WellFormedCidr(p.value) && PutCidr(p.value) + p.rest == b
  {
    var p := ParseCidr(b);
    if p.Ok? {
      var n := PaddedLength(b[0]);
      assert p.value.prefix.Octets()[..n] == b[1..][..n];
      assert b == [b[0]] + (b[1..][..n] + b[1..][n..]);
    }
  }

  lemma {:induction false} CidrsShape(b: bytes)
    ensures var p := ParseCidrs(b);
      p.Ok? ==> (forall c <- p.value :: WellFormedCidr(c)) && PutCidrs(p.value) == b
    decreases |b|
  {
    hide ParseCidr, WellFormedCidr, PutCidr;
    if ParseCidrs(b).Ok? && b != [] {
      var c := ParseCidr(b);
      CidrShape(b);
      CidrsShape(c.rest);
      assert ParseCidrs(b).value == [c.value] + ParseCidrs(c.rest).value;
    }
  }

  lemma {:induction false} AsNumbersShape(b: bytes, n: nat)
    ensures var p := ParseAsNumbers(b, n); p.Ok? ==> Narrow(p.value)
    decreases n
  {
    if n > 0 && U16(b).Ok? {
      AsNumbersShape(U16(b).rest, n - 1);
    }
  }

  lemma AsPathShape(b: bytes, attrLen: uint16)
    ensures var p := ParseAsPathSegment(b, attrLen);
      p.Ok? ==> WellFormedValue(AsPath(p.value), true, 2, attrLen) && |p.rest| + attrLen == |b|
  {
    var p := ParseAsPathSegment(b, attrLen);
    if p.Ok? {
      AsNumbersShape(ParseSegmentType(b).rest[1..], p.value.segmentLength);
    }
  }

  lemma AggregatorShape(b: bytes, fourOctets: bool)
    ensures var p := ParseAggregator(b, fourOctets);
      p.Ok? ==>
        && p.value.Aggregator?
        && (!fourOctets ==> p.value.asNum < 0x1_0000)
        && |p.rest| + (if fourOctets then 8 else 6) == |b|
  {
    hide U32, PutU16, PutU32;
  }

  lemma AttrValueShape(b: bytes, fourOctets: bool, code: byte, attrLen: uint16)
    ensures var p := ParseAttrValue(b, fourOctets, code, attrLen);
      p.Ok? ==>
        && WellFormedValue(p.value, fourOctets, code, attrLen)
        && |PutAttrValue(p.value, fourOctets, code, attrLen)| + |p.rest| == |b|
  {
    hide ParseAsPathSegment, ParseAggregator, U16, U32, PutU16, PutU32;
    if code == 2 {
      AsPathShape(b, attrLen);
    }
    AggregatorShape(b, fourOctets);
  }

  lemma AttributeShape(b: bytes, fourOctets: bool)
    ensures var p := ParseAttribute(b, fourOctets);
      p.Ok? ==> WellFormedAttribute(p.value, fourOctets) && |PutAttribute(p.value, fourOctets)| + |p.rest| == |b|
  {
    hide ParseAttrValue, PutAttrValue, WellFormedValue;
    var flags := ParseFlags(b);
    if flags.Ok? && U8(flags.rest).Ok? {
      var code := U8(flags.rest);
      var wide := flags.value.extendedLength;
      if wide && U16(code.rest).Ok? {
        AttrValueShape(U16(code.rest).rest, fourOctets, code.value, U16(code.rest).value);
      } else if !wide && U8(code.rest).Ok? {
        AttrValueShape(U8(code.rest).rest, fourOctets, code.value, U8(code.rest).value);
      }
    }
  }

  lemma {:induction false} AttributesShape(b: bytes, fourOctets: bool)
    ensures var p := ParseAttributes(b, fourOctets);
      p.Ok? ==>
        && (forall a <- p.value :: WellFormedAttribute(a, fourOctets))
        && |PutAttributes(p.value, fourOctets)| == |b|
    decreases |b|
  {
    hide ParseAttribute, WellFormedAttribute, PutAttribute;
    if ParseAttributes(b, fourOctets).Ok? && b != [] {
      var a := ParseAttribute(b, fourOctets);
      AttributeShape(b, fourOctets);
      AttributesShape(a.rest, fourOctets);
      assert ParseAttributes(b, fourOctets).value == [a.value] + ParseAttributes(a.rest, fourOctets).value;
    }
  }

  lemma UpdateShape(b: bytes, fourOctets: bool)
    ensures var p := ParseUpdate(b, fourOctets); p.Ok? ==> WellFormedUpdate(p.value, fourOctets)
  {
    hide ParseCidrs, ParseAttributes, ParseNlri, PutCidrs, PutAttributes, WellFormedCidr, WellFormedAttribute;
    var w := Section(b);
    if ParseUpdate(b, fourOctets).Ok? {
      CidrsShape(w.value);
      AttributesShape(Section(w.rest).value, fourOctets);
    }
  }

  /** Exactly the well-formed UPDATE messages are ever decoded. */
  lemma UpdateImage(m: UpdateMsg, fourOctets: bool)
    ensures WellFormedUpdate(m, fourOctets) <==> exists b :: ParseUpdate(b, fourOctets) == Ok(m, [])
  {
    hide ParseUpdate, WellFormedUpdate;
    if WellFormedUpdate(m, fourOctets) {
      UpdateBack(m, WidestAll(m.nlri), fourOctets);
      assert ParseUpdate(PutUpdate(m, fourOctets), fourOctets) == Ok(m, []);
    }
    forall b | ParseUpdate(b, fourOctets) == Ok(m, [])
      ensures WellFormedUpdate(m, fourOctets)
    {
      UpdateShape(b, fourOctets);
    }
  }

  lemma UpdatePrinterInjective(m1: UpdateMsg, m2: UpdateMsg, fourOctets: bool)
    requires WellFormedUpdate(m1, fourOctets) && WellFormedUpdate(m2, fourOctets)
    requires PutUpdate(m1, fourOctets) == PutUpdate(m2, fourOctets)
    ensures m1 == m2
  {
    hide ParseUpdate, WellFormedUpdate;
    UpdateBack(m1, WidestAll(m1.nlri), fourOctets);
    UpdateBack(m2, WidestAll(m2.nlri), fourOctets);
  }

  // ---------------------------------------------------------------- conservation of octets

  lemma {:induction false} CidrsNeverFail(b: bytes)
    ensures !ParseCidrs(b).Fail?
    decreases |b|
  {
    if b != [] && ParseCidr(b).Ok? {
      CidrsNeverFail(ParseCidr(b).rest);
    }
  }

  lemma {:induction false} NlriNeverFails(b: bytes)
    ensures !ParseNlri(b).Fail?
    decreases |b|
  {
    if b != [] && ParseReach(b).Ok? {
      NlriNeverFails(ParseReach(b).rest);
    }
  }

  lemma {:induction false} AsNumbersNeverFail(b: bytes, n: nat)
    ensures !ParseAsNumbers(b, n).Fail?
    decreases n
  {
    if n > 0 && U16(b).Ok? {
      AsNumbersNeverFail(U16(b).rest, n - 1);
    }
  }

  /** The errors the loop over the attributes can end with. */
  predicate AttributeFault(p: Parsed<seq<PathAttribute>>) {
    p.Fail? ==> p.error.subcode in {AttributeLengthError, InvalidOriginAttribute, MalformedAsPath}
  }

  lemma AttrValueFails(b: bytes, fourOctets: bool, code: byte, attrLen: uint16)
    ensures var p := ParseAttrValue(b, fourOctets, code, attrLen);
      p.Fail? ==> p.error.subcode in {AttributeLengthError, InvalidOriginAttribute, MalformedAsPath}
  {
    var t := ParseSegmentType(b);
    if t.Ok? && U8(t.rest).Ok? {
      AsNumbersNeverFail(U8(t.rest).rest, U8(t.rest).value);
    }
  }

  lemma AttributeFails(b: bytes, fourOctets: bool)
    ensures var p := ParseAttribute(b, fourOctets);
      p.Fail? ==> p.error.subcode in {AttributeLengthError, InvalidOriginAttribute, MalformedAsPath}
  {
    hide ParseAttrValue;
    forall rest, code, attrLen {
      AttrValueFails(rest, fourOctets, code, attrLen);
    }
  }

  lemma {:induction false} AttributesFail(b: bytes, fourOctets: bool)
    ensures AttributeFault(ParseAttributes(b, fourOctets))
    decreases |b|
  {
    hide ParseAttribute;
    if b != [] {
      AttributeFails(b, fourOctets);
      if ParseAttribute(b, fourOctets).Ok? {
        AttributesFail(ParseAttribute(b, fourOctets).rest, fourOctets);
      }
    }
  }

  /** The length checks after the loops of `UpdateMsg::decode` never fail. */
  lemma UpdateLengthChecksHold(b: bytes, fourOctets: bool)
    ensures ParseUpdate(b, fourOctets) != Fail(UpdateError(MalformedAttributeList))
    ensures ParseUpdate(b, fourOctets) != Fail(UpdateError(InvalidNetworkField))
  {
    hide ParseCidrs, ParseAttributes, ParseNlri;
    var w := Section(b);
    if w.Ok? {
      CidrsNeverFail(w.value);
      var a := Section(w.rest);
      if a.Ok? {
        AttributesFail(a.value, fourOctets);
        NlriNeverFails(a.rest);
      }
    }
  }

  /** Every octet of the body belongs to a length field or to one of the three lists. */
  lemma UpdateConserves(b: bytes, fourOctets: bool) returns (w: bytes, a: bytes, n: bytes)
    requires ParseUpdate(b, fourOctets).Ok?
    ensures |w| < 0x1_0000 && |a| < 0x1_0000
    ensures b == PutU16(|w|) + (w + (PutU16(|a|) + (a + n)))
    ensures var m := ParseUpdate(b, fourOctets).value;
      && ParseCidrs(w) == Ok(m.withdrawn, [])
      && ParseAttributes(a, fourOctets) == Ok(m.attributes, [])
      && ParseNlri(n) == Ok(m.nlri, [])
  {
    hide ParseCidrs, ParseAttributes, ParseNlri;
    SectionSplit(b);
    var s := Section(b);
    SectionSplit(s.rest);
    w, a, n := s.value, Section(s.rest).value, Section(s.rest).rest;
  }
}
