/** A printer for every decoded value, written as the inverse of the decoders (`Message::encode` in
    the source builds an empty buffer), and the values it is meant for. */
module Printer {
  import opened Basics
  import opened Wire
  import opened Message

  // ---------------------------------------------------------------- OPEN

  function PutLength(n: uint16, wide: bool): (b: bytes)
    requires !wide ==> n < 0x100
    ensures |b| == if wide then 2 else 1
  {
    if wide then PutU16(n) else [n]
  }

  function PutMpExtCap(c: MpExtCap, ext: bool): (b: bytes)
    ensures |b| == if ext then 7 else 6
  {
    [1] + (PutLength(4, ext) + (PutU16(c.afi) + ([0] + [c.safi])))
  }

  function PutFourOctetAs(asNum: uint32, ext: bool): (b: bytes)
    ensures |b| == if ext then 7 else 6
  {
    [63] + (PutLength(4, ext) + PutU32(asNum))
  }

  function PutMpExtCaps(caps: seq<MpExtCap>, ext: bool): bytes {
    if caps == [] then [] else PutMpExtCap(caps[0], ext) + PutMpExtCaps(caps[1..], ext)
  }

  function PutFourOctetAsTimes(asNum: uint32, n: nat, ext: bool): bytes {
    if n == 0 then [] else PutFourOctetAs(asNum, ext) + PutFourOctetAsTimes(asNum, n - 1, ext)
  }

  /** The multiprotocol capabilities in order, then the four-octet AS capability as often as the
      parameter count still asks for. */
  function PutOptParams(params: OptParams, n: nat, ext: bool): bytes
    requires |Caps(params)| <= n
  {
    PutMpExtCaps(Caps(params), ext)
    + if params.fourOctetAs.Some? then PutFourOctetAsTimes(params.fourOctetAs.value, n - |Caps(params)|, ext) else []
  }

  function PutOpenHead(h: OpenHead): (b: bytes)
    ensures |b| == 12
  {
    [h.version] + ([0, 0, 0] + (PutU16(h.asNumber) + ([0, 0] + (PutU16(h.holdTime) + [0, 0]))))
  }

  function PutOpenForm(f: OpenForm): (b: bytes)
    requires !f.ext ==> f.len < 0x100
    ensures |b| == 8
  {
    f.id + ((if f.ext then [0] else [f.len]) + ([if f.ext then 255 else 0] + PutU16(if f.ext then f.len else 0)))
  }

  predicate WellFormedParams(params: OptParams, n: nat) {
    && (params.mpExtCaps.Some? ==> params.mpExtCaps.value != [])
    && (if params.fourOctetAs.Some? then n > |Caps(params)| else n == |Caps(params)|)
  }

  /** The OPEN messages that exist on the wire. */
  predicate WellFormedOpen(m: OpenMsg) {
    && m.version == 4
    && m.asNumber < 0x1_0000
    && AcceptableHoldTime(m.holdTime)
    && AcceptableIdentifier(m.bgpIdentifier)
    && (!m.extOptParam ==> m.optParamsLen < 0x100)
    && WellFormedParams(m.optParams, m.optParamsLen)
  }

  function PutOpen(m: OpenMsg): bytes
    requires WellFormedOpen(m)
  {
    PutOpenHead(OpenHead(m.version, m.asNumber, m.holdTime))
    + (PutOpenForm(OpenForm(m.bgpIdentifier, m.extOptParam, m.optParamsLen))
       + PutOptParams(m.optParams, m.optParamsLen, m.extOptParam))
  }

  // ---------------------------------------------------------------- UPDATE

  /** A prefix of at most 128 bits in the family its length selects, with nothing set in the octets
      the length does not cover. */
  predicate WellFormedCidr(c: Cidr) {
    && c.length <= 128
    && (c.prefix.V4? <==> PaddedLength(c.length) <= 4)
    && forall i | PaddedLength(c.length) <= i < |c.prefix.Octets()| :: c.prefix.Octets()[i] == 0
  }

  function PutCidr(c: Cidr): (b: bytes)
    requires WellFormedCidr(c)
    ensures |b| == 1 + PaddedLength(c.length)
  {
    [c.length] + c.prefix.Octets()[..PaddedLength(c.length)]
  }

  function PutCidrs(cs: seq<Cidr>): bytes
    requires forall c <- cs :: WellFormedCidr(c)
  {
    if cs == [] then [] else PutCidr(cs[0]) + PutCidrs(cs[1..])
  }

  function Weight(bit: bool, weight: byte): byte {
    if bit then weight else 0
  }

  function PutFlags(f: AttrFlags): (b: bytes)
    ensures |b| == 1
  {
    var flags: int := Weight(f.optional, 128);
    [flags + Weight(f.transitive, 64) + Weight(f.partial, 32) + Weight(f.extendedLength, 16)]
  }

  predicate Narrow(numbers: seq<uint32>) {
    forall i | 0 <= i < |numbers| :: numbers[i] < 0x1_0000
  }

  function PutAsNumbers(numbers: seq<uint32>): (b: bytes)
    requires Narrow(numbers)
    ensures |b| == 2 * |numbers|
  {
    if numbers == [] then [] else PutU16(numbers[0]) + PutAsNumbers(numbers[1..])
  }

  /** The value fits its type code, and its length where the decoder checks the length. */
  predicate WellFormedValue(v: AttrValue, fourOctets: bool, code: byte, attrLen: uint16) {
    match v
    case OriginValue(_) => code == 1 && attrLen == 1
    case AsPath(s) =>
      && code == 2
      && attrLen == s.segmentLength as int * 2 + 2
      && s.segmentLength as int == |s.segmentValue|
      && Narrow(s.segmentValue)
    case NextHop(_) => code == 3 && attrLen == 4
    case MultiExitDisc(_) => code == 4
    case LocalPref(_) => code == 5
    case AtomicAggregate => code == 6
    case Aggregator(asNum, _) => code == 7 && (!fourOctets ==> asNum < 0x1_0000)
    case Unknown(raw) => (code == 0 || code > 7) && |raw| == attrLen
  }

  function PutAttrValue(v: AttrValue, fourOctets: bool, code: byte, attrLen: uint16): bytes
    requires WellFormedValue(v, fourOctets, code, attrLen)
  {
    match v
    case OriginValue(o) => [if o == Igp then 0 else if o == Egp then 1 else 2]
    case AsPath(s) => [if s.segmentType == AsSet then 1 else 2] + ([s.segmentLength] + PutAsNumbers(s.segmentValue))
    case NextHop(hop) => hop
    case MultiExitDisc(metric) => PutU32(metric)
    case LocalPref(preference) => PutU32(preference)
    case AtomicAggregate => []
    case Aggregator(asNum, ip) => (if fourOctets then PutU32(asNum) else PutU16(asNum)) + ip
    case Unknown(raw) => raw
  }

  predicate WellFormedAttribute(a: PathAttribute, fourOctets: bool) {
    && (!a.flags.extendedLength ==> a.attrLen < 0x100)
    && WellFormedValue(a.value, fourOctets, a.typeCode, a.attrLen)
  }

  function PutAttribute(a: PathAttribute, fourOctets: bool): bytes
    requires WellFormedAttribute(a, fourOctets)
  {
    PutFlags(a.flags)
    + ([a.typeCode]
       + (PutLength(a.attrLen, a.flags.extendedLength)
          + PutAttrValue(a.value, fourOctets, a.typeCode, a.attrLen)))
  }

  function PutAttributes(attrs: seq<PathAttribute>, fourOctets: bool): bytes
    requires forall a <- attrs :: WellFormedAttribute(a, fourOctets)
  {
    if attrs == [] then [] else PutAttribute(attrs[0], fourOctets) + PutAttributes(attrs[1..], fourOctets)
  }

  /** An NLRI entry on the wire: its own length octet and a whole prefix entry. The decoder keeps
      the first length and the prefix, and forgets the second length. */
  datatype WireReach = WireReach(length: byte, cidr: Cidr)
  {
    function Kept(): Reach {
      Reach(length, cidr.prefix)
    }
  }

  function PutReach(w: WireReach): bytes
    requires WellFormedCidr(w.cidr)
  {
    [w.length] + PutCidr(w.cidr)
  }

  function PutNlri(ws: seq<WireReach>): bytes
    requires forall w <- ws :: WellFormedCidr(w.cidr)
  {
    if ws == [] then [] else PutReach(ws[0]) + PutNlri(ws[1..])
  }

  function KeptAll(ws: seq<WireReach>): (rs: seq<Reach>)
    ensures |rs| == |ws|
  {
    if ws == [] then [] else [ws[0].Kept()] + KeptAll(ws[1..])
  }

  /** The widest second length: it covers every prefix of its family. */
  function Widest(r: Reach): (w: WireReach)
    ensures WellFormedCidr(w.cidr) && w.Kept() == r
  {
    WireReach(r.length, Cidr(if r.prefix.V4? then 32 else 128, r.prefix))
  }

  function WidestAll(rs: seq<Reach>): (ws: seq<WireReach>)
    ensures forall w <- ws :: WellFormedCidr(w.cidr)
    ensures KeptAll(ws) == rs
  {
    if rs == [] then [] else [Widest(rs[0])] + WidestAll(rs[1..])
  }

  /** The UPDATE messages that exist on the wire, for a peer that did or did not announce
      four-octet AS numbers. */
  predicate WellFormedUpdate(m: UpdateMsg, fourOctets: bool) {
    && (forall c <- m.withdrawn :: WellFormedCidr(c))
    && (forall a <- m.attributes :: WellFormedAttribute(a, fourOctets))
    && |PutCidrs(m.withdrawn)| < 0x1_0000
    && |PutAttributes(m.attributes, fourOctets)| < 0x1_0000
  }

  /** `m` with the NLRI written as `ws`, which fixes the lengths the decoder forgets. */
  function PutUpdateAs(m: UpdateMsg, ws: seq<WireReach>, fourOctets: bool): bytes
    requires WellFormedUpdate(m, fourOctets)
    requires forall w <- ws :: WellFormedCidr(w.cidr)
  {
    PutU16(|PutCidrs(m.withdrawn)|)
    + (PutCidrs(m.withdrawn)
       + (PutU16(|PutAttributes(m.attributes, fourOctets)|)
          + (PutAttributes(m.attributes, fourOctets) + PutNlri(ws))))
  }

  function PutUpdate(m: UpdateMsg, fourOctets: bool): bytes
    requires WellFormedUpdate(m, fourOctets)
  {
    PutUpdateAs(m, WidestAll(m.nlri), fourOctets)
  }
}
