/** Octets, fixed-width integers and the outcome of parsing a prefix of an octet sequence. */
module Wire {
  import opened Basics
  import opened Errors

  /** What reading a value off the front of an octet sequence can give.
      `Short` is the local-logic "buffer too short" error, the one error the caller retries on;
      `Crash` is an `unwrap` on an error or an arithmetic overflow. */
  datatype Parsed<+T> =
    | Ok(value: T, rest: bytes)
    | Short
    | Fail(error: Error)
    | Crash
  {
    predicate IsFailure() {
      !Ok?
    }

    function PropagateFailure<U>(): (p: Parsed<U>)
      requires !Ok?
      ensures !p.Ok?
    {
      match this
      case Short => Short
      case Fail(e) => Fail(e)
      case Crash => Crash
    }

    function Extract(): (T, bytes)
      requires Ok?
    {
      (value, rest)
    }
  }

  function TakeBytes(b: bytes, n: nat): (p: Parsed<bytes>)
    ensures p.Ok? ==> |p.value| == n && p.value + p.rest == b
    ensures p.Ok? <==> n <= |b|
  {
    if |b| < n then Short else Ok(b[..n], b[n..])
  }

  function U8(b: bytes): (p: Parsed<byte>)
    ensures p.Ok? ==> [p.value] + p.rest == b
    ensures p.Ok? <==> 1 <= |b|
  {
    if |b| < 1 then Short else Ok(b[0], b[1..])
  }

  function U16(b: bytes): (p: Parsed<uint16>)
    ensures p.Ok? ==> |p.rest| + 2 == |b|
    ensures p.Ok? <==> 2 <= |b|
  {
    if |b| < 2 then Short
    else
      PairDigits(b[0], b[1]);
      Ok(Pair(b[0], b[1]), b[2..])
  }

  function U32(b: bytes): (p: Parsed<uint32>)
    ensures p.Ok? ==> |p.rest| + 4 == |b|
    ensures p.Ok? <==> 4 <= |b|
  {
    var (hi, b1) :- U16(b);
    var (lo, b2) :- U16(b1);
    QuadDigits(hi, lo);
    Ok(Quad(hi, lo), b2)
  }

  /** The bytes behind a 16-bit length, as `octets::get_bytes_with_u16_length` gives them. */
  function Section(b: bytes): (p: Parsed<bytes>)
    ensures p.Ok? ==> |p.value| < 0x1_0000 && 2 + |p.value| + |p.rest| == |b|
  {
    var (n, rest) :- U16(b);
    TakeBytes(rest, n)
  }

  function PutU16(n: uint16): (b: bytes)
    ensures |b| == 2
  {
    [n / 0x100, n % 0x100]
  }

  function PutU32(n: uint32): (b: bytes)
    ensures |b| == 4
  {
    PutU16(n / 0x1_0000) + PutU16(n % 0x1_0000)
  }

  function Pair(hi: int, lo: int): int {
    hi * 0x100 + lo
  }

  function Quad(hi: int, lo: int): int {
    hi * 0x1_0000 + lo
  }

  lemma PairDigits(hi: byte, lo: byte)
    ensures Pair(hi, lo) / 0x100 == hi && Pair(hi, lo) % 0x100 == lo
    ensures 0 <= Pair(hi, lo) < 0x1_0000
  {
  }

  lemma QuadDigits(hi: uint16, lo: uint16)
    ensures Quad(hi, lo) / 0x1_0000 == hi && Quad(hi, lo) % 0x1_0000 == lo
    ensures 0 <= Quad(hi, lo) < 0x1_0000_0000
  {
  }

  function Zeros(n: nat): (b: bytes)
    ensures |b| == n
    ensures forall i | 0 <= i < n :: b[i] == 0
  {
    seq(n, _ => 0)
  }

  lemma TakeBytesFront(v: bytes, t: bytes)
    ensures TakeBytes(v + t, |v|) == Ok(v, t)
  {
  }

  lemma U8Front(v: byte, t: bytes)
    ensures U8([v] + t) == Ok(v, t)
  {
  }

  lemma U16Front(v: uint16, t: bytes)
    ensures U16(PutU16(v) + t) == Ok(v, t)
  {
  }

  lemma U32Front(v: uint32, t: bytes)
    ensures U32(PutU32(v) + t) == Ok(v, t)
  {
    assert PutU32(v) + t == PutU16(v / 0x1_0000) + (PutU16(v % 0x1_0000) + t);
    U16Front(v / 0x1_0000, PutU16(v % 0x1_0000) + t);
    U16Front(v % 0x1_0000, t);
  }

  lemma SectionFront(v: bytes, t: bytes)
    requires |v| < 0x1_0000
    ensures Section(PutU16(|v|) + (v + t)) == Ok(v, t)
  {
    U16Front(|v|, v + t);
    TakeBytesFront(v, t);
  }

  /** A list parsed from `rest` after `front` was already collected. */
  function Prepend<T>(front: seq<T>, p: Parsed<seq<T>>): Parsed<seq<T>> {
    match p
    case Ok(v, rest) => Ok(front + v, rest)
    case _ => p
  }
}
