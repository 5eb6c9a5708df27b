/** The read cursor the decoders advance, and the outcome of a decoder that advances one. */
module OctetsCursor {
  import opened Basics
  import opened Errors
  import opened Wire

  /** `crate::error::Result`, with the retried "buffer too short" error apart from the others. */
  datatype Result<+T> =
    | Value(value: T)
    | TooShort
    | Failed(error: Error)
    | Crashed
  {
    predicate IsFailure() {
      !Value?
    }

    function PropagateFailure<U>(): (r: Result<U>)
      requires !Value?
      ensures !r.Value?
    {
      match this
      case TooShort => TooShort
      case Failed(e) => Failed(e)
      case Crashed => Crashed
    }

    function Extract(): T
      requires Value?
    {
      value
    }
  }

  /** The result `r`, with `left` still unread, is what the parse `p` describes. What a failed
      decoder has read does not matter: every caller gives up the cursor with it. */
  ghost predicate Agrees<T>(r: Result<T>, left: bytes, p: Parsed<T>) {
    match p
    case Ok(v, rest) => r == Value(v) && left == rest
    case Short => r == TooShort
    case Fail(e) => r == Failed(e)
    case Crash => r == Crashed
  }

  class Octets {
    const buf: bytes
    var pos: nat

    ghost predicate Valid()
      reads this
    {
      pos <= |buf|
    }

    function Rest(): bytes
      requires Valid()
      reads this
    {
      buf[pos..]
    }

    constructor (b: bytes)
      ensures Valid() && buf == b && pos == 0 && Rest() == b
    {
      buf := b;
      pos := 0;
    }

    function Cap(): (n: nat)
      requires Valid()
      reads this
      ensures n == |Rest()|
    {
      |buf| - pos
    }

    method GetBytes(n: nat) returns (r: Result<bytes>)
      requires Valid()
      modifies this
      ensures Valid() && Agrees(r, Rest(), TakeBytes(old(Rest()), n))
    {
      if Cap() < n {
        return TooShort;
      }
      assert buf[pos..][..n] == buf[pos..pos + n] && buf[pos..][n..] == buf[pos + n..];
      r := Value(buf[pos..pos + n]);
      pos := pos + n;
    }

    method Skip(n: nat) returns (r: Result<bytes>)
      requires Valid()
      modifies this
      ensures Valid() && Agrees(r, Rest(), TakeBytes(old(Rest()), n))
    {
      r := GetBytes(n);
    }

    method GetU8() returns (r: Result<byte>)
      requires Valid()
      modifies this
      ensures Valid() && Agrees(r, Rest(), U8(old(Rest())))
    {
      if Cap() < 1 {
        return TooShort;
      }
      r := Value(buf[pos]);
      pos := pos + 1;
    }

    method GetU16() returns (r: Result<uint16>)
      requires Valid()
      modifies this
      ensures Valid() && Agrees(r, Rest(), U16(old(Rest())))
    {
      if Cap() < 2 {
        return TooShort;
      }
      PairDigits(buf[pos], buf[pos + 1]);
      r := Value(Pair(buf[pos], buf[pos + 1]));
      pos := pos + 2;
    }

    method GetU32() returns (r: Result<uint32>)
      requires Valid()
      modifies this
      ensures Valid() && Agrees(r, Rest(), U32(old(Rest())))
    {
      var hi :- GetU16();
      var lo :- GetU16();
      QuadDigits(hi, lo);
      r := Value(Quad(hi, lo));
    }

    method GetBytesWithU16Length() returns (r: Result<bytes>)
      requires Valid()
      modifies this
      ensures Valid() && Agrees(r, Rest(), Section(old(Rest())))
    {
      var n :- GetU16();
      r := GetBytes(n);
    }
  }
}
