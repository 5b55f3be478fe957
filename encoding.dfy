/** Encoding.ASCII.GetBytes and Convert.ToBase64String: the two library calls that turn
    the credential string into the parameter of an HTTP Basic Authorization header.
    Base64 follows section 4 of RFC 4648 (alphabet A-Z a-z 0-9 + /, '=' padding, no line
    breaks); a decoder is given beside the encoder so that the encoding can be shown to
    lose nothing. */
module Encoding {
  import opened Wrappers

  type Byte = b: int | 0 <= b < 256

  /** A 6-bit group, the index of one base64 character. */
  type Sextet = i: int | 0 <= i < 64

  const Pad: char := '='

  /** The number of UTF-16 code units of a character: two for one above U+FFFF, which the
      .NET string holds as a surrogate pair. */
  function CodeUnits(c: char): nat {
    if c as int < 0x1_0000 then 1 else 2
  }

  /** The number of UTF-16 code units of a string, its .NET Length. */
  function CodeUnitCount(s: string): nat
    decreases |s|
  {
    if |s| == 0 then 0 else CodeUnits(s[0]) + CodeUnitCount(s[1..])
  }

  /** Encoding.ASCII for one character: its code when below 128, else the code of '?' once
      for each of its UTF-16 code units. */
  function AsciiByte(c: char): (b: seq<Byte>)
    ensures |b| == CodeUnits(c)
    ensures c as int < 128 ==> b == [c as int]
    ensures c as int >= 128 ==> forall i :: 0 <= i < |b| ==> b[i] == '?' as int
  {
    if c as int < 128 then [c as int]
    else if c as int < 0x1_0000 then ['?' as int]
    else ['?' as int, '?' as int]
  }

  predicate IsAscii(s: string) {
    forall i :: 0 <= i < |s| ==> s[i] as int < 128
  }

  /** Encoding.ASCII.GetBytes(s): one byte per UTF-16 code unit, each character's bytes in order. */
  function AsciiBytes(s: string): (b: seq<Byte>)
    ensures |b| == CodeUnitCount(s)
    ensures IsAscii(s) ==> |b| == |s| && forall i :: 0 <= i < |s| ==> b[i] == s[i] as int
    decreases |s|
  {
    if |s| == 0 then []
    else
      assert IsAscii(s) ==> IsAscii(s[1..]) by {
        if IsAscii(s) {
          forall i | 0 <= i < |s[1..]| ensures s[1..][i] as int < 128 { assert s[1..][i] == s[i + 1]; }
        }
      }
      AsciiByte(s[0]) + AsciiBytes(s[1..])
  }

  /** The inverse of AsciiBytes on ASCII text: the characters the bytes are the codes of. */
  function AsciiText(b: seq<Byte>): (s: string)
    ensures |s| == |b|
  {
    seq(|b|, i requires 0 <= i < |b| => b[i] as char)
  }

  /** ASCII text survives the trip to bytes and back. */
  lemma AsciiRoundTrip(s: string)
    requires IsAscii(s)
    ensures AsciiText(AsciiBytes(s)) == s
  {
  }

  /** The base64 alphabet of RFC 4648, table 1. */
  function SextetChar(i: Sextet): (c: char)
    ensures c != Pad
  {
    if i < 26 then ('A' as int + i) as char
    else if i < 52 then ('a' as int + i - 26) as char
    else if i < 62 then ('0' as int + i - 52) as char
    else if i == 62 then '+'
    else '/'
  }

  /** The index of a base64 character, or None for a character outside the alphabet. */
  function SextetValue(c: char): (v: Option<Sextet>)
    ensures v.Some? ==> SextetChar(v.value) == c
  {
    if 'A' <= c <= 'Z' then Some(c as int - 'A' as int)
    else if 'a' <= c <= 'z' then Some(c as int - 'a' as int + 26)
    else if '0' <= c <= '9' then Some(c as int - '0' as int + 52)
    else if c == '+' then Some(62)
    else if c == '/' then Some(63)
    else None
  }

  lemma SextetRoundTrip(i: Sextet)
    ensures SextetValue(SextetChar(i)) == Some(i)
  {
  }

  /** Three bytes, 24 bits, as four characters of six bits each. */
  function EncodeTriple(b0: Byte, b1: Byte, b2: Byte): string {
    [SextetChar(b0 / 4), SextetChar(b0 % 4 * 16 + b1 / 16),
     SextetChar(b1 % 16 * 4 + b2 / 64), SextetChar(b2 % 64)]
  }

  /** Convert.ToBase64String(bytes): groups of three bytes become four characters; a final
      group of one or two bytes is padded with zero bits and then '=' to four characters. */
  function ToBase64(bytes: seq<Byte>): (s: string)
    ensures |s| == 4 * ((|bytes| + 2) / 3)
    decreases |bytes|
  {
    if |bytes| == 0 then ""
    else if |bytes| == 1 then
      [SextetChar(bytes[0] / 4), SextetChar(bytes[0] % 4 * 16), Pad, Pad]
    else if |bytes| == 2 then
      [SextetChar(bytes[0] / 4), SextetChar(bytes[0] % 4 * 16 + bytes[1] / 16),
       SextetChar(bytes[1] % 16 * 4), Pad]
    else EncodeTriple(bytes[0], bytes[1], bytes[2]) + ToBase64(bytes[3..])
  }

  /** The bytes whose bits four 6-bit groups carry, the last groups' spare bits dropped. */
  function Regroup(i0: int, i1: int, i2: int, i3: int, count: int): (b: seq<Byte>)
    requires 0 <= i0 < 64 && 0 <= i1 < 64 && 0 <= i2 < 64 && 0 <= i3 < 64
    requires 1 <= count <= 3
    ensures |b| == count
  {
    var all: seq<Byte> := [i0 * 4 + i1 / 16, i1 % 16 * 16 + i2 / 4, i2 % 4 * 64 + i3];
    all[..count]
  }

  /** Four alphabet characters back to three bytes. */
  function DecodeQuad(q: string): Option<seq<Byte>>
    requires |q| == 4
  {
    match (SextetValue(q[0]), SextetValue(q[1]), SextetValue(q[2]), SextetValue(q[3]))
    case (Some(i0), Some(i1), Some(i2), Some(i3)) =>
      Some(Regroup(i0, i1, i2, i3, 3))
    case _ => None
  }

  /** The last four characters, which may end in one or two '='. */
  function DecodeLast(q: string): Option<seq<Byte>>
    requires |q| == 4
  {
    if q[2] == Pad && q[3] == Pad then
      match (SextetValue(q[0]), SextetValue(q[1]))
      case (Some(i0), Some(i1)) => Some(Regroup(i0, i1, 0, 0, 1))
      case _ => None
    else if q[3] == Pad then
      match (SextetValue(q[0]), SextetValue(q[1]), SextetValue(q[2]))
      case (Some(i0), Some(i1), Some(i2)) => Some(Regroup(i0, i1, i2, 0, 2))
      case _ => None
    else DecodeQuad(q)
  }

  /** Convert.FromBase64String on unbroken text: None when the text is not base64. */
  function FromBase64(s: string): Option<seq<Byte>>
    decreases |s|
  {
    if |s| == 0 then Some([])
    else if |s| < 4 then None
    else if |s| == 4 then DecodeLast(s)
    else
      match (DecodeQuad(s[..4]), FromBase64(s[4..]))
      case (Some(head), Some(tail)) => Some(head + tail)
      case _ => None
  }

  lemma TripleRoundTrip(b0: Byte, b1: Byte, b2: Byte)
    ensures DecodeQuad(EncodeTriple(b0, b1, b2)) == Some([b0, b1, b2])
  {
    var i0, i1, i2, i3 := b0 / 4, b0 % 4 * 16 + b1 / 16, b1 % 16 * 4 + b2 / 64, b2 % 64;
    SextetRoundTrip(i0);
    SextetRoundTrip(i1);
    SextetRoundTrip(i2);
    SextetRoundTrip(i3);
    assert i1 / 16 == b0 % 4 && i1 % 16 == b1 / 16;
    assert i2 / 4 == b1 % 16 && i2 % 4 == b2 / 64;
    assert Regroup(i0, i1, i2, i3, 3) == [b0, b1, b2];
    var q := EncodeTriple(b0, b1, b2);
    assert q == [SextetChar(i0), SextetChar(i1), SextetChar(i2), SextetChar(i3)];
    assert DecodeQuad(q) == Some(Regroup(i0, i1, i2, i3, 3));
  }

  lemma SingleRoundTrip(b0: Byte)
    ensures FromBase64(ToBase64([b0])) == Some([b0])
  {
    var i0, i1 := b0 / 4, b0 % 4 * 16;
    SextetRoundTrip(i0);
    SextetRoundTrip(i1);
    assert i1 / 16 == b0 % 4;
    assert Regroup(i0, i1, 0, 0, 1) == [b0];
    var s := ToBase64([b0]);
    assert s == [SextetChar(i0), SextetChar(i1), Pad, Pad];
    assert DecodeLast(s) == Some(Regroup(i0, i1, 0, 0, 1));
  }

  lemma PairRoundTrip(b0: Byte, b1: Byte)
    ensures FromBase64(ToBase64([b0, b1])) == Some([b0, b1])
  {
    var i0, i1, i2 := b0 / 4, b0 % 4 * 16 + b1 / 16, b1 % 16 * 4;
    SextetRoundTrip(i0);
    SextetRoundTrip(i1);
    SextetRoundTrip(i2);
    assert i1 / 16 == b0 % 4 && i1 % 16 == b1 / 16;
    assert i2 / 4 == b1 % 16;
    assert Regroup(i0, i1, i2, 0, 2) == [b0, b1];
    var s := ToBase64([b0, b1]);
    assert s == [SextetChar(i0), SextetChar(i1), SextetChar(i2), Pad];
    assert DecodeLast(s) == Some(Regroup(i0, i1, i2, 0, 2));
  }

  /** Base64 loses nothing: decoding an encoding gives the bytes back. */
  lemma {:induction false} Base64RoundTrip(bytes: seq<Byte>)
    ensures FromBase64(ToBase64(bytes)) == Some(bytes)
    decreases |bytes|
  {
    Unpack(bytes);
    if |bytes| == 1 {
      SingleRoundTrip(bytes[0]);
    } else if |bytes| == 2 {
      PairRoundTrip(bytes[0], bytes[1]);
    } else if |bytes| == 3 {
      LastGroupRoundTrip(bytes[0], bytes[1], bytes[2]);
    } else if |bytes| > 3 {
      Base64RoundTrip(bytes[3..]);
      LeadingGroupRoundTrip(bytes);
    }
  }

  /** A final group of three bytes: four characters without padding. */
  lemma LastGroupRoundTrip(b0: Byte, b1: Byte, b2: Byte)
    ensures FromBase64(ToBase64([b0, b1, b2])) == Some([b0, b1, b2])
  {
    TripleRoundTrip(b0, b1, b2);
    assert ToBase64([b0, b1, b2]) == EncodeTriple(b0, b1, b2);
  }

  /** The step of the induction: a round trip of all but the first three bytes extends to
      all of them. */
  lemma LeadingGroupRoundTrip(bytes: seq<Byte>)
    requires |bytes| > 3
    requires FromBase64(ToBase64(bytes[3..])) == Some(bytes[3..])
    ensures FromBase64(ToBase64(bytes)) == Some(bytes)
  {
    Unpack(bytes);
    assert ToBase64(bytes) == EncodeTriple(bytes[0], bytes[1], bytes[2]) + ToBase64(bytes[3..]);
    GroupRoundTrip(bytes[0], bytes[1], bytes[2], ToBase64(bytes[3..]), bytes[3..]);
  }

  /** A byte sequence as its first elements and the rest. */
  lemma Unpack(bytes: seq<Byte>)
    ensures |bytes| == 1 ==> bytes == [bytes[0]]
    ensures |bytes| == 2 ==> bytes == [bytes[0], bytes[1]]
    ensures |bytes| == 3 ==> bytes == [bytes[0], bytes[1], bytes[2]]
    ensures |bytes| >= 3 ==> bytes == [bytes[0], bytes[1], bytes[2]] + bytes[3..]
  {
  }

  /** A leading group of three bytes decodes in front of the decoded rest. */
  lemma GroupRoundTrip(b0: Byte, b1: Byte, b2: Byte, tail: string, rest: seq<Byte>)
    requires |tail| >= 4 && FromBase64(tail) == Some(rest)
    ensures FromBase64(EncodeTriple(b0, b1, b2) + tail) == Some([b0, b1, b2] + rest)
  {
    var head := EncodeTriple(b0, b1, b2);
    assert |head| == 4;
    assert (head + tail)[..4] == head && (head + tail)[4..] == tail;
    TripleRoundTrip(b0, b1, b2);
  }
}
