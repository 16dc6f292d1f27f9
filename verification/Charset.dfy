/**
  Text on the wire: `encode_msg_content` and the strict decoders used by
  `decode_msg_content` (src/protocol/implements.rs). Format 0 is the string's
  UTF-8 bytes, format 8 is big-endian UTF-16.
 */
module Charset {
  import opened Bytes
  import opened Wrappers

  datatype Charset = Utf8 | Utf16

  /** The formats with a character set here; format 15 (GBK) is not modelled and every other one is an error. */
  function FormatCharset(format: byte): Option<Charset> {
    if format == 0 then Some(Utf8) else if format == 8 then Some(Utf16) else None
  }

  function EncodeChar(cs: Charset, c: char): (b: seq<byte>)
    ensures 1 <= |b| <= 4
  {
    var n := c as int;
    match cs
    case Utf16 =>
      if n < 0x1_0000 then PutU16(n)
      else PutU16(0xD800 + (n - 0x1_0000) / 0x400) + PutU16(0xDC00 + (n - 0x1_0000) % 0x400)
    case Utf8 =>
      if n < 0x80 then [n]
      else if n < 0x800 then [0xC0 + n / 0x40, 0x80 + n % 0x40]
      else if n < 0x1_0000 then [0xE0 + n / 0x1000, 0x80 + n / 0x40 % 0x40, 0x80 + n % 0x40]
      else [0xF0 + n / 0x4_0000, 0x80 + n / 0x1000 % 0x40, 0x80 + n / 0x40 % 0x40, 0x80 + n % 0x40]
  }

  predicate Scalar(n: int) {
    0 <= n < 0xD800 || 0xE000 <= n < 0x11_0000
  }

  /** Payload of a UTF-8 continuation byte. */
  function Low6(b: byte): int {
    b as int - 0x80
  }

  predicate Continues(b: seq<byte>, from: nat, to: nat) {
    to <= |b| && forall i :: from <= i < to ==> 0x80 <= b[i] < 0xC0
  }

  /** The first character of a byte string and its length, or nothing if the bytes are malformed or cut off. */
  function DecodeFirst(cs: Charset, b: seq<byte>): (r: Option<(char, nat)>)
    ensures r.Some? ==> 1 <= r.value.1 <= |b|
  {
    match cs
    case Utf16 => DecodeFirst16(b)
    case Utf8 => DecodeFirst8(b)
  }

  function DecodeFirst16(b: seq<byte>): (r: Option<(char, nat)>)
    ensures r.Some? ==> 1 <= r.value.1 <= |b|
  {
    if |b| < 2 then None
    else
      var u := GetU16(b) as int;
      if Scalar(u) then Some((u as char, 2))
      else if u >= 0xDC00 || |b| < 4 then None
      else
        var v := GetU16(b[2..]) as int;
        if v < 0xDC00 || v >= 0xE000 then None
        else Some(((0x1_0000 + (u - 0xD800) * 0x400 + (v - 0xDC00)) as char, 4))
  }

  function DecodeFirst8(b: seq<byte>): (r: Option<(char, nat)>)
    ensures r.Some? ==> 1 <= r.value.1 <= |b|
  {
    if b == [] then None
    else if b[0] < 0x80 then Some((b[0] as char, 1))
    else if b[0] < 0xC2 then None
    else if b[0] < 0xE0 then
      if Continues(b, 1, 2) then Some((((b[0] as int - 0xC0) * 0x40 + Low6(b[1])) as char, 2)) else None
    else if b[0] < 0xF0 then ThreeBytes(b)
    else if b[0] < 0xF5 then FourBytes(b)
    else None
  }

  function ThreeBytes(b: seq<byte>): (r: Option<(char, nat)>)
    requires |b| >= 1 && 0xE0 <= b[0] < 0xF0
    ensures r.Some? ==> r.value.1 == 3 <= |b|
  {
    if Continues(b, 1, 3) then
      var n := ((b[0] as int - 0xE0) * 0x40 + Low6(b[1])) * 0x40 + Low6(b[2]);
      if n >= 0x800 && Scalar(n) then Some((n as char, 3)) else None
    else None
  }

  function FourBytes(b: seq<byte>): (r: Option<(char, nat)>)
    requires |b| >= 1 && 0xF0 <= b[0] < 0xF5
    ensures r.Some? ==> r.value.1 == 4 <= |b|
  {
    if Continues(b, 1, 4) then
      var n := (((b[0] as int - 0xF0) * 0x40 + Low6(b[1])) * 0x40 + Low6(b[2])) * 0x40 + Low6(b[3]);
      if 0x1_0000 <= n < 0x11_0000 then Some((n as char, 4)) else None
    else None
  }

  function Encode(cs: Charset, s: string): seq<byte> {
    if s == [] then [] else EncodeChar(cs, s[0]) + Encode(cs, s[1..])
  }

  function Decode(cs: Charset, b: seq<byte>): Option<string>
    decreases |b|
  {
    if b == [] then Some([])
    else
      match DecodeFirst(cs, b)
      case None => None
      case Some((c, n)) =>
        match Decode(cs, b[n..])
        case None => None
        case Some(s) => Some([c] + s)
  }

  lemma DecodeFirst16OfEncode(c: char, rest: seq<byte>)
    ensures DecodeFirst16(EncodeChar(Utf16, c) + rest) == Some((c, |EncodeChar(Utf16, c)|))
  {
    var n := c as int;
    if n < 0x1_0000 {
      GetPutU16(n, rest);
    } else {
      var hi, lo := 0xD800 + (n - 0x1_0000) / 0x400, 0xDC00 + (n - 0x1_0000) % 0x400;
      var b := EncodeChar(Utf16, c) + rest;
      assert b == PutU16(hi) + (PutU16(lo) + rest);
      GetPutU16(hi, PutU16(lo) + rest);
      GetPutU16(lo, rest);
    }
  }

  lemma DecodeFirst8OfEncode(c: char, rest: seq<byte>)
    ensures DecodeFirst8(EncodeChar(Utf8, c) + rest) == Some((c, |EncodeChar(Utf8, c)|))
  {
    var n := c as int;
    assert n == n / 0x40 * 0x40 + n % 0x40;
    assert n / 0x40 == n / 0x1000 * 0x40 + n / 0x40 % 0x40;
    assert n / 0x1000 == n / 0x4_0000 * 0x40 + n / 0x1000 % 0x40;
  }

  lemma DecodeFirst16Sound(b: seq<byte>)
    requires DecodeFirst16(b).Some?
    ensures var (c, n) := DecodeFirst16(b).value; b[..n] == EncodeChar(Utf16, c)
  {
    var u := GetU16(b) as int;
    assert b[..2] == PutU16(u);
    if !Scalar(u) {
      var v := GetU16(b[2..]) as int;
      assert b[2..4] == b[2..][..2] == PutU16(v);
      assert b[..4] == b[..2] + b[2..4];
    }
  }

  lemma DecodeFirst8Sound(b: seq<byte>)
    requires DecodeFirst8(b).Some?
    ensures var (c, n) := DecodeFirst8(b).value; b[..n] == EncodeChar(Utf8, c)
  {
    if b[0] >= 0xF0 {
      FourBytesSound(b);
    } else if b[0] >= 0xE0 {
      ThreeBytesSound(b);
    } else if b[0] >= 0x80 {
      SixBits(b[0] as int - 0xC0, Low6(b[1]));
    }
  }

  lemma ThreeBytesSound(b: seq<byte>)
    requires |b| >= 1 && 0xE0 <= b[0] < 0xF0 && ThreeBytes(b).Some?
    ensures b[..3] == EncodeChar(Utf8, ThreeBytes(b).value.0)
  {
    TwelveBits(b[0] as int - 0xE0, Low6(b[1]), Low6(b[2]));
    assert b[..3] == [b[0], b[1], b[2]];
  }

  lemma FourBytesSound(b: seq<byte>)
    requires |b| >= 1 && 0xF0 <= b[0] < 0xF5 && FourBytes(b).Some?
    ensures b[..4] == EncodeChar(Utf8, FourBytes(b).value.0)
  {
    var n := FourBytes(b).value.0 as int;
    SixBits(b[0] as int - 0xF0, Low6(b[1]));
    TwelveBits((b[0] as int - 0xF0) * 0x40 + Low6(b[1]), Low6(b[2]), Low6(b[3]));
    assert n / 0x4_0000 == n / 0x1000 / 0x40;
    assert b[..4] == [b[0], b[1], b[2], b[3]];
  }

  lemma TwelveBits(x: int, y: int, z: int)
    requires 0 <= y < 0x40 && 0 <= z < 0x40
    ensures var n := (x * 0x40 + y) * 0x40 + z;
            n / 0x1000 == x && n / 0x40 % 0x40 == y && n % 0x40 == z
  {
    SixBits(x, y);
    SixBits(x * 0x40 + y, z);
  }

  lemma SixBits(a: int, b: int)
    requires 0 <= b < 0x40
    ensures (a * 0x40 + b) / 0x40 == a && (a * 0x40 + b) % 0x40 == b
  {
  }

  lemma DecodeFirstSound(cs: Charset, b: seq<byte>)
    requires DecodeFirst(cs, b).Some?
    ensures var (c, n) := DecodeFirst(cs, b).value; b[..n] == EncodeChar(cs, c)
  {
    match cs
    case Utf16 => DecodeFirst16Sound(b);
    case Utf8 => DecodeFirst8Sound(b);
  }

  lemma DecodeFirstOfEncode(cs: Charset, c: char, rest: seq<byte>)
    ensures DecodeFirst(cs, EncodeChar(cs, c) + rest) == Some((c, |EncodeChar(cs, c)|))
  {
    match cs
    case Utf16 => DecodeFirst16OfEncode(c, rest);
    case Utf8 => DecodeFirst8OfEncode(c, rest);
  }

  /** A valid text decodes to itself. */
  lemma {:induction false} DecodeEncode(cs: Charset, s: string)
    ensures Decode(cs, Encode(cs, s)) == Some(s)
  {
    if s != [] {
      var b, rest := EncodeChar(cs, s[0]), Encode(cs, s[1..]);
      DecodeFirstOfEncode(cs, s[0], rest);
      assert (b + rest)[|b|..] == rest;
      DecodeEncode(cs, s[1..]);
      assert [s[0]] + s[1..] == s;
    }
  }

  /** The first character's bytes are its encoding, and the rest decodes to the rest. */
  lemma DecodeStep(cs: Charset, b: seq<byte>) returns (c: char, tail: seq<byte>)
    requires b != [] && Decode(cs, b).Some?
    ensures b == EncodeChar(cs, c) + tail && |tail| < |b| && Decode(cs, tail).Some?
    ensures Decode(cs, b).value == [c] + Decode(cs, tail).value
  {
    var (first, n) := DecodeFirst(cs, b).value;
    DecodeFirstSound(cs, b);
    c, tail := first, b[n..];
    assert b == b[..n] + b[n..];
  }

  lemma EncodeCons(cs: Charset, c: char, t: string)
    ensures Encode(cs, [c] + t) == EncodeChar(cs, c) + Encode(cs, t)
  {
    assert ([c] + t)[1..] == t;
  }

  /** Whatever decodes is exactly the encoding of its result. */
  lemma {:induction false} DecodeSound(cs: Charset, b: seq<byte>)
    requires Decode(cs, b).Some?
    ensures Encode(cs, Decode(cs, b).value) == b
    decreases |b|
  {
    if b != [] {
      var c, tail := DecodeStep(cs, b);
      DecodeSound(cs, tail);
      EncodeCons(cs, c, Decode(cs, tail).value);
    }
  }

  lemma {:induction false} EncodeConcat(cs: Charset, s: string, t: string)
    ensures Encode(cs, s + t) == Encode(cs, s) + Encode(cs, t)
  {
    if s == [] {
      assert s + t == t;
    } else {
      assert (s + t)[1..] == s[1..] + t;
      EncodeConcat(cs, s[1..], t);
    }
  }

  lemma EncodeInjective(cs: Charset, s: string, t: string)
    requires Encode(cs, s) == Encode(cs, t)
    ensures s == t
  {
    DecodeEncode(cs, s);
    DecodeEncode(cs, t);
  }
}
