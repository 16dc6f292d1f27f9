/**
  Bytes on the wire. The Rust code appends to and consumes `BytesMut` buffers;
  here a buffer's contents are a `seq<byte>`. Rust `str` values that travel in
  fixed-width fields are the bytes of the string.
 */
module Bytes {

  type byte = n: int | 0 <= n < 0x100
  type u16 = n: int | 0 <= n < 0x1_0000
  type u32 = n: int | 0 <= n < 0x1_0000_0000
  type u64 = n: int | 0 <= n < 0x1_0000_0000_0000_0000

  function PutU16(n: u16): (b: seq<byte>)
    ensures |b| == 2
  {
    [n / 0x100, n % 0x100]
  }

  function PutU32(n: u32): (b: seq<byte>)
    ensures |b| == 4
  {
    PutU16(n / 0x1_0000) + PutU16(n % 0x1_0000)
  }

  function PutU64(n: u64): (b: seq<byte>)
    ensures |b| == 8
  {
    PutU32(n / 0x1_0000_0000) + PutU32(n % 0x1_0000_0000)
  }

  function GetU16(b: seq<byte>): u16
    requires |b| >= 2
  {
    b[0] as int * 0x100 + b[1] as int
  }

  function GetU32(b: seq<byte>): u32
    requires |b| >= 4
  {
    GetU16(b) as int * 0x1_0000 + GetU16(b[2..]) as int
  }

  function GetU64(b: seq<byte>): u64
    requires |b| >= 8
  {
    GetU32(b) as int * 0x1_0000_0000 + GetU32(b[4..]) as int
  }

  lemma GetPutU16(n: u16, rest: seq<byte>)
    ensures GetU16(PutU16(n) + rest) == n
    ensures (PutU16(n) + rest)[2..] == rest
  {
  }

  lemma GetPutU32(n: u32, rest: seq<byte>)
    ensures GetU32(PutU32(n) + rest) == n
    ensures (PutU32(n) + rest)[4..] == rest
  {
    var hi, lo := n / 0x1_0000, n % 0x1_0000;
    assert n == hi * 0x1_0000 + lo;
    assert PutU32(n) + rest == PutU16(hi) + (PutU16(lo) + rest);
    GetPutU16(hi, PutU16(lo) + rest);
    GetPutU16(lo, rest);
  }

  lemma GetPutU64(n: u64, rest: seq<byte>)
    ensures GetU64(PutU64(n) + rest) == n
    ensures (PutU64(n) + rest)[8..] == rest
  {
    var hi, lo := n / 0x1_0000_0000, n % 0x1_0000_0000;
    assert n == hi * 0x1_0000_0000 + lo;
    assert PutU64(n) + rest == PutU32(hi) + (PutU32(lo) + rest);
    GetPutU32(hi, PutU32(lo) + rest);
    GetPutU32(lo, rest);
  }

  function Zeros(n: nat): (b: seq<byte>)
    ensures |b| == n
    ensures forall i :: 0 <= i < n ==> b[i] == 0
  {
    seq(n, _ => 0)
  }

  /** What `fill_bytes_zero` appends: the string cut or NUL-padded to the width. */
  function Pad(s: seq<byte>, width: nat): (b: seq<byte>)
    ensures |b| == width
  {
    if |s| >= width then s[..width] else s + Zeros(width - |s|)
  }

  /** `trim_end_matches(char::from(0))`. */
  function TrimNul(b: seq<byte>): (s: seq<byte>)
    ensures s <= b
    ensures |s| == 0 || s[|s| - 1] != 0
    ensures forall i :: |s| <= i < |b| ==> b[i] == 0
  {
    if |b| > 0 && b[|b| - 1] == 0 then TrimNul(b[..|b| - 1]) else b
  }

  /** The longest prefix without trailing NULs is the only one `TrimNul` can return. */
  lemma TrimNulUnique(b: seq<byte>, s: seq<byte>)
    requires s <= b
    requires |s| == 0 || s[|s| - 1] != 0
    requires forall i :: |s| <= i < |b| ==> b[i] == 0
    ensures TrimNul(b) == s
  {
    var t := TrimNul(b);
    assert |s| > 0 ==> b[|s| - 1] != 0;
    assert |t| > 0 ==> b[|t| - 1] != 0;
    assert s == b[..|s|] && t == b[..|t|];
  }

  /** What a padded field reads back as: the string cut to the width, without trailing NULs. */
  lemma TrimPad(s: seq<byte>, width: nat)
    ensures TrimNul(Pad(s, width)) == TrimNul(if |s| >= width then s[..width] else s)
  {
    if |s| < width {
      TrimNulUnique(Pad(s, width), TrimNul(s));
    }
  }
}
