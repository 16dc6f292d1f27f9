/**
  Reading a `BytesMut` from the front. `get_u8`, `get_u64` and `advance` panic
  when the buffer is too short; `load_utf8_string` does not: it logs, consumes
  nothing and yields an empty string.
 */
module Cursor {
  import opened Bytes
  import opened Wrappers

  datatype Read<+T> = Panic | Got(value: T, rest: seq<byte>) {
    predicate IsFailure() {
      Panic?
    }
    function PropagateFailure<U>(): Read<U>
      requires Panic?
    {
      Panic
    }
    function Extract(): (T, seq<byte>)
      requires Got?
    {
      (value, rest)
    }
  }

  function GetByte(b: seq<byte>): Read<byte> {
    if |b| < 1 then Panic else Got(b[0], b[1..])
  }

  function GetWord(b: seq<byte>): Read<u32> {
    if |b| < 4 then Panic else Got(GetU32(b), b[4..])
  }

  function GetLong(b: seq<byte>): Read<u64> {
    if |b| < 8 then Panic else Got(GetU64(b), b[8..])
  }

  function Advance(b: seq<byte>, n: nat): Read<()> {
    if |b| < n then Panic else Got((), b[n..])
  }

  function CopyToBytes(b: seq<byte>, n: nat): (r: (seq<byte>, seq<byte>)) {
    if |b| >= n then (b[..n], b[n..]) else ([], b)
  }

  function LoadString(b: seq<byte>, width: nat): (r: (seq<byte>, seq<byte>)) {
    var (field, rest) := CopyToBytes(b, width);
    (TrimNul(field), rest)
  }

  /** A buffer as the decoders consume it; `None` and `false` stand for a panic, which leaves nothing to go on with. */
  class Buffer {
    var bytes: seq<byte>

    constructor (bytes: seq<byte>)
      ensures this.bytes == bytes
    {
      this.bytes := bytes;
    }

    method GetU8() returns (r: Option<byte>)
      modifies this
      ensures if |old(bytes)| < 1 then r == None else GetByte(old(bytes)) == Got(r.GetOr(0), bytes) && r.Some?
    {
      if |bytes| < 1 {
        return None;
      }
      r := Some(bytes[0]);
      bytes := bytes[1..];
    }

    method GetU64() returns (r: Option<u64>)
      modifies this
      ensures if |old(bytes)| < 8 then r == None else GetLong(old(bytes)) == Got(r.GetOr(0), bytes) && r.Some?
    {
      if |bytes| < 8 {
        return None;
      }
      var hi, lo := GetU32(bytes), GetU32(bytes[4..]);
      r := Some(hi as int * 0x1_0000_0000 + lo as int);
      bytes := bytes[8..];
    }

    method Skip(n: nat) returns (ok: bool)
      modifies this
      ensures ok <==> |old(bytes)| >= n
      ensures ok ==> Advance(old(bytes), n) == Got((), bytes)
    {
      ok := |bytes| >= n;
      if ok {
        bytes := bytes[n..];
      }
    }

    method Copy(n: nat) returns (field: seq<byte>)
      modifies this
      ensures (field, bytes) == CopyToBytes(old(bytes), n)
    {
      if |bytes| >= n {
        field, bytes := bytes[..n], bytes[n..];
      } else {
        field := [];
      }
    }

    /** `trim_end_matches` from the end, one NUL after the other. */
    method LoadUtf8String(width: nat) returns (s: seq<byte>)
      modifies this
      ensures (s, bytes) == LoadString(old(bytes), width)
    {
      s := Copy(width);
      ghost var field := s;
      while |s| > 0 && s[|s| - 1] == 0
        invariant TrimNul(s) == TrimNul(field)
      {
        s := s[..|s| - 1];
      }
    }
  }

  lemma ByteAt(x: byte, rest: seq<byte>)
    ensures GetByte([x] + rest) == Got(x, rest)
  {
  }

  lemma WordAt(n: u32, rest: seq<byte>)
    ensures GetWord(PutU32(n) + rest) == Got(n, rest)
  {
    GetPutU32(n, rest);
  }

  lemma LongAt(n: u64, rest: seq<byte>)
    ensures GetLong(PutU64(n) + rest) == Got(n, rest)
  {
    GetPutU64(n, rest);
  }

  lemma Skip(field: seq<byte>, rest: seq<byte>)
    ensures Advance(field + rest, |field|) == Got((), rest)
  {
    assert (field + rest)[|field|..] == rest;
  }

  /** What a padded field reads back as. */
  function Stored(s: seq<byte>, width: nat): seq<byte> {
    TrimNul(if |s| >= width then s[..width] else s)
  }

  lemma StringAt(s: seq<byte>, width: nat, rest: seq<byte>)
    ensures LoadString(Pad(s, width) + rest, width) == (Stored(s, width), rest)
  {
    var b := Pad(s, width) + rest;
    assert b[..width] == Pad(s, width) && b[width..] == rest;
    TrimPad(s, width);
  }

  lemma BytesAt(field: seq<byte>, rest: seq<byte>)
    ensures CopyToBytes(field + rest, |field|) == (field, rest)
  {
    assert (field + rest)[..|field|] == field && (field + rest)[|field|..] == rest;
  }

  /** A string that fits its field and does not end in NUL is stored faithfully. */
  lemma StoredFits(s: seq<byte>, width: nat)
    requires |s| <= width
    requires |s| == 0 || s[|s| - 1] != 0
    ensures Stored(s, width) == s
  {
    TrimNulUnique(s, s);
    assert s[..|s|] == s;
  }
}
