/** The optional tag-length-value tail of SMGP packets: `coder_tlv` and `decode_tlvs` in src/protocol/smgp.rs. */
module SmgpTlv {
  import opened Bytes

  /** The one-byte parameters, the part number (which carries no value in memory) and the byte-string parameters. */
  datatype Tlv = Scalar(key: u16, value: byte) | PkNumber | Slice(name: u16, bytes: seq<byte>)

  const TP_UDHI: u16 := 0x0002
  const PK_TOTAL: u16 := 0x0009
  const PK_NUMBER: u16 := 0x000A

  predicate Known(t: Tlv) {
    match t
    case Scalar(key, _) => key in {0x01, 0x02, 0x04, 0x05, 0x07, 0x09, 0x0B, 0x0C, 0x0D, 0x0F, 0x11}
    case PkNumber => true
    case Slice(name, _) => name in {0x03, 0x06, 0x08, 0x0E, 0x10, 0x12}
  }

  function Key(t: Tlv): u16 {
    match t
    case Scalar(key, _) => key
    case PkNumber => PK_NUMBER
    case Slice(name, _) => name
  }

  function ValueOf(t: Tlv, number: byte): seq<byte> {
    match t
    case Scalar(_, value) => [value]
    case PkNumber => [number]
    case Slice(_, bytes) => bytes
  }

  /** Key, length and value; the length of a byte string is cut to sixteen bits. */
  function Encode(t: Tlv, number: byte): (b: seq<byte>)
    ensures |b| == 4 + |ValueOf(t, number)|
  {
    PutU16(Key(t)) + PutU16(Length(t)) + ValueOf(t, number)
  }

  function Length(t: Tlv): u16 {
    if t.Slice? then |t.bytes| % 0x1_0000 else 1
  }

  /** Tag and length in two bytes each, the high one first, then the value: one byte, or the bytes of the string. */
  lemma TlvLayout(t: Tlv, number: byte)
    ensures var b, key := Encode(t, number), Key(t);
      && |b| >= 4 && b[0] == key / 0x100 && b[1] == key % 0x100
      && match t
         case Scalar(_, value) => b[2..] == [0, 1, value]
         case PkNumber => key == 0x0A && b[2..] == [0, 1, number]
         case Slice(_, bytes) =>
           b[4..] == bytes && (|bytes| < 0x1_0000 ==> b[2] as int * 0x100 + b[3] as int == |bytes|)
  {
  }

  function EncodeAll(ts: seq<Tlv>, number: byte): seq<byte> {
    if ts == [] then [] else Encode(ts[0], number) + EncodeAll(ts[1..], number)
  }

  method CoderTlv(dst: seq<byte>, ts: seq<Tlv>, number: byte) returns (out: seq<byte>)
    ensures out == dst + EncodeAll(ts, number)
  {
    out := dst;
    for i := 0 to |ts|
      invariant out == dst + EncodeAll(ts[..i], number)
    {
      ghost var done := ts[..i];
      assert ts[..i + 1] == done + [ts[i]];
      EncodeAllSnoc(done, ts[i], number);
      out := out + PutU16(Key(ts[i]));
      out := CoderValue(out, ts[i], number);
    }
    assert ts[..|ts|] == ts;
  }

  lemma {:induction false} EncodeAllSnoc(ts: seq<Tlv>, t: Tlv, number: byte)
    ensures EncodeAll(ts + [t], number) == EncodeAll(ts, number) + Encode(t, number)
    decreases |ts|
  {
    if ts == [] {
      assert EncodeAll([t][1..], number) == [];
    } else {
      assert (ts + [t])[1..] == ts[1..] + [t];
      EncodeAllSnoc(ts[1..], t, number);
    }
  }

  method CoderValue(dst: seq<byte>, t: Tlv, number: byte) returns (out: seq<byte>)
    ensures out == dst + (PutU16(Length(t)) + ValueOf(t, number))
  {
    match t {
      case Scalar(_, value) =>
        out := dst + PutU16(1);
        out := out + [value];
      case PkNumber =>
        out := dst + PutU16(1);
        out := out + [number];
      case Slice(_, bytes) =>
        out := dst + PutU16(|bytes| % 0x1_0000);
        out := out + bytes;
    }
  }

  /** The first requested parameter with this key, or the length of the list. */
  function Find(wanted: seq<Tlv>, key: u16): (i: nat)
    ensures i <= |wanted|
    ensures i < |wanted| ==> Key(wanted[i]) == key
    ensures forall j :: 0 <= j < i ==> Key(wanted[j]) != key
  {
    if wanted == [] then 0
    else if Key(wanted[0]) == key then 0
    else 1 + Find(wanted[1..], key)
  }

  /** What one matching parameter reads: the new value and the bytes consumed. */
  function Read(t: Tlv, length: nat, buf: seq<byte>): (r: (Tlv, nat))
    requires |buf| >= 1 && |buf| >= length
    ensures r.1 <= |buf|
    ensures Key(r.0) == Key(t)
  {
    match t
    case Scalar(key, _) => (Scalar(key, buf[0]), 1)
    case PkNumber => (PkNumber, 1)
    case Slice(name, _) => (Slice(name, buf[..length]), length)
  }

  /** Values of parameters nobody asked for are not skipped. */
  function Decode(buf: seq<byte>, wanted: seq<Tlv>): (got: seq<Tlv>)
    ensures |got| == |wanted|
    ensures forall i :: 0 <= i < |wanted| ==> Key(got[i]) == Key(wanted[i])
    decreases |buf|
  {
    if |buf| < 5 then wanted
    else
      var key, length, rest := GetU16(buf), GetU16(buf[2..]), buf[4..];
      if |rest| < length then wanted
      else
        var i := Find(wanted, key);
        if i == |wanted| then Decode(rest, wanted)
        else
          var (t, n) := Read(wanted[i], length, rest);
          Decode(rest[n..], wanted[i := t])
  }

  /** Every tag from 1 to 18 belongs to exactly one kind of parameter, and no other tag to any. */
  lemma KnownTags(tag: u16, value: byte, bytes: seq<byte>)
    ensures 1 <= tag <= 0x12 <==> Known(Scalar(tag, value)) || tag == Key(PkNumber) || Known(Slice(tag, bytes))
    ensures Known(Scalar(tag, value)) ==> tag != Key(PkNumber) && !Known(Slice(tag, bytes))
    ensures Key(PkNumber) == 10 && !Known(Slice(10, bytes))
    ensures Known(Slice(tag, bytes)) <==> tag in {3, 6, 8, 14, 16, 18}
  {
  }

  /**
    One turn on any buffer: tag and length in two bytes each; with less than
    the length left the loop ends. A parameter nobody asked for is left
    standing where the next is looked for, a one-byte one takes one byte
    whatever its length says, and a byte string takes its length.
   */
  lemma OneTurn(buf: seq<byte>, wanted: seq<Tlv>, i: nat)
    requires |buf| >= 5 && i <= |wanted|
    requires var tag := buf[0] as int * 0x100 + buf[1] as int;
      (forall j :: 0 <= j < i ==> Key(wanted[j]) != tag) && (i < |wanted| ==> Key(wanted[i]) == tag)
    ensures var length := buf[2] as int * 0x100 + buf[3] as int;
      Decode(buf, wanted)
      == if |buf| < 4 + length then wanted
         else if i == |wanted| then Decode(buf[4..], wanted)
         else
           match wanted[i]
           case Scalar(key, _) => Decode(buf[5..], wanted[i := Scalar(key, buf[4])])
           case PkNumber => Decode(buf[5..], wanted)
           case Slice(name, _) => Decode(buf[4 + length..], wanted[i := Slice(name, buf[4..4 + length])])
  {
    var length := buf[2] as int * 0x100 + buf[3] as int;
    FindUnique(wanted, GetU16(buf), i);
    assert GetU16(buf[2..]) == length && wanted[..] == wanted;
    if |buf| >= 4 + length && i < |wanted| {
      assert buf[4..][1..] == buf[5..];
      match wanted[i] {
        case Scalar(_, _) =>
        case PkNumber =>
          assert wanted[i := PkNumber] == wanted;
        case Slice(_, _) =>
          assert buf[4..][..length] == buf[4..4 + length] && buf[4..][length..] == buf[4 + length..];
      }
    }
  }

  /** The loop: it only ever reads inside the buffer and consumes at least four bytes a turn. */
  method DecodeTlvs(packet: seq<byte>, tlvs: array<Tlv>)
    modifies tlvs
    ensures tlvs[..] == Decode(packet, old(tlvs[..]))
  {
    var buf := packet;
    while |buf| >= 5
      invariant Decode(buf, tlvs[..]) == Decode(packet, old(tlvs[..]))
      decreases |buf|
    {
      var key := GetU16(buf);
      buf := buf[2..];
      var length := GetU16(buf);
      buf := buf[2..];
      if |buf| < length {
        return;
      }
      ghost var wanted := tlvs[..];
      var i := 0;
      while i < tlvs.Length && Key(tlvs[i]) != key
        invariant 0 <= i <= tlvs.Length
        invariant forall j :: 0 <= j < i ==> Key(tlvs[j]) != key
      {
        i := i + 1;
      }
      FindUnique(wanted, key, i);
      if i < tlvs.Length {
        match tlvs[i] {
          case Scalar(k, _) =>
            tlvs[i] := Scalar(k, buf[0]);
            buf := buf[1..];
          case PkNumber =>
            buf := buf[1..];
          case Slice(k, _) =>
            tlvs[i] := Slice(k, buf[..length]);
            buf := buf[length..];
        }
        assert tlvs[..] == wanted[i := tlvs[i]];
      }
    }
  }

  lemma FindUnique(wanted: seq<Tlv>, key: u16, i: nat)
    requires i <= |wanted|
    requires i < |wanted| ==> Key(wanted[i]) == key
    requires forall j :: 0 <= j < i ==> Key(wanted[j]) != key
    ensures Find(wanted, key) == i
  {
  }

  // ---------- decoding inverts encoding ----------

  /** The requested list with every encoded parameter filled in. */
  function Fill(wanted: seq<Tlv>, ts: seq<Tlv>): seq<Tlv>
    decreases |ts|
  {
    if ts == [] then wanted
    else
      var i := Find(wanted, Key(ts[0]));
      Fill(if i < |wanted| then wanted[i := ts[0]] else wanted, ts[1..])
  }

  /** Same parameter, so the encoded value replaces the requested one. */
  predicate Requested(wanted: seq<Tlv>, ts: seq<Tlv>) {
    forall t :: t in ts ==>
      Known(t) && Find(wanted, Key(t)) < |wanted| && (t.Slice? ==> |t.bytes| < 0x1_0000)
  }

  /** The loop stops with four bytes left, so an empty byte string in last place is not seen. */
  function Seen(ts: seq<Tlv>): seq<Tlv> {
    if ts != [] && ts[|ts| - 1].Slice? && ts[|ts| - 1].bytes == [] then ts[..|ts| - 1] else ts
  }

  lemma FillKeepsKeys(wanted: seq<Tlv>, i: nat, t: Tlv, key: u16)
    requires i < |wanted| && Key(wanted[i]) == Key(t)
    ensures Find(wanted[i := t], key) == Find(wanted, key)
  {
    FindUnique(wanted[i := t], key, Find(wanted, key));
  }

  /** Keys determine the kind of parameter. */
  lemma SameKind(a: Tlv, b: Tlv)
    requires Known(a) && Known(b) && Key(a) == Key(b)
    ensures a.Scalar? == b.Scalar? && a.PkNumber? == b.PkNumber?
  {
  }

  /** One encoded parameter at the head of the buffer is read back into its place. */
  lemma DecodeOne(t: Tlv, number: byte, rest: seq<byte>, wanted: seq<Tlv>)
    requires Known(t) && (t.Slice? ==> |t.bytes| < 0x1_0000)
    requires forall w :: w in wanted ==> Known(w)
    requires Find(wanted, Key(t)) < |wanted|
    requires |Encode(t, number) + rest| >= 5
    ensures Decode(Encode(t, number) + rest, wanted) == Decode(rest, wanted[Find(wanted, Key(t)) := t])
  {
    var i, value := Find(wanted, Key(t)), ValueOf(t, number);
    Header(t, number, rest);
    assert wanted[i] in wanted;
    SameKind(t, wanted[i]);
    assert (value + rest)[..|value|] == value && (value + rest)[|value|..] == rest;
  }

  lemma Header(t: Tlv, number: byte, rest: seq<byte>)
    requires t.Slice? ==> |t.bytes| < 0x1_0000
    ensures var buf := Encode(t, number) + rest;
            GetU16(buf) == Key(t) && GetU16(buf[2..]) == |ValueOf(t, number)|
            && buf[4..] == ValueOf(t, number) + rest
  {
    var buf, tail := Encode(t, number) + rest, ValueOf(t, number) + rest;
    assert buf == PutU16(Key(t)) + (PutU16(Length(t)) + tail);
    GetPutU16(Key(t), PutU16(Length(t)) + tail);
    GetPutU16(Length(t), tail);
    assert buf[4..] == buf[2..][2..];
  }

  /** Every requested parameter comes back with its encoded value, in any order of request. */
  lemma {:induction false} DecodeEncode(ts: seq<Tlv>, number: byte, wanted: seq<Tlv>)
    requires Requested(wanted, ts)
    requires forall w :: w in wanted ==> Known(w)
    ensures Decode(EncodeAll(ts, number), wanted) == Fill(wanted, Seen(ts))
    decreases |ts|
  {
    if ts != [] {
      var t, rest := ts[0], EncodeAll(ts[1..], number);
      SeenStep(ts, number);
      if |Encode(t, number) + rest| >= 5 {
        var i := Find(wanted, Key(t));
        DecodeOne(t, number, rest, wanted);
        StillRequested(wanted, i, ts);
        DecodeEncode(ts[1..], number, wanted[i := t]);
      }
    }
  }

  lemma SeenStep(ts: seq<Tlv>, number: byte)
    requires ts != [] && (ts[0].Slice? ==> |ts[0].bytes| < 0x1_0000)
    ensures |EncodeAll(ts, number)| >= 5 ==> Seen(ts) == [ts[0]] + Seen(ts[1..])
    ensures |EncodeAll(ts, number)| < 5 ==> Seen(ts) == []
  {
    if |ts| > 1 {
      assert |EncodeAll(ts[1..], number)| >= 4;
      assert ts[1..][|ts| - 2] == ts[|ts| - 1];
      assert ts[..|ts| - 1] == [ts[0]] + ts[1..][..|ts| - 2];
      assert ts == [ts[0]] + ts[1..];
    } else {
      assert EncodeAll(ts[1..], number) == [];
    }
  }

  lemma StillRequested(wanted: seq<Tlv>, i: nat, ts: seq<Tlv>)
    requires ts != [] && Requested(wanted, ts) && i < |wanted| && Key(wanted[i]) == Key(ts[0])
    ensures Requested(wanted[i := ts[0]], ts[1..])
  {
    forall u | u in ts[1..]
      ensures Find(wanted[i := ts[0]], Key(u)) < |wanted|
    {
      FillKeepsKeys(wanted, i, ts[0], Key(u));
    }
  }

  /** An empty byte string in last place really is lost. */
  lemma TrailingEmptySliceIsLost(name: u16, number: byte, before: seq<byte>)
    requires Known(Slice(name, [])) && before != []
    ensures Decode(EncodeAll([Slice(name, [])], number), [Slice(name, before)]) != [Slice(name, [])]
  {
    assert EncodeAll([], number) == [];
  }

  /**
    The tail a long submit carries, read by a decoder that asks only whether
    the content has a header: the answer is yes for every total and number,
    although the two values nobody asked for are not skipped.
   */
  lemma SubmitTail(total: byte, number: byte, initial: byte)
    ensures Decode(EncodeAll([Scalar(TP_UDHI, 1), Scalar(PK_TOTAL, total), PkNumber], number),
                   [Scalar(TP_UDHI, initial)])
         == [Scalar(TP_UDHI, 1)]
  {
    var wanted := [Scalar(TP_UDHI, initial)];
    var rest := EncodeAll([Scalar(PK_TOTAL, total), PkNumber], number);
    assert EncodeAll([PkNumber], number) == [0, 0x0A, 0, 1, number] + EncodeAll([], number);
    assert rest == [0, 9, 0, 1, total, 0, 0x0A, 0, 1, number];
    DecodeOne(Scalar(TP_UDHI, 1), number, rest, wanted);
    var got := wanted[0 := Scalar(TP_UDHI, 1)];
    assert Find(got, PK_TOTAL) == 1;
    var next := rest[4..];
    assert next == [total, 0, 0x0A, 0, 1, number];
    assert Decode(rest, got) == Decode(next, got);
    assert GetU16(next[2..]) == 0x0A00 && |next[4..]| == 2;
  }
}
