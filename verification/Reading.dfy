/**
  Where the decoders look in a packet, whatever stands in it: offsets from the
  start of the body, cut packets and broken headers included
  (`decode_submit`, `decode_deliver` and `decode_msg_content` in
  src/protocol/cmpp32.rs and src/protocol/implements.rs).
 */
module Reading {
  import opened Bytes
  import opened Wrappers
  import opened Messages
  import opened Cursor
  import opened CmppContent
  import Layout
  import Charset
  import CmppDeliver
  import CmppMsgId
  import CmppSubmit

  // ---------- fields ----------

  lemma PairReads(b: seq<byte>)
    requires |b| >= 2
    ensures PutU16(GetU16(b)) == b[..2]
  {
  }

  lemma WordReads(b: seq<byte>)
    requires |b| >= 4
    ensures Layout.Number(b[..4]) == GetU32(b) && PutU32(GetU32(b)) == b[..4]
  {
    var hi, lo := GetU16(b), GetU16(b[2..]);
    PairReads(b);
    PairReads(b[2..]);
    assert GetU32(b) / 0x1_0000 == hi && GetU32(b) % 0x1_0000 == lo;
    assert b[..4] == b[..2] + b[2..][..2];
    Layout.HighByteFirst32(GetU32(b));
  }

  /** Eight bytes read as one number, the first being the highest. */
  lemma EightBytesRead(b: seq<byte>)
    requires |b| >= 8
    ensures Layout.Number(b[..8]) == GetU64(b)
  {
    var n := GetU64(b) as int;
    WordReads(b);
    WordReads(b[4..]);
    assert n / 0x1_0000_0000 == GetU32(b) && n % 0x1_0000_0000 == GetU32(b[4..]);
    assert b[..8] == b[..4] + b[4..][..4];
    Layout.HighByteFirst64(n);
  }

  /** The field of this width at `k`, without the zeros at its end. */
  predicate Reads(s: Str, b: seq<byte>, k: nat, width: nat) {
    k + width <= |b| && |s| <= width && s == b[k..k + |s|] && (s != [] ==> s[|s| - 1] != 0)
    && forall i :: k + |s| <= i < k + width ==> b[i] == 0
  }

  lemma FieldReads(b: seq<byte>, k: nat, width: nat) returns (s: Str)
    requires k + width <= |b|
    ensures LoadString(b[k..], width) == (s, b[k + width..]) && Reads(s, b, k, width)
  {
    var field := b[k..][..width];
    s := TrimNul(field);
    assert field == b[k..k + width] && b[k..][width..] == b[k + width..];
    assert field[..|s|] == b[k..k + |s|];
    forall i | k + |s| <= i < k + width
      ensures b[i] == 0
    {
      assert field[i - k] == b[i];
    }
  }

  lemma ByteReads(b: seq<byte>, k: nat)
    requires k < |b|
    ensures GetByte(b[k..]) == Got(b[k], b[k + 1..])
  {
    assert b[k..][1..] == b[k + 1..];
  }

  lemma SkipReads(b: seq<byte>, k: nat, n: nat)
    requires k + n <= |b|
    ensures Advance(b[k..], n) == Got((), b[k + n..])
  {
    assert b[k..][n..] == b[k + n..];
  }

  lemma LongReads(b: seq<byte>, k: nat) returns (n: u64)
    requires k + 8 <= |b|
    ensures n == Layout.Number(b[k..k + 8]) && GetLong(b[k..]) == Got(n, b[k + 8..])
  {
    n := GetU64(b[k..]);
    EightBytesRead(b[k..]);
    assert b[k..][..8] == b[k..k + 8] && b[k..][8..] == b[k + 8..];
  }

  // ---------- the content ----------

  /** The bytes of a text: those announced, or none if they are not all there. */
  function Announced(b: seq<byte>, k: nat, length: nat): seq<byte> {
    if k + length <= |b| then b[k..k + length] else []
  }

  /** These bytes are what exactly this text is written as. */
  ghost predicate Spelled(format: byte, t: seq<byte>, r: Decoded<Text>, total: Option<byte>, number: Option<byte>) {
    match r
    case Ok(text) => EncodeText(format, text.content) == Success(t) && text.total == total && text.number == number
    case Rejected(e) =>
      e == (if format == 0 || format == 8 then Malformed else if format == 15 then GbkNotModelled else UnknownFormat)
      && forall s :: EncodeText(format, s) != Success(t)
    case Panicked => false
  }

  lemma TextSpelled(b: seq<byte>, format: byte, length: byte, total: Option<byte>, number: Option<byte>)
    ensures Spelled(format, CopyToBytes(b, length).0, DecodeText(b, format, length, total, number), total, number)
  {
    var t := CopyToBytes(b, length).0;
    match Charset.FormatCharset(format)
    case None =>
    case Some(cs) =>
      if Charset.Decode(cs, t).Some? {
        Charset.DecodeSound(cs, t);
      } else {
        forall s
          ensures Charset.Encode(cs, s) != t
        {
          Charset.DecodeEncode(cs, s);
        }
      }
  }

  /** A content without header is the text that is written as the bytes announced, and malformed if none is. */
  lemma WholeReads(b: seq<byte>, format: byte, length: byte)
    ensures Spelled(format, Announced(b, 0, length), DecodeContent(b, format, length, false), None, None)
  {
    TextSpelled(b, format, length, None, None);
  }

  /**
    The header's first byte is its length without itself: below 2, at 255 and
    beyond the end of the packet the decoder panics. Its last two bytes are
    the total and the number, wherever the length puts them; the text follows,
    unless the header is all there is.
   */
  lemma HeaderedReads(b: seq<byte>, format: byte, length: byte)
    ensures var r := DecodeContent(b, format, length, true);
      if b == [] || b[0] < 2 || b[0] == 255 || |b| <= b[0] then r == Panicked
      else if length <= b[0] + 1 then r == Rejected(HeaderTooLong)
      else BehindHeader(b, b[0], format, length, r)
  {
    if b == [] || b[0] < 2 || |b| <= b[0] {
      UdhPanics(b);
    } else {
      UdhReads(b);
      if b[0] < 255 && length > b[0] + 1 {
        TextReads(b, b[0], format, length);
      }
    }
  }

  ghost predicate BehindHeader(b: seq<byte>, h: nat, format: byte, length: nat, r: Decoded<Text>) {
    1 <= h < |b| && length > h + 1
    && Spelled(format, Announced(b, h + 1, length - h - 1), r, Some(b[h - 1]), Some(b[h]))
  }

  lemma TextReads(b: seq<byte>, h: nat, format: byte, length: byte)
    requires 2 <= h < |b| && length > h + 1
    ensures BehindHeader(b, h, format, length,
                         DecodeText(b[h + 1..], format, length - h - 1, Some(b[h - 1]), Some(b[h])))
  {
    var n := length - h - 1;
    TextSpelled(b[h + 1..], format, n, Some(b[h - 1]), Some(b[h]));
    assert h + 1 + n <= |b| ==> b[h + 1..][..n] == b[h + 1..h + 1 + n];
  }

  lemma UdhReads(b: seq<byte>)
    requires b != [] && 2 <= b[0] < |b|
    ensures ReadUdh(b) == Got((b[0], b[b[0] - 1], b[b[0]]), b[b[0] + 1..])
  {
    var h: nat := b[0];
    ByteReads(b, 0);
    SkipReads(b, 1, h - 2);
    ByteReads(b, h - 1);
    ByteReads(b, h);
    assert b[0..] == b;
  }

  lemma UdhPanics(b: seq<byte>)
    requires b == [] || b[0] < 2 || |b| <= b[0]
    ensures ReadUdh(b) == Panic
  {
  }

  // ---------- Submit ----------

  /** The bytes of the fee number, of a destination or an uplink source, and of the type that version 3.0 adds. */
  function Fee(v: Version): nat {
    if v == Cmpp20 then 21 else 33
  }

  function Width(v: Version): nat {
    if v == Cmpp20 then 21 else 32
  }

  function Types(v: Version): nat {
    if v == Cmpp20 then 0 else 1
  }

  predicate SubmitHeadAt(h: CmppSubmit.Header, b: seq<byte>, fee: nat) {
    |b| >= 96 + fee && h.msgId == Layout.Number(b[..8]) && Reads(h.serviceId, b, 12, 10)
    && h.udhi == b[24 + fee] && h.format == b[25 + fee] && Reads(h.spId, b, 26 + fee, 6)
    && Reads(h.validTime, b, 40 + fee, 17) && Reads(h.atTime, b, 57 + fee, 17) && Reads(h.srcId, b, 74 + fee, 21)
    && h.count == b[95 + fee]
  }

  lemma AddressesRead(b: seq<byte>, k: nat, msgId: u64, serviceId: Str, udhi: byte, format: byte)
    returns (h: CmppSubmit.Header)
    requires k + 70 <= |b|
    ensures CmppSubmit.DecodeAddresses(b[k..], msgId, serviceId, udhi, format) == Got(h, b[k + 70..])
    ensures h.msgId == msgId && h.serviceId == serviceId && h.udhi == udhi && h.format == format
    ensures Reads(h.spId, b, k, 6) && Reads(h.validTime, b, k + 14, 17) && Reads(h.atTime, b, k + 31, 17)
    ensures Reads(h.srcId, b, k + 48, 21) && h.count == b[k + 69]
  {
    var spId := FieldReads(b, k, 6);
    SkipReads(b, k + 6, 8);
    var validTime := FieldReads(b, k + 14, 17);
    var atTime := FieldReads(b, k + 31, 17);
    var srcId := FieldReads(b, k + 48, 21);
    ByteReads(b, k + 69);
    h := CmppSubmit.Header(msgId, serviceId, udhi, format, spId, validTime, atTime, srcId, b[k + 69]);
  }

  lemma SubmitHeadReads(v: Version, b: seq<byte>) returns (h: CmppSubmit.Header)
    requires |b| >= 96 + Fee(v)
    ensures CmppSubmit.DecodeHead(v, b) == Got(h, b[96 + Fee(v)..]) && SubmitHeadAt(h, b, Fee(v))
  {
    var fee := Fee(v);
    EightBytesRead(b);
    SkipReads(b, 8, 4);
    var serviceId := FieldReads(b, 12, 10);
    SkipReads(b, 22, fee + 2);
    ByteReads(b, 24 + fee);
    ByteReads(b, 25 + fee);
    h := AddressesRead(b, 26 + fee, GetU64(b), serviceId, b[24 + fee], b[25 + fee]);
  }

  /**
    In a packet cut in its header, a field that is not all there reads as
    empty and takes nothing: the decoder panics only if the cut is before the
    times, or right where a time, the source or the count would begin.
   */
  lemma SubmitHeadPanicsIff(v: Version, b: seq<byte>)
    ensures var times := 40 + Fee(v);
      CmppSubmit.DecodeHead(v, b).Panic?
      <==> |b| <= times || |b| == times + 17 || |b| == times + 34 || |b| == times + 55
  {
    var fee := Fee(v);
    if |b| >= 12 {
      var c := LoadString(b[8..][4..], 10).1;
      assert |c| == if |b| >= 22 then |b| - 22 else |b| - 12;
      if |c| >= fee + 4 {
        AddressesPanicIff(c[fee + 2..][1..][1..], GetU64(b), LoadString(b[8..][4..], 10).0, c[fee + 2..][0],
                          c[fee + 2..][1..][0]);
      }
    }
  }

  lemma AddressesPanicIff(b: seq<byte>, msgId: u64, serviceId: Str, udhi: byte, format: byte)
    ensures CmppSubmit.DecodeAddresses(b, msgId, serviceId, udhi, format).Panic?
      <==> |b| <= 14 || |b| == 31 || |b| == 48 || |b| == 69
  {
  }

  // ---------- destinations ----------

  /** The first `n` are the fields from `k` on, the others are empty. */
  predicate DestsReadAt(ids: seq<Str>, b: seq<byte>, k: nat, width: nat, n: nat) {
    n <= |ids| && (forall d :: 0 <= d < n ==> DestReadAt(ids, b, k, width, d))
    && forall d :: n <= d < |ids| ==> ids[d] == []
  }

  predicate DestReadAt(ids: seq<Str>, b: seq<byte>, k: nat, width: nat, d: nat) {
    d < |ids| && Reads(ids[d], b, k + d * width, width)
  }

  lemma FirstDestReads(v: Version, b: seq<byte>, k: nat, count: nat) returns (id: Str, next: nat)
    requires count > 0 && k + Width(v) <= |b|
    ensures next == k + Width(v) && Reads(id, b, k, Width(v))
    ensures var later := CmppSubmit.DecodeDests(v, b[next..], count - 1);
      CmppSubmit.DecodeDests(v, b[k..], count) == ([id] + later.0, later.1)
  {
    next := k + Width(v);
    id := FieldReads(b, k, Width(v));
  }

  lemma {:induction false} NoDestsLeft(v: Version, b: seq<byte>, count: nat)
    requires |b| < Width(v)
    ensures var (ids, rest) := CmppSubmit.DecodeDests(v, b, count);
      rest == b && forall d :: 0 <= d < count ==> ids[d] == []
  {
    if count > 0 {
      NoDestsLeft(v, b, count - 1);
    }
  }

  lemma DestsReadCons(id: Str, ids: seq<Str>, b: seq<byte>, k: nat, width: nat, n: nat)
    requires n > 0 && Reads(id, b, k, width) && DestsReadAt(ids, b, k + width, width, n - 1)
    ensures DestsReadAt([id] + ids, b, k, width, n)
  {
    forall d | 0 <= d < n
      ensures DestReadAt([id] + ids, b, k, width, d)
    {
      if d > 0 {
        Layout.Shifted(k, d, width);
        assert DestReadAt(ids, b, k + width, width, d - 1);
      }
    }
  }

  /** So many whole fields follow from `k` on, at most the count. */
  predicate Follow(b: seq<byte>, k: nat, count: nat, width: nat, n: nat) {
    n <= count && k + n * width <= |b| && (n < count ==> |b| < k + (n + 1) * width)
  }

  lemma {:induction false} SomeFollow(b: seq<byte>, k: nat, count: nat, width: nat) returns (n: nat)
    requires k <= |b| && width > 0
    ensures Follow(b, k, count, width, n)
    decreases count
  {
    if count == 0 || |b| < k + width {
      n := 0;
    } else {
      n := SomeFollow(b, k + width, count - 1, width);
      n := n + 1;
      Layout.Shifted(k, n, width);
      Layout.Shifted(k, n + 1, width);
    }
  }

  lemma FollowNext(b: seq<byte>, k: nat, count: nat, width: nat, n: nat) returns (end: nat)
    requires Follow(b, k, count, width, n)
    ensures end == k + n * width && end <= |b|
    ensures if n > 0 then
              k + width <= |b| && Follow(b, k + width, count - 1, width, n - 1) && end == k + width + (n - 1) * width
            else end == k && (count > 0 ==> |b| < k + width)
  {
    end := k + n * width;
    if n > 0 {
      Layout.Shifted(k, n, width);
      Layout.Shifted(k, n + 1, width);
    }
  }

  /** The fields that are there are read; the others are empty and take nothing. */
  lemma {:induction false} DestsRead(v: Version, b: seq<byte>, k: nat, count: nat, n: nat) returns (end: nat)
    requires Follow(b, k, count, Width(v), n)
    ensures end == k + n * Width(v) && end <= |b|
    ensures var (ids, rest) := CmppSubmit.DecodeDests(v, b[k..], count);
      |ids| == count && rest == b[end..] && DestsReadAt(ids, b, k, Width(v), n)
    decreases n
  {
    end := FollowNext(b, k, count, Width(v), n);
    if n > 0 {
      var id, next := FirstDestReads(v, b, k, count);
      var _ := DestsRead(v, b, next, count - 1, n - 1);
      DestsReadCons(id, CmppSubmit.DecodeDests(v, b[next..], count - 1).0, b, k, Width(v), n);
    } else if count > 0 {
      NoDestsLeft(v, b[k..], count);
    }
  }

  /** A panic or an error of the content is the packet's. */
  predicate SameFate(d: Decoded<Json>, t: Decoded<Text>) {
    match t
    case Panicked => d == Panicked
    case Rejected(e) => d == Rejected(e)
    case Ok(_) => d.Ok?
  }

  /** What is made of the header and the text, and nothing else. */
  predicate SubmitJson(j: Json, h: CmppSubmit.Header, seqId: u32, destIds: seq<Str>, t: Text) {
    j == EMPTY.(kind := Submit, seqId := Some(seqId), msgId := Some(CmppMsgId.U64ToStr(h.msgId)),
                longTotal := t.total, longNumber := t.number,
                body := EMPTY_BODY.(srcId := Some(h.srcId), destIds := destIds, content := Some(t.content),
                                    format := Some(h.format), serviceId := Some(h.serviceId), spId := Some(h.spId),
                                    validTime := Some(h.validTime), atTime := Some(h.atTime)))
  }

  /** The text behind the length byte at `p`, if the packet goes so far. */
  function TextAt(b: seq<byte>, p: nat, format: byte, isLong: bool): Decoded<Text> {
    if |b| <= p then Panicked else DecodeContent(b[p + 1..], format, b[p], isLong)
  }

  /**
    Any packet with a whole header: the length byte is looked for behind as
    many destinations as are there, and what is read from there on decides.
   */
  lemma SubmitReads(v: Version, b: seq<byte>, seqId: u32, n: nat)
    returns (h: CmppSubmit.Header, destIds: seq<Str>, end: nat)
    requires |b| >= 96 + Fee(v) && Follow(b, 96 + Fee(v), b[95 + Fee(v)], Width(v), n)
    ensures SubmitHeadAt(h, b, Fee(v)) && |destIds| == h.count && DestsReadAt(destIds, b, 96 + Fee(v), Width(v), n)
    ensures end == 96 + Fee(v) + n * Width(v)
    ensures var d, t := CmppSubmit.DecodeSubmit(v, b, seqId), TextAt(b, end + Types(v), h.format, h.udhi != 0);
      SameFate(d, t) && (d.Ok? ==> SubmitJson(d.value, h, seqId, destIds, t.value))
  {
    var k := 96 + Fee(v);
    h := SubmitHeadReads(v, b);
    end := DestsRead(v, b, k, h.count, n);
    destIds := CmppSubmit.DecodeDests(v, b[k..], h.count).0;
    CmppSubmit.Assemble(v, b, seqId, h, b[k..], destIds, b[end..]);
    TailReads(v, h, b, end);
    SubmitFinishes(h, seqId, destIds, TextAt(b, end + Types(v), h.format, h.udhi != 0));
  }

  lemma SubmitFinishes(h: CmppSubmit.Header, seqId: u32, destIds: seq<Str>, t: Decoded<Text>)
    ensures var d := CmppSubmit.Finish(h, seqId, destIds, t);
      SameFate(d, t) && (d.Ok? ==> SubmitJson(d.value, h, seqId, destIds, t.value))
  {
  }

  lemma TailReads(v: Version, h: CmppSubmit.Header, b: seq<byte>, k: nat)
    requires k <= |b|
    ensures CmppSubmit.DecodeTail(v, h, b[k..]) == TextAt(b, k + Types(v), h.format, h.udhi != 0)
  {
    var p := k + Types(v);
    if p < |b| {
      SkipReads(b, k, Types(v));
      ByteReads(b, p);
    } else if p == |b| {
      SkipReads(b, k, Types(v));
      assert b[p..] == [];
    }
  }

  // ---------- Deliver ----------

  predicate DeliverHeadAt(h: CmppDeliver.Header, b: seq<byte>, src: nat, types: nat) {
    |b| >= 43 + src + types && h.msgId == Layout.Number(b[..8]) && Reads(h.destId, b, 8, 21)
    && Reads(h.serviceId, b, 29, 10) && h.udhi == b[40] && h.format == b[41] && Reads(h.srcId, b, 42, src)
    && h.isReport == b[42 + src + types]
  }

  /** Where the length byte stands. */
  function LengthAt(v: Version): nat {
    43 + Width(v) + Types(v)
  }

  lemma DeliverHeadReads(v: Version, b: seq<byte>) returns (h: CmppDeliver.Header)
    requires |b| >= LengthAt(v)
    ensures CmppDeliver.DecodeHead(v, b) == Got(h, b[LengthAt(v)..]) && DeliverHeadAt(h, b, Width(v), Types(v))
  {
    var src, types := Width(v), Types(v);
    EightBytesRead(b);
    var destId := FieldReads(b, 8, 21);
    var serviceId := FieldReads(b, 29, 10);
    SkipReads(b, 39, 1);
    ByteReads(b, 40);
    ByteReads(b, 41);
    var srcId := FieldReads(b, 42, src);
    SkipReads(b, 42 + src, types);
    ByteReads(b, 42 + src + types);
    h := CmppDeliver.Header(GetU64(b), destId, serviceId, b[40], b[41], srcId, b[42 + src + types]);
  }

  predicate DeliverJson(j: Json, h: CmppDeliver.Header, seqId: u32, t: Text) {
    j == EMPTY.(kind := Deliver, seqId := Some(seqId), msgId := Some(CmppMsgId.U64ToStr(h.msgId)),
                longTotal := t.total, longNumber := t.number,
                body := EMPTY_BODY.(srcId := Some(h.srcId), destId := Some(h.destId), serviceId := Some(h.serviceId),
                                    content := Some(t.content), format := Some(h.format)))
  }

  /** An uplink packet with a whole header. */
  lemma DeliverReads(v: Version, b: seq<byte>, seqId: u32) returns (h: CmppDeliver.Header)
    requires |b| >= LengthAt(v) && b[LengthAt(v) - 1] == 0
    ensures DeliverHeadAt(h, b, Width(v), Types(v))
    ensures var d, t := CmppDeliver.DecodeDeliver(v, b, seqId), TextAt(b, LengthAt(v), h.format, h.udhi != 0);
      SameFate(d, t) && (d.Ok? ==> DeliverJson(d.value, h, seqId, t.value))
  {
    var p := LengthAt(v);
    h := DeliverHeadReads(v, b);
    CmppDeliver.Assemble(v, b, seqId, h, b[p..]);
    if p < |b| {
      ByteReads(b, p);
    }
    DeliverFinishes(h, seqId, TextAt(b, p, h.format, h.udhi != 0));
  }

  lemma DeliverFinishes(h: CmppDeliver.Header, seqId: u32, t: Decoded<Text>)
    ensures var d := CmppDeliver.Finish(h, seqId, t);
      SameFate(d, t) && (d.Ok? ==> DeliverJson(d.value, h, seqId, t.value))
  {
  }

  /** What a report says, from the byte behind its length on. */
  predicate StatusAt(s: CmppDeliver.Status, b: seq<byte>, k: nat, src: nat) {
    k + 35 + src <= |b| && s.referenced == Layout.Number(b[k..k + 8]) && Reads(s.state, b, k + 8, 7)
    && Reads(s.submitTime, b, k + 15, 10) && Reads(s.doneTime, b, k + 25, 10) && Reads(s.srcId, b, k + 35, src)
  }

  lemma StatusReads(v: Version, b: seq<byte>, k: nat) returns (s: CmppDeliver.Status)
    requires 1 <= k && k + 35 + Width(v) <= |b|
    ensures CmppDeliver.DecodeStatus(v, b[k - 1..]) == Got(s, b[k + 35 + Width(v)..]) && StatusAt(s, b, k, Width(v))
  {
    SkipReads(b, k - 1, 1);
    var referenced := LongReads(b, k);
    var state := FieldReads(b, k + 8, 7);
    var submitTime := FieldReads(b, k + 15, 10);
    var doneTime := FieldReads(b, k + 25, 10);
    var srcId := FieldReads(b, k + 35, Width(v));
    s := CmppDeliver.Status(referenced, state, submitTime, doneTime, srcId);
  }

  /** A whole report: its own source, and the id it is about in place of the packet's (2.0) or beside it (3.0). */
  lemma ReportReads(v: Version, b: seq<byte>, seqId: u32) returns (h: CmppDeliver.Header, s: CmppDeliver.Status)
    requires |b| >= LengthAt(v) + 36 + Width(v) && b[LengthAt(v) - 1] != 0
    ensures DeliverHeadAt(h, b, Width(v), Types(v)) && StatusAt(s, b, LengthAt(v) + 1, Width(v))
    ensures var about, own := Some(CmppMsgId.U64ToStr(s.referenced)), Some(CmppMsgId.U64ToStr(h.msgId));
      CmppDeliver.DecodeDeliver(v, b, seqId)
      == Ok(EMPTY.(kind := Report, seqId := Some(seqId), msgId := if v == Cmpp20 then about else own,
                   passageMsgId := if v == Cmpp20 then None else about,
                   body := EMPTY_BODY.(destId := Some(h.destId), serviceId := Some(h.serviceId), srcId := Some(s.srcId),
                                       state := Some(s.state), submitTime := Some(s.submitTime),
                                       doneTime := Some(s.doneTime))))
  {
    var p := LengthAt(v);
    h := DeliverHeadReads(v, b);
    s := StatusReads(v, b, p + 1);
    CmppDeliver.Assemble(v, b, seqId, h, b[p..]);
  }

  /** How much is left behind a field that takes its width only if it is all there. */
  function Past(n: nat, width: nat): nat {
    if n >= width then n - width else n
  }

  lemma FieldTakes(b: seq<byte>, width: nat) returns (rest: seq<byte>)
    ensures rest == LoadString(b, width).1 && |rest| == Past(|b|, width)
  {
    rest := LoadString(b, width).1;
  }

  /** A cut packet: three bytes must follow the id and the two strings, and the types and the flag the source. */
  lemma DeliverHeadPanicsIff(v: Version, b: seq<byte>)
    ensures CmppDeliver.DecodeHead(v, b).Panic?
      <==> |b| < 8 || Past(Past(|b| - 8, 21), 10) < 3
           || Past(Past(Past(|b| - 8, 21), 10) - 3, Width(v)) < Types(v) + 1
  {
    if |b| >= 8 {
      var c := FieldTakes(b[8..], 21);
      c := FieldTakes(c, 10);
      if |c| >= 3 {
        var _ := FieldTakes(c[1..][1..][1..], Width(v));
      }
    }
  }
}
