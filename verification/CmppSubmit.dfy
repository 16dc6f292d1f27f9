/**
  CMPP Submit, versions 2.0 (src/protocol/cmpp32.rs) and 3.0 (the defaults in
  src/protocol/implements.rs). The two layouts differ only in the widths of
  the number fields, one type byte and the reserved tail.
 */
module CmppSubmit {
  import opened Bytes
  import opened Wrappers
  import opened Messages
  import opened Segments
  import opened Cursor
  import opened CmppContent
  import opened Sequence
  import CmppMsgId
  import Framing

  /** The fields `encode_submit` takes from the JSON message. */
  datatype Request = Request(
    content: string,
    format: byte,
    serviceId: Str,
    spId: Str,
    validTime: Str,
    atTime: Str,
    srcId: Str,
    destIds: seq<Str>
  )

  /** One message on its way out: its encoded text, how it is cut, and the reference its parts share. */
  datatype Job = Job(v: Version, r: Request, code: seq<byte>, cut: Cut, reference: byte) {
    /** `sp_id[0..6]` panics on a shorter id. */
    predicate Ready() {
      |r.spId| >= 6 && Exact(|code|, cut)
    }
  }

  const SUBMIT_TYPE: u32 := 4

  /** Everything but contents and destinations. */
  function FixedLen(v: Version): nat {
    if v == Cmpp20 then 138 else 163
  }

  /** `Fee_terminal_Id`, and in 3.0 its type. */
  function FeeWidth(v: Version): nat {
    if v == Cmpp20 then 21 else 33
  }

  function DestWidth(v: Version): nat {
    if v == Cmpp20 then 21 else 32
  }

  function DestsLen(v: Version, dests: nat): nat {
    if v == Cmpp20 then dests * 21 else dests * 32
  }

  /** `Dest_terminal_type`, 3.0 only. */
  function TypeWidth(v: Version): nat {
    if v == Cmpp20 then 0 else 1
  }

  function TailWidth(v: Version): nat {
    if v == Cmpp20 then 8 else 20
  }

  const FEE_TYPE_AND_CODE: seq<byte> := [0x30, 0x31, 0x30, 0x30, 0x30, 0x30, 0x30, 0x31]

  // ---------- encoding ----------

  /** From `Msg_Id` to `src_id`, in front of `rest`. */
  function Head(v: Version, r: Request, udhi: byte, rest: seq<byte>): (b: seq<byte>)
    requires |r.spId| >= 6
    ensures |b| == |rest| + 95 + FeeWidth(v)
  {
    PutU64(0) + ([1, 1, 1, 1] + (Pad(r.serviceId, 10) + (([3] + Zeros(FeeWidth(v)) + [0]) + ([udhi] + ([r.format]
      + (Pad(r.spId[..6], 6) + (FEE_TYPE_AND_CODE + (Pad(r.validTime, 17) + (Pad(r.atTime, 17)
      + (Pad(r.srcId, 21) + rest))))))))))
  }

  function Dests(v: Version, ids: seq<Str>): (b: seq<byte>)
    ensures |b| == DestsLen(v, |ids|)
  {
    if ids == [] then [] else Pad(ids[0], DestWidth(v)) + Dests(v, ids[1..])
  }

  /** `dest_ids.len() as u8`. */
  function Count(r: Request): (n: byte)
    ensures n <= |r.destIds| && (n == |r.destIds| <==> |r.destIds| < 0x100)
    ensures |r.destIds| >= 0x100 ==> |r.destIds| - n >= 0x100
  {
    |r.destIds| % 0x100
  }

  /** What follows the destinations. */
  function Tail(v: Version, head: seq<byte>, part: seq<byte>): (b: seq<byte>)
    requires |head| + |part| < 0x100
    ensures |b| == TypeWidth(v) + 1 + |head| + |part| + TailWidth(v)
  {
    Zeros(TypeWidth(v)) + Content(head, part, Zeros(TailWidth(v)))
  }

  /** Part `i`'s packet after its length, type and sequence number. */
  function Body(m: Job, i: nat): (b: seq<byte>)
    requires m.Ready() && i < m.cut.n
    ensures 12 + |b| == PacketLen(m, i)
  {
    Head(m.v, m.r, Udhi(m.cut),
      [Count(m.r)] + (Dests(m.v, m.r.destIds) + Tail(m.v, PartHead(m.cut, m.reference, i), Part(m.code, m.cut, i))))
  }

  function Overhead(m: Job): nat {
    FixedLen(m.v) + DestsLen(m.v, |m.r.destIds|) + HeadLen(m.cut)
  }

  /** The length the encoder declares for part `i`. */
  function PacketLen(m: Job, i: nat): nat
    requires m.Ready() && i < m.cut.n
  {
    Overhead(m) + |Part(m.code, m.cut, i)|
  }

  function Pdu(m: Job, i: nat, seqId: u32): Framing.Pdu
    requires m.Ready() && i < m.cut.n
  {
    Framing.Pdu(SUBMIT_TYPE, seqId, Body(m, i))
  }

  function Pdus(m: Job, seqIds: seq<u32>): (ps: seq<Framing.Pdu>)
    requires m.Ready() && |seqIds| == m.cut.n
    ensures |ps| == m.cut.n
    ensures Sendable(m) ==> Framing.AllFit(ps)
  {
    seq(m.cut.n, i requires 0 <= i < m.cut.n => Pdu(m, i, seqIds[i]))
  }

  /** With this many destinations every packet is within the codec's limit. */
  predicate Sendable(m: Job) {
    m.Ready() && Overhead(m) + 140 <= Framing.MAX_FRAME
  }

  // ---------- lengths ----------

  /** The buffer size computed before the first byte is written is exactly the number of bytes written. */
  lemma WireLen(m: Job, seqIds: seq<u32>)
    requires m.Ready() && |seqIds| == m.cut.n
    ensures |Framing.Wire(Pdus(m, seqIds))| == m.cut.n * Overhead(m) + |m.code|
  {
    var last := m.cut.n - 1;
    BodyLens(m, seqIds);
    Framing.WireLen(Pdus(m, seqIds), Overhead(m), OneLen(m.cut), |Part(m.code, m.cut, last)|);
  }

  lemma BodyLens(m: Job, seqIds: seq<u32>)
    requires m.Ready() && |seqIds| == m.cut.n
    ensures forall k :: 0 <= k < m.cut.n ==>
      12 + |Pdus(m, seqIds)[k].body| == Overhead(m) + |Part(m.code, m.cut, k)|
  {
  }

  // ---------- the encoder's loops ----------

  /** `dest_ids.len() as u32`. */
  function Step(r: Request): u32 {
    |r.destIds| % 0x1_0000_0000
  }

  /** The message `encode_submit` sends when the counter stands at `next`: a long one draws its reference first. */
  function JobFor(v: Version, r: Request, code: seq<byte>, next: u32): Job {
    var cut := CutFor(|code|);
    Job(v, r, code, cut, if cut.long then next % 0x100 else 0)
  }

  function FirstId(m: Job, next: u32): u32 {
    if m.cut.long then Bump(next, 1) else next
  }

  /** `encode_submit`. */
  method EncodeSubmit(v: Version, r: Request, sequencer: Sequencer)
    returns (result: Result<seq<byte>, ContentError>, seqIds: seq<u32>)
    requires |r.spId| >= 6
    requires EncodeText(r.format, r.content).Success? ==> |EncodeText(r.format, r.content).value| < MAX_LEN
    modifies sequencer
    ensures match EncodeText(r.format, r.content)
            case Failure(e) => result == Failure(e) && seqIds == [] && sequencer.next == old(sequencer.next)
            case Success(code) =>
              var m := JobFor(v, r, code, old(sequencer.next));
              m.Ready()
              && seqIds == Run(FirstId(m, old(sequencer.next)), Steps(m.cut.n, Step(r)))
              && sequencer.next == After(FirstId(m, old(sequencer.next)), Steps(m.cut.n, Step(r)))
              && result == Success(Framing.Wire(Pdus(m, seqIds)))
  {
    seqIds := [];
    match EncodeText(r.format, r.content) {
      case Failure(e) =>
        result := Failure(e);
      case Success(code) =>
        var cut := CutFor(|code|);
        CutForExact(|code|);
        var reference := 0;
        if cut.long {
          var id := sequencer.GetSequenceId(1);
          reference := id % 0x100;
        }
        var dst;
        dst, seqIds := EncodeParts(Job(v, r, code, cut, reference), Step(r), sequencer);
        result := Success(dst);
    }
  }

  /**
    A long message takes the first number for its reference; then every part
    takes the next and leaves out one for each further destination.
   */
  lemma NumbersDrawn(v: Version, r: Request, code: seq<byte>, next: u32, i: nat)
    requires i < CutFor(|code|).n
    ensures var m := JobFor(v, r, code, next);
      var step := if |r.destIds| % 0x1_0000_0000 == 0 then 1 else |r.destIds| % 0x1_0000_0000;
      var one := if m.cut.long then 1 else 0;
      Run(FirstId(m, next), Steps(m.cut.n, Step(r)))[i] == (next + one + i * step) % 0x1_0000_0000
      && After(FirstId(m, next), Steps(m.cut.n, Step(r))) == (next + one + m.cut.n * step) % 0x1_0000_0000
      && m.reference == if m.cut.long then next % 0x100 else 0
  {
    var m := JobFor(v, r, code, next);
    RunOfSteps(next, if m.cut.long then 1 else 0, m.cut.n, Step(r), i);
    assert FirstId(m, next) == Shift(next, if m.cut.long then 1 else 0);
  }

  /** The loop over the parts. */
  method EncodeParts(m: Job, step: u32, sequencer: Sequencer) returns (dst: seq<byte>, seqIds: seq<u32>)
    requires m.Ready()
    modifies sequencer
    ensures seqIds == Run(old(sequencer.next), Steps(m.cut.n, step))
    ensures sequencer.next == After(old(sequencer.next), Steps(m.cut.n, step))
    ensures dst == Framing.Wire(Pdus(m, seqIds))
  {
    ghost var first, steps := sequencer.next, Steps(m.cut.n, step);
    ghost var ids := Run(first, steps);
    ghost var ps := Pdus(m, ids);
    seqIds, dst := [], [];
    assert steps[..0] == [];
    for i := 0 to m.cut.n
      invariant seqIds == ids[..i]
      invariant sequencer.next == After(first, steps[..i])
      invariant dst == Framing.Wire(ps[..i])
    {
      RunAt(first, steps, i);
      var seqId := sequencer.GetSequenceId(step);
      assert seqId == ids[i] && sequencer.next == After(first, steps[..i + 1]);
      Framing.PrefixSnoc(ids, i);
      seqIds := seqIds + [seqId];
      dst := AppendPacket(m, i, seqId, dst);
      Framing.WireSnoc(ps, i);
    }
    assert ids[..m.cut.n] == ids && steps[..m.cut.n] == steps && ps[..m.cut.n] == ps;
  }

  /** The puts of one round of the loop; the declared length is the true one, cut to 32 bits. */
  method AppendPacket(m: Job, i: nat, seqId: u32, input: seq<byte>) returns (dst: seq<byte>)
    requires m.Ready() && i < m.cut.n
    ensures dst == input + Framing.Packet(Pdu(m, i, seqId))
  {
    var part := TakePart(m.code, m.cut, i);
    var head := PartHead(m.cut, m.reference, i);
    ghost var full, tail := input + Framing.Packet(Pdu(m, i, seqId)), Tail(m.v, head, part);
    ghost var dests := Dests(m.v, m.r.destIds) + tail;
    HeadAppends(m.v, m.r, Udhi(m.cut), [Count(m.r)] + dests);
    dst := Put(input, PutU32((Overhead(m) + |part|) % 0x1_0000_0000), Framing.Frame(Pdu(m, i, seqId)), full);
    dst := Put(dst, PutU32(SUBMIT_TYPE), PutU32(seqId) + Body(m, i), full);
    dst := Put(dst, PutU32(seqId), Body(m, i), full);
    dst := Put(dst, Head(m.v, m.r, Udhi(m.cut), []), [Count(m.r)] + dests, full);
    dst := Put(dst, [Count(m.r)], dests, full);
    dst := PutDests(m.v, m.r.destIds, dst, tail, full);
    dst := PutTail(m.v, head, part, dst, full);
  }

  lemma HeadAppends(v: Version, r: Request, udhi: byte, rest: seq<byte>)
    requires |r.spId| >= 6
    ensures Head(v, r, udhi, rest) == Head(v, r, udhi, []) + rest
  {
  }

  method PutDests(v: Version, ids: seq<Str>, input: seq<byte>, ghost rest: seq<byte>, ghost full: seq<byte>)
    returns (dst: seq<byte>)
    requires full == input + (Dests(v, ids) + rest)
    ensures full == dst + rest
  {
    dst := input;
    for k := 0 to |ids|
      invariant full == dst + (Dests(v, ids[k..]) + rest)
    {
      assert ids[k..][1..] == ids[k + 1..];
      Framing.Associative(Pad(ids[k], DestWidth(v)), Dests(v, ids[k + 1..]), rest);
      dst := Put(dst, Pad(ids[k], DestWidth(v)), Dests(v, ids[k + 1..]) + rest, full);
    }
    assert [] + rest == rest;
  }

  method PutTail(v: Version, head: seq<byte>, part: seq<byte>, input: seq<byte>, ghost full: seq<byte>)
    returns (dst: seq<byte>)
    requires |head| + |part| < 0x100
    requires full == input + Tail(v, head, part)
    ensures dst == full
  {
    var zeros := Zeros(TailWidth(v));
    dst := Put(input, Zeros(TypeWidth(v)), Content(head, part, zeros), full);
    dst := PutContent(head, part, zeros, dst, full);
  }

  // ---------- decoding ----------

  datatype Header = Header(
    msgId: u64,
    serviceId: Str,
    udhi: byte,
    format: byte,
    spId: Str,
    validTime: Str,
    atTime: Str,
    srcId: Str,
    count: byte
  )

  /** The part of the header that both versions lay out alike. */
  function DecodeAddresses(b: seq<byte>, msgId: u64, serviceId: Str, udhi: byte, format: byte): Read<Header> {
    var (spId, b) := LoadString(b, 6);
    var (_, b) :- Advance(b, 8);
    var (validTime, b) := LoadString(b, 17);
    var (atTime, b) := LoadString(b, 17);
    var (srcId, b) := LoadString(b, 21);
    var (count, b) :- GetByte(b);
    Got(Header(msgId, serviceId, udhi, format, spId, validTime, atTime, srcId, count), b)
  }

  function DecodeHead(v: Version, b: seq<byte>): Read<Header> {
    var (msgId, b) :- GetLong(b);
    var (_, b) :- Advance(b, 4);
    var (serviceId, b) := LoadString(b, 10);
    var (_, b) :- Advance(b, FeeWidth(v) + 2);
    var (udhi, b) :- GetByte(b);
    var (format, b) :- GetByte(b);
    DecodeAddresses(b, msgId, serviceId, udhi, format)
  }

  function DecodeDests(v: Version, b: seq<byte>, count: nat): (r: (seq<Str>, seq<byte>))
    ensures |r.0| == count
  {
    if count == 0 then ([], b)
    else
      var (id, b) := LoadString(b, DestWidth(v));
      var (ids, b) := DecodeDests(v, b, count - 1);
      ([id] + ids, b)
  }

  function Received(h: Header, seqId: u32, destIds: seq<Str>, text: Text): Json {
    EMPTY.(kind := Submit, seqId := Some(seqId), msgId := Some(CmppMsgId.U64ToStr(h.msgId)),
           longTotal := text.total, longNumber := text.number,
           body := EMPTY_BODY.(srcId := Some(h.srcId), destIds := destIds, content := Some(text.content),
                               format := Some(h.format), serviceId := Some(h.serviceId), spId := Some(h.spId),
                               validTime := Some(h.validTime), atTime := Some(h.atTime)))
  }

  /** Type byte, length byte and text. */
  function DecodeTail(v: Version, h: Header, b: seq<byte>): Decoded<Text> {
    match Advance(b, TypeWidth(v))
    case Panic => Panicked
    case Got(_, b) =>
      match GetByte(b)
      case Panic => Panicked
      case Got(length, b) => DecodeContent(b, h.format, length, h.udhi != 0)
  }

  function Finish(h: Header, seqId: u32, destIds: seq<Str>, text: Decoded<Text>): Decoded<Json> {
    match text
    case Panicked => Panicked
    case Rejected(e) => Rejected(e)
    case Ok(t) => Ok(Received(h, seqId, destIds, t))
  }

  /** `decode_submit` on a frame whose type and sequence number have been read. */
  function DecodeSubmit(v: Version, b: seq<byte>, seqId: u32): Decoded<Json> {
    match DecodeHead(v, b)
    case Panic => Panicked
    case Got(h, b) =>
      var (destIds, b) := DecodeDests(v, b, h.count);
      Finish(h, seqId, destIds, DecodeTail(v, h, b))
  }

  /** `decode_submit`, consuming the buffer step by step. */
  method ReadSubmit(v: Version, buf: Buffer, seqId: u32) returns (r: Decoded<Json>)
    modifies buf
    ensures r == DecodeSubmit(v, old(buf.bytes), seqId)
  {
    var h := ReadHead(v, buf);
    if h == None {
      return Panicked;
    }
    var destIds := ReadDests(v, buf, h.value.count);
    var ok := buf.Skip(TypeWidth(v));
    if !ok {
      return Panicked;
    }
    var length := buf.GetU8();
    if length == None {
      return Panicked;
    }
    var text := ReadContent(buf, h.value.format, length.value, h.value.udhi != 0);
    r := Finish(h.value, seqId, destIds, text);
  }

  /** From `Msg_Id` to the destination count; `None` stands for a panic. */
  method ReadHead(v: Version, buf: Buffer) returns (h: Option<Header>)
    modifies buf
    ensures match DecodeHead(v, old(buf.bytes))
            case Panic => h == None
            case Got(header, rest) => h == Some(header) && buf.bytes == rest
  {
    var msgId := buf.GetU64();
    if msgId == None {
      return None;
    }
    var ok := buf.Skip(4);
    if !ok {
      return None;
    }
    var serviceId := buf.LoadUtf8String(10);
    ok := buf.Skip(FeeWidth(v) + 2);
    if !ok {
      return None;
    }
    var udhi := buf.GetU8();
    if udhi == None {
      return None;
    }
    var format := buf.GetU8();
    if format == None {
      return None;
    }
    h := ReadAddresses(buf, msgId.value, serviceId, udhi.value, format.value);
  }

  method ReadAddresses(buf: Buffer, msgId: u64, serviceId: Str, udhi: byte, format: byte) returns (h: Option<Header>)
    modifies buf
    ensures match DecodeAddresses(old(buf.bytes), msgId, serviceId, udhi, format)
            case Panic => h == None
            case Got(header, rest) => h == Some(header) && buf.bytes == rest
  {
    var spId := buf.LoadUtf8String(6);
    var ok := buf.Skip(8);
    if !ok {
      return None;
    }
    var validTime := buf.LoadUtf8String(17);
    var atTime := buf.LoadUtf8String(17);
    var srcId := buf.LoadUtf8String(21);
    var count := buf.GetU8();
    if count == None {
      return None;
    }
    h := Some(Header(msgId, serviceId, udhi, format, spId, validTime, atTime, srcId, count.value));
  }

  method ReadDests(v: Version, buf: Buffer, count: byte) returns (destIds: seq<Str>)
    modifies buf
    ensures (destIds, buf.bytes) == DecodeDests(v, old(buf.bytes), count)
  {
    destIds := [];
    ghost var input, left: nat := buf.bytes, count;
    assert [] + DecodeDests(v, input, count).0 == DecodeDests(v, input, count).0;
    for i := 0 to count
      invariant left == count as int - i
      invariant DecodeDests(v, input, count).0 == destIds + DecodeDests(v, buf.bytes, left).0
      invariant DecodeDests(v, input, count).1 == DecodeDests(v, buf.bytes, left).1
    {
      var id := buf.LoadUtf8String(DestWidth(v));
      Framing.Associative(destIds, [id], DecodeDests(v, buf.bytes, left - 1).0);
      destIds := destIds + [id];
      left := left - 1;
    }
    assert destIds + [] == destIds;
  }

  // ---------- decoding inverts encoding ----------

  /** What the receiver gets for the sender's fixed fields. */
  function Arrived(r: Request, udhi: byte): Header
    requires |r.spId| >= 6
  {
    Header(0, Stored(r.serviceId, 10), udhi, r.format, Stored(r.spId[..6], 6), Stored(r.validTime, 17),
           Stored(r.atTime, 17), Stored(r.srcId, 21), Count(r))
  }

  function StoredDests(v: Version, ids: seq<Str>): (s: seq<Str>)
    ensures |s| == |ids|
  {
    if ids == [] then [] else [Stored(ids[0], DestWidth(v))] + StoredDests(v, ids[1..])
  }

  lemma HeadDecodes(v: Version, r: Request, udhi: byte, rest: seq<byte>)
    requires |r.spId| >= 6
    ensures DecodeHead(v, Head(v, r, udhi, [Count(r)] + rest)) == Got(Arrived(r, udhi), rest)
  {
    var b10 := [Count(r)] + rest;
    var b9 := Pad(r.srcId, 21) + b10;
    var b8 := Pad(r.atTime, 17) + b9;
    var b7 := Pad(r.validTime, 17) + b8;
    var b6 := FEE_TYPE_AND_CODE + b7;
    var b5 := Pad(r.spId[..6], 6) + b6;
    var b4 := [r.format] + b5;
    var b3 := [udhi] + b4;
    var b2 := ([3] + Zeros(FeeWidth(v)) + [0]) + b3;
    var b1 := Pad(r.serviceId, 10) + b2;
    var b0 := [1, 1, 1, 1] + b1;
    LongAt(0, b0);
    Skip([1, 1, 1, 1], b1);
    StringAt(r.serviceId, 10, b2);
    Skip([3] + Zeros(FeeWidth(v)) + [0], b3);
    ByteAt(udhi, b4);
    ByteAt(r.format, b5);
    StringAt(r.spId[..6], 6, b6);
    Skip(FEE_TYPE_AND_CODE, b7);
    StringAt(r.validTime, 17, b8);
    StringAt(r.atTime, 17, b9);
    StringAt(r.srcId, 21, b10);
    ByteAt(Count(r), rest);
  }

  lemma FirstDest(v: Version, ids: seq<Str>, rest: seq<byte>)
    requires ids != []
    ensures LoadString(Dests(v, ids) + rest, DestWidth(v)) == (Stored(ids[0], DestWidth(v)), Dests(v, ids[1..]) + rest)
  {
    Framing.Associative(Pad(ids[0], DestWidth(v)), Dests(v, ids[1..]), rest);
    StringAt(ids[0], DestWidth(v), Dests(v, ids[1..]) + rest);
  }

  /** One more destination is read. */
  lemma DestStep(v: Version, ids: seq<Str>, rest: seq<byte>, read: seq<Str>)
    requires ids != [] && DecodeDests(v, Dests(v, ids[1..]) + rest, |ids| - 1) == (read, rest)
    ensures DecodeDests(v, Dests(v, ids) + rest, |ids|) == ([Stored(ids[0], DestWidth(v))] + read, rest)
  {
    FirstDest(v, ids, rest);
  }

  lemma {:induction false} DestsDecode(v: Version, ids: seq<Str>, rest: seq<byte>)
    ensures DecodeDests(v, Dests(v, ids) + rest, |ids|) == (StoredDests(v, ids), rest)
    decreases |ids|
  {
    if ids == [] {
      NoDests(v, rest);
    } else {
      DestsDecode(v, ids[1..], rest);
      DestStep(v, ids, rest, StoredDests(v, ids[1..]));
    }
  }

  lemma NoDests(v: Version, rest: seq<byte>)
    ensures DecodeDests(v, Dests(v, []) + rest, 0) == ([], rest)
  {
    assert [] + rest == rest;
  }

  lemma {:induction false} DestsAdd(v: Version, a: seq<Str>, b: seq<Str>)
    ensures Dests(v, a + b) == Dests(v, a) + Dests(v, b)
    decreases |a|
  {
    if a == [] {
      assert a + b == b;
    } else {
      assert (a + b)[1..] == a[1..] + b;
      DestsAdd(v, a[1..], b);
      Framing.Associative(Pad(a[0], DestWidth(v)), Dests(v, a[1..]), Dests(v, b));
    }
  }

  /** A count of `n` reads the first `n` destinations and leaves the others. */
  lemma SomeDestsDecode(v: Version, ids: seq<Str>, rest: seq<byte>, n: nat)
    requires n <= |ids|
    ensures DecodeDests(v, Dests(v, ids) + rest, n) == (StoredDests(v, ids[..n]), Dests(v, ids[n..]) + rest)
  {
    assert ids == ids[..n] + ids[n..];
    DestsAdd(v, ids[..n], ids[n..]);
    Framing.Associative(Dests(v, ids[..n]), Dests(v, ids[n..]), rest);
    DestsDecode(v, ids[..n], Dests(v, ids[n..]) + rest);
  }

  lemma LengthThenContent(v: Version, h: Header, head: seq<byte>, part: seq<byte>)
    requires |head| + |part| < 0x100
    ensures DecodeTail(v, h, Tail(v, head, part))
         == DecodeContent(head + (part + Zeros(TailWidth(v))), h.format, |head| + |part|, h.udhi != 0)
  {
    var zeros := Zeros(TailWidth(v));
    Skip(Zeros(TypeWidth(v)), Content(head, part, zeros));
    ByteAt(|head| + |part|, head + (part + zeros));
  }

  lemma TailDecodes(v: Version, h: Header, cut: Cut, reference: byte, i: nat, part: seq<byte>)
    requires if cut.long then 1 <= |part| <= 134 && cut.n > 1 else |part| <= 140 && cut.n == 1
    requires h.udhi == Udhi(cut)
    ensures DecodeTail(v, h, Tail(v, PartHead(cut, reference, i), part))
         == PartText(h.format, part, Total(cut), Number(cut, i))
  {
    var zeros := Zeros(TailWidth(v));
    LengthThenContent(v, h, PartHead(cut, reference, i), part);
    if cut.long {
      LongContent(h.format, reference, cut.n, i + 1, part, zeros);
    } else {
      assert [] + (part + zeros) == part + zeros;
      WholeContent(h.format, part, zeros);
    }
  }

  lemma Assemble(v: Version, b: seq<byte>, seqId: u32, h: Header, rest: seq<byte>, destIds: seq<Str>, tail: seq<byte>)
    requires DecodeHead(v, b) == Got(h, rest)
    requires DecodeDests(v, rest, h.count) == (destIds, tail)
    ensures DecodeSubmit(v, b, seqId) == Finish(h, seqId, destIds, DecodeTail(v, h, tail))
  {
  }

  /** The part of the packet behind the destinations. */
  function PartTail(m: Job, i: nat): seq<byte>
    requires m.Ready() && i < m.cut.n
  {
    Tail(m.v, PartHead(m.cut, m.reference, i), Part(m.code, m.cut, i))
  }

  /** The destinations a receiver takes, and the bytes in which it looks for the content. */
  function Taken(m: Job): seq<Str> {
    m.r.destIds[..Count(m.r)]
  }

  function Behind(m: Job): seq<byte> {
    Dests(m.v, m.r.destIds[Count(m.r)..])
  }

  /**
    Whatever the number of destinations, the receiver takes as many as the
    count byte says, and reads the content where the next one would stand.
   */
  lemma AnyCountDecodes(m: Job, i: nat, seqId: u32)
    requires m.Ready() && i < m.cut.n
    ensures DecodeSubmit(m.v, Body(m, i), seqId)
         == Finish(Arrived(m.r, Udhi(m.cut)), seqId, StoredDests(m.v, Taken(m)),
                   DecodeTail(m.v, Arrived(m.r, Udhi(m.cut)), Behind(m) + PartTail(m, i)))
  {
    var h, ids, n, tail := Arrived(m.r, Udhi(m.cut)), m.r.destIds, Count(m.r), PartTail(m, i);
    HeadDecodes(m.v, m.r, Udhi(m.cut), Dests(m.v, ids) + tail);
    SomeDestsDecode(m.v, ids, tail, n);
    Assemble(m.v, Body(m, i), seqId, h, Dests(m.v, ids) + tail, StoredDests(m.v, Taken(m)), Behind(m) + tail);
  }

  lemma FewDestinations(m: Job, rest: seq<byte>)
    requires |m.r.destIds| < 0x100
    ensures Taken(m) == m.r.destIds && Behind(m) + rest == rest
  {
    assert m.r.destIds[Count(m.r)..] == [];
  }

  /** Up to 255 destinations, decoding part `i` returns every field both layouts carry. */
  lemma SubmitRoundTrip(m: Job, i: nat, seqId: u32)
    requires m.Ready() && i < m.cut.n && |m.r.destIds| < 0x100
    ensures DecodeSubmit(m.v, Body(m, i), seqId)
         == Finish(Arrived(m.r, Udhi(m.cut)), seqId, StoredDests(m.v, m.r.destIds),
                   PartText(m.r.format, Part(m.code, m.cut, i), Total(m.cut), Number(m.cut, i)))
  {
    AnyCountDecodes(m, i, seqId);
    FewDestinations(m, PartTail(m, i));
    TailDecodes(m.v, Arrived(m.r, Udhi(m.cut)), m.cut, m.reference, i, Part(m.code, m.cut, i));
  }

  /** Up to 255 destinations, what arrives says field by field what was sent, as far as it fits, and nothing else. */
  lemma SubmitFields(m: Job, i: nat, seqId: u32)
    requires m.Ready() && i < m.cut.n && |m.r.destIds| < 0x100
    ensures var d := DecodeSubmit(m.v, Body(m, i), seqId);
      d.Ok? ==>
        var j, b := d.value, d.value.body;
        && j.kind == Submit && j.seqId == Some(seqId) && j.msgId == Some(CmppMsgId.U64ToStr(0))
        && b.serviceId == Some(Stored(m.r.serviceId, 10)) && b.spId == Some(Stored(m.r.spId[..6], 6))
        && b.srcId == Some(Stored(m.r.srcId, 21)) && b.format == Some(m.r.format)
        && b.validTime == Some(Stored(m.r.validTime, 17)) && b.atTime == Some(Stored(m.r.atTime, 17))
        && |b.destIds| == |m.r.destIds|
        && (forall k :: 0 <= k < |b.destIds| ==>
              b.destIds[k] == Stored(m.r.destIds[k], if m.v == Cmpp20 then 21 else 32))
        && j == EMPTY.(kind := Submit, seqId := j.seqId, msgId := j.msgId, longTotal := j.longTotal,
                       longNumber := j.longNumber,
                       body := EMPTY_BODY.(serviceId := b.serviceId, spId := b.spId, srcId := b.srcId,
                                           format := b.format,
                                           validTime := b.validTime, atTime := b.atTime, destIds := b.destIds,
                                           content := b.content))
  {
    SubmitRoundTrip(m, i, seqId);
    StoredEach(m.v, m.r.destIds);
  }

  lemma {:induction false} StoredEach(v: Version, ids: seq<Str>)
    ensures forall k :: 0 <= k < |ids| ==> StoredDests(v, ids)[k] == Stored(ids[k], if v == Cmpp20 then 21 else 32)
  {
    if ids != [] {
      StoredEach(v, ids[1..]);
    }
  }

  /** With more, the content is read out of the destinations left over: it is the same for every part. */
  lemma ManyDestinationsHideContent(m: Job, i: nat, seqId: u32)
    requires m.Ready() && i < m.cut.n && |m.r.destIds| >= 0x100
    ensures DecodeSubmit(m.v, Body(m, i), seqId)
         == Finish(Arrived(m.r, Udhi(m.cut)), seqId, StoredDests(m.v, Taken(m)),
                   DecodeTail(m.v, Arrived(m.r, Udhi(m.cut)), Behind(m)))
  {
    AnyCountDecodes(m, i, seqId);
    TailIgnoresRest(m.v, Arrived(m.r, Udhi(m.cut)), Behind(m), PartTail(m, i));
  }

  /** A content and what precedes it never take 1024 bytes. */
  lemma TailIgnoresRest(v: Version, h: Header, b: seq<byte>, rest: seq<byte>)
    requires |b| >= 1024
    ensures DecodeTail(v, h, b + rest) == DecodeTail(v, h, b)
  {
    var t := TypeWidth(v);
    assert (b + rest)[t..] == b[t..] + rest;
    assert (b[t..] + rest)[1..] == b[t..][1..] + rest;
    ContentIgnoresRest(b[t..][1..], rest, h.format, b[t..][0], h.udhi != 0);
  }

  lemma FinishKeepsDests(h: Header, seqId: u32, dests: seq<Str>, text: Decoded<Text>)
    ensures Finish(h, seqId, dests, text).Ok? ==> Finish(h, seqId, dests, text).value.body.destIds == dests
  {
  }

  /** The destination count is one byte, so a list that decodes is the sender's exactly up to 255 entries. */
  lemma DestinationsSurviveIff(m: Job, i: nat, seqId: u32)
    requires m.Ready() && i < m.cut.n
    ensures var d := DecodeSubmit(m.v, Body(m, i), seqId);
      d.Ok? ==> (d.value.body.destIds == StoredDests(m.v, m.r.destIds) <==> |m.r.destIds| < 0x100)
  {
    AnyCountDecodes(m, i, seqId);
    FinishKeepsDests(Arrived(m.r, Udhi(m.cut)), seqId, StoredDests(m.v, Taken(m)),
                     DecodeTail(m.v, Arrived(m.r, Udhi(m.cut)), Behind(m) + PartTail(m, i)));
    if |m.r.destIds| < 0x100 {
      FewDestinations(m, []);
    }
  }

  /** 256 destinations "1", of which the receiver takes none, and an empty ASCII text, in version 3.0. */
  const CROWD: Job :=
    Job(Cmpp30, Request([], 0, [], [0x31, 0x31, 0x31, 0x31, 0x31, 0x31], [], [], [], seq(0x100, _ => [0x31])), [],
        Cut(false, 1), 0)

  /** Such a packet does decode, with an empty list: the first destination is taken for type and length. */
  lemma CrowdIsLost(seqId: u32)
    ensures CROWD.Ready() && |CROWD.r.destIds| == 0x100
    ensures var d := DecodeSubmit(Cmpp30, Body(CROWD, 0), seqId); d.Ok? && d.value.body.destIds == []
  {
    ManyDestinationsHideContent(CROWD, 0, seqId);
    CrowdTail(Arrived(CROWD.r, 0));
    FinishKeepsDests(Arrived(CROWD.r, 0), seqId, [], DecodeTail(Cmpp30, Arrived(CROWD.r, 0), Behind(CROWD)));
  }

  lemma CrowdTail(h: Header)
    requires h.format == 0 && h.udhi == 0
    ensures Taken(CROWD) == [] && DecodeTail(Cmpp30, h, Behind(CROWD)).Ok?
  {
    var ids := CROWD.r.destIds;
    assert Count(CROWD.r) == 0 && ids[0..] == ids;
    var b := Behind(CROWD);
    assert b == Pad([0x31], 32) + Dests(Cmpp30, ids[1..]);
    assert b[1..][0] == 0;
    EmptyText(b[1..][1..]);
  }

  lemma EmptyText(b: seq<byte>)
    ensures DecodeContent(b, 0, 0, false) == Ok(Text(None, None, []))
  {
  }
}
