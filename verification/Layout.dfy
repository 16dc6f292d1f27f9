/**
  Where everything stands in the packets the encoders write, counted in bytes
  from the start of the packet (sections of "CMPP 2.0" and "CMPP 3.0" on
  CMPP_SUBMIT and CMPP_DELIVER; src/protocol/cmpp32.rs, src/protocol/implements.rs).
 */
module Layout {
  import opened Bytes
  import opened Messages
  import opened Segments
  import opened CmppContent
  import CmppDeliver
  import CmppSubmit
  import Framing

  /** The number that bytes spell, the first being the highest. */
  function Number(b: seq<byte>): nat {
    if b == [] then 0 else Number(b[..|b| - 1]) * 0x100 + b[|b| - 1]
  }

  lemma NumberSnoc(a: seq<byte>, x: byte)
    ensures Number(a + [x]) == Number(a) * 0x100 + x
  {
    assert (a + [x])[..|a|] == a;
  }

  lemma NumberPair(a: seq<byte>, x: byte, y: byte)
    ensures Number(a + [x, y]) == Number(a) * 0x1_0000 + x * 0x100 + y
  {
    assert a + [x, y] == (a + [x]) + [y];
    NumberSnoc(a, x);
    NumberSnoc(a + [x], y);
  }

  /** Sixteen, 32 and 64 bits are written with the high byte first. */
  lemma HighByteFirst16(a: seq<byte>, n: u16)
    ensures Number(a + PutU16(n)) == Number(a) * 0x1_0000 + n
  {
    NumberPair(a, n / 0x100, n % 0x100);
  }

  lemma HighByteFirst32(n: u32)
    ensures Number(PutU32(n)) == n
  {
    var hi, lo := PutU16(n / 0x1_0000), PutU16(n % 0x1_0000);
    assert [] + hi == hi;
    HighByteFirst16([], n / 0x1_0000);
    HighByteFirst16(hi, n % 0x1_0000);
  }

  lemma HighByteFirst64(n: u64)
    ensures Number(PutU64(n)) == n
  {
    var hi, lo := n / 0x1_0000_0000, n % 0x1_0000_0000;
    var front := PutU32(hi) + PutU16(lo / 0x1_0000);
    HighByteFirst32(hi);
    HighByteFirst16(PutU32(hi), lo / 0x1_0000);
    HighByteFirst16(front, lo % 0x1_0000);
    assert PutU64(n) == front + PutU16(lo % 0x1_0000);
  }

  /** A fixed-width field holds as much of the string as it has room for, and zeros behind it. */
  lemma FieldIs(s: seq<byte>, width: nat)
    ensures |Pad(s, width)| == width
    ensures forall i :: 0 <= i < width ==> Pad(s, width)[i] == if i < |s| then s[i] else 0
  {
  }

  /** `piece` stands at `k`. */
  predicate Stands(b: seq<byte>, k: nat, piece: seq<byte>) {
    k + |piece| <= |b| && b[k..k + |piece|] == piece
  }

  /** This number stands at `k`, in as many bytes. */
  predicate Holds(b: seq<byte>, k: nat, width: nat, n: nat) {
    k + width <= |b| && Number(b[k..k + width]) == n
  }

  predicate NothingBehind(b: seq<byte>, k: nat) {
    k == |b|
  }

  lemma Peel(b: seq<byte>, k: nat, piece: seq<byte>, rest: seq<byte>) returns (next: nat)
    requires k <= |b| && b[k..] == piece + rest
    ensures next == k + |piece| && Stands(b, k, piece) && next <= |b| && b[next..] == rest
  {
    next := k + |piece|;
    assert b[k..][..|piece|] == piece && b[k..][|piece|..] == rest;
    assert b[k..next] == b[k..][..|piece|] && b[next..] == b[k..][|piece|..];
  }

  lemma PeelWord(b: seq<byte>, k: nat, n: u32, rest: seq<byte>) returns (next: nat)
    requires k <= |b| && b[k..] == PutU32(n) + rest
    ensures next == k + 4 && Holds(b, k, 4, n) && next <= |b| && b[next..] == rest
  {
    next := Peel(b, k, PutU32(n), rest);
    HighByteFirst32(n);
  }

  lemma PeelLong(b: seq<byte>, k: nat, n: u64, rest: seq<byte>) returns (next: nat)
    requires k <= |b| && b[k..] == PutU64(n) + rest
    ensures next == k + 8 && Holds(b, k, 8, n) && next <= |b| && b[next..] == rest
  {
    next := Peel(b, k, PutU64(n), rest);
    HighByteFirst64(n);
  }

  // ---------- every packet ----------

  /** Total length, command and sequence number, then the body. */
  lemma PacketLayout(p: Framing.Pdu)
    requires 12 + |p.body| < 0x1_0000_0000
    ensures var b := Framing.Packet(p);
      |b| == 12 + |p.body| && Holds(b, 0, 4, |b|) && Holds(b, 4, 4, p.tp) && Holds(b, 8, 4, p.seqId)
      && b[12..] == p.body
  {
    var b := Framing.Packet(p);
    assert b[0..] == PutU32(12 + |p.body|) + Framing.Frame(p);
    var k := PeelWord(b, 0, 12 + |p.body|, Framing.Frame(p));
    k := PeelWord(b, k, p.tp, PutU32(p.seqId) + p.body);
    k := PeelWord(b, k, p.seqId, p.body);
  }

  /**
    A frame is taken off a stream exactly if its length is there, counts at
    least itself and at most 8 MiB, and that many bytes have arrived; its
    length is not handed on.
   */
  lemma FrameTaken(b: seq<byte>)
    ensures |b| >= 4 && 4 <= Number(b[..4]) <= 8_388_608 && Number(b[..4]) <= |b| ==>
      Framing.Deframe(b)
      == Framing.Deframed([b[4..Number(b[..4])]] + Framing.Deframe(b[Number(b[..4])..]).bodies,
                          Framing.Deframe(b[Number(b[..4])..]).rest)
    ensures !(|b| >= 4 && 4 <= Number(b[..4]) <= 8_388_608 && Number(b[..4]) <= |b|) ==>
      Framing.Deframe(b) == Framing.Deframed([], b)
  {
    if |b| >= 4 {
      WordIs(b);
    }
  }

  lemma WordIs(b: seq<byte>)
    requires |b| >= 4
    ensures Number(b[..4]) == GetU32(b)
  {
    var hi := [] + [b[0], b[1]];
    assert b[..4] == hi + [b[2], b[3]];
    NumberPair([], b[0], b[1]);
    NumberPair(hi, b[2], b[3]);
  }

  /** The commands of the two packets that carry messages. */
  lemma Commands(m: CmppSubmit.Job, n: CmppDeliver.Job, i: nat, seqId: u32)
    ensures m.Ready() && i < m.cut.n ==>
      CmppSubmit.Pdu(m, i, seqId) == Framing.Pdu(4, seqId, CmppSubmit.Body(m, i))
    ensures n.Ready() && i < n.cut.n ==>
      CmppDeliver.Pdu(n, i, seqId) == Framing.Pdu(5, seqId, CmppDeliver.Body(n, i))
  {
  }

  // ---------- the content ----------

  /**
    The length byte, for a part of a long message the six bytes of the
    concatenation header (3GPP TS 23.040, section 9.2.3.24.1), and the part.
   */
  predicate ContentAt(b: seq<byte>, k: nat, cut: Cut, reference: byte, i: nat, part: seq<byte>) {
    if cut.long then
      Stands(b, k, [(6 + |part|) % 0x100, 5, 0, 3, reference, cut.n % 0x100, (i + 1) % 0x100]) && Stands(b, k + 7, part)
    else Stands(b, k, [|part| % 0x100]) && Stands(b, k + 1, part)
  }

  lemma PeelContent(b: seq<byte>, k: nat, cut: Cut, reference: byte, i: nat, part: seq<byte>, rest: seq<byte>)
    returns (next: nat)
    requires |part| <= 140 && k <= |b| && b[k..] == Content(PartHead(cut, reference, i), part, rest)
    ensures next == k + 1 + (if cut.long then 6 else 0) + |part| && ContentAt(b, k, cut, reference, i, part)
    ensures next <= |b| && b[next..] == rest
  {
    var head := PartHead(cut, reference, i);
    next := Peel(b, k, [|head| + |part|], head + (part + rest));
    next := Peel(b, next, head, part + rest);
    next := Peel(b, next, part, rest);
    if cut.long {
      HeaderStands(b, k, |part|, reference, cut.n, i + 1);
    }
  }

  lemma HeaderStands(b: seq<byte>, k: nat, length: nat, reference: byte, total: nat, number: nat)
    requires length <= 140 && Stands(b, k, [6 + length]) && Stands(b, k + 1, Udh(reference, total, number))
    ensures Stands(b, k, [(6 + length) % 0x100, 5, 0, 3, reference, total % 0x100, number % 0x100])
  {
    Joined(b, k, [6 + length], Udh(reference, total, number));
    assert [6 + length] + Udh(reference, total, number)
        == [(6 + length) % 0x100, 5, 0, 3, reference, total % 0x100, number % 0x100];
  }

  lemma Joined(b: seq<byte>, k: nat, x: seq<byte>, y: seq<byte>)
    requires Stands(b, k, x) && Stands(b, k + |x|, y)
    ensures Stands(b, k, x + y)
  {
  }

  // ---------- Submit ----------

  /** The fields in front of the destinations; `fee` is the width of `Fee_terminal_Id` with its type. */
  predicate SubmitHead(b: seq<byte>, r: CmppSubmit.Request, fee: nat, udhi: byte)
    requires |r.spId| >= 6
  {
    && Stands(b, 12, [0, 0, 0, 0, 0, 0, 0, 0])                 // Msg_Id
    && Stands(b, 20, [1, 1, 1, 1])                             // Pk_total, Pk_number, Registered_Delivery, Msg_level
    && Stands(b, 24, Pad(r.serviceId, 10))
    && Stands(b, 34, [3] + Zeros(fee) + [0])                   // Fee_UserType, Fee_terminal_Id, TP_pId
    && Stands(b, 36 + fee, [udhi])
    && Stands(b, 37 + fee, [r.format])
    && Stands(b, 38 + fee, Pad(r.spId[..6], 6))
    && Stands(b, 44 + fee, [0x30, 0x31])                       // FeeType "01"
    && Stands(b, 46 + fee, [0x30, 0x30, 0x30, 0x30, 0x30, 0x31]) // FeeCode "000001"
    && Stands(b, 52 + fee, Pad(r.validTime, 17))
    && Stands(b, 69 + fee, Pad(r.atTime, 17))
    && Stands(b, 86 + fee, Pad(r.srcId, 21))
  }

  lemma ZeroLong()
    ensures PutU64(0) == [0, 0, 0, 0, 0, 0, 0, 0]
  {
  }

  lemma PeelSubmitHead(b: seq<byte>, v: Version, r: CmppSubmit.Request, udhi: byte, rest: seq<byte>)
    requires |b| >= 12 && |r.spId| >= 6 && b[12..] == CmppSubmit.Head(v, r, udhi, rest)
    ensures var fee := if v == Cmpp20 then 21 else 33;
      SubmitHead(b, r, fee, udhi) && 107 + fee <= |b| && b[107 + fee..] == rest
  {
    var fee := if v == Cmpp20 then 21 else 33;
    var r9 := Pad(r.srcId, 21) + rest;
    var r8 := Pad(r.atTime, 17) + r9;
    var r7 := Pad(r.validTime, 17) + r8;
    var r6 := [0x30, 0x31, 0x30, 0x30, 0x30, 0x30, 0x30, 0x31] + r7;
    var r5 := Pad(r.spId[..6], 6) + r6;
    var r4 := [r.format] + r5;
    var r3 := [udhi] + r4;
    var r2 := ([3] + Zeros(fee) + [0]) + r3;
    var r1 := Pad(r.serviceId, 10) + r2;
    ZeroLong();
    var k := Peel(b, 12, [0, 0, 0, 0, 0, 0, 0, 0], [1, 1, 1, 1] + r1);
    k := Peel(b, k, [1, 1, 1, 1], r1);
    k := Peel(b, k, Pad(r.serviceId, 10), r2);
    k := Peel(b, k, [3] + Zeros(fee) + [0], r3);
    k := Peel(b, k, [udhi], r4);
    k := Peel(b, k, [r.format], r5);
    k := Peel(b, k, Pad(r.spId[..6], 6), r6);
    k := PeelFees(b, k, r7);
    k := Peel(b, k, Pad(r.validTime, 17), r8);
    k := Peel(b, k, Pad(r.atTime, 17), r9);
    k := Peel(b, k, Pad(r.srcId, 21), rest);
  }

  lemma PeelFees(b: seq<byte>, k: nat, rest: seq<byte>) returns (next: nat)
    requires k <= |b| && b[k..] == [0x30, 0x31, 0x30, 0x30, 0x30, 0x30, 0x30, 0x31] + rest
    ensures next == k + 8 && next <= |b| && b[next..] == rest
    ensures Stands(b, k, [0x30, 0x31]) && Stands(b, k + 2, [0x30, 0x30, 0x30, 0x30, 0x30, 0x31])
  {
    assert b[k..] == [0x30, 0x31] + ([0x30, 0x30, 0x30, 0x30, 0x30, 0x31] + rest);
    next := Peel(b, k, [0x30, 0x31], [0x30, 0x30, 0x30, 0x30, 0x30, 0x31] + rest);
    next := Peel(b, next, [0x30, 0x30, 0x30, 0x30, 0x30, 0x31], rest);
  }

  /** The destinations, each in a field of its own. */
  predicate DestsAt(b: seq<byte>, k: nat, ids: seq<Str>, width: nat) {
    forall d :: 0 <= d < |ids| ==> DestAt(b, k, ids, width, d)
  }

  predicate DestAt(b: seq<byte>, k: nat, ids: seq<Str>, width: nat, d: nat) {
    d < |ids| && Stands(b, k + d * width, Pad(ids[d], width))
  }

  lemma {:induction false} PeelDests(b: seq<byte>, k: nat, v: Version, ids: seq<Str>, width: nat, rest: seq<byte>)
    requires k <= |b| && b[k..] == CmppSubmit.Dests(v, ids) + rest && width == if v == Cmpp20 then 21 else 32
    ensures DestsAt(b, k, ids, width) && k + |ids| * width <= |b| && b[k + |ids| * width..] == rest
    decreases |ids|
  {
    if ids == [] {
      assert [] + rest == rest;
    } else {
      var next := PeelDest(b, k, v, ids, width, rest);
      PeelDests(b, next, v, ids[1..], width, rest);
      DestsCons(b, k, ids, width);
      Shifted(k, |ids|, width);
    }
  }

  lemma DestsCons(b: seq<byte>, k: nat, ids: seq<Str>, width: nat)
    requires ids != [] && DestAt(b, k, ids, width, 0) && DestsAt(b, k + width, ids[1..], width)
    ensures DestsAt(b, k, ids, width)
  {
    forall d | 0 <= d < |ids|
      ensures DestAt(b, k, ids, width, d)
    {
      if d > 0 {
        assert DestAt(b, k + width, ids[1..], width, d - 1);
        Shifted(k, d, width);
      }
    }
  }

  lemma PeelDest(b: seq<byte>, k: nat, v: Version, ids: seq<Str>, width: nat, rest: seq<byte>) returns (next: nat)
    requires ids != [] && k <= |b| && b[k..] == CmppSubmit.Dests(v, ids) + rest
    requires width == if v == Cmpp20 then 21 else 32
    ensures next == k + width <= |b| && DestAt(b, k, ids, width, 0) && b[next..] == CmppSubmit.Dests(v, ids[1..]) + rest
  {
    Framing.Associative(Pad(ids[0], width), CmppSubmit.Dests(v, ids[1..]), rest);
    next := Peel(b, k, Pad(ids[0], width), CmppSubmit.Dests(v, ids[1..]) + rest);
  }

  lemma Shifted(k: nat, d: nat, width: nat)
    requires d > 0
    ensures k + width + (d - 1) * width == k + d * width
  {
  }

  /** The content and the reserved bytes that end a packet. */
  predicate EndsWith(b: seq<byte>, k: nat, cut: Cut, reference: byte, i: nat, part: seq<byte>, tail: nat) {
    var end := k + 1 + (if cut.long then 6 else 0) + |part|;
    ContentAt(b, k, cut, reference, i, part) && Stands(b, end, Zeros(tail)) && NothingBehind(b, end + tail)
  }

  lemma PeelEnd(b: seq<byte>, k: nat, cut: Cut, reference: byte, i: nat, part: seq<byte>, tail: nat)
    requires |part| <= 140 && k <= |b| && b[k..] == Content(PartHead(cut, reference, i), part, Zeros(tail))
    ensures EndsWith(b, k, cut, reference, i, part, tail)
  {
    var end := PeelContent(b, k, cut, reference, i, part, Zeros(tail));
    assert Zeros(tail) + [] == Zeros(tail);
    var _ := Peel(b, end, Zeros(tail), []);
  }

  /** A Submit packet of either version, byte by byte. */
  lemma SubmitLayout(m: CmppSubmit.Job, i: nat, seqId: u32)
    requires m.Ready() && i < m.cut.n && CmppSubmit.PacketLen(m, i) < 0x1_0000_0000
    ensures var b, part := Framing.Packet(CmppSubmit.Pdu(m, i, seqId)), Part(m.code, m.cut, i);
      var fee, dest := if m.v == Cmpp20 then 21 else 33, if m.v == Cmpp20 then 21 else 32;
      var types, tail := if m.v == Cmpp20 then 0 else 1, if m.v == Cmpp20 then 8 else 20;
      var behind := 108 + fee + |m.r.destIds| * dest;
      && Holds(b, 0, 4, |b|) && Holds(b, 4, 4, 4) && Holds(b, 8, 4, seqId)
      && SubmitHead(b, m.r, fee, if m.cut.n == 1 then 0 else 1)
      && Stands(b, 107 + fee, [|m.r.destIds| % 0x100]) && DestsAt(b, 108 + fee, m.r.destIds, dest)
      && Stands(b, behind, Zeros(types)) && EndsWith(b, behind + types, m.cut, m.reference, i, part, tail)
  {
    var b := Framing.Packet(CmppSubmit.Pdu(m, i, seqId));
    SubmitParts(m, i, seqId);
    PeelSubmitHead(b, m.v, m.r, Udhi(m.cut), SubmitBehind(m, i));
    var _ := PeelBehind(b, if m.v == Cmpp20 then 128 else 140, m, i);
  }

  /** What follows the fixed head. */
  function SubmitBehind(m: CmppSubmit.Job, i: nat): seq<byte>
    requires m.Ready() && i < m.cut.n
  {
    [CmppSubmit.Count(m.r)]
    + (CmppSubmit.Dests(m.v, m.r.destIds)
       + Typed(if m.v == Cmpp20 then 0 else 1, m.cut, m.reference, i, Part(m.code, m.cut, i),
               if m.v == Cmpp20 then 8 else 20))
  }

  lemma PeelBehind(b: seq<byte>, k: nat, m: CmppSubmit.Job, i: nat) returns (behind: nat)
    requires m.Ready() && i < m.cut.n && k <= |b| && b[k..] == SubmitBehind(m, i)
    ensures behind == k + 1 + |m.r.destIds| * if m.v == Cmpp20 then 21 else 32
    ensures Stands(b, k, [|m.r.destIds| % 0x100])
    ensures DestsAt(b, k + 1, m.r.destIds, if m.v == Cmpp20 then 21 else 32)
    ensures TypedAt(b, behind, if m.v == Cmpp20 then 0 else 1, m.cut, m.reference, i, Part(m.code, m.cut, i),
                    if m.v == Cmpp20 then 8 else 20)
  {
    var types, tail := if m.v == Cmpp20 then 0 else 1, if m.v == Cmpp20 then 8 else 20;
    var part := Part(m.code, m.cut, i);
    behind := PeelList(b, k, m, Typed(types, m.cut, m.reference, i, part, tail));
    PeelTyped(b, behind, types, m.cut, m.reference, i, part, tail);
  }

  /** The type byte of version 3.0, if any, the content and the reserved bytes. */
  function Typed(types: nat, cut: Cut, reference: byte, i: nat, part: seq<byte>, tail: nat): seq<byte>
    requires |part| <= 140
  {
    Zeros(types) + Content(PartHead(cut, reference, i), part, Zeros(tail))
  }

  predicate TypedAt(b: seq<byte>, k: nat, types: nat, cut: Cut, reference: byte, i: nat, part: seq<byte>, tail: nat) {
    Stands(b, k, Zeros(types)) && EndsWith(b, k + types, cut, reference, i, part, tail)
  }

  lemma PeelTyped(b: seq<byte>, k: nat, types: nat, cut: Cut, reference: byte, i: nat, part: seq<byte>, tail: nat)
    requires |part| <= 140 && k <= |b| && b[k..] == Typed(types, cut, reference, i, part, tail)
    ensures TypedAt(b, k, types, cut, reference, i, part, tail)
  {
    var next := Peel(b, k, Zeros(types), Content(PartHead(cut, reference, i), part, Zeros(tail)));
    PeelEnd(b, next, cut, reference, i, part, tail);
  }

  /** The count and the destinations. */
  lemma PeelList(b: seq<byte>, k: nat, m: CmppSubmit.Job, rest: seq<byte>) returns (next: nat)
    requires k <= |b| && b[k..] == [CmppSubmit.Count(m.r)] + (CmppSubmit.Dests(m.v, m.r.destIds) + rest)
    ensures var dest := if m.v == Cmpp20 then 21 else 32;
      next == k + 1 + |m.r.destIds| * dest && next <= |b| && b[next..] == rest
      && Stands(b, k, [|m.r.destIds| % 0x100]) && DestsAt(b, k + 1, m.r.destIds, dest)
  {
    var dest := if m.v == Cmpp20 then 21 else 32;
    next := Peel(b, k, [CmppSubmit.Count(m.r)], CmppSubmit.Dests(m.v, m.r.destIds) + rest);
    PeelDests(b, next, m.v, m.r.destIds, dest, rest);
    next := next + |m.r.destIds| * dest;
  }

  lemma SubmitParts(m: CmppSubmit.Job, i: nat, seqId: u32)
    requires m.Ready() && i < m.cut.n && CmppSubmit.PacketLen(m, i) < 0x1_0000_0000
    ensures var b := Framing.Packet(CmppSubmit.Pdu(m, i, seqId));
      Holds(b, 0, 4, |b|) && Holds(b, 4, 4, 4) && Holds(b, 8, 4, seqId) && |b| >= 12
      && b[12..] == CmppSubmit.Head(m.v, m.r, Udhi(m.cut), SubmitBehind(m, i))
  {
    PacketLayout(CmppSubmit.Pdu(m, i, seqId));
  }

  // ---------- Deliver ----------

  /** The fields in front of the content; `src` is the width of `Src_terminal_Id`, `types` that of its type. */
  predicate DeliverHead(b: seq<byte>, msgId: u64, destId: Str, serviceId: Str, udhi: byte, format: byte, srcId: Str,
                        isReport: byte, src: nat, types: nat) {
    && Holds(b, 12, 8, msgId)
    && Stands(b, 20, Pad(destId, 21))
    && Stands(b, 41, Pad(serviceId, 10))
    && Stands(b, 51, [0])                                      // TP_pid
    && Stands(b, 52, [udhi])
    && Stands(b, 53, [format])
    && Stands(b, 54, Pad(srcId, src))
    && Stands(b, 54 + src, Zeros(types))                       // Src_terminal_type
    && Stands(b, 54 + src + types, [isReport])                 // Registered_Delivery
  }

  lemma PeelDeliverHead(b: seq<byte>, v: Version, msgId: u64, destId: Str, serviceId: Str, udhi: byte, format: byte,
                        srcId: Str, isReport: byte, rest: seq<byte>) returns (next: nat)
    requires |b| >= 12
    requires b[12..] == CmppDeliver.Head(v, msgId, destId, serviceId, udhi, format, srcId, isReport, rest)
    ensures var src, types := if v == Cmpp20 then 21 else 32, if v == Cmpp20 then 0 else 1;
      DeliverHead(b, msgId, destId, serviceId, udhi, format, srcId, isReport, src, types) && next == 55 + src + types
    ensures next <= |b| && b[next..] == rest
  {
    var src, types := if v == Cmpp20 then 21 else 32, if v == Cmpp20 then 0 else 1;
    var r6 := Pad(srcId, src) + (Zeros(types) + ([isReport] + rest));
    var r3 := [0] + ([udhi] + ([format] + r6));
    var r2 := Pad(serviceId, 10) + r3;
    next := PeelLong(b, 12, msgId, Pad(destId, 21) + r2);
    next := Peel(b, next, Pad(destId, 21), r2);
    next := Peel(b, next, Pad(serviceId, 10), r3);
    next := PeelThree(b, next, 0, udhi, format, r6);
    next := PeelSource(b, next, srcId, src, types, isReport, rest);
  }

  lemma PeelThree(b: seq<byte>, k: nat, x: byte, y: byte, z: byte, rest: seq<byte>) returns (next: nat)
    requires k <= |b| && b[k..] == [x] + ([y] + ([z] + rest))
    ensures Stands(b, k, [x]) && Stands(b, k + 1, [y]) && Stands(b, k + 2, [z])
    ensures next == k + 3 <= |b| && b[next..] == rest
  {
    next := Peel(b, k, [x], [y] + ([z] + rest));
    next := Peel(b, next, [y], [z] + rest);
    next := Peel(b, next, [z], rest);
  }

  lemma PeelSource(b: seq<byte>, k: nat, srcId: Str, src: nat, types: nat, isReport: byte, rest: seq<byte>)
    returns (next: nat)
    requires k <= |b| && b[k..] == Pad(srcId, src) + (Zeros(types) + ([isReport] + rest))
    ensures Stands(b, k, Pad(srcId, src)) && Stands(b, k + src, Zeros(types)) && Stands(b, k + src + types, [isReport])
    ensures next == k + src + types + 1 <= |b| && b[next..] == rest
  {
    next := Peel(b, k, Pad(srcId, src), Zeros(types) + ([isReport] + rest));
    next := Peel(b, next, Zeros(types), [isReport] + rest);
    next := Peel(b, next, [isReport], rest);
  }

  /** A Deliver packet with an uplink message, byte by byte. */
  lemma DeliverLayout(m: CmppDeliver.Job, i: nat, seqId: u32)
    requires m.Ready() && i < m.cut.n
    ensures var b, part := Framing.Packet(CmppDeliver.Pdu(m, i, seqId)), Part(m.code, m.cut, i);
      var src, types := if m.v == Cmpp20 then 21 else 32, if m.v == Cmpp20 then 0 else 1;
      && Holds(b, 0, 4, |b|) && Holds(b, 4, 4, 5) && Holds(b, 8, 4, seqId)
      && DeliverHead(b, m.msgIds[i], m.r.destId, m.r.serviceId, if m.cut.n == 1 then 0 else 1, m.r.format, m.r.srcId, 0,
                     src, types)
      && EndsWith(b, 55 + src + types, m.cut, m.reference, i, part, if m.v == Cmpp20 then 8 else 20)
  {
    var b, part := Framing.Packet(CmppDeliver.Pdu(m, i, seqId)), Part(m.code, m.cut, i);
    var tail := if m.v == Cmpp20 then 8 else 20;
    DeliverParts(m, i, seqId);
    var k := PeelDeliverHead(b, m.v, m.msgIds[i], m.r.destId, m.r.serviceId, Udhi(m.cut), m.r.format, m.r.srcId, 0,
                             Content(PartHead(m.cut, m.reference, i), part, Zeros(tail)));
    PeelEnd(b, k, m.cut, m.reference, i, part, tail);
  }

  lemma DeliverParts(m: CmppDeliver.Job, i: nat, seqId: u32)
    requires m.Ready() && i < m.cut.n
    ensures var b, tail := Framing.Packet(CmppDeliver.Pdu(m, i, seqId)), if m.v == Cmpp20 then 8 else 20;
      Holds(b, 0, 4, |b|) && Holds(b, 4, 4, 5) && Holds(b, 8, 4, seqId) && |b| >= 12
      && b[12..] == CmppDeliver.Head(m.v, m.msgIds[i], m.r.destId, m.r.serviceId, Udhi(m.cut), m.r.format, m.r.srcId, 0,
           Content(PartHead(m.cut, m.reference, i), Part(m.code, m.cut, i), Zeros(tail)))
  {
    PacketLayout(CmppDeliver.Pdu(m, i, seqId));
  }

  /** What a report says, behind its length byte. */
  predicate StatusAt(b: seq<byte>, k: nat, n: CmppDeliver.Notice, referenced: u64, src: nat, tail: nat) {
    && Holds(b, k, 8, referenced)                              // Msg_Id reported on
    && Stands(b, k + 8, Pad(n.state, 7))
    && Stands(b, k + 15, Pad(n.submitTime, 10))
    && Stands(b, k + 25, Pad(n.doneTime, 10))
    && Stands(b, k + 35, Pad(n.srcId, src))                    // Dest_terminal_Id
    && Holds(b, k + 35 + src, 4, n.smscSequence)
    && Stands(b, k + 39 + src, Zeros(tail)) && NothingBehind(b, k + 39 + src + tail)
  }

  lemma PeelStatus(b: seq<byte>, k: nat, v: Version, n: CmppDeliver.Notice, referenced: u64)
    requires k <= |b| && b[k..] == CmppDeliver.ReportBody(v, n, referenced)
    ensures StatusAt(b, k, n, referenced, if v == Cmpp20 then 21 else 32, if v == Cmpp20 then 8 else 20)
  {
    var src, tail := if v == Cmpp20 then 21 else 32, Zeros(if v == Cmpp20 then 8 else 20);
    var r5 := PutU32(n.smscSequence) + tail;
    var r4 := Pad(n.srcId, src) + r5;
    var r3 := Pad(n.doneTime, 10) + r4;
    var r2 := Pad(n.submitTime, 10) + r3;
    var next := PeelLong(b, k, referenced, Pad(n.state, 7) + r2);
    next := Peel(b, next, Pad(n.state, 7), r2);
    next := Peel(b, next, Pad(n.submitTime, 10), r3);
    next := Peel(b, next, Pad(n.doneTime, 10), r4);
    next := Peel(b, next, Pad(n.srcId, src), r5);
    next := PeelWord(b, next, n.smscSequence, tail);
    assert tail + [] == tail;
    next := Peel(b, next, tail, []);
  }

  /** A Deliver packet with a status report, byte by byte. */
  lemma ReportLayout(v: Version, n: CmppDeliver.Notice, seqId: u32, msgId: u64, referenced: u64)
    ensures var b := Framing.Packet(CmppDeliver.ReportPdu(v, n, seqId, msgId, referenced));
      var src, types := if v == Cmpp20 then 21 else 32, if v == Cmpp20 then 0 else 1;
      && Holds(b, 0, 4, |b|) && |b| == (if v == Cmpp20 then 145 else 180)
      && Holds(b, 4, 4, 5) && Holds(b, 8, 4, seqId)
      && DeliverHead(b, msgId, n.destId, n.serviceId, 0, 0, n.srcId, 1, src, types)
      && Stands(b, 55 + src + types, [if v == Cmpp20 then 60 else 71])      // Msg_Length
      && StatusAt(b, 56 + src + types, n, referenced, src, if v == Cmpp20 then 8 else 20)
  {
    var p := CmppDeliver.ReportPdu(v, n, seqId, msgId, referenced);
    var b, body := Framing.Packet(p), CmppDeliver.ReportBody(v, n, referenced);
    var length: byte := if v == Cmpp20 then 60 else 71;
    PacketLayout(p);
    var k := PeelDeliverHead(b, v, msgId, n.destId, n.serviceId, 0, 0, n.srcId, 1, [length] + body);
    k := Peel(b, k, [length], body);
    PeelStatus(b, k, v, n, referenced);
  }
}
