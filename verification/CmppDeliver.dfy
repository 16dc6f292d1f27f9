/**
  CMPP Deliver: uplink messages and status reports, versions 2.0
  (src/protocol/cmpp32.rs) and 3.0 (src/protocol/implements.rs).
 */
module CmppDeliver {
  import opened Bytes
  import opened Wrappers
  import opened Messages
  import opened Segments
  import opened Cursor
  import opened CmppContent
  import opened Sequence
  import Arithmetic
  import CmppMsgId
  import Framing

  /** The fields `encode_deliver` takes from the JSON message. */
  datatype Uplink = Uplink(content: string, format: byte, serviceId: Str, srcId: Str, destId: Str)

  /** One uplink message on its way out; every part has its own id. */
  datatype Job = Job(v: Version, r: Uplink, code: seq<byte>, cut: Cut, reference: byte, msgIds: seq<u64>) {
    predicate Ready() {
      Exact(|code|, cut) && |msgIds| == cut.n
    }
  }

  /** The fields `encode_report` takes; `msgId` is the id reported on. */
  datatype Notice = Notice(
    msgId: Str,
    serviceId: Str,
    state: Str,
    submitTime: Str,
    doneTime: Str,
    smscSequence: u32,
    srcId: Str,
    destId: Str
  )

  const DELIVER_TYPE: u32 := 5

  function FixedLen(v: Version): nat {
    if v == Cmpp20 then 85 else 109
  }

  function SrcWidth(v: Version): nat {
    if v == Cmpp20 then 21 else 32
  }

  /** `Src_terminal_type`, 3.0 only. */
  function TypeWidth(v: Version): nat {
    if v == Cmpp20 then 0 else 1
  }

  function TailWidth(v: Version): nat {
    if v == Cmpp20 then 8 else 20
  }

  // ---------- encoding ----------

  /** From `Msg_Id` to `Registered_Delivery`, in front of `rest`. */
  function Head(v: Version, msgId: u64, destId: Str, serviceId: Str, udhi: byte, format: byte, srcId: Str,
                isReport: byte, rest: seq<byte>): (b: seq<byte>)
    ensures |b| == |rest| + 43 + SrcWidth(v) + TypeWidth(v)
  {
    PutU64(msgId) + (Pad(destId, 21) + (Pad(serviceId, 10) + ([0] + ([udhi] + ([format]
      + (Pad(srcId, SrcWidth(v)) + (Zeros(TypeWidth(v)) + ([isReport] + rest))))))))
  }

  function Overhead(m: Job): nat {
    FixedLen(m.v) + HeadLen(m.cut)
  }

  /** Part `i`'s packet after its length, type and sequence number. */
  function Body(m: Job, i: nat): (b: seq<byte>)
    requires m.Ready() && i < m.cut.n
    ensures 12 + |b| == Overhead(m) + |Part(m.code, m.cut, i)|
  {
    Head(m.v, m.msgIds[i], m.r.destId, m.r.serviceId, Udhi(m.cut), m.r.format, m.r.srcId, 0,
      Content(PartHead(m.cut, m.reference, i), Part(m.code, m.cut, i), Zeros(TailWidth(m.v))))
  }

  function Pdu(m: Job, i: nat, seqId: u32): (p: Framing.Pdu)
    requires m.Ready() && i < m.cut.n
    ensures Framing.Fits(p)
  {
    Framing.Pdu(DELIVER_TYPE, seqId, Body(m, i))
  }

  function Pdus(m: Job, seqIds: seq<u32>): (ps: seq<Framing.Pdu>)
    requires m.Ready() && |seqIds| == m.cut.n
    ensures |ps| == m.cut.n && Framing.AllFit(ps)
  {
    seq(m.cut.n, i requires 0 <= i < m.cut.n => Pdu(m, i, seqIds[i]))
  }

  /** The buffer size computed before the first byte is written is exactly the number of bytes written. */
  lemma WireLen(m: Job, seqIds: seq<u32>)
    requires m.Ready() && |seqIds| == m.cut.n
    ensures |Framing.Wire(Pdus(m, seqIds))| == m.cut.n * Overhead(m) + |m.code|
  {
    BodyLens(m, seqIds);
    Framing.WireLen(Pdus(m, seqIds), Overhead(m), OneLen(m.cut), |Part(m.code, m.cut, m.cut.n - 1)|);
  }

  lemma BodyLens(m: Job, seqIds: seq<u32>)
    requires m.Ready() && |seqIds| == m.cut.n
    ensures forall k :: 0 <= k < m.cut.n ==>
      12 + |Pdus(m, seqIds)[k].body| == Overhead(m) + |Part(m.code, m.cut, k)|
  {
  }

  function ReportLen(v: Version): byte {
    if v == Cmpp20 then 60 else 71
  }

  /** Everything after the report's `Msg_Length`. */
  function ReportBody(v: Version, n: Notice, referenced: u64): (b: seq<byte>)
    ensures |b| == ReportLen(v) + TailWidth(v)
  {
    PutU64(referenced) + (Pad(n.state, 7) + (Pad(n.submitTime, 10) + (Pad(n.doneTime, 10)
      + (Pad(n.srcId, SrcWidth(v)) + (PutU32(n.smscSequence) + Zeros(TailWidth(v)))))))
  }

  /** A status report is a Deliver packet with its registered-delivery flag set. */
  function Report(v: Version, n: Notice, msgId: u64, referenced: u64): (b: seq<byte>)
    ensures 12 + |b| == if v == Cmpp20 then 145 else 180
  {
    Head(v, msgId, n.destId, n.serviceId, 0, 0, n.srcId, 1, [ReportLen(v)] + ReportBody(v, n, referenced))
  }

  // ---------- the encoder's loops ----------

  /** What `create_cmpp_msg_id` makes of the number it draws; the clock may move between calls. */
  type IdMaker = u32 -> u64

  /** The message `encode_deliver` sends when the counter stands at `next`: a long one draws its reference first. */
  function JobFor(v: Version, r: Uplink, code: seq<byte>, next: u32, makers: seq<IdMaker>): (m: Job)
    requires CutFor(|code|).n <= |makers|
    ensures Exact(|code|, m.cut) ==> m.Ready()
  {
    var cut := CutFor(|code|);
    Job(v, r, code, cut, if cut.long then next % 0x100 else 0, MsgIds(makers, FirstId(cut, next), cut.n))
  }

  function FirstId(cut: Cut, next: u32): u32 {
    if cut.long then Bump(next, 1) else next
  }

  /** The numbers drawn for `n` parts: one for each packet, followed by one for its message id. */
  function Drawn(first: u32, n: nat): (s: seq<u32>)
    ensures |s| == 2 * n
  {
    Run(first, Steps(2 * n, 1))
  }

  function SeqIds(first: u32, n: nat): (s: seq<u32>)
    ensures |s| == n
  {
    var drawn := Drawn(first, n);
    seq(n, i requires 0 <= i < n => drawn[2 * i])
  }

  /** Each part's message id is made of the number drawn right after the packet's own. */
  function MsgIds(makers: seq<IdMaker>, first: u32, n: nat): (ids: seq<u64>)
    requires n <= |makers|
    ensures |ids| == n
  {
    var drawn := Drawn(first, n);
    seq(n, i requires 0 <= i < n => makers[i](drawn[2 * i + 1]))
  }

  /** A long message takes the first number for its reference; then every part takes one, and one for its id. */
  lemma NumbersDrawn(v: Version, r: Uplink, code: seq<byte>, next: u32, makers: seq<IdMaker>, i: nat)
    requires i < CutFor(|code|).n <= |makers|
    ensures var m := JobFor(v, r, code, next, makers);
      var one := if m.cut.long then 1 else 0;
      SeqIds(FirstId(m.cut, next), m.cut.n)[i] == (next + one + 2 * i) % 0x1_0000_0000
      && m.msgIds[i] == makers[i]((next + one + (2 * i + 1)) % 0x1_0000_0000)
      && After(FirstId(m.cut, next), Steps(2 * m.cut.n, 1)) == (next + one + 2 * m.cut.n) % 0x1_0000_0000
      && m.reference == if m.cut.long then next % 0x100 else 0
  {
    var m := JobFor(v, r, code, next, makers);
    var one := if m.cut.long then 1 else 0;
    RunOfSteps(next, one, 2 * m.cut.n, 1, 2 * i);
    RunOfSteps(next, one, 2 * m.cut.n, 1, 2 * i + 1);
    assert FirstId(m.cut, next) == Shift(next, one);
  }

  /** `encode_deliver`; `makers` are what `create_cmpp_msg_id` does at its successive calls. */
  method EncodeDeliver(v: Version, r: Uplink, sequencer: Sequencer, makers: seq<IdMaker>)
    returns (result: Result<seq<byte>, ContentError>, seqIds: seq<u32>, msgIds: seq<u64>)
    requires match EncodeText(r.format, r.content)
             case Success(code) => |code| < MAX_LEN && CutFor(|code|).n <= |makers|
             case Failure(_) => true
    modifies sequencer
    ensures match EncodeText(r.format, r.content)
            case Failure(e) => result == Failure(e) && sequencer.next == old(sequencer.next)
            case Success(code) =>
              var m := JobFor(v, r, code, old(sequencer.next), makers);
              m.Ready()
              && seqIds == SeqIds(FirstId(m.cut, old(sequencer.next)), m.cut.n)
              && msgIds == m.msgIds
              && sequencer.next == After(FirstId(m.cut, old(sequencer.next)), Steps(2 * m.cut.n, 1))
              && result == Success(Framing.Wire(Pdus(m, seqIds)))
  {
    seqIds, msgIds := [], [];
    match EncodeText(r.format, r.content) {
      case Failure(e) =>
        result := Failure(e);
      case Success(code) =>
        var cut := CutFor(|code|);
        CutForExact(|code|);
        ghost var m := JobFor(v, r, code, sequencer.next, makers);
        var reference := 0;
        if cut.long {
          var id := sequencer.GetSequenceId(1);
          reference := id % 0x100;
        }
        var dst;
        dst, seqIds, msgIds := EncodeParts(Job(v, r, code, cut, reference, []), sequencer, makers, m);
        result := Success(dst);
    }
  }

  /** The loop over the parts; `m` is the message with the ids it will have been given. */
  method EncodeParts(draft: Job, sequencer: Sequencer, makers: seq<IdMaker>, ghost m: Job)
    returns (dst: seq<byte>, seqIds: seq<u32>, msgIds: seq<u64>)
    requires m.Ready() && draft == m.(msgIds := []) && m.cut.n <= |makers|
    requires m.msgIds == MsgIds(makers, sequencer.next, m.cut.n)
    modifies sequencer
    ensures seqIds == SeqIds(old(sequencer.next), m.cut.n) && msgIds == m.msgIds
    ensures sequencer.next == After(old(sequencer.next), Steps(2 * m.cut.n, 1))
    ensures dst == Framing.Wire(Pdus(m, seqIds))
  {
    var n := draft.cut.n;
    ghost var first := sequencer.next;
    dst, seqIds, msgIds := [], [], [];
    NoneEncoded(m, first);
    for i := 0 to n
      invariant Encoded(m, first, i, seqIds, msgIds, dst)
      invariant sequencer.next == NextAt(first, n, i)
    {
      var seqId, msgId;
      dst, seqId, msgId := EncodePart(draft, i, dst, sequencer, makers, m, first, seqIds, msgIds);
      seqIds, msgIds := seqIds + [seqId], msgIds + [msgId];
    }
    AllEncoded(m, first, seqIds, msgIds, dst);
  }

  lemma MsgIdAt(makers: seq<IdMaker>, first: u32, n: nat, i: nat)
    requires i < n <= |makers|
    ensures MsgIds(makers, first, n)[i] == makers[i](Drawn(first, n)[2 * i + 1])
  {
  }

  /** The counter after the draws for the first `i` of `n` parts. */
  function NextAt(first: u32, n: nat, i: nat): u32
    requires i <= n
  {
    After(first, Steps(2 * n, 1)[..2 * i])
  }

  /** The first `i` parts are out. */
  predicate Encoded(m: Job, first: u32, i: nat, seqIds: seq<u32>, msgIds: seq<u64>, dst: seq<byte>) {
    m.Ready() && i <= m.cut.n && seqIds == SeqIds(first, m.cut.n)[..i] && msgIds == m.msgIds[..i]
    && dst == Framing.Wire(Pdus(m, SeqIds(first, m.cut.n))[..i])
  }

  lemma NoneEncoded(m: Job, first: u32)
    requires m.Ready()
    ensures Encoded(m, first, 0, [], [], []) && NextAt(first, m.cut.n, 0) == first
  {
    assert Steps(2 * m.cut.n, 1)[..0] == [];
  }

  lemma EncodedNext(m: Job, first: u32, i: nat, seqIds: seq<u32>, msgIds: seq<u64>, dst: seq<byte>)
    requires Encoded(m, first, i, seqIds, msgIds, dst) && i < m.cut.n
    ensures var seqId := SeqIds(first, m.cut.n)[i];
      Encoded(m, first, i + 1, seqIds + [seqId], msgIds + [m.msgIds[i]], dst + Framing.Packet(Pdu(m, i, seqId)))
  {
    var ids := SeqIds(first, m.cut.n);
    Framing.PrefixSnoc(ids, i);
    Framing.PrefixSnoc(m.msgIds, i);
    Framing.WireSnoc(Pdus(m, ids), i);
  }

  lemma AllEncoded(m: Job, first: u32, seqIds: seq<u32>, msgIds: seq<u64>, dst: seq<byte>)
    requires Encoded(m, first, m.cut.n, seqIds, msgIds, dst)
    ensures seqIds == SeqIds(first, m.cut.n) && msgIds == m.msgIds && dst == Framing.Wire(Pdus(m, seqIds))
    ensures NextAt(first, m.cut.n, m.cut.n) == After(first, Steps(2 * m.cut.n, 1))
  {
    var ids := SeqIds(first, m.cut.n);
    Whole(ids, m.cut.n);
    Whole(m.msgIds, m.cut.n);
    Whole(Pdus(m, ids), m.cut.n);
    Whole(Steps(2 * m.cut.n, 1), 2 * m.cut.n);
  }

  lemma Whole<T>(s: seq<T>, n: nat)
    requires n == |s|
    ensures s[..n] == s
  {
  }

  /** One round of the loop. */
  method EncodePart(draft: Job, i: nat, input: seq<byte>, sequencer: Sequencer, makers: seq<IdMaker>, ghost m: Job,
                    ghost first: u32, ghost seqIds: seq<u32>, ghost msgIds: seq<u64>)
    returns (dst: seq<byte>, seqId: u32, msgId: u64)
    requires Encoded(m, first, i, seqIds, msgIds, input) && draft == m.(msgIds := []) && i < m.cut.n <= |makers|
    requires m.msgIds == MsgIds(makers, first, m.cut.n)
    requires sequencer.next == NextAt(first, m.cut.n, i)
    modifies sequencer
    ensures sequencer.next == NextAt(first, m.cut.n, i + 1)
    ensures Encoded(m, first, i + 1, seqIds + [seqId], msgIds + [msgId], dst)
  {
    MsgIdAt(makers, first, m.cut.n, i);
    seqId, msgId := DrawTwo(sequencer, makers[i], first, m.cut.n, i);
    dst := AppendPacket(draft, i, seqId, msgId, input, m);
    EncodedNext(m, first, i, seqIds, msgIds, input);
  }

  /** A number for the packet and, inside `create_cmpp_msg_id`, one for the message id. */
  method DrawTwo(sequencer: Sequencer, maker: IdMaker, ghost first: u32, ghost n: nat, ghost i: nat)
    returns (seqId: u32, msgId: u64)
    requires i < n && sequencer.next == NextAt(first, n, i)
    modifies sequencer
    ensures seqId == SeqIds(first, n)[i] && msgId == maker(Drawn(first, n)[2 * i + 1])
    ensures sequencer.next == NextAt(first, n, i + 1)
  {
    RunAt(first, Steps(2 * n, 1), 2 * i);
    seqId := sequencer.GetSequenceId(1);
    RunAt(first, Steps(2 * n, 1), 2 * i + 1);
    var drawn := sequencer.GetSequenceId(1);
    msgId := maker(drawn);
  }

  /** The puts of one round of the loop; the declared length comes out as the true one. */
  method AppendPacket(draft: Job, i: nat, seqId: u32, msgId: u64, input: seq<byte>, ghost m: Job)
    returns (dst: seq<byte>)
    requires m.Ready() && draft == m.(msgIds := []) && i < m.cut.n && msgId == m.msgIds[i]
    ensures dst == input + Framing.Packet(Pdu(m, i, seqId))
  {
    var (v, r) := (draft.v, draft.r);
    var part := TakePart(draft.code, draft.cut, i);
    var head, zeros := PartHead(draft.cut, draft.reference, i), Zeros(TailWidth(v));
    ghost var p := Pdu(m, i, seqId);
    ghost var full, content := input + Framing.Packet(p), Content(head, part, zeros);
    HeadAppends(v, msgId, r.destId, r.serviceId, Udhi(draft.cut), r.format, r.srcId, 0, content);
    dst := Put(input, PutU32((FixedLen(v) + HeadLen(draft.cut) + |part|) % 0x1_0000_0000), Framing.Frame(p), full);
    dst := Put(dst, PutU32(DELIVER_TYPE), PutU32(seqId) + Body(m, i), full);
    dst := Put(dst, PutU32(seqId), Body(m, i), full);
    dst := Put(dst, Head(v, msgId, r.destId, r.serviceId, Udhi(draft.cut), r.format, r.srcId, 0, []), content, full);
    dst := PutContent(head, part, zeros, dst, full);
  }

  lemma HeadAppends(v: Version, msgId: u64, destId: Str, serviceId: Str, udhi: byte, format: byte, srcId: Str,
                    isReport: byte, rest: seq<byte>)
    ensures Head(v, msgId, destId, serviceId, udhi, format, srcId, isReport, rest)
         == Head(v, msgId, destId, serviceId, udhi, format, srcId, isReport, []) + rest
  {
  }

  /** `encode_report`: an empty id to report on asks for a new one before the packet's own numbers are drawn. */
  method EncodeReport(v: Version, n: Notice, sequencer: Sequencer, reported: IdMaker, own: IdMaker)
    returns (dst: seq<byte>, seqId: u32)
    requires n.msgId == [] || |n.msgId| >= 17
    modifies sequencer
    ensures seqId == if n.msgId == [] then Bump(old(sequencer.next), 1) else old(sequencer.next)
    ensures sequencer.next == Bump(Bump(seqId, 1), 1)
    ensures var referenced := CmppMsgId.StrToU64(n.msgId, reported(old(sequencer.next)));
      dst == Framing.Packet(ReportPdu(v, n, seqId, own(Bump(seqId, 1)), referenced))
  {
    var created := 0;
    if n.msgId == [] {
      var drawn := sequencer.GetSequenceId(1);
      created := reported(drawn);
    }
    var referenced := CmppMsgId.StrToU64(n.msgId, created);
    seqId := sequencer.GetSequenceId(1);
    var drawn := sequencer.GetSequenceId(1);
    dst := PutReport(v, n, seqId, own(drawn), referenced);
  }

  function ReportPdu(v: Version, n: Notice, seqId: u32, msgId: u64, referenced: u64): (p: Framing.Pdu)
    ensures Framing.Fits(p)
  {
    Framing.Pdu(DELIVER_TYPE, seqId, Report(v, n, msgId, referenced))
  }

  method PutReport(v: Version, n: Notice, seqId: u32, msgId: u64, referenced: u64) returns (dst: seq<byte>)
    ensures dst == Framing.Packet(ReportPdu(v, n, seqId, msgId, referenced))
  {
    ghost var p := ReportPdu(v, n, seqId, msgId, referenced);
    ghost var full, body := Framing.Packet(p), ReportBody(v, n, referenced);
    assert [] + full == full;
    HeadAppends(v, msgId, n.destId, n.serviceId, 0, 0, n.srcId, 1, [ReportLen(v)] + body);
    dst := Put([], PutU32(if v == Cmpp20 then 145 else 180), Framing.Frame(p), full);
    dst := Put(dst, PutU32(DELIVER_TYPE), PutU32(seqId) + p.body, full);
    dst := Put(dst, PutU32(seqId), p.body, full);
    dst := Put(dst, Head(v, msgId, n.destId, n.serviceId, 0, 0, n.srcId, 1, []), [ReportLen(v)] + body, full);
    dst := Put(dst, [ReportLen(v)], body, full);
    dst := PutStatus(v, n, referenced, dst, full);
  }

  method PutStatus(v: Version, n: Notice, referenced: u64, input: seq<byte>, ghost full: seq<byte>)
    returns (dst: seq<byte>)
    requires full == input + ReportBody(v, n, referenced)
    ensures dst == full
  {
    var zeros := Zeros(TailWidth(v));
    ghost var b5 := PutU32(n.smscSequence) + zeros;
    ghost var b4 := Pad(n.srcId, SrcWidth(v)) + b5;
    ghost var b3 := Pad(n.doneTime, 10) + b4;
    ghost var b2 := Pad(n.submitTime, 10) + b3;
    dst := Put(input, PutU64(referenced), Pad(n.state, 7) + b2, full);
    dst := Put(dst, Pad(n.state, 7), b2, full);
    dst := Put(dst, Pad(n.submitTime, 10), b3, full);
    dst := Put(dst, Pad(n.doneTime, 10), b4, full);
    dst := Put(dst, Pad(n.srcId, SrcWidth(v)), b5, full);
    dst := Put(dst, PutU32(n.smscSequence), zeros, full);
    assert zeros + [] == zeros;
    dst := Put(dst, zeros, [], full);
  }

  /** `create_cmpp_msg_id` at these times. */
  ghost predicate MadeBy(makers: seq<IdMaker>, clock: seq<CmppMsgId.Stamp>, gateway: nat) {
    |makers| == |clock| && forall i :: 0 <= i < |clock| ==> MakesAt(makers[i], clock[i], gateway)
  }

  ghost predicate MakesAt(maker: IdMaker, now: CmppMsgId.Stamp, gateway: nat) {
    forall n: u32 :: maker(n) == CmppMsgId.CreateId(now, gateway, n)
  }

  lemma MadeEnds(maker: IdMaker, now: CmppMsgId.Stamp, gateway: nat, n: u32)
    requires MakesAt(maker, now, gateway)
    ensures maker(n) % 0x1_0000 == n % 0x1_0000
  {
    CmppMsgId.CreatedIdEnds(now, gateway, n);
  }

  lemma MsgIdEnds(makers: seq<IdMaker>, clock: seq<CmppMsgId.Stamp>, gateway: nat, first: u32, i: nat)
    requires MadeBy(makers, clock, gateway) && i < |makers|
    ensures MsgIds(makers, first, |makers|)[i] % 0x1_0000 == Drawn(first, |makers|)[2 * i + 1] % 0x1_0000
  {
    MadeEnds(makers[i], clock[i], gateway, Drawn(first, |makers|)[2 * i + 1]);
  }

  /** Whatever the clock says, the ids given to one message's parts differ as long as there are at most 2^15 of them. */
  lemma PartIdsDistinct(makers: seq<IdMaker>, clock: seq<CmppMsgId.Stamp>, gateway: nat, first: u32, i: nat, k: nat)
    requires MadeBy(makers, clock, gateway) && i < k < |makers| <= 0x8000
    ensures MsgIds(makers, first, |makers|)[i] != MsgIds(makers, first, |makers|)[k]
  {
    MsgIdEnds(makers, clock, gateway, first, i);
    MsgIdEnds(makers, clock, gateway, first, k);
    DrawnLow(first, |makers|, i, k);
  }

  lemma DrawnAt(first: u32, n: nat, j: nat)
    requires j < 2 * n
    ensures Drawn(first, n)[j] == Shift(first, j)
  {
    RunOffset(first, Steps(2 * n, 1), j);
    OffsetOfSteps(2 * n, 1, j);
  }

  lemma DrawnLow(first: u32, n: nat, i: nat, k: nat)
    requires i < k < n <= 0x8000
    ensures Drawn(first, n)[2 * i + 1] % 0x1_0000 != Drawn(first, n)[2 * k + 1] % 0x1_0000
  {
    DrawnAt(first, n, 2 * i + 1);
    DrawnAt(first, n, 2 * k + 1);
    LowEnds(first, 2 * i + 1, 2 * k + 1);
  }

  lemma LowEnds(first: u32, x: nat, y: nat)
    requires x < y < x + 0x1_0000
    ensures Shift(first, x) % 0x1_0000 != Shift(first, y) % 0x1_0000
  {
    LowOfShift(first, x);
    LowOfShift(first, y);
  }

  lemma LowOfShift(first: u32, x: nat)
    ensures Shift(first, x) % 0x1_0000 == (first + x) % 0x1_0000
  {
    var n := first + x;
    Arithmetic.DivModUnique(n, 0x1_0000, n / MODULUS * 0x1_0000 + n % MODULUS / 0x1_0000, n % MODULUS % 0x1_0000);
  }

  // ---------- decoding ----------

  datatype Header = Header(
    msgId: u64, destId: Str, serviceId: Str, udhi: byte, format: byte, srcId: Str, isReport: byte)

  function DecodeHead(v: Version, b: seq<byte>): Read<Header> {
    var (msgId, b) :- GetLong(b);
    var (destId, b) := LoadString(b, 21);
    var (serviceId, b) := LoadString(b, 10);
    var (_, b) :- Advance(b, 1);
    var (udhi, b) :- GetByte(b);
    var (format, b) :- GetByte(b);
    var (srcId, b) := LoadString(b, SrcWidth(v));
    var (_, b) :- Advance(b, TypeWidth(v));
    var (isReport, b) :- GetByte(b);
    Got(Header(msgId, destId, serviceId, udhi, format, srcId, isReport), b)
  }

  /** The id reported on, and state, submit time, done time and number. */
  datatype Status = Status(referenced: u64, state: Str, submitTime: Str, doneTime: Str, srcId: Str)

  function DecodeStatus(v: Version, b: seq<byte>): Read<Status> {
    var (_, b) :- Advance(b, 1);
    var (referenced, b) :- GetLong(b);
    var (state, b) := LoadString(b, 7);
    var (submitTime, b) := LoadString(b, 10);
    var (doneTime, b) := LoadString(b, 10);
    var (srcId, b) := LoadString(b, SrcWidth(v));
    Got(Status(referenced, state, submitTime, doneTime, srcId), b)
  }

  function Routed(h: Header, seqId: u32): Json {
    EMPTY.(kind := Deliver, seqId := Some(seqId), msgId := Some(CmppMsgId.U64ToStr(h.msgId)),
           body := EMPTY_BODY.(srcId := Some(h.srcId), destId := Some(h.destId), serviceId := Some(h.serviceId)))
  }

  function Received(h: Header, seqId: u32, text: Text): Json {
    var j := Routed(h, seqId);
    j.(longTotal := text.total, longNumber := text.number,
       body := j.body.(content := Some(text.content), format := Some(h.format)))
  }

  /** Version 2.0 overwrites the message id with the one reported on, 3.0 keeps both. */
  function Reported(v: Version, h: Header, seqId: u32, s: Status): Json {
    var j := Routed(h, seqId);
    var j := j.(kind := Messages.Report,
                body := j.body.(srcId := Some(s.srcId), state := Some(s.state), submitTime := Some(s.submitTime),
                                doneTime := Some(s.doneTime)));
    if v == Cmpp20 then j.(msgId := Some(CmppMsgId.U64ToStr(s.referenced)))
    else j.(passageMsgId := Some(CmppMsgId.U64ToStr(s.referenced)))
  }

  function Finish(h: Header, seqId: u32, text: Decoded<Text>): Decoded<Json> {
    match text
    case Panicked => Panicked
    case Rejected(e) => Rejected(e)
    case Ok(t) => Ok(Received(h, seqId, t))
  }

  /** Length byte and text. */
  function DecodeTail(h: Header, b: seq<byte>): Decoded<Text> {
    match GetByte(b)
    case Panic => Panicked
    case Got(length, b) => DecodeContent(b, h.format, length, h.udhi != 0)
  }

  function DecodeReport(v: Version, h: Header, seqId: u32, b: seq<byte>): Decoded<Json> {
    match DecodeStatus(v, b)
    case Panic => Panicked
    case Got(s, _) => Ok(Reported(v, h, seqId, s))
  }

  /** `decode_deliver` on a frame whose type and sequence number have been read. */
  function DecodeDeliver(v: Version, b: seq<byte>, seqId: u32): Decoded<Json> {
    match DecodeHead(v, b)
    case Panic => Panicked
    case Got(h, b) =>
      if h.isReport == 0 then Finish(h, seqId, DecodeTail(h, b)) else DecodeReport(v, h, seqId, b)
  }

  /** `decode_deliver`, consuming the buffer step by step. */
  method ReadDeliver(v: Version, buf: Buffer, seqId: u32) returns (r: Decoded<Json>)
    modifies buf
    ensures r == DecodeDeliver(v, old(buf.bytes), seqId)
  {
    var h := ReadHead(v, buf);
    if h == None {
      return Panicked;
    }
    if h.value.isReport == 0 {
      var length := buf.GetU8();
      if length == None {
        return Panicked;
      }
      var text := ReadContent(buf, h.value.format, length.value, h.value.udhi != 0);
      r := Finish(h.value, seqId, text);
    } else {
      var s := ReadStatus(v, buf);
      if s == None {
        return Panicked;
      }
      r := Ok(Reported(v, h.value, seqId, s.value));
    }
  }

  /** From `Msg_Id` to `Registered_Delivery`; `None` stands for a panic. */
  method ReadHead(v: Version, buf: Buffer) returns (h: Option<Header>)
    modifies buf
    ensures match DecodeHead(v, old(buf.bytes))
            case Panic => h == None
            case Got(header, rest) => h == Some(header) && buf.bytes == rest
  {
    var msgId := buf.GetU64();
    if msgId == None {
      return None;
    }
    var destId := buf.LoadUtf8String(21);
    var serviceId := buf.LoadUtf8String(10);
    var ok := buf.Skip(1);
    if !ok {
      return None;
    }
    var udhi := buf.GetU8();
    if udhi == None {
      return None;
    }
    var format := buf.GetU8();
    if format == None {
      return None;
    }
    var srcId := buf.LoadUtf8String(SrcWidth(v));
    ok := buf.Skip(TypeWidth(v));
    if !ok {
      return None;
    }
    var isReport := buf.GetU8();
    if isReport == None {
      return None;
    }
    h := Some(Header(msgId.value, destId, serviceId, udhi.value, format.value, srcId, isReport.value));
  }

  method ReadStatus(v: Version, buf: Buffer) returns (s: Option<Status>)
    modifies buf
    ensures match DecodeStatus(v, old(buf.bytes))
            case Panic => s == None
            case Got(status, rest) => s == Some(status) && buf.bytes == rest
  {
    var ok := buf.Skip(1);
    if !ok {
      return None;
    }
    var referenced := buf.GetU64();
    if referenced == None {
      return None;
    }
    var state := buf.LoadUtf8String(7);
    var submitTime := buf.LoadUtf8String(10);
    var doneTime := buf.LoadUtf8String(10);
    var srcId := buf.LoadUtf8String(SrcWidth(v));
    s := Some(Status(referenced.value, state, submitTime, doneTime, srcId));
  }

  // ---------- decoding inverts encoding ----------

  function ArrivedHead(v: Version, msgId: u64, destId: Str, serviceId: Str, udhi: byte, format: byte, srcId: Str,
                       isReport: byte): Header {
    Header(msgId, Stored(destId, 21), Stored(serviceId, 10), udhi, format, Stored(srcId, SrcWidth(v)), isReport)
  }

  lemma HeadDecodes(v: Version, msgId: u64, destId: Str, serviceId: Str, udhi: byte, format: byte, srcId: Str,
                    isReport: byte, rest: seq<byte>)
    ensures DecodeHead(v, Head(v, msgId, destId, serviceId, udhi, format, srcId, isReport, rest))
         == Got(ArrivedHead(v, msgId, destId, serviceId, udhi, format, srcId, isReport), rest)
  {
    var b7 := [isReport] + rest;
    var b6 := Zeros(TypeWidth(v)) + b7;
    var b5 := Pad(srcId, SrcWidth(v)) + b6;
    var b4 := [format] + b5;
    var b3 := [udhi] + b4;
    var b2 := [0] + b3;
    var b1 := Pad(serviceId, 10) + b2;
    var b0 := Pad(destId, 21) + b1;
    LongAt(msgId, b0);
    StringAt(destId, 21, b1);
    StringAt(serviceId, 10, b2);
    Skip([0], b3);
    ByteAt(udhi, b4);
    ByteAt(format, b5);
    StringAt(srcId, SrcWidth(v), b6);
    Skip(Zeros(TypeWidth(v)), b7);
    ByteAt(isReport, rest);
  }

  lemma LengthThenContent(h: Header, head: seq<byte>, part: seq<byte>, zeros: seq<byte>)
    requires |head| + |part| < 0x100
    ensures DecodeTail(h, Content(head, part, zeros))
         == DecodeContent(head + (part + zeros), h.format, |head| + |part|, h.udhi != 0)
  {
    ByteAt(|head| + |part|, head + (part + zeros));
  }

  lemma TailDecodes(h: Header, cut: Cut, reference: byte, i: nat, part: seq<byte>, zeros: seq<byte>)
    requires if cut.long then 1 <= |part| <= 134 && cut.n > 1 else |part| <= 140 && cut.n == 1
    requires h.udhi == Udhi(cut)
    ensures DecodeTail(h, Content(PartHead(cut, reference, i), part, zeros))
         == PartText(h.format, part, Total(cut), Number(cut, i))
  {
    LengthThenContent(h, PartHead(cut, reference, i), part, zeros);
    if cut.long {
      LongContent(h.format, reference, cut.n, i + 1, part, zeros);
    } else {
      assert [] + (part + zeros) == part + zeros;
      WholeContent(h.format, part, zeros);
    }
  }

  lemma Assemble(v: Version, b: seq<byte>, seqId: u32, h: Header, rest: seq<byte>)
    requires DecodeHead(v, b) == Got(h, rest)
    ensures DecodeDeliver(v, b, seqId)
         == if h.isReport == 0 then Finish(h, seqId, DecodeTail(h, rest)) else DecodeReport(v, h, seqId, rest)
  {
  }

  function Arrived(m: Job, i: nat): Header
    requires m.Ready() && i < m.cut.n
  {
    ArrivedHead(m.v, m.msgIds[i], m.r.destId, m.r.serviceId, Udhi(m.cut), m.r.format, m.r.srcId, 0)
  }

  lemma PartHeadDecodes(m: Job, i: nat)
    requires m.Ready() && i < m.cut.n
    ensures DecodeHead(m.v, Body(m, i))
         == Got(Arrived(m, i), Content(PartHead(m.cut, m.reference, i), Part(m.code, m.cut, i), Zeros(TailWidth(m.v))))
  {
    HeadDecodes(m.v, m.msgIds[i], m.r.destId, m.r.serviceId, Udhi(m.cut), m.r.format, m.r.srcId, 0,
                Content(PartHead(m.cut, m.reference, i), Part(m.code, m.cut, i), Zeros(TailWidth(m.v))));
  }

  /** Decoding part `i` returns every field both layouts carry. */
  lemma DeliverRoundTrip(m: Job, i: nat, seqId: u32)
    requires m.Ready() && i < m.cut.n
    ensures DecodeDeliver(m.v, Body(m, i), seqId)
         == Finish(Arrived(m, i), seqId,
                   PartText(m.r.format, Part(m.code, m.cut, i), Total(m.cut), Number(m.cut, i)))
  {
    var head, part, zeros := PartHead(m.cut, m.reference, i), Part(m.code, m.cut, i), Zeros(TailWidth(m.v));
    PartHeadDecodes(m, i);
    Assemble(m.v, Body(m, i), seqId, Arrived(m, i), Content(head, part, zeros));
    TailDecodes(Arrived(m, i), m.cut, m.reference, i, part, zeros);
  }

  /** What arrives says field by field what was sent, as far as it fits, and nothing else. */
  lemma DeliverFields(m: Job, i: nat, seqId: u32)
    requires m.Ready() && i < m.cut.n
    ensures var d := DecodeDeliver(m.v, Body(m, i), seqId);
      d.Ok? ==>
        var j, b := d.value, d.value.body;
        && j.kind == Deliver && j.seqId == Some(seqId) && j.msgId == Some(CmppMsgId.U64ToStr(m.msgIds[i]))
        && b.serviceId == Some(Stored(m.r.serviceId, 10)) && b.destId == Some(Stored(m.r.destId, 21))
        && b.srcId == Some(Stored(m.r.srcId, if m.v == Cmpp20 then 21 else 32)) && b.format == Some(m.r.format)
        && j == EMPTY.(kind := Deliver, seqId := j.seqId, msgId := j.msgId, longTotal := j.longTotal,
                       longNumber := j.longNumber,
                       body := EMPTY_BODY.(serviceId := b.serviceId, destId := b.destId, srcId := b.srcId,
                                           format := b.format, content := b.content))
  {
    DeliverRoundTrip(m, i, seqId);
  }

  /**
    A report says what was reported, as far as it fits, and nothing else:
    version 2.0 under the id reported on alone, 3.0 with it beside the
    packet's own.
   */
  lemma ReportFields(v: Version, n: Notice, msgId: u64, referenced: u64, seqId: u32)
    ensures var d := DecodeDeliver(v, Report(v, n, msgId, referenced), seqId);
      var id, own := Some(CmppMsgId.U64ToStr(referenced)), Some(CmppMsgId.U64ToStr(msgId));
      d == Ok(EMPTY.(kind := Messages.Report, seqId := Some(seqId), msgId := if v == Cmpp20 then id else own,
                     passageMsgId := if v == Cmpp20 then None else id,
                     body := EMPTY_BODY.(serviceId := Some(Stored(n.serviceId, 10)),
                                         destId := Some(Stored(n.destId, 21)),
                                         srcId := Some(Stored(n.srcId, if v == Cmpp20 then 21 else 32)),
                                         state := Some(Stored(n.state, 7)),
                                         submitTime := Some(Stored(n.submitTime, 10)),
                                         doneTime := Some(Stored(n.doneTime, 10)))))
  {
    ReportRoundTrip(v, n, msgId, referenced, seqId);
  }

  function ArrivedStatus(v: Version, n: Notice, referenced: u64): Status {
    Status(referenced, Stored(n.state, 7), Stored(n.submitTime, 10), Stored(n.doneTime, 10),
           Stored(n.srcId, SrcWidth(v)))
  }

  lemma StatusDecodes(v: Version, n: Notice, referenced: u64) returns (rest: seq<byte>)
    ensures DecodeStatus(v, [ReportLen(v)] + ReportBody(v, n, referenced))
         == Got(ArrivedStatus(v, n, referenced), rest)
  {
    rest := PutU32(n.smscSequence) + Zeros(TailWidth(v));
    var b4 := Pad(n.srcId, SrcWidth(v)) + rest;
    var b3 := Pad(n.doneTime, 10) + b4;
    var b2 := Pad(n.submitTime, 10) + b3;
    var b1 := Pad(n.state, 7) + b2;
    Skip([ReportLen(v)], ReportBody(v, n, referenced));
    LongAt(referenced, b1);
    StringAt(n.state, 7, b2);
    StringAt(n.submitTime, 10, b3);
    StringAt(n.doneTime, 10, b4);
    StringAt(n.srcId, SrcWidth(v), rest);
  }

  /** A status report decodes to its fields; the id field carries the packed id reported on. */
  lemma ReportRoundTrip(v: Version, n: Notice, msgId: u64, referenced: u64, seqId: u32)
    ensures DecodeDeliver(v, Report(v, n, msgId, referenced), seqId)
         == Ok(Reported(v, ArrivedHead(v, msgId, n.destId, n.serviceId, 0, 0, n.srcId, 1), seqId,
                        ArrivedStatus(v, n, referenced)))
  {
    HeadDecodes(v, msgId, n.destId, n.serviceId, 0, 0, n.srcId, 1, [ReportLen(v)] + ReportBody(v, n, referenced));
    var _ := StatusDecodes(v, n, referenced);
  }

  /** The id the receiver of a report reads. */
  function ReadBack(v: Version, j: Json): Option<Str> {
    if v == Cmpp20 then j.msgId else j.passageMsgId
  }

  /** A report's 22-digit id reaches the other side exactly when each of its fields fits its bits. */
  lemma ReportedIdSurvivesIff(v: Version, n: Notice, msgId: u64, created: u64, seqId: u32)
    requires |n.msgId| == 22 && CmppMsgId.AllDigits(n.msgId)
    ensures var d := DecodeDeliver(v, Report(v, n, msgId, CmppMsgId.StrToU64(n.msgId, created)), seqId);
            d.Ok? && (ReadBack(v, d.value) == Some(n.msgId) <==> CmppMsgId.Canonical(n.msgId))
  {
    ReportRoundTrip(v, n, msgId, CmppMsgId.StrToU64(n.msgId, created), seqId);
    CmppMsgId.StringRoundTripIff(n.msgId, created);
  }
}
