/**
  A message's whole way: encoded into packets, sent as one stream, framed and
  decoded by the peer, put together by the peer's entity and published there.
 */
module EndToEnd {
  import opened Bytes
  import opened Wrappers
  import opened Messages
  import opened Segments
  import opened CmppContent
  import opened LongSms
  import opened Crossing
  import opened TextParts
  import opened Entity
  import opened EntitySteps
  import opened Publishing
  import opened Formats
  import Charset
  import CmppDeliver
  import CmppMsgId
  import CmppSubmit
  import EntityReads
  import Cursor
  import Framing

  // ---------- the receiving channel ----------

  /** `decode_read_msg` for the two packets that carry content. */
  function DecodeFrame(v: Version, frame: seq<byte>): Decoded<Json> {
    match Cursor.GetWord(frame)
    case Panic => Decoded.Panicked
    case Got(tp, b) =>
      match Cursor.GetWord(b)
      case Panic => Decoded.Panicked
      case Got(seqId, b) => DecodePacket(v, tp, seqId, b)
  }

  function DecodePacket(v: Version, tp: u32, seqId: u32, body: seq<byte>): Decoded<Json> {
    if tp == CmppSubmit.SUBMIT_TYPE then CmppSubmit.DecodeSubmit(v, body, seqId)
    else if tp == CmppDeliver.DELIVER_TYPE then CmppDeliver.DecodeDeliver(v, body, seqId)
    else Rejected(OtherPacket)
  }

  lemma FrameDecodes(v: Version, p: Framing.Pdu)
    ensures DecodeFrame(v, Framing.Frame(p)) == DecodePacket(v, p.tp, p.seqId, p.body)
  {
    Cursor.WordAt(p.tp, PutU32(p.seqId) + p.body);
    Cursor.WordAt(p.seqId, p.body);
  }

  /** What the peer decodes from a stream. */
  function Receive(v: Version, stream: seq<byte>): (ds: seq<Decoded<Json>>) {
    var frames := Framing.Deframe(stream).bodies;
    seq(|frames|, i requires 0 <= i < |frames| => DecodeFrame(v, frames[i]))
  }

  lemma ReceiveWire(v: Version, ps: seq<Framing.Pdu>)
    requires Framing.AllFit(ps)
    ensures |Receive(v, Framing.Wire(ps))| == |ps|
    ensures forall i :: 0 <= i < |ps| ==>
      Receive(v, Framing.Wire(ps))[i] == DecodePacket(v, ps[i].tp, ps[i].seqId, ps[i].body)
  {
    Framing.DeframeWire(ps);
    forall i | 0 <= i < |ps|
      ensures Receive(v, Framing.Wire(ps))[i] == DecodePacket(v, ps[i].tp, ps[i].seqId, ps[i].body)
    {
      FrameDecodes(v, ps[i]);
    }
  }

  // ---------- submits ----------

  /** Encoded by its format, and with packets within the codec's limit. */
  predicate GoodSubmit(m: CmppSubmit.Job, cs: Charset.Charset) {
    CmppSubmit.Sendable(m)
    && Charset.FormatCharset(m.r.format) == Some(cs) && m.code == Charset.Encode(cs, m.r.content)
  }

  /** What `encode_submit` sends is a good submit; it is in at most 255 parts exactly up to 34170 bytes. */
  lemma EncodedSubmitIsGood(v: Version, r: CmppSubmit.Request, code: seq<byte>, next: u32, cs: Charset.Charset)
    requires |r.spId| >= 6 && CmppSubmit.DestsLen(v, |r.destIds|) + 400 <= Framing.MAX_FRAME && |code| < MAX_LEN
    requires Charset.FormatCharset(r.format) == Some(cs) && EncodeText(r.format, r.content) == Success(code)
    ensures var m := CmppSubmit.JobFor(v, r, code, next);
      GoodSubmit(m, cs) && (m.cut.long <==> |code| > 140) && (m.cut.long ==> (m.cut.n <= 255 <==> |code| <= 255 * 134))
  {
    CutForExact(|code|);
  }

  /** The key the peer uses is made of the fields as they fit the packet. */
  function SubmitSent(m: CmppSubmit.Job): Sent {
    var dests := CmppSubmit.StoredDests(m.v, m.r.destIds);
    Sent(Cursor.Stored(m.r.srcId, 21) + (if dests == [] then [] else dests[0]), m.r.content, m.code, m.cut)
  }

  lemma SubmitCarries(m: CmppSubmit.Job, seqId: u32, id: Str, i: nat, text: Option<string>)
    requires m.Ready() && i < m.cut.n
    ensures FaithfulAt(CmppSubmit.Finish(CmppSubmit.Arrived(m.r, Udhi(m.cut)), seqId,
                                         CmppSubmit.StoredDests(m.v, m.r.destIds),
                                         TextOf(text, Total(m.cut), Number(m.cut, i))),
                       SubmitSent(m), i, id, text)
  {
  }

  lemma SubmitPart(m: CmppSubmit.Job, cs: Charset.Charset, seqId: u32, id: Str, i: nat)
    requires GoodSubmit(m, cs) && i < m.cut.n && |m.r.destIds| < 0x100
    ensures FaithfulAt(CmppSubmit.DecodeSubmit(m.v, CmppSubmit.Body(m, i), seqId), SubmitSent(m), i, id,
                       Charset.Decode(cs, Part(m.code, m.cut, i)))
  {
    var part := Part(m.code, m.cut, i);
    CmppSubmit.SubmitRoundTrip(m, i, seqId);
    PartTextIs(m.r.format, cs, part, Total(m.cut), Number(m.cut, i));
    SubmitCarries(m, seqId, id, i, Charset.Decode(cs, part));
  }

  /** The stream the encoder produces reaches the peer's entity part by part; `ids` are those its receipts gave. */
  lemma SubmitFaithful(m: CmppSubmit.Job, cs: Charset.Charset, seqIds: seq<u32>, ids: seq<Str>)
    requires GoodSubmit(m, cs) && |seqIds| == |ids| == m.cut.n && |m.r.destIds| < 0x100
    ensures SubmitSent(m).Proper(cs)
    ensures Faithful(Receive(m.v, Framing.Wire(CmppSubmit.Pdus(m, seqIds))), SubmitSent(m), cs, ids)
  {
    var ps := CmppSubmit.Pdus(m, seqIds);
    ReceiveWire(m.v, ps);
    forall i | 0 <= i < m.cut.n
      ensures FaithfulAt(Receive(m.v, Framing.Wire(ps))[i], SubmitSent(m), i, ids[i],
                         Charset.Decode(cs, Pieces(m.code, m.cut)[i]))
    {
      SubmitPart(m, cs, seqIds[i], ids[i], i);
    }
  }

  lemma SubmitReceivedAt(m: CmppSubmit.Job, seqIds: seq<u32>, i: nat)
    requires CmppSubmit.Sendable(m) && |seqIds| == m.cut.n && i < m.cut.n
    ensures var ds := Receive(m.v, Framing.Wire(CmppSubmit.Pdus(m, seqIds)));
      |ds| == m.cut.n && ds[i] == CmppSubmit.DecodeSubmit(m.v, CmppSubmit.Body(m, i), seqIds[i])
  {
    var ps := CmppSubmit.Pdus(m, seqIds);
    ReceiveWire(m.v, ps);
    assert ps[i] == CmppSubmit.Pdu(m, i, seqIds[i]);
  }

  /** With 256 destinations or more every packet decodes to the same part, or none does. */
  lemma CrowdedParts(m: CmppSubmit.Job, seqIds: seq<u32>, i: nat)
    requires CmppSubmit.Sendable(m) && |seqIds| == m.cut.n && i < m.cut.n && |m.r.destIds| >= 0x100
    ensures var ds := Receive(m.v, Framing.Wire(CmppSubmit.Pdus(m, seqIds)));
      |ds| == m.cut.n && (ds[i].Ok? ==> ds[0].Ok? && SameSlot(ds[i].value, ds[0].value))
  {
    SubmitReceivedAt(m, seqIds, i);
    SubmitReceivedAt(m, seqIds, 0);
    CmppSubmit.ManyDestinationsHideContent(m, i, seqIds[i]);
    CmppSubmit.ManyDestinationsHideContent(m, 0, seqIds[0]);
    var h := CmppSubmit.Arrived(m.r, Udhi(m.cut));
    FinishSameSlot(h, seqIds[i], seqIds[0], CmppSubmit.StoredDests(m.v, CmppSubmit.Taken(m)),
                   CmppSubmit.DecodeTail(m.v, h, CmppSubmit.Behind(m)));
  }

  lemma FinishSameSlot(h: CmppSubmit.Header, a: u32, b: u32, dests: seq<Str>, text: Decoded<Text>)
    ensures var x, y := CmppSubmit.Finish(h, a, dests, text), CmppSubmit.Finish(h, b, dests, text);
      x.Ok? ==> y.Ok? && SameSlot(x.value, y.value)
  {
  }

  lemma CrowdedNeverCrosses(m: CmppSubmit.Job, seqIds: seq<u32>, ids: seq<Str>, cache: Cache, order: seq<nat>)
    requires CmppSubmit.Sendable(m) && m.cut.long && |seqIds| == |ids| == m.cut.n && Permutation(order, m.cut.n)
    requires |m.r.destIds| >= 0x100
    ensures var ds := Receive(m.v, Framing.Wire(CmppSubmit.Pdus(m, seqIds)));
      |ds| == m.cut.n && !Crosses(SubmitSent(m), ds, ids, cache, order)
  {
    var ds := Receive(m.v, Framing.Wire(CmppSubmit.Pdus(m, seqIds)));
    SubmitReceivedAt(m, seqIds, 0);
    forall i | 0 <= i < |ds| && ds[i].Ok?
      ensures ds[0].Ok? && SameSlot(ds[i].value, ds[0].value)
    {
      CrowdedParts(m, seqIds, i);
    }
    SameSlotNeverCrosses(SubmitSent(m), ds, ids, cache, order);
  }

  lemma SubmitPacketUnmarked(m: CmppSubmit.Job, i: nat, seqId: u32)
    requires CmppSubmit.Sendable(m) && m.cut.long && i < m.cut.n
    ensures var d := CmppSubmit.DecodeSubmit(m.v, CmppSubmit.Body(m, i), seqId);
      d.Ok? ==> Unmarked(d.value, Submit) && d.value.longTotal.Some?
  {
    var h, tail := CmppSubmit.Arrived(m.r, Udhi(m.cut)), CmppSubmit.Behind(m) + CmppSubmit.PartTail(m, i);
    CmppSubmit.AnyCountDecodes(m, i, seqId);
    HeaderMakesPart(tail, m.v, h);
    FinishSubmitUnmarked(h, seqId, CmppSubmit.StoredDests(m.v, CmppSubmit.Taken(m)),
                         CmppSubmit.DecodeTail(m.v, h, tail));
  }

  lemma FinishSubmitUnmarked(h: CmppSubmit.Header, seqId: u32, dests: seq<Str>, text: Decoded<Text>)
    ensures var d := CmppSubmit.Finish(h, seqId, dests, text);
      (d.Ok? <==> text.Ok?)
      && (d.Ok? ==> Unmarked(d.value, Submit) && d.value.longTotal == text.value.total)
  {
  }

  /** A decoded submit bears no marks, and a packet with a header is a part. */
  lemma SubmitUnmarked(m: CmppSubmit.Job, seqIds: seq<u32>)
    requires CmppSubmit.Sendable(m) && m.cut.long && |seqIds| == m.cut.n
    ensures PacketsOf(Receive(m.v, Framing.Wire(CmppSubmit.Pdus(m, seqIds))), Submit)
  {
    var ds := Receive(m.v, Framing.Wire(CmppSubmit.Pdus(m, seqIds)));
    ReceiveWire(m.v, CmppSubmit.Pdus(m, seqIds));
    forall i | 0 <= i < |ds| && ds[i].Ok?
      ensures Unmarked(ds[i].value, Submit) && ds[i].value.longTotal.Some?
    {
      SubmitReceivedAt(m, seqIds, i);
      SubmitPacketUnmarked(m, i, seqIds[i]);
    }
  }

  lemma HeaderMakesPart(b: seq<byte>, v: Version, h: CmppSubmit.Header)
    requires h.udhi != 0
    ensures CmppSubmit.DecodeTail(v, h, b).Ok? ==> CmppSubmit.DecodeTail(v, h, b).value.total.Some?
  {
  }

  /** In the cache a long submit is put together in this order of its packets exactly under the four conditions. */
  lemma SubmitCrossesIff(m: CmppSubmit.Job, cs: Charset.Charset, seqIds: seq<u32>, ids: seq<Str>, cache: Cache,
                         order: seq<nat>)
    requires GoodSubmit(m, cs) && m.cut.long && |seqIds| == |ids| == m.cut.n && Permutation(order, m.cut.n)
    ensures var ds := Receive(m.v, Framing.Wire(CmppSubmit.Pdus(m, seqIds)));
      |ds| == m.cut.n
      && (Crosses(SubmitSent(m), ds, ids, cache, order)
          <==> |m.r.destIds| <= 255 && m.cut.n <= 255 && CutsBetweenChars(cs, m.r.content, m.cut.n)
               && !Stale(cache, SubmitSent(m).key, m.cut.n, order[m.cut.n - 1]))
  {
    if |m.r.destIds| <= 255 {
      SubmitFaithful(m, cs, seqIds, ids);
      CrossesIff(SubmitSent(m), cs, Receive(m.v, Framing.Wire(CmppSubmit.Pdus(m, seqIds))), ids, cache, order);
    } else {
      CrowdedNeverCrosses(m, seqIds, ids, cache, order);
    }
  }

  lemma CrowdedNeverArrives(m: CmppSubmit.Job, seqIds: seq<u32>, ids: seq<Str>, e: State, save: TempSave,
                            nows: seq<int>, order: seq<nat>, content: string)
    requires CmppSubmit.Sendable(m) && m.cut.long && |seqIds| == |ids| == |nows| == m.cut.n
    requires Permutation(order, m.cut.n) && Settled(e, save) && |m.r.destIds| >= 0x100
    ensures var ds := Receive(m.v, Framing.Wire(CmppSubmit.Pdus(m, seqIds)));
      |ds| == m.cut.n && !Arrives(ds, ids, e, save, nows, order, Submit, SubmitTopic, content)
  {
    var ds := Receive(m.v, Framing.Wire(CmppSubmit.Pdus(m, seqIds)));
    SubmitReceivedAt(m, seqIds, 0);
    SubmitUnmarked(m, seqIds);
    forall i | 0 <= i < |ds| && ds[i].Ok?
      ensures ds[0].Ok? && SameSlot(ds[i].value, ds[0].value)
    {
      CrowdedParts(m, seqIds, i);
    }
    SameSlotNeverArrives(ds, ids, e, save, nows, order, Submit, SubmitTopic, content);
  }

  /**
    The peer's entity publishes a long submit, whole, once and at its last
    packet, whatever the order of the packets and the times at which it reads
    them, exactly under the four conditions.
   */
  lemma SubmitEndToEndIff(m: CmppSubmit.Job, cs: Charset.Charset, seqIds: seq<u32>, ids: seq<Str>, e: State,
                          save: TempSave, nows: seq<int>, order: seq<nat>)
    requires GoodSubmit(m, cs) && m.cut.long && |seqIds| == |ids| == |nows| == m.cut.n
    requires Permutation(order, m.cut.n) && Settled(e, save)
    ensures var ds := Receive(m.v, Framing.Wire(CmppSubmit.Pdus(m, seqIds)));
      |ds| == m.cut.n
      && (Arrives(ds, ids, e, save, nows, order, Submit, SubmitTopic, m.r.content)
          <==> |m.r.destIds| <= 255 && m.cut.n <= 255 && CutsBetweenChars(cs, m.r.content, m.cut.n)
               && !Stale(e.longSms, SubmitSent(m).key, m.cut.n, order[m.cut.n - 1]))
  {
    if |m.r.destIds| <= 255 {
      SubmitFaithful(m, cs, seqIds, ids);
      SubmitUnmarked(m, seqIds);
      ArrivesIff(SubmitSent(m), cs, Receive(m.v, Framing.Wire(CmppSubmit.Pdus(m, seqIds))), ids, e, save, nows, order,
                 Submit, SubmitTopic);
    } else {
      CrowdedNeverArrives(m, seqIds, ids, e, save, nows, order, m.r.content);
    }
  }

  /** A text on the wire in its plain form: ASCII in format 0, or two bytes a character, high byte first, in 8. */
  predicate PlainIn(format: byte, content: string, code: seq<byte>) {
    (format == 0 && Ascii(content) && code == SingleBytes(content))
    || (format == 8 && Basic(content) && code == DoubleBytes(content))
  }

  lemma PlainCutsWell(format: byte, content: string, code: seq<byte>, cut: Cut) returns (cs: Charset.Charset)
    requires PlainIn(format, content, code) && Exact(|code|, cut)
    ensures Charset.FormatCharset(format) == Some(cs) && code == Charset.Encode(cs, content)
    ensures cut.long ==> CutsBetweenChars(cs, content, cut.n)
  {
    if format == 0 {
      cs := Charset.Utf8;
      AsciiEncodes(content);
      if cut.long {
        AsciiCutsWell(content, cut.n);
      }
    } else {
      cs := Charset.Utf16;
      BasicEncodes(content);
      if cut.long {
        BasicCutsWell(content, cut.n);
      }
    }
  }

  /**
    ASCII in format 0, or format 8 without surrogates, up to 255 * 134 bytes,
    with a free key: any order of the packets will do, exactly if the
    destinations can be counted in a byte.
   */
  lemma PlainSubmitEndToEnd(m: CmppSubmit.Job, seqIds: seq<u32>, ids: seq<Str>, e: State, save: TempSave,
                            nows: seq<int>, order: seq<nat>)
    requires CmppSubmit.Sendable(m) && PlainIn(m.r.format, m.r.content, m.code)
    requires m.cut.long && |seqIds| == |ids| == |nows| == m.cut.n && Permutation(order, m.cut.n) && Settled(e, save)
    requires |m.code| <= 255 * 134 && SubmitSent(m).key !in e.longSms
    ensures var ds := Receive(m.v, Framing.Wire(CmppSubmit.Pdus(m, seqIds)));
      |ds| == m.cut.n
      && (Arrives(ds, ids, e, save, nows, order, Submit, SubmitTopic, m.r.content) <==> |m.r.destIds| <= 255)
  {
    var cs := PlainCutsWell(m.r.format, m.r.content, m.code, m.cut);
    SubmitEndToEndIff(m, cs, seqIds, ids, e, save, nows, order);
  }

  /** What arrives in one packet is published at once, with its text and its one id. */
  predicate ArrivesWhole(d: Decoded<Json>, id: Str, e: State, save: TempSave, now: int, content: string)
    requires Settled(e, save)
  {
    d.Ok?
    && var (task, _) := FromChannel(e, save, WithId(d.value, id), now);
       task.Running? && |task.e.log| == |e.log| + 1 && task.e.log[..|e.log|] == e.log
       && var o := task.e.log[|e.log|];
          o.Published?
          && o.topic == (if d.value.kind == Submit then SubmitTopic else DeliverTopic)
          && o.msg.kind == d.value.kind && o.msg.body.content == Some(content)
          && (if d.value.kind == Submit then o.msg.msgIds == [id] && o.msg.msgId == None else o.msg.msgId == Some(id))
          && o.msg.longTotal == None && o.msg.longNumber == None && o.msg.seqId == None && o.msg.seqIds == []
  }

  /** A text of at most 140 bytes travels in one packet and is published as it was, without any reassembly. */
  lemma ShortSubmitEndToEnd(m: CmppSubmit.Job, cs: Charset.Charset, seqId: u32, id: Str, e: State, save: TempSave,
                            now: int)
    requires GoodSubmit(m, cs) && !m.cut.long && |m.r.destIds| < 0x100 && Settled(e, save)
    ensures var ds := Receive(m.v, Framing.Wire(CmppSubmit.Pdus(m, [seqId])));
      |ds| == 1 && ArrivesWhole(ds[0], id, e, save, now, m.r.content)
  {
    SubmitReceivedAt(m, [seqId], 0);
    SubmitWhole(m, cs, seqId);
    WholeArrives(CmppSubmit.DecodeSubmit(m.v, CmppSubmit.Body(m, 0), seqId), id, e, save, now, m.r.content);
  }

  lemma SubmitWhole(m: CmppSubmit.Job, cs: Charset.Charset, seqId: u32)
    requires GoodSubmit(m, cs) && !m.cut.long && |m.r.destIds| < 0x100
    ensures IsWholePacket(CmppSubmit.DecodeSubmit(m.v, CmppSubmit.Body(m, 0), seqId), Submit, m.r.content)
  {
    CmppSubmit.SubmitRoundTrip(m, 0, seqId);
    Charset.DecodeEncode(cs, m.r.content);
    PartTextIs(m.r.format, cs, m.code, None, None);
  }

  /** A packet that is a whole message: no part of anything, and without marks. */
  predicate IsWholePacket(d: Decoded<Json>, kind: Kind, content: string) {
    d.Ok? && Unmarked(d.value, kind) && d.value.longTotal == None && d.value.longNumber == None
    && d.value.body.content == Some(content)
  }

  lemma WholeArrives(d: Decoded<Json>, id: Str, e: State, save: TempSave, now: int, content: string)
    requires Settled(e, save) && (IsWholePacket(d, Submit, content) || IsWholePacket(d, Deliver, content))
    ensures ArrivesWhole(d, id, e, save, now, content)
  {
    var _, out := EntityReads.WholeIsPublished(e, save, WithId(d.value, id), now);
    var (task, _) := FromChannel(e, save, WithId(d.value, id), now);
    assert task.e.log[|e.log|] == Published(if d.value.kind == Submit then SubmitTopic else DeliverTopic, out);
  }

  // ---------- uplink messages ----------

  predicate GoodDeliver(m: CmppDeliver.Job, cs: Charset.Charset) {
    m.Ready() && Charset.FormatCharset(m.r.format) == Some(cs) && m.code == Charset.Encode(cs, m.r.content)
  }

  function DeliverSent(m: CmppDeliver.Job): Sent {
    Sent(Cursor.Stored(m.r.srcId, CmppDeliver.SrcWidth(m.v)) + Cursor.Stored(m.r.destId, 21),
         m.r.content, m.code, m.cut)
  }

  /** The ids the peer sees are the ones each part was sent with. */
  function PrintedIds(m: CmppDeliver.Job): (ids: seq<Str>)
    ensures |ids| == |m.msgIds|
  {
    seq(|m.msgIds|, i requires 0 <= i < |m.msgIds| => CmppMsgId.U64ToStr(m.msgIds[i]))
  }

  /** A decoded part is its text, or what was wrong with its bytes. */
  lemma PartTextIs(format: byte, cs: Charset.Charset, part: seq<byte>, total: Option<byte>, number: Option<byte>)
    requires Charset.FormatCharset(format) == Some(cs)
    ensures PartText(format, part, total, number) == TextOf(Charset.Decode(cs, part), total, number)
  {
  }

  function TextOf(text: Option<string>, total: Option<byte>, number: Option<byte>): Decoded<Text> {
    match text
    case None => Rejected(Malformed)
    case Some(s) => Ok(Text(total, number, s))
  }

  lemma DeliverCarries(m: CmppDeliver.Job, seqId: u32, i: nat, text: Option<string>)
    requires m.Ready() && i < m.cut.n
    ensures FaithfulAt(CmppDeliver.Finish(CmppDeliver.Arrived(m, i), seqId,
                                          TextOf(text, Total(m.cut), Number(m.cut, i))),
                       DeliverSent(m), i, PrintedIds(m)[i], text)
  {
  }

  lemma DeliverPart(m: CmppDeliver.Job, cs: Charset.Charset, seqId: u32, i: nat)
    requires GoodDeliver(m, cs) && i < m.cut.n
    ensures FaithfulAt(CmppDeliver.DecodeDeliver(m.v, CmppDeliver.Body(m, i), seqId), DeliverSent(m), i,
                       PrintedIds(m)[i], Charset.Decode(cs, Part(m.code, m.cut, i)))
  {
    var part := Part(m.code, m.cut, i);
    CmppDeliver.DeliverRoundTrip(m, i, seqId);
    PartTextIs(m.r.format, cs, part, Total(m.cut), Number(m.cut, i));
    DeliverCarries(m, seqId, i, Charset.Decode(cs, part));
  }

  lemma DeliverReceivedAt(m: CmppDeliver.Job, seqIds: seq<u32>, i: nat)
    requires m.Ready() && |seqIds| == m.cut.n && i < m.cut.n
    ensures var ds := Receive(m.v, Framing.Wire(CmppDeliver.Pdus(m, seqIds)));
      |ds| == m.cut.n && ds[i] == CmppDeliver.DecodeDeliver(m.v, CmppDeliver.Body(m, i), seqIds[i])
  {
    var ps := CmppDeliver.Pdus(m, seqIds);
    ReceiveWire(m.v, ps);
    assert ps[i] == CmppDeliver.Pdu(m, i, seqIds[i]);
    IsDeliver(m.v, ps[i]);
  }

  lemma IsDeliver(v: Version, p: Framing.Pdu)
    requires p.tp == CmppDeliver.DELIVER_TYPE
    ensures DecodePacket(v, p.tp, p.seqId, p.body) == CmppDeliver.DecodeDeliver(v, p.body, p.seqId)
  {
  }

  lemma DeliverFaithful(m: CmppDeliver.Job, cs: Charset.Charset, seqIds: seq<u32>, ids: seq<Str>)
    requires GoodDeliver(m, cs) && |seqIds| == m.cut.n && ids == PrintedIds(m)
    ensures DeliverSent(m).Proper(cs)
    ensures Faithful(Receive(m.v, Framing.Wire(CmppDeliver.Pdus(m, seqIds))), DeliverSent(m), cs, ids)
  {
    var ds, t := Receive(m.v, Framing.Wire(CmppDeliver.Pdus(m, seqIds))), DeliverSent(m);
    ReceiveWire(m.v, CmppDeliver.Pdus(m, seqIds));
    forall i | 0 <= i < m.cut.n
      ensures FaithfulAt(ds[i], t, i, ids[i], Charset.Decode(cs, Pieces(m.code, m.cut)[i]))
    {
      DeliverReceivedAt(m, seqIds, i);
      DeliverPart(m, cs, seqIds[i], i);
    }
  }

  lemma DeliverDecoded(m: CmppDeliver.Job, cs: Charset.Charset, seqId: u32, i: nat)
    requires GoodDeliver(m, cs) && i < m.cut.n
    ensures var d := CmppDeliver.DecodeDeliver(m.v, CmppDeliver.Body(m, i), seqId);
      d == CmppDeliver.Finish(CmppDeliver.Arrived(m, i), seqId,
                              TextOf(Charset.Decode(cs, Part(m.code, m.cut, i)), Total(m.cut), Number(m.cut, i)))
  {
    CmppDeliver.DeliverRoundTrip(m, i, seqId);
    PartTextIs(m.r.format, cs, Part(m.code, m.cut, i), Total(m.cut), Number(m.cut, i));
  }

  lemma FinishUnmarked(h: CmppDeliver.Header, seqId: u32, text: Option<string>, total: Option<byte>,
                       number: Option<byte>)
    ensures var d := CmppDeliver.Finish(h, seqId, TextOf(text, total, number));
      d.Ok? ==>
        Unmarked(d.value, Deliver) && d.value.longTotal == total && d.value.longNumber == number
        && d.value.body.content == text && d.value.msgId == Some(CmppMsgId.U64ToStr(h.msgId))
  {
  }

  /** A decoded uplink message bears no marks, and a packet with a header is a part. */
  lemma DeliverUnmarked(m: CmppDeliver.Job, cs: Charset.Charset, seqIds: seq<u32>)
    requires GoodDeliver(m, cs) && m.cut.long && |seqIds| == m.cut.n
    ensures PacketsOf(Receive(m.v, Framing.Wire(CmppDeliver.Pdus(m, seqIds))), Deliver)
  {
    var ds := Receive(m.v, Framing.Wire(CmppDeliver.Pdus(m, seqIds)));
    ReceiveWire(m.v, CmppDeliver.Pdus(m, seqIds));
    forall i | 0 <= i < |ds| && ds[i].Ok?
      ensures Unmarked(ds[i].value, Deliver) && ds[i].value.longTotal.Some?
    {
      DeliverReceivedAt(m, seqIds, i);
      DeliverDecoded(m, cs, seqIds[i], i);
      FinishUnmarked(CmppDeliver.Arrived(m, i), seqIds[i], Charset.Decode(cs, Part(m.code, m.cut, i)), Total(m.cut),
                     Number(m.cut, i));
    }
  }

  /**
    The receiving entity publishes a long uplink message, whole, once, at its
    last packet and with the ids it was sent with, exactly under the three
    conditions.
   */
  lemma DeliverEndToEndIff(m: CmppDeliver.Job, cs: Charset.Charset, seqIds: seq<u32>, e: State, save: TempSave,
                           nows: seq<int>, order: seq<nat>)
    requires GoodDeliver(m, cs) && m.cut.long && |seqIds| == |nows| == m.cut.n
    requires Permutation(order, m.cut.n) && Settled(e, save)
    ensures var ds := Receive(m.v, Framing.Wire(CmppDeliver.Pdus(m, seqIds)));
      |ds| == m.cut.n
      && (Arrives(ds, PrintedIds(m), e, save, nows, order, Deliver, DeliverTopic, m.r.content)
          <==> m.cut.n <= 255 && CutsBetweenChars(cs, m.r.content, m.cut.n)
               && !Stale(e.longSms, DeliverSent(m).key, m.cut.n, order[m.cut.n - 1]))
  {
    DeliverFaithful(m, cs, seqIds, PrintedIds(m));
    DeliverUnmarked(m, cs, seqIds);
    ArrivesIff(DeliverSent(m), cs, Receive(m.v, Framing.Wire(CmppDeliver.Pdus(m, seqIds))), PrintedIds(m), e, save,
               nows, order, Deliver, DeliverTopic);
  }

  /** Plain uplink texts up to 255 * 134 bytes, with a free key, always arrive. */
  lemma PlainDeliverEndToEnd(m: CmppDeliver.Job, seqIds: seq<u32>, e: State, save: TempSave, nows: seq<int>,
                             order: seq<nat>)
    requires m.Ready() && PlainIn(m.r.format, m.r.content, m.code) && m.cut.long && |seqIds| == |nows| == m.cut.n
    requires Permutation(order, m.cut.n) && Settled(e, save)
    requires |m.code| <= 255 * 134 && DeliverSent(m).key !in e.longSms
    ensures var ds := Receive(m.v, Framing.Wire(CmppDeliver.Pdus(m, seqIds)));
      |ds| == m.cut.n && Arrives(ds, PrintedIds(m), e, save, nows, order, Deliver, DeliverTopic, m.r.content)
  {
    var cs := PlainCutsWell(m.r.format, m.r.content, m.code, m.cut);
    DeliverEndToEndIff(m, cs, seqIds, e, save, nows, order);
  }

  /** An uplink text of at most 140 bytes is published as it was, with its own id. */
  lemma ShortDeliverEndToEnd(m: CmppDeliver.Job, cs: Charset.Charset, seqId: u32, e: State, save: TempSave, now: int)
    requires GoodDeliver(m, cs) && !m.cut.long && Settled(e, save)
    ensures var ds := Receive(m.v, Framing.Wire(CmppDeliver.Pdus(m, [seqId])));
      |ds| == 1 && ds[0].Ok? && ds[0].value.msgId == Some(CmppMsgId.U64ToStr(m.msgIds[0]))
      && ArrivesWhole(ds[0], CmppMsgId.U64ToStr(m.msgIds[0]), e, save, now, m.r.content)
  {
    DeliverReceivedAt(m, [seqId], 0);
    DeliverWhole(m, cs, seqId);
    WholeArrives(CmppDeliver.DecodeDeliver(m.v, CmppDeliver.Body(m, 0), seqId), CmppMsgId.U64ToStr(m.msgIds[0]), e,
                 save,
                 now, m.r.content);
  }

  lemma DeliverWhole(m: CmppDeliver.Job, cs: Charset.Charset, seqId: u32)
    requires GoodDeliver(m, cs) && !m.cut.long
    ensures var d := CmppDeliver.DecodeDeliver(m.v, CmppDeliver.Body(m, 0), seqId);
      IsWholePacket(d, Deliver, m.r.content) && d.value.msgId == Some(CmppMsgId.U64ToStr(m.msgIds[0]))
  {
    DeliverDecoded(m, cs, seqId, 0);
    Charset.DecodeEncode(cs, m.r.content);
    FinishUnmarked(CmppDeliver.Arrived(m, 0), seqId, Some(m.r.content), None, None);
  }

  // ---------- reports ----------

  /** What a report says, under the id it reports on. */
  predicate SaysReport(j: Json, n: CmppDeliver.Notice, id: Str) {
    j.kind == Kind.Report && j.msgId == Some(id) && j.passageMsgId == None
    && j.seqId == None && j.seqIds == []
    && j.body.state == Some(Cursor.Stored(n.state, 7)) && j.body.submitTime == Some(Cursor.Stored(n.submitTime, 10))
    && j.body.doneTime == Some(Cursor.Stored(n.doneTime, 10)) && j.body.destId == Some(Cursor.Stored(n.destId, 21))
    && j.body.serviceId == Some(Cursor.Stored(n.serviceId, 10))
  }

  /** The id reported on is the packet's own, or comes beside it. */
  predicate ReportUnder(j: Json, n: CmppDeliver.Notice, id: Str) {
    SaysReport(j.(msgId := Some(id), passageMsgId := None, seqId := None, seqIds := []), n, id)
    && ((j.passageMsgId == None && j.msgId == Some(id)) || j.passageMsgId == Some(id))
  }

  lemma ReportDecoded(v: Version, n: CmppDeliver.Notice, msgId: u64, referenced: u64, seqId: u32) returns (j: Json)
    ensures CmppDeliver.DecodeDeliver(v, CmppDeliver.Report(v, n, msgId, referenced), seqId) == Ok(j)
    ensures j.kind == Kind.Report && !j.waitReceipt
    ensures ReportUnder(j, n, CmppMsgId.U64ToStr(referenced))
  {
    CmppDeliver.ReportRoundTrip(v, n, msgId, referenced, seqId);
    j := CmppDeliver.DecodeDeliver(v, CmppDeliver.Report(v, n, msgId, referenced), seqId).value;
  }

  lemma ReportRead(e: State, save: TempSave, j: Json, n: CmppDeliver.Notice, id: Str, now: int) returns (out: Json)
    requires Settled(e, save) && j.kind == Kind.Report && !j.waitReceipt && ReportUnder(j, n, id) && id != []
    ensures SaysReport(out, n, id)
    ensures FromChannel(e, save, j, now) == (Running(e.(log := e.log + [Published(ReportTopic, out)])), save)
  {
    var x;
    x, out := EntityReads.ReportIsPublished(e, save, j, now);
  }

  lemma ReceiveDeliver(v: Version, seqId: u32, body: seq<byte>)
    requires 12 + |body| <= Framing.MAX_FRAME
    ensures Receive(v, Framing.Wire([Framing.Pdu(CmppDeliver.DELIVER_TYPE, seqId, body)]))
         == [CmppDeliver.DecodeDeliver(v, body, seqId)]
  {
    var p := Framing.Pdu(CmppDeliver.DELIVER_TYPE, seqId, body);
    ReceiveWire(v, [p]);
    IsDeliver(v, p);
  }

  /**
    A status report, in either version, is published under the id it reports on,
    with its state and times as they fit their fields.
   */
  lemma ReportEndToEnd(v: Version, n: CmppDeliver.Notice, msgId: u64, referenced: u64, seqId: u32, e: State,
                       save: TempSave, now: int)
    returns (out: Json)
    requires Settled(e, save)
    ensures SaysReport(out, n, CmppMsgId.U64ToStr(referenced))
    ensures var body := CmppDeliver.Report(v, n, msgId, referenced);
      exists j ::
        Receive(v, Framing.Wire([Framing.Pdu(CmppDeliver.DELIVER_TYPE, seqId, body)])) == [Ok(j)]
        && FromChannel(e, save, j, now) == (Running(e.(log := e.log + [Published(ReportTopic, out)])), save)
  {
    ReceiveDeliver(v, seqId, CmppDeliver.Report(v, n, msgId, referenced));
    var j := ReportDecoded(v, n, msgId, referenced, seqId);
    var id := PrintedId(referenced);
    out := ReportRead(e, save, j, n, id, now);
  }

  lemma PrintedId(id: u64) returns (s: Str)
    ensures s == CmppMsgId.U64ToStr(id) && s != []
  {
    s := CmppMsgId.U64ToStr(id);
    CmppMsgId.IdRoundTrip(id, 0);
  }
}
