/** Every step keeps the system well formed; with that, conservation over whole runs. */
module GatewayInvariant {
  import opened Wrappers
  import opened Messages
  import opened Entity
  import opened EntitySteps
  import opened Dispatch
  import opened Handoff
  import opened Counting
  import opened EntityCounts
  import opened Gateway
  import opened Conservation
  import Channel
  import Receipts

  // ---------- tracked messages ----------

  lemma {:induction false} DropTracked(issued: map<nat, Issue>, links: seq<Link>, gone: set<nat>)
    requires TrackedLinks(issued, links)
    ensures TrackedLinks(issued, Drop(links, gone))
  {
    if links != [] {
      assert TrackedLink(issued, links[0]);
      DropTracked(issued, links[1..], gone);
    }
  }

  lemma EnqueueTracked(issued: map<nat, Issue>, link: Link, m: Json)
    requires TrackedLink(issued, link) && Carried(issued, m)
    ensures TrackedLink(issued, Enqueue(link, m))
  {
  }

  lemma IntoTracked(issued: map<nat, Issue>, links: seq<Link>, id: nat, m: Json)
    requires TrackedLinks(issued, links) && Carried(issued, m)
    ensures TrackedLinks(issued, Into(links, id, m))
  {
    forall k | 0 <= k < |links|
      ensures TrackedLink(issued, Into(links, id, m)[k])
    {
      EnqueueTracked(issued, links[k], m);
    }
  }

  lemma SendTracked(issued: map<nat, Issue>, e: State, m: Json)
    requires DistinctIds(e.links) && TrackedLinks(issued, e.links) && Carried(issued, m)
    ensures TrackedLinks(issued, Send(e, m).links) && TrackedLinks(issued, Forgotten(e, Send(e, m)))
  {
    var gone, _ := SendOnce(e, m);
    DropTracked(issued, e.links, gone);
    DropTracked(issued, e.links, Ids(Send(e, m).links));
    match Target(e, m) {
      case Some(id) => IntoTracked(issued, Drop(e.links, gone), id, Addressed(e, m));
      case None =>
    }
  }

  lemma {:induction false} SendEachTracked(issued: map<nat, Issue>, e: State, ms: seq<Json>)
    requires DistinctIds(e.links) && TrackedLinks(issued, e.links) && AllTracked(issued, ms)
    ensures TrackedLinks(issued, SendEach(e, ms).links) && TrackedLinks(issued, ForgottenByEach(e, ms))
    decreases |ms|
  {
    if ms != [] {
      assert Carried(issued, ms[0]);
      SendKeepsDistinct(e, ms[0]);
      SendTracked(issued, e, ms[0]);
      SendEachTracked(issued, Send(e, ms[0]), ms[1..]);
    }
  }

  /** Every number already in use keeps what it was drawn for. */
  predicate Grows(issued: map<nat, Issue>, more: map<nat, Issue>) {
    forall s :: s in issued ==> s in more && more[s] == issued[s]
  }

  /** Drawing numbers that were not in use changes nothing for what is on its way. */
  lemma TrackedMore(issued: map<nat, Issue>, more: map<nat, Issue>, m: Json)
    requires Grows(issued, more) && Tracked(issued, m)
    ensures Tracked(more, m)
  {
    forall i | 0 <= i < |m.seqIds|
      ensures DrawnFor(more, m.seqIds[i], TagOf(m), i)
    {
      assert DrawnFor(issued, m.seqIds[i], TagOf(m), i);
    }
  }

  lemma CarriedMore(issued: map<nat, Issue>, more: map<nat, Issue>, m: Json)
    requires Grows(issued, more) && Carried(issued, m)
    ensures Carried(more, m)
  {
    if Tracked(issued, m) {
      TrackedMore(issued, more, m);
    }
  }

  lemma LinksMore(issued: map<nat, Issue>, more: map<nat, Issue>, links: seq<Link>)
    requires Grows(issued, more) && TrackedLinks(issued, links)
    ensures TrackedLinks(more, links)
  {
    forall k | 0 <= k < |links|
      ensures TrackedLink(more, links[k])
    {
      assert TrackedLink(issued, links[k]);
      SeqMore(issued, more, links[k].priority);
      SeqMore(issued, more, links[k].common);
    }
  }

  lemma SeqMore(issued: map<nat, Issue>, more: map<nat, Issue>, ms: seq<Json>)
    requires Grows(issued, more) && AllTracked(issued, ms)
    ensures AllTracked(more, ms)
  {
    forall k | 0 <= k < |ms|
      ensures Carried(more, ms[k])
    {
      CarriedMore(issued, more, ms[k]);
    }
  }

  // ---------- the entity's steps ----------

  /** What the entity keeps about what it holds. */
  predicate EntityKeeps(issued: map<nat, Issue>, e: State, r: State) {
    TrackedLinks(issued, r.links) && TrackedLinks(issued, Forgotten(e, r)) && TrackedReceipts(issued, r.receipts)
  }

  lemma SameKeeps(issued: map<nat, Issue>, e: State, r: State)
    requires TrackedLinks(issued, e.links) && r.links == e.links && TrackedReceipts(issued, r.receipts)
    ensures EntityKeeps(issued, e, r)
  {
    DropTracked(issued, e.links, Ids(r.links));
  }

  lemma SubmitRespKeeps(issued: map<nat, Issue>, e: State, m: Json)
    requires DistinctIds(e.links) && TrackedLinks(issued, e.links) && TrackedReceipts(issued, e.receipts)
    ensures EntityKeeps(issued, e, OnSubmitResp(e, m))
  {
    var key := SeqKey(m);
    if key in e.receipts && m.speedLimit {
      var taken := e.(receipts := e.receipts - {key});
      assert TrackedReceipt(issued, key, e.receipts[key]);
      SendKeepsDistinct(taken, e.receipts[key]);
      SendTracked(issued, taken, e.receipts[key]);
    } else {
      SameKeeps(issued, e, OnSubmitResp(e, m));
    }
  }

  /** Every entry of a submit is that of the part its number was drawn for. */
  lemma InsertTracked(issued: map<nat, Issue>, receipts: map<nat, Json>, m: Json)
    requires TrackedReceipts(issued, receipts) && Tracked(issued, m) && m.kind == Submit
    ensures TrackedReceipts(issued, Insert(receipts, m))
  {
    Receipts.InsertedFrom(receipts, m, 0);
    var after := Insert(receipts, m);
    forall key | key in after
      ensures TrackedReceipt(issued, key, after[key])
    {
      if k :| 0 <= k < Receipts.Parts(m) && m.seqIds[k] == key {
        CopyTracked(issued, m, k);
      } else {
        assert key !in m.seqIds[0..Receipts.Parts(m)];
      }
    }
  }

  lemma CopyTracked(issued: map<nat, Issue>, m: Json, k: nat)
    requires Tracked(issued, m) && m.kind == Submit && k < Receipts.Parts(m)
    ensures TrackedReceipt(issued, m.seqIds[k], Copy(m, k))
  {
    assert forall i :: 0 <= i < |m.seqIds| ==> DrawnFor(issued, m.seqIds[i], TagOf(m), i);
    assert DrawnFor(issued, m.seqIds[k], TagOf(m), k);
  }

  lemma SubmitKeeps(issued: map<nat, Issue>, e: State, m: Json)
    requires DistinctIds(e.links) && TrackedLinks(issued, e.links) && TrackedReceipts(issued, e.receipts)
    requires m.kind == Submit && TrackedMail(issued, m)
    ensures EntityKeeps(issued, e, StateOf(OnSubmit(e, m)))
  {
    if m.waitReceipt {
      InsertTracked(issued, e.receipts, m);
      SameKeeps(issued, e, StateOf(OnSubmit(e, m)));
    } else if m.speedLimit {
      SendKeepsDistinct(e, m.(speedLimit := false));
      SendTracked(issued, e, m.(speedLimit := false));
    } else {
      SameKeeps(issued, e, StateOf(OnSubmit(e, m)));
    }
  }

  /** An uplink message or a report waits under the number of its first part. */
  lemma AwaitTracked(issued: map<nat, Issue>, e: State, m: Json)
    requires TrackedReceipts(issued, e.receipts) && Tracked(issued, m) && m.kind != Submit && m.waitReceipt
    ensures TrackedReceipts(issued, Await(e, m).receipts)
  {
    assert DrawnFor(issued, m.seqIds[0], TagOf(m), 0);
    assert TrackedReceipt(issued, m.seqIds[0], m);
  }

  lemma DeliverKeeps(issued: map<nat, Issue>, e: State, m: Json)
    requires TrackedLinks(issued, e.links) && TrackedReceipts(issued, e.receipts) && TrackedMail(issued, m)
    requires m.kind == Deliver
    ensures EntityKeeps(issued, e, StateOf(OnDeliver(e, m)))
  {
    if m.waitReceipt {
      AwaitTracked(issued, e, m);
    }
    SameKeeps(issued, e, StateOf(OnDeliver(e, m)));
  }

  lemma ReportKeeps(issued: map<nat, Issue>, e: State, m: Json)
    requires TrackedLinks(issued, e.links) && TrackedReceipts(issued, e.receipts) && TrackedMail(issued, m)
    requires m.kind == Report
    ensures EntityKeeps(issued, e, OnReport(e, m))
  {
    if m.waitReceipt {
      AwaitTracked(issued, e, m);
    }
    SameKeeps(issued, e, OnReport(e, m));
  }

  lemma RespKeeps(issued: map<nat, Issue>, e: State, m: Json)
    requires TrackedLinks(issued, e.links) && TrackedReceipts(issued, e.receipts)
    ensures EntityKeeps(issued, e, OnDeliverResp(e, m)) && EntityKeeps(issued, e, OnReportResp(e, m))
  {
    SameKeeps(issued, e, OnDeliverResp(e, m));
    SameKeeps(issued, e, OnReportResp(e, m));
  }

  lemma TerminateKeeps(issued: map<nat, Issue>, e: State, m: Json)
    requires TrackedLinks(issued, e.links) && TrackedReceipts(issued, e.receipts)
    ensures EntityKeeps(issued, e, OnTerminate(e, m))
  {
    if m.id.Some? {
      WithoutIsDrop(e.links, m.id.value);
      DropTracked(issued, e.links, {m.id.value});
    }
    DropTracked(issued, e.links, Ids(OnTerminate(e, m).links));
  }

  lemma ConnectKeeps(issued: map<nat, Issue>, e: State, save: TempSave, m: Json)
    requires TrackedLinks(issued, e.links) && TrackedReceipts(issued, e.receipts) && SaveEmpty(save)
    ensures EntityKeeps(issued, e, OnConnect(e, save, m).0)
  {
    DropTracked(issued, e.links, Ids(OnConnect(e, save, m).0.links));
  }

  lemma FromChannelKeeps(issued: map<nat, Issue>, e: State, save: TempSave, msg: Json, now: int)
    requires DistinctIds(e.links) && TrackedLinks(issued, e.links) && TrackedReceipts(issued, e.receipts)
    requires SaveEmpty(save) && TrackedMail(issued, msg)
    ensures EntityKeeps(issued, e, StateOf(FromChannel(e, save, msg, now).0))
  {
    var m := Received(e, msg, now);
    assert TrackedMail(issued, m);
    match m.kind {
      case SubmitResp => SubmitRespKeeps(issued, e, m);
      case Submit => SubmitKeeps(issued, e, m);
      case Deliver => DeliverKeeps(issued, e, m);
      case Report => ReportKeeps(issued, e, m);
      case ReportResp => RespKeeps(issued, e, m);
      case DeliverResp => RespKeeps(issued, e, m);
      case Terminate => TerminateKeeps(issued, e, m);
      case Connect => ConnectKeeps(issued, e, save, m);
      case OtherKind => SameKeeps(issued, e, e);
      case Untyped => SameKeeps(issued, e, e);
    }
  }

  lemma SaveShrinks(e: State, save: TempSave, msg: Json, now: int)
    requires DistinctIds(e.links) && SaveEmpty(save)
    ensures SaveEmpty(FromChannel(e, save, msg, now).1)
  {
  }

  // ---------- steps ----------

  /** The parts of well-formedness, one predicate each, so that a step touches only what it changes. */
  predicate EntityFormed(issued: map<nat, Issue>, e: State, save: TempSave) {
    Consistent(e) && Ids(e.links) !! save.Keys && SaveEmpty(save)
    && TrackedLinks(issued, e.links) && TrackedReceipts(issued, e.receipts)
  }

  predicate MailFormed(issued: map<nat, Issue>, mailbox: seq<Mail>) {
    forall i :: 0 <= i < |mailbox| ==> TrackedMail(issued, mailbox[i].m)
  }

  predicate ChansFormed(issued: map<nat, Issue>, chans: map<nat, Chan>) {
    forall id :: id in chans ==> TrackedHand(issued, chans[id])
  }

  lemma Formed(g: System)
    ensures WellFormed(g) <==> EntityFormed(g.issued, g.e, g.save) && TrackedLinks(g.issued, g.detached)
                               && MailFormed(g.issued, g.mailbox) && ChansFormed(g.issued, g.chans)
  {
  }

  lemma AcceptFormed(g: System, m: Json)
    requires WellFormed(g) && Enabled(g, Accept(m))
    ensures WellFormed(AcceptStep(g, m))
  {
    Formed(g);
    SendTakesOver(g.e, m, g.save);
    SendKeepsDistinct(g.e, m);
    SendTracked(g.issued, g.e, m);
    Formed(AcceptStep(g, m));
  }

  lemma PostFormed(g: System, id: nat, m: Json)
    requires WellFormed(g) && TrackedMail(g.issued, m)
    ensures WellFormed(Post(g, id, m))
  {
    Formed(g);
    Formed(Post(g, id, m));
  }

  lemma LoginFormed(g: System, id: nat, canWrite: bool)
    requires WellFormed(g) && Enabled(g, Login(id, canWrite))
    ensures WellFormed(LoginStep(g, id, canWrite))
  {
    var h := g.(save := g.save[id := Link(id, true, true, [], [])], chans := g.chans[id := Chan(None, [])]);
    Formed(g);
    Formed(h);
    PostFormed(h, id, EMPTY.(kind := Connect, channelId := Some(id), canWrite := Some(canWrite)));
  }

  lemma SetLinkFormed(g: System, p: Place, link: Link)
    requires p.Stored? ==> link.Queued() == 0
    requires WellFormed(g) && HasPlace(g, p) && link.id == LinkAt(g, p).id && TrackedLink(g.issued, link)
    ensures WellFormed(SetLink(g, p, link))
  {
    Formed(g);
    Formed(SetLink(g, p, link));
    match p
    case Attached(k) => SameIds(g.e.links, k, link);
    case Detached(k) =>
    case Stored(_) =>
  }

  lemma SameIds(links: seq<Link>, k: nat, link: Link)
    requires k < |links| && link.id == links[k].id
    ensures Ids(links[k := link]) == Ids(links)
    ensures DistinctIds(links) ==> DistinctIds(links[k := link])
  {
    var after := links[k := link];
    assert forall i :: 0 <= i < |links| ==> after[i].id == links[i].id;
  }

  lemma RestTracked(issued: map<nat, Issue>, link: Link)
    requires TrackedLink(issued, link) && link.Queued() > 0
    ensures TrackedLink(issued, Rest(link)) && Carried(issued, First(link))
  {
  }

  lemma SentFormed(g: System, id: nat, m: Json)
    requires WellFormed(g) && Idle(g, id) && m.waitReceipt
    requires Outgoing(m.kind) ==> Unused(g.issued, m.seqIds) && TagOf(m).Proper() && (m.kind != Submit ==> Live(m))
    requires !Outgoing(m.kind) ==> Carried(g.issued, m)
    ensures WellFormed(Apply(g, id, Channel.Sent(m)))
  {
    if Outgoing(m.kind) {
      var more := IssueAll(g.issued, m.seqIds, TagOf(m), id);
      assert Grows(g.issued, more);
      GrowsFormed(g, more);
      NewlyTracked(g.issued, m, id);
      HandFormed(g.(issued := more), id, m);
    } else {
      HandFormed(g, id, m);
    }
  }

  lemma NewlyTracked(issued: map<nat, Issue>, m: Json, id: nat)
    requires Unused(issued, m.seqIds) && TagOf(m).Proper() && m.waitReceipt && (m.kind != Submit ==> Live(m))
    ensures Tracked(IssueAll(issued, m.seqIds, TagOf(m), id), m)
  {
    var more := IssueAll(issued, m.seqIds, TagOf(m), id);
    forall i | 0 <= i < |m.seqIds|
      ensures DrawnFor(more, m.seqIds[i], TagOf(m), i)
    {
      assert more[m.seqIds[i]] == Issue(TagOf(m), i, id);
    }
  }

  lemma HandFormed(g: System, id: nat, m: Json)
    requires WellFormed(g) && id in g.chans && Carried(g.issued, m) && m.waitReceipt
    ensures WellFormed(g.(chans := g.chans[id := g.chans[id].(hand := Some(m))]))
  {
    Formed(g);
    assert TrackedHand(g.issued, g.chans[id]);
    Formed(g.(chans := g.chans[id := g.chans[id].(hand := Some(m))]));
  }

  lemma ReturnsFormed(g: System, id: nat, w: Channel.Window)
    requires WellFormed(g)
    ensures WellFormed(Returns(g, id, w))
  {
    Formed(g);
    Formed(Returns(g, id, w));
  }

  lemma BouncedFormed(g: System, id: nat, m: Json)
    requires WellFormed(g) && id in g.chans && Carried(g.issued, m) && m.msgIds != []
    ensures WellFormed(Apply(g, id, Channel.Bounced(m.(speedLimit := true))))
  {
    Formed(g);
    Formed(Apply(g, id, Channel.Bounced(m.(speedLimit := true))));
  }

  lemma GrowsFormed(g: System, more: map<nat, Issue>)
    requires WellFormed(g) && Grows(g.issued, more)
    ensures WellFormed(g.(issued := more))
  {
    Formed(g);
    Formed(g.(issued := more));
    LinksMore(g.issued, more, g.e.links);
    LinksMore(g.issued, more, g.detached);
    forall k | 0 <= k < |g.mailbox|
      ensures TrackedMail(more, g.mailbox[k].m)
    {
      assert TrackedMail(g.issued, g.mailbox[k].m);
      if !Plain(g.mailbox[k].m) {
        TrackedMore(g.issued, more, g.mailbox[k].m);
      }
    }
    forall id | id in g.chans
      ensures TrackedHand(more, g.chans[id])
    {
      assert TrackedHand(g.issued, g.chans[id]);
      if g.chans[id].hand.Some? {
        CarriedMore(g.issued, more, g.chans[id].hand.value);
      }
    }
    forall key | key in g.e.receipts
      ensures TrackedReceipt(more, key, g.e.receipts[key])
    {
      assert TrackedReceipt(g.issued, key, g.e.receipts[key]);
      TrackedMore(g.issued, more, g.e.receipts[key]);
    }
  }

  lemma TakeFormed(g: System, p: Place, w: Channel.Window, drawn: Option<Drawn>, written: bool)
    requires WellFormed(g) && Enabled(g, Take(p, w, drawn, written))
    ensures WellFormed(TakeStep(g, p, w, drawn, written))
  {
    var link := LinkAt(g, p);
    FirstTracked(g, p);
    assert TrackedLink(g.issued, link);
    RestTracked(g.issued, link);
    var after, act := TakeIs(g, p, w, drawn, written);
    var h := SetLink(g, p, Rest(link));
    SetLinkFormed(g, p, Rest(link));
    ApplyFormed(h, link.id, First(link), drawn, after, act);
    ReturnsFormed(Apply(h, link.id, act), link.id, after);
  }

  lemma ApplyFormed(g: System, id: nat, m: Json, drawn: Option<Drawn>, after: Channel.Window, act: Channel.Act)
    requires WellFormed(g) && Idle(g, id) && Carried(g.issued, m) && CameOf(m, drawn, !g.ended, after, act)
    requires drawn.Some? ==> Unused(g.issued, drawn.value.seqIds)
    ensures WellFormed(Apply(g, id, act))
  {
    if act.Sent? {
      SentFormed(g, id, act.m);
    } else if act.Bounced? {
      BouncedFormed(g, id, m);
    } else {
      Formed(g);
      Formed(Apply(g, id, act));
    }
  }

  lemma FlushFormed(g: System, id: nat)
    requires WellFormed(g) && Enabled(g, Flush(id))
    ensures WellFormed(FlushStep(g, id))
  {
    var h := g.(chans := if g.ended then g.chans - {id} else g.chans[id := g.chans[id].(hand := None)]);
    Formed(g);
    assert TrackedHand(g.issued, g.chans[id]);
    Formed(h);
    PostFormed(h, id, g.chans[id].hand.value);
  }

  lemma PeerSendsFormed(g: System, id: nat, r: Json)
    requires WellFormed(g) && Enabled(g, PeerSends(id, r))
    ensures WellFormed(PeerSendsStep(g, id, r))
  {
    Formed(g);
    assert TrackedHand(g.issued, g.chans[id]);
    Formed(PeerSendsStep(g, id, r));
  }

  lemma ReadFormed(g: System, id: nat, w: Channel.Window, receipt: bool, written: bool)
    requires WellFormed(g) && Enabled(g, Read(id, w, receipt, written))
    ensures WellFormed(ReadStep(g, id, w, receipt, written))
  {
    Formed(g);
    assert TrackedHand(g.issued, g.chans[id]);
    ReadForwards(w, g.chans[id].inbound[0], id, receipt, written, !g.ended);
    Formed(ReadStep(g, id, w, receipt, written));
  }

  lemma HandleFormed(g: System, now: int)
    requires WellFormed(g) && g.mailbox != []
    ensures WellFormed(HandleStep(g, now))
  {
    Formed(g);
    var m := g.mailbox[0].m;
    assert TrackedMail(g.issued, m);
    MessageTakesOver(g.e, g.save, m, now);
    FromChannelKeeps(g.issued, g.e, g.save, m, now);
    SaveShrinks(g.e, g.save, m, now);
    Formed(HandleStep(g, now));
  }

  lemma SourcesTracked(issued: map<nat, Issue>, receipts: map<nat, Json>, keys: seq<nat>)
    requires TrackedReceipts(issued, receipts) && forall i :: 0 <= i < |keys| ==> keys[i] in receipts
    ensures AllTracked(issued, Sources(receipts, keys))
  {
    forall i | 0 <= i < |keys|
      ensures Carried(issued, Sources(receipts, keys)[i])
    {
      assert TrackedReceipt(issued, keys[i], receipts[keys[i]]);
    }
  }

  lemma {:induction false} SendEachReceipts(e: State, ms: seq<Json>)
    requires DistinctIds(e.links)
    ensures SendEach(e, ms).receipts == e.receipts
    decreases |ms|
  {
    if ms != [] {
      SendKeepsDistinct(e, ms[0]);
      SendEachReceipts(Send(e, ms[0]), ms[1..]);
    }
  }

  lemma ResendFormed(g: System, now: int, keys: seq<nat>)
    requires WellFormed(g) && Enabled(g, Resend(now, keys))
    ensures WellFormed(ResendStep(g, now, keys))
  {
    Formed(g);
    var taken, ms := g.e.(receipts := g.e.receipts - DueKeys(g.e.receipts, now)), Sources(g.e.receipts, keys);
    SourcesTracked(g.issued, g.e.receipts, keys);
    EachTakesOver(taken, g.save, ms);
    SendEachTracked(g.issued, taken, ms);
    SendEachReceipts(taken, ms);
    Formed(ResendStep(g, now, keys));
  }

  lemma ExpireFormed(g: System, duration: int, now: int, keys: seq<nat>)
    requires WellFormed(g) && Enabled(g, Expire(duration, now, keys))
    ensures WellFormed(ExpireStep(g, duration, now, keys))
  {
    Formed(g);
    Formed(ExpireStep(g, duration, now, keys));
  }

  lemma ClearFormed(g: System, p: Place)
    requires WellFormed(g) && Enabled(g, Clear(p))
    ensures WellFormed(ClearStep(g, p))
  {
    SetLinkFormed(g, p, Emptied(LinkAt(g, p)));
    Formed(SetLink(g, p, Emptied(LinkAt(g, p))));
    Formed(ClearStep(g, p));
  }

  lemma ExitFormed(g: System, p: Place)
    requires WellFormed(g) && Enabled(g, Exit(p))
    ensures WellFormed(ExitStep(g, p))
  {
    SetLinkFormed(g, p, Emptied(LinkAt(g, p)));
    Formed(SetLink(g, p, Emptied(LinkAt(g, p))));
    Formed(ExitStep(g, p));
  }

  lemma AnnounceFormed(g: System, id: nat)
    requires WellFormed(g)
    ensures WellFormed(AnnounceStep(g, id))
  {
    PostFormed(g, id, EMPTY.(kind := Terminate, id := Some(id)));
  }

  lemma TellAllTracked(issued: map<nat, Issue>, links: seq<Link>)
    requires TrackedLinks(issued, links)
    ensures TrackedLinks(issued, TellAll(links))
  {
    forall k | 0 <= k < |links|
      ensures TrackedLink(issued, TellAll(links)[k])
    {
      assert TrackedLink(issued, links[k]);
    }
  }

  lemma CloseFormed(g: System)
    requires WellFormed(g)
    ensures WellFormed(CloseStep(g))
  {
    Formed(g);
    TellAllTracked(g.issued, g.e.links);
    OrderTakesOver(g.e, g.save, CloseOrder);
    Formed(CloseStep(g));
  }

  lemma StepFormed(g: System, s: Gateway.Step)
    requires WellFormed(g) && Enabled(g, s)
    ensures WellFormed(Next(g, s))
  {
    match s
    case Accept(m) => AcceptFormed(g, m);
    case Login(id, canWrite) => LoginFormed(g, id, canWrite);
    case Take(p, w, drawn, written) => TakeFormed(g, p, w, drawn, written);
    case Flush(id) => FlushFormed(g, id);
    case PeerSends(id, r) => PeerSendsFormed(g, id, r);
    case Read(id, w, receipt, written) => ReadFormed(g, id, w, receipt, written);
    case Handle(now) => HandleFormed(g, now);
    case Resend(now, keys) => ResendFormed(g, now, keys);
    case Expire(duration, now, keys) => ExpireFormed(g, duration, now, keys);
    case ForgetLong(_, _) =>
    case Clear(p) => ClearFormed(g, p);
    case Exit(p) => ExitFormed(g, p);
    case Announce(id) => AnnounceFormed(g, id);
    case Close => CloseFormed(g);
  }

  // ---------- numbers are drawn for accepted messages ----------

  /** Only writing a submit draws numbers, and accepted messages stay accepted. */
  lemma SendDrawsNothing(g: System, s: Gateway.Step)
    requires DistinctIds(g.e.links) && Enabled(g, s) && (s.Accept? || s.Handle? || s.Resend?)
    ensures Next(g, s).issued == g.issued && g.accepted <= Next(g, s).accepted
  {
  }

  lemma EndDrawsNothing(g: System, p: Place)
    requires HasPlace(g, p)
    ensures ClearStep(g, p).issued == ExitStep(g, p).issued == g.issued
    ensures ClearStep(g, p).accepted == ExitStep(g, p).accepted == g.accepted
  {
    var h := SetLink(g, p, Emptied(LinkAt(g, p)));
    assert h.issued == g.issued && h.accepted == g.accepted;
  }

  lemma OtherStepsDrawNothing(g: System, s: Gateway.Step)
    requires DistinctIds(g.e.links) && Enabled(g, s) && !s.Take?
    ensures Next(g, s).issued == g.issued && g.accepted <= Next(g, s).accepted
  {
    if s.Accept? || s.Handle? || s.Resend? {
      SendDrawsNothing(g, s);
    } else if s.Clear? || s.Exit? {
      EndDrawsNothing(g, s.p);
    }
  }

  lemma TakeDraws(g: System, p: Place, w: Channel.Window, drawn: Option<Drawn>, written: bool)
    requires Enabled(g, Take(p, w, drawn, written)) && IssuedKnown(g.issued, g.accepted)
    requires Outgoing(First(LinkAt(g, p)).kind) ==> TagOf(First(LinkAt(g, p))) in g.accepted
    ensures IssuedKnown(TakeStep(g, p, w, drawn, written).issued, TakeStep(g, p, w, drawn, written).accepted)
  {
    var link := LinkAt(g, p);
    var after, act := TakeIs(g, p, w, drawn, written);
    var h := SetLink(g, p, Rest(link));
    assert h.issued == g.issued && h.accepted == g.accepted;
    if act.Sent? && Outgoing(act.m.kind) {
      DrawnKnown(g.issued, g.accepted, act.m.seqIds, TagOf(act.m), link.id);
    }
    var r := Apply(h, link.id, act);
    assert Returns(r, link.id, after).issued == r.issued && Returns(r, link.id, after).accepted == r.accepted;
  }

  lemma DrawnKnown(issued: map<nat, Issue>, accepted: set<Tag>, ids: seq<nat>, tag: Tag, via: nat)
    requires IssuedKnown(issued, accepted) && tag in accepted && Receipts.Distinct(ids)
    ensures IssuedKnown(IssueAll(issued, ids, tag, via), accepted)
  {
    var more := IssueAll(issued, ids, tag, via);
    forall s | s in more
      ensures more[s].tag in accepted
    {
      if s !in ids {
        assert issued[s].tag in accepted;
      }
    }
  }

  lemma StepKnown(g: System, s: Gateway.Step)
    requires WellFormed(g) && IssuedKnown(g.issued, g.accepted) && Enabled(g, s)
    requires s.Take? && Outgoing(First(LinkAt(g, s.p)).kind) ==> InPlace(g, TagOf(First(LinkAt(g, s.p))))
    ensures IssuedKnown(Next(g, s).issued, Next(g, s).accepted)
  {
    if s.Take? {
      FirstTracked(g, s.p);
      if Outgoing(First(LinkAt(g, s.p)).kind) {
        QueuedIsAccepted(g, s.p);
      }
      TakeDraws(g, s.p, s.w, s.drawn, s.written);
    } else {
      OtherStepsDrawNothing(g, s);
    }
  }
}
