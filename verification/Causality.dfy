/**
  The record of a sent message reaches the entity before any answer to it does:
  the connection's task puts it into the first-in first-out mailbox before it
  reads from the peer again (src/entity/channel.rs).
 */
module Causality {
  import opened Wrappers
  import opened Messages
  import opened Entity
  import opened EntitySteps
  import opened Handoff
  import opened Counting
  import opened EntityCounts
  import opened Gateway
  import opened Conservation
  import opened GatewayInvariant
  import Channel
  import LongSms
  import Receipts

  /** The message that makes the entity store an entry for packet number `s`. */
  predicate Record(m: Json, s: nat) {
    Outgoing(m.kind) && m.waitReceipt && s in OwnKeys(m)
  }

  /** The record is among the first `i` messages of the mailbox. */
  predicate PendingBefore(mailbox: seq<Mail>, i: nat, s: nat) {
    exists p :: 0 <= p < i && p < |mailbox| && Record(mailbox[p].m, s)
  }

  predicate InHandOf(chans: map<nat, Chan>, c: nat, s: nat) {
    c in chans && chans[c].hand.Some? && Record(chans[c].hand.value, s)
  }

  /** Every number that went out for a part with a message id has been stored, or its record is on its way. */
  predicate OnItsWay(issued: map<nat, Issue>, stored: set<nat>, mailbox: seq<Mail>, chans: map<nat, Chan>) {
    forall s :: s in issued && issued[s].Storable() ==> Recorded(issued, stored, mailbox, chans, s)
  }

  predicate Recorded(issued: map<nat, Issue>, stored: set<nat>, mailbox: seq<Mail>, chans: map<nat, Chan>, s: nat)
    requires s in issued
  {
    s in stored || PendingBefore(mailbox, |mailbox|, s) || InHandOf(chans, issued[s].via, s)
  }

  /** An answer in the mailbox is about a number that went out, and comes after the record it answers. */
  predicate Answers(issued: map<nat, Issue>, stored: set<nat>, mailbox: seq<Mail>, i: nat)
    requires i < |mailbox|
  {
    IsResponse(mailbox[i].m) ==>
      var s := SeqKey(mailbox[i].m);
      s in issued && (issued[s].Storable() ==> s in stored || PendingBefore(mailbox, i, s))
  }

  predicate InOrder(issued: map<nat, Issue>, stored: set<nat>, mailbox: seq<Mail>) {
    forall i :: 0 <= i < |mailbox| ==> Answers(issued, stored, mailbox, i)
  }

  /** What a peer has sent answers what went out on that connection. */
  predicate HonestPeer(issued: map<nat, Issue>, c: nat, chan: Chan) {
    forall j :: 0 <= j < |chan.inbound| ==> AnswersSent(issued, c, chan.inbound[j])
  }

  predicate AnswersSent(issued: map<nat, Issue>, c: nat, r: Json) {
    IsResponse(r) ==> SeqKey(r) in issued && issued[SeqKey(r)].via == c
  }

  /** A peer answers only what it was sent on that connection. */
  predicate HonestStep(g: System, s: Gateway.Step) {
    s.PeerSends? ==> AnswersSent(g.issued, s.id, s.r)
  }

  predicate Honest(issued: map<nat, Issue>, chans: map<nat, Chan>) {
    forall c :: c in chans ==> HonestPeer(issued, c, chans[c])
  }

  /** An entry that was stored is there, or has been answered, sent again or has expired. */
  predicate Accounted(g: System) {
    g.stored <= g.e.receipts.Keys + g.answeredNos + g.resentNos + g.expiredNos
  }

  predicate Causal(g: System) {
    OnItsWay(g.issued, g.stored, g.mailbox, g.chans) && InOrder(g.issued, g.stored, g.mailbox)
    && Honest(g.issued, g.chans) && Accounted(g)
  }

  lemma PendingGrows(mailbox: seq<Mail>, more: seq<Mail>, i: nat, s: nat)
    requires i <= |mailbox| && PendingBefore(mailbox, i, s)
    ensures PendingBefore(mailbox + more, i, s) && PendingBefore(mailbox + more, |mailbox + more|, s)
  {
    var p :| 0 <= p < i && p < |mailbox| && Record(mailbox[p].m, s);
    assert (mailbox + more)[p] == mailbox[p];
  }

  /** An answer that may join the mailbox: its record is already there. */
  predicate MayJoin(issued: map<nat, Issue>, stored: set<nat>, mailbox: seq<Mail>, m: Json) {
    IsResponse(m) ==>
      var s := SeqKey(m);
      s in issued && (issued[s].Storable() ==> s in stored || PendingBefore(mailbox, |mailbox|, s))
  }

  /** Mail added at the end keeps the order if it is in order itself. */
  lemma Appended(issued: map<nat, Issue>, stored: set<nat>, mailbox: seq<Mail>, chans: map<nat, Chan>, more: seq<Mail>)
    requires OnItsWay(issued, stored, mailbox, chans) && InOrder(issued, stored, mailbox)
    requires forall k :: 0 <= k < |more| ==> MayJoin(issued, stored, mailbox, more[k].m)
    ensures OnItsWay(issued, stored, mailbox + more, chans) && InOrder(issued, stored, mailbox + more)
  {
    forall s | s in issued && issued[s].Storable()
      ensures Recorded(issued, stored, mailbox + more, chans, s)
    {
      assert Recorded(issued, stored, mailbox, chans, s);
      if PendingBefore(mailbox, |mailbox|, s) {
        PendingGrows(mailbox, more, |mailbox|, s);
      }
    }
    forall i | 0 <= i < |mailbox + more|
      ensures Answers(issued, stored, mailbox + more, i)
    {
      AppendedAnswers(issued, stored, mailbox, more, i);
    }
  }

  lemma AppendedAnswers(issued: map<nat, Issue>, stored: set<nat>, mailbox: seq<Mail>, more: seq<Mail>, i: nat)
    requires InOrder(issued, stored, mailbox) && i < |mailbox + more|
    requires forall k :: 0 <= k < |more| ==> MayJoin(issued, stored, mailbox, more[k].m)
    ensures Answers(issued, stored, mailbox + more, i)
  {
    var s := SeqKey((mailbox + more)[i].m);
    if i < |mailbox| {
      assert Answers(issued, stored, mailbox, i);
      if PendingBefore(mailbox, i, s) {
        PendingGrows(mailbox, more, i, s);
      }
    } else {
      assert MayJoin(issued, stored, mailbox, more[i - |mailbox|].m);
      if PendingBefore(mailbox, |mailbox|, s) {
        var p :| 0 <= p < |mailbox| && Record(mailbox[p].m, s);
        assert (mailbox + more)[p] == mailbox[p];
      }
    }
  }

  /** One mail that is no answer. */
  lemma AppendedOne(g: System, mail: Mail)
    requires Causal(g) && !IsResponse(mail.m)
    ensures Causal(g.(mailbox := g.mailbox + [mail]))
  {
    Appended(g.issued, g.stored, g.mailbox, g.chans, [mail]);
  }

  // ---------- steps ----------

  lemma AcceptCausal(g: System, m: Json)
    requires Causal(g) && DistinctIds(g.e.links) && Enabled(g, Accept(m))
    ensures Causal(AcceptStep(g, m))
  {
    SendKeepsDistinct(g.e, m);
  }

  lemma LoginCausal(g: System, id: nat, canWrite: bool)
    requires Causal(g) && !g.ended && Enabled(g, Login(id, canWrite))
    ensures Causal(LoginStep(g, id, canWrite))
  {
    var h := g.(save := LoginStep(g, id, canWrite).save, chans := LoginStep(g, id, canWrite).chans);
    NewChan(g.issued, g.stored, g.mailbox, g.chans, id);
    AppendedOne(h, Mail(id, EMPTY.(kind := Connect, channelId := Some(id), canWrite := Some(canWrite))));
  }

  lemma NewChan(issued: map<nat, Issue>, stored: set<nat>, mailbox: seq<Mail>, chans: map<nat, Chan>, id: nat)
    requires OnItsWay(issued, stored, mailbox, chans) && Honest(issued, chans) && id !in chans
    ensures OnItsWay(issued, stored, mailbox, chans[id := Chan(None, [])])
    ensures Honest(issued, chans[id := Chan(None, [])])
  {
  }

  /** Setting or clearing a hand that holds no record leaves the records where they are. */
  lemma OtherHands(chans: map<nat, Chan>, id: nat, c: Chan, d: nat, s: nat)
    requires EmptyHanded(chans, id) && InHandOf(chans, d, s)
    ensures InHandOf(chans[id := c], d, s)
  {
  }

  predicate EmptyHanded(chans: map<nat, Chan>, id: nat) {
    id in chans && chans[id].hand == None
  }

  lemma SetLinkCausal(g: System, p: Place, link: Link)
    requires Causal(g) && HasPlace(g, p)
    ensures Causal(SetLink(g, p, link))
  {
  }

  /** Drawing new numbers leaves the order of what is on its way. */
  lemma DrawnInOrder(issued: map<nat, Issue>, more: map<nat, Issue>, stored: set<nat>, mailbox: seq<Mail>)
    requires Grows(issued, more) && InOrder(issued, stored, mailbox)
    ensures InOrder(more, stored, mailbox)
  {
    forall i | 0 <= i < |mailbox|
      ensures Answers(more, stored, mailbox, i)
    {
      assert Answers(issued, stored, mailbox, i);
    }
  }

  lemma DrawnHonest(issued: map<nat, Issue>, more: map<nat, Issue>, chans: map<nat, Chan>, id: nat, c: Chan)
    requires Grows(issued, more) && Honest(issued, chans) && id in chans && c.inbound == chans[id].inbound
    ensures Honest(more, chans[id := c])
  {
    forall d | d in chans
      ensures HonestPeer(more, d, if d == id then c else chans[d])
    {
      assert HonestPeer(issued, d, chans[d]);
    }
  }

  /** The numbers just drawn are in the sending connection's hand. */
  lemma DrawnInHand(chans: map<nat, Chan>, id: nat, m: Json, i: nat)
    requires id in chans && Outgoing(m.kind) && m.waitReceipt && i < |m.seqIds| && i < |TagOf(m).ids|
    ensures InHandOf(chans[id := chans[id].(hand := Some(m))], id, m.seqIds[i])
  {
    assert m.seqIds[i] in OwnKeys(m);
  }

  lemma DrawnRecorded(issued: map<nat, Issue>, stored: set<nat>, mailbox: seq<Mail>,
                      chans: map<nat, Chan>, id: nat, m: Json)
    requires OnItsWay(issued, stored, mailbox, chans) && EmptyHanded(chans, id)
    requires Unused(issued, m.seqIds) && Outgoing(m.kind) && m.waitReceipt
    ensures OnItsWay(IssueAll(issued, m.seqIds, TagOf(m), id), stored, mailbox,
                     chans[id := chans[id].(hand := Some(m))])
  {
    var more, after := IssueAll(issued, m.seqIds, TagOf(m), id), chans[id := chans[id].(hand := Some(m))];
    forall t | t in more && more[t].Storable()
      ensures Recorded(more, stored, mailbox, after, t)
    {
      if t in m.seqIds {
        var i :| 0 <= i < |m.seqIds| && m.seqIds[i] == t;
        assert more[m.seqIds[i]] == Issue(TagOf(m), i, id);
        DrawnInHand(chans, id, m, i);
      } else {
        HandsKept(issued, stored, mailbox, chans, id, after[id], t);
      }
    }
  }

  /** Filling an empty hand takes no record away. */
  lemma HandsKept(issued: map<nat, Issue>, stored: set<nat>, mailbox: seq<Mail>,
                  chans: map<nat, Chan>, id: nat, c: Chan, t: nat)
    requires OnItsWay(issued, stored, mailbox, chans) && EmptyHanded(chans, id) && t in issued && issued[t].Storable()
    ensures Recorded(issued, stored, mailbox, chans[id := c], t)
  {
    assert Recorded(issued, stored, mailbox, chans, t);
    if InHandOf(chans, issued[t].via, t) {
      OtherHands(chans, id, c, issued[t].via, t);
    }
  }

  lemma SentCausal(g: System, id: nat, m: Json)
    requires Causal(g) && Idle(g, id) && m.waitReceipt && (Outgoing(m.kind) ==> Unused(g.issued, m.seqIds))
    ensures Causal(Apply(g, id, Channel.Sent(m)))
  {
    var h := Apply(g, id, Channel.Sent(m));
    assert Grows(g.issued, h.issued);
    if Outgoing(m.kind) {
      DrawnRecorded(g.issued, g.stored, g.mailbox, g.chans, id, m);
    } else {
      forall t | t in g.issued && g.issued[t].Storable()
        ensures Recorded(g.issued, g.stored, g.mailbox, h.chans, t)
      {
        HandsKept(g.issued, g.stored, g.mailbox, g.chans, id, h.chans[id], t);
      }
    }
    DrawnInOrder(g.issued, h.issued, g.stored, g.mailbox);
    DrawnHonest(g.issued, h.issued, g.chans, id, h.chans[id]);
  }

  lemma TakeCausal(g: System, p: Place, w: Channel.Window, drawn: Option<Drawn>, written: bool)
    requires Causal(g) && !g.ended && Enabled(g, Take(p, w, drawn, written)) && Carried(g.issued, First(LinkAt(g, p)))
    ensures Causal(TakeStep(g, p, w, drawn, written))
  {
    var link := LinkAt(g, p);
    var after, act := TakeIs(g, p, w, drawn, written);
    var h := SetLink(g, p, Rest(link));
    SetLinkCausal(g, p, Rest(link));
    if act.Sent? {
      SentCausal(h, link.id, act.m);
    } else if act.Bounced? {
      AppendedOne(h, Mail(link.id, act.m));
    }
  }

  /** A hand that is emptied into the mailbox takes its records there. */
  lemma FlushedOnItsWay(g: System, id: nat)
    requires OnItsWay(g.issued, g.stored, g.mailbox, g.chans) && id in g.chans && g.chans[id].hand.Some?
    ensures OnItsWay(g.issued, g.stored, g.mailbox + [Mail(id, g.chans[id].hand.value)],
                     g.chans[id := g.chans[id].(hand := None)])
  {
    var m, chans := g.chans[id].hand.value, g.chans[id := g.chans[id].(hand := None)];
    var mailbox := g.mailbox + [Mail(id, m)];
    forall s | s in g.issued && g.issued[s].Storable()
      ensures Recorded(g.issued, g.stored, mailbox, chans, s)
    {
      assert Recorded(g.issued, g.stored, g.mailbox, g.chans, s);
      if PendingBefore(g.mailbox, |g.mailbox|, s) {
        PendingGrows(g.mailbox, [Mail(id, m)], |g.mailbox|, s);
      } else if InHandOf(g.chans, g.issued[s].via, s) && g.issued[s].via == id {
        assert Record(mailbox[|mailbox| - 1].m, s);
      }
    }
  }

  lemma FlushCausal(g: System, id: nat)
    requires Causal(g) && !g.ended && Enabled(g, Flush(id)) && !IsResponse(g.chans[id].hand.value)
    ensures Causal(FlushStep(g, id))
  {
    var m := g.chans[id].hand.value;
    var h := FlushStep(g, id);
    AppendedOne(g, Mail(id, m));
    FlushedOnItsWay(g, id);
    forall c | c in h.chans
      ensures HonestPeer(h.issued, c, h.chans[c])
    {
      assert HonestPeer(g.issued, c, g.chans[c]);
    }
  }

  /** Only what a connection has yet to read changes. */
  lemma InboundCausal(g: System, id: nat, inbound: seq<Json>)
    requires Causal(g) && id in g.chans && HonestPeer(g.issued, id, Chan(None, inbound))
    ensures Causal(g.(chans := g.chans[id := g.chans[id].(inbound := inbound)]))
  {
    var h := g.(chans := g.chans[id := g.chans[id].(inbound := inbound)]);
    forall s | s in h.issued && h.issued[s].Storable()
      ensures Recorded(h.issued, h.stored, h.mailbox, h.chans, s)
    {
      assert Recorded(g.issued, g.stored, g.mailbox, g.chans, s);
    }
    forall c | c in h.chans
      ensures HonestPeer(h.issued, c, h.chans[c])
    {
      assert HonestPeer(g.issued, c, g.chans[c]);
    }
  }

  lemma PeerSendsCausal(g: System, id: nat, r: Json)
    requires Causal(g) && Enabled(g, PeerSends(id, r)) && AnswersSent(g.issued, id, r)
    ensures Causal(PeerSendsStep(g, id, r))
  {
    assert HonestPeer(g.issued, id, g.chans[id]);
    InboundCausal(g, id, g.chans[id].inbound + [r]);
  }

  /** With nothing in its hand, whatever a connection reads has its record ahead of it. */
  lemma ReadCausal(g: System, id: nat, w: Channel.Window, receipt: bool, written: bool)
    requires Causal(g) && !g.ended && Enabled(g, Read(id, w, receipt, written))
    ensures Causal(ReadStep(g, id, w, receipt, written))
  {
    var c := g.chans[id];
    var m := c.inbound[0];
    assert HonestPeer(g.issued, id, c);
    InboundCausal(g, id, c.inbound[1..]);
    var h := g.(chans := g.chans[id := c.(inbound := c.inbound[1..])]);
    ReadForwards(w, m, id, receipt, written, true);
    assert AnswersSent(g.issued, id, m);
    var more := MailFrom(id, ForwardedIn(Channel.Receive(w, m, id, receipt, written, true).1));
    if IsResponse(m) && g.issued[SeqKey(m)].Storable() {
      assert Recorded(g.issued, g.stored, g.mailbox, g.chans, SeqKey(m));
      assert !InHandOf(g.chans, id, SeqKey(m));
    }
    Appended(h.issued, h.stored, h.mailbox, h.chans, more);
  }

  lemma PendingShifts(mailbox: seq<Mail>, i: nat, s: nat)
    requires 0 < i <= |mailbox| && PendingBefore(mailbox, i, s)
    ensures Record(mailbox[0].m, s) || PendingBefore(mailbox[1..], i - 1, s)
  {
    var p :| 0 <= p < i && p < |mailbox| && Record(mailbox[p].m, s);
    if p > 0 {
      assert mailbox[1..][p - 1] == mailbox[p];
    }
  }

  /** Handling the first mail: if it is a record, its number becomes stored. */
  lemma Popped(issued: map<nat, Issue>, stored: set<nat>, mailbox: seq<Mail>, chans: map<nat, Chan>, after: set<nat>)
    requires OnItsWay(issued, stored, mailbox, chans) && InOrder(issued, stored, mailbox) && mailbox != []
    requires stored <= after && forall s :: Record(mailbox[0].m, s) ==> s in after
    ensures OnItsWay(issued, after, mailbox[1..], chans) && InOrder(issued, after, mailbox[1..])
  {
    forall s | s in issued && issued[s].Storable()
      ensures Recorded(issued, after, mailbox[1..], chans, s)
    {
      assert Recorded(issued, stored, mailbox, chans, s);
      if PendingBefore(mailbox, |mailbox|, s) {
        PendingShifts(mailbox, |mailbox|, s);
      }
    }
    forall i | 0 <= i < |mailbox| - 1
      ensures Answers(issued, after, mailbox[1..], i)
    {
      assert Answers(issued, stored, mailbox, i + 1);
      var s := SeqKey(mailbox[1..][i].m);
      if PendingBefore(mailbox, i + 1, s) {
        PendingShifts(mailbox, i + 1, s);
      }
    }
  }

  lemma RecordStored(g: System, now: int)
    requires DistinctIds(g.e.links) && g.mailbox != [] && TrackedMail(g.issued, g.mailbox[0].m)
    ensures var m := g.mailbox[0].m;
      Outgoing(m.kind) && m.waitReceipt ==>
        OwnKeys(m) <= StateOf(FromChannel(g.e, g.save, m, now).0).receipts.Keys
  {
    var m := g.mailbox[0].m;
    if m.kind == Submit && m.waitReceipt {
      Receipts.InsertedFrom(g.e.receipts, Received(g.e, m, now), 0);
    }
  }

  lemma HandleCausal(g: System, now: int)
    requires Causal(g) && DistinctIds(g.e.links) && g.mailbox != [] && TrackedMail(g.issued, g.mailbox[0].m)
    ensures Causal(HandleStep(g, now))
  {
    var h := HandleStep(g, now);
    RecordStored(g, now);
    Popped(g.issued, g.stored, g.mailbox, g.chans, h.stored);
  }

  lemma ResendCausal(g: System, now: int, keys: seq<nat>)
    requires Causal(g) && DistinctIds(g.e.links) && Enabled(g, Resend(now, keys))
    ensures Causal(ResendStep(g, now, keys))
  {
    SendEachReceipts(g.e.(receipts := g.e.receipts - DueKeys(g.e.receipts, now)), Sources(g.e.receipts, keys));
  }

  lemma ExpireCausal(g: System, duration: int, now: int, keys: seq<nat>)
    requires Causal(g) && Enabled(g, Expire(duration, now, keys))
    ensures Causal(ExpireStep(g, duration, now, keys))
  {
  }

  /** A task that ends had nothing in its hand. */
  lemma EndCausal(g: System, h: System, id: nat)
    requires Causal(g) && Idle(g, id) && h.issued == g.issued && h.stored == g.stored && h.mailbox == g.mailbox
    requires h.chans == g.chans - {id} && h.e.receipts == g.e.receipts && h.answeredNos == g.answeredNos
    requires h.resentNos == g.resentNos && h.expiredNos == g.expiredNos
    ensures Causal(h)
  {
    forall s | s in h.issued && h.issued[s].Storable()
      ensures Recorded(h.issued, h.stored, h.mailbox, h.chans, s)
    {
      assert Recorded(g.issued, g.stored, g.mailbox, g.chans, s);
      assert !InHandOf(g.chans, id, s);
    }
    forall c | c in h.chans
      ensures HonestPeer(h.issued, c, h.chans[c])
    {
      assert HonestPeer(g.issued, c, g.chans[c]);
    }
  }

  lemma ClearCausal(g: System, p: Place)
    requires Causal(g) && Enabled(g, Clear(p))
    ensures Causal(ClearStep(g, p))
  {
    EndCausal(g, ClearStep(g, p), LinkAt(g, p).id);
  }

  lemma ExitCausal(g: System, p: Place)
    requires Causal(g) && Enabled(g, Exit(p))
    ensures Causal(ExitStep(g, p))
  {
    EndCausal(g, ExitStep(g, p), LinkAt(g, p).id);
  }

  lemma ForgetLongCausal(g: System, duration: int, now: int)
    requires Causal(g)
    ensures Causal(g.(e := g.e.(longSms := LongSms.Clear(g.e.longSms, duration, now))))
  {
  }

  lemma AnnounceCausal(g: System, id: nat)
    requires Causal(g) && !g.ended
    ensures Causal(AnnounceStep(g, id))
  {
    AppendedOne(g, Mail(id, EMPTY.(kind := Terminate, id := Some(id))));
  }

  lemma ChannelStepCausal(g: System, s: Gateway.Step)
    requires !g.ended && Causal(g) && WellFormed(g) && Enabled(g, s) && HonestStep(g, s) && OfChannel(s)
    ensures Causal(Next(g, s))
  {
    match s
    case Take(p, w, drawn, written) =>
      FirstTracked(g, p);
      TakeCausal(g, p, w, drawn, written);
    case Flush(id) =>
      assert TrackedHand(g.issued, g.chans[id]);
      FlushCausal(g, id);
    case PeerSends(id, r) => PeerSendsCausal(g, id, r);
    case Read(id, w, receipt, written) => ReadCausal(g, id, w, receipt, written);
    case Clear(p) => ClearCausal(g, p);
    case Exit(p) => ExitCausal(g, p);
    case Announce(id) => AnnounceCausal(g, id);
  }

  lemma TimerStepCausal(g: System, s: Gateway.Step)
    requires !g.ended && Causal(g) && DistinctIds(g.e.links) && Enabled(g, s) && OfTimer(s) && !s.Close?
    ensures Causal(Next(g, s))
  {
    match s
    case Login(id, canWrite) => LoginCausal(g, id, canWrite);
    case Resend(now, keys) => ResendCausal(g, now, keys);
    case Expire(duration, now, keys) => ExpireCausal(g, duration, now, keys);
    case ForgetLong(duration, now) => ForgetLongCausal(g, duration, now);
  }

  /** With honest peers, every step keeps records ahead of answers as long as the entity is there to read them. */
  lemma StepCausal(g: System, s: Gateway.Step)
    requires !g.ended && Causal(g) && WellFormed(g) && Enabled(g, s) && HonestStep(g, s)
    ensures Next(g, s).ended || Causal(Next(g, s))
  {
    if OfChannel(s) {
      ChannelStepCausal(g, s);
    } else if s.Accept? {
      AcceptCausal(g, s.m);
    } else if s.Handle? {
      HandleCausal(g, s.now);
    } else if !s.Close? {
      TimerStepCausal(g, s);
    }
  }

  // ---------- runs ----------

  predicate Legal(g: System, steps: seq<Gateway.Step>)
    decreases |steps|
  {
    steps == [] || (DistinctIds(g.e.links) && Enabled(g, steps[0]) && Legal(Next(g, steps[0]), steps[1..]))
  }

  function Run(g: System, steps: seq<Gateway.Step>): System
    requires Legal(g, steps)
    decreases |steps|
  {
    if steps == [] then g else Run(Next(g, steps[0]), steps[1..])
  }

  /** Only messages of several parts are ever doubled. */
  predicate DoubledLong(doubled: seq<Json>) {
    forall i :: 0 <= i < |doubled| ==> |TagOf(doubled[i]).ids| > 1
  }

  ghost predicate Invariant(g: System) {
    WellFormed(g) && IssuedKnown(g.issued, g.accepted) && DoubledLong(g.doubled)
    && forall u: Tag :: u.Proper() ==> InPlace(g, u)
  }

  lemma StepDoubledLong(g: System, s: Gateway.Step)
    requires WellFormed(g) && Enabled(g, s) && DoubledLong(g.doubled)
    ensures DoubledLong(Next(g, s).doubled)
  {
    if s.Handle? {
      HandleDoubledLong(g, s.now);
    } else if s.Accept? {
      AcceptCounts(g, s.m, Tag(Submit, []));
    } else {
      OtherStepCounts(g, s, Tag(Submit, []));
    }
  }

  lemma HandleDoubledLong(g: System, now: int)
    requires WellFormed(g) && g.mailbox != [] && DoubledLong(g.doubled)
    ensures DoubledLong(HandleStep(g, now).doubled)
  {
    var m := Received(g.e, g.mailbox[0].m, now);
    if DoubledBy(g.e, m) != [] {
      assert TrackedReceipt(g.issued, SeqKey(m), g.e.receipts[SeqKey(m)]);
    }
  }

  lemma StepInvariant(g: System, s: Gateway.Step)
    requires Invariant(g) && Enabled(g, s)
    ensures Invariant(Next(g, s))
  {
    StepFormed(g, s);
    StepDoubledLong(g, s);
    if s.Take? {
      FirstTracked(g, s.p);
    }
    StepKnown(g, s);
    forall u: Tag | u.Proper()
      ensures InPlace(Next(g, s), u)
    {
      StepInPlace(g, s, u);
    }
  }

  lemma InitialInvariant(g: System)
    requires Initial(g)
    ensures Invariant(g) && Causal(g)
  {
    forall u: Tag | u.Proper()
      ensures InPlace(g, u)
    {
      assert HandsWith(g.chans, u) == {};
      assert KeysOf(g.e.receipts, u) == {};
    }
  }

  lemma {:induction false} RunInvariant(g: System, steps: seq<Gateway.Step>)
    requires Invariant(g) && Legal(g, steps)
    ensures Invariant(Run(g, steps))
    decreases |steps|
  {
    if steps != [] {
      StepInvariant(g, steps[0]);
      RunInvariant(Next(g, steps[0]), steps[1..]);
    }
  }

  /** In such a run peers answer only what they were sent. */
  predicate HonestRun(g: System, steps: seq<Gateway.Step>)
    requires Legal(g, steps)
    decreases |steps|
  {
    steps == [] || (HonestStep(g, steps[0]) && HonestRun(Next(g, steps[0]), steps[1..]))
  }

  lemma {:induction false} RunCausal(g: System, steps: seq<Gateway.Step>)
    requires Invariant(g) && Legal(g, steps) && HonestRun(g, steps) && (g.ended || Causal(g))
    ensures Run(g, steps).ended || Causal(Run(g, steps))
    decreases |steps|
  {
    if steps != [] {
      var next := Next(g, steps[0]);
      StepInvariant(g, steps[0]);
      if g.ended {
        StaysEnded(g, steps[0]);
      } else {
        StepCausal(g, steps[0]);
      }
      RunCausal(next, steps[1..]);
    }
  }

  lemma StaysEnded(g: System, s: Gateway.Step)
    requires DistinctIds(g.e.links) && Enabled(g, s) && g.ended
    ensures Next(g, s).ended
  {
    if s.Take? {
      TakeStaysEnded(g, s.p, s.w, s.drawn, s.written);
    }
  }

  lemma TakeStaysEnded(g: System, p: Place, w: Channel.Window, drawn: Option<Drawn>, written: bool)
    requires Enabled(g, Take(p, w, drawn, written)) && g.ended
    ensures TakeStep(g, p, w, drawn, written).ended
  {
    var _, _ := TakeIs(g, p, w, drawn, written);
  }

  lemma {:induction false} NotDoubled(doubled: seq<Json>, u: Tag)
    requires DoubledLong(doubled) && |u.ids| <= 1
    ensures InSeq(doubled, u) == 0
  {
    if doubled != [] {
      assert |TagOf(doubled[0]).ids| > 1;
      NotDoubled(doubled[1..], u);
    }
  }

  /**
    In every run each accepted message is somewhere: in a queue, the mailbox, a
    hand, the receipts, or one of the ways to end. It is in one place, and in
    at most one more for every time it was queued again for a slow-down answer
    about a later part; a submit of one part, an uplink message and a report
    are always in exactly one. A message that was not accepted is nowhere.
   */
  lemma MessagesConserved(g: System, steps: seq<Gateway.Step>, u: Tag)
    requires Initial(g) && Legal(g, steps) && u.Proper()
    ensures var h := Run(g, steps);
      && (u in h.accepted ==> 1 <= Places(h, u) <= 1 + InSeq(h.doubled, u))
      && (u in h.accepted && |u.ids| == 1 ==> Places(h, u) == 1)
      && (u !in h.accepted ==> Places(h, u) == 0)
  {
    InitialInvariant(g);
    RunInvariant(g, steps);
    assert InPlace(Run(g, steps), u);
    if |u.ids| == 1 {
      NotDoubled(Run(g, steps).doubled, u);
    }
  }

  /** The entry under this number has been taken out: answered, sent again or expired. */
  predicate Gone(g: System, key: nat) {
    key in g.answeredNos || key in g.resentNos || key in g.expiredNos
  }

  /** The message id of the part this number was drawn for. */
  function PartId(g: System, key: nat): Str
    requires key in g.issued && g.issued[key].Storable()
  {
    g.issued[key].tag.ids[g.issued[key].part]
  }

  /** An entry in the map is that of the part its number was drawn for. */
  lemma EntryKnown(g: System, key: nat)
    requires WellFormed(g) && key in g.e.receipts
    ensures key in g.issued && g.issued[key].Storable() && TagOf(g.e.receipts[key]) == g.issued[key].tag
    ensures g.issued[key].tag.kind == Submit ==> g.e.receipts[key].accountMsgId == Some(PartId(g, key))
    ensures g.issued[key].tag.kind != Submit ==> g.e.receipts[key].msgId.GetOr([]) == PartId(g, key)
  {
    assert TrackedReceipt(g.issued, key, g.e.receipts[key]);
  }

  /** A normal response is published once, with what the entry under its number says. */
  lemma PublishesOne(g: System, now: int) returns (out: Json)
    requires DistinctIds(g.e.links) && g.mailbox != []
    requires g.mailbox[0].m.kind == SubmitResp && !g.mailbox[0].m.speedLimit
    ensures Receipts.Answers(HandleStep(g, now).e.log) == Receipts.Answers(g.e.log) + [out]
    ensures var r, receipts := g.mailbox[0].m, g.e.receipts;
      if SeqKey(r) in receipts then Receipts.Matched(out, r, receipts[SeqKey(r)].accountMsgId)
      else Receipts.Unmatched(out, r)
  {
    var r := Received(g.e, g.mailbox[0].m, now);
    Receipts.OneAnswer(g.e, r);
    out := Receipts.Routed(Reply(g.e.receipts, r));
  }

  /**
    In every run, whatever the peers answer: when the entity comes to a normal
    submit response it publishes one response. If the number is in its receipt
    map and was drawn for a submit, that response carries the message id of
    exactly the part it was drawn for, beside the peer's own id; if it is not in
    the map, the response is published as it came.
   */
  lemma AnswersCarryTheirPart(g: System, steps: seq<Gateway.Step>, now: int) returns (out: Json)
    requires Initial(g) && Legal(g, steps) && Enabled(Run(g, steps), Handle(now))
    requires Run(g, steps).mailbox[0].m.kind == SubmitResp && !Run(g, steps).mailbox[0].m.speedLimit
    ensures DistinctIds(Run(g, steps).e.links)
    ensures Receipts.Answers(HandleStep(Run(g, steps), now).e.log) == Receipts.Answers(Run(g, steps).e.log) + [out]
    ensures var h := Run(g, steps);
      var r, key := h.mailbox[0].m, SeqKey(h.mailbox[0].m);
      && (key in h.e.receipts ==>
            key in h.issued && h.issued[key].Storable()
            && (h.issued[key].tag.kind == Submit ==> Receipts.Matched(out, r, Some(PartId(h, key)))))
      && (key !in h.e.receipts ==> Receipts.Unmatched(out, r))
  {
    InitialInvariant(g);
    RunInvariant(g, steps);
    var h := Run(g, steps);
    if SeqKey(h.mailbox[0].m) in h.e.receipts {
      EntryKnown(h, SeqKey(h.mailbox[0].m));
    }
    out := PublishesOne(h, now);
  }

  lemma UplinkReply(e: State, r: Json) returns (out: Json)
    ensures OnDeliverResp(e, r).log == e.log + [Published(DeliverRespTopic, out)]
    ensures out.accountMsgId == if SeqKey(r) in e.receipts then e.receipts[SeqKey(r)].msgId else r.accountMsgId
  {
    out := Receipts.Routed(if SeqKey(r) in e.receipts then r.(accountMsgId := e.receipts[SeqKey(r)].msgId) else r);
  }

  lemma HandlesUplink(g: System, now: int)
    requires DistinctIds(g.e.links) && g.mailbox != [] && g.mailbox[0].m.kind == DeliverResp
    ensures HandleStep(g, now).e == OnDeliverResp(g.e, Received(g.e, g.mailbox[0].m, now))
  {
  }

  /** The answer to an uplink message is published once, with the id of the entry under its number. */
  lemma PublishesUplink(g: System, now: int) returns (out: Json)
    requires DistinctIds(g.e.links) && g.mailbox != [] && g.mailbox[0].m.kind == DeliverResp
    ensures HandleStep(g, now).e.log == g.e.log + [Published(DeliverRespTopic, out)]
    ensures var r := g.mailbox[0].m;
      out.accountMsgId == if SeqKey(r) in g.e.receipts then g.e.receipts[SeqKey(r)].msgId else r.accountMsgId
  {
    HandlesUplink(g, now);
    out := UplinkReply(g.e, Received(g.e, g.mailbox[0].m, now));
  }

  /**
    The same for the answer to an uplink message: it is published with the id
    of the message its number was drawn for.
   */
  lemma UplinkAnswersCarryTheirId(g: System, steps: seq<Gateway.Step>, now: int) returns (out: Json)
    requires Initial(g) && Legal(g, steps) && Enabled(Run(g, steps), Handle(now))
    requires Run(g, steps).mailbox[0].m.kind == DeliverResp
    ensures DistinctIds(Run(g, steps).e.links)
    ensures HandleStep(Run(g, steps), now).e.log == Run(g, steps).e.log + [Published(DeliverRespTopic, out)]
    ensures var h := Run(g, steps);
      var r, key := h.mailbox[0].m, SeqKey(h.mailbox[0].m);
      && (key in h.e.receipts ==>
            key in h.issued && h.issued[key].Storable()
            && (h.issued[key].tag.kind == Deliver ==> out.accountMsgId.GetOr([]) == PartId(h, key)))
      && (key !in h.e.receipts ==> out.accountMsgId == r.accountMsgId)
  {
    InitialInvariant(g);
    RunInvariant(g, steps);
    var h := Run(g, steps);
    if SeqKey(h.mailbox[0].m) in h.e.receipts {
      EntryKnown(h, SeqKey(h.mailbox[0].m));
    }
    out := PublishesUplink(h, now);
  }

  /**
    In every run whose peers answer only what they were sent, when the entity
    comes to a response whose number is not in its receipt map, either the part
    had no message id, or its entry has been there before and was answered,
    sent again or expired.
   */
  lemma AnswerMissesOnlyWhatEnded(g: System, steps: seq<Gateway.Step>, now: int)
    requires Initial(g) && Legal(g, steps) && HonestRun(g, steps) && Enabled(Run(g, steps), Handle(now))
    requires IsResponse(Run(g, steps).mailbox[0].m)
    ensures var h := Run(g, steps);
      var key := SeqKey(h.mailbox[0].m);
      key in h.issued && (key !in h.e.receipts && h.issued[key].Storable() ==> key in h.stored && Gone(h, key))
  {
    InitialInvariant(g);
    RunInvariant(g, steps);
    RunCausal(g, steps);
    var h := Run(g, steps);
    assert Answers(h.issued, h.stored, h.mailbox, 0);
  }
}
