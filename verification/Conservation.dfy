/** What each step does to the number of places an accepted message is in. */
module Conservation {
  import opened Wrappers
  import opened Messages
  import opened Entity
  import opened EntitySteps
  import opened Handoff
  import opened Counting
  import opened EntityCounts
  import opened Gateway
  import Channel
  import Receipts

  // ---------- counts ----------

  lemma {:induction false} InMailAdd(a: seq<Mail>, b: seq<Mail>, u: Tag)
    ensures InMail(a + b, u) == InMail(a, u) + InMail(b, u)
  {
    if a == [] {
      assert a + b == b;
    } else {
      assert (a + b)[1..] == a[1..] + b;
      InMailAdd(a[1..], b, u);
    }
  }

  lemma InMailSnoc(a: seq<Mail>, mail: Mail, u: Tag)
    ensures InMail(a + [mail], u) == InMail(a, u) + OneOwn(mail.m, u)
  {
    InMailAdd(a, [mail], u);
    assert [mail][1..] == [];
  }

  function InHand(c: Chan, u: Tag): nat {
    if c.hand.Some? then One(c.hand.value, u) else 0
  }

  lemma HandCounts(chans: map<nat, Chan>, id: nat, c: Chan, u: Tag)
    requires id in chans
    ensures InHands(chans[id := c], u) + InHand(chans[id], u) == InHands(chans, u) + InHand(c, u)
  {
    OneElement(HandsWith(chans, u), HandsWith(chans[id := c], u), id);
  }

  lemma FirstCounts(link: Link, u: Tag)
    requires link.Queued() > 0
    ensures InLink(link, u) == InLink(Rest(link), u) + One(First(link), u)
  {
  }

  lemma SetLinkCounts(g: System, p: Place, link: Link, u: Tag)
    requires HasPlace(g, p)
    requires p.Stored? ==> InLink(LinkAt(g, p), u) == InLink(link, u)
    ensures Places(SetLink(g, p, link), u) == Places(g, u) - InLink(LinkAt(g, p), u) + InLink(link, u)
  {
    match p
    case Attached(k) => InLinksUpdate(g.e.links, k, link, u);
    case Detached(k) => InLinksUpdate(g.detached, k, link, u);
    case Stored(_) =>
  }

  /** The message an act of `Channel.Take` is about. */
  function About(act: Channel.Act): Option<Json> {
    match act
    case Bounced(m) => Some(m)
    case Sent(m) => Some(m)
    case Unrecorded(m) => Some(m)
    case WriteFailed(m) => Some(m)
    case Lost(m) => Some(m)
    case _ => None
  }

  lemma ApplyCounts(g: System, id: nat, act: Channel.Act, u: Tag)
    requires Idle(g, id) && About(act).Some? && (act.Bounced? ==> !Plain(act.m))
    ensures Places(Apply(g, id, act), u) == Places(g, u) + One(About(act).value, u)
  {
    match act {
      case Bounced(m) => InMailSnoc(g.mailbox, Mail(id, m), u);
      case Sent(m) => HandCounts(g.chans, id, g.chans[id].(hand := Some(m)), u);
      case Unrecorded(m) => InSeqSnoc(g.lost, m, u);
      case WriteFailed(m) => InSeqSnoc(g.failed, m, u);
      case Lost(m) => InSeqSnoc(g.lost, m, u);
      case _ =>
    }
  }

  /** What an encoder leaves of a message. */
  lemma EncodedTag(m: Json, drawn: Option<Drawn>)
    requires drawn.Some?
    ensures TagOf(Encoded(m, drawn).value) == TagOf(m) && Encoded(m, drawn).value.kind == m.kind
  {
  }

  /** What came of a queued message: one thing, and the task goes on unless it could not reach the entity. */
  predicate CameOf(m: Json, drawn: Option<Drawn>, handed: bool, after: Channel.Window, act: Channel.Act) {
    && About(act).Some? && TagOf(About(act).value) == TagOf(m)
    && (act.Sent? ==> handed && drawn.Some? && act.m == Encoded(m, drawn).value.(waitReceipt := true))
    && (act.Bounced? ==> handed && m.msgIds != [] && act.m == m.(speedLimit := true))
    && (handed ==> after.phase == Channel.Working)
  }

  lemma TakeActs(w: Channel.Window, m: Json, priority: bool, drawn: Option<Drawn>, written: bool, handed: bool)
    requires w.currTx < w.txLimit && w.phase == Channel.Working
    ensures var (after, acts) := Channel.Take(w, m, priority, Encoded(m, drawn), written, handed);
      |acts| == 1 && CameOf(m, drawn, handed, after, acts[0])
  {
    if drawn.Some? {
      EncodedTag(m, drawn);
    }
  }

  lemma TakeIs(g: System, p: Place, w: Channel.Window, drawn: Option<Drawn>, written: bool)
    returns (after: Channel.Window, act: Channel.Act)
    requires Enabled(g, Take(p, w, drawn, written))
    ensures var link := LinkAt(g, p);
      TakeStep(g, p, w, drawn, written) == Returns(Apply(SetLink(g, p, Rest(link)), link.id, act), link.id, after)
      && CameOf(First(link), drawn, !g.ended, after, act)
  {
    var link := LinkAt(g, p);
    TakeActs(w, First(link), link.priority != [], drawn, written, !g.ended);
    var r := Channel.Take(w, First(link), link.priority != [], Encoded(First(link), drawn), written, !g.ended);
    after, act := r.0, r.1[0];
  }

  /**
    Not lost: at least one copy of an accepted message, at most one more for
    every time it was doubled; and none of a message that was not accepted.
   */
  predicate InPlace(g: System, u: Tag) {
    if u in g.accepted then 1 <= Places(g, u) <= 1 + InSeq(g.doubled, u) else Places(g, u) == 0
  }

  /** The part of the state that says what is owed. */
  predicate SameOwed(g: System, h: System) {
    h.accepted == g.accepted && h.doubled == g.doubled
  }

  lemma SetLinkOwes(g: System, p: Place, link: Link)
    requires HasPlace(g, p)
    ensures SameOwed(g, SetLink(g, p, link))
    ensures SetLink(g, p, link).chans == g.chans && SetLink(g, p, link).ended == g.ended
  {
  }

  lemma ApplyOwes(g: System, id: nat, act: Channel.Act)
    requires id in g.chans
    ensures SameOwed(g, Apply(g, id, act))
  {
  }

  lemma TakeCounts(g: System, p: Place, w: Channel.Window, drawn: Option<Drawn>, written: bool, u: Tag)
    requires Enabled(g, Take(p, w, drawn, written)) && !p.Stored?
    requires Carried(g.issued, First(LinkAt(g, p)))
    ensures Places(TakeStep(g, p, w, drawn, written), u) == Places(g, u)
    ensures SameOwed(g, TakeStep(g, p, w, drawn, written))
  {
    var link := LinkAt(g, p);
    var after, act := TakeIs(g, p, w, drawn, written);
    BouncedIsOwn(g.issued, First(link), drawn, !g.ended, after, act);
    TakenCounts(g, p, act, u);
    ApplyHand(SetLink(g, p, Rest(link)), link.id, act);
    ReturnsCounts(Apply(SetLink(g, p, Rest(link)), link.id, act), link.id, after, act, u);
  }

  lemma BouncedIsOwn(issued: map<nat, Issue>, m: Json, drawn: Option<Drawn>, handed: bool, after: Channel.Window,
                     act: Channel.Act)
    requires Carried(issued, m) && CameOf(m, drawn, handed, after, act)
    ensures act.Bounced? ==> !Plain(act.m)
    ensures after.phase != Channel.Working ==> !act.Sent?
  {
  }

  lemma ApplyHand(g: System, id: nat, act: Channel.Act)
    requires Idle(g, id)
    ensures id in Apply(g, id, act).chans && (!act.Sent? ==> Apply(g, id, act).chans[id].hand == None)
  {
  }

  /** A task that returns has nothing in its hand. */
  lemma ReturnsCounts(g: System, id: nat, after: Channel.Window, act: Channel.Act, u: Tag)
    requires id in g.chans && (after.phase == Channel.Working || g.chans[id].hand == None)
    ensures Places(Returns(g, id, after), u) == Places(g, u) && SameOwed(g, Returns(g, id, after))
  {
    if after.phase != Channel.Working {
      RemoveHandless(g.chans, id, u);
    }
  }

  lemma TakenCounts(g: System, p: Place, act: Channel.Act, u: Tag)
    requires HasPlace(g, p) && LinkAt(g, p).Queued() > 0 && Idle(g, LinkAt(g, p).id) && !p.Stored?
    requires About(act).Some? && TagOf(About(act).value) == TagOf(First(LinkAt(g, p)))
    requires act.Bounced? ==> !Plain(act.m)
    ensures var h := Apply(SetLink(g, p, Rest(LinkAt(g, p))), LinkAt(g, p).id, act);
      Places(h, u) == Places(g, u) && SameOwed(g, h)
  {
    var link := LinkAt(g, p);
    var h := SetLink(g, p, Rest(link));
    FirstCounts(link, u);
    SetLinkCounts(g, p, Rest(link), u);
    SetLinkOwes(g, p, Rest(link));
    ApplyCounts(h, link.id, act, u);
    ApplyOwes(h, link.id, act);
  }

  /** What is posted is one copy more, if it is a message of the entity's own. */
  lemma PostCounts(g: System, id: nat, m: Json, u: Tag)
    ensures Places(Post(g, id, m), u) == Places(g, u) + OneOwn(m, u) && SameOwed(g, Post(g, id, m))
  {
    InMailSnoc(g.mailbox, Mail(id, m), u);
    InSeqSnoc(g.lost, m, u);
  }

  lemma FlushCounts(g: System, id: nat, u: Tag)
    requires Enabled(g, Flush(id)) && g.chans[id].hand.value.waitReceipt && Outgoing(u.kind)
    ensures Places(FlushStep(g, id), u) == Places(g, u) && SameOwed(g, FlushStep(g, id))
  {
    var m := g.chans[id].hand.value;
    var emptied := g.chans[id := g.chans[id].(hand := None)];
    HandCounts(g.chans, id, g.chans[id].(hand := None), u);
    RemoveHandless(emptied, id, u);
    assert emptied - {id} == g.chans - {id};
    PostCounts(g.(chans := if g.ended then g.chans - {id} else emptied), id, m, u);
  }

  lemma {:induction false} PlainMailCounts(id: nat, ms: seq<Json>, u: Tag)
    requires forall i :: 0 <= i < |ms| ==> Plain(ms[i])
    ensures InMail(MailFrom(id, ms), u) == 0
  {
    if ms != [] {
      assert MailFrom(id, ms)[1..] == MailFrom(id, ms[1..]);
      PlainMailCounts(id, ms[1..], u);
    }
  }

  /** The peer's packet goes on to the entity as it is, at most once. */
  lemma ReadForwards(w: Channel.Window, m: Json, id: nat, receipt: bool, written: bool, handed: bool)
    ensures var out := ForwardedIn(Channel.Receive(w, m, id, receipt, written, handed).1);
      var passed := if m.kind == Terminate then m.(id := Some(id)) else m;
      out == [] || out == [passed]
    ensures m.kind != Submit && !receipt && handed ==>
      ForwardedIn(Channel.Receive(w, m, id, receipt, written, handed).1) != []
  {
    var acts := Channel.Receive(w, m, id, receipt, written, handed).1;
    if |acts| == 2 {
      ForwardedOne(acts[1]);
      assert acts[1..] == [acts[1]];
      assert [] + ForwardedIn(acts[1..]) == ForwardedIn(acts[1..]);
    } else if |acts| == 1 {
      ForwardedOne(acts[0]);
      assert acts == [acts[0]];
    }
  }

  lemma ForwardedOne(act: Channel.Act)
    ensures ForwardedIn([act]) == if act.Forwarded? then [act.m] else []
  {
    assert [act][1..] == [];
  }

  lemma ReadCounts(g: System, id: nat, w: Channel.Window, receipt: bool, written: bool, u: Tag)
    requires Enabled(g, Read(id, w, receipt, written))
    requires Plain(g.chans[id].inbound[0])
    ensures Places(ReadStep(g, id, w, receipt, written), u) == Places(g, u)
    ensures SameOwed(g, ReadStep(g, id, w, receipt, written))
  {
    var c := g.chans[id];
    var out := ForwardedIn(Channel.Receive(w, c.inbound[0], id, receipt, written, !g.ended).1);
    ReadForwards(w, c.inbound[0], id, receipt, written, !g.ended);
    PlainMailCounts(id, out, u);
    InMailAdd(g.mailbox, MailFrom(id, out), u);
    HandCounts(g.chans, id, c.(inbound := c.inbound[1..]), u);
  }

  lemma AcceptCounts(g: System, m: Json, u: Tag)
    requires Enabled(g, Accept(m)) && DistinctIds(g.e.links)
    ensures Places(AcceptStep(g, m), u) == Places(g, u) + One(m, u)
    ensures AcceptStep(g, m).doubled == g.doubled
    ensures u in AcceptStep(g, m).accepted <==> u in g.accepted || One(m, u) == 1
  {
    SendCounts(g.e, m, u);
    InLinksAdd(g.detached, Forgotten(g.e, Send(g.e, m)), u);
  }

  lemma {:induction false} SendEachCounts(e: State, ms: seq<Json>, u: Tag)
    requires DistinctIds(e.links)
    ensures Held(SendEach(e, ms), u) + InLinks(ForgottenByEach(e, ms), u) == Held(e, u) + InSeq(ms, u)
    decreases |ms|
  {
    if ms != [] {
      var next := Send(e, ms[0]);
      SendKeepsDistinct(e, ms[0]);
      SendCounts(e, ms[0], u);
      SendEachCounts(next, ms[1..], u);
      InLinksAdd(Forgotten(e, next), ForgottenByEach(next, ms[1..]), u);
    }
  }

  lemma ResendCounts(g: System, now: int, keys: seq<nat>, u: Tag)
    requires Enabled(g, Resend(now, keys)) && DistinctIds(g.e.links)
    ensures Places(ResendStep(g, now, keys), u) == Places(g, u) && SameOwed(g, ResendStep(g, now, keys))
  {
    var due := DueKeys(g.e.receipts, now);
    var taken, ms := g.e.(receipts := g.e.receipts - due), Sources(g.e.receipts, keys);
    TakeOutCounts(g.e.receipts, keys, due, u);
    AllLive(ms, u);
    SendEachCounts(taken, ms, u);
    InLinksAdd(g.detached, ForgottenByEach(taken, ms), u);
  }

  lemma ExpireCounts(g: System, duration: int, now: int, keys: seq<nat>, u: Tag)
    requires Enabled(g, Expire(duration, now, keys))
    ensures Places(ExpireStep(g, duration, now, keys), u) == Places(g, u)
    ensures SameOwed(g, ExpireStep(g, duration, now, keys))
  {
    var gone := ExpiredKeys(g.e.receipts, duration, now);
    TakeOutCounts(g.e.receipts, keys, gone, u);
    assert ClearReceipts(g.e.receipts, duration, now) == g.e.receipts - gone;
    InLiveAdd(g.expired, Sources(g.e.receipts, keys), u);
  }

  lemma RemoveHandless(chans: map<nat, Chan>, id: nat, u: Tag)
    requires id in chans && chans[id].hand == None
    ensures InHands(chans - {id}, u) == InHands(chans, u)
  {
    assert HandsWith(chans - {id}, u) == HandsWith(chans, u);
  }

  lemma EmptiedCounts(g: System, p: Place, u: Tag)
    requires HasPlace(g, p) && Idle(g, LinkAt(g, p).id) && SaveEmpty(g.save)
    ensures var link := LinkAt(g, p);
      var h := SetLink(g, p, Emptied(link)).(chans := g.chans - {link.id});
      Places(h, u) + InSeq(link.priority, u) + InSeq(link.common, u) == Places(g, u) && SameOwed(g, h)
  {
    var link := LinkAt(g, p);
    SetLinkCounts(g, p, Emptied(link), u);
    SetLinkOwes(g, p, Emptied(link));
    RemoveHandless(g.chans, link.id, u);
  }

  lemma ClearCounts(g: System, p: Place, u: Tag)
    requires Enabled(g, Clear(p)) && SaveEmpty(g.save)
    ensures Places(ClearStep(g, p), u) == Places(g, u) && SameOwed(g, ClearStep(g, p))
  {
    var link := LinkAt(g, p);
    EmptiedCounts(g, p, u);
    InSeqAdd(g.failed + link.priority, link.common, u);
    InSeqAdd(g.failed, link.priority, u);
  }

  lemma ExitCounts(g: System, p: Place, u: Tag)
    requires Enabled(g, Exit(p)) && SaveEmpty(g.save)
    ensures Places(ExitStep(g, p), u) == Places(g, u) && SameOwed(g, ExitStep(g, p))
  {
    var link := LinkAt(g, p);
    EmptiedCounts(g, p, u);
    InSeqAdd(g.dropped + link.priority, link.common, u);
    InSeqAdd(g.dropped, link.priority, u);
  }

  lemma FirstTracked(g: System, p: Place)
    requires TrackedLinks(g.issued, g.e.links) && TrackedLinks(g.issued, g.detached) && SaveEmpty(g.save)
    requires HasPlace(g, p) && LinkAt(g, p).Queued() > 0
    ensures Carried(g.issued, First(LinkAt(g, p))) && !p.Stored?
  {
    if !p.Stored? {
      assert TrackedLink(g.issued, LinkAt(g, p));
    }
  }

  /** The numbers of a returned message hold nothing but entries of its own parts. */
  lemma ReturnedFits(g: System)
    requires WellFormed(g) && g.mailbox != []
    ensures var m := g.mailbox[0].m; Plain(m) || (Returned(m) && Fitting(g.e.receipts, m))
  {
    var m := g.mailbox[0].m;
    assert TrackedMail(g.issued, m);
    if !Plain(m) && m.kind == Submit {
      forall i | 1 <= i < Receipts.Parts(m)
        ensures Spare(g.e.receipts, m.seqIds[i])
      {
        NumberTracked(g, m, i);
      }
    }
  }

  /** What is stored under the number of a part is the entry of that part of that message. */
  lemma NumberTracked(g: System, m: Json, i: nat)
    requires TrackedReceipts(g.issued, g.e.receipts) && Tracked(g.issued, m) && i < |m.seqIds|
    ensures m.seqIds[i] in g.e.receipts ==>
      TagOf(g.e.receipts[m.seqIds[i]]) == TagOf(m) && (Live(g.e.receipts[m.seqIds[i]]) <==> i == 0)
  {
    var s := m.seqIds[i];
    assert DrawnFor(g.issued, s, TagOf(m), i);
    if s in g.e.receipts {
      assert TrackedReceipt(g.issued, s, g.e.receipts[s]);
    }
  }

  lemma HandleCounts(g: System, now: int, u: Tag)
    requires DistinctIds(g.e.links) && SaveEmpty(g.save) && g.mailbox != []
    requires var m := g.mailbox[0].m; Plain(m) || (Returned(m) && Fitting(g.e.receipts, m))
    ensures var m := Received(g.e, g.mailbox[0].m, now);
      Places(HandleStep(g, now), u) + InLive(MergedBy(g.e, m), u) == Places(g, u) + InSeq(DoubledBy(g.e, m), u)
    ensures HandleStep(g, now).accepted == g.accepted
    ensures InSeq(HandleStep(g, now).doubled, u)
         == InSeq(g.doubled, u) + InSeq(DoubledBy(g.e, Received(g.e, g.mailbox[0].m, now)), u)
  {
    var m := g.mailbox[0].m;
    var r := StateOf(FromChannel(g.e, g.save, m, now).0);
    FromChannelCounts(g.e, g.save, m, now, u);
    InLinksAdd(g.detached, Forgotten(g.e, r), u);
    InLiveAdd(g.answered, AnsweredBy(g.e, Received(g.e, m, now)), u);
    InSeqAdd(g.doubled, DoubledBy(g.e, Received(g.e, m, now)), u);
  }

  /** Two copies become one only where there were two. */
  lemma MergesTwo(g: System, now: int, u: Tag)
    requires WellFormed(g) && g.mailbox != []
    ensures InLive(MergedBy(g.e, Received(g.e, g.mailbox[0].m, now)), u) <= 1
    ensures InLive(MergedBy(g.e, Received(g.e, g.mailbox[0].m, now)), u) > 0 ==> Places(g, u) >= 2
  {
    var m := Received(g.e, g.mailbox[0].m, now);
    assert TrackedMail(g.issued, g.mailbox[0].m);
    if MergedBy(g.e, m) != [] {
      var key := m.seqIds[0];
      OneInSeq(g.e.receipts[key], u);
      NumberTracked(g, g.mailbox[0].m, 0);
      RemoveCounts(g.e.receipts, key, u);
    }
  }

  /** Only accepted messages are doubled. */
  lemma DoublesAccepted(g: System, now: int, u: Tag)
    requires WellFormed(g) && IssuedKnown(g.issued, g.accepted) && g.mailbox != []
    ensures InSeq(DoubledBy(g.e, Received(g.e, g.mailbox[0].m, now)), u) > 0 ==> u in g.accepted
  {
    var m := Received(g.e, g.mailbox[0].m, now);
    if DoubledBy(g.e, m) != [] {
      OneInSeq(g.e.receipts[SeqKey(m)], u);
      assert TrackedReceipt(g.issued, SeqKey(m), g.e.receipts[SeqKey(m)]);
    }
  }

  lemma LoginCounts(g: System, id: nat, canWrite: bool, u: Tag)
    requires Enabled(g, Login(id, canWrite))
    ensures Places(LoginStep(g, id, canWrite), u) == Places(g, u) && SameOwed(g, LoginStep(g, id, canWrite))
  {
    var h := g.(save := g.save[id := Link(id, true, true, [], [])], chans := g.chans[id := Chan(None, [])]);
    assert HandsWith(h.chans, u) == HandsWith(g.chans, u);
    PostCounts(h, id, EMPTY.(kind := Connect, channelId := Some(id), canWrite := Some(canWrite)), u);
  }

  lemma PeerSendsCounts(g: System, id: nat, r: Json, u: Tag)
    requires Enabled(g, PeerSends(id, r))
    ensures Places(PeerSendsStep(g, id, r), u) == Places(g, u) && SameOwed(g, PeerSendsStep(g, id, r))
  {
    HandCounts(g.chans, id, g.chans[id].(inbound := g.chans[id].inbound + [r]), u);
  }

  lemma AnnounceCounts(g: System, id: nat, u: Tag)
    requires Enabled(g, Announce(id))
    ensures Places(AnnounceStep(g, id), u) == Places(g, u) && SameOwed(g, AnnounceStep(g, id))
  {
    PostCounts(g, id, EMPTY.(kind := Terminate, id := Some(id)), u);
  }

  lemma {:induction false} TellAllCounts(links: seq<Link>, u: Tag)
    requires Outgoing(u.kind)
    ensures InLinks(TellAll(links), u) == InLinks(links, u)
  {
    if links != [] {
      InSeqSnoc(links[0].priority, TERMINATE, u);
      TellAllCounts(links[1..], u);
      assert TellAll(links)[1..] == TellAll(links[1..]);
    }
  }

  lemma CloseCounts(g: System, u: Tag)
    requires DistinctIds(g.e.links) && Outgoing(u.kind)
    ensures Places(CloseStep(g), u) == Places(g, u) && SameOwed(g, CloseStep(g))
  {
    TellAllCounts(g.e.links, u);
    FailuresSnoc(g.e.log, StateChange(StateCode(g.e.full, g.e.connNum)), u);
  }

  predicate OfChannel(s: Gateway.Step) {
    s.Take? || s.Flush? || s.PeerSends? || s.Read? || s.Clear? || s.Exit? || s.Announce?
  }

  lemma ChannelStepCounts(g: System, s: Gateway.Step, u: Tag)
    requires DistinctIds(g.e.links) && SaveEmpty(g.save) && Enabled(g, s) && OfChannel(s) && Outgoing(u.kind)
    requires s.Take? ==> !s.p.Stored? && Carried(g.issued, First(LinkAt(g, s.p)))
    requires s.Flush? ==> g.chans[s.id].hand.value.waitReceipt
    requires s.Read? ==> Plain(g.chans[s.id].inbound[0])
    ensures Places(Next(g, s), u) == Places(g, u) && SameOwed(g, Next(g, s))
  {
    match s
    case Take(p, w, drawn, written) => TakeCounts(g, p, w, drawn, written, u);
    case Flush(id) => FlushCounts(g, id, u);
    case PeerSends(id, r) => PeerSendsCounts(g, id, r, u);
    case Read(id, w, receipt, written) => ReadCounts(g, id, w, receipt, written, u);
    case Clear(p) => ClearCounts(g, p, u);
    case Exit(p) => ExitCounts(g, p, u);
    case Announce(id) => AnnounceCounts(g, id, u);
  }

  predicate OfTimer(s: Gateway.Step) {
    s.Login? || s.Resend? || s.Expire? || s.ForgetLong? || s.Close?
  }

  lemma TimerStepCounts(g: System, s: Gateway.Step, u: Tag)
    requires DistinctIds(g.e.links) && Enabled(g, s) && OfTimer(s) && Outgoing(u.kind)
    ensures Places(Next(g, s), u) == Places(g, u) && SameOwed(g, Next(g, s))
  {
    match s
    case Login(id, canWrite) => LoginCounts(g, id, canWrite, u);
    case Resend(now, keys) => ResendCounts(g, now, keys, u);
    case Expire(duration, now, keys) => ExpireCounts(g, duration, now, keys, u);
    case ForgetLong(_, _) =>
    case Close => CloseCounts(g, u);
  }

  lemma AcceptInPlace(g: System, m: Json, u: Tag)
    requires Enabled(g, Accept(m)) && DistinctIds(g.e.links) && InPlace(g, u)
    ensures InPlace(AcceptStep(g, m), u)
  {
    AcceptCounts(g, m, u);
  }

  lemma HandleInPlace(g: System, now: int, u: Tag)
    requires WellFormed(g) && IssuedKnown(g.issued, g.accepted) && g.mailbox != [] && InPlace(g, u)
    ensures InPlace(HandleStep(g, now), u)
  {
    ReturnedFits(g);
    MergesTwo(g, now, u);
    DoublesAccepted(g, now, u);
    HandleCounts(g, now, u);
  }

  /** A step of a connection's task or its peer, of a timer, or an order to close moves copies and does no more. */
  lemma OtherStepCounts(g: System, s: Gateway.Step, u: Tag)
    requires WellFormed(g) && Enabled(g, s) && Outgoing(u.kind) && !s.Accept? && !s.Handle?
    ensures Places(Next(g, s), u) == Places(g, u) && SameOwed(g, Next(g, s))
  {
    if OfTimer(s) {
      TimerStepCounts(g, s, u);
    } else {
      if s.Take? {
        FirstTracked(g, s.p);
      }
      if s.Read? || s.Flush? {
        assert TrackedHand(g.issued, g.chans[s.id]);
      }
      ChannelStepCounts(g, s, u);
    }
  }

  /** Each step leaves a message in as many places as it should be. */
  lemma StepInPlace(g: System, s: Gateway.Step, u: Tag)
    requires WellFormed(g) && IssuedKnown(g.issued, g.accepted) && Enabled(g, s) && Outgoing(u.kind) && InPlace(g, u)
    ensures InPlace(Next(g, s), u)
  {
    if s.Accept? {
      AcceptInPlace(g, s.m, u);
    } else if s.Handle? {
      HandleInPlace(g, s.now, u);
    } else {
      OtherStepCounts(g, s, u);
    }
  }

  /** A queued message is in a place, so it was accepted. */
  lemma QueuedIsAccepted(g: System, p: Place)
    requires HasPlace(g, p) && LinkAt(g, p).Queued() > 0 && !p.Stored?
    requires InPlace(g, TagOf(First(LinkAt(g, p))))
    ensures TagOf(First(LinkAt(g, p))) in g.accepted
  {
    var u := TagOf(First(LinkAt(g, p)));
    FirstCounts(LinkAt(g, p), u);
    SetLinkCounts(g, p, Rest(LinkAt(g, p)), u);
  }

  // ---------- when it is exactly one ----------

  /** The next answer asks to slow down, and its number is that of a part of this message after the first. */
  predicate SlowsLaterPart(g: System, u: Tag)
    requires g.mailbox != []
  {
    var m := g.mailbox[0].m;
    m.kind == SubmitResp && m.speedLimit && SeqKey(m) in g.e.receipts
    && !Live(g.e.receipts[SeqKey(m)]) && TagOf(g.e.receipts[SeqKey(m)]) == u
  }

  lemma DoubledCount(g: System, now: int, u: Tag)
    requires g.mailbox != []
    ensures InSeq(DoubledBy(g.e, Received(g.e, g.mailbox[0].m, now)), u) == if SlowsLaterPart(g, u) then 1 else 0
  {
    var m := Received(g.e, g.mailbox[0].m, now);
    if DoubledBy(g.e, m) != [] {
      OneInSeq(g.e.receipts[SeqKey(m)], u);
    }
  }

  lemma HandleOnePlace(g: System, now: int, u: Tag)
    requires WellFormed(g) && g.mailbox != [] && Places(g, u) == 1
    ensures Places(HandleStep(g, now), u) == if SlowsLaterPart(g, u) then 2 else 1
  {
    ReturnedFits(g);
    HandleCounts(g, now, u);
    MergesTwo(g, now, u);
    DoubledCount(g, now, u);
  }

  /**
    A message in one place stays in one place, except exactly where the entity
    comes to an answer that asks to slow down and is about one of its later
    parts: then it is in two.
   */
  lemma OnePlaceStaysIff(g: System, s: Gateway.Step, u: Tag)
    requires WellFormed(g) && Enabled(g, s) && Outgoing(u.kind) && Places(g, u) == 1
    requires s.Accept? ==> TagOf(s.m) != u
    ensures Places(Next(g, s), u) == 1 <==> !(s.Handle? && SlowsLaterPart(g, u))
  {
    if s.Handle? {
      HandleOnePlace(g, s.now, u);
    } else if s.Accept? {
      AcceptCounts(g, s.m, u);
    } else {
      OtherStepCounts(g, s, u);
    }
  }
}
