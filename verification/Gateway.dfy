/**
  One entity with all its connections' tasks and their peers, every step of any
  of them being one transition (src/entity/entity_running.rs,
  src/entity/channel.rs).
 */
module Gateway {
  import opened Wrappers
  import opened Messages
  import opened Entity
  import opened EntitySteps
  import opened Handoff
  import opened Counting
  import opened EntityCounts
  import Channel
  import Receipts
  import LongSms

  /** A message in the entity's mailbox and the connection it came from. */
  datatype Mail = Mail(from: nat, m: Json)

  /**
    A connection's task: a submit it has written to the peer and not yet put
    into the mailbox, and what the peer has sent and that is not yet read.
   */
  datatype Chan = Chan(hand: Option<Json>, inbound: seq<Json>)

  /** Which part of which message a packet number was drawn for, and the connection the packet went out on. */
  datatype Issue = Issue(tag: Tag, part: nat, via: nat) {
    /** Parts beyond the message ids get no entry. */
    predicate Storable() {
      part < |tag.ids|
    }
  }

  datatype System = System(
    e: State,
    ended: bool,                    // the entity's task has panicked or returned
    save: TempSave,
    mailbox: seq<Mail>,
    chans: map<nat, Chan>,
    detached: seq<Link>,            // queues whose sending end the entity has dropped
    answered: seq<Json>,
    expired: seq<Json>,
    failed: seq<Json>,              // given to the failure topic by a connection's task
    lost: seq<Json>,                // only logged: not encodable, a failed write, or no entity any more
    dropped: seq<Json>,             // queued when a connection's task ended without clearing its queues
    doubled: seq<Json>,             // queued again for an answer to an entry that is no copy
    accepted: set<Tag>,
    issued: map<nat, Issue>,
    stored: set<nat>,               // numbers that have had an entry in the receipt map
    since: map<nat, int>,           // when the last entry under a number was stored
    answeredNos: set<nat>,
    resentNos: set<nat>,
    expiredNos: set<nat>
  )

  /** Where a connection's queues are: with the entity, dropped by it, or not yet taken out of the store. */
  datatype Place = Attached(k: nat) | Detached(k: nat) | Stored(id: nat)

  /** What an encoder adds to a message: packet numbers, and to an uplink message an id for each part. */
  datatype Drawn = Drawn(seqIds: seq<nat>, newIds: seq<Str>)

  datatype Step =
    | Accept(m: Json)
    | Login(id: nat, canWrite: bool)
    | Take(p: Place, w: Channel.Window, drawn: Option<Drawn>, written: bool)
    | Flush(id: nat)
    | PeerSends(id: nat, r: Json)
    | Read(id: nat, w: Channel.Window, receipt: bool, written: bool)
    | Handle(now: int)
    | Resend(now: int, keys: seq<nat>)
    | Expire(duration: int, now: int, keys: seq<nat>)
    | ForgetLong(duration: int, now: int)
    | Clear(p: Place)
    | Exit(p: Place)
    | Announce(id: nat)
    | Close

  // ---------- queues ----------

  predicate HasPlace(g: System, p: Place) {
    match p
    case Attached(k) => k < |g.e.links|
    case Detached(k) => k < |g.detached|
    case Stored(id) => id in g.save
  }

  function LinkAt(g: System, p: Place): Link
    requires HasPlace(g, p)
  {
    match p
    case Attached(k) => g.e.links[k]
    case Detached(k) => g.detached[k]
    case Stored(id) => g.save[id]
  }

  function SetLink(g: System, p: Place, link: Link): System
    requires HasPlace(g, p)
  {
    match p
    case Attached(k) => g.(e := g.e.(links := g.e.links[k := link]))
    case Detached(k) => g.(detached := g.detached[k := link])
    case Stored(id) => g.(save := g.save[id := link])
  }

  /** The priority queue is read first. */
  function First(link: Link): Json
    requires link.Queued() > 0
  {
    if link.priority != [] then link.priority[0] else link.common[0]
  }

  function Rest(link: Link): Link
    requires link.Queued() > 0
  {
    if link.priority != [] then link.(priority := link.priority[1..]) else link.(common := link.common[1..])
  }

  /** A new message is read next only if nothing waits, or it has priority and no other priority message waits. */
  lemma ReadOrder(link: Link, m: Json)
    ensures First(Enqueue(link, m))
         == if link.Queued() == 0 || (m.isPriority && link.priority == []) then m else First(link)
    ensures link.Queued() > 0 && !(m.isPriority && link.priority == []) ==>
      Rest(Enqueue(link, m)) == Enqueue(Rest(link), m)
  {
  }

  /** This connection's task is at its `select!`. */
  predicate Idle(g: System, id: nat) {
    id in g.chans && g.chans[id].hand == None
  }

  // ---------- transitions ----------

  /** Decoders do not mark packets, and packets carry no channel number. */
  predicate FromPeer(r: Json) {
    Plain(r) && r.channelId == None
  }

  /** A message with ids of its own; the business side gives message ids to submits only. */
  predicate Acceptable(g: System, m: Json) {
    TagOf(m).Proper() && TagOf(m) !in g.accepted && m.seqIds == [] && !m.waitReceipt && !m.speedLimit
    && (m.kind != Submit ==> m.msgIds == [] && Live(m))
  }

  function ExpiredKeys(receipts: map<nat, Json>, duration: int, now: int): set<nat> {
    receipts.Keys - ClearReceipts(receipts, duration, now).Keys
  }

  /** Freshly drawn numbers, at least one. */
  predicate Unused(issued: map<nat, Issue>, ids: seq<nat>) {
    ids != [] && Receipts.Distinct(ids) && forall i :: 0 <= i < |ids| ==> ids[i] !in issued
  }

  predicate Enabled(g: System, s: Step) {
    match s
    case Accept(m) => !g.ended && Acceptable(g, m)
    case Login(id, _) => id !in g.save && id !in g.chans && id !in Ids(g.e.links)
    case Take(p, w, drawn, _) =>
      HasPlace(g, p) && LinkAt(g, p).Queued() > 0 && Idle(g, LinkAt(g, p).id) && w.currTx < w.txLimit
      && w.phase == Channel.Working && (drawn.Some? ==> Unused(g.issued, drawn.value.seqIds))
    case Flush(id) => id in g.chans && g.chans[id].hand.Some?
    case PeerSends(id, r) => id in g.chans && FromPeer(r)
    case Read(id, _, receipt, _) =>
      Idle(g, id) && g.chans[id].inbound != [] && (IsResponse(g.chans[id].inbound[0]) ==> !receipt)
    case Handle(_) => !g.ended && g.mailbox != []
    case Resend(now, keys) => !g.ended && Lists(keys, DueKeys(g.e.receipts, now))
    case Expire(duration, now, keys) => !g.ended && Lists(keys, ExpiredKeys(g.e.receipts, duration, now))
    case ForgetLong(_, _) => !g.ended
    case Clear(p) => HasPlace(g, p) && Idle(g, LinkAt(g, p).id)
    case Exit(p) => HasPlace(g, p) && Idle(g, LinkAt(g, p).id)
    case Announce(id) => id !in g.chans
    case Close => !g.ended
  }

  /** Connections forgotten while several messages are sent, with what their queues still hold. */
  function ForgottenByEach(e: State, ms: seq<Json>): seq<Link>
    requires DistinctIds(e.links)
    decreases |ms|
  {
    if ms == [] then []
    else
      SendKeepsDistinct(e, ms[0]);
      Forgotten(e, Send(e, ms[0])) + ForgottenByEach(Send(e, ms[0]), ms[1..])
  }

  /** The numbers drawn for a message, part by part. */
  function IssueAll(issued: map<nat, Issue>, ids: seq<nat>, tag: Tag, via: nat): (r: map<nat, Issue>)
    requires Receipts.Distinct(ids)
    ensures forall i :: 0 <= i < |ids| ==> ids[i] in r && r[ids[i]] == Issue(tag, i, via)
    ensures forall s :: s !in ids ==> (s in r <==> s in issued)
    ensures forall s :: s in issued && s !in ids ==> r[s] == issued[s]
  {
    issued + map i | 0 <= i < |ids| :: ids[i] := Issue(tag, i, via)
  }

  /** What is said to an entity whose task has ended is said to no one. */
  function Post(g: System, id: nat, m: Json): System {
    if !g.ended then g.(mailbox := g.mailbox + [Mail(id, m)]) else if Plain(m) then g else g.(lost := g.lost + [m])
  }

  /** The effect of what the channel's task does with a queued message. */
  function Apply(g: System, id: nat, act: Channel.Act): System
    requires id in g.chans
  {
    match act
    case Bounced(m) => g.(mailbox := g.mailbox + [Mail(id, m)])
    case Sent(m) =>
      var h := g.(chans := g.chans[id := g.chans[id].(hand := Some(m))]);
      if Outgoing(m.kind) && Receipts.Distinct(m.seqIds) then h.(issued := IssueAll(g.issued, m.seqIds, TagOf(m), id))
      else h
    case Unrecorded(m) => g.(lost := g.lost + [m])
    case WriteFailed(m) => g.(failed := g.failed + [m])
    case Lost(m) => g.(lost := g.lost + [m])
    case _ => g
  }

  function Encoded(m: Json, drawn: Option<Drawn>): Option<Json> {
    match drawn
    case None => None
    case Some(d) =>
      Some(if m.kind == Deliver then m.(seqIds := d.seqIds, msgIds := d.newIds)
           else if Outgoing(m.kind) then m.(seqIds := d.seqIds) else m)
  }

  /** A task that cannot reach its entity returns. */
  function Returns(g: System, id: nat, w: Channel.Window): System {
    if w.phase == Channel.Working then g else g.(chans := g.chans - {id})
  }

  function TakeStep(g: System, p: Place, w: Channel.Window, drawn: Option<Drawn>, written: bool): System
    requires HasPlace(g, p) && LinkAt(g, p).Queued() > 0 && LinkAt(g, p).id in g.chans
  {
    var link := LinkAt(g, p);
    var m := First(link);
    var (after, acts) := Channel.Take(w, m, link.priority != [], Encoded(m, drawn), written, !g.ended);
    Returns(Apply(SetLink(g, p, Rest(link)), link.id, acts[0]), link.id, after)
  }

  function ForwardedIn(acts: seq<Channel.Act>): seq<Json> {
    if acts == [] then [] else (if acts[0].Forwarded? then [acts[0].m] else []) + ForwardedIn(acts[1..])
  }

  function MailFrom(id: nat, ms: seq<Json>): (mail: seq<Mail>)
    ensures |mail| == |ms|
  {
    seq(|ms|, i requires 0 <= i < |ms| => Mail(id, ms[i]))
  }

  function ReadStep(g: System, id: nat, w: Channel.Window, receipt: bool, written: bool): System
    requires id in g.chans && g.chans[id].inbound != []
  {
    var c := g.chans[id];
    var acts := Channel.Receive(w, c.inbound[0], id, receipt, written, !g.ended).1;
    g.(chans := g.chans[id := c.(inbound := c.inbound[1..])], mailbox := g.mailbox + MailFrom(id, ForwardedIn(acts)))
  }

  /** The numbers a returned message gets entries under. */
  function OwnKeys(m: Json): set<nat> {
    if m.kind == Submit then Receipts.OwnKeys(m) else if m.seqIds == [] then {} else {m.seqIds[0]}
  }

  /** A panic or a return of the entity's task leaves its receipts and its mailbox to no one. */
  function HandleStep(g: System, now: int): System
    requires DistinctIds(g.e.links) && g.mailbox != []
  {
    var m := g.mailbox[0].m;
    var (task, save) := FromChannel(g.e, g.save, m, now);
    var r := StateOf(task);
    g.(e := r, ended := task.Ended?, save := save, mailbox := g.mailbox[1..],
       detached := g.detached + Forgotten(g.e, r),
       answered := g.answered + AnsweredBy(g.e, Received(g.e, m, now)),
       doubled := g.doubled + DoubledBy(g.e, Received(g.e, m, now)),
       stored := if Outgoing(m.kind) && m.waitReceipt then g.stored + OwnKeys(m) else g.stored,
       since := if Outgoing(m.kind) && m.waitReceipt then g.since + map key | key in OwnKeys(m) :: now else g.since,
       answeredNos := g.answeredNos + (g.e.receipts.Keys - r.receipts.Keys))
  }

  function ResendStep(g: System, now: int, keys: seq<nat>): System
    requires DistinctIds(g.e.links) && Lists(keys, DueKeys(g.e.receipts, now))
  {
    var due := DueKeys(g.e.receipts, now);
    var taken := g.e.(receipts := g.e.receipts - due);
    g.(e := ReSend(g.e, now, keys), detached := g.detached + ForgottenByEach(taken, Sources(g.e.receipts, keys)),
       resentNos := g.resentNos + due)
  }

  function ExpireStep(g: System, duration: int, now: int, keys: seq<nat>): System
    requires Lists(keys, ExpiredKeys(g.e.receipts, duration, now))
  {
    g.(e := g.e.(receipts := ClearReceipts(g.e.receipts, duration, now)),
       expired := g.expired + Sources(g.e.receipts, keys),
       expiredNos := g.expiredNos + ExpiredKeys(g.e.receipts, duration, now))
  }

  function Emptied(link: Link): Link {
    link.(open := false, priority := [], common := [])
  }

  function ClearStep(g: System, p: Place): System
    requires HasPlace(g, p)
  {
    var link := LinkAt(g, p);
    var h := SetLink(g, p, Emptied(link));
    h.(failed := g.failed + link.priority + link.common, chans := g.chans - {link.id})
  }

  /** A task that ends in any other way takes what is queued with it. */
  function ExitStep(g: System, p: Place): System
    requires HasPlace(g, p)
  {
    var link := LinkAt(g, p);
    var h := SetLink(g, p, Emptied(link));
    h.(dropped := g.dropped + link.priority + link.common, chans := g.chans - {link.id})
  }

  function AcceptStep(g: System, m: Json): System
    requires DistinctIds(g.e.links)
  {
    g.(e := Send(g.e, m), detached := g.detached + Forgotten(g.e, Send(g.e, m)), accepted := g.accepted + {TagOf(m)})
  }

  function LoginStep(g: System, id: nat, canWrite: bool): System {
    Post(g.(save := g.save[id := Link(id, true, true, [], [])], chans := g.chans[id := Chan(None, [])]),
         id, EMPTY.(kind := Connect, channelId := Some(id), canWrite := Some(canWrite)))
  }

  function FlushStep(g: System, id: nat): System
    requires id in g.chans && g.chans[id].hand.Some?
  {
    var m := g.chans[id].hand.value;
    Post(g.(chans := if g.ended then g.chans - {id} else g.chans[id := g.chans[id].(hand := None)]), id, m)
  }

  function PeerSendsStep(g: System, id: nat, r: Json): System
    requires id in g.chans
  {
    g.(chans := g.chans[id := g.chans[id].(inbound := g.chans[id].inbound + [r])])
  }

  /** The end of a connection's task is announced to the entity. */
  function AnnounceStep(g: System, id: nat): System {
    Post(g, id, EMPTY.(kind := Terminate, id := Some(id)))
  }

  /** The manager's order to close: the connections are told, and the entity's task returns. */
  function CloseStep(g: System): System
    requires DistinctIds(g.e.links)
  {
    g.(e := StateOf(FromManager(g.e, CloseOrder)), ended := true)
  }

  function Next(g: System, s: Step): System
    requires DistinctIds(g.e.links) && Enabled(g, s)
  {
    match s
    case Accept(m) => AcceptStep(g, m)
    case Login(id, canWrite) => LoginStep(g, id, canWrite)
    case Take(p, w, drawn, written) => TakeStep(g, p, w, drawn, written)
    case Flush(id) => FlushStep(g, id)
    case PeerSends(id, r) => PeerSendsStep(g, id, r)
    case Read(id, w, receipt, written) => ReadStep(g, id, w, receipt, written)
    case Handle(now) => HandleStep(g, now)
    case Resend(now, keys) => ResendStep(g, now, keys)
    case Expire(duration, now, keys) => ExpireStep(g, duration, now, keys)
    case ForgetLong(duration, now) => g.(e := g.e.(longSms := LongSms.Clear(g.e.longSms, duration, now)))
    case Clear(p) => ClearStep(g, p)
    case Exit(p) => ExitStep(g, p)
    case Announce(id) => AnnounceStep(g, id)
    case Close => CloseStep(g)
  }

  // ---------- where a message is ----------

  function InMail(mail: seq<Mail>, u: Tag): nat {
    if mail == [] then 0 else OneOwn(mail[0].m, u) + InMail(mail[1..], u)
  }

  function HandsWith(chans: map<nat, Chan>, u: Tag): set<nat> {
    set id | id in chans && chans[id].hand.Some? && TagOf(chans[id].hand.value) == u
  }

  function InHands(chans: map<nat, Chan>, u: Tag): nat {
    |HandsWith(chans, u)|
  }

  /** Every place a copy can be: queues, mailbox, hands, receipts, and the ways it can end. */
  function Places(g: System, u: Tag): nat {
    Held(g.e, u) + InLinks(g.detached, u) + InMail(g.mailbox, u) + InHands(g.chans, u)
    + InLive(g.answered, u) + InLive(g.expired, u) + InSeq(g.failed, u) + InSeq(g.lost, u) + InSeq(g.dropped, u)
  }

  // ---------- what every state keeps ----------

  /**
    A message on its way; its packet numbers, if it has any, were drawn for its
    parts. Uplink messages and reports have message ids only once encoded.
   */
  predicate Tracked(issued: map<nat, Issue>, m: Json) {
    TagOf(m).Proper() && Receipts.Distinct(m.seqIds) && (m.waitReceipt ==> m.seqIds != [])
    && (m.kind != Submit ==> Live(m) && (m.waitReceipt || m.msgIds == []))
    && forall i :: 0 <= i < |m.seqIds| ==> DrawnFor(issued, m.seqIds[i], TagOf(m), i)
  }

  predicate DrawnFor(issued: map<nat, Issue>, s: nat, tag: Tag, part: nat) {
    s in issued && issued[s].tag == tag && issued[s].part == part
  }

  /** What a queue may hold: a message on its way, or the order to close. */
  predicate Carried(issued: map<nat, Issue>, m: Json) {
    (m.kind == Terminate && m.msgIds == []) || Tracked(issued, m)
  }

  predicate AllTracked(issued: map<nat, Issue>, ms: seq<Json>) {
    forall i :: 0 <= i < |ms| ==> Carried(issued, ms[i])
  }

  predicate TrackedLink(issued: map<nat, Issue>, link: Link) {
    AllTracked(issued, link.priority) && AllTracked(issued, link.common)
  }

  predicate TrackedLinks(issued: map<nat, Issue>, links: seq<Link>) {
    forall k :: 0 <= k < |links| ==> TrackedLink(issued, links[k])
  }

  predicate TrackedMail(issued: map<nat, Issue>, m: Json) {
    Plain(m) || (Tracked(issued, m) && Returned(m))
  }

  predicate TrackedHand(issued: map<nat, Issue>, c: Chan) {
    (c.hand.Some? ==> Carried(issued, c.hand.value) && c.hand.value.waitReceipt)
    && forall i :: 0 <= i < |c.inbound| ==> FromPeer(c.inbound[i])
  }

  /** The entry of the part its number was drawn for: only the first is a copy,
      and each of a submit's holds its own id. */
  predicate TrackedReceipt(issued: map<nat, Issue>, key: nat, m: Json) {
    Tracked(issued, m) && key in issued && issued[key].Storable() && issued[key].tag == TagOf(m)
    && (Live(m) <==> issued[key].part == 0)
    && (m.kind == Submit ==> m.accountMsgId == Some(m.msgIds[issued[key].part]))
  }

  predicate TrackedReceipts(issued: map<nat, Issue>, receipts: map<nat, Json>) {
    forall key :: key in receipts ==> TrackedReceipt(issued, key, receipts[key])
  }

  /** Numbers are drawn for accepted messages only. */
  predicate IssuedKnown(issued: map<nat, Issue>, accepted: set<Tag>) {
    forall s :: s in issued ==> issued[s].tag in accepted
  }

  predicate WellFormed(g: System) {
    && Consistent(g.e) && Ids(g.e.links) !! g.save.Keys && SaveEmpty(g.save)
    && TrackedLinks(g.issued, g.e.links) && TrackedLinks(g.issued, g.detached)
    && (forall i :: 0 <= i < |g.mailbox| ==> TrackedMail(g.issued, g.mailbox[i].m))
    && (forall id :: id in g.chans ==> TrackedHand(g.issued, g.chans[id]))
    && TrackedReceipts(g.issued, g.e.receipts)
  }

  /** At the start nothing has been accepted and no one has logged in. */
  predicate Initial(g: System) {
    !g.ended && g.e.links == [] && g.e.connNum == 0 && g.e.receipts == map[] && g.e.log == []
    && g.save == map[] && g.mailbox == [] && g.chans == map[] && g.detached == []
    && g.answered == [] && g.expired == [] && g.failed == [] && g.lost == [] && g.dropped == [] && g.doubled == []
    && g.accepted == {} && g.issued == map[] && g.stored == {} && g.since == map[]
    && g.answeredNos == {} && g.resentNos == {} && g.expiredNos == {}
  }
}
