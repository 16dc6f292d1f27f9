/** What each message the entity receives does to where copies are. */
module EntityCounts {
  import opened Wrappers
  import opened Messages
  import opened Entity
  import opened EntitySteps
  import opened Dispatch
  import opened Handoff
  import opened Counting
  import Receipts
  import LongSms

  /** Not a message of the entity's own that comes back: a packet the peer sent, or news about a connection. */
  predicate Plain(m: Json) {
    Outgoing(m.kind) ==> !m.waitReceipt && !m.speedLimit
  }

  function OneOwn(m: Json, u: Tag): nat {
    if Plain(m) then 0 else One(m, u)
  }

  /** A message that comes back from a channel: sent, waiting for its receipt; or a submit that was bounced. */
  predicate Returned(m: Json) {
    Outgoing(m.kind) && TagOf(m).ids != [] && (m.waitReceipt || (m.speedLimit && m.kind == Submit))
    && (m.waitReceipt ==> m.seqIds != []) && (m.kind != Submit ==> Live(m))
  }

  /** Its entries go under numbers of its own; only its first may find a copy there. */
  predicate Fitting(receipts: map<nat, Json>, m: Json) {
    Receipts.Distinct(m.seqIds)
    && (m.kind == Submit ==> forall i :: 1 <= i < Receipts.Parts(m) ==> Spare(receipts, m.seqIds[i]))
  }

  /** The entry a response ends. */
  function AnsweredBy(e: State, m: Json): seq<Json> {
    if SeqKey(m) in e.receipts
       && (m.kind == DeliverResp || m.kind == ReportResp || (m.kind == SubmitResp && !m.speedLimit))
    then [e.receipts[SeqKey(m)]] else []
  }

  /** Told to slow down, the entity queues the whole message again: one copy more if the entry was none. */
  function DoubledBy(e: State, m: Json): seq<Json> {
    if m.kind == SubmitResp && m.speedLimit && SeqKey(m) in e.receipts && !Live(e.receipts[SeqKey(m)])
    then [e.receipts[SeqKey(m)]] else []
  }

  /** The entry that the first one of a returned message takes the place of. */
  function MergedBy(e: State, m: Json): seq<Json> {
    if Outgoing(m.kind) && m.waitReceipt && m.seqIds != [] && m.seqIds[0] in e.receipts
    then [e.receipts[m.seqIds[0]]] else []
  }

  /** Pairs of queues not yet taken over are empty. */
  predicate SaveEmpty(save: TempSave) {
    forall id :: id in save ==> save[id].id == id && save[id].priority == [] && save[id].common == []
  }

  /** Nothing is lost or doubled: `more` copies came in and `out` went to the answered ones. */
  predicate Balanced(e: State, r: State, more: nat, out: nat, u: Tag) {
    Held(r, u) + InLinks(Forgotten(e, r), u) + out == Held(e, u) + more
  }

  lemma NothingForgotten(links: seq<Link>, left: seq<Link>, u: Tag)
    requires Ids(left) == Ids(links)
    ensures InLinks(Drop(links, Ids(left)), u) == 0
  {
    SplitByIds(links, {}, left, u);
    DropNone(links);
  }

  lemma Quiet(e: State, r: State, u: Tag)
    requires r.links == e.links && r.receipts == e.receipts && Failures(r.log, u) == Failures(e.log, u)
    ensures Balanced(e, r, 0, 0, u)
  {
    NothingForgotten(e.links, r.links, u);
  }

  lemma QueueQuiet(e: State, topic: Topic, m: Json, u: Tag)
    requires topic != FailureTopic
    ensures Failures(ToQueue(e, topic, m).log, u) == Failures(e.log, u)
    ensures Balanced(e, ToQueue(e, topic, m), 0, 0, u)
  {
    FailuresSnoc(e.log, Published(topic, m.(seqId := None, seqIds := [])), u);
    Quiet(e, ToQueue(e, topic, m), u);
  }

  lemma RecheckQuiet(e: State, u: Tag)
    ensures Recheck(e).links == e.links && Recheck(e).receipts == e.receipts
    ensures Failures(Recheck(e).log, u) == Failures(e.log, u)
  {
    FailuresSnoc(e.log, StateChange(StateCode(false, e.connNum)), u);
  }

  /** An entry that is taken out and published. */
  lemma TakenOut(e: State, r: State, key: nat, u: Tag)
    requires key in e.receipts && r.links == e.links && r.receipts == e.receipts - {key}
    requires Failures(r.log, u) == Failures(e.log, u)
    ensures Balanced(e, r, 0, OneLive(e.receipts[key], u), u)
  {
    RemoveCounts(e.receipts, key, u);
    NothingForgotten(e.links, r.links, u);
  }

  lemma SubmitRespCounts(e: State, m: Json, u: Tag)
    requires DistinctIds(e.links) && m.kind == SubmitResp
    ensures Balanced(e, OnSubmitResp(e, m), InSeq(DoubledBy(e, m), u), InLive(AnsweredBy(e, m), u), u)
  {
    var key := SeqKey(m);
    if key in e.receipts {
      var taken, source := e.(receipts := e.receipts - {key}), e.receipts[key];
      if m.speedLimit {
        RemoveCounts(e.receipts, key, u);
        SendCounts(taken, source, u);
        assert Forgotten(e, Send(taken, source)) == Forgotten(taken, Send(taken, source));
        OneInSeq(source, u);
      } else {
        RecheckQuiet(taken, u);
        QueueQuiet(Recheck(taken), SubmitRespTopic, Reply(e.receipts, m), u);
        TakenOut(e, OnSubmitResp(e, m), key, u);
        OneInSeq(source, u);
      }
    } else {
      QueueQuiet(e, SubmitRespTopic, m, u);
    }
  }

  lemma OneInSeq(m: Json, u: Tag)
    ensures InSeq([m], u) == One(m, u) && InLive([m], u) == OneLive(m, u)
  {
    assert [m][1..] == [];
  }

  lemma DeliverRespCounts(e: State, m: Json, u: Tag)
    requires m.kind == DeliverResp
    ensures Balanced(e, OnDeliverResp(e, m), 0, InLive(AnsweredBy(e, m), u), u)
  {
    var key := SeqKey(m);
    if key in e.receipts {
      var taken := e.(receipts := e.receipts - {key});
      QueueQuiet(taken, DeliverRespTopic, m.(accountMsgId := e.receipts[key].msgId), u);
      TakenOut(e, OnDeliverResp(e, m), key, u);
      OneInSeq(e.receipts[key], u);
    } else {
      QueueQuiet(e, DeliverRespTopic, m, u);
    }
  }

  lemma ReportRespCounts(e: State, m: Json, u: Tag)
    requires m.kind == ReportResp
    ensures Balanced(e, OnReportResp(e, m), 0, InLive(AnsweredBy(e, m), u), u)
  {
    var key := SeqKey(m);
    var taken := e.(receipts := e.receipts - {key});
    QueueQuiet(taken, ReportRespTopic, m, u);
    if key in e.receipts {
      TakenOut(e, OnReportResp(e, m), key, u);
      OneInSeq(e.receipts[key], u);
    } else {
      assert e.receipts - {key} == e.receipts;
      Quiet(e, OnReportResp(e, m), u);
    }
  }

  lemma ReturnedCounts(e: State, m: Json, u: Tag)
    requires DistinctIds(e.links) && m.kind == Submit && Returned(m) && Fitting(e.receipts, m)
    ensures Balanced(e, StateOf(OnSubmit(e, m)), One(m, u), InLive(MergedBy(e, m), u), u)
  {
    if m.waitReceipt {
      InsertCounts(e.receipts, m, u);
      NothingForgotten(e.links, e.links, u);
      MergedIs(e, m, u);
    } else {
      SendCounts(e, m.(speedLimit := false), u);
    }
  }

  lemma MergedIs(e: State, m: Json, u: Tag)
    requires Outgoing(m.kind) && m.waitReceipt && m.seqIds != []
    ensures InLive(MergedBy(e, m), u)
         == if m.seqIds[0] in e.receipts then OneLive(e.receipts[m.seqIds[0]], u) else 0
  {
    if m.seqIds[0] in e.receipts {
      OneInSeq(e.receipts[m.seqIds[0]], u);
    }
  }

  /** An uplink message or a report waits under its first number. */
  lemma AwaitCounts(e: State, m: Json, u: Tag)
    requires Outgoing(m.kind) && m.waitReceipt && m.seqIds != [] && Live(m)
    ensures Balanced(e, Await(e, m), One(m, u), InLive(MergedBy(e, m), u), u)
  {
    var key := m.seqIds[0];
    var after := e.receipts[key := m];
    assert KeysOf(after, u) - {key} == KeysOf(e.receipts, u) - {key};
    OneElement(KeysOf(e.receipts, u), KeysOf(after, u), key);
    MergedIs(e, m, u);
    NothingForgotten(e.links, e.links, u);
  }

  lemma LongQuiet(e: State, topic: Topic, m: Json, u: Tag)
    requires topic != FailureTopic
    ensures Balanced(e, StateOf(OnLong(e, topic, m)), 0, 0, u)
  {
    var (cache, outcome) := LongSms.Handle(e.longSms, m);
    var kept := e.(longSms := cache);
    if outcome.Complete? {
      QueueQuiet(kept, topic, LongSms.Assembled(outcome.slots), u);
    }
    Quiet(e, StateOf(OnLong(e, topic, m)), u);
  }

  lemma PlainSubmitQuiet(e: State, m: Json, u: Tag)
    requires DistinctIds(e.links) && Plain(m) && m.kind == Submit
    ensures Balanced(e, StateOf(OnSubmit(e, m)), 0, 0, u)
  {
    if m.longTotal.Some? {
      LongQuiet(e, SubmitTopic, m, u);
    } else {
      QueueQuiet(e, SubmitTopic, m.(msgIds := [m.msgId.GetOr([])], msgId := None), u);
    }
  }

  lemma DeliverCounts(e: State, m: Json, u: Tag)
    requires m.kind == Deliver && (Plain(m) || Returned(m))
    ensures Balanced(e, StateOf(OnDeliver(e, m)), OneOwn(m, u), InLive(MergedBy(e, m), u), u)
  {
    if m.waitReceipt {
      AwaitCounts(e, m, u);
    } else if m.longTotal.Some? {
      LongQuiet(e, DeliverTopic, m, u);
    } else {
      QueueQuiet(e, DeliverTopic, m, u);
    }
  }

  lemma ReportCounts(e: State, m: Json, u: Tag)
    requires m.kind == Report && (Plain(m) || Returned(m))
    ensures Balanced(e, OnReport(e, m), OneOwn(m, u), InLive(MergedBy(e, m), u), u)
  {
    if m.waitReceipt {
      AwaitCounts(e, m, u);
    } else {
      QueueQuiet(e, ReportTopic,
                 if m.passageMsgId.GetOr([]) == [] then m else m.(msgId := m.passageMsgId, passageMsgId := None), u);
    }
  }

  /**
    An uplink message that carries message ids and is bounced before it was
    ever sent is taken for one of the peer's: it is published to the business
    side, and no copy of it is left.
   */
  lemma BouncedUplinkIsEchoed(e: State, m: Json, u: Tag)
    requires m.kind == Deliver && m.speedLimit && !m.waitReceipt && m.longTotal == None
    ensures var r := StateOf(OnDeliver(e, m));
      r.log == e.log + [Published(DeliverTopic, Receipts.Routed(m))] && Balanced(e, r, 0, 0, u)
  {
    QueueQuiet(e, DeliverTopic, m, u);
  }

  lemma TerminateCounts(e: State, m: Json, u: Tag)
    requires DistinctIds(e.links)
    ensures Balanced(e, OnTerminate(e, m), 0, 0, u)
  {
    if m.id.Some? {
      var left := Forget(e, m.id.value);
      FailuresSnoc(left.log, StateChange(StateCode(left.full, left.connNum)), u);
      WithoutIsDrop(e.links, m.id.value);
      DropIds(e.links, {m.id.value});
      SplitByIds(e.links, {m.id.value}, left.links, u);
    } else {
      Quiet(e, e, u);
    }
  }

  lemma {:induction false} WithoutIsDrop(links: seq<Link>, id: nat)
    ensures Without(links, id) == Drop(links, {id})
    decreases |links|
  {
    if links != [] {
      WithoutIsDrop(links[1..], id);
    }
  }

  lemma ConnectCounts(e: State, save: TempSave, m: Json, u: Tag)
    requires SaveEmpty(save)
    ensures Balanced(e, OnConnect(e, save, m).0, 0, 0, u)
  {
    if m.channelId.Some? && m.channelId.value in save {
      var id := m.channelId.value;
      var joined := save[id].(id := id, canWrite := m.canWrite.GetOr(true));
      var r := OnConnect(e, save, m).0;
      InLinksAdd(e.links, [joined], u);
      assert InLinks([joined], u) == 0 by {
        assert [joined][1..] == [];
      }
      FailuresSnoc(e.log, StateChange(StateCode(e.full, 1)), u);
      AllStay(e.links, Ids(r.links), u) by {
        assert forall k :: 0 <= k < |e.links| ==> r.links[k] == e.links[k];
      }
    } else {
      Quiet(e, e, u);
    }
  }

  lemma AllStay(links: seq<Link>, ids: set<nat>, u: Tag)
    requires forall k :: 0 <= k < |links| ==> links[k].id in ids
    ensures InLinks(Drop(links, ids), u) == 0
  {
    DropSplits(links, ids, {}, u);
    DropNone(links);
  }

  /** How one message changes the counts. */
  predicate Accounts(e: State, r: State, msg: Json, m: Json, u: Tag) {
    Balanced(e, r, OneOwn(msg, u) + InSeq(DoubledBy(e, m), u),
             InLive(AnsweredBy(e, m), u) + InLive(MergedBy(e, m), u), u)
  }

  predicate IsResponse(m: Json) {
    m.kind == SubmitResp || m.kind == DeliverResp || m.kind == ReportResp
  }

  /** A balance is the account if the parts are what the message says. */
  lemma Accounted(e: State, r: State, msg: Json, m: Json, more: nat, out: nat, u: Tag)
    requires Balanced(e, r, more, out, u) && more == OneOwn(msg, u) + InSeq(DoubledBy(e, m), u)
    requires out == InLive(AnsweredBy(e, m), u) + InLive(MergedBy(e, m), u)
    ensures Accounts(e, r, msg, m, u)
  {
  }

  lemma ResponseCounts(e: State, msg: Json, m: Json, u: Tag)
    requires DistinctIds(e.links) && IsResponse(m) && msg.kind == m.kind
    ensures m.kind == SubmitResp ==> Accounts(e, OnSubmitResp(e, m), msg, m, u)
    ensures m.kind == DeliverResp ==> Accounts(e, OnDeliverResp(e, m), msg, m, u)
    ensures m.kind == ReportResp ==> Accounts(e, OnReportResp(e, m), msg, m, u)
  {
    assert MergedBy(e, m) == [] && OneOwn(msg, u) == 0;
    var more, out := InSeq(DoubledBy(e, m), u), InLive(AnsweredBy(e, m), u);
    match m.kind {
      case SubmitResp =>
        SubmitRespCounts(e, m, u);
        Accounted(e, OnSubmitResp(e, m), msg, m, more, out, u);
      case DeliverResp =>
        DeliverRespCounts(e, m, u);
        Accounted(e, OnDeliverResp(e, m), msg, m, more, out, u);
      case ReportResp =>
        ReportRespCounts(e, m, u);
        Accounted(e, OnReportResp(e, m), msg, m, more, out, u);
    }
  }

  lemma MessageCounts(e: State, msg: Json, m: Json, u: Tag)
    requires DistinctIds(e.links) && Outgoing(m.kind) && (Plain(m) || (Returned(m) && Fitting(e.receipts, m)))
    requires OneOwn(msg, u) == OneOwn(m, u)
    ensures m.kind == Submit ==> Accounts(e, StateOf(OnSubmit(e, m)), msg, m, u)
    ensures m.kind == Deliver ==> Accounts(e, StateOf(OnDeliver(e, m)), msg, m, u)
    ensures m.kind == Report ==> Accounts(e, OnReport(e, m), msg, m, u)
  {
    assert AnsweredBy(e, m) == [] && DoubledBy(e, m) == [];
    var more, out := OneOwn(m, u), InLive(MergedBy(e, m), u);
    match m.kind {
      case Submit =>
        SubmitCounts(e, m, u);
        Accounted(e, StateOf(OnSubmit(e, m)), msg, m, more, out, u);
      case Deliver =>
        DeliverCounts(e, m, u);
        Accounted(e, StateOf(OnDeliver(e, m)), msg, m, more, out, u);
      case Report =>
        ReportCounts(e, m, u);
        Accounted(e, OnReport(e, m), msg, m, more, out, u);
    }
  }

  lemma SubmitCounts(e: State, m: Json, u: Tag)
    requires DistinctIds(e.links) && m.kind == Submit && (Plain(m) || (Returned(m) && Fitting(e.receipts, m)))
    ensures Balanced(e, StateOf(OnSubmit(e, m)), OneOwn(m, u), InLive(MergedBy(e, m), u), u)
  {
    if Plain(m) {
      PlainSubmitQuiet(e, m, u);
    } else {
      ReturnedCounts(e, m, u);
    }
  }

  /** News about connections, and what is not understood. */
  lemma NewsCounts(e: State, save: TempSave, msg: Json, m: Json, u: Tag)
    requires DistinctIds(e.links) && SaveEmpty(save) && !IsResponse(m) && !Outgoing(m.kind) && msg.kind == m.kind
    ensures Accounts(e, OnTerminate(e, m), msg, m, u) && Accounts(e, OnConnect(e, save, m).0, msg, m, u)
    ensures Accounts(e, e, msg, m, u)
  {
    assert AnsweredBy(e, m) == [] && DoubledBy(e, m) == [] && MergedBy(e, m) == [];
    TerminateCounts(e, m, u);
    ConnectCounts(e, save, m, u);
    Quiet(e, e, u);
    Accounted(e, OnTerminate(e, m), msg, m, 0, 0, u);
    Accounted(e, OnConnect(e, save, m).0, msg, m, 0, 0, u);
    Accounted(e, e, msg, m, 0, 0, u);
  }

  /** Which branch a message takes. */
  lemma Branches(e: State, save: TempSave, msg: Json, now: int)
    requires DistinctIds(e.links)
    ensures var m, r := Received(e, msg, now), StateOf(FromChannel(e, save, msg, now).0);
      match m.kind
      case SubmitResp => r == OnSubmitResp(e, m)
      case Submit => r == StateOf(OnSubmit(e, m))
      case Deliver => r == StateOf(OnDeliver(e, m))
      case Report => r == OnReport(e, m)
      case ReportResp => r == OnReportResp(e, m)
      case DeliverResp => r == OnDeliverResp(e, m)
      case Terminate => r == OnTerminate(e, m)
      case Connect => r == OnConnect(e, save, m).0
      case OtherKind => r == e
      case Untyped => r == e
  {
  }

  /**
    Whatever the entity is given, every copy is afterwards in its queues, its
    receipts, a forgotten queue, the failure topic, or answered; one is added
    exactly by a slow-down answer to an entry that is no copy, and two become
    one exactly where a returned message finds its own entry.
   */
  lemma FromChannelCounts(e: State, save: TempSave, msg: Json, now: int, u: Tag)
    requires DistinctIds(e.links) && SaveEmpty(save)
    requires Plain(msg) || (Returned(msg) && Fitting(e.receipts, msg))
    ensures Accounts(e, StateOf(FromChannel(e, save, msg, now).0), msg, Received(e, msg, now), u)
  {
    var m := Received(e, msg, now);
    Branches(e, save, msg, now);
    if IsResponse(m) {
      ResponseCounts(e, msg, m, u);
    } else if Outgoing(m.kind) {
      MessageCounts(e, msg, m, u);
    } else {
      NewsCounts(e, save, msg, m, u);
    }
  }
}
