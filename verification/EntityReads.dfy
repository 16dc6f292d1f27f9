/**
  What the entity's task does with each kind of message it reads, fields and
  topics written out (`handle_from_channel_rx` and `handle_from_manager_rx` in
  src/entity/entity_running.rs).
 */
module EntityReads {
  import opened Wrappers
  import opened Messages
  import opened Entity
  import opened EntitySteps
  import opened Counting
  import Receipts

  /** The message as it is stored or passed on: with the time and the entity that read it. */
  predicate ReadAt(x: Json, m: Json, e: State, now: int) {
    x.receiveTime == Some(now) && x.entityId == Some(e.id)
    && x.(receiveTime := m.receiveTime, entityId := m.entityId) == m
  }

  /** One message has been published, without its packet numbers, and nothing else has changed. */
  predicate PublishedOnly(e: State, r: State, topic: Topic, out: Json) {
    r == e.(log := e.log + [Published(topic, out)]) && out.seqId == None && out.seqIds == []
  }

  /** What a peer sends whole goes to the business side at once. */
  predicate FromPeerWhole(m: Json) {
    !m.waitReceipt && !m.speedLimit && m.longTotal == None
  }

  /** A submit gets its one message id listed, an uplink message goes as it is. */
  lemma WholeIsPublished(e: State, save: TempSave, m: Json, now: int) returns (x: Json, out: Json)
    requires DistinctIds(e.links) && FromPeerWhole(m) && (m.kind == Submit || m.kind == Deliver)
    ensures ReadAt(x, m, e, now)
    ensures var (task, left) := FromChannel(e, save, m, now);
      left == save && task.Running?
      && PublishedOnly(e, task.e, if m.kind == Submit then SubmitTopic else DeliverTopic, out)
    ensures out == if m.kind == Submit
                   then x.(msgIds := [m.msgId.GetOr([])], msgId := None, seqId := None, seqIds := [])
                   else x.(seqId := None, seqIds := [])
  {
    x := m.(receiveTime := Some(now), entityId := Some(e.id));
    out := if m.kind == Submit then x.(msgIds := [m.msgId.GetOr([])], msgId := None, seqId := None, seqIds := [])
           else x.(seqId := None, seqIds := []);
  }

  /** A report goes out under the id it reports on, if it came with one beside its own, else under its own. */
  lemma ReportIsPublished(e: State, save: TempSave, m: Json, now: int) returns (x: Json, out: Json)
    requires DistinctIds(e.links) && m.kind == Report && !m.waitReceipt
    ensures ReadAt(x, m, e, now)
    ensures var (task, left) := FromChannel(e, save, m, now);
      left == save && task.Running? && PublishedOnly(e, task.e, ReportTopic, out)
    ensures var renamed := m.passageMsgId.Some? && m.passageMsgId.value != [];
      && out.msgId == (if renamed then m.passageMsgId else m.msgId)
      && out.passageMsgId == (if renamed then None else m.passageMsgId)
      && out.(msgId := m.msgId, passageMsgId := m.passageMsgId, seqId := m.seqId, seqIds := m.seqIds) == x
  {
    x := m.(receiveTime := Some(now), entityId := Some(e.id));
    var renamed := m.passageMsgId.Some? && m.passageMsgId.value != [];
    out := x.(seqId := None, seqIds := []);
    if renamed {
      out := out.(msgId := m.passageMsgId, passageMsgId := None);
    }
  }

  /** What was sent and waits for its receipt is stored with the time it was read, and nothing is published. */
  lemma SentIsStored(e: State, save: TempSave, m: Json, now: int) returns (x: Json)
    requires DistinctIds(e.links) && Outgoing(m.kind) && m.waitReceipt && Receipts.Distinct(m.seqIds) && m.seqIds != []
    ensures ReadAt(x, m, e, now)
    ensures var (task, left) := FromChannel(e, save, m, now);
      left == save && task.Running? && task.e == e.(receipts := task.e.receipts)
      && (forall i :: 0 <= i < |m.seqIds| && i < (if m.kind == Submit then |m.msgIds| else 1) ==>
            StoredAs(task.e.receipts, m.seqIds[i], x, i, m.kind))
      && forall key :: key !in m.seqIds ==>
           (key in task.e.receipts <==> key in e.receipts)
           && (key in e.receipts ==> task.e.receipts[key] == e.receipts[key])
  {
    x := m.(receiveTime := Some(now), entityId := Some(e.id));
    if m.kind == Submit {
      Receipts.InsertedFrom(e.receipts, x, 0);
      assert x.seqIds[0..Receipts.Parts(x)] <= x.seqIds;
    }
  }

  /** Part `i` of a submit is stored with its own id, and only the first may be sent again; other kinds as they are. */
  predicate StoredAs(receipts: map<nat, Json>, key: nat, x: Json, i: nat, kind: Kind) {
    key in receipts
    && if kind != Submit then receipts[key] == x
       else
         i < |x.msgIds| && receipts[key] == x.(accountMsgId := Some(x.msgIds[i]), needReSend := Some(i == 0))
  }

  /** The number a response is about. */
  predicate About(r: Json, key: nat) {
    r.seqId == Some(key) || (r.seqId == None && key == 0)
  }

  predicate RoomAgain(e: State) {
    exists k :: 0 <= k < |e.links| && |e.links[k].priority| + |e.links[k].common| <= e.writeLimit
  }

  lemma EndOfFull(e: State)
    ensures var ended := e.full && RoomAgain(e);
      Recheck(e) == e.(full := e.full && !ended,
                       log := e.log + if ended then [StateChange(if e.connNum == 0 then 0 else 1)] else [])
  {
    assert e.log + [] == e.log;
  }

  /**
    A normal submit response takes the entry under its number out and goes to
    the business side, with that entry's account id and the peer's id as the
    passage's; without an entry it goes as it came. Before it, the end of the
    full state is reported if a connection has room again.
   */
  lemma ResponseIsPublished(e: State, save: TempSave, r: Json, now: int, key: nat) returns (x: Json, out: Json)
    requires DistinctIds(e.links) && r.kind == SubmitResp && !r.speedLimit && About(r, key)
    ensures ReadAt(x, r, e, now)
    ensures var (task, left) := FromChannel(e, save, r, now);
      var ended := key in e.receipts && e.full && RoomAgain(e);
      left == save
      && task == Running(e.(receipts := e.receipts - {key}, full := e.full && !ended,
                            log := e.log + (if ended then [StateChange(if e.connNum == 0 then 0 else 1)] else [])
                                   + [Published(SubmitRespTopic, out)]))
    ensures if key in e.receipts
            then out == x.(accountMsgId := e.receipts[key].accountMsgId, passageMsgId := r.msgId, msgId := None,
                           seqId := None, seqIds := [])
            else out == x.(seqId := None, seqIds := [])
  {
    x := r.(receiveTime := Some(now), entityId := Some(e.id));
    out := Receipts.Routed(Reply(e.receipts, x));
    assert SeqKey(x) == key;
    if key in e.receipts {
      EndOfFull(e.(receipts := e.receipts - {key}));
    } else {
      assert e.receipts - {key} == e.receipts && e.log + [] == e.log;
    }
  }

  /** One that asks to slow down sends the stored message again and publishes nothing itself. */
  lemma SlowResponseSendsAgain(e: State, save: TempSave, r: Json, now: int, key: nat)
    requires DistinctIds(e.links) && r.kind == SubmitResp && r.speedLimit && About(r, key) && key in e.receipts
    ensures FromChannel(e, save, r, now) == (Running(Send(e.(receipts := e.receipts - {key}), e.receipts[key])), save)
  {
    assert SeqKey(r.(receiveTime := Some(now), entityId := Some(e.id))) == key;
  }

  /** Answers to uplink messages and reports take the entry out and are published, the former with the message's id. */
  lemma ReceiptIsPublished(e: State, save: TempSave, r: Json, now: int, key: nat) returns (x: Json, out: Json)
    requires DistinctIds(e.links) && (r.kind == DeliverResp || r.kind == ReportResp) && About(r, key)
    ensures ReadAt(x, r, e, now)
    ensures var (task, left) := FromChannel(e, save, r, now);
      left == save && task.Running?
      && PublishedOnly(e.(receipts := e.receipts - {key}), task.e,
                       if r.kind == DeliverResp then DeliverRespTopic else ReportRespTopic, out)
    ensures out == x.(seqId := None, seqIds := [],
                      accountMsgId := if r.kind == DeliverResp && key in e.receipts then e.receipts[key].msgId
                                      else r.accountMsgId)
  {
    x := r.(receiveTime := Some(now), entityId := Some(e.id));
    assert SeqKey(x) == key;
    if key !in e.receipts {
      assert e.receipts - {key} == e.receipts;
    }
    out := x.(seqId := None, seqIds := [],
              accountMsgId := if r.kind == DeliverResp && key in e.receipts then e.receipts[key].msgId
                              else r.accountMsgId);
  }

  /** A submit that was bounced before it was sent is sent, without the mark; nothing is stored or published. */
  lemma BouncedIsSent(e: State, save: TempSave, m: Json, now: int) returns (x: Json)
    requires DistinctIds(e.links) && m.kind == Submit && m.speedLimit && !m.waitReceipt
    ensures ReadAt(x, m, e, now)
    ensures FromChannel(e, save, m, now) == (Running(Send(e, x.(speedLimit := false))), save)
  {
    x := m.(receiveTime := Some(now), entityId := Some(e.id));
  }

  /**
    A connection joins at the end of the list, with the queues left for it and
    the right to write it was given; the state is reported once exactly if the
    count is then 1.
   */
  lemma Joins(e: State, save: TempSave, m: Json, now: int, id: nat)
    requires DistinctIds(e.links) && m.kind == Connect && m.channelId == Some(id) && id in save
    ensures var (task, left) := FromChannel(e, save, m, now);
      var link := Link(id, if m.canWrite == Some(false) then false else true, save[id].open, save[id].priority,
                       save[id].common);
      var count := (|e.links| + 1) % 0x100;
      left == save - {id}
      && task == Running(e.(links := e.links + [link], connNum := count,
                            log := e.log + if count == 1 then [StateChange(if e.full then 2 else 1)] else []))
  {
  }

  /**
    A connection that has ended leaves the list, and the others stay in their
    order; the state is reported once exactly if it was the last.
   */
  lemma Leaves(e: State, save: TempSave, m: Json, now: int, k: nat)
    requires DistinctIds(e.links) && m.kind == Terminate && k < |e.links| && m.id == Some(e.links[k].id)
    ensures var (task, left) := FromChannel(e, save, m, now);
      left == save
      && task == Running(e.(links := e.links[..k] + e.links[k + 1..], connNum := (|e.links| - 1) % 0x100,
                            log := e.log + if |e.links| == 1 then [StateChange(0)] else []))
  {
    WithoutOne(e.links, k);
  }

  /** Whatever else arrives changes nothing, nor does a connection whose queues are not in the store. */
  lemma OthersIgnored(e: State, save: TempSave, m: Json, now: int)
    requires DistinctIds(e.links)
    requires m.kind == OtherKind || m.kind == Untyped || (m.kind == Terminate && m.id == None)
             || (m.kind == Connect && (m.channelId == None || m.channelId.value !in save))
    ensures FromChannel(e, save, m, now) == (Running(e), save)
  {
  }

  // ---------- the manager ----------

  /**
    The order to close puts one Terminate behind what waits with priority on
    every open connection, reports the state once more, and ends the task.
   */
  lemma CloseTellsAll(e: State)
    requires DistinctIds(e.links)
    ensures var task := FromManager(e, CloseOrder);
      task.Ended? && |task.e.links| == |e.links| && task.e.receipts == e.receipts
      && task.e.log == e.log + [StateChange(if e.connNum == 0 then 0 else if e.full then 2 else 1)]
      && forall k :: 0 <= k < |e.links| ==>
        task.e.links[k] == if !e.links[k].open then e.links[k]
                           else e.links[k].(priority := e.links[k].priority + [EMPTY.(kind := Terminate)])
  {
  }

  /** A request for the state is answered with one report; a message is sent; anything else is ignored. */
  lemma OtherOrders(e: State, m: Json)
    requires DistinctIds(e.links)
    ensures FromManager(e, SendOrder(m)) == Running(Send(e, m)) && FromManager(e, UnknownOrder) == Running(e)
    ensures FromManager(e, StateOrder)
         == Running(e.(log := e.log + [StateChange(if e.connNum == 0 then 0 else if e.full then 2 else 1)]))
  {
  }
}
