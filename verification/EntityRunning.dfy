/** The entity's task: `EntityRunContext` and the functions that update it (src/entity/entity_running.rs). */
module EntityRunning {
  import opened Bytes
  import opened Wrappers
  import opened Messages
  import opened Entity
  import opened EntitySteps
  import LongSms
  import Segments

  /** `TEMP_SAVE`, shared by all entities. */
  class TempSaveMap {
    var pairs: TempSave

    constructor ()
      ensures pairs == map[]
    {
      pairs := map[];
    }
  }

  class EntityRunContext {
    const entityId: nat
    const entityType: EntityType
    const serviceId: Str
    const spId: Str
    const nodeId: nat
    const sendBuffCap: nat
    const writeLimit: nat
    var index: usize
    var sendChannels: seq<Link>
    var waitReceiptMap: map<nat, Json>
    var longSmsCache: LongSms.Cache
    var nowConnNum: byte
    var isBuffFull: bool
    /** What has been given to the message queue. */
    var toQueue: seq<Output>

    /** A send buffer cap of zero stands for no cap. */
    constructor (entityId: nat, entityType: EntityType, serviceId: Str, spId: Str, nodeId: nat,
                 sendBuffCap: nat, writeLimit: nat)
      ensures Valid() && Value() == State(entityType, entityId, serviceId, spId, nodeId, 0, [], map[], map[], 0,
                                          if sendBuffCap == 0 then CHANNEL_BUFF_NUM else sendBuffCap,
                                           writeLimit, false, [])
    {
      this.entityId, this.entityType, this.serviceId, this.spId := entityId, entityType, serviceId, spId;
      this.nodeId, this.writeLimit := nodeId, writeLimit;
      this.sendBuffCap := if sendBuffCap == 0 then CHANNEL_BUFF_NUM else sendBuffCap;
      index, sendChannels, waitReceiptMap, longSmsCache := 0, [], map[], map[];
      nowConnNum, isBuffFull, toQueue := 0, false, [];
    }

    predicate Valid()
      reads this
    {
      DistinctIds(sendChannels)
    }

    function Value(): State
      reads this
    {
      State(entityType, entityId, serviceId, spId, nodeId, index, sendChannels, waitReceiptMap,
            longSmsCache, nowConnNum,
            sendBuffCap, writeLimit, isBuffFull, toQueue)
    }

    method SendEntityState()
      modifies `toQueue
      ensures Value() == SendState(old(Value()))
    {
      var state: byte;
      if nowConnNum == 0 {
        state := DISCONNECT;
      } else if isBuffFull {
        state := BUFF_FULL;
      } else {
        state := CONNECT;
      }
      toQueue := toQueue + [StateChange(state)];
    }

    method SendToQueue(topic: Topic, msg: Json)
      modifies `toQueue
      ensures Value() == ToQueue(old(Value()), topic, msg)
    {
      toQueue := toQueue + [Published(topic, msg.(seqId := None, seqIds := []))];
    }

    method AddressMessage(msg: Json) returns (sendMsg: Json)
      ensures sendMsg == Addressed(Value(), msg)
    {
      sendMsg := msg.(entityId := Some(entityId), nodeId := Some(nodeId), body := msg.body.(spId := Some(spId)));
      if serviceId != [] {
        sendMsg := sendMsg.(body := sendMsg.body.(serviceId := Some(serviceId)));
      }
    }

    method SendToChannels(msg: Json)
      requires Valid()
      modifies `index, `sendChannels, `nowConnNum, `isBuffFull, `toQueue
      ensures Valid() && Value() == Send(old(Value()), msg)
    {
      var sendMsg := AddressMessage(msg);
      ghost var goal := Send(Value(), msg);
      SendKeepsDistinct(Value(), msg);
      var size := |sendChannels|;
      for i := 0 to size
        invariant Valid() && size - i <= |sendChannels|
        invariant goal == Probe(Value(), sendMsg, size - i)
      {
        ghost var before := Value();
        var sent := TryOne(sendMsg);
        if sent {
          ProbeSent(before, sendMsg, size - i, Value());
          return;
        }
        ProbeNext(before, sendMsg, size - i, Value());
      }
      toQueue := toQueue + [Published(FailureTopic, sendMsg)];
      SendEntityState();
    }

    /** The body of the loop; a connection whose task has ended hands the message back and is forgotten. */
    method TryOne(sendMsg: Json) returns (sent: bool)
      requires sendChannels != []
      modifies `index, `sendChannels, `nowConnNum, `isBuffFull, `toQueue
      ensures (if sent then Taken(Value()) else Onward(Value())) == Try(old(Value()), sendMsg)
    {
      if index == USIZE_MAX {
        index := 1;
      }
      index := index + 1;
      var k := Pick(index, |sendChannels|);
      var select := sendChannels[k];
      if !select.canWrite {
        return false;
      }
      CheckBuffer(select);
      if select.open {
        sendChannels := sendChannels[k := Enqueue(select, sendMsg)];
        return true;
      }
      sendChannels := Without(sendChannels, select.id);
      nowConnNum := |sendChannels| % 0x100;
      return false;
    }

    /** Whether the chosen connection has too much waiting. */
    method CheckBuffer(select: Link)
      modifies `isBuffFull, `toQueue
      ensures Value() == NoteFull(old(Value()), select)
    {
      if entityType == Server && sendBuffCap < CHANNEL_BUFF_NUM {
        var buffNum := |select.priority| + |select.common|;
        if buffNum > sendBuffCap && !isBuffFull {
          isBuffFull := true;
          SendEntityState();
        }
      }
    }

    method InsertIntoWaitReceipt(json: Json)
      modifies `waitReceiptMap
      ensures Value() == old(Value()).(receipts := Insert(old(waitReceiptMap), json))
    {
      if json.seqIds != [] && json.msgIds != [] {
        for i := 0 to |json.seqIds|
          invariant Insert(old(waitReceiptMap), json) == InsertFrom(waitReceiptMap, json, i)
        {
          if i >= |json.msgIds| {
            return;
          }
          var newOne := json.(needReSend := Some(i == 0), accountMsgId := Some(json.msgIds[i]));
          waitReceiptMap := waitReceiptMap[json.seqIds[i] := newOne];
        }
      }
    }

    /** `None` and no panic, the whole message, or a panic at part number 0. */
    method HandleLongSms(msg: Json, total: byte) returns (whole: Option<Json>, panicked: bool)
      requires msg.longTotal == Some(total)
      modifies `longSmsCache
      ensures var (cache, outcome) := LongSms.Handle(old(longSmsCache), msg);
              Value() == old(Value()).(longSms := cache)
              && panicked == outcome.Panicked?
              && whole == if outcome.Complete? then Some(LongSms.Assembled(outcome.slots)) else None
    {
      var key := LongSms.Key(msg);
      whole, panicked := None, false;
      if msg.longNumber.None? || msg.longNumber.value > total || total < 2 {
        return;
      }
      if msg.longNumber.value == 0 {
        return None, true;
      }
      var index := msg.longNumber.value - 1;
      if key !in longSmsCache {
        var slots := LongSms.Vacant(total)[index := Some(msg)];
        longSmsCache := longSmsCache[key := slots];
        assert slots[if index == 0 then 1 else 0].None?;
        return;
      }
      var vec := longSmsCache[key];
      if |vec| != total {
        vec := LongSms.Vacant(total);
      }
      vec := vec[index := Some(msg)];
      ghost var before := longSmsCache;
      longSmsCache := longSmsCache[key := vec];
      var full := AllPresent(vec);
      if !full {
        return;
      }
      var json := Assemble(vec);
      longSmsCache := longSmsCache - {key};
      assert longSmsCache == before - {key};
      whole := Some(json);
    }

    /** The search for a slot still empty. */
    method AllPresent(vec: LongSms.Slots) returns (full: bool)
      ensures full == LongSms.Full(vec)
    {
      for i := 0 to |vec|
        invariant forall k :: 0 <= k < i ==> vec[k].Some?
      {
        if vec[i].None? {
          return false;
        }
      }
      return true;
    }

    /** Collects ids and text in slot order. */
    method Assemble(vec: LongSms.Slots) returns (json: Json)
      requires vec != [] && LongSms.Full(vec)
      ensures json == LongSms.Assembled(vec)
    {
      var msgIds, msgContent := [], [];
      ghost var texts, ids := LongSms.Contents(vec), LongSms.Ids(vec);
      assert Segments.JoinFrom(texts, 0) == [] + Segments.JoinFrom(texts, 0);
      for i := 0 to |vec|
        invariant msgIds == ids[..i]
        invariant Segments.JoinFrom(texts, 0) == msgContent + Segments.JoinFrom(texts, i)
      {
        var item := vec[i].value;
        msgIds := msgIds + [item.msgId.GetOr([])];
        AppendText(msgContent, texts, i);
        msgContent := msgContent + item.body.content.GetOr([]);
      }
      assert ids[..|vec|] == ids;
      assert msgContent + [] == msgContent;
      json := vec[0].value;
      json := json.(body := json.body.(content := Some(msgContent)), msgIds := msgIds, msgId := None,
                    longTotal := None, longNumber := None);
    }

    /** Room again: the first connection below the limit ends the full state. */
    method RecheckBuffers()
      modifies `isBuffFull, `toQueue
      ensures Value() == Recheck(old(Value()))
    {
      if isBuffFull {
        for k := 0 to |sendChannels|
          invariant isBuffFull && Value() == old(Value())
          invariant forall j :: 0 <= j < k ==> sendChannels[j].Queued() > writeLimit
        {
          var buffNum := |sendChannels[k].priority| + |sendChannels[k].common|;
          isBuffFull := buffNum > writeLimit;
          if !isBuffFull {
            assert sendChannels[k].Queued() <= writeLimit;
            SendEntityState();
            return;
          }
        }
      }
    }

    method HandleSubmitResp(m: Json)
      requires Valid()
      modifies this
      ensures Valid() && Value() == OnSubmitResp(old(Value()), m)
    {
      var key := SeqKey(m);
      if key in waitReceiptMap {
        var source := waitReceiptMap[key];
        waitReceiptMap := waitReceiptMap - {key};
        if m.speedLimit {
          SendToChannels(source);
        } else {
          RecheckBuffers();
          var reply := m.(accountMsgId := source.accountMsgId, passageMsgId := m.msgId);
          reply := reply.(msgId := None);
          SendToQueue(SubmitRespTopic, reply);
        }
      } else {
        SendToQueue(SubmitRespTopic, m);
      }
    }

    method HandleLong(topic: Topic, m: Json) returns (alive: bool)
      requires m.longTotal.Some?
      modifies `longSmsCache, `toQueue
      ensures (if alive then Running(Value()) else Ended(Value())) == OnLong(old(Value()), topic, m)
    {
      var whole, panicked := HandleLongSms(m, m.longTotal.value);
      if panicked {
        return false;
      }
      if whole.Some? {
        SendToQueue(topic, whole.value);
      }
      return true;
    }

    method HandleSubmit(m: Json) returns (alive: bool)
      requires Valid()
      modifies this
      ensures Valid() && (if alive then Running(Value()) else Ended(Value())) == OnSubmit(old(Value()), m)
    {
      alive := true;
      if m.waitReceipt {
        InsertIntoWaitReceipt(m);
      } else if m.speedLimit {
        SendToChannels(m.(speedLimit := false));
      } else if m.longTotal.Some? {
        alive := HandleLong(SubmitTopic, m);
      } else {
        var single := m.(msgIds := [m.msgId.GetOr([])]);
        SendToQueue(SubmitTopic, single.(msgId := None));
      }
    }

    method HandleTerminate(m: Json)
      requires Valid()
      modifies `sendChannels, `nowConnNum, `toQueue
      ensures Valid() && Value() == OnTerminate(old(Value()), m)
    {
      if m.id.Some? {
        WithoutDistinct(sendChannels, m.id.value);
        sendChannels := Without(sendChannels, m.id.value);
        nowConnNum := |sendChannels| % 0x100;
        if sendChannels == [] {
          SendEntityState();
        }
      }
    }

    method HandleConnect(m: Json, tempSave: TempSaveMap)
      requires Valid()
      requires m.channelId.Some? ==> forall k :: 0 <= k < |sendChannels| ==> sendChannels[k].id != m.channelId.value
      modifies `sendChannels, `nowConnNum, `toQueue, tempSave
      ensures Valid() && (Value(), tempSave.pairs) == OnConnect(old(Value()), old(tempSave.pairs), m)
    {
      if m.channelId.Some? && m.channelId.value in tempSave.pairs {
        var id := m.channelId.value;
        var pair := tempSave.pairs[id];
        tempSave.pairs := tempSave.pairs - {id};
        sendChannels := sendChannels + [pair.(id := id, canWrite := m.canWrite.GetOr(true))];
        nowConnNum := |sendChannels| % 0x100;
        if nowConnNum == 1 {
          SendEntityState();
        }
      }
    }

    /** One message from a channel; false when the entity stops. A new connection's number is not in use. */
    method HandleFromChannelRx(msg: Json, now: int, tempSave: TempSaveMap) returns (alive: bool)
      requires Valid()
      requires msg.kind == Connect && msg.channelId.Some? ==>
        forall k :: 0 <= k < |sendChannels| ==> sendChannels[k].id != msg.channelId.value
      modifies this, tempSave
      ensures Valid()
      ensures (if alive then Running(Value()) else Ended(Value()), tempSave.pairs)
           == FromChannel(old(Value()), old(tempSave.pairs), msg, now)
    {
      var m := msg.(receiveTime := Some(now), entityId := Some(entityId));
      alive := true;
      match m.kind {
        case SubmitResp =>
          HandleSubmitResp(m);
        case Submit =>
          alive := HandleSubmit(m);
        case Deliver =>
          alive := HandleDeliver(m);
        case Report =>
          HandleReport(m);
        case ReportResp =>
          waitReceiptMap := waitReceiptMap - {SeqKey(m)};
          SendToQueue(ReportRespTopic, m);
        case DeliverResp =>
          HandleDeliverResp(m);
        case Terminate =>
          HandleTerminate(m);
        case Connect =>
          HandleConnect(m, tempSave);
        case OtherKind =>
        case Untyped =>
      }
    }

    method HandleDeliver(m: Json) returns (alive: bool)
      modifies `waitReceiptMap, `longSmsCache, `toQueue
      ensures (if alive then Running(Value()) else Ended(Value())) == OnDeliver(old(Value()), m)
    {
      alive := true;
      if m.waitReceipt {
        AwaitReceipt(m);
      } else if m.longTotal.Some? {
        alive := HandleLong(DeliverTopic, m);
      } else {
        SendToQueue(DeliverTopic, m);
      }
    }

    method AwaitReceipt(m: Json)
      modifies `waitReceiptMap
      ensures Value() == Await(old(Value()), m)
    {
      if m.seqIds != [] {
        waitReceiptMap := waitReceiptMap[m.seqIds[0] := m];
      }
    }

    method HandleReport(m: Json)
      modifies `waitReceiptMap, `toQueue
      ensures Value() == OnReport(old(Value()), m)
    {
      if m.waitReceipt {
        AwaitReceipt(m);
      } else if m.passageMsgId.GetOr([]) != [] {
        var renamed := m.(msgId := m.passageMsgId);
        SendToQueue(ReportTopic, renamed.(passageMsgId := None));
      } else {
        SendToQueue(ReportTopic, m);
      }
    }

    method HandleDeliverResp(m: Json)
      modifies `waitReceiptMap, `toQueue
      ensures Value() == OnDeliverResp(old(Value()), m)
    {
      var key := SeqKey(m);
      if key in waitReceiptMap {
        var item := waitReceiptMap[key];
        waitReceiptMap := waitReceiptMap - {key};
        SendToQueue(DeliverRespTopic, m.(accountMsgId := item.msgId));
      } else {
        SendToQueue(DeliverRespTopic, m);
      }
    }

    /** One order from the manager; false when the entity closes. */
    method HandleFromManagerRx(order: Order) returns (alive: bool)
      requires Valid()
      modifies this
      ensures Valid() && (if alive then Running(Value()) else Ended(Value())) == FromManager(old(Value()), order)
    {
      match order {
        case SendOrder(m) =>
          SendToChannels(m);
          return true;
        case StateOrder =>
          SendEntityState();
          return true;
        case CloseOrder =>
          ghost var links := sendChannels;
          for k := 0 to |sendChannels|
            invariant |sendChannels| == |links| && Value() == old(Value()).(links := sendChannels)
            invariant forall j :: 0 <= j < k ==> sendChannels[j] == TellAll(links)[j]
            invariant forall j :: k <= j < |links| ==> sendChannels[j] == links[j]
          {
            var channel := sendChannels[k];
            if channel.open {
              sendChannels := sendChannels[k := channel.(priority := channel.priority + [TERMINATE])];
            }
          }
          assert sendChannels == TellAll(links);
          SendEntityState();
          return false;
        case UnknownOrder =>
          return true;
      }
    }

    /**
      `re_send!`; the map is visited in an order that is not determined. An
      entry stays exactly if its time is not over or it is no copy to send
      again; the others are sent, each once.
     */
    method ReSendDue(now: int) returns (order: seq<nat>)
      requires Valid()
      modifies `waitReceiptMap, `index, `sendChannels, `nowConnNum, `isBuffFull, `toQueue
      ensures forall key :: key in waitReceiptMap <==>
        key in old(waitReceiptMap)
        && (old(waitReceiptMap)[key].receiveTime.GetOr(0) + old(waitReceiptMap)[key].duration.GetOr(30) >= now
            || old(waitReceiptMap)[key].needReSend == Some(false))
      ensures forall key :: key in waitReceiptMap ==> waitReceiptMap[key] == old(waitReceiptMap)[key]
      ensures forall key :: key in order <==> key in old(waitReceiptMap) && key !in waitReceiptMap
      ensures forall i, j :: 0 <= i < j < |order| ==> order[i] != order[j]
      ensures Valid() && Lists(order, DueKeys(old(waitReceiptMap), now))
      ensures Value() == ReSend(old(Value()), now, order)
    {
      ghost var due := DueKeys(waitReceiptMap, now);
      var visited, kept := Retain(now);
      var reSends := Sources(waitReceiptMap, visited);
      order := Reversed(visited);
      PopOrder(waitReceiptMap, visited, due);
      ghost var ms := Sources(waitReceiptMap, order);
      waitReceiptMap := kept;
      PopAll(reSends, ms);
    }

    /** The keys `retain` drops, in the order it happens to visit them, and what it keeps. */
    method Retain(now: int) returns (keys: seq<nat>, kept: map<nat, Json>)
      ensures Lists(keys, DueKeys(waitReceiptMap, now)) && kept == waitReceiptMap - DueKeys(waitReceiptMap, now)
    {
      var left := waitReceiptMap.Keys;
      keys, kept := [], waitReceiptMap;
      ghost var due := DueKeys(waitReceiptMap, now);
      while left != {}
        invariant left <= waitReceiptMap.Keys
        invariant Lists(keys, due - left) && kept == waitReceiptMap - (due - left)
        decreases |left|
      {
        var key :| key in left;
        left := left - {key};
        var v := waitReceiptMap[key];
        if v.receiveTime.GetOr(0) + v.duration.GetOr(30) < now && v.needReSend.GetOr(true) {
          keys := keys + [key];
          kept := kept - {key};
        }
      }
      assert due - left == due;
    }

    /** The last one pushed is sent first. */
    method PopAll(pushed: seq<Json>, ghost ms: seq<Json>)
      requires Valid() && |ms| == |pushed| && forall i :: 0 <= i < |ms| ==> ms[i] == pushed[|ms| - 1 - i]
      modifies `index, `sendChannels, `nowConnNum, `isBuffFull, `toQueue
      ensures Valid() && Value() == SendEach(old(Value()), ms)
    {
      var reSends := pushed;
      ghost var goal, todo := SendEach(Value(), ms), ms;
      while reSends != []
        invariant Valid() && |todo| == |reSends|
        invariant forall i :: 0 <= i < |todo| ==> todo[i] == reSends[|todo| - 1 - i]
        invariant goal == SendEach(Value(), todo)
        decreases |reSends|
      {
        var msg := reSends[|reSends| - 1];
        reSends := reSends[..|reSends| - 1];
        SendEachFirst(Value(), todo);
        SendToChannels(msg);
        todo := todo[1..];
      }
    }

    /** An entry stays exactly if it was received less than `duration` ago, or was never stamped. */
    method ClearSendSmsCache(duration: int, now: int)
      modifies `waitReceiptMap
      ensures forall key :: key in waitReceiptMap <==>
        key in old(waitReceiptMap) && old(waitReceiptMap)[key].receiveTime.GetOr(now) + duration > now
      ensures forall key :: key in waitReceiptMap ==> waitReceiptMap[key] == old(waitReceiptMap)[key]
      ensures Value() == old(Value()).(receipts := ClearReceipts(old(waitReceiptMap), duration, now))
    {
      ghost var before := waitReceiptMap;
      var left := waitReceiptMap.Keys;
      while left != {}
        invariant left <= before.Keys && waitReceiptMap.Keys <= before.Keys
        invariant forall key :: key in waitReceiptMap ==> waitReceiptMap[key] == before[key]
        invariant forall key :: key in left ==> key in waitReceiptMap
        invariant forall key :: key in before.Keys - left ==>
          (key in waitReceiptMap <==> before[key].receiveTime.GetOr(now) + duration > now)
        decreases |left|
      {
        var key :| key in left;
        left := left - {key};
        if waitReceiptMap[key].receiveTime.GetOr(now) + duration <= now {
          waitReceiptMap := waitReceiptMap - {key};
        }
      }
      assert waitReceiptMap == ClearReceipts(before, duration, now);
    }

    /** An entry stays exactly if none of its parts was received more than `duration` ago. */
    method ClearLongSmsCache(duration: int, now: int)
      modifies `longSmsCache
      ensures forall key :: key in longSmsCache <==> key in old(longSmsCache) && forall i ::
        0 <= i < |old(longSmsCache)[key]| && old(longSmsCache)[key][i].Some? ==>
          old(longSmsCache)[key][i].value.receiveTime.GetOr(0) + duration >= now
      ensures forall key :: key in longSmsCache ==> longSmsCache[key] == old(longSmsCache)[key]
      ensures Value() == old(Value()).(longSms := LongSms.Clear(old(longSmsCache), duration, now))
    {
      ghost var before := longSmsCache;
      var left := longSmsCache.Keys;
      while left != {}
        invariant left <= before.Keys && longSmsCache.Keys <= before.Keys
        invariant forall key :: key in longSmsCache ==> longSmsCache[key] == before[key]
        invariant forall key :: key in left ==> key in longSmsCache
        invariant forall key :: key in before.Keys - left ==>
          (key in longSmsCache <==> !LongSms.Expired(before[key], duration, now))
        decreases |left|
      {
        var key :| key in left;
        left := left - {key};
        var expired := FindExpired(longSmsCache[key], duration, now);
        if expired {
          longSmsCache := longSmsCache - {key};
        }
      }
      assert longSmsCache == LongSms.Clear(before, duration, now);
    }

    /** The search for a part that has waited too long. */
    method FindExpired(vec: LongSms.Slots, duration: int, now: int) returns (expired: bool)
      ensures expired <==> LongSms.Expired(vec, duration, now)
    {
      for i := 0 to |vec|
        invariant forall k :: 0 <= k < i && vec[k].Some? ==> vec[k].value.receiveTime.GetOr(0) + duration >= now
      {
        if vec[i].Some? && vec[i].value.receiveTime.GetOr(0) + duration < now {
          return true;
        }
      }
      return false;
    }
  }

  lemma SendEachFirst(e: State, ms: seq<Json>)
    requires DistinctIds(e.links) && ms != []
    ensures DistinctIds(Send(e, ms[0]).links) && SendEach(e, ms) == SendEach(Send(e, ms[0]), ms[1..])
  {
    SendKeepsDistinct(e, ms[0]);
  }

  lemma AppendText(done: string, texts: seq<string>, i: nat)
    requires i < |texts|
    ensures done + Segments.JoinFrom(texts, i) == (done + texts[i]) + Segments.JoinFrom(texts, i + 1)
  {
  }

  function Reversed(keys: seq<nat>): (r: seq<nat>)
    ensures |r| == |keys| && forall i :: 0 <= i < |keys| ==> r[i] == keys[|keys| - 1 - i]
  {
    seq(|keys|, i requires 0 <= i < |keys| => keys[|keys| - 1 - i])
  }

  lemma ReversedLists(keys: seq<nat>, due: set<nat>)
    requires Lists(keys, due)
    ensures Lists(Reversed(keys), due)
  {
    forall k | k in due
      ensures k in Reversed(keys)
    {
      var i :| 0 <= i < |keys| && keys[i] == k;
      assert Reversed(keys)[|keys| - 1 - i] == k;
    }
  }

  /** Popping sends in the reverse of the order in which the keys were visited. */
  lemma PopOrder(receipts: map<nat, Json>, keys: seq<nat>, due: set<nat>)
    requires Lists(keys, due) && due <= receipts.Keys
    ensures Lists(Reversed(keys), due)
    ensures forall i :: 0 <= i < |keys| ==>
      Sources(receipts, Reversed(keys))[i] == Sources(receipts, keys)[|keys| - 1 - i]
  {
    ReversedLists(keys, due);
  }
}
