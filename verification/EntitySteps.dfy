/**
  What the entity's task does with each thing it receives, as functions of its
  state: `handle_from_channel_rx`, `handle_from_manager_rx` and the three
  timers of src/entity/entity_running.rs.
 */
module EntitySteps {
  import opened Wrappers
  import opened Messages
  import opened Entity
  import LongSms

  /** The task goes on, or has panicked or returned. */
  datatype Task = Running(e: State) | Ended(e: State)

  /** The sender pairs that `login_attach` has made and no entity has taken yet. */
  type TempSave = map<nat, Link>

  // ---------- receipts ----------

  /** `get_key`. */
  function SeqKey(m: Json): nat {
    m.seqId.GetOr(0)
  }

  /** What is stored for part `i`: only the first copy may be sent again. */
  function Copy(m: Json, i: nat): Json
    requires i < |m.msgIds|
  {
    m.(needReSend := Some(i == 0), accountMsgId := Some(m.msgIds[i]))
  }

  function InsertFrom(receipts: map<nat, Json>, m: Json, i: nat): map<nat, Json>
    decreases |m.seqIds| - i
  {
    if i >= |m.seqIds| || i >= |m.msgIds| then receipts
    else InsertFrom(receipts[m.seqIds[i] := Copy(m, i)], m, i + 1)
  }

  /** `insert_into_wait_receipt`: one entry a part, as far as there are message ids. */
  function Insert(receipts: map<nat, Json>, m: Json): map<nat, Json> {
    InsertFrom(receipts, m, 0)
  }

  /** What goes to the business side for a response. */
  function Reply(receipts: map<nat, Json>, r: Json): Json {
    if SeqKey(r) in receipts
    then r.(accountMsgId := receipts[SeqKey(r)].accountMsgId, passageMsgId := r.msgId, msgId := None)
    else r
  }

  // ---------- the pieces of the branches ----------

  function Received(e: State, m: Json, now: int): Json {
    m.(receiveTime := Some(now), entityId := Some(e.id))
  }

  /** `send_to_queue!`. */
  function ToQueue(e: State, topic: Topic, m: Json): State {
    Publish(e, topic, m.(seqId := None, seqIds := []))
  }

  /** A full entity looks for a connection that has room again. */
  function Recheck(e: State): State {
    if e.full && (exists k :: 0 <= k < |e.links| && e.links[k].Queued() <= e.writeLimit)
    then SendState(e.(full := false)) else e
  }

  function OnSubmitResp(e: State, m: Json): State
    requires DistinctIds(e.links)
  {
    if SeqKey(m) in e.receipts then
      var source := e.receipts[SeqKey(m)];
      var taken := e.(receipts := e.receipts - {SeqKey(m)});
      if m.speedLimit then Send(taken, source) else ToQueue(Recheck(taken), SubmitRespTopic, Reply(e.receipts, m))
    else ToQueue(e, SubmitRespTopic, m)
  }

  function OnLong(e: State, topic: Topic, m: Json): Task {
    var (cache, outcome) := LongSms.Handle(e.longSms, m);
    var kept := e.(longSms := cache);
    match outcome
    case Kept => Running(kept)
    case Complete(slots) => Running(ToQueue(kept, topic, LongSms.Assembled(slots)))
    case Panicked => Ended(e)
  }

  function OnSubmit(e: State, m: Json): Task
    requires DistinctIds(e.links)
  {
    if m.waitReceipt then Running(e.(receipts := Insert(e.receipts, m)))
    else if m.speedLimit then Running(Send(e, m.(speedLimit := false)))
    else if m.longTotal.Some? then OnLong(e, SubmitTopic, m)
    else Running(ToQueue(e, SubmitTopic, m.(msgIds := [m.msgId.GetOr([])], msgId := None)))
  }

  /** Uplink messages and reports share the way they wait for their receipt. */
  function Await(e: State, m: Json): State {
    if m.seqIds == [] then e else e.(receipts := e.receipts[m.seqIds[0] := m])
  }

  function OnDeliver(e: State, m: Json): Task {
    if m.waitReceipt then Running(Await(e, m))
    else if m.longTotal.Some? then OnLong(e, DeliverTopic, m)
    else Running(ToQueue(e, DeliverTopic, m))
  }

  function OnReport(e: State, m: Json): State {
    if m.waitReceipt then Await(e, m)
    else
      ToQueue(e, ReportTopic,
              if m.passageMsgId.GetOr([]) == [] then m else m.(msgId := m.passageMsgId, passageMsgId := None))
  }

  function OnDeliverResp(e: State, m: Json): State {
    if SeqKey(m) in e.receipts then
      ToQueue(e.(receipts := e.receipts - {SeqKey(m)}), DeliverRespTopic,
              m.(accountMsgId := e.receipts[SeqKey(m)].msgId))
    else ToQueue(e, DeliverRespTopic, m)
  }

  function OnReportResp(e: State, m: Json): State {
    ToQueue(e.(receipts := e.receipts - {SeqKey(m)}), ReportRespTopic, m)
  }

  function OnTerminate(e: State, m: Json): State {
    match m.id
    case None => e
    case Some(id) =>
      var left := Forget(e, id);
      if left.links == [] then SendState(left) else left
  }

  function OnConnect(e: State, save: TempSave, m: Json): (State, TempSave) {
    match m.channelId
    case None => (e, save)
    case Some(id) =>
      if id in save then
        var links := e.links + [save[id].(id := id, canWrite := m.canWrite.GetOr(true))];
        var joined := e.(links := links, connNum := |links| % 0x100);
        (if joined.connNum == 1 then SendState(joined) else joined, save - {id})
      else (e, save)
  }

  /** `handle_from_channel_rx` for one message. */
  function FromChannel(e: State, save: TempSave, msg: Json, now: int): (Task, TempSave)
    requires DistinctIds(e.links)
  {
    var m := Received(e, msg, now);
    match m.kind
    case SubmitResp => (Running(OnSubmitResp(e, m)), save)
    case Submit => (OnSubmit(e, m), save)
    case Deliver => (OnDeliver(e, m), save)
    case Report => (Running(OnReport(e, m)), save)
    case ReportResp => (Running(OnReportResp(e, m)), save)
    case DeliverResp => (Running(OnDeliverResp(e, m)), save)
    case Terminate => (Running(OnTerminate(e, m)), save)
    case Connect =>
      var (joined, left) := OnConnect(e, save, m);
      (Running(joined), left)
    case OtherKind => (Running(e), save)
    case Untyped => (Running(e), save)
  }

  datatype Order = SendOrder(m: Json) | StateOrder | CloseOrder | UnknownOrder

  /** The empty message that closes a connection. */
  const TERMINATE: Json := EMPTY.(kind := Terminate)

  function Tell(link: Link): Link {
    if link.open then link.(priority := link.priority + [TERMINATE]) else link
  }

  function TellAll(links: seq<Link>): (r: seq<Link>)
    ensures |r| == |links|
  {
    seq(|links|, k requires 0 <= k < |links| => Tell(links[k]))
  }

  /** `handle_from_manager_rx`. */
  function FromManager(e: State, order: Order): Task
    requires DistinctIds(e.links)
  {
    match order
    case SendOrder(m) => Running(Send(e, m))
    case StateOrder => Running(SendState(e))
    case CloseOrder => Ended(SendState(e.(links := TellAll(e.links))))
    case UnknownOrder => Running(e)
  }

  // ---------- timers ----------

  /** `re_send!` takes what has waited too long and may be sent again. */
  predicate Due(v: Json, now: int) {
    v.receiveTime.GetOr(0) + v.duration.GetOr(30) < now && v.needReSend.GetOr(true)
  }

  function DueKeys(receipts: map<nat, Json>, now: int): set<nat> {
    set key | key in receipts && Due(receipts[key], now)
  }

  function SendEach(e: State, ms: seq<Json>): State
    requires DistinctIds(e.links)
    ensures DistinctIds(SendEach(e, ms).links)
    decreases |ms|
  {
    if ms == [] then e
    else
      SendKeepsDistinct(e, ms[0]);
      SendEach(Send(e, ms[0]), ms[1..])
  }

  /** The order in which a hash map is visited is not determined: `keys` is any listing of the due keys. */
  predicate Lists(keys: seq<nat>, due: set<nat>) {
    (forall i :: 0 <= i < |keys| ==> keys[i] in due)
    && (forall k :: k in due ==> k in keys)
    && (forall i, j :: 0 <= i < j < |keys| ==> keys[i] != keys[j])
  }

  function Sources(receipts: map<nat, Json>, keys: seq<nat>): (ms: seq<Json>)
    requires forall i :: 0 <= i < |keys| ==> keys[i] in receipts
    ensures |ms| == |keys|
  {
    seq(|keys|, i requires 0 <= i < |keys| => receipts[keys[i]])
  }

  /** `re_send!`, the due keys being sent in this order. */
  function ReSend(e: State, now: int, keys: seq<nat>): State
    requires DistinctIds(e.links) && Lists(keys, DueKeys(e.receipts, now))
  {
    SendEach(e.(receipts := e.receipts - DueKeys(e.receipts, now)), Sources(e.receipts, keys))
  }

  /** `clear_send_sms_cache`. */
  function ClearReceipts(receipts: map<nat, Json>, duration: int, now: int): map<nat, Json> {
    map key | key in receipts && receipts[key].receiveTime.GetOr(now) + duration > now :: receipts[key]
  }

  // ---------- what sending leaves alone ----------

  lemma {:induction false} ProbeKeeps(e: State, m: Json, left: nat)
    requires DistinctIds(e.links) && left <= |e.links|
    ensures var r := Probe(e, m, left);
      DistinctIds(r.links) && r.receipts == e.receipts && r.longSms == e.longSms
    ensures e.connNum == |e.links| % 0x100 ==> Probe(e, m, left).connNum == |Probe(e, m, left).links| % 0x100
    decreases left
  {
    if left > 0 {
      match Try(e, m) {
        case Taken(after) =>
        case Onward(after) =>
          TryNext(e, m);
          ProbeKeeps(after, m, left - 1);
      }
    }
  }

  lemma SendKeepsDistinct(e: State, m: Json)
    requires DistinctIds(e.links)
    ensures DistinctIds(Send(e, m).links)
    ensures Send(e, m).receipts == e.receipts && Send(e, m).longSms == e.longSms
    ensures e.connNum == |e.links| % 0x100 ==> Send(e, m).connNum == |Send(e, m).links| % 0x100
  {
    ProbeKeeps(e, Addressed(e, m), |e.links|);
  }
}
