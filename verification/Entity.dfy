/**
  One entity: an account or an upstream passage with its connections
  (`EntityRunContext` in src/entity/entity_running.rs), as a value, and
  `send_to_channels`, which picks the connection a message goes to.
 */
module Entity {
  import opened Bytes
  import opened Wrappers
  import opened Messages
  import LongSms

  const CHANNEL_BUFF_NUM: nat := 0xFFFF_FFFF
  const USIZE_MAX: nat := 0xFFFF_FFFF_FFFF_FFFF

  type usize = n: nat | n <= USIZE_MAX

  datatype EntityType = Custom | Server

  /** The entity's end of a connection: the two queues to its channel task, which closes them when it ends. */
  datatype Link = Link(id: nat, canWrite: bool, open: bool, priority: seq<Json>, common: seq<Json>) {
    function Queued(): nat {
      |priority| + |common|
    }
  }

  datatype Topic = SubmitTopic | SubmitRespTopic | DeliverTopic | DeliverRespTopic | ReportTopic | ReportRespTopic
                 | FailureTopic

  const DISCONNECT: byte := 0
  const CONNECT: byte := 1
  const BUFF_FULL: byte := 2

  /** What an entity hands to the message queue. */
  datatype Output = Published(topic: Topic, msg: Json) | StateChange(state: byte)

  datatype State = State(
    kind: EntityType,
    id: nat,
    serviceId: Str,
    spId: Str,
    nodeId: nat,
    index: usize,
    links: seq<Link>,
    receipts: map<nat, Json>,
    longSms: LongSms.Cache,
    connNum: byte,
    sendBuffCap: nat,
    writeLimit: nat,
    full: bool,
    log: seq<Output>
  )

  predicate DistinctIds(links: seq<Link>) {
    forall i, j :: 0 <= i < j < |links| ==> links[i].id != links[j].id
  }

  /** `send_entity_state!`. */
  function StateCode(full: bool, connNum: byte): byte {
    if connNum == 0 then DISCONNECT else if full then BUFF_FULL else CONNECT
  }

  function SendState(e: State): State {
    e.(log := e.log + [StateChange(StateCode(e.full, e.connNum))])
  }

  function Publish(e: State, topic: Topic, m: Json): State {
    e.(log := e.log + [Published(topic, m)])
  }

  /** What `send_to_channels` adds to a message. */
  function Addressed(e: State, m: Json): Json {
    var body := m.body.(spId := Some(e.spId));
    m.(entityId := Some(e.id), nodeId := Some(e.nodeId),
       body := if e.serviceId == [] then body else body.(serviceId := Some(e.serviceId)))
  }

  /** The cursor skips 0 and 1 when it wraps. */
  function NextIndex(index: usize): usize {
    if index == USIZE_MAX then 2 else index + 1
  }

  /** A passage whose connection has more waiting than its cap reports that once. */
  function NoteFull(e: State, link: Link): State {
    if e.kind == Server && e.sendBuffCap < CHANNEL_BUFF_NUM && link.Queued() > e.sendBuffCap && !e.full
    then SendState(e.(full := true)) else e
  }

  function Without(links: seq<Link>, id: nat): seq<Link> {
    if links == [] then [] else (if links[0].id == id then [] else [links[0]]) + Without(links[1..], id)
  }

  function Enqueue(link: Link, m: Json): Link {
    if m.isPriority then link.(priority := link.priority + [m]) else link.(common := link.common + [m])
  }

  /** A connection whose task has ended is forgotten. */
  function Forget(e: State, id: nat): State {
    var links := Without(e.links, id);
    e.(links := links, connNum := |links| % 0x100)
  }

  function Fail(e: State, m: Json): State {
    SendState(Publish(e, FailureTopic, m))
  }

  function Removed(links: seq<Link>, k: nat): (r: seq<Link>)
    requires k < |links|
    ensures |r| == |links| - 1
  {
    links[..k] + links[k + 1..]
  }

  /** Forgetting a connection by its id removes just that one, as the ids differ. */
  lemma {:induction false} WithoutOne(links: seq<Link>, k: nat)
    requires DistinctIds(links) && k < |links|
    ensures Without(links, links[k].id) == Removed(links, k)
    decreases |links|
  {
    if k > 0 {
      assert DistinctIds(links[1..]);
      WithoutOne(links[1..], k - 1);
      assert links[0].id != links[k].id;
      assert links[1..][..k - 1] == links[1..k] && links[1..][k..] == links[k + 1..];
      assert [links[0]] + links[1..k] == links[..k];
    } else {
      WithoutNone(links[1..], links[0].id);
    }
  }

  lemma RemovedDistinct(links: seq<Link>, k: nat)
    requires DistinctIds(links) && k < |links|
    ensures DistinctIds(Removed(links, k))
  {
  }

  lemma {:induction false} WithoutDistinct(links: seq<Link>, id: nat)
    requires DistinctIds(links)
    ensures DistinctIds(Without(links, id))
  {
    if k :| 0 <= k < |links| && links[k].id == id {
      WithoutOne(links, k);
      RemovedDistinct(links, k);
    } else {
      WithoutNone(links, id);
    }
  }

  lemma {:induction false} WithoutNone(links: seq<Link>, id: nat)
    requires forall k :: 0 <= k < |links| ==> links[k].id != id
    ensures Without(links, id) == links
    decreases |links|
  {
    if links != [] {
      WithoutNone(links[1..], id);
    }
  }

  /** The connection the cursor points at. */
  function Pick(index: usize, n: nat): (k: nat)
    requires n > 0
    ensures k < n
  {
    index % n
  }

  datatype Round = Taken(after: State) | Onward(after: State)

  /** One round of the loop in `send_to_channels`. */
  function Try(e: State, m: Json): Round
    requires e.links != []
  {
    var moved := e.(index := NextIndex(e.index));
    var k := Pick(moved.index, |moved.links|);
    var link := moved.links[k];
    if !link.canWrite then Onward(moved)
    else
      var noted := NoteFull(moved, link);
      if link.open then Taken(noted.(links := noted.links[k := Enqueue(link, m)])) else Onward(Forget(noted, link.id))
  }

  /** A round that passes the message on leaves at most one connection fewer, and the ids distinct. */
  lemma TryNext(e: State, m: Json)
    requires DistinctIds(e.links) && e.links != [] && Try(e, m).Onward?
    ensures var after := Try(e, m).after;
      DistinctIds(after.links) && |after.links| >= |e.links| - 1
      && after.links == var k := Pick(NextIndex(e.index), |e.links|);
                        if e.links[k].canWrite then Removed(e.links, k) else e.links
  {
    var k := Pick(NextIndex(e.index), |e.links|);
    WithoutOne(e.links, k);
    RemovedDistinct(e.links, k);
  }

  /** The rounds that are left; ids must differ, or the modulus could become zero. */
  function Probe(e: State, m: Json, left: nat): State
    requires DistinctIds(e.links) && left <= |e.links|
    decreases left
  {
    if left == 0 then Fail(e, m)
    else
      match Try(e, m)
      case Taken(after) => after
      case Onward(after) =>
        TryNext(e, m);
        Probe(after, m, left - 1)
  }

  lemma ProbeNext(e: State, m: Json, left: nat, after: State)
    requires DistinctIds(e.links) && 0 < left <= |e.links| && Try(e, m) == Onward(after)
    ensures DistinctIds(after.links) && left - 1 <= |after.links|
    ensures Probe(e, m, left) == Probe(after, m, left - 1)
  {
    TryNext(e, m);
  }

  lemma ProbeSent(e: State, m: Json, left: nat, after: State)
    requires DistinctIds(e.links) && 0 < left <= |e.links| && Try(e, m) == Taken(after)
    ensures Probe(e, m, left) == after
  {
  }

  /** `send_to_channels`. */
  function Send(e: State, m: Json): State
    requires DistinctIds(e.links)
  {
    Probe(e, Addressed(e, m), |e.links|)
  }
}
