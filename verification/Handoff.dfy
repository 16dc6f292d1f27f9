/**
  How a new connection's queues get from the login to the entity:
  `login_attach` (src/entity/as_custom.rs, src/entity/as_server.rs) leaves them
  in `TEMP_SAVE`, and the entity takes them out at the Connect message.
 */
module Handoff {
  import opened Bytes
  import opened Wrappers
  import opened Messages
  import opened Entity
  import opened EntityRunning
  import opened EntitySteps
  import Sequence

  /** All entities, which of their tasks have ended, the store between them, and how many numbers have been drawn. */
  datatype World = World(seed: u32, drawn: nat, save: TempSave, entities: seq<State>, ended: set<nat>)

  datatype Move =
    | Attach
    | Draw(step: u32)
    | Message(k: nat, m: Json, now: int)
    | Order(k: nat, order: EntitySteps.Order)
    | Timer(k: nat, now: int, keys: seq<nat>)
    | ChannelEnds(id: nat)

  function NewId(w: World): nat {
    Sequence.Shift(w.seed, w.drawn)
  }

  function StateOf(t: Task): State {
    t.e
  }

  /** The receivers of a connection are gone, with all they still held. */
  function Shut(link: Link, id: nat): Link {
    if link.id == id then link.(open := false, priority := [], common := []) else link
  }

  function ShutAll(links: seq<Link>, id: nat): (r: seq<Link>)
    ensures |r| == |links| && forall i :: 0 <= i < |links| ==> r[i] == Shut(links[i], id)
  {
    seq(|links|, i requires 0 <= i < |links| => Shut(links[i], id))
  }

  predicate Ready(w: World) {
    forall k :: 0 <= k < |w.entities| ==> DistinctIds(w.entities[k].links)
  }

  /** The entity's task has neither panicked nor returned. */
  predicate Runs(w: World, k: nat) {
    k < |w.entities| && k !in w.ended
  }

  function After(w: World, k: nat, task: Task): World
    requires k < |w.entities|
  {
    w.(entities := w.entities[k := StateOf(task)], ended := if task.Ended? then w.ended + {k} else w.ended)
  }

  function Moved(w: World, s: Move): World
    requires Ready(w)
  {
    match s
    case Attach => w.(drawn := w.drawn + 1, save := w.save[NewId(w) := Link(NewId(w), true, true, [], [])])
    case Draw(step) => w.(drawn := w.drawn + Sequence.Width(step))
    case Message(k, m, now) =>
      if Runs(w, k) then
        var (task, save) := FromChannel(w.entities[k], w.save, m, now);
        After(w.(save := save), k, task)
      else w
    case Order(k, order) => if Runs(w, k) then After(w, k, FromManager(w.entities[k], order)) else w
    case Timer(k, now, keys) =>
      if Runs(w, k) && Lists(keys, DueKeys(w.entities[k].receipts, now))
      then After(w, k, Running(ReSend(w.entities[k], now, keys))) else w
    case ChannelEnds(id) =>
      w.(save := map key | key in w.save :: Shut(w.save[key], id),
         entities := seq(|w.entities|, k requires 0 <= k < |w.entities| =>
           w.entities[k].(links := ShutAll(w.entities[k].links, id))))
  }

  // ---------- who owns a connection ----------

  function Ids(links: seq<Link>): set<nat> {
    set i | 0 <= i < |links| :: links[i].id
  }

  /** The number has been drawn. */
  ghost predicate IssuedBy(seed: u32, drawn: nat, id: nat) {
    exists o: nat :: o < drawn && id == Sequence.Shift(seed, o)
  }

  ghost predicate Issued(w: World, id: nat) {
    IssuedBy(w.seed, w.drawn, id)
  }

  predicate Consistent(e: State) {
    DistinctIds(e.links) && e.connNum == |e.links| % 0x100
  }

  /**
    Every pair of queues is in the store or with one entity, once; and each
    entity's connection count is the length of its list, modulo 256.
   */
  ghost predicate Owned(w: World) {
    && (forall id :: id in w.save ==> Issued(w, id))
    && (forall k :: 0 <= k < |w.entities| ==> Consistent(w.entities[k]) && Ids(w.entities[k].links) !! w.save.Keys)
    && (forall k, id :: 0 <= k < |w.entities| && id in Ids(w.entities[k].links) ==> Issued(w, id))
    && (forall j, k :: 0 <= j < k < |w.entities| ==> Ids(w.entities[j].links) !! Ids(w.entities[k].links))
  }

  /** An entity only ever takes over what it takes out of the store. */
  predicate TakesOver(e: State, save: TempSave, r: State, left: TempSave) {
    left.Keys <= save.Keys && Ids(r.links) <= Ids(e.links) + (save.Keys - left.Keys) && Consistent(r)
  }

  lemma {:induction false} ProbeIds(e: State, m: Json, left: nat)
    requires DistinctIds(e.links) && left <= |e.links|
    ensures Ids(Probe(e, m, left).links) <= Ids(e.links)
    decreases left
  {
    if left > 0 {
      match Try(e, m) {
        case Taken(after) =>
        case Onward(after) =>
          TryNext(e, m);
          ProbeIds(after, m, left - 1);
          RemovedIds(e.links, Pick(NextIndex(e.index), |e.links|));
      }
    }
  }

  lemma RemovedIds(links: seq<Link>, k: nat)
    requires k < |links|
    ensures Ids(Removed(links, k)) <= Ids(links)
  {
    forall id | id in Ids(Removed(links, k))
      ensures id in Ids(links)
    {
      var i :| 0 <= i < |links| - 1 && Removed(links, k)[i].id == id;
      assert links[if i < k then i else i + 1].id == id;
    }
  }

  lemma SendTakesOver(e: State, m: Json, save: TempSave)
    requires Consistent(e)
    ensures TakesOver(e, save, Send(e, m), save)
  {
    SendKeepsDistinct(e, m);
    ProbeIds(e, Addressed(e, m), |e.links|);
  }

  lemma ForgetTakesOver(e: State, id: nat, save: TempSave)
    requires Consistent(e)
    ensures TakesOver(e, save, Forget(e, id), save)
  {
    WithoutDistinct(e.links, id);
    if k :| 0 <= k < |e.links| && e.links[k].id == id {
      WithoutOne(e.links, k);
      RemovedIds(e.links, k);
    } else {
      WithoutNone(e.links, id);
    }
  }

  lemma ConnectTakesOver(e: State, save: TempSave, m: Json)
    requires Consistent(e) && Ids(e.links) !! save.Keys
    ensures TakesOver(e, save, OnConnect(e, save, m).0, OnConnect(e, save, m).1)
  {
    if m.channelId.Some? && m.channelId.value in save {
      var id := m.channelId.value;
      var links := OnConnect(e, save, m).0.links;
      assert links == e.links + [links[|e.links|]] && links[|e.links|].id == id;
      assert id !in Ids(e.links);
      assert forall i :: 0 <= i < |e.links| ==> e.links[i].id in Ids(e.links);
    }
  }

  lemma SameTakesOver(e: State, r: State, save: TempSave)
    requires Consistent(e) && r.links == e.links && r.connNum == e.connNum
    ensures TakesOver(e, save, r, save)
  {
  }

  lemma SubmitRespTakesOver(e: State, save: TempSave, m: Json)
    requires Consistent(e)
    ensures TakesOver(e, save, OnSubmitResp(e, m), save)
  {
    if SeqKey(m) in e.receipts && m.speedLimit {
      SendTakesOver(e.(receipts := e.receipts - {SeqKey(m)}), e.receipts[SeqKey(m)], save);
    } else {
      SameTakesOver(e, OnSubmitResp(e, m), save);
    }
  }

  lemma LongTakesOver(e: State, save: TempSave, topic: Topic, m: Json)
    requires Consistent(e)
    ensures TakesOver(e, save, StateOf(OnLong(e, topic, m)), save)
  {
    SameTakesOver(e, StateOf(OnLong(e, topic, m)), save);
  }

  lemma SubmitTakesOver(e: State, save: TempSave, m: Json)
    requires Consistent(e)
    ensures TakesOver(e, save, StateOf(OnSubmit(e, m)), save)
  {
    if !m.waitReceipt && m.speedLimit {
      SendTakesOver(e, m.(speedLimit := false), save);
    } else if !m.waitReceipt && m.longTotal.Some? {
      LongTakesOver(e, save, SubmitTopic, m);
    } else {
      SameTakesOver(e, StateOf(OnSubmit(e, m)), save);
    }
  }

  lemma DeliverTakesOver(e: State, save: TempSave, m: Json)
    requires Consistent(e)
    ensures TakesOver(e, save, StateOf(OnDeliver(e, m)), save)
  {
    if !m.waitReceipt && m.longTotal.Some? {
      LongTakesOver(e, save, DeliverTopic, m);
    } else {
      SameTakesOver(e, StateOf(OnDeliver(e, m)), save);
    }
  }

  lemma TerminateTakesOver(e: State, save: TempSave, m: Json)
    requires Consistent(e)
    ensures TakesOver(e, save, OnTerminate(e, m), save)
  {
    if m.id.Some? {
      ForgetTakesOver(e, m.id.value, save);
    }
  }

  lemma MessageTakesOver(e: State, save: TempSave, msg: Json, now: int)
    requires Consistent(e) && Ids(e.links) !! save.Keys
    ensures var (task, left) := FromChannel(e, save, msg, now); TakesOver(e, save, StateOf(task), left)
  {
    var m := Received(e, msg, now);
    match m.kind {
      case SubmitResp => SubmitRespTakesOver(e, save, m);
      case Submit => SubmitTakesOver(e, save, m);
      case Deliver => DeliverTakesOver(e, save, m);
      case Report => SameTakesOver(e, OnReport(e, m), save);
      case ReportResp => SameTakesOver(e, OnReportResp(e, m), save);
      case DeliverResp => SameTakesOver(e, OnDeliverResp(e, m), save);
      case Terminate => TerminateTakesOver(e, save, m);
      case Connect => ConnectTakesOver(e, save, m);
      case OtherKind => SameTakesOver(e, e, save);
      case Untyped => SameTakesOver(e, e, save);
    }
  }

  lemma OrderTakesOver(e: State, save: TempSave, order: EntitySteps.Order)
    requires Consistent(e)
    ensures TakesOver(e, save, StateOf(FromManager(e, order)), save)
  {
    match order {
      case SendOrder(m) => SendTakesOver(e, m, save);
      case CloseOrder =>
        assert forall k :: 0 <= k < |e.links| ==> TellAll(e.links)[k].id == e.links[k].id;
      case _ =>
    }
  }

  lemma {:induction false} EachTakesOver(e: State, save: TempSave, ms: seq<Json>)
    requires Consistent(e)
    ensures TakesOver(e, save, SendEach(e, ms), save)
    decreases |ms|
  {
    if ms != [] {
      SendTakesOver(e, ms[0], save);
      EachTakesOver(Send(e, ms[0]), save, ms[1..]);
    }
  }

  /** One entity's step keeps the world in order. */
  lemma EntityStepOwned(w: World, k: nat, task: Task, left: TempSave)
    requires Owned(w) && k < |w.entities| && TakesOver(w.entities[k], w.save, StateOf(task), left)
    requires Ids(StateOf(task).links) !! left.Keys
    ensures Owned(After(w.(save := left), k, task))
  {
    var v := After(w.(save := left), k, task);
    forall id | id in w.save || id in Ids(w.entities[k].links)
      ensures Issued(v, id)
    {
      assert Issued(w, id);
    }
    forall j, id | 0 <= j < |v.entities| && id in Ids(v.entities[j].links)
      ensures Issued(v, id)
    {
      if j != k {
        assert Issued(w, id);
      }
    }
  }

  /** Within one period of the counter a new number is no one's. */
  lemma NewIdUnused(w: World, id: nat)
    requires w.drawn < Sequence.MODULUS && Issued(w, id)
    ensures id != NewId(w)
  {
    var o: nat :| o < w.drawn && id == Sequence.Shift(w.seed, o);
    if id == NewId(w) {
      Sequence.ShiftApart(w.seed, o, w.drawn);
    }
  }

  lemma AttachOwned(w: World)
    requires Owned(w) && w.drawn < Sequence.MODULUS
    ensures Owned(Moved(w, Attach))
  {
    var v := Moved(w, Attach);
    DrawnOwned(w, w.drawn + 1);
    assert Issued(v, NewId(w)) by {
      assert NewId(w) == Sequence.Shift(v.seed, w.drawn);
    }
    forall k | 0 <= k < |w.entities|
      ensures Ids(w.entities[k].links) !! v.save.Keys
    {
      if NewId(w) in Ids(w.entities[k].links) {
        NewIdUnused(w, NewId(w));
      }
    }
    forall k, id | 0 <= k < |v.entities| && id in Ids(v.entities[k].links)
      ensures Issued(v, id)
    {
      assert Issued(w.(drawn := w.drawn + 1), id);
    }
  }

  lemma DrawnOwned(w: World, drawn: nat)
    requires Owned(w) && drawn >= w.drawn
    ensures Owned(w.(drawn := drawn))
  {
    forall id | Issued(w, id)
      ensures Issued(w.(drawn := drawn), id)
    {
      var o: nat :| o < w.drawn && id == Sequence.Shift(w.seed, o);
    }
  }

  lemma EndsOwned(w: World, id: nat)
    requires Owned(w)
    ensures Owned(Moved(w, ChannelEnds(id)))
  {
    var v := Moved(w, ChannelEnds(id));
    assert v.save.Keys == w.save.Keys;
    forall k | 0 <= k < |w.entities|
      ensures Ids(v.entities[k].links) == Ids(w.entities[k].links) && Consistent(v.entities[k])
    {
      ShutKeeps(w.entities[k], id);
    }
    forall i | Issued(w, i)
      ensures Issued(v, i)
    {
    }
  }

  lemma ShutKeeps(e: State, id: nat)
    requires Consistent(e)
    ensures Consistent(e.(links := ShutAll(e.links, id))) && Ids(ShutAll(e.links, id)) == Ids(e.links)
  {
    var links := ShutAll(e.links, id);
    assert forall i :: 0 <= i < |links| ==> links[i].id == e.links[i].id;
  }

  /** Every step keeps the connections owned, as long as the counter is within one period. */
  lemma StepOwned(w: World, s: Move)
    requires Owned(w) && w.drawn < Sequence.MODULUS
    ensures Owned(Moved(w, s))
  {
    match s
    case Attach => AttachOwned(w);
    case Draw(step) => DrawnOwned(w, w.drawn + Sequence.Width(step));
    case Message(k, m, now) =>
      if Runs(w, k) {
        var (task, left) := FromChannel(w.entities[k], w.save, m, now);
        MessageTakesOver(w.entities[k], w.save, m, now);
        EntityStepOwned(w, k, task, left);
      }
    case Order(k, order) =>
      if Runs(w, k) {
        OrderTakesOver(w.entities[k], w.save, order);
        EntityStepOwned(w, k, FromManager(w.entities[k], order), w.save);
      }
    case Timer(k, now, keys) =>
      if Runs(w, k) && Lists(keys, DueKeys(w.entities[k].receipts, now)) {
        var e := w.entities[k];
        var taken := e.(receipts := e.receipts - DueKeys(e.receipts, now));
        EachTakesOver(taken, w.save, Sources(e.receipts, keys));
        EntityStepOwned(w, k, Running(ReSend(e, now, keys)), w.save);
      }
    case ChannelEnds(id) => EndsOwned(w, id);
  }

  /** `w` can be reached from the start, the numbers drawn before its last step being fewer than 2^32. */
  ghost predicate Reachable(w: World, steps: seq<Move>, start: World)
    decreases |steps|
  {
    if steps == [] then w == start
    else
      exists before: World ::
        Reachable(before, steps[..|steps| - 1], start) && Ready(before) && before.drawn < Sequence.MODULUS
        && w == Moved(before, steps[|steps| - 1])
  }

  /** No logins yet. */
  predicate Fresh(w: World) {
    w.drawn == 0 && w.save == map[] && w.ended == {}
    && forall k :: 0 <= k < |w.entities| ==> w.entities[k].links == [] && w.entities[k].connNum == 0
  }

  /**
    In every run, whatever messages the entities receive and in whatever
    interleaving connections log in and end: no pair of queues is ever in two
    places, ids differ, and every count is right.
   */
  lemma {:induction false} AlwaysOwned(w: World, steps: seq<Move>, start: World)
    requires Fresh(start) && Reachable(w, steps, start)
    ensures Owned(w)
    decreases |steps|
  {
    if steps != [] {
      var before: World :|
        Reachable(before, steps[..|steps| - 1], start) && Ready(before) && before.drawn < Sequence.MODULUS
        && w == Moved(before, steps[|steps| - 1]);
      AlwaysOwned(before, steps[..|steps| - 1], start);
      StepOwned(before, steps[|steps| - 1]);
    }
  }

  /**
    `login_attach`: an entity that has as many connections as it may have
    refuses; otherwise both entity kinds leave the pair and send Connect. The
    cap of an upstream passage is the sum of its two settings.
   */
  method LoginAttach(sequencer: Sequence.Sequencer, tempSave: TempSaveMap, entityId: nat, cap: nat, now: nat,
                     canWrite: bool, ghost w: World)
    returns (r: Option<(u32, Json)>)
    requires Ready(w) && w.save == tempSave.pairs && sequencer.next == NewId(w)
    modifies sequencer, tempSave
    ensures r.Some? <==> now < cap
    ensures tempSave.pairs
         == if now < cap then old(tempSave.pairs)[old(sequencer.next) := Link(old(sequencer.next), true, true, [], [])]
            else old(tempSave.pairs)
    ensures sequencer.next == if now < cap then (old(sequencer.next) + 1) % 0x1_0000_0000 else old(sequencer.next)
    ensures var after := if r.Some? then Moved(w, Attach) else w;
      tempSave.pairs == after.save && sequencer.next == NewId(after)
    ensures r.Some? ==>
      var (id, connect) := r.value;
      id == NewId(w)
      && connect == EMPTY.(kind := Connect, entityId := Some(entityId),
                          channelId := Some(id), canWrite := Some(canWrite))
  {
    if cap <= now {
      return None;
    }
    Sequence.ShiftAdd(w.seed, w.drawn, 1);
    var id := sequencer.GetSequenceId(1);
    tempSave.pairs := tempSave.pairs[id := Link(id, true, true, [], [])];
    var connect := EMPTY.(kind := Connect, entityId := Some(entityId));
    connect := connect.(channelId := Some(id), canWrite := Some(canWrite));
    r := Some((id, connect));
  }
}
