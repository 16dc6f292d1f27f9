/**
  What the business side gets of a message that reaches its entity in parts:
  the decoded packets are read one after another by `handle_from_channel_rx`
  (src/entity/entity_running.rs), each at its own time.
 */
module Publishing {
  import opened Wrappers
  import opened Messages
  import opened Entity
  import opened EntitySteps
  import opened Handoff
  import opened LongSms
  import opened CmppContent
  import opened TextParts
  import opened Crossing
  import Charset

  /** No pair of queues is with the entity and in the store at once, and its count is right. */
  predicate Settled(e: State, save: TempSave) {
    Consistent(e) && Handoff.Ids(e.links) !! save.Keys
  }

  /** The entity reads these messages; only the last makes it publish, and it publishes exactly this. */
  predicate PublishesLast(e: State, save: TempSave, ms: seq<Json>, nows: seq<int>, topic: Topic, j: Json)
    requires |nows| == |ms| > 0 && Settled(e, save)
    decreases |ms|
  {
    MessageTakesOver(e, save, ms[0], nows[0]);
    var (task, left) := FromChannel(e, save, ms[0], nows[0]);
    task.Running?
    && if |ms| == 1 then task.e.log == e.log + [Published(topic, j)]
       else task.e.log == e.log && PublishesLast(task.e, left, ms[1..], nows[1..], topic, j)
  }

  /**
    The first part as it was read, with the whole text and every part's id in
    order, and no trace of having been in parts or of the connection.
   */
  predicate WholeMessage(j: Json, first: Json, content: string, ids: seq<Str>) {
    j == first.(body := first.body.(content := Some(content)), msgIds := ids, msgId := None, longTotal := None,
                longNumber := None, seqId := None, seqIds := [])
  }

  predicate TopicOf(kind: Kind, topic: Topic) {
    (kind == Submit && topic == SubmitTopic) || (kind == Deliver && topic == DeliverTopic)
  }

  /** What a decoder makes of a packet: no marks of the gateway's own. */
  predicate Unmarked(m: Json, kind: Kind) {
    m.kind == kind && !m.waitReceipt && !m.speedLimit
  }

  predicate AllUnmarked(ms: seq<Json>, kind: Kind) {
    forall i :: 0 <= i < |ms| ==> Unmarked(ms[i], kind) && ms[i].longTotal.Some?
  }

  function Stamp(e: State, m: Json, now: int): Json {
    m.(receiveTime := Some(now), entityId := Some(e.id))
  }

  function Stamped(e: State, ms: seq<Json>, nows: seq<int>): (r: seq<Json>)
    requires |nows| == |ms|
    ensures |r| == |ms| && forall i :: 0 <= i < |ms| ==> r[i] == Stamp(e, ms[i], nows[i])
  {
    seq(|ms|, i requires 0 <= i < |ms| => Stamp(e, ms[i], nows[i]))
  }

  /** What reading one part comes to. */
  lemma PartRead(e: State, save: TempSave, m: Json, now: int, kind: Kind, topic: Topic)
    requires DistinctIds(e.links) && TopicOf(kind, topic) && Unmarked(m, kind) && m.longTotal.Some?
    ensures var (cache, outcome) := Handle(e.longSms, Stamp(e, m, now));
      FromChannel(e, save, m, now)
      == (match outcome
          case Kept => Running(e.(longSms := cache))
          case Complete(slots) =>
            Running(e.(longSms := cache,
                       log := e.log + [Published(topic, Assembled(slots).(seqId := None, seqIds := []))]))
          case Panicked => Ended(e),
          save)
  {
  }

  lemma OutcomesFirst(cache: Cache, arrivals: seq<Json>)
    requires arrivals != []
    ensures Outcomes(cache, arrivals)[0] == Handle(cache, arrivals[0]).1
    ensures Outcomes(cache, arrivals)[1..] == Outcomes(Handle(cache, arrivals[0]).0, arrivals[1..])
  {
  }

  lemma ComesOutRest(cache: Cache, arrivals: seq<Json>)
    requires |arrivals| > 1
    ensures ComesOut(cache, arrivals) <==>
      Handle(cache, arrivals[0]).1 == Kept && ComesOut(Handle(cache, arrivals[0]).0, arrivals[1..])
  {
    var all, rest := Outcomes(cache, arrivals), Outcomes(Handle(cache, arrivals[0]).0, arrivals[1..]);
    OutcomesFirst(cache, arrivals);
    assert forall j :: 1 <= j < |all| ==> all[j] == rest[j - 1];
    assert forall j :: 0 <= j < |rest| ==> rest[j] == all[j + 1];
  }

  lemma StampedRest(e: State, ms: seq<Json>, nows: seq<int>)
    requires |nows| == |ms| > 0
    ensures Stamped(e, ms, nows)[1..] == Stamped(e, ms[1..], nows[1..])
  {
  }

  /** What the last arrival completes, as it is published. */
  function PublishedForm(cache: Cache, arrivals: seq<Json>): Json
    requires ComesOut(cache, arrivals)
  {
    var last := Outcomes(cache, arrivals)[|arrivals| - 1];
    LastFull(cache, arrivals);
    Assembled(last.slots).(seqId := None, seqIds := [])
  }

  lemma LastFull(cache: Cache, arrivals: seq<Json>)
    requires ComesOut(cache, arrivals)
    ensures var last := Outcomes(cache, arrivals)[|arrivals| - 1]; last.slots != [] && Full(last.slots)
  {
    var _ := OutcomeOf(cache, arrivals, |arrivals| - 1);
  }

  /** The entity publishes at the last part exactly if that is where the message comes out of the cache. */
  lemma {:induction false} PublishesIff(e: State, save: TempSave, ms: seq<Json>, nows: seq<int>, kind: Kind,
                                        topic: Topic, j: Json)
    requires |nows| == |ms| > 0 && Settled(e, save)
    requires TopicOf(kind, topic) && AllUnmarked(ms, kind)
    ensures var arrivals := Stamped(e, ms, nows);
      PublishesLast(e, save, ms, nows, topic, j) <==>
        ComesOut(e.longSms, arrivals) && j == PublishedForm(e.longSms, arrivals)
    decreases |ms|
  {
    var arrivals := Stamped(e, ms, nows);
    PartRead(e, save, ms[0], nows[0], kind, topic);
    OutcomesFirst(e.longSms, arrivals);
    if |ms| == 1 {
      OnePublishesIff(e, save, ms, nows, kind, topic, j);
    } else {
      var (cache, outcome) := Handle(e.longSms, arrivals[0]);
      StampedRest(e, ms, nows);
      ComesOutRest(e.longSms, arrivals);
      if outcome == Kept {
        var next := e.(longSms := cache);
        assert Stamped(next, ms[1..], nows[1..]) == Stamped(e, ms[1..], nows[1..]);
        PublishesIff(next, save, ms[1..], nows[1..], kind, topic, j);
        PublishesRest(e, save, ms, nows, topic, j, next);
      }
    }
  }

  lemma PublishesRest(e: State, save: TempSave, ms: seq<Json>, nows: seq<int>, topic: Topic, j: Json, next: State)
    requires |nows| == |ms| > 1 && Settled(e, save)
    requires FromChannel(e, save, ms[0], nows[0]) == (Running(next), save) && next.log == e.log && Settled(next, save)
    ensures PublishesLast(e, save, ms, nows, topic, j) <==> PublishesLast(next, save, ms[1..], nows[1..], topic, j)
  {
  }

  lemma OnePublishesIff(e: State, save: TempSave, ms: seq<Json>, nows: seq<int>, kind: Kind, topic: Topic, j: Json)
    requires |nows| == |ms| == 1 && Settled(e, save)
    requires TopicOf(kind, topic) && AllUnmarked(ms, kind)
    ensures var arrivals := Stamped(e, ms, nows);
      PublishesLast(e, save, ms, nows, topic, j) <==>
        ComesOut(e.longSms, arrivals) && j == PublishedForm(e.longSms, arrivals)
  {
    var arrivals := Stamped(e, ms, nows);
    PartRead(e, save, ms[0], nows[0], kind, topic);
    OutcomesFirst(e.longSms, arrivals);
    if ComesOut(e.longSms, arrivals) {
      var form := PublishedForm(e.longSms, arrivals);
      assert (e.log + [Published(topic, form)])[|e.log|] == Published(topic, form);
      assert (e.log + [Published(topic, j)])[|e.log|] == Published(topic, j);
    }
  }

  // ---------- packets ----------

  function StampPackets(e: State, ds: seq<Decoded<Json>>, nows: seq<int>): (r: seq<Decoded<Json>>)
    requires |nows| == |ds|
    ensures |r| == |ds|
    ensures forall i :: 0 <= i < |ds| ==> r[i] == if ds[i].Ok? then Ok(Stamp(e, ds[i].value, nows[i])) else ds[i]
  {
    seq(|ds|, i requires 0 <= i < |ds| => if ds[i].Ok? then Ok(Stamp(e, ds[i].value, nows[i])) else ds[i])
  }

  /** The times at which the packets are read, in the order in which they are. */
  function InTurn(nows: seq<int>, order: seq<nat>): (r: seq<int>)
    requires Permutation(order, |nows|)
    ensures |r| == |nows| && forall k :: 0 <= k < |nows| ==> r[k] == nows[order[k]]
  {
    seq(|nows|, k requires 0 <= k < |nows| => nows[order[k]])
  }

  lemma StampedArrive(e: State, ds: seq<Decoded<Json>>, ids: seq<Str>, nows: seq<int>, order: seq<nat>)
    requires |ds| == |ids| == |nows| && AllOk(ds) && Permutation(order, |ds|)
    ensures AllOk(StampPackets(e, ds, nows))
    ensures Stamped(e, Arranged(Arrivals(ds, ids), order), InTurn(nows, order))
         == Arranged(Arrivals(StampPackets(e, ds, nows), ids), order)
  {
  }

  lemma StampedFaithful(e: State, t: Sent, cs: Charset.Charset, ds: seq<Decoded<Json>>, ids: seq<Str>, nows: seq<int>)
    requires t.Proper(cs) && Faithful(ds, t, cs, ids) && |nows| == |ds|
    ensures Faithful(StampPackets(e, ds, nows), t, cs, ids)
  {
    forall i | 0 <= i < t.cut.n
      ensures FaithfulAt(StampPackets(e, ds, nows)[i], t, i, ids[i],
                         Charset.Decode(cs, Segments.Pieces(t.code, t.cut)[i]))
    {
      assert FaithfulAt(ds[i], t, i, ids[i], Charset.Decode(cs, Segments.Pieces(t.code, t.cut)[i]));
    }
  }

  /** Each packet that decodes is a message of this kind in parts, without marks. */
  predicate PacketsOf(ds: seq<Decoded<Json>>, kind: Kind) {
    forall i :: 0 <= i < |ds| && ds[i].Ok? ==> Unmarked(ds[i].value, kind) && ds[i].value.longTotal.Some?
  }

  /**
    The packets all decode, and the entity, reading them in this order, publishes
    nothing until the last and then one message with this text and these ids.
   */
  ghost predicate Arrives(ds: seq<Decoded<Json>>, ids: seq<Str>, e: State, save: TempSave, nows: seq<int>,
                          order: seq<nat>, kind: Kind, topic: Topic, content: string)
    requires |ds| == |ids| == |nows| > 0 && Permutation(order, |ds|) && Settled(e, save)
  {
    AllOk(ds)
    && exists j: Json ::
         PublishesLast(e, save, Arranged(Arrivals(ds, ids), order), InTurn(nows, order), topic, j)
         && j.kind == kind && WholeMessage(j, Stamp(e, ds[0].value, nows[0]), content, ids)
  }

  /** What arrives comes out of the cache at the last packet. */
  lemma ArrivesOnlyIf(ds: seq<Decoded<Json>>, ids: seq<Str>, e: State, save: TempSave, nows: seq<int>,
                      order: seq<nat>, kind: Kind, topic: Topic, content: string)
    requires |ds| == |ids| == |nows| > 0 && Permutation(order, |ds|) && Settled(e, save)
    requires TopicOf(kind, topic) && PacketsOf(ds, kind)
    requires Arrives(ds, ids, e, save, nows, order, kind, topic, content)
    ensures AllOk(StampPackets(e, ds, nows))
    ensures ComesOut(e.longSms, Arranged(Arrivals(StampPackets(e, ds, nows), ids), order))
  {
    var ms, times := Arranged(Arrivals(ds, ids), order), InTurn(nows, order);
    var j :| PublishesLast(e, save, ms, times, topic, j);
    PublishesIff(e, save, ms, times, kind, topic, j);
    StampedArrive(e, ds, ids, nows, order);
  }

  /** What is put together is published as one message of the parts' kind. */
  lemma ReassembledArrives(t: Sent, ds: seq<Decoded<Json>>, ids: seq<Str>, e: State, save: TempSave, nows: seq<int>,
                           order: seq<nat>, kind: Kind, topic: Topic)
    requires |ds| == |ids| == |nows| > 0 && Permutation(order, |ds|) && Settled(e, save)
    requires TopicOf(kind, topic) && PacketsOf(ds, kind)
    requires Crosses(t, StampPackets(e, ds, nows), ids, e.longSms, order)
    ensures Arrives(ds, ids, e, save, nows, order, kind, topic, t.content)
  {
    var stamped := StampPackets(e, ds, nows);
    assert AllOk(ds) by {
      assert forall i :: 0 <= i < |ds| ==> (stamped[i].Ok? <==> ds[i].Ok?);
    }
    var ms, times := Arranged(Arrivals(ds, ids), order), InTurn(nows, order);
    StampedArrive(e, ds, ids, nows, order);
    var arrivals := Stamped(e, ms, times);
    assert ComesOut(e.longSms, arrivals);
    var j := PublishedForm(e.longSms, arrivals);
    PublishesIff(e, save, ms, times, kind, topic, j);
    assert Whole(Arrivals(stamped, ids))[0] == Some(Arrivals(stamped, ids)[0]);
    assert WholeMessage(j, stamped[0].value, t.content, ids);
  }

  /**
    Whatever the order of its packets and the times at which they are read, a
    long message is published, once, whole and at its last packet, if and only
    if the three conditions hold.
   */
  lemma ArrivesIff(t: Sent, cs: Charset.Charset, ds: seq<Decoded<Json>>, ids: seq<Str>, e: State, save: TempSave,
                   nows: seq<int>, order: seq<nat>, kind: Kind, topic: Topic)
    requires t.Proper(cs) && t.cut.long && Faithful(ds, t, cs, ids) && Permutation(order, t.cut.n)
    requires |nows| == |ds| && Settled(e, save)
    requires TopicOf(kind, topic) && PacketsOf(ds, kind)
    ensures Arrives(ds, ids, e, save, nows, order, kind, topic, t.content)
       <==> t.cut.n <= 255 && CutsBetweenChars(cs, t.content, t.cut.n)
            && !Stale(e.longSms, t.key, t.cut.n, order[t.cut.n - 1])
  {
    var stamped := StampPackets(e, ds, nows);
    StampedFaithful(e, t, cs, ds, ids, nows);
    CrossesIff(t, cs, stamped, ids, e.longSms, order);
    if Arrives(ds, ids, e, save, nows, order, kind, topic, t.content) {
      ArrivesOnlyIf(ds, ids, e, save, nows, order, kind, topic, t.content);
      ComesOutOnlyIf(t, cs, stamped, ids, e.longSms, order);
    }
    if Crosses(t, stamped, ids, e.longSms, order) {
      ReassembledArrives(t, ds, ids, e, save, nows, order, kind, topic);
    }
  }

  /** Packets that all look like the same part are never published as this message. */
  lemma SameSlotNeverArrives(ds: seq<Decoded<Json>>, ids: seq<Str>, e: State, save: TempSave, nows: seq<int>,
                             order: seq<nat>, kind: Kind, topic: Topic, content: string)
    requires |ds| == |ids| == |nows| >= 2 && Permutation(order, |ds|) && Settled(e, save)
    requires TopicOf(kind, topic) && PacketsOf(ds, kind)
    requires forall i :: 0 <= i < |ds| && ds[i].Ok? ==> ds[0].Ok? && SameSlot(ds[i].value, ds[0].value)
    ensures !Arrives(ds, ids, e, save, nows, order, kind, topic, content)
  {
    if Arrives(ds, ids, e, save, nows, order, kind, topic, content) {
      var stamped := StampPackets(e, ds, nows);
      ArrivesOnlyIf(ds, ids, e, save, nows, order, kind, topic, content);
      forall i | 0 <= i < |ds|
        ensures SameSlot(stamped[i].value, stamped[0].value)
      {
        assert SameSlot(ds[i].value, ds[0].value);
      }
      SameSlotNeverComesOut(stamped, ids, e.longSms, order);
    }
  }
}
