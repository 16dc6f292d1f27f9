/**
  Counting where the copies of one message are. A submit is known by its list
  of message ids, an uplink message or report by its one message id; of the
  entries stored for a submit's parts only the first, which may be sent again,
  is a copy of it.
 */
module Counting {
  import opened Wrappers
  import opened Messages
  import opened Entity
  import opened EntitySteps
  import opened Dispatch
  import opened Handoff
  import Receipts

  /** What a message is known by on its way to a peer. */
  datatype Tag = Tag(kind: Kind, ids: seq<Str>) {
    predicate Proper() {
      Outgoing(kind) && ids != []
    }
  }

  /** The kinds an entity sends to its peers and waits for the receipt of. */
  predicate Outgoing(kind: Kind) {
    kind == Submit || kind == Deliver || kind == Report
  }

  function TagOf(m: Json): Tag {
    Tag(m.kind, if m.kind == Submit then m.msgIds else [m.msgId.GetOr([])])
  }

  function One(m: Json, u: Tag): nat {
    if TagOf(m) == u then 1 else 0
  }

  /** A stored entry that `re_send!` may send again. */
  predicate Live(m: Json) {
    m.needReSend.GetOr(true)
  }

  function OneLive(m: Json, u: Tag): nat {
    if Live(m) then One(m, u) else 0
  }

  function InSeq(ms: seq<Json>, u: Tag): nat {
    if ms == [] then 0 else One(ms[0], u) + InSeq(ms[1..], u)
  }

  lemma {:induction false} InSeqAdd(a: seq<Json>, b: seq<Json>, u: Tag)
    ensures InSeq(a + b, u) == InSeq(a, u) + InSeq(b, u)
  {
    if a == [] {
      assert a + b == b;
    } else {
      assert (a + b)[1..] == a[1..] + b;
      InSeqAdd(a[1..], b, u);
    }
  }

  lemma InSeqSnoc(a: seq<Json>, m: Json, u: Tag)
    ensures InSeq(a + [m], u) == InSeq(a, u) + One(m, u)
  {
    InSeqAdd(a, [m], u);
    assert [m][1..] == [];
  }

  function InLive(ms: seq<Json>, u: Tag): nat {
    if ms == [] then 0 else OneLive(ms[0], u) + InLive(ms[1..], u)
  }

  lemma {:induction false} InLiveAdd(a: seq<Json>, b: seq<Json>, u: Tag)
    ensures InLive(a + b, u) == InLive(a, u) + InLive(b, u)
  {
    if a == [] {
      assert a + b == b;
    } else {
      assert (a + b)[1..] == a[1..] + b;
      InLiveAdd(a[1..], b, u);
    }
  }

  lemma {:induction false} AllLive(ms: seq<Json>, u: Tag)
    requires forall i :: 0 <= i < |ms| ==> Live(ms[i])
    ensures InLive(ms, u) == InSeq(ms, u)
  {
    if ms != [] {
      AllLive(ms[1..], u);
    }
  }

  function InLink(link: Link, u: Tag): nat {
    InSeq(link.priority, u) + InSeq(link.common, u)
  }

  function InLinks(links: seq<Link>, u: Tag): nat {
    if links == [] then 0 else InLink(links[0], u) + InLinks(links[1..], u)
  }

  lemma {:induction false} InLinksAdd(a: seq<Link>, b: seq<Link>, u: Tag)
    ensures InLinks(a + b, u) == InLinks(a, u) + InLinks(b, u)
  {
    if a == [] {
      assert a + b == b;
    } else {
      assert (a + b)[1..] == a[1..] + b;
      InLinksAdd(a[1..], b, u);
    }
  }

  lemma {:induction false} InLinksUpdate(links: seq<Link>, k: nat, link: Link, u: Tag)
    requires k < |links|
    ensures InLinks(links[k := link], u) == InLinks(links, u) - InLink(links[k], u) + InLink(link, u)
  {
    if k == 0 {
      assert links[0 := link][1..] == links[1..];
    } else {
      assert links[k := link][1..] == links[1..][k - 1 := link];
      InLinksUpdate(links[1..], k - 1, link, u);
    }
  }

  lemma EnqueueCounts(link: Link, m: Json, u: Tag)
    ensures InLink(Enqueue(link, m), u) == InLink(link, u) + One(m, u)
  {
    InSeqSnoc(link.priority, m, u);
    InSeqSnoc(link.common, m, u);
  }

  function InReceipts(receipts: map<nat, Json>, u: Tag): nat {
    |KeysOf(receipts, u)|
  }

  function KeysOf(receipts: map<nat, Json>, u: Tag): set<nat> {
    set key | key in receipts && OneLive(receipts[key], u) == 1
  }

  lemma OneElement(before: set<nat>, after: set<nat>, id: nat)
    requires before - {id} == after - {id}
    ensures |after| + (if id in before then 1 else 0) == |before| + (if id in after then 1 else 0)
  {
    assert |before| == |before - {id}| + if id in before then 1 else 0;
    assert |after| == |after - {id}| + if id in after then 1 else 0;
  }

  /** Under this number there is nothing, or an entry that is no copy. */
  predicate Spare(receipts: map<nat, Json>, key: nat) {
    key in receipts ==> !Live(receipts[key])
  }

  /** The entries of one submit add one copy, in place of the one its first number may have held. */
  lemma InsertCounts(receipts: map<nat, Json>, m: Json, u: Tag)
    requires Receipts.Distinct(m.seqIds) && m.seqIds != [] && m.msgIds != []
    requires forall i :: 1 <= i < Receipts.Parts(m) ==> Spare(receipts, m.seqIds[i])
    ensures InReceipts(Insert(receipts, m), u)
            + (if m.seqIds[0] in receipts then OneLive(receipts[m.seqIds[0]], u) else 0)
         == InReceipts(receipts, u) + One(m, u)
  {
    var after, first := Insert(receipts, m), m.seqIds[0];
    Receipts.InsertedFrom(receipts, m, 0);
    assert first in after && after[first] == Copy(m, 0);
    forall key | key != first
      ensures key in KeysOf(after, u) <==> key in KeysOf(receipts, u)
    {
      OtherKeyCounts(receipts, m, key, u);
    }
    assert KeysOf(after, u) - {first} == KeysOf(receipts, u) - {first};
    OneElement(KeysOf(receipts, u), KeysOf(after, u), first);
  }

  lemma SpareNotCounted(receipts: map<nat, Json>, key: nat, u: Tag)
    requires Spare(receipts, key)
    ensures key !in KeysOf(receipts, u)
  {
  }

  lemma SameCounted(a: map<nat, Json>, b: map<nat, Json>, key: nat, u: Tag)
    requires key in a <==> key in b
    requires key in a ==> a[key] == b[key]
    ensures key in KeysOf(a, u) <==> key in KeysOf(b, u)
  {
  }

  lemma OtherKeyCounts(receipts: map<nat, Json>, m: Json, key: nat, u: Tag)
    requires Receipts.Distinct(m.seqIds) && m.seqIds != [] && m.msgIds != [] && key != m.seqIds[0]
    requires forall i :: 1 <= i < Receipts.Parts(m) ==> Spare(receipts, m.seqIds[i])
    ensures key in KeysOf(Insert(receipts, m), u) <==> key in KeysOf(receipts, u)
  {
    var after := Insert(receipts, m);
    Receipts.InsertedFrom(receipts, m, 0);
    if i :| 1 <= i < Receipts.Parts(m) && m.seqIds[i] == key {
      assert Spare(receipts, m.seqIds[i]);
      assert after[key] == Copy(m, i);
      SpareNotCounted(receipts, key, u);
      SpareNotCounted(after, key, u);
    } else {
      assert key !in m.seqIds[0..Receipts.Parts(m)];
      SameCounted(after, receipts, key, u);
    }
  }

  lemma RemoveCounts(receipts: map<nat, Json>, key: nat, u: Tag)
    requires key in receipts
    ensures InReceipts(receipts, u) == InReceipts(receipts - {key}, u) + OneLive(receipts[key], u)
  {
    var before, after := KeysOf(receipts, u), KeysOf(receipts - {key}, u);
    assert before - {key} == after - {key};
    OneElement(before, after, key);
  }

  /** What is taken out under a listing of keys is what the map held under them. */
  lemma {:induction false} TakeOutCounts(receipts: map<nat, Json>, keys: seq<nat>, due: set<nat>, u: Tag)
    requires Lists(keys, due) && due <= receipts.Keys
    ensures InReceipts(receipts, u) == InReceipts(receipts - due, u) + InLive(Sources(receipts, keys), u)
    decreases |keys|
  {
    if keys == [] {
      assert due == {};
      assert receipts - due == receipts;
    } else {
      var key, rest := keys[0], receipts - {keys[0]};
      RemoveCounts(receipts, key, u);
      ListsTail(keys, due);
      TakeOutCounts(rest, keys[1..], due - {key}, u);
      assert rest - (due - {key}) == receipts - due;
      assert Sources(receipts, keys)[1..] == Sources(rest, keys[1..]);
    }
  }

  lemma ListsTail(keys: seq<nat>, due: set<nat>)
    requires Lists(keys, due) && keys != []
    ensures Lists(keys[1..], due - {keys[0]})
  {
    forall k | k in due - {keys[0]}
      ensures k in keys[1..]
    {
      assert k in keys;
    }
  }

  function Failures(log: seq<Output>, u: Tag): nat {
    if log == [] then 0 else FailureOf(log[|log| - 1], u) + Failures(log[..|log| - 1], u)
  }

  function FailureOf(o: Output, u: Tag): nat {
    if o.Published? && o.topic == FailureTopic then One(o.msg, u) else 0
  }

  lemma FailuresSnoc(log: seq<Output>, o: Output, u: Tag)
    ensures Failures(log + [o], u) == Failures(log, u) + FailureOf(o, u)
  {
    assert (log + [o])[..|log|] == log;
  }

  lemma {:induction false} FailuresNotes(log: seq<Output>, notes: seq<Output>, u: Tag)
    requires forall k :: 0 <= k < |notes| ==> notes[k].StateChange?
    ensures Failures(log + notes, u) == Failures(log, u)
    decreases |notes|
  {
    if notes == [] {
      assert log + notes == log;
    } else {
      var front := notes[..|notes| - 1];
      FailuresNotes(log, front, u);
      FailuresSnoc(log + front, notes[|notes| - 1], u);
      assert log + notes == (log + front) + [notes[|notes| - 1]];
    }
  }

  // ---------- what sending does to the counts ----------

  /** Two sets that split the connections split the counts. */
  lemma {:induction false} DropSplits(links: seq<Link>, a: set<nat>, b: set<nat>, u: Tag)
    requires forall k :: 0 <= k < |links| ==> (links[k].id in a <==> links[k].id !in b)
    ensures InLinks(links, u) == InLinks(Drop(links, a), u) + InLinks(Drop(links, b), u)
  {
    if links != [] {
      var first, rest := links[0], links[1..];
      DropSplits(rest, a, b, u);
      assert ([first] + Drop(rest, a))[1..] == Drop(rest, a) && ([first] + Drop(rest, b))[1..] == Drop(rest, b);
      assert [] + Drop(rest, a) == Drop(rest, a) && [] + Drop(rest, b) == Drop(rest, b);
    }
  }

  lemma {:induction false} DropIds(links: seq<Link>, gone: set<nat>)
    ensures Ids(Drop(links, gone)) == Ids(links) - gone
  {
    if links != [] {
      DropIds(links[1..], gone);
      IdsCons(links);
      if links[0].id !in gone {
        IdsCons([links[0]] + Drop(links[1..], gone));
        assert ([links[0]] + Drop(links[1..], gone))[1..] == Drop(links[1..], gone);
      } else {
        assert Drop(links, gone) == Drop(links[1..], gone);
      }
    }
  }

  lemma IdsCons(links: seq<Link>)
    requires links != []
    ensures Ids(links) == {links[0].id} + Ids(links[1..])
  {
    forall i | 0 < i < |links|
      ensures links[i] == links[1..][i - 1]
    {
    }
  }

  lemma {:induction false} IntoCounts(links: seq<Link>, id: nat, m: Json, u: Tag)
    requires DistinctIds(links) && id in Ids(links)
    ensures InLinks(Into(links, id, m), u) == InLinks(links, u) + One(m, u)
  {
    var k :| 0 <= k < |links| && links[k].id == id;
    IntoAt(links, k, m);
    InLinksUpdate(links, k, Enqueue(links[k], m), u);
    EnqueueCounts(links[k], m, u);
  }

  lemma {:induction false} DropDistinct(links: seq<Link>, gone: set<nat>)
    requires DistinctIds(links)
    ensures DistinctIds(Drop(links, gone))
  {
    if links != [] {
      assert DistinctIds(links[1..]);
      DropDistinct(links[1..], gone);
      DropIds(links[1..], gone);
      var rest := Drop(links[1..], gone);
      forall k | 0 <= k < |rest|
        ensures rest[k].id != links[0].id
      {
        assert rest[k].id in Ids(rest);
      }
    }
  }

  /** The connections an entity has forgotten keep what is still in their queues. */
  function Forgotten(e: State, r: State): seq<Link> {
    Drop(e.links, Ids(r.links))
  }

  /** Copies the entity holds in its queues and receipts, or has given to the failure topic. */
  function Held(e: State, u: Tag): nat {
    InLinks(e.links, u) + InReceipts(e.receipts, u) + Failures(e.log, u)
  }

  /** Sending adds exactly one copy, to a queue or to the failure topic. */
  lemma SendCounts(e: State, m: Json, u: Tag)
    requires DistinctIds(e.links)
    ensures var r := Send(e, m); Held(r, u) + InLinks(Forgotten(e, r), u) == Held(e, u) + One(m, u)
  {
    var gone, notes := SendOnce(e, m);
    SendKeepsDistinct(e, m);
    OnceCounts(e, Send(e, m), Addressed(e, m), Target(e, m), gone, notes, u);
  }

  lemma SentCounts(e: State, r: State, m: Json, id: nat, gone: set<nat>, notes: seq<Output>, u: Tag)
    requires DistinctIds(e.links) && OnceOrFailed(e, r, m, Some(id), gone, notes) && r.receipts == e.receipts
    ensures Held(r, u) + InLinks(Forgotten(e, r), u) == Held(e, u) + One(m, u)
  {
    var left := Drop(e.links, gone);
    DropIds(e.links, gone);
    DropDistinct(e.links, gone);
    FailuresNotes(e.log, notes, u);
    UsableStays(e.links, gone, id);
    IntoCounts(left, id, m, u);
    IntoIds(left, id, m);
    SplitByIds(e.links, gone, r.links, u);
  }

  lemma FailedCounts(e: State, r: State, m: Json, gone: set<nat>, notes: seq<Output>, u: Tag)
    requires DistinctIds(e.links) && OnceOrFailed(e, r, m, None, gone, notes) && r.receipts == e.receipts
    ensures Held(r, u) + InLinks(Forgotten(e, r), u) == Held(e, u) + One(m, u)
  {
    var published, state := Published(FailureTopic, m), StateChange(StateCode(r.full, r.connNum));
    DropIds(e.links, gone);
    FailuresNotes(e.log, notes, u);
    FailuresSnoc(e.log + notes, published, u);
    FailuresSnoc(e.log + notes + [published], state, u);
    assert r.log == ((e.log + notes) + [published]) + [state];
    SplitByIds(e.links, gone, r.links, u);
  }

  lemma OnceCounts(e: State, r: State, m: Json, fate: Option<nat>, gone: set<nat>, notes: seq<Output>, u: Tag)
    requires DistinctIds(e.links) && OnceOrFailed(e, r, m, fate, gone, notes) && r.receipts == e.receipts
    ensures Held(r, u) + InLinks(Forgotten(e, r), u) == Held(e, u) + One(m, u)
  {
    match fate
    case Some(id) => SentCounts(e, r, m, id, gone, notes, u);
    case None => FailedCounts(e, r, m, gone, notes, u);
  }

  lemma UsableStays(links: seq<Link>, gone: set<nat>, id: nat)
    requires HasUsable(links, id) && id !in gone
    ensures id in Ids(Drop(links, gone))
  {
    DropIds(links, gone);
  }

  lemma IntoIds(links: seq<Link>, id: nat, m: Json)
    ensures Ids(Into(links, id, m)) == Ids(links)
  {
    assert forall k :: 0 <= k < |links| ==> Into(links, id, m)[k].id == links[k].id;
  }

  lemma SplitByIds(links: seq<Link>, gone: set<nat>, left: seq<Link>, u: Tag)
    requires Ids(left) == Ids(links) - gone
    ensures InLinks(links, u) == InLinks(Drop(links, gone), u) + InLinks(Drop(links, Ids(left)), u)
  {
    forall k | 0 <= k < |links|
      ensures links[k].id in gone <==> links[k].id !in Ids(left)
    {
      assert links[k].id in Ids(links);
    }
    DropSplits(links, gone, Ids(left), u);
  }
}
