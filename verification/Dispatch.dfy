/** What `send_to_channels` (src/entity/entity_running.rs) guarantees about where a message goes. */
module Dispatch {
  import opened Arithmetic
  import opened Wrappers
  import opened Messages
  import opened Entity

  /** The connection whose queue takes the message, if any does. */
  function Fate(e: State, m: Json, left: nat): Option<nat>
    requires DistinctIds(e.links) && left <= |e.links|
    decreases left
  {
    if left == 0 then None
    else
      match Try(e, m)
      case Taken(_) => Some(e.links[Pick(NextIndex(e.index), |e.links|)].id)
      case Onward(after) =>
        TryNext(e, m);
        Fate(after, m, left - 1)
  }

  // ---------- exactly once ----------

  /** The connections that are left once those in `gone` are forgotten. */
  function Drop(links: seq<Link>, gone: set<nat>): seq<Link> {
    if links == [] then [] else (if links[0].id in gone then [] else [links[0]]) + Drop(links[1..], gone)
  }

  /** One more message in the queue of the connection with this id. */
  function Into(links: seq<Link>, id: nat, m: Json): (r: seq<Link>)
    ensures |r| == |links|
  {
    seq(|links|, k requires 0 <= k < |links| => if links[k].id == id then Enqueue(links[k], m) else links[k])
  }

  predicate Usable(link: Link) {
    link.open && link.canWrite
  }

  /** Only connections whose task has ended are forgotten. */
  predicate OnlyEnded(links: seq<Link>, gone: set<nat>) {
    forall k :: 0 <= k < |links| && links[k].id in gone ==> links[k].canWrite && !links[k].open
  }

  predicate HasUsable(links: seq<Link>, id: nat) {
    exists k :: 0 <= k < |links| && links[k].id == id && Usable(links[k])
  }

  /** Besides possibly one note that a buffer is full. */
  predicate NoteOnly(notes: seq<Output>) {
    |notes| <= 1 && forall k :: 0 <= k < |notes| ==> notes[k].StateChange?
  }

  /** The message is in one more queue and nothing was published, or no queue has changed and one failure was. */
  predicate OnceOrFailed(e: State, r: State, m: Json, fate: Option<nat>, gone: set<nat>, notes: seq<Output>) {
    OnlyEnded(e.links, gone) && NoteOnly(notes)
    && match fate
       case Some(id) =>
         id !in gone && HasUsable(e.links, id)
         && r.links == Into(Drop(e.links, gone), id, m) && r.log == e.log + notes
       case None =>
         r.links == Drop(e.links, gone)
         && r.log == e.log + notes + [Published(FailureTopic, m), StateChange(StateCode(r.full, r.connNum))]
  }

  lemma {:induction false} DropNone(links: seq<Link>)
    ensures Drop(links, {}) == links
    decreases |links|
  {
    if links != [] {
      DropNone(links[1..]);
    }
  }

  lemma {:induction false} DropWithout(links: seq<Link>, id: nat, gone: set<nat>)
    ensures Drop(Without(links, id), gone) == Drop(links, gone + {id})
    decreases |links|
  {
    if links != [] {
      DropWithout(links[1..], id, gone);
      var rest := Without(links[1..], id);
      if links[0].id != id {
        assert ([links[0]] + rest)[1..] == rest;
      } else {
        assert Without(links, id) == rest;
        assert Drop(links, gone + {id}) == Drop(links[1..], gone + {id});
      }
    }
  }

  lemma IntoAt(links: seq<Link>, k: nat, m: Json)
    requires DistinctIds(links) && k < |links|
    ensures Into(links, links[k].id, m) == links[k := Enqueue(links[k], m)]
  {
  }

  lemma NotesAdd(log: seq<Output>, first: seq<Output>, more: seq<Output>, tail: seq<Output>)
    ensures (log + first) + more + tail == log + (first + more) + tail
  {
  }

  /** Once full, an entity notes nothing more. */
  lemma NoteFullOnce(e: State, link: Link) returns (notes: seq<Output>)
    ensures NoteOnly(notes) && NoteFull(e, link).log == e.log + notes
    ensures notes != [] ==> !e.full && NoteFull(e, link).full
    ensures notes == [] ==> NoteFull(e, link) == e
    ensures NoteFull(e, link).links == e.links && NoteFull(e, link).index == e.index
  {
    notes := NoteFull(e, link).log[|e.log|..];
  }

  lemma {:induction false} ProbeOnce(e: State, m: Json, left: nat) returns (gone: set<nat>, notes: seq<Output>)
    requires DistinctIds(e.links) && left <= |e.links|
    ensures OnceOrFailed(e, Probe(e, m, left), m, Fate(e, m, left), gone, notes)
    ensures e.full ==> Probe(e, m, left).full
    ensures notes != [] <==> !e.full && Probe(e, m, left).full
    decreases left
  {
    gone, notes := {}, [];
    DropNone(e.links);
    if left > 0 {
      var k := Pick(NextIndex(e.index), |e.links|);
      var link, moved := e.links[k], e.(index := NextIndex(e.index));
      if link.canWrite && link.open {
        notes := NoteFullOnce(moved, link);
        IntoAt(e.links, k, m);
        assert HasUsable(e.links, link.id);
      } else if link.canWrite {
        gone, notes := ProbePastEnded(e, m, left);
      } else {
        gone, notes := ProbeOnce(moved, m, left - 1);
      }
    }
  }

  /** A round that finds an ended connection. */
  lemma ForgetsOne(e: State, m: Json, left: nat) returns (k: nat, after: State, first: seq<Output>)
    requires DistinctIds(e.links) && 0 < left <= |e.links|
    requires var link := e.links[Pick(NextIndex(e.index), |e.links|)]; link.canWrite && !link.open
    ensures k < |e.links| && e.links[k].canWrite && !e.links[k].open
    ensures after.links == Removed(e.links, k) == Without(e.links, e.links[k].id) && DistinctIds(after.links)
    ensures NoteOnly(first) && after.log == e.log + first && (first != [] <==> !e.full && after.full)
    ensures e.full ==> after.full
    ensures Probe(e, m, left) == Probe(after, m, left - 1) && Fate(e, m, left) == Fate(after, m, left - 1)
  {
    k := Pick(NextIndex(e.index), |e.links|);
    after := Try(e, m).after;
    first := NoteFullOnce(e.(index := NextIndex(e.index)), e.links[k]);
    TryNext(e, m);
    WithoutOne(e.links, k);
  }

  lemma ProbePastEnded(e: State, m: Json, left: nat) returns (gone: set<nat>, notes: seq<Output>)
    requires DistinctIds(e.links) && 0 < left <= |e.links|
    requires var link := e.links[Pick(NextIndex(e.index), |e.links|)]; link.canWrite && !link.open
    ensures OnceOrFailed(e, Probe(e, m, left), m, Fate(e, m, left), gone, notes)
    ensures e.full ==> Probe(e, m, left).full
    ensures notes != [] <==> !e.full && Probe(e, m, left).full
    decreases left, 0
  {
    var k, after, first := ForgetsOne(e, m, left);
    var rest, more := ProbeOnce(after, m, left - 1);
    gone, notes := rest + {e.links[k].id}, first + more;
    PastOne(e, after, k, Probe(e, m, left), m, Fate(e, m, left), rest, first, more);
  }

  lemma PastOne(e: State, after: State, k: nat, r: State, m: Json, fate: Option<nat>, rest: set<nat>,
                first: seq<Output>, more: seq<Output>)
    requires DistinctIds(e.links) && k < |e.links| && e.links[k].canWrite && !e.links[k].open
    requires after.links == Removed(e.links, k) == Without(e.links, e.links[k].id) && after.log == e.log + first
    requires OnceOrFailed(after, r, m, fate, rest, more) && NoteOnly(first) && (first != [] ==> more == [])
    ensures OnceOrFailed(e, r, m, fate, rest + {e.links[k].id}, first + more)
  {
    PastEnded(e, after, k, m, rest);
    Prepend(e, after, r, m, fate, e.links[k].id, rest, first, more);
  }

  lemma Prepend(e: State, after: State, r: State, m: Json, fate: Option<nat>, id: nat, rest: set<nat>,
                first: seq<Output>, more: seq<Output>)
    requires OnceOrFailed(after, r, m, fate, rest, more)
    requires after.links == Without(e.links, id) && after.log == e.log + first
    requires NoteOnly(first) && (first != [] ==> more == [])
    requires OnlyEnded(e.links, rest + {id})
    requires forall i :: HasUsable(after.links, i) ==> HasUsable(e.links, i) && i != id
    ensures OnceOrFailed(e, r, m, fate, rest + {id}, first + more)
  {
    DropWithout(e.links, id, rest);
    NotesAdd(e.log, first, more, []);
    if fate.None? {
      NotesAdd(e.log, first, more, [Published(FailureTopic, m), StateChange(StateCode(r.full, r.connNum))]);
    }
  }

  lemma PastEnded(e: State, after: State, k: nat, m: Json, rest: set<nat>)
    requires DistinctIds(e.links) && k < |e.links| && after.links == Removed(e.links, k)
    requires OnlyEnded(after.links, rest) && e.links[k].canWrite && !e.links[k].open
    ensures OnlyEnded(e.links, rest + {e.links[k].id})
    ensures forall id :: HasUsable(after.links, id) ==> HasUsable(e.links, id) && id != e.links[k].id
  {
    forall j | 0 <= j < |e.links| && e.links[j].id in rest + {e.links[k].id}
      ensures e.links[j].canWrite && !e.links[j].open
    {
      if j != k {
        RemovedAt(e.links, k, if j < k then j else j - 1);
      }
    }
    forall id | HasUsable(after.links, id)
      ensures HasUsable(e.links, id) && id != e.links[k].id
    {
      UsableBefore(e.links, k, id);
    }
  }

  lemma UsableBefore(links: seq<Link>, k: nat, id: nat)
    requires DistinctIds(links) && k < |links| && HasUsable(Removed(links, k), id)
    ensures HasUsable(links, id) && id != links[k].id
  {
    var j :| 0 <= j < |links| - 1 && Removed(links, k)[j].id == id && Usable(Removed(links, k)[j]);
    RemovedAt(links, k, j);
  }

  /** Where `send_to_channels` puts a message. */
  function Target(e: State, m: Json): Option<nat>
    requires DistinctIds(e.links)
  {
    Fate(e, Addressed(e, m), |e.links|)
  }

  /**
    Every message goes to exactly one queue or to the failure topic, once, and
    never to both; a note is given exactly if that makes the entity full.
   */
  lemma SendOnce(e: State, m: Json) returns (gone: set<nat>, notes: seq<Output>)
    requires DistinctIds(e.links)
    ensures OnceOrFailed(e, Send(e, m), Addressed(e, m), Target(e, m), gone, notes)
    ensures notes != [] <==> !e.full && Send(e, m).full
  {
    gone, notes := ProbeOnce(e, Addressed(e, m), |e.links|);
  }

  // ---------- when it fails ----------

  predicate AllWritable(links: seq<Link>) {
    forall k :: 0 <= k < |links| ==> links[k].canWrite
  }

  predicate AllClosed(links: seq<Link>) {
    forall k :: 0 <= k < |links| ==> !links[k].open
  }

  /** Its task has ended, and only a message sent to it finds that out. */
  predicate Ended(link: Link) {
    link.canWrite && !link.open
  }

  predicate NoneEnded(links: seq<Link>) {
    forall k :: 0 <= k < |links| ==> !Ended(links[k])
  }

  lemma RemovedAt(links: seq<Link>, k: nat, j: nat)
    requires k < |links| && j < |links| - 1
    ensures Removed(links, k)[j] == links[if j < k then j else j + 1]
  {
  }

  lemma RemovedKeeps(links: seq<Link>, k: nat)
    requires k < |links| && AllWritable(links) && !links[k].open
    ensures AllWritable(Removed(links, k)) && (AllClosed(Removed(links, k)) <==> AllClosed(links))
  {
    var rest := Removed(links, k);
    forall j | 0 <= j < |rest|
      ensures rest[j].canWrite && (AllClosed(links) ==> !rest[j].open)
    {
      RemovedAt(links, k, j);
    }
    if AllClosed(rest) {
      forall j | 0 <= j < |links|
        ensures !links[j].open
      {
        if j != k {
          RemovedAt(links, k, if j < k then j else j - 1);
        }
      }
    }
  }

  /** With every connection writable the rounds stop at the first open one. */
  lemma {:induction false} AllWritableFate(e: State, m: Json)
    requires DistinctIds(e.links) && AllWritable(e.links)
    ensures Fate(e, m, |e.links|) == None <==> AllClosed(e.links)
    decreases |e.links|
  {
    if e.links != [] {
      var k := Pick(NextIndex(e.index), |e.links|);
      if !e.links[k].open {
        TryNext(e, m);
        RemovedKeeps(e.links, k);
        AllWritableFate(Try(e, m).after, m);
      }
    }
  }

  /** If all connections are writable, sending fails exactly if all of them are closed. */
  lemma AllWritableFailsIff(e: State, m: Json)
    requires DistinctIds(e.links) && AllWritable(e.links)
    ensures Target(e, m) == None <==> AllClosed(e.links)
  {
    AllWritableFate(e, Addressed(e, m));
  }

  /** The cursor after `i` rounds. */
  function Cursor(index: usize, i: nat): usize
    decreases i
  {
    if i == 0 then index else Cursor(NextIndex(index), i - 1)
  }

  predicate Reaches(e: State, i: nat)
    requires e.links != []
  {
    e.links[Pick(Cursor(e.index, i), |e.links|)].canWrite
  }

  lemma {:induction false} NoneClosedFate(e: State, m: Json, left: nat)
    requires DistinctIds(e.links) && left <= |e.links| && NoneEnded(e.links)
    ensures Fate(e, m, left) == None <==> forall i :: 1 <= i <= left ==> !Reaches(e, i)
    decreases left
  {
    if left > 0 {
      assert Reaches(e, 1) <==> e.links[Pick(NextIndex(e.index), |e.links|)].canWrite by {
        assert Cursor(e.index, 1) == Cursor(NextIndex(e.index), 0);
      }
      if !Reaches(e, 1) {
        TryNext(e, m);
        var after := Try(e, m).after;
        NoneClosedFate(after, m, left - 1);
        assert forall i :: 1 <= i < left ==> (Reaches(after, i) <==> Reaches(e, i + 1));
        assert forall i :: 2 <= i <= left ==> (Reaches(after, i - 1) <==> Reaches(e, i));
      }
    }
  }

  /** If no writable connection has ended, sending succeeds exactly if the cursor, wrapping or not, comes by one. */
  lemma NoneClosedFailsIff(e: State, m: Json)
    requires DistinctIds(e.links) && NoneEnded(e.links)
    ensures Target(e, m) == None <==> forall i :: 1 <= i <= |e.links| ==> !Reaches(e, i)
  {
    NoneClosedFate(e, Addressed(e, m), |e.links|);
  }

  lemma {:induction false} CursorNoWrap(index: usize, i: nat)
    requires index + i <= USIZE_MAX
    ensures Cursor(index, i) == index + i
    decreases i
  {
    if i > 0 {
      CursorNoWrap(index + 1, i - 1);
    }
  }

  /** The step, from 1 to `n`, at which a cursor that does not wrap points at connection `k`. */
  lemma StepTo(index: usize, n: nat, k: nat) returns (i: nat)
    requires k < n && index + n <= USIZE_MAX
    ensures 1 <= i <= n && Pick(Cursor(index, i), n) == k
  {
    i := NextWithRemainder(index, n, k);
    CursorNoWrap(index, i);
  }

  // ---------- what is sent ----------

  /**
    `sent` is `m` with the entity's own id, node and sp id; with its service id,
    if it has one, and else the message's; and with everything else as it was.
   */
  predicate Signed(sent: Json, e: State, m: Json) {
    && sent.entityId == Some(e.id) && sent.nodeId == Some(e.nodeId) && sent.body.spId == Some(e.spId)
    && (e.serviceId != [] ==> sent.body.serviceId == Some(e.serviceId))
    && (e.serviceId == [] ==> sent.body.serviceId == m.body.serviceId)
    && sent.(entityId := m.entityId, nodeId := m.nodeId, body := m.body) == m
    && sent.body.(spId := m.body.spId, serviceId := m.body.serviceId) == m.body
  }

  /**
    The one copy that goes into a queue, the priority queue exactly if the
    message has priority, or to the failure topic, is the message signed by the
    entity.
   */
  lemma SendsSigned(e: State, m: Json) returns (sent: Json, gone: set<nat>, notes: seq<Output>)
    requires DistinctIds(e.links)
    ensures Signed(sent, e, m) && OnlyEnded(e.links, gone) && NoteOnly(notes)
    ensures var r, left := Send(e, m), Drop(e.links, gone);
      match Target(e, m)
      case None =>
        r.links == left
        && r.log == e.log + notes + [Published(FailureTopic, sent), StateChange(StateCode(r.full, r.connNum))]
      case Some(id) =>
        HasUsable(e.links, id) && id !in gone && r.log == e.log + notes && |r.links| == |left|
        && forall k :: 0 <= k < |left| ==>
          r.links[k] == if left[k].id != id then left[k]
                        else if m.isPriority then left[k].(priority := left[k].priority + [sent])
                        else left[k].(common := left[k].common + [sent])
  {
    sent := Addressed(e, m);
    gone, notes := SendOnce(e, m);
  }

  // ---------- skipped and ended connections in one list ----------

  /** The next position round the list. */
  function NextPos(p: nat, n: nat): (q: nat)
    requires p < n
    ensures q < n
  {
    if p + 1 == n then 0 else p + 1
  }

  lemma PickNext(index: nat, n: nat)
    requires n > 0 && index < USIZE_MAX
    ensures Pick(index + 1, n) == NextPos(Pick(index, n), n)
  {
    DivModNext(index, n);
  }

  /** No connection that is skipped is followed, round the list, by one that will be forgotten. */
  predicate Safe(links: seq<Link>) {
    forall p :: 0 <= p < |links| ==> SafeAt(links, p)
  }

  predicate SafeAt(links: seq<Link>, p: nat)
    requires p < |links|
  {
    links[p].canWrite || !Ended(links[NextPos(p, |links|)])
  }

  predicate SomeUsable(links: seq<Link>) {
    exists k :: 0 <= k < |links| && Usable(links[k])
  }

  /** Forgetting an ended connection brings a writable one and its follower together. */
  lemma RemovedSafe(links: seq<Link>, k: nat)
    requires k < |links| && Safe(links) && Ended(links[k])
    ensures Safe(Removed(links, k))
    ensures SomeUsable(links) ==> SomeUsable(Removed(links, k))
  {
    forall p | 0 <= p < |links| - 1
      ensures SafeAt(Removed(links, k), p)
    {
      RemovedPairSafe(links, k, p);
    }
    if j :| 0 <= j < |links| && Usable(links[j]) {
      RemovedAt(links, k, if j < k then j else j - 1);
    }
  }

  lemma RemovedPairSafe(links: seq<Link>, k: nat, p: nat)
    requires k < |links| && p < |links| - 1 && Safe(links) && Ended(links[k])
    ensures SafeAt(Removed(links, k), p)
  {
    var n := |links|;
    var was := if p < k then p else p + 1;
    RemovedAt(links, k, p);
    RemovedAt(links, k, NextPos(p, n - 1));
    assert SafeAt(links, was);
  }

  /** The position `d` steps further round the list. */
  function Ahead(p: nat, d: nat, n: nat): (q: nat)
    requires p < n
    ensures q < n
    decreases d
  {
    if d == 0 then p else Ahead(NextPos(p, n), d - 1, n)
  }

  lemma {:induction false} PickAhead(index: nat, d: nat, n: nat)
    requires n > 0 && index + d <= USIZE_MAX
    ensures Ahead(Pick(index, n), d, n) == Pick(index + d, n)
    decreases d
  {
    if d > 0 {
      PickNext(index, n);
      PickAhead(index + 1, d - 1, n);
    }
  }

  /** A round that skips leaves everything but the cursor. */
  lemma Skips(e: State, m: Json, left: nat) returns (after: State)
    requires DistinctIds(e.links) && 0 < left <= |e.links| && e.index < USIZE_MAX
    requires !e.links[Pick(e.index + 1, |e.links|)].canWrite
    ensures after == e.(index := e.index + 1) && Fate(e, m, left) == Fate(after, m, left - 1)
  {
    after := e.(index := e.index + 1);
  }

  lemma Hits(e: State, m: Json, left: nat)
    requires DistinctIds(e.links) && 0 < left <= |e.links| && e.index < USIZE_MAX
    requires Usable(e.links[Pick(e.index + 1, |e.links|)])
    ensures Fate(e, m, left).Some?
  {
  }

  /** After a skip in a safe list nothing is forgotten before the cursor comes to a usable connection `d` steps on. */
  lemma {:induction false} AfterSkip(e: State, m: Json, left: nat, d: nat, pos: nat)
    requires DistinctIds(e.links) && Safe(e.links) && 1 <= d <= left <= |e.links| && e.index + left <= USIZE_MAX
    requires pos == Pick(e.index, |e.links|) && !e.links[pos].canWrite && Usable(e.links[Ahead(pos, d, |e.links|)])
    ensures Fate(e, m, left).Some?
    decreases left
  {
    var next := NextPos(pos, |e.links|);
    PickNext(e.index, |e.links|);
    assert SafeAt(e.links, pos);
    if e.links[next].canWrite {
      Hits(e, m, left);
    } else {
      var after := Skips(e, m, left);
      AfterSkip(after, m, left - 1, d - 1, next);
    }
  }

  /** A safe list whose first round skips. */
  lemma SkipFirst(e: State, m: Json)
    requires DistinctIds(e.links) && Safe(e.links) && SomeUsable(e.links) && e.index + |e.links| <= USIZE_MAX
    requires !e.links[Pick(NextIndex(e.index), |e.links|)].canWrite
    ensures Fate(e, m, |e.links|).Some?
  {
    var after := Skips(e, m, |e.links|);
    var d := StepsAhead(e.links, e.index);
    AfterSkip(after, m, |e.links| - 1, d, Pick(e.index + 1, |e.links|));
  }

  /** A usable connection is fewer than `n` steps ahead of the one the cursor comes to next. */
  lemma StepsAhead(links: seq<Link>, index: nat) returns (d: nat)
    requires links != [] && SomeUsable(links) && index + |links| <= USIZE_MAX
    requires !Usable(links[Pick(index + 1, |links|)])
    ensures 1 <= d < |links| && Usable(links[Ahead(Pick(index + 1, |links|), d, |links|)])
  {
    var n := |links|;
    var g :| 0 <= g < n && Usable(links[g]);
    var i := StepTo(index, n, g);
    CursorNoWrap(index, i);
    assert i > 1;
    d := i - 1;
    PickAhead(index + 1, d, n);
  }

  /** A round that finds a connection ended takes it out of the list. */
  lemma Forgets(e: State, m: Json, left: nat) returns (after: State)
    requires DistinctIds(e.links) && 0 < left <= |e.links| && e.index < USIZE_MAX
    requires Ended(e.links[Pick(e.index + 1, |e.links|)])
    ensures after.links == Removed(e.links, Pick(e.index + 1, |e.links|)) && after.index == e.index + 1
    ensures DistinctIds(after.links) && Fate(e, m, left) == Fate(after, m, left - 1)
  {
    TryNext(e, m);
    after := Try(e, m).after;
  }

  /** A safe list whose first round forgets is safe afterwards. */
  lemma ForgetsSafe(e: State, m: Json) returns (after: State)
    requires DistinctIds(e.links) && Safe(e.links) && SomeUsable(e.links) && e.index + |e.links| <= USIZE_MAX
    requires Ended(e.links[Pick(e.index + 1, |e.links|)])
    ensures DistinctIds(after.links) && Safe(after.links) && SomeUsable(after.links)
    ensures |after.links| == |e.links| - 1 && after.index == e.index + 1
    ensures Fate(e, m, |e.links|) == Fate(after, m, |after.links|)
  {
    RemovedSafe(e.links, Pick(e.index + 1, |e.links|));
    after := Forgets(e, m, |e.links|);
  }

  lemma {:induction false} SafeFate(e: State, m: Json)
    requires DistinctIds(e.links) && Safe(e.links) && SomeUsable(e.links) && e.index + |e.links| <= USIZE_MAX
    ensures Fate(e, m, |e.links|).Some?
    decreases |e.links|
  {
    var link := e.links[Pick(e.index + 1, |e.links|)];
    if Ended(link) {
      var after := ForgetsSafe(e, m);
      SafeFate(after, m);
    } else if link.canWrite {
      Hits(e, m, |e.links|);
    } else {
      SkipFirst(e, m);
    }
  }

  /**
    Without a wrap, and with no skipped connection followed round the list by
    an ended one, sending succeeds exactly if some connection is usable.
   */
  lemma SafeSucceedsIff(e: State, m: Json)
    requires DistinctIds(e.links) && Safe(e.links) && e.index + |e.links| <= USIZE_MAX
    ensures Target(e, m).Some? <==> SomeUsable(e.links)
  {
    var _, _ := SendOnce(e, m);
    if SomeUsable(e.links) {
      SafeFate(e, Addressed(e, m));
    }
  }

  // ---------- any list ----------

  /** The connection a cursor at `x` points at. */
  function At(links: seq<Link>, x: nat): Link
    requires links != []
  {
    links[x % |links|]
  }

  /** The next `d` connections round the list are all skipped. */
  predicate AllSkipped(links: seq<Link>, index: nat, d: nat)
    requires links != []
  {
    forall x :: index < x <= index + d ==> !At(links, x).canWrite
  }

  /** After `d` skipped ones comes one that has ended. */
  predicate EndedAfter(links: seq<Link>, index: nat, d: nat)
    requires links != []
  {
    AllSkipped(links, index, d) && Ended(At(links, index + d + 1))
  }

  /**
    The rounds that are left look only at connections that are skipped or have
    ended, the list being one shorter after each of the latter.
   */
  ghost predicate Misses(links: seq<Link>, index: nat, left: nat)
    requires left <= |links|
    decreases |links|
  {
    left == 0 || AllSkipped(links, index, left) || exists d :: 0 <= d < left && MissesAfter(links, index, left, d)
  }

  ghost predicate MissesAfter(links: seq<Link>, index: nat, left: nat, d: nat)
    requires d < left <= |links|
    decreases |links|, 0
  {
    EndedAfter(links, index, d)
    && Misses(Removed(links, (index + d + 1) % |links|), index + d + 1, left - d - 1)
  }

  lemma SkippedOne(links: seq<Link>, index: nat, d: nat)
    requires links != [] && !At(links, index + 1).canWrite
    ensures AllSkipped(links, index, d + 1) <==> AllSkipped(links, index + 1, d)
  {
  }

  lemma MissesAfterSkip(links: seq<Link>, index: nat, left: nat, d: nat)
    requires d + 1 < left <= |links| && !At(links, index + 1).canWrite
    ensures MissesAfter(links, index, left, d + 1) <==> MissesAfter(links, index + 1, left - 1, d)
  {
    SkippedOne(links, index, d);
    assert index + (d + 1) + 1 == (index + 1) + d + 1;
  }

  lemma MissesSkipped(links: seq<Link>, index: nat, left: nat, next: nat, rest: nat)
    requires 0 < left <= |links| && !At(links, index + 1).canWrite && next == index + 1 && rest == left - 1
    ensures Misses(links, index, left) <==> Misses(links, next, rest)
  {
    SkippedOne(links, index, rest);
    if d :| 0 <= d < left && MissesAfter(links, index, left, d) {
      assert d > 0;
      MissesAfterSkip(links, index, left, d - 1);
    }
    if d :| 0 <= d < rest && MissesAfter(links, next, rest, d) {
      MissesAfterSkip(links, index, left, d);
    }
  }

  /** A writable connection is not skipped: it is passed by exactly if it has ended and so are those after it. */
  lemma MissesWritable(links: seq<Link>, index: nat, left: nat)
    requires 0 < left <= |links| && At(links, index + 1).canWrite
    ensures Misses(links, index, left) <==>
      Ended(At(links, index + 1)) && Misses(Removed(links, (index + 1) % |links|), index + 1, left - 1)
  {
    if d :| 0 <= d < left && MissesAfter(links, index, left, d) {
      assert d == 0;
    }
    assert MissesAfter(links, index, left, 0) <==>
      Ended(At(links, index + 1)) && Misses(Removed(links, (index + 1) % |links|), index + 1, left - 1);
  }

  /** The list after a round that does not send. */
  function Passed(links: seq<Link>, x: nat): (r: seq<Link>)
    requires links != []
    ensures |links| - 1 <= |r|
  {
    if At(links, x).canWrite then Removed(links, x % |links|) else links
  }

  lemma PassesOne(e: State, m: Json, left: nat) returns (after: State)
    requires DistinctIds(e.links) && 0 < left <= |e.links| && e.index + left <= USIZE_MAX
    requires !Usable(At(e.links, e.index + 1))
    ensures after.links == Passed(e.links, e.index + 1) && after.index == e.index + 1
    ensures DistinctIds(after.links) && Fate(e, m, left) == Fate(after, m, left - 1)
  {
    if At(e.links, e.index + 1).canWrite {
      after := Forgets(e, m, left);
    } else {
      after := Skips(e, m, left);
    }
  }

  lemma MissesPassed(links: seq<Link>, index: nat, left: nat)
    requires 0 < left <= |links| && !Usable(At(links, index + 1))
    ensures Misses(links, index, left) <==> Misses(Passed(links, index + 1), index + 1, left - 1)
  {
    if At(links, index + 1).canWrite {
      MissesWritable(links, index, left);
    } else {
      MissesSkipped(links, index, left, index + 1, left - 1);
    }
  }

  lemma HitsNotMisses(e: State, m: Json, left: nat)
    requires DistinctIds(e.links) && 0 < left <= |e.links| && e.index + left <= USIZE_MAX
    requires Usable(At(e.links, e.index + 1))
    ensures Fate(e, m, left).Some? && !Misses(e.links, e.index, left)
  {
    Hits(e, m, left);
    MissesWritable(e.links, e.index, left);
  }

  lemma {:induction false} FateMisses(e: State, m: Json, left: nat)
    requires DistinctIds(e.links) && left <= |e.links| && e.index + left <= USIZE_MAX
    ensures Fate(e, m, left) == None <==> Misses(e.links, e.index, left)
    decreases left
  {
    if left == 0 {
      NoRounds(e, m);
    } else if Usable(At(e.links, e.index + 1)) {
      HitsNotMisses(e, m, left);
    } else {
      var after := PassesOne(e, m, left);
      FateMisses(after, m, left - 1);
      MissesPassed(e.links, e.index, left);
    }
  }

  lemma NoRounds(e: State, m: Json)
    requires DistinctIds(e.links)
    ensures Fate(e, m, 0) == None && Misses(e.links, e.index, 0)
  {
  }

  /** For any list, without a wrap: sending fails exactly if the rounds pass by every usable connection. */
  lemma FailsIffMisses(e: State, m: Json)
    requires DistinctIds(e.links) && e.index + |e.links| <= USIZE_MAX
    ensures Target(e, m) == None <==> Misses(e.links, e.index, |e.links|)
  {
    FateMisses(e, Addressed(e, m), |e.links|);
  }

  /** One usable connection, and one ended one, which follows a skipped one. */
  predicate OneTrap(links: seq<Link>, p: nat, g: nat) {
    p < |links| && g < |links| && !links[p].canWrite && Ended(links[NextPos(p, |links|)])
    && (forall k :: 0 <= k < |links| && k != NextPos(p, |links|) ==> !Ended(links[k]))
    && (forall k :: 0 <= k < |links| ==> (Usable(links[k]) <==> k == g))
  }

  /** The cursor that walks into the trap: skip, forget, and all but the usable one of those left. */
  lemma TrapCursor(n: nat, p: nat, g: nat) returns (y: nat)
    requires 3 <= n <= 0x1000_0000 && p < n && g < n - 1
    ensures 2 <= y && y + n <= USIZE_MAX
    ensures Pick(y - 1, n) == p && Pick(y, n - 1) == g
  {
    var d := n - 1;
    var q, t := Split(g + 2 * d - (p + 1), d);
    var k := t + d;
    y := p + 1 + k * n;
    TimesBelow(k, n);
    DivModUnique(y - 1, n, k, p);
    Regroup(y, d, k, p, q, t, g);
  }

  lemma TimesBelow(k: nat, n: nat)
    requires 1 <= k <= 0x2000_0000 && n <= 0x1000_0000
    ensures n <= k * n <= 0x200_0000_0000_0000
  {
    MulMonotone(n, 1, k);
    MulMonotone(n, k, 0x2000_0000);
  }

  lemma Regroup(y: nat, d: nat, k: nat, p: nat, q: nat, t: nat, g: nat)
    requires d >= 2 && p <= d && g < d && k == t + d && y == p + 1 + k * (d + 1)
    requires g + 2 * d - (p + 1) == q * d + t
    ensures y % d == g
  {
    var c := k + 3 - q;
    assert k * (d + 1) == k * d + k;
    assert c * d == k * d + 3 * d - q * d;
    assert q <= 3 by {
      if q >= 4 {
        MulMonotone(d, 4, q);
      }
    }
    DivModUnique(y, d, c, g);
  }

  lemma NotBackYet(y: nat, i: nat, n: nat)
    requires 0 < i < n
    ensures (y + i) % n != y % n
  {
    var q, r := Split(y, n);
    if r + i < n {
      DivModUnique(y + i, n, q, r + i);
    } else {
      assert (q + 1) * n == q * n + n;
      DivModUnique(y + i, n, q + 1, r + i - n);
    }
  }

  /** No task has ended, and only this connection may be written to. */
  predicate OnlyOne(links: seq<Link>, g: nat) {
    g < |links| && NoneEnded(links) && forall k :: 0 <= k < |links| && k != g ==> !links[k].canWrite
  }

  /** With the trap's ended connection gone the rounds left over are one too few. */
  lemma AllButOne(e: State, x: Json, g: nat)
    requires DistinctIds(e.links) && OnlyOne(e.links, g) && e.index + |e.links| <= USIZE_MAX
    requires Pick(e.index, |e.links|) == g
    ensures Fate(e, x, |e.links| - 1) == None
  {
    NoneClosedFate(e, x, |e.links| - 1);
    forall i | 1 <= i <= |e.links| - 1
      ensures !Reaches(e, i)
    {
      CursorNoWrap(e.index, i);
      NotBackYet(e.index, i, |e.links|);
    }
  }

  lemma TrapLeft(links: seq<Link>, p: nat, g: nat) returns (left: nat)
    requires OneTrap(links, p, g)
    ensures |links| >= 3 && OnlyOne(Removed(links, NextPos(p, |links|)), left)
  {
    var e := NextPos(p, |links|);
    left := if g < e then g else g - 1;
    forall k | 0 <= k < |links| - 1
      ensures !Ended(Removed(links, e)[k]) && (k != left ==> !Removed(links, e)[k].canWrite)
    {
      RemovedAt(links, e, k);
    }
  }

  /** Forgetting the ended connection moves the cursor on to the only usable one, which is then passed. */
  lemma ForgetsAndPasses(e: State, x: Json, k: nat, left: nat)
    requires DistinctIds(e.links) && |e.links| > 1 && e.index + |e.links| + 1 <= USIZE_MAX
    requires k == Pick(e.index + 1, |e.links|) && Ended(e.links[k]) && OnlyOne(Removed(e.links, k), left)
    requires Pick(e.index + 1, |e.links| - 1) == left
    ensures Fate(e, x, |e.links| - 1) == None
  {
    var forgot := Forgets(e, x, |e.links| - 1);
    AllButOne(forgot, x, left);
  }

  /** From the trap's cursor: skip, forget, and one round too few. */
  lemma WalksPast(e: State, x: Json, p: nat, left: nat)
    requires DistinctIds(e.links) && |e.links| > 1 && e.index + |e.links| + 2 <= USIZE_MAX
    requires p < |e.links| && !e.links[p].canWrite && Ended(e.links[NextPos(p, |e.links|)])
    requires OnlyOne(Removed(e.links, NextPos(p, |e.links|)), left)
    requires Pick(e.index + 1, |e.links|) == p && Pick(e.index + 2, |e.links| - 1) == left
    ensures Fate(e, x, |e.links|) == None
  {
    PickNext(e.index + 1, |e.links|);
    var skipped := Skips(e, x, |e.links|);
    ForgetsAndPasses(skipped, x, NextPos(p, |e.links|), left);
  }

  /**
    The condition of `SafeSucceedsIff` is needed: whenever the only ended
    connection follows a skipped one and only one is usable, some cursor far
    from wrapping misses it.
   */
  lemma TrapMisses(e: State, m: Json, p: nat, g: nat) returns (index: usize)
    requires DistinctIds(e.links) && OneTrap(e.links, p, g) && |e.links| <= 0x1000_0000
    ensures index + |e.links| <= USIZE_MAX && Target(e.(index := index), m) == None
  {
    var left := TrapLeft(e.links, p, g);
    var y := TrapCursor(|e.links|, p, left);
    index := y - 2;
    WalksPast(e.(index := index), Addressed(e.(index := index), m), p, left);
  }

  const IDLE: State := State(Custom, 0, [], [], 0, 0, [], map[], map[], 0, 0, 0, false, [])

  /** When the cursor wraps it can jump over the only writable connection. */
  lemma WrapCanMiss(m: Json)
    ensures var links := [Link(0, false, true, [], []), Link(1, true, true, [], []), Link(2, false, true, [], [])];
      Target(IDLE.(links := links, index := USIZE_MAX - 1), m) == None
  {
    var e := IDLE.(links := [Link(0, false, true, [], []), Link(1, true, true, [], []), Link(2, false, true, [], [])],
                   index := USIZE_MAX - 1);
    assert USIZE_MAX % 3 == 0;
    NoneClosedFailsIff(e, m);
    assert Cursor(e.index, 1) == Cursor(USIZE_MAX, 0);
    assert Cursor(e.index, 2) == Cursor(USIZE_MAX, 1) == Cursor(2, 0);
    assert Cursor(e.index, 3) == Cursor(USIZE_MAX, 2) == Cursor(2, 1) == Cursor(3, 0);
  }

  const SKIPPED: Link := Link(0, false, true, [], [])
  const ENDED: Link := Link(1, true, false, [], [])
  const GOOD: Link := Link(2, true, true, [], [])

  /** A skipped connection followed by a forgotten one can shift an open, writable one out of the cursor's way. */
  lemma ForgettingCanMiss(m: Json)
    ensures Target(IDLE.(links := [SKIPPED, ENDED, GOOD], index := 5), m) == None
  {
    var e := IDLE.(links := [SKIPPED, ENDED, GOOD], index := 5);
    SkipThenForget(e, Addressed(e, m));
  }

  lemma SkipThenForget(e: State, x: Json)
    requires e == IDLE.(links := [SKIPPED, ENDED, GOOD], index := 5)
    ensures Fate(e, x, 3) == None
  {
    var e1 := e.(index := 6);
    TryNext(e, x);
    assert Try(e, x) == Onward(e1);
    var e2 := Try(e1, x).after;
    TryNext(e1, x);
    assert e2.links == [SKIPPED, GOOD] && e2.index == 7;
    TryNext(e2, x);
    assert Fate(e2, x, 1) == None;
  }

  // ---------- round robin ----------

  function SendAll(e: State, ms: seq<Json>): State
    requires DistinctIds(e.links) && AllUsable(e.links)
    ensures DistinctIds(SendAll(e, ms).links) && AllUsable(SendAll(e, ms).links)
    decreases |ms|
  {
    if ms == [] then e
    else
      var before := SendAll(e, ms[..|ms| - 1]);
      SendToNext(before, ms[|ms| - 1]);
      Send(before, ms[|ms| - 1])
  }

  predicate AllUsable(links: seq<Link>) {
    forall k :: 0 <= k < |links| ==> Usable(links[k])
  }

  /** With all connections usable the message goes to the one the cursor moves to. */
  lemma SendToNext(e: State, m: Json)
    requires DistinctIds(e.links) && AllUsable(e.links)
    ensures e.links != [] ==>
      var k := Pick(NextIndex(e.index), |e.links|);
      Send(e, m).links == e.links[k := Enqueue(e.links[k], Addressed(e, m))] && Send(e, m).index == NextIndex(e.index)
    ensures DistinctIds(Send(e, m).links) && AllUsable(Send(e, m).links)
  {
    if e.links != [] {
      var k := Pick(NextIndex(e.index), |e.links|);
      assert Usable(e.links[k]);
    }
  }

  /** How many of the numbers up to `x` leave the remainder `k`. */
  function Turns(x: nat, n: nat, k: nat): nat
    requires k < n
  {
    QuotientNat(x + n - k, n);
    (x + n - k) / n
  }

  lemma NextTurn(x: nat, n: nat, k: nat)
    requires k < n
    ensures Turns(x + 1, n, k) == Turns(x, n, k) + if (x + 1) % n == k then 1 else 0
  {
    DivModNext(x + n - k, n);
    ModAddBack(x + 1, n, k);
  }

  /** Any stretch of `c` numbers holds the remainder `k` between floor(c/n) and ceil(c/n) times. */
  lemma EvenTurns(x: nat, c: nat, n: nat, k: nat)
    requires k < n
    ensures Floor(c, n) <= Turns(x + c, n, k) - Turns(x, n, k) <= Ceiling(c, n)
  {
    var q, r := Split(x + n - k, n);
    var p, s := Split(c, n);
    DivSum(q, r, p, s, n);
    CeilOf(p, s, n);
  }

  /** After these messages the cursor is that far on, and connection `k` has had its turns. */
  predicate TurnsTaken(e: State, r: State, sent: nat, k: nat, n: nat) {
    k < n == |e.links| == |r.links| && r.index == e.index + sent
    && r.links[k].Queued() == e.links[k].Queued() + Turns(e.index + sent, n, k) - Turns(e.index, n, k)
  }

  lemma OneSent(e: State, m: Json, k: nat, n: nat)
    requires DistinctIds(e.links) && AllUsable(e.links) && k < n == |e.links| && e.index < USIZE_MAX
    ensures TurnsTaken(e, Send(e, m), 1, k, n)
  {
    SendToNext(e, m);
    NextTurn(e.index, n, k);
  }

  lemma OneMore(e: State, ms: seq<Json>, k: nat, n: nat) returns (before: State)
    requires DistinctIds(e.links) && AllUsable(e.links) && ms != []
    ensures before == SendAll(e, ms[..|ms| - 1])
    ensures k < n == |before.links| && before.index < USIZE_MAX ==> TurnsTaken(before, SendAll(e, ms), 1, k, n)
  {
    before := SendAll(e, ms[..|ms| - 1]);
    if k < n == |before.links| && before.index < USIZE_MAX {
      OneSent(before, ms[|ms| - 1], k, n);
    }
  }

  lemma TurnsAdd(e: State, before: State, r: State, sent: nat, k: nat, n: nat)
    requires TurnsTaken(e, before, sent, k, n) && TurnsTaken(before, r, 1, k, n)
    ensures TurnsTaken(e, r, sent + 1, k, n)
  {
  }

  lemma {:induction false} SentSoFar(e: State, ms: seq<Json>, k: nat, n: nat)
    requires DistinctIds(e.links) && AllUsable(e.links) && k < n == |e.links| && e.index + |ms| <= USIZE_MAX
    ensures TurnsTaken(e, SendAll(e, ms), |ms|, k, n)
    decreases |ms|
  {
    if ms != [] {
      SentSoFar(e, ms[..|ms| - 1], k, n);
      var before := OneMore(e, ms, k, n);
      TurnsAdd(e, before, SendAll(e, ms), |ms| - 1, k, n);
    }
  }

  lemma Between(gained: int, x: nat, c: nat, n: nat, k: nat)
    requires k < n && gained == Turns(x + c, n, k) - Turns(x, n, k)
    ensures Floor(c, n) <= gained <= Ceiling(c, n)
  {
    EvenTurns(x, c, n, k);
  }

  /** After any `c` messages over `n` unchanged connections each has been given floor(c/n) or ceil(c/n) of them. */
  lemma RoundRobinFair(e: State, ms: seq<Json>, k: nat, n: nat)
    requires DistinctIds(e.links) && AllUsable(e.links) && k < n == |e.links| && e.index + |ms| <= USIZE_MAX
    ensures |SendAll(e, ms).links| == n
    ensures Floor(|ms|, n) <= SendAll(e, ms).links[k].Queued() - e.links[k].Queued() <= Ceiling(|ms|, n)
  {
    SentSoFar(e, ms, k, n);
    Between(SendAll(e, ms).links[k].Queued() - e.links[k].Queued(), e.index, |ms|, n, k);
  }
}
