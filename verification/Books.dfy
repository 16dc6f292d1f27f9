/**
  What the records of a run mean: which entries were there, which step took
  them out, and what each step adds to what has failed, was lost, was dropped,
  was answered or has expired (src/entity/channel.rs, src/entity/entity_running.rs).
 */
module Books {
  import opened Wrappers
  import opened Messages
  import opened Entity
  import opened EntitySteps
  import opened Counting
  import opened EntityCounts
  import opened Gateway
  import opened GatewayInvariant
  import opened Causality
  import Channel
  import Receipts

  /** How an entry can leave the receipt map. */
  datatype Cause = Answer | TimeOver | Expiry

  predicate ByStep(s: Gateway.Step, c: Cause) {
    match c
    case Answer => s.Handle?
    case TimeOver => s.Resend?
    case Expiry => s.Expire?
  }

  function Book(g: System, c: Cause): set<nat> {
    match c
    case Answer => g.answeredNos
    case TimeOver => g.resentNos
    case Expiry => g.expiredNos
  }

  predicate TakesOut(g: System, s: Gateway.Step, key: nat)
    requires DistinctIds(g.e.links) && Enabled(g, s)
  {
    key in g.e.receipts && key !in Next(g, s).e.receipts
  }

  /** Some step of the run of this kind took the entry out. */
  predicate TakenBy(g: System, steps: seq<Gateway.Step>, key: nat, c: Cause)
    requires Legal(g, steps)
    decreases |steps|
  {
    steps != []
    && ((ByStep(steps[0], c) && TakesOut(g, steps[0], key)) || TakenBy(Next(g, steps[0]), steps[1..], key, c))
  }

  /** At some point of the run there was an entry. */
  predicate WasThere(g: System, steps: seq<Gateway.Step>, key: nat)
    requires Legal(g, steps)
    decreases |steps|
  {
    key in g.e.receipts || (steps != [] && WasThere(Next(g, steps[0]), steps[1..], key))
  }

  predicate SameBooks(g: System, h: System) {
    h.answeredNos == g.answeredNos && h.resentNos == g.resentNos && h.expiredNos == g.expiredNos
    && h.stored == g.stored
  }

  /** What these steps add to the five records. */
  datatype Ends = Ends(failed: seq<Json>, lost: seq<Json>, dropped: seq<Json>, answered: seq<Json>, expired: seq<Json>)

  const NONE := Ends([], [], [], [], [])

  predicate Adds(g: System, h: System, ends: Ends) {
    h.failed == g.failed + ends.failed && h.lost == g.lost + ends.lost && h.dropped == g.dropped + ends.dropped
    && h.answered == g.answered + ends.answered && h.expired == g.expired + ends.expired
  }

  function EndsOf(act: Channel.Act): Ends {
    match act
    case WriteFailed(m) => NONE.(failed := [m])
    case Lost(m) => NONE.(lost := [m])
    case Unrecorded(m) => NONE.(lost := [m])
    case _ => NONE
  }

  /** The books are as they were, and this has been added to the records. */
  predicate Noted(g: System, h: System, ends: Ends) {
    SameBooks(g, h) && Adds(g, h, ends)
  }

  lemma SetLinkNotes(g: System, p: Place, link: Link)
    requires HasPlace(g, p)
    ensures Noted(g, SetLink(g, p, link), NONE)
  {
  }

  lemma SentNotes(g: System, id: nat, m: Json) returns (h: System)
    requires id in g.chans
    ensures h == Apply(g, id, Channel.Sent(m)) && Noted(g, h, NONE)
  {
    h := g.(chans := g.chans[id := g.chans[id].(hand := Some(m))]);
    if Outgoing(m.kind) && Receipts.Distinct(m.seqIds) {
      h := h.(issued := IssueAll(g.issued, m.seqIds, TagOf(m), id));
    }
  }

  lemma ApplyNotes(g: System, id: nat, act: Channel.Act) returns (h: System)
    requires id in g.chans
    ensures h == Apply(g, id, act) && Noted(g, h, EndsOf(act))
  {
    if act.Sent? {
      h := SentNotes(g, id, act.m);
    } else {
      h := Apply(g, id, act);
    }
  }

  lemma ReturnsNotes(g: System, h: System, id: nat, w: Channel.Window, ends: Ends)
    requires Noted(g, h, ends)
    ensures Noted(g, Returns(h, id, w), ends)
  {
  }

  lemma NotedNext(g: System, h: System, k: System, ends: Ends)
    requires Noted(g, h, NONE) && Noted(h, k, ends)
    ensures Noted(g, k, ends)
  {
  }

  lemma TakeNotes(g: System, p: Place, w: Channel.Window, drawn: Option<Drawn>, written: bool)
    returns (act: Channel.Act)
    requires Enabled(g, Take(p, w, drawn, written))
    ensures var link := LinkAt(g, p);
      Channel.Take(w, First(link), link.priority != [], Encoded(First(link), drawn), written, !g.ended).1 == [act]
    ensures Noted(g, TakeStep(g, p, w, drawn, written), EndsOf(act))
  {
    var link := LinkAt(g, p);
    var h := SetLink(g, p, Rest(link));
    var after;
    after, act := TakeArm(w, First(link), link.priority != [], Encoded(First(link), drawn), written, !g.ended);
    SetLinkNotes(g, p, Rest(link));
    var k := ApplyNotes(h, link.id, act);
    ReturnsNotes(h, k, link.id, after, EndsOf(act));
    NotedNext(g, h, Returns(k, link.id, after), EndsOf(act));
  }

  lemma TakeArm(w: Channel.Window, m: Json, priority: bool, encoded: Option<Json>, written: bool, handed: bool)
    returns (after: Channel.Window, act: Channel.Act)
    ensures Channel.Take(w, m, priority, encoded, written, handed) == (after, [act])
  {
    after := Channel.Take(w, m, priority, encoded, written, handed).0;
    act := Channel.Take(w, m, priority, encoded, written, handed).1[0];
  }

  lemma OtherBooks(g: System, s: Gateway.Step)
    requires DistinctIds(g.e.links) && Enabled(g, s) && !s.Handle? && !s.Resend? && !s.Expire?
    ensures SameBooks(g, Next(g, s))
  {
    if s.Take? {
      var _ := TakeNotes(g, s.p, s.w, s.drawn, s.written);
    } else if s.Clear? || s.Exit? {
      SetLinkNotes(g, s.p, Emptied(LinkAt(g, s.p)));
    }
  }

  lemma ResendBooks(g: System, now: int, keys: seq<nat>)
    requires DistinctIds(g.e.links) && Enabled(g, Resend(now, keys))
    ensures var h := ResendStep(g, now, keys);
      h.resentNos == g.resentNos + (g.e.receipts.Keys - h.e.receipts.Keys)
  {
    var due := DueKeys(g.e.receipts, now);
    SendEachReceipts(g.e.(receipts := g.e.receipts - due), Sources(g.e.receipts, keys));
  }

  /** A step enters into its own book what it takes out, and nothing else into any. */
  lemma StepBooks(g: System, s: Gateway.Step, key: nat, c: Cause)
    requires DistinctIds(g.e.links) && Enabled(g, s)
    ensures key in Book(Next(g, s), c) <==> key in Book(g, c) || (ByStep(s, c) && TakesOut(g, s, key))
  {
    if s.Resend? {
      ResendBooks(g, s.now, s.keys);
    } else if !s.Handle? && !s.Expire? {
      OtherBooks(g, s);
    }
  }

  /** What is entered as stored is stored. */
  lemma HandleStores(g: System, now: int, key: nat)
    requires WellFormed(g) && g.mailbox != []
    ensures key in HandleStep(g, now).stored ==> key in g.stored || key in HandleStep(g, now).e.receipts
  {
    var m := g.mailbox[0].m;
    assert TrackedMail(g.issued, m);
    if Outgoing(m.kind) && m.waitReceipt {
      var x := Received(g.e, m, now);
      Branches(g.e, g.save, m, now);
      if m.kind == Submit {
        Receipts.InsertedFrom(g.e.receipts, x, 0);
        assert Receipts.OwnKeys(x) == Receipts.OwnKeys(m);
      }
    }
  }

  lemma StepStores(g: System, s: Gateway.Step, key: nat)
    requires WellFormed(g) && Enabled(g, s)
    ensures key in Next(g, s).stored ==> key in g.stored || key in Next(g, s).e.receipts
  {
    if s.Handle? {
      HandleStores(g, s.now, key);
    } else if !s.Resend? && !s.Expire? {
      OtherBooks(g, s);
    }
  }

  /** Over any run the books say exactly which steps took the entries out. */
  lemma {:induction false} RunBooks(g: System, steps: seq<Gateway.Step>, key: nat, c: Cause)
    requires Legal(g, steps)
    ensures key in Book(Run(g, steps), c) <==> key in Book(g, c) || TakenBy(g, steps, key, c)
    decreases |steps|
  {
    if steps != [] {
      StepBooks(g, steps[0], key, c);
      RunBooks(Next(g, steps[0]), steps[1..], key, c);
    }
  }

  lemma {:induction false} RunStores(g: System, steps: seq<Gateway.Step>, key: nat)
    requires WellFormed(g) && Legal(g, steps)
    ensures key in Run(g, steps).stored ==> key in g.stored || WasThere(g, steps, key)
    decreases |steps|
  {
    if steps != [] {
      StepFormed(g, steps[0]);
      StepStores(g, steps[0], key);
      RunStores(Next(g, steps[0]), steps[1..], key);
    }
  }

  /**
    In every run whose peers answer only what they were sent: when the entity
    comes to a response whose number is not in its receipt map, the part it is
    about had no message id, or there was an entry at some point and an answer,
    its time or its expiry took it out.
   */
  lemma MissesOnlyWhatWasTakenOut(g: System, steps: seq<Gateway.Step>, now: int)
    requires Initial(g) && Legal(g, steps) && HonestRun(g, steps) && Enabled(Run(g, steps), Handle(now))
    requires IsResponse(Run(g, steps).mailbox[0].m)
    ensures var h := Run(g, steps);
      var key := SeqKey(h.mailbox[0].m);
      key in h.issued
      && (key !in h.e.receipts && h.issued[key].Storable() ==>
            WasThere(g, steps, key) && exists c :: TakenBy(g, steps, key, c))
  {
    var h := Run(g, steps);
    var key := SeqKey(h.mailbox[0].m);
    AnswerMissesOnlyWhatEnded(g, steps, now);
    InitialInvariant(g);
    RunStores(g, steps, key);
    GoneWasTaken(g, steps, key);
  }

  lemma GoneWasTaken(g: System, steps: seq<Gateway.Step>, key: nat)
    requires Initial(g) && Legal(g, steps)
    ensures Gone(Run(g, steps), key) <==> exists c :: TakenBy(g, steps, key, c)
  {
    var h := Run(g, steps);
    if Gone(h, key) {
      var c := if key in h.answeredNos then Answer else if key in h.resentNos then TimeOver else Expiry;
      RunBooks(g, steps, key, c);
      assert TakenBy(g, steps, key, c);
    }
    if c :| TakenBy(g, steps, key, c) {
      RunBooks(g, steps, key, c);
    }
  }

  // ---------- where messages end ----------

  /** What a queued message comes to. */
  lemma TakenEnds(w: Channel.Window, m: Json, priority: bool, encoded: Option<Json>, written: bool, handed: bool,
                  act: Channel.Act)
    requires Channel.Take(w, m, priority, encoded, written, handed).1 == [act]
    ensures EndsOf(act)
         == if |m.msgIds| + w.currTx > w.txLimit then
              if handed then NONE else NONE.(lost := [m.(speedLimit := true)])
            else if encoded == None then NONE.(lost := [m])
            else if !written then
              if priority then NONE.(failed := [encoded.value]) else NONE.(lost := [encoded.value])
            else if handed then NONE else NONE.(lost := [encoded.value.(waitReceipt := true)])
  {
    assert [act][0] == act;
  }

  /**
    A queued message fails if it is written in vain from the priority queue. It
    is lost if it cannot be encoded, if it is written in vain from the common
    queue, or if there is no entity any more to hand it to.
   */
  lemma TakeEnds(g: System, p: Place, w: Channel.Window, drawn: Option<Drawn>, written: bool)
    returns (m: Json, encoded: Option<Json>)
    requires DistinctIds(g.e.links) && Enabled(g, Take(p, w, drawn, written))
    ensures var link := LinkAt(g, p);
      m == (if link.priority != [] then link.priority[0] else link.common[0]) && encoded == Encoded(m, drawn)
    ensures var priority := LinkAt(g, p).priority != [];
      Adds(g, Next(g, Take(p, w, drawn, written)),
           if |m.msgIds| + w.currTx > w.txLimit then
             if !g.ended then NONE else NONE.(lost := [m.(speedLimit := true)])
           else if encoded == None then NONE.(lost := [m])
           else if !written then
             if priority then NONE.(failed := [encoded.value]) else NONE.(lost := [encoded.value])
           else if !g.ended then NONE else NONE.(lost := [encoded.value.(waitReceipt := true)]))
  {
    var link := LinkAt(g, p);
    m, encoded := First(link), Encoded(First(link), drawn);
    var act := TakeNotes(g, p, w, drawn, written);
    TakenEnds(w, m, link.priority != [], encoded, written, !g.ended, act);
  }

  /** A task that clears its queues gives all they hold to the failure topic; one that ends otherwise drops it. */
  lemma EndsOfQueues(g: System, p: Place)
    requires DistinctIds(g.e.links) && Enabled(g, Clear(p))
    ensures var link := LinkAt(g, p);
      Adds(g, Next(g, Clear(p)), NONE.(failed := link.priority + link.common))
      && Adds(g, Next(g, Exit(p)), NONE.(dropped := link.priority + link.common))
  {
  }

  /** Either way the queues take nothing more, and the task is gone. */
  lemma EndedTask(g: System, s: Gateway.Step)
    requires DistinctIds(g.e.links) && Enabled(g, s) && (s.Clear? || s.Exit?)
    ensures HasPlace(Next(g, s), s.p)
    ensures LinkAt(Next(g, s), s.p) == LinkAt(g, s.p).(open := false, priority := [], common := [])
    ensures Next(g, s).chans.Keys == g.chans.Keys - {LinkAt(g, s.p).id}
  {
    SetLinkAt(g, s.p, Emptied(LinkAt(g, s.p)));
  }

  lemma SetLinkAt(g: System, p: Place, link: Link)
    requires HasPlace(g, p)
    ensures HasPlace(SetLink(g, p, link), p) && LinkAt(SetLink(g, p, link), p) == link
    ensures SetLink(g, p, link).chans == g.chans
  {
  }

  /** A message in a task's hand is lost exactly if there is no entity any more to hand it to. */
  lemma FlushEnds(g: System, id: nat)
    requires DistinctIds(g.e.links) && Enabled(g, Flush(id))
    ensures Adds(g, Next(g, Flush(id)),
                 if g.ended && !Plain(g.chans[id].hand.value) then NONE.(lost := [g.chans[id].hand.value]) else NONE)
  {
  }

  /** An answer ends the entry under its number, unless it asks to slow down. */
  lemma HandleEnds(g: System, now: int, key: nat)
    requires DistinctIds(g.e.links) && Enabled(g, Handle(now)) && key == g.mailbox[0].m.seqId.GetOr(0)
    ensures var m := g.mailbox[0].m;
      Adds(g, Next(g, Handle(now)),
           if key in g.e.receipts
              && (m.kind == DeliverResp || m.kind == ReportResp || (m.kind == SubmitResp && !m.speedLimit))
           then NONE.(answered := [g.e.receipts[key]]) else NONE)
  {
  }

  /** Exactly the entries stored that long ago or longer expire; one without a time counts as stored now. */
  lemma ExpireEnds(g: System, duration: int, now: int, keys: seq<nat>) returns (ends: seq<Json>)
    requires DistinctIds(g.e.links) && Enabled(g, Expire(duration, now, keys))
    ensures Adds(g, Next(g, Expire(duration, now, keys)), NONE.(expired := ends))
    ensures |ends| == |keys|
    ensures forall i :: 0 <= i < |keys| ==> keys[i] in g.e.receipts && ends[i] == g.e.receipts[keys[i]]
    ensures forall key :: key in keys <==>
      key in g.e.receipts
      && (if g.e.receipts[key].receiveTime.Some? then g.e.receipts[key].receiveTime.value else now) + duration <= now
  {
    ends := Sources(g.e.receipts, keys);
  }

  /** Nothing else ends a message. */
  lemma OthersEndNothing(g: System, s: Gateway.Step)
    requires DistinctIds(g.e.links) && Enabled(g, s)
    requires !s.Take? && !s.Clear? && !s.Exit? && !s.Flush? && !s.Handle? && !s.Expire?
    ensures Adds(g, Next(g, s), NONE)
  {
  }
}
