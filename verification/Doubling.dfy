/**
  For every entity, a run in which an accepted message of two parts ends up in
  two places: the peer asks to slow down in its answer about the second part.
 */
module Doubling {
  import opened Wrappers
  import opened Messages
  import opened Entity
  import opened EntitySteps
  import opened Counting
  import opened Gateway
  import opened Conservation
  import opened Causality
  import Channel
  import Receipts

  const PARTS: Tag := Tag(Submit, [[0x61], [0x62]])
  const SUBMIT: Json := EMPTY.(kind := Submit, msgIds := PARTS.ids)
  const SLOW: Json := EMPTY.(kind := SubmitResp, seqId := Some(6), speedLimit := true)
  const WINDOW := Channel.Window(9, 9, 0, 0, 0, 0, false, Channel.Working)

  /** The submit as it is queued, sent or stored. */
  predicate IsSubmit(m: Json) {
    TagOf(m) == PARTS && !m.isPriority
  }

  predicate IsSent(m: Json) {
    IsSubmit(m) && m.waitReceipt && m.seqIds == [5, 6]
  }

  /** Both numbers went out on connection 1. */
  predicate WentOut(g: System) {
    6 in g.issued && g.issued[6].via == 1
  }

  /** One connection, with nothing or the submit in its queue. */
  predicate Joined(g: System, queued: nat) {
    |g.e.links| == 1 && g.e.links[0].(common := []) == Link(1, true, true, [], [])
    && |g.e.links[0].common| == queued && forall i :: 0 <= i < queued ==> IsSubmit(g.e.links[0].common[i])
  }

  predicate Quiet(g: System) {
    !g.ended && g.doubled == [] && 1 in g.chans
  }

  /** Some continuation brings the entity to the answer that doubles the message. */
  ghost predicate Doubles(g: System) {
    exists steps :: Legal(g, steps) && SlowNext(Run(g, steps))
  }

  predicate SlowNext(h: System) {
    h.mailbox != [] && SlowsLaterPart(h, PARTS) && h.doubled == [] && !h.ended && DistinctIds(h.e.links)
  }

  lemma Then(g: System, s: Gateway.Step)
    requires DistinctIds(g.e.links) && Enabled(g, s) && Doubles(Next(g, s))
    ensures Doubles(g)
  {
    var rest :| Legal(Next(g, s), rest) && SlowNext(Run(Next(g, s), rest));
    var steps := [s] + rest;
    assert steps[1..] == rest;
    assert Legal(g, steps) && SlowNext(Run(g, steps));
  }

  /** The submit has an entry for its second part, and the answer about it waits to be read. */
  predicate Answered(g: System) {
    Quiet(g) && DistinctIds(g.e.links) && g.mailbox == [] && WentOut(g)
    && 6 in g.e.receipts && TagOf(g.e.receipts[6]) == PARTS && g.e.receipts[6].needReSend == Some(false)
    && g.chans[1].hand == None
  }

  lemma FromAnswered(g: System)
    requires Answered(g) && g.chans[1].inbound == [SLOW]
    ensures Doubles(g)
  {
    var h := Next(g, Read(1, WINDOW, false, true));
    ReadForwards(WINDOW, SLOW, 1, false, true, true);
    assert h.mailbox == [Mail(1, SLOW)];
    assert Legal(h, []) && SlowNext(Run(h, []));
    Then(g, Read(1, WINDOW, false, true));
  }

  lemma FromStored(g: System)
    requires Answered(g) && g.chans[1].inbound == []
    ensures Doubles(g)
  {
    FromAnswered(Next(g, PeerSends(1, SLOW)));
    Then(g, PeerSends(1, SLOW));
  }

  /** The record waits to be handled. */
  predicate Recorded(g: System) {
    Quiet(g) && DistinctIds(g.e.links) && WentOut(g) && g.chans[1] == Chan(None, [])
    && |g.mailbox| == 1 && IsSent(g.mailbox[0].m)
  }

  lemma StoresBoth(receipts: map<nat, Json>, m: Json)
    requires IsSent(m)
    ensures var r := Insert(receipts, m); 6 in r && TagOf(r[6]) == PARTS && r[6].needReSend == Some(false)
  {
    Receipts.InsertedFrom(receipts, m, 0);
    assert m.seqIds[1] == 6;
  }

  lemma RecordedNext(g: System)
    requires Recorded(g)
    ensures Answered(Next(g, Handle(0))) && Next(g, Handle(0)).chans[1].inbound == []
  {
    StoresBoth(g.e.receipts, Received(g.e, g.mailbox[0].m, 0));
  }

  lemma FromRecorded(g: System)
    requires Recorded(g)
    ensures Doubles(g)
  {
    RecordedNext(g);
    FromStored(Next(g, Handle(0)));
    Then(g, Handle(0));
  }

  /** The submit has been written. */
  predicate InHand(g: System) {
    Quiet(g) && DistinctIds(g.e.links) && WentOut(g) && g.mailbox == []
    && g.chans[1].hand.Some? && IsSent(g.chans[1].hand.value) && g.chans[1].inbound == []
  }

  lemma FromSent(g: System)
    requires InHand(g)
    ensures Doubles(g)
  {
    FromRecorded(Next(g, Flush(1)));
    Then(g, Flush(1));
  }

  lemma SentInHand(g: System, m: Json)
    requires Quiet(g) && DistinctIds(g.e.links) && g.mailbox == [] && g.chans[1] == Chan(None, []) && IsSent(m)
    ensures InHand(Apply(g, 1, Channel.Sent(m)))
  {
    assert m.seqIds[1] == 6;
  }

  lemma FromQueued(g: System)
    requires Quiet(g) && Joined(g, 1) && g.mailbox == [] && g.issued == map[] && g.chans[1] == Chan(None, [])
    ensures Doubles(g)
  {
    var s := Take(Attached(0), WINDOW, Some(Drawn([5, 6], [])), true);
    assert IsSubmit(First(g.e.links[0]));
    var _, act := TakeIs(g, Attached(0), WINDOW, Some(Drawn([5, 6], [])), true);
    SentInHand(SetLink(g, Attached(0), Rest(g.e.links[0])), act.m);
    FromSent(Next(g, s));
    Then(g, s);
  }

  lemma FromJoined(g: System)
    requires Quiet(g) && Joined(g, 0) && g.mailbox == [] && g.issued == map[] && g.accepted == {}
    requires g.chans[1] == Chan(None, [])
    ensures Doubles(g)
  {
    var s := Accept(SUBMIT);
    ProbeSent(g.e, Addressed(g.e, SUBMIT), 1, Try(g.e, Addressed(g.e, SUBMIT)).after);
    FromQueued(Next(g, s));
    Then(g, s);
  }

  lemma FromLogin(g: System)
    requires Quiet(g) && g.e.links == [] && g.issued == map[] && g.accepted == {}
    requires g.chans[1] == Chan(None, []) && 1 in g.save && g.save[1] == Link(1, true, true, [], [])
    requires g.mailbox == [Mail(1, EMPTY.(kind := Connect, channelId := Some(1), canWrite := Some(true)))]
    ensures Doubles(g)
  {
    FromJoined(Next(g, Handle(0)));
    Then(g, Handle(0));
  }

  lemma SlowDoubles(h: System)
    requires Invariant(h) && SlowNext(h)
    ensures PARTS in h.accepted && Places(h, PARTS) == 1 && Places(HandleStep(h, 0), PARTS) == 2
  {
    var key := SeqKey(h.mailbox[0].m);
    assert TrackedReceipt(h.issued, key, h.e.receipts[key]);
    assert InPlace(h, PARTS);
    HandleOnePlace(h, 0, PARTS);
  }

  /**
    Whatever the entity, from the start a run leads to two places for one
    accepted message: one to be sent again for its first part, and one queued
    for the answer about its second.
   */
  lemma TwoPlaces(g: System) returns (steps: seq<Gateway.Step>)
    requires Initial(g)
    ensures Legal(g, steps) && PARTS in Run(g, steps).accepted && Run(g, steps).mailbox != []
    ensures Enabled(Run(g, steps), Handle(0)) && DistinctIds(Run(g, steps).e.links)
    ensures Places(Run(g, steps), PARTS) == 1 && Places(Next(Run(g, steps), Handle(0)), PARTS) == 2
  {
    FromLogin(Next(g, Login(1, true)));
    Then(g, Login(1, true));
    steps :| Legal(g, steps) && SlowNext(Run(g, steps));
    InitialInvariant(g);
    RunInvariant(g, steps);
    SlowDoubles(Run(g, steps));
  }
}
