/** When a stored message is sent again: `re_send!` in src/entity/entity_running.rs, over every run. */
module Timers {
  import opened Wrappers
  import opened Messages
  import opened Entity
  import opened EntitySteps
  import opened Handoff
  import opened Counting
  import opened EntityCounts
  import opened Gateway
  import opened Conservation
  import opened GatewayInvariant
  import opened Causality
  import Channel
  import Receipts

  /** Every entry bears the time at which it was stored. */
  predicate Dated(receipts: map<nat, Json>, since: map<nat, int>) {
    forall key :: key in receipts ==> key in since && receipts[key].receiveTime == Some(since[key])
  }

  /** Its time is over: longer ago than its own duration, or than 30 seconds. */
  predicate Overdue(v: Json, since: int, now: int) {
    since + (if v.duration.Some? then v.duration.value else 30) < now
  }

  /** Taking entries out leaves the others dated. */
  lemma FewerDated(receipts: map<nat, Json>, fewer: map<nat, Json>, since: map<nat, int>)
    requires Dated(receipts, since) && fewer.Keys <= receipts.Keys
    requires forall key :: key in fewer ==> fewer[key] == receipts[key]
    ensures Dated(fewer, since)
  {
  }

  /** What a returned message puts into the map bears the time of reading. */
  predicate StoredAt(before: map<nat, Json>, after: map<nat, Json>, keys: set<nat>, now: int) {
    forall key :: key in after ==>
      if key in keys then after[key].receiveTime == Some(now) else key in before && after[key] == before[key]
  }

  lemma StoredDated(before: map<nat, Json>, after: map<nat, Json>, keys: set<nat>, now: int, since: map<nat, int>)
    requires Dated(before, since) && StoredAt(before, after, keys, now)
    ensures Dated(after, since + map key | key in keys :: now)
  {
  }

  lemma SubmitStoredAt(receipts: map<nat, Json>, m: Json, now: int)
    requires m.kind == Submit && m.receiveTime == Some(now) && Receipts.Distinct(m.seqIds)
    ensures StoredAt(receipts, Insert(receipts, m), OwnKeys(m), now)
  {
    var after := Insert(receipts, m);
    Receipts.InsertedFrom(receipts, m, 0);
    forall key | key in after
      ensures if key in OwnKeys(m) then after[key].receiveTime == Some(now)
              else key in receipts && after[key] == receipts[key]
    {
      if key !in OwnKeys(m) {
        assert key !in m.seqIds[0..Receipts.Parts(m)];
      }
    }
  }

  lemma UplinkStoredAt(e: State, m: Json, now: int)
    requires m.kind != Submit && m.receiveTime == Some(now)
    ensures StoredAt(e.receipts, Await(e, m).receipts, OwnKeys(m), now)
  {
  }

  /** Nothing is added and nothing that stays is changed. */
  predicate OnlyTaken(before: map<nat, Json>, after: map<nat, Json>) {
    after.Keys <= before.Keys && forall key :: key in after ==> after[key] == before[key]
  }

  lemma ResponseTakes(e: State, m: Json)
    requires DistinctIds(e.links)
    ensures OnlyTaken(e.receipts, OnSubmitResp(e, m).receipts)
  {
    if SeqKey(m) in e.receipts {
      SendKeepsDistinct(e.(receipts := e.receipts - {SeqKey(m)}), e.receipts[SeqKey(m)]);
    }
  }

  lemma SubmitTakes(e: State, m: Json)
    requires DistinctIds(e.links) && !m.waitReceipt
    ensures OnlyTaken(e.receipts, StateOf(OnSubmit(e, m)).receipts)
  {
    if m.speedLimit {
      SendKeepsDistinct(e, m.(speedLimit := false));
    }
  }

  lemma UplinkTakes(e: State, m: Json)
    requires !m.waitReceipt
    ensures OnlyTaken(e.receipts, StateOf(OnDeliver(e, m)).receipts) && OnlyTaken(e.receipts, OnReport(e, m).receipts)
  {
  }

  lemma ReceiptTakes(e: State, m: Json)
    ensures OnlyTaken(e.receipts, OnDeliverResp(e, m).receipts) && OnlyTaken(e.receipts, OnReportResp(e, m).receipts)
  {
  }

  lemma NewsTakes(e: State, save: TempSave, m: Json)
    ensures OnlyTaken(e.receipts, OnTerminate(e, m).receipts) && OnlyTaken(e.receipts, OnConnect(e, save, m).0.receipts)
  {
  }

  /** Whatever is read, apart from a returned message, only takes entries out. */
  lemma OthersOnlyTake(e: State, save: TempSave, msg: Json, now: int)
    requires DistinctIds(e.links) && !(Outgoing(msg.kind) && msg.waitReceipt)
    ensures OnlyTaken(e.receipts, StateOf(FromChannel(e, save, msg, now).0).receipts)
  {
    var m := Received(e, msg, now);
    Branches(e, save, msg, now);
    if m.kind == SubmitResp {
      ResponseTakes(e, m);
    } else if m.kind == Submit {
      SubmitTakes(e, m);
    } else if Outgoing(m.kind) {
      UplinkTakes(e, m);
    } else {
      ReceiptTakes(e, m);
      NewsTakes(e, save, m);
    }
  }

  lemma HandleDated(g: System, now: int)
    requires WellFormed(g) && g.mailbox != [] && Dated(g.e.receipts, g.since)
    ensures Dated(HandleStep(g, now).e.receipts, HandleStep(g, now).since)
  {
    var m := g.mailbox[0].m;
    assert TrackedMail(g.issued, m);
    if Outgoing(m.kind) && m.waitReceipt {
      var x := Received(g.e, m, now);
      Branches(g.e, g.save, m, now);
      if m.kind == Submit {
        SubmitStoredAt(g.e.receipts, x, now);
      } else {
        UplinkStoredAt(g.e, x, now);
      }
      assert OwnKeys(x) == OwnKeys(m);
      StoredDated(g.e.receipts, HandleStep(g, now).e.receipts, OwnKeys(m), now, g.since);
    } else {
      OthersOnlyTake(g.e, g.save, m, now);
      FewerDated(g.e.receipts, HandleStep(g, now).e.receipts, g.since);
    }
  }

  /** The receipts and their times are as they were. */
  predicate SameReceipts(g: System, h: System) {
    h.e.receipts == g.e.receipts && h.since == g.since
  }

  lemma SetLinkSame(g: System, p: Place, link: Link)
    requires HasPlace(g, p)
    ensures SameReceipts(g, SetLink(g, p, link))
  {
  }

  lemma ApplySame(g: System, id: nat, act: Channel.Act, w: Channel.Window)
    requires id in g.chans
    ensures SameReceipts(g, Returns(Apply(g, id, act), id, w))
  {
    var h := Apply(g, id, act);
    assert h.e == g.e && h.since == g.since;
  }

  lemma TakeSame(g: System, p: Place, w: Channel.Window, drawn: Option<Drawn>, written: bool)
    requires Enabled(g, Take(p, w, drawn, written))
    ensures SameReceipts(g, TakeStep(g, p, w, drawn, written))
  {
    var link := LinkAt(g, p);
    var after, act := TakeIs(g, p, w, drawn, written);
    SetLinkSame(g, p, Rest(link));
    ApplySame(SetLink(g, p, Rest(link)), link.id, act, after);
  }

  lemma EndSame(g: System, p: Place)
    requires HasPlace(g, p)
    ensures SameReceipts(g, ClearStep(g, p)) && SameReceipts(g, ExitStep(g, p))
  {
    SetLinkSame(g, p, Emptied(LinkAt(g, p)));
  }

  lemma AcceptSame(g: System, m: Json)
    requires DistinctIds(g.e.links)
    ensures SameReceipts(g, AcceptStep(g, m))
  {
    SendKeepsDistinct(g.e, m);
  }

  lemma TimerDated(g: System, s: Gateway.Step)
    requires DistinctIds(g.e.links) && Enabled(g, s) && Dated(g.e.receipts, g.since) && (s.Resend? || s.Expire?)
    ensures Dated(Next(g, s).e.receipts, Next(g, s).since)
  {
    if s.Resend? {
      var due := DueKeys(g.e.receipts, s.now);
      SendEachReceipts(g.e.(receipts := g.e.receipts - due), Sources(g.e.receipts, s.keys));
    }
  }

  lemma OtherStepDated(g: System, s: Gateway.Step)
    requires DistinctIds(g.e.links) && Enabled(g, s) && Dated(g.e.receipts, g.since) && !s.Handle?
    ensures Dated(Next(g, s).e.receipts, Next(g, s).since)
  {
    if s.Accept? {
      AcceptSame(g, s.m);
    } else if s.Take? {
      TakeSame(g, s.p, s.w, s.drawn, s.written);
    } else if s.Clear? || s.Exit? {
      EndSame(g, s.p);
    } else if s.Resend? || s.Expire? {
      TimerDated(g, s);
    }
  }

  lemma {:induction false} RunDated(g: System, steps: seq<Gateway.Step>)
    requires WellFormed(g) && Legal(g, steps) && Dated(g.e.receipts, g.since)
    ensures WellFormed(Run(g, steps)) && Dated(Run(g, steps).e.receipts, Run(g, steps).since)
    decreases |steps|
  {
    if steps != [] {
      StepFormed(g, steps[0]);
      if steps[0].Handle? {
        HandleDated(g, steps[0].now);
      } else {
        OtherStepDated(g, steps[0]);
      }
      RunDated(Next(g, steps[0]), steps[1..]);
    }
  }

  lemma ResendIff(h: System, now: int, keys: seq<nat>, key: nat)
    requires DistinctIds(h.e.links) && Dated(h.e.receipts, h.since) && Enabled(h, Resend(now, keys))
    requires key in h.e.receipts
    ensures key in h.since
    ensures key in keys <==>
      Overdue(h.e.receipts[key], h.since[key], now) && h.e.receipts[key].needReSend != Some(false)
    ensures key in ResendStep(h, now, keys).e.receipts <==> key !in keys
  {
    var due := DueKeys(h.e.receipts, now);
    assert key in keys <==> key in due;
    SendEachReceipts(h.e.(receipts := h.e.receipts - due), Sources(h.e.receipts, keys));
  }

  /**
    In every run a visit of the timer sends exactly those entries again that
    are copies and were stored longer ago than their duration: none within its
    time, and none that is overdue is left.
   */
  lemma ResendsExactlyOverdue(g: System, steps: seq<Gateway.Step>, now: int, keys: seq<nat>, key: nat)
    requires Initial(g) && Legal(g, steps) && Enabled(Run(g, steps), Resend(now, keys))
    requires key in Run(g, steps).e.receipts
    ensures DistinctIds(Run(g, steps).e.links)
    ensures var h := Run(g, steps);
      key in h.since
      && (key in keys <==> Overdue(h.e.receipts[key], h.since[key], now) && h.e.receipts[key].needReSend != Some(false))
      && (key in ResendStep(h, now, keys).e.receipts <==> key !in keys)
  {
    InitialInvariant(g);
    RunDated(g, steps);
    ResendIff(Run(g, steps), now, keys, key);
  }
}
