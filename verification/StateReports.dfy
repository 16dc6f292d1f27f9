/**
  What the manager has last been told about an entity (`send_entity_state!` in
  src/entity/entity_running.rs) is what is the case: no connection, connected,
  or connected with its buffers full.
 */
module StateReports {
  import opened Wrappers
  import opened Messages
  import opened Entity
  import opened EntitySteps
  import opened Handoff
  import opened Gateway
  import opened GatewayInvariant
  import opened Causality
  import opened Conservation
  import LongSms

  /** The last state reported; an entity begins as disconnected. */
  function Told(log: seq<Output>): nat {
    if log == [] then 0
    else if log[|log| - 1].StateChange? then log[|log| - 1].state
    else Told(log[..|log| - 1])
  }

  /** 0 for no connection, 2 for connections whose buffers are full, 1 otherwise. */
  predicate Informed(e: State) {
    Told(e.log) == if e.links == [] then 0 else if e.full then 2 else 1
  }

  lemma ToldSnoc(log: seq<Output>, o: Output)
    ensures Told(log + [o]) == if o.StateChange? then o.state else Told(log)
  {
    assert (log + [o])[..|log|] == log;
  }

  /** The count fits its byte. */
  predicate Counted(e: State) {
    Consistent(e) && |e.links| < 0x100
  }

  /** A report makes it right. */
  lemma Reports(e: State)
    requires Counted(e)
    ensures Informed(SendState(e))
  {
    ToldSnoc(e.log, StateChange(StateCode(e.full, e.connNum)));
  }

  /** Whatever else is put on the log leaves it right, and so does what changes neither emptiness nor the flag. */
  lemma Unchanged(e: State, r: State)
    requires Informed(e) && Told(r.log) == Told(e.log) && r.full == e.full && (r.links == [] <==> e.links == [])
    ensures Informed(r)
  {
  }

  lemma QueueTells(e: State, topic: Topic, m: Json)
    requires Informed(e)
    ensures Informed(ToQueue(e, topic, m)) && Informed(Publish(e, topic, m))
  {
    ToldSnoc(e.log, Published(topic, m.(seqId := None, seqIds := [])));
    ToldSnoc(e.log, Published(topic, m));
  }

  lemma NoteTells(e: State, link: Link)
    requires Counted(e) && Informed(e)
    ensures Informed(NoteFull(e, link)) && NoteFull(e, link).links == e.links && NoteFull(e, link).connNum == e.connNum
  {
    Reports(e.(full := true));
  }

  /** One round leaves it right, unless it has forgotten the last connection. */
  lemma RoundTells(e: State, m: Json)
    requires Counted(e) && Informed(e) && e.links != []
    ensures match Try(e, m)
            case Taken(r) => Counted(r) && Informed(r)
            case Onward(r) => Counted(r) && |r.links| <= |e.links| && (r.links != [] ==> Informed(r))
  {
    var moved := e.(index := NextIndex(e.index));
    var link := moved.links[Pick(moved.index, |moved.links|)];
    NoteTells(moved, link);
    if Try(e, m).Onward? {
      TryNext(e, m);
    }
  }

  lemma {:induction false} ProbeTells(e: State, m: Json, left: nat)
    requires Counted(e) && left <= |e.links| && (left > 0 ==> Informed(e))
    requires left == 0 && e.links != [] ==> Told(e.log) == if e.full then 2 else 1
    ensures Counted(Probe(e, m, left)) && Informed(Probe(e, m, left))
    decreases left
  {
    if left == 0 {
      Reports(Publish(e, FailureTopic, m));
    } else {
      RoundTells(e, m);
      match Try(e, m) {
        case Taken(r) => ProbeSent(e, m, left, r);
        case Onward(r) =>
          ProbeNext(e, m, left, r);
          ProbeTells(r, m, left - 1);
      }
    }
  }

  lemma SendTells(e: State, m: Json)
    requires Counted(e) && Informed(e)
    ensures Counted(Send(e, m)) && Informed(Send(e, m))
  {
    ProbeTells(e, Addressed(e, m), |e.links|);
  }

  lemma {:induction false} EachTells(e: State, ms: seq<Json>)
    requires Counted(e) && Informed(e)
    ensures Counted(SendEach(e, ms)) && Informed(SendEach(e, ms))
    decreases |ms|
  {
    if ms != [] {
      SendTells(e, ms[0]);
      EachTells(Send(e, ms[0]), ms[1..]);
    }
  }

  // ---------- the entity's branches ----------

  lemma RecheckTells(e: State)
    requires Counted(e) && Informed(e)
    ensures Counted(Recheck(e)) && Informed(Recheck(e))
  {
    Reports(e.(full := false));
  }

  lemma SubmitRespTells(e: State, m: Json)
    requires Counted(e) && Informed(e)
    ensures Informed(OnSubmitResp(e, m))
  {
    var taken := e.(receipts := e.receipts - {SeqKey(m)});
    if SeqKey(m) in e.receipts {
      if m.speedLimit {
        SendTells(taken, e.receipts[SeqKey(m)]);
      } else {
        RecheckTells(taken);
        QueueTells(Recheck(taken), SubmitRespTopic, Reply(e.receipts, m));
      }
    } else {
      QueueTells(e, SubmitRespTopic, m);
    }
  }

  lemma LongTells(e: State, topic: Topic, m: Json)
    requires Informed(e)
    ensures Informed(StateOf(OnLong(e, topic, m)))
  {
    var (cache, outcome) := LongSms.Handle(e.longSms, m);
    if outcome.Complete? {
      QueueTells(e.(longSms := cache), topic, LongSms.Assembled(outcome.slots));
    }
  }

  lemma SubmitTells(e: State, m: Json)
    requires Counted(e) && Informed(e)
    ensures Informed(StateOf(OnSubmit(e, m)))
  {
    if m.waitReceipt {
    } else if m.speedLimit {
      SendTells(e, m.(speedLimit := false));
    } else if m.longTotal.Some? {
      LongTells(e, SubmitTopic, m);
    } else {
      QueueTells(e, SubmitTopic, m.(msgIds := [m.msgId.GetOr([])], msgId := None));
    }
  }

  lemma DeliverTells(e: State, m: Json)
    requires Informed(e)
    ensures Informed(StateOf(OnDeliver(e, m))) && Informed(OnDeliverResp(e, m)) && Informed(OnReportResp(e, m))
  {
    LongTells(e, DeliverTopic, m);
    QueueTells(e, DeliverTopic, m);
    var taken := e.(receipts := e.receipts - {SeqKey(m)});
    QueueTells(taken, ReportRespTopic, m);
    if SeqKey(m) in e.receipts {
      QueueTells(taken, DeliverRespTopic, m.(accountMsgId := e.receipts[SeqKey(m)].msgId));
    } else {
      QueueTells(e, DeliverRespTopic, m);
    }
  }

  lemma ReportTells(e: State, m: Json)
    requires Informed(e)
    ensures Informed(OnReport(e, m))
  {
    QueueTells(e, ReportTopic,
               if m.passageMsgId.GetOr([]) == [] then m else m.(msgId := m.passageMsgId, passageMsgId := None));
  }

  lemma TerminateTells(e: State, m: Json)
    requires Counted(e) && Informed(e)
    ensures Informed(OnTerminate(e, m))
  {
    if m.id.Some? {
      var left := Forget(e, m.id.value);
      WithoutDistinct(e.links, m.id.value);
      WithoutFewer(e.links, m.id.value);
      if left.links == [] {
        Reports(left);
      }
    }
  }

  lemma {:induction false} WithoutFewer(links: seq<Link>, id: nat)
    ensures |Without(links, id)| <= |links|
  {
    if links != [] {
      WithoutFewer(links[1..], id);
    }
  }

  lemma ConnectTells(e: State, save: TempSave, m: Json)
    requires Counted(e) && Informed(e) && |e.links| < 0xFF
    ensures Informed(OnConnect(e, save, m).0)
  {
    if m.channelId.Some? && m.channelId.value in save {
      var id := m.channelId.value;
      var links := e.links + [save[id].(id := id, canWrite := m.canWrite.GetOr(true))];
      var joined := e.(links := links, connNum := |links| % 0x100);
      ToldSnoc(joined.log, StateChange(StateCode(joined.full, joined.connNum)));
    }
  }

  lemma MessageTells(e: State, save: TempSave, msg: Json, now: int)
    requires Counted(e) && Informed(e) && |e.links| < 0xFF
    ensures Informed(StateOf(FromChannel(e, save, msg, now).0))
  {
    var m := Received(e, msg, now);
    match m.kind {
      case SubmitResp => SubmitRespTells(e, m);
      case Submit => SubmitTells(e, m);
      case Deliver => DeliverTells(e, m);
      case Report => ReportTells(e, m);
      case ReportResp => DeliverTells(e, m);
      case DeliverResp => DeliverTells(e, m);
      case Terminate => TerminateTells(e, m);
      case Connect => ConnectTells(e, save, m);
      case OtherKind =>
      case Untyped =>
    }
  }

  // ---------- runs ----------

  lemma StepTells(g: System, s: Gateway.Step)
    requires WellFormed(g) && Enabled(g, s) && Informed(g.e) && |g.e.links| < 0xFF
    ensures Informed(Next(g, s).e)
  {
    match s {
      case Accept(m) => SendTells(g.e, m);
      case Handle(now) => MessageTells(g.e, g.save, g.mailbox[0].m, now);
      case Resend(now, keys) =>
        EachTells(g.e.(receipts := g.e.receipts - DueKeys(g.e.receipts, now)), Sources(g.e.receipts, keys));
      case Close =>
        Reports(g.e.(links := TellAll(g.e.links)));
      case Take(p, w, drawn, written) => TakeTells(g, p, w, drawn, written);
      case _ => OtherStepTells(g, s);
    }
  }

  lemma SetLinkTells(g: System, p: Place, link: Link)
    requires HasPlace(g, p) && Informed(g.e)
    ensures Informed(SetLink(g, p, link).e)
  {
  }

  lemma ApplyLeaves(g: System, id: nat, act: Channel.Act)
    requires id in g.chans
    ensures Apply(g, id, act).e == g.e
  {
  }

  lemma TakeTells(g: System, p: Place, w: Channel.Window, drawn: Option<Drawn>, written: bool)
    requires Informed(g.e) && Enabled(g, Take(p, w, drawn, written))
    ensures Informed(TakeStep(g, p, w, drawn, written).e)
  {
    var link := LinkAt(g, p);
    var _, act := TakeIs(g, p, w, drawn, written);
    SetLinkTells(g, p, Rest(link));
    ApplyLeaves(SetLink(g, p, Rest(link)), link.id, act);
  }

  lemma OtherStepTells(g: System, s: Gateway.Step)
    requires DistinctIds(g.e.links) && Enabled(g, s) && Informed(g.e)
    requires !s.Accept? && !s.Handle? && !s.Resend? && !s.Close? && !s.Take?
    ensures Informed(Next(g, s).e)
  {
    if s.Clear? || s.Exit? {
      SetLinkTells(g, s.p, Emptied(LinkAt(g, s.p)));
    }
  }

  /** An entity with fewer than 255 connections at every step. */
  predicate Moderate(g: System, steps: seq<Gateway.Step>)
    requires Legal(g, steps)
    decreases |steps|
  {
    steps == [] || (|g.e.links| < 0xFF && Moderate(Next(g, steps[0]), steps[1..]))
  }

  /**
    In every run the last state reported is the case after every step, as long
    as there is room for another connection in the count's byte.
   */
  lemma {:induction false} StateIsTold(g: System, steps: seq<Gateway.Step>)
    requires WellFormed(g) && Informed(g.e) && Legal(g, steps) && Moderate(g, steps)
    ensures Informed(Run(g, steps).e)
    decreases |steps|
  {
    if steps != [] {
      StepFormed(g, steps[0]);
      StepTells(g, steps[0]);
      StateIsTold(Next(g, steps[0]), steps[1..]);
    }
  }

  /** With 256 connections a report says that there is none. */
  lemma CountWraps(e: State)
    requires |e.links| == 0x100 && Consistent(e)
    ensures Told(SendState(e).log) == 0 && !Informed(SendState(e))
  {
    ToldSnoc(e.log, StateChange(StateCode(e.full, e.connNum)));
  }

  // ---------- when buffers are full ----------

  /**
    Where the connection in turn takes the message, the entity becomes full
    exactly if it is a passage with a cap and more is waiting there than the cap.
   */
  lemma BecomesFullIff(e: State, m: Json, k: nat)
    requires DistinctIds(e.links) && e.links != [] && e.index < USIZE_MAX && k == (e.index + 1) % |e.links|
    requires e.links[k].canWrite && e.links[k].open
    ensures Send(e, m).full <==>
      e.full || (e.kind == Server && e.sendBuffCap < CHANNEL_BUFF_NUM
                 && |e.links[k].priority| + |e.links[k].common| > e.sendBuffCap)
  {
    var x := Addressed(e, m);
    ProbeSent(e, x, |e.links|, Try(e, x).after);
  }

  /** A normal response with a known number ends that exactly if some connection has no more waiting than the limit. */
  lemma StaysFullIff(e: State, save: TempSave, r: Json, now: int)
    requires DistinctIds(e.links) && r.kind == SubmitResp && !r.speedLimit && SeqKey(r) in e.receipts
    ensures StateOf(FromChannel(e, save, r, now).0).full <==>
      e.full && forall k :: 0 <= k < |e.links| ==> |e.links[k].priority| + |e.links[k].common| > e.writeLimit
  {
  }
}
