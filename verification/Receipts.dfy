/** Which response belongs to which part of which submit (src/entity/entity_running.rs). */
module Receipts {
  import opened Bytes
  import opened Wrappers
  import opened Messages
  import opened Entity
  import opened EntitySteps
  import Sequence

  predicate Distinct(ids: seq<nat>) {
    forall i, j :: 0 <= i < j < |ids| ==> ids[i] != ids[j]
  }

  /** How many parts get an entry. */
  function Parts(m: Json): nat {
    if |m.msgIds| < |m.seqIds| then |m.msgIds| else |m.seqIds|
  }

  /** Other numbers keep what they had. */
  lemma {:induction false} InsertedElsewhere(receipts: map<nat, Json>, m: Json, i: nat, key: nat)
    requires i <= Parts(m) && key !in m.seqIds[i..Parts(m)]
    ensures var r := InsertFrom(receipts, m, i);
      (key in r <==> key in receipts) && (key in receipts ==> r[key] == receipts[key])
    decreases Parts(m) - i
  {
    if i < Parts(m) {
      assert m.seqIds[i..Parts(m)] == [m.seqIds[i]] + m.seqIds[i + 1..Parts(m)];
      InsertedElsewhere(receipts[m.seqIds[i] := Copy(m, i)], m, i + 1, key);
    }
  }

  /** Part `k` is stored under its own number. */
  lemma {:induction false} InsertedAt(receipts: map<nat, Json>, m: Json, i: nat, k: nat)
    requires Distinct(m.seqIds) && i <= k < Parts(m)
    ensures var r := InsertFrom(receipts, m, i); m.seqIds[k] in r && r[m.seqIds[k]] == Copy(m, k)
    decreases k - i
  {
    var next := receipts[m.seqIds[i] := Copy(m, i)];
    if i < k {
      InsertedAt(next, m, i + 1, k);
    } else {
      InsertedElsewhere(next, m, i + 1, m.seqIds[i]);
    }
  }

  lemma InsertedFrom(receipts: map<nat, Json>, m: Json, i: nat)
    requires Distinct(m.seqIds) && i <= Parts(m)
    ensures var r := InsertFrom(receipts, m, i);
      && (forall k :: i <= k < Parts(m) ==> m.seqIds[k] in r && r[m.seqIds[k]] == Copy(m, k))
      && (forall key :: key !in m.seqIds[i..Parts(m)] ==> (key in r <==> key in receipts))
      && (forall key :: key in receipts && key !in m.seqIds[i..Parts(m)] ==> r[key] == receipts[key])
  {
    var r := InsertFrom(receipts, m, i);
    forall k | i <= k < Parts(m)
      ensures m.seqIds[k] in r && r[m.seqIds[k]] == Copy(m, k)
    {
      InsertedAt(receipts, m, i, k);
    }
    forall key | key !in m.seqIds[i..Parts(m)]
      ensures (key in r <==> key in receipts) && (key in receipts ==> r[key] == receipts[key])
    {
      InsertedElsewhere(receipts, m, i, key);
    }
  }

  /**
    Every part that has a message id gets an entry of its own: the message with
    that id, the first alone to be sent again. No other entry changes.
   */
  lemma InsertedSpec(receipts: map<nat, Json>, m: Json)
    requires Distinct(m.seqIds)
    ensures var r := Insert(receipts, m);
      && (forall k :: 0 <= k < Parts(m) ==>
            m.seqIds[k] in r
            && r[m.seqIds[k]] == m.(accountMsgId := Some(m.msgIds[k]), needReSend := Some(k == 0)))
      && (forall key :: key !in m.seqIds[..Parts(m)] ==> (key in r <==> key in receipts))
      && (forall key :: key in receipts && key !in m.seqIds[..Parts(m)] ==> r[key] == receipts[key])
  {
    InsertedFrom(receipts, m, 0);
    assert m.seqIds[0..Parts(m)] == m.seqIds[..Parts(m)];
  }

  predicate Apart(a: seq<nat>, b: seq<nat>) {
    forall n, p :: 0 <= n < |a| && 0 <= p < |b| ==> a[n] != b[p]
  }

  lemma KeepsEarlier(receipts: map<nat, Json>, a: Json, b: Json)
    requires Distinct(a.seqIds) && Distinct(b.seqIds) && Apart(a.seqIds, b.seqIds)
    ensures var r := Insert(Insert(receipts, a), b);
      forall n :: 0 <= n < Parts(a) ==> a.seqIds[n] in r && r[a.seqIds[n]].accountMsgId == Some(a.msgIds[n])
  {
    InsertedSpec(receipts, a);
    InsertedSpec(Insert(receipts, a), b);
    forall n | 0 <= n < Parts(a)
      ensures a.seqIds[n] !in b.seqIds[..Parts(b)]
    {
    }
  }

  /** These ids are what those calls of the allocator handed out; no call is listed twice. */
  predicate DrawnAt(ids: seq<nat>, next: u32, steps: seq<u32>, calls: seq<nat>) {
    |calls| == |ids| && Distinct(calls)
    && forall n :: 0 <= n < |ids| ==> calls[n] < |steps| && ids[n] == Sequence.Run(next, steps)[calls[n]]
  }

  /**
    However the draws of different tasks interleave, within one period of the
    counter one submit never overwrites an entry of another.
   */
  lemma SubmitsKeepApart(receipts: map<nat, Json>, next: u32, steps: seq<u32>, a: Json, b: Json,
                         p: seq<nat>, q: seq<nat>)
    requires Sequence.Offset(steps, |steps|) <= Sequence.MODULUS
    requires DrawnAt(a.seqIds, next, steps, p) && DrawnAt(b.seqIds, next, steps, q) && Apart(p, q)
    ensures var r := Insert(Insert(receipts, a), b);
      && (forall n :: 0 <= n < Parts(a) ==> a.seqIds[n] in r && r[a.seqIds[n]].accountMsgId == Some(a.msgIds[n]))
      && (forall n :: 0 <= n < Parts(b) ==> b.seqIds[n] in r && r[b.seqIds[n]].accountMsgId == Some(b.msgIds[n]))
  {
    DrawnDistinct(a.seqIds, next, steps, p);
    DrawnDistinct(b.seqIds, next, steps, q);
    DrawnApart(a.seqIds, b.seqIds, next, steps, p, q);
    KeepsEarlier(receipts, a, b);
    InsertedSpec(Insert(receipts, a), b);
  }

  lemma OtherCall(next: u32, steps: seq<u32>, i: nat, k: nat)
    requires Sequence.Offset(steps, |steps|) <= Sequence.MODULUS && i < |steps| && k < |steps| && i != k
    ensures Sequence.Run(next, steps)[i] != Sequence.Run(next, steps)[k]
  {
    Sequence.IdsDistinct(next, steps, if i < k then i else k, if i < k then k else i);
  }

  lemma DrawnDistinct(ids: seq<nat>, next: u32, steps: seq<u32>, calls: seq<nat>)
    requires Sequence.Offset(steps, |steps|) <= Sequence.MODULUS && DrawnAt(ids, next, steps, calls)
    ensures Distinct(ids)
  {
    forall i, j | 0 <= i < j < |ids|
      ensures ids[i] != ids[j]
    {
      OtherCall(next, steps, calls[i], calls[j]);
    }
  }

  lemma DrawnApart(a: seq<nat>, b: seq<nat>, next: u32, steps: seq<u32>, p: seq<nat>, q: seq<nat>)
    requires Sequence.Offset(steps, |steps|) <= Sequence.MODULUS
    requires DrawnAt(a, next, steps, p) && DrawnAt(b, next, steps, q) && Apart(p, q)
    ensures Apart(a, b)
  {
    forall i, j | 0 <= i < |a| && 0 <= j < |b|
      ensures a[i] != b[j]
    {
      OtherCall(next, steps, p[i], q[j]);
    }
  }

  // ---------- responses in any order ----------

  /** The responses published so far. */
  function Answers(log: seq<Output>): seq<Json> {
    if log == [] then []
    else
      var last := log[|log| - 1];
      Answers(log[..|log| - 1])
      + if last.Published? && last.topic == SubmitRespTopic then [last.msg] else []
  }

  function AnswerAll(e: State, rs: seq<Json>): State
    requires DistinctIds(e.links) && NoneLimited(rs)
    decreases |rs|
  {
    if rs == [] then e
    else
      OneAnswer(e, rs[0]);
      AnswerAll(OnSubmitResp(e, rs[0]), rs[1..])
  }

  /** Normal responses, not those that ask the sender to slow down. */
  predicate NoneLimited(rs: seq<Json>) {
    forall t :: 0 <= t < |rs| ==> !rs[t].speedLimit
  }

  function Routed(m: Json): Json {
    m.(seqId := None, seqIds := [])
  }

  lemma AnswersSnoc(log: seq<Output>, o: Output)
    ensures Answers(log + [o])
         == Answers(log) + if o.Published? && o.topic == SubmitRespTopic then [o.msg] else []
  {
    assert (log + [o])[..|log|] == log;
  }

  lemma RecheckKeeps(e: State)
    ensures Recheck(e).links == e.links && Recheck(e).receipts == e.receipts
    ensures Answers(Recheck(e).log) == Answers(e.log)
  {
    AnswersSnoc(e.log, StateChange(StateCode(false, e.connNum)));
  }

  lemma AnswerQueued(e: State, m: Json)
    ensures Answers(ToQueue(e, SubmitRespTopic, m).log) == Answers(e.log) + [Routed(m)]
    ensures ToQueue(e, SubmitRespTopic, m).links == e.links && ToQueue(e, SubmitRespTopic, m).receipts == e.receipts
  {
    AnswersSnoc(e.log, Published(SubmitRespTopic, Routed(m)));
  }

  /** A response takes its own entry out and is published once, with what that entry says. */
  lemma OneAnswer(e: State, r: Json)
    requires DistinctIds(e.links) && !r.speedLimit
    ensures OnSubmitResp(e, r).links == e.links && OnSubmitResp(e, r).receipts == e.receipts - {SeqKey(r)}
    ensures Answers(OnSubmitResp(e, r).log) == Answers(e.log) + [Routed(Reply(e.receipts, r))]
  {
    if SeqKey(r) in e.receipts {
      var taken := e.(receipts := e.receipts - {SeqKey(r)});
      RecheckKeeps(taken);
      AnswerQueued(Recheck(taken), Reply(e.receipts, r));
    } else {
      AnswerQueued(e, r);
      assert e.receipts - {SeqKey(r)} == e.receipts;
    }
  }

  function Keys(rs: seq<Json>): set<nat> {
    set t | 0 <= t < |rs| :: SeqKey(rs[t])
  }

  function Expected(receipts: map<nat, Json>, rs: seq<Json>): (out: seq<Json>)
    ensures |out| == |rs|
    decreases |rs|
  {
    if rs == [] then []
    else [Routed(Reply(receipts, rs[0]))] + Expected(receipts - {SeqKey(rs[0])}, rs[1..])
  }

  lemma AnswerFirst(e: State, rs: seq<Json>) returns (next: State)
    requires DistinctIds(e.links) && NoneLimited(rs) && rs != []
    ensures DistinctIds(next.links) && next.receipts == e.receipts - {SeqKey(rs[0])}
    ensures Answers(next.log) == Answers(e.log) + [Routed(Reply(e.receipts, rs[0]))]
    ensures AnswerAll(e, rs) == AnswerAll(next, rs[1..])
  {
    OneAnswer(e, rs[0]);
    next := OnSubmitResp(e, rs[0]);
  }

  lemma {:induction false} AnswersAre(e: State, rs: seq<Json>)
    requires DistinctIds(e.links) && NoneLimited(rs)
    ensures AnswerAll(e, rs).receipts == e.receipts - Keys(rs)
    ensures Answers(AnswerAll(e, rs).log) == Answers(e.log) + Expected(e.receipts, rs)
    decreases |rs|
  {
    if rs != [] {
      var next := AnswerFirst(e, rs);
      AnswersAre(next, rs[1..]);
      TakenOut(e.receipts, rs);
    } else {
      assert e.receipts - Keys(rs) == e.receipts;
    }
  }

  lemma TakenOut(receipts: map<nat, Json>, rs: seq<Json>)
    requires rs != []
    ensures receipts - {SeqKey(rs[0])} - Keys(rs[1..]) == receipts - Keys(rs)
  {
    KeysCons(rs);
  }

  lemma KeysCons(rs: seq<Json>)
    requires rs != []
    ensures Keys(rs) == {SeqKey(rs[0])} + Keys(rs[1..])
  {
    KeysPrefix(rs, |rs|);
    assert rs[..|rs|] == rs && rs[1..][..|rs| - 1] == rs[1..];
  }

  /** What a response says goes out: with its entry's account id and the peer's id beside it, or as it came. */
  predicate Matched(out: Json, r: Json, account: Option<Str>) {
    out.accountMsgId == account && out.passageMsgId == r.msgId && out.msgId == None
  }

  predicate Unmatched(out: Json, r: Json) {
    out.accountMsgId == r.accountMsgId && out.passageMsgId == r.passageMsgId && out.msgId == r.msgId
  }

  /** The first response with a number gets that number's account id, a later one only what it came with. */
  lemma {:induction false} ExpectedAt(receipts: map<nat, Json>, rs: seq<Json>, t: nat)
    requires t < |rs|
    ensures if SeqKey(rs[t]) in receipts && SeqKey(rs[t]) !in Keys(rs[..t])
            then Matched(Expected(receipts, rs)[t], rs[t], receipts[SeqKey(rs[t])].accountMsgId)
            else Unmatched(Expected(receipts, rs)[t], rs[t])
    decreases t
  {
    if t > 0 {
      ExpectedAt(receipts - {SeqKey(rs[0])}, rs[1..], t - 1);
      KeysPrefix(rs, t);
    }
  }

  lemma KeysPrefix(rs: seq<Json>, t: nat)
    requires 0 < t <= |rs|
    ensures Keys(rs[..t]) == {SeqKey(rs[0])} + Keys(rs[1..][..t - 1])
  {
    forall n | 1 <= n < t
      ensures rs[..t][n] == rs[1..][..t - 1][n - 1]
    {
    }
  }

  /** The task after a sent submit has come back for its receipts and then these responses, in this order. */
  function AfterResponses(e: State, m: Json, rs: seq<Json>): State
    requires DistinctIds(e.links) && NoneLimited(rs)
  {
    AnswerAll(e.(receipts := Insert(e.receipts, m)), rs)
  }

  /** A submit's own numbers. */
  function OwnKeys(m: Json): set<nat> {
    set k | 0 <= k < Parts(m) :: m.seqIds[k]
  }

  /**
    Whatever responses arrive, in whatever order and however many times, the
    first with the number of part `k` is published with exactly the account id
    of part `k` beside the peer's own id, and later ones as they came.
   */
  lemma Correlated(e: State, m: Json, rs: seq<Json>, t: nat, k: nat)
    requires DistinctIds(e.links) && NoneLimited(rs) && Distinct(m.seqIds)
    requires t < |rs| && k < Parts(m) && rs[t].seqId == Some(m.seqIds[k])
    ensures var out := Answers(AfterResponses(e, m, rs).log);
      |out| == |Answers(e.log)| + |rs|
      && if SeqKey(rs[t]) in Keys(rs[..t]) then Unmatched(out[|Answers(e.log)| + t], rs[t])
         else Matched(out[|Answers(e.log)| + t], rs[t], Some(m.msgIds[k]))
  {
    var waiting := e.(receipts := Insert(e.receipts, m));
    InsertedSpec(e.receipts, m);
    AnswersAre(waiting, rs);
    ExpectedAt(waiting.receipts, rs, t);
  }

  /** Once each part has been answered, and nothing else, the receipt map is as it was before the submit. */
  lemma MapReturns(e: State, m: Json, rs: seq<Json>)
    requires DistinctIds(e.links) && NoneLimited(rs) && Distinct(m.seqIds)
    requires Keys(rs) == OwnKeys(m) && OwnKeys(m) !! e.receipts.Keys
    ensures AfterResponses(e, m, rs).receipts == e.receipts
  {
    InsertedSpec(e.receipts, m);
    AnswersAre(e.(receipts := Insert(e.receipts, m)), rs);
    assert forall key :: key in m.seqIds[..Parts(m)] <==> key in OwnKeys(m);
  }
}
