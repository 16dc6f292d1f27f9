/** A connection's task: `start_work` and `clear` in src/entity/channel.rs. */
module Channel {
  import opened Wrappers
  import opened Messages

  /** Whether the loop goes on, has returned, or has returned after emptying its queues. */
  datatype Phase = Working | Returned | Cleared

  /** The window of one second and the heartbeat. */
  datatype Window = Window(
    txLimit: nat,
    rxLimit: nat,
    currTx: nat,
    currRx: nat,
    second: nat,
    idle: nat,
    waitActive: bool,
    phase: Phase
  )

  datatype Status = Success | TrafficRestrictions

  /** What a turn of the loop does to the outside. */
  datatype Act =
    | Bounced(m: Json)                      // handed back to the entity, marked as too fast
    | Sent(m: Json)                         // written to the peer and handed to the entity to wait for its receipt
    | Unrecorded(m: Json)                   // written to the peer, but the entity could not be told
    | WriteFailed(m: Json)                  // given to the failure topic
    | Lost(m: Json)                         // only logged
    | Answered(status: Status)              // a receipt written to the peer
    | Forwarded(m: Json)                    // given to the entity
    | HeartBeat

  /** What happens in one turn of the loop, at a time given in whole seconds. */
  datatype Event = Event(now: nat, what: Choice)

  /**
    The arm of the `select!` that runs, with what the outside contributes to
    it; `handed` says whether the entity's mailbox still takes messages.
   */
  datatype Choice =
    | FromEntity(m: Json, priority: bool, encoded: Option<Json>, written: bool, handed: bool)
    | FromPeer(m: Json, receipt: bool, written: bool, handed: bool)
    | WindowOver
    | IdleSecond
    | QueueClosed
    | PeerGone
    | BadPacket

  function Parts(m: Json): nat {
    |m.msgIds|
  }

  /** A new second opens a new window; the subtraction of the source needs a clock that does not run backwards. */
  function Renew(w: Window, now: nat): Window {
    if now >= w.second + 1 then w.(currTx := 0, currRx := 0, second := now) else w
  }

  /** After more than 30 idle seconds a heartbeat is due. */
  function Beat(w: Window): (r: (Window, seq<Act>)) {
    if w.idle > 30 && !w.waitActive then (w.(waitActive := true, idle := 0), [HeartBeat]) else (w, [])
  }

  /** No answer to the last heartbeat: the loop ends. */
  predicate Dead(w: Window) {
    w.idle > 30 && w.waitActive
  }

  /** A message from one of the two queues; they are read only while the window has room. */
  function Take(w: Window, m: Json, priority: bool, encoded: Option<Json>, written: bool, handed: bool)
    : (r: (Window, seq<Act>))
  {
    var w := w.(idle := 0);
    if Parts(m) + w.currTx > w.txLimit then
      var full := w.(currTx := w.txLimit);
      if handed then (full, [Bounced(m.(speedLimit := true))])
      else (full.(phase := Returned), [Lost(m.(speedLimit := true))])
    else
      match encoded
      case None => (w, [Lost(m)])
      case Some(e) =>
        if !written then (w, [if priority then WriteFailed(e) else Lost(e)])
        else
          var counted := w.(currTx := w.currTx + Parts(m));
          if handed then (counted, [Sent(e.(waitReceipt := true))])
          else (counted.(phase := Returned), [Unrecorded(e.(waitReceipt := true))])
  }

  /** A packet from the peer; one the entity does not take any more is only logged. */
  function Receive(w: Window, m: Json, id: nat, receipt: bool, written: bool, handed: bool): (r: (Window, seq<Act>)) {
    var w := w.(waitActive := false, currRx := if m.kind == Submit then w.currRx + 1 else w.currRx);
    var m := if m.kind == Terminate then m.(id := Some(id)) else m;
    var forwarded := if handed then [Forwarded(m)] else [];
    if m.kind != Submit || w.currRx <= w.rxLimit then
      (w, if !receipt then forwarded else if written then [Answered(Status.Success)] + forwarded else [])
    else
      (w, if !receipt then forwarded else if written then [Answered(TrafficRestrictions)] else [])
  }

  /** The arm of the `select!` that runs. */
  function Arm(w: Window, id: nat, what: Choice): (r: (Window, seq<Act>)) {
    match what
    case FromEntity(m, priority, encoded, written, handed) =>
      if w.currTx < w.txLimit then Take(w, m, priority, encoded, written, handed) else (w, [])
    case FromPeer(m, receipt, written, handed) => Receive(w, m, id, receipt, written, handed)
    case WindowOver => (w, [])
    case IdleSecond => (w.(idle := w.idle + 1), [])
    case QueueClosed => (w.(phase := Cleared), [])
    case PeerGone => (w.(phase := Cleared), [])
    case BadPacket => (w.(phase := Returned), [])
  }

  /** One turn of the loop. */
  function Turn(w: Window, id: nat, e: Event): (r: (Window, seq<Act>)) {
    var w := Renew(w, e.now);
    if Dead(w) then (w.(phase := Returned), [])
    else
      var (w, beat) := Beat(w);
      var (w, acts) := Arm(w, id, e.what);
      (w, beat + acts)
  }

  /** The turns of a run, until the loop returns. */
  function Run(w: Window, id: nat, events: seq<Event>): (r: (Window, seq<Act>))
    decreases |events|
  {
    if events == [] then (w, [])
    else
      var (before, acts) := Run(w, id, events[..|events| - 1]);
      if before.phase != Working then (before, acts)
      else
        var (after, more) := Turn(before, id, events[|events| - 1]);
        (after, acts + more)
  }

  // ---------- rates ----------

  /** How many packets a message is written as: one for each number the encoder drew, or one that has none. */
  function Packets(m: Json): nat {
    if m.seqIds == [] then 1 else |m.seqIds|
  }

  predicate Written(a: Act) {
    a.Sent? || a.Unrecorded?
  }

  function PacketsOf(a: Act): nat {
    if Written(a) then Packets(a.m) else 0
  }

  function PacketsSent(acts: seq<Act>): nat {
    if acts == [] then 0 else PacketsOf(acts[0]) + PacketsSent(acts[1..])
  }

  lemma {:induction false} PacketsSentAdd(a: seq<Act>, b: seq<Act>)
    ensures PacketsSent(a + b) == PacketsSent(a) + PacketsSent(b)
  {
    if a == [] {
      assert a + b == b;
    } else {
      assert (a + b)[1..] == a[1..] + b;
      PacketsSentAdd(a[1..], b);
    }
  }

  /** The ids that a message taken from a queue in this turn, and written, carried in the queue. */
  function IdsTakenBy(w: Window, id: nat, e: Event): nat {
    if e.what.FromEntity? && (exists a :: a in Turn(w, id, e).1 && Written(a)) then Parts(e.what.m) else 0
  }

  /** The same over a run. */
  function IdsTaken(w: Window, id: nat, events: seq<Event>): nat
    decreases |events|
  {
    if events == [] then 0
    else
      var front, e := events[..|events| - 1], events[|events| - 1];
      IdsTaken(w, id, front)
      + if Run(w, id, front).0.phase == Working then IdsTakenBy(Run(w, id, front).0, id, e) else 0
  }

  /** The time of the last event. */
  function LastNow(second: nat, events: seq<Event>): nat {
    if events == [] then second else events[|events| - 1].now
  }

  /** The clock does not run backwards. */
  predicate Regular(second: nat, events: seq<Event>)
    decreases |events|
  {
    events == []
    || (var front, e := events[..|events| - 1], events[|events| - 1];
        Regular(second, front) && LastNow(second, front) <= e.now)
  }

  lemma TurnLimit(w: Window, id: nat, e: Event) returns (after: Window)
    requires w.currTx <= w.txLimit
    ensures after == Turn(w, id, e).0 && after.currTx <= after.txLimit == w.txLimit
  {
    after := Turn(w, id, e).0;
  }

  /** The limit holds whatever happens. */
  lemma {:induction false} NeverOverLimit(w: Window, id: nat, events: seq<Event>)
    requires w.currTx <= w.txLimit
    ensures Run(w, id, events).0.currTx <= w.txLimit
    ensures Run(w, id, events).0.txLimit == w.txLimit
    decreases |events|
  {
    if events != [] {
      NeverOverLimit(w, id, events[..|events| - 1]);
      var before, _ := RunSplit(w, id, events);
      if before.phase == Working {
        var _ := TurnLimit(before, id, events[|events| - 1]);
      }
    }
  }

  /** The window's count grows by what a message written carried in the queue. */
  lemma ArmTakes(w: Window, id: nat, what: Choice)
    requires w.currTx <= w.txLimit
    ensures var (after, acts) := Arm(w, id, what);
      after.second == w.second && after.txLimit == w.txLimit && w.currTx <= after.currTx <= w.txLimit
      && ((exists a :: a in acts && Written(a)) ==> what.FromEntity? && after.currTx == w.currTx + Parts(what.m))
  {
  }

  /** One turn takes no more ids than the window's count grows by, after a new window has begun with zero. */
  lemma TurnTakes(w: Window, id: nat, e: Event) returns (after: Window, acts: seq<Act>)
    requires w.currTx <= w.txLimit
    ensures (after, acts) == Turn(w, id, e)
    ensures after.txLimit == w.txLimit && IdsTakenBy(w, id, e) <= after.currTx <= w.txLimit
    ensures if e.now > w.second then after.second == e.now
            else after.second == w.second && IdsTakenBy(w, id, e) + w.currTx <= after.currTx
  {
    after, acts := Turn(w, id, e).0, Turn(w, id, e).1;
    if !Dead(Renew(w, e.now)) {
      var (beaten, beat) := Beat(Renew(w, e.now));
      ArmTakes(beaten, id, e.what);
      assert forall a :: a in acts && Written(a) ==> a in Arm(beaten, id, e.what).1;
    }
  }

  /** A run is its beginning and one more turn, unless the loop has returned. */
  lemma RunSplit(w: Window, id: nat, events: seq<Event>) returns (before: Window, acts: seq<Act>)
    requires events != []
    ensures (before, acts) == Run(w, id, events[..|events| - 1])
    ensures var e := events[|events| - 1];
      Run(w, id, events) == if before.phase != Working then (before, acts)
                            else (Turn(before, id, e).0, acts + Turn(before, id, e).1)
  {
    before, acts := Run(w, id, events[..|events| - 1]).0, Run(w, id, events[..|events| - 1]).1;
  }

  function Budget(limit: nat, seconds: nat): nat {
    if seconds == 0 then 0 else limit + Budget(limit, seconds - 1)
  }

  lemma {:induction false} BudgetIs(limit: nat, seconds: nat)
    ensures Budget(limit, seconds) == limit * seconds
  {
    if seconds > 0 {
      BudgetIs(limit, seconds - 1);
    }
  }

  lemma {:induction false} BudgetGrows(limit: nat, a: nat, b: nat)
    requires a < b
    ensures Budget(limit, a) + limit <= Budget(limit, b)
    decreases b
  {
    if a + 1 < b {
      BudgetGrows(limit, a, b - 1);
    }
  }

  /** What has been taken stays within the limit for each past second and the count of the current one. */
  predicate Bounded(w: Window, after: Window, taken: nat, now: nat) {
    after.currTx <= after.txLimit == w.txLimit && w.second <= after.second <= now
    && taken <= Budget(w.txLimit, after.second - w.second) + after.currTx
  }

  lemma BoundedNext(w: Window, before: Window, taken: nat, after: Window, more: nat, earlier: nat, now: nat)
    requires Bounded(w, before, taken, earlier) && earlier <= now
    requires after.txLimit == before.txLimit && more <= after.currTx <= after.txLimit
    requires if now > before.second then after.second == now
             else after.second == before.second && more + before.currTx <= after.currTx
    ensures Bounded(w, after, taken + more, now)
  {
    if now > before.second {
      BudgetGrows(w.txLimit, before.second - w.second, now - w.second);
    }
  }

  lemma {:induction false} WithinBudget(w: Window, id: nat, events: seq<Event>)
    requires w.currTx <= w.txLimit && Regular(w.second, events)
    ensures Bounded(w, Run(w, id, events).0, IdsTaken(w, id, events), LastNow(w.second, events))
    decreases |events|
  {
    if events != [] {
      var front, e := events[..|events| - 1], events[|events| - 1];
      WithinBudget(w, id, front);
      var before, acts := RunSplit(w, id, events);
      if before.phase == Working {
        var after, _ := TurnTakes(before, id, e);
        BoundedNext(w, before, IdsTaken(w, id, front), after, IdsTakenBy(before, id, e),
                    LastNow(w.second, front), e.now);
      }
    }
  }

  /** How much a run from this window may take by its last event. */
  function Allowance(w: Window, events: seq<Event>): int {
    w.txLimit * (LastNow(w.second, events) - w.second + 1)
  }

  /** The messages written over a run carried no more ids in the queue than the limit times the seconds it touches. */
  lemma RateBound(w: Window, id: nat, events: seq<Event>)
    requires w.currTx <= w.txLimit && Regular(w.second, events)
    ensures IdsTaken(w, id, events) <= Allowance(w, events)
  {
    WithinBudget(w, id, events);
    var after, last := Run(w, id, events).0, LastNow(w.second, events);
    BudgetGrows(w.txLimit, after.second - w.second, last - w.second + 1);
    BudgetIs(w.txLimit, last - w.second + 1);
  }

  // ---------- packets ----------

  /** A queued message carries at least as many ids as the encoder makes packets of it. */
  predicate EnoughIds(e: Event) {
    e.what.FromEntity? && e.what.encoded.Some? ==> Packets(e.what.encoded.value) <= Parts(e.what.m)
  }

  predicate AllEnoughIds(events: seq<Event>) {
    forall i :: 0 <= i < |events| ==> EnoughIds(events[i])
  }

  lemma ArmPackets(w: Window, id: nat, what: Choice)
    requires what.FromEntity? && what.encoded.Some? ==> Packets(what.encoded.value) <= Parts(what.m)
    ensures var acts := Arm(w, id, what).1;
      PacketsSent(acts) <= if what.FromEntity? && (exists a :: a in acts && Written(a)) then Parts(what.m) else 0
  {
    var acts := Arm(w, id, what).1;
    assert |acts| <= 2;
    AtMostTwo(acts);
    assert |acts| > 0 ==> acts[0] in acts;
  }

  lemma AtMostTwo(acts: seq<Act>)
    requires |acts| <= 2
    ensures PacketsSent(acts) == (if |acts| > 0 then PacketsOf(acts[0]) else 0)
                               + (if |acts| > 1 then PacketsOf(acts[1]) else 0)
  {
    if |acts| == 2 {
      assert acts[1..][0] == acts[1] && acts[1..][1..] == [];
    }
  }

  lemma TurnPackets(w: Window, id: nat, e: Event)
    requires EnoughIds(e)
    ensures PacketsSent(Turn(w, id, e).1) <= IdsTakenBy(w, id, e)
  {
    if !Dead(Renew(w, e.now)) {
      var (beaten, beat) := Beat(Renew(w, e.now));
      var acts := Arm(beaten, id, e.what).1;
      ArmPackets(beaten, id, e.what);
      PacketsSentAdd(beat, acts);
      assert forall a :: a in acts ==> a in Turn(w, id, e).1;
    }
  }

  lemma {:induction false} PacketsWithinIds(w: Window, id: nat, events: seq<Event>)
    requires AllEnoughIds(events)
    ensures PacketsSent(Run(w, id, events).1) <= IdsTaken(w, id, events)
    decreases |events|
  {
    if events != [] {
      var front, e := events[..|events| - 1], events[|events| - 1];
      PacketsWithinIds(w, id, front);
      var before, acts := RunSplit(w, id, events);
      if before.phase == Working {
        assert EnoughIds(e);
        TurnPackets(before, id, e);
        PacketsSentAdd(acts, Turn(before, id, e).1);
      }
    }
  }

  /** If every message carries enough ids, the packets written keep to the limit as well. */
  lemma PacketBound(w: Window, id: nat, events: seq<Event>)
    requires w.currTx <= w.txLimit && Regular(w.second, events) && AllEnoughIds(events)
    ensures PacketsSent(Run(w, id, events).1) <= Allowance(w, events)
  {
    PacketsWithinIds(w, id, events);
    RateBound(w, id, events);
  }

  /** The same queued message again and again, always encoded alike, written and recorded. */
  function Copies(m: Json, sent: Json, now: nat, n: nat): (events: seq<Event>)
    ensures |events| == n
  {
    seq(n, _ => Event(now, FromEntity(m, false, Some(sent), true, true)))
  }

  /** While the window has room every copy is written, and counted by its ids alone. */
  lemma {:induction false} CopiesWritten(w: Window, id: nat, m: Json, sent: Json, n: nat)
    requires w.phase == Working && w.idle == 0 && (n > 0 ==> w.currTx + (n - 1) * Parts(m) < w.txLimit)
    requires w.currTx + n * Parts(m) <= w.txLimit
    ensures var (after, acts) := Run(w, id, Copies(m, sent, w.second, n));
      after == w.(currTx := w.currTx + n * Parts(m)) && PacketsSent(acts) == n * Packets(sent)
    decreases n
  {
    if n > 0 {
      var events := Copies(m, sent, w.second, n);
      assert events[..n - 1] == Copies(m, sent, w.second, n - 1);
      OneLess(n, Parts(m));
      OneLess(n, Packets(sent));
      if n > 1 {
        OneLess(n - 1, Parts(m));
      }
      CopiesWritten(w, id, m, sent, n - 1);
      var before, acts := RunSplit(w, id, events);
      CopyWritten(before, id, m, sent);
      PacketsSentAdd(acts, Turn(before, id, events[n - 1]).1);
    }
  }

  lemma OneLess(n: nat, k: nat)
    requires n > 0
    ensures n * k == (n - 1) * k + k
  {
  }

  lemma CopyWritten(w: Window, id: nat, m: Json, sent: Json)
    requires w.phase == Working && w.idle == 0 && w.currTx < w.txLimit && w.currTx + Parts(m) <= w.txLimit
    ensures var (after, acts) := Turn(w, id, Event(w.second, FromEntity(m, false, Some(sent), true, true)));
      after == w.(currTx := w.currTx + Parts(m)) && PacketsSent(acts) == Packets(sent)
  {
    var acts := Turn(w, id, Event(w.second, FromEntity(m, false, Some(sent), true, true))).1;
    assert acts == [] + [Sent(sent.(waitReceipt := true))];
    AtMostTwo(acts);
  }

  /**
    Messages without ids, as every uplink message the business side hands over,
    are free: any number of them is written within one second.
   */
  lemma NoIdsNoLimit(w: Window, id: nat, m: Json, sent: Json, n: nat)
    requires w.phase == Working && w.idle == 0 && w.currTx < w.txLimit && m.msgIds == []
    ensures var (after, acts) := Run(w, id, Copies(m, sent, w.second, n));
      after == w && PacketsSent(acts) == n * Packets(sent) >= n
  {
    assert n * Parts(m) == 0 && (n - 1) * Parts(m) == 0;
    CopiesWritten(w, id, m, sent, n);
    AtLeastOnce(n, Packets(sent));
  }

  lemma AtLeastOnce(n: nat, k: nat)
    requires k >= 1
    ensures n * k >= n
  {
  }

  /** All queued messages are this one, and it is always encoded alike. */
  predicate OnlyThis(events: seq<Event>, m: Json, sent: Json) {
    forall i :: 0 <= i < |events| && events[i].what.FromEntity? ==>
      events[i].what.m == m && (events[i].what.encoded.Some? ==> events[i].what.encoded.value == sent)
  }

  ghost predicate WithinLimit(w: Window, id: nat, events: seq<Event>) {
    w.currTx <= w.txLimit && Regular(w.second, events) ==> PacketsSent(Run(w, id, events).1) <= Allowance(w, events)
  }

  /** Whatever the limit and whatever happens, runs with this message keep to it. */
  ghost predicate KeepsToLimit(m: Json, sent: Json) {
    forall w, id, events :: OnlyThis(events, m, sent) ==> WithinLimit(w, id, events)
  }

  /** A message keeps to every limit exactly if it carries as many ids as it is written as packets. */
  lemma KeepsToLimitIff(m: Json, sent: Json)
    ensures KeepsToLimit(m, sent) <==> Packets(sent) <= Parts(m)
  {
    if Packets(sent) <= Parts(m) {
      forall w, id, events | OnlyThis(events, m, sent)
        ensures WithinLimit(w, id, events)
      {
        if w.currTx <= w.txLimit && Regular(w.second, events) {
          PacketBound(w, id, events);
        }
      }
    } else {
      ExceedsSomeLimit(m, sent);
    }
  }

  lemma ExceedsSomeLimit(m: Json, sent: Json)
    requires Packets(sent) > Parts(m)
    ensures !KeepsToLimit(m, sent)
  {
    if Parts(m) == 0 {
      TooMany(Window(1, 0, 0, 0, 0, 0, false, Working), m, sent, 2);
    } else {
      TooMany(Window(Parts(m), 0, 0, 0, 0, 0, false, Working), m, sent, 1);
    }
  }

  lemma TooMany(w: Window, m: Json, sent: Json, n: nat)
    requires w.phase == Working && w.idle == 0 && w.currTx == 0 && w.second == 0 && 1 <= n <= 2
    requires (n - 1) * Parts(m) < w.txLimit && n * Parts(m) <= w.txLimit < n * Packets(sent)
    ensures !KeepsToLimit(m, sent)
  {
    var events := Copies(m, sent, 0, n);
    CopiesWritten(w, 0, m, sent, n);
    assert Regular(w.second, events) by {
      assert events[..n - 1] == Copies(m, sent, 0, n - 1);
      assert Regular(0, Copies(m, sent, 0, 1)[..0]);
    }
    assert Allowance(w, events) == w.txLimit;
    assert OnlyThis(events, m, sent) && !WithinLimit(w, 0, events);
  }

  /** Submits the peer has sent in a run. */
  function Received(events: seq<Event>): nat {
    if events == [] then 0 else Received(events[..|events| - 1]) + Counted(events[|events| - 1])
  }

  function Counted(e: Event): nat {
    if e.what.FromPeer? && e.what.m.kind == Submit then 1 else 0
  }

  function Accepted(acts: seq<Act>): nat {
    if acts == [] then 0 else (if Accepts(acts[0]) then 1 else 0) + Accepted(acts[1..])
  }

  lemma {:induction false} AcceptedAdd(a: seq<Act>, b: seq<Act>)
    ensures Accepted(a + b) == Accepted(a) + Accepted(b)
  {
    if a == [] {
      assert a + b == b;
    } else {
      assert (a + b)[1..] == a[1..] + b;
      AcceptedAdd(a[1..], b);
    }
  }

  /** The run stays within the second its window began in, and the loop does not return. */
  predicate OneWindow(w: Window, id: nat, events: seq<Event>)
    decreases |events|
  {
    events == []
    || (var front, e := events[..|events| - 1], events[|events| - 1];
        OneWindow(w, id, front) && e.now == w.second && Run(w, id, front).0.phase == Working
        && !Dead(Run(w, id, front).0))
  }

  function Min(a: nat, b: nat): nat {
    if a < b then a else b
  }

  /** Whether the window's `n`-th submit goes to the entity: its receipt, if it gets one, must be written first. */
  predicate Passes(n: nat, limit: nat, e: Event) {
    Counted(e) == 1 && e.what.handed && (!e.what.receipt || (n <= limit && e.what.written))
  }

  /** How many of a window's submits go to the entity. */
  function Passed(events: seq<Event>, limit: nat): nat {
    if events == [] then 0
    else
      Passed(events[..|events| - 1], limit) + if Passes(Received(events), limit, events[|events| - 1]) then 1 else 0
  }

  lemma ArmAccepts(w: Window, id: nat, e: Event)
    ensures var (after, acts) := Arm(w, id, e.what);
      after.second == w.second && after.rxLimit == w.rxLimit && after.currRx == w.currRx + Counted(e)
      && Accepted(acts) == if Passes(after.currRx, w.rxLimit, e) then 1 else 0
  {
    AcceptedAtMostTwo(Arm(w, id, e.what).1);
  }

  predicate Accepts(a: Act) {
    a.Forwarded? && a.m.kind == Submit
  }

  lemma AcceptedAtMostTwo(acts: seq<Act>)
    requires |acts| <= 2
    ensures Accepted(acts) == (if |acts| > 0 && Accepts(acts[0]) then 1 else 0)
                            + (if |acts| > 1 && Accepts(acts[1]) then 1 else 0)
  {
    if |acts| == 2 {
      assert acts[1..][0] == acts[1] && acts[1..][1..] == [];
    }
  }

  lemma TurnAccepts(w: Window, id: nat, e: Event) returns (after: Window, acts: seq<Act>)
    ensures (after, acts) == Turn(w, id, e)
    ensures after.rxLimit == w.rxLimit && after.second == Renew(w, e.now).second
    ensures !Dead(Renew(w, e.now)) ==>
      after.currRx == Renew(w, e.now).currRx + Counted(e)
      && Accepted(acts) == if Passes(after.currRx, w.rxLimit, e) then 1 else 0
    ensures Dead(Renew(w, e.now)) ==> after.currRx == Renew(w, e.now).currRx && Accepted(acts) == 0
  {
    after, acts := Turn(w, id, e).0, Turn(w, id, e).1;
    if !Dead(Renew(w, e.now)) {
      var (beaten, beat) := Beat(Renew(w, e.now));
      ArmAccepts(beaten, id, e);
      AcceptedAdd(beat, Arm(beaten, id, e.what).1);
    }
  }

  /** In one window exactly those submits are accepted that the counter and their receipts let through. */
  lemma {:induction false} AcceptsExactly(w: Window, id: nat, events: seq<Event>)
    requires w.currRx == 0 && OneWindow(w, id, events)
    ensures var (after, acts) := Run(w, id, events);
      after.second == w.second && after.rxLimit == w.rxLimit && after.currRx == Received(events)
      && Accepted(acts) == Passed(events, w.rxLimit)
    decreases |events|
  {
    if events != [] {
      var e := events[|events| - 1];
      AcceptsExactly(w, id, events[..|events| - 1]);
      var before, acts := RunSplit(w, id, events);
      var _, more := TurnAccepts(before, id, e);
      AcceptedAdd(acts, more);
    }
  }

  /** Whether the window's `n`-th submit may go to the entity at all: within the limit, or without a receipt. */
  predicate Due(n: nat, limit: nat, e: Event) {
    Counted(e) == 1 && (n <= limit || !e.what.receipt)
  }

  function AllDue(events: seq<Event>, limit: nat): nat {
    if events == [] then 0
    else AllDue(events[..|events| - 1], limit) + if Due(Received(events), limit, events[|events| - 1]) then 1 else 0
  }

  /** The receipts of those submits, as far as they have one, go out, and they themselves to the entity. */
  predicate DueGoOut(events: seq<Event>, limit: nat)
    decreases |events|
  {
    events == []
    || (var e := events[|events| - 1];
        DueGoOut(events[..|events| - 1], limit)
        && (Due(Received(events), limit, e) ==> e.what.handed && (e.what.receipt ==> e.what.written)))
  }

  lemma {:induction false} PassedAtMost(events: seq<Event>, limit: nat)
    ensures Passed(events, limit) <= AllDue(events, limit)
    ensures Passed(events, limit) == AllDue(events, limit) <==> DueGoOut(events, limit)
    decreases |events|
  {
    if events != [] {
      PassedAtMost(events[..|events| - 1], limit);
    }
  }

  /** How many submits came without a receipt. */
  function Unreceipted(events: seq<Event>): nat {
    if events == [] then 0 else Unreceipted(events[..|events| - 1]) + Bare(events[|events| - 1])
  }

  function Bare(e: Event): nat {
    if Counted(e) == 1 && !e.what.receipt then 1 else 0
  }

  lemma {:induction false} DueBounds(events: seq<Event>, limit: nat)
    ensures Min(Received(events), limit) <= AllDue(events, limit) <= Min(Received(events), limit) + Unreceipted(events)
    decreases |events|
  {
    if events != [] {
      DueBounds(events[..|events| - 1], limit);
    }
  }

  /**
    A window accepts at most the first `limit` submits and those without a
    receipt, and all of them exactly if they and their receipts get through. If
    every submit has a receipt these are min(received, limit).
   */
  lemma AcceptsUpToLimitIff(w: Window, id: nat, events: seq<Event>)
    requires w.currRx == 0 && OneWindow(w, id, events)
    ensures var accepted, due := Accepted(Run(w, id, events).1), AllDue(events, w.rxLimit);
      && accepted <= due && (accepted == due <==> DueGoOut(events, w.rxLimit))
      && Min(Received(events), w.rxLimit) <= due <= Min(Received(events), w.rxLimit) + Unreceipted(events)
  {
    AcceptsExactly(w, id, events);
    PassedAtMost(events, w.rxLimit);
    DueBounds(events, w.rxLimit);
  }

  // ---------- accepted submits over many windows ----------

  /** What has been accepted stays within the limit for each past second and the count of the current one. */
  predicate RxBounded(w: Window, after: Window, accepted: nat, bare: nat, now: nat) {
    after.rxLimit == w.rxLimit && w.second <= after.second <= now
    && accepted <= Budget(w.rxLimit, after.second - w.second) + Min(after.currRx, w.rxLimit) + bare
  }

  lemma RxBoundedNext(w: Window, before: Window, accepted: nat, bare: nat, after: Window, more: nat, one: nat,
                      earlier: nat, now: nat)
    requires RxBounded(w, before, accepted, bare, earlier) && earlier <= now && after.rxLimit == before.rxLimit
    requires if now > before.second then after.second == now && more <= Min(after.currRx, w.rxLimit) + one
             else after.second == before.second
                  && more + Min(before.currRx, w.rxLimit) <= Min(after.currRx, w.rxLimit) + one
    ensures RxBounded(w, after, accepted + more, bare + one, now)
  {
    if now > before.second {
      BudgetGrows(w.rxLimit, before.second - w.second, now - w.second);
    }
  }

  lemma {:induction false} WithinRxBudget(w: Window, id: nat, events: seq<Event>)
    requires Regular(w.second, events)
    ensures RxBounded(w, Run(w, id, events).0, Accepted(Run(w, id, events).1), Unreceipted(events),
                      LastNow(w.second, events))
    decreases |events|
  {
    if events == [] {
      assert Accepted([]) == 0;
    } else {
      var front, e := events[..|events| - 1], events[|events| - 1];
      WithinRxBudget(w, id, front);
      var before, acts := RunSplit(w, id, events);
      if before.phase == Working {
        var after, more := TurnAccepts(before, id, e);
        AcceptedAdd(acts, more);
        RxBoundedNext(w, before, Accepted(acts), Unreceipted(front), after, Accepted(more), Bare(e),
                      LastNow(w.second, front), e.now);
      }
    }
  }

  /** Over a run no more submits are accepted than the limit times the seconds it touches,
      but for those without a receipt. */
  lemma RxBound(w: Window, id: nat, events: seq<Event>)
    requires Regular(w.second, events)
    ensures Accepted(Run(w, id, events).1)
         <= w.rxLimit * (LastNow(w.second, events) - w.second + 1) + Unreceipted(events)
  {
    WithinRxBudget(w, id, events);
    var after, last := Run(w, id, events).0, LastNow(w.second, events);
    BudgetGrows(w.rxLimit, after.second - w.second, last - w.second + 1);
    BudgetIs(w.rxLimit, last - w.second + 1);
  }

  // ---------- what the peer is told ----------

  /** The receipts written, in their order. */
  function Statuses(acts: seq<Act>): seq<Status> {
    if acts == [] then [] else StatusOf(acts[0]) + Statuses(acts[1..])
  }

  function StatusOf(a: Act): seq<Status> {
    if a.Answered? then [a.status] else []
  }

  lemma {:induction false} StatusesAdd(a: seq<Act>, b: seq<Act>)
    ensures Statuses(a + b) == Statuses(a) + Statuses(b)
  {
    if a == [] {
      assert a + b == b;
    } else {
      assert (a + b)[1..] == a[1..] + b;
      StatusesAdd(a[1..], b);
      StatusesChain(StatusOf(a[0]), Statuses(a[1..]), Statuses(b));
    }
  }

  lemma StatusesChain(a: seq<Status>, b: seq<Status>, c: seq<Status>)
    ensures a + (b + c) == (a + b) + c
  {
  }

  /** This packet's receipt reaches the peer. */
  predicate Receipts(e: Event) {
    e.what.FromPeer? && e.what.receipt && e.what.written
  }

  /**
    What a window's receipts should say: a refusal for the submits beyond the
    first `limit` received, success for everything else.
   */
  function Wanted(events: seq<Event>, limit: nat): seq<Status> {
    if events == [] then []
    else
      var e := events[|events| - 1];
      Wanted(events[..|events| - 1], limit)
      + if !Receipts(e) then []
        else if e.what.m.kind == Submit && Received(events) > limit then [TrafficRestrictions] else [Status.Success]
  }

  /** What one packet is answered. */
  lemma ArmAnswers(w: Window, id: nat, e: Event)
    ensures Statuses(Arm(w, id, e.what).1)
         == if !Receipts(e) then []
            else if e.what.m.kind == Submit && w.currRx + 1 > w.rxLimit then [TrafficRestrictions] else [Status.Success]
  {
    var acts := Arm(w, id, e.what).1;
    assert |acts| <= 2;
    TwoStatuses(acts);
  }

  lemma TwoStatuses(acts: seq<Act>)
    requires |acts| <= 2
    ensures Statuses(acts)
         == (if |acts| > 0 then StatusOf(acts[0]) else []) + if |acts| > 1 then StatusOf(acts[1]) else []
  {
    if |acts| == 2 {
      assert acts[1..][0] == acts[1] && acts[1..][1..] == [];
    }
  }

  lemma TurnAnswers(w: Window, id: nat, e: Event)
    requires !Dead(Renew(w, e.now))
    ensures Statuses(Turn(w, id, e).1)
         == if !Receipts(e) then []
            else if e.what.m.kind == Submit && Renew(w, e.now).currRx + 1 > w.rxLimit then [TrafficRestrictions]
            else [Status.Success]
  {
    var (beaten, beat) := Beat(Renew(w, e.now));
    ArmAnswers(beaten, id, e);
    TwoStatuses(beat);
    StatusesAdd(beat, Arm(beaten, id, e.what).1);
  }

  /** In one window every receipt that is written says whether its packet was within the limit. */
  lemma {:induction false} AnswersExactly(w: Window, id: nat, events: seq<Event>)
    requires w.currRx == 0 && OneWindow(w, id, events)
    ensures Statuses(Run(w, id, events).1) == Wanted(events, w.rxLimit)
    decreases |events|
  {
    if events != [] {
      var front, e := events[..|events| - 1], events[|events| - 1];
      AnswersExactly(w, id, front);
      AcceptsExactly(w, id, front);
      var before, acts := RunSplit(w, id, events);
      TurnAnswers(before, id, e);
      StatusesAdd(acts, Turn(before, id, e).1);
    }
  }

  function Count(statuses: seq<Status>, s: Status): nat {
    if statuses == [] then 0 else (if statuses[0] == s then 1 else 0) + Count(statuses[1..], s)
  }

  /** The receipts of one status that a run's submits got. */
  function SubmitsTold(w: Window, id: nat, events: seq<Event>, s: Status): nat
    decreases |events|
  {
    if events == [] then 0
    else
      var front, e := events[..|events| - 1], events[|events| - 1];
      var before := Run(w, id, front).0;
      SubmitsTold(w, id, front, s)
      + if before.phase == Working && Counted(e) == 1 then Count(Statuses(Turn(before, id, e).1), s) else 0
  }

  /** The submits a run reads. */
  function SubmitsRead(w: Window, id: nat, events: seq<Event>): nat
    decreases |events|
  {
    if events == [] then 0
    else
      var front, e := events[..|events| - 1], events[|events| - 1];
      var before := Run(w, id, front).0;
      SubmitsRead(w, id, front)
      + if before.phase == Working && !Dead(Renew(before, e.now)) then Counted(e) else 0
  }

  /** Receipts are made and written, and the entity takes what it is given. */
  predicate Delivered(e: Event) {
    Counted(e) == 1 ==> Receipts(e) && e.what.handed
  }

  lemma DeadIsSilent(w: Window, id: nat, e: Event)
    requires Dead(Renew(w, e.now))
    ensures Turn(w, id, e).1 == [] && Accepted([]) == 0 && Statuses([]) == []
  {
  }

  /**
    Over any run whose receipts get through, the submits told that they were
    taken are as many as were taken, and all others read are told that they
    were not.
   */
  lemma {:induction false} ToldIsTaken(w: Window, id: nat, events: seq<Event>)
    requires forall i :: 0 <= i < |events| ==> Delivered(events[i])
    ensures SubmitsTold(w, id, events, Status.Success) == Accepted(Run(w, id, events).1)
    ensures SubmitsTold(w, id, events, Status.Success) + SubmitsTold(w, id, events, TrafficRestrictions)
         == SubmitsRead(w, id, events)
    decreases |events|
  {
    if events != [] {
      var front, e := events[..|events| - 1], events[|events| - 1];
      ToldIsTaken(w, id, front);
      var before, acts := RunSplit(w, id, events);
      assert Delivered(e);
      if before.phase == Working {
        var _, more := TurnAccepts(before, id, e);
        AcceptedAdd(acts, more);
        if Dead(Renew(before, e.now)) {
          DeadIsSilent(before, id, e);
        } else {
          TurnAnswers(before, id, e);
          CountOne(Status.Success);
          CountOne(TrafficRestrictions);
        }
      }
    }
  }

  lemma CountOne(s: Status)
    ensures forall t :: Count([s], t) == if t == s then 1 else 0
  {
    assert [s][1..] == [];
  }

  /** Any packet but a submit goes to the entity as it is, a Terminate with the connection's id. */
  lemma OtherPacketsGoOn(w: Window, id: nat, m: Json, receipt: bool, written: bool, handed: bool)
    requires m.kind != Submit
    ensures var (after, acts) := Arm(w, id, FromPeer(m, receipt, written, handed));
      after == w.(waitActive := false)
      && acts == (if receipt && written then [Answered(Status.Success)] else [])
              + (if handed && (receipt ==> written)
                 then [Forwarded(if m.kind == Terminate then m.(id := Some(id)) else m)] else [])
  {
  }

  // ---------- what becomes of a queued message ----------

  /**
    One arm that reads a queue: nothing in a full window; a message that does
    not fit goes back marked and fills the window; one that cannot be encoded
    is only logged, as is one from the common queue that cannot be written,
    while one with priority goes to the failure topic; a written one counts by
    its ids and goes back to wait for its receipt. The task returns exactly if
    it cannot reach the entity.
   */
  lemma QueueArm(w: Window, id: nat, m: Json, priority: bool, encoded: Option<Json>, written: bool, handed: bool)
    requires w.phase == Working
    ensures var (after, acts) := Arm(w, id, FromEntity(m, priority, encoded, written, handed));
      var fits := |m.msgIds| + w.currTx <= w.txLimit;
      if w.currTx >= w.txLimit then after == w && acts == []
      else if !fits then
        after == w.(idle := 0, currTx := w.txLimit, phase := if handed then Working else Returned)
        && acts == [if handed then Bounced(m.(speedLimit := true)) else Lost(m.(speedLimit := true))]
      else if encoded == None then after == w.(idle := 0) && acts == [Lost(m)]
      else if !written then
        after == w.(idle := 0) && acts == [if priority then WriteFailed(encoded.value) else Lost(encoded.value)]
      else
        after == w.(idle := 0, currTx := w.currTx + |m.msgIds|, phase := if handed then Working else Returned)
        && acts == [var sent := encoded.value.(waitReceipt := true); if handed then Sent(sent) else Unrecorded(sent)]
  {
  }

  /** An act about a message from one of the queues. */
  predicate FromQueue(a: Act) {
    a.Bounced? || a.Sent? || a.Unrecorded? || a.WriteFailed? || a.Lost?
  }

  predicate NoneFromQueue(acts: seq<Act>) {
    forall a :: a in acts ==> !FromQueue(a)
  }

  /** Once a window is full, as after a bounce, nothing more is taken from the queues before the next second. */
  lemma {:induction false} FullTakesNothing(w: Window, id: nat, events: seq<Event>)
    requires w.currTx >= w.txLimit && forall i :: 0 <= i < |events| ==> events[i].now == w.second
    ensures NoneFromQueue(Run(w, id, events).1)
    ensures var after := Run(w, id, events).0;
      after.currTx == w.currTx && after.txLimit == w.txLimit && after.second == w.second
    decreases |events|
  {
    if events != [] {
      FullTakesNothing(w, id, events[..|events| - 1]);
      var before, acts := RunSplit(w, id, events);
      if before.phase == Working {
        FullTurn(before, id, events[|events| - 1]);
        NoneAdd(acts, Turn(before, id, events[|events| - 1]).1);
      }
    }
  }

  lemma FullTurn(w: Window, id: nat, e: Event)
    requires w.currTx >= w.txLimit && e.now == w.second
    ensures NoneFromQueue(Turn(w, id, e).1)
    ensures var after := Turn(w, id, e).0;
      after.currTx == w.currTx && after.txLimit == w.txLimit && after.second == w.second
  {
  }

  lemma NoneAdd(a: seq<Act>, b: seq<Act>)
    requires NoneFromQueue(a) && NoneFromQueue(b)
    ensures NoneFromQueue(a + b)
  {
  }

  // ---------- windows and ends ----------

  /** A later second has room again for a message as large as the limit, whatever the last one did. */
  lemma NewSecondSends(w: Window, id: nat, now: nat, m: Json, priority: bool, sent: Json)
    requires w.phase == Working && now > w.second && (w.idle <= 30 || !w.waitActive)
    requires w.txLimit > 0 && |m.msgIds| <= w.txLimit
    ensures var (after, acts) := Turn(w, id, Event(now, FromEntity(m, priority, Some(sent), true, true)));
      after.phase == Working && after.second == now && after.currTx == |m.msgIds| && after.currRx == 0
      && acts != [] && acts[|acts| - 1] == Sent(sent.(waitReceipt := true))
  {
  }

  /** And for a submit from the peer. */
  lemma NewSecondAccepts(w: Window, id: nat, now: nat, m: Json)
    requires w.phase == Working && now > w.second && (w.idle <= 30 || !w.waitActive)
    requires w.rxLimit > 0 && m.kind == Submit
    ensures var (after, acts) := Turn(w, id, Event(now, FromPeer(m, true, true, true)));
      after.phase == Working && after.second == now && after.currTx == 0 && after.currRx == 1 && !after.waitActive
      && |acts| >= 2 && acts[|acts| - 2..] == [Answered(Status.Success), Forwarded(m)]
  {
  }

  /** Within its second a turn without a message leaves the counts alone. */
  lemma SameSecond(w: Window, id: nat, now: nat, what: Choice)
    requires now <= w.second && !what.FromEntity? && !what.FromPeer?
    ensures var after := Turn(w, id, Event(now, what)).0;
      after.second == w.second && after.currTx == w.currTx && after.currRx == w.currRx
      && after.txLimit == w.txLimit && after.rxLimit == w.rxLimit
  {
  }

  /**
    Unless it has given up on a silent peer: when the entity closes the queues
    or the peer goes, the task empties its queues; a packet it cannot read ends
    it at once; a quiet second or a new window does not end it.
   */
  lemma HowItEnds(w: Window, id: nat, now: nat, what: Choice)
    requires w.phase == Working && (w.idle <= 30 || !w.waitActive) && !what.FromEntity?
    ensures Turn(w, id, Event(now, what)).0.phase
         == match what
            case QueueClosed => Cleared
            case PeerGone => Cleared
            case BadPacket => Returned
            case _ => Working
  {
  }

  // ---------- heartbeats ----------

  predicate AllIdle(events: seq<Event>) {
    forall i :: 0 <= i < |events| ==> events[i].what.IdleSecond?
  }

  /**
    With nothing to send and a silent peer: the first heartbeat goes out after
    31 seconds, no other follows, and after 31 more the task gives up.
   */
  lemma {:induction false} SilentPeer(w: Window, id: nat, events: seq<Event>)
    requires w.phase == Working && w.idle == 0 && !w.waitActive && AllIdle(events)
    ensures var (after, acts) := Run(w, id, events);
      acts == (if |events| <= 31 then [] else [HeartBeat])
      && (after.phase == Working <==> |events| <= 62) && (|events| > 62 ==> after.phase == Returned)
      && (|events| <= 31 ==> after.idle == |events| && !after.waitActive)
      && (31 < |events| <= 62 ==> after.idle == |events| - 31 && after.waitActive)
    decreases |events|
  {
    if events != [] {
      SilentPeer(w, id, events[..|events| - 1]);
      var _, _ := RunSplit(w, id, events);
    }
  }

  predicate BeatAt(w: Window, id: nat, events: seq<Event>, i: nat)
    requires i < |events|
  {
    Run(w, id, events[..i]).0.phase == Working && HeartBeat in Turn(Run(w, id, events[..i]).0, id, events[i]).1
  }

  predicate NoPacketFrom(events: seq<Event>, i: nat) {
    forall k :: i <= k < |events| ==> !events[k].what.FromPeer?
  }

  /** A heartbeat went out in turn `i`, and no packet has come from the peer since. */
  predicate Unanswered(w: Window, id: nat, events: seq<Event>, i: nat) {
    i < |events| && BeatAt(w, id, events, i) && NoPacketFrom(events, i)
  }

  /** A heartbeat is outstanding, one from before the run included. */
  ghost predicate Outstanding(w: Window, id: nat, events: seq<Event>) {
    (w.waitActive && NoPacketFrom(events, 0)) || exists i: nat :: Unanswered(w, id, events, i)
  }

  lemma NoPacketLast(front: seq<Event>, e: Event, i: nat)
    requires i <= |front|
    ensures NoPacketFrom(front + [e], i) <==> NoPacketFrom(front, i) && !e.what.FromPeer?
  {
    assert forall k :: i <= k < |front| ==> (front + [e])[k] == front[k];
    assert (front + [e])[|front|] == e;
  }

  lemma BeatBefore(w: Window, id: nat, front: seq<Event>, e: Event, i: nat)
    requires i < |front|
    ensures BeatAt(w, id, front + [e], i) <==> BeatAt(w, id, front, i)
  {
    assert (front + [e])[..i] == front[..i] && (front + [e])[i] == front[i];
  }

  lemma UnansweredLast(w: Window, id: nat, front: seq<Event>, e: Event, i: nat)
    requires i < |front|
    ensures Unanswered(w, id, front + [e], i) <==> Unanswered(w, id, front, i) && !e.what.FromPeer?
  {
    NoPacketLast(front, e, i);
    BeatBefore(w, id, front, e, i);
  }

  lemma UnansweredNow(w: Window, id: nat, front: seq<Event>, e: Event)
    requires Run(w, id, front).0.phase == Working
    ensures Unanswered(w, id, front + [e], |front|) <==>
      HeartBeat in Turn(Run(w, id, front).0, id, e).1 && !e.what.FromPeer?
  {
    assert (front + [e])[..|front|] == front && (front + [e])[|front|] == e;
    NoPacketLast(front, e, |front|);
  }

  lemma StaysOutstanding(w: Window, id: nat, front: seq<Event>, e: Event)
    requires Outstanding(w, id, front) && !e.what.FromPeer?
    ensures Outstanding(w, id, front + [e])
  {
    NoPacketLast(front, e, 0);
    if i: nat :| Unanswered(w, id, front, i) {
      UnansweredLast(w, id, front, e, i);
    }
  }

  lemma WasOutstanding(w: Window, id: nat, front: seq<Event>, e: Event)
    requires Outstanding(w, id, front + [e]) && Run(w, id, front).0.phase == Working
    ensures !e.what.FromPeer? && (Outstanding(w, id, front) || HeartBeat in Turn(Run(w, id, front).0, id, e).1)
  {
    NoPacketLast(front, e, 0);
    if i: nat :| Unanswered(w, id, front + [e], i) {
      if i < |front| {
        UnansweredLast(w, id, front, e, i);
      } else {
        UnansweredNow(w, id, front, e);
      }
    }
  }

  lemma TurnBeats(w: Window, id: nat, e: Event)
    requires w.phase == Working && Turn(w, id, e).0.phase == Working
    ensures Turn(w, id, e).0.waitActive <==> !e.what.FromPeer? && (w.waitActive || HeartBeat in Turn(w, id, e).1)
  {
    var (beaten, beat) := Beat(Renew(w, e.now));
    var acts := Arm(beaten, id, e.what).1;
    assert HeartBeat !in acts;
  }

  /** Over any run the task waits for a sign of life exactly while a heartbeat is outstanding. */
  lemma {:induction false} WaitsIff(w: Window, id: nat, events: seq<Event>)
    requires w.phase == Working && Run(w, id, events).0.phase == Working
    ensures Run(w, id, events).0.waitActive <==> Outstanding(w, id, events)
    decreases |events|
  {
    if events != [] {
      var front, e := events[..|events| - 1], events[|events| - 1];
      assert events == front + [e];
      var before, _ := RunSplit(w, id, events);
      WaitsIff(w, id, front);
      TurnBeats(before, id, e);
      OutstandingNext(w, id, front, e);
    }
  }

  lemma OutstandingNext(w: Window, id: nat, front: seq<Event>, e: Event)
    requires Run(w, id, front).0.phase == Working
    ensures Outstanding(w, id, front + [e]) <==>
      !e.what.FromPeer? && (Outstanding(w, id, front) || HeartBeat in Turn(Run(w, id, front).0, id, e).1)
  {
    if Outstanding(w, id, front + [e]) {
      WasOutstanding(w, id, front, e);
    }
    if !e.what.FromPeer? {
      if Outstanding(w, id, front) {
        StaysOutstanding(w, id, front, e);
      }
      UnansweredNow(w, id, front, e);
    }
  }

  /** It gives up only then, and after more than 30 idle seconds. */
  lemma GivesUpOnlyIf(w: Window, id: nat, events: seq<Event>, e: Event)
    requires w.phase == Working && Run(w, id, events).0.phase == Working && !e.what.BadPacket?
    requires e.what.FromEntity? ==> e.what.handed
    ensures Turn(Run(w, id, events).0, id, e).0.phase == Returned ==>
      Outstanding(w, id, events) && Run(w, id, events).0.idle > 30 && Turn(Run(w, id, events).0, id, e).1 == []
  {
    WaitsIff(w, id, events);
  }

  // ---------- the loop ----------

  /** The variables of the loop. */
  class ChannelTask {
    const id: nat
    const txLimit: nat
    const rxLimit: nat
    var currTx: nat
    var currRx: nat
    var idleCount: nat
    var waitActiveResp: bool
    var timestamp: nat
    var phase: Phase
    var priority: seq<Json>
    var common: seq<Json>
    var open: bool
    /** What has been done to the outside. */
    var acts: seq<Act>

    constructor (id: nat, txLimit: nat, rxLimit: nat, now: nat)
      ensures Value() == Window(txLimit, rxLimit, 0, 0, now, 0, false, Working) && this.id == id
      ensures priority == [] && common == [] && open && acts == []
    {
      this.id, this.txLimit, this.rxLimit := id, txLimit, rxLimit;
      currTx, currRx, idleCount, waitActiveResp, timestamp, phase := 0, 0, 0, false, now, Working;
      priority, common, open, acts := [], [], true, [];
    }

    function Value(): Window
      reads this
    {
      Window(txLimit, rxLimit, currTx, currRx, timestamp, idleCount, waitActiveResp, phase)
    }

    /** The turns of the loop, until it returns; where it clears, everything still queued is given up as failed. */
    method StartWork(events: seq<Event>)
      requires phase == Working
      modifies `currTx, `currRx, `idleCount, `waitActiveResp, `timestamp, `phase, `priority, `common, `open, `acts
      ensures Value() == Run(old(Value()), id, events).0
      ensures acts == old(acts) + Run(old(Value()), id, events).1
                      + if phase == Cleared then AsFailures(old(priority) + old(common)) else []
      ensures phase == Cleared ==> !open && priority == [] && common == []
      ensures phase != Cleared ==> open == old(open) && priority == old(priority) && common == old(common)
    {
      Work(events);
      if phase == Cleared {
        Clear();
      } else {
        assert acts + [] == acts;
      }
    }

    method Work(events: seq<Event>)
      requires phase == Working
      modifies `currTx, `currRx, `idleCount, `waitActiveResp, `timestamp, `phase, `acts
      ensures Value() == Run(old(Value()), id, events).0
      ensures acts == old(acts) + Run(old(Value()), id, events).1
    {
      ghost var start, first, done := Value(), acts, [];
      assert acts + [] == acts;
      var i := 0;
      while i < |events| && phase == Working
        invariant 0 <= i <= |events| && acts == first + done
        invariant (Value(), done) == Run(start, id, events[..i])
      {
        ghost var before := Value();
        ghost var more := TakeTurn(events[i]);
        RunNext(start, id, events, i, before, done, Value(), more);
        Chain(first, done, more);
        done := done + more;
        i := i + 1;
      }
      StaysReturned(start, id, events, i);
    }

    method TakeTurn(e: Event) returns (ghost more: seq<Act>)
      modifies `currTx, `currRx, `idleCount, `waitActiveResp, `timestamp, `phase, `acts
      ensures (Value(), more) == Turn(old(Value()), id, e)
      ensures acts == old(acts) + more
    {
      ghost var first, beat := acts, Beat(Renew(Value(), e.now)).1;
      assert acts + [] == acts;
      if e.now >= timestamp + 1 {
        currTx, currRx, timestamp := 0, 0, e.now;
      }
      if idleCount > 30 {
        if waitActiveResp {
          phase := Returned;
          return [];
        }
        acts := acts + [HeartBeat];
        waitActiveResp := true;
        idleCount := 0;
      }
      assert Value() == Beat(Renew(old(Value()), e.now)).0 && acts == first + beat;
      more := RunArm(e.what);
      Chain(first, beat, more);
      more := beat + more;
    }

    /** The arm that was selected. */
    method RunArm(what: Choice) returns (ghost more: seq<Act>)
      modifies `currTx, `currRx, `idleCount, `waitActiveResp, `phase, `acts
      ensures (Value(), more) == Arm(old(Value()), id, what)
      ensures acts == old(acts) + more
    {
      more := Arm(Value(), id, what).1;
      assert acts + [] == acts;
      match what {
        case FromEntity(m, priority, encoded, written, handed) =>
          if currTx < txLimit {
            OnEntityMessage(m, priority, encoded, written, handed);
          }
        case FromPeer(m, receipt, written, handed) =>
          OnPeerPacket(m, receipt, written, handed);
        case WindowOver =>
        case IdleSecond =>
          idleCount := idleCount + 1;
        case QueueClosed =>
          phase := Cleared;
        case PeerGone =>
          phase := Cleared;
        case BadPacket =>
          phase := Returned;
      }
    }

    /** The two arms that read the entity's queues. */
    method OnEntityMessage(m: Json, fromPriority: bool, encoded: Option<Json>, written: bool, handed: bool)
      modifies `currTx, `idleCount, `phase, `acts
      ensures Value() == Take(old(Value()), m, fromPriority, encoded, written, handed).0
      ensures acts == old(acts) + Take(old(Value()), m, fromPriority, encoded, written, handed).1
    {
      idleCount := 0;
      var msgNum := |m.msgIds|;
      if msgNum + currTx > txLimit {
        currTx := txLimit;
        if handed {
          acts := acts + [Bounced(m.(speedLimit := true))];
        } else {
          acts := acts + [Lost(m.(speedLimit := true))];
          phase := Returned;
        }
      } else if encoded.Some? {
        WriteEncoded(encoded.value, msgNum, fromPriority, written, handed);
      } else {
        acts := acts + [Lost(m)];
      }
    }

    method WriteEncoded(send: Json, msgNum: nat, fromPriority: bool, written: bool, handed: bool)
      modifies `currTx, `phase, `acts
      ensures Value() == if !written then old(Value())
                         else old(Value()).(currTx := old(currTx) + msgNum,
                                           phase := if handed then old(phase) else Returned)
      ensures acts == old(acts) + [if !written then if fromPriority then WriteFailed(send) else Lost(send)
                                   else if handed then Sent(send.(waitReceipt := true))
                                   else Unrecorded(send.(waitReceipt := true))]
    {
      if written {
        currTx := currTx + msgNum;
        if handed {
          acts := acts + [Sent(send.(waitReceipt := true))];
        } else {
          acts := acts + [Unrecorded(send.(waitReceipt := true))];
          phase := Returned;
        }
      } else if fromPriority {
        acts := acts + [WriteFailed(send)];
      } else {
        acts := acts + [Lost(send)];
      }
    }

    /** The arm that reads the peer. */
    method OnPeerPacket(packet: Json, receipt: bool, written: bool, handed: bool)
      modifies `currRx, `waitActiveResp, `acts
      ensures Value() == Receive(old(Value()), packet, id, receipt, written, handed).0
      ensures acts == old(acts) + Receive(old(Value()), packet, id, receipt, written, handed).1
    {
      var m := packet;
      assert acts + [] == acts;
      waitActiveResp := false;
      if m.kind == Submit {
        currRx := currRx + 1;
      } else if m.kind == Terminate {
        m := m.(id := Some(id));
      }
      if m.kind != Submit || currRx <= rxLimit {
        if receipt {
          if !written {
            return;
          }
          acts := acts + [Answered(Status.Success)];
        }
        if handed {
          Chain(old(acts), if receipt then [Answered(Status.Success)] else [], [Forwarded(m)]);
          acts := acts + [Forwarded(m)];
        }
      } else if receipt {
        if written {
          acts := acts + [Answered(TrafficRestrictions)];
        }
      } else if handed {
        acts := acts + [Forwarded(m)];
      }
    }

    /** Closes both queues and gives everything still in them to the failure topic, each message once, in order. */
    method Clear()
      modifies `priority, `common, `open, `acts
      ensures !open && priority == [] && common == []
      ensures acts == old(acts) + AsFailures(old(priority) + old(common))
    {
      open := false;
      while priority != []
        invariant acts + AsFailures(priority + common) == old(acts) + AsFailures(old(priority) + old(common))
        invariant !open && common == old(common)
        decreases |priority|
      {
        FailFirst(acts, priority, common);
        acts := acts + [WriteFailed(priority[0])];
        priority := priority[1..];
      }
      assert [] + common == common;
      while common != []
        invariant !open && priority == []
        invariant acts + AsFailures(common) == old(acts) + AsFailures(old(priority) + old(common))
        decreases |common|
      {
        FailFirst(acts, common, []);
        assert common + [] == common && common[1..] + [] == common[1..];
        acts := acts + [WriteFailed(common[0])];
        common := common[1..];
      }
      assert acts + [] == acts;
    }
  }

  function AsFailures(ms: seq<Json>): seq<Act> {
    seq(|ms|, i requires 0 <= i < |ms| => WriteFailed(ms[i]))
  }

  lemma FailFirst(acts: seq<Act>, ms: seq<Json>, rest: seq<Json>)
    requires ms != []
    ensures acts + AsFailures(ms + rest) == (acts + [WriteFailed(ms[0])]) + AsFailures(ms[1..] + rest)
  {
  }

  lemma RunNext(start: Window, id: nat, events: seq<Event>, i: nat,
                w: Window, done: seq<Act>, after: Window, more: seq<Act>)
    requires i < |events| && (w, done) == Run(start, id, events[..i]) && w.phase == Working
    requires (after, more) == Turn(w, id, events[i])
    ensures Run(start, id, events[..i + 1]) == (after, done + more)
  {
    RunSnoc(start, id, events, i);
  }

  lemma Chain(a: seq<Act>, b: seq<Act>, c: seq<Act>)
    ensures (a + b) + c == a + (b + c)
  {
  }

  lemma {:induction false} StaysReturned(w: Window, id: nat, events: seq<Event>, i: nat)
    requires i <= |events| && (i == |events| || Run(w, id, events[..i]).0.phase != Working)
    ensures Run(w, id, events) == Run(w, id, events[..i])
    decreases |events| - i
  {
    if i < |events| {
      RunSnoc(w, id, events, i);
      StaysReturned(w, id, events, i + 1);
    } else {
      assert events[..i] == events;
    }
  }

  lemma RunSnoc(w: Window, id: nat, events: seq<Event>, i: nat)
    requires i < |events|
    ensures Run(w, id, events[..i + 1])
         == var (before, acts) := Run(w, id, events[..i]);
            if before.phase != Working then (before, acts)
            else (Turn(before, id, events[i]).0, acts + Turn(before, id, events[i]).1)
  {
    assert events[..i + 1][..i] == events[..i];
  }
}
