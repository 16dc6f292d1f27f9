/** Reassembly of long messages: `handle_long_sms` and `clear_long_sms_cache` in src/entity/entity_running.rs. */
module LongSms {
  import opened Wrappers
  import opened Messages
  import Segments

  /** One slot a part; the cache keeps a vector of them for every source and destination pair. */
  type Slots = seq<Option<Json>>
  type Cache = map<Str, Slots>

  /** `None`, the full vector the message is put together from, or a panic of the entity's task. */
  datatype Outcome = Kept | Complete(slots: Slots) | Panicked

  /** Source and destination written together; the header's reference number is not part of it. */
  function Key(m: Json): Str {
    m.body.srcId.GetOr([]) + m.body.destId.GetOr(if m.body.destIds == [] then [] else m.body.destIds[0])
  }

  function Vacant(total: nat): (slots: Slots)
    ensures |slots| == total && forall i :: 0 <= i < total ==> slots[i] == None
  {
    seq(total, _ => None)
  }

  predicate Full(slots: Slots) {
    forall i :: 0 <= i < |slots| ==> slots[i].Some?
  }

  function Contents(slots: Slots): (texts: seq<string>)
    requires Full(slots)
    ensures |texts| == |slots|
  {
    seq(|slots|, i requires 0 <= i < |slots| => slots[i].value.body.content.GetOr([]))
  }

  function Ids(slots: Slots): (ids: seq<Str>)
    requires Full(slots)
    ensures |ids| == |slots|
  {
    seq(|slots|, i requires 0 <= i < |slots| => slots[i].value.msgId.GetOr([]))
  }

  /** The first part, with the whole text and every part's id. */
  function Assembled(slots: Slots): Json
    requires slots != [] && Full(slots)
  {
    var first := slots[0].value;
    first.(body := first.body.(content := Some(Segments.JoinFrom(Contents(slots), 0))), msgIds := Ids(slots),
           msgId := None,
           longTotal := None, longNumber := None)
  }

  predicate Acceptable(m: Json) {
    m.longNumber.Some? && m.longTotal.Some? && m.longNumber.value <= m.longTotal.value && m.longTotal.value >= 2
  }

  /** Part number 0 passes the checks and then indexes below the vector. */
  predicate Fatal(m: Json) {
    Acceptable(m) && m.longNumber.value == 0
  }

  /** The vector a part of a message in `n` parts is put into: the one waiting if it has that length, else a new one. */
  function Base(cache: Cache, key: Str, n: nat): (slots: Slots)
    ensures |slots| == n
  {
    if key in cache && |cache[key]| == n then cache[key] else Vacant(n)
  }

  function Waiting(cache: Cache, m: Json): (slots: Slots)
    requires m.longTotal.Some?
    ensures |slots| == m.longTotal.value
  {
    Base(cache, Key(m), m.longTotal.value)
  }

  function Fill(slots: Slots, m: Json): (r: Slots)
    ensures |r| == |slots|
  {
    if m.longNumber.Some? && 1 <= m.longNumber.value <= |slots| then slots[m.longNumber.value - 1 := Some(m)] else slots
  }

  /** `handle_long_sms`. */
  function Handle(cache: Cache, m: Json): (r: (Cache, Outcome))
    ensures r.1.Complete? ==> r.1.slots != [] && Full(r.1.slots)
  {
    if !Acceptable(m) then (cache, Kept)
    else if Fatal(m) then (cache, Panicked)
    else
      Settle(cache, Key(m), Fill(Waiting(cache, m), m))
  }

  /** A full vector leaves the cache as one message. */
  function Settle(cache: Cache, key: Str, slots: Slots): (r: (Cache, Outcome))
    requires slots != []
  {
    if Full(slots) then (cache - {key}, Complete(slots)) else (cache[key := slots], Kept)
  }

  predicate Expired(slots: Slots, duration: int, now: int) {
    exists i :: 0 <= i < |slots| && slots[i].Some? && slots[i].value.receiveTime.GetOr(0) + duration < now
  }

  /** `clear_long_sms_cache`. */
  function Clear(cache: Cache, duration: int, now: int): Cache {
    map key | key in cache && !Expired(cache[key], duration, now) :: cache[key]
  }

  // ---------- what every run keeps ----------

  /** The part numbered `i + 1` of a message in `total` parts under this key. */
  predicate Belongs(m: Json, key: Str, i: nat, total: nat) {
    Key(m) == key && m.longNumber.Some? && m.longNumber.value == i + 1
    && m.longTotal.Some? && m.longTotal.value == total
  }

  predicate WellFilled(slots: Slots, key: Str) {
    |slots| >= 2
    && !Full(slots)
    && (exists i :: 0 <= i < |slots| && slots[i].Some?)
    && forall i :: 0 <= i < |slots| && slots[i].Some? ==> Belongs(slots[i].value, key, i, |slots|)
  }

  predicate Invariant(cache: Cache) {
    forall key :: key in cache ==> WellFilled(cache[key], key)
  }

  datatype Event = Arrival(m: Json) | Expiry(duration: int, now: int)

  function Step(cache: Cache, e: Event): Cache {
    match e
    case Arrival(m) => Handle(cache, m).0
    case Expiry(duration, now) => Clear(cache, duration, now)
  }

  function Run(cache: Cache, events: seq<Event>): Cache {
    if events == [] then cache else Step(Run(cache, events[..|events| - 1]), events[|events| - 1])
  }

  lemma HandleKeepsInvariant(cache: Cache, m: Json)
    requires Invariant(cache)
    ensures Invariant(Handle(cache, m).0)
  {
    if Acceptable(m) && !Fatal(m) {
      var slots := Fill(Waiting(cache, m), m);
      assert slots[m.longNumber.value - 1].Some?;
      assert Belongs(m, Key(m), m.longNumber.value - 1, |slots|);
    }
  }

  /**
    After any arrivals, duplicates, changes of total and expiries every cached
    vector still waits for something, holds something, and holds each part in
    its own place.
   */
  lemma {:induction false} RunKeepsInvariant(cache: Cache, events: seq<Event>)
    requires Invariant(cache)
    ensures Invariant(Run(cache, events))
  {
    if events != [] {
      RunKeepsInvariant(cache, events[..|events| - 1]);
      match events[|events| - 1]
      case Arrival(m) => HandleKeepsInvariant(Run(cache, events[..|events| - 1]), m);
      case Expiry(_, _) =>
    }
  }

  // ---------- arrivals in any order ----------

  function After(cache: Cache, arrivals: seq<Json>): Cache
    decreases |arrivals|
  {
    if arrivals == [] then cache else After(Handle(cache, arrivals[0]).0, arrivals[1..])
  }

  function Outcomes(cache: Cache, arrivals: seq<Json>): (o: seq<Outcome>)
    ensures |o| == |arrivals|
    decreases |arrivals|
  {
    if arrivals == [] then []
    else
      var (next, outcome) := Handle(cache, arrivals[0]);
      [outcome] + Outcomes(next, arrivals[1..])
  }

  function Silence(n: nat): (o: seq<Outcome>)
    ensures |o| == n
  {
    seq(n, _ => Kept)
  }

  /** All the parts of one message, in order. */
  predicate Parts(parts: seq<Json>, key: Str) {
    2 <= |parts| < 0x100 && forall i :: 0 <= i < |parts| ==> Belongs(parts[i], key, i, |parts|)
  }

  /** Lists each index below `n` exactly once. */
  predicate Permutation(order: seq<nat>, n: nat) {
    |order| == n
    && (forall i :: 0 <= i < n ==> i in order)
    && (forall i :: 0 <= i < n ==> order[i] < n)
    && (forall i, j :: 0 <= i < j < n ==> order[i] != order[j])
  }

  function Arranged(parts: seq<Json>, order: seq<nat>): (arrivals: seq<Json>)
    requires Permutation(order, |parts|)
    ensures |arrivals| == |parts|
    ensures forall j :: 0 <= j < |parts| ==> arrivals[j] == parts[order[j]]
  {
    seq(|parts|, j requires 0 <= j < |parts| => parts[order[j]])
  }

  function Whole(parts: seq<Json>): (slots: Slots)
    ensures |slots| == |parts| && Full(slots)
  {
    seq(|parts|, i requires 0 <= i < |parts| => Some(parts[i]))
  }

  /** Nothing until the last arrival, then exactly the parts' message, and nothing left behind. */
  predicate Delivered(cache: Cache, parts: seq<Json>, key: Str, arrivals: seq<Json>)
    requires parts != []
  {
    Outcomes(cache, arrivals) == Silence(|parts| - 1) + [Complete(Whole(parts))]
    && After(cache, arrivals) == cache - {key}
  }

  /** An unfinished message in as many parts, under the same key, already fills the slot of the part that comes last. */
  predicate Stale(cache: Cache, key: Str, n: nat, last: nat) {
    key in cache && |cache[key]| == n && last < n && cache[key][last].Some?
  }

  predicate InPlace(m: Json, key: Str, n: nat) {
    m.longNumber.Some? && 1 <= m.longNumber.value <= n && Belongs(m, key, m.longNumber.value - 1, n)
  }

  /** Numbered parts of messages in `n` parts under one key, in any order and number. */
  predicate OfKey(arrivals: seq<Json>, key: Str, n: nat) {
    2 <= n < 0x100 && forall j :: 0 <= j < |arrivals| ==> InPlace(arrivals[j], key, n)
  }

  /** The slots once the arrivals have been put on top of what was there. */
  function Overlay(base: Slots, arrivals: seq<Json>): (slots: Slots)
    ensures |slots| == |base|
    decreases |arrivals|
  {
    if arrivals == [] then base else Overlay(Fill(base, arrivals[0]), arrivals[1..])
  }

  lemma HandleOnto(cache: Cache, m: Json, key: Str, slots: Slots)
    requires 2 <= |slots| < 0x100 && InPlace(m, key, |slots|) && Base(cache, key, |slots|) == slots
    ensures Handle(cache, m) == Settle(cache, key, Fill(slots, m))
  {
  }

  /** Slots never become empty again. */
  lemma {:induction false} StaysFull(slots: Slots, arrivals: seq<Json>)
    requires Full(slots)
    ensures Full(Overlay(slots, arrivals))
    decreases |arrivals|
  {
    if arrivals != [] {
      StaysFull(Fill(slots, arrivals[0]), arrivals[1..]);
    }
  }

  lemma OverlayFirst(slots: Slots, arrivals: seq<Json>)
    requires |arrivals| >= 2
    ensures Overlay(slots, arrivals[..|arrivals| - 1])
         == Overlay(Fill(slots, arrivals[0]), arrivals[1..][..|arrivals| - 2])
  {
    assert arrivals[..|arrivals| - 1][1..] == arrivals[1..][..|arrivals| - 2];
  }

  /** If the slots are full with the last arrival and not before, it is the one that brings the message out. */
  lemma {:induction false} ComesOutLast(cache: Cache, key: Str, slots: Slots, arrivals: seq<Json>)
    requires arrivals != [] && OfKey(arrivals, key, |slots|) && Base(cache, key, |slots|) == slots
    requires !Full(Overlay(slots, arrivals[..|arrivals| - 1])) && Full(Overlay(slots, arrivals))
    ensures Outcomes(cache, arrivals) == Silence(|arrivals| - 1) + [Complete(Overlay(slots, arrivals))]
    ensures After(cache, arrivals) == cache - {key}
    decreases |arrivals|
  {
    var next, rest := Fill(slots, arrivals[0]), arrivals[1..];
    HandleOnto(cache, arrivals[0], key, slots);
    if rest != [] {
      OverlayFirst(slots, arrivals);
      NotFullYet(next, rest);
      ComesOutLast(cache[key := next], key, next, rest);
      assert cache[key := next] - {key} == cache - {key};
      assert Silence(|arrivals| - 1) == [Kept] + Silence(|rest| - 1);
    } else {
      assert Silence(0) == [];
    }
  }

  lemma NotFullYet(slots: Slots, rest: seq<Json>)
    requires rest != [] && !Full(Overlay(slots, rest[..|rest| - 1]))
    ensures !Full(slots)
  {
    if Full(slots) {
      StaysFull(slots, rest[..|rest| - 1]);
    }
  }

  /** If the slots are full before the last arrival, something comes out before it. */
  lemma {:induction false} ComesOutEarly(cache: Cache, key: Str, slots: Slots, arrivals: seq<Json>) returns (j: nat)
    requires |arrivals| >= 2 && OfKey(arrivals, key, |slots|) && Base(cache, key, |slots|) == slots
    requires Full(Overlay(slots, arrivals[..|arrivals| - 1]))
    ensures j < |arrivals| - 1 && Outcomes(cache, arrivals)[j] != Kept
    decreases |arrivals|
  {
    var next, rest := Fill(slots, arrivals[0]), arrivals[1..];
    HandleOnto(cache, arrivals[0], key, slots);
    OverlayFirst(slots, arrivals);
    if Full(next) {
      j := 0;
    } else {
      j := ComesOutEarly(cache[key := next], key, next, rest);
      j := j + 1;
    }
  }

  /** The arrivals are the listed parts. */
  predicate Numbered(arrivals: seq<Json>, parts: seq<Json>, order: seq<nat>) {
    |arrivals| == |order|
    && forall j :: 0 <= j < |arrivals| ==>
      order[j] < |parts| && arrivals[j] == parts[order[j]] && arrivals[j].longNumber.Some?
      && arrivals[j].longNumber.value == order[j] + 1
  }

  lemma {:induction false} OverlaySlot(base: Slots, arrivals: seq<Json>, parts: seq<Json>, order: seq<nat>, i: nat)
    requires Numbered(arrivals, parts, order) && |base| == |parts| && i < |parts|
    ensures Overlay(base, arrivals)[i] == if i in order then Some(parts[i]) else base[i]
    decreases |arrivals|
  {
    if arrivals != [] {
      OverlaySlot(Fill(base, arrivals[0]), arrivals[1..], parts, order[1..], i);
      assert order == [order[0]] + order[1..];
    }
  }

  lemma ArrangedNumbered(parts: seq<Json>, key: Str, order: seq<nat>)
    requires Parts(parts, key) && Permutation(order, |parts|)
    ensures Numbered(Arranged(parts, order), parts, order)
    ensures OfKey(Arranged(parts, order), key, |parts|)
  {
    forall j | 0 <= j < |parts|
      ensures Belongs(parts[order[j]], key, order[j], |parts|)
    {
    }
  }

  lemma AllButLast(order: seq<nat>, n: nat, i: nat)
    requires Permutation(order, n) && i < n
    ensures i in order
    ensures i in order[..n - 1] <==> i != order[n - 1]
  {
    assert order == order[..n - 1] + [order[n - 1]];
  }

  lemma SlotOfMost(base: Slots, arrivals: seq<Json>, parts: seq<Json>, order: seq<nat>, i: nat)
    requires Numbered(arrivals, parts, order) && Permutation(order, |parts|) && |base| == |parts| && i < |parts|
    ensures Overlay(base, arrivals)[i] == Some(parts[i])
    ensures Overlay(base, arrivals[..|parts| - 1])[i] == if i == order[|parts| - 1] then base[i] else Some(parts[i])
  {
    AllButLast(order, |parts|, i);
    OverlaySlot(base, arrivals, parts, order, i);
    OverlaySlot(base, arrivals[..|parts| - 1], parts, order[..|parts| - 1], i);
  }

  /** With only the last part missing the slots are full exactly if its slot already was. */
  lemma LastOneMissing(base: Slots, arrivals: seq<Json>, parts: seq<Json>, order: seq<nat>)
    requires Numbered(arrivals, parts, order) && Permutation(order, |parts|) && |base| == |parts| >= 1
    ensures Full(Overlay(base, arrivals[..|parts| - 1])) <==> base[order[|parts| - 1]].Some?
    ensures Overlay(base, arrivals) == Whole(parts)
  {
    var most, all, last := Overlay(base, arrivals[..|parts| - 1]), Overlay(base, arrivals), order[|parts| - 1];
    forall i | 0 <= i < |parts|
      ensures all[i] == Some(parts[i]) && most[i] == if i == last then base[i] else Some(parts[i])
    {
      SlotOfMost(base, arrivals, parts, order, i);
    }
    FullButOne(most, all, base, parts, last);
  }

  lemma FullButOne(most: Slots, all: Slots, base: Slots, parts: seq<Json>, last: nat)
    requires last < |most| == |all| == |base| == |parts|
    requires forall i :: 0 <= i < |most| ==>
      all[i] == Some(parts[i]) && most[i] == if i == last then base[i] else Some(parts[i])
    ensures Full(most) <==> base[last].Some?
    ensures all == Whole(parts)
  {
    assert most[last] == base[last];
  }

  lemma StaleComesOutEarly(cache: Cache, parts: seq<Json>, key: Str, order: seq<nat>) returns (j: nat)
    requires Parts(parts, key) && Permutation(order, |parts|)
    requires Stale(cache, key, |parts|, order[|parts| - 1])
    ensures j < |parts| - 1 && Outcomes(cache, Arranged(parts, order))[j] != Kept
  {
    ArrangedNumbered(parts, key, order);
    LastOneMissing(Base(cache, key, |parts|), Arranged(parts, order), parts, order);
    j := ComesOutEarly(cache, key, Base(cache, key, |parts|), Arranged(parts, order));
  }

  /** Every outcome is that of its own arrival in some cache. */
  lemma {:induction false} OutcomeOf(cache: Cache, arrivals: seq<Json>, j: nat) returns (before: Cache)
    requires j < |arrivals|
    ensures Outcomes(cache, arrivals)[j] == Handle(before, arrivals[j]).1
    decreases j
  {
    if j == 0 {
      before := cache;
    } else {
      before := OutcomeOf(Handle(cache, arrivals[0]).0, arrivals[1..], j - 1);
    }
  }

  /**
    Whatever the order of the parts, the message comes out at the last
    arrival, whole, exactly if no unfinished message under the same key and
    of as many parts has already filled the slot of that last part.
   */
  lemma DeliveredIff(cache: Cache, parts: seq<Json>, key: Str, order: seq<nat>)
    requires Parts(parts, key) && Permutation(order, |parts|)
    ensures Delivered(cache, parts, key, Arranged(parts, order))
       <==> !Stale(cache, key, |parts|, order[|parts| - 1])
  {
    var n, arrivals := |parts|, Arranged(parts, order);
    var base := Base(cache, key, n);
    ArrangedNumbered(parts, key, order);
    LastOneMissing(base, arrivals, parts, order);
    if Stale(cache, key, n, order[n - 1]) {
      var j := StaleComesOutEarly(cache, parts, key, order);
      assert (Silence(n - 1) + [Complete(Whole(parts))])[j] == Kept;
    } else {
      ComesOutLast(cache, key, base, arrivals);
    }
  }

  // ---------- other traffic does not matter ----------

  /** The part of the cache one key sees. */
  function Only(cache: Cache, key: Str): Cache {
    map k | k in cache && k == key :: cache[k]
  }

  function For(arrivals: seq<Json>, key: Str): seq<Json>
    decreases |arrivals|
  {
    if arrivals == [] then []
    else (if Key(arrivals[0]) == key then [arrivals[0]] else []) + For(arrivals[1..], key)
  }

  /** What comes out at the arrivals of one key, among all the others. */
  function OutcomesFor(cache: Cache, arrivals: seq<Json>, key: Str): seq<Outcome>
    decreases |arrivals|
  {
    if arrivals == [] then []
    else
      var (next, outcome) := Handle(cache, arrivals[0]);
      (if Key(arrivals[0]) == key then [outcome] else []) + OutcomesFor(next, arrivals[1..], key)
  }

  lemma OnlyOwnKey(cache: Cache, m: Json, key: Str)
    ensures Key(m) == key ==> Only(Handle(cache, m).0, key) == Handle(Only(cache, key), m).0
    ensures Key(m) == key ==> Handle(cache, m).1 == Handle(Only(cache, key), m).1
    ensures Key(m) != key ==> Only(Handle(cache, m).0, key) == Only(cache, key)
  {
  }

  /** Mixed with any traffic for other keys, one key's arrivals meet the same fate as alone. */
  lemma {:induction false} OthersDoNotMatter(cache: Cache, arrivals: seq<Json>, key: Str)
    ensures Only(After(cache, arrivals), key) == After(Only(cache, key), For(arrivals, key))
    ensures OutcomesFor(cache, arrivals, key) == Outcomes(Only(cache, key), For(arrivals, key))
    decreases |arrivals|
  {
    if arrivals != [] {
      var m, rest := arrivals[0], arrivals[1..];
      OnlyOwnKey(cache, m, key);
      OthersDoNotMatter(Handle(cache, m).0, rest, key);
      if Key(m) == key {
        assert For(arrivals, key)[1..] == For(rest, key);
      } else {
        assert For(arrivals, key) == For(rest, key);
      }
    }
  }

  /**
    Among any other traffic, in any order: nothing comes out for the key until
    the last part arrives, then exactly the message does and the key is gone,
    if and only if the last part's slot was not filled beforehand.
   */
  lemma DeliveredAmongOthersIff(cache: Cache, arrivals: seq<Json>, parts: seq<Json>, key: Str, order: seq<nat>)
    requires Parts(parts, key) && Permutation(order, |parts|)
    requires For(arrivals, key) == Arranged(parts, order)
    ensures OutcomesFor(cache, arrivals, key) == Silence(|parts| - 1) + [Complete(Whole(parts))]
         && key !in After(cache, arrivals)
       <==> !Stale(cache, key, |parts|, order[|parts| - 1])
  {
    OthersDoNotMatter(cache, arrivals, key);
    DeliveredIff(Only(cache, key), parts, key, order);
    assert key in Only(After(cache, arrivals), key) <==> key in After(cache, arrivals);
    assert Only(cache, key) - {key} == map[];
  }
}
