/**
  The receiving end of a long message: what its decoded packets, each with the
  message id its receipt was given, come to in the entity that puts them
  together.
 */
module Crossing {
  import opened Bytes
  import opened Wrappers
  import opened Messages
  import opened Segments
  import opened CmppContent
  import opened LongSms
  import opened TextParts
  import Arithmetic
  import Charset

  /** A message that has been sent: the key the receiver collects it under, its text, its bytes and how they are cut. */
  datatype Sent = Sent(key: Str, content: string, code: seq<byte>, cut: Cut) {
    predicate Proper(cs: Charset.Charset) {
      code == Charset.Encode(cs, content) && Exact(|code|, cut)
    }
  }

  /** What the receiving entity sees of part `i`. */
  predicate IsPart(j: Json, t: Sent, i: nat, id: Str, text: string) {
    Key(j) == t.key && j.longTotal == Total(t.cut) && j.longNumber == Number(t.cut, i)
    && j.msgId == Some(id) && j.body.content == Some(text)
  }

  function WithId(j: Json, id: Str): Json {
    j.(msgId := Some(id))
  }

  /** Every packet decodes if its own bytes do, and then carries its part. */
  predicate Faithful(ds: seq<Decoded<Json>>, t: Sent, cs: Charset.Charset, ids: seq<Str>)
    requires Exact(|t.code|, t.cut)
  {
    |ds| == |ids| == t.cut.n
    && forall i :: 0 <= i < t.cut.n ==> FaithfulAt(ds[i], t, i, ids[i], Charset.Decode(cs, Pieces(t.code, t.cut)[i]))
  }

  predicate FaithfulAt(d: Decoded<Json>, t: Sent, i: nat, id: Str, text: Option<string>) {
    (d.Ok? <==> text.Some?) && (text.Some? ==> IsPart(WithId(d.value, id), t, i, id, text.value))
  }

  predicate AllOk(ds: seq<Decoded<Json>>) {
    forall i :: 0 <= i < |ds| ==> ds[i].Ok?
  }

  /** The messages the entity gets. */
  function Arrivals(ds: seq<Decoded<Json>>, ids: seq<Str>): (ms: seq<Json>)
    requires AllOk(ds) && |ids| == |ds|
    ensures |ms| == |ds|
    ensures forall i :: 0 <= i < |ds| ==> ms[i] == WithId(ds[i].value, ids[i])
  {
    seq(|ds|, i requires 0 <= i < |ds| => WithId(ds[i].value, ids[i]))
  }

  /** One message with the whole text and every part's id in order, and no trace of having been in parts. */
  predicate IsWhole(j: Json, t: Sent, ids: seq<Str>) {
    j.body.content == Some(t.content) && j.msgIds == ids && Key(j) == t.key
    && j.msgId == None && j.longTotal == None && j.longNumber == None
  }

  /** Nothing until the last part, then the sender's text with every part's id in order. */
  predicate Reassembles(t: Sent, cache: Cache, parts: seq<Json>, ids: seq<Str>, order: seq<nat>)
    requires Permutation(order, |parts|) && parts != []
  {
    var arrivals, n := Arranged(parts, order), |parts|;
    var last := Outcomes(cache, arrivals)[n - 1];
    (forall j :: 0 <= j < n - 1 ==> Outcomes(cache, arrivals)[j] == Kept)
    && last == Complete(Whole(parts)) && IsWhole(Assembled(Whole(parts)), t, ids)
    && t.key !in After(cache, arrivals)
  }

  /** Nothing until the last arrival, and then something. */
  predicate ComesOut(cache: Cache, arrivals: seq<Json>) {
    var n := |arrivals|;
    arrivals != [] && Outcomes(cache, arrivals)[n - 1].Complete?
    && forall j :: 0 <= j < n - 1 ==> Outcomes(cache, arrivals)[j] == Kept
  }

  /** No packet closes the connection by failing to decode, and the message is put together in this order. */
  predicate Crosses(t: Sent, ds: seq<Decoded<Json>>, ids: seq<Str>, cache: Cache, order: seq<nat>)
    requires |ds| == |ids| > 0 && Permutation(order, |ds|)
  {
    AllOk(ds) && Reassembles(t, cache, Arrivals(ds, ids), ids, order)
  }

  /** What the entity sees of every part. */
  predicate AreParts(parts: seq<Json>, t: Sent, ids: seq<Str>, texts: seq<string>)
  {
    |parts| == |ids| == |texts| == t.cut.n
    && forall i :: 0 <= i < |parts| ==> IsPart(parts[i], t, i, ids[i], texts[i])
  }

  /** With at most 255 parts no number wraps. */
  lemma PartsBelong(parts: seq<Json>, t: Sent, ids: seq<Str>, texts: seq<string>)
    requires AreParts(parts, t, ids, texts) && t.cut.long && 2 <= t.cut.n < 0x100
    ensures Parts(parts, t.key)
  {
    Arithmetic.SmallMod(t.cut.n, 0x100);
    forall i | 0 <= i < |parts|
      ensures Belongs(parts[i], t.key, i, |parts|)
    {
      assert IsPart(parts[i], t, i, ids[i], texts[i]);
      Arithmetic.SmallMod(i + 1, 0x100);
    }
  }

  lemma WholeIs(parts: seq<Json>, t: Sent, ids: seq<Str>, texts: seq<string>)
    requires AreParts(parts, t, ids, texts)
    ensures Contents(Whole(parts)) == texts && Ids(Whole(parts)) == ids
  {
    forall i | 0 <= i < |parts|
      ensures Contents(Whole(parts))[i] == texts[i] && Ids(Whole(parts))[i] == ids[i]
    {
      assert IsPart(parts[i], t, i, ids[i], texts[i]);
    }
  }

  lemma OutcomeOfTooMany(t: Sent, cache: Cache, arrivals: seq<Json>, j: nat, i: nat, id: Str, text: string)
    requires j < |arrivals| && IsPart(arrivals[j], t, i, id, text) && t.cut.long
    ensures t.cut.n % 0x100 < 2 ==> Outcomes(cache, arrivals)[j] == Kept
    ensures t.cut.n % 0x100 >= 2 && i == 0xFF ==> Outcomes(cache, arrivals)[j] == Outcome.Panicked
  {
    var _ := OutcomeOf(cache, arrivals, j);
  }

  lemma TooManyAt(t: Sent, cache: Cache, arrivals: seq<Json>, parts: seq<Json>, ids: seq<Str>,
                  texts: seq<string>, j: nat, last: nat)
    requires AreParts(parts, t, ids, texts) && t.cut.long && t.cut.n >= 0x100
    requires j < |arrivals| == |parts| && arrivals[j] == parts[0xFF]
    requires last < |parts| && arrivals[|parts| - 1] == parts[last]
    ensures Outcomes(cache, arrivals)[j] == Outcome.Panicked || Outcomes(cache, arrivals)[|parts| - 1] == Kept
  {
    assert IsPart(parts[0xFF], t, 0xFF, ids[0xFF], texts[0xFF]);
    OutcomeOfTooMany(t, cache, arrivals, j, 0xFF, ids[0xFF], texts[0xFF]);
    OutcomeOfTooMany(t, cache, arrivals, |parts| - 1, last, ids[last], texts[last]);
  }

  /** Part 256 is numbered 0: it kills the entity's task, or nothing is ever accepted. */
  lemma TooManyParts(t: Sent, cache: Cache, parts: seq<Json>, ids: seq<Str>, texts: seq<string>, order: seq<nat>)
    requires AreParts(parts, t, ids, texts) && t.cut.long && t.cut.n >= 0x100 && Permutation(order, |parts|)
    ensures !Reassembles(t, cache, parts, ids, order)
  {
    var arrivals, n := Arranged(parts, order), |parts|;
    var last := order[n - 1];
    var j := PositionOf(order, n, 0xFF);
    TooManyAt(t, cache, arrivals, parts, ids, texts, j, last);
    NotReassembled(t, cache, parts, ids, order, j);
  }

  lemma PositionOf(order: seq<nat>, n: nat, i: nat) returns (j: nat)
    requires Permutation(order, n) && i < n
    ensures j < n && order[j] == i
  {
    assert i in order;
    j :| 0 <= j < n && order[j] == i;
  }

  lemma NotReassembled(t: Sent, cache: Cache, parts: seq<Json>, ids: seq<Str>, order: seq<nat>, j: nat)
    requires Permutation(order, |parts|) && j < |parts|
    requires var o := Outcomes(cache, Arranged(parts, order)); o[j] == Outcome.Panicked || o[|parts| - 1] == Kept
    ensures !Reassembles(t, cache, parts, ids, order)
  {
  }

  lemma DeliveredReassembles(t: Sent, cache: Cache, parts: seq<Json>, ids: seq<Str>,
                             texts: seq<string>, order: seq<nat>)
    requires AreParts(parts, t, ids, texts) && parts != [] && Permutation(order, |parts|)
    requires JoinFrom(texts, 0) == t.content
    requires Delivered(cache, parts, t.key, Arranged(parts, order))
    ensures Reassembles(t, cache, parts, ids, order)
  {
    WholeIs(parts, t, ids, texts);
    assert IsPart(parts[0], t, 0, ids[0], texts[0]);
    assert Outcomes(cache, Arranged(parts, order))[|parts| - 1] == Complete(Whole(parts));
  }

  lemma ReassemblesIff(t: Sent, cache: Cache, parts: seq<Json>, ids: seq<Str>, texts: seq<string>, order: seq<nat>)
    requires AreParts(parts, t, ids, texts) && t.cut.long && 2 <= t.cut.n < 0x100 && Permutation(order, |parts|)
    requires JoinFrom(texts, 0) == t.content
    ensures Reassembles(t, cache, parts, ids, order) <==> !Stale(cache, t.key, t.cut.n, order[t.cut.n - 1])
  {
    PartsBelong(parts, t, ids, texts);
    if Stale(cache, t.key, t.cut.n, order[t.cut.n - 1]) {
      var _ := StaleComesOutEarly(cache, parts, t.key, order);
    } else {
      DeliveredIff(cache, parts, t.key, order);
      DeliveredReassembles(t, cache, parts, ids, texts, order);
    }
  }

  /**
    A long message, whatever the order in which its packets reach the entity,
    comes out exactly once, at the last packet, with the sender's text and the
    ids in part order, if and only if it has at most 255 parts, no cut goes
    through a character, and no unfinished message of as many parts under the
    same key already fills the slot of the last packet.
   */
  lemma CrossesIff(t: Sent, cs: Charset.Charset, ds: seq<Decoded<Json>>, ids: seq<Str>, cache: Cache, order: seq<nat>)
    requires t.Proper(cs) && t.cut.long && Faithful(ds, t, cs, ids) && Permutation(order, t.cut.n)
    ensures Crosses(t, ds, ids, cache, order)
       <==> t.cut.n <= 255 && CutsBetweenChars(cs, t.content, t.cut.n)
            && !Stale(cache, t.key, t.cut.n, order[t.cut.n - 1])
  {
    AllDecodeIff(cs, t.content, t.code, t.cut);
    AllOkIff(t, cs, ds, ids);
    if AllOk(ds) {
      var parts, texts := Arrivals(ds, ids), Texts(cs, Pieces(t.code, t.cut));
      PartsOf(t, cs, ds, ids);
      TextsJoin(cs, t.content, t.code, t.cut);
      if t.cut.n <= 255 {
        ReassemblesIff(t, cache, parts, ids, texts, order);
      } else {
        TooManyParts(t, cache, parts, ids, texts, order);
      }
    }
  }

  /** If the conditions fail nothing comes out at the last packet, or something else has before. */
  lemma ComesOutOnlyIf(t: Sent, cs: Charset.Charset, ds: seq<Decoded<Json>>, ids: seq<Str>, cache: Cache,
                       order: seq<nat>)
    requires t.Proper(cs) && t.cut.long && Faithful(ds, t, cs, ids) && Permutation(order, t.cut.n)
    requires AllOk(ds) && ComesOut(cache, Arranged(Arrivals(ds, ids), order))
    ensures t.cut.n <= 255 && CutsBetweenChars(cs, t.content, t.cut.n)
            && !Stale(cache, t.key, t.cut.n, order[t.cut.n - 1])
  {
    AllDecodeIff(cs, t.content, t.code, t.cut);
    AllOkIff(t, cs, ds, ids);
    PartsOf(t, cs, ds, ids);
    var parts, texts := Arrivals(ds, ids), Texts(cs, Pieces(t.code, t.cut));
    if t.cut.n > 255 {
      TooManyNeverComesOut(t, cache, parts, ids, texts, order);
    } else {
      PartsBelong(parts, t, ids, texts);
      if Stale(cache, t.key, t.cut.n, order[t.cut.n - 1]) {
        var _ := StaleComesOutEarly(cache, parts, t.key, order);
        assert false;
      }
    }
  }

  lemma TooManyNeverComesOut(t: Sent, cache: Cache, parts: seq<Json>, ids: seq<Str>, texts: seq<string>,
                             order: seq<nat>)
    requires AreParts(parts, t, ids, texts) && t.cut.long && t.cut.n >= 0x100 && Permutation(order, |parts|)
    ensures !ComesOut(cache, Arranged(parts, order))
  {
    var n := |parts|;
    var j := PositionOf(order, n, 0xFF);
    TooManyAt(t, cache, Arranged(parts, order), parts, ids, texts, j, order[n - 1]);
  }

  lemma AllOkIff(t: Sent, cs: Charset.Charset, ds: seq<Decoded<Json>>, ids: seq<Str>)
    requires t.Proper(cs) && Faithful(ds, t, cs, ids)
    ensures AllOk(ds) <==> AllDecode(cs, Pieces(t.code, t.cut))
  {
    var pieces := Pieces(t.code, t.cut);
    assert forall i :: 0 <= i < t.cut.n ==> (ds[i].Ok? <==> Charset.Decode(cs, pieces[i]).Some?);
  }

  lemma PartsOf(t: Sent, cs: Charset.Charset, ds: seq<Decoded<Json>>, ids: seq<Str>)
    requires t.Proper(cs) && Faithful(ds, t, cs, ids) && AllOk(ds) && AllDecode(cs, Pieces(t.code, t.cut))
    ensures AreParts(Arrivals(ds, ids), t, ids, Texts(cs, Pieces(t.code, t.cut)))
  {
    forall i | 0 <= i < t.cut.n
      ensures IsPart(Arrivals(ds, ids)[i], t, i, ids[i], Texts(cs, Pieces(t.code, t.cut))[i])
    {
      assert FaithfulAt(ds[i], t, i, ids[i], Charset.Decode(cs, Pieces(t.code, t.cut)[i]));
    }
  }

  /** ASCII text, and format 8 without surrogates, of 141 to 255 * 134 bytes always crosses
      if no entry waits for the key. */
  lemma PlainTextCrosses(t: Sent, cs: Charset.Charset, ds: seq<Decoded<Json>>, ids: seq<Str>,
                         cache: Cache, order: seq<nat>)
    requires t.Proper(cs) && t.cut.long && Faithful(ds, t, cs, ids) && Permutation(order, t.cut.n)
    requires |t.code| <= 255 * 134 && t.key !in cache
    requires match cs case Utf8 => Ascii(t.content) case Utf16 => Basic(t.content)
    ensures Crosses(t, ds, ids, cache, order)
  {
    match cs {
      case Utf8 => AsciiCutsWell(t.content, t.cut.n);
      case Utf16 => BasicCutsWell(t.content, t.cut.n);
    }
    CrossesIff(t, cs, ds, ids, cache, order);
  }

  // ---------- how it can go wrong ----------

  /** A part of an earlier message in as many parts, numbered like the one that comes last now. */
  function OldPart(t: Sent, number: nat): Json
    requires number < 0xFF && t.cut.n <= 0xFF
  {
    EMPTY.(longTotal := Some(t.cut.n), longNumber := Some(number + 1), body := EMPTY_BODY.(srcId := Some(t.key)))
  }

  /** One such part, received before, and the message does not come out as it should. */
  lemma OldPartSpoils(t: Sent, cs: Charset.Charset, ds: seq<Decoded<Json>>, ids: seq<Str>, order: seq<nat>)
    requires t.Proper(cs) && t.cut.long && Faithful(ds, t, cs, ids) && Permutation(order, t.cut.n) && t.cut.n <= 255
    ensures var (cache, outcome) := Handle(map[], OldPart(t, order[t.cut.n - 1]));
      outcome == Kept && !Crosses(t, ds, ids, cache, order)
  {
    var last := order[t.cut.n - 1];
    OldPartWaits(t, last);
    CrossesIff(t, cs, ds, ids, Handle(map[], OldPart(t, last)).0, order);
  }

  lemma OldPartWaits(t: Sent, last: nat)
    requires 2 <= t.cut.n <= 255 && last < t.cut.n
    ensures var (cache, outcome) := Handle(map[], OldPart(t, last));
      outcome == Kept && Stale(cache, t.key, t.cut.n, last)
  {
    var m := OldPart(t, last);
    assert Key(m) == t.key + [] == t.key;
    assert Fill(Vacant(t.cut.n), m)[if last == 0 then 1 else 0] == None;
  }

  /** The two go to the same slot of the same vector. */
  predicate SameSlot(a: Json, b: Json) {
    Key(a) == Key(b) && a.longTotal == b.longTotal && a.longNumber == b.longNumber
  }

  predicate AllSameSlot(arrivals: seq<Json>, m: Json) {
    forall i :: 0 <= i < |arrivals| ==> SameSlot(arrivals[i], m)
  }

  /** If the first does not complete anything, none does. */
  lemma {:induction false} SameSlotKept(cache: Cache, arrivals: seq<Json>)
    requires arrivals != [] && AllSameSlot(arrivals, arrivals[0]) && Outcomes(cache, arrivals)[0] == Kept
    ensures forall j :: 0 <= j < |arrivals| ==> Outcomes(cache, arrivals)[j] == Kept
    decreases |arrivals|
  {
    if |arrivals| > 1 {
      var next := Handle(cache, arrivals[0]).0;
      assert SameSlot(arrivals[1], arrivals[0]);
      KeptAgain(cache, arrivals[0], arrivals[1]);
      SameSlotKept(next, arrivals[1..]);
    }
  }

  lemma KeptAgain(cache: Cache, first: Json, second: Json)
    requires Handle(cache, first).1 == Kept && SameSlot(second, first)
    ensures Handle(Handle(cache, first).0, second).1 == Kept
  {
    if Acceptable(first) {
      var slots := Fill(Waiting(cache, first), first);
      var empty :| 0 <= empty < |slots| && slots[empty].None?;
      assert Waiting(Handle(cache, first).0, second) == slots;
      assert Fill(slots, second)[empty].None?;
    }
  }

  /** Packets that all look like the same part never make up a message. */
  lemma SameSlotNeverComesOut(ds: seq<Decoded<Json>>, ids: seq<Str>, cache: Cache, order: seq<nat>)
    requires |ds| == |ids| >= 2 && Permutation(order, |ds|) && AllOk(ds)
    requires forall i :: 0 <= i < |ds| ==> SameSlot(ds[i].value, ds[0].value)
    ensures !ComesOut(cache, Arranged(Arrivals(ds, ids), order))
  {
    var arrivals := Arranged(Arrivals(ds, ids), order);
    forall i | 0 <= i < |arrivals|
      ensures SameSlot(arrivals[i], ds[0].value)
    {
      assert SameSlot(ds[order[i]].value, ds[0].value);
    }
    if Outcomes(cache, arrivals)[0] == Kept {
      SameSlotKept(cache, arrivals);
    }
  }

  lemma SameSlotNeverCrosses(t: Sent, ds: seq<Decoded<Json>>, ids: seq<Str>, cache: Cache, order: seq<nat>)
    requires |ds| == |ids| >= 2 && Permutation(order, |ds|)
    requires forall i :: 0 <= i < |ds| && ds[i].Ok? ==> ds[0].Ok? && SameSlot(ds[i].value, ds[0].value)
    ensures !Crosses(t, ds, ids, cache, order)
  {
    if AllOk(ds) {
      SameSlotNeverComesOut(ds, ids, cache, order);
    }
  }
}
