/**
  The CMPP message id: 64 packed bits on the wire, 22 decimal digits in JSON
  (src/protocol/implements.rs).
 */
module CmppMsgId {
  import opened Arithmetic
  import opened Bytes

  /** Month, day, hour, minute, second, gateway number and sequence number: decimal digits and bits of each. */
  const WIDTHS: seq<nat> := [2, 2, 2, 2, 2, 7, 5]
  const BITS: seq<nat> := [4, 5, 5, 6, 6, 22, 16]

  // ---------- decimal digits ----------

  const ZERO: byte := 0x30

  /** The low `width` decimal digits of `n`. */
  function Digits(n: nat, width: nat): (s: seq<byte>)
    ensures |s| == width
    ensures AllDigits(s)
  {
    if width == 0 then [] else Digits(n / 10, width - 1) + [(ZERO as int + n % 10) as byte]
  }

  predicate AllDigits(s: seq<byte>) {
    forall i :: 0 <= i < |s| ==> ZERO <= s[i] < ZERO + 10
  }

  function Pow10(width: nat): (p: nat)
    ensures p >= 1
  {
    if width == 0 then 1 else 10 * Pow10(width - 1)
  }

  /** The number a digit string denotes. */
  function Value(s: seq<byte>): nat
    requires AllDigits(s)
  {
    if s == [] then 0 else Value(s[..|s| - 1]) * 10 + (s[|s| - 1] - ZERO) as nat
  }

  /** `s.parse::<u64>().unwrap_or(0)`, with the optional leading plus sign that Rust accepts. */
  function ParseOr0(s: seq<byte>): u64 {
    var t := if |s| > 1 && s[0] == '+' as int then s[1..] else s;
    if t != [] && AllDigits(t) && Value(t) < 0x1_0000_0000_0000_0000 then Value(t) else 0
  }

  /** Digit `k` from the left, the highest first, zeros in front. */
  lemma {:induction false} DigitAt(n: nat, width: nat, k: nat)
    requires k < width
    ensures Digits(n, width)[k] == 0x30 + n / Pow10(width - 1 - k) % 10
    decreases width
  {
    if k < width - 1 {
      DigitAt(n / 10, width - 1, k);
      TenTimes(n, Pow10(width - 2 - k));
    }
  }

  lemma TenTimes(n: nat, p: nat)
    requires p > 0
    ensures n / 10 / p == n / (10 * p)
  {
    var q, r := Arithmetic.Split(n, 10);
    var a, b := Arithmetic.Split(q, p);
    assert a * (10 * p) == (a * p) * 10;
    DivModUnique(n, 10 * p, a, 10 * b + r);
  }

  lemma {:induction false} ValueOfDigits(n: nat, width: nat)
    requires n < Pow10(width)
    ensures Value(Digits(n, width)) == n
  {
    if width > 0 {
      var s := Digits(n, width);
      assert s[..|s| - 1] == Digits(n / 10, width - 1);
      ValueOfDigits(n / 10, width - 1);
    }
  }

  lemma {:induction false} DigitsOfValue(s: seq<byte>)
    requires AllDigits(s)
    ensures Value(s) < Pow10(|s|)
    ensures Digits(Value(s), |s|) == s
  {
    if s != [] {
      DigitsOfValue(s[..|s| - 1]);
      assert Value(s) / 10 == Value(s[..|s| - 1]);
    }
  }

  /** At most nine digits cannot overflow a u64. */
  lemma ParsesDigits(s: seq<byte>)
    requires 0 < |s| <= 9 && AllDigits(s)
    ensures ParseOr0(s) == Value(s)
  {
    DigitsOfValue(s);
    Pow10Monotone(|s|, 9);
    assert Pow10(9) == 1_000_000_000;
  }

  lemma {:induction false} Pow10Monotone(a: nat, b: nat)
    requires a <= b
    ensures Pow10(a) <= Pow10(b)
    decreases b
  {
    if a < b {
      Pow10Monotone(a, b - 1);
    }
  }

  // ---------- bit fields ----------

  /** Bitwise or. */
  function BitOr(a: nat, b: nat): nat
    decreases a + b
  {
    if a == 0 then b else if b == 0 then a
    else 2 * BitOr(a / 2, b / 2) + (if a % 2 == 1 || b % 2 == 1 then 1 else 0)
  }

  /** `(r << bits) | v` on u64: the shift drops the bits pushed out at the top. */
  function ShiftOr(r: nat, bits: nat, v: nat): nat {
    BitOr(r * Pow2(bits) % 0x1_0000_0000_0000_0000, v)
  }

  lemma {:induction false} BitOrDisjoint(a: nat, k: nat, b: nat)
    requires b < Pow2(k)
    ensures BitOr(a * Pow2(k), b) == a * Pow2(k) + b
    decreases k
  {
    if k > 0 && a > 0 && b > 0 {
      assert a * Pow2(k) == 2 * (a * Pow2(k - 1));
      BitOrDisjoint(a, k - 1, b / 2);
    }
  }

  lemma {:induction false} BitOrBound(a: nat, b: nat, k: nat)
    requires a < Pow2(k) && b < Pow2(k)
    ensures BitOr(a, b) < Pow2(k)
    decreases k
  {
    if k > 0 && a > 0 && b > 0 {
      BitOrBound(a / 2, b / 2, k - 1);
    }
  }

  lemma ShiftOrBound(r: nat, bits: nat, v: u64)
    ensures ShiftOr(r, bits, v) < 0x1_0000_0000_0000_0000
  {
    Pow2Of64();
    BitOrBound(r * Pow2(bits) % 0x1_0000_0000_0000_0000, v, 64);
  }

  lemma Pow2Of64()
    ensures Pow2(64) == 0x1_0000_0000_0000_0000
  {
    assert Pow2(8) == 256;
    Pow2Add(8, 8);
    assert Pow2(16) == 0x1_0000;
    Pow2Add(16, 16);
    assert Pow2(32) == 0x1_0000_0000;
    Pow2Add(32, 32);
  }

  lemma JoinBelow(r: nat, q: nat, p: nat, v: nat)
    requires r < q && v < p
    ensures r * p + v < q * p
  {
    MulMonotone(p, r + 1, q);
    assert p * (r + 1) == r * p + p && p * q == q * p;
  }

  /** A field joined below another takes no more bits than both. */
  lemma JoinFits(r: nat, room: nat, bits: nat, v: nat)
    requires v < Pow2(bits) && r < Pow2(room)
    ensures r * Pow2(bits) + v < Pow2(room + bits)
  {
    Pow2Add(room, bits);
    JoinBelow(r, Pow2(room), Pow2(bits), v);
  }

  lemma At64(x: nat, bits: nat)
    requires x < Pow2(bits) && bits <= 64
    ensures x < 0x1_0000_0000_0000_0000
  {
    Pow2Monotone(bits, 64);
    Pow2Of64();
  }

  /** An or whose shift drops nothing adds. */
  lemma ShiftOrAdds(r: nat, bits: nat, v: nat)
    requires v < Pow2(bits) && r * Pow2(bits) < 0x1_0000_0000_0000_0000
    ensures ShiftOr(r, bits, v) == r * Pow2(bits) + v
  {
    SmallMod(r * Pow2(bits), 0x1_0000_0000_0000_0000);
    BitOrDisjoint(r, bits, v);
  }

  /** Without overflow, shifting and or-ing places `v` below `r`. */
  lemma ShiftOrIsPlace(r: nat, room: nat, bits: nat, v: nat)
    requires v < Pow2(bits) && r < Pow2(room) && room + bits <= 64
    ensures ShiftOr(r, bits, v) == r * Pow2(bits) + v < Pow2(room + bits)
  {
    JoinFits(r, room, bits, v);
    At64(r * Pow2(bits) + v, room + bits);
    ShiftOrAdds(r, bits, v);
  }

  // ---------- the two conversions ----------

  function Sum(bits: seq<nat>): nat {
    if bits == [] then 0 else Sum(bits[..|bits| - 1]) + bits[|bits| - 1]
  }

  /** The bit fields of `x`, read from the low end. */
  function Unpack(x: nat, bits: seq<nat>): (vs: seq<nat>)
    ensures |vs| == |bits|
    decreases |bits|
  {
    if bits == [] then [] else
      var last := |bits| - 1;
      Unpack(Shr(x, bits[last]), bits[..last]) + [Low(x, bits[last])]
  }

  /** The first field is taken as it is, the others are masked to their bits. */
  function PackMasked(vs: seq<nat>, bits: seq<nat>): nat
    requires |vs| == |bits| > 0
    decreases |bits|
  {
    var last := |bits| - 1;
    if last == 0 then vs[0]
    else ShiftOr(PackMasked(vs[..last], bits[..last]), bits[last], Low(vs[last], bits[last]))
  }

  /** The last field is or-ed in without a mask. */
  function Pack(vs: seq<nat>, bits: seq<nat>): nat
    requires |vs| == |bits| > 1
  {
    var last := |bits| - 1;
    ShiftOr(PackMasked(vs[..last], bits[..last]), bits[last], vs[last])
  }

  function Print(vs: seq<nat>, widths: seq<nat>): (s: seq<byte>)
    requires |vs| == |widths|
    ensures AllDigits(s)
  {
    if vs == [] then [] else Digits(vs[0], widths[0]) + Print(vs[1..], widths[1..])
  }

  /** `split_at` the fixed widths; the last field takes all that is left. */
  function Parse(s: seq<byte>, widths: seq<nat>): (vs: seq<u64>)
    requires widths != [] && |s| >= Sum(widths[..|widths| - 1])
    ensures |vs| == |widths|
  {
    if |widths| == 1 then [ParseOr0(s)]
    else
      SumFront(widths[..|widths| - 1]);
      assert widths[..|widths| - 1][1..] == widths[1..][..|widths| - 2];
      [ParseOr0(s[..widths[0]])] + Parse(s[widths[0]..], widths[1..])
  }

  lemma {:induction false} SumFront(ws: seq<nat>)
    requires ws != []
    ensures Sum(ws) == ws[0] + Sum(ws[1..])
  {
    if |ws| > 1 {
      SumFront(ws[..|ws| - 1]);
      assert ws[..|ws| - 1][1..] == ws[1..][..|ws| - 2];
    }
  }

  function U64ToStr(x: u64): seq<byte> {
    Print(Unpack(x, BITS), WIDTHS)
  }

  /** The source panics on a non-empty string too short to split; an empty one asks for a new id, `created`. */
  function StrToU64(s: seq<byte>, created: u64): u64
    requires s == [] || |s| >= 17
  {
    if s == [] then created else
      SumWidths();
      var vs := Parse(s, WIDTHS);
      ShiftOrBound(PackMasked(vs[..6], BITS[..6]), BITS[6], vs[6]);
      Pack(vs, BITS)
  }

  lemma SumWidths()
    ensures Sum(WIDTHS[..6]) == 17 && Sum(WIDTHS) == 22 && Sum(BITS) == 64
  {
    SumOf7(WIDTHS);
    SumOf7(BITS);
    SumFront(WIDTHS);
  }

  lemma SumOf7(w: seq<nat>)
    requires |w| == 7
    ensures Sum(w[..6]) == w[0] + w[1] + w[2] + w[3] + w[4] + w[5]
    ensures Sum(w) == Sum(w[..6]) + w[6]
  {
    SumStep(w, 0);
    SumStep(w, 1);
    SumStep(w, 2);
    SumStep(w, 3);
    SumStep(w, 4);
    SumStep(w, 5);
    assert w[..0] == [];
  }

  lemma SumStep(w: seq<nat>, k: nat)
    requires k < |w|
    ensures Sum(w[..k + 1]) == Sum(w[..k]) + w[k]
  {
    assert w[..k + 1][..k] == w[..k];
  }

  // ---------- fields that fit ----------

  predicate FitsBits(vs: seq<nat>, bits: seq<nat>)
    requires |vs| == |bits|
  {
    forall i :: 0 <= i < |vs| ==> vs[i] < Pow2(bits[i])
  }

  predicate FitsWidths(vs: seq<nat>, widths: seq<nat>)
    requires |vs| == |widths|
  {
    forall i :: 0 <= i < |vs| ==> 0 < widths[i] <= 9 && vs[i] < Pow10(widths[i])
  }

  lemma {:induction false} UnpackPackMasked(vs: seq<nat>, bits: seq<nat>)
    requires |vs| == |bits| > 0 && FitsBits(vs, bits) && Sum(bits) <= 64
    ensures PackMasked(vs, bits) < Pow2(Sum(bits))
    ensures Unpack(PackMasked(vs, bits), bits) == vs
    decreases |bits|
  {
    var last := |bits| - 1;
    if last == 0 {
      LowOfSmall(vs[0], bits[0]);
      SumStep(bits, 0);
      assert bits[..1] == bits && Sum(bits[..0]) == 0;
      assert Unpack(vs[0], bits) == Unpack(0, bits[..0]) + [vs[0]];
    } else {
      var r := PackMasked(vs[..last], bits[..last]);
      UnpackPackMasked(vs[..last], bits[..last]);
      PackMaskedStep(vs, bits, r);
      ShrLowOfJoin(r, bits[last], vs[last]);
    }
  }

  lemma {:induction false} UnpackFitsBits(x: nat, bits: seq<nat>)
    ensures FitsBits(Unpack(x, bits), bits)
    decreases |bits|
  {
    if bits != [] {
      UnpackFitsBits(Shr(x, bits[|bits| - 1]), bits[..|bits| - 1]);
    }
  }

  lemma {:induction false} PackMaskedUnpack(x: nat, bits: seq<nat>)
    requires bits != [] && Sum(bits) <= 64 && x < Pow2(Sum(bits))
    ensures PackMasked(Unpack(x, bits), bits) == x
    decreases |bits|
  {
    var last := |bits| - 1;
    var q := Shr(x, bits[last]);
    var vs := Unpack(x, bits);
    if last == 0 {
      SumStep(bits, 0);
      assert bits[..1] == bits && Sum(bits[..0]) == 0;
      LowOfSmall(x, bits[0]);
    } else {
      assert vs[..last] == Unpack(q, bits[..last]);
      ShrBelow(x, Sum(bits[..last]), bits[last]);
      PackMaskedUnpack(q, bits[..last]);
      PackMaskedStep(vs, bits, q);
    }
  }

  lemma PackMaskedLast(vs: seq<nat>, bits: seq<nat>)
    requires |vs| == |bits| > 1
    ensures var last := |bits| - 1;
      PackMasked(vs, bits) == ShiftOr(PackMasked(vs[..last], bits[..last]), bits[last], Low(vs[last], bits[last]))
  {
  }

  lemma MaskedPlace(q: nat, room: nat, bits: nat, v: nat)
    requires v < Pow2(bits) && q < Pow2(room) && room + bits <= 64
    ensures ShiftOr(q, bits, Low(v, bits)) == q * Pow2(bits) + v < Pow2(room + bits)
  {
    LowOfSmall(v, bits);
    ShiftOrIsPlace(q, room, bits, v);
  }

  lemma SumLast(bits: seq<nat>)
    requires bits != []
    ensures Sum(bits) == Sum(bits[..|bits| - 1]) + bits[|bits| - 1]
  {
  }

  lemma PackMaskedStep(vs: seq<nat>, bits: seq<nat>, q: nat)
    requires |vs| == |bits| > 1 && Sum(bits) <= 64
    requires var last := |bits| - 1;
             PackMasked(vs[..last], bits[..last]) == q < Pow2(Sum(bits[..last])) && vs[last] < Pow2(bits[last])
    ensures PackMasked(vs, bits) == q * Pow2(bits[|bits| - 1]) + vs[|bits| - 1] < Pow2(Sum(bits))
  {
    var last := |bits| - 1;
    PackMaskedLast(vs, bits);
    SumLast(bits);
    MaskedPlace(q, Sum(bits[..last]), bits[last], vs[last]);
  }

  lemma ShrBelow(x: nat, room: nat, bits: nat)
    requires x < Pow2(room + bits)
    ensures Shr(x, bits) < Pow2(room)
  {
    Pow2Add(room, bits);
    if Pow2(room) <= Shr(x, bits) {
      MulMonotone(Pow2(bits), Pow2(room), Shr(x, bits));
    }
  }

  /** Fields that fit are not changed by the masks, so `Pack` and `PackMasked` agree on them. */
  lemma PackFits(vs: seq<nat>, bits: seq<nat>)
    requires |vs| == |bits| > 1 && FitsBits(vs, bits)
    ensures Pack(vs, bits) == PackMasked(vs, bits)
  {
    LowOfSmall(vs[|vs| - 1], bits[|vs| - 1]);
  }

  lemma {:induction false} ParsePrint(vs: seq<nat>, widths: seq<nat>)
    requires |vs| == |widths| > 0 && FitsWidths(vs, widths)
    ensures |Print(vs, widths)| == Sum(widths) >= Sum(widths[..|widths| - 1])
    ensures Parse(Print(vs, widths), widths) == vs
  {
    var s, d, rest := Print(vs, widths), Digits(vs[0], widths[0]), Print(vs[1..], widths[1..]);
    SumFront(widths);
    ValueOfDigits(vs[0], widths[0]);
    ParsesDigits(d);
    if |vs| == 1 {
      assert s == d;
    } else {
      ParsePrint(vs[1..], widths[1..]);
      assert s[..widths[0]] == d && s[widths[0]..] == rest;
    }
  }

  /** Of several fields the first is read from its own digits and the others from what follows. */
  lemma ParseFirst(s: seq<byte>, widths: seq<nat>)
    requires |widths| > 1 && |s| == Sum(widths) >= Sum(widths[..|widths| - 1])
    ensures widths[0] <= |s| && |s[widths[0]..]| == Sum(widths[1..]) >= Sum(widths[1..][..|widths| - 2])
    ensures Parse(s, widths) == [ParseOr0(s[..widths[0]])] + Parse(s[widths[0]..], widths[1..])
  {
    SumFront(widths);
    SumFront(widths[..|widths| - 1]);
    assert widths[..|widths| - 1][1..] == widths[1..][..|widths| - 2];
  }

  /** The first digits print back. */
  lemma FirstDigits(s: seq<byte>, w: nat)
    requires 0 < w <= 9 && w <= |s| && AllDigits(s)
    ensures AllDigits(s[w..]) && s == Digits(ParseOr0(s[..w]), w) + s[w..]
  {
    ParsesBack(s[..w]);
    assert s == s[..w] + s[w..];
  }

  lemma FirstField(s: seq<byte>, widths: seq<nat>) returns (first: nat, rest: seq<nat>, tail: seq<byte>)
    requires |widths| > 1 && |s| == Sum(widths) >= Sum(widths[..|widths| - 1])
    requires AllDigits(s) && 0 < widths[0] <= 9
    ensures AllDigits(tail) && |tail| == Sum(widths[1..]) >= Sum(widths[1..][..|widths| - 2])
    ensures Parse(s, widths) == [first] + rest && rest == Parse(tail, widths[1..])
    ensures s == Digits(first, widths[0]) + tail
  {
    ParseFirst(s, widths);
    FirstDigits(s, widths[0]);
    tail := s[widths[0]..];
    first, rest := ParseOr0(s[..widths[0]]), Parse(tail, widths[1..]);
  }

  lemma PrintParseOne(s: seq<byte>, widths: seq<nat>)
    requires |widths| == 1 && |s| == widths[0] && AllDigits(s) && 0 < widths[0] <= 9
    ensures Print(Parse(s, widths), widths) == s
  {
    assert widths[1..] == [];
    ParsesBack(s);
    PrintCons(Parse(s, widths), widths, ParseOr0(s), []);
  }

  /** A digit string whose length is the sum of the widths spells fields that print back. */
  lemma {:induction false} PrintParse(s: seq<byte>, widths: seq<nat>)
    requires widths != [] && |s| == Sum(widths) >= Sum(widths[..|widths| - 1])
    requires AllDigits(s) && forall i :: 0 <= i < |widths| ==> 0 < widths[i] <= 9
    ensures Print(Parse(s, widths), widths) == s
    decreases |widths|
  {
    if |widths| == 1 {
      SumFront(widths);
      assert Sum(widths[1..]) == 0;
      PrintParseOne(s, widths);
    } else {
      var first, rest, tail := FirstField(s, widths);
      PrintParse(tail, widths[1..]);
      PrintCons(Parse(s, widths), widths, first, rest);
    }
  }

  lemma PrintCons(vs: seq<nat>, widths: seq<nat>, first: nat, more: seq<nat>)
    requires widths != [] && vs == [first] + more && |vs| == |widths|
    ensures Print(vs, widths) == Digits(first, widths[0]) + Print(more, widths[1..])
  {
    assert vs[1..] == more;
  }

  lemma ParsesBack(p: seq<byte>)
    requires 0 < |p| <= 9 && AllDigits(p)
    ensures ParseOr0(p) < Pow10(|p|) && Digits(ParseOr0(p), |p|) == p
  {
    ParsesDigits(p);
    DigitsOfValue(p);
  }

  // ---------- the round trips ----------

  /** Seven fields that fit their bits also fit their digits. */
  lemma BitsFitWidths(vs: seq<nat>)
    requires |vs| == 7 && FitsBits(vs, BITS)
    ensures FitsWidths(vs, WIDTHS)
  {
    assert Pow2(4) == 16 && Pow2(5) == 32 && Pow2(6) == 64 && Pow10(2) == 100;
    assert Pow2(16) == 65536 < Pow10(5) == 100_000;
    assert Pow2(22) == 64 * Pow2(16) < Pow10(7) == 10_000_000;
  }

  lemma UnpackFits(x: u64)
    ensures var vs := Unpack(x, BITS); FitsBits(vs, BITS) && FitsWidths(vs, WIDTHS) && Pack(vs, BITS) == x
  {
    SumWidths();
    Pow2Of64();
    PackMaskedUnpack(x, BITS);
    UnpackFitsBits(x, BITS);
    PackFits(Unpack(x, BITS), BITS);
    BitsFitWidths(Unpack(x, BITS));
  }

  /** Every 64-bit id survives printing and parsing. */
  lemma IdRoundTrip(x: u64, created: u64)
    ensures |U64ToStr(x)| == 22 && AllDigits(U64ToStr(x))
    ensures StrToU64(U64ToStr(x), created) == x
  {
    SumWidths();
    UnpackFits(x);
    ParsePrint(Unpack(x, BITS), WIDTHS);
  }

  /** The seven numbers a 22-digit string spells each fit the bits the packed form gives them. */
  predicate Canonical(s: seq<byte>)
    requires |s| == 22
  {
    SumWidths();
    FitsBits(Parse(s, WIDTHS), BITS)
  }

  lemma UnpackPack(vs: seq<nat>, bits: seq<nat>)
    requires |vs| == |bits| > 1 && FitsBits(vs, bits) && Sum(bits) <= 64
    ensures Unpack(Pack(vs, bits), bits) == vs
  {
    PackFits(vs, bits);
    UnpackPackMasked(vs, bits);
  }

  lemma CanonicalSurvives(s: seq<byte>, created: u64)
    requires |s| == 22 && AllDigits(s) && Canonical(s)
    ensures U64ToStr(StrToU64(s, created)) == s
  {
    SumWidths();
    UnpackPack(Parse(s, WIDTHS), BITS);
    PrintParse(s, WIDTHS);
  }

  lemma PrintedIsCanonical(x: u64)
    ensures |U64ToStr(x)| == 22 && Canonical(U64ToStr(x))
  {
    SumWidths();
    UnpackFits(x);
    ParsePrint(Unpack(x, BITS), WIDTHS);
  }

  /** A 22-digit string survives parsing and printing exactly when each of its fields fits its bits. */
  lemma StringRoundTripIff(s: seq<byte>, created: u64)
    requires |s| == 22 && AllDigits(s)
    ensures U64ToStr(StrToU64(s, created)) == s <==> Canonical(s)
  {
    if Canonical(s) {
      CanonicalSurvives(s, created);
    } else {
      PrintedIsCanonical(StrToU64(s, created));
    }
  }

  /** The local time an id is stamped with. */
  datatype Stamp = Stamp(month: nat, day: nat, hour: nat, minute: nat, second: nat)

  predicate IsTime(t: Stamp) {
    1 <= t.month <= 12 && 1 <= t.day <= 31 && t.hour < 24 && t.minute < 60 && t.second < 60
  }

  /** `create_cmpp_msg_id`: the clock, the gateway's own number and the low 16 bits of a sequence number. */
  function CreateId(now: Stamp, gateway: nat, sequence: u32): u64 {
    var vs := [now.month, now.day, now.hour, now.minute, now.second, gateway, sequence % 0x1_0000];
    ShiftOrBound(PackMasked(vs[..6], BITS[..6]), BITS[6], vs[6]);
    Pack(vs, BITS)
  }

  /** The fields packed so far, their sizes, and the number they make. */
  datatype Row = Row(vs: seq<nat>, bits: seq<nat>, q: nat, room: nat) {
    predicate Valid() {
      |vs| == |bits| > 0 && PackMasked(vs, bits) == q < Pow2(room)
    }
  }

  lemma BitSizes()
    ensures Pow2(4) == 0x10 && Pow2(5) == 0x20 && Pow2(6) == 0x40 && Pow2(16) == 0x1_0000 && Pow2(22) == 0x40_0000
    ensures BITS == [4, 5, 5, 6, 6, 22, 16]
  {
    assert Pow2(8) == 0x100;
    Pow2Add(8, 8);
    Pow2Add(6, 16);
  }

  // ---------- what any string is packed to ----------

  /** The characters of each field: its width, and for the last all that are left. */
  function Fields(s: seq<byte>, widths: seq<nat>): (fs: seq<seq<byte>>)
    requires widths != [] && |s| >= Sum(widths[..|widths| - 1])
    ensures |fs| == |widths|
  {
    if |widths| == 1 then [s]
    else
      SumFront(widths[..|widths| - 1]);
      assert widths[..|widths| - 1][1..] == widths[1..][..|widths| - 2];
      [s[..widths[0]]] + Fields(s[widths[0]..], widths[1..])
  }

  lemma {:induction false} ParseIsFields(s: seq<byte>, widths: seq<nat>)
    requires widths != [] && |s| >= Sum(widths[..|widths| - 1])
    ensures forall i :: 0 <= i < |widths| ==> Parse(s, widths)[i] == ParseOr0(Fields(s, widths)[i])
    decreases |widths|
  {
    if |widths| > 1 {
      SumFront(widths[..|widths| - 1]);
      assert widths[..|widths| - 1][1..] == widths[1..][..|widths| - 2];
      ParseIsFields(s[widths[0]..], widths[1..]);
    }
  }

  /** Cut from `k` on: a piece for each width, and the last all that is left. */
  predicate CutFrom(fs: seq<seq<byte>>, s: seq<byte>, k: nat, widths: seq<nat>)
    decreases |widths|
  {
    k <= |s| && |fs| == |widths| > 0
    && if |widths| == 1 then fs[0] == s[k..]
       else
         k + widths[0] <= |s| && fs[0] == s[k..k + widths[0]]
         && CutFrom(fs[1..], s, k + widths[0], widths[1..])
  }

  lemma {:induction false} FieldsCut(s: seq<byte>, k: nat, widths: seq<nat>)
    requires widths != [] && k + Sum(widths[..|widths| - 1]) <= |s|
    ensures CutFrom(Fields(s[k..], widths), s, k, widths)
    decreases |widths|
  {
    if |widths| > 1 {
      var next := k + widths[0];
      SumFront(widths[..|widths| - 1]);
      assert widths[..|widths| - 1][1..] == widths[1..][..|widths| - 2];
      assert s[k..][..widths[0]] == s[k..next] && s[k..][widths[0]..] == s[next..];
      FieldsCut(s, next, widths[1..]);
    }
  }

  lemma CutTwo(fs: seq<seq<byte>>, s: seq<byte>, k: nat, widths: seq<nat>)
    requires |widths| > 2 && CutFrom(fs, s, k, widths)
    ensures k + widths[0] + widths[1] <= |s| && |fs| == |widths|
    ensures fs[0] == s[k..k + widths[0]] && fs[1] == s[k + widths[0]..k + widths[0] + widths[1]]
    ensures CutFrom(fs[2..], s, k + widths[0] + widths[1], widths[2..])
  {
    assert fs[1..][1..] == fs[2..] && widths[1..][1..] == widths[2..];
  }

  lemma SevenCut(fs: seq<seq<byte>>, s: seq<byte>)
    requires CutFrom(fs, s, 0, WIDTHS)
    ensures |s| >= 17
    ensures fs == [s[..2], s[2..4], s[4..6], s[6..8], s[8..10], s[10..17], s[17..]]
  {
    CutTwo(fs, s, 0, WIDTHS);
    CutTwo(fs[2..], s, 4, WIDTHS[2..]);
    assert WIDTHS[2..][2..] == WIDTHS[4..] && fs[2..][2..] == fs[4..];
    CutTwo(fs[4..], s, 8, WIDTHS[4..]);
  }

  /** A field below those before it, masked to its bits. */
  function Join(q: nat, v: nat, size: nat): nat
    requires size > 0
  {
    q * size + v % size
  }

  lemma AppendMasked(r: Row, v: nat, w: nat, size: nat) returns (n: Row)
    requires r.Valid() && size == Pow2(w) && r.room + w <= 64
    ensures n.Valid() && n.q == Join(r.q, v, size) && n.room == r.room + w
    ensures n.vs == r.vs + [v] && n.bits == r.bits + [w]
  {
    var low := Low(v, w);
    PackMaskedLast(r.vs + [v], r.bits + [w]);
    assert (r.vs + [v])[..|r.vs|] == r.vs && (r.bits + [w])[..|r.bits|] == r.bits;
    ShiftOrIsPlace(r.q, r.room, w, low);
    n := Row(r.vs + [v], r.bits + [w], r.q * Pow2(w) + low, r.room + w);
  }

  /** Six fields in front of the last, the first being all that it is and the others masked. */
  function Front(month: nat, day: nat, hour: nat, minute: nat, second: nat, gateway: nat): nat {
    Join(Join(Join(Join(Join(month, day, 0x20), hour, 0x20), minute, 0x40), second, 0x40), gateway, 0x40_0000)
  }

  lemma FrontPacked(month: nat, day: nat, hour: nat, minute: nat, second: nat, gateway: nat) returns (r: Row)
    requires month < 0x80
    ensures r.Valid() && r.q == Front(month, day, hour, minute, second, gateway)
    ensures r.vs == [month, day, hour, minute, second, gateway] && r.bits == [4, 5, 5, 6, 6, 22]
  {
    BitSizes();
    assert Pow2(7) == 0x80;
    r := Row([month], [4], month, 7);
    r := AppendMasked(r, day, 5, 0x20);
    r := AppendMasked(r, hour, 5, 0x20);
    r := AppendMasked(r, minute, 6, 0x40);
    r := AppendMasked(r, second, 6, 0x40);
    r := AppendMasked(r, gateway, 22, 0x40_0000);
  }

  lemma PackedFront(vs: seq<nat>)
    requires |vs| == 7 && vs[0] < 0x80
    ensures Pack(vs, BITS) == BitOr(Front(vs[0], vs[1], vs[2], vs[3], vs[4], vs[5]) * 0x1_0000
                                    % 0x1_0000_0000_0000_0000, vs[6])
  {
    var r := FrontPacked(vs[0], vs[1], vs[2], vs[3], vs[4], vs[5]);
    BitSizes();
    assert r.vs == vs[..6] && r.bits == BITS[..6];
  }

  /**
    What a string is packed to: six numbers of two, two, two, two, two and
    seven characters, masked to 5, 5, 6, 6 and 22 bits behind the first; the
    bits above 64 are lost, and the rest of the string is or-ed into the low
    ones.
   */
  lemma ParsedIdBits(s: seq<byte>, created: u64)
    requires |s| >= 17
    ensures var front := Front(ParseOr0(s[..2]), ParseOr0(s[2..4]), ParseOr0(s[4..6]), ParseOr0(s[6..8]),
                               ParseOr0(s[8..10]), ParseOr0(s[10..17]));
      StrToU64(s, created) == BitOr(front * 0x1_0000 % 0x1_0000_0000_0000_0000, ParseOr0(s[17..]))
  {
    var vs := ParsedFields(s);
    TwoDigits(s[..2]);
    PackedFront(vs);
  }

  lemma ParsedFields(s: seq<byte>) returns (vs: seq<u64>)
    requires |s| >= 17
    ensures Sum(WIDTHS[..6]) == 17 && vs == Parse(s, WIDTHS)
    ensures vs[0] == ParseOr0(s[..2]) && vs[1] == ParseOr0(s[2..4]) && vs[2] == ParseOr0(s[4..6])
    ensures vs[3] == ParseOr0(s[6..8]) && vs[4] == ParseOr0(s[8..10]) && vs[5] == ParseOr0(s[10..17])
    ensures vs[6] == ParseOr0(s[17..])
  {
    SumWidths();
    assert s[0..] == s;
    vs := Parse(s, WIDTHS);
    var fs := Fields(s, WIDTHS);
    ParseIsFields(s, WIDTHS);
    FieldsCut(s, 0, WIDTHS);
    SevenCut(fs, s);
    assert forall i :: 0 <= i < 7 ==> vs[i] == ParseOr0(fs[i]);
  }

  lemma TwoDigits(s: seq<byte>)
    requires |s| == 2
    ensures ParseOr0(s) < 100
  {
    var t := if s[0] == '+' as int then s[1..] else s;
    if AllDigits(t) {
      DigitsOfValue(t);
      Pow10Monotone(|t|, 2);
      assert Pow10(2) == 100;
    }
  }

  /**
    The bits of a new id, from the highest: month 4, day 5, hour 5, minute 6,
    second 6, gateway 22, sequence number 16 (Msg_Id in CMPP 2.0).
   */
  lemma CreatedIdBits(now: Stamp, gateway: nat, sequence: u32)
    requires IsTime(now) && gateway < 0x40_0000
    ensures CreateId(now, gateway, sequence)
         == (((((now.month * 0x20 + now.day) * 0x20 + now.hour) * 0x40 + now.minute) * 0x40 + now.second) * 0x40_0000
             + gateway) * 0x1_0000 + sequence % 0x1_0000
  {
    var front := SmallFront(now, gateway);
    CreatedIdPacks(now, gateway, sequence);
    BelowFront(front, sequence % 0x1_0000);
  }

  lemma CreatedIdPacks(now: Stamp, gateway: nat, sequence: u32)
    requires now.month < 0x80
    ensures CreateId(now, gateway, sequence)
         == BitOr(Front(now.month, now.day, now.hour, now.minute, now.second, gateway) * 0x1_0000
                  % 0x1_0000_0000_0000_0000, sequence % 0x1_0000)
  {
    PackedFront([now.month, now.day, now.hour, now.minute, now.second, gateway, sequence % 0x1_0000]);
  }

  lemma SmallFront(now: Stamp, gateway: nat) returns (front: nat)
    requires IsTime(now) && gateway < 0x40_0000
    ensures front == Front(now.month, now.day, now.hour, now.minute, now.second, gateway) < 0x1_0000_0000_0000
    ensures front == ((((now.month * 0x20 + now.day) * 0x20 + now.hour) * 0x40 + now.minute) * 0x40 + now.second)
                     * 0x40_0000 + gateway
  {
    front := JoinSmall(now.month, now.day, 0x20);
    front := JoinSmall(front, now.hour, 0x20);
    front := JoinSmall(front, now.minute, 0x40);
    front := JoinSmall(front, now.second, 0x40);
    front := JoinSmall(front, gateway, 0x40_0000);
  }

  lemma JoinSmall(q: nat, v: nat, size: nat) returns (n: nat)
    requires v < size
    ensures n == Join(q, v, size) == q * size + v
  {
    SmallMod(v, size);
    n := q * size + v;
  }

  lemma BelowFront(front: nat, low: nat)
    requires front < 0x1_0000_0000_0000 && low < 0x1_0000
    ensures BitOr(front * 0x1_0000 % 0x1_0000_0000_0000_0000, low) == front * 0x1_0000 + low
  {
    BitSizes();
    SmallMod(front * 0x1_0000, 0x1_0000_0000_0000_0000);
    BitOrDisjoint(front, 16, low);
  }

  /** A number is read from digits alone, one plus sign in front allowed; anything else is zero. */
  lemma ParsesIff(s: seq<byte>)
    ensures AllDigits(s) && s != [] && Value(s) < 0x1_0000_0000_0000_0000 ==>
      ParseOr0(s) == Value(s) && ParseOr0(['+' as int] + s) == Value(s)
    ensures !AllDigits(s) && (s[0] == '+' as int ==> !AllDigits(s[1..]) || |s| == 1) ==> ParseOr0(s) == 0
    ensures s == [] ==> ParseOr0(s) == 0
    ensures AllDigits(s) && Value(s) >= 0x1_0000_0000_0000_0000 ==> ParseOr0(s) == 0
  {
    assert (['+' as int] + s)[1..] == s;
  }

  /** Bit by bit, an or. */
  lemma {:induction false} BitOrAt(a: nat, b: nat, k: nat)
    ensures Bit(BitOr(a, b), k) <==> Bit(a, k) || Bit(b, k)
    decreases a + b
  {
    if a > 0 && b > 0 && k > 0 {
      BitOrAt(a / 2, b / 2, k - 1);
    } else if a == 0 || b == 0 {
      NoBit(k);
    }
  }

  /** Bit `k` from the low end. */
  predicate Bit(n: nat, k: nat) {
    if k == 0 then n % 2 == 1 else Bit(n / 2, k - 1)
  }

  lemma {:induction false} NoBit(k: nat)
    ensures !Bit(0, k)
  {
    if k > 0 {
      NoBit(k - 1);
    }
  }

  /** A new id prints as its time stamp, the 7-digit gateway number and the 5-digit sequence number. */
  lemma CreatedIdPrints(now: Stamp, gateway: nat, sequence: u32)
    requires IsTime(now) && gateway < 1_000_000
    ensures U64ToStr(CreateId(now, gateway, sequence))
         == Print([now.month, now.day, now.hour, now.minute, now.second, gateway, sequence % 0x1_0000], WIDTHS)
  {
    var vs := [now.month, now.day, now.hour, now.minute, now.second, gateway, sequence % 0x1_0000];
    assert Pow2(4) == 16 && Pow2(5) == 32 && Pow2(6) == 64;
    assert Pow2(16) == 65536;
    assert Pow2(22) == 64 * Pow2(16);
    SumWidths();
    UnpackPack(vs, BITS);
  }

  /** Whatever the clock says, the low 16 bits of a new id are those of its sequence number. */
  lemma CreatedIdEnds(now: Stamp, gateway: nat, sequence: u32)
    ensures CreateId(now, gateway, sequence) % 0x1_0000 == sequence % 0x1_0000
  {
    var vs := [now.month, now.day, now.hour, now.minute, now.second, gateway, sequence % 0x1_0000];
    LowBits(PackMasked(vs[..6], BITS[..6]), vs[6]);
  }

  lemma LowBits(r: nat, v: nat)
    requires v < 0x1_0000
    ensures ShiftOr(r, 16, v) % 0x1_0000 == v
  {
    assert Pow2(8) == 256;
    Pow2Add(8, 8);
    var hi, lo := r / 0x1_0000_0000_0000, r % 0x1_0000_0000_0000;
    assert r == hi * 0x1_0000_0000_0000 + lo;
    DivModUnique(r * 0x1_0000, 0x1_0000_0000_0000_0000, hi, lo * 0x1_0000);
    BitOrDisjoint(lo, 16, v);
    DivModUnique(lo * 0x1_0000 + v, 0x1_0000, lo, v);
  }

  // ---------- the loops ----------

  /**
    The digit loops of `cmpp_msg_id_u64_to_str`: the cursor `ind` runs down
    from the last cell and stops at cell 0 without moving below it.
   */
  method WriteU64(x: u64) returns (us: array<byte>)
    ensures fresh(us) && us.Length == 22
    ensures us[..] == U64ToStr(x)
  {
    us := new byte[22](_ => ZERO);
    ghost var vs := Unpack(x, BITS);
    HoldsAll(x);
    var id: nat := x;
    var ind: nat := 21;
    // the source writes these six blocks out one after the other
    for field := 7 downto 1
      invariant Holds(id, vs, field - 1)
      invariant ind + 1 == Sum(WIDTHS[..field])
      invariant us[ind + 1..] == Print(vs[field..], WIDTHS[field..])
    {
      Cursor(field);
      ind := WriteField(us, ind, id, BITS[field], WIDTHS[field], vs, field);
      id := Shr(id, BITS[field]);
    }
    Cursor(0);
    WriteMonth(us, id, vs);
  }

  /** Where the cursor stands: the cells before it are exactly those of the fields still to write. */
  lemma Cursor(field: nat)
    requires field < 7
    ensures Sum(WIDTHS[..field + 1]) == Sum(WIDTHS[..field]) + WIDTHS[field]
    ensures field > 0 ==> WIDTHS[field] < Sum(WIDTHS[..field + 1]) <= 22
    ensures Sum(WIDTHS[..1]) == 2
  {
    SumWidths();
    SumStep(WIDTHS, 0);
    assert WIDTHS[..0] == [];
    SumStep(WIDTHS, field);
    if field > 0 {
      SumMonotone(WIDTHS, 1, field);
      SumMonotone(WIDTHS, field + 1, 7);
      assert WIDTHS[..7] == WIDTHS;
    }
  }

  lemma {:induction false} SumMonotone(w: seq<nat>, i: nat, k: nat)
    requires i <= k <= |w|
    ensures Sum(w[..i]) <= Sum(w[..k])
    decreases k
  {
    if i < k {
      SumStep(w, k - 1);
      SumMonotone(w, i, k - 1);
    }
  }

  /** What is left of the id, `id`, still holds the fields up to `field`. */
  ghost predicate Holds(id: nat, vs: seq<nat>, field: nat)
    requires |vs| == 7 && field < 7
  {
    vs[..field + 1] == Unpack(id, BITS[..field + 1]) && id < Pow2(Sum(BITS[..field + 1]))
  }

  lemma HoldsAll(x: u64)
    ensures Holds(x, Unpack(x, BITS), 6)
    ensures Print(Unpack(x, BITS)[7..], WIDTHS[7..]) == [] && Sum(WIDTHS[..7]) == 22
  {
    SumWidths();
    assert WIDTHS[..7] == WIDTHS;
    Pow2Of64();
    assert BITS[..7] == BITS && Unpack(x, BITS)[..7] == Unpack(x, BITS);
  }

  lemma ShiftField(id: nat, vs: seq<nat>, field: nat)
    requires |vs| == 7 && 0 < field < 7 && Holds(id, vs, field)
    ensures vs[field] == Low(id, BITS[field])
    ensures Holds(Shr(id, BITS[field]), vs, field - 1)
  {
    var b := BITS[..field + 1];
    assert b[..field] == BITS[..field] && b[field] == BITS[field];
    assert vs[..field + 1][..field] == vs[..field] && vs[..field + 1][field] == vs[field];
    SumStep(BITS, field);
    ShrBelow(id, Sum(BITS[..field]), BITS[field]);
  }

  /**
    The mask and the `for _ in 0..width` loop of one field: writes field
    `field` of `vs`, the low `bits` bits of `id`, ending at cell `ind`.
   */
  method WriteField(us: array<byte>, ind: nat, id: nat, bits: nat, width: nat, ghost vs: seq<nat>, ghost field: nat)
    returns (next: nat)
    requires 0 < width <= ind < us.Length
    requires |vs| == 7 && 0 < field < 7 && BITS[field] == bits && WIDTHS[field] == width
    requires Holds(id, vs, field)
    requires us[ind + 1..] == Print(vs[field + 1..], WIDTHS[field + 1..])
    modifies us
    ensures next == ind - width
    ensures us[next + 1..] == Print(vs[field..], WIDTHS[field..])
    ensures Holds(Shr(id, bits), vs, field - 1)
  {
    next := WriteDigits(us, ind, Low(id, bits), width);
    ShiftField(id, vs, field);
    PrintFrom(vs, WIDTHS, field);
  }

  method WriteDigits(us: array<byte>, ind: nat, n: nat, width: nat) returns (next: nat)
    requires 0 < width <= ind < us.Length
    modifies us
    ensures next == ind - width
    ensures us[next + 1..] == Digits(n, width) + old(us[ind + 1..])
  {
    var d := n;
    next := ind;
    for i := 0 to width
      invariant next == ind - i
      invariant Digits(n, width) + old(us[ind + 1..]) == Digits(d, width - i) + us[next + 1..]
    {
      ghost var tail := us[next + 1..];
      us[next] := (ZERO as int + d % 10) as byte;
      assert us[next..] == [us[next]] + tail;
      assert Digits(d, width - i) + tail == Digits(d / 10, width - i - 1) + us[next..];
      d := d / 10;
      next := next - 1;
    }
  }

  lemma PrintFrom(vs: seq<nat>, widths: seq<nat>, k: nat)
    requires k < |vs| == |widths|
    ensures Print(vs[k..], widths[k..]) == Digits(vs[k], widths[k]) + Print(vs[k + 1..], widths[k + 1..])
  {
    assert vs[k..][1..] == vs[k + 1..] && widths[k..][1..] == widths[k + 1..];
  }

  /**
    The month is written without a loop, so the cursor is never moved below
    cell 0; its five-bit mask loses nothing of the four bits left.
   */
  method WriteMonth(us: array<byte>, id: nat, ghost vs: seq<nat>)
    requires us.Length == 22
    requires |vs| == 7 && Holds(id, vs, 0)
    requires us[2..] == Print(vs[1..], WIDTHS[1..])
    modifies us
    ensures us[..] == Print(vs, WIDTHS)
  {
    OnlyMonthLeft(id, vs);
    var ind := 1;
    var d := Low(id, 5);
    ghost var tail := us[2..];
    us[ind] := (ZERO as int + d % 10) as byte;
    d := d / 10;
    ind := ind - 1;
    us[ind] := (ZERO as int + d % 10) as byte;
    assert us[2..] == tail;
    assert Digits(vs[0], 2) == Digits(vs[0] / 10, 1) + [us[1]];
    assert Digits(vs[0] / 10, 1) == Digits(vs[0] / 10 / 10, 0) + [us[0]];
    assert us[..] == [us[0], us[1]] + us[2..];
  }

  lemma OnlyMonthLeft(id: nat, vs: seq<nat>)
    requires |vs| == 7 && Holds(id, vs, 0)
    ensures Low(id, 5) == vs[0]
  {
    SumStep(BITS, 0);
    assert BITS[..1] == [4] && Sum(BITS[..0]) == 0;
    assert vs[0] == vs[..1][0] == Low(id, 4);
    Pow2Monotone(4, 5);
    LowOfSmall(id, 4);
    LowOfSmall(id, 5);
  }
}
