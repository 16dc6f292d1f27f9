/**
  The SMGP message id: ten bytes on the wire, printed as hexadecimal in JSON
  (src/protocol/implements.rs) and created in src/protocol/smgp.rs.
 */
module SmgpMsgId {
  import opened Bytes
  import opened Wrappers
  import CmppMsgId

  type Nibble = n: int | 0 <= n < 16

  function HexDigit(n: Nibble): byte {
    if n < 10 then '0' as int + n else 'A' as int + n - 10
  }

  /** `format!("{:X}", buf)`. */
  function BufToStr(b: seq<byte>): (s: seq<byte>)
    ensures |s| == 2 * |b|
  {
    if b == [] then [] else [HexDigit(b[0] / 16), HexDigit(b[0] % 16)] + BufToStr(b[1..])
  }

  /** The shift drops high bits. */
  function High(c: byte): byte
    requires c >= 0x30
  {
    (c - 0x30) as int * 16 % 0x100
  }

  /** The subtraction and the addition of u8 values stay in range; on other pairs the source panics. */
  predicate PairFits(hi: byte, lo: byte) {
    hi >= 0x30 && lo >= 0x30 && High(hi) as int + lo as int - 0x30 < 0x100
  }

  predicate Fits(s: seq<byte>) {
    if |s| < 2 then |s| == 1 ==> s[0] >= 0x30 else PairFits(s[0], s[1]) && Fits(s[2..])
  }

  /** The byte two characters make. */
  function PackPair(hi: byte, lo: byte): byte
    requires PairFits(hi, lo)
  {
    High(hi) + (lo - 0x30)
  }

  function StrToBuf(s: seq<byte>): (b: seq<byte>)
    requires Fits(s)
    ensures |b| == |s| / 2
  {
    if |s| < 2 then [] else [PackPair(s[0], s[1])] + StrToBuf(s[2..])
  }

  /** Packing goes on after a pair. */
  lemma FitsPair(s: seq<byte>, done: nat)
    requires done + 1 < |s|
    ensures Fits(s[done..]) <==> PairFits(s[done], s[done + 1]) && Fits(s[done + 2..])
    ensures Fits(s[done..]) ==> StrToBuf(s[done..]) == [PackPair(s[done], s[done + 1])] + StrToBuf(s[done + 2..])
  {
    var t := s[done..];
    assert t[0] == s[done] && t[1] == s[done + 1] && t[2..] == s[done + 2..];
  }

  lemma FitsEnd(s: seq<byte>, done: nat)
    requires done <= |s| <= done + 1
    ensures Fits(s[done..]) <==> (done < |s| ==> s[done] >= 0x30)
    ensures Fits(s[done..]) ==> StrToBuf(s[done..]) == []
  {
  }

  /** A character below '0' is never packed. */
  lemma LowNeverFits(s: seq<byte>, i: nat)
    requires i < |s| && s[i] < 0x30
    ensures !Fits(s[i..])
  {
    if i + 1 < |s| {
      FitsPair(s, i);
    } else {
      FitsEnd(s, i);
    }
  }

  /** What is left to pack and what has been packed make up the whole. */
  predicate Packed(s: seq<byte>, done: nat, buf: seq<byte>) {
    done <= |s| && (Fits(s) <==> Fits(s[done..])) && (Fits(s) ==> StrToBuf(s) == buf + StrToBuf(s[done..]))
  }

  lemma PairPacked(s: seq<byte>, done: nat, buf: seq<byte>)
    requires done + 1 < |s| && Packed(s, done, buf)
    ensures if PairFits(s[done], s[done + 1]) then Packed(s, done + 2, buf + [PackPair(s[done], s[done + 1])])
            else !Fits(s)
  {
    FitsPair(s, done);
    if Fits(s) {
      assert buf + StrToBuf(s[done..]) == buf + [PackPair(s[done], s[done + 1])] + StrToBuf(s[done + 2..]);
    }
  }

  lemma AllPacked(s: seq<byte>, done: nat, buf: seq<byte>)
    requires done <= |s| <= done + 1 && Packed(s, done, buf) && (done < |s| ==> s[done] >= 0x30)
    ensures Fits(s) && StrToBuf(s) == buf
  {
    FitsEnd(s, done);
    assert buf + [] == buf;
  }

  /** The loop's state before character `i`: what it has packed, and a character whose partner is still to come. */
  predicate PackedTo(s: seq<byte>, i: nat, isEven: bool, num: byte, buf: seq<byte>) {
    i <= |s|
    && if isEven then i > 0 && s[i - 1] >= 0x30 && num == High(s[i - 1]) && Packed(s, i - 1, buf)
       else num == 0 && Packed(s, i, buf)
  }

  /** Whether the next character can be taken in u8 arithmetic. */
  predicate Takes(num: byte, c: byte) {
    c >= 0x30 && num as int + (c as int - 0x30) < 0x100
  }

  lemma TakeFirst(s: seq<byte>, i: nat, buf: seq<byte>)
    requires i < |s| && PackedTo(s, i, false, 0, buf)
    ensures if Takes(0, s[i]) then PackedTo(s, i + 1, true, High(s[i]), buf) else !Fits(s)
  {
    if s[i] < 0x30 {
      LowNeverFits(s, i);
    }
  }

  lemma TakesPair(hi: byte, lo: byte)
    requires hi >= 0x30
    ensures Takes(High(hi), lo) <==> PairFits(hi, lo)
    ensures PairFits(hi, lo) ==> High(hi) + (lo - 0x30) == PackPair(hi, lo)
  {
  }

  lemma TakeSecond(s: seq<byte>, i: nat, num: byte, buf: seq<byte>)
    requires 0 < i < |s| && PackedTo(s, i, true, num, buf)
    ensures if Takes(num, s[i]) then PackedTo(s, i + 1, false, 0, buf + [num + (s[i] - 0x30)]) else !Fits(s)
  {
    TakesPair(s[i - 1], s[i]);
    PairPacked(s, i - 1, buf);
  }

  /** The packing loop with its alternating flag; `None` is a panic. */
  method PackLoop(s: seq<byte>) returns (r: Option<seq<byte>>)
    ensures r == if Fits(s) then Some(StrToBuf(s)) else None
  {
    var buf, isEven, num := [], false, 0;
    assert s[0..] == s;
    for i := 0 to |s|
      invariant PackedTo(s, i, isEven, num, buf)
    {
      if isEven {
        TakeSecond(s, i, num, buf);
      } else {
        TakeFirst(s, i, buf);
      }
      if !Takes(num, s[i]) {
        return None;
      }
      num := num + (s[i] - 0x30);
      if isEven {
        buf := buf + [num];
        num := 0;
        isEven := false;
      } else {
        num := High(s[i]);
        isEven := true;
      }
    }
    AllPacked(s, if isEven then |s| - 1 else |s|, buf);
    r := Some(buf);
  }

  /** Two characters a byte, the high half first, in digits and capital letters. */
  lemma {:induction false} PrintsHex(b: seq<byte>, i: nat)
    requires i < |b|
    ensures BufToStr(b)[2 * i] == "0123456789ABCDEF"[b[i] / 16] as int
    ensures BufToStr(b)[2 * i + 1] == "0123456789ABCDEF"[b[i] % 16] as int
  {
    if i > 0 {
      PrintsHex(b[1..], i - 1);
      assert BufToStr(b)[2..] == BufToStr(b[1..]);
    } else {
      HexIs(b[0] / 16);
      HexIs(b[0] % 16);
    }
  }

  lemma HexIs(n: Nibble)
    ensures HexDigit(n) == "0123456789ABCDEF"[n] as int
  {
  }

  /** What a pair of characters adds up to, the first one losing the bits above a byte. */
  function PairSum(hi: byte, lo: byte): int {
    (hi as int - 0x30) * 16 % 0x100 + (lo as int - 0x30)
  }

  predicate PairSumsFit(s: seq<byte>) {
    forall i :: 0 <= i < |s| / 2 ==> PairSum(s[2 * i], s[2 * i + 1]) < 0x100
  }

  predicate NoneBelowZero(s: seq<byte>) {
    forall i :: 0 <= i < |s| ==> s[i] >= 0x30
  }

  lemma PairFirst(s: seq<byte>)
    requires |s| >= 2
    ensures PairSumsFit(s) <==> PairSum(s[0], s[1]) < 0x100 && PairSumsFit(s[2..])
    ensures NoneBelowZero(s) <==> s[0] >= 0x30 && s[1] >= 0x30 && NoneBelowZero(s[2..])
  {
    var t := s[2..];
    assert forall i :: 0 <= i < |t| ==> t[i] == s[i + 2];
    forall i | 0 < i < |s| / 2
      ensures PairSum(s[2 * i], s[2 * i + 1]) == PairSum(t[2 * (i - 1)], t[2 * (i - 1) + 1])
    {
    }
    if PairSumsFit(s) {
      assert PairSum(s[2 * 0], s[2 * 0 + 1]) < 0x100;
      forall i | 0 <= i < |t| / 2
        ensures PairSum(t[2 * i], t[2 * i + 1]) < 0x100
      {
        assert PairSum(s[2 * (i + 1)], s[2 * (i + 1) + 1]) < 0x100;
      }
    }
    assert s == s[..2] + t;
  }

  /** Packing does not panic exactly if no character is below '0' and every pair fits a byte. */
  lemma {:induction false} PacksIff(s: seq<byte>)
    ensures Fits(s) <==> NoneBelowZero(s) && PairSumsFit(s)
    decreases |s|
  {
    if |s| >= 2 {
      PacksIff(s[2..]);
      PairFirst(s);
    }
  }

  /** Each byte is one pair's sum; an odd last character is left out. */
  lemma {:induction false} PackedAt(s: seq<byte>, i: nat)
    requires Fits(s) && i < |s| / 2
    ensures StrToBuf(s)[i] == PairSum(s[2 * i], s[2 * i + 1])
    decreases |s|
  {
    if i > 0 {
      PackedAt(s[2..], i - 1);
    }
  }

  predicate Bcd(b: seq<byte>) {
    forall i :: 0 <= i < |b| ==> b[i] / 16 < 10 && b[i] % 16 < 10
  }

  lemma PrintedNibbles(x: byte)
    ensures PairFits(HexDigit(x / 16), HexDigit(x % 16))
    ensures PackPair(HexDigit(x / 16), HexDigit(x % 16)) == x <==> x / 16 < 10 && x % 16 < 10
  {
  }

  lemma PrintCons(b: seq<byte>)
    requires b != []
    ensures var s := BufToStr(b);
      s[0] == HexDigit(b[0] / 16) && s[1] == HexDigit(b[0] % 16) && s[2..] == BufToStr(b[1..])
  {
  }

  /** What is printed never overflows when it is packed. */
  lemma {:induction false} PrintFits(b: seq<byte>)
    ensures Fits(BufToStr(b))
  {
    if b != [] {
      PrintFits(b[1..]);
      PrintedNibbles(b[0]);
      PrintCons(b);
    }
  }

  /** A buffer survives printing and packing exactly when it is binary-coded decimal. */
  lemma {:induction false} BufRoundTripIff(b: seq<byte>)
    ensures Fits(BufToStr(b))
    ensures StrToBuf(BufToStr(b)) == b <==> Bcd(b)
  {
    PrintFits(b);
    if b != [] {
      BufRoundTripIff(b[1..]);
      PrintedNibbles(b[0]);
      PrintCons(b);
      var s := BufToStr(b);
      var r := StrToBuf(s);
      assert r == [PackPair(s[0], s[1])] + StrToBuf(s[2..]);
      assert r == b <==> r[0] == b[0] && r[1..] == b[1..];
      BcdCons(b);
    }
  }

  lemma BcdCons(b: seq<byte>)
    requires b != []
    ensures Bcd(b) <==> b[0] / 16 < 10 && b[0] % 16 < 10 && Bcd(b[1..])
  {
    assert b == [b[0]] + b[1..];
  }

  /** Decimal characters pack to their own nibbles, so they print back. */
  lemma {:induction false} DecimalRoundTrip(s: seq<byte>)
    requires |s| % 2 == 0 && CmppMsgId.AllDigits(s)
    ensures Fits(s) && BufToStr(StrToBuf(s)) == s
  {
    if s != [] {
      DecimalRoundTrip(s[2..]);
      DecimalPair(s[0], s[1]);
      var b := StrToBuf(s);
      assert b == [PackPair(s[0], s[1])] + StrToBuf(s[2..]);
      assert b[1..] == StrToBuf(s[2..]);
      assert s == [s[0], s[1]] + s[2..];
    }
  }

  lemma DecimalPair(hi: byte, lo: byte)
    requires 0x30 <= hi < 0x3A && 0x30 <= lo < 0x3A
    ensures PairFits(hi, lo)
    ensures var x := PackPair(hi, lo); HexDigit(x / 16) == hi && HexDigit(x % 16) == lo
  {
    assert PackPair(hi, lo) == (hi as int - 0x30) * 16 + (lo as int - 0x30);
  }

  lemma {:induction false} BcdIffPrintsDecimal(b: seq<byte>)
    ensures Bcd(b) <==> CmppMsgId.AllDigits(BufToStr(b))
  {
    if b != [] {
      BcdIffPrintsDecimal(b[1..]);
      var s := BufToStr(b);
      assert s[0] == HexDigit(b[0] / 16) && s[1] == HexDigit(b[0] % 16);
      assert s[2..] == BufToStr(b[1..]);
      BcdCons(b);
      assert CmppMsgId.AllDigits(s) <==> CmppMsgId.AllDigits(s[..2]) && CmppMsgId.AllDigits(s[2..]) by {
        assert s == s[..2] + s[2..];
      }
    }
  }

  /** A string can be packed and prints back exactly when it is an even number of decimal digits. */
  lemma StringRoundTripIff(s: seq<byte>)
    ensures Fits(s) && BufToStr(StrToBuf(s)) == s <==> |s| % 2 == 0 && CmppMsgId.AllDigits(s)
  {
    if |s| % 2 == 0 && CmppMsgId.AllDigits(s) {
      DecimalRoundTrip(s);
    } else if Fits(s) && BufToStr(StrToBuf(s)) == s {
      BufRoundTripIff(StrToBuf(s));
      BcdIffPrintsDecimal(StrToBuf(s));
      assert false;
    }
  }

  // ---------- creating an id ----------

  function HexDigits(n: nat, width: nat): (s: seq<byte>)
    ensures |s| == width
  {
    if width == 0 then [] else HexDigits(n / 16, width - 1) + [HexDigit(n % 16)]
  }

  /** The low `count` bytes of `n`, two hexadecimal digits each. */
  function HexPairs(n: nat, count: nat): (b: seq<byte>)
    ensures |b| == count
  {
    if count == 0 then [] else HexPairs(n / 16 / 16, count - 1) + [n / 16 % 16 * 16 + n % 16]
  }

  /** The low `2 * count` decimal digits of `n`, two digits a byte. */
  function DecimalPairs(n: nat, count: nat): (b: seq<byte>)
    ensures |b| == count
  {
    if count == 0 then [] else DecimalPairs(n / 10 / 10, count - 1) + [n / 10 % 10 * 16 + n % 10]
  }

  function CreatedId(gateway: nat, time: nat, sequence: u32): (b: seq<byte>)
    ensures |b| == 10
  {
    HexPairs(gateway, 3) + DecimalPairs(time, 4) + DecimalPairs(sequence as int % 1_000_000, 3)
  }

  /**
    `Smgp30::create_msg_id`: three loops fill the ten bytes with the gateway
    number in hexadecimal and the minute and the sequence number in decimal.
   */
  method CreateMsgId(gateway: nat, time: nat, sequence: u32) returns (buf: array<byte>)
    ensures fresh(buf) && buf.Length == 10
    ensures buf[..] == CreatedId(gateway, time, sequence)
  {
    buf := new byte[10](_ => 0);
    WriteHex(buf, 3, gateway, 3);
    WriteDecimal(buf, 7, time, 4);
    assert buf[..3] == HexPairs(gateway, 3);
    WriteDecimal(buf, 10, sequence as int % 1_000_000, 3);
    assert buf[..] == buf[..7] + buf[7..10];
    assert buf[..7] == buf[..3] + buf[3..7];
  }

  /** The loop that writes `count` bytes of hexadecimal digits ending before cell `end`. */
  method WriteHex(buf: array<byte>, end: nat, n: nat, count: nat)
    requires count <= end <= buf.Length
    modifies buf
    ensures buf[end - count..end] == HexPairs(n, count)
  {
    var g := n;
    for i := 0 to count
      invariant HexPairs(n, count) == HexPairs(g, count - i) + buf[end - i..end]
    {
      ghost var tail := buf[end - i..end];
      buf[end - 1 - i] := g / 16 % 16 * 16 + g % 16;
      assert buf[end - 1 - i..end] == [buf[end - 1 - i]] + tail;
      g := g / 16 / 16;
    }
  }

  /** The loop that writes `count` bytes of decimal digits ending before cell `end`. */
  method WriteDecimal(buf: array<byte>, end: nat, n: nat, count: nat)
    requires count <= end <= buf.Length
    modifies buf
    ensures buf[end - count..end] == DecimalPairs(n, count)
    ensures buf[..end - count] == old(buf[..end - count])
  {
    var t := n;
    for i := 0 to count
      invariant DecimalPairs(n, count) == DecimalPairs(t, count - i) + buf[end - i..end]
      invariant buf[..end - count] == old(buf[..end - count])
    {
      ghost var tail := buf[end - i..end];
      buf[end - 1 - i] := t / 10 % 10 * 16 + t % 10;
      assert buf[end - 1 - i..end] == [buf[end - 1 - i]] + tail;
      t := t / 10 / 10;
    }
  }

  lemma {:induction false} PrintConcat(a: seq<byte>, b: seq<byte>)
    ensures BufToStr(a + b) == BufToStr(a) + BufToStr(b)
  {
    if a == [] {
      assert a + b == b;
    } else {
      assert (a + b)[1..] == a[1..] + b;
      PrintConcat(a[1..], b);
    }
  }

  /** A byte made of two digits prints them. */
  lemma PairPrints(front: seq<byte>, hi: Nibble, lo: Nibble)
    ensures BufToStr(front + [hi * 16 + lo]) == BufToStr(front) + [HexDigit(hi), HexDigit(lo)]
  {
    var x: byte := hi * 16 + lo;
    PrintConcat(front, [x]);
    assert BufToStr([x]) == [HexDigit(x / 16), HexDigit(x % 16)] + BufToStr([]);
  }

  lemma HexLast(n: nat, width: nat)
    requires width > 0
    ensures HexDigits(n, width) == HexDigits(n / 16, width - 1) + [HexDigit(n % 16)]
  {
  }

  lemma DecimalLast(n: nat, width: nat)
    requires width > 0
    ensures CmppMsgId.Digits(n, width) == CmppMsgId.Digits(n / 10, width - 1) + [HexDigit(n % 10)]
  {
  }

  lemma TwoLast(a: seq<byte>, b: seq<byte>, c: seq<byte>, hi: byte, lo: byte)
    requires b == a + [hi] && c == b + [lo]
    ensures c == a + [hi, lo]
  {
  }

  lemma {:induction false} HexPairsPrint(n: nat, count: nat)
    ensures BufToStr(HexPairs(n, count)) == HexDigits(n, 2 * count)
  {
    if count > 0 {
      var m, rest, width := n / 16, n / 16 / 16, 2 * count;
      HexPairsPrint(rest, count - 1);
      PairPrints(HexPairs(rest, count - 1), m % 16, n % 16);
      HexLast(n, width);
      HexLast(m, width - 1);
      TwoLast(HexDigits(rest, width - 2), HexDigits(m, width - 1), HexDigits(n, width),
              HexDigit(m % 16), HexDigit(n % 16));
    }
  }

  lemma {:induction false} DecimalPairsPrint(n: nat, count: nat)
    ensures BufToStr(DecimalPairs(n, count)) == CmppMsgId.Digits(n, 2 * count)
  {
    if count > 0 {
      var m, rest, width := n / 10, n / 10 / 10, 2 * count;
      DecimalPairsPrint(rest, count - 1);
      PairPrints(DecimalPairs(rest, count - 1), m % 10, n % 10);
      DecimalLast(n, width);
      DecimalLast(m, width - 1);
      TwoLast(CmppMsgId.Digits(rest, width - 2), CmppMsgId.Digits(m, width - 1), CmppMsgId.Digits(n, width),
              HexDigit(m % 10), HexDigit(n % 10));
    }
  }

  /** A new id prints as six hexadecimal gateway digits, MMDDHHMM and the last six sequence digits. */
  lemma CreatedIdPrints(gateway: nat, time: nat, sequence: u32)
    ensures BufToStr(CreatedId(gateway, time, sequence))
         == HexDigits(gateway, 6) + CmppMsgId.Digits(time, 8)
            + CmppMsgId.Digits(sequence as int % 1_000_000, 6)
  {
    var g, t, s := HexPairs(gateway, 3), DecimalPairs(time, 4), DecimalPairs(sequence as int % 1_000_000, 3);
    PrintConcat(g + t, s);
    PrintConcat(g, t);
    HexPairsPrint(gateway, 3);
    DecimalPairsPrint(time, 4);
    DecimalPairsPrint(sequence as int % 1_000_000, 3);
  }

  /** A new id survives its printed form exactly when the gateway number's six hexadecimal digits hold no letter. */
  lemma CreatedIdRoundTripIff(gateway: nat, time: nat, sequence: u32)
    ensures var b := CreatedId(gateway, time, sequence);
            Fits(BufToStr(b))
            && (StrToBuf(BufToStr(b)) == b <==> CmppMsgId.AllDigits(HexDigits(gateway, 6)))
  {
    var b := CreatedId(gateway, time, sequence);
    BufRoundTripIff(b);
    BcdIffPrintsDecimal(b);
    CreatedIdPrints(gateway, time, sequence);
    DigitsPrefix(HexDigits(gateway, 6), CmppMsgId.Digits(time, 8), CmppMsgId.Digits(sequence as int % 1_000_000, 6));
  }

  lemma DigitsPrefix(a: seq<byte>, b: seq<byte>, c: seq<byte>)
    requires CmppMsgId.AllDigits(b) && CmppMsgId.AllDigits(c)
    ensures CmppMsgId.AllDigits(a + b + c) <==> CmppMsgId.AllDigits(a)
  {
    assert forall i :: 0 <= i < |a| ==> (a + b + c)[i] == a[i];
  }

  /** The smallest gateway number whose ids do not survive. */
  lemma GatewayTenDoesNotRoundTrip(time: nat, sequence: u32)
    ensures Fits(BufToStr(CreatedId(10, time, sequence)))
    ensures StrToBuf(BufToStr(CreatedId(10, time, sequence))) != CreatedId(10, time, sequence)
  {
    CreatedIdRoundTripIff(10, time, sequence);
    assert HexDigits(10, 6)[5] == 'A' as int;
  }
}
