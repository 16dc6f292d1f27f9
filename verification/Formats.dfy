/**
  What the format byte of a message means on the wire: 0 is the text's own
  UTF-8 bytes (RFC 3629), 8 is UTF-16 with the high byte first (RFC 2781), any
  other is refused. Nothing here goes by the name of a character set.
 */
module Formats {
  import opened Bytes
  import opened Wrappers
  import opened CmppContent
  import opened TextParts
  import Charset

  /** One byte a character. */
  function SingleBytes(s: string): (b: seq<byte>)
    requires Ascii(s)
    ensures |b| == |s| && forall i :: 0 <= i < |s| ==> b[i] == s[i] as int
  {
    seq(|s|, i requires 0 <= i < |s| => s[i] as int)
  }

  /** Two bytes a character, the high one first. */
  function DoubleBytes(s: string): (b: seq<byte>)
    requires Basic(s)
    ensures |b| == 2 * |s|
  {
    if s == [] then [] else [s[0] as int / 0x100, s[0] as int % 0x100] + DoubleBytes(s[1..])
  }

  lemma {:induction false} DoubleAt(s: string, i: nat)
    requires Basic(s) && i < |s|
    ensures DoubleBytes(s)[2 * i] == s[i] as int / 0x100 && DoubleBytes(s)[2 * i + 1] == s[i] as int % 0x100
  {
    if i > 0 {
      DoubleAt(s[1..], i - 1);
    }
  }

  lemma {:induction false} AsciiEncodes(s: string)
    requires Ascii(s)
    ensures Charset.Encode(Charset.Utf8, s) == SingleBytes(s)
  {
    if s != [] {
      AsciiEncodes(s[1..]);
      assert SingleBytes(s) == [s[0] as int] + SingleBytes(s[1..]);
    }
  }

  lemma {:induction false} BasicEncodes(s: string)
    requires Basic(s)
    ensures Charset.Encode(Charset.Utf16, s) == DoubleBytes(s)
  {
    if s != [] {
      BasicEncodes(s[1..]);
    }
  }

  // ---------- encoding ----------

  /** Format 0 writes ASCII one byte a character; format 8 writes a text of 16-bit characters two bytes each. */
  lemma PlainTextEncodes(s: string)
    ensures Ascii(s) ==> EncodeText(0, s) == Success(SingleBytes(s))
    ensures Basic(s) ==> EncodeText(8, s) == Success(DoubleBytes(s))
  {
    if Ascii(s) {
      AsciiEncodes(s);
    }
    if Basic(s) {
      BasicEncodes(s);
    }
  }

  /** Exactly formats 0 and 8 are encoded; format 15 is told apart from the unknown ones. */
  lemma OnlyTwoFormats(format: byte, s: string)
    ensures EncodeText(format, s).Success? <==> format == 0 || format == 8
    ensures EncodeText(format, s).Failure? ==>
      EncodeText(format, s).error == if format == 15 then GbkNotModelled else UnknownFormat
  {
  }

  /** How many bytes the first byte of a UTF-8 sequence announces, by its leading ones. */
  function Announced(first: byte): nat {
    if first < 0x80 then 1 else if first / 0x20 == 6 then 2 else if first / 0x10 == 14 then 3
    else if first / 8 == 30 then 4 else 0
  }

  /** The bits of a first byte that belong to the code point. */
  function FirstBits(first: byte): nat {
    if first < 0x80 then first else if first < 0xE0 then first % 0x20 else if first < 0xF0 then first % 0x10
    else first % 8
  }

  /** The code point a sequence spells: six bits from every byte after the first. */
  function CodePoint(b: seq<byte>): nat
    requires b != []
  {
    if |b| == 1 then FirstBits(b[0]) else CodePoint(b[..|b| - 1]) * 0x40 + b[|b| - 1] % 0x40
  }

  predicate Continuations(b: seq<byte>) {
    forall k :: 1 <= k < |b| ==> b[k] / 0x40 == 2
  }

  lemma CodePoints(a: byte, b: byte, c: byte, d: byte)
    ensures CodePoint([a]) == FirstBits(a) && CodePoint([a, b]) == FirstBits(a) * 0x40 + b % 0x40
    ensures CodePoint([a, b, c]) == (FirstBits(a) * 0x40 + b % 0x40) * 0x40 + c % 0x40
    ensures CodePoint([a, b, c, d]) == ((FirstBits(a) * 0x40 + b % 0x40) * 0x40 + c % 0x40) * 0x40 + d % 0x40
  {
    assert [a, b][..1] == [a] && [a, b, c][..2] == [a, b] && [a, b, c, d][..3] == [a, b, c];
  }

  predicate Spells(b: seq<byte>, n: nat) {
    b != [] && Announced(b[0]) == |b| && Continuations(b) && CodePoint(b) == n
  }

  lemma ShortSpells(n: nat)
    requires n < 0x800
    ensures n < 0x80 ==> Spells([n], n)
    ensures n >= 0x80 ==> Spells([0xC0 + n / 0x40, 0x80 + n % 0x40], n)
  {
    if n < 0x80 {
      CodePoints(n, 0, 0, 0);
    } else {
      CodePoints(0xC0 + n / 0x40, 0x80 + n % 0x40, 0, 0);
    }
  }

  lemma ThreeSpell(n: nat)
    requires 0x800 <= n < 0x1_0000
    ensures Spells([0xE0 + n / 0x1000, 0x80 + n / 0x40 % 0x40, 0x80 + n % 0x40], n)
  {
    SixBits(n);
    SixBits(n / 0x40);
    assert n / 0x40 / 0x40 == n / 0x1000;
    CodePoints(0xE0 + n / 0x1000, 0x80 + n / 0x40 % 0x40, 0x80 + n % 0x40, 0);
  }

  lemma FourSpell(n: nat)
    requires 0x1_0000 <= n < 0x11_0000
    ensures Spells([0xF0 + n / 0x4_0000, 0x80 + n / 0x1000 % 0x40, 0x80 + n / 0x40 % 0x40, 0x80 + n % 0x40], n)
  {
    SixBits(n);
    SixBits(n / 0x40);
    SixBits(n / 0x1000);
    assert n / 0x40 / 0x40 == n / 0x1000 && n / 0x1000 / 0x40 == n / 0x4_0000;
    CodePoints(0xF0 + n / 0x4_0000, 0x80 + n / 0x1000 % 0x40, 0x80 + n / 0x40 % 0x40, 0x80 + n % 0x40);
  }

  lemma SixBits(n: nat)
    ensures n == n / 0x40 * 0x40 + n % 0x40
  {
  }

  /** A character in format 0: its first byte announces the length, the bits spell it, and no shorter sequence could. */
  lemma CharInFormat0(c: char)
    ensures var n, r := c as int, EncodeText(0, [c]);
      r.Success? && Spells(r.value, n)
      && |r.value| == if n < 0x80 then 1 else if n < 0x800 then 2 else if n < 0x1_0000 then 3 else 4
  {
    OneChar(Charset.Utf8, c);
    if c as int < 0x800 {
      ShortSpells(c as int);
    } else if c as int < 0x1_0000 {
      ThreeSpell(c as int);
    } else {
      FourSpell(c as int);
    }
  }

  lemma OneChar(cs: Charset.Charset, c: char)
    ensures Charset.Encode(cs, [c]) == Charset.EncodeChar(cs, c)
  {
    assert Charset.Encode(cs, [c][1..]) == [];
  }

  function Unit(first: byte, second: byte): nat {
    first as nat * 0x100 + second
  }

  /** A character in format 8: one unit of two bytes, or a surrogate pair, the high byte of each first. */
  lemma CharInFormat8(c: char)
    ensures var r := EncodeText(8, [c]);
      r.Success?
      && if c as int < 0x1_0000 then |r.value| == 2 && Unit(r.value[0], r.value[1]) == c as int
         else
           |r.value| == 4
           && var high, low := Unit(r.value[0], r.value[1]), Unit(r.value[2], r.value[3]);
              0xD800 <= high < 0xDC00 && 0xDC00 <= low < 0xE000
              && c as int == 0x1_0000 + (high - 0xD800) * 0x400 + (low - 0xDC00)
  {
    OneChar(Charset.Utf16, c);
  }

  // ---------- decoding ----------

  /** A content without header: format 0 reads UTF-8 and format 8 UTF-16, whatever follows it. */
  lemma PlainContentDecodes(s: string, rest: seq<byte>)
    ensures Ascii(s) && |s| < 0x100 ==>
      DecodeContent(SingleBytes(s) + rest, 0, |s|, false) == Ok(Text(None, None, s))
    ensures Basic(s) && |s| < 0x80 ==>
      DecodeContent(DoubleBytes(s) + rest, 8, 2 * |s|, false) == Ok(Text(None, None, s))
  {
    if Ascii(s) && |s| < 0x100 {
      AsciiEncodes(s);
      WholeContent(0, SingleBytes(s), rest);
      Charset.DecodeEncode(Charset.Utf8, s);
    }
    if Basic(s) && |s| < 0x80 {
      BasicEncodes(s);
      WholeContent(8, DoubleBytes(s), rest);
      Charset.DecodeEncode(Charset.Utf16, s);
    }
  }

  /** Any text that fits a content without header, surrogate pairs and long sequences included. */
  lemma ContentRoundTrip(format: byte, s: string, rest: seq<byte>)
    requires format == 0 || format == 8
    ensures var r := EncodeText(format, s);
      r.Success?
      && (|r.value| < 0x100 ==> DecodeContent(r.value + rest, format, |r.value|, false) == Ok(Text(None, None, s)))
  {
    var b := EncodeText(format, s).value;
    if |b| < 0x100 {
      WholeContent(format, b, rest);
      Charset.DecodeEncode(if format == 0 then Charset.Utf8 else Charset.Utf16, s);
    }
  }

  /** Format 0 behind the six bytes of section 9.2.3.24.1 of 3GPP TS 23.040. */
  lemma SinglePartDecodes(s: string, rest: seq<byte>, reference: byte, total: byte, number: byte)
    requires s != [] && Ascii(s) && |s| <= 134
    ensures DecodeContent([5, 0, 3, reference, total, number] + (SingleBytes(s) + rest), 0, 6 + |s|, true)
         == Ok(Text(Some(total), Some(number), s))
  {
    AsciiEncodes(s);
    HeaderIs(reference, total, number);
    LongContent(0, reference, total, number, SingleBytes(s), rest);
    Charset.DecodeEncode(Charset.Utf8, s);
  }

  /** Format 8 behind them. */
  lemma DoublePartDecodes(s: string, rest: seq<byte>, reference: byte, total: byte, number: byte)
    requires s != [] && Basic(s) && |s| <= 67
    ensures DecodeContent([5, 0, 3, reference, total, number] + (DoubleBytes(s) + rest), 8, 6 + 2 * |s|, true)
         == Ok(Text(Some(total), Some(number), s))
  {
    BasicEncodes(s);
    HeaderIs(reference, total, number);
    LongContent(8, reference, total, number, DoubleBytes(s), rest);
    Charset.DecodeEncode(Charset.Utf16, s);
  }

  lemma HeaderIs(reference: byte, total: byte, number: byte)
    ensures Udh(reference, total, number) == [5, 0, 3, reference, total, number]
    ensures total % 0x100 == total && number % 0x100 == number
  {
  }

  /** A content in any other format is refused, however it is laid out, unless its header already is. */
  lemma OtherFormatsRefused(b: seq<byte>, format: byte, length: byte, isLong: bool)
    requires format != 0 && format != 8
    ensures !DecodeContent(b, format, length, isLong).Ok?
    ensures !isLong ==>
      DecodeContent(b, format, length, false) == Rejected(if format == 15 then GbkNotModelled else UnknownFormat)
  {
  }
}
