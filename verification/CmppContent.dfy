/**
  The content section shared by CMPP Submit and Deliver: the length byte, the
  concatenation header of a long message, and the text
  (src/protocol/cmpp32.rs, src/protocol/implements.rs).
 */
module CmppContent {
  import opened Bytes
  import opened Wrappers
  import opened Cursor
  import opened Segments
  import Charset

  datatype Version = Cmpp20 | Cmpp30

  /** Why a content is refused; format 15 and the packets that carry no
  content are refused only because they are not part of this model. */
  datatype ContentError = UnknownFormat | GbkNotModelled | Malformed | HeaderTooLong | OtherPacket

  /** A decoder panics, returns an error, or yields a value. */
  datatype Decoded<+T> = Panicked | Rejected(error: ContentError) | Ok(value: T)

  datatype Text = Text(total: Option<byte>, number: Option<byte>, content: string)

  function Refusal(format: byte): ContentError {
    if format == 15 then GbkNotModelled else UnknownFormat
  }

  function EncodeText(format: byte, s: string): Result<seq<byte>, ContentError> {
    match Charset.FormatCharset(format)
    case Some(cs) => Success(Charset.Encode(cs, s))
    case None => Failure(Refusal(format))
  }

  /** The concatenation header of section 9.2.3.24.1 of 3GPP TS 23.040 with an 8-bit reference. */
  function Udh(reference: byte, total: nat, number: nat): (b: seq<byte>)
    ensures |b| == 6
  {
    [5, 0, 3, reference, (total % 0x100) as byte, (number % 0x100) as byte]
  }

  /** `TP_udhi`. */
  function Udhi(cut: Cut): byte {
    if cut.n == 1 then 0 else 1
  }

  function PartHead(cut: Cut, reference: byte, i: nat): (b: seq<byte>)
    ensures |b| == HeadLen(cut)
  {
    if HeadLen(cut) > 0 then Udh(reference, cut.n, i + 1) else []
  }

  /** The total and number a receiver sees: one byte each, and only for a long message. */
  function Total(cut: Cut): Option<byte> {
    if cut.long then Some((cut.n % 0x100) as byte) else None
  }

  function Number(cut: Cut, i: nat): Option<byte> {
    if cut.long then Some(((i + 1) % 0x100) as byte) else None
  }

  /** `Msg_Length`, the header of a long message, the part and what follows. */
  function Content(head: seq<byte>, part: seq<byte>, rest: seq<byte>): (b: seq<byte>)
    requires |head| + |part| < 0x100
    ensures |b| == 1 + |head| + |part| + |rest|
  {
    [|head| + |part|] + (head + (part + rest))
  }

  function DecodeText(b: seq<byte>, format: byte, length: byte, total: Option<byte>, number: Option<byte>)
    : Decoded<Text>
  {
    match Charset.FormatCharset(format)
    case None => Rejected(Refusal(format))
    case Some(cs) =>
      match Charset.Decode(cs, CopyToBytes(b, length).0)
      case None => Rejected(Malformed)
      case Some(s) => Ok(Text(total, number, s))
  }

  /** The header's own length, its total and number, and the rest; its other bytes are skipped. */
  function ReadUdh(b: seq<byte>): Read<(byte, byte, byte)> {
    var (headLen, b) :- GetByte(b);
    if headLen < 2 then Panic
    else
      var (_, b) :- Advance(b, headLen - 2);
      var (total, b) :- GetByte(b);
      var (number, b) :- GetByte(b);
      Got((headLen, total, number), b)
  }

  /** `decode_msg_content`; arithmetic overflow in u8 counts as a panic. */
  function DecodeContent(b: seq<byte>, format: byte, length: byte, isLong: bool): Decoded<Text> {
    if !isLong then DecodeText(b, format, length, None, None)
    else
      match ReadUdh(b)
      case Panic => Panicked
      case Got((headLen, total, number), rest) =>
        if headLen == 0xFF then Panicked
        else if length <= headLen + 1 then Rejected(HeaderTooLong)
        else DecodeText(rest, format, length - headLen - 1, Some(total), Some(number))
  }

  /** What a part on its own decodes to. */
  function PartText(format: byte, part: seq<byte>, total: Option<byte>, number: Option<byte>): Decoded<Text> {
    match Charset.FormatCharset(format)
    case None => Rejected(Refusal(format))
    case Some(cs) =>
      match Charset.Decode(cs, part)
      case None => Rejected(Malformed)
      case Some(s) => Ok(Text(total, number, s))
  }

  lemma WholeContent(format: byte, part: seq<byte>, rest: seq<byte>)
    requires |part| < 0x100
    ensures DecodeContent(part + rest, format, |part|, false) == PartText(format, part, None, None)
  {
    BytesAt(part, rest);
  }

  lemma LongContent(format: byte, reference: byte, total: nat, number: nat, part: seq<byte>, rest: seq<byte>)
    requires 1 <= |part| <= 0xF0
    ensures DecodeContent(Udh(reference, total, number) + (part + rest), format, 6 + |part|, true)
         == PartText(format, part, Some((total % 0x100) as byte), Some((number % 0x100) as byte))
  {
    var t, n := (total % 0x100) as byte, (number % 0x100) as byte;
    var b := Udh(reference, total, number) + (part + rest);
    assert b[0] == 5 && b[1..][3..] == [t, n] + (part + rest);
    assert ReadUdh(b) == Got((5, t, n), part + rest);
    BytesAt(part, rest);
  }

  /** What lies 600 bytes on is not part of the content. */
  lemma ContentIgnoresRest(b: seq<byte>, rest: seq<byte>, format: byte, length: byte, isLong: bool)
    requires |b| >= 600
    ensures DecodeContent(b + rest, format, length, isLong) == DecodeContent(b, format, length, isLong)
  {
    if isLong {
      UdhIgnoresRest(b, rest);
      match ReadUdh(b) {
        case Panic =>
        case Got((headLen, total, number), c) =>
          if headLen < 0xFF && length > headLen + 1 {
            TextIgnoresRest(c, rest, format, length - headLen - 1, Some(total), Some(number));
          }
      }
    } else {
      TextIgnoresRest(b, rest, format, length, None, None);
    }
  }

  lemma TextIgnoresRest(b: seq<byte>, rest: seq<byte>, format: byte, length: byte,
                        total: Option<byte>, number: Option<byte>)
    requires |b| >= length
    ensures DecodeText(b + rest, format, length, total, number) == DecodeText(b, format, length, total, number)
  {
    assert (b + rest)[..length] == b[..length];
  }

  lemma UdhIgnoresRest(b: seq<byte>, rest: seq<byte>)
    requires |b| >= 600
    ensures match ReadUdh(b)
            case Panic => ReadUdh(b + rest) == Panic
            case Got(udh, c) => |c| >= 255 && ReadUdh(b + rest) == Got(udh, c + rest)
  {
    var n := b[0];
    if n >= 2 {
      var skip: nat := n - 2;
      assert (b + rest)[1..] == b[1..] + rest;
      assert (b[1..] + rest)[skip..] == b[1..][skip..] + rest;
      var c := b[1..][skip..];
      assert (c + rest)[1..] == c[1..] + rest && (c[1..] + rest)[1..] == c[1..][1..] + rest;
    }
  }

  // ---------- the encoders' steps ----------

  /** One `put` or `extend_from_slice`; `full` is what the buffer will be once `rest` has followed. */
  method Put(input: seq<byte>, piece: seq<byte>, ghost rest: seq<byte>, ghost full: seq<byte>) returns (dst: seq<byte>)
    requires full == input + (piece + rest)
    ensures dst == input + piece && full == dst + rest
  {
    dst := input + piece;
  }

  /** The slice taken for part `i`. */
  method TakePart(code: seq<byte>, cut: Cut, i: nat) returns (part: seq<byte>)
    requires Exact(|code|, cut) && i < cut.n
    ensures part == Part(code, cut, i)
  {
    var oneLen := OneLen(cut);
    if i == cut.n - 1 {
      part := code[i * oneLen..];
    } else {
      part := code[i * oneLen..(i + 1) * oneLen];
    }
  }

  method PutContent(head: seq<byte>, part: seq<byte>, zeros: seq<byte>, input: seq<byte>, ghost full: seq<byte>)
    returns (dst: seq<byte>)
    requires |head| + |part| < 0x100
    requires full == input + Content(head, part, zeros)
    ensures dst == full
  {
    dst := Put(input, [|head| + |part|], head + (part + zeros), full);
    dst := Put(dst, head, part + zeros, full);
    dst := Put(dst, part, zeros, full);
    assert zeros + [] == zeros;
    dst := Put(dst, zeros, [], full);
  }

  // ---------- the decoder's steps ----------

  /** `decode_msg_content`, consuming the buffer step by step. */
  method ReadContent(buf: Buffer, format: byte, length: byte, isLong: bool) returns (r: Decoded<Text>)
    modifies buf
    ensures r == DecodeContent(old(buf.bytes), format, length, isLong)
  {
    var left := length;
    var total, number := None, None;
    if isLong {
      var headLen := buf.GetU8();
      if headLen == None || headLen.value < 2 {
        return Panicked;
      }
      var ok := buf.Skip(headLen.value - 2);
      if !ok {
        return Panicked;
      }
      total := buf.GetU8();
      if total == None {
        return Panicked;
      }
      number := buf.GetU8();
      if number == None || headLen.value == 0xFF {
        return Panicked;
      }
      if left > headLen.value + 1 {
        left := left - headLen.value - 1;
      } else {
        return Rejected(HeaderTooLong);
      }
    }
    var text := buf.Copy(left);
    match Charset.FormatCharset(format) {
      case None =>
        r := Rejected(Refusal(format));
      case Some(cs) =>
        match Charset.Decode(cs, text) {
          case None =>
            r := Rejected(Malformed);
          case Some(s) =>
            r := Ok(Text(total, number, s));
        }
    }
  }
}
