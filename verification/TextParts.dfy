/** When the parts of a message can each be decoded on their own: parts are cut by bytes, not by characters. */
module TextParts {
  import opened Bytes
  import opened Wrappers
  import opened Segments
  import opened Charset

  /** `p` bytes into the encoding of `s` a character ends. */
  ghost predicate Boundary(cs: Charset, s: string, p: nat) {
    exists k: nat :: k <= |s| && |Encode(cs, s[..k])| == p
  }

  /** Where part `i` begins. */
  function CutAt(i: nat): nat {
    i * 134
  }

  /** No cut goes through a character. */
  ghost predicate CutsBetweenChars(cs: Charset, s: string, n: nat) {
    forall i :: 1 <= i < n ==> Boundary(cs, s, CutAt(i))
  }

  predicate AllDecode(cs: Charset, pieces: seq<seq<byte>>) {
    forall i :: 0 <= i < |pieces| ==> Decode(cs, pieces[i]).Some?
  }

  function Texts(cs: Charset, pieces: seq<seq<byte>>): (texts: seq<string>)
    requires AllDecode(cs, pieces)
    ensures |texts| == |pieces| && forall i :: 0 <= i < |pieces| ==> Decode(cs, pieces[i]) == Some(texts[i])
  {
    seq(|pieces|, i requires 0 <= i < |pieces| => Decode(cs, pieces[i]).value)
  }

  lemma {:induction false} EncodeJoin(cs: Charset, pieces: seq<seq<byte>>, texts: seq<string>, i: nat)
    requires |texts| == |pieces| && i <= |pieces|
    requires forall k :: 0 <= k < |pieces| ==> Decode(cs, pieces[k]) == Some(texts[k])
    ensures Encode(cs, JoinFrom(texts, i)) == JoinFrom(pieces, i)
    decreases |pieces| - i
  {
    if i < |pieces| {
      DecodeSound(cs, pieces[i]);
      EncodeJoin(cs, pieces, texts, i + 1);
      EncodeConcat(cs, texts[i], JoinFrom(texts, i + 1));
    }
  }

  /** If every part decodes, the texts together are the message. */
  lemma TextsJoin(cs: Charset, s: string, code: seq<byte>, cut: Cut)
    requires code == Encode(cs, s) && Exact(|code|, cut) && AllDecode(cs, Pieces(code, cut))
    ensures JoinFrom(Texts(cs, Pieces(code, cut)), 0) == s
  {
    var pieces := Pieces(code, cut);
    EncodeJoin(cs, pieces, Texts(cs, pieces), 0);
    PiecesJoin(code, cut, 0);
    EncodeInjective(cs, JoinFrom(Texts(cs, pieces), 0), s);
  }

  lemma EncodeSplit(cs: Charset, s: string, k: nat)
    requires k <= |s|
    ensures Encode(cs, s) == Encode(cs, s[..k]) + Encode(cs, s[k..])
  {
    EncodeConcat(cs, s[..k], s[k..]);
    assert s[..k] + s[k..] == s;
  }

  lemma DecodedCutIsBoundary(cs: Charset, s: string, code: seq<byte>, cut: Cut, i: nat)
    requires cut.long && code == Encode(cs, s) && Exact(|code|, cut) && AllDecode(cs, Pieces(code, cut))
    requires 1 <= i < cut.n
    ensures Boundary(cs, s, CutAt(i))
  {
    var texts := Texts(cs, Pieces(code, cut));
    TextsJoin(cs, s, code, cut);
    JoinIsSuffix(texts, i);
    EncodeJoin(cs, Pieces(code, cut), texts, i);
    PiecesJoin(code, cut, i);
    SuffixEndsBoundary(cs, s, JoinFrom(texts, i), CutAt(i));
  }

  lemma SuffixEndsBoundary(cs: Charset, s: string, t: string, p: nat)
    requires |t| <= |s| && s[|s| - |t|..] == t && p <= |Encode(cs, s)| && Encode(cs, t) == Encode(cs, s)[p..]
    ensures Boundary(cs, s, p)
  {
    EncodeSplit(cs, s, |s| - |t|);
  }

  /** More characters take more bytes. */
  lemma LongerPrefix(cs: Charset, s: string, j: nat, k: nat)
    requires j <= k <= |s|
    ensures Encode(cs, s[..k]) == Encode(cs, s[..j]) + Encode(cs, s[j..k])
    ensures j < k ==> |Encode(cs, s[..j])| < |Encode(cs, s[..k])|
  {
    EncodeSplit(cs, s[..k], j);
    assert s[..k][..j] == s[..j] && s[..k][j..] == s[j..k];
  }

  /** The bytes between two boundaries decode. */
  lemma BetweenBoundaries(cs: Charset, s: string, p: nat, q: nat)
    requires p <= q <= |Encode(cs, s)| && Boundary(cs, s, p) && Boundary(cs, s, q)
    ensures Decode(cs, Encode(cs, s)[p..q]).Some?
  {
    var j: nat :| j <= |s| && |Encode(cs, s[..j])| == p;
    var k: nat :| k <= |s| && |Encode(cs, s[..k])| == q;
    if k < j {
      LongerPrefix(cs, s, k, j);
      assert false;
    }
    LongerPrefix(cs, s, j, k);
    EncodeSplit(cs, s, k);
    assert Encode(cs, s)[p..q] == Encode(cs, s[j..k]);
    DecodeEncode(cs, s[j..k]);
  }

  lemma EndsAreBoundaries(cs: Charset, s: string)
    ensures Boundary(cs, s, 0) && Boundary(cs, s, |Encode(cs, s)|)
  {
    assert s[..0] == [] && s[..|s|] == s;
    assert |Encode(cs, s[..0])| == 0;
  }

  lemma BoundaryCutDecodes(cs: Charset, s: string, code: seq<byte>, cut: Cut, i: nat)
    requires cut.long && code == Encode(cs, s) && Exact(|code|, cut) && CutsBetweenChars(cs, s, cut.n) && i < cut.n
    ensures Decode(cs, Part(code, cut, i)).Some?
  {
    EndsAreBoundaries(cs, s);
    var from, to := CutAt(i), if i == cut.n - 1 then |code| else CutAt(i + 1);
    assert i > 0 ==> Boundary(cs, s, CutAt(i));
    BetweenBoundaries(cs, s, from, to);
    assert Part(code, cut, i) == code[from..to];
  }

  /** The parts of a long message decode one by one exactly if no cut goes through a character. */
  lemma AllDecodeIff(cs: Charset, s: string, code: seq<byte>, cut: Cut)
    requires cut.long && code == Encode(cs, s) && Exact(|code|, cut)
    ensures AllDecode(cs, Pieces(code, cut)) <==> CutsBetweenChars(cs, s, cut.n)
  {
    if AllDecode(cs, Pieces(code, cut)) {
      forall i | 1 <= i < cut.n
        ensures Boundary(cs, s, CutAt(i))
      {
        DecodedCutIsBoundary(cs, s, code, cut, i);
      }
    }
    if CutsBetweenChars(cs, s, cut.n) {
      forall i | 0 <= i < cut.n
        ensures Decode(cs, Pieces(code, cut)[i]).Some?
      {
        BoundaryCutDecodes(cs, s, code, cut, i);
      }
    }
  }

  // ---------- texts that are always cut well ----------

  predicate Ascii(s: string) {
    forall i :: 0 <= i < |s| ==> s[i] as int < 0x80
  }

  /** No character needs a surrogate pair. */
  predicate Basic(s: string) {
    forall i :: 0 <= i < |s| ==> s[i] as int < 0x1_0000
  }

  lemma {:induction false} EvenWidth(cs: Charset, s: string, width: nat)
    requires forall i :: 0 <= i < |s| ==> |EncodeChar(cs, s[i])| == width
    ensures |Encode(cs, s)| == |s| * width
  {
    if s != [] {
      EvenWidth(cs, s[1..], width);
      assert |s| * width == width + (|s| - 1) * width;
    }
  }

  lemma AsciiCutsWell(s: string, n: nat)
    requires Ascii(s) && CutAt(n) < |Encode(Utf8, s)| + 134
    ensures CutsBetweenChars(Utf8, s, n)
  {
    EvenWidth(Utf8, s, 1);
    forall i | 1 <= i < n
      ensures Boundary(Utf8, s, CutAt(i))
    {
      EvenWidth(Utf8, s[..CutAt(i)], 1);
    }
  }

  /** A full part holds an even number of bytes. */
  lemma BasicCutsWell(s: string, n: nat)
    requires Basic(s) && CutAt(n) < |Encode(Utf16, s)| + 134
    ensures CutsBetweenChars(Utf16, s, n)
  {
    EvenWidth(Utf16, s, 2);
    forall i | 1 <= i < n
      ensures Boundary(Utf16, s, CutAt(i))
    {
      EvenWidth(Utf16, s[..i * 67], 2);
    }
  }

  /** Three bytes a character in UTF-8: the first cut, at byte 134, goes through the 45th. */
  lemma EuroSignsCutBadly(s: string)
    requires |s| == 47 && forall i :: 0 <= i < |s| ==> s[i] == 0x20AC as char
    ensures |Encode(Utf8, s)| == 141 && !CutsBetweenChars(Utf8, s, 2)
  {
    EvenWidth(Utf8, s, 3);
    if k: nat :| k <= |s| && |Encode(Utf8, s[..k])| == CutAt(1) {
      EvenWidth(Utf8, s[..k], 3);
    } else {
      assert !Boundary(Utf8, s, CutAt(1));
    }
  }
}
