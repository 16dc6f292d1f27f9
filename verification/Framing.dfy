/**
  The length-delimited codec as src/protocol/cmpp32.rs configures it: a
  four-byte length that counts itself and is stripped from the frame.
 */
module Framing {
  import opened Bytes
  import Arithmetic

  /** The codec's default limit on the length field. */
  const MAX_FRAME: nat := 8 * 1024 * 1024

  datatype Deframed = Deframed(bodies: seq<seq<byte>>, rest: seq<byte>)

  /** A whole frame of this many bytes stands at the head of the buffer. */
  predicate Ready(b: seq<byte>) {
    |b| >= 4 && 4 <= GetU32(b) <= MAX_FRAME && |b| >= GetU32(b)
  }

  /** Everything the codec hands out until it needs more bytes; a bad length stops it. */
  function Deframe(b: seq<byte>): Deframed
    decreases |b|
  {
    if !Ready(b) then Deframed([], b)
    else
      var n := GetU32(b);
      var later := Deframe(b[n..]);
      Deframed([b[4..n]] + later.bodies, later.rest)
  }

  /** The read loop: one network chunk after another is appended, and every whole frame is taken off. */
  method ReadChunks(chunks: seq<seq<byte>>) returns (bodies: seq<seq<byte>>, buf: seq<byte>)
    ensures Deframed(bodies, buf) == Deframe(Flatten(chunks))
  {
    bodies, buf := [], [];
    for i := 0 to |chunks|
      invariant Deframed(bodies, buf) == Deframe(Flatten(chunks[..i]))
    {
      FlattenSnoc(chunks[..i], chunks[i]);
      assert chunks[..i + 1] == chunks[..i] + [chunks[i]];
      DeframeMore(Flatten(chunks[..i]), chunks[i]);
      var more;
      more, buf := Drain(buf + chunks[i]);
      bodies := bodies + more;
    }
    assert chunks[..|chunks|] == chunks;
  }

  method Drain(input: seq<byte>) returns (bodies: seq<seq<byte>>, buf: seq<byte>)
    ensures Deframed(bodies, buf) == Deframe(input)
  {
    bodies, buf := [], input;
    while Ready(buf)
      invariant Deframe(input) == Prefixed(bodies, Deframe(buf))
      decreases |buf|
    {
      var n := GetU32(buf);
      ghost var before := bodies;
      bodies := bodies + [buf[4..n]];
      buf := buf[n..];
      Associative(before, [bodies[|before|]], Deframe(buf).bodies);
    }
  }

  function Prefixed(bodies: seq<seq<byte>>, d: Deframed): Deframed {
    Deframed(bodies + d.bodies, d.rest)
  }

  function Flatten(chunks: seq<seq<byte>>): seq<byte> {
    if chunks == [] then [] else chunks[0] + Flatten(chunks[1..])
  }

  lemma {:induction false} FlattenSnoc(chunks: seq<seq<byte>>, c: seq<byte>)
    ensures Flatten(chunks + [c]) == Flatten(chunks) + c
    decreases |chunks|
  {
    if chunks == [] {
      assert Flatten([c][1..]) == [];
    } else {
      assert (chunks + [c])[1..] == chunks[1..] + [c];
      FlattenSnoc(chunks[1..], c);
    }
  }

  /** The network may cut the stream anywhere: what is left over waits for the next chunk. */
  lemma {:induction false} DeframeMore(a: seq<byte>, b: seq<byte>)
    ensures Deframe(a + b) == Prefixed(Deframe(a).bodies, Deframe(Deframe(a).rest + b))
    decreases |a|
  {
    if Ready(a) {
      var n := GetU32(a);
      ReadyExtends(a, b);
      assert (a + b)[n..] == a[n..] + b;
      assert (a + b)[4..n] == a[4..n];
      DeframeMore(a[n..], b);
      var d := Deframe(a[n..]);
      Associative([a[4..n]], d.bodies, Deframe(d.rest + b).bodies);
    }
  }

  lemma ReadyExtends(a: seq<byte>, b: seq<byte>)
    requires Ready(a)
    ensures Ready(a + b) && GetU32(a + b) == GetU32(a)
  {
    var c := a + b;
    assert c[0] == a[0] && c[1] == a[1] && c[2..][0] == a[2..][0] && c[2..][1] == a[2..][1];
  }

  // ---------- packets written back to back ----------

  /** A packet without its length: type, sequence number and body. */
  datatype Pdu = Pdu(tp: u32, seqId: u32, body: seq<byte>)

  /** What the codec hands to the decoder for a packet. */
  function Frame(p: Pdu): (b: seq<byte>)
    ensures |b| == 8 + |p.body|
  {
    PutU32(p.tp) + (PutU32(p.seqId) + p.body)
  }

  function Frames(ps: seq<Pdu>): (f: seq<seq<byte>>)
    ensures |f| == |ps|
    ensures forall i :: 0 <= i < |ps| ==> f[i] == Frame(ps[i])
  {
    seq(|ps|, i requires 0 <= i < |ps| => Frame(ps[i]))
  }

  predicate Fits(p: Pdu) {
    12 + |p.body| <= MAX_FRAME
  }

  predicate AllFit(ps: seq<Pdu>) {
    forall i :: 0 <= i < |ps| ==> Fits(ps[i])
  }

  /** A packet behind its length, which `as u32` cuts to 32 bits. */
  function Packet(p: Pdu): (b: seq<byte>)
    ensures |b| == 12 + |p.body|
  {
    PutU32((12 + |p.body|) % 0x1_0000_0000) + Frame(p)
  }

  function Wire(ps: seq<Pdu>): seq<byte> {
    if ps == [] then [] else Wire(ps[..|ps| - 1]) + Packet(ps[|ps| - 1])
  }

  lemma WireSnoc(ps: seq<Pdu>, i: nat)
    requires i < |ps|
    ensures Wire(ps[..i + 1]) == Wire(ps[..i]) + Packet(ps[i])
  {
    assert ps[..i + 1][..i] == ps[..i];
  }

  lemma DeframeSnoc(stream: seq<byte>, bodies: seq<seq<byte>>, p: Pdu)
    requires Deframe(stream) == Deframed(bodies, []) && Fits(p)
    ensures Deframe(stream + Packet(p)) == Deframed(bodies + [Frame(p)], [])
  {
    DeframeMore(stream, Packet(p));
    DeframeOne(p);
    assert [] + Packet(p) == Packet(p);
  }

  lemma {:induction false} DeframeUpTo(ps: seq<Pdu>, i: nat)
    requires AllFit(ps) && i <= |ps|
    ensures Deframe(Wire(ps[..i])) == Deframed(Frames(ps)[..i], [])
    decreases i
  {
    if i > 0 {
      WireSnoc(ps, i - 1);
      DeframeUpTo(ps, i - 1);
      DeframeSnoc(Wire(ps[..i - 1]), Frames(ps)[..i - 1], ps[i - 1]);
      PrefixSnoc(Frames(ps), i - 1);
    }
  }

  lemma PrefixSnoc<T>(s: seq<T>, i: nat)
    requires i < |s|
    ensures s[..i + 1] == s[..i] + [s[i]]
  {
  }

  /** Packets written back to back come out as exactly their frames. */
  lemma DeframeWire(ps: seq<Pdu>)
    requires AllFit(ps)
    ensures Deframe(Wire(ps)) == Deframed(Frames(ps), [])
  {
    DeframeUpTo(ps, |ps|);
    assert ps[..|ps|] == ps && Frames(ps)[..|ps|] == Frames(ps);
  }

  /** The length of a stream whose packets but the last are all equally long. */
  lemma {:induction false} WireLenUpTo(ps: seq<Pdu>, i: nat, each: nat)
    requires i <= |ps|
    requires forall k :: 0 <= k < i ==> 12 + |ps[k].body| == each
    ensures |Wire(ps[..i])| == Times(i, each)
    decreases i
  {
    if i > 0 {
      WireSnoc(ps, i - 1);
      WireLenUpTo(ps, i - 1, each);
    }
  }

  /** The length of a stream of `n` packets: `each` bytes and `one` more in all but the last, `rest` more there. */
  lemma WireLen(ps: seq<Pdu>, each: nat, one: nat, rest: nat)
    requires ps != []
    requires forall k :: 0 <= k < |ps| - 1 ==> 12 + |ps[k].body| == each + one
    requires 12 + |ps[|ps| - 1].body| == each + rest
    ensures |Wire(ps)| == |ps| * each + ((|ps| - 1) * one + rest)
  {
    var last := |ps| - 1;
    WireLenUpTo(ps, last, each + one);
    WireSnoc(ps, last);
    assert ps[..last + 1] == ps;
    Distribute(|ps|, each, one);
  }

  lemma Distribute(n: nat, each: nat, one: nat)
    requires n > 0
    ensures (n - 1) * (each + one) + each == n * each + (n - 1) * one
  {
  }

  function Times(k: nat, each: nat): (p: nat)
    ensures p == k * each
  {
    if k == 0 then 0 else each + Times(k - 1, each)
  }

  lemma DeframeOne(p: Pdu)
    requires Fits(p)
    ensures Deframe(Packet(p)) == Deframed([Frame(p)], [])
  {
    var b, length := Packet(p), 12 + |p.body|;
    Arithmetic.SmallMod(length, 0x1_0000_0000);
    GetPutU32(length, Frame(p));
    assert b[4..length] == Frame(p) && b[length..] == [];
  }

  lemma Associative<T>(a: seq<T>, b: seq<T>, c: seq<T>)
    ensures (a + b) + c == a + (b + c)
  {
  }
}
