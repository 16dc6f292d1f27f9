/** How the encoders cut a message's bytes into parts (src/protocol/cmpp32.rs, src/protocol/implements.rs). */
module Segments {
  import opened Bytes
  import opened Float32

  /** Longer contents would need a length that binary32 cannot hold. */
  const MAX_LEN: nat := 0x100_0000

  /** Whether the parts carry a header, and how many there are. */
  datatype Cut = Cut(long: bool, n: nat)

  /** At most 140 bytes travel whole; longer contents leave room for the six-byte header. */
  function CutFor(len: nat): Cut {
    if len <= WHOLE_LEN then Cut(false, 1) else Cut(true, PartCount(len))
  }

  /** Every part but the last is full and the last is not empty. */
  predicate Exact(len: nat, cut: Cut) {
    if cut.long then cut.n > 1 && (cut.n - 1) * 134 < len <= cut.n * 134
    else cut.n == 1 && len <= 140
  }

  lemma CutForExact(len: nat)
    requires len < MAX_LEN
    ensures Exact(len, CutFor(len))
  {
    PartCountExact(len);
  }

  function OneLen(cut: Cut): nat {
    if cut.long then 134 else 140
  }

  function HeadLen(cut: Cut): nat {
    if cut.long then 6 else 0
  }

  /** Part `i`: a full part, or for the last one all that is left. */
  function Part(code: seq<byte>, cut: Cut, i: nat): (p: seq<byte>)
    requires Exact(|code|, cut) && i < cut.n
    ensures cut.long ==> 1 <= |p| <= 134
    ensures !cut.long ==> p == code
    ensures i + 1 < cut.n ==> |p| == OneLen(cut)
  {
    if i == cut.n - 1 then code[i * OneLen(cut)..] else code[i * OneLen(cut)..(i + 1) * OneLen(cut)]
  }

  function Pieces(code: seq<byte>, cut: Cut): (ps: seq<seq<byte>>)
    requires Exact(|code|, cut)
    ensures |ps| == cut.n && forall i :: 0 <= i < cut.n ==> ps[i] == Part(code, cut, i)
  {
    seq(cut.n, i requires 0 <= i < cut.n => Part(code, cut, i))
  }

  /** Pieces `i` and later put together. */
  function JoinFrom<T>(pieces: seq<seq<T>>, i: nat): seq<T>
    requires i <= |pieces|
    decreases |pieces| - i
  {
    if i == |pieces| then [] else pieces[i] + JoinFrom(pieces, i + 1)
  }

  lemma {:induction false} JoinIsSuffix<T>(pieces: seq<seq<T>>, i: nat)
    requires i <= |pieces|
    ensures var all, t := JoinFrom(pieces, 0), JoinFrom(pieces, i);
      |t| <= |all| && all[|all| - |t|..] == t
    decreases i
  {
    if i > 0 {
      JoinIsSuffix(pieces, i - 1);
      SuffixOfSuffix(JoinFrom(pieces, 0), pieces[i - 1], JoinFrom(pieces, i));
    }
  }

  lemma SuffixOfSuffix<T>(all: seq<T>, first: seq<T>, rest: seq<T>)
    requires |first + rest| <= |all| && all[|all| - |first + rest|..] == first + rest
    ensures all[|all| - |rest|..] == rest
  {
    assert all[|all| - |rest|..] == all[|all| - |first + rest|..][|first|..];
  }

  /** Cutting loses nothing and changes no order. */
  lemma {:induction false} PiecesJoin(code: seq<byte>, cut: Cut, i: nat)
    requires Exact(|code|, cut) && i < cut.n
    ensures i * OneLen(cut) <= |code|
    ensures JoinFrom(Pieces(code, cut), i) == code[i * OneLen(cut)..]
    decreases cut.n - i
  {
    if i + 1 < cut.n {
      PiecesJoin(code, cut, i + 1);
    } else {
      assert JoinFrom(Pieces(code, cut), i + 1) == [];
    }
  }
}
