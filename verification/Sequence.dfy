/** The process-wide sequence number: `get_sequence_id` in src/global.rs. */
module Sequence {
  import opened Bytes

  const MODULUS: nat := 0x1_0000_0000

  /** A step of zero is taken as one. */
  function Width(step: u32): (w: nat)
    ensures 1 <= w < MODULUS
  {
    if step == 0 then 1 else step
  }

  /** `fetch_add` wraps. */
  function Bump(next: u32, step: u32): u32 {
    (next + Width(step)) % MODULUS
  }

  /** The global atomic and its one operation. */
  class Sequencer {
    var next: u32

    constructor (seed: u32)
      ensures next == seed
    {
      next := seed;
    }

    method GetSequenceId(step: u32) returns (id: u32)
      modifies this
      ensures id == old(next)
      ensures next == Bump(old(next), step)
    {
      var width := step;
      if width == 0 {
        width := 1;
      }
      id := next;
      next := (next + width) % MODULUS;
    }
  }

  /** The ids handed out by a run of calls, in the order of the atomic additions. */
  function Run(next: u32, steps: seq<u32>): (ids: seq<u32>)
    ensures |ids| == |steps|
    decreases |steps|
  {
    if steps == [] then [] else [next] + Run(Bump(next, steps[0]), steps[1..])
  }

  /** The counter after a run. */
  function After(next: u32, steps: seq<u32>): u32
    decreases |steps|
  {
    if steps == [] then next else After(Bump(next, steps[0]), steps[1..])
  }

  /** Each call gets the counter its predecessors left. */
  lemma {:induction false} RunAt(next: u32, steps: seq<u32>, i: nat)
    requires i < |steps|
    ensures Run(next, steps)[i] == After(next, steps[..i])
    ensures After(next, steps[..i + 1]) == Bump(After(next, steps[..i]), steps[i])
    decreases i
  {
    if i > 0 {
      RunAt(Bump(next, steps[0]), steps[1..], i - 1);
      assert steps[..i][1..] == steps[1..][..i - 1] && steps[..i + 1][1..] == steps[1..][..i];
    } else {
      assert steps[..1][1..] == [] && steps[..0] == [];
    }
  }

  /** `n` calls with the same step. */
  function Steps(n: nat, step: u32): (s: seq<u32>)
    ensures |s| == n && forall i :: 0 <= i < n ==> s[i] == step
  {
    seq(n, _ => step)
  }

  /** How far a run has advanced before call `i`. */
  function Offset(steps: seq<u32>, i: nat): nat
    requires i <= |steps|
  {
    if i == 0 then 0 else Width(steps[0]) + Offset(steps[1..], i - 1)
  }

  /** Call `i` of a run owns the numbers from its id up to its step, modulo 2^32. */
  ghost predicate Owns(next: u32, steps: seq<u32>, i: nat, v: u32)
    requires i < |steps|
  {
    exists j: nat :: j < Width(steps[i]) && v == Shift(Run(next, steps)[i], j)
  }

  function Shift(id: u32, j: nat): u32 {
    (id + j) % MODULUS
  }

  lemma ShiftAdd(id: u32, a: nat, b: nat)
    ensures Shift(Shift(id, a), b) == Shift(id, a + b)
  {
  }

  ghost predicate Disjoint(next: u32, steps: seq<u32>) {
    forall i, k, v: u32 :: 0 <= i < k < |steps| && Owns(next, steps, i, v) ==> !Owns(next, steps, k, v)
  }

  lemma {:induction false} RunOffset(next: u32, steps: seq<u32>, i: nat)
    requires i < |steps|
    ensures Run(next, steps)[i] == Shift(next, Offset(steps, i))
    decreases i
  {
    if i > 0 {
      ShiftAdd(next, Width(steps[0]), Offset(steps[1..], i - 1));
      RunOffset(Bump(next, steps[0]), steps[1..], i - 1);
    }
  }

  lemma {:induction false} OffsetSplit(steps: seq<u32>, i: nat, k: nat)
    requires i < k <= |steps|
    ensures Offset(steps, i) + Width(steps[i]) <= Offset(steps, k)
    ensures Offset(steps, i + 1) == Offset(steps, i) + Width(steps[i])
  {
    if i > 0 {
      OffsetSplit(steps[1..], i - 1, k - 1);
    } else {
      assert Offset(steps[1..], 0) == 0;
    }
  }

  /** Every call with the same step starts that much further on. */
  lemma {:induction false} OffsetOfSteps(n: nat, step: u32, i: nat)
    requires i <= n
    ensures Offset(Steps(n, step), i) == i * Width(step)
    decreases i
  {
    if i > 0 {
      assert Steps(n, step)[1..] == Steps(n - 1, step);
      OffsetOfSteps(n - 1, step, i - 1);
    }
  }

  lemma {:induction false} AfterOffset(next: u32, steps: seq<u32>)
    ensures After(next, steps) == Shift(next, Offset(steps, |steps|))
    decreases |steps|
  {
    if steps != [] {
      ShiftAdd(next, Width(steps[0]), Offset(steps[1..], |steps| - 1));
      AfterOffset(Bump(next, steps[0]), steps[1..]);
    }
  }

  /**
    The numbers of `n` calls with one step, when `skipped` numbers have been
    drawn before them, and the counter after them, modulo 2^32; a step of zero
    counts as one.
   */
  lemma RunOfSteps(next: u32, skipped: nat, n: nat, step: u32, i: nat)
    requires i < n
    ensures var width := if step == 0 then 1 else step;
      Run(Shift(next, skipped), Steps(n, step))[i] == (next + skipped + i * width) % 0x1_0000_0000
      && After(Shift(next, skipped), Steps(n, step)) == (next + skipped + n * width) % 0x1_0000_0000
  {
    var first := Shift(next, skipped);
    OffsetOfSteps(n, step, i);
    OffsetOfSteps(n, step, n);
    RunOffset(first, Steps(n, step), i);
    AfterOffset(first, Steps(n, step));
    ShiftAdd(next, skipped, i * Width(step));
    ShiftAdd(next, skipped, n * Width(step));
  }

  /** The call whose numbers contain the one `target` steps after the start. */
  lemma {:induction false} Locate(steps: seq<u32>, target: nat, n: nat) returns (i: nat)
    requires n <= |steps|
    requires target < Offset(steps, n)
    ensures i < n && Offset(steps, i) <= target < Offset(steps, i) + Width(steps[i])
  {
    OffsetSplit(steps, n - 1, n);
    if Offset(steps, n - 1) <= target {
      i := n - 1;
    } else {
      i := Locate(steps, target, n - 1);
    }
  }

  /**
    Every run hands out pairwise disjoint blocks exactly as long as its steps,
    zero counted as one, add up to at most 2^32.
   */
  lemma DisjointIffWithinPeriod(next: u32, steps: seq<u32>)
    ensures Disjoint(next, steps) <==> Offset(steps, |steps|) <= MODULUS
  {
    if Offset(steps, |steps|) <= MODULUS {
      forall i, k, v: u32 | 0 <= i < k < |steps| && Owns(next, steps, i, v)
        ensures !Owns(next, steps, k, v)
      {
        if Owns(next, steps, k, v) {
          Overlap(next, steps, i, k, v);
        }
      }
    } else {
      PastPeriod(next, steps);
    }
  }

  /** A run longer than one period reaches the first id again. */
  lemma PastPeriod(next: u32, steps: seq<u32>)
    requires Offset(steps, |steps|) > MODULUS
    ensures !Disjoint(next, steps)
  {
    var k := Locate(steps, MODULUS, |steps|);
    OwnsAt(next, steps, k, MODULUS - Offset(steps, k));
    OwnsAt(next, steps, 0, 0);
    ShiftPeriod(next);
    assert Owns(next, steps, k, next) && Owns(next, steps, 0, next);
  }

  lemma OwnsAt(next: u32, steps: seq<u32>, i: nat, j: nat)
    requires i < |steps| && j < Width(steps[i])
    ensures Owns(next, steps, i, Shift(next, Offset(steps, i) + j))
  {
    RunOffset(next, steps, i);
    ShiftAdd(next, Offset(steps, i), j);
  }

  lemma ShiftPeriod(id: u32)
    ensures Shift(id, 0) == id && Shift(id, MODULUS) == id
  {
  }

  /** A number of a block is that far from the start of the run. */
  lemma OwnedAt(next: u32, steps: seq<u32>, i: nat, v: u32) returns (a: nat)
    requires i < |steps| && Owns(next, steps, i, v)
    ensures a < Width(steps[i]) && v == Shift(next, Offset(steps, i) + a)
  {
    a :| a < Width(steps[i]) && v == Shift(Run(next, steps)[i], a);
    RunOffset(next, steps, i);
    ShiftAdd(next, Offset(steps, i), a);
  }

  /** The blocks lie one behind the other. */
  lemma OffsetsGrow(steps: seq<u32>, i: nat, k: nat)
    requires i < k < |steps|
    ensures Offset(steps, i) + Width(steps[i]) <= Offset(steps, k)
    ensures Offset(steps, k) + Width(steps[k]) <= Offset(steps, |steps|)
  {
    OffsetSplit(steps, i, k);
    OffsetSplit(steps, k, k + 1);
    if k + 1 < |steps| {
      OffsetSplit(steps, k + 1, |steps|);
    }
  }

  lemma Overlap(next: u32, steps: seq<u32>, i: nat, k: nat, v: u32)
    requires i < k < |steps|
    requires Owns(next, steps, i, v) && Owns(next, steps, k, v)
    ensures Offset(steps, |steps|) > MODULUS
  {
    var a := OwnedAt(next, steps, i, v);
    var b := OwnedAt(next, steps, k, v);
    OffsetsGrow(steps, i, k);
    ShiftApart(next, Offset(steps, i) + a, Offset(steps, k) + b);
  }

  lemma ShiftApart(id: u32, x: nat, y: nat)
    requires x < y && Shift(id, x) == Shift(id, y)
    ensures y - x >= MODULUS
  {
  }

  /** Within one period the ids themselves never repeat. */
  lemma IdsDistinct(next: u32, steps: seq<u32>, i: nat, k: nat)
    requires Offset(steps, |steps|) <= MODULUS
    requires i < k < |steps|
    ensures Run(next, steps)[i] != Run(next, steps)[k]
  {
    DisjointIffWithinPeriod(next, steps);
    var ids := Run(next, steps);
    assert Shift(ids[i], 0) == ids[i] && Shift(ids[k], 0) == ids[k];
    assert Owns(next, steps, i, ids[i]);
    assert Owns(next, steps, k, ids[k]);
  }
}
