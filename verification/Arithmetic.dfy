/** Powers of two and the division facts the codecs share. */
module Arithmetic {

  function Pow2(e: nat): (p: nat)
    ensures p >= 1
  {
    if e == 0 then 1 else 2 * Pow2(e - 1)
  }

  lemma {:induction false} Pow2Monotone(a: nat, b: nat)
    requires a <= b
    ensures Pow2(a) <= Pow2(b)
    decreases b
  {
    if a < b {
      Pow2Monotone(a, b - 1);
    }
  }

  lemma {:induction false} Pow2Add(a: nat, b: nat)
    ensures Pow2(a + b) == Pow2(a) * Pow2(b)
  {
    if a > 0 {
      Pow2Add(a - 1, b);
    }
  }

  lemma MulMonotone(n: nat, a: nat, b: nat)
    requires a <= b
    ensures n * a <= n * b
  {
    assert n * b == n * a + n * (b - a);
  }

  /** Quotient and remainder are determined by `n == q * p + e` with `e < p`. */
  lemma DivModUnique(n: nat, p: nat, q: nat, e: nat)
    requires p > 0 && e < p && n == q * p + e
    ensures n / p == q && n % p == e
  {
    var q', e' := n / p, n % p;
    assert n == p * q' + e';
    assert p * (q - q') == e' - e;
    if q' < q {
      MulMonotone(p, 1, q - q');
    } else if q < q' {
      MulMonotone(p, 1, q' - q);
    }
  }

  /** `n >> bits`. */
  function Shr(n: nat, bits: nat): (q: nat)
    ensures Pow2(bits) * q <= n
  {
    QuotientNat(n, Pow2(bits));
    n / Pow2(bits)
  }

  /** The low bits of `n`. */
  function Low(n: nat, bits: nat): (e: nat)
    ensures e < Pow2(bits)
    ensures n == Shr(n, bits) * Pow2(bits) + e
  {
    QuotientNat(n, Pow2(bits));
    n % Pow2(bits)
  }

  lemma QuotientNat(n: nat, p: nat)
    requires p > 0
    ensures n / p >= 0 && 0 <= n % p < p
    ensures n == p * (n / p) + n % p
  {
  }

  /** Bits placed above `bits` and below it are read back separately. */
  lemma ShrLowOfJoin(q: nat, bits: nat, e: nat)
    requires e < Pow2(bits)
    ensures Shr(q * Pow2(bits) + e, bits) == q
    ensures Low(q * Pow2(bits) + e, bits) == e
  {
    DivModUnique(q * Pow2(bits) + e, Pow2(bits), q, e);
  }

  lemma LowOfSmall(e: nat, bits: nat)
    requires e < Pow2(bits)
    ensures Shr(e, bits) == 0 && Low(e, bits) == e
  {
    ShrLowOfJoin(0, bits, e);
  }

  lemma SmallMod(n: nat, m: nat)
    requires n < m
    ensures n % m == n
  {
  }

  function Floor(c: nat, n: nat): nat
    requires n > 0
  {
    QuotientNat(c, n);
    c / n
  }

  function Ceiling(c: nat, n: nat): nat
    requires n > 0
  {
    QuotientNat(c + n - 1, n);
    (c + n - 1) / n
  }

  lemma DivSum(q: nat, r: nat, p: nat, s: nat, n: nat)
    requires r < n && s < n
    ensures (q * n + r + (p * n + s)) / n == if r + s < n then q + p else q + p + 1
  {
    var t := q + p;
    assert t * n == q * n + p * n;
    if r + s < n {
      DivModUnique(t * n + (r + s), n, t, r + s);
    } else {
      assert (t + 1) * n == t * n + n;
      DivModUnique((t + 1) * n + (r + s - n), n, t + 1, r + s - n);
    }
  }

  lemma CeilOf(p: nat, s: nat, n: nat)
    requires s < n
    ensures (p * n + s + n - 1) / n == if s == 0 then p else p + 1
  {
    if s == 0 {
      DivModUnique(p * n + (n - 1), n, p, n - 1);
    } else {
      assert (p + 1) * n == p * n + n;
      DivModUnique((p + 1) * n + (s - 1), n, p + 1, s - 1);
    }
  }

  lemma Split(n: nat, d: nat) returns (q: nat, r: nat)
    requires d > 0
    ensures q == n / d && r == n % d < d && n == q * d + r
  {
    QuotientNat(n, d);
    q, r := n / d, n % d;
  }

  /** The next number's quotient and remainder. */
  lemma DivModNext(n: nat, d: nat)
    requires d > 0
    ensures n % d + 1 < d ==> (n + 1) / d == n / d && (n + 1) % d == n % d + 1
    ensures n % d + 1 == d ==> (n + 1) / d == n / d + 1 && (n + 1) % d == 0
  {
    var q, r := Split(n, d);
    if r + 1 < d {
      DivModUnique(n + 1, d, q, r + 1);
    } else {
      assert (q + 1) * d == q * d + d;
      DivModUnique(n + 1, d, q + 1, 0);
    }
  }

  lemma ModAddBack(n: nat, d: nat, k: nat)
    requires k < d
    ensures n % d == k <==> (n + d - k) % d == 0
  {
    var q, r := Split(n, d);
    if r >= k {
      assert (q + 1) * d == q * d + d;
      DivModUnique(n + d - k, d, q + 1, r - k);
    } else {
      DivModUnique(n + d - k, d, q, r + d - k);
    }
  }

  /** The distance from `n` up to the next number with remainder `k`. */
  lemma NextWithRemainder(n: nat, d: nat, k: nat) returns (i: nat)
    requires k < d
    ensures 1 <= i <= d && (n + i) % d == k
  {
    var q, r := Split(n, d);
    if r < k {
      i := k - r;
      DivModUnique(n + i, d, q, k);
    } else {
      i := k + d - r;
      assert (q + 1) * d == q * d + d;
      DivModUnique(n + i, d, q + 1, k);
    }
  }
}
