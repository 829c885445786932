/** Fixed-width integers of the wasm32 target: `u32`, and `usize`, which is also
    32 bits wide there. */
module Ints {
  const U32_MODULUS: int := 0x1_0000_0000

  type u32 = x: int | 0 <= x < 0x1_0000_0000

  /** Rust's `wrapping_*` arithmetic and release-build overflow: reduce modulo 2^32. */
  function Wrap(x: int): (r: u32)
    ensures 0 <= x < U32_MODULUS ==> r == x
    ensures (r - x) % U32_MODULUS == 0
  {
    x % U32_MODULUS
  }

  /** `a - b` on `usize` in a release build: wraps below zero. */
  function WrappingSub(a: u32, b: u32): (r: u32)
    ensures b <= a ==> r == a - b
    ensures a < b ==> r == U32_MODULUS + a - b
  {
    Wrap(a - b)
  }

  /** Multiplying by a natural number preserves the order. */
  lemma {:induction false} MulLe(a: int, b: int, n: nat)
    requires a <= b
    ensures a * n <= b * n
  {
    if n > 0 {
      MulLe(a, b, n - 1);
      assert a * n == a * (n - 1) + a;
      assert b * n == b * (n - 1) + b;
    }
  }

  /** Quotient and remainder are the only such pair. */
  lemma DivModUnique(y: nat, n: nat, q: int, r: int)
    requires n >= 1 && 0 <= r < n && y == q * n + r
    ensures y / n == q && y % n == r
  {
    var q', r' := y / n, y % n;
    assert y == q' * n + r';
    if q < q' {
      assert (q + 1) * n == q * n + n;
      MulLe(q + 1, q', n);
    } else if q > q' {
      MulLe(q' + 1, q, n);
    }
  }

  /** Counting up by one: the remainder steps by one or wraps to 0, and the
      quotient steps exactly when it wraps. */
  lemma ModSucc(x: nat, n: nat)
    requires n >= 1
    ensures x % n + 1 < n ==> (x + 1) % n == x % n + 1 && (x + 1) / n == x / n
    ensures x % n + 1 == n ==> (x + 1) % n == 0 && (x + 1) / n == x / n + 1
    ensures (x % n + 1) % n == (x + 1) % n
  {
    var q, r := x / n, x % n;
    assert x == q * n + r;
    if r + 1 < n {
      DivModUnique(x + 1, n, q, r + 1);
      DivModUnique(r + 1, n, 0, r + 1);
    } else {
      assert x + 1 == (q + 1) * n + 0;
      DivModUnique(x + 1, n, q + 1, 0);
      DivModUnique(n, n, 1, 0);
    }
  }
}
