/** 64-bit wrap-around and the few facts about division the proofs share. */
module Arithmetic {

  const TWO_64: int := 0x1_0000_0000_0000_0000

  /** The value a uint64 holds after an operation with mathematical result x. */
  function Wrap(x: int): nat {
    x % TWO_64
  }

  lemma NoWrap(x: nat)
    requires x < TWO_64
    ensures Wrap(x) == x
  {
  }

  lemma Monotone(a: int, b: int, d: int)
    requires a <= b && d >= 0
    ensures a * d <= b * d
  {
    assert b * d == a * d + (b - a) * d;
  }

  lemma QuotientBounds(x: int, d: int)
    requires d > 0
    ensures (x / d) * d <= x < (x / d + 1) * d
  {
  }

  lemma QuotientIs(x: int, d: int, q: int, r: int)
    requires d > 0 && x == d * q + r && 0 <= r < d
    ensures x / d == q && x % d == r
  {
    var other, rest := x / d, x % d;
    assert d * other + rest == x;
    assert d * (other - q) == r - rest;
    assert other - q >= 1 ==> d * (other - q) >= d;
    assert q - other >= 1 ==> d * (q - other) >= d;
    assert d * (q - other) == rest - r;
  }

  lemma QuotientMonotone(x: int, y: int, d: int)
    requires d > 0 && x <= y
    ensures x / d <= y / d
  {
    QuotientBounds(x, d);
    QuotientBounds(y, d);
    if x / d > y / d {
      Monotone(y / d + 1, x / d, d);
      assert false;
    }
  }

  lemma QuotientAtMost(x: nat, d: nat)
    requires d > 0
    ensures 0 <= x / d <= x
  {
    QuotientBounds(x, d);
    FactorAtMost(x / d, d, x);
  }

  lemma FactorAtMost(q: int, d: int, x: int)
    requires d > 0 && q * d <= x < (q + 1) * d && x >= 0
    ensures 0 <= q <= x
  {
    if q < 0 {
      Monotone(q + 1, 0, d);
    } else {
      Monotone(1, d, q);
    }
  }
}
