/**
 * What the two copies of `my_factorial` compute: the factorial of a
 * non-negative integer, or a `ValueError` for a negative one.
 */
module Factorial {

  /** Message of the `ValueError` raised for a negative argument. */
  const NegativeMessage: string := "Факториал определен только для неотрицательных целых чисел"

  /** A Python call either returns a value or raises `ValueError`. */
  datatype Outcome = Returned(value: nat) | ValueError(message: string)

  /** The recursive factorial. */
  function Fact(n: nat): (r: nat)
    ensures r >= 1
  {
    if n == 0 then 1 else n * Fact(n - 1)
  }

  /** `lo * (lo + 1) * ... * (hi - 1)`, the product of `range(lo, hi)`; 1 when the range is empty. */
  function RangeProduct(lo: int, hi: int): int
    decreases hi - lo
  {
    if lo >= hi then 1 else lo * RangeProduct(lo + 1, hi)
  }

  /** The outcome `my_factorial(n)` promises. */
  function Expected(n: int): Outcome
  {
    if n < 0 then ValueError(NegativeMessage) else Returned(Fact(n))
  }

  /** Multiplying the factorial of `lo - 1` by the rest of the range up to `hi - 1` gives the factorial of `hi - 1`. */
  lemma {:induction false} RangeProductFact(lo: nat, hi: nat)
    requires 1 <= lo <= hi
    ensures Fact(lo - 1) * RangeProduct(lo, hi) == Fact(hi - 1)
    decreases hi - lo
  {
    if lo < hi {
      RangeProductFact(lo + 1, hi);
      var before, rest := Fact(lo - 1), RangeProduct(lo + 1, hi);
      assert RangeProduct(lo, hi) == lo * rest;
      assert Fact(lo) == lo * before;
      MulRotate(before, lo, rest);
    }
  }

  lemma MulRotate(a: int, b: int, c: int)
    ensures a * (b * c) == (b * a) * c
  {
  }

  lemma MulAssoc(a: int, b: int, c: int)
    ensures a * (b * c) == (a * b) * c
  {
  }

  /** The recursive factorial is the product `1 * 2 * ... * n`, and also that of `range(2, n + 1)`. */
  lemma FactIsProduct(n: nat)
    ensures Fact(n) == RangeProduct(1, n + 1)
    ensures n >= 1 ==> Fact(n) == RangeProduct(2, n + 1)
  {
    RangeProductFact(1, n + 1);
    if n >= 1 {
      RangeProductFact(2, n + 1);
    }
  }

  /** The product of a range is the product of its two halves. */
  lemma {:induction false} RangeProductSplit(lo: int, mid: int, hi: int)
    requires lo <= mid <= hi
    ensures RangeProduct(lo, hi) == RangeProduct(lo, mid) * RangeProduct(mid, hi)
    decreases mid - lo
  {
    if lo < mid {
      RangeProductSplit(lo + 1, mid, hi);
      var inner, right := RangeProduct(lo + 1, mid), RangeProduct(mid, hi);
      assert RangeProduct(lo, hi) == lo * (inner * right);
      assert RangeProduct(lo, mid) == lo * inner;
      MulAssoc(lo, inner, right);
    }
  }
}
