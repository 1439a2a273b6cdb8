/** `my_factorial(n)` of 4.py, a copy of the one in my_math.py. */
module FourPy {
  import opened Factorial
  import MyMath

  /**
   * Raises `ValueError` for a negative `n`, returns 1 for 0 and 1, and
   * otherwise multiplies `result` by each `i` of `range(2, n + 1)`.
   */
  method MyFactorial(n: int) returns (r: Outcome)
    ensures n < 0 ==> r == ValueError(NegativeMessage)
    ensures n >= 0 ==> r == Returned(Fact(n))
  {
    if n < 0 {
      return ValueError(NegativeMessage);
    }
    if n == 0 || n == 1 {
      return Returned(1);
    }
    var result := 1;
    for i := 2 to n + 1
      invariant result == RangeProduct(2, i)
      invariant result == Fact(i - 1)
    {
      RangeProductSplit(2, i, i + 1);
      result := result * i;
    }
    return Returned(result);
  }

  /** Both copies of `my_factorial` agree on every integer, raising or returning alike. */
  method AgreesWithMyMath(n: int) returns (here: Outcome, there: Outcome)
    ensures here == there
    ensures here == Expected(n)
  {
    here := MyFactorial(n);
    there := MyMath.MyFactorial(n);
  }
}
