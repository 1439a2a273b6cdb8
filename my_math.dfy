/** `my_factorial(k)` of my_math.py. */
module MyMath {
  import opened Factorial

  /**
   * Raises `ValueError` for a negative `k`, returns 1 for 0 and 1, and
   * otherwise multiplies `result` by each `i` of `range(2, k + 1)`.
   */
  method MyFactorial(k: int) returns (r: Outcome)
    ensures k < 0 ==> r == ValueError(NegativeMessage)
    ensures k >= 0 ==> r == Returned(Fact(k))
  {
    if k < 0 {
      return ValueError(NegativeMessage);
    }
    if k == 0 || k == 1 {
      return Returned(1);
    }
    var result := 1;
    for i := 2 to k + 1
      invariant result == Fact(i - 1)
    {
      result := result * i;
    }
    return Returned(result);
  }

  /** `my_factorial(k) == k * my_factorial(k - 1)` for every `k >= 1`, and the result is at least 1. */
  method Recurrence(k: int) returns (current: Outcome, previous: Outcome)
    requires k >= 1
    ensures current.Returned? && previous.Returned?
    ensures current.value == k * previous.value
    ensures current.value >= 1
  {
    current := MyFactorial(k);
    previous := MyFactorial(k - 1);
  }
}
