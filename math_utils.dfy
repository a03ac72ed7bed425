/** `math_utils.factorial`: a running product over 2..n. */
module MathUtils {
  import opened Wrappers

  /**
   * What `factorial` receives: a Python `int` (a `bool` is one too, `True` being 1),
   * or any other object.
   */
  datatype FactorialArg = Int(value: int) | NotInt

  /** The ValueError "n must be a non-negative integer". */
  datatype FactorialError = NegativeOrNonInteger

  /** n!, defined by its recurrence. */
  function Fact(n: nat): nat
  {
    if n == 0 then 1 else n * Fact(n - 1)
  }

  lemma {:induction false} FactPositive(n: nat)
    ensures Fact(n) >= 1
  {
    if n > 0 {
      FactPositive(n - 1);
    }
  }

  /** n! is at least n: every factor up to n is in the product. */
  lemma {:induction false} FactAtLeast(n: nat)
    ensures Fact(n) >= n
  {
    if n > 0 {
      FactPositive(n - 1);
    }
  }

  /** `factorial(n)`: rejects anything but a non-negative int, then multiplies 2, 3, ..., n. */
  method Factorial(n: FactorialArg) returns (r: Result<nat, FactorialError>)
    ensures n.NotInt? || n.value < 0 ==> r == Failure(NegativeOrNonInteger)
    ensures n.Int? && n.value >= 0 ==> r == Success(Fact(n.value))
    ensures r.Success? ==> r.value >= 1
  {
    if n.NotInt? || n.value < 0 {
      return Failure(NegativeOrNonInteger);
    }
    var result: nat := 1;
    var i := 2;
    while i <= n.value
      invariant 2 <= i <= n.value + 2
      invariant i <= n.value + 1 || n.value == 0
      invariant result == Fact(i - 1)
    {
      result := result * i;
      i := i + 1;
    }
    FactPositive(n.value);
    return Success(result);
  }
}
