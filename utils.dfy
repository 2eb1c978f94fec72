/** The static helpers of the `Utils` class in `pyjlink/utils.py` that the
    SWD codec relies on: the integer and natural-number checks and the
    parity routine. */
module Utils {
  import opened Wrappers
  import opened Values
  import opened BitCount

  const PARITY_MESSAGE := "Expected n to be a positive integer."

  /** `is_integer`: true when `val += 1` does not raise `TypeError`; of the
      modelled values only integers support it. */
  predicate IsInteger(val: PyValue)
  {
    match val
    case PyInt(_) => true
    case PyStr(_) => false
    case PyNone => false
  }

  /** `is_natural`: an integer that is not negative. The comparison
      `val >= 0` is reached only for integers. */
  predicate IsNatural(val: PyValue)
  {
    IsInteger(val) && val.i >= 0
  }

  /** `calculate_parity`: raises `ValueError` unless `n` is natural, then
      counts the one bits by shifting `n` right until it is zero and
      returns the low bit of the count. For `n >= 0`, `n & 1` is `n % 2`,
      `n >> 1` is `n / 2` and `abs(n)` is `n`. */
  method CalculateParity(n: PyValue) returns (r: Result<int, Error>)
    ensures IsNatural(n) ==> r == Success(Parity(n.i))
    ensures !IsNatural(n) ==> r == Failure(ValueError(PARITY_MESSAGE))
  {
    if !IsNatural(n) {
      return Failure(ValueError(PARITY_MESSAGE));
    }
    var y := 0;
    var m := n.i;
    while m != 0
      invariant 0 <= m && 0 <= y
      invariant y + Popcount(m) == Popcount(n.i)
      decreases m
    {
      y := y + m % 2;
      m := m / 2;
    }
    return Success(y % 2);
  }

  /** `is_integer` accepts exactly the integers, negative ones included,
      and rejects strings and `None`, where `val += 1` raises. */
  lemma IsIntegerCases(val: PyValue)
    ensures IsInteger(val) <==> val.PyInt?
    ensures IsInteger(PyInt(-1)) && !IsInteger(PyStr("4")) && !IsInteger(PyNone)
  {
  }

  /** The cases of `is_natural` the documentation names: naturals pass,
      negative numbers and non-integers do not. */
  lemma IsNaturalCases(val: PyValue)
    ensures IsNatural(val) <==> val.PyInt? && val.i >= 0
    ensures IsNatural(PyInt(0)) && IsNatural(PyInt(4)) && !IsNatural(PyInt(-1))
  {
  }
}
