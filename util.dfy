/** The module-level helpers of `pyjlink/util.py`: a second copy of the
    natural-number check (by `isinstance`) and of the parity routine. */
module Util {
  import opened Wrappers
  import opened Values
  import opened BitCount
  import Utils

  const PARITY_MESSAGE := "Expected n to be a positive integer."

  /** `is_natural`: `isinstance(val, int) and val >= 0`. */
  predicate IsNatural(val: PyValue)
  {
    val.PyInt? && val.i >= 0
  }

  /** `calculate_parity`: the same shift-and-count loop as
      `Utils.calculate_parity`, guarded by this module's `is_natural`. */
  method CalculateParity(n: PyValue) returns (r: Result<int, Error>)
    ensures IsNatural(n) ==> r == Success(Parity(n.i))
    ensures !IsNatural(n) ==> r == Failure(ValueError(PARITY_MESSAGE))
  {
    if !IsNatural(n) {
      return Failure(ValueError(PARITY_MESSAGE));
    }
    var y := 0;
    var m := n.i;
    while m != 0
      invariant 0 <= m && 0 <= y
      invariant y + Popcount(m) == Popcount(n.i)
      decreases m
    {
      y := y + m % 2;
      m := m / 2;
    }
    return Success(y % 2);
  }

  /** The values the unit tests use: 4 and 0 are natural; -1, '4' and
      'The 100' are not. */
  lemma IsNaturalExamples()
    ensures IsNatural(PyInt(4)) && IsNatural(PyInt(0))
    ensures !IsNatural(PyInt(-1)) && !IsNatural(PyStr("4")) && !IsNatural(PyStr("The 100"))
  {
  }

  /** On every modelled value the two natural-number checks agree. */
  lemma IsNaturalAgrees(val: PyValue)
    ensures IsNatural(val) == Utils.IsNatural(val)
  {
  }

  /** Both copies of `calculate_parity` give the same result, value or
      `ValueError`, for every argument. */
  method ParityCopiesAgree(n: PyValue) returns (a: Result<int, Error>, b: Result<int, Error>)
    ensures a == b
    ensures n.PyInt? && n.i >= 0 ==> a == Success(Parity(n.i))
  {
    a := CalculateParity(n);
    b := Utils.CalculateParity(n);
  }

  /** parity(1) = 1, parity(2) = 1, parity(3) = 0; parity(-1) and
      parity('4') raise `ValueError`. */
  method ParityExamples()
  {
    var r1 := CalculateParity(PyInt(1));
    assert r1 == Success(1);
    var r2 := CalculateParity(PyInt(2));
    assert r2 == Success(1);
    var r3 := CalculateParity(PyInt(3));
    assert r3 == Success(0);
    var bad := CalculateParity(PyInt(-1));
    assert bad.Failure?;
    var str := CalculateParity(PyStr("4"));
    assert str.Failure?;
  }
}
