/** Population count and parity of a natural number: the specification
    that both copies of `calculate_parity` and the SWD header are held to. */
module BitCount {

  /** Number of one bits in the binary representation of `n`. */
  function Popcount(n: nat): nat
  {
    if n == 0 then 0 else n % 2 + Popcount(n / 2)
  }

  /** 1 when `n` has an odd number of one bits, otherwise 0. */
  function Parity(n: nat): (p: nat)
    ensures p <= 1
    ensures p == 0 <==> Popcount(n) % 2 == 0
  {
    Popcount(n) % 2
  }

  /** Appending a bit below `w` gives a word `v` whose count is that bit
      plus the count of `w`. */
  lemma {:induction false} PopcountShiftIn(w: nat, b: nat, v: nat)
    requires b <= 1 && v == 2 * w + b
    ensures Popcount(v) == b + Popcount(w)
  {
    assert v / 2 == w;
    assert v % 2 == b;
  }

  /** Appending a bit below `w` flips the parity exactly when that bit is
      1, so the parity of a number is the XOR of its bits. */
  lemma {:induction false} ParityShiftIn(w: nat, b: nat, v: nat)
    requires b <= 1 && v == 2 * w + b
    ensures Parity(v) == (Parity(w) + b) % 2
    ensures b == 0 ==> Parity(v) == Parity(w)
    ensures b == 1 ==> Parity(v) == 1 - Parity(w)
  {
    PopcountShiftIn(w, b, v);
    var c := Popcount(w);
    if b == 1 {
      assert (1 + c) % 2 == 1 - c % 2;
    }
  }

  /** The count of a five-bit word is the sum of its bits. */
  lemma {:induction false} PopcountFiveBits(b0: nat, b1: nat, b2: nat, b3: nat, b4: nat)
    requires b0 <= 1 && b1 <= 1 && b2 <= 1 && b3 <= 1 && b4 <= 1
    ensures Popcount(b0 + 2 * b1 + 4 * b2 + 8 * b3 + 16 * b4) == b0 + b1 + b2 + b3 + b4
  {
    var w4 := b4;
    var w3 := 2 * w4 + b3;
    var w2 := 2 * w3 + b2;
    var w1 := 2 * w2 + b1;
    var w0 := 2 * w1 + b0;
    PopcountShiftIn(0, b4, w4);
    PopcountShiftIn(w4, b3, w3);
    PopcountShiftIn(w3, b2, w2);
    PopcountShiftIn(w2, b1, w1);
    PopcountShiftIn(w1, b0, w0);
    assert w0 == b0 + 2 * b1 + 4 * b2 + 8 * b3 + 16 * b4;
  }
}
