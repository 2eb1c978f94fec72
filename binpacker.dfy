/** `pyjlink/binpacker.py`: the minimal byte count of a natural number and
    its little-endian packing into a buffer of 8-bit unsigned integers. */
module BinPacker {
  import opened Wrappers
  import opened Values

  const BITS_PER_BYTE := 8
  const SIZE_MESSAGE := "Expected non-negative integer."
  const BITS_MESSAGE := "Given number of bits must be greater than 0."

  /** A `c_uint8` element. */
  type Byte = x: int | 0 <= x < 256

  function Pow256(n: nat): (p: nat)
    ensures p >= 1
  {
    if n == 0 then 1 else 256 * Pow256(n - 1)
  }

  lemma {:induction false} Pow256Monotonic(m: nat, n: nat)
    requires m <= n
    ensures Pow256(m) <= Pow256(n)
    decreases n
  {
    if m < n {
      Pow256Monotonic(m, n - 1);
    }
  }

  /** Number of bytes a positive `value` needs: one more than the number of
      whole base-256 digits above the lowest. */
  function MinBytes(value: nat): (n: nat)
    requires value > 0
    ensures n >= 1
    ensures value < Pow256(n)
    ensures Pow256(n - 1) <= value
  {
    if value < 256 then 1 else 1 + MinBytes(value / 256)
  }

  /** `pack_size`: 1 for zero, `ValueError` for a negative value, otherwise
      the least byte count whose range holds `value` (the integer meaning
      of `int(log(value, 256)) + 1`). */
  function PackSize(value: int): (r: Result<nat, Error>)
    ensures r.Failure? <==> value < 0
    ensures r.Failure? ==> r.error == ValueError(SIZE_MESSAGE)
    ensures value == 0 ==> r == Success(1)
    ensures r.Success? ==> r.value >= 1 && value < Pow256(r.value)
    ensures r.Success? && value > 0 ==> Pow256(r.value - 1) <= value
  {
    if value == 0 then Success(1)
    else if value < 0 then Failure(ValueError(SIZE_MESSAGE))
    else Success(MinBytes(value))
  }

  /** No smaller byte count than `pack_size` holds the value. */
  lemma PackSizeIsLeast(value: int, m: nat)
    requires value >= 0
    requires m < PackSize(value).value
    ensures value >= Pow256(m) || (value == 0 && m == 0)
  {
    if value > 0 {
      Pow256Monotonic(m, PackSize(value).value - 1);
    }
  }

  /** The values the unit tests give for `pack_size`. */
  lemma PackSizeExamples()
    ensures PackSize(0) == Success(1) && PackSize(255) == Success(1)
    ensures PackSize(256) == Success(2) && PackSize(65535) == Success(2)
    ensures PackSize(65536) == Success(3)
    ensures PackSize(2147483647) == Success(4)
    ensures PackSize(9223372036854775807) == Success(8)
    ensures PackSize(-1) == Failure(ValueError(SIZE_MESSAGE))
  {
  }

  /** `(value >> (8 * i)) & 0xFF`: Python's right shift is floor division
      by a power of two and `& 0xFF` the non-negative remainder, which are
      Dafny's `/` and `%` for a positive divisor, also for negative `value`. */
  function ByteAt(value: int, i: nat): Byte
  {
    (value / Pow256(i)) % 256
  }

  /** Number of bytes in the buffer for `nbits` bits: `ceil(nbits / 8)`. */
  function BufferSize(nbits: int): nat
    requires nbits > 0
  {
    (nbits + BITS_PER_BYTE - 1) / BITS_PER_BYTE
  }

  /** The unsigned number whose little-endian bytes are `s`. */
  function LittleEndianValue(s: seq<Byte>): nat
  {
    if s == [] then 0 else s[0] + 256 * LittleEndianValue(s[1..])
  }

  /** `pack`: the number of bits is `nbits`, or `pack_size(value) * 8` when
      it is omitted; a non-positive explicit `nbits` and a negative value
      without `nbits` raise `ValueError`. The buffer holds `ceil(nbits / 8)`
      bytes, byte `i` being bits `8i .. 8i+7` of `value`. */
  method Pack(value: int, nbits: Option<int>) returns (r: Result<array<Byte>, Error>)
    ensures r.Failure? <==> (nbits.None? && value < 0) || (nbits.Some? && nbits.value <= 0)
    ensures r.Failure? && nbits.None? ==> r.error == ValueError(SIZE_MESSAGE)
    ensures r.Failure? && nbits.Some? ==> r.error == ValueError(BITS_MESSAGE)
    ensures r.Success? ==> fresh(r.value)
    ensures r.Success? && nbits.Some? ==> r.value.Length == BufferSize(nbits.value)
    ensures r.Success? && nbits.None? ==> r.value.Length == PackSize(value).value
    ensures r.Success? ==> forall i :: 0 <= i < r.value.Length ==> r.value[i] == ByteAt(value, i)
    ensures r.Success? ==> LittleEndianValue(r.value[..]) == value % Pow256(r.value.Length)
    ensures r.Success? && nbits.None? ==> LittleEndianValue(r.value[..]) == value
  {
    var bits: int;
    if nbits.None? {
      var size := PackSize(value);
      if size.Failure? {
        return Failure(size.error);
      }
      bits := size.value * BITS_PER_BYTE;
    } else if nbits.value <= 0 {
      return Failure(ValueError(BITS_MESSAGE));
    } else {
      bits := nbits.value;
    }
    var bufSize := BufferSize(bits);
    var buf := new Byte[bufSize];
    for idx := 0 to bufSize
      invariant forall j :: 0 <= j < idx ==> buf[j] == ByteAt(value, j)
    {
      buf[idx] := (value / Pow256(idx)) % 256;
    }
    assert buf[..] == Bytes(value, bufSize);
    BytesRoundTrip(value, bufSize);
    if nbits.None? {
      PackSizeRoundTrip(value);
    }
    return Success(buf);
  }

  /** Dividing by 256 and then by `p` is dividing by `256 * p`, and the
      remainder modulo `256 * p` splits into the low byte and the rest. */
  lemma DivModByteSplit(a: int, p: nat)
    requires p >= 1
    ensures (a / 256) / p == a / (256 * p)
    ensures a % (256 * p) == a % 256 + 256 * ((a / 256) % p)
  {
    var q, r := a / 256, a % 256;
    var q2, r2 := q / p, q % p;
    assert a == 256 * q + r;
    assert q == p * q2 + r2;
    assert a == (256 * p) * q2 + (256 * r2 + r);
    assert 0 <= 256 * r2 + r < 256 * p by {
      assert r2 <= p - 1;
      assert 256 * r2 <= 256 * (p - 1);
    }
    DivModUnique(a, 256 * p, q2, 256 * r2 + r);
  }

  lemma DivModUnique(a: int, m: int, x: int, y: int)
    requires m > 0 && 0 <= y < m && a == m * x + y
    ensures a / m == x && a % m == y
  {
    var d := a / m - x;
    assert m * d == y - a % m;
    assert d > 0 ==> m * d >= m;
    assert d < 0 ==> m * d <= -m;
  }

  /** Byte `i + 1` of `value` is byte `i` of `value >> 8`. */
  lemma ByteAtNext(value: int, i: nat)
    ensures ByteAt(value, i + 1) == ByteAt(value / 256, i)
  {
    DivModByteSplit(value, Pow256(i));
  }

  /** The bytes `0 .. n-1` of `value`. */
  function Bytes(value: int, n: nat): (s: seq<Byte>)
    ensures |s| == n
    ensures forall i :: 0 <= i < n ==> s[i] == ByteAt(value, i)
  {
    seq(n, i requires 0 <= i < n => ByteAt(value, i))
  }

  /** Read back little-endian, the first `n` bytes of `value` give `value`
      modulo `256^n`: the bits above the buffer are dropped and nothing
      else is lost. */
  lemma {:induction false} BytesRoundTrip(value: int, n: nat)
    ensures LittleEndianValue(Bytes(value, n)) == value % Pow256(n)
    decreases n
  {
    if n > 0 {
      var s := Bytes(value, n);
      var t := Bytes(value / 256, n - 1);
      forall i | 0 <= i < n - 1
        ensures s[1..][i] == t[i]
      {
        ByteAtNext(value, i);
      }
      assert s[1..] == t;
      BytesRoundTrip(value / 256, n - 1);
      DivModByteSplit(value, Pow256(n - 1));
    }
  }

  /** With `nbits` omitted, reading the packed buffer back little-endian
      reconstructs `value` exactly. */
  lemma PackSizeRoundTrip(value: int)
    requires value >= 0
    ensures LittleEndianValue(Bytes(value, PackSize(value).value)) == value
  {
    var n := PackSize(value).value;
    BytesRoundTrip(value, n);
    DivModUnique(value, Pow256(n), 0, value);
  }

  /** The buffers the unit tests expect. */
  method PackExamples()
  {
    var a := Pack(255, Some(1));
    assert a.Success? && a.value.Length == 1 && a.value[0] == 255;
    var b := Pack(255, Some(16));
    assert b.Success? && b.value.Length == 2 && b.value[0] == 255 && b.value[1] == 0;
    var e := Pack(4, Some(0));
    assert e.Failure?;
    var f := Pack(4, Some(-1));
    assert f.Failure?;
  }

  /** A packed word whose only nonzero byte is the last. */
  method PackHighByteExample()
  {
    var c := Pack(0xFF000000, Some(32));
    assert Pow256(3) == 0x1000000;
    assert c.Success? && c.value.Length == 4;
    assert c.value[3] == ByteAt(0xFF000000, 3) == 255;
  }

  /** A value packed without `nbits` takes `pack_size` bytes. */
  method PackDefaultSizeExample()
  {
    var d := Pack(256, None);
    assert d.Success? && d.value.Length == 2 && d.value[0] == 0 && d.value[1] == 1;
  }
}
