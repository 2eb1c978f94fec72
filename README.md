# pyjlink Serial Wire Debug codec, modelled in Dafny

This project models the part of pyjlink that speaks ARM Serial Wire Debug
(SWD) through a SEGGER J-Link probe. SWD comes from the ARM Debug Interface
Architecture Specification ADIv5, chapter B4, section B4.2. The model also
covers the two integer helpers this code relies on:

- **Response** (`swd.py`): a status code (ACK 1, WAIT 2, FAULT 4, INVALID -1)
  plus optional data. It has four equality predicates.
- **Request header** (`swd.py`): the 8-bit request packet. Its fields are
  start, APnDP, RnW, A2, A3, parity, stop and park. `Swd.Encode` builds the
  byte with explicit bit operations, and `Swd.Decode` reads it back.
- **Read and write transactions** (`swd.py`): the fixed, ordered sequence of
  calls that `ReadRequest.send` and `WriteRequest.send` make on the probe,
  and how they classify the result. The probe is the class `Swd.Probe`. It
  appends every call to a `trace`. The value a call returns comes from an
  oracle, `reply(position, call)`.
- **Parity** (`utils.py` and `util.py`): the shift-and-count loop, proved
  against a recursive population count. Both copies are modelled.
- **Byte packer** (`binpacker.py`): `pack_size`, and `pack`, which fills a
  little-endian byte array in a loop.

The unit tests for these files appear as concrete lemmas (`Swd.EncodeTable`,
`BinPacker.PackSizeExamples`) and as client methods with assertions
(`SwdScenarios.*`, `Util.ParityExamples`, `BinPacker.PackExamples`,
`BinPacker.PackHighByteExample`, `BinPacker.PackDefaultSizeExample`).

Python's `& 1`, `>> 1`, `& 7`, `& 0xFF` and `>> 8*i` act on unbounded
integers. The model writes them as Dafny `%` and `/` by a positive constant.
Those operations floor, as Python's do, so negative operands behave the same.

Where the code differs from its own docstrings or from ADIv5, the model
follows the code:
- `address` is documented as the register index A[3:2]
  (pyjlink/protocols/swd.py:118), but any integer is accepted. Only its two
  low bits reach the header: `Swd.EncodeLowBits` proves that the header
  depends only on `address mod 4`.
- ADIv5 follows the 32-bit write data with a single parity bit. The code
  clocks it with `swd_write8(0xFF, parity)` (pyjlink/protocols/swd.py:251),
  an 8-bit write, and `Swd.WriteTrace` records that call.
- `calculate_parity` raises `ValueError` for a negative word. On a write,
  that happens after `swd_write32` has already clocked the word out
  (pyjlink/protocols/swd.py:250-251), so `Swd.WriteTrace` keeps the data
  phase and stops there.

## Model

| member | source | states |
|---|---|---|
| `BitCount.ParityShiftIn` | pyjlink/utils.py:164-167 | appending a bit below a number flips its parity exactly when the bit is 1, so the parity the shift loop returns is the XOR of all bits |
| `Utils.CalculateParity` | pyjlink/utils.py:143-167 | raises ValueError("Expected n to be a positive integer.") unless the argument is a natural integer; otherwise returns popcount mod 2, via the loop invariant `y + popcount(n) == popcount(n0)` |
| `Utils.IsIntegerCases` | pyjlink/utils.py:20-33 | `is_integer` holds exactly for integers, negative ones included; `-1` passes, while a string and `None` fail |
| `Utils.IsNaturalCases` | pyjlink/utils.py:19-45 | `is_natural` holds exactly for integers >= 0; 0 and 4 pass and -1 fails |
| `Util.CalculateParity` | pyjlink/util.py:150-174 | raises ValueError unless the argument passes the `isinstance` natural check; otherwise returns popcount mod 2, via the same loop invariant |
| `Util.IsNaturalExamples` | pyjlink/util.py:29-38 | 4 and 0 are natural; -1, '4' and 'The 100' are not |
| `Util.IsNaturalAgrees` | pyjlink/util.py:29-38 | on every modelled value, the `isinstance` check agrees with `Utils.is_natural` |
| `Util.ParityCopiesAgree` | pyjlink/util.py:166-174 | both copies of `calculate_parity` give the same value or the same ValueError for every argument |
| `BinPacker.MinBytes` | pyjlink/binpacker.py:32 | for v > 0, the result n satisfies 256^(n-1) <= v < 256^n |
| `BinPacker.PackSize` | pyjlink/binpacker.py:14-32 | fails with ValueError exactly for negative values; 0 gives 1; otherwise v < 256^r and 256^(r-1) <= v |
| `BinPacker.PackSizeIsLeast` | pyjlink/binpacker.py:28-32 | no byte count smaller than `pack_size(v)` can hold v |
| `BinPacker.PackSizeExamples` | pyjlink/binpacker.py:28-32 | 0→1, 255→1, 256→2, 65535→2, 65536→3, 2^31-1→4, 2^63-1→8; -1 raises ValueError |
| `BinPacker.Pack` | pyjlink/binpacker.py:35-63 | raises ValueError exactly for a non-positive explicit nbits, or a negative value without nbits; on success the buffer is newly allocated; the length is ceil(nbits/8), or `pack_size(v)` when nbits is omitted; byte i is `(v >> 8i) & 0xFF`; read back little-endian, the buffer gives v mod 256^len, and gives exactly v when nbits is omitted |
| `BinPacker.BytesRoundTrip` | pyjlink/binpacker.py:57-61 | the little-endian value of the first n bytes of v is v mod 256^n, so higher bits are dropped and nothing else is lost |
| `BinPacker.PackSizeRoundTrip` | pyjlink/binpacker.py:52-61 | with nbits omitted, the packed bytes reconstruct v exactly |
| `Swd.ResponsePredicatesExclusive` | pyjlink/protocols/swd.py:34-70 | at most one of ack/wait/fault/invalid holds for any response |
| `Swd.ResponsePredicatesExact` | pyjlink/protocols/swd.py:18-70 | each status constant makes exactly its own predicate true; any other code makes all four false |
| `Swd.BitsOf` | pyjlink/protocols/swd.py:73-110 | splitting a byte into the eight one-bit fields and packing them again gives back the byte |
| `Swd.BitsOfValue` | pyjlink/protocols/swd.py:73-110 | packing the fields and splitting the byte again gives back the fields, so the overlay is a bijection |
| `Swd.Encode` | pyjlink/protocols/swd.py:112-137 | bit 0 (start) is 1, bit 6 (stop) is 0, bit 7 (park) is 1; bit 5 is the XOR of bits 1-4; bit 1 is APnDP; bit 2 is RnW; decoding recovers ap, direction and `address mod 4` |
| `Swd.EncodeLowBits` | pyjlink/protocols/swd.py:128-129 | only the two low address bits reach the header |
| `Swd.DecodeEncode` | pyjlink/protocols/swd.py:124-135 | every byte that decodes equals the encoding of its decoded index (0..3), port and direction |
| `Swd.EncodeTable` | pyjlink/protocols/swd.py:125-135 | the header bytes for every index, port and direction: 165/141/149/189, 135/175/183/159, 129/169/177/153, 163/139/147/187; index 4 gives the same byte as index 0 |
| `Swd.HeaderEvenOnes` | pyjlink/protocols/swd.py:131-132 | bits 1-5 of every header hold an even number of ones |
| `Swd.NewRequest` | pyjlink/protocols/swd.py:112-137 | the request's byte is `Encode(address, ap, data is None)` and the request keeps `data`, so RnW is 1 exactly when no data is supplied |
| `Swd.ReadRequest` | pyjlink/protocols/swd.py:162-171 | a read request decodes as a read of `address mod 4` on the chosen port and carries no data |
| `Swd.WriteRequest` | pyjlink/protocols/swd.py:215-223 | a write request decodes as a write of `address mod 4` on the chosen port and carries its data |
| `Swd.Probe.SwdWrite8` | pyjlink/protocols/swd.py:151 | records an 8-bit write with its mask and value, and nothing else changes |
| `Swd.Probe.SwdWrite32` | pyjlink/protocols/swd.py:196 | records a 32-bit write with its mask and value, and nothing else changes |
| `Swd.Probe.SwdWrite` | pyjlink/protocols/swd.py:154 | records the call and returns the probe's pipeline offset for it |
| `Swd.Probe.SwdRead8` | pyjlink/protocols/swd.py:198 | records the call and returns the probe's byte for it |
| `Swd.Probe.SwdRead32` | pyjlink/protocols/swd.py:199 | records the call and returns the probe's word for it |
| `Swd.Send` | pyjlink/protocols/swd.py:139-154 | the calls are `swd_write8(0xFF, header)` then `swd_write(0, 0, 3)`, and the method returns the offset from the latter |
| `Swd.ReadTrace` | pyjlink/protocols/swd.py:193-203 | a read makes 7 calls on ACK and 6 otherwise, starting with the request phase |
| `Swd.ReadOutcome` | pyjlink/protocols/swd.py:198-207 | status is the low 3 bits of the status byte, and the data is always carried; INVALID exactly when the status is ACK and the parity bit differs from parity(data); otherwise the masked status is kept, so INVALID never comes from a non-ACK path; a negative data word on ACK raises ValueError |
| `Swd.SendRead` | pyjlink/protocols/swd.py:173-207 | the trace grows by exactly write8(0xFF,h), write(0,0,3)→ack, write32(0,0), write8(0xFC,0), read8(ack), read32(ack+3), and then read8(ack+35) only on ACK; the result is `ReadOutcome` of the values read |
| `Swd.WriteTrace` | pyjlink/protocols/swd.py:244-251 | a write makes 6 calls, or 4 when the data is negative, starting with the request phase |
| `Swd.WriteOutcome` | pyjlink/protocols/swd.py:250-252 | the result is the low 3 bits of the status byte with no data, and never INVALID; a negative word raises ValueError |
| `Swd.SendWrite` | pyjlink/protocols/swd.py:225-252 | the trace grows by exactly write8(0xFF,h), write(0,0,3)→ack, write(0,0,2), write32(0xFFFFFFFF,data), write8(0xFF,parity(data)), read8(ack); the result is `WriteOutcome` |

## Left out

- The J-Link transport: the DLL calls behind `swd_write8`, `swd_write32`,
  `swd_write`, `swd_read8` and `swd_read32`. This is foreign code. The
  model's probe records the calls, takes the values it returns from the
  `reply` oracle, and never fails. Transport errors, and the values the
  `swd_write*` calls return and the codec ignores, are not modelled.
- The ctypes union and bit-field memory overlay. It is replaced by explicit
  shifts and masks (`Swd.RequestBits.Value`, `Swd.BitsOf`).
- Words read from the probe and written by the caller are unbounded integers.
  Their 32-bit width depends on the transport's contract, which is not part
  of this model.
- `BinPacker.PackSize`: the floating-point `int(math.log(value, 256)) + 1`
  is modelled by its integer meaning, the least n with value < 256^n. Float
  rounding, which can differ near exact powers of 256 and for very large
  values, is not modelled.
- `BinPacker.Pack`: `math.ceil(nbits / float(8))` is modelled as the exact
  integer ceiling, and float rounding for huge `nbits` is not modelled.
- `Swd.SendWrite`: requires the request to carry data. `WriteRequest` always
  stores its `data` argument. If that argument were `None`, the code would
  build a read header and pass `None` to `swd_write32`; that case is not
  modelled.
- The `TypeError` paths for non-numeric arguments. They come from Python's
  dynamic typing, and Dafny's types rule them out.
- Values other than integers, strings and `None` are left out of
  `is_integer`/`is_natural`. In particular, `Utils.is_integer` accepts floats
  and `util.is_natural` does not, and that difference is not captured.
- `send` keeps no state (pyjlink/protocols/swd.py:139-154), so nothing
  stops a request being sent twice, and the model does not either.
- `progress_bar`, `flash_progress_callback`, `is_os_64bit`, `noop` and
  `unsecure_hook_dialog` in both utility files: console output, a platform
  query and trivial stubs.
- pyjlink/jlock.py (file locking), pyjlink/threads.py and
  pyjlink/decorators.py (threads and callbacks), pyjlink/structs.py (DLL
  struct layouts), pyjlink/errors.py and pyjlink/unlockers (enum tables), and
  pyjlink/__main__.py (the command line) are not part of this model.
