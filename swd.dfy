/** `pyjlink/protocols/swd.py`: the Serial Wire Debug request/response
    exchange of ARM's Debug Interface Architecture (ADIv5, section B4.2).
    A request header is an 8-bit packet; a read or write transaction clocks
    it out through a J-Link probe, collects the 3-bit acknowledge and moves
    one 32-bit data word with its parity bit. */
module Swd {
  import opened Wrappers
  import opened Values
  import opened BitCount
  import Utils

  // ---------------------------------------------------------------------
  // Response
  // ---------------------------------------------------------------------

  const STATUS_ACK: int := 1
  const STATUS_WAIT: int := 2
  const STATUS_FAULT: int := 4
  /** Not an acknowledge code of the target: the read path's verdict when
      the parity bit read back does not match the data. */
  const STATUS_INVALID: int := -1

  /** The outcome of a transaction: a status code and, for reads, the data
      word (kept even when the status says it is not to be trusted). */
  datatype Response = Response(status: int, data: Option<int>) {
    predicate Ack() { status == STATUS_ACK }
    predicate Wait() { status == STATUS_WAIT }
    predicate Fault() { status == STATUS_FAULT }
    predicate Invalid() { status == STATUS_INVALID }
  }

  /** At most one of the four predicates holds of any response. */
  lemma ResponsePredicatesExclusive(r: Response)
    ensures r.Ack() ==> !r.Wait() && !r.Fault() && !r.Invalid()
    ensures r.Wait() ==> !r.Ack() && !r.Fault() && !r.Invalid()
    ensures r.Fault() ==> !r.Ack() && !r.Wait() && !r.Invalid()
    ensures r.Invalid() ==> !r.Ack() && !r.Wait() && !r.Fault()
  {
  }

  /** Each status constant makes exactly its own predicate true, and a code
      that is none of the four (such as 0 or 7) makes all of them false. */
  lemma ResponsePredicatesExact(status: int, data: Option<int>)
    ensures Response(STATUS_ACK, data).Ack()
    ensures Response(STATUS_WAIT, data).Wait()
    ensures Response(STATUS_FAULT, data).Fault()
    ensures Response(STATUS_INVALID, data).Invalid()
    ensures var r := Response(status, data);
      (r.Ack() || r.Wait() || r.Fault() || r.Invalid())
        <==> status in {STATUS_ACK, STATUS_WAIT, STATUS_FAULT, STATUS_INVALID}
  {
  }

  // ---------------------------------------------------------------------
  // Request header
  // ---------------------------------------------------------------------

  /** The eight one-bit fields of a request, first field in the least
      significant bit. */
  datatype RequestBits = RequestBits(
    start: bv1, apDp: bv1, readWrite: bv1, addr2: bv1,
    addr3: bv1, parity: bv1, stop: bv1, park: bv1)
  {
    /** The byte that overlays the fields. */
    function Value(): bv8
    {
      (start as bv8)
      | ((apDp as bv8) << 1)
      | ((readWrite as bv8) << 2)
      | ((addr2 as bv8) << 3)
      | ((addr3 as bv8) << 4)
      | ((parity as bv8) << 5)
      | ((stop as bv8) << 6)
      | ((park as bv8) << 7)
    }
  }

  /** The fields a byte overlays. */
  function BitsOf(value: bv8): (b: RequestBits)
    ensures b.Value() == value
  {
    RequestBits(
      (value & 1) as bv1, ((value >> 1) & 1) as bv1,
      ((value >> 2) & 1) as bv1, ((value >> 3) & 1) as bv1,
      ((value >> 4) & 1) as bv1, ((value >> 5) & 1) as bv1,
      ((value >> 6) & 1) as bv1, ((value >> 7) & 1) as bv1)
  }

  /** The overlay is a bijection: reading the fields of a packed byte gives
      back the fields. */
  lemma BitsOfValue(b: RequestBits)
    ensures BitsOf(b.Value()) == b
  {
  }

  /** The header fields `Request.__init__` assigns: start 1, APnDP from
      `ap`, RnW 1 for a read, A[3:2] from the two low bits of `address`
      (floor shifts, so a negative index wraps as in Python), parity the
      XOR of those four, stop 0, park 1. */
  function HeaderBits(address: int, ap: bool, isRead: bool): RequestBits
  {
    var apDp: bv1 := if ap then 1 else 0;
    var readWrite: bv1 := if isRead then 1 else 0;
    var addr2 := (address % 2) as bv1;
    var addr3 := ((address / 2) % 2) as bv1;
    RequestBits(1, apDp, readWrite, addr2, addr3, apDp ^ readWrite ^ addr2 ^ addr3, 0, 1)
  }

  /** What a well-formed header says: register index A[3:2] (0 to 3), the
      port, and the direction. */
  datatype Header = Header(index: int, ap: bool, isRead: bool)

  /** Reads a header byte: `None` unless start is 1, stop 0, park 1 and the
      parity bit is the XOR of APnDP, RnW, A2 and A3. */
  function Decode(value: bv8): Option<Header>
  {
    var b := BitsOf(value);
    if b.start == 1 && b.stop == 0 && b.park == 1
       && b.parity == b.apDp ^ b.readWrite ^ b.addr2 ^ b.addr3
    then Some(Header(b.addr2 as int + 2 * (b.addr3 as int), b.apDp == 1, b.readWrite == 1))
    else None
  }

  /** The header byte for a request to register `address` of the access
      port (`ap`) or the debug port, reading or writing. Bit 0 (start) is 1,
      bit 6 (stop) 0, bit 7 (park) 1, bit 5 is the XOR of bits 1 to 4, and
      decoding gives back the port, the direction and `address` modulo 4. */
  function Encode(address: int, ap: bool, isRead: bool): (h: bv8)
    ensures h & 0x01 == 0x01 && h & 0x40 == 0 && h & 0x80 == 0x80
    ensures (h >> 5) & 1 == ((h >> 1) ^ (h >> 2) ^ (h >> 3) ^ (h >> 4)) & 1
    ensures (h >> 1) & 1 == (if ap then 1 else 0)
    ensures (h >> 2) & 1 == (if isRead then 1 else 0)
    ensures Decode(h) == Some(Header(address % 4, ap, isRead))
  {
    var b := HeaderBits(address, ap, isRead);
    BitsOfValue(b);
    assert (address % 2) + 2 * ((address / 2) % 2) == address % 4;
    b.Value()
  }

  /** Only the two low bits of the register index reach the header. */
  lemma {:induction false} EncodeLowBits(address: int, ap: bool, isRead: bool)
    ensures Encode(address, ap, isRead) == Encode(address % 4, ap, isRead)
  {
    DecodeEncode(Encode(address, ap, isRead));
  }

  /** Every byte that decodes is the encoding of what it decodes to: a
      well-formed header is determined by index, port and direction. */
  lemma DecodeEncode(value: bv8)
    ensures Decode(value).Some? ==>
      var x := Decode(value).value;
      0 <= x.index < 4 && Encode(x.index, x.ap, x.isRead) == value
  {
    if Decode(value).Some? {
      var b := BitsOf(value);
      var x := Decode(value).value;
      assert x.index % 2 == b.addr2 as int && (x.index / 2) % 2 == b.addr3 as int;
      assert HeaderBits(x.index, x.ap, x.isRead) == b;
    }
  }

  /** The header bytes the unit tests expect, for every index, port and
      direction. */
  lemma EncodeTable()
    ensures Encode(0, false, true) == 165 && Encode(1, false, true) == 141
    ensures Encode(2, false, true) == 149 && Encode(3, false, true) == 189
    ensures Encode(0, true, true) == 135 && Encode(1, true, true) == 175
    ensures Encode(2, true, true) == 183 && Encode(3, true, true) == 159
    ensures Encode(0, false, false) == 129 && Encode(1, false, false) == 169
    ensures Encode(2, false, false) == 177 && Encode(3, false, false) == 153
    ensures Encode(0, true, false) == 163 && Encode(1, true, false) == 139
    ensures Encode(2, true, false) == 147 && Encode(3, true, false) == 187
    ensures Encode(4, false, true) == 165 && Encode(4, true, true) == 135
  {
  }

  /** Bit `k` of a byte, as the number 0 or 1. */
  function BitAt(h: bv8, k: nat): (b: nat)
    requires k < 8
    ensures b <= 1
  {
    if (h >> k) & 1 == 1 then 1 else 0
  }

  /** Bits 1 to 5 of a byte, read as a number, are the sum of those bits
      weighted by powers of two. */
  lemma {:induction false} FiveBitsValue(h: bv8)
    ensures ((h >> 1) & 0x1F) as int ==
      BitAt(h, 1) + 2 * BitAt(h, 2) + 4 * BitAt(h, 3) + 8 * BitAt(h, 4) + 16 * BitAt(h, 5)
  {
  }

  /** A byte whose bit 5 is the XOR of bits 1 to 4 holds an even number
      of ones in bits 1 to 5. */
  lemma {:induction false} XorBitEvenOnes(h: bv8)
    requires (h >> 5) & 1 == ((h >> 1) ^ (h >> 2) ^ (h >> 3) ^ (h >> 4)) & 1
    ensures Parity(((h >> 1) & 0x1F) as int) == 0
  {
    FiveBitsValue(h);
    PopcountFiveBits(BitAt(h, 1), BitAt(h, 2), BitAt(h, 3), BitAt(h, 4), BitAt(h, 5));
    assert (BitAt(h, 1) + BitAt(h, 2) + BitAt(h, 3) + BitAt(h, 4) + BitAt(h, 5)) % 2 == 0;
  }

  /** Bits 1 to 5 of every header (APnDP, RnW, A2, A3 and parity) hold an
      even number of ones. */
  lemma HeaderEvenOnes(address: int, ap: bool, isRead: bool)
    ensures Parity(((Encode(address, ap, isRead) >> 1) & 0x1F) as int) == 0
  {
    XorBitEvenOnes(Encode(address, ap, isRead));
  }

  /** A request: its header fields and, for a write, the data word. RnW is
      1 exactly when no data is supplied. */
  datatype Request = Request(bits: RequestBits, data: Option<int>) {
    function Value(): bv8 { bits.Value() }
  }

  /** `Request.__init__`. */
  function NewRequest(address: int, ap: bool, data: Option<int>): (r: Request)
    ensures r.Value() == Encode(address, ap, data.None?)
    ensures r.data == data
  {
    Request(HeaderBits(address, ap, data.None?), data)
  }

  /** `ReadRequest(address, ap)`. */
  function ReadRequest(address: int, ap: bool): (r: Request)
    ensures Decode(r.Value()) == Some(Header(address % 4, ap, true))
    ensures r.data.None?
  {
    NewRequest(address, ap, None)
  }

  /** `WriteRequest(address, ap, data)`. */
  function WriteRequest(address: int, ap: bool, data: int): (r: Request)
    ensures Decode(r.Value()) == Some(Header(address % 4, ap, false))
    ensures r.data == Some(data)
  {
    NewRequest(address, ap, Some(data))
  }

  // ---------------------------------------------------------------------
  // Transport
  // ---------------------------------------------------------------------

  /** One call on the probe: `swd_write8(mask, value)`,
      `swd_write32(mask, value)`, `swd_write(mask, value, nbits)`,
      `swd_read8(offset)` or `swd_read32(offset)`. */
  datatype Event =
    | Write8(mask: int, value: int)
    | Write32(mask: int, value: int)
    | WriteBits(mask: int, value: int, nbits: int)
    | Read8(offset: int)
    | Read32(offset: int)

  /** The J-Link probe as the codec sees it: every call is appended to
      `trace`, and what a call returns is `reply(k, call)` for the call at
      position `k` of the trace. */
  class Probe {
    var trace: seq<Event>
    const reply: (nat, Event) -> int

    constructor (reply: (nat, Event) -> int)
      ensures trace == [] && this.reply == reply
    {
      trace := [];
      this.reply := reply;
    }

    method SwdWrite8(mask: int, value: int)
      modifies this
      ensures trace == old(trace) + [Write8(mask, value)]
    {
      trace := trace + [Write8(mask, value)];
    }

    method SwdWrite32(mask: int, value: int)
      modifies this
      ensures trace == old(trace) + [Write32(mask, value)]
    {
      trace := trace + [Write32(mask, value)];
    }

    /** Clocks `nbits` bits and returns the pipeline offset of their
        response bits. */
    method SwdWrite(mask: int, value: int, nbits: int) returns (offset: int)
      modifies this
      ensures trace == old(trace) + [WriteBits(mask, value, nbits)]
      ensures offset == reply(|old(trace)|, WriteBits(mask, value, nbits))
    {
      offset := reply(|trace|, WriteBits(mask, value, nbits));
      trace := trace + [WriteBits(mask, value, nbits)];
    }

    method SwdRead8(offset: int) returns (v: int)
      modifies this
      ensures trace == old(trace) + [Read8(offset)]
      ensures v == reply(|old(trace)|, Read8(offset))
    {
      v := reply(|trace|, Read8(offset));
      trace := trace + [Read8(offset)];
    }

    method SwdRead32(offset: int) returns (v: int)
      modifies this
      ensures trace == old(trace) + [Read32(offset)]
      ensures v == reply(|old(trace)|, Read32(offset))
    {
      v := reply(|trace|, Read32(offset));
      trace := trace + [Read32(offset)];
    }
  }

  // ---------------------------------------------------------------------
  // Transactions
  // ---------------------------------------------------------------------

  /** The calls of the request phase: the header byte with mask 0xFF, then
      three bits clocked for the acknowledge. */
  function RequestTrace(header: bv8): seq<Event>
  {
    [Write8(0xFF, header as int), WriteBits(0, 0, 3)]
  }

  /** The calls of a read: the request phase, 32 and 8 bits of idle clock,
      the status byte at `ack`, the data word at `ack + 3` and, only when
      the status is ACK, the parity byte at `ack + 35`. */
  function ReadTrace(header: bv8, ack: int, status: int): (t: seq<Event>)
    ensures |t| == (if status == STATUS_ACK then 7 else 6)
    ensures t[..2] == RequestTrace(header)
  {
    RequestTrace(header)
    + [Write32(0, 0), Write8(0xFC, 0), Read8(ack), Read32(ack + 3)]
    + (if status == STATUS_ACK then [Read8(ack + 35)] else [])
  }

  /** How a read is classified from the raw status byte, the data word and
      the raw parity byte. The status is the low three bits of the status
      byte and the data is always carried. Only an ACK computes the parity
      of the data, which raises `ValueError` for a negative word; a
      mismatch with the low bit of the parity byte gives INVALID, and any
      other outcome keeps the masked status, so INVALID never comes from a
      WAIT or FAULT. */
  function ReadOutcome(rawStatus: int, data: int, rawParity: int): (r: Result<Response, Error>)
    ensures r.Failure? <==> rawStatus % 8 == STATUS_ACK && data < 0
    ensures r.Failure? ==> r.error == ValueError(Utils.PARITY_MESSAGE)
    ensures r.Success? ==> r.value.data == Some(data)
    ensures r.Success? ==>
      (r.value.Invalid() <==> rawStatus % 8 == STATUS_ACK && Parity(data) != rawParity % 2)
    ensures r.Success? && !r.value.Invalid() ==> r.value.status == rawStatus % 8
    ensures r.Success? && r.value.Ack() ==> Parity(data) == rawParity % 2
  {
    var status := rawStatus % 8;
    if status == STATUS_ACK && data < 0 then
      Failure(ValueError(Utils.PARITY_MESSAGE))
    else if status == STATUS_ACK && Parity(data) != rawParity % 2 then
      Success(Response(STATUS_INVALID, Some(data)))
    else
      Success(Response(status, Some(data)))
  }

  /** The calls of a write: the request phase, a 2-bit turnaround, the
      data word with mask 0xFFFFFFFF, then its parity byte and the status
      byte at `ack`. A negative word stops the transaction after the data
      phase, where `calculate_parity` raises. */
  function WriteTrace(header: bv8, ack: int, data: int): (t: seq<Event>)
    ensures |t| == (if data >= 0 then 6 else 4)
    ensures t[..2] == RequestTrace(header)
  {
    RequestTrace(header)
    + [WriteBits(0, 0, 2), Write32(0xFFFFFFFF, data)]
    + (if data >= 0 then [Write8(0xFF, Parity(data)), Read8(ack)] else [])
  }

  /** How a write is classified: the low three bits of the status byte and
      no data, unless the parity of a negative word raised. */
  function WriteOutcome(data: int, rawStatus: int): (r: Result<Response, Error>)
    ensures r.Success? <==> data >= 0
    ensures r.Failure? ==> r.error == ValueError(Utils.PARITY_MESSAGE)
    ensures r.Success? ==> r.value.status == rawStatus % 8 && r.value.data.None?
    ensures r.Success? ==> !r.value.Invalid()
  {
    if data < 0 then Failure(ValueError(Utils.PARITY_MESSAGE))
    else Success(Response(rawStatus % 8, None))
  }

  /** `Request.send`: sends the header byte and clocks the three
      acknowledge bits; returns the offset of the acknowledge. */
  method Send(req: Request, jlink: Probe) returns (ack: int)
    modifies jlink
    ensures jlink.trace == old(jlink.trace) + RequestTrace(req.Value())
    ensures ack == jlink.reply(|old(jlink.trace)| + 1, WriteBits(0, 0, 3))
  {
    jlink.SwdWrite8(0xFF, req.Value() as int);
    ack := jlink.SwdWrite(0, 0, 3);
  }

  /** `ReadRequest.send`. */
  method SendRead(req: Request, jlink: Probe) returns (r: Result<Response, Error>)
    modifies jlink
    ensures
      var n := |old(jlink.trace)|;
      var ack := jlink.reply(n + 1, WriteBits(0, 0, 3));
      var rawStatus := jlink.reply(n + 4, Read8(ack));
      var data := jlink.reply(n + 5, Read32(ack + 3));
      var rawParity := jlink.reply(n + 6, Read8(ack + 35));
      && jlink.trace == old(jlink.trace) + ReadTrace(req.Value(), ack, rawStatus % 8)
      && r == ReadOutcome(rawStatus, data, rawParity)
  {
    ghost var t0 := jlink.trace;
    ghost var n := |t0|;
    var ack := Send(req, jlink);
    jlink.SwdWrite32(0, 0);
    jlink.SwdWrite8(0xFC, 0);
    assert jlink.trace == t0 + RequestTrace(req.Value()) + [Write32(0, 0), Write8(0xFC, 0)];
    assert |jlink.trace| == n + 4;
    var status := jlink.SwdRead8(ack);
    ghost var rawStatus := status;
    assert rawStatus == jlink.reply(n + 4, Read8(ack));
    status := status % 8;
    var data := jlink.SwdRead32(ack + 3);
    assert data == jlink.reply(n + 5, Read32(ack + 3));
    ghost var t1 := jlink.trace;
    assert t1 == t0 + RequestTrace(req.Value()) + [Write32(0, 0), Write8(0xFC, 0), Read8(ack), Read32(ack + 3)];
    if status == STATUS_ACK {
      var parity := jlink.SwdRead8(ack + 35);
      ghost var rawParity := parity;
      assert rawParity == jlink.reply(n + 6, Read8(ack + 35));
      assert jlink.trace == old(jlink.trace) + ReadTrace(req.Value(), ack, status);
      parity := parity % 2;
      var expected := Utils.CalculateParity(PyInt(data));
      if expected.Failure? {
        r := Failure(expected.error);
      } else if expected.value != parity {
        r := Success(Response(STATUS_INVALID, Some(data)));
      } else {
        r := Success(Response(status, Some(data)));
      }
      assert r == ReadOutcome(rawStatus, data, rawParity);
    } else {
      assert jlink.trace == old(jlink.trace) + ReadTrace(req.Value(), ack, status);
      r := Success(Response(status, Some(data)));
    }
  }

  /** `WriteRequest.send`, for a request built with a data word. */
  method SendWrite(req: Request, jlink: Probe) returns (r: Result<Response, Error>)
    requires req.data.Some?
    modifies jlink
    ensures
      var n := |old(jlink.trace)|;
      var ack := jlink.reply(n + 1, WriteBits(0, 0, 3));
      var rawStatus := jlink.reply(n + 5, Read8(ack));
      && jlink.trace == old(jlink.trace) + WriteTrace(req.Value(), ack, req.data.value)
      && r == WriteOutcome(req.data.value, rawStatus)
  {
    ghost var t0 := jlink.trace;
    ghost var n := |t0|;
    var ack := Send(req, jlink);
    var _ := jlink.SwdWrite(0, 0, 2);
    var data := req.data.value;
    jlink.SwdWrite32(0xFFFFFFFF, data);
    assert jlink.trace == t0 + RequestTrace(req.Value()) + [WriteBits(0, 0, 2), Write32(0xFFFFFFFF, data)];
    var parity := Utils.CalculateParity(PyInt(data));
    if parity.Failure? {
      return Failure(parity.error);
    }
    jlink.SwdWrite8(0xFF, parity.value);
    assert |jlink.trace| == n + 5;
    var status := jlink.SwdRead8(ack);
    assert status == jlink.reply(n + 5, Read8(ack));
    return Success(Response(status % 8, None));
  }
}
