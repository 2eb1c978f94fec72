/** The SWD unit tests as clients of the transaction contracts: each builds
    a probe whose replies are fixed per kind of call, sends one request and
    checks the calls made and the response. */
module SwdScenarios {
  import opened Wrappers
  import opened Values
  import opened BitCount
  import opened Swd

  /** A probe stub: `swd_write` answers `ack`, `swd_read8` answers
      `status`, `swd_read32` answers `data`. */
  function Stub(ack: int, status: int, data: int): (nat, Event) -> int
  {
    (k: nat, e: Event) =>
      if e.WriteBits? then ack else if e.Read8? then status else if e.Read32? then data else 0
  }

  /** A read answered with WAIT: no parity read, status WAIT. */
  method ReadWait()
  {
    var jlink := new Probe(Stub(1, STATUS_WAIT, 2));
    var req := ReadRequest(0, true);
    var r := SendRead(req, jlink);
    assert r == Success(Response(STATUS_WAIT, Some(2)));
    assert r.value.Wait() && !r.value.Ack();
    assert jlink.trace == [
      Write8(0xFF, 135), WriteBits(0, 0, 3), Write32(0, 0), Write8(0xFC, 0),
      Read8(1), Read32(4)];
  }

  /** A read answered with ACK and data 1 whose parity bit (1) matches. */
  method ReadAck()
  {
    var jlink := new Probe(Stub(1, STATUS_ACK, 1));
    var req := ReadRequest(0, true);
    var r := SendRead(req, jlink);
    assert Parity(1) == 1;
    assert r == Success(Response(STATUS_ACK, Some(1)));
    assert jlink.trace == [
      Write8(0xFF, 135), WriteBits(0, 0, 3), Write32(0, 0), Write8(0xFC, 0),
      Read8(1), Read32(4), Read8(36)];
  }

  /** A read answered with ACK and data 3 (parity 0) whose parity bit reads
      back as 1: INVALID, the data still carried. */
  method ReadParityMismatch()
  {
    var jlink := new Probe(Stub(1, STATUS_ACK, 3));
    var req := ReadRequest(0, true);
    var r := SendRead(req, jlink);
    assert Parity(3) == 0;
    assert r == Success(Response(STATUS_INVALID, Some(3)));
    assert r.value.Invalid() && !r.value.Ack();
    assert |jlink.trace| == 7 && jlink.trace[6] == Read8(36);
  }

  /** A write of 2 to AP register 0 with the acknowledge at offset 2, the
      status byte reading 1. */
  method WriteAck()
  {
    var jlink := new Probe(Stub(2, 1, 0));
    var req := WriteRequest(0, true, 2);
    var r := SendWrite(req, jlink);
    assert Parity(2) == 1;
    assert r == Success(Response(STATUS_ACK, None));
    assert jlink.trace == [
      Write8(0xFF, 163), WriteBits(0, 0, 3), WriteBits(0, 0, 2),
      Write32(0xFFFFFFFF, 2), Write8(0xFF, 1), Read8(2)];
  }

  /** A write to AP register 2 answered with FAULT. */
  method WriteFault()
  {
    var jlink := new Probe(Stub(5, STATUS_FAULT, 0));
    var req := WriteRequest(2, true, 6);
    var r := SendWrite(req, jlink);
    assert r.Success? && r.value.Fault();
    assert jlink.trace[..4] == [
      Write8(0xFF, Encode(2, true, false) as int), WriteBits(0, 0, 3), WriteBits(0, 0, 2),
      Write32(0xFFFFFFFF, 6)];
    assert jlink.trace[5] == Read8(5);
  }

  /** A write of a negative word: the data phase is clocked, then the
      parity computation raises and nothing more is sent. */
  method WriteNegative()
  {
    var jlink := new Probe(Stub(1, STATUS_ACK, 0));
    var req := WriteRequest(1, false, -1);
    var r := SendWrite(req, jlink);
    assert r.Failure?;
    assert |jlink.trace| == 4 && jlink.trace[3] == Write32(0xFFFFFFFF, -1);
  }
}
