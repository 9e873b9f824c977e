/**
 * The hardware the firmware talks to, reduced to what the drivers can observe:
 * an I2C bus whose writes are acknowledged or not, whose reads deliver bytes,
 * and the thread's blocking sleeps. Every transfer and every sleep is appended
 * to a trace, so a driver's contract can say exactly which frames it put on
 * the wire and in what order. What the bus answers is not computed: it comes
 * from two oracles fixed when the bus is created.
 */
module Hardware {

  type Byte = bv8

  /** One observable step: a write (with whether the device acknowledged it),
      a read (with the bytes it delivered), or a blocking sleep of `ms` milliseconds. */
  datatype Event =
    | I2CWrite(addr: bv32, bytes: seq<Byte>, acked: bool)
    | I2CRead(addr: bv32, bytes: seq<Byte>)
    | Sleep(ms: int)

  /** The millisecond count `ThisThread::sleep_for` receives when handed a
      signed value: its parameter is an unsigned 32-bit integer, so the
      argument is taken modulo 2^32 and a negative one becomes a very long wait. */
  function SleepCount(ms: int): (count: int)
    ensures 0 <= count < 0x1_0000_0000
    ensures (ms - count) % 0x1_0000_0000 == 0
    ensures 0 <= ms < 0x1_0000_0000 ==> count == ms
  {
    ms % 0x1_0000_0000
  }

  class Board {
    /** Everything that happened so far, oldest first. */
    var trace: seq<Event>
    /** Oracle: the write that becomes event number k of the trace is refused (NACK) iff nack(k). */
    const nack: nat -> bool
    /** Oracle: byte j delivered by the read that becomes event number k of the trace. */
    const readByte: (nat, nat) -> Byte

    constructor (nack: nat -> bool, readByte: (nat, nat) -> Byte)
      ensures trace == [] && this.nack == nack && this.readByte == readByte
    {
      trace := [];
      this.nack := nack;
      this.readByte := readByte;
    }

    /** The bytes the read that becomes event number k delivers when it asks for `count` bytes. */
    function Incoming(k: nat, count: nat): (data: seq<Byte>)
      ensures |data| == count
      ensures forall j :: 0 <= j < count ==> data[j] == readByte(k, j)
    {
      seq(count, j requires 0 <= j < count => readByte(k, j))
    }

    /** I2C::write: puts `bytes` on the wire; like the bus API, answers non-zero
        (here: true) when the device did not acknowledge. */
    method Write(addr: bv32, bytes: seq<Byte>) returns (failed: bool)
      modifies this
      ensures failed == nack(|old(trace)|)
      ensures trace == old(trace) + [I2CWrite(addr, bytes, !failed)]
    {
      failed := nack(|trace|);
      trace := trace + [I2CWrite(addr, bytes, !failed)];
    }

    /** I2C::read of `count` bytes from `addr`. */
    method Read(addr: bv32, count: nat) returns (data: seq<Byte>)
      modifies this
      ensures data == Incoming(|old(trace)|, count)
      ensures trace == old(trace) + [I2CRead(addr, data)]
    {
      data := Incoming(|trace|, count);
      trace := trace + [I2CRead(addr, data)];
    }

    /** ThisThread::sleep_for(ms): the unsigned count it receives is recorded,
        never actually waited for. The sleeps share the bus trace so that one
        sequence orders every write against the delays around it (a pump
        run's start, wait and stop). */
    method SleepFor(ms: int)
      modifies this
      ensures trace == old(trace) + [Sleep(SleepCount(ms))]
    {
      trace := trace + [Sleep(SleepCount(ms))];
    }
  }
}
