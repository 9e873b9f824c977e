/**
 * The peristaltic-pump H-bridge driver (class pPump in hBridge.h / hBridge.cpp).
 *
 * The driver talks to the bridge over I2C with two-byte frames: the control
 * register 0x00 followed by one control byte, either `(speed << 2) | (1 + dir)`
 * to run or the stop code 0b11. It keeps a running flag that it changes only
 * after the bridge acknowledged the frame.
 */
module HBridge {
  import opened Hardware

  // Constants of hBridge.h.
  const DefaultCalValue: int := 1000
  const DefSpeed: Byte := 0x3F
  const WriteReg: Byte := 0x00
  const StopCode: Byte := 0x03
  /** The settle delay after a successful start or stop. */
  const SettleMs: int := 10
  /** The length of the manual calibration run. */
  const CalibrationRunMs: int := 9990

  /** status_t. */
  datatype Status = StatusOk | NoData | TxError | RxError | TxTimeout | RxTimeout | Unknown

  /** The numeric value of a status_t: zero for success and a distinct negative
      number for every error, so that "non-zero" is a sound test for failure. */
  function Code(s: Status): (c: int)
    ensures c == 0 <==> s == StatusOk
    ensures s != StatusOk ==> -1005 <= c <= -1000
  {
    match s
    case StatusOk => 0
    case NoData => -1000
    case TxError => -1001
    case RxError => -1002
    case TxTimeout => -1003
    case RxTimeout => -1004
    case Unknown => -1005
  }

  lemma CodeInjective(a: Status, b: Status)
    ensures Code(a) == Code(b) ==> a == b
  {
  }

  /** `0b1 + dir` with the bool promoted to 0 or 1. */
  function DirBits(dir: bool): Byte
  {
    1 + if dir then 1 else 0
  }

  /** The control byte that starts the pump: the speed shifted into bits 2..7
      (anything above bit 7 is cut off when the int is stored into a char) and
      the direction in the low two bits. */
  function StartByte(speed: Byte, dir: bool): (b: Byte)
    ensures b & 0x03 == (if dir then 0x02 else 0x01)
    ensures b != StopCode
    ensures speed <= 0x3F ==> b >> 2 == speed && b <= 0xFE
  {
    (speed << 2) | DirBits(dir)
  }

  function StartFrame(speed: Byte, dir: bool): seq<Byte>
  {
    [WriteReg, StartByte(speed, dir)]
  }

  const StopFrame: seq<Byte> := [WriteReg, StopCode]

  /** What `start(dir)` puts on the trace: the start frame, then the settle delay if it was acknowledged. */
  function StartEvents(addr: bv32, speed: Byte, dir: bool, acked: bool): seq<Event>
  {
    [I2CWrite(addr, StartFrame(speed, dir), acked)] + if acked then [Sleep(SettleMs)] else []
  }

  /** What `stop()` puts on the trace: the stop frame, then the settle delay if it was acknowledged. */
  function StopEvents(addr: bv32, acked: bool): seq<Event>
  {
    [I2CWrite(addr, StopFrame, acked)] + if acked then [Sleep(SettleMs)] else []
  }

  /** How long a timed run of `vol` units blocks with calibration factor `cal`. */
  function RunDuration(vol: int, cal: int): int
  {
    vol * cal
  }

  /** A negative volume passes sleep_for a count just below 2^32: with the
      default calibration, one unit of negative volume blocks 4294966296 ms,
      about 49.7 days, with the pump running. */
  lemma NegativeVolumeSleepsLong(vol: int, cal: int)
    requires -0x1_0000_0000 < RunDuration(vol, cal) < 0
    ensures SleepCount(RunDuration(vol, cal)) == RunDuration(vol, cal) + 0x1_0000_0000
    ensures SleepCount(RunDuration(-1, DefaultCalValue)) == 4294966296
  {
  }

  /** The events of a timed run whose start frame was acknowledged. */
  function RunEvents(addr: bv32, speed: Byte, dir: bool, duration: int, stopped: bool): seq<Event>
  {
    [I2CWrite(addr, StartFrame(speed, dir), true), Sleep(duration)] + StopEvents(addr, stopped)
  }

  /** Everything `pump(vol, dir)` puts on the trace: only the refused start
      frame, or a whole run. */
  function PumpEvents(addr: bv32, speed: Byte, dir: bool, duration: int, started: bool, stopped: bool): seq<Event>
  {
    if started then RunEvents(addr, speed, dir, duration, stopped)
    else [I2CWrite(addr, StartFrame(speed, dir), false)]
  }

  /** Everything `calibrate()` puts on the trace. */
  function CalibrationEvents(addr: bv32, speed: Byte, started: bool, stopped: bool): seq<Event>
  {
    StartEvents(addr, speed, true, started) + [Sleep(CalibrationRunMs)] + StopEvents(addr, stopped)
  }

  /** An acknowledged two-byte frame to the control register of the bridge at `addr`. */
  predicate IsAckedControl(e: Event, addr: bv32)
  {
    e.I2CWrite? && e.acked && e.addr == addr && |e.bytes| == 2 && e.bytes[0] == WriteReg
  }

  /** The pump's two-state machine, one bus event at a time: only an acknowledged
      control frame moves it, to Stopped on the stop code and to Running otherwise. */
  function Step(running: bool, addr: bv32, e: Event): bool
  {
    if IsAckedControl(e, addr) then e.bytes[1] != StopCode else running
  }

  /** The state the machine reaches from `running` over the events `t`. */
  function Replay(running: bool, addr: bv32, t: seq<Event>): bool
    decreases |t|
  {
    if t == [] then running else Replay(Step(running, addr, t[0]), addr, t[1..])
  }

  lemma {:induction false} ReplayAppend(running: bool, addr: bv32, t1: seq<Event>, t2: seq<Event>)
    ensures Replay(running, addr, t1 + t2) == Replay(Replay(running, addr, t1), addr, t2)
    decreases |t1|
  {
    if t1 == [] {
      assert t1 + t2 == t2;
    } else {
      assert (t1 + t2)[0] == t1[0];
      assert (t1 + t2)[1..] == t1[1..] + t2;
      ReplayAppend(Step(running, addr, t1[0]), addr, t1[1..], t2);
    }
  }

  /** One more event is one more step of the machine. */
  lemma ReplaySnoc(running: bool, addr: bv32, t: seq<Event>, e: Event)
    ensures Replay(running, addr, t + [e]) == Step(Replay(running, addr, t), addr, e)
  {
    ReplayAppend(running, addr, t, [e]);
    assert [e][1..] == [];
  }

  /** A write the bridge refused does not move the machine. */
  lemma ReplayFailedWrite(running: bool, addr: bv32, bytes: seq<Byte>)
    ensures Replay(running, addr, [I2CWrite(addr, bytes, false)]) == running
  {
    ReplaySnoc(running, addr, [], I2CWrite(addr, bytes, false));
  }

  /** A sleep does not move the machine. */
  lemma ReplaySleep(running: bool, addr: bv32, ms: int)
    ensures Replay(running, addr, [Sleep(ms)]) == running
  {
    ReplaySnoc(running, addr, [], Sleep(ms));
  }

  /** start() leaves the pump running exactly when its frame was acknowledged (or it already ran). */
  lemma ReplayStartEvents(running: bool, addr: bv32, speed: Byte, dir: bool, acked: bool)
    ensures Replay(running, addr, StartEvents(addr, speed, dir, acked)) == (acked || running)
  {
    var w := I2CWrite(addr, StartFrame(speed, dir), acked);
    ReplaySnoc(running, addr, [], w);
    if acked {
      ReplaySnoc(running, addr, [w], Sleep(SettleMs));
    }
  }

  /** stop() leaves the pump stopped when its frame was acknowledged and unchanged otherwise. */
  lemma ReplayStopEvents(running: bool, addr: bv32, acked: bool)
    ensures Replay(running, addr, StopEvents(addr, acked)) == (!acked && running)
  {
    var w := I2CWrite(addr, StopFrame, acked);
    ReplaySnoc(running, addr, [], w);
    if acked {
      ReplaySnoc(running, addr, [w], Sleep(SettleMs));
    }
  }

  /** After an acknowledged start frame, the run ends stopped exactly when the stop frame was acknowledged. */
  lemma ReplayRunEvents(running: bool, addr: bv32, speed: Byte, dir: bool, duration: int, stopped: bool)
    ensures Replay(running, addr, RunEvents(addr, speed, dir, duration, stopped)) == !stopped
  {
    var w := I2CWrite(addr, StartFrame(speed, dir), true);
    ReplaySnoc(running, addr, [], w);
    ReplaySnoc(running, addr, [w], Sleep(duration));
    ReplayAppend(running, addr, [w, Sleep(duration)], StopEvents(addr, stopped));
    ReplayStopEvents(true, addr, stopped);
  }

  /** A timed run leaves the state alone when the start frame was refused and
      ends stopped exactly when the stop frame was acknowledged otherwise. */
  lemma ReplayPumpEvents(running: bool, addr: bv32, speed: Byte, dir: bool, duration: int, started: bool, stopped: bool)
    ensures Replay(running, addr, PumpEvents(addr, speed, dir, duration, started, stopped))
         == (if started then !stopped else running)
  {
    if started {
      ReplayRunEvents(running, addr, speed, dir, duration, stopped);
    } else {
      ReplayFailedWrite(running, addr, StartFrame(speed, dir));
    }
  }

  /** A calibration run ends stopped when the stop frame was acknowledged and
      otherwise where its start left it. */
  lemma ReplayCalibrationEvents(running: bool, addr: bv32, speed: Byte, started: bool, stopped: bool)
    ensures Replay(running, addr, CalibrationEvents(addr, speed, started, stopped))
         == (!stopped && (started || running))
  {
    var t1, t2 := StartEvents(addr, speed, true, started), [Sleep(CalibrationRunMs)];
    ReplayAppend(running, addr, t1 + t2, StopEvents(addr, stopped));
    ReplayAppend(running, addr, t1, t2);
    ReplayStartEvents(running, addr, speed, true, started);
    ReplaySleep(started || running, addr, CalibrationRunMs);
    ReplayStopEvents(started || running, addr, stopped);
  }

  /** Events with no acknowledged control frame leave the state alone. */
  lemma {:induction false} ReplayNoControl(running: bool, addr: bv32, t: seq<Event>)
    requires forall j :: 0 <= j < |t| ==> !IsAckedControl(t[j], addr)
    ensures Replay(running, addr, t) == running
    decreases |t|
  {
    if t != [] {
      assert !IsAckedControl(t[0], addr);
      ReplayNoControl(running, addr, t[1..]);
    }
  }

  /** The state is decided by the last acknowledged control frame alone:
      running exactly when that frame did not carry the stop code. */
  lemma {:induction false} ReplayLastControl(running: bool, addr: bv32, t: seq<Event>, k: nat)
    requires k < |t| && IsAckedControl(t[k], addr)
    requires forall j :: k < j < |t| ==> !IsAckedControl(t[j], addr)
    ensures Replay(running, addr, t) == (t[k].bytes[1] != StopCode)
    decreases |t|
  {
    if k == 0 {
      ReplayNoControl(Step(running, addr, t[0]), addr, t[1..]);
    } else {
      ReplayLastControl(Step(running, addr, t[0]), addr, t[1..], k - 1);
    }
  }

  /** pPump: the bridge's bus address and bus handle, the running flag, the
      calibration factor (time units per unit volume), the duration of the last
      timed run and the 6-bit speed. */
  class PPump {
    /** The uint8_t bus address, widened once to the bus API's int. */
    const pumpAddr: bv32
    const pumpI2C: Board
    var currentState: bool
    var cal: int
    var lastVTime: int
    var currentSpeed: Byte

    /** The speed always fits the six bits the control byte has room for. */
    ghost predicate Valid()
      reads this
    {
      currentSpeed <= 0x3F
    }

    /** Leaves lastVTime unset, as the source does. */
    constructor (boardI2C: Board, addr: Byte)
      ensures Valid()
      ensures pumpAddr == addr as bv32 && pumpI2C == boardI2C
      ensures !currentState && cal == DefaultCalValue && currentSpeed == DefSpeed
    {
      pumpAddr := addr as bv32;
      pumpI2C := boardI2C;
      currentState := false;
      cal := DefaultCalValue;
      currentSpeed := DefSpeed;
    }

    /** Timed run: start, block for vol * cal, record that duration, stop. */
    method Pump(vol: int, dir: bool := true) returns (status: Status)
      requires Valid()
      modifies this`currentState, this`lastVTime, pumpI2C
      ensures Valid()
      ensures var k := |old(pumpI2C.trace)|;
        var started, stopped := !pumpI2C.nack(k), !pumpI2C.nack(k + 2);
        var events := PumpEvents(pumpAddr, currentSpeed, dir, SleepCount(RunDuration(vol, cal)), started, stopped);
        && pumpI2C.trace == old(pumpI2C.trace) + events
        && lastVTime == (if started then RunDuration(vol, cal) else old(lastVTime))
        && currentState == (if started then !stopped else old(currentState))
        && currentState == Replay(old(currentState), pumpAddr, events)
        && status == (if started && stopped then StatusOk else TxError)
    {
      ghost var t0 := pumpI2C.trace;
      var failed := WriteControl(StartByte(currentSpeed, dir));
      if failed {
        ghost var stopped := !pumpI2C.nack(|t0| + 2);
        ReplayPumpEvents(currentState, pumpAddr, currentSpeed, dir, SleepCount(RunDuration(vol, cal)), false, stopped);
        return TxError;
      }
      currentState := true;
      var duration := RunDuration(vol, cal);
      pumpI2C.SleepFor(duration);
      lastVTime := duration;

      failed := WriteControl(StopCode);
      if failed {
        ReplayPumpEvents(old(currentState), pumpAddr, currentSpeed, dir, SleepCount(duration), true, false);
        return TxError;
      }
      currentState := false;
      pumpI2C.SleepFor(SettleMs);
      ReplayPumpEvents(old(currentState), pumpAddr, currentSpeed, dir, SleepCount(duration), true, true);
      return StatusOk;
    }

    /** Fills the two-byte message buffer with the control register and
        `control` and writes it to the bridge (the shared body of every control write). */
    method WriteControl(control: Byte) returns (failed: bool)
      modifies pumpI2C
      ensures failed == pumpI2C.nack(|old(pumpI2C.trace)|)
      ensures pumpI2C.trace == old(pumpI2C.trace) + [I2CWrite(pumpAddr, [WriteReg, control], !failed)]
    {
      var message := new Byte[2];
      message[0] := WriteReg;
      message[1] := control;
      assert message[..] == [WriteReg, control];
      failed := pumpI2C.Write(pumpAddr, message[..]);
    }

    method Start(dir: bool := true) returns (status: Status)
      requires Valid()
      modifies this`currentState, pumpI2C
      ensures Valid()
      ensures var acked := !pumpI2C.nack(|old(pumpI2C.trace)|);
        && pumpI2C.trace == old(pumpI2C.trace) + StartEvents(pumpAddr, currentSpeed, dir, acked)
        && currentState == (acked || old(currentState))
        && currentState == Replay(old(currentState), pumpAddr, StartEvents(pumpAddr, currentSpeed, dir, acked))
        && status == (if acked then StatusOk else TxError)
    {
      var failed := WriteControl(StartByte(currentSpeed, dir));
      if failed {
        ReplayStartEvents(old(currentState), pumpAddr, currentSpeed, dir, false);
        return TxError;
      }
      currentState := true;

      pumpI2C.SleepFor(SettleMs);
      ReplayStartEvents(old(currentState), pumpAddr, currentSpeed, dir, true);
      return StatusOk;
    }

    method Stop() returns (status: Status)
      requires Valid()
      modifies this`currentState, pumpI2C
      ensures Valid()
      ensures var acked := !pumpI2C.nack(|old(pumpI2C.trace)|);
        && pumpI2C.trace == old(pumpI2C.trace) + StopEvents(pumpAddr, acked)
        && currentState == (!acked && old(currentState))
        && currentState == Replay(old(currentState), pumpAddr, StopEvents(pumpAddr, acked))
        && status == (if acked then StatusOk else TxError)
    {
      var failed := WriteControl(StopCode);
      if failed {
        ReplayStopEvents(old(currentState), pumpAddr, false);
        return TxError;
      }

      currentState := false;
      pumpI2C.SleepFor(SettleMs);
      ReplayStopEvents(old(currentState), pumpAddr, true);
      return StatusOk;
    }

    /** A manual calibration run: start, wait 9990 ms, stop, both results ignored. */
    method Calibrate()
      requires Valid()
      modifies this`currentState, pumpI2C
      ensures Valid()
      ensures var k := |old(pumpI2C.trace)|;
        var started := !pumpI2C.nack(k);
        var stopped := !pumpI2C.nack(k + |StartEvents(pumpAddr, currentSpeed, true, started)| + 1);
        var events := CalibrationEvents(pumpAddr, currentSpeed, started, stopped);
        && pumpI2C.trace == old(pumpI2C.trace) + events
        && currentState == (!stopped && (started || old(currentState)))
        && currentState == Replay(old(currentState), pumpAddr, events)
    {
      ghost var t0 := pumpI2C.trace;
      var _ := Start();
      pumpI2C.SleepFor(CalibrationRunMs);
      var _ := Stop();
      ghost var started := !pumpI2C.nack(|t0|);
      ghost var stopped := !pumpI2C.nack(|t0| + |StartEvents(pumpAddr, currentSpeed, true, started)| + 1);
      ReplayCalibrationEvents(old(currentState), pumpAddr, currentSpeed, started, stopped);
    }

    /** The speed is masked to six bits; out-of-range input is truncated, not refused. */
    method SetSpeed(speed: Byte)
      modifies this`currentSpeed
      ensures Valid()
      ensures currentSpeed == speed & 0x3F
    {
      currentSpeed := speed & 0x3F;
    }

    method State() returns (running: bool)
      ensures running == currentState
    {
      running := currentState;
    }

    method LastV() returns (duration: int)
      ensures duration == lastVTime
    {
      duration := lastVTime;
    }
  }
}
