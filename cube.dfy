/**
 * The cube's CAN command dispatcher (main.cpp).
 *
 * A received frame's extended identifier is decoded with bit masks into one of
 * four branches: the pump (read its state, stop it or start it), the two
 * relays (read or write), the voltage/current telemetry and the environment
 * telemetry. Reads enqueue exactly one reply frame; writes change the pump or
 * the relays and reply nothing.
 *
 * The decode is the pure function `Decode`; the branch bodies are the method
 * `Cube.Perform`; `Cube.IncomingData` is the callback itself, the composition
 * of the two. The first test of the chain, `(id & 0x00) == 0x00`, holds for
 * every id, so only pump actions are ever decoded: the other branches are
 * kept as the source writes them and proved unreachable.
 */
module Cube {
  import opened Hardware
  import opened HBridge

  /** The node's CAN address and device type, and the acceptance mask. */
  const CanAddr: bv32 := 0x0002
  const CanDevType: bv32 := 0x0011
  const CanIdMask: bv32 := 0x3F_F800
  /** The H-bridge's I2C address. */
  const HbrAddr: Byte := 0xC0

  /** Command selectors and masks of the identifier's low bits. */
  const PumpStateId: bv32 := 0x00
  const RelayStateId: bv32 := 0x08
  const Relay1Mask: bv32 := 0x02
  const Relay2Mask: bv32 := 0x04
  const VipId: bv32 := 0x10
  const ShtcId: bv32 := 0x11
  const RW: bv32 := 0x01
  const PumpStateMask: bv32 := 0x06
  const PumpDirMask: bv32 := 0x02

  datatype Option<T> = None | Some(value: T)

  /** A CAN data frame: extended identifier and payload bytes. */
  datatype CanMessage = CanMessage(id: bv32, data: seq<Byte>)

  /** Work items on the CAN event queue: decode a received frame, or send a reply. */
  datatype Job = Dispatch(msg: CanMessage) | Publish(msg: CanMessage)

  /** What a command identifier asks for. */
  datatype Action =
    | PumpRead
    | PumpStop
    | PumpStart(dir: bool)
    | RelayRead
    | RelayWrite(relay1: bool, relay2: bool)
    | VipRead
    | EnvRead
    | NoAction

  /** The acceptance filter identifier: device type in bits 17 and up, address in bits 11 to 16. */
  function FilterId(devType: bv32, addr: bv32): (id: bv32)
    ensures devType < 0x20 && addr < 0x40 ==> id & CanIdMask == id
    ensures devType < 0x20 && addr < 0x40 ==> id >> 17 == devType && (id >> 11) & 0x3F == addr
  {
    (devType << 17) | (addr << 11)
  }

  /** The cube's own filter identifier is 0x221000, inside the mask. */
  lemma CubeFilterId()
    ensures FilterId(CanDevType, CanAddr) == 0x22_1000
    ensures FilterId(CanDevType, CanAddr) & CanIdMask == FilterId(CanDevType, CanAddr)
  {
  }

  /** The branch an identifier selects, with the masks applied in the source's order. */
  function Decode(commandId: bv32): (a: Action)
    ensures a.PumpRead? <==> commandId & RW != 0
    ensures a.PumpStop? <==> commandId & RW == 0 && commandId & PumpStateMask == 0
    ensures a.PumpStart? <==> commandId & RW == 0 && commandId & PumpStateMask != 0
    ensures a.PumpStart? ==> a.dir == (commandId & PumpDirMask != 0)
  {
    if commandId & PumpStateId == PumpStateId then
      if commandId & RW != 0 then PumpRead
      else if commandId & PumpStateMask == 0x00 then PumpStop
      else PumpStart(commandId & PumpDirMask != 0)
    else if commandId & RelayStateId == RelayStateId then
      if commandId & RW != 0 then RelayRead
      else RelayWrite(commandId & Relay1Mask != 0, commandId & Relay2Mask != 0)
    else if commandId & VipId == VipId then
      VipRead
    else if commandId & ShtcId == ShtcId then
      EnvRead
    else
      NoAction
  }

  /** The relay, telemetry and fall-through branches are dead code: every identifier decodes to a pump action. */
  lemma OnlyPumpActions(commandId: bv32)
    ensures Decode(commandId) in {PumpRead, PumpStop, PumpStart(false), PumpStart(true)}
  {
    var a := Decode(commandId);
    if a.PumpStart? {
      assert a == PumpStart(a.dir);
    }
  }

  /** A start command whose only state bit is bit 2 starts the pump in the false direction. */
  lemma Bit2StartsReverse()
    ensures Decode(0x04) == PumpStart(false)
    ensures Decode(0x06) == PumpStart(true)
    ensures Decode(0x00) == PumpStop
  {
  }

  /** Even if the chain were reached, an environment request would be taken by the telemetry branch before it. */
  lemma EnvShadowedByVip(commandId: bv32)
    ensures commandId & ShtcId == ShtcId ==> commandId & VipId == VipId
  {
  }

  /** A boolean as the byte a char cast of it gives. */
  function BoolByte(b: bool): (c: Byte)
    ensures c <= 1 && (c == 1 <==> b)
  {
    if b then 1 else 0
  }

  /** The reply to a pump-state read: selector 0x00 and the state as one byte. */
  function PumpStateReply(running: bool): (m: CanMessage)
    ensures m.id == PumpStateId && |m.data| == 1
    ensures m.data[0] <= 1 && (m.data[0] == 1) == running
  {
    CanMessage(PumpStateId, [BoolByte(running)])
  }

  /** The reply to a relay-state read: selector 0x08 and one byte per relay. */
  function RelayStateReply(relay1: bool, relay2: bool): (m: CanMessage)
    ensures m.id == RelayStateId && |m.data| == 2
    ensures m.data[0] <= 1 && m.data[1] <= 1
    ensures (m.data[0] == 1) == relay1 && (m.data[1] == 1) == relay2
  {
    CanMessage(RelayStateId, [BoolByte(relay1), BoolByte(relay2)])
  }

  /** memcpy of `src` into `dst` at offset `off`. */
  function Overlay(dst: seq<Byte>, off: nat, src: seq<Byte>): (r: seq<Byte>)
    requires off + |src| <= |dst|
    ensures |r| == |dst|
    ensures forall j :: 0 <= j < |r| ==> r[j] == if off <= j < off + |src| then src[j - off] else dst[j]
  {
    dst[..off] + src + dst[off + |src|..]
  }

  /** The 8-byte telemetry payload: `first` copied at offset 0, then `second`
      copied at offset 3 over its last byte; `garbage` is the buffer's
      uninitialised content. */
  function TelemetryPayload(first: seq<Byte>, second: seq<Byte>, garbage: seq<Byte>): (p: seq<Byte>)
    requires |first| == 4 && |second| == 4 && |garbage| == 8
    ensures |p| == 8
    ensures p[..3] == first[..3] && p[3..7] == second && p[7] == garbage[7]
  {
    Overlay(Overlay(garbage, 0, first), 3, second)
  }

  /** The last byte of the first value never reaches the wire. */
  lemma FirstValueLastByteLost(a: seq<Byte>, b: seq<Byte>, second: seq<Byte>, garbage: seq<Byte>)
    requires |a| == 4 && |b| == 4 && |second| == 4 && |garbage| == 8
    requires a[..3] == b[..3]
    ensures TelemetryPayload(a, second, garbage) == TelemetryPayload(b, second, garbage)
  {
    var p, q := TelemetryPayload(a, second, garbage), TelemetryPayload(b, second, garbage);
    forall j | 0 <= j < 8
      ensures p[j] == q[j]
    {
      if j < 3 {
        assert p[j] == p[..3][j] && q[j] == q[..3][j];
      } else if j < 7 {
        assert p[j] == p[3..7][j - 3] && q[j] == q[3..7][j - 3];
      }
    }
  }

  /** A telemetry reply: the selector plus one, with the overlapped payload. */
  function TelemetryReply(selector: bv32, first: seq<Byte>, second: seq<Byte>, garbage: seq<Byte>): (m: CanMessage)
    requires |first| == 4 && |second| == 4 && |garbage| == 8
    ensures m.id == selector + 1 && |m.data| == 8
    ensures m.data[..3] == first[..3] && m.data[3..7] == second && m.data[7] == garbage[7]
  {
    CanMessage(selector + 1, TelemetryPayload(first, second, garbage))
  }

  /** The voltage/current reply carries the identifier the environment request uses; the environment reply is 0x12. */
  lemma TelemetryReplyIds()
    ensures VipId + 1 == ShtcId && ShtcId + 1 == 0x12
  {
  }

  /** The firmware's global state: the pump driver, the relay outputs and
      their remembered states, the telemetry values, the deadman counter and
      the CAN event queue. */
  class Cube {
    const pump: PPump
    /** Remembered relay states, read back by a relay-state read. */
    const rState: array<bool>
    /** Output levels of the two relay pins. */
    const relay: array<bool>
    /** The bytes of the float globals `v` and `i`. */
    var v: seq<Byte>
    var i: seq<Byte>
    /** Seconds since the last received frame. */
    var elapsed: nat
    var queue: seq<Job>

    ghost predicate Valid()
      reads this, pump
    {
      && pump.Valid()
      && rState.Length == 2 && relay.Length == 2 && rState != relay
      && |v| == 4 && |i| == 4
    }

    /** The global initialisers: the pump at 0xC0 on `bus`, relays off, floats zero, counter zero, empty queue. */
    constructor (bus: Board)
      ensures Valid() && fresh(pump) && fresh(rState) && fresh(relay)
      ensures pump.pumpI2C == bus && pump.pumpAddr == 0xC0 && !pump.currentState
      ensures rState[..] == [false, false] && relay[..] == [false, false]
      ensures v == [0, 0, 0, 0] && i == [0, 0, 0, 0]
      ensures elapsed == 0 && queue == []
    {
      pump := new PPump(bus, HbrAddr);
      rState := new bool[2](_ => false);
      relay := new bool[2](_ => false);
      v := [0, 0, 0, 0];
      i := [0, 0, 0, 0];
      elapsed := 0;
      queue := [];
    }

    /** CAN_cb: a frame read from the controller resets the deadman counter and
        queues one dispatch; when nothing was read, nothing changes. */
    method CanCallback(received: Option<CanMessage>)
      modifies this`elapsed, this`queue
      ensures received.Some? ==> elapsed == 0 && queue == old(queue) + [Dispatch(received.value)]
      ensures received.None? ==> elapsed == old(elapsed) && queue == old(queue)
    {
      if received.Some? {
        elapsed := 0;
        queue := queue + [Dispatch(received.value)];
      }
    }

    /** The relay-state read's buffer, filled one relay at a time. */
    method RelayStateBytes() returns (buffer: seq<Byte>)
      requires Valid()
      ensures buffer == RelayStateReply(rState[0], rState[1]).data
    {
      var b := new Byte[2];
      for j := 0 to 2
        invariant forall m :: 0 <= m < j ==> b[m] == BoolByte(rState[m])
      {
        b[j] := BoolByte(rState[j]);
      }
      buffer := b[..];
    }

    /** The branch bodies of CAN_incoming_data_cb, for any action. The
        environment values `temp` and `hum` are what the humidity sensor last
        measured; `garbage` is the uninitialised reply buffer. */
    method Perform(action: Action, temp: seq<Byte>, hum: seq<Byte>, garbage: seq<Byte>)
      requires Valid() && |temp| == 4 && |hum| == 4 && |garbage| == 8
      modifies this`queue, rState, relay, pump`currentState, pump.pumpI2C
      ensures Valid()
      ensures action.PumpRead? ==>
        && queue == old(queue) + [Publish(PumpStateReply(old(pump.currentState)))]
        && pump.currentState == old(pump.currentState) && pump.pumpI2C.trace == old(pump.pumpI2C.trace)
      ensures action.PumpStop? ==>
        var acked := !pump.pumpI2C.nack(|old(pump.pumpI2C.trace)|);
        && queue == old(queue)
        && pump.pumpI2C.trace == old(pump.pumpI2C.trace) + StopEvents(pump.pumpAddr, acked)
        && pump.currentState == (!acked && old(pump.currentState))
      ensures action.PumpStart? ==>
        var acked := !pump.pumpI2C.nack(|old(pump.pumpI2C.trace)|);
        && queue == old(queue)
        && pump.pumpI2C.trace == old(pump.pumpI2C.trace) + StartEvents(pump.pumpAddr, pump.currentSpeed, action.dir, acked)
        && pump.currentState == (acked || old(pump.currentState))
      ensures action.RelayRead? ==>
        queue == old(queue) + [Publish(RelayStateReply(old(rState[0]), old(rState[1])))]
      ensures action.RelayWrite? ==>
        queue == old(queue) && rState[..] == relay[..] == [action.relay1, action.relay2]
      ensures action.VipRead? ==>
        queue == old(queue) + [Publish(TelemetryReply(VipId, v, i, garbage))]
      ensures action.EnvRead? ==>
        queue == old(queue) + [Publish(TelemetryReply(ShtcId, temp, hum, garbage))]
      ensures action.NoAction? ==> queue == old(queue)
      ensures !action.RelayWrite? ==> rState[..] == old(rState[..]) && relay[..] == old(relay[..])
      ensures !(action.PumpStop? || action.PumpStart?) ==>
        pump.currentState == old(pump.currentState) && pump.pumpI2C.trace == old(pump.pumpI2C.trace)
    {
      match action
      case PumpRead =>
        var running := pump.State();
        queue := queue + [Publish(CanMessage(PumpStateId, [BoolByte(running)]))];
      case PumpStop =>
        var _ := pump.Stop();
      case PumpStart(dir) =>
        var _ := pump.Start(dir);
      case RelayRead =>
        var buffer := RelayStateBytes();
        queue := queue + [Publish(CanMessage(RelayStateId, buffer))];
      case RelayWrite(relay1, relay2) =>
        relay[0] := relay1;
        rState[0] := relay[0];
        relay[1] := relay2;
        rState[1] := relay[1];
      case VipRead =>
        var buffer := Overlay(Overlay(garbage, 0, v), 3, i);
        queue := queue + [Publish(CanMessage(VipId + 1, buffer))];
      case EnvRead =>
        var buffer := Overlay(Overlay(garbage, 0, temp), 3, hum);
        queue := queue + [Publish(CanMessage(ShtcId + 1, buffer))];
      case NoAction =>
    }

    /** CAN_incoming_data_cb: decodes the identifier and runs the selected branch.
        Odd identifiers reply with the pump state; even ones stop or start the
        pump and reply nothing; the relays never change. */
    method IncomingData(msg: CanMessage, temp: seq<Byte>, hum: seq<Byte>, garbage: seq<Byte>)
      requires Valid() && |temp| == 4 && |hum| == 4 && |garbage| == 8
      modifies this`queue, rState, relay, pump`currentState, pump.pumpI2C
      ensures Valid()
      ensures rState[..] == old(rState[..]) && relay[..] == old(relay[..])
      ensures msg.id & RW != 0 ==>
        && queue == old(queue) + [Publish(PumpStateReply(old(pump.currentState)))]
        && pump.currentState == old(pump.currentState) && pump.pumpI2C.trace == old(pump.pumpI2C.trace)
      ensures msg.id & RW == 0 && msg.id & PumpStateMask == 0 ==>
        var acked := !pump.pumpI2C.nack(|old(pump.pumpI2C.trace)|);
        && queue == old(queue)
        && pump.pumpI2C.trace == old(pump.pumpI2C.trace) + StopEvents(pump.pumpAddr, acked)
        && pump.currentState == (!acked && old(pump.currentState))
      ensures msg.id & RW == 0 && msg.id & PumpStateMask != 0 ==>
        var acked := !pump.pumpI2C.nack(|old(pump.pumpI2C.trace)|);
        var dir := msg.id & PumpDirMask != 0;
        && queue == old(queue)
        && pump.pumpI2C.trace == old(pump.pumpI2C.trace) + StartEvents(pump.pumpAddr, pump.currentSpeed, dir, acked)
        && pump.currentState == (acked || old(pump.currentState))
    {
      Perform(Decode(msg.id), temp, hum, garbage);
    }
  }
}
