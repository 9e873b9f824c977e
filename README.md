# Cube v4 firmware core in Dafny

This project models the control core of the "cube" node firmware. The cube is
an mbed board that sits on a CAN bus. It drives a peristaltic pump through an
I2C H-bridge, switches two relays and reads an INA219 current/voltage monitor.
Three pieces are modelled:

- **The pump driver** `pPump` (`hbridge.dfy`, module `HBridge`). It talks to
  the bridge in two-byte frames: control register `0x00`, then either the start
  byte `(speed << 2) | (1 + dir)` or the stop code `0b11`. So dir=true gives
  the start byte low bits `10` and dir=false gives `01`. Its running flag
  changes only after the bridge acknowledged the frame. The class keeps the
  source's fields and methods, except `setCalibration`. The running flag is also the state of a
  two-state machine replayed over the frames on the bus (`Replay`). Every
  method's new flag is proved equal to that machine's state.
- **The CAN command dispatcher** `CAN_incoming_data_cb` / `CAN_cb`
  (`cube.dfy`, module `Cube`).
  - `Decode` is the identifier's if-chain of mask tests.
  - `Cube.Perform` holds the branch bodies, and `Cube.IncomingData` is the
    callback itself.
  - The first test of the chain, `(id & 0x00) == 0x00`, holds for every
    identifier. So only the pump branch is ever taken, and this is proved.
- **INA219 register framing** (`ina219.dfy`, module `INA219`). It covers:
  - the big-endian split and join of 16-bit words;
  - the `[reg] + data` frame;
  - the register-pointer write before a read;
  - the `int16_t` reinterpretation of raw readings;
  - the 16 V / 400 mA calibration sequence.

`hardware.dfy` (module `Hardware`) is the I2C bus as the drivers see it. Every
write, read and sleep is appended to a trace. Whether a write is acknowledged
comes from an oracle indexed by trace position, and so do the bytes a read
returns. The contracts therefore say exactly which frames go on the wire, and
in which order.

## Model

| member | source | states |
|---|---|---|
| HBridge.Code | hBridge.h:14-22 | `STATUS_OK` is 0 and is the only zero code. Every error code lies in -1005..-1000. |
| HBridge.CodeInjective | hBridge.h:14-22 | Distinct statuses have distinct codes, so testing for non-zero is a sound failure test. |
| HBridge.StartByte | hBridge.cpp:14 | The low two bits of the start byte are `10` for dir=true and `01` for dir=false. It never equals the stop code. For a 6-bit speed it is at most 0xFE and its top six bits give the speed back. |
| Hardware.SleepCount | hBridge.cpp:20 | The count sleep_for receives lies in [0, 2^32), is congruent to the signed argument modulo 2^32, and equals it when it is already in range. |
| HBridge.NegativeVolumeSleepsLong | hBridge.cpp:20 | A negative run duration above -2^32 makes sleep_for wait 2^32 plus that duration. With the default calibration, a volume of -1 waits 4294966296 ms, about 49.7 days, with the pump running. |
| HBridge.StartFrame | hBridge.cpp:33-35 | Definition, no contract: the start frame `[0x00, StartByte(speed, dir)]`. |
| HBridge.StopFrame | hBridge.cpp:47-49 | Definition, no contract: the stop frame `[0x00, 0x03]`. |
| HBridge.StartEvents | hBridge.cpp:32-44 | Definition, no contract: the start frame, then the 10 ms delay only if the frame was acknowledged. |
| HBridge.StopEvents | hBridge.cpp:46-58 | Definition, no contract: the stop frame `[0x00, 0x03]`, then the 10 ms delay only if the frame was acknowledged. |
| HBridge.PumpEvents | hBridge.cpp:11-30 | Definition, no contract: the refused start frame alone; or the acknowledged start frame, the run delay, and the stop events. |
| HBridge.CalibrationEvents | hBridge.cpp:60-64 | Definition, no contract: the start events with dir=true, the 9990 ms delay, then the stop events. |
| HBridge.Step | hBridge.cpp:11-58 | Definition, no contract: one step of the running flag. An acknowledged control frame sets it to running unless the frame carries the stop code, and every other event leaves it alone. |
| HBridge.Replay | hBridge.cpp:11-58 | Definition, no contract: the running flag after a whole trace, one `Step` per event. This is the reference that the four state-changing methods are proved against. |
| HBridge.ReplayAppend | hBridge.cpp:11-58 | Replaying the state machine over two traces in a row is the same as replaying over their concatenation. |
| HBridge.ReplayStartEvents | hBridge.cpp:32-44 | After a start, the pump runs exactly when the frame was acknowledged or it already ran. |
| HBridge.ReplayStopEvents | hBridge.cpp:46-58 | After a stop, the pump is stopped when the frame was acknowledged and unchanged otherwise. |
| HBridge.ReplayPumpEvents | hBridge.cpp:11-30 | A timed run leaves the state alone when the start frame is refused. Otherwise it ends stopped exactly when the stop frame was acknowledged. |
| HBridge.ReplayCalibrationEvents | hBridge.cpp:60-64 | A calibration run ends stopped when its stop frame was acknowledged. Otherwise it ends running exactly when the start frame was acknowledged or the pump already ran. |
| HBridge.ReplayNoControl | hBridge.cpp:11-58 | Bus events that are not acknowledged control frames never change the running state. |
| HBridge.ReplayLastControl | hBridge.cpp:11-58 | The running state is decided by the last acknowledged control frame alone: running exactly when it was not the stop code. |
| HBridge.PPump.constructor | hBridge.cpp:3-9 | The pump starts stopped, with cal = 1000 and speed 0x3F, on the given bus and address. lastV_time is left unset. |
| HBridge.PPump.Pump | hBridge.cpp:11-30 | A refused start frame returns TX error with only that frame sent, and changes nothing. Otherwise the pump runs, sleeps for `SleepCount(vol * cal)`, the unsigned 32-bit count sleep_for receives, and records the signed `vol * cal` in lastV_time before the stop frame. A refused stop leaves the pump running and returns TX error. Full success ends stopped with OK. The new state equals the machine's replay of the frames sent. |
| HBridge.PPump.WriteControl | hBridge.cpp:12-16 | Sends exactly the two-byte frame `[0x00, control]` to the bridge. It reports failure exactly when the frame was not acknowledged. |
| HBridge.PPump.Start | hBridge.cpp:32-44 | Sends the start frame. A refused frame returns TX error and changes nothing. Otherwise the pump runs, a 10 ms settle delay follows and OK is returned. |
| HBridge.PPump.Stop | hBridge.cpp:46-58 | Sends `[0x00, 0x03]`. A refused frame returns TX error with the state unchanged. Otherwise the pump is stopped, a 10 ms delay follows and OK is returned. |
| HBridge.PPump.Calibrate | hBridge.cpp:60-64 | Does start with dir=true, then 9990 ms, then stop, ignoring both results. The pump ends stopped when the stop frame was acknowledged. Otherwise it ends running exactly when the start frame was acknowledged or it already ran. |
| HBridge.PPump.SetSpeed | hBridge.cpp:70-72 | Stores `speed & 0x3F`, which keeps the 6-bit speed invariant. It changes no other field. |
| HBridge.PPump.State | hBridge.cpp:74-76 | Returns the running flag and changes nothing. |
| HBridge.PPump.LastV | hBridge.cpp:78-80 | Returns the last run's duration and changes nothing. |
| INA219.SplitBE | INA219/INA219.cpp:29-30 | A word is sent as exactly two bytes. |
| INA219.JoinBE | INA219/INA219.cpp:46 | The joined word's high byte is the first byte read and its low byte the second. |
| INA219.JoinSplit | INA219/INA219.cpp:29-30 | Joining the two bytes a write sends gives back the word written. |
| INA219.SplitJoin | INA219/INA219.cpp:46 | Splitting a word read from the wire gives back the two bytes read. |
| INA219.ToInt16 | INA219/INA219.cpp:81-84 | The raw reading lies in [-32768, 32767] and equals the word or the word minus 65536. |
| INA219.ToInt16Sign | INA219/INA219.cpp:92-94 | Words below 0x8000 keep their value. Words from 0x8000 upward become `w - 65536`, which is negative. |
| INA219.RegisterFrame | INA219/INA219.cpp:14-22 | A register write is the register number followed by the data, one byte longer than the data. |
| INA219.ResolutionMask | INA219/INA219.cpp:59-68 | Definition, no contract: the resolution if-chain, with 12, 11 and 10 bits explicit and the 9-bit masks otherwise. |
| INA219.ConfigWord | INA219/INA219.cpp:70-73 | Definition, no contract: the OR of the range, gain, resolution and mode settings. |
| INA219.ProfileConfig | INA219/INA219.cpp:59-73 | Definition, no contract: the configuration word that calibrate_16v_400mA writes for a given resolution. |
| INA219.CalibrationWrites | INA219/INA219.cpp:52-74 | Definition, no contract: the two register writes of a calibration, calibration first. Its meaning is stated by `INA219.CalibrationWritesDecode`. |
| INA219.UnknownResolutionIs9Bit | INA219/INA219.cpp:61-69 | Any resolution other than 12, 11 or 10 bits selects the 9-bit masks. |
| INA219.CalibrationWritesDecode | INA219/INA219.cpp:52-74 | A calibration is two writes to the chip. The first addresses the calibration register, and its data bytes read back big-endian as 20480. The second addresses the configuration register, and its data bytes read back as the profile's configuration word. |
| INA219.CalibrationValueBytes | INA219/INA219.cpp:55 | The calibration value 20480 is sent as `0x50 0x00`. |
| INA219.Ina219.constructor | INA219/INA219.cpp:4-10 | Stores `addr << 1` as the bus address and always performs the 16 V / 400 mA calibration. |
| INA219.Ina219.WriteRegister | INA219/INA219.cpp:14-23 | Sends `length + 1` bytes in one write: the register, then `data[0..length)` in order. |
| INA219.Ina219.WriteRegisterU16 | INA219/INA219.cpp:25-33 | Sends `[reg, high byte, low byte]` in one write. |
| INA219.Ina219.WriteNull | INA219/INA219.cpp:35-37 | Sends the one-byte register pointer `[reg]`. |
| INA219.Ina219.ReadRegisterU16 | INA219/INA219.cpp:39-48 | Writes the pointer `[reg]`, then reads two bytes and returns them joined high byte first. |
| INA219.Ina219.ReadCurrentRaw | INA219/INA219.cpp:81-84 | Reads the current register and returns the word as a signed 16-bit value. |
| INA219.Ina219.ReadBusVoltageRaw | INA219/INA219.cpp:92-94 | Reads the bus-voltage register and returns the word as a signed 16-bit value. |
| INA219.Ina219.Calibrate16V400mA | INA219/INA219.cpp:52-79 | Writes 20480 to the calibration register, then the combined configuration word to the configuration register. It sets the current divider to 1 and the power and voltage dividers to 20. |
| Cube.FilterId | main.cpp:116 | For a 5-bit device type and a 6-bit address, the filter id lies inside the mask, and both fields can be read back from it. |
| Cube.CubeFilterId | main.cpp:7-9 | The cube's filter id `(0x11 << 17) \| (0x2 << 11)` is 0x221000 and lies inside 0x3FF800. |
| Cube.Decode | main.cpp:133-192 | Decodes to pump read exactly for odd ids, pump stop exactly for even ids with no bit in 0x06, and pump start otherwise. A start's direction is bit 0x02. |
| Cube.OnlyPumpActions | main.cpp:136 | Every id decodes to a pump action. The relay, telemetry and fall-through branches are unreachable. |
| Cube.Bit2StartsReverse | main.cpp:146-152 | Id 0x04 starts with dir=false, id 0x06 starts with dir=true, and id 0x00 stops. |
| Cube.EnvShadowedByVip | main.cpp:173-181 | Any id that passes the environment test also passes the earlier telemetry test. |
| Cube.BoolByte | main.cpp:140 | A bool becomes byte 1 when true and 0 when false. |
| Cube.PumpStateReply | main.cpp:139-142 | The pump-state reply has id 0x00 and one byte, which is 0 or 1, and 1 exactly when the pump runs. |
| Cube.RelayStateReply | main.cpp:159-164 | The relay-state reply has id 0x08 and two bytes, each 0 or 1, and 1 exactly when its relay is on. |
| Cube.Overlay | main.cpp:175-176 | A memcpy at an offset replaces exactly the covered bytes and keeps the rest. |
| Cube.TelemetryPayload | main.cpp:174-178 | The telemetry payload has 8 bytes. Bytes 0-2 come from the first value, bytes 3-6 from the second, and byte 7 is whatever the buffer held. |
| Cube.FirstValueLastByteLost | main.cpp:175-176 | The first value's last byte never reaches the wire. |
| Cube.TelemetryReply | main.cpp:174-178 | A telemetry reply uses the selector plus one as its id and carries 8 bytes. Bytes 0-2 are the first value's, bytes 3-6 the second value's, and byte 7 is whatever the buffer held. |
| Cube.TelemetryReplyIds | main.cpp:178-190 | The voltage/current reply id 0x11 equals the environment selector. The environment reply id is 0x12. |
| Cube.Cube.constructor | main.cpp:46-80 | The global state starts with the pump at 0xC0 stopped, both relays off, the float values zero, the counter zero and an empty queue. |
| Cube.Cube.CanCallback | main.cpp:125-131 | A frame read resets the deadman counter and enqueues exactly one dispatch. When nothing is read, nothing changes. |
| Cube.Cube.RelayStateBytes | main.cpp:159-162 | The buffer the loop fills is the 0/1 bytes of the two relay states. |
| Cube.Cube.Perform | main.cpp:136-191 | Gives, for every action, the branch's effect. A pump read enqueues the state reply. Stop and start behave as the driver's stop and start. A relay read enqueues the relay reply. A relay write sets pins and states to the commanded bits. The telemetry reads enqueue the overlapped payloads. Everything else is unchanged. |
| Cube.Cube.IncomingData | main.cpp:133-192 | An odd id enqueues exactly one reply, the pump state, and changes nothing else. An even id with no bit in 0x06 stops the pump and replies nothing. Any other even id starts the pump with dir = bit 0x02 and replies nothing. The relays never change. |

## Left out

- The I2C and CAN peripherals: bus setup, frequencies, filter registration, interrupt attachment, and what the hardware filter accepts. An I2C write's acknowledgement and a read's bytes come from oracles. A CAN read is a parameter of `Cube.CanCallback`.
- `CAN_pub` and sending replies. A reply is modelled as a `Publish` job on the queue. The bus write itself is not modelled. mbed's `CAN::write` returns 1 on success, so `CAN_pub` reports the error status exactly when the send worked. Nothing reads that status.
- Threads, the event queue's scheduling and the interrupt chain. A received frame is queued by value. The source queues a pointer to the single global `msgBuffer`, which a later reception can overwrite before the dispatch runs.
- The deadman loop in `main` (the 300 s counter, INA219 current reads printed every 5 s, then the system reset), `pumpInit`, `LED`, `blink`, the ticker and every `cout` line.
- Floating point: `pPump::setCalibration`, `read_current_mA`, `read_bus_voltage`, and the values of the globals `v`, `i` and `p`. Telemetry values are opaque 4-byte sequences.
- The SHTC3 driver (`shtc.read`, `lastTemp`, `lastHum`). The environment values are parameters of `Cube.Cube.Perform`. `shtc.read()` talks on the same I2C bus object as the pump (main.cpp:50, 53, 59). Its transfers are not in the model's trace, so `Cube.Cube.Perform`'s promise that an environment read leaves the pump's bus trace unchanged covers only the pump driver's own transfers.
- INA219_consts.h is not part of this model. Its register numbers and configuration bits are the fields of `INA219.Consts`.
- The INA219's own `I2C::frequency` call, and `malloc` failing in `write_register`.
- `INA219.Ina219.Calibrate16V400mA`: the resolution mask is computed by `ResolutionMask`, the if-chain written as one expression, rather than by assignments to a local.
- `HBridge.PPump.Pump`: `vol * cal` is computed on unbounded integers. The source's 32-bit `long` product can overflow for large volumes, and the value stored in lastV_time does not wrap in the model. The sleep is not affected, since `SleepCount` reduces the product modulo 2^32 as a wrapped product would be.
- `Cube.Cube.Perform`: for a relay write, the source stores into `rState` the value it reads back from the output pin. The model stores the level just written, assuming the pin reads back what was written.
- `INA219.JoinBE`: the bytes are read into `char`. This is unsigned on the ARM target, so no sign extension happens, and that is what the model assumes.
- Atlas_types.h (sensor register constants and float/long unions) and `testLoop`: no behaviour of the core depends on them.
