/**
 * Register framing of the INA219 current/voltage monitor (INA219/INA219.cpp).
 *
 * Every register access is an I2C transfer to the chip's 8-bit bus address:
 * a write sends the register number followed by the data, most significant
 * byte first; a read first writes the register number alone (the register
 * pointer) and then reads two bytes, which form a big-endian word that the raw
 * measurements reinterpret as a signed 16-bit value.
 *
 * The register numbers and configuration bits come from INA219_consts.h, which
 * is not part of this model: they are the fields of `Consts`, fixed when the
 * driver is created.
 */
module INA219 {
  import opened Hardware

  datatype Consts = Consts(
    regConfig: Byte, regBusVoltage: Byte, regCurrent: Byte, regCalibration: Byte,
    busVoltageRange16V: bv16, gain1_40mV: bv16, modeContinuous: bv16,
    badcRes12: bv16, sadcRes12: bv16,
    badcRes11: bv16, sadcRes11: bv16,
    badcRes10: bv16, sadcRes10: bv16,
    badcRes9: bv16, sadcRes9: bv16)

  /** The calibration register value for 16 V / 400 mA with a 0.1 ohm shunt. */
  const CalibrationValue: bv16 := 20480
  /** Default 7-bit address and ADC resolution of the constructor. */
  const DefaultAddr: bv32 := 0x40
  const DefaultResolution: int := 12

  /** A 16-bit word as the two bytes sent on the wire, high byte first. */
  function SplitBE(w: bv16): (bytes: seq<Byte>)
    ensures |bytes| == 2
  {
    [((w >> 8) & 0xFF) as Byte, (w & 0xFF) as Byte]
  }

  /** Two bytes read from the wire, high byte first, as a 16-bit word
      (the bytes are unsigned chars on the target, so no sign extension). */
  function JoinBE(hi: Byte, lo: Byte): (w: bv16)
    ensures w >> 8 == hi as bv16 && w & 0xFF == lo as bv16
  {
    (hi as bv16 << 8) | lo as bv16
  }

  /** Joining the bytes a write sends gives back the word written. */
  lemma JoinSplit(w: bv16)
    ensures JoinBE(SplitBE(w)[0], SplitBE(w)[1]) == w
  {
    var b := SplitBE(w);
    assert (b[0] as bv16 << 8) == w & 0xFF00;
  }

  /** Splitting a word read from the wire gives back the bytes read. */
  lemma SplitJoin(hi: Byte, lo: Byte)
    ensures SplitBE(JoinBE(hi, lo)) == [hi, lo]
  {
    var w := JoinBE(hi, lo);
    assert ((w >> 8) & 0xFF) as Byte == hi;
    assert (w & 0xFF) as Byte == lo;
  }

  /** The cast of a raw register word to int16_t: the unique value in the
      signed 16-bit range with the same bit pattern. */
  function ToInt16(w: bv16): (r: int)
    ensures -0x8000 <= r < 0x8000
    ensures r == w as int || r == w as int - 0x1_0000
  {
    var n := w as int;
    if n < 0x8000 then n else n - 0x1_0000
  }

  /** Words below 0x8000 keep their value; the others are negative. */
  lemma ToInt16Sign(w: bv16)
    ensures w as int < 0x8000 ==> ToInt16(w) == w as int
    ensures w as int >= 0x8000 ==> ToInt16(w) == w as int - 0x1_0000 && ToInt16(w) < 0
  {
  }

  /** The bytes of one register write: the register number, then the data. */
  function RegisterFrame(reg: Byte, data: seq<Byte>): (frame: seq<Byte>)
    ensures |frame| == |data| + 1 && frame[0] == reg && frame[1..] == data
  {
    [reg] + data
  }

  /** The ADC resolution bits: 12, 11 and 10 bits are recognised, anything else gets the 9-bit setting. */
  function ResolutionMask(c: Consts, res: int): bv16
  {
    if res == 12 then c.badcRes12 | c.sadcRes12
    else if res == 11 then c.badcRes11 | c.sadcRes11
    else if res == 10 then c.badcRes10 | c.sadcRes10
    else c.badcRes9 | c.sadcRes9
  }

  lemma UnknownResolutionIs9Bit(c: Consts, res: int)
    requires res != 12 && res != 11 && res != 10
    ensures ResolutionMask(c, res) == ResolutionMask(c, 9)
  {
  }

  /** The configuration word: the range, gain, resolution and mode settings combined. */
  function ConfigWord(range: bv16, gain: bv16, resolutionMask: bv16, mode: bv16): bv16
  {
    range | gain | resolutionMask | mode
  }

  /** The configuration word of the 16 V / 400 mA profile at resolution `res`. */
  function ProfileConfig(c: Consts, res: int): bv16
  {
    ConfigWord(c.busVoltageRange16V, c.gain1_40mV, ResolutionMask(c, res), c.modeContinuous)
  }

  /** What calibrate_16v_400mA puts on the bus: the calibration register first, then the configuration register. */
  function CalibrationWrites(addr: bv32, c: Consts, res: int, ack1: bool, ack2: bool): seq<Event>
  {
    [ I2CWrite(addr, RegisterFrame(c.regCalibration, SplitBE(CalibrationValue)), ack1),
      I2CWrite(addr, RegisterFrame(c.regConfig, SplitBE(ProfileConfig(c, res))), ack2) ]
  }

  /** What the chip receives from a calibration: the calibration register
      addressed first and loaded with 20480, then the configuration register
      loaded with the profile's configuration word, each as the word a
      big-endian read of the two data bytes gives back. */
  lemma CalibrationWritesDecode(addr: bv32, c: Consts, res: int, ack1: bool, ack2: bool)
    ensures var t := CalibrationWrites(addr, c, res, ack1, ack2);
      && |t| == 2 && t[0].I2CWrite? && t[1].I2CWrite?
      && t[0].addr == addr && t[1].addr == addr
      && |t[0].bytes| == 3 && |t[1].bytes| == 3
      && t[0].bytes[0] == c.regCalibration && JoinBE(t[0].bytes[1], t[0].bytes[2]) == CalibrationValue
      && t[1].bytes[0] == c.regConfig && JoinBE(t[1].bytes[1], t[1].bytes[2]) == ProfileConfig(c, res)
  {
    var t := CalibrationWrites(addr, c, res, ack1, ack2);
    var cal, cfg := SplitBE(CalibrationValue), SplitBE(ProfileConfig(c, res));
    assert t[0].bytes == [c.regCalibration] + cal && t[1].bytes == [c.regConfig] + cfg;
    JoinSplit(CalibrationValue);
    JoinSplit(ProfileConfig(c, res));
  }

  /** The calibration value goes out as 0x50 0x00. */
  lemma CalibrationValueBytes()
    ensures SplitBE(CalibrationValue) == [0x50, 0x00]
  {
  }

  /** The INA219 driver: its bus, its 8-bit bus address, the ADC resolution
      and the dividers that turn raw readings into milliamps and volts. */
  class Ina219 {
    const bus: Board
    const consts: Consts
    const resolution: int
    const i2cAddr: bv32
    var currentDivider: int
    var powerDivider: int
    var voltageDivider: int

    /** Stores the 7-bit address shifted into the 8-bit form and always calibrates for 16 V / 400 mA. */
    constructor (bus: Board, consts: Consts, addr: bv32 := DefaultAddr, res: int := DefaultResolution)
      modifies bus
      ensures this.bus == bus && this.consts == consts && resolution == res
      ensures i2cAddr == addr << 1
      ensures currentDivider == 1 && powerDivider == 20 && voltageDivider == 20
      ensures var k := |old(bus.trace)|;
        bus.trace == old(bus.trace) + CalibrationWrites(i2cAddr, consts, res, !bus.nack(k), !bus.nack(k + 1))
    {
      this.bus := bus;
      this.consts := consts;
      resolution := res;
      i2cAddr := addr << 1;
      new;
      Calibrate16V400mA();
    }

    /** write_register: copies `length` bytes of `data` into a fresh buffer
        behind the register number and writes the `length + 1` bytes. */
    method WriteRegister(reg: Byte, data: array<Byte>, length: int)
      requires 0 <= length <= data.Length
      modifies bus
      ensures bus.trace == old(bus.trace) + [I2CWrite(i2cAddr, RegisterFrame(reg, data[..length]), !bus.nack(|old(bus.trace)|))]
    {
      var transmission := new Byte[length + 1];
      for j := 0 to length
        modifies transmission
        invariant forall m :: 0 <= m < j ==> transmission[m + 1] == data[m]
      {
        transmission[j + 1] := data[j];
      }
      transmission[0] := reg;
      assert transmission[..] == RegisterFrame(reg, data[..length]);
      var _ := bus.Write(i2cAddr, transmission[..]);
    }

    method WriteRegisterU16(reg: Byte, data: bv16)
      modifies bus
      ensures bus.trace == old(bus.trace) + [I2CWrite(i2cAddr, RegisterFrame(reg, SplitBE(data)), !bus.nack(|old(bus.trace)|))]
    {
      var transmission := new Byte[3];
      transmission[0] := reg;
      transmission[1] := ((data >> 8) & 0xFF) as Byte;
      transmission[2] := (data & 0xFF) as Byte;
      assert transmission[..] == RegisterFrame(reg, SplitBE(data));
      var _ := bus.Write(i2cAddr, transmission[..]);
    }

    /** Sets the chip's register pointer by writing the register number alone. */
    method WriteNull(reg: Byte)
      modifies bus
      ensures bus.trace == old(bus.trace) + [I2CWrite(i2cAddr, [reg], !bus.nack(|old(bus.trace)|))]
    {
      var _ := bus.Write(i2cAddr, [reg]);
    }

    /** read_register_u16: pointer write, then a two-byte read joined high byte first. */
    method ReadRegisterU16(reg: Byte) returns (w: bv16)
      modifies bus
      ensures var k := |old(bus.trace)|;
        && bus.trace == old(bus.trace) + [I2CWrite(i2cAddr, [reg], !bus.nack(k)), I2CRead(i2cAddr, bus.Incoming(k + 1, 2))]
        && w == JoinBE(bus.readByte(k + 1, 0), bus.readByte(k + 1, 1))
    {
      WriteNull(reg);
      var data := bus.Read(i2cAddr, 2);
      w := JoinBE(data[0], data[1]);
    }

    method ReadCurrentRaw() returns (raw: int)
      modifies bus
      ensures -0x8000 <= raw < 0x8000
      ensures var k := |old(bus.trace)|;
        && bus.trace == old(bus.trace) + [I2CWrite(i2cAddr, [consts.regCurrent], !bus.nack(k)), I2CRead(i2cAddr, bus.Incoming(k + 1, 2))]
        && raw == ToInt16(JoinBE(bus.readByte(k + 1, 0), bus.readByte(k + 1, 1)))
    {
      var w := ReadRegisterU16(consts.regCurrent);
      raw := ToInt16(w);
    }

    method ReadBusVoltageRaw() returns (raw: int)
      modifies bus
      ensures -0x8000 <= raw < 0x8000
      ensures var k := |old(bus.trace)|;
        && bus.trace == old(bus.trace) + [I2CWrite(i2cAddr, [consts.regBusVoltage], !bus.nack(k)), I2CRead(i2cAddr, bus.Incoming(k + 1, 2))]
        && raw == ToInt16(JoinBE(bus.readByte(k + 1, 0), bus.readByte(k + 1, 1)))
    {
      var w := ReadRegisterU16(consts.regBusVoltage);
      raw := ToInt16(w);
    }

    /** Writes the calibration register, then the configuration register, then sets the dividers. */
    method Calibrate16V400mA()
      modifies this`currentDivider, this`powerDivider, this`voltageDivider, bus
      ensures currentDivider == 1 && powerDivider == 20 && voltageDivider == 20
      ensures var k := |old(bus.trace)|;
        bus.trace == old(bus.trace) + CalibrationWrites(i2cAddr, consts, resolution, !bus.nack(k), !bus.nack(k + 1))
    {
      WriteRegisterU16(consts.regCalibration, CalibrationValue);
      var resolutionMask := ResolutionMask(consts, resolution);
      WriteRegisterU16(consts.regConfig,
        ConfigWord(consts.busVoltageRange16V, consts.gain1_40mV, resolutionMask, consts.modeContinuous));

      currentDivider := 1;
      powerDivider := 20;
      voltageDivider := 20;
    }
  }
}
