/**
 * The Bosch BMP085 barometer and its successor BMP180, which share one
 * driver: a 22-byte calibration block read once, a raw temperature and a raw
 * pressure conversion per reading, and the datasheet's integer compensation
 * in Python arithmetic (`>>` and `//` round toward minus infinity, and a
 * division by zero raises ZeroDivisionError).
 */
module Bmp085 {
  import opened Bits
  import opened Errors
  import opened Bus
  import opened Struct

  const DRIVER_NAME: string := "bmp085"
  const BMP180_DRIVER_NAME: string := "bmp180"
  const ADDR: int := 0x77
  const DEFAULT_ADDR: int := ADDR

  const REG_AC1: int := 0xAA
  const MODE_LOW: nat := 0
  const MODE_STANDARD: nat := 1
  const MODE_HIGH: nat := 2
  const MODE_ULTRA_HIGH: nat := 3
  const CTRL_READ_TEMP: int := 0x2E
  const CTRL_READ_PRESS: int := 0x34
  const REG_OUT_MSB: int := 0xF6
  const REG_CTRL_MEAS: int := 0xF4
  const REG_ID: int := 0xD0

  /** The settling time after a temperature conversion is started, in microseconds. */
  const TEMP_DELAY: nat := 5000

  /** The oversampling setting: one of the four modes. */
  type Mode = m: nat | m <= 3

  /** `>hhhHHHhhhhh`: AC4, AC5 and AC6 are unsigned, the other eight coefficients signed. */
  const LAYOUT: seq<Code> := [SShort, SShort, SShort, UShort, UShort, UShort, SShort, SShort, SShort, SShort, SShort]

  datatype Calibration = Calibration(
    ac1: int, ac2: int, ac3: int, ac4: int, ac5: int, ac6: int,
    b1: int, b2: int, mb: int, mc: int, md: int)

  /** The coefficients in the order the block stores them. */
  function Fields(c: Calibration): seq<int>
  {
    [c.ac1, c.ac2, c.ac3, c.ac4, c.ac5, c.ac6, c.b1, c.b2, c.mb, c.mc, c.md]
  }

  lemma LayoutSize()
    ensures CalcSize(LAYOUT) == 22
    ensures forall j :: 0 <= j < |LAYOUT| ==> Width(LAYOUT[j]) == 2
  {
    assert forall c :: c in LAYOUT ==> Width(c) == 2;
    SizeOfShorts(LAYOUT);
  }

  /**
   * `_read_calibration_data`: the block unpacked as `>hhhHHHhhhhh`. The
   * result is the one set of coefficients, each within its item's range,
   * whose big-endian packing is the block.
   */
  function UnpackCalibration(block: seq<Byte>): (c: Calibration)
    requires |block| == 22
    ensures AllInRange(LAYOUT, Fields(c))
    ensures Pack(LAYOUT, false, Fields(c)) == block
  {
    LayoutSize();
    PackUnpack(LAYOUT, false, block);
    FromFields(Unpack(LAYOUT, false, block))
  }

  /** The calibration whose coefficients, in block order, are `v`. */
  function FromFields(v: seq<int>): (c: Calibration)
    requires |v| == 11
    ensures Fields(c) == v
  {
    Calibration(v[0], v[1], v[2], v[3], v[4], v[5], v[6], v[7], v[8], v[9], v[10])
  }

  /** Coefficient `i` of a calibration is the 16-bit item at bytes `2 * i` and `2 * i + 1`. */
  lemma CalibrationField(block: seq<Byte>, i: nat)
    requires |block| == 22 && i < 11
    ensures Width(LAYOUT[i]) == 2
    ensures Fields(UnpackCalibration(block))[i] == DecodeItem(LAYOUT[i], false, block[2 * i..2 * i + 2])
  {
    LayoutSize();
    assert Fields(UnpackCalibration(block)) == Unpack(LAYOUT, false, block);
    OffsetOfShorts(LAYOUT, i);
    UnpackAt(LAYOUT, false, block, i);
  }

  lemma FieldOf(block: seq<Byte>, i: nat, hi: Byte, lo: Byte)
    requires |block| == 22 && i < 11 && block[2 * i] == hi && block[2 * i + 1] == lo
    ensures Fields(UnpackCalibration(block))[i] == DecodeItem(LAYOUT[i], false, [hi, lo])
  {
    CalibrationField(block, i);
    assert block[2 * i..2 * i + 2] == [hi, lo];
  }

  /**
   * The calibration block of a sample device: bytes 27, 103 give AC1 = 7015,
   * bytes 251, 151 give AC2 = -1129, AC4 = 32656 is read unsigned and bytes
   * 128, 0 give MB = -32768.
   */
  lemma CalibrationExample(block: seq<Byte>)
    requires |block| == 22
    requires block[0] == 27 && block[1] == 103 && block[2] == 251 && block[3] == 151
    requires block[6] == 127 && block[7] == 144 && block[16] == 128 && block[17] == 0
    ensures var c := UnpackCalibration(block); c.ac1 == 7015 && c.ac2 == -1129 && c.ac4 == 32656 && c.mb == -32768
  {
    FieldOf(block, 0, 27, 103);
    FieldOf(block, 1, 251, 151);
    FieldOf(block, 3, 127, 144);
    FieldOf(block, 8, 128, 0);
  }

  /** X1 of the temperature path: `((UT - AC6) * AC5) >> 15`. */
  function X1(c: Calibration, ut: int): int
  {
    Shr((ut - c.ac6) * c.ac5, 15)
  }

  /**
   * B5, which both compensation paths compute from UT alone:
   * `X1 + (MC << 11) // (X1 + MD)`, raising when `X1 + MD` is 0. On success
   * `B5 - X1` is the quotient of `MC * 2048` by `X1 + MD` rounded toward
   * minus infinity.
   */
  function B5(c: Calibration, ut: int): (r: Result<int>)
    ensures r.Err? <==> X1(c, ut) + c.md == 0
    ensures r.Err? ==> r.error == ZeroDivisionError
    ensures r.Ok? ==> var d, q := X1(c, ut) + c.md, r.value - X1(c, ut);
      && (d > 0 ==> d * q <= c.mc * 2048 < d * q + d)
      && (d < 0 ==> d * q + d < c.mc * 2048 <= d * q)
  {
    Pow2Table();
    var x1 := X1(c, ut);
    if x1 + c.md == 0 then Err(ZeroDivisionError)
    else Ok(x1 + FloorDiv(Shl(c.mc, 11), x1 + c.md))
  }

  /**
   * `_compensate_temperature`: `((B5 + 8) >> 4) / 10`. The result is always
   * a whole number of tenths of a degree, namely `B5 + 8` divided by 16 and
   * rounded down.
   */
  function CompensateTemperature(c: Calibration, ut: int): (r: Result<real>)
    ensures r.Err? <==> B5(c, ut).Err?
    ensures r.Err? ==> r.error == ZeroDivisionError
    ensures r.Ok? ==> var n := (10.0 * r.value).Floor;
      && n as real == 10.0 * r.value
      && 16 * n <= B5(c, ut).value + 8 < 16 * n + 16
  {
    match B5(c, ut)
    case Err(e) => Err(e)
    case Ok(b5) =>
      Pow2Table();
      Tenths(Shr(b5 + 8, 4));
      Ok(Shr(b5 + 8, 4) as real / 10.0)
  }

  lemma Tenths(n: int)
    ensures (10.0 * (n as real / 10.0)).Floor == n
  {
    assert 10.0 * (n as real / 10.0) == n as real;
  }

  /** B3: `(((AC1 * 4 + X3) << mode) + 2) // 4` with X3 from B2 and AC2. */
  function B3(c: Calibration, b6: int, mode: Mode): int
  {
    var x1 := Shr(Shr(c.b2 * (b6 * b6), 12), 11);
    var x2 := Shr(c.ac2 * b6, 11);
    var x3 := x1 + x2;
    FloorDiv(Shl(c.ac1 * 4 + x3, mode) + 2, 4)
  }

  /** B4: `(AC4 * (X3 + 32768)) >> 15` with X3 from AC3 and B1. */
  function B4(c: Calibration, b6: int): int
  {
    var x1 := Shr(c.ac3 * b6, 13);
    var x2 := Shr(c.b1 * Shr(b6 * b6, 12), 16);
    var x3 := Shr(x1 + x2 + 2, 2);
    Shr(c.ac4 * (x3 + 32768), 15)
  }

  /** B7: `(UP - B3) * (50000 >> mode)`. */
  function B7(b3: int, up: int, mode: Mode): int
  {
    (up - b3) * Shr(50000, mode)
  }

  /** The division of B7 by B4: `(B7 * 2) // B4` below 0x80000000, `(B7 // B4) * 2` from there on. */
  function Quotient(b7: int, b4: int): int
    requires b4 != 0
  {
    if b7 < 0x80000000 then FloorDiv(b7 * 2, b4) else FloorDiv(b7, b4) * 2
  }

  /**
   * The two branches of `Quotient` round `2 * B7 / B4` down to a whole
   * number and to an even number respectively, so they differ by at most one:
   * the branch changes the rounding and nothing else.
   */
  lemma QuotientBranches(b7: int, b4: int)
    requires b4 != 0
    ensures 0 <= FloorDiv(b7 * 2, b4) - FloorDiv(b7, b4) * 2 <= 1
  {
    if b4 > 0 {
      DoubleQuotient(b7, b4);
    } else {
      assert -(b7 * 2) == 2 * -b7;
      DoubleQuotient(-b7, -b4);
    }
  }

  /** Doubling the dividend doubles the quotient, or doubles it and adds one. */
  lemma DoubleQuotient(a: int, d: int)
    requires d > 0
    ensures 0 <= (2 * a) / d - 2 * (a / d) <= 1
  {
    var q, r := a / d, a % d;
    if 2 * r < d {
      DivModUnique(2 * a, d, 2 * q, 2 * r);
    } else {
      DivModUnique(2 * a, d, 2 * q + 1, 2 * r - d);
    }
  }

  /** Dividing a strict inequality by a positive factor. */
  lemma Cancel(d: int, a: int, b: int)
    requires d > 0 && d * a < d * b
    ensures a < b
  {
  }

  /** The final correction: `p + ((X1 + X2 + 3791) >> 4)` with X1 and X2 from p. */
  function Correct(p: int): int
  {
    var x1 := Shr(p, 8) * Shr(p, 8);
    var x1' := Shr(x1 * 3038, 16);
    var x2 := Shr(-7357 * p, 16);
    p + Shr(x1' + x2 + 3791, 4)
  }

  /**
   * `_compensate_pressure`, in pascals. B5 is recomputed from UT exactly as
   * the temperature path computes it, so the pressure depends only on UT, UP,
   * the calibration and the mode. It raises when `X1 + MD` or B4 is 0.
   */
  function CompensatePressure(c: Calibration, ut: int, up: int, mode: Mode): (r: Result<int>)
    ensures r.Err? <==> B5(c, ut).Err? || B4(c, B5(c, ut).value - 4000) == 0
    ensures r.Err? ==> r.error == ZeroDivisionError
    ensures r.Ok? ==> var b6 := B5(c, ut).value - 4000;
      r.value == Correct(Quotient(B7(B3(c, b6, mode), up, mode), B4(c, b6)))
  {
    match B5(c, ut)
    case Err(e) => Err(e)
    case Ok(b5) =>
      var b6 := b5 - 4000;
      var b4 := B4(c, b6);
      if b4 == 0 then Err(ZeroDivisionError)
      else Ok(Correct(Quotient(B7(B3(c, b6, mode), up, mode), b4)))
  }

  /** A reading fails in the pressure path whenever it fails in the temperature path. */
  lemma SharedB5(c: Calibration, ut: int, up: int, mode: Mode)
    ensures CompensateTemperature(c, ut).Err? ==> CompensatePressure(c, ut, up, mode).Err?
    ensures CompensatePressure(c, ut, up, mode).Ok? ==> CompensateTemperature(c, ut).Ok?
  {
  }

  /** The sample device's coefficients. */
  function SampleCalibration(): Calibration
  {
    Calibration(7015, -1129, -14540, 32656, 24996, 16878, 6515, 42, -32768, -11786, 2822)
  }

  /** With the sample coefficients, UT = 25611 gives B5 = 4115 and 25.7 degrees. */
  lemma TemperatureExample()
    ensures B5(SampleCalibration(), 25611) == Ok(4115)
    ensures CompensateTemperature(SampleCalibration(), 25611) == Ok(25.7)
  {
    Pow2Table();
    var c := SampleCalibration();
    assert X1(c, 25611) == 6661 by {
      assert (25611 - 16878) * 24996 == 218290068 && 218290068 / 32768 == 6661;
    }
    assert FloorDiv(Shl(-11786, 11), 9483) == -2546 by {
      assert Shl(-11786, 11) == -24137728;
      assert 24137728 / 9483 == 2545 && 9483 * 2546 > 24137728;
    }
    assert Shr(4123, 4) == 257;
  }

  /** With the sample coefficients in standard mode, UT = 25611 and UP = 74555 give 92829 Pa. */
  lemma PressureExample()
    ensures CompensatePressure(SampleCalibration(), 25611, 74555, MODE_STANDARD) == Ok(92829)
  {
    Pow2Table();
    var c := SampleCalibration();
    TemperatureExample();
    var b6 := 115;
    assert B3(c, b6, 1) == 13998 by {
      assert Shr(Shr(42 * 13225, 12), 11) == 0 by {
        assert 42 * 13225 == 555450 && 555450 / 4096 == 135 && 135 / 2048 == 0;
      }
      assert Shr(-1129 * 115, 11) == -64 by {
        assert -1129 * 115 == -129835 && -129835 / 2048 == -64;
      }
      assert Shl(28060 - 64, 1) == 55992;
    }
    assert B4(c, b6) == 32605 by {
      assert Shr(-14540 * 115, 13) == -205 by {
        assert -14540 * 115 == -1672100 && -1672100 / 8192 == -205;
      }
      assert Shr(6515 * Shr(13225, 12), 16) == 0 by {
        assert 13225 / 4096 == 3 && 6515 * 3 == 19545 && 19545 / 65536 == 0;
      }
      assert Shr(-203, 2) == -51;
      assert Shr(32656 * 32717, 15) == 32605 by {
        assert 32656 * 32717 == 1068406352 && 1068406352 / 32768 == 32605;
      }
    }
    assert Shr(50000, 1) == 25000;
    assert B7(13998, 74555, 1) == 1513925000;
    assert Quotient(1513925000, 32605) == 92864 by {
      assert 3027850000 / 32605 == 92864;
    }
    assert Correct(92864) == 92829 by {
      assert Shr(92864, 8) == 362 && 362 * 362 == 131044;
      assert Shr(131044 * 3038, 16) == 6074 by {
        assert 131044 * 3038 == 398111672 && 398111672 / 65536 == 6074;
      }
      assert Shr(-7357 * 92864, 16) == -10425 by {
        assert -7357 * 92864 == -683200448 && -683200448 / 65536 == -10425;
      }
      assert Shr(6074 - 10425 + 3791, 4) == -35;
    }
  }

  /**
   * `_read_raw_pressure`: `((msb << 16) + (lsb << 8) + xlsb) >> (8 - mode)`,
   * the 24-bit reading with all but 16 + mode of its bits dropped.
   */
  function RawPressure(msb: Byte, lsb: Byte, xlsb: Byte, mode: Mode): (up: nat)
    ensures up == (msb * 65536 + lsb * 256 + xlsb) / Pow2(8 - mode)
    ensures up < Pow2(16 + mode)
  {
    Pow2Table();
    var x := Shl(msb, 16) + Shl(lsb, 8) + xlsb;
    ShrNat(x, 8 - mode);
    Pow2Add(8 - mode, 16 + mode);
    assert Pow2(24) == 16777216 by {
      Pow2Add(16, 8);
    }
    assert Pow2(8 - mode) * Shr(x, 8 - mode) < Pow2(8 - mode) * Pow2(16 + mode);
    Cancel(Pow2(8 - mode), Shr(x, 8 - mode), Pow2(16 + mode));
    Shr(x, 8 - mode)
  }

  /** The byte that starts a pressure conversion: the command 0x34 with the mode in bits 6 and 7. */
  function Trigger(mode: Mode): (b: nat)
    ensures b < 256 && b % 64 == CTRL_READ_PRESS && b / 64 == mode
  {
    Pow2Table();
    CTRL_READ_PRESS + Shl(mode, 6)
  }

  /** The pause after a pressure conversion is started: 5, 8, 14 or 26 ms by mode. */
  function Delay(mode: Mode): (micros: nat)
    ensures micros == 2000 + 3000 * Pow2(mode)
  {
    Pow2Table();
    if mode == MODE_LOW then 5000
    else if mode == MODE_HIGH then 14000
    else if mode == MODE_ULTRA_HIGH then 26000
    else 8000
  }

  /** The transactions of one `_read_sensor_data`: a temperature conversion, then a pressure conversion. */
  function SensorPlan(addr: int, mode: Mode): seq<Event>
  {
    [WriteByteData(addr, REG_CTRL_MEAS, CTRL_READ_TEMP), ReadBlock(addr, REG_OUT_MSB, 2),
     WriteByteData(addr, REG_CTRL_MEAS, Trigger(mode)), ReadBlock(addr, REG_OUT_MSB, 3)]
  }

  /** The same, with the two pauses. */
  function SensorLog(addr: int, mode: Mode): seq<Event>
  {
    [WriteByteData(addr, REG_CTRL_MEAS, CTRL_READ_TEMP), Sleep(TEMP_DELAY), ReadBlock(addr, REG_OUT_MSB, 2),
     WriteByteData(addr, REG_CTRL_MEAS, Trigger(mode)), Sleep(Delay(mode)), ReadBlock(addr, REG_OUT_MSB, 3)]
  }

  /** UT from the replies to a `SensorPlan`. */
  function UtOf(s: seq<Reply>): nat
    requires |s| >= 2 && Fits(s[1], 2)
  {
    Be16(s[1].data[0], s[1].data[1])
  }

  /** UP from the replies to a `SensorPlan`. */
  function UpOf(s: seq<Reply>, mode: Mode): nat
    requires |s| >= 4 && Fits(s[3], 3)
  {
    RawPressure(s[3].data[0], s[3].data[1], s[3].data[2], mode)
  }

  class BMP085 {
    const bus: Bus
    const addr: int
    const driverName: string
    const mode: Mode
    const id: Byte
    const calibration: Calibration
    var temperature: real
    var pressure: int

    constructor Init(bus: Bus, addr: int, driverName: string, id: Byte, calibration: Calibration)
      ensures this.bus == bus && this.addr == addr && this.driverName == driverName && mode == MODE_STANDARD
      ensures this.id == id && this.calibration == calibration && temperature == 0.0 && pressure == 0
    {
      this.bus, this.addr, this.driverName := bus, addr, driverName;
      mode := MODE_STANDARD;
      this.id, this.calibration := id, calibration;
      temperature, pressure := 0.0, 0;
    }

    /** A BMP085: reads the chip id, then the calibration block. */
    static method Create(bus: Bus, addr: int) returns (r: Result<BMP085>)
      modifies bus
      ensures r.Ok? <==> Serves(old(bus.script), [ReadByteData(addr, REG_ID), ReadBlock(addr, REG_AC1, 22)])
      ensures r.Ok? ==> bus.log == old(bus.log) + [ReadByteData(addr, REG_ID), ReadBlock(addr, REG_AC1, 22)]
      ensures r.Ok? ==> bus.script == old(bus.script)[2..]
      ensures r.Ok? ==> fresh(r.value) && r.value.bus == bus && r.value.addr == addr
      ensures r.Ok? ==> r.value.driverName == DRIVER_NAME && r.value.mode == MODE_STANDARD
      ensures r.Ok? ==> r.value.id == old(bus.script)[0].data[0]
      ensures r.Ok? ==> r.value.calibration == UnpackCalibration(old(bus.script)[1].data)
      ensures r.Ok? ==> r.value.temperature == 0.0 && r.value.pressure == 0
      ensures r.Err? ==> r.error == IOError
    {
      r := Open(bus, addr, DRIVER_NAME);
    }

    /** A BMP180: the same driver under its own name. */
    static method CreateBMP180(bus: Bus, addr: int) returns (r: Result<BMP085>)
      modifies bus
      ensures r.Ok? <==> Serves(old(bus.script), [ReadByteData(addr, REG_ID), ReadBlock(addr, REG_AC1, 22)])
      ensures r.Ok? ==> bus.log == old(bus.log) + [ReadByteData(addr, REG_ID), ReadBlock(addr, REG_AC1, 22)]
      ensures r.Ok? ==> bus.script == old(bus.script)[2..]
      ensures r.Ok? ==> fresh(r.value) && r.value.bus == bus && r.value.addr == addr
      ensures r.Ok? ==> r.value.driverName == BMP180_DRIVER_NAME && r.value.mode == MODE_STANDARD
      ensures r.Ok? ==> r.value.id == old(bus.script)[0].data[0]
      ensures r.Ok? ==> r.value.calibration == UnpackCalibration(old(bus.script)[1].data)
      ensures r.Ok? ==> r.value.temperature == 0.0 && r.value.pressure == 0
      ensures r.Err? ==> r.error == IOError
    {
      r := Open(bus, addr, BMP180_DRIVER_NAME);
    }

    static method Open(bus: Bus, addr: int, driverName: string) returns (r: Result<BMP085>)
      modifies bus
      ensures r.Ok? <==> Serves(old(bus.script), [ReadByteData(addr, REG_ID), ReadBlock(addr, REG_AC1, 22)])
      ensures r.Ok? ==> bus.log == old(bus.log) + [ReadByteData(addr, REG_ID), ReadBlock(addr, REG_AC1, 22)]
      ensures r.Ok? ==> bus.script == old(bus.script)[2..]
      ensures r.Ok? ==> fresh(r.value) && r.value.bus == bus && r.value.addr == addr
      ensures r.Ok? ==> r.value.driverName == driverName && r.value.mode == MODE_STANDARD
      ensures r.Ok? ==> r.value.id == old(bus.script)[0].data[0]
      ensures r.Ok? ==> r.value.calibration == UnpackCalibration(old(bus.script)[1].data)
      ensures r.Ok? ==> r.value.temperature == 0.0 && r.value.pressure == 0
      ensures r.Err? ==> r.error == IOError
    {
      ghost var s0, l0 := bus.script, bus.log;
      ServesCons(s0, ReadByteData(addr, REG_ID), [ReadBlock(addr, REG_AC1, 22)]);
      var id := bus.ReadByteData(addr, REG_ID);
      if id.Err? {
        return Err(id.error);
      }
      assert bus.script == Tail(s0) == s0[1..];
      var block := bus.ReadBlock(addr, REG_AC1, 22);
      if block.Err? {
        return Err(block.error);
      }
      assert block.value == s0[1].data && bus.script == s0[2..] by {
        assert s0[1..][0] == s0[1] && s0[1..][1..] == s0[2..];
      }
      assert bus.log == l0 + [ReadByteData(addr, REG_ID), ReadBlock(addr, REG_AC1, 22)];
      var calibration := UnpackCalibration(block.value);
      var d := new BMP085.Init(bus, addr, driverName, id.value, calibration);
      r := Ok(d);
    }

    /** `_read_raw_temperature`: starts a temperature conversion, waits 5 ms and reads UT. */
    method ReadRawTemperature() returns (r: Result<nat>)
      modifies bus
      ensures var plan := [WriteByteData(addr, REG_CTRL_MEAS, CTRL_READ_TEMP), ReadBlock(addr, REG_OUT_MSB, 2)];
        && (r.Ok? <==> Serves(old(bus.script), plan))
        && (r.Ok? ==> bus.log == old(bus.log) + [plan[0], Sleep(TEMP_DELAY), plan[1]])
        && (r.Ok? ==> bus.script == old(bus.script)[2..])
        && (r.Ok? ==> r.value == Be16(old(bus.script)[1].data[0], old(bus.script)[1].data[1]))
      ensures r.Err? ==> r.error == IOError
    {
      ServesCons(bus.script, WriteByteData(addr, REG_CTRL_MEAS, CTRL_READ_TEMP), [ReadBlock(addr, REG_OUT_MSB, 2)]);
      var w := bus.WriteByteData(addr, REG_CTRL_MEAS, CTRL_READ_TEMP);
      if w.Err? {
        return Err(w.error);
      }
      bus.Sleep(TEMP_DELAY);
      var b := bus.ReadBlock(addr, REG_OUT_MSB, 2);
      if b.Err? {
        return Err(b.error);
      }
      r := Ok(Word16(b.value[0], b.value[1]));
    }

    /** `_read_raw_pressure`: starts a pressure conversion in the current mode, waits and reads UP. */
    method ReadRawPressure() returns (r: Result<nat>)
      modifies bus
      ensures var plan := [WriteByteData(addr, REG_CTRL_MEAS, Trigger(mode)), ReadBlock(addr, REG_OUT_MSB, 3)];
        && (r.Ok? <==> Serves(old(bus.script), plan))
        && (r.Ok? ==> bus.log == old(bus.log) + [plan[0], Sleep(Delay(mode)), plan[1]])
        && (r.Ok? ==> bus.script == old(bus.script)[2..])
        && (r.Ok? ==> var b := old(bus.script)[1].data; r.value == RawPressure(b[0], b[1], b[2], mode))
      ensures r.Err? ==> r.error == IOError
    {
      ServesCons(bus.script, WriteByteData(addr, REG_CTRL_MEAS, Trigger(mode)), [ReadBlock(addr, REG_OUT_MSB, 3)]);
      var w := bus.WriteByteData(addr, REG_CTRL_MEAS, Trigger(mode));
      if w.Err? {
        return Err(w.error);
      }
      bus.Sleep(Delay(mode));
      var b := bus.ReadBlock(addr, REG_OUT_MSB, 3);
      if b.Err? {
        return Err(b.error);
      }
      r := Ok(RawPressure(b.value[0], b.value[1], b.value[2], mode));
    }

    /** `_read_sensor_data`: UT, then UP, then both compensations. */
    method ReadSensorData() returns (r: Result<(real, int)>)
      modifies bus
      ensures var s := old(bus.script);
        && (Serves(s, SensorPlan(addr, mode)) ==>
              && bus.log == old(bus.log) + SensorLog(addr, mode)
              && bus.script == s[4..]
              && var t, p := CompensateTemperature(calibration, UtOf(s)), CompensatePressure(calibration, UtOf(s), UpOf(s, mode), mode);
                 && (r.Ok? <==> t.Ok? && p.Ok?)
                 && (r.Ok? ==> r.value == (t.value, p.value))
                 && (r.Err? ==> r.error == ZeroDivisionError))
        && (!Serves(s, SensorPlan(addr, mode)) ==> r.Err? && r.error == IOError)
    {
      ghost var s := bus.script;
      ServesCons(s, SensorPlan(addr, mode)[0], SensorPlan(addr, mode)[1..]);
      ServesCons(Tail(s), SensorPlan(addr, mode)[1], SensorPlan(addr, mode)[2..]);
      ServesCons(Tail(Tail(s)), SensorPlan(addr, mode)[2], SensorPlan(addr, mode)[3..]);
      assert SensorPlan(addr, mode)[..2] + SensorPlan(addr, mode)[2..] == SensorPlan(addr, mode);
      var ut := ReadRawTemperature();
      if ut.Err? {
        return Err(ut.error);
      }
      var up := ReadRawPressure();
      if up.Err? {
        return Err(up.error);
      }
      assert s[2..][1] == s[3];
      var t := CompensateTemperature(calibration, ut.value);
      if t.Err? {
        return Err(t.error);
      }
      var p := CompensatePressure(calibration, ut.value, up.value, mode);
      if p.Err? {
        return Err(p.error);
      }
      r := Ok((t.value, p.value));
    }

    method ReadTemperature() returns (r: Result<real>)
      modifies bus
      ensures var s := old(bus.script);
        && (Serves(s, SensorPlan(addr, mode)) ==>
              && bus.log == old(bus.log) + SensorLog(addr, mode)
              && bus.script == s[4..]
              && var t, p := CompensateTemperature(calibration, UtOf(s)), CompensatePressure(calibration, UtOf(s), UpOf(s, mode), mode);
                 && (r.Ok? <==> t.Ok? && p.Ok?)
                 && (r.Ok? ==> r.value == t.value))
        && (r.Ok? ==> Serves(s, SensorPlan(addr, mode)))
      ensures r.Err? ==> r.error == IOError || r.error == ZeroDivisionError
    {
      var d := ReadSensorData();
      if d.Err? {
        return Err(d.error);
      }
      r := Ok(d.value.0);
    }

    method ReadPressure() returns (r: Result<int>)
      modifies bus
      ensures var s := old(bus.script);
        && (Serves(s, SensorPlan(addr, mode)) ==>
              && bus.log == old(bus.log) + SensorLog(addr, mode)
              && bus.script == s[4..]
              && var p := CompensatePressure(calibration, UtOf(s), UpOf(s, mode), mode);
                 && (r.Ok? <==> p.Ok?)
                 && (r.Ok? ==> r.value == p.value))
        && (r.Ok? ==> Serves(s, SensorPlan(addr, mode)))
      ensures r.Err? ==> r.error == IOError || r.error == ZeroDivisionError
    {
      SharedB5Everywhere();
      var d := ReadSensorData();
      if d.Err? {
        return Err(d.error);
      }
      r := Ok(d.value.1);
    }

    /** One reading; both values are cached together, and neither when the reading fails. */
    method Measure() returns (r: Result<map<string, real>>)
      modifies this, bus
      ensures var s := old(bus.script);
        && (Serves(s, SensorPlan(addr, mode)) ==>
              && bus.log == old(bus.log) + SensorLog(addr, mode)
              && bus.script == s[4..]
              && var t, p := CompensateTemperature(calibration, UtOf(s)), CompensatePressure(calibration, UtOf(s), UpOf(s, mode), mode);
                 && (r.Ok? <==> p.Ok?)
                 && (r.Ok? ==> temperature == t.value && pressure == p.value))
        && (r.Ok? ==> Serves(s, SensorPlan(addr, mode)))
      ensures r.Ok? ==> r.value == map["temperature" := temperature, "pressure" := pressure as real]
      ensures r.Err? ==> temperature == old(temperature) && pressure == old(pressure)
      ensures r.Err? ==> r.error == IOError || r.error == ZeroDivisionError
    {
      SharedB5Everywhere();
      var d := ReadSensorData();
      if d.Err? {
        return Err(d.error);
      }
      temperature, pressure := d.value.0, d.value.1;
      r := Ok(map["temperature" := temperature, "pressure" := pressure as real]);
    }
  }

  lemma SharedB5Everywhere()
    ensures forall c, ut, up, mode: Mode {:trigger CompensatePressure(c, ut, up, mode)} ::
      CompensatePressure(c, ut, up, mode).Ok? ==> CompensateTemperature(c, ut).Ok?
  {
  }
}

/**
 * The Bosch BMP280 barometer: a 26-byte calibration block, the ctrl_meas and
 * config registers written once, and per reading a 20-bit pressure code and a
 * 20-bit temperature code. Temperature compensation also refreshes `t_fine`,
 * which pressure compensation reads.
 */
module Bmp280 {
  import opened Bits
  import opened Errors
  import opened Bus
  import opened Struct

  const DRIVER_NAME: string := "bmp280"
  const ADDR1: int := 0x76
  const ADDR2: int := 0x77
  const DEFAULT_ADDR: int := ADDR2

  const REG_TEMP: int := 0xFA
  const REG_PRESS: int := 0xF7
  const REG_CONFIG: int := 0xF5
  const REG_CTRL_MEAS: int := 0xF4
  const REG_CALIB: int := 0x88

  /** The settings the constructor writes. */
  const OSRS_T: nat := 1
  const OSRS_P: nat := 1
  const POWER_MODE: nat := 3
  const FILTER: nat := 0
  const T_SB: nat := 5

  /** `<HhhHhhhhhhhhBB`: T1 and P1 unsigned, T2, T3 and P2 to P9 signed, then two single bytes. */
  const LAYOUT: seq<Code> := SHORTS + [UByte, UByte]

  /** The twelve 16-bit items at the head of the layout. */
  const SHORTS: seq<Code> := [UShort, SShort, SShort, UShort, SShort, SShort, SShort, SShort, SShort, SShort, SShort, SShort]

  /** The coefficients kept from the block; the first of the two trailing bytes is discarded. */
  datatype Calibration = Calibration(
    t1: int, t2: int, t3: int,
    p1: int, p2: int, p3: int, p4: int, p5: int, p6: int, p7: int, p8: int, p9: int,
    h1: int)

  /** The unpacked tuple of a calibration whose discarded byte was `skipped`. */
  function Items(c: Calibration, skipped: int): seq<int>
  {
    [c.t1, c.t2, c.t3, c.p1, c.p2, c.p3, c.p4, c.p5, c.p6, c.p7, c.p8, c.p9, skipped, c.h1]
  }

  lemma LayoutSize()
    ensures CalcSize(LAYOUT) == 26
    ensures forall j :: 0 <= j < 12 ==> Width(LAYOUT[j]) == 2
  {
    assert forall j :: 0 <= j < 12 ==> LAYOUT[j] == SHORTS[j];
    SizeOfShorts(SHORTS);
    SizeAppend(SHORTS, [UByte, UByte]);
  }

  /** The calibration whose unpacked tuple is `v`. */
  function FromItems(v: seq<int>): (c: Calibration)
    requires |v| == 14
    ensures Items(c, v[12]) == v
  {
    Calibration(v[0], v[1], v[2], v[3], v[4], v[5], v[6], v[7], v[8], v[9], v[10], v[11], v[13])
  }

  /**
   * `_read_calibration_data`: the block unpacked as `<HhhHhhhhhhhhBB`. With
   * the discarded byte 24 put back, the coefficients are in range and their
   * little-endian packing is the block.
   */
  function UnpackCalibration(block: seq<Byte>): (c: Calibration)
    requires |block| == 26
    ensures AllInRange(LAYOUT, Items(c, block[24]))
    ensures Pack(LAYOUT, true, Items(c, block[24])) == block
  {
    LayoutSize();
    PackUnpack(LAYOUT, true, block);
    var v := Unpack(LAYOUT, true, block);
    assert v[12] == block[24] by {
      Offset12();
      UnpackAt(LAYOUT, true, block, 12);
      assert block[24..25] == [block[24]];
    }
    FromItems(v)
  }

  lemma Offset12()
    ensures Offset(LAYOUT, 12) == 24 && Offset(LAYOUT, 13) == 25
  {
    LayoutSize();
    OffsetOfShorts(LAYOUT, 12);
    OffsetNext(LAYOUT, 12);
  }

  /** Item `i` of the tuple, read from the bytes `hi` and `lo` at its offset. */
  lemma ItemOf(block: seq<Byte>, i: nat, b0: Byte, b1: Byte)
    requires |block| == 26 && i < 12 && block[2 * i] == b0 && block[2 * i + 1] == b1
    ensures Items(UnpackCalibration(block), block[24])[i] == DecodeItem(LAYOUT[i], true, [b0, b1])
  {
    LayoutSize();
    UnpackPack(LAYOUT, true, Items(UnpackCalibration(block), block[24]));
    OffsetOfShorts(LAYOUT, i);
    UnpackAt(LAYOUT, true, block, i);
    assert block[2 * i..2 * i + 2] == [b0, b1];
  }

  /**
   * The calibration block of a sample device: T1 = 27934 and P1 = 35987 are
   * read unsigned, T3 = -1000 signed, P7 = 15500, P9 = 6000, and H1 is byte 25.
   */
  lemma CalibrationExample(block: seq<Byte>)
    requires |block| == 26
    requires block[0] == 30 && block[1] == 109 && block[4] == 24 && block[5] == 252
    requires block[6] == 147 && block[7] == 140 && block[18] == 140 && block[19] == 60
    requires block[22] == 112 && block[23] == 23 && block[25] == 0
    ensures var c := UnpackCalibration(block);
      c.t1 == 27934 && c.t3 == -1000 && c.p1 == 35987 && c.p7 == 15500 && c.p9 == 6000 && c.h1 == 0
  {
    ItemOf(block, 0, 30, 109);
    ItemOf(block, 2, 24, 252);
    ItemOf(block, 3, 147, 140);
    ItemOf(block, 9, 140, 60);
    ItemOf(block, 11, 112, 23);
    LayoutSize();
    UnpackPack(LAYOUT, true, Items(UnpackCalibration(block), block[24]));
    Offset12();
    UnpackAt(LAYOUT, true, block, 13);
    assert block[25..26] == [0];
  }

  /** `_set_meas`: `osrs_t << 5 | osrs_p << 2 | power_mode`. */
  function CtrlMeas(osrsT: nat, osrsP: nat, powerMode: nat): (b: nat)
    requires osrsT < 8 && osrsP < 8 && powerMode < 4
    ensures b == osrsT * 32 + osrsP * 4 + powerMode
  {
    var settings: bv8 := 0;
    var s1 := settings | (osrsT as bv8 << 5);
    var s2 := s1 | (osrsP as bv8 << 2);
    var s3 := s2 | powerMode as bv8;
    s3 as nat
  }

  /** The three fields can be read back out of the ctrl_meas byte. */
  lemma CtrlMeasFields(osrsT: nat, osrsP: nat, powerMode: nat)
    requires osrsT < 8 && osrsP < 8 && powerMode < 4
    ensures var b := CtrlMeas(osrsT, osrsP, powerMode);
      b < 256 && b / 32 == osrsT && (b / 4) % 8 == osrsP && b % 4 == powerMode
  {
    var b := CtrlMeas(osrsT, osrsP, powerMode);
    DivModUnique(b, 32, osrsT, osrsP * 4 + powerMode);
    DivModUnique(b, 4, osrsT * 8 + osrsP, powerMode);
    DivModUnique(b / 4, 8, osrsT, osrsP);
  }

  /** `_set_config`: `t_sb << 5 | filter << 2`, leaving the two low bits clear. */
  function Config(tSb: nat, filter: nat): (b: nat)
    requires tSb < 8 && filter < 8
    ensures b == tSb * 32 + filter * 4
  {
    var config: bv8 := 0;
    var c1 := config | (tSb as bv8 << 5);
    var c2 := c1 | (filter as bv8 << 2);
    c2 as nat
  }

  lemma ConfigFields(tSb: nat, filter: nat)
    requires tSb < 8 && filter < 8
    ensures var b := Config(tSb, filter);
      b < 256 && b / 32 == tSb && (b / 4) % 8 == filter && b % 4 == 0
  {
    var b := Config(tSb, filter);
    DivModUnique(b, 32, tSb, filter * 4);
    DivModUnique(b, 4, tSb * 8 + filter, 0);
    DivModUnique(b / 4, 8, tSb, filter);
  }

  /** The constructor's settings give ctrl_meas 0x27 and config 0xA0. */
  lemma DefaultSettings()
    ensures CtrlMeas(OSRS_T, OSRS_P, POWER_MODE) == 0x27
    ensures Config(T_SB, FILTER) == 0xA0
  {
  }

  /** Python's `int(x)` on a float: truncation toward zero. */
  function Trunc(x: real): (n: int)
    ensures x >= 0.0 ==> n as real <= x < n as real + 1.0
    ensures x < 0.0 ==> n as real - 1.0 < x <= n as real
  {
    if x >= 0.0 then x.Floor else -((-x).Floor)
  }

  /** `var1 + var2` of the floating-point temperature compensation. */
  function TempSum(c: Calibration, adcT: int): real
  {
    var ut := adcT as real;
    var var1 := (ut / 16384.0 - c.t1 as real / 1024.0) * c.t2 as real;
    var var2 := ((ut / 131072.0 - c.t1 as real / 8192.0) * (ut / 131072.0 - c.t1 as real / 8192.0)) * c.t3 as real;
    var1 + var2
  }

  /** The `t_fine` a temperature compensation leaves behind. */
  function TFine(c: Calibration, adcT: int): int
  {
    Trunc(TempSum(c, adcT))
  }

  /** The temperature in degrees Celsius. */
  function Temperature(c: Calibration, adcT: int): real
  {
    TempSum(c, adcT) / 5120.0
  }

  /** `t_fine` is 5120 times the temperature, truncated toward zero. */
  lemma TFineTracksTemperature(c: Calibration, adcT: int)
    ensures TFine(c, adcT) == Trunc(5120.0 * Temperature(c, adcT))
  {
    assert 5120.0 * Temperature(c, adcT) == TempSum(c, adcT);
  }

  /** The final divisor `var1` of the pressure compensation. */
  function PressureDivisor(c: Calibration, tFine: int): real
  {
    var var1 := tFine as real / 2.0 - 64000.0;
    var v1 := (c.p3 as real * var1 * var1 / 524288.0 + c.p2 as real * var1) / 524288.0;
    (1.0 + v1 / 32768.0) * c.p1 as real
  }

  /** The pressure in pascals from `t_fine` and the raw code; 0 when the divisor vanishes. */
  function Pressure(c: Calibration, tFine: int, adcP: int): (p: real)
    ensures PressureDivisor(c, tFine) == 0.0 ==> p == 0.0
  {
    var var1 := tFine as real / 2.0 - 64000.0;
    var var2 := var1 * var1 * c.p6 as real / 32768.0;
    var var2' := var2 + var1 * c.p5 as real * 2.0;
    var var2'' := var2' / 4.0 + c.p4 as real * 65536.0;
    var divisor := PressureDivisor(c, tFine);
    if divisor == 0.0 then 0.0
    else
      var p := 1048576.0 - adcP as real;
      var p' := ((p - var2'' / 4096.0) * 6250.0) / divisor;
      var v1 := c.p9 as real * p' * p' / 2147483648.0;
      var v2 := p' * c.p8 as real / 32768.0;
      p' + (v1 + v2 + c.p7 as real) / 16.0
  }

  /** The first reads of `_read_raw_sensor_data`: the pressure bytes, then the temperature bytes. */
  function RawPlan(addr: int): seq<Event>
  {
    [ReadBlock(addr, REG_PRESS, 3), ReadBlock(addr, REG_TEMP, 3)]
  }

  function AdcP(s: seq<Reply>): nat
    requires |s| >= 1 && Fits(s[0], 3)
  {
    Raw20(s[0].data[0], s[0].data[1], s[0].data[2])
  }

  function AdcT(s: seq<Reply>): nat
    requires |s| >= 2 && Fits(s[1], 3)
  {
    Raw20(s[1].data[0], s[1].data[1], s[1].data[2])
  }

  class BMP280 {
    const bus: Bus
    const addr: int
    const calibration: Calibration
    var tFine: int
    var temperature: real
    var pressure: real

    constructor Init(bus: Bus, addr: int, calibration: Calibration)
      ensures this.bus == bus && this.addr == addr && this.calibration == calibration
      ensures tFine == 0 && temperature == 0.0 && pressure == 0.0
    {
      this.bus, this.addr, this.calibration := bus, addr, calibration;
      tFine, temperature, pressure := 0, 0.0, 0.0;
    }

    /** Reads the calibration block, then writes ctrl_meas and config. */
    static method Create(bus: Bus, addr: int) returns (r: Result<BMP280>)
      modifies bus
      ensures var plan := [ReadBlock(addr, REG_CALIB, 26), WriteByteData(addr, REG_CTRL_MEAS, 0x27), WriteByteData(addr, REG_CONFIG, 0xA0)];
        && (r.Ok? <==> Serves(old(bus.script), plan))
        && (r.Ok? ==> bus.log == old(bus.log) + plan && bus.script == old(bus.script)[3..])
      ensures r.Ok? ==> fresh(r.value) && r.value.bus == bus && r.value.addr == addr
      ensures r.Ok? ==> r.value.calibration == UnpackCalibration(old(bus.script)[0].data)
      ensures r.Ok? ==> r.value.tFine == 0 && r.value.temperature == 0.0 && r.value.pressure == 0.0
      ensures r.Err? ==> r.error == IOError
    {
      ServesCons(bus.script, ReadBlock(addr, REG_CALIB, 26), [WriteByteData(addr, REG_CTRL_MEAS, 0x27), WriteByteData(addr, REG_CONFIG, 0xA0)]);
      ServesCons(Tail(bus.script), WriteByteData(addr, REG_CTRL_MEAS, 0x27), [WriteByteData(addr, REG_CONFIG, 0xA0)]);
      var block := bus.ReadBlock(addr, REG_CALIB, 26);
      if block.Err? {
        return Err(block.error);
      }
      var d := new BMP280.Init(bus, addr, UnpackCalibration(block.value));
      var w := d.SetSettings();
      if w.Err? {
        return Err(w.error);
      }
      w := d.SetConfig();
      if w.Err? {
        return Err(w.error);
      }
      r := Ok(d);
    }

    /** `_set_settings`, which is `_set_meas`: writes ctrl_meas, 0x27 with the default settings. */
    method SetSettings() returns (r: Result<()>)
      modifies bus
      ensures bus.log == old(bus.log) + [WriteByteData(addr, REG_CTRL_MEAS, 0x27)]
      ensures bus.script == Tail(old(bus.script))
      ensures r.Ok? <==> Serves(old(bus.script), [WriteByteData(addr, REG_CTRL_MEAS, 0x27)])
      ensures r.Err? ==> r.error == IOError
    {
      DefaultSettings();
      r := bus.WriteByteData(addr, REG_CTRL_MEAS, CtrlMeas(OSRS_T, OSRS_P, POWER_MODE));
    }

    /** `_set_config`: writes config, 0xA0 with the default settings. */
    method SetConfig() returns (r: Result<()>)
      modifies bus
      ensures bus.log == old(bus.log) + [WriteByteData(addr, REG_CONFIG, 0xA0)]
      ensures bus.script == Tail(old(bus.script))
      ensures r.Ok? <==> Serves(old(bus.script), [WriteByteData(addr, REG_CONFIG, 0xA0)])
      ensures r.Err? ==> r.error == IOError
    {
      DefaultSettings();
      r := bus.WriteByteData(addr, REG_CONFIG, Config(T_SB, FILTER));
    }

    /** `_read_raw_sensor_data`: the two 20-bit codes (adc_p, adc_t). */
    method ReadRawSensorData() returns (r: Result<(nat, nat)>)
      modifies bus
      ensures r.Ok? <==> Serves(old(bus.script), RawPlan(addr))
      ensures r.Ok? ==> bus.log == old(bus.log) + RawPlan(addr) && bus.script == old(bus.script)[2..]
      ensures r.Ok? ==> r.value == (AdcP(old(bus.script)), AdcT(old(bus.script)))
      ensures r.Err? ==> r.error == IOError
    {
      ServesCons(bus.script, ReadBlock(addr, REG_PRESS, 3), [ReadBlock(addr, REG_TEMP, 3)]);
      var p := bus.ReadBlock(addr, REG_PRESS, 3);
      if p.Err? {
        return Err(p.error);
      }
      var t := bus.ReadBlock(addr, REG_TEMP, 3);
      if t.Err? {
        return Err(t.error);
      }
      var adcP := Raw20(p.value[0], p.value[1], p.value[2]);
      var adcT := Raw20(t.value[0], t.value[1], t.value[2]);
      r := Ok((adcP, adcT));
    }

    /** `_compensate_temperature`: returns the temperature and refreshes `t_fine`. */
    method CompensateTemperature(adcT: nat) returns (t: real)
      modifies this
      ensures tFine == TFine(calibration, adcT) && t == Temperature(calibration, adcT)
      ensures temperature == old(temperature) && pressure == old(pressure)
    {
      var sum := TempSum(calibration, adcT);
      tFine := Trunc(sum);
      t := sum / 5120.0;
    }

    method ReadTemperature() returns (r: Result<real>)
      modifies this, bus
      ensures r.Ok? <==> Serves(old(bus.script), RawPlan(addr))
      ensures r.Ok? ==> bus.log == old(bus.log) + RawPlan(addr) && bus.script == old(bus.script)[2..]
      ensures r.Ok? ==> tFine == TFine(calibration, AdcT(old(bus.script)))
      ensures r.Ok? ==> r.value == Temperature(calibration, AdcT(old(bus.script)))
      ensures r.Err? ==> r.error == IOError && tFine == old(tFine)
      ensures temperature == old(temperature) && pressure == old(pressure)
    {
      var raw := ReadRawSensorData();
      if raw.Err? {
        return Err(raw.error);
      }
      var t := CompensateTemperature(raw.value.1);
      r := Ok(t);
    }

    /** Temperature is compensated first, so the pressure uses this reading's `t_fine`. */
    method ReadPressure() returns (r: Result<real>)
      modifies this, bus
      ensures r.Ok? <==> Serves(old(bus.script), RawPlan(addr))
      ensures r.Ok? ==> bus.log == old(bus.log) + RawPlan(addr) && bus.script == old(bus.script)[2..]
      ensures r.Ok? ==> tFine == TFine(calibration, AdcT(old(bus.script)))
      ensures r.Ok? ==> r.value == Pressure(calibration, TFine(calibration, AdcT(old(bus.script))), AdcP(old(bus.script)))
      ensures r.Err? ==> r.error == IOError && tFine == old(tFine)
      ensures temperature == old(temperature) && pressure == old(pressure)
    {
      var raw := ReadRawSensorData();
      if raw.Err? {
        return Err(raw.error);
      }
      var _ := CompensateTemperature(raw.value.1);
      r := Ok(Pressure(calibration, tFine, raw.value.0));
    }

    /** One raw read; temperature, then pressure with the refreshed `t_fine`; both cached. */
    method Measure() returns (r: Result<map<string, real>>)
      modifies this, bus
      ensures r.Ok? <==> Serves(old(bus.script), RawPlan(addr))
      ensures r.Ok? ==> bus.log == old(bus.log) + RawPlan(addr) && bus.script == old(bus.script)[2..]
      ensures r.Ok? ==> var adcT := AdcT(old(bus.script));
        && tFine == TFine(calibration, adcT)
        && temperature == Temperature(calibration, adcT)
        && pressure == Pressure(calibration, TFine(calibration, adcT), AdcP(old(bus.script)))
      ensures r.Ok? ==> r.value == map["temperature" := temperature, "pressure" := pressure]
      ensures r.Err? ==> r.error == IOError
      ensures r.Err? ==> tFine == old(tFine) && temperature == old(temperature) && pressure == old(pressure)
    {
      var raw := ReadRawSensorData();
      if raw.Err? {
        return Err(raw.error);
      }
      temperature := CompensateTemperature(raw.value.1);
      pressure := Pressure(calibration, tFine, raw.value.0);
      r := Ok(map["temperature" := temperature, "pressure" := pressure]);
    }
  }
}
