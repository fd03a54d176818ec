/**
 * The Bosch BME280 environmental sensor: the BMP280's temperature and
 * pressure path plus a humidity channel. Its calibration adds a 7-byte block
 * of humidity coefficients, two of them 12-bit signed values built from
 * nibbles, and every compensated value is clamped to the sensor's range
 * except a pressure whose divisor vanishes, which is returned as 0.
 */
module Bme280 {
  import opened Bits
  import opened Errors
  import opened Bus
  import opened Struct
  import Bmp280

  const DRIVER_NAME: string := "bme280"
  const ADDR: int := 0x77
  const DEFAULT_ADDR: int := ADDR

  const REG_TEMP: int := 0xFA
  const REG_PRESS: int := 0xF7
  const REG_HUM: int := 0xFD
  const REG_CONFIG: int := 0xF5
  const REG_CTRL_MEAS: int := 0xF4
  const REG_CTRL_HUM: int := 0xF2
  const REG_CALIB: int := 0x88
  const REG_CALIB_HUM: int := 0xE1

  const MAX_TEMPERATURE: real := 85.0
  const MIN_TEMPERATURE: real := -40.0
  const MAX_PRESSURE: real := 110000.0
  const MIN_PRESSURE: real := 30000.0
  const MAX_HUMIDITY: real := 100.0
  const MIN_HUMIDITY: real := 0.0

  const OSRS_H: nat := 1

  /** The humidity coefficients H2 to H6 (H1 comes with the first block). */
  datatype HumidityCalibration = HumidityCalibration(h2: int, h3: int, h4: int, h5: int, h6: int)

  /** Two's-complement reading of a 12-bit field. */
  function Signed12(u: nat): (s: int)
    requires u < 4096
    ensures -2048 <= s < 2048 && (s - u) % 4096 == 0
  {
    if u >= 2048 then u - 4096 else u
  }

  /** The 12-bit pattern of a signed 12-bit value. */
  function Unsigned12(s: int): (u: nat)
    requires -2048 <= s < 2048
    ensures u < 4096 && Signed12(u) == s
  {
    if s < 0 then s + 4096 else s
  }

  function Unsigned8(s: int): (u: Byte)
    requires -128 <= s < 128
    ensures Signed8(u) == s
  {
    if s < 0 then s + 256 else s
  }

  /** `(signed(hi) << 4) | nibble`: a signed byte extended by four low bits is the 12-bit value they spell. */
  lemma NibbleExtend(hi: Byte, nibble: nat)
    requires nibble < 16
    ensures Or(Shl(Signed8(hi), 4), nibble) == Signed12(hi * 16 + nibble)
  {
    Pow2Table();
    OrShifted(Signed8(hi), nibble, 4);
  }

  /**
   * The second half of `_read_calibration_data`: H2 and H3 unpacked as `<hB`
   * from bytes E1 to E3, H4 from E4 and the low nibble of E5, H5 from E6 and
   * the high nibble of E5, each sign-extended from 12 bits, and H6 the signed
   * byte E7.
   */
  function UnpackHumidity(e: seq<Byte>): (h: HumidityCalibration)
    requires |e| == 7
    ensures h.h2 == Signed16(Le16(e[0], e[1])) && h.h3 == e[2]
    ensures h.h4 == Signed12(e[3] as int * 16 + e[4] % 16)
    ensures h.h5 == Signed12(e[5] as int * 16 + e[4] / 16)
    ensures h.h6 == Signed8(e[6])
  {
    Pow2Table();
    var e3 := e[..3];
    assert CalcSize([SShort, UByte]) == 3 by {
      assert [SShort, UByte][1..] == [UByte];
    }
    var h23 := Unpack([SShort, UByte], true, e3);
    assert h23[0] == Signed16(Le16(e[0], e[1])) && h23[1] == e[2] by {
      assert [SShort, UByte][1..] == [UByte];
      assert h23 == [DecodeItem(SShort, true, e3[..2])] + Unpack([UByte], true, e3[2..]);
      assert Unpack([UByte], true, e3[2..]) == [DecodeItem(UByte, true, e3[2..][..1])] + Unpack([], true, e3[2..][1..]);
      assert e3[..2] == [e[0], e[1]] && e3[2..][..1] == [e[2]];
    }
    var e4Sign := Signed8(e[3]);
    MaskLow(e[4], 4, 0xF);
    NibbleExtend(e[3], e[4] % 16);
    var h4 := Or(Shl(e4Sign, 4), And(e[4], 0xF));
    var e6Sign := Signed8(e[5]);
    ShrNat(e[4], 4);
    NibbleExtend(e[5], e[4] / 16);
    var h5 := Or(Shl(e6Sign, 4), Shr(e[4], 4));
    HumidityCalibration(h23[0], h23[1], h4, h5, Signed8(e[6]))
  }

  predicate HumidityInRange(h: HumidityCalibration)
  {
    -32768 <= h.h2 < 32768 && 0 <= h.h3 < 256 && -2048 <= h.h4 < 2048 && -2048 <= h.h5 < 2048 && -128 <= h.h6 < 128
  }

  /** The seven bytes that hold a set of humidity coefficients; E5 carries a nibble of H4 and one of H5. */
  function PackHumidity(h: HumidityCalibration): (e: seq<Byte>)
    requires HumidityInRange(h)
    ensures |e| == 7
  {
    var u2, u4, u5 := Unsigned16(h.h2), Unsigned12(h.h4), Unsigned12(h.h5);
    [u2 % 256, u2 / 256, h.h3, u4 / 16, (u5 % 16) * 16 + u4 % 16, u5 / 16, Unsigned8(h.h6)]
  }

  /** Unpacking loses nothing: the coefficients pack back into the block they came from. */
  lemma HumidityRoundTrip(e: seq<Byte>)
    requires |e| == 7
    ensures HumidityInRange(UnpackHumidity(e))
    ensures PackHumidity(UnpackHumidity(e)) == e
  {
    var h := UnpackHumidity(e);
    Signed16RoundTrip(Le16(e[0], e[1]));
    var x4, x5 := e[3] as int * 16 + e[4] % 16, e[5] as int * 16 + e[4] / 16;
    assert Unsigned12(h.h4) == x4;
    assert Unsigned12(h.h5) == x5;
    DivModUnique(x4, 16, e[3], e[4] % 16);
    DivModUnique(x5, 16, e[5], e[4] / 16);
    DivModUnique(e[4], 16, e[4] / 16, e[4] % 16);
    var p := PackHumidity(h);
    assert p[4] == e[4];
  }

  /** The humidity block of a sample device gives H2 = 364, H3 = 0, H4 = 314, H5 = 0 and H6 = 30. */
  lemma HumidityExample(e: seq<Byte>)
    requires |e| == 7 && e[0] == 108 && e[1] == 1 && e[2] == 0 && e[3] == 19 && e[4] == 10 && e[5] == 0 && e[6] == 30
    ensures UnpackHumidity(e) == HumidityCalibration(364, 0, 314, 0, 30)
  {
  }

  function Min(a: real, b: real): real
  {
    if a <= b then a else b
  }

  function Max(a: real, b: real): real
  {
    if a >= b then a else b
  }

  /** The reference for the clamps: `x` limited to [lo, hi] as `max(lo, min(hi, x))`. */
  function Clamp(x: real, lo: real, hi: real): real
  {
    Max(lo, Min(hi, x))
  }

  /** `_compensate_temperature`'s result: the BMP280 temperature limited to [-40, 85]. */
  function Temperature(c: Bmp280.Calibration, adcT: int): (t: real)
    ensures MIN_TEMPERATURE <= t <= MAX_TEMPERATURE
    ensures t == Clamp(Bmp280.Temperature(c, adcT), MIN_TEMPERATURE, MAX_TEMPERATURE)
  {
    var temperature := Bmp280.TempSum(c, adcT) / 5120.0;
    if temperature < MIN_TEMPERATURE then MIN_TEMPERATURE
    else if temperature > MAX_TEMPERATURE then MAX_TEMPERATURE
    else temperature
  }

  /** `_compensate_pressure`: 0 when the divisor vanishes, else the BMP280 pressure limited to [30000, 110000]. */
  function Pressure(c: Bmp280.Calibration, tFine: int, adcP: int): (p: real)
    ensures Bmp280.PressureDivisor(c, tFine) == 0.0 ==> p == 0.0
    ensures Bmp280.PressureDivisor(c, tFine) != 0.0 ==>
      MIN_PRESSURE <= p <= MAX_PRESSURE && p == Clamp(Bmp280.Pressure(c, tFine, adcP), MIN_PRESSURE, MAX_PRESSURE)
  {
    if Bmp280.PressureDivisor(c, tFine) == 0.0 then 0.0
    else
      var pressure := Bmp280.Pressure(c, tFine, adcP);
      if pressure < MIN_PRESSURE then MIN_PRESSURE
      else if pressure > MAX_PRESSURE then MAX_PRESSURE
      else pressure
  }

  /** The humidity formula before clamping, in percent. */
  function HumidityFormula(c: Bmp280.Calibration, hc: HumidityCalibration, tFine: int, adcH: int): real
  {
    var h := tFine as real - 76800.0;
    var h' := (adcH as real - (hc.h4 as real * 64.0 + hc.h5 as real / 16384.0 * h)) *
      (hc.h2 as real / 65536.0 * (1.0 + hc.h6 as real / 67108864.0 * h * (1.0 + hc.h3 as real / 67108864.0 * h)));
    h' * (1.0 - c.h1 as real * h' / 524288.0)
  }

  /** `_compensate_humidity`: the formula limited to [0, 100], the upper bound tested first. */
  function Humidity(c: Bmp280.Calibration, hc: HumidityCalibration, tFine: int, adcH: int): (h: real)
    ensures MIN_HUMIDITY <= h <= MAX_HUMIDITY
    ensures h == Clamp(HumidityFormula(c, hc, tFine, adcH), MIN_HUMIDITY, MAX_HUMIDITY)
  {
    var humidity := HumidityFormula(c, hc, tFine, adcH);
    if humidity > MAX_HUMIDITY then MAX_HUMIDITY
    else if humidity < MIN_HUMIDITY then MIN_HUMIDITY
    else humidity
  }

  /** The fetch of `_read_raw_sensor_data`: pressure, temperature, then humidity. */
  function RawPlan(addr: int): seq<Event>
  {
    [ReadBlock(addr, REG_PRESS, 3), ReadBlock(addr, REG_TEMP, 3), ReadBlock(addr, REG_HUM, 2)]
  }

  /** The writes of the constructor: ctrl_hum before ctrl_meas, then config. */
  function SetupPlan(addr: int): seq<Event>
  {
    [WriteByteData(addr, REG_CTRL_HUM, OSRS_H), WriteByteData(addr, REG_CTRL_MEAS, 0x27), WriteByteData(addr, REG_CONFIG, 0xA0)]
  }

  function AdcP(s: seq<Reply>): nat
    requires |s| >= 1 && Fits(s[0], 3)
  {
    Raw20(s[0].data[0], s[0].data[1], s[0].data[2])
  }

  function AdcT(s: seq<Reply>): nat
    requires |s| >= 2 && Fits(s[1], 3)
  {
    Raw20(s[1].data[0], s[1].data[1], s[1].data[2])
  }

  /** The 16-bit humidity code, always below 2^16. */
  function AdcH(s: seq<Reply>): (h: nat)
    requires |s| >= 3 && Fits(s[2], 2)
    ensures h < 65536
  {
    Word16(s[2].data[0], s[2].data[1])
  }

  class BME280 {
    const bus: Bus
    const addr: int
    const calibration: Bmp280.Calibration
    const humidityCalibration: HumidityCalibration
    var tFine: int
    var temperature: real
    var pressure: real
    var humidity: real

    constructor Init(bus: Bus, addr: int, calibration: Bmp280.Calibration, humidityCalibration: HumidityCalibration)
      ensures this.bus == bus && this.addr == addr
      ensures this.calibration == calibration && this.humidityCalibration == humidityCalibration
      ensures tFine == 0 && temperature == 0.0 && pressure == 0.0 && humidity == 0.0
    {
      this.bus, this.addr := bus, addr;
      this.calibration, this.humidityCalibration := calibration, humidityCalibration;
      tFine, temperature, pressure, humidity := 0, 0.0, 0.0, 0.0;
    }

    /** Reads both calibration blocks, then writes ctrl_hum, ctrl_meas and config. */
    static method Create(bus: Bus, addr: int) returns (r: Result<BME280>)
      modifies bus
      ensures var plan := [ReadBlock(addr, REG_CALIB, 26), ReadBlock(addr, REG_CALIB_HUM, 7)] + SetupPlan(addr);
        && (r.Ok? <==> Serves(old(bus.script), plan))
        && (r.Ok? ==> bus.log == old(bus.log) + plan && bus.script == old(bus.script)[5..])
      ensures r.Ok? ==> fresh(r.value) && r.value.bus == bus && r.value.addr == addr
      ensures r.Ok? ==> r.value.calibration == Bmp280.UnpackCalibration(old(bus.script)[0].data)
      ensures r.Ok? ==> r.value.humidityCalibration == UnpackHumidity(old(bus.script)[1].data)
      ensures r.Ok? ==> r.value.tFine == 0 && r.value.temperature == 0.0 && r.value.pressure == 0.0 && r.value.humidity == 0.0
      ensures r.Err? ==> r.error == IOError
    {
      ghost var s := bus.script;
      var calib := ReadCalibration(bus, addr);
      if calib.Err? {
        return Err(calib.error);
      }
      var d := new BME280.Init(bus, addr, calib.value.0, calib.value.1);
      var w := d.SetMeasAndHum();
      SplitServes(s, addr);
      if w.Err? {
        return Err(w.error);
      }
      assert s[2..][2..] == s[4..];
      w := d.SetConfig();
      if w.Err? {
        return Err(w.error);
      }
      r := Ok(d);
    }

    /** `_read_calibration_data`'s two block fetch. */
    static method ReadCalibration(bus: Bus, addr: int) returns (r: Result<(Bmp280.Calibration, HumidityCalibration)>)
      modifies bus
      ensures r.Ok? <==> Serves(old(bus.script), [ReadBlock(addr, REG_CALIB, 26), ReadBlock(addr, REG_CALIB_HUM, 7)])
      ensures r.Ok? ==> bus.log == old(bus.log) + [ReadBlock(addr, REG_CALIB, 26), ReadBlock(addr, REG_CALIB_HUM, 7)]
      ensures r.Ok? ==> bus.script == old(bus.script)[2..]
      ensures r.Ok? ==> r.value == (Bmp280.UnpackCalibration(old(bus.script)[0].data), UnpackHumidity(old(bus.script)[1].data))
      ensures r.Err? ==> r.error == IOError
    {
      ServesCons(bus.script, ReadBlock(addr, REG_CALIB, 26), [ReadBlock(addr, REG_CALIB_HUM, 7)]);
      var block := bus.ReadBlock(addr, REG_CALIB, 26);
      if block.Err? {
        return Err(block.error);
      }
      var e := bus.ReadBlock(addr, REG_CALIB_HUM, 7);
      if e.Err? {
        return Err(e.error);
      }
      r := Ok((Bmp280.UnpackCalibration(block.value), UnpackHumidity(e.value)));
    }

    /** `_set_meas_and_hum`: `_set_hum` (ctrl_hum = osrs_h), then `_set_meas` (ctrl_meas = 0x27). */
    method SetMeasAndHum() returns (r: Result<()>)
      modifies bus
      ensures r.Ok? <==> Serves(old(bus.script), SetupPlan(addr)[..2])
      ensures r.Ok? ==> bus.log == old(bus.log) + SetupPlan(addr)[..2] && bus.script == old(bus.script)[2..]
      ensures r.Err? ==> r.error == IOError
    {
      ServesCons(bus.script, SetupPlan(addr)[0], [SetupPlan(addr)[1]]);
      assert SetupPlan(addr)[..2] == [SetupPlan(addr)[0]] + [SetupPlan(addr)[1]];
      assert SetupPlan(addr)[..1] == [SetupPlan(addr)[0]];
      ZeroOr(OSRS_H);
      r := bus.WriteByteData(addr, REG_CTRL_HUM, Or(0, OSRS_H));
      if r.Err? {
        return;
      }
      Bmp280.DefaultSettings();
      r := bus.WriteByteData(addr, REG_CTRL_MEAS, Bmp280.CtrlMeas(Bmp280.OSRS_T, Bmp280.OSRS_P, Bmp280.POWER_MODE));
    }

    /** `_set_config`: writes config, 0xA0 with the default settings. */
    method SetConfig() returns (r: Result<()>)
      modifies bus
      ensures bus.log == old(bus.log) + [WriteByteData(addr, REG_CONFIG, 0xA0)]
      ensures bus.script == Tail(old(bus.script))
      ensures r.Ok? <==> Serves(old(bus.script), [WriteByteData(addr, REG_CONFIG, 0xA0)])
      ensures r.Err? ==> r.error == IOError
    {
      Bmp280.DefaultSettings();
      r := bus.WriteByteData(addr, REG_CONFIG, Bmp280.Config(Bmp280.T_SB, Bmp280.FILTER));
    }

    /** `_read_raw_sensor_data`: the codes (adc_p, adc_t, adc_h). */
    method ReadRawSensorData() returns (r: Result<(nat, nat, nat)>)
      modifies bus
      ensures r.Ok? <==> Serves(old(bus.script), RawPlan(addr))
      ensures r.Ok? ==> bus.log == old(bus.log) + RawPlan(addr) && bus.script == old(bus.script)[3..]
      ensures r.Ok? ==> r.value == (AdcP(old(bus.script)), AdcT(old(bus.script)), AdcH(old(bus.script)))
      ensures r.Err? ==> r.error == IOError
    {
      ServesCons(bus.script, RawPlan(addr)[0], RawPlan(addr)[1..]);
      ServesCons(Tail(bus.script), RawPlan(addr)[1], RawPlan(addr)[2..]);
      var p := bus.ReadBlock(addr, REG_PRESS, 3);
      if p.Err? {
        return Err(p.error);
      }
      var t := bus.ReadBlock(addr, REG_TEMP, 3);
      if t.Err? {
        return Err(t.error);
      }
      var h := bus.ReadBlock(addr, REG_HUM, 2);
      if h.Err? {
        return Err(h.error);
      }
      var adcP := Raw20(p.value[0], p.value[1], p.value[2]);
      var adcT := Raw20(t.value[0], t.value[1], t.value[2]);
      var adcH := Word16(h.value[0], h.value[1]);
      r := Ok((adcP, adcT, adcH));
    }

    /** `_compensate_temperature`: refreshes `t_fine` and returns the clamped temperature. */
    method CompensateTemperature(adcT: nat) returns (t: real)
      modifies this
      ensures tFine == Bmp280.TFine(calibration, adcT) && t == Temperature(calibration, adcT)
      ensures temperature == old(temperature) && pressure == old(pressure) && humidity == old(humidity)
    {
      var sum := Bmp280.TempSum(calibration, adcT);
      tFine := Bmp280.Trunc(sum);
      var temperature := sum / 5120.0;
      if temperature < MIN_TEMPERATURE {
        t := MIN_TEMPERATURE;
      } else if temperature > MAX_TEMPERATURE {
        t := MAX_TEMPERATURE;
      } else {
        t := temperature;
      }
    }

    method ReadTemperature() returns (r: Result<real>)
      modifies this, bus
      ensures r.Ok? <==> Serves(old(bus.script), RawPlan(addr))
      ensures r.Ok? ==> bus.log == old(bus.log) + RawPlan(addr) && bus.script == old(bus.script)[3..]
      ensures r.Ok? ==> tFine == Bmp280.TFine(calibration, AdcT(old(bus.script)))
      ensures r.Ok? ==> r.value == Temperature(calibration, AdcT(old(bus.script)))
      ensures r.Err? ==> r.error == IOError && tFine == old(tFine)
      ensures temperature == old(temperature) && pressure == old(pressure) && humidity == old(humidity)
    {
      var raw := ReadRawSensorData();
      if raw.Err? {
        return Err(raw.error);
      }
      var t := CompensateTemperature(raw.value.1);
      r := Ok(t);
    }

    /** Temperature is compensated first, so the pressure uses this reading's `t_fine`. */
    method ReadPressure() returns (r: Result<real>)
      modifies this, bus
      ensures r.Ok? <==> Serves(old(bus.script), RawPlan(addr))
      ensures r.Ok? ==> bus.log == old(bus.log) + RawPlan(addr) && bus.script == old(bus.script)[3..]
      ensures r.Ok? ==> var tf := Bmp280.TFine(calibration, AdcT(old(bus.script)));
        tFine == tf && r.value == Pressure(calibration, tf, AdcP(old(bus.script)))
      ensures r.Err? ==> r.error == IOError && tFine == old(tFine)
      ensures temperature == old(temperature) && pressure == old(pressure) && humidity == old(humidity)
    {
      var raw := ReadRawSensorData();
      if raw.Err? {
        return Err(raw.error);
      }
      var _ := CompensateTemperature(raw.value.1);
      r := Ok(Pressure(calibration, tFine, raw.value.0));
    }

    /** Temperature is compensated first, so the humidity uses this reading's `t_fine`. */
    method ReadHumidity() returns (r: Result<real>)
      modifies this, bus
      ensures r.Ok? <==> Serves(old(bus.script), RawPlan(addr))
      ensures r.Ok? ==> bus.log == old(bus.log) + RawPlan(addr) && bus.script == old(bus.script)[3..]
      ensures r.Ok? ==> var tf := Bmp280.TFine(calibration, AdcT(old(bus.script)));
        tFine == tf && r.value == Humidity(calibration, humidityCalibration, tf, AdcH(old(bus.script)))
      ensures r.Err? ==> r.error == IOError && tFine == old(tFine)
      ensures temperature == old(temperature) && pressure == old(pressure) && humidity == old(humidity)
    {
      var raw := ReadRawSensorData();
      if raw.Err? {
        return Err(raw.error);
      }
      var _ := CompensateTemperature(raw.value.1);
      r := Ok(Humidity(calibration, humidityCalibration, tFine, raw.value.2));
    }

    /** One raw read; temperature first, then pressure and humidity with the refreshed `t_fine`; all three cached. */
    method Measure() returns (r: Result<map<string, real>>)
      modifies this, bus
      ensures r.Ok? <==> Serves(old(bus.script), RawPlan(addr))
      ensures r.Ok? ==> bus.log == old(bus.log) + RawPlan(addr) && bus.script == old(bus.script)[3..]
      ensures r.Ok? ==> var s := old(bus.script); var tf := Bmp280.TFine(calibration, AdcT(s));
        && tFine == tf
        && temperature == Temperature(calibration, AdcT(s))
        && pressure == Pressure(calibration, tf, AdcP(s))
        && humidity == Humidity(calibration, humidityCalibration, tf, AdcH(s))
      ensures r.Ok? ==> r.value == map["temperature" := temperature, "humidity" := humidity, "pressure" := pressure]
      ensures r.Ok? ==> MIN_TEMPERATURE <= temperature <= MAX_TEMPERATURE && MIN_HUMIDITY <= humidity <= MAX_HUMIDITY
      ensures r.Ok? ==> pressure == 0.0 || MIN_PRESSURE <= pressure <= MAX_PRESSURE
      ensures r.Err? ==> r.error == IOError
      ensures r.Err? ==> tFine == old(tFine) && temperature == old(temperature)
      ensures r.Err? ==> pressure == old(pressure) && humidity == old(humidity)
    {
      var raw := ReadRawSensorData();
      if raw.Err? {
        return Err(raw.error);
      }
      temperature := CompensateTemperature(raw.value.1);
      pressure := Pressure(calibration, tFine, raw.value.0);
      humidity := Humidity(calibration, humidityCalibration, tFine, raw.value.2);
      r := Ok(map["temperature" := temperature, "humidity" := humidity, "pressure" := pressure]);
    }
  }

  /** A script serves the constructor's five transactions when it serves the fetch and then the writes. */
  lemma SplitServes(s: seq<Reply>, addr: int)
    ensures var fetch := [ReadBlock(addr, REG_CALIB, 26), ReadBlock(addr, REG_CALIB_HUM, 7)];
      Serves(s, fetch + SetupPlan(addr)) <==>
        Serves(s, fetch) && Serves(s[2..], SetupPlan(addr)[..2]) && Serves(s[4..], [SetupPlan(addr)[2]])
  {
    var fetch := [ReadBlock(addr, REG_CALIB, 26), ReadBlock(addr, REG_CALIB_HUM, 7)];
    var plan := fetch + SetupPlan(addr);
    if Serves(s, plan) {
      forall i | 0 <= i < 2 ensures Fits(s[2..][i], Size(SetupPlan(addr)[..2][i])) {
        assert plan[i + 2] == SetupPlan(addr)[i];
      }
      assert plan[4] == SetupPlan(addr)[2];
      assert plan[0] == fetch[0] && plan[1] == fetch[1];
    }
    if Serves(s, fetch) && Serves(s[2..], SetupPlan(addr)[..2]) && Serves(s[4..], [SetupPlan(addr)[2]]) {
      forall i | 0 <= i < 5 ensures Fits(s[i], Size(plan[i])) {
        if i >= 2 && i < 4 {
          assert s[2..][i - 2] == s[i];
        } else if i == 4 {
          assert s[4..][0] == s[4];
        }
      }
    }
  }
}
