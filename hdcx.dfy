/** The Texas Instruments HDC1008 temperature and humidity sensor driver (`senlib/i2c/sensors/hdcx.py`). */
module Hdc1008 {
  import opened Bits
  import opened Errors
  import opened Bus

  const DRIVER_NAME := "hdc1008"
  const ADDR := 0x40

  const REG_TMP := 0x00
  const REG_HUM := 0x01
  const REG_CONFIG := 0x02

  /** The configuration fields the driver writes: reset, heater, acquisition mode, battery status, resolutions. */
  const RST := 0
  const HEAT := 1
  const MODE := 1
  const BTST := 0
  const TRES := 0
  const HRES := 0

  /** The conversion wait after a trigger, in microseconds. */
  const CONVERSION_TIME: nat := 15000

  /**
   * The configuration register as the constructor assembles it with `|=`:
   * RST at bit 15, HEAT at 13, MODE at 12, BTST at 11, TRES at 10 and the two
   * HRES bits at 8-9, on a 16-bit register. The word is the sum of the
   * shifted fields, and every field can be read back from it.
   */
  function ConfigWord(rst: nat, heat: nat, mode: nat, btst: nat, tres: nat, hres: nat): (w: nat)
    requires rst < 2 && heat < 2 && mode < 2 && btst < 2 && tres < 2 && hres < 4
    ensures w == rst * 32768 + heat * 8192 + mode * 4096 + btst * 2048 + tres * 1024 + hres * 256
  {
    var settings: bv16 := 0;
    var s1 := settings | (rst as bv16 << 15);
    var s2 := s1 | (heat as bv16 << 13);
    var s3 := s2 | (mode as bv16 << 12);
    var s4 := s3 | (btst as bv16 << 11);
    var s5 := s4 | (tres as bv16 << 10);
    var s6 := s5 | (hres as bv16 << 8);
    s6 as nat
  }

  /** Every field can be read back from the configuration word; bit 14 and the low byte stay clear. */
  lemma ConfigRoundTrip(rst: nat, heat: nat, mode: nat, btst: nat, tres: nat, hres: nat)
    requires rst < 2 && heat < 2 && mode < 2 && btst < 2 && tres < 2 && hres < 4
    ensures var w := ConfigWord(rst, heat, mode, btst, tres, hres);
      && 0 <= w < 65536 && w % 256 == 0 && (w / 16384) % 2 == 0
      && w / 32768 == rst && (w / 8192) % 2 == heat && (w / 4096) % 2 == mode
      && (w / 2048) % 2 == btst && (w / 1024) % 2 == tres && (w / 256) % 4 == hres
  {
    var w := ConfigWord(rst, heat, mode, btst, tres, hres);
    DivModUnique(w, 256, rst * 128 + heat * 32 + mode * 16 + btst * 8 + tres * 4 + hres, 0);
    var b := w / 256;
    DivModUnique(b, 4, rst * 32 + heat * 8 + mode * 4 + btst * 2 + tres, hres);
    DivModUnique(b / 4, 2, rst * 16 + heat * 4 + mode * 2 + btst, tres);
    DivModUnique(b / 8, 2, rst * 8 + heat * 2 + mode, btst);
    DivModUnique(b / 16, 2, rst * 4 + heat, mode);
    DivModUnique(b / 32, 2, rst * 2, heat);
    DivModUnique(b / 64, 2, rst, 0);
    assert w / 1024 == b / 4 && w / 2048 == b / 8 && w / 4096 == b / 16;
    assert w / 8192 == b / 32 && w / 16384 == b / 64 && w / 32768 == b / 128;
  }

  /** With the driver's constants the word is 0x3000: heater on, temperature and humidity together. */
  lemma DefaultConfig()
    ensures ConfigWord(RST, HEAT, MODE, BTST, TRES, HRES) == 0x3000
  {
  }

  function Temperature(code: nat): (t: real)
    ensures code < 65536 ==> -40.0 <= t < 125.0
  {
    (code as real / 65536.0) * 165.0 - 40.0
  }

  function Humidity(code: nat): (h: real)
    ensures code < 65536 ==> 0.0 <= h < 100.0
  {
    (code as real / 65536.0) * 100.0
  }

  /** The first sample of the tests: bytes 95, 95 give about 21.47 degrees and bytes 145, 145 about 56.86 percent. */
  lemma MeasureExample()
    ensures Be16(95, 95) == 0x5F5F && Be16(145, 145) == 0x9191
    ensures 21.46 < Temperature(0x5F5F) < 21.48
    ensures 56.85 < Humidity(0x9191) < 56.87
  {
    assert Temperature(0x5F5F) == 4028475.0 / 65536.0 - 40.0;
    assert Humidity(0x9191) == 3726500.0 / 65536.0;
  }

  class HDC1008 {
    const bus: Bus
    const addr: int
    var temperature: real
    var humidity: real

    constructor Init(bus: Bus, addr: int)
      ensures this.bus == bus && this.addr == addr && temperature == 0.0 && humidity == 0.0
    {
      this.bus := bus;
      this.addr := addr;
      temperature, humidity := 0.0, 0.0;
    }

    /** Construction writes the configuration word to register 0x02; a bus failure propagates. */
    static method Create(bus: Bus, addr: int) returns (r: Result<HDC1008>)
      modifies bus
      ensures bus.log == old(bus.log) + [WriteWordData(addr, REG_CONFIG, 0x3000)]
      ensures r.Ok? <==> Serves(old(bus.script), [WriteWordData(addr, REG_CONFIG, 0x3000)])
      ensures r.Ok? ==> bus.script == old(bus.script)[1..]
      ensures r.Ok? ==> fresh(r.value) && r.value.bus == bus && r.value.addr == addr
      ensures r.Ok? ==> r.value.temperature == 0.0 && r.value.humidity == 0.0
      ensures r.Err? ==> r.error == IOError
    {
      var d := new HDC1008.Init(bus, addr);
      var settings := ConfigWord(RST, HEAT, MODE, BTST, TRES, HRES);
      DefaultConfig();
      var w := bus.WriteWordData(addr, REG_CONFIG, settings);
      if w.Err? {
        return Err(w.error);
      }
      r := Ok(d);
    }

    /** Writes the register pointer, waits for the conversion and reads the two result bytes. */
    method ReadCode(reg: int) returns (r: Result<nat>)
      modifies bus
      ensures r.Ok? <==> Serves(old(bus.script), [WriteByte(addr, reg), ReadByte(addr), ReadByte(addr)])
      ensures r.Ok? ==> bus.log == old(bus.log) + [WriteByte(addr, reg), Sleep(CONVERSION_TIME), ReadByte(addr), ReadByte(addr)]
      ensures r.Ok? ==> bus.script == old(bus.script)[3..]
      ensures r.Ok? ==> r.value == Be16(old(bus.script)[1].data[0], old(bus.script)[2].data[0])
      ensures r.Err? ==> r.error == IOError
      ensures r.Err? ==> old(bus.log) <= bus.log <= old(bus.log) + [WriteByte(addr, reg), Sleep(CONVERSION_TIME), ReadByte(addr), ReadByte(addr)]
    {
      var w := bus.WriteByte(addr, reg);
      if w.Err? {
        return Err(w.error);
      }
      bus.Sleep(CONVERSION_TIME);
      var msb := bus.ReadByte(addr);
      if msb.Err? {
        return Err(msb.error);
      }
      var lsb := bus.ReadByte(addr);
      if lsb.Err? {
        return Err(lsb.error);
      }
      r := Ok(Word16(msb.value, lsb.value));
    }

    method ReadTemperature() returns (r: Result<real>)
      modifies bus
      ensures r.Ok? <==> Serves(old(bus.script), [WriteByte(addr, REG_TMP), ReadByte(addr), ReadByte(addr)])
      ensures r.Ok? ==> bus.log == old(bus.log) + [WriteByte(addr, REG_TMP), Sleep(CONVERSION_TIME), ReadByte(addr), ReadByte(addr)]
      ensures r.Ok? ==> bus.script == old(bus.script)[3..]
      ensures r.Ok? ==> r.value == Temperature(Be16(old(bus.script)[1].data[0], old(bus.script)[2].data[0]))
      ensures r.Err? ==> r.error == IOError
    {
      var code := ReadCode(REG_TMP);
      if code.Err? {
        return Err(code.error);
      }
      r := Ok(Temperature(code.value));
    }

    method ReadHumidity() returns (r: Result<real>)
      modifies bus
      ensures r.Ok? <==> Serves(old(bus.script), [WriteByte(addr, REG_HUM), ReadByte(addr), ReadByte(addr)])
      ensures r.Ok? ==> bus.log == old(bus.log) + [WriteByte(addr, REG_HUM), Sleep(CONVERSION_TIME), ReadByte(addr), ReadByte(addr)]
      ensures r.Ok? ==> bus.script == old(bus.script)[3..]
      ensures r.Ok? ==> r.value == Humidity(Be16(old(bus.script)[1].data[0], old(bus.script)[2].data[0]))
      ensures r.Err? ==> r.error == IOError
    {
      var code := ReadCode(REG_HUM);
      if code.Err? {
        return Err(code.error);
      }
      r := Ok(Humidity(code.value));
    }

    /** Temperature first, then humidity; each is cached as soon as its own read succeeds. */
    method Measure() returns (r: Result<map<string, real>>)
      modifies this, bus
      ensures r.Ok? <==> Serves(old(bus.script), [WriteByte(addr, REG_TMP), ReadByte(addr), ReadByte(addr),
                                                  WriteByte(addr, REG_HUM), ReadByte(addr), ReadByte(addr)])
      ensures r.Ok? ==> bus.log == old(bus.log) + [WriteByte(addr, REG_TMP), Sleep(CONVERSION_TIME), ReadByte(addr), ReadByte(addr),
                                                    WriteByte(addr, REG_HUM), Sleep(CONVERSION_TIME), ReadByte(addr), ReadByte(addr)]
      ensures r.Ok? ==> bus.script == old(bus.script)[6..]
      ensures Serves(old(bus.script), [WriteByte(addr, REG_TMP), ReadByte(addr), ReadByte(addr)]) ==>
        temperature == Temperature(Be16(old(bus.script)[1].data[0], old(bus.script)[2].data[0]))
      ensures r.Ok? ==> humidity == Humidity(Be16(old(bus.script)[4].data[0], old(bus.script)[5].data[0]))
      ensures r.Ok? ==> r.value == map["temperature" := temperature, "humidity" := humidity]
      ensures r.Err? ==> r.error == IOError && humidity == old(humidity)
      ensures r.Err? && !Serves(old(bus.script), [WriteByte(addr, REG_TMP), ReadByte(addr), ReadByte(addr)]) ==>
        temperature == old(temperature)
    {
      var t := ReadTemperature();
      if t.Err? {
        return Err(t.error);
      }
      temperature := t.value;
      var h := ReadHumidity();
      if h.Err? {
        return Err(h.error);
      }
      humidity := h.value;
      r := Ok(map["temperature" := temperature, "humidity" := humidity]);
    }
  }
}
