/** The Silicon Labs SI7021 humidity and temperature sensor driver (`senlib/i2c/sensors/six.py`). */
module Si7021 {
  import opened Bits
  import opened Errors
  import opened Bus

  const DRIVER_NAME := "si7021"
  const ADDR := 0x40

  const CMD_MEASURE_HUM := 0xF5
  const CMD_MEASURE_TEMP := 0xF3

  /** The wait between a measurement command and reading its result, in microseconds. */
  const MEASURE_TIME: nat := 250000

  /** The temperature formula of the data sheet; a 16-bit code gives -46.85 up to (not including) 128.87 degrees. */
  function Temperature(code: nat): (t: real)
    ensures code < 65536 ==> -46.85 <= t < 128.87
    ensures code == 0 ==> t == -46.85
  {
    175.72 * code as real / 65536.0 - 46.85
  }

  /** The relative humidity formula of the data sheet; a 16-bit code gives -6 up to (not including) 119 percent. */
  function Humidity(code: nat): (h: real)
    ensures code < 65536 ==> -6.0 <= h < 119.0
    ensures code == 0 ==> h == -6.0
  {
    125.0 * code as real / 65536.0 - 6.0
  }

  /** Both conversions are strictly increasing in the code. */
  lemma ConversionsIncrease(a: nat, b: nat)
    requires a < b
    ensures Temperature(a) < Temperature(b)
    ensures Humidity(a) < Humidity(b)
  {
    assert 175.72 * a as real < 175.72 * b as real;
    assert 125.0 * a as real < 125.0 * b as real;
  }

  class SI7021 {
    const bus: Bus
    const addr: int
    var temperature: real
    var humidity: real

    /** Construction talks to no device. */
    constructor (bus: Bus, addr: int)
      ensures this.bus == bus && this.addr == addr && temperature == 0.0 && humidity == 0.0
    {
      this.bus := bus;
      this.addr := addr;
      temperature, humidity := 0.0, 0.0;
    }

    /** Sends a measurement command, waits 0.25 s and reads the two result bytes, MSB first. */
    method ReadCode(cmd: int) returns (r: Result<nat>)
      modifies bus
      ensures r.Ok? <==> Serves(old(bus.script), [WriteByte(addr, cmd), ReadByte(addr), ReadByte(addr)])
      ensures r.Ok? ==> bus.log == old(bus.log) + [WriteByte(addr, cmd), Sleep(MEASURE_TIME), ReadByte(addr), ReadByte(addr)]
      ensures r.Ok? ==> bus.script == old(bus.script)[3..]
      ensures r.Ok? ==> r.value == Be16(old(bus.script)[1].data[0], old(bus.script)[2].data[0])
      ensures r.Err? ==> r.error == IOError
      ensures r.Err? ==> old(bus.log) <= bus.log <= old(bus.log) + [WriteByte(addr, cmd), Sleep(MEASURE_TIME), ReadByte(addr), ReadByte(addr)]
    {
      var w := bus.WriteByte(addr, cmd);
      if w.Err? {
        return Err(w.error);
      }
      bus.Sleep(MEASURE_TIME);
      var msb := bus.ReadByte(addr);
      if msb.Err? {
        return Err(msb.error);
      }
      var lsb := bus.ReadByte(addr);
      if lsb.Err? {
        return Err(lsb.error);
      }
      r := Ok(Word16(msb.value, lsb.value));
    }

    method ReadTemperature() returns (r: Result<real>)
      modifies bus
      ensures r.Ok? <==> Serves(old(bus.script), [WriteByte(addr, CMD_MEASURE_TEMP), ReadByte(addr), ReadByte(addr)])
      ensures r.Ok? ==> bus.log == old(bus.log) + [WriteByte(addr, CMD_MEASURE_TEMP), Sleep(MEASURE_TIME), ReadByte(addr), ReadByte(addr)]
      ensures r.Ok? ==> bus.script == old(bus.script)[3..]
      ensures r.Ok? ==> r.value == Temperature(Be16(old(bus.script)[1].data[0], old(bus.script)[2].data[0]))
      ensures r.Err? ==> r.error == IOError
    {
      var code := ReadCode(CMD_MEASURE_TEMP);
      if code.Err? {
        return Err(code.error);
      }
      r := Ok(Temperature(code.value));
    }

    method ReadHumidity() returns (r: Result<real>)
      modifies bus
      ensures r.Ok? <==> Serves(old(bus.script), [WriteByte(addr, CMD_MEASURE_HUM), ReadByte(addr), ReadByte(addr)])
      ensures r.Ok? ==> bus.log == old(bus.log) + [WriteByte(addr, CMD_MEASURE_HUM), Sleep(MEASURE_TIME), ReadByte(addr), ReadByte(addr)]
      ensures r.Ok? ==> bus.script == old(bus.script)[3..]
      ensures r.Ok? ==> r.value == Humidity(Be16(old(bus.script)[1].data[0], old(bus.script)[2].data[0]))
      ensures r.Err? ==> r.error == IOError
    {
      var code := ReadCode(CMD_MEASURE_HUM);
      if code.Err? {
        return Err(code.error);
      }
      r := Ok(Humidity(code.value));
    }

    /** Temperature first, then humidity; each is cached as soon as its own read succeeds. */
    method Measure() returns (r: Result<map<string, real>>)
      modifies this, bus
      ensures r.Ok? <==> Serves(old(bus.script), [WriteByte(addr, CMD_MEASURE_TEMP), ReadByte(addr), ReadByte(addr),
                                                  WriteByte(addr, CMD_MEASURE_HUM), ReadByte(addr), ReadByte(addr)])
      ensures r.Ok? ==> bus.log == old(bus.log) + [WriteByte(addr, CMD_MEASURE_TEMP), Sleep(MEASURE_TIME), ReadByte(addr), ReadByte(addr),
                                                    WriteByte(addr, CMD_MEASURE_HUM), Sleep(MEASURE_TIME), ReadByte(addr), ReadByte(addr)]
      ensures r.Ok? ==> bus.script == old(bus.script)[6..]
      ensures Serves(old(bus.script), [WriteByte(addr, CMD_MEASURE_TEMP), ReadByte(addr), ReadByte(addr)]) ==>
        temperature == Temperature(Be16(old(bus.script)[1].data[0], old(bus.script)[2].data[0]))
      ensures r.Ok? ==> humidity == Humidity(Be16(old(bus.script)[4].data[0], old(bus.script)[5].data[0]))
      ensures r.Ok? ==> r.value == map["temperature" := temperature, "humidity" := humidity]
      ensures r.Err? ==> r.error == IOError && humidity == old(humidity)
      ensures r.Err? && !Serves(old(bus.script), [WriteByte(addr, CMD_MEASURE_TEMP), ReadByte(addr), ReadByte(addr)]) ==>
        temperature == old(temperature)
    {
      var t := ReadTemperature();
      if t.Err? {
        return Err(t.error);
      }
      temperature := t.value;
      var h := ReadHumidity();
      if h.Err? {
        return Err(h.error);
      }
      humidity := h.value;
      r := Ok(map["temperature" := temperature, "humidity" := humidity]);
    }
  }
}
