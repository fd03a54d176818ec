/** The Sensirion SHT31 temperature and humidity sensor driver (`senlib/i2c/sensors/shtx.py`). */
module Sht31 {
  import opened Bits
  import opened Errors
  import opened Bus

  const DRIVER_NAME := "sht31"
  const ADDR1 := 0x44
  const ADDR2 := 0x45

  /** Single-shot measurement with clock stretching disabled (the source spells it CS_DISBALED). */
  const CS_DISABLED := 0x24
  const REP_HIGH := 0x00
  const REP_MEDIUM := 0x0B
  const REP_LOW := 0x16
  /** The wait for a high-repeatability measurement, in microseconds. */
  const REP_HIGH_S: nat := 15000
  const CMD_SOFT_RESET_MSB := 0x30
  const CMD_SOFT_RESET_LSB := 0xA2

  function TemperatureC(tRaw: int): (c: real)
    ensures 0 <= tRaw <= 65535 ==> -45.0 <= c <= 130.0
    ensures tRaw == 0 ==> c == -45.0
    ensures tRaw == 65535 ==> c == 130.0
  {
    -45.0 + (175 * tRaw) as real / 65535.0
  }

  /** The Fahrenheit formula is the Celsius one converted: `F = C * 9/5 + 32`. */
  function TemperatureF(tRaw: int): (f: real)
    ensures f == TemperatureC(tRaw) * 9.0 / 5.0 + 32.0
  {
    -49.0 + (315 * tRaw) as real / 65535.0
  }

  function Humidity(hRaw: int): (h: real)
    ensures 0 <= hRaw <= 65535 ==> 0.0 <= h <= 100.0
    ensures hRaw == 0 ==> h == 0.0
    ensures hRaw == 65535 ==> h == 100.0
  {
    100.0 * (hRaw as real / 65535.0)
  }

  /**
   * The two words of a measurement frame: bytes 0-1 are the temperature,
   * bytes 3-4 the humidity; the CRC bytes 2 and 5 are not looked at.
   */
  function DecodeFrame(data: seq<Byte>): (words: (nat, nat))
    requires |data| == 6
    ensures words == (Be16(data[0], data[1]), Be16(data[3], data[4]))
  {
    (Word16(data[0], data[1]), Word16(data[3], data[4]))
  }

  /** Changing the CRC bytes of a frame changes nothing. */
  lemma IgnoresCrcBytes(a: seq<Byte>, b: seq<Byte>)
    requires |a| == 6 && |b| == 6
    requires forall i :: 0 <= i < 6 && i != 2 && i != 5 ==> a[i] == b[i]
    ensures DecodeFrame(a) == DecodeFrame(b)
  {
    assert a[0] == b[0] && a[1] == b[1] && a[3] == b[3] && a[4] == b[4];
  }

  class SHT31 {
    const bus: Bus
    const addr: int
    var temperature: real
    var humidity: real
    var repeatability: int

    constructor Init(bus: Bus, addr: int)
      ensures this.bus == bus && this.addr == addr
      ensures temperature == 0.0 && humidity == 0.0 && repeatability == REP_HIGH
    {
      this.bus := bus;
      this.addr := addr;
      temperature, humidity := 0.0, 0.0;
      repeatability := REP_HIGH;
    }

    /** Construction issues a soft reset; a bus failure propagates. */
    static method Create(bus: Bus, addr: int) returns (r: Result<SHT31>)
      modifies bus
      ensures bus.log == old(bus.log) + [WriteByteData(addr, CMD_SOFT_RESET_MSB, CMD_SOFT_RESET_LSB)]
      ensures bus.script == Tail(old(bus.script))
      ensures r.Ok? <==> Serves(old(bus.script), [WriteByteData(addr, CMD_SOFT_RESET_MSB, CMD_SOFT_RESET_LSB)])
      ensures r.Ok? ==> fresh(r.value) && r.value.bus == bus && r.value.addr == addr
      ensures r.Ok? ==> r.value.temperature == 0.0 && r.value.humidity == 0.0 && r.value.repeatability == REP_HIGH
      ensures r.Err? ==> r.error == IOError
    {
      var d := new SHT31.Init(bus, addr);
      var reset := d.SoftReset();
      if reset.Err? {
        return Err(reset.error);
      }
      r := Ok(d);
    }

    method SoftReset() returns (r: Result<()>)
      modifies bus
      ensures bus.log == old(bus.log) + [WriteByteData(addr, CMD_SOFT_RESET_MSB, CMD_SOFT_RESET_LSB)]
      ensures bus.script == Tail(old(bus.script))
      ensures r.Ok? <==> Serves(old(bus.script), [WriteByteData(addr, CMD_SOFT_RESET_MSB, CMD_SOFT_RESET_LSB)])
      ensures r.Err? ==> r.error == IOError
    {
      r := bus.WriteByteData(addr, CMD_SOFT_RESET_MSB, CMD_SOFT_RESET_LSB);
    }

    method TriggerMeasurement() returns (r: Result<()>)
      modifies bus
      ensures bus.log == old(bus.log) + [WriteByteData(addr, CS_DISABLED, repeatability)]
      ensures bus.script == if old(bus.script) == [] then [] else old(bus.script)[1..]
      ensures r.Ok? <==> Serves(old(bus.script), [WriteByteData(addr, CS_DISABLED, repeatability)])
      ensures r.Err? ==> r.error == IOError
    {
      r := bus.WriteByteData(addr, CS_DISABLED, repeatability);
    }

    /** Triggers a measurement, waits 15 ms, reads the 6-byte frame and caches both values. */
    method ReadData() returns (r: Result<(real, real)>)
      modifies this, bus
      ensures repeatability == old(repeatability)
      ensures r.Ok? <==> Serves(old(bus.script), [WriteByteData(addr, CS_DISABLED, repeatability), ReadBlock(addr, 0x00, 6)])
      ensures r.Ok? ==> bus.log == old(bus.log) + [WriteByteData(addr, CS_DISABLED, repeatability), Sleep(REP_HIGH_S), ReadBlock(addr, 0x00, 6)]
      ensures r.Ok? ==> bus.script == old(bus.script)[2..]
      ensures r.Ok? ==> var words := DecodeFrame(old(bus.script)[1].data);
        temperature == TemperatureC(words.0) && humidity == Humidity(words.1)
      ensures r.Ok? ==> r.value == (temperature, humidity)
      ensures r.Err? ==> r.error == IOError && temperature == old(temperature) && humidity == old(humidity)
      ensures r.Err? ==> old(bus.log) <= bus.log <= old(bus.log) + [WriteByteData(addr, CS_DISABLED, repeatability), Sleep(REP_HIGH_S), ReadBlock(addr, 0x00, 6)]
    {
      var t := TriggerMeasurement();
      if t.Err? {
        return Err(t.error);
      }
      bus.Sleep(REP_HIGH_S);
      var data := bus.ReadBlock(addr, 0x00, 6);
      if data.Err? {
        return Err(data.error);
      }
      var words := DecodeFrame(data.value);
      temperature := TemperatureC(words.0);
      humidity := Humidity(words.1);
      r := Ok((temperature, humidity));
    }

    method ReadTemperature() returns (r: Result<real>)
      modifies this, bus
      ensures repeatability == old(repeatability)
      ensures r.Ok? <==> Serves(old(bus.script), [WriteByteData(addr, CS_DISABLED, repeatability), ReadBlock(addr, 0x00, 6)])
      ensures r.Ok? ==> bus.log == old(bus.log) + [WriteByteData(addr, CS_DISABLED, repeatability), Sleep(REP_HIGH_S), ReadBlock(addr, 0x00, 6)]
      ensures r.Ok? ==> bus.script == old(bus.script)[2..]
      ensures r.Ok? ==> var words := DecodeFrame(old(bus.script)[1].data);
        temperature == TemperatureC(words.0) && humidity == Humidity(words.1)
      ensures r.Ok? ==> r.value == temperature
      ensures r.Err? ==> r.error == IOError && temperature == old(temperature) && humidity == old(humidity)
      ensures r.Err? ==> old(bus.log) <= bus.log <= old(bus.log) + [WriteByteData(addr, CS_DISABLED, repeatability), Sleep(REP_HIGH_S), ReadBlock(addr, 0x00, 6)]
    {
      var d := ReadData();
      if d.Err? {
        return Err(d.error);
      }
      r := Ok(temperature);
    }

    method ReadHumidity() returns (r: Result<real>)
      modifies this, bus
      ensures repeatability == old(repeatability)
      ensures r.Ok? <==> Serves(old(bus.script), [WriteByteData(addr, CS_DISABLED, repeatability), ReadBlock(addr, 0x00, 6)])
      ensures r.Ok? ==> bus.log == old(bus.log) + [WriteByteData(addr, CS_DISABLED, repeatability), Sleep(REP_HIGH_S), ReadBlock(addr, 0x00, 6)]
      ensures r.Ok? ==> bus.script == old(bus.script)[2..]
      ensures r.Ok? ==> var words := DecodeFrame(old(bus.script)[1].data);
        temperature == TemperatureC(words.0) && humidity == Humidity(words.1)
      ensures r.Ok? ==> r.value == humidity
      ensures r.Err? ==> r.error == IOError && temperature == old(temperature) && humidity == old(humidity)
      ensures r.Err? ==> old(bus.log) <= bus.log <= old(bus.log) + [WriteByteData(addr, CS_DISABLED, repeatability), Sleep(REP_HIGH_S), ReadBlock(addr, 0x00, 6)]
    {
      var d := ReadData();
      if d.Err? {
        return Err(d.error);
      }
      r := Ok(humidity);
    }

    method Measure() returns (r: Result<map<string, real>>)
      modifies this, bus
      ensures repeatability == old(repeatability)
      ensures r.Ok? <==> Serves(old(bus.script), [WriteByteData(addr, CS_DISABLED, repeatability), ReadBlock(addr, 0x00, 6)])
      ensures r.Ok? ==> bus.log == old(bus.log) + [WriteByteData(addr, CS_DISABLED, repeatability), Sleep(REP_HIGH_S), ReadBlock(addr, 0x00, 6)]
      ensures r.Ok? ==> bus.script == old(bus.script)[2..]
      ensures r.Ok? ==> var words := DecodeFrame(old(bus.script)[1].data);
        temperature == TemperatureC(words.0) && humidity == Humidity(words.1)
      ensures r.Ok? ==> r.value == map["temperature" := temperature, "humidity" := humidity]
      ensures r.Err? ==> r.error == IOError && temperature == old(temperature) && humidity == old(humidity)
      ensures r.Err? ==> old(bus.log) <= bus.log <= old(bus.log) + [WriteByteData(addr, CS_DISABLED, repeatability), Sleep(REP_HIGH_S), ReadBlock(addr, 0x00, 6)]
    {
      var d := ReadData();
      if d.Err? {
        return Err(d.error);
      }
      r := Ok(map["temperature" := temperature, "humidity" := humidity]);
    }
  }
}
