/** The Maxim LM75 temperature sensor driver (`senlib/i2c/sensors/lmx.py`). */
module Lm75 {
  import opened Bits
  import opened Errors
  import opened Bus

  const DRIVER_NAME := "lm75"
  const ADDR := 0x48
  const REG_TMP := 0x00

  /**
   * The temperature register as returned by an SMBus word read: the low byte
   * of the word is the sensor's MSB (whole degrees) and bit 7 of the high byte
   * is the half-degree bit. There is no sign handling.
   */
  function DecodeTemperature(data: nat): (t: real)
    requires data < 65536
    ensures t == (data % 256) as real + (if data >= 32768 then 0.5 else 0.0)
    ensures 0.0 <= t <= 255.5
  {
    var msb := And(data, 0x00FF);
    var lsb := Shr(And(data, 0xFF00), 8);
    var t0 := msb;
    var t1 := Shr(And(lsb, 0x80), 7);
    WordFields(data);
    assert t1 == (if data >= 32768 then 1 else 0);
    t0 as real + 0.5 * t1 as real
  }

  /** What the masks and shifts of `DecodeTemperature` take out of the word. */
  lemma WordFields(data: nat)
    requires data < 65536
    ensures And(data, 0x00FF) == data % 256
    ensures Shr(And(data, 0xFF00), 8) == data / 256
    ensures Shr(And(data / 256, 0x80), 7) == data / 32768 == (if data >= 32768 then 1 else 0)
  {
    Pow2Table();
    MaskLow(data, 8, 0x00FF);
    MaskField(data, 8, 8, 0xFF00);
    FieldValue(data, 8, 8, 256, 256);
    MaskField(data / 256, 7, 1, 0x80);
    FieldValue(data / 256, 7, 1, 128, 2);
  }

  /** A reading is a whole number of half degrees. */
  lemma HalfDegreeSteps(data: nat)
    requires data < 65536
    ensures 2.0 * DecodeTemperature(data) == (2 * (data % 256) + data / 32768) as real
  {
    var half := data / 32768;
    assert half == (if data >= 32768 then 1 else 0);
  }

  /** Bits 0-6 of the high byte do not affect the reading. */
  lemma IgnoresLowBitsOfHighByte(a: nat, b: nat)
    requires a < 65536 && b < 65536
    requires a % 256 == b % 256 && a / 32768 == b / 32768
    ensures DecodeTemperature(a) == DecodeTemperature(b)
  {
    assert a >= 32768 <==> b >= 32768;
  }

  /** The words of the driver's test vectors and the temperatures they decode to. */
  lemma DecodeExamples(a: nat, b: nat, c: nat, d: nat)
    requires a == 57362 && b == 49171 && c == 22 && d == 32789
    ensures DecodeTemperature(a) == 18.5
    ensures DecodeTemperature(b) == 19.5
    ensures DecodeTemperature(c) == 22.0
    ensures DecodeTemperature(d) == 21.5
  {
    assert a % 256 == 18 && b % 256 == 19 && c % 256 == 22 && d % 256 == 21;
  }

  class LM75 {
    const bus: Bus
    const addr: int
    var temperature: real

    constructor (bus: Bus, addr: int)
      ensures this.bus == bus && this.addr == addr && temperature == 0.0
    {
      this.bus := bus;
      this.addr := addr;
      temperature := 0.0;
    }

    method ReadTemperature() returns (r: Result<real>)
      modifies bus
      ensures bus.log == old(bus.log) + [ReadWordData(addr, REG_TMP)]
      ensures r.Ok? <==> Serves(old(bus.script), [ReadWordData(addr, REG_TMP)])
      ensures r.Ok? ==> bus.script == old(bus.script)[1..]
      ensures r.Ok? ==> r.value == DecodeTemperature(Le16(old(bus.script)[0].data[0], old(bus.script)[0].data[1]))
      ensures r.Err? ==> r.error == IOError
    {
      var data := bus.ReadWordData(addr, REG_TMP);
      if data.Err? {
        return Err(data.error);
      }
      r := Ok(DecodeTemperature(data.value));
    }

    /** Reads the temperature and caches it; the result has exactly the key "temperature". */
    method Measure() returns (r: Result<map<string, real>>)
      modifies this, bus
      ensures bus.log == old(bus.log) + [ReadWordData(addr, REG_TMP)]
      ensures r.Ok? <==> Serves(old(bus.script), [ReadWordData(addr, REG_TMP)])
      ensures r.Ok? ==> bus.script == old(bus.script)[1..]
      ensures r.Ok? ==> temperature == DecodeTemperature(Le16(old(bus.script)[0].data[0], old(bus.script)[0].data[1]))
      ensures r.Ok? ==> r.value == map["temperature" := temperature]
      ensures r.Err? ==> r.error == IOError && temperature == old(temperature)
    {
      var t := ReadTemperature();
      if t.Err? {
        return Err(t.error);
      }
      temperature := t.value;
      r := Ok(map["temperature" := temperature]);
    }
  }
}
