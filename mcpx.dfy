/** The Microchip MCP9808 temperature sensor driver (`senlib/i2c/sensors/mcpx.py`). */
module Mcp9808 {
  import opened Bits
  import opened Errors
  import opened Bus

  const DRIVER_NAME := "mcp9808"
  const ADDR := 0x18
  const REG_TMP := 0x05
  const REG_DEVICE_ID := 0x07

  /** Two's-complement reading of a 13-bit field: the sensor's sign bit is bit 12. */
  function Signed13(v: nat): (s: int)
    requires v < 8192
    ensures -4096 <= s < 4096
    ensures (s - v) % 8192 == 0
  {
    if v >= 4096 then v - 8192 else v
  }

  /**
   * The SMBus word read puts the sensor's MSB in the low byte; the driver
   * swaps the two bytes back into the register's big-endian order.
   */
  function Swap(data: nat): (word: nat)
    requires data < 65536
    ensures word < 65536 && word / 256 == data % 256 && word % 256 == data / 256
  {
    var msb := And(data, 0x00FF);
    var lsb := Shr(And(data, 0xFF00), 8);
    SwapFields(data);
    OrByte(msb, lsb);
    Or(Shl(msb, 8), lsb)
  }

  lemma SwapFields(data: nat)
    requires data < 65536
    ensures And(data, 0x00FF) == data % 256
    ensures Shr(And(data, 0xFF00), 8) == data / 256
  {
    Pow2Table();
    MaskLow(data, 8, 0x00FF);
    MaskField(data, 8, 8, 0xFF00);
    FieldValue(data, 8, 8, 256, 256);
  }

  /**
   * The ambient temperature register: 12 bits of sixteenths of a degree and a
   * sign bit (bit 12) that subtracts 256 degrees; bits 13-15 (alert flags) are
   * ignored.
   */
  function DecodeTemperature(data: nat): (t: real)
    requires data < 65536
    ensures t == Signed13(Swap(data) % 8192) as real / 16.0
    ensures -256.0 <= t < 256.0
  {
    var word := Swap(data);
    var temperature := And(word, 0x0FFF) as real / 16.0;
    TemperatureFields(word);
    var v := word % 8192;
    assert Signed13(v) == v - (if v >= 4096 then 8192 else 0);
    if And(word, 0x1000) != 0 then temperature - 256.0 else temperature
  }

  lemma TemperatureFields(word: nat)
    requires word < 65536
    ensures And(word, 0x0FFF) == word % 4096
    ensures And(word, 0x1000) != 0 <==> word % 8192 >= 4096
    ensures word % 8192 == word % 4096 + (if And(word, 0x1000) != 0 then 4096 else 0)
  {
    Pow2Table();
    MaskLow(word, 12, 0x0FFF);
    MaskField(word, 12, 1, 0x1000);
    FieldValue(word, 12, 1, 4096, 2);
    var q, r := word / 4096, word % 4096;
    assert word == (q / 2) * 8192 + (q % 2 * 4096 + r);
    DivModUnique(word, 8192, q / 2, q % 2 * 4096 + r);
  }

  /** The alert flags in bits 13-15 of the register do not affect the reading. */
  lemma IgnoresFlagBits(a: nat, b: nat)
    requires a < 65536 && b < 65536
    requires Swap(a) % 8192 == Swap(b) % 8192
    ensures DecodeTemperature(a) == DecodeTemperature(b)
  {
    assert Signed13(Swap(a) % 8192) == Signed13(Swap(b) % 8192);
  }

  /** A reading is a whole number of sixteenths of a degree. */
  lemma SixteenthSteps(data: nat)
    requires data < 65536
    ensures 16.0 * DecodeTemperature(data) == Signed13(Swap(data) % 8192) as real
  {
  }

  /** The words of the driver's test vectors and the temperatures they decode to. */
  lemma Decodes16833()
    ensures DecodeTemperature(16833) == 20.0625
  {
    DecodeOf(16833, 0xC1, 0x41, 321);
  }

  lemma Decodes17089()
    ensures DecodeTemperature(17089) == 20.125
  {
    DecodeOf(17089, 0xC1, 0x42, 322);
  }

  lemma Decodes17601()
    ensures DecodeTemperature(17601) == 20.25
  {
    DecodeOf(17601, 0xC1, 0x44, 324);
  }

  lemma DecodeOf(data: nat, lo: nat, hi: nat, v: nat)
    requires lo < 256 && hi < 256 && data == hi * 256 + lo
    requires v == (lo * 256 + hi) % 8192 && v < 4096
    ensures DecodeTemperature(data) == v as real / 16.0
  {
    SwapOf(data, lo, hi);
  }

  lemma SwapOf(data: nat, lo: nat, hi: nat)
    requires lo < 256 && hi < 256 && data == hi * 256 + lo
    ensures Swap(data) == lo * 256 + hi
  {
    var w := Swap(data);
    DivModUnique(data, 256, hi, lo);
    assert w == (w / 256) * 256 + w % 256;
  }

  class MCP9808 {
    const bus: Bus
    const addr: int
    const id: Byte
    var temperature: real

    constructor Init(bus: Bus, addr: int, id: Byte)
      ensures this.bus == bus && this.addr == addr && this.id == id && temperature == 0.0
    {
      this.bus := bus;
      this.addr := addr;
      this.id := id;
      temperature := 0.0;
    }

    /** Construction reads the device id register; a bus failure propagates. */
    static method Create(bus: Bus, addr: int) returns (r: Result<MCP9808>)
      modifies bus
      ensures bus.log == old(bus.log) + [ReadByteData(addr, REG_DEVICE_ID)]
      ensures r.Ok? <==> Serves(old(bus.script), [ReadByteData(addr, REG_DEVICE_ID)])
      ensures r.Ok? ==> bus.script == old(bus.script)[1..]
      ensures r.Ok? ==> fresh(r.value) && r.value.bus == bus && r.value.addr == addr
      ensures r.Ok? ==> r.value.id == old(bus.script)[0].data[0] && r.value.temperature == 0.0
      ensures r.Err? ==> r.error == IOError
    {
      var id := bus.ReadByteData(addr, REG_DEVICE_ID);
      if id.Err? {
        return Err(id.error);
      }
      var d := new MCP9808.Init(bus, addr, id.value);
      r := Ok(d);
    }

    method ReadTemperature() returns (r: Result<real>)
      modifies bus
      ensures bus.log == old(bus.log) + [ReadWordData(addr, REG_TMP)]
      ensures r.Ok? <==> Serves(old(bus.script), [ReadWordData(addr, REG_TMP)])
      ensures r.Ok? ==> bus.script == old(bus.script)[1..]
      ensures r.Ok? ==> r.value == DecodeTemperature(Le16(old(bus.script)[0].data[0], old(bus.script)[0].data[1]))
      ensures r.Err? ==> r.error == IOError
    {
      var data := bus.ReadWordData(addr, REG_TMP);
      if data.Err? {
        return Err(data.error);
      }
      r := Ok(DecodeTemperature(data.value));
    }

    /** Reads the temperature and caches it; the result has exactly the key "temperature". */
    method Measure() returns (r: Result<map<string, real>>)
      modifies this, bus
      ensures bus.log == old(bus.log) + [ReadWordData(addr, REG_TMP)]
      ensures r.Ok? <==> Serves(old(bus.script), [ReadWordData(addr, REG_TMP)])
      ensures r.Ok? ==> bus.script == old(bus.script)[1..]
      ensures r.Ok? ==> temperature == DecodeTemperature(Le16(old(bus.script)[0].data[0], old(bus.script)[0].data[1]))
      ensures r.Ok? ==> r.value == map["temperature" := temperature]
      ensures r.Err? ==> r.error == IOError && temperature == old(temperature)
    {
      var t := ReadTemperature();
      if t.Err? {
        return Err(t.error);
      }
      temperature := t.value;
      r := Ok(map["temperature" := temperature]);
    }
  }
}
