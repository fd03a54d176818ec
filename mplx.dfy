/**
 * The Freescale MPL115A2 and MPL3115A2 barometer drivers
 * (`senlib/i2c/sensors/mplx.py`). Of the MPL115A2 only the extraction of its
 * 10-bit ADC codes is modelled here.
 */
module Mpl3115a2 {
  import opened Bits
  import opened Errors
  import opened Bus

  const DRIVER_NAME := "mpl3115a2"
  const MPL115A2_DRIVER_NAME := "mpl115a2"
  const ADDR := 0x60

  const CTRL_REG1 := 0x26
  const PT_DATA_CFG := 0x13

  const MODE_BAROMETER := 0
  const MODE_ALTIMETER := 1
  const RAW := 0
  const OS := 0x7
  const RST := 0
  const OST := 0
  const SBYB := 1

  const DREM := 1
  const PDEFE := 1
  const TDEFE := 1

  /** The status register polled by `_wait`, and the pause between two polls in microseconds. */
  const REG_STATUS := 0x00
  const POLL_DELAY: nat := 300000

  /** The data registers: pressure MSB, CSB, LSB and temperature MSB, LSB. */
  const REG_P_MSB := 0x01
  const REG_P_CSB := 0x02
  const REG_P_LSB := 0x03
  const REG_T_MSB := 0x04
  const REG_T_LSB := 0x05

  /**
   * CTRL_REG1 as the constructor assembles it: the mode at bit 7, RAW at 6,
   * the oversampling ratio at 3-5, RST at 2, OST at 1 and SBYB at 0, an
   * 8-bit register. The byte is the sum of the shifted fields.
   */
  function Settings(mode: nat, raw: nat, os: nat, rst: nat, ost: nat, sbyb: nat): (b: nat)
    requires mode < 2 && raw < 2 && os < 8 && rst < 2 && ost < 2 && sbyb < 2
    ensures b == mode * 128 + raw * 64 + os * 8 + rst * 4 + ost * 2 + sbyb
  {
    var settings: bv8 := mode as bv8 << 7;
    var s1 := settings | (raw as bv8 << 6);
    var s2 := s1 | (os as bv8 << 3);
    var s3 := s2 | (rst as bv8 << 2);
    var s4 := s3 | (ost as bv8 << 1);
    var s5 := s4 | sbyb as bv8;
    s5 as nat
  }

  /** Every field of CTRL_REG1 can be read back from the byte. */
  lemma SettingsRoundTrip(mode: nat, raw: nat, os: nat, rst: nat, ost: nat, sbyb: nat)
    requires mode < 2 && raw < 2 && os < 8 && rst < 2 && ost < 2 && sbyb < 2
    ensures var b := Settings(mode, raw, os, rst, ost, sbyb);
      && b < 256 && b / 128 == mode && (b / 64) % 2 == raw && (b / 8) % 8 == os
      && (b / 4) % 2 == rst && (b / 2) % 2 == ost && b % 2 == sbyb
  {
    var b := Settings(mode, raw, os, rst, ost, sbyb);
    DivModUnique(b, 2, mode * 64 + raw * 32 + os * 4 + rst * 2 + ost, sbyb);
    DivModUnique(b / 2, 2, mode * 32 + raw * 16 + os * 2 + rst, ost);
    DivModUnique(b / 4, 2, mode * 16 + raw * 8 + os, rst);
    DivModUnique(b / 8, 8, mode * 2 + raw, os);
    DivModUnique(b / 64, 2, mode, raw);
    assert b / 4 == (b / 2) / 2 && b / 8 == (b / 4) / 2 && b / 64 == (b / 8) / 8 && b / 128 == (b / 64) / 2;
  }

  /** PT_DATA_CFG: the data-ready event flag at bit 2, pressure and temperature event flags at 1 and 0. */
  function PtDataCfg(drem: nat, pdefe: nat, tdefe: nat): (b: nat)
    requires drem < 2 && pdefe < 2 && tdefe < 2
    ensures b == drem * 4 + pdefe * 2 + tdefe
  {
    var cfg: bv8 := drem as bv8 << 2;
    var c1 := cfg | (pdefe as bv8 << 1);
    var c2 := c1 | tdefe as bv8;
    c2 as nat
  }

  /** With the driver's constants: barometer mode, oversampling 128, active; all three event flags on. */
  lemma DefaultConfig()
    ensures Settings(MODE_BAROMETER, RAW, OS, RST, OST, SBYB) == 0x39
    ensures PtDataCfg(DREM, PDEFE, TDEFE) == 0x07
  {
  }

  /**
   * Pressure as a Q18.2 fixed-point number: the 24-bit big-endian word of the
   * three data bytes keeps its top 20 bits, divided by 4.
   */
  function Pressure(msb: Byte, csb: Byte, lsb: Byte): (p: real)
    ensures 4.0 * p == ((msb * 65536 + csb * 256 + lsb) / 16) as real
    ensures 0.0 <= p < 262144.0
  {
    var pData := Shr(Word24(msb, csb, lsb), 4);
    ShrNat(Word24(msb, csb, lsb), 4);
    Pow2Table();
    pData as real / 4.0
  }

  /** Temperature as a Q8.4 fixed-point number: the top 12 bits of the word, divided by 16; no sign. */
  function Temperature(msb: Byte, lsb: Byte): (t: real)
    ensures 16.0 * t == (Be16(msb, lsb) / 16) as real
    ensures 0.0 <= t < 256.0
  {
    var tData := Shr(Word16(msb, lsb), 4);
    ShrNat(Word16(msb, lsb), 4);
    Pow2Table();
    tData as real / 16.0
  }

  /** The three measurements of the driver's tests, pressure read first. */
  lemma PressureExample1(msb: Byte, csb: Byte, lsb: Byte)
    requires msb == 91 && csb == 25 && lsb == 192
    ensures Pressure(msb, csb, lsb) == 93287.0
  {
    assert msb * 65536 + csb * 256 + lsb == 5970368 && 5970368 / 16 == 373148;
  }

  lemma PressureExample2(msb: Byte, csb: Byte, lsb: Byte)
    requires msb == 91 && csb == 25 && lsb == 224
    ensures Pressure(msb, csb, lsb) == 93287.5
  {
    assert msb * 65536 + csb * 256 + lsb == 5970400 && 5970400 / 16 == 373150;
  }

  lemma PressureExample3(msb: Byte, csb: Byte, lsb: Byte)
    requires msb == 91 && csb == 32 && lsb == 144
    ensures Pressure(msb, csb, lsb) == 93314.25
  {
    assert msb * 65536 + csb * 256 + lsb == 5972112 && 5972112 / 16 == 373257;
  }

  lemma TemperatureExample1(msb: Byte, lsb: Byte)
    requires msb == 20 && lsb == 48
    ensures Temperature(msb, lsb) == 20.1875
  {
    assert Be16(msb, lsb) == 5168 && 5168 / 16 == 323;
  }

  lemma TemperatureExample2(msb: Byte, lsb: Byte)
    requires msb == 20 && lsb == 32
    ensures Temperature(msb, lsb) == 20.125
  {
    assert Be16(msb, lsb) == 5152 && 5152 / 16 == 322;
  }

  lemma TemperatureExample3(msb: Byte, lsb: Byte)
    requires msb == 19 && lsb == 0
    ensures Temperature(msb, lsb) == 19.0
  {
    assert Be16(msb, lsb) == 4864 && 4864 / 16 == 304;
  }

  /** The MPL115A2's `((msb << 8) | lsb) >> 6`: the 10-bit ADC code in the top bits of the word. */
  function AdcCode(msb: Byte, lsb: Byte): (c: nat)
    ensures c == Be16(msb, lsb) / 64
    ensures c < 1024 && c == msb * 4 + lsb / 64
  {
    ShrNat(Word16(msb, lsb), 6);
    Pow2Table();
    Shr(Word16(msb, lsb), 6)
  }

  /** A status byte whose data-ready bit (0x08) is set. */
  predicate Ready(r: Reply)
  {
    Fits(r, 1) && And(r.data[0], 0x08) != 0
  }

  /** The data-ready flag is bit 3 of the status byte. */
  lemma ReadyBit(b: Byte)
    ensures And(b, 0x08) != 0 <==> (b / 8) % 2 == 1
  {
    Pow2Table();
    MaskField(b, 3, 1, 0x08);
    FieldValue(b, 3, 1, 8, 2);
  }

  /** How many replies `_wait` consumes from a script: up to and including the first ready or failed status read. */
  function PollLength(script: seq<Reply>): (n: nat)
    ensures n <= |script|
    ensures script != [] ==> n >= 1
    decreases |script|
  {
    if script == [] then 0
    else if !Fits(script[0], 1) || Ready(script[0]) then 1
    else 1 + PollLength(script[1..])
  }

  /** `_wait` returns (rather than raising) exactly when a ready status comes before any failure. */
  predicate PollSucceeds(script: seq<Reply>)
    decreases |script|
  {
    script != [] && Fits(script[0], 1) && (Ready(script[0]) || PollSucceeds(script[1..]))
  }

  /** The transactions and pauses of `_wait`: a status read, and a pause after every status that is not ready. */
  function PollLog(addr: int, script: seq<Reply>): seq<Event>
    decreases |script|
  {
    if script == [] || !Fits(script[0], 1) || Ready(script[0]) then [ReadByteData(addr, REG_STATUS)]
    else [ReadByteData(addr, REG_STATUS), Sleep(POLL_DELAY)] + PollLog(addr, script[1..])
  }

  /** The script after `_wait`. */
  function AfterPoll(script: seq<Reply>): seq<Reply>
  {
    script[PollLength(script)..]
  }

  /**
   * A successful wait stops at the first ready status: every status read before
   * it was a good byte without the flag, and one pause followed each of them.
   */
  lemma {:induction false} PollStopsAtFirstReady(addr: int, script: seq<Reply>)
    requires PollSucceeds(script)
    ensures 1 <= PollLength(script) <= |script|
    ensures Ready(script[PollLength(script) - 1])
    ensures forall i :: 0 <= i < PollLength(script) - 1 ==> Fits(script[i], 1) && !Ready(script[i])
    ensures |PollLog(addr, script)| == 2 * PollLength(script) - 1
    decreases |script|
  {
    if !Ready(script[0]) {
      var rest := script[1..];
      PollStopsAtFirstReady(addr, rest);
      forall i | 0 <= i < PollLength(script) - 1
        ensures Fits(script[i], 1) && !Ready(script[i])
      {
        if i > 0 {
          assert script[i] == rest[i - 1];
        }
      }
      assert script[PollLength(script) - 1] == rest[PollLength(rest) - 1];
    }
  }

  class MPL3115A2 {
    const bus: Bus
    const addr: int
    var pressure: real
    var temperature: real

    constructor Init(bus: Bus, addr: int)
      ensures this.bus == bus && this.addr == addr && pressure == 0.0 && temperature == 0.0
    {
      this.bus := bus;
      this.addr := addr;
      pressure, temperature := 0.0, 0.0;
    }

    /** Construction enables the event flags in PT_DATA_CFG and then writes CTRL_REG1. */
    static method Create(bus: Bus, addr: int) returns (r: Result<MPL3115A2>)
      modifies bus
      ensures r.Ok? <==> Serves(old(bus.script), [WriteByteData(addr, PT_DATA_CFG, 0x07), WriteByteData(addr, CTRL_REG1, 0x39)])
      ensures r.Ok? ==> bus.log == old(bus.log) + [WriteByteData(addr, PT_DATA_CFG, 0x07), WriteByteData(addr, CTRL_REG1, 0x39)]
      ensures r.Ok? ==> bus.script == old(bus.script)[2..]
      ensures r.Ok? ==> fresh(r.value) && r.value.bus == bus && r.value.addr == addr
      ensures r.Ok? ==> r.value.pressure == 0.0 && r.value.temperature == 0.0
      ensures r.Err? ==> r.error == IOError
    {
      var d := new MPL3115A2.Init(bus, addr);
      var settings := Settings(MODE_BAROMETER, RAW, OS, RST, OST, SBYB);
      var ptDataCfg := PtDataCfg(DREM, PDEFE, TDEFE);
      DefaultConfig();
      var w := bus.WriteByteData(addr, PT_DATA_CFG, ptDataCfg);
      if w.Err? {
        return Err(w.error);
      }
      w := bus.WriteByteData(addr, CTRL_REG1, settings);
      if w.Err? {
        return Err(w.error);
      }
      r := Ok(d);
    }

    /** `_wait`: polls the status register until the data-ready flag is set, pausing 0.3 s after each miss. */
    method Wait() returns (r: Result<()>)
      modifies bus
      ensures r.Ok? <==> PollSucceeds(old(bus.script))
      ensures bus.log == old(bus.log) + PollLog(addr, old(bus.script))
      ensures bus.script == AfterPoll(old(bus.script))
      ensures r.Err? ==> r.error == IOError
    {
      ghost var script0, log0 := bus.script, bus.log;
      while true
        invariant log0 + PollLog(addr, script0) == bus.log + PollLog(addr, bus.script)
        invariant PollSucceeds(script0) == PollSucceeds(bus.script)
        invariant AfterPoll(script0) == AfterPoll(bus.script)
        decreases |bus.script|
      {
        ghost var before := bus.script;
        var sta := bus.ReadByteData(addr, REG_STATUS);
        if sta.Err? {
          return Err(sta.error);
        }
        if And(sta.value, 0x08) != 0 {
          return Ok(());
        }
        bus.Sleep(POLL_DELAY);
        assert PollLength(before) == 1 + PollLength(before[1..]);
        assert before[1..][PollLength(before[1..])..] == before[PollLength(before)..];
      }
    }

    /** `_read_pressure_data`: optionally waits, then reads the three pressure bytes. */
    method ReadPressureData(wait: bool) returns (r: Result<real>)
      modifies bus
      ensures var s := if wait then AfterPoll(old(bus.script)) else old(bus.script);
        var plan := [ReadByteData(addr, REG_P_MSB), ReadByteData(addr, REG_P_CSB), ReadByteData(addr, REG_P_LSB)];
        && (r.Ok? <==> (wait ==> PollSucceeds(old(bus.script))) && Serves(s, plan))
        && (r.Ok? ==> bus.log == old(bus.log) + (if wait then PollLog(addr, old(bus.script)) else []) + plan)
        && (r.Ok? ==> bus.script == s[3..])
        && (r.Ok? ==> r.value == Pressure(s[0].data[0], s[1].data[0], s[2].data[0]))
      ensures r.Err? ==> r.error == IOError
    {
      if wait {
        var w := Wait();
        if w.Err? {
          return Err(w.error);
        }
      }
      r := ReadPressureRegisters();
    }

    /** The three pressure reads of `_read_pressure_data`. */
    method ReadPressureRegisters() returns (r: Result<real>)
      modifies bus
      ensures var plan := [ReadByteData(addr, REG_P_MSB), ReadByteData(addr, REG_P_CSB), ReadByteData(addr, REG_P_LSB)];
        && (r.Ok? <==> Serves(old(bus.script), plan))
        && (r.Ok? ==> bus.log == old(bus.log) + plan && bus.script == old(bus.script)[3..])
        && (r.Ok? ==> r.value == Pressure(old(bus.script)[0].data[0], old(bus.script)[1].data[0], old(bus.script)[2].data[0]))
      ensures r.Err? ==> r.error == IOError
    {
      var msb := bus.ReadByteData(addr, REG_P_MSB);
      if msb.Err? {
        return Err(msb.error);
      }
      var csb := bus.ReadByteData(addr, REG_P_CSB);
      if csb.Err? {
        return Err(csb.error);
      }
      var lsb := bus.ReadByteData(addr, REG_P_LSB);
      if lsb.Err? {
        return Err(lsb.error);
      }
      r := Ok(Pressure(msb.value, csb.value, lsb.value));
    }

    /** `_read_temperature_data`: optionally waits, then reads the two temperature bytes. */
    method ReadTemperatureData(wait: bool) returns (r: Result<real>)
      modifies bus
      ensures var s := if wait then AfterPoll(old(bus.script)) else old(bus.script);
        var plan := [ReadByteData(addr, REG_T_MSB), ReadByteData(addr, REG_T_LSB)];
        && (r.Ok? <==> (wait ==> PollSucceeds(old(bus.script))) && Serves(s, plan))
        && (r.Ok? ==> bus.log == old(bus.log) + (if wait then PollLog(addr, old(bus.script)) else []) + plan)
        && (r.Ok? ==> bus.script == s[2..])
        && (r.Ok? ==> r.value == Temperature(s[0].data[0], s[1].data[0]))
      ensures r.Err? ==> r.error == IOError
    {
      if wait {
        var w := Wait();
        if w.Err? {
          return Err(w.error);
        }
      }
      r := ReadTemperatureRegisters();
    }

    /** The two temperature reads of `_read_temperature_data`. */
    method ReadTemperatureRegisters() returns (r: Result<real>)
      modifies bus
      ensures var plan := [ReadByteData(addr, REG_T_MSB), ReadByteData(addr, REG_T_LSB)];
        && (r.Ok? <==> Serves(old(bus.script), plan))
        && (r.Ok? ==> bus.log == old(bus.log) + plan && bus.script == old(bus.script)[2..])
        && (r.Ok? ==> r.value == Temperature(old(bus.script)[0].data[0], old(bus.script)[1].data[0]))
      ensures r.Err? ==> r.error == IOError
    {
      var msb := bus.ReadByteData(addr, REG_T_MSB);
      if msb.Err? {
        return Err(msb.error);
      }
      var lsb := bus.ReadByteData(addr, REG_T_LSB);
      if lsb.Err? {
        return Err(lsb.error);
      }
      r := Ok(Temperature(msb.value, lsb.value));
    }

    method ReadPressure() returns (r: Result<real>)
      modifies bus
      ensures var s := AfterPoll(old(bus.script));
        var plan := [ReadByteData(addr, REG_P_MSB), ReadByteData(addr, REG_P_CSB), ReadByteData(addr, REG_P_LSB)];
        && (r.Ok? <==> PollSucceeds(old(bus.script)) && Serves(s, plan))
        && (r.Ok? ==> bus.log == old(bus.log) + PollLog(addr, old(bus.script)) + plan && bus.script == s[3..])
        && (r.Ok? ==> r.value == Pressure(s[0].data[0], s[1].data[0], s[2].data[0]))
      ensures r.Err? ==> r.error == IOError
    {
      r := ReadPressureData(true);
    }

    method ReadTemperature() returns (r: Result<real>)
      modifies bus
      ensures var s := AfterPoll(old(bus.script));
        var plan := [ReadByteData(addr, REG_T_MSB), ReadByteData(addr, REG_T_LSB)];
        && (r.Ok? <==> PollSucceeds(old(bus.script)) && Serves(s, plan))
        && (r.Ok? ==> bus.log == old(bus.log) + PollLog(addr, old(bus.script)) + plan && bus.script == s[2..])
        && (r.Ok? ==> r.value == Temperature(s[0].data[0], s[1].data[0]))
      ensures r.Err? ==> r.error == IOError
    {
      r := ReadTemperatureData(true);
    }

    /** Waits once, reads pressure and then temperature without waiting again, and caches both. */
    method Measure() returns (r: Result<map<string, real>>)
      modifies this, bus
      ensures var s := AfterPoll(old(bus.script));
        var plan := [ReadByteData(addr, REG_P_MSB), ReadByteData(addr, REG_P_CSB), ReadByteData(addr, REG_P_LSB),
                      ReadByteData(addr, REG_T_MSB), ReadByteData(addr, REG_T_LSB)];
        && (r.Ok? <==> PollSucceeds(old(bus.script)) && Serves(s, plan))
        && (r.Ok? ==> bus.log == old(bus.log) + PollLog(addr, old(bus.script)) + plan && bus.script == s[5..])
        && (r.Ok? ==> temperature == Temperature(s[3].data[0], s[4].data[0]))
      ensures r.Ok? ==> r.value == map["pressure" := pressure, "temperature" := temperature]
      ensures r.Err? ==> r.error == IOError && temperature == old(temperature)
      ensures var s := AfterPoll(old(bus.script));
        var pplan := [ReadByteData(addr, REG_P_MSB), ReadByteData(addr, REG_P_CSB), ReadByteData(addr, REG_P_LSB)];
        && (PollSucceeds(old(bus.script)) && Serves(s, pplan) ==> pressure == Pressure(s[0].data[0], s[1].data[0], s[2].data[0]))
        && (!(PollSucceeds(old(bus.script)) && Serves(s, pplan)) ==> pressure == old(pressure))
    {
      var p := ReadPressureData(true);
      if p.Err? {
        return Err(p.error);
      }
      pressure := p.value;
      var t := ReadTemperatureData(false);
      if t.Err? {
        return Err(t.error);
      }
      temperature := t.value;
      r := Ok(map["pressure" := pressure, "temperature" := temperature]);
    }
  }
}
