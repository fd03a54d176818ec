/** The Rohm BH1750 ambient light sensor driver (`senlib/i2c/sensors/bhx.py`). */
module Bh1750 {
  import opened Bits
  import opened Errors
  import opened Bus

  const DRIVER_NAME := "bh1750"
  const ADDR_L := 0x23
  const ADDR_H := 0x5C

  const CMD_PWR_DOWN := 0x00
  const CMD_PWR_ON := 0x01
  const CMD_RST := 0x07
  const CMD_HRES_MEAS_C := 0x10
  const CMD_HRES2_MEAS_C := 0x11
  const CMD_LRES_MEAS_C := 0x13
  const CMD_HRES_MEAS := 0x20
  const CMD_HRES2_MEAS := 0x21
  const CMD_LRES_MEAS := 0x23

  /** Maximum measurement times, in microseconds. */
  const MAX_TIME_HRES: nat := 180000
  const MAX_TIME_HRES2: nat := 180000
  const MAX_TIME_LRES: nat := 24000

  const MODE_HRES := 0
  const MODE_HRES2 := 1
  const MODE_LRES := 2
  const MODE_HRES_C := 3
  const MODE_HRES2_C := 4
  const MODE_LRES_C := 5

  /** A row of the mode table: the measurement command and its maximum measurement time. */
  datatype ModeData = ModeData(cmd: int, maxTime: nat)

  const MODES: map<int, ModeData> := map[
    MODE_HRES := ModeData(CMD_HRES_MEAS, MAX_TIME_HRES),
    MODE_HRES2 := ModeData(CMD_HRES2_MEAS, MAX_TIME_HRES2),
    MODE_LRES := ModeData(CMD_LRES_MEAS, MAX_TIME_LRES),
    MODE_HRES_C := ModeData(CMD_HRES_MEAS_C, MAX_TIME_HRES),
    MODE_HRES2_C := ModeData(CMD_HRES2_MEAS_C, MAX_TIME_HRES2),
    MODE_LRES_C := ModeData(CMD_LRES_MEAS_C, MAX_TIME_LRES)
  ]

  /** The table has the six modes 0..5, one-shot and continuous, with their commands. */
  lemma ModeTable()
    ensures MODES.Keys == {0, 1, 2, 3, 4, 5}
    ensures forall m :: m in MODES ==> MODES[m].maxTime in {MAX_TIME_HRES, MAX_TIME_LRES}
    ensures MODES[MODE_LRES].maxTime == MODES[MODE_LRES_C].maxTime == 24000
  {
  }

  /** The mode `_set_mode` keeps: the requested one if the table has it, high resolution otherwise. */
  function SelectMode(m: int): (r: int)
    ensures r in MODES
    ensures r == m <==> m in MODES
    ensures m !in MODES ==> r == MODE_HRES
  {
    if m in MODES then m else MODE_HRES
  }

  /** The illuminance in lux from the two result bytes: the 16-bit count divided by 1.2. */
  function Illuminance(msb: Byte, lsb: Byte): (lx: real)
    ensures 1.2 * lx == Be16(msb, lsb) as real
    ensures 0.0 <= lx <= 65535.0 / 1.2
  {
    var word := Word16(msb, lsb);
    word as real / 1.2
  }

  lemma IlluminanceExamples()
    ensures Illuminance(0, 9) == 7.5
    ensures Illuminance(7, 211) == 2003.0 / 1.2
  {
  }

  class BH1750 {
    const bus: Bus
    const addr: int
    var illuminance: real
    var mode: int
    var modeData: ModeData

    /** The mode data always belongs to the mode: the table row of `mode`. */
    predicate Valid()
      reads this
    {
      mode in MODES && modeData == MODES[mode]
    }

    constructor Init(bus: Bus, addr: int)
      ensures this.bus == bus && this.addr == addr && illuminance == 0.0
      ensures Valid() && mode == MODE_HRES
    {
      this.bus := bus;
      this.addr := addr;
      illuminance := 0.0;
      mode := MODE_HRES;
      modeData := MODES[MODE_HRES];
    }

    /**
     * Construction powers the sensor on, selects high-resolution mode and
     * resets it, in that order; a bus failure propagates.
     */
    static method Create(bus: Bus, addr: int) returns (r: Result<BH1750>)
      modifies bus
      ensures r.Ok? <==> Serves(old(bus.script), [WriteByte(addr, CMD_PWR_ON), WriteByte(addr, CMD_RST)])
      ensures r.Ok? ==> bus.log == old(bus.log) + [WriteByte(addr, CMD_PWR_ON), WriteByte(addr, CMD_RST)]
      ensures r.Ok? ==> bus.script == old(bus.script)[2..]
      ensures r.Ok? ==> fresh(r.value) && r.value.bus == bus && r.value.addr == addr
      ensures r.Ok? ==> r.value.Valid() && r.value.mode == MODE_HRES && r.value.illuminance == 0.0
      ensures r.Err? ==> r.error == IOError
      ensures r.Err? ==> old(bus.log) <= bus.log <= old(bus.log) + [WriteByte(addr, CMD_PWR_ON), WriteByte(addr, CMD_RST)]
    {
      var d := new BH1750.Init(bus, addr);
      var on := d.PowerOn();
      if on.Err? {
        return Err(on.error);
      }
      d.SetMode(MODE_HRES);
      var rst := d.Reset();
      if rst.Err? {
        return Err(rst.error);
      }
      r := Ok(d);
    }

    method SetMode(m: int)
      modifies this
      ensures Valid()
      ensures mode == SelectMode(m)
      ensures illuminance == old(illuminance)
    {
      mode := if m in MODES then m else MODE_HRES;
      modeData := MODES[mode];
    }

    method PowerDown() returns (r: Result<()>)
      modifies bus
      ensures bus.log == old(bus.log) + [WriteByte(addr, CMD_PWR_DOWN)]
      ensures bus.script == if old(bus.script) == [] then [] else old(bus.script)[1..]
      ensures r.Ok? <==> Serves(old(bus.script), [WriteByte(addr, CMD_PWR_DOWN)])
      ensures r.Err? ==> r.error == IOError
    {
      r := bus.WriteByte(addr, CMD_PWR_DOWN);
    }

    method PowerOn() returns (r: Result<()>)
      modifies bus
      ensures bus.log == old(bus.log) + [WriteByte(addr, CMD_PWR_ON)]
      ensures bus.script == if old(bus.script) == [] then [] else old(bus.script)[1..]
      ensures r.Ok? <==> Serves(old(bus.script), [WriteByte(addr, CMD_PWR_ON)])
      ensures r.Err? ==> r.error == IOError
    {
      r := bus.WriteByte(addr, CMD_PWR_ON);
    }

    method Reset() returns (r: Result<()>)
      modifies bus
      ensures bus.log == old(bus.log) + [WriteByte(addr, CMD_RST)]
      ensures bus.script == if old(bus.script) == [] then [] else old(bus.script)[1..]
      ensures r.Ok? <==> Serves(old(bus.script), [WriteByte(addr, CMD_RST)])
      ensures r.Err? ==> r.error == IOError
    {
      r := bus.WriteByte(addr, CMD_RST);
    }

    /** The trigger always sends the one-shot high-resolution command, whatever the mode. */
    method TriggerMeasurement() returns (r: Result<()>)
      modifies bus
      ensures bus.log == old(bus.log) + [WriteByte(addr, CMD_HRES_MEAS)]
      ensures bus.script == if old(bus.script) == [] then [] else old(bus.script)[1..]
      ensures r.Ok? <==> Serves(old(bus.script), [WriteByte(addr, CMD_HRES_MEAS)])
      ensures r.Err? ==> r.error == IOError
    {
      r := bus.WriteByte(addr, CMD_HRES_MEAS);
    }

    /**
     * Triggers a measurement, waits twice the mode's maximum measurement time,
     * reads the two result bytes and caches the illuminance.
     */
    method ReadIlluminanceData() returns (r: Result<real>)
      requires Valid()
      modifies this, bus
      ensures Valid() && mode == old(mode)
      ensures r.Ok? <==> Serves(old(bus.script), [WriteByte(addr, CMD_HRES_MEAS), ReadBlock(addr, 0x00, 2)])
      ensures r.Ok? ==> bus.log == old(bus.log) + [WriteByte(addr, CMD_HRES_MEAS), Sleep(2 * modeData.maxTime), ReadBlock(addr, 0x00, 2)]
      ensures r.Ok? ==> bus.script == old(bus.script)[2..]
      ensures r.Ok? ==> r.value == illuminance == Illuminance(old(bus.script)[1].data[0], old(bus.script)[1].data[1])
      ensures r.Err? ==> r.error == IOError && illuminance == old(illuminance)
      ensures r.Err? ==> old(bus.log) <= bus.log <= old(bus.log) + [WriteByte(addr, CMD_HRES_MEAS), Sleep(2 * modeData.maxTime), ReadBlock(addr, 0x00, 2)]
    {
      var t := TriggerMeasurement();
      if t.Err? {
        return Err(t.error);
      }
      bus.Sleep(2 * modeData.maxTime);
      var data := bus.ReadBlock(addr, 0x00, 2);
      if data.Err? {
        return Err(data.error);
      }
      illuminance := Illuminance(data.value[0], data.value[1]);
      r := Ok(illuminance);
    }

    method Measure() returns (r: Result<map<string, real>>)
      requires Valid()
      modifies this, bus
      ensures Valid() && mode == old(mode)
      ensures r.Ok? <==> Serves(old(bus.script), [WriteByte(addr, CMD_HRES_MEAS), ReadBlock(addr, 0x00, 2)])
      ensures r.Ok? ==> bus.log == old(bus.log) + [WriteByte(addr, CMD_HRES_MEAS), Sleep(2 * modeData.maxTime), ReadBlock(addr, 0x00, 2)]
      ensures r.Ok? ==> bus.script == old(bus.script)[2..]
      ensures r.Ok? ==> illuminance == Illuminance(old(bus.script)[1].data[0], old(bus.script)[1].data[1])
      ensures r.Ok? ==> r.value == map["illuminance" := illuminance]
      ensures r.Err? ==> r.error == IOError && illuminance == old(illuminance)
    {
      var i := ReadIlluminanceData();
      if i.Err? {
        return Err(i.error);
      }
      r := Ok(map["illuminance" := illuminance]);
    }
  }
}
