/**
 * The Aosong AM2315 and AM2321 humidity and temperature sensor drivers
 * (`senlib/i2c/sensors/amx.py`): a Modbus-like read of four registers,
 * guarded by a minimum sampling period, with every bus failure swallowed.
 */
module Am2315 {
  import opened Bits
  import opened Bus

  const DRIVER_NAME := "am2315"
  const AM2321_DRIVER_NAME := "am2321"
  const ADDR := 0x5c

  const FC_READ_REG := 0x03
  const FC_WRITE_REG := 0x10

  const HUM_H := 0x00
  const HUM_L := 0x01
  const TMP_H := 0x02
  const TMP_L := 0x03

  /** Seconds that must pass between two reads of the device. */
  const MIN_SAMPLING_PERIOD: real := 2.0

  /** The wait between the read request and the read of the answer frame, in microseconds. */
  const READ_DELAY: nat := 1500

  // CRC-16/MODBUS: initial value 0xFFFF, reflected polynomial 0xA001, no final xor.
  // Every step (xor with a byte or with 0xA001, a right shift) keeps a 16-bit
  // value within 16 bits, so the register is a `bv16`.

  /** One shift of the CRC register, with the polynomial folded in when a one drops out. */
  function CrcShift(crc: bv16): bv16
  {
    if crc & 0x01 != 0 then (crc >> 1) ^ 0xA001 else crc >> 1
  }

  function CrcRounds(crc: bv16, k: nat): bv16
    decreases k
  {
    if k == 0 then crc else CrcRounds(CrcShift(crc), k - 1)
  }

  /** The register after one byte: the byte is xored in and eight shifts follow. */
  function CrcByte(crc: bv16, b: Byte): bv16
  {
    CrcRounds(crc ^ (b as bv16), 8)
  }

  /** The CRC-16/MODBUS of a byte string, byte by byte from the initial value 0xFFFF. */
  function Crc16(data: seq<Byte>): bv16
  {
    if data == [] then 0xFFFF else CrcByte(Crc16(data[..|data| - 1]), data[|data| - 1])
  }

  /** The low and high byte of the register, the order in which a frame carries its CRC. */
  function CrcLow(crc: bv16): Byte
  {
    (crc & 0xFF) as int
  }

  function CrcHigh(crc: bv16): Byte
  {
    (crc >> 8) as int
  }

  lemma Bv16RoundTrip(x: bv16)
    ensures (x as int) as bv16 == x
  {
  }

  /** Shifting zero never brings in the polynomial. */
  lemma {:induction false} RoundsOfZero(k: nat)
    ensures CrcRounds(0, k) == 0
    decreases k
  {
    if k > 0 {
      assert CrcShift(0) == 0;
      RoundsOfZero(k - 1);
    }
  }

  /** With a clear low byte, eight shifts just move the high byte down. */
  lemma RoundsOfHighByte(c: bv16)
    requires c & 0xFF == 0
    ensures CrcRounds(c, 8) == c >> 8
  {
    assert CrcRounds(c, 8) == CrcRounds(c >> 1, 7);
    assert CrcRounds(c >> 1, 7) == CrcRounds(c >> 2, 6);
    assert CrcRounds(c >> 2, 6) == CrcRounds(c >> 3, 5);
    assert CrcRounds(c >> 3, 5) == CrcRounds(c >> 4, 4);
    assert CrcRounds(c >> 4, 4) == CrcRounds(c >> 5, 3);
    assert CrcRounds(c >> 5, 3) == CrcRounds(c >> 6, 2);
    assert CrcRounds(c >> 6, 2) == CrcRounds(c >> 7, 1);
    assert CrcRounds(c >> 7, 1) == CrcRounds(c >> 8, 0);
  }

  /** Xoring in the low byte of the register clears it. */
  lemma LowByteXor(c: bv16)
    ensures c ^ (CrcLow(c) as bv16) == c & 0xFF00
  {
    Bv16RoundTrip(c & 0xFF);
  }

  /** The first frame of the driver's tests carries the CRC of its first six bytes. */
  lemma FrameCrcExample(f: seq<Byte>)
    requires |f| == 6 && f[0] == 3 && f[1] == 4 && f[2] == 1 && f[3] == 241 && f[4] == 0 && f[5] == 203
    ensures Crc16(f) == 0x70E0
  {
    FramePrefixCrc(f);
    assert Crc16(f[..4]) == 0xB581 by { ByteOf4(); CrcStep(f, 3, 0xC042, 0xB581); }
    assert Crc16(f[..5]) == 0x6075 by { ByteOf5(); CrcStep(f, 4, 0xB581, 0x6075); }
    assert f[..6] == f;
    ByteOf6();
    CrcStep(f, 5, 0x6075, 0x70E0);
  }

  /** The register after the first three bytes of that frame. */
  lemma FramePrefixCrc(f: seq<Byte>)
    requires |f| >= 3 && f[0] == 3 && f[1] == 4 && f[2] == 1
    ensures Crc16(f[..3]) == 0xC042
  {
    assert Crc16(f[..1]) == 0x41FF by {
      assert f[..0] == [];
      ByteOf1();
      CrcStep(f, 0, 0xFFFF, 0x41FF);
    }
    assert Crc16(f[..2]) == 0x8300 by { ByteOf2(); CrcStep(f, 1, 0x41FF, 0x8300); }
    ByteOf3();
    CrcStep(f, 2, 0x8300, 0xC042);
  }

  /** The register after each byte of that frame. */
  lemma ByteOf1()
    ensures CrcByte(0xFFFF, 3) == 0x41FF
  {
    ByteOf(0xFFFF, 3, 0xFFFC, 0x7FFE, 0x3FFF, 0xBFFE, 0x5FFF, 0x8FFE, 0x47FF, 0x83FE, 0x41FF);
  }

  lemma ByteOf2()
    ensures CrcByte(0x41FF, 4) == 0x8300
  {
    ByteOf(0x41FF, 4, 0x41FB, 0x80FC, 0x407E, 0x203F, 0xB01E, 0x580F, 0x8C06, 0x4603, 0x8300);
  }

  lemma ByteOf3()
    ensures CrcByte(0x8300, 1) == 0xC042
  {
    ByteOf(0x8300, 1, 0x8301, 0xE181, 0xD0C1, 0xC861, 0xC431, 0xC219, 0xC10D, 0xC087, 0xC042);
  }

  lemma ByteOf4()
    ensures CrcByte(0xC042, 241) == 0xB581
  {
    ByteOf(0xC042, 241, 0xC0B3, 0xC058, 0x602C, 0x3016, 0x180B, 0xAC04, 0x5602, 0x2B01, 0xB581);
  }

  lemma ByteOf5()
    ensures CrcByte(0xB581, 0) == 0x6075
  {
    ByteOf(0xB581, 0, 0xB581, 0xFAC1, 0xDD61, 0xCEB1, 0xC759, 0xC3AD, 0xC1D7, 0xC0EA, 0x6075);
  }

  lemma ByteOf6()
    ensures CrcByte(0x6075, 203) == 0x70E0
  {
    ByteOf(0x6075, 203, 0x60BE, 0x305F, 0xB82E, 0x5C17, 0x8E0A, 0x4705, 0x8383, 0xE1C0, 0x70E0);
  }

  /** One byte through the eight given register values. */
  lemma ByteOf(c: bv16, b: Byte, x0: bv16, x1: bv16, x2: bv16, x3: bv16, x4: bv16, x5: bv16, x6: bv16, x7: bv16, x8: bv16)
    requires x0 == c ^ (b as bv16)
    requires CrcShift(x0) == x1 && CrcShift(x1) == x2 && CrcShift(x2) == x3 && CrcShift(x3) == x4
    requires CrcShift(x4) == x5 && CrcShift(x5) == x6 && CrcShift(x6) == x7 && CrcShift(x7) == x8
    ensures CrcByte(c, b) == x8
  {
    assert CrcRounds(x0, 8) == CrcRounds(x1, 7);
    assert CrcRounds(x1, 7) == CrcRounds(x2, 6);
    assert CrcRounds(x2, 6) == CrcRounds(x3, 5);
    assert CrcRounds(x3, 5) == CrcRounds(x4, 4);
    assert CrcRounds(x4, 4) == CrcRounds(x5, 3);
    assert CrcRounds(x5, 3) == CrcRounds(x6, 2);
    assert CrcRounds(x6, 2) == CrcRounds(x7, 1);
    assert CrcRounds(x7, 1) == CrcRounds(x8, 0);
  }

  lemma CrcStep(f: seq<Byte>, i: nat, v: bv16, w: bv16)
    requires i < |f| && Crc16(f[..i]) == v && CrcByte(v, f[i]) == w
    ensures Crc16(f[..i + 1]) == w
  {
    CrcPrefix(f, i);
  }

  /** Feeding the register its own low byte leaves its high byte. */
  lemma LowByteStep(c: bv16)
    ensures CrcByte(c, CrcLow(c)) == CrcHigh(c) as bv16
  {
    LowByteXor(c);
    RoundsOfHighByte(c & 0xFF00);
    Bv16RoundTrip(c >> 8);
  }

  /** Feeding a register holding one byte that same byte leaves zero. */
  lemma SameByteStep(h: Byte)
    ensures CrcByte(h as bv16, h) == 0
  {
    assert (h as bv16) ^ (h as bv16) == 0;
    RoundsOfZero(8);
  }

  /** Appending a frame's CRC, low byte first, leaves a zero register: the check a receiver makes. */
  lemma CrcResidue(data: seq<Byte>)
    ensures Crc16(data + [CrcLow(Crc16(data)), CrcHigh(Crc16(data))]) == 0
  {
    var c := Crc16(data);
    var lo, hi := CrcLow(c), CrcHigh(c);
    CrcAppend(data, lo);
    assert data + [lo, hi] == (data + [lo]) + [hi];
    CrcAppend(data + [lo], hi);
    ResidueBytes(c);
  }

  /** Feeding the register its own low byte and then its high byte leaves zero. */
  lemma ResidueBytes(c: bv16)
    ensures CrcByte(CrcByte(c, CrcLow(c)), CrcHigh(c)) == 0
  {
    LowByteStep(c);
    SameByteStep(CrcHigh(c));
  }

  /** The CRC of a sequence with one more byte. */
  lemma CrcAppend(p: seq<Byte>, b: Byte)
    ensures Crc16(p + [b]) == CrcByte(Crc16(p), b)
  {
    assert (p + [b])[..|p|] == p;
  }

  lemma ByteIsRounds(crc: bv16, b: Byte)
    ensures CrcByte(crc, b) == CrcRounds(crc ^ (b as bv16), 8)
  {
  }

  /** The CRC of one more byte of a prefix. */
  lemma CrcPrefix(data: seq<Byte>, i: nat)
    requires i < |data|
    ensures Crc16(data[..i + 1]) == CrcByte(Crc16(data[..i]), data[i])
  {
    assert data[..i + 1][..i] == data[..i];
  }

  /** `_compute_crc16(data, length)`: for each of the first `length` bytes, xor it in and shift eight times. */
  method ComputeCrc16(data: seq<Byte>, length: nat) returns (crc: bv16)
    requires length <= |data|
    ensures crc == Crc16(data[..length])
  {
    crc := 0xFFFF;
    for i := 0 to length
      invariant crc == Crc16(data[..i])
    {
      crc := ShiftByte(crc, data[i]);
      CrcPrefix(data, i);
    }
  }

  /** The body of the outer loop: the byte is xored in, then the inner loop shifts eight times. */
  method ShiftByte(before: bv16, b: Byte) returns (crc: bv16)
    ensures crc == CrcByte(before, b)
  {
    crc := before ^ (b as bv16);
    ghost var start := crc;
    for j := 0 to 8
      invariant CrcRounds(crc, 8 - j) == CrcRounds(start, 8)
    {
      if crc & 0x01 != 0 {
        crc := crc >> 1;
        crc := crc ^ 0xA001;
      } else {
        crc := crc >> 1;
      }
    }
    assert CrcRounds(crc, 0) == crc;
    ByteIsRounds(before, b);
  }

  /** The frame answering a read of four registers: humidity and temperature in tenths, both unsigned. */
  function DecodeFrame(vals: seq<Byte>): (r: (real, real))
    requires |vals| == 8
    ensures 10.0 * r.0 == Be16(vals[2], vals[3]) as real && 10.0 * r.1 == Be16(vals[4], vals[5]) as real
    ensures 0.0 <= r.0 <= 6553.5 && 0.0 <= r.1 <= 6553.5
  {
    var hum := Word16(vals[2], vals[3]);
    var temp := Word16(vals[4], vals[5]);
    (hum as real / 10.0, temp as real / 10.0)
  }

  /** The CRC bytes (and the function code and length bytes) of a frame do not affect the reading. */
  lemma DecodeIgnoresCrc(a: seq<Byte>, b: seq<Byte>)
    requires |a| == 8 && |b| == 8 && a[2..6] == b[2..6]
    ensures DecodeFrame(a) == DecodeFrame(b)
  {
    assert a[2] == a[2..6][0] && a[3] == a[2..6][1] && a[4] == a[2..6][2] && a[5] == a[2..6][3];
  }

  /** The first frame of the driver's tests reads 49.7 percent and 20.3 degrees. */
  lemma DecodeExample(f: seq<Byte>)
    requires |f| == 8 && f[2] == 1 && f[3] == 241 && f[4] == 0 && f[5] == 203
    ensures DecodeFrame(f) == (49.7, 20.3)
  {
  }

  /** The request sent before each read: function code 0x03 for registers 0x00 to 0x03. */
  const REQUEST: seq<int> := [0x00, 0x04]

  /**
   * The AM2315, and the AM2321, which behaves the same and differs only in
   * its driver name. `_time`, the time of the last read, starts at 0.
   */
  class AM2315 {
    const bus: Bus
    const addr: int
    const driverName: string
    var temperature: real
    var humidity: real
    var time: real

    /** Construction wakes the device; a failure of that write is swallowed. */
    constructor (bus: Bus, addr: int)
      modifies bus
      ensures this.bus == bus && this.addr == addr && driverName == DRIVER_NAME
      ensures temperature == 0.0 && humidity == 0.0 && time == 0.0
      ensures bus.log == old(bus.log) + [WriteByte(addr, 0x00)] && bus.script == Tail(old(bus.script))
    {
      this.bus := bus;
      this.addr := addr;
      driverName := DRIVER_NAME;
      temperature, humidity := 0.0, 0.0;
      new;
      Wakeup();
      time := 0.0;
    }

    constructor AM2321(bus: Bus, addr: int)
      modifies bus
      ensures this.bus == bus && this.addr == addr && driverName == AM2321_DRIVER_NAME
      ensures temperature == 0.0 && humidity == 0.0 && time == 0.0
      ensures bus.log == old(bus.log) + [WriteByte(addr, 0x00)] && bus.script == Tail(old(bus.script))
    {
      this.bus := bus;
      this.addr := addr;
      driverName := AM2321_DRIVER_NAME;
      temperature, humidity := 0.0, 0.0;
      new;
      Wakeup();
      time := 0.0;
    }

    /** Writes a zero byte to wake the device; whether it answers does not matter. */
    method Wakeup()
      modifies bus
      ensures bus.log == old(bus.log) + [WriteByte(addr, 0x00)] && bus.script == Tail(old(bus.script))
    {
      var _ := bus.WriteByte(addr, 0x00);
    }

    /**
     * `_read_data` at time `now` (seconds): nothing happens within the minimum
     * sampling period of the last read. Otherwise the time is recorded, the
     * device is woken, and the read request, a 1.5 ms wait and the read of the
     * 8-byte frame follow; the cached values change only when both succeed.
     * The CRC is computed but not checked, and bus failures are swallowed.
     */
    method ReadData(now: real)
      modifies this, bus
      ensures MIN_SAMPLING_PERIOD > now - old(time) ==>
        bus.log == old(bus.log) && bus.script == old(bus.script) &&
        time == old(time) && temperature == old(temperature) && humidity == old(humidity)
      ensures MIN_SAMPLING_PERIOD <= now - old(time) ==> time == now
      ensures MIN_SAMPLING_PERIOD <= now - old(time) && Serves(Tail(old(bus.script)), ReadPlan(addr)) ==>
        bus.log == old(bus.log) + [WriteByte(addr, 0x00), WriteBlock(addr, FC_READ_REG, REQUEST),
                                   Sleep(READ_DELAY), ReadBlock(addr, FC_READ_REG, 8)] &&
        bus.script == Tail(old(bus.script))[2..] &&
        (humidity, temperature) == DecodeFrame(Tail(old(bus.script))[1].data)
      ensures MIN_SAMPLING_PERIOD <= now - old(time) && !Serves(Tail(old(bus.script)), ReadPlan(addr)) ==>
        temperature == old(temperature) && humidity == old(humidity)
    {
      if MIN_SAMPLING_PERIOD > now - time {
        return;
      }
      time := now;
      Wakeup();
      Fetch();
    }

    /** The `try` block of `_read_data`: request, wait, read and decode the frame; a bus failure leaves the values. */
    method Fetch()
      modifies this, bus
      ensures time == old(time)
      ensures Serves(old(bus.script), ReadPlan(addr)) ==>
        bus.log == old(bus.log) + [WriteBlock(addr, FC_READ_REG, REQUEST), Sleep(READ_DELAY), ReadBlock(addr, FC_READ_REG, 8)] &&
        bus.script == old(bus.script)[2..] &&
        (humidity, temperature) == DecodeFrame(old(bus.script)[1].data)
      ensures !Serves(old(bus.script), ReadPlan(addr)) ==> temperature == old(temperature) && humidity == old(humidity)
    {
      ServesCons(bus.script, WriteBlock(addr, FC_READ_REG, REQUEST), [ReadBlock(addr, FC_READ_REG, 8)]);
      var w := bus.WriteBlock(addr, FC_READ_REG, REQUEST);
      if w.Err? {
        return;
      }
      bus.Sleep(READ_DELAY);
      var vals := bus.ReadBlock(addr, FC_READ_REG, 8);
      if vals.Err? {
        return;
      }
      var frame := vals.value;
      var crcCode := Word16(frame[7], frame[6]);
      var decoded := DecodeFrame(frame);
      humidity, temperature := decoded.0, decoded.1;
      var crc := ComputeCrc16(frame, 6);
      var crcCheck := crc as int == crcCode;
    }

    method ReadTemperature(now: real) returns (t: real)
      modifies this, bus
      ensures t == temperature
      ensures MIN_SAMPLING_PERIOD > now - old(time) ==>
        bus.log == old(bus.log) && bus.script == old(bus.script) &&
        time == old(time) && temperature == old(temperature) && humidity == old(humidity)
      ensures MIN_SAMPLING_PERIOD <= now - old(time) ==> time == now
      ensures MIN_SAMPLING_PERIOD <= now - old(time) && Serves(Tail(old(bus.script)), ReadPlan(addr)) ==>
        bus.log == old(bus.log) + [WriteByte(addr, 0x00), WriteBlock(addr, FC_READ_REG, REQUEST),
                                   Sleep(READ_DELAY), ReadBlock(addr, FC_READ_REG, 8)] &&
        bus.script == Tail(old(bus.script))[2..] &&
        (humidity, temperature) == DecodeFrame(Tail(old(bus.script))[1].data)
      ensures MIN_SAMPLING_PERIOD <= now - old(time) && !Serves(Tail(old(bus.script)), ReadPlan(addr)) ==>
        temperature == old(temperature) && humidity == old(humidity)
    {
      ReadData(now);
      t := temperature;
    }

    method ReadHumidity(now: real) returns (h: real)
      modifies this, bus
      ensures h == humidity
      ensures MIN_SAMPLING_PERIOD > now - old(time) ==>
        bus.log == old(bus.log) && bus.script == old(bus.script) &&
        time == old(time) && temperature == old(temperature) && humidity == old(humidity)
      ensures MIN_SAMPLING_PERIOD <= now - old(time) ==> time == now
      ensures MIN_SAMPLING_PERIOD <= now - old(time) && Serves(Tail(old(bus.script)), ReadPlan(addr)) ==>
        bus.log == old(bus.log) + [WriteByte(addr, 0x00), WriteBlock(addr, FC_READ_REG, REQUEST),
                                   Sleep(READ_DELAY), ReadBlock(addr, FC_READ_REG, 8)] &&
        bus.script == Tail(old(bus.script))[2..] &&
        (humidity, temperature) == DecodeFrame(Tail(old(bus.script))[1].data)
      ensures MIN_SAMPLING_PERIOD <= now - old(time) && !Serves(Tail(old(bus.script)), ReadPlan(addr)) ==>
        temperature == old(temperature) && humidity == old(humidity)
    {
      ReadData(now);
      h := humidity;
    }

    /** Reads (if the sampling period allows) and reports the cached values. */
    method Measure(now: real) returns (m: map<string, real>)
      modifies this, bus
      ensures m == map["temperature" := temperature, "humidity" := humidity]
      ensures MIN_SAMPLING_PERIOD > now - old(time) ==>
        bus.log == old(bus.log) && bus.script == old(bus.script) &&
        time == old(time) && temperature == old(temperature) && humidity == old(humidity)
      ensures MIN_SAMPLING_PERIOD <= now - old(time) ==> time == now
      ensures MIN_SAMPLING_PERIOD <= now - old(time) && Serves(Tail(old(bus.script)), ReadPlan(addr)) ==>
        bus.log == old(bus.log) + [WriteByte(addr, 0x00), WriteBlock(addr, FC_READ_REG, REQUEST),
                                   Sleep(READ_DELAY), ReadBlock(addr, FC_READ_REG, 8)] &&
        bus.script == Tail(old(bus.script))[2..] &&
        (humidity, temperature) == DecodeFrame(Tail(old(bus.script))[1].data)
      ensures MIN_SAMPLING_PERIOD <= now - old(time) && !Serves(Tail(old(bus.script)), ReadPlan(addr)) ==>
        temperature == old(temperature) && humidity == old(humidity)
    {
      ReadData(now);
      m := map["temperature" := temperature, "humidity" := humidity];
    }
  }

  /** The two transactions of a read after the wake-up. */
  function ReadPlan(addr: int): seq<Event>
  {
    [WriteBlock(addr, FC_READ_REG, REQUEST), ReadBlock(addr, FC_READ_REG, 8)]
  }
}
