/**
 * The sensor registry: the table from driver names to driver classes, the
 * lookup `get_sensor_driver` and the choice of bus and address in `get_sensor`.
 */
module Registry {
  import opened Errors
  import Am2315
  import Bh1750
  import Bme280
  import Bmp085
  import Bmp280
  import Hdc1008
  import Lm75
  import Mcp9808
  import Mpl3115a2
  import Sht31
  import Si7021

  /** The driver classes the registry can hand out. */
  datatype Driver =
    | AM2315 | AM2321 | BH1750 | BME280 | BMP085 | BMP180 | BMP280
    | HDC1008 | LM75 | MCP9808 | MPL115A2 | MPL3115A2 | SHT31 | SI7021

  /** `_SENSORS`, as its list of (name, class) items. */
  const SENSORS: seq<(string, Driver)> := [
    ("am2315", AM2315),
    ("am2321", AM2321),
    ("bh1750", BH1750),
    ("bme280", BME280),
    ("bmp085", BMP085),
    ("bmp180", BMP180),
    ("bmp280", BMP280),
    ("hdc1008", HDC1008),
    ("lm75", LM75),
    ("mcp9808", MCP9808),
    ("mpl115a2", MPL115A2),
    ("mpl3115a2", MPL3115A2),
    ("sht31", SHT31),
    ("si7021", SI7021)
  ]

  /** Dictionary lookup: the class filed under `name`, if any. */
  function Find(entries: seq<(string, Driver)>, name: string): (r: Option<Driver>)
    ensures r.Some? ==> (name, r.value) in entries
    ensures r.None? ==> forall i :: 0 <= i < |entries| ==> entries[i].0 != name
  {
    if entries == [] then None
    else if entries[0].0 == name then Some(entries[0].1)
    else Find(entries[1..], name)
  }

  /** `name in _SENSORS`. */
  predicate IsKey(name: string)
  {
    Find(SENSORS, name).Some?
  }

  /** The class attribute `DRIVER_NAME` of each driver. */
  function DriverName(d: Driver): string
  {
    match d
    case AM2315 => Am2315.DRIVER_NAME
    case AM2321 => Am2315.AM2321_DRIVER_NAME
    case BH1750 => Bh1750.DRIVER_NAME
    case BME280 => Bme280.DRIVER_NAME
    case BMP085 => Bmp085.DRIVER_NAME
    case BMP180 => Bmp085.BMP180_DRIVER_NAME
    case BMP280 => Bmp280.DRIVER_NAME
    case HDC1008 => Hdc1008.DRIVER_NAME
    case LM75 => Lm75.DRIVER_NAME
    case MCP9808 => Mcp9808.DRIVER_NAME
    case MPL115A2 => Mpl3115a2.MPL115A2_DRIVER_NAME
    case MPL3115A2 => Mpl3115a2.DRIVER_NAME
    case SHT31 => Sht31.DRIVER_NAME
    case SI7021 => Si7021.DRIVER_NAME
  }

  /** The class attribute `DEFAULT_ADDR` of each driver. */
  function DefaultAddr(d: Driver): (a: int)
    ensures 0 < a < 128
  {
    match d
    case AM2315 => Am2315.ADDR
    case AM2321 => Am2315.ADDR
    case BH1750 => Bh1750.ADDR_L
    case BME280 => Bme280.DEFAULT_ADDR
    case BMP085 => Bmp085.DEFAULT_ADDR
    case BMP180 => Bmp085.DEFAULT_ADDR
    case BMP280 => Bmp280.DEFAULT_ADDR
    case HDC1008 => Hdc1008.ADDR
    case LM75 => Lm75.ADDR
    case MCP9808 => Mcp9808.ADDR
    case MPL115A2 => Mpl3115a2.ADDR
    case MPL3115A2 => Mpl3115a2.ADDR
    case SHT31 => Sht31.ADDR1
    case SI7021 => Si7021.ADDR
  }

  /** `str.lower` on one character, for the ASCII letters. */
  function LowerChar(c: char): (l: char)
    ensures !('A' <= l <= 'Z')
    ensures !('A' <= c <= 'Z') ==> l == c
  {
    if 'A' <= c <= 'Z' then c - 'A' + 'a' else c
  }

  predicate IsLower(s: string)
  {
    forall i :: 0 <= i < |s| ==> !('A' <= s[i] <= 'Z')
  }

  /** `str.lower`. */
  function Lower(s: string): (t: string)
    ensures |t| == |s| && IsLower(t)
  {
    seq(|s|, i requires 0 <= i < |s| => LowerChar(s[i]))
  }

  /** Lowering leaves a lower-case string as it is, so it is idempotent. */
  lemma LowerFixes(s: string)
    ensures IsLower(s) ==> Lower(s) == s
    ensures Lower(Lower(s)) == Lower(s)
  {
  }

  /** The registry has fourteen entries under distinct names. */
  lemma RegistryShape()
    ensures |SENSORS| == 14
    ensures forall i, j :: 0 <= i < j < |SENSORS| ==> SENSORS[i].0 != SENSORS[j].0
  {
  }

  /** Every name in the registry is in lower case and is its driver's own `DRIVER_NAME`. */
  lemma RegistryNames()
    ensures forall i :: 0 <= i < |SENSORS| ==> IsLower(SENSORS[i].0)
    ensures forall i :: 0 <= i < |SENSORS| ==> DriverName(SENSORS[i].1) == SENSORS[i].0
  {
  }

  /** Every key of the registry is in lower case. */
  lemma KeysLower(k: string)
    requires IsKey(k)
    ensures IsLower(k) && Lower(k) == k
  {
    RegistryNames();
    LowerFixes(k);
  }

  /** A name holding a capital letter is not a key. */
  lemma CapitalsNotKey(name: string)
    requires !IsLower(name)
    ensures !IsKey(name)
  {
    if IsKey(name) {
      KeysLower(name);
    }
  }

  /**
   * `get_sensor_driver`: the test is made on the lower-cased name, but the
   * lookup uses the name as given.
   */
  function GetSensorDriver(name: string): (r: Result<Driver>)
    ensures IsKey(name) && IsKey(Lower(name)) ==> r == Ok(Find(SENSORS, name).value)
    ensures !IsKey(Lower(name)) ==> r == Err(DriverNotFound)
    ensures IsKey(Lower(name)) && !IsKey(name) ==> r == Err(KeyError)
  {
    if IsKey(Lower(name)) then
      match Find(SENSORS, name)
      case Some(d) => Ok(d)
      case None => Err(KeyError)
    else
      Err(DriverNotFound)
  }

  /** Only a name that is exactly a key finds a driver, and it is the driver of that name. */
  lemma DriverFoundIff(name: string)
    ensures GetSensorDriver(name).Ok? <==> IsKey(name)
    ensures GetSensorDriver(name).Ok? ==> DriverName(GetSensorDriver(name).value) == name
  {
    if IsKey(name) {
      KeysLower(name);
      RegistryNames();
    }
  }

  /** The entry at index `i` is the first one filed under its name. */
  lemma {:induction false} FindAt(entries: seq<(string, Driver)>, i: nat)
    requires i < |entries| && forall j :: 0 <= j < i ==> entries[j].0 != entries[i].0
    ensures Find(entries, entries[i].0) == Some(entries[i].1)
  {
    if i > 0 {
      assert entries[1..][i - 1] == entries[i];
      FindAt(entries[1..], i - 1);
    }
  }

  /** Every entry of the registry is what `get_sensor_driver` returns for its name. */
  lemma EveryEntryFound(i: nat)
    requires i < |SENSORS|
    ensures GetSensorDriver(SENSORS[i].0) == Ok(SENSORS[i].1)
  {
    RegistryShape();
    FindAt(SENSORS, i);
    KeysLower(SENSORS[i].0);
  }

  /** A name in capitals passes the check and then fails the lookup. */
  lemma MixedCaseExample()
    ensures GetSensorDriver("BMP280") == Err(KeyError)
  {
    assert IsKey(Lower("BMP280")) by {
      assert Lower("BMP280") == "bmp280";
      EveryEntryFound(6);
      assert SENSORS[6] == ("bmp280", BMP280);
    }
    assert !IsKey("BMP280") by {
      assert "BMP280"[0] == 'B';
      CapitalsNotKey("BMP280");
    }
  }

  lemma LowerCaseExample()
    ensures GetSensorDriver("bmp280") == Ok(BMP280)
  {
    EveryEntryFound(6);
    assert SENSORS[6] == ("bmp280", BMP280);
  }

  lemma UnknownNameExample()
    ensures GetSensorDriver("bmp281") == Err(DriverNotFound)
  {
    assert !IsKey(Lower("bmp281")) by {
      assert Lower("bmp281") == "bmp281";
      assert forall i :: 0 <= i < |SENSORS| ==> SENSORS[i].0 != "bmp281";
    }
  }

  /** An argument Python tests with `or`: `None` and `0` count as absent. */
  predicate Falsy(x: Option<int>)
  {
    x.None? || x.value == 0
  }

  /** What `get_sensor` builds: a driver, the bus number of its controller and its address. */
  datatype Selection = Selection(driver: Driver, bus: int, addr: int)

  /** `get_sensor`: `bus or 1` and `addr or driver_class.DEFAULT_ADDR`. */
  function GetSensor(name: string, bus: Option<int>, addr: Option<int>): (r: Result<Selection>)
    ensures r.Ok? <==> IsKey(name)
    ensures r.Err? ==> r.error == GetSensorDriver(name).error
    ensures r.Ok? ==> DriverName(r.value.driver) == name && r.value.bus != 0 && r.value.addr != 0
    ensures r.Ok? ==> (Falsy(bus) ==> r.value.bus == 1) && (!Falsy(bus) ==> r.value.bus == bus.value)
    ensures r.Ok? ==> (Falsy(addr) ==> r.value.addr == DefaultAddr(r.value.driver))
    ensures r.Ok? ==> (!Falsy(addr) ==> r.value.addr == addr.value)
  {
    DriverFoundIff(name);
    match GetSensorDriver(name)
    case Err(e) => Err(e)
    case Ok(d) =>
      var b := if Falsy(bus) then 1 else bus.value;
      var a := if Falsy(addr) then DefaultAddr(d) else addr.value;
      Ok(Selection(d, b, a))
  }

  lemma DefaultsExample()
    ensures GetSensor("bmp280", None, Some(0)) == Ok(Selection(BMP280, 1, 0x77))
  {
    LowerCaseExample();
    var r := GetSensor("bmp280", None, Some(0));
    assert r.Ok? && r.value.driver == BMP280;
    assert DefaultAddr(BMP280) == 0x77;
  }

  lemma GivenValuesExample()
    ensures GetSensor("sht31", Some(2), Some(0x45)) == Ok(Selection(SHT31, 2, 0x45))
  {
    assert GetSensorDriver("sht31") == Ok(SHT31) by {
      EveryEntryFound(12);
      assert SENSORS[12] == ("sht31", SHT31);
    }
  }
}
