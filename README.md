# senlib drivers in Dafny

This project models the register-level core of senlib, a Python library of
drivers for small I2C environmental sensors: the AM2315/AM2321, BH1750,
BME280, BMP085/BMP180, BMP280, HDC1008, LM75, MCP9808, MPL3115A2 (and the
ADC extraction of the MPL115A2), SHT31 and SI7021. Each driver sends commands
to its device over SMBus, reads back register bytes and turns them into
physical readings; the library also names controllers and devices and keeps
a registry from driver names to driver classes.

The model is organised as the library is:

- `Bits` gives Python's integer operators on unbounded integers: floor
  division, arithmetic shifts, two's-complement `|` and `&`, and the byte,
  word and 20/24-bit assemblies the drivers use. `Struct` is the part of
  Python's `struct` module the calibration readers use, with its round trips.
- `Bus` stands in for the SMBus controller. It is a class whose `log`
  records every transaction and delay in order and whose `script` holds one
  reply per transaction; a fault, a reply of the wrong size or an exhausted
  script is the controller raising `OSError`. Driver contracts therefore say
  exactly which transactions are sent, in which order, when a call succeeds,
  and which reply bytes every reading comes from.
- One module per driver file (`Am2315`, `Bh1750`, `Bme280`, `Bmp085` and
  `Bmp280`, `Hdc1008`, `Lm75`, `Mcp9808`, `Mpl3115a2`, `Sht31`, `Si7021`).
  Each has the decoders and compensation formulas as functions, with lemmas
  for their ranges, fixed-point steps, round trips and the sample values of
  the library's tests, and a class for the driver object whose methods
  update its cached readings. A constructor that talks to the bus and can
  fail is a static `Create` returning a `Result`.
- `I2cCore` holds the controller name `i2c-<bus>`, the device id
  `/<controller>/<driver>@0x<address>`, the parsers that read them back, and
  `Device.name` as written. `Registry` holds the driver table,
  `get_sensor_driver` and the defaulting in `get_sensor`.

Readings are computed over exact `real`s. Python integers are unbounded, as
Dafny's are; where the source relies on a register width, the model masks
or packs into that width explicitly.

## Model

Specification helpers that only serve other contracts have no row: `Bus.Serves`, `Bus.Fits`, `Bus.Tail` and the lemma `Bus.ServesCons` (a plan is served one transaction at a time); the parsers `I2cCore.ParseDigits`, `I2cCore.ParseInt`, `I2cCore.IndexOf`, `I2cCore.LastIndexOf`, `I2cCore.ParseDeviceId`, `I2cCore.ParseDriverPart` and `I2cCore.ParseAddress`, which are the inverses the formatting round trips are stated against; and `Mpl3115a2.PollSucceeds`, `Mpl3115a2.PollLog` and `Mpl3115a2.AfterPoll`, which describe the status poll in terms of the script.

| member | source | states |
|---|---|---|
| Bus.Bus.constructor | senlib/core/i2c.py:54-61 | a new controller has an empty log and answers from the given script |
| Bus.Bus.Transfer | senlib/core/i2c.py:80-102 | one transaction is logged and consumes one scripted reply; it succeeds exactly when that reply holds as many bytes as the transaction reads, and then yields them |
| Bus.Bus.WriteByte | senlib/core/i2c.py:83-84 | logs the write; fails exactly when the reply is a fault or the script is exhausted |
| Bus.Bus.WriteByteData | senlib/core/i2c.py:89-90 | logs the register write; fails exactly when the reply is a fault or the script is exhausted |
| Bus.Bus.WriteWordData | senlib/core/i2c.py:95-96 | logs the word write; fails exactly when the reply is a fault or the script is exhausted |
| Bus.Bus.WriteBlock | senlib/core/i2c.py:101-102 | logs the block write; fails exactly when the reply is a fault or the script is exhausted |
| Bus.Bus.ReadByte | senlib/core/i2c.py:80-81 | logs the read and returns the one byte received |
| Bus.Bus.ReadByteData | senlib/core/i2c.py:86-87 | logs the register read and returns the one byte received |
| Bus.Bus.ReadWordData | senlib/core/i2c.py:92-93 | logs the word read and returns the little-endian word of the two bytes received |
| Bus.Bus.ReadBlock | senlib/core/i2c.py:98-99 | logs the block read and returns exactly the requested number of bytes |
| Bus.Bus.Sleep | senlib/i2c/sensors/bhx.py:106 | a `time.sleep` pause of the drivers is logged with its duration and consumes no reply |
| I2cCore.Digits | senlib/core/i2c.py:134 | the digits of n are at least one digit of the base, with no leading zero unless n is a single digit |
| I2cCore.DigitsRoundTrip | senlib/core/i2c.py:134 | the digits of n parse back to n in base 10 and base 16 |
| I2cCore.Format | senlib/core/i2c.py:65 | the text is non-empty, holds no `@` or `/`, and starts with a minus sign exactly when n is negative |
| I2cCore.FormatRoundTrip | senlib/core/i2c.py:65 | a formatted integer, negative or not, parses back to itself |
| I2cCore.ControllerName | senlib/core/i2c.py:63-65 | the name is `i2c-` followed by a decimal text that parses back to the bus number |
| I2cCore.DeviceId | senlib/core/i2c.py:131-134 | when the controller name holds no `/`, the id parses back to exactly the driver name, controller name and address it was made from |
| I2cCore.AddressParses | senlib/core/i2c.py:134 | `0x` followed by the hexadecimal text of any address parses back to that address |
| I2cCore.DriverPartParses | senlib/core/i2c.py:134 | the driver part `<driver>@0x<hex>` parses back to the driver name and address, whatever `@` the driver name contains |
| I2cCore.DeviceIdParses | senlib/core/i2c.py:131-134 | the full id parses back to its three parts when the controller name holds no `/` |
| I2cCore.BoundMethodText | senlib/core/i2c.py:111-113 | the text of a bound class method starts with `<` |
| I2cCore.DeviceName | senlib/core/i2c.py:111-113 | the device name parses back to the bound-method text of `driver_name`, the controller name and the address |
| I2cCore.DeviceNameIsNotDriverId | senlib/core/i2c.py:111-113 | because it passes the method object and not its result, the device name differs from the id built from any driver name not starting with `<` |
| I2cCore.DeviceIdExample | senlib/core/i2c.py:133 | the id of address 0x77 under driver `bmp280` on `i2c-1` is `/i2c-1/bmp280@0x77` |
| I2cCore.ControllerNameExample | senlib/core/i2c.py:63-65 | the controller of bus 1 is named `i2c-1` |
| Registry.Find | senlib/i2c/__init__.py:40-41 | a found class is filed under the name; none is found only when no entry has that name |
| Registry.DefaultAddr | senlib/i2c/__init__.py:49 | every driver's default address is a 7-bit I2C address other than 0 |
| Registry.LowerChar | senlib/i2c/__init__.py:40 | a lowered character is no capital, and any other character is left as it is |
| Registry.Lower | senlib/i2c/__init__.py:40 | lowering keeps the length and leaves no capital letter |
| Registry.LowerFixes | senlib/i2c/__init__.py:40 | lowering fixes a lower-case string, so it is idempotent |
| Registry.RegistryShape | senlib/i2c/__init__.py:18-33 | the registry has fourteen entries under distinct names |
| Registry.RegistryNames | senlib/i2c/__init__.py:18-33 | every registry name is lower case and is the `DRIVER_NAME` of the class filed under it |
| Registry.KeysLower | senlib/i2c/__init__.py:18-33 | every key is lower case |
| Registry.CapitalsNotKey | senlib/i2c/__init__.py:18-33 | a name holding a capital letter is not a key |
| Registry.GetSensorDriver | senlib/i2c/__init__.py:39-44 | a key finds its class; a name whose lower-cased form is no key raises DriverNotFound; a name whose lower-cased form is a key but which is not one itself raises KeyError |
| Registry.DriverFoundIff | senlib/i2c/__init__.py:39-44 | a driver is found exactly when the name is a key, and then its `DRIVER_NAME` is the name |
| Registry.FindAt | senlib/i2c/__init__.py:41 | an entry preceded by no other entry of its name is the one the lookup finds |
| Registry.EveryEntryFound | senlib/i2c/__init__.py:18-44 | every registry entry is what the lookup returns for its name |
| Registry.MixedCaseExample | senlib/i2c/__init__.py:40-41 | `BMP280` passes the membership test and then fails the lookup with KeyError |
| Registry.LowerCaseExample | senlib/i2c/__init__.py:39-42 | `bmp280` finds the BMP280 class |
| Registry.UnknownNameExample | senlib/i2c/__init__.py:43-44 | `bmp281` raises DriverNotFound |
| Registry.GetSensor | senlib/i2c/__init__.py:46-50 | succeeds exactly when the name is a key; the bus is 1 and the address the driver's default when the argument is None or 0, else the argument; errors are those of the lookup |
| Registry.DefaultsExample | senlib/i2c/__init__.py:46-50 | `bmp280` with no bus and address 0 selects bus 1 and address 0x77 |
| Registry.GivenValuesExample | senlib/i2c/__init__.py:46-50 | `sht31` with bus 2 and address 0x45 keeps both |
| Struct.Join16 | senlib/i2c/sensors/bmpx.py:146 | a 16-bit item read in either byte order lies below 2^16 |
| Struct.Split16 | senlib/i2c/sensors/bmpx.py:246 | the two bytes of a word join back to that word in the same byte order |
| Struct.DecodeItem | senlib/i2c/sensors/bmex.py:103 | an item decoded from its own width of bytes lies in the range of its code |
| Struct.EncodeItem | senlib/i2c/sensors/bmex.py:103 | an in-range item is written to exactly its width of bytes |
| Struct.ItemRoundTrip | senlib/i2c/sensors/bmex.py:103 | encoding a decoded item gives back its bytes |
| Struct.ItemInverse | senlib/i2c/sensors/bmex.py:103 | decoding an encoded item gives back its value |
| Struct.SizeAppend | senlib/i2c/sensors/bmpx.py:146 | the size of two formats joined is the sum of their sizes |
| Struct.SizeOfShorts | senlib/i2c/sensors/bmpx.py:146 | a format made of 16-bit items takes two bytes per item |
| Struct.Unpack | senlib/i2c/sensors/bmex.py:103 | unpacking yields one in-range value per item of the format |
| Struct.Pack | senlib/i2c/sensors/bmex.py:103 | packing in-range values fills exactly the size of the format |
| Struct.PackUnpack | senlib/i2c/sensors/bmex.py:103 | packing the unpacked values gives back the bytes |
| Struct.UnpackPack | senlib/i2c/sensors/bmex.py:103 | unpacking packed values gives back the values |
| Struct.Offset | senlib/i2c/sensors/bmex.py:103 | each item starts early enough to fit within the format's size |
| Struct.OffsetOfShorts | senlib/i2c/sensors/bmpx.py:146 | in a format of 16-bit items, item i starts at byte 2i |
| Struct.OffsetNext | senlib/i2c/sensors/bmex.py:103 | each item starts where the previous one ends |
| Struct.UnpackAt | senlib/i2c/sensors/bmex.py:103 | item i of the unpacked tuple is decoded from the bytes at its offset |
| Am2315.ComputeCrc16 | senlib/i2c/sensors/amx.py:83-93 | the two nested loops compute the CRC-16/MODBUS (`Crc16`) of the first `length` bytes |
| Am2315.ShiftByte | senlib/i2c/sensors/amx.py:86-92 | one outer iteration (xor, then eight conditional shifts with 0xA001) is exactly one `CrcByte` step |
| Am2315.CrcResidue | senlib/i2c/sensors/amx.py:70-75 | appending a CRC low byte first (the order of `crc_lsb, crc_msb` in the frame) drives the register to zero, so the check `crc == crc_code` is the standard receiver check |
| Am2315.FrameCrcExample | tests/test_amx.py:9 | the first test frame carries in its last two bytes (224, 112) the CRC 0x70E0 of its first six bytes |
| Am2315.DecodeFrame | senlib/i2c/sensors/amx.py:66-72 | humidity and temperature are the big-endian words of bytes 2-3 and 4-5 divided by ten, each between 0 and 6553.5 |
| Am2315.DecodeIgnoresCrc | senlib/i2c/sensors/amx.py:66-72 | frames that agree on bytes 2-5 decode alike: the function code, length and CRC bytes never reach the readings |
| Am2315.DecodeExample | tests/test_amx.py:21-26 | the first test frame decodes to 49.7 percent humidity and 20.3 degrees |
| Am2315.AM2315.constructor | senlib/i2c/sensors/amx.py:29-34 | starts with both readings 0.0 and time 0, and sends exactly one wake-up write of 0x00 to the device address |
| Am2315.AM2315.AM2321 | senlib/i2c/sensors/amx.py:118-127 | the AM2321 is the same device under the name `am2321` and the same address 0x5c |
| Am2315.AM2315.Wakeup | senlib/i2c/sensors/amx.py:36-42 | one write of 0x00; a failing write is swallowed and changes nothing else |
| Am2315.AM2315.ReadData | senlib/i2c/sensors/amx.py:52-81 | inside the two-second sampling period nothing is sent and nothing changes; otherwise time is updated, the device is woken, and the readings become the decoded frame when the request and the 8-byte read succeed and stay as they were when either fails |
| Am2315.AM2315.Fetch | senlib/i2c/sensors/amx.py:62-81 | the request `[0x00, 0x04]` to register 0x03, then an 8-byte block read; readings are updated only when both transfers succeed |
| Am2315.AM2315.ReadTemperature | senlib/i2c/sensors/amx.py:95-97 | the whole effect of `ReadData` (within two seconds of the last read nothing is sent and nothing changes; otherwise the time becomes `now`, the wake-up, request, pause and read are logged, and the readings change only when the fetch succeeds), then the cached temperature |
| Am2315.AM2315.ReadHumidity | senlib/i2c/sensors/amx.py:99-101 | the whole effect of `ReadData`, as for `ReadTemperature`, then the cached humidity |
| Am2315.AM2315.Measure | senlib/i2c/sensors/amx.py:103-109 | the whole effect of `ReadData`, so a second call within two seconds sends nothing, then the map of exactly the keys `temperature` and `humidity` holding the cached values |
| Bh1750.ModeTable | senlib/i2c/sensors/bhx.py:26-57 | the mode table has exactly the modes 0-5, each with its command and a maximum time of 180 ms or 24 ms |
| Bh1750.SelectMode | senlib/i2c/sensors/bhx.py:77-79 | the mode kept is the one asked for exactly when the table has it, and high resolution otherwise; it is always a key of the table |
| Bh1750.Illuminance | senlib/i2c/sensors/bhx.py:108-110 | 1.2 times the lux value is the big-endian count of the two bytes, so it lies between 0 and 65535 / 1.2 |
| Bh1750.IlluminanceExamples | tests/test_bhx.py:5-36 | the test readings [0, 9] and [7, 211] give 7.5 lx and 2003 / 1.2 (about 1669.17) lx |
| Bh1750.BH1750.Init | senlib/i2c/sensors/bhx.py:59-65 | a new object holds illuminance 0.0 and a consistent high-resolution mode |
| Bh1750.BH1750.Create | senlib/i2c/sensors/bhx.py:59-67 | construction sends power-on and then reset, and succeeds exactly when both writes do; the object is left in high-resolution mode; a failure propagates as an I/O error |
| Bh1750.BH1750.SetMode | senlib/i2c/sensors/bhx.py:77-82 | the mode becomes `SelectMode(m)` and the mode data is that mode's table row |
| Bh1750.BH1750.PowerDown | senlib/i2c/sensors/bhx.py:84-86 | one write of command 0x00, succeeding exactly when the bus accepts it |
| Bh1750.BH1750.PowerOn | senlib/i2c/sensors/bhx.py:88-90 | one write of command 0x01, succeeding exactly when the bus accepts it |
| Bh1750.BH1750.Reset | senlib/i2c/sensors/bhx.py:92-94 | one write of command 0x07, succeeding exactly when the bus accepts it |
| Bh1750.BH1750.TriggerMeasurement | senlib/i2c/sensors/bhx.py:96-99 | always writes the one-shot high-resolution command 0x20, whatever the selected mode |
| Bh1750.BH1750.ReadIlluminanceData | senlib/i2c/sensors/bhx.py:101-115 | trigger, a wait of twice the mode's maximum time, a 2-byte read; on success the cached and returned value is `Illuminance` of the bytes read; on failure the cache is unchanged |
| Bh1750.BH1750.Measure | senlib/i2c/sensors/bhx.py:117-121 | the map with the one key `illuminance`, holding the value just read; on success the two replies used are gone from the script |
| Bme280.Signed12 | senlib/i2c/sensors/bmex.py:109-112 | the 12-bit two's-complement reading lies in [-2048, 2048) and agrees with the pattern modulo 4096 |
| Bme280.Unsigned12 | senlib/i2c/sensors/bmex.py:109-112 | every signed 12-bit value has a 12-bit pattern that reads back to it |
| Bme280.Unsigned8 | senlib/i2c/sensors/bmex.py:113 | every signed byte value has a byte pattern that reads back to it |
| Bme280.NibbleExtend | senlib/i2c/sensors/bmex.py:109-112 | shifting a signed byte left by four and or-ing in a nibble gives the sign-extended 12-bit value the two spell |
| Bme280.UnpackHumidity | senlib/i2c/sensors/bmex.py:107-113 | H2 is the signed little-endian word of E1-E2, H3 the byte E3, H4 is E4 and the low nibble of E5, H5 is E6 and the high nibble of E5, both 12-bit signed, and H6 the signed byte E7 |
| Bme280.PackHumidity | senlib/i2c/sensors/bmex.py:107-113 | a set of in-range humidity coefficients occupies seven bytes |
| Bme280.HumidityRoundTrip | senlib/i2c/sensors/bmex.py:107-113 | unpacking yields in-range coefficients that pack back into exactly the seven bytes read |
| Bme280.HumidityExample | tests/test_bmex.py:9-18 | the sample humidity block gives H2 = 364, H3 = 0, H4 = 314, H5 = 0 and H6 = 30 |
| Bme280.Temperature | senlib/i2c/sensors/bmex.py:137-150 | the temperature lies in [-40, 85] and is the BMP280 temperature clamped to that range |
| Bme280.Pressure | senlib/i2c/sensors/bmex.py:152-173 | 0 when the divisor var1 vanishes; otherwise the BMP280 pressure clamped to [30000, 110000] |
| Bme280.Humidity | senlib/i2c/sensors/bmex.py:175-186 | the humidity lies in [0, 100] and is the compensation formula clamped to that range |
| Bme280.AdcH | senlib/i2c/sensors/bmex.py:134 | the humidity code is the big-endian word of the two received bytes, below 2^16 |
| Bme280.BME280.Init | senlib/i2c/sensors/bmex.py:45-66 | a new object holds its bus, address and both calibration sets, with t_fine and the cached readings 0 |
| Bme280.BME280.Create | senlib/i2c/sensors/bmex.py:45-66 | succeeds exactly when the bus serves the two calibration reads and the writes of ctrl_hum, ctrl_meas and config, in that order; the calibration sets are the unpacked blocks; t_fine and the three cached readings start at 0; a bus failure propagates |
| Bme280.BME280.ReadCalibration | senlib/i2c/sensors/bmex.py:100-113 | reads the 26-byte block at 0x88 and the 7-byte block at 0xE1 and unpacks both; fails exactly when either read does |
| Bme280.BME280.SetMeasAndHum | senlib/i2c/sensors/bmex.py:76-92 | writes ctrl_hum = osrs_h before ctrl_meas = 0x27, and stops at the first failed write |
| Bme280.BME280.SetConfig | senlib/i2c/sensors/bmex.py:94-99 | writes config = 0xA0, the default standby and filter settings |
| Bme280.BME280.ReadRawSensorData | senlib/i2c/sensors/bmex.py:124-135 | reads pressure, temperature and humidity blocks in that order and returns the 20-bit pressure and temperature codes and the 16-bit humidity code |
| Bme280.BME280.CompensateTemperature | senlib/i2c/sensors/bmex.py:137-150 | sets t_fine to the truncated BMP280 sum and returns the clamped temperature; the cached readings are untouched |
| Bme280.BME280.ReadTemperature | senlib/i2c/sensors/bmex.py:188-190 | one raw read (the three block reads logged and three replies consumed), then the clamped temperature; t_fine is refreshed on success and kept on failure |
| Bme280.BME280.ReadPressure | senlib/i2c/sensors/bmex.py:192-195 | one raw read (the three block reads logged and three replies consumed); the pressure uses the t_fine of this very reading |
| Bme280.BME280.ReadHumidity | senlib/i2c/sensors/bmex.py:197-200 | one raw read (the three block reads logged and three replies consumed); the humidity uses the t_fine of this very reading |
| Bme280.BME280.Measure | senlib/i2c/sensors/bmex.py:202-212 | one raw read; caches temperature, pressure and humidity, all within their ranges (pressure possibly 0), and returns them under their keys; on failure nothing cached changes |
| Bmp085.LayoutSize | senlib/i2c/sensors/bmpx.py:145-146 | the format `>hhhHHHhhhhh` has eleven 16-bit items and occupies the 22 bytes read |
| Bmp085.UnpackCalibration | senlib/i2c/sensors/bmpx.py:143-148 | the coefficients are the one set, each in its item's range, whose big-endian packing is the block read |
| Bmp085.FromFields | senlib/i2c/sensors/bmpx.py:147-148 | the tuple is assigned to AC1 … MD in order |
| Bmp085.CalibrationField | senlib/i2c/sensors/bmpx.py:145-148 | coefficient `i` is decoded from bytes `2i` and `2i+1` alone, big-endian, signed or unsigned as the format says |
| Bmp085.CalibrationExample | tests/test_bmpx.py:7-24 | the test block gives AC1 = 7015, AC2 = -1129, AC4 = 32656 (read unsigned) and MB = -32768 |
| Bmp085.B5 | senlib/i2c/sensors/bmpx.py:73-75 | B5 fails with ZeroDivisionError exactly when `X1 + MD` is 0; otherwise `B5 - X1` is the floor quotient of `MC * 2048` by `X1 + MD` |
| Bmp085.CompensateTemperature | senlib/i2c/sensors/bmpx.py:72-77 | fails exactly when B5 does; otherwise the result is a whole number `n` of tenths with `16n <= B5 + 8 < 16n + 16` |
| Bmp085.QuotientBranches | senlib/i2c/sensors/bmpx.py:95-98 | the two branches on `B7 < 0x80000000` differ by at most one: the branch changes only the rounding |
| Bmp085.DoubleQuotient | senlib/i2c/sensors/bmpx.py:95-98 | doubling the dividend of a floor division doubles the quotient or doubles it and adds one |
| Bmp085.CompensatePressure | senlib/i2c/sensors/bmpx.py:79-104 | fails with ZeroDivisionError exactly when B5 fails or B4 is 0; otherwise the pressure is the correction of the B7/B4 quotient, with B5 recomputed from UT as the temperature path computes it |
| Bmp085.SharedB5 | senlib/i2c/sensors/bmpx.py:72-84 | a reading that fails in the temperature path fails in the pressure path too |
| Bmp085.TemperatureExample | tests/test_bmpx.py:43-47 | with the test coefficients, UT = 25611 gives B5 = 4115 and 25.7 degrees |
| Bmp085.PressureExample | tests/test_bmpx.py:43-48 | with the test coefficients in standard mode, UT = 25611 and UP = 74555 give 92829 Pa |
| Bmp085.RawPressure | senlib/i2c/sensors/bmpx.py:139-141 | UP is the 24-bit reading divided by 2^(8 - mode), so it fits in 16 + mode bits |
| Bmp085.Trigger | senlib/i2c/sensors/bmpx.py:128 | the command byte is 0x34 in the low six bits with the mode in bits 6-7 |
| Bmp085.Delay | senlib/i2c/sensors/bmpx.py:130-137 | the pause after starting a pressure conversion is 2 + 3·2^mode ms: 5, 8, 14 or 26 ms |
| Bmp085.BMP085.Init | senlib/i2c/sensors/bmpx.py:47-58 | a new object uses standard mode, holds the id and calibration given and caches 0 for both values |
| Bmp085.BMP085.Create | senlib/i2c/sensors/bmpx.py:47-58 | construction reads the id register and then the 22-byte calibration block, and succeeds exactly when both reads do; the calibration is `UnpackCalibration` of the block |
| Bmp085.BMP085.CreateBMP180 | senlib/i2c/sensors/bmpx.py:169-174 | the BMP180 is the same driver and the same construction under the name `bmp180` |
| Bmp085.BMP085.Open | senlib/i2c/sensors/bmpx.py:53-58 | id read first, calibration block second; a bus failure propagates |
| Bmp085.BMP085.ReadRawTemperature | senlib/i2c/sensors/bmpx.py:118-124 | writes 0x2E to 0xF4, waits 5 ms and returns the big-endian word of the two bytes read from 0xF6 |
| Bmp085.BMP085.ReadRawPressure | senlib/i2c/sensors/bmpx.py:126-141 | writes the mode's trigger to 0xF4, waits the mode's delay and returns `RawPressure` of the three bytes read from 0xF6 |
| Bmp085.BMP085.ReadSensorData | senlib/i2c/sensors/bmpx.py:114-116 | UT then UP; when the bus serves both, the result is the pair of the two compensations and fails exactly when one of them does; otherwise an I/O error |
| Bmp085.BMP085.ReadTemperature | senlib/i2c/sensors/bmpx.py:106-108 | a full reading (UT and UP conversions logged with their pauses, four replies consumed), returning its temperature; it fails when either compensation fails |
| Bmp085.BMP085.ReadPressure | senlib/i2c/sensors/bmpx.py:110-112 | a full reading (UT and UP conversions logged with their pauses, four replies consumed), returning its pressure |
| Bmp085.BMP085.Measure | senlib/i2c/sensors/bmpx.py:154-160 | caches temperature and pressure together, neither when the reading fails, and returns them under `temperature` and `pressure` |
| Bmp085.SharedB5Everywhere | senlib/i2c/sensors/bmpx.py:114-116 | whenever the pressure compensation succeeds, the temperature compensation succeeds too |
| Bmp280.LayoutSize | senlib/i2c/sensors/bmpx.py:245-246 | the format `<HhhHhhhhhhhhBB` has twelve 16-bit items and two bytes and occupies the 26 bytes read |
| Bmp280.FromItems | senlib/i2c/sensors/bmpx.py:247-248 | the tuple is assigned to T1 … P9 and H1 in order, item 12 being discarded |
| Bmp280.UnpackCalibration | senlib/i2c/sensors/bmpx.py:243-248 | with the discarded byte 24 put back, the coefficients are in range and their little-endian packing is the block read |
| Bmp280.Offset12 | senlib/i2c/sensors/bmpx.py:246 | the two single-byte items of the format sit at bytes 24 and 25 |
| Bmp280.ItemOf | senlib/i2c/sensors/bmpx.py:246-248 | each of the first twelve items is decoded little-endian from its own two bytes |
| Bmp280.CalibrationExample | tests/test_bmpx.py:14-29 | the test block gives T1 = 27934 and P1 = 35987 (unsigned), T3 = -1000, P7 = 15500, P9 = 6000 and H1 = 0 |
| Bmp280.CtrlMeas | senlib/i2c/sensors/bmpx.py:225-231 | ctrl_meas built by or-ing shifted fields into a byte is `osrs_t · 32 + osrs_p · 4 + power_mode` |
| Bmp280.CtrlMeasFields | senlib/i2c/sensors/bmpx.py:227-230 | the three fields can be read back from the ctrl_meas byte |
| Bmp280.Config | senlib/i2c/sensors/bmpx.py:236-241 | config built by or-ing shifted fields into a byte is `t_sb · 32 + filter · 4` |
| Bmp280.ConfigFields | senlib/i2c/sensors/bmpx.py:238-240 | both fields can be read back from the config byte, and its two low bits stay clear |
| Bmp280.DefaultSettings | senlib/i2c/sensors/bmpx.py:207-215 | the constructor's settings give ctrl_meas 0x27 and config 0xA0 |
| Bmp280.Trunc | senlib/i2c/sensors/bmpx.py:273 | `int()` on a float truncates toward zero |
| Bmp280.TFineTracksTemperature | senlib/i2c/sensors/bmpx.py:268-275 | `t_fine` is 5120 times the compensated temperature, truncated toward zero |
| Bmp280.Pressure | senlib/i2c/sensors/bmpx.py:277-292 | a vanishing divisor gives pressure 0 rather than a division by zero |
| Bmp280.BMP280.Init | senlib/i2c/sensors/bmpx.py:195-205 | a new object holds the calibration given, `t_fine` 0 and cached values 0.0 |
| Bmp280.BMP280.Create | senlib/i2c/sensors/bmpx.py:195-215 | the calibration block read, the ctrl_meas write and the config write, in that order; it succeeds exactly when all three do and keeps `UnpackCalibration` of the block |
| Bmp280.BMP280.SetSettings | senlib/i2c/sensors/bmpx.py:225-234 | `_set_settings` is `_set_meas`: one write of 0x27 to register 0xF4 |
| Bmp280.BMP280.SetConfig | senlib/i2c/sensors/bmpx.py:236-241 | one write of 0xA0 to register 0xF5 |
| Bmp280.BMP280.ReadRawSensorData | senlib/i2c/sensors/bmpx.py:257-266 | pressure bytes first and temperature bytes second, each assembled into its 20-bit code |
| Bmp280.BMP280.CompensateTemperature | senlib/i2c/sensors/bmpx.py:268-275 | returns the temperature and leaves behind the `t_fine` of the same reading; the cached values are untouched |
| Bmp280.BMP280.ReadTemperature | senlib/i2c/sensors/bmpx.py:294-296 | one raw read (both block reads logged, two replies consumed), then the temperature of its code; `t_fine` is refreshed |
| Bmp280.BMP280.ReadPressure | senlib/i2c/sensors/bmpx.py:298-301 | one raw read (both block reads logged, two replies consumed); temperature is compensated first, so the pressure uses this reading's `t_fine` |
| Bmp280.BMP280.Measure | senlib/i2c/sensors/bmpx.py:303-311 | one raw read, temperature then pressure with the refreshed `t_fine`, both cached and returned under `temperature` and `pressure`; a failure changes nothing |
| Hdc1008.ConfigWord | senlib/i2c/sensors/hdcx.py:38-44 | the word built by or-ing shifted fields into 16 bits is the sum of the fields weighted by 2^15, 2^13, 2^12, 2^11, 2^10 and 2^8 |
| Hdc1008.ConfigRoundTrip | senlib/i2c/sensors/hdcx.py:38-44 | every field can be read back from the word at its bit position, and bit 14 and the low byte stay clear |
| Hdc1008.DefaultConfig | senlib/i2c/sensors/hdcx.py:28-33 | with the driver's constants (heater on, combined acquisition, 14-bit resolutions) the word is 0x3000 |
| Hdc1008.Temperature | senlib/i2c/sensors/hdcx.py:67-68 | for a 16-bit code the temperature lies in [-40, 125) degrees |
| Hdc1008.Humidity | senlib/i2c/sensors/hdcx.py:78-79 | for a 16-bit code the relative humidity lies in [0, 100) percent |
| Hdc1008.MeasureExample | tests/test_hdcx.py:5-23 | the first sample bytes 95, 95 and 145, 145 give about 21.47 degrees and 56.86 percent |
| Hdc1008.HDC1008.Init | senlib/i2c/sensors/hdcx.py:35-37 | a new object caches temperature and humidity 0.0 |
| Hdc1008.HDC1008.Create | senlib/i2c/sensors/hdcx.py:35-45 | construction writes the word 0x3000 to register 0x02 and succeeds exactly when that write does, leaving the rest of the script; both readings start at 0.0 |
| Hdc1008.HDC1008.ReadCode | senlib/i2c/sensors/hdcx.py:55-67 | pointer write, a 15 ms wait, two single-byte reads; the result is the big-endian word of the two bytes, and any bus failure propagates |
| Hdc1008.HDC1008.ReadTemperature | senlib/i2c/sensors/hdcx.py:55-69 | triggers on register 0x00 and returns `Temperature` of the code read |
| Hdc1008.HDC1008.ReadHumidity | senlib/i2c/sensors/hdcx.py:59-80 | triggers on register 0x01 and returns `Humidity` of the code read |
| Hdc1008.HDC1008.Measure | senlib/i2c/sensors/hdcx.py:85-92 | temperature and then humidity are read and cached, each as soon as its own read succeeds, and returned under the keys `temperature` and `humidity` |
| Lm75.DecodeTemperature | senlib/i2c/sensors/lmx.py:42-48 | the reading is the low byte of the SMBus word in whole degrees plus half a degree when bit 15 is set, so it lies in [0, 255.5]; there is no sign handling |
| Lm75.WordFields | senlib/i2c/sensors/lmx.py:43-46 | the masks and shifts pick the low byte, the high byte and bit 15 of the word |
| Lm75.HalfDegreeSteps | senlib/i2c/sensors/lmx.py:45-47 | every reading is a whole number of half degrees |
| Lm75.IgnoresLowBitsOfHighByte | senlib/i2c/sensors/lmx.py:44-47 | bits 8-14 of the word do not affect the reading |
| Lm75.DecodeExamples | tests/drivers/test_lmx.py:6-36 | the test words 57362, 49171, 22 and 32789 decode to 18.5, 19.5, 22.0 and 21.5 degrees |
| Lm75.LM75.constructor | senlib/i2c/sensors/lmx.py:27-30 | a new object caches temperature 0.0 and sends nothing |
| Lm75.LM75.ReadTemperature | senlib/i2c/sensors/lmx.py:40-48 | one word read of register 0x00, decoded from the little-endian word of the two bytes received; a bus failure propagates |
| Lm75.LM75.Measure | senlib/i2c/sensors/lmx.py:50-55 | caches the reading and returns it under the one key `temperature`; on failure the cache is unchanged |
| Mcp9808.Signed13 | senlib/i2c/sensors/mcpx.py:53-57 | the 13-bit field read as two's complement: congruent to the field modulo 8192 and within [-4096, 4096) |
| Mcp9808.Swap | senlib/i2c/sensors/mcpx.py:50-52 | the two bytes of the SMBus word trade places: the high byte of the result is the low byte of the word and the other way round |
| Mcp9808.DecodeTemperature | senlib/i2c/sensors/mcpx.py:49-58 | the reading is the signed 13-bit value of the swapped word in sixteenths of a degree, so it lies in [-256, 256) |
| Mcp9808.TemperatureFields | senlib/i2c/sensors/mcpx.py:53-56 | the mask 0x0FFF keeps bits 0-11, and the test of 0x1000 is the sign bit 12 |
| Mcp9808.IgnoresFlagBits | senlib/i2c/sensors/mcpx.py:53-57 | the alert flag bits 13-15 do not affect the reading |
| Mcp9808.SixteenthSteps | senlib/i2c/sensors/mcpx.py:53-54 | every reading is a whole number of sixteenths of a degree |
| Mcp9808.Decodes16833 | tests/test_mcpx.py:5-23 | the test word 16833 decodes to 20.0625 degrees |
| Mcp9808.Decodes17089 | tests/test_mcpx.py:25-27 | the test word 17089 decodes to 20.125 degrees |
| Mcp9808.Decodes17601 | tests/test_mcpx.py:29-31 | the test word 17601 decodes to 20.25 degrees |
| Mcp9808.MCP9808.Init | senlib/i2c/sensors/mcpx.py:29-33 | a new object holds the device id and caches temperature 0.0 |
| Mcp9808.MCP9808.Create | senlib/i2c/sensors/mcpx.py:29-33 | construction reads register 0x07 once; the id kept is the byte received, and a bus failure propagates |
| Mcp9808.MCP9808.ReadTemperature | senlib/i2c/sensors/mcpx.py:47-58 | one word read of register 0x05, decoded from the little-endian word of the two bytes received |
| Mcp9808.MCP9808.Measure | senlib/i2c/sensors/mcpx.py:63-68 | caches the reading and returns it under the one key `temperature`, consuming one reply; on failure the cache is unchanged |
| Mpl3115a2.Settings | senlib/i2c/sensors/mplx.py:146-151 | CTRL_REG1 built by or-ing shifted fields into a byte is the sum of the fields weighted by 128, 64, 8, 4, 2 and 1 |
| Mpl3115a2.SettingsRoundTrip | senlib/i2c/sensors/mplx.py:146-151 | every field of CTRL_REG1 can be read back from the byte at its bit position |
| Mpl3115a2.PtDataCfg | senlib/i2c/sensors/mplx.py:154-156 | PT_DATA_CFG is the data-ready flag times 4 plus the pressure flag times 2 plus the temperature flag |
| Mpl3115a2.DefaultConfig | senlib/i2c/sensors/mplx.py:121-134 | with the driver's constants CTRL_REG1 is 0x39 (barometer, oversampling 128, active) and PT_DATA_CFG is 0x07 |
| Mpl3115a2.Pressure | senlib/i2c/sensors/mplx.py:182-187 | Q18.2 pressure: four times the value is the 24-bit big-endian word shifted right by 4, so it lies in [0, 262144) pascal |
| Mpl3115a2.Temperature | senlib/i2c/sensors/mplx.py:194-198 | Q8.4 temperature: sixteen times the value is the 16-bit word shifted right by 4, so it lies in [0, 256) with no sign |
| Mpl3115a2.PressureExample1 | tests/test_mplx.py:7-23 | the first test reading 91, 25, 192 gives 93287.0 |
| Mpl3115a2.PressureExample2 | tests/test_mplx.py:8-28 | the second test reading 91, 25, 224 gives 93287.5 |
| Mpl3115a2.PressureExample3 | tests/test_mplx.py:9-33 | the third test reading 91, 32, 144 gives 93314.25 |
| Mpl3115a2.TemperatureExample1 | tests/test_mplx.py:7-22 | the first test reading 20, 48 gives 20.1875 degrees |
| Mpl3115a2.TemperatureExample2 | tests/test_mplx.py:8-27 | the second test reading 20, 32 gives 20.125 degrees |
| Mpl3115a2.TemperatureExample3 | tests/test_mplx.py:9-32 | the third test reading 19, 0 gives 19.0 degrees |
| Mpl3115a2.AdcCode | senlib/i2c/sensors/mplx.py:67-70 | the MPL115A2 ADC code is the word of the two bytes shifted right by 6: a 10-bit value, four times the MSB plus the top two bits of the LSB |
| Mpl3115a2.ReadyBit | senlib/i2c/sensors/mplx.py:173 | the test `sta & 0x08` is bit 3 of the status byte |
| Mpl3115a2.PollLength | senlib/i2c/sensors/mplx.py:170-175 | the poll consumes at least one and at most all of the replies on offer |
| Mpl3115a2.PollStopsAtFirstReady | senlib/i2c/sensors/mplx.py:170-175 | a successful poll stops at the first ready status; every status before it was a good byte without the flag, and one pause followed each |
| Mpl3115a2.MPL3115A2.Init | senlib/i2c/sensors/mplx.py:136-144 | a new object caches pressure and temperature 0.0 |
| Mpl3115a2.MPL3115A2.Create | senlib/i2c/sensors/mplx.py:136-160 | construction writes 0x07 to PT_DATA_CFG and then 0x39 to CTRL_REG1, and succeeds exactly when both writes do |
| Mpl3115a2.MPL3115A2.Wait | senlib/i2c/sensors/mplx.py:170-175 | the `while True` poll returns exactly when a ready status comes before any failure, logs `PollLog` and consumes `PollLength` replies |
| Mpl3115a2.MPL3115A2.ReadPressureData | senlib/i2c/sensors/mplx.py:177-187 | an optional wait and then three byte reads of registers 0x01-0x03, decoded by `Pressure`; every failure propagates |
| Mpl3115a2.MPL3115A2.ReadPressureRegisters | senlib/i2c/sensors/mplx.py:183-187 | three byte reads of registers 0x01-0x03, decoded by `Pressure` |
| Mpl3115a2.MPL3115A2.ReadTemperatureData | senlib/i2c/sensors/mplx.py:189-198 | an optional wait and then two byte reads of registers 0x04-0x05, decoded by `Temperature` |
| Mpl3115a2.MPL3115A2.ReadTemperatureRegisters | senlib/i2c/sensors/mplx.py:195-198 | two byte reads of registers 0x04-0x05, decoded by `Temperature` |
| Mpl3115a2.MPL3115A2.ReadPressure | senlib/i2c/sensors/mplx.py:200-201 | succeeds exactly when the poll ends on a ready status and the three pressure reads are served; logs the poll and the reads and consumes their replies |
| Mpl3115a2.MPL3115A2.ReadTemperature | senlib/i2c/sensors/mplx.py:203-204 | succeeds exactly when the poll ends on a ready status and the two temperature reads are served; logs the poll and the reads and consumes their replies |
| Mpl3115a2.MPL3115A2.Measure | senlib/i2c/sensors/mplx.py:212-219 | one wait, pressure read first and temperature second without a second wait, both cached and returned under `pressure` and `temperature`; when only the temperature read fails the new pressure stays cached, and when the wait or the pressure read fails neither changes |
| Sht31.TemperatureC | senlib/i2c/sensors/shtx.py:75-76 | a 16-bit raw value maps onto [-45, 130] degrees Celsius, the ends of the range onto the ends of the scale |
| Sht31.TemperatureF | senlib/i2c/sensors/shtx.py:78-79 | the Fahrenheit formula is the Celsius one converted by F = C * 9/5 + 32 |
| Sht31.Humidity | senlib/i2c/sensors/shtx.py:81-82 | a 16-bit raw value maps onto [0, 100] percent, the ends of the range onto the ends of the scale |
| Sht31.DecodeFrame | senlib/i2c/sensors/shtx.py:67-69 | the temperature word is the big-endian word of bytes 0-1 and the humidity word that of bytes 3-4 |
| Sht31.IgnoresCrcBytes | senlib/i2c/sensors/shtx.py:67-69 | the CRC bytes 2 and 5 of the frame do not affect the words |
| Sht31.SHT31.Init | senlib/i2c/sensors/shtx.py:36-40 | a new object caches 0.0 for both values and uses high repeatability |
| Sht31.SHT31.Create | senlib/i2c/sensors/shtx.py:36-41 | construction sends the soft reset 0x30 0xA2 and succeeds exactly when that write does |
| Sht31.SHT31.SoftReset | senlib/i2c/sensors/shtx.py:51-54 | one byte-data write of 0xA2 to command 0x30 |
| Sht31.SHT31.TriggerMeasurement | senlib/i2c/sensors/shtx.py:56-59 | one byte-data write of the repeatability to command 0x24 (clock stretching disabled) |
| Sht31.SHT31.ReadData | senlib/i2c/sensors/shtx.py:61-73 | trigger, a 15 ms wait, a 6-byte block read; on success both values are cached from the frame's words and returned as a pair; on failure nothing is cached |
| Sht31.SHT31.ReadTemperature | senlib/i2c/sensors/shtx.py:84-86 | the whole effect of `ReadData` (log, replies consumed, both readings refreshed, repeatability kept), returning the temperature |
| Sht31.SHT31.ReadHumidity | senlib/i2c/sensors/shtx.py:88-90 | the whole effect of `ReadData` (log, replies consumed, both readings refreshed, repeatability kept), returning the humidity |
| Sht31.SHT31.Measure | senlib/i2c/sensors/shtx.py:92-97 | the whole effect of `ReadData`, returning both values under `temperature` and `humidity` |
| Si7021.Temperature | senlib/i2c/sensors/six.py:41-42 | a 16-bit code gives a temperature in [-46.85, 128.87), and code 0 gives -46.85 |
| Si7021.Humidity | senlib/i2c/sensors/six.py:50-51 | a 16-bit code gives a relative humidity in [-6, 119), and code 0 gives -6 |
| Si7021.ConversionsIncrease | senlib/i2c/sensors/six.py:41-51 | both conversions are strictly increasing in the code |
| Si7021.SI7021.constructor | senlib/i2c/sensors/six.py:24-26 | construction sends nothing and caches 0.0 for both values |
| Si7021.SI7021.ReadCode | senlib/i2c/sensors/six.py:37-41 | command write, a 0.25 s wait, two single-byte reads; the code is the big-endian word of the two bytes, and any bus failure propagates |
| Si7021.SI7021.ReadTemperature | senlib/i2c/sensors/six.py:36-43 | command 0xF3 and `Temperature` of the code read |
| Si7021.SI7021.ReadHumidity | senlib/i2c/sensors/six.py:45-52 | command 0xF5 and `Humidity` of the code read |
| Si7021.SI7021.Measure | senlib/i2c/sensors/six.py:54-61 | temperature and then humidity are read and cached, each as soon as its own read succeeds: a served temperature read is cached even when the humidity read then fails; on success six replies are consumed and both values returned under `temperature` and `humidity` |

## Left out

- `Controller` (senlib/core/i2c.py) is replaced by the scripted `Bus`; the `smbus` C library, `close` and the context-manager methods are not modelled.
- Bus.Bus.ReadByte: returns the byte read, whereas `Controller.read_byte` discards it and returns `None`; the HDC1008 and SI7021 reads through it are modelled with the byte.
- Most drivers reach the bus through `self._bus`, which `Device` never sets; the model uses the controller given to the constructor for every driver.
- Timing: `time.time` is the `now` parameter of the AM2315 reads, and `time.sleep` is a `Sleep` event in microseconds that consumes no reply.
- Logging calls, `__str__`/`__repr__`, and the classmethods `driver_name` and `default_addr` and the reading accessors (`temperature()` and the like) are constants and fields of the model, not methods.
- Floating point: every float formula is computed over exact reals, so rounding is not modelled; `int()` on a float is truncation toward zero.
- Bmp280.BMP280.Init and Bme280.BME280.Init start `t_fine` at the integer 0 where the source starts it at the float 0.0; every later value is an integer in both.
- Mpl3115a2.MPL3115A2.Wait: the source polls with `while True` and no time-out, so a device that answers but never sets the data-ready bit hangs it; the model's script is finite, and running out of it ends the poll with IOError instead.
- The MPL115A2 calibration coefficients and its pressure and temperature formulas are not modelled; only its 10-bit ADC extraction is.
- Bmp085: the driver's default mode (standard) is the one used by the driver object; `Trigger`, `Delay` and `RawPressure` are stated for every mode.
- The packing functions for configuration bytes (`ConfigWord`, `Settings`, `CtrlMeas`, `Config`) are defined only for fields within their bit widths, which is all the source ever passes.
- Bmp085.BMP085.Measure returns its integer pressure converted to a real, so that all readings share one map type.
- Bmp280.CalibrationExample: the test file's dictionary lists P7 as 6000, while its block decodes to P7 = 15500 and P9 = 6000; the lemma states the decoded values.
- Registry.Lower: only ASCII letters are lowered; Unicode case mapping is not modelled.
- Registry.GetSensor: selects the driver, bus number and address only; the `SMBus` object it builds is not defined in senlib/core/i2c.py, and constructing the driver is covered by each driver's own `Create`.
- Registry.GetSensor: `bus` and `addr` are optional integers where `None` and 0 are falsy; other falsy Python values are not modelled.
- I2cCore.BoundMethodText: the text CPython prints for a bound class method is taken as given.
- Sht31: `pressure()` reads `_pressure`, which the class never sets; it is not modelled.
- Am2315: the CRC of a frame is computed and compared, but the result of that comparison is never used, as in the source.
- The CLI, the web, HTTP and MQTT front ends, `senlib/mock.py` and the example scripts are not part of this model.
- The test files use a `MockBus` and a `bus=` keyword that the sources do not define; only their byte vectors and expected values are used, as the example lemmas.
