/**
 * The naming helpers of the I2C core: the controller name `i2c-<bus>` and
 * the device id `/<controller>/<driver>@0x<address>` built with Python's
 * `str.format`, together with the parsers that read them back.
 */
module I2cCore {
  import opened Errors

  const DIGITS: string := "0123456789abcdef"

  predicate IsBase(base: nat)
  {
    base == 10 || base == 16
  }

  /** A digit character of the given base, as `format` writes it (lower case). */
  predicate IsDigit(ch: char, base: nat)
    requires IsBase(base)
  {
    ('0' <= ch <= '9' || 'a' <= ch <= 'f') && DigitValue(ch) < base
  }

  /** The value of a digit character: the inverse of indexing DIGITS. */
  function DigitValue(ch: char): (d: nat)
    ensures d < 16
    ensures d < |DIGITS| && (DIGITS[d] == ch || (d == 0 && ch !in DIGITS))
  {
    if '0' <= ch <= '9' then (ch - '0') as nat
    else if 'a' <= ch <= 'f' then (ch - 'a') as nat + 10
    else 0
  }

  lemma DigitInverse(d: nat)
    requires d < 16
    ensures DigitValue(DIGITS[d]) == d
    ensures '0' <= DIGITS[d] <= '9' || 'a' <= DIGITS[d] <= 'f'
  {
  }

  /** The digits of a natural number in the given base, without padding or prefix. */
  function Digits(n: nat, base: nat): (s: string)
    requires IsBase(base)
    ensures |s| >= 1
    ensures forall i :: 0 <= i < |s| ==> IsDigit(s[i], base)
    ensures n >= base ==> s[0] != '0'
    ensures n < base ==> s == [DIGITS[n]]
    decreases n
  {
    if n < base then
      DigitInverse(n);
      [DIGITS[n]]
    else
      var d := n % base;
      DigitInverse(d);
      Digits(n / base, base) + [DIGITS[d]]
  }

  /** The number a string of digits denotes in the given base. */
  function ParseDigits(s: string, base: nat): (n: nat)
    requires IsBase(base)
  {
    if s == [] then 0 else ParseDigits(s[..|s| - 1], base) * base + DigitValue(s[|s| - 1])
  }

  lemma {:induction false} DigitsRoundTrip(n: nat, base: nat)
    requires IsBase(base)
    ensures ParseDigits(Digits(n, base), base) == n
    decreases n
  {
    var s := Digits(n, base);
    if n < base {
      assert s[..0] == [];
      DigitInverse(n);
    } else {
      DigitsRoundTrip(n / base, base);
      assert s[..|s| - 1] == Digits(n / base, base);
      DigitInverse(n % base);
    }
  }

  /** `'{}'.format(n)` for base 10 and `'{:x}'.format(n)` for base 16: a minus sign, then the digits. */
  function Format(n: int, base: nat): (s: string)
    requires IsBase(base)
    ensures |s| >= 1
    ensures forall i :: 0 <= i < |s| ==> s[i] != '@' && s[i] != '/'
    ensures (s[0] == '-') <==> n < 0
  {
    if n < 0 then "-" + Digits(-n, base) else Digits(n, base)
  }

  function ParseInt(s: string, base: nat): (n: int)
    requires IsBase(base)
  {
    if |s| > 0 && s[0] == '-' then -(ParseDigits(s[1..], base) as int) else ParseDigits(s, base)
  }

  /** Formatting an integer loses nothing: it parses back to itself. */
  lemma FormatRoundTrip(n: int, base: nat)
    requires IsBase(base)
    ensures ParseInt(Format(n, base), base) == n
  {
    var s := Format(n, base);
    if n < 0 {
      var d := Digits(-n, base);
      assert s == "-" + d && s[1..] == d;
      DigitsRoundTrip(-n, base);
    } else {
      var d := Digits(n, base);
      assert s == d && d[0] != '-' by {
        DigitInverse(DigitValue(d[0]));
      }
      DigitsRoundTrip(n, base);
    }
  }

  /** `Controller.name`: `'i2c-{}'.format(bus)`. */
  function ControllerName(bus: int): (name: string)
    ensures |name| > 4 && name[..4] == "i2c-"
    ensures ParseInt(name[4..], 10) == bus
  {
    var digits := Format(bus, 10);
    assert ("i2c-" + digits)[4..] == digits;
    FormatRoundTrip(bus, 10);
    "i2c-" + digits
  }

  /** `Device.create_device_id`: `'/{}/{}@0x{:x}'.format(controller, driver, addr)`. */
  function DeviceId(driverName: string, ctrlName: string, addr: int): (id: string)
    ensures '/' !in ctrlName ==> ParseDeviceId(id) == Some((driverName, ctrlName, addr))
  {
    var id := "/" + ctrlName + "/" + driverName + "@0x" + Format(addr, 16);
    DeviceIdParses(driverName, ctrlName, addr, id);
    id
  }

  /** The index of the first `ch` in `s`. */
  function IndexOf(s: string, ch: char): (r: Option<nat>)
    ensures r.Some? ==> r.value < |s| && s[r.value] == ch && ch !in s[..r.value]
    ensures r.None? ==> ch !in s
  {
    if s == [] then None
    else if s[0] == ch then Some(0)
    else
      var r := IndexOf(s[1..], ch);
      if r.None? then None
      else
        assert s[..r.value + 1] == [s[0]] + s[1..][..r.value];
        Some(r.value + 1)
  }

  /** The index of the last `ch` in `s`. */
  function LastIndexOf(s: string, ch: char): (r: Option<nat>)
    ensures r.Some? ==> r.value < |s| && s[r.value] == ch && ch !in s[r.value + 1..]
    ensures r.None? ==> ch !in s
  {
    if s == [] then None
    else if s[|s| - 1] == ch then Some(|s| - 1)
    else
      var r := LastIndexOf(s[..|s| - 1], ch);
      if r.None? then None
      else
        assert s[r.value + 1..] == s[..|s| - 1][r.value + 1..] + [s[|s| - 1]];
        Some(r.value)
  }

  lemma {:induction false} IndexOfFirst(a: string, b: string, ch: char)
    requires ch !in a
    ensures IndexOf(a + [ch] + b, ch) == Some(|a|)
  {
    if a != [] {
      assert (a + [ch] + b)[1..] == a[1..] + [ch] + b;
      IndexOfFirst(a[1..], b, ch);
    }
  }

  lemma {:induction false} LastIndexOfLast(a: string, b: string, ch: char)
    requires ch !in b
    ensures LastIndexOf(a + [ch] + b, ch) == Some(|a|)
  {
    if b != [] {
      var s := a + [ch] + b;
      assert s[..|s| - 1] == a + [ch] + b[..|b| - 1];
      assert b[|b| - 1] in b;
      LastIndexOfLast(a, b[..|b| - 1], ch);
    }
  }

  /**
   * Reads a device id back: the controller name runs up to the second `/`,
   * the driver name up to the last `@`, and the address follows `0x`.
   */
  function ParseDeviceId(id: string): (r: Option<(string, string, int)>)
  {
    if |id| == 0 || id[0] != '/' then None
    else
      var rest := id[1..];
      match IndexOf(rest, '/')
      case None => None
      case Some(i) => ParseDriverPart(rest[..i], rest[i + 1..])
  }

  /** The part after the controller name: the driver name, `@` and the address. */
  function ParseDriverPart(ctrlName: string, tail: string): (r: Option<(string, string, int)>)
    ensures r.Some? ==> r.value.1 == ctrlName
  {
    match LastIndexOf(tail, '@')
    case None => None
    case Some(j) =>
      match ParseAddress(tail[j + 1..])
      case None => None
      case Some(addr) => Some((tail[..j], ctrlName, addr))
  }

  /** The address part of a device id: `0x` and then hexadecimal digits. */
  function ParseAddress(text: string): (r: Option<int>)
    ensures r.Some? ==> |text| >= 2 && text[..2] == "0x"
  {
    if |text| < 2 || text[..2] != "0x" then None else Some(ParseInt(text[2..], 16))
  }

  lemma AddressParses(addr: int)
    ensures ParseAddress("0x" + Format(addr, 16)) == Some(addr)
  {
    var after := "0x" + Format(addr, 16);
    assert after[..2] == "0x" && after[2..] == Format(addr, 16);
    FormatRoundTrip(addr, 16);
  }

  lemma DriverPartParses(driverName: string, ctrlName: string, addr: int)
    ensures ParseDriverPart(ctrlName, driverName + "@0x" + Format(addr, 16)) == Some((driverName, ctrlName, addr))
  {
    var hex := Format(addr, 16);
    var after := "0x" + hex;
    var tail := driverName + ['@'] + after;
    assert tail == driverName + "@0x" + hex;
    assert '@' !in after by {
      assert forall k :: 2 <= k < |after| ==> after[k] == hex[k - 2];
    }
    LastIndexOfLast(driverName, after, '@');
    assert tail[|driverName| + 1..] == after;
    assert tail[..|driverName|] == driverName;
    AddressParses(addr);
  }

  lemma DeviceIdParses(driverName: string, ctrlName: string, addr: int, id: string)
    requires id == "/" + ctrlName + "/" + driverName + "@0x" + Format(addr, 16)
    ensures '/' !in ctrlName ==> ParseDeviceId(id) == Some((driverName, ctrlName, addr))
  {
    if '/' !in ctrlName {
      var tail := driverName + "@0x" + Format(addr, 16);
      var rest := ctrlName + ['/'] + tail;
      assert id[1..] == rest;
      IndexOfFirst(ctrlName, tail, '/');
      assert rest[|ctrlName| + 1..] == tail;
      assert rest[..|ctrlName|] == ctrlName;
      DriverPartParses(driverName, ctrlName, addr);
    }
  }

  /**
   * The text CPython gives a class method looked up on a class:
   * `<bound method Cls.driver_name of <class 'module.Cls'>>`.
   */
  function BoundMethodText(qualName: string, moduleName: string): (t: string)
    ensures |t| > 0 && t[0] == '<'
  {
    "<bound method " + qualName + ".driver_name of <class '" + moduleName + "." + qualName + "'>>"
  }

  /**
   * `Device.name` as written: it hands `self.driver_name`, the method object
   * itself, to `create_device_id`, so the id holds the method's text.
   */
  function DeviceName(qualName: string, moduleName: string, ctrlName: string, addr: int): (name: string)
    ensures '/' !in ctrlName ==>
      ParseDeviceId(name) == Some((BoundMethodText(qualName, moduleName), ctrlName, addr))
  {
    DeviceId(BoundMethodText(qualName, moduleName), ctrlName, addr)
  }

  /** A driver name that does not start with `<` never appears in `Device.name`. */
  lemma DeviceNameIsNotDriverId(qualName: string, moduleName: string, driverName: string, ctrlName: string, addr: int)
    requires |driverName| > 0 && driverName[0] != '<'
    ensures DeviceName(qualName, moduleName, ctrlName, addr) != DeviceId(driverName, ctrlName, addr)
  {
    var k := |ctrlName| + 2;
    var t := BoundMethodText(qualName, moduleName);
    assert DeviceName(qualName, moduleName, ctrlName, addr)[k] == t[0];
    assert DeviceId(driverName, ctrlName, addr)[k] == driverName[0];
  }

  lemma DeviceIdExample()
    ensures DeviceId("bmp280", "i2c-1", 0x77) == "/i2c-1/bmp280@0x77"
  {
    assert Digits(0x77, 16) == "77" by {
      assert Digits(0x77, 16) == Digits(7, 16) + [DIGITS[7]];
    }
    assert Format(0x77, 16) == "77";
  }

  lemma ControllerNameExample()
    ensures ControllerName(1) == "i2c-1"
  {
    assert Format(1, 10) == "1";
  }
}
