/**
 * The part of Python's `struct` module the calibration readers use:
 * `unpack` and `pack` for formats made of the items `B`, `b`, `H` and `h`,
 * in little-endian (`<`) or big-endian (`>`) byte order.
 */
module Struct {
  import opened Bits

  /** One item of a format string: `B`, `b`, `H` or `h`. */
  datatype Code = UByte | SByte | UShort | SShort

  function Width(c: Code): nat
  {
    if c.UByte? || c.SByte? then 1 else 2
  }

  /** The values an item can hold. */
  predicate InRange(c: Code, v: int)
  {
    match c
    case UByte => 0 <= v < 256
    case SByte => -128 <= v < 128
    case UShort => 0 <= v < 65536
    case SShort => -32768 <= v < 32768
  }

  /** The 16-bit word of two bytes in the given byte order. */
  function Join16(little: bool, b0: Byte, b1: Byte): (u: nat)
    ensures u < 65536
  {
    if little then Le16(b0, b1) else Be16(b0, b1)
  }

  /** The two bytes of a 16-bit word in the given byte order. */
  function Split16(little: bool, u: nat): (b: seq<Byte>)
    requires u < 65536
    ensures |b| == 2 && Join16(little, b[0], b[1]) == u
  {
    if little then [u % 256, u / 256] else [u / 256, u % 256]
  }

  /** Reads one item from exactly its own number of bytes. */
  function DecodeItem(c: Code, little: bool, b: seq<Byte>): (v: int)
    requires |b| == Width(c)
    ensures InRange(c, v)
  {
    match c
    case UByte => b[0]
    case SByte => Signed8(b[0])
    case UShort => Join16(little, b[0], b[1])
    case SShort => Signed16(Join16(little, b[0], b[1]))
  }

  /** Writes one item: the bytes `struct.pack` produces for it. */
  function EncodeItem(c: Code, little: bool, v: int): (b: seq<Byte>)
    requires InRange(c, v)
    ensures |b| == Width(c)
  {
    match c
    case UByte => [v]
    case SByte => [if v < 0 then v + 256 else v]
    case UShort => Split16(little, v)
    case SShort => Split16(little, Unsigned16(v))
  }

  lemma ItemRoundTrip(c: Code, little: bool, b: seq<Byte>)
    requires |b| == Width(c)
    ensures EncodeItem(c, little, DecodeItem(c, little, b)) == b
  {
    if c.UShort? || c.SShort? {
      var u := Join16(little, b[0], b[1]);
      var e := Split16(little, u);
      assert e[0] == b[0] && e[1] == b[1];
    }
  }

  lemma ItemInverse(c: Code, little: bool, v: int)
    requires InRange(c, v)
    ensures DecodeItem(c, little, EncodeItem(c, little, v)) == v
  {
  }

  /** The number of bytes a format occupies (`struct.calcsize`). */
  function CalcSize(fmt: seq<Code>): nat
  {
    if fmt == [] then 0 else Width(fmt[0]) + CalcSize(fmt[1..])
  }

  lemma {:induction false} SizeAppend(a: seq<Code>, b: seq<Code>)
    ensures CalcSize(a + b) == CalcSize(a) + CalcSize(b)
  {
    if a == [] {
      assert a + b == b;
    } else {
      assert (a + b)[0] == a[0] && (a + b)[1..] == a[1..] + b;
      SizeAppend(a[1..], b);
    }
  }

  /** A format made only of 16-bit items occupies two bytes per item. */
  lemma {:induction false} SizeOfShorts(fmt: seq<Code>)
    requires forall i :: 0 <= i < |fmt| ==> Width(fmt[i]) == 2
    ensures CalcSize(fmt) == 2 * |fmt|
  {
    if fmt != [] {
      assert forall i :: 0 <= i < |fmt[1..]| ==> fmt[1..][i] == fmt[i + 1];
      SizeOfShorts(fmt[1..]);
    }
  }

  /** `struct.unpack(fmt, b)`. */
  function Unpack(fmt: seq<Code>, little: bool, b: seq<Byte>): (vals: seq<int>)
    requires |b| == CalcSize(fmt)
    ensures |vals| == |fmt|
    ensures forall i :: 0 <= i < |fmt| ==> InRange(fmt[i], vals[i])
  {
    if fmt == [] then []
    else
      var w := Width(fmt[0]);
      var rest := Unpack(fmt[1..], little, b[w..]);
      assert forall i :: 1 <= i < |fmt| ==> fmt[i] == fmt[1..][i - 1];
      [DecodeItem(fmt[0], little, b[..w])] + rest
  }

  predicate AllInRange(fmt: seq<Code>, vals: seq<int>)
  {
    |vals| == |fmt| && forall i :: 0 <= i < |fmt| ==> InRange(fmt[i], vals[i])
  }

  /** `struct.pack(fmt, *vals)`. */
  function Pack(fmt: seq<Code>, little: bool, vals: seq<int>): (b: seq<Byte>)
    requires AllInRange(fmt, vals)
    ensures |b| == CalcSize(fmt)
  {
    if fmt == [] then []
    else
      assert AllInRange(fmt[1..], vals[1..]) by {
        assert forall i :: 0 <= i < |fmt| - 1 ==> fmt[1..][i] == fmt[i + 1] && vals[1..][i] == vals[i + 1];
      }
      EncodeItem(fmt[0], little, vals[0]) + Pack(fmt[1..], little, vals[1..])
  }

  /** Unpacking loses nothing: packing the values again gives back the bytes. */
  lemma {:induction false} PackUnpack(fmt: seq<Code>, little: bool, b: seq<Byte>)
    requires |b| == CalcSize(fmt)
    ensures Pack(fmt, little, Unpack(fmt, little, b)) == b
  {
    if fmt != [] {
      var w := Width(fmt[0]);
      var vals := Unpack(fmt, little, b);
      assert vals[1..] == Unpack(fmt[1..], little, b[w..]);
      PackUnpack(fmt[1..], little, b[w..]);
      ItemRoundTrip(fmt[0], little, b[..w]);
      assert b == b[..w] + b[w..];
    }
  }

  /** Unpacking what was packed gives back the values. */
  lemma {:induction false} UnpackPack(fmt: seq<Code>, little: bool, vals: seq<int>)
    requires AllInRange(fmt, vals)
    ensures Unpack(fmt, little, Pack(fmt, little, vals)) == vals
  {
    if fmt != [] {
      var b := Pack(fmt, little, vals);
      var w := Width(fmt[0]);
      assert b[..w] == EncodeItem(fmt[0], little, vals[0]);
      assert b[w..] == Pack(fmt[1..], little, vals[1..]);
      ItemInverse(fmt[0], little, vals[0]);
      UnpackPack(fmt[1..], little, vals[1..]);
      assert vals == [vals[0]] + vals[1..];
    }
  }

  /** Where item `i` of a format starts: the bytes taken by the items before it. */
  function Offset(fmt: seq<Code>, i: nat): (o: nat)
    requires i < |fmt|
    ensures o + Width(fmt[i]) <= CalcSize(fmt)
  {
    if i == 0 then 0 else Width(fmt[0]) + Offset(fmt[1..], i - 1)
  }

  /** In a format made only of 16-bit items, item `i` starts at byte `2 * i`. */
  lemma {:induction false} OffsetOfShorts(fmt: seq<Code>, i: nat)
    requires i < |fmt| && forall j :: 0 <= j < i ==> Width(fmt[j]) == 2
    ensures Offset(fmt, i) == 2 * i
  {
    if i > 0 {
      assert forall j :: 0 <= j < i - 1 ==> fmt[1..][j] == fmt[j + 1];
      OffsetOfShorts(fmt[1..], i - 1);
    }
  }

  /** Each item starts where the one before it ends. */
  lemma {:induction false} OffsetNext(fmt: seq<Code>, i: nat)
    requires i + 1 < |fmt|
    ensures Offset(fmt, i + 1) == Offset(fmt, i) + Width(fmt[i])
  {
    if i > 0 {
      OffsetNext(fmt[1..], i - 1);
      assert fmt[1..][i - 1] == fmt[i];
    }
  }

  /** Item `i` of an unpacked tuple is read from the bytes right after the items before it. */
  lemma {:induction false} UnpackAt(fmt: seq<Code>, little: bool, b: seq<Byte>, i: nat)
    requires |b| == CalcSize(fmt) && i < |fmt|
    ensures Unpack(fmt, little, b)[i] == DecodeItem(fmt[i], little, b[Offset(fmt, i)..Offset(fmt, i) + Width(fmt[i])])
  {
    var w := Width(fmt[0]);
    if i == 0 {
      assert b[0..w] == b[..w];
    } else {
      var o := Offset(fmt[1..], i - 1);
      var wi := Width(fmt[i]);
      var rest := Unpack(fmt[1..], little, b[w..]);
      assert Unpack(fmt, little, b)[i] == rest[i - 1] by {
        assert Unpack(fmt, little, b) == [DecodeItem(fmt[0], little, b[..w])] + rest;
      }
      assert rest[i - 1] == DecodeItem(fmt[i], little, b[w..][o..o + wi]) by {
        assert fmt[1..][i - 1] == fmt[i];
        UnpackAt(fmt[1..], little, b[w..], i - 1);
      }
      assert b[w..][o..o + wi] == b[w + o..w + o + wi];
      assert Offset(fmt, i) == w + o;
    }
  }
}
