/** The plugin's message codec (LeanCloudMessageCodec.java): before the
    standard codec sees a value, every java.lang.Number is tagged by its
    runtime class and written with a layout of its own. The byte layouts of
    the standard codec it calls (writeInt, writeLong, writeSize, the
    alignment padding) are Flutter's StandardMessageCodec, which is not part
    of this repository: they are written out here in its little-endian form. */
module MessageCodec {
  import opened Values
  import Numerals

  const IntTag: Byte := 3
  const LongTag: Byte := 4
  const BigIntTag: Byte := 5
  const DoubleTag: Byte := 6

  /** The eight bytes of a double's IEEE-754 image. */
  type DoubleImage = s: seq<Byte> | |s| == 8 witness [0, 0, 0, 0, 0, 0, 0, 0]

  /** The Number subclasses the codec tells apart. Floating-point kinds carry
      the 8-byte IEEE-754 image of the double they are written as (for a
      BigDecimal, after its normalisation to two decimals), which is
      computed outside this model. */
  datatype JavaNumber =
    | JInteger(i: int)
    | JShort(i: int)
    | JByte(i: int)
    | JLong(i: int)
    | JFloat(ieee: DoubleImage)
    | JDouble(ieee: DoubleImage)
    | JBigInteger(i: int)
    | JBigDecimal(ieee: DoubleImage)
    | JOtherNumber(className: string)

  /** A value that is not a java.lang.Number: an Integer or a Long always
      takes the Number branch of writeValue. */
  type NonNumeric = v: Value | !v.VInt? && !v.VLong? witness VNull

  /** What the codec is handed: a Number, or anything else. */
  datatype Datum = Number(n: JavaNumber) | NonNumber(v: NonNumeric)

  /** The datum a channel value is when handed to writeValue: an Integer or
      a Long is a Number of that class, anything else goes to the standard
      codec as it is. */
  function DatumOf(v: Value): (d: Datum)
    ensures Supported(d)
    ensures d.NonNumber? <==> !v.VInt? && !v.VLong?
    ensures d.NonNumber? ==> d.v == v
    ensures v.VInt? ==> NumberTag(d.n) == Some(IntTag) && d.n.i == v.i
    ensures v.VLong? ==> NumberTag(d.n) == Some(LongTag) && d.n.i == v.l
  {
    match v
    case VInt(i) => Number(JInteger(i))
    case VLong(l) => Number(JLong(l))
    case _ => NonNumber(v)
  }

  // ---------------------------------------------------------------------
  // Fixed-width integers, as the standard codec lays them out.

  function Pow256(k: nat): (p: nat)
    ensures p >= 1
  {
    if k == 0 then 1 else 256 * Pow256(k - 1)
  }

  lemma Pow256Values()
    ensures Pow256(2) == 0x1_0000
    ensures Pow256(4) == 0x1_0000_0000
    ensures Pow256(8) == 0x1_0000_0000_0000_0000
  {
  }

  /** The width low-order bytes of u, least significant first. */
  function LittleEndian(u: nat, width: nat): (b: seq<Byte>)
    ensures |b| == width
  {
    if width == 0 then [] else [(u % 256) as Byte] + LittleEndian(u / 256, width - 1)
  }

  function ReadUnsigned(b: seq<Byte>): nat {
    if |b| == 0 then 0 else b[0] as nat + 256 * ReadUnsigned(b[1..])
  }

  /** A two's-complement reading of little-endian bytes. */
  function ReadSigned(b: seq<Byte>): int
    requires |b| >= 1
  {
    var u := ReadUnsigned(b);
    if u >= Pow256(|b|) / 2 then u - Pow256(|b|) else u
  }

  /** writeInt: the four bytes of a 32-bit two's-complement integer. */
  function IntBytes(v: int): (b: seq<Byte>)
    ensures |b| == 4
  {
    LittleEndian(v % Pow256(4), 4)
  }

  /** writeLong: the eight bytes of a 64-bit two's-complement integer. */
  function LongBytes(v: int): (b: seq<Byte>)
    ensures |b| == 8
  {
    LittleEndian(v % Pow256(8), 8)
  }

  predicate InSignedRange(v: int, width: nat) {
    width >= 1 && -(Pow256(width) / 2) <= v < Pow256(width) / 2
  }

  lemma {:induction false} LittleEndianRoundTrip(u: nat, width: nat)
    requires u < Pow256(width)
    ensures ReadUnsigned(LittleEndian(u, width)) == u
    decreases width
  {
    if width > 0 {
      assert u / 256 < Pow256(width - 1);
      LittleEndianRoundTrip(u / 256, width - 1);
      assert LittleEndian(u, width)[1..] == LittleEndian(u / 256, width - 1);
    }
  }

  lemma HalfPow256(width: nat)
    requires width >= 1
    ensures Pow256(width) == 2 * (Pow256(width) / 2)
  {
    assert Pow256(width) == 256 * Pow256(width - 1);
  }

  lemma ModOfInRange(v: int, p: int)
    requires p > 0 && -p <= v < p
    ensures v < 0 ==> v % p == v + p
    ensures v >= 0 ==> v % p == v
  {
  }

  /** The bytes written for a value in range read back as that value. */
  lemma SignedRoundTrip(v: int, width: nat)
    requires InSignedRange(v, width)
    ensures ReadSigned(LittleEndian(v % Pow256(width), width)) == v
  {
    var p := Pow256(width);
    HalfPow256(width);
    ModOfInRange(v, p);
    LittleEndianRoundTrip(v % p, width);
  }

  // ---------------------------------------------------------------------
  // Sizes, byte strings and alignment.

  /** writeSize: one byte below 254; 254 then two bytes up to 0xffff; 255
      then four bytes above. */
  function SizePrefix(n: nat): seq<Byte> {
    if n < 254 then [n as Byte]
    else if n <= 0xffff then [254 as Byte] + LittleEndian(n, 2)
    else [255 as Byte] + IntBytes(n)
  }

  /** Reads a size prefix: the size and the number of bytes it took. */
  function ReadSize(b: seq<Byte>): Option<(nat, nat)> {
    if |b| == 0 then None
    else if b[0] < 254 then Some((b[0] as nat, 1))
    else if b[0] == 254 then (if |b| >= 3 then Some((ReadUnsigned(b[1..3]), 3)) else None)
    else if |b| >= 5 then Some((ReadUnsigned(b[1..5]), 5)) else None
  }

  lemma SizePrefixRoundTrip(n: nat, rest: seq<Byte>)
    requires n < Pow256(4) / 2
    ensures ReadSize(SizePrefix(n) + rest) == Some((n, |SizePrefix(n)|))
  {
    Pow256Values();
    var b := SizePrefix(n) + rest;
    if n >= 254 && n <= 0xffff {
      assert b[1..3] == LittleEndian(n, 2);
      LittleEndianRoundTrip(n, 2);
    } else if n > 0xffff {
      assert b[1..5] == IntBytes(n);
      assert n % Pow256(4) == n;
      LittleEndianRoundTrip(n, 4);
    }
  }

  /** writeBytes: the size, then the bytes. */
  function SizedBytes(b: seq<Byte>): seq<Byte> {
    SizePrefix(|b|) + b
  }

  /** writeAlignment(stream, 8): zero bytes up to the next multiple of eight. */
  function Padding(position: nat): (pad: seq<Byte>)
    ensures |pad| < 8
    ensures (position + |pad|) % 8 == 0
    ensures forall k :: 0 <= k < |pad| ==> pad[k] == 0
  {
    var m := position % 8;
    if m != 0 then seq(8 - m, _ => 0 as Byte) else []
  }

  /** The UTF-8 bytes of ASCII text are its character codes. */
  function AsciiBytes(s: string): (b: seq<Byte>)
    requires forall k :: 0 <= k < |s| ==> s[k] as int < 128
    ensures |b| == |s|
  {
    seq(|s|, k requires 0 <= k < |s| => s[k] as int as Byte)
  }

  function AsciiText(b: seq<Byte>): (s: string)
    requires forall k :: 0 <= k < |b| ==> b[k] < 128
  {
    seq(|b|, k requires 0 <= k < |b| => b[k] as int as char)
  }

  /** BigInteger.toString(16): lower-case hex digits, '-' for negatives. */
  function HexText(i: int): string {
    Numerals.IntText(i, 16)
  }

  lemma HexTextIsAscii(i: int)
    ensures forall k :: 0 <= k < |HexText(i)| ==> HexText(i)[k] as int < 128
  {
    var m: nat := if i < 0 then -i else i;
    Numerals.NatTextDigits(m, 16);
    if i < 0 {
      assert forall k :: 1 <= k < |HexText(i)| ==> HexText(i)[k] == Numerals.NatText(m, 16)[k - 1];
    }
  }

  /** The UTF-8 bytes of the hex text of i. */
  function HexBytes(i: int): (b: seq<Byte>)
  {
    HexTextIsAscii(i);
    AsciiBytes(HexText(i))
  }

  // ---------------------------------------------------------------------
  // The tagged number encoding.

  /** The tag byte of each Number kind; None for a kind the codec refuses. */
  function NumberTag(n: JavaNumber): Option<Byte> {
    match n
    case JInteger(_) => Some(IntTag)
    case JShort(_) => Some(IntTag)
    case JByte(_) => Some(IntTag)
    case JLong(_) => Some(LongTag)
    case JFloat(_) => Some(DoubleTag)
    case JDouble(_) => Some(DoubleTag)
    case JBigInteger(_) => Some(BigIntTag)
    case JBigDecimal(_) => Some(DoubleTag)
    case JOtherNumber(_) => None
  }

  predicate Supported(d: Datum) {
    d.NonNumber? || NumberTag(d.n).Some?
  }

  /** What follows the tag of a number when the tag ends at `position`. */
  function Payload(position: nat, n: JavaNumber): seq<Byte>
    requires NumberTag(n).Some?
  {
    match n
    case JInteger(i) => IntBytes(i)
    case JShort(i) => IntBytes(i)
    case JByte(i) => IntBytes(i)
    case JLong(i) => LongBytes(i)
    case JFloat(ieee) => Padding(position) + ieee
    case JDouble(ieee) => Padding(position) + ieee
    case JBigInteger(i) => SizedBytes(HexBytes(i))
    case JBigDecimal(ieee) => Padding(position) + ieee
  }

  /** The bytes writeValue appends to a stream of length `position`; a
      non-number goes to the standard codec, given here as `base`. */
  function Encoding(position: nat, d: Datum, base: Value -> seq<Byte>): seq<Byte>
    requires Supported(d)
  {
    match d
    case NonNumber(v) => base(v)
    case Number(n) => [NumberTag(n).value] + Payload(position + 1, n)
  }

  /** The byte stream the codec writes into. */
  class ByteStream {
    var bytes: seq<Byte>

    constructor ()
      ensures bytes == []
    {
      bytes := [];
    }

    method Write(b: seq<Byte>)
      modifies this
      ensures bytes == old(bytes) + b
    {
      bytes := bytes + b;
    }
  }

  /** writeValue: a Number (every Integer and Long among them) is written as
      its tag and payload; a Number of any other class raises before a byte
      is written (ok is false); every other value is passed unchanged to the
      standard codec. */
  method WriteValue(stream: ByteStream, value: Datum, base: Value -> seq<Byte>) returns (ok: bool)
    modifies stream
    ensures ok <==> Supported(value)
    ensures ok ==> stream.bytes == old(stream.bytes) + Encoding(|old(stream.bytes)|, value, base)
    ensures !ok ==> stream.bytes == old(stream.bytes)
  {
    match value {
      case NonNumber(v) =>
        stream.Write(base(v));
        ok := true;
      case Number(n) =>
        ok := WriteNumber(stream, n);
    }
  }

  /** The Number branch of writeValue, one case per numeric class. */
  method WriteNumber(stream: ByteStream, n: JavaNumber) returns (ok: bool)
    modifies stream
    ensures ok <==> NumberTag(n).Some?
    ensures ok ==> stream.bytes == old(stream.bytes) + ([NumberTag(n).value] + Payload(|old(stream.bytes)| + 1, n))
    ensures !ok ==> stream.bytes == old(stream.bytes)
  {
    ok := true;
    ghost var before := stream.bytes;
    if n.JInteger? || n.JShort? || n.JByte? {
      stream.Write([IntTag] + IntBytes(n.i));
    } else if n.JLong? {
      stream.Write([LongTag] + LongBytes(n.i));
    } else if n.JFloat? || n.JDouble? {
      stream.Write([DoubleTag]);
      stream.Write(Padding(|stream.bytes|) + n.ieee);
      assert stream.bytes == before + ([DoubleTag] + (Padding(|before| + 1) + n.ieee));
    } else if n.JBigInteger? {
      stream.Write([BigIntTag] + SizedBytes(HexBytes(n.i)));
    } else if n.JBigDecimal? {
      stream.Write([DoubleTag]);
      stream.Write(Padding(|stream.bytes|) + n.ieee);
      assert stream.bytes == before + ([DoubleTag] + (Padding(|before| + 1) + n.ieee));
    } else {
      ok := false;
    }
  }

  // ---------------------------------------------------------------------
  // What the encoding promises.

  /** The first byte is the tag, and the tag depends on the kind alone: two
      numbers of the same kind get the same tag whatever their values. */
  lemma TagDeterminedByKind(position: nat, n: JavaNumber, m: JavaNumber, base: Value -> seq<Byte>)
    requires NumberTag(n).Some?
    requires n.JInteger? == m.JInteger? && n.JShort? == m.JShort? && n.JByte? == m.JByte?
    requires n.JLong? == m.JLong? && n.JFloat? == m.JFloat? && n.JDouble? == m.JDouble?
    requires n.JBigInteger? == m.JBigInteger? && n.JBigDecimal? == m.JBigDecimal?
    ensures Encoding(position, Number(n), base)[0] == Encoding(position, Number(m), base)[0]
  {
  }

  /** Short and Byte are widened: they are written exactly as the Integer of
      the same value, and the four bytes read back as that value. */
  /** An Integer or a Long value is never handed to the standard codec: it
      is written as tag 3 and its four bytes, or tag 4 and its eight, and
      those bytes read back as the value. */
  lemma ChannelIntegersUseNumberTags(position: nat, v: Value, base: Value -> seq<Byte>)
    requires v.VInt? ==> InSignedRange(v.i, 4)
    requires v.VLong? ==> InSignedRange(v.l, 8)
    ensures v.VInt? ==> Encoding(position, DatumOf(v), base) == [IntTag] + IntBytes(v.i) && ReadSigned(IntBytes(v.i)) == v.i
    ensures v.VLong? ==> Encoding(position, DatumOf(v), base) == [LongTag] + LongBytes(v.l) && ReadSigned(LongBytes(v.l)) == v.l
  {
    if v.VInt? {
      SignedRoundTrip(v.i, 4);
    } else if v.VLong? {
      SignedRoundTrip(v.l, 8);
    }
  }

  lemma IntWidening(position: nat, n: JavaNumber, base: Value -> seq<Byte>)
    requires n.JInteger? || n.JShort? || n.JByte?
    requires InSignedRange(n.i, 4)
    ensures Encoding(position, Number(n), base) == Encoding(position, Number(JInteger(n.i)), base)
    ensures Encoding(position, Number(n), base) == [IntTag] + IntBytes(n.i)
    ensures ReadSigned(IntBytes(n.i)) == n.i
  {
    SignedRoundTrip(n.i, 4);
  }

  /** A Long is its tag and eight bytes that read back as the value. */
  lemma LongRoundTrip(position: nat, v: int, base: Value -> seq<Byte>)
    requires InSignedRange(v, 8)
    ensures Encoding(position, Number(JLong(v)), base) == [LongTag] + LongBytes(v)
    ensures ReadSigned(LongBytes(v)) == v
  {
    SignedRoundTrip(v, 8);
  }

  /** A BigInteger is its tag and the sized UTF-8 bytes of its hex text;
      reading the size, the text and then the hex number gives it back. */
  lemma BigIntegerRoundTrip(position: nat, i: int, base: Value -> seq<Byte>)
    requires |HexBytes(i)| < Pow256(4) / 2
    ensures var e := Encoding(position, Number(JBigInteger(i)), base);
      && e[0] == BigIntTag
      && ReadSize(e[1..]) == Some((|HexBytes(i)|, |SizePrefix(|HexBytes(i)|)|))
      && var start := 1 + |SizePrefix(|HexBytes(i)|)|;
         && e[start..] == HexBytes(i)
         && (forall k :: 0 <= k < |e[start..]| ==> e[start..][k] < 128)
         && Numerals.ParseInt(AsciiText(e[start..]), 16) == Some(i)
  {
    var b := HexBytes(i);
    var e := Encoding(position, Number(JBigInteger(i)), base);
    assert e[1..] == SizePrefix(|b|) + b;
    SizePrefixRoundTrip(|b|, b);
    HexTextIsAscii(i);
    assert AsciiText(b) == HexText(i);
    Numerals.IntTextRoundTrip(i, 16);
  }

  /** The hex text is lower case: every character is '-' or a digit 0-9, a-f. */
  lemma HexTextLowerCase(i: int)
    ensures forall k :: 0 <= k < |HexText(i)| ==>
      HexText(i)[k] == '-' || '0' <= HexText(i)[k] <= '9' || 'a' <= HexText(i)[k] <= 'f'
  {
    var m: nat := if i < 0 then -i else i;
    Numerals.NatTextDigits(m, 16);
    if i < 0 {
      assert forall k :: 1 <= k < |HexText(i)| ==> HexText(i)[k] == Numerals.NatText(m, 16)[k - 1];
    }
  }

  /** Float, Double and BigDecimal share tag 6, and their eight payload bytes
      start at a multiple of eight in the stream. */
  lemma DoubleAligned(position: nat, n: JavaNumber, base: Value -> seq<Byte>)
    requires n.JFloat? || n.JDouble? || n.JBigDecimal?
    ensures var e := Encoding(position, Number(n), base);
      && e[0] == DoubleTag
      && exists pad :: e == [DoubleTag] + pad + n.ieee && (position + 1 + |pad|) % 8 == 0
  {
    var pad := Padding(position + 1);
    assert NumberTag(n) == Some(DoubleTag);
    assert Payload(position + 1, n) == pad + n.ieee;
    assert Encoding(position, Number(n), base) == [DoubleTag] + (pad + n.ieee);
    assert [DoubleTag] + (pad + n.ieee) == [DoubleTag] + pad + n.ieee;
  }
}
