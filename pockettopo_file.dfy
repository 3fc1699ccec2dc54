/**
 * Primitives of the PocketTopo .top binary format: little-endian two's
 * complement integers, strings with a 7-bit-group length prefix, station
 * ids, and the fixed-point units of angles, distances and dates.
 *
 * The input stream is a byte sequence with a read position. Each reader is
 * a method on the stream that is proved to deliver what a pure decoder
 * function says the bytes at the position mean, and to leave the position
 * after them; on a premature end the reader fails having consumed the rest
 * of the stream.
 */
module PocketTopoFile {
  import opened Wrappers
  import opened Text
  import opened SurveyModel

  type Byte = b: int | 0 <= b < 256

  /** FULL_CIRCLE: angle units in a full turn. */
  const FullCircle: int := 65536
  /** UNDEFINED_ID, the int 0x80000000: the station id of a splay's far end. */
  const UndefinedId: int := -0x8000_0000
  /** .NET ticks (100 ns since 1 Jan 0001) at 1 Jan 1970. */
  const TicksAtEpoch: int := 621355968000000000
  const TicksPerMillisecond: int := 10000

  const EndOfStream: string := "Unexpected end of stream"
  const EndOfStreamInString: string := "Unexpected end of stream reading string"

  /** A decoded value and the position just after it. */
  datatype Read<T> = Read(value: T, next: nat)

  // ---- two's complement ------------------------------------------------------

  function Pow256(n: nat): (r: nat)
    ensures r >= 1
  {
    if n == 0 then 1 else 256 * Pow256(n - 1)
  }

  /** Half the range of an n-byte integer: its signed values lie in [-Half(n), Half(n)). */
  function Half(n: nat): (h: int)
    requires n > 0
    ensures h > 0 && Pow256(n) == 2 * h
  {
    128 * Pow256(n - 1)
  }

  /** The value of bytes taken lowest first. */
  function LittleEndian(bs: seq<Byte>): (r: nat)
    ensures r < Pow256(|bs|)
  {
    if bs == [] then 0 else bs[0] as int + 256 * LittleEndian(bs[1..])
  }

  /** An n-byte pattern read as a two's complement integer. */
  function Signed(u: int, n: nat): (r: int)
    requires n > 0 && 0 <= u < Pow256(n)
    ensures -Half(n) <= r < Half(n)
    ensures r == u || r == u - Pow256(n)
  {
    if u >= Half(n) then u - Pow256(n) else u
  }

  /** x & 0xFF..FF: the n-byte pattern of a signed integer. */
  function Unsigned(x: int, n: nat): (r: nat)
    requires n > 0 && -Half(n) <= x < Half(n)
    ensures r < Pow256(n)
    ensures r == x || r == x + Pow256(n)
  {
    if x < 0 then x + Pow256(n) else x
  }

  lemma SignedUnsigned(x: int, n: nat)
    requires n > 0 && -Half(n) <= x < Half(n)
    ensures Signed(Unsigned(x, n), n) == x
  {
  }

  lemma UnsignedSigned(u: int, n: nat)
    requires n > 0 && 0 <= u < Pow256(n)
    ensures Unsigned(Signed(u, n), n) == u
  {
  }

  /** The n bytes that encode v lowest first. */
  function EncodeLittleEndian(v: nat, n: nat): (r: seq<Byte>)
    requires v < Pow256(n)
    ensures |r| == n
  {
    if n == 0 then [] else [v % 256] + EncodeLittleEndian(v / 256, n - 1)
  }

  /** Reading back what was encoded gives the value. */
  lemma {:induction false} LittleEndianRoundTrip(v: nat, n: nat)
    requires v < Pow256(n)
    ensures LittleEndian(EncodeLittleEndian(v, n)) == v
  {
    if n > 0 {
      var e := EncodeLittleEndian(v, n);
      LittleEndianRoundTrip(v / 256, n - 1);
      assert e[1..] == EncodeLittleEndian(v / 256, n - 1);
    }
  }

  lemma Distribute(a: int, p: int, b: int)
    ensures 256 * (a + p * b) == 256 * a + (256 * p) * b
  {
  }

  /** Bytes split anywhere: the high part counts Pow256(|lo|) times. */
  lemma {:induction false} LittleEndianAppend(lo: seq<Byte>, hi: seq<Byte>)
    ensures LittleEndian(lo + hi) == LittleEndian(lo) + Pow256(|lo|) * LittleEndian(hi)
  {
    if lo == [] {
      assert lo + hi == hi;
    } else {
      assert (lo + hi)[1..] == lo[1..] + hi;
      LittleEndianAppend(lo[1..], hi);
      var a, b, p := LittleEndian(lo[1..]), LittleEndian(hi), Pow256(|lo| - 1);
      assert LittleEndian(lo + hi) == lo[0] as int + 256 * (a + p * b);
      Distribute(a, p, b);
    }
  }

  /** readInt16: (short) (b0 | (b1 << 8)). */
  function Int16Of(bs: seq<Byte>): (r: int)
    requires |bs| == 2
    ensures -0x8000 <= r < 0x8000
  {
    Signed(bs[0] as int + 256 * (bs[1] as int), 2)
  }

  /** readInt32: b0 | (b1 << 8) | (b2 << 16) | (b3 << 24) on 32-bit ints, so b3 >= 128 makes it negative. */
  function Int32Of(bs: seq<Byte>): (r: int)
    requires |bs| == 4
    ensures -0x8000_0000 <= r < 0x8000_0000
  {
    Signed(bs[0] as int + 256 * (bs[1] as int) + 65536 * (bs[2] as int) + 16777216 * (bs[3] as int), 4)
  }

  /** readInt64: lo | (hi << 32) on 64-bit longs, both 32-bit halves taken unsigned. */
  function Int64Of(bs: seq<Byte>): (r: int)
    requires |bs| == 8
    ensures -0x8000_0000_0000_0000 <= r < 0x8000_0000_0000_0000
  {
    var lo := Unsigned(Int32Of(bs[..4]), 4);
    var hi := Unsigned(Int32Of(bs[4..]), 4);
    Signed(lo + 0x1_0000_0000 * hi, 8)
  }

  lemma LittleEndian4(bs: seq<Byte>)
    requires |bs| == 4
    ensures LittleEndian(bs) == bs[0] as int + 256 * (bs[1] as int) + 65536 * (bs[2] as int) + 16777216 * (bs[3] as int)
  {
    var b3 := bs[1..][1..][1..];
    assert b3[1..] == [];
    assert LittleEndian(b3) == bs[3] as int;
    assert LittleEndian(bs[1..][1..]) == bs[2] as int + 256 * (bs[3] as int);
    assert LittleEndian(bs[1..]) == bs[1] as int + 256 * (bs[2] as int) + 65536 * (bs[3] as int);
  }

  lemma Pow256Values()
    ensures Pow256(2) == 0x1_0000 && Pow256(4) == 0x1_0000_0000 && Pow256(8) == 0x1_0000_0000_0000_0000
  {
    assert Pow256(4) == 0x1_0000_0000 by {
      assert Pow256(2) == 0x1_0000;
    }
    assert Pow256(8) == Pow256(4) * Pow256(4) by {
      assert Pow256(8) == 256 * 256 * 256 * 256 * Pow256(4);
    }
  }

  /** readInt16 is the 2-byte little-endian two's complement integer. */
  lemma Int16IsLittleEndian(bs: seq<Byte>)
    requires |bs| == 2
    ensures Int16Of(bs) == Signed(LittleEndian(bs), 2)
  {
    assert bs[1..][1..] == [];
    assert bs[1..][0] == bs[1];
  }

  /** readInt32 is the 4-byte little-endian two's complement integer. */
  lemma Int32IsLittleEndian(bs: seq<Byte>)
    requires |bs| == 4
    ensures Int32Of(bs) == Signed(LittleEndian(bs), 4)
  {
    LittleEndian4(bs);
  }

  /** readInt64 is the 8-byte little-endian two's complement integer. */
  lemma Int64IsLittleEndian(bs: seq<Byte>)
    requires |bs| == 8
    ensures Int64Of(bs) == Signed(LittleEndian(bs), 8)
  {
    var lo, hi := bs[..4], bs[4..];
    Int32IsLittleEndian(lo);
    Int32IsLittleEndian(hi);
    UnsignedSigned(LittleEndian(lo), 4);
    UnsignedSigned(LittleEndian(hi), 4);
    LittleEndianAppend(lo, hi);
    assert lo + hi == bs;
    Pow256Values();
  }

  /** Encoding a signed integer and reading it back gives it again. */
  lemma Int32RoundTrip(x: int)
    requires -0x8000_0000 <= x < 0x8000_0000
    ensures Int32Of(EncodeLittleEndian(Unsigned(x, 4), 4)) == x
  {
    Pow256Values();
    var e := EncodeLittleEndian(Unsigned(x, 4), 4);
    LittleEndianRoundTrip(Unsigned(x, 4), 4);
    Int32IsLittleEndian(e);
    SignedUnsigned(x, 4);
  }

  /** {02, 01} is 0x0102, all ones is -1, and {02 00 00 00 01 00 00 00} is 0x0000000100000002. */
  lemma IntegerExamples()
    ensures Int16Of([0x02, 0x01]) == 0x0102
    ensures Int16Of([0xFF, 0xFF]) == -1
    ensures Int32Of([0xFF, 0xFF, 0xFF, 0xFF]) == -1
    ensures Int64Of([0x02, 0, 0, 0, 0x01, 0, 0, 0]) == 0x0000_0001_0000_0002
  {
    var b8: seq<Byte> := [0x02, 0, 0, 0, 0x01, 0, 0, 0];
    assert b8[..4] == [0x02, 0, 0, 0] && b8[4..] == [0x01, 0, 0, 0];
  }

  // ---- decoders over the bytes of a stream -----------------------------------

  function ByteAt(data: seq<Byte>, pos: nat): (r: Result<Read<Byte>>)
    ensures r.Ok? ==> r.value.next == pos + 1
  {
    if pos < |data| then Ok(Read(data[pos], pos + 1)) else Err(EndOfStream)
  }

  /** n whole bytes from pos, or the end-of-stream failure. */
  function BytesAt(data: seq<Byte>, pos: nat, n: nat): (r: Result<Read<seq<Byte>>>)
    ensures r.Ok? ==> |r.value.value| == n && r.value.next == pos + n
  {
    if pos + n <= |data| then Ok(Read(data[pos..pos + n], pos + n)) else Err(EndOfStream)
  }

  function Int16At(data: seq<Byte>, pos: nat): (r: Result<Read<int>>)
    ensures r.Ok? ==> -0x8000 <= r.value.value < 0x8000 && r.value.next == pos + 2
    ensures r.Err? ==> r.error == EndOfStream
  {
    match BytesAt(data, pos, 2)
    case Ok(r) => Ok(Read(Int16Of(r.value), r.next))
    case Err(e) => Err(e)
  }

  function Int32At(data: seq<Byte>, pos: nat): (r: Result<Read<int>>)
    ensures r.Ok? ==> -0x8000_0000 <= r.value.value < 0x8000_0000 && r.value.next == pos + 4
    ensures r.Err? ==> r.error == EndOfStream
  {
    match BytesAt(data, pos, 4)
    case Ok(r) => Ok(Read(Int32Of(r.value), r.next))
    case Err(e) => Err(e)
  }

  function Int64At(data: seq<Byte>, pos: nat): (r: Result<Read<int>>)
    ensures r.Ok? ==> -0x8000_0000_0000_0000 <= r.value.value < 0x8000_0000_0000_0000 && r.value.next == pos + 8
    ensures r.Err? ==> r.error == EndOfStream
  {
    match BytesAt(data, pos, 8)
    case Ok(r) => Ok(Read(Int64Of(r.value), r.next))
    case Err(e) => Err(e)
  }

  function Pow2(n: nat): (r: nat)
    ensures r >= 1
  {
    if n == 0 then 1 else 2 * Pow2(n - 1)
  }

  /** The number of 32-bit patterns. */
  const Two32: nat := 0x1_0000_0000

  lemma {:induction false} Pow2Shift(a: nat, b: nat)
    ensures Pow2(a + b) == Pow2(a) * Pow2(b)
    decreases b
  {
    if b > 0 {
      Pow2Shift(a, b - 1);
    }
  }

  lemma Pow2Of32()
    ensures Pow2(32) == Two32 == Pow256(4)
  {
    assert Pow2(8) == 256;
    Pow2Shift(8, 8);
    Pow2Shift(16, 16);
  }

  /** a | b: a bit is set where it is set in either. */
  function BitOr(a: nat, b: nat): (r: nat)
    ensures a <= r <= a + b && b <= r
    decreases a + b
  {
    if a == 0 then b
    else if b == 0 then a
    else (if a % 2 == 1 || b % 2 == 1 then 1 else 0) + 2 * BitOr(a / 2, b / 2)
  }

  /** Or keeps k-bit patterns within k bits. */
  lemma {:induction false} BitOrBelow(a: nat, b: nat, k: nat)
    requires a < Pow2(k) && b < Pow2(k)
    ensures BitOr(a, b) < Pow2(k)
    decreases k
  {
    if a != 0 && b != 0 {
      BitOrBelow(a / 2, b / 2, k - 1);
    }
  }

  /** Or of patterns with no set bit in common is their sum: a lies below bit s, q * 2^s has no bit below s. */
  lemma {:induction false} BitOrDisjoint(a: nat, q: nat, s: nat)
    requires a < Pow2(s)
    ensures BitOr(a, q * Pow2(s)) == a + q * Pow2(s)
    decreases s
  {
    var b := q * Pow2(s);
    if a != 0 && b != 0 {
      var h := q * Pow2(s - 1);
      assert b == 2 * h;
      BitOrDisjoint(a / 2, q, s - 1);
      assert BitOr(a, b) == (if a % 2 == 1 then 1 else 0) + 2 * BitOr(a / 2, h);
    }
  }

  /** x << shift on a 32-bit int: the shift distance is taken modulo 32 and the bits above bit 31 are lost. */
  function Shl32(x: nat, shift: nat): (r: nat)
    ensures r < Two32
    ensures x * Pow2(shift % 32) < Two32 ==> r == x * Pow2(shift % 32)
  {
    (x * Pow2(shift % 32)) % Two32
  }

  /** One byte of the length loop: its low seven bits ored in at the shift. */
  function LengthStep(length: nat, b: Byte, shift: nat): (r: nat)
    requires length < Two32
    ensures length <= r < Two32
  {
    Pow2Of32();
    BitOrBelow(length, Shl32(b % 128, shift), 32);
    BitOr(length, Shl32(b % 128, shift))
  }

  /**
   * The rest of readString's length loop from pos, given the 32-bit pattern
   * of the int length so far and the next shift: each byte ors its low seven
   * bits in at the shift, and a byte with bit 7 clear ends the loop.
   */
  function LengthFrom(data: seq<Byte>, pos: nat, length: nat, shift: nat): (r: Result<Read<nat>>)
    requires length < Two32
    ensures r.Ok? ==> pos < r.value.next <= |data| && length <= r.value.value < Two32
    ensures r.Err? ==> r.error == EndOfStream
    decreases |data| - pos
  {
    if pos >= |data| then Err(EndOfStream)
    else
      var next := LengthStep(length, data[pos], shift);
      if data[pos] < 128 then Ok(Read(next, pos + 1))
      else LengthFrom(data, pos + 1, next, shift + 7)
  }

  /** The string length prefix as the int readString computes: 7 bits per byte, lowest group first, bit 7 set on every byte but the last. */
  function VarIntAt(data: seq<Byte>, pos: nat): (r: Result<Read<int>>)
    ensures r.Ok? ==> pos < r.value.next <= |data| && -0x8000_0000 <= r.value.value < 0x8000_0000
    ensures r.Err? ==> r.error == EndOfStream
  {
    match LengthFrom(data, pos, 0, 0)
    case Ok(x) => Ok(Read(Signed(x.value, 4), x.next))
    case Err(e) => Err(e)
  }

  /** new byte[length] refuses a negative length, naming it. */
  function NegativeArraySize(length: int): (r: string)
    requires length < 0
    ensures |r| > 1 && r[0] == '-' && AllDigits(r[1..]) && DigitsValue(r[1..]) == -length
  {
    DigitsValueOfNatToString(-length);
    "-" + NatToString(-length)
  }

  /** UTF-8 decoding of a string's content bytes, taken as given. */
  type Utf8 = seq<Byte> -> string

  /** The n content bytes of a string, or the failure that names a string. */
  function ContentAt(data: seq<Byte>, pos: nat, n: nat): (r: Result<Read<seq<Byte>>>)
    ensures r.Ok? ==> |r.value.value| == n && r.value.next == pos + n
  {
    if pos + n <= |data| then Ok(Read(data[pos..pos + n], pos + n)) else Err(EndOfStreamInString)
  }

  /** readString: the length prefix, then that many content bytes; a zero length reads nothing more. */
  function StringAt(data: seq<Byte>, pos: nat, utf8: Utf8): (r: Result<Read<string>>)
  {
    match VarIntAt(data, pos)
    case Err(e) => Err(e)
    case Ok(len) =>
      if len.value == 0 then Ok(Read("", len.next))
      else if len.value < 0 then Err(NegativeArraySize(len.value))
      else match ContentAt(data, len.next, len.value)
        case Ok(c) => Ok(Read(utf8(c.value), c.next))
        case Err(e) => Err(e)
  }

  /** The length prefix for n. */
  function EncodeVarInt(n: nat): (r: seq<Byte>)
    ensures |r| >= 1
    decreases n
  {
    if n < 128 then [n] else [n % 128 + 128] + EncodeVarInt(n / 128)
  }

  /** The rest of a length prefix for n, read after the lower groups worth length at the given shift, completes the sum. */
  lemma {:induction false} LengthFromEncoded(prefix: seq<Byte>, n: nat, rest: seq<Byte>, length: nat, shift: nat)
    requires shift < 32 && length < Pow2(shift) && length + n * Pow2(shift) < Two32
    ensures LengthFrom(prefix + EncodeVarInt(n) + rest, |prefix|, length, shift) ==
      Ok(Read(length + n * Pow2(shift), |prefix| + |EncodeVarInt(n)|))
    decreases n
  {
    hide LengthStep, Pow2;
    var data := prefix + EncodeVarInt(n) + rest;
    assert data[|prefix|] == EncodeVarInt(n)[0];
    var b := data[|prefix|];
    assert b % 128 == n % 128;
    LowGroup(n, Pow2(shift));
    LengthStepAdds(length, b, shift);
    if n >= 128 {
      GroupsCarry(n, length, shift);
      assert data == (prefix + [b]) + EncodeVarInt(n / 128) + rest;
      LengthFromEncoded(prefix + [b], n / 128, rest, length + n % 128 * Pow2(shift), shift + 7);
    }
  }

  lemma LowGroup(n: nat, p: nat)
    ensures n % 128 * p <= n * p
  {
  }

  /** A group read below the groups already read adds its value at the shift. */
  lemma LengthStepAdds(length: nat, b: Byte, shift: nat)
    requires shift < 32 && length < Pow2(shift) && length + b % 128 * Pow2(shift) < Two32
    ensures LengthStep(length, b, shift) == length + b % 128 * Pow2(shift)
  {
    BitOrDisjoint(length, b % 128, shift);
  }

  /** After the low group of n, the sum so far lies below the next shift, which is still below 32. */
  lemma GroupsCarry(n: nat, length: nat, shift: nat)
    requires n >= 128 && shift < 32 && length < Pow2(shift) && length + n * Pow2(shift) < Two32
    ensures shift + 7 < 32
    ensures length + n % 128 * Pow2(shift) < Pow2(shift + 7)
    ensures length + n % 128 * Pow2(shift) + n / 128 * Pow2(shift + 7) == length + n * Pow2(shift)
  {
    Pow2Shift(shift, 7);
    assert Pow2(7) == 128;
    hide Pow2;
    var p, q := Pow2(shift), Pow2(shift + 7);
    assert q == 128 * p;
    Carry(n, length, p);
    Pow2Below32(shift + 7);
  }

  lemma Carry(n: nat, length: nat, p: nat)
    requires n >= 128 && length < p
    ensures length + n % 128 * p < 128 * p <= n * p
    ensures n % 128 * p + n / 128 * (128 * p) == n * p
  {
    var group, m := n % 128, n / 128;
    MulDistributes(group, 128 * m, p);
    MulAssociates(128, m, p);
    MulMonotone(group, 127, p);
    MulMonotone(128, n, p);
  }

  lemma MulDistributes(a: nat, b: nat, p: nat)
    ensures (a + b) * p == a * p + b * p
  {
  }

  lemma MulAssociates(a: nat, b: nat, p: nat)
    ensures (a * b) * p == b * (a * p)
  {
  }

  lemma MulMonotone(a: nat, b: nat, p: nat)
    requires a <= b
    ensures a * p <= b * p
  {
  }

  /** 2^s below 2^32 means s is below 32. */
  lemma {:induction false} Pow2Below32(s: nat)
    requires Pow2(s) < Two32
    ensures s < 32
  {
    Pow2Of32();
    if s >= 32 {
      Pow2Shift(32, s - 32);
    }
  }

  /**
   * A length prefix for a 32-bit pattern, wherever it stands, reads back as
   * the int with that pattern and ends where it ends; a non-negative int
   * reads back as itself.
   */
  lemma VarIntRoundTrip(prefix: seq<Byte>, n: nat, rest: seq<Byte>)
    requires n < Two32
    ensures VarIntAt(prefix + EncodeVarInt(n) + rest, |prefix|) == Ok(Read(Signed(n, 4), |prefix| + |EncodeVarInt(n)|))
    ensures n < 0x8000_0000 ==> Signed(n, 4) == n
  {
    LengthFromEncoded(prefix, n, rest, 0, 0);
  }

  /** A string of fewer than 2^31 bytes written as prefix and content reads back as the decoded content. */
  lemma StringRoundTrip(content: seq<Byte>, rest: seq<Byte>, utf8: Utf8)
    requires |content| < 0x8000_0000
    ensures var data := EncodeVarInt(|content|) + content + rest;
      StringAt(data, 0, utf8) ==
        Ok(Read(if content == [] then "" else utf8(content), |EncodeVarInt(|content|)| + |content|))
  {
    var prefix := EncodeVarInt(|content|);
    var data := prefix + content + rest;
    VarIntRoundTrip([], |content|, content + rest);
    assert [] + prefix + (content + rest) == data;
    assert data[|prefix|..|prefix| + |content|] == content;
  }

  /** {0x80, 0x01} is 128; a zero length reads as the empty string after one byte. */
  lemma StringExamples(utf8: Utf8)
    ensures VarIntAt([0x80, 0x01], 0) == Ok(Read(128, 2))
    ensures StringAt([0x00], 0, utf8) == Ok(Read("", 1))
  {
  }

  /** A fifth group, at shift 28, keeps only its lowest four bits. */
  lemma FifthGroupLost()
    ensures LengthStep(0, 0x10, 28) == 0
  {
    Pow2Shift(28, 4);
    assert Pow2(4) == 16;
    Pow2Of32();
    assert Shl32(0x10, 28) == 0;
  }

  /**
   * The length is a 32-bit int: {80 80 80 80 10} has its only set bit at
   * bit 32, so it is the length 0 and reads as the empty string after five
   * bytes.
   */
  lemma LengthWrapsAt32Bits(utf8: Utf8)
    ensures VarIntAt([0x80, 0x80, 0x80, 0x80, 0x10], 0) == Ok(Read(0, 5))
    ensures StringAt([0x80, 0x80, 0x80, 0x80, 0x10], 0, utf8) == Ok(Read("", 5))
  {
    hide LengthStep;
    var data: seq<Byte> := [0x80, 0x80, 0x80, 0x80, 0x10];
    FifthGroupLost();
    assert LengthFrom(data, 4, 0, 28) == Ok(Read(0, 5));
    LengthStepAdds(0, 0x80, 21);
    assert LengthFrom(data, 3, 0, 21) == Ok(Read(0, 5));
    LengthStepAdds(0, 0x80, 14);
    assert LengthFrom(data, 2, 0, 14) == Ok(Read(0, 5));
    LengthStepAdds(0, 0x80, 7);
    assert LengthFrom(data, 1, 0, 7) == Ok(Read(0, 5));
    LengthStepAdds(0, 0x80, 0);
  }

  /** {FF FF FF FF 0F} is the pattern of -1, so the length is negative and new byte[length] refuses it. */
  lemma NegativeLength(utf8: Utf8)
    ensures VarIntAt([0xFF, 0xFF, 0xFF, 0xFF, 0x0F], 0) == Ok(Read(-1, 5))
    ensures StringAt([0xFF, 0xFF, 0xFF, 0xFF, 0x0F], 0, utf8) == Err(NegativeArraySize(-1))
  {
    var data: seq<Byte> := [0xFF, 0xFF, 0xFF, 0xFF, 0x0F];
    EncodesMinusOne();
    VarIntRoundTrip([], 0xFFFF_FFFF, []);
    assert [] + data + [] == data;
    assert Signed(0xFFFF_FFFF, 4) == -1;
    hide VarIntAt;
    assert VarIntAt(data, 0) == Ok(Read(-1, 5));
  }

  lemma EncodesMinusOne()
    ensures EncodeVarInt(0xFFFF_FFFF) == [0xFF, 0xFF, 0xFF, 0xFF, 0x0F]
  {
    assert EncodeVarInt(0xF) == [0x0F];
    assert EncodeVarInt(0x7FF) == [0xFF, 0x0F];
    assert EncodeVarInt(0x3_FFFF) == [0xFF, 0xFF, 0x0F];
    assert EncodeVarInt(0x1FF_FFFF) == [0xFF, 0xFF, 0xFF, 0x0F];
  }

  // ---- the stream -------------------------------------------------------------

  /** An InputStream over a byte sequence. */
  class ByteStream {
    const data: seq<Byte>
    var pos: nat

    ghost predicate Valid()
      reads this
    {
      pos <= |data|
    }

    constructor (data: seq<Byte>)
      ensures this.data == data && pos == 0 && Valid()
    {
      this.data := data;
      pos := 0;
    }

    /** InputStream.read(): the next byte, or -1 at the end. */
    method Read() returns (b: int)
      requires Valid()
      modifies this`pos
      ensures Valid()
      ensures old(pos) < |data| ==> b == data[old(pos)] && pos == old(pos) + 1
      ensures old(pos) == |data| ==> b == -1 && pos == old(pos)
    {
      if pos < |data| {
        b := data[pos];
        pos := pos + 1;
      } else {
        b := -1;
      }
    }

    /** InputStream.read(buffer, offset, len) for len > 0: -1 at the end, otherwise between 1 and len bytes copied in. */
    method ReadInto(buffer: array<Byte>, offset: nat, len: nat) returns (read: int)
      requires Valid() && len > 0 && offset + len <= buffer.Length
      modifies this`pos, buffer
      ensures Valid()
      ensures old(pos) == |data| ==> read == -1 && pos == old(pos) && buffer[..] == old(buffer[..])
      ensures old(pos) < |data| ==>
        1 <= read <= len && pos == old(pos) + read &&
        buffer[..] == old(buffer[..offset]) + data[old(pos)..pos] + old(buffer[offset + read..])
    {
      if pos == |data| {
        return -1;
      }
      read := if len <= |data| - pos then len else |data| - pos;
      ghost var before := buffer[..];
      forall k | offset <= k < offset + read {
        buffer[k] := data[pos + k - offset];
      }
      assert buffer[..] == before[..offset] + data[pos..pos + read] + before[offset + read..];
      pos := pos + read;
    }
  }

  /** The reader's result and the position it leaves agree with the decoder; a failure at the end of the stream leaves the stream there. */
  predicate Delivers<T(==)>(r: Result<T>, pos: nat, expected: Result<Read<T>>, end: nat)
  {
    match expected
    case Ok(d) => r == Ok(d.value) && pos == d.next
    case Err(e) => r == Err(e) && (e == EndOfStream || e == EndOfStreamInString ==> pos == end)
  }

  /** readByte: a value in 0..255, or an IOException at the end of the stream. */
  method ReadByte(stream: ByteStream) returns (r: Result<Byte>)
    requires stream.Valid()
    modifies stream`pos
    ensures stream.Valid() && Delivers(r, stream.pos, ByteAt(stream.data, old(stream.pos)), |stream.data|)
  {
    var b := stream.Read();
    if b < 0 {
      return Err(EndOfStream);
    }
    return Ok(b);
  }

  method ReadInt16(stream: ByteStream) returns (r: Result<int>)
    requires stream.Valid()
    modifies stream`pos
    ensures stream.Valid() && Delivers(r, stream.pos, Int16At(stream.data, old(stream.pos)), |stream.data|)
  {
    var b0 :- ReadByte(stream);
    var b1 :- ReadByte(stream);
    assert stream.data[old(stream.pos)..stream.pos] == [b0, b1];
    return Ok(Signed(b0 as int + 256 * (b1 as int), 2));
  }

  method ReadInt32(stream: ByteStream) returns (r: Result<int>)
    requires stream.Valid()
    modifies stream`pos
    ensures stream.Valid() && Delivers(r, stream.pos, Int32At(stream.data, old(stream.pos)), |stream.data|)
  {
    var b0 :- ReadByte(stream);
    var b1 :- ReadByte(stream);
    var b2 :- ReadByte(stream);
    var b3 :- ReadByte(stream);
    assert stream.data[old(stream.pos)..stream.pos] == [b0, b1, b2, b3];
    return Ok(Signed(b0 as int + 256 * (b1 as int) + 65536 * (b2 as int) + 16777216 * (b3 as int), 4));
  }

  method ReadInt64(stream: ByteStream) returns (r: Result<int>)
    requires stream.Valid()
    modifies stream`pos
    ensures stream.Valid() && Delivers(r, stream.pos, Int64At(stream.data, old(stream.pos)), |stream.data|)
  {
    ghost var p := stream.pos;
    var low :- ReadInt32(stream);
    var high :- ReadInt32(stream);
    var lo := Unsigned(low, 4);
    var hi := Unsigned(high, 4);
    ghost var bs := stream.data[p..p + 8];
    assert bs[..4] == stream.data[p..p + 4] && bs[4..] == stream.data[p + 4..p + 8];
    return Ok(Signed(lo + 0x1_0000_0000 * hi, 8));
  }

  /** The length loop of readString: length is the int's 32-bit pattern, shift the next group's shift. */
  method ReadLength(stream: ByteStream) returns (r: Result<int>)
    requires stream.Valid()
    modifies stream`pos
    ensures stream.Valid() && Delivers(r, stream.pos, VarIntAt(stream.data, old(stream.pos)), |stream.data|)
  {
    ghost var p0 := stream.pos;
    var length: nat := 0;
    var shift: nat := 0;
    while true
      invariant stream.Valid() && p0 <= stream.pos && length < Two32
      invariant LengthFrom(stream.data, p0, 0, 0) == LengthFrom(stream.data, stream.pos, length, shift)
      decreases |stream.data| - stream.pos
    {
      var b := ReadByte(stream);
      if b.Err? {
        return Err(b.error);
      }
      length := LengthStep(length, b.value, shift);
      if b.value < 128 {
        return Ok(Signed(length, 4));
      }
      shift := shift + 7;
    }
  }

  /** The content loop of readString: read(buffer, offset, len) until the buffer is full. */
  method ReadContent(stream: ByteStream, length: nat) returns (r: Result<seq<Byte>>)
    requires stream.Valid()
    modifies stream`pos
    ensures stream.Valid() && Delivers(r, stream.pos, ContentAt(stream.data, old(stream.pos), length), |stream.data|)
  {
    ghost var q := stream.pos;
    var bytes := new Byte[length](_ => 0);
    var totalRead := 0;
    while totalRead < length
      invariant stream.Valid() && stream.pos == q + totalRead && totalRead <= length && bytes.Length == length
      invariant bytes[..totalRead] == stream.data[q..stream.pos]
      decreases length - totalRead
    {
      ghost var before := bytes[..];
      var read := stream.ReadInto(bytes, totalRead, length - totalRead);
      if read < 0 {
        return Err(EndOfStreamInString);
      }
      assert bytes[..totalRead + read] == before[..totalRead] + stream.data[q + totalRead..stream.pos];
      totalRead := totalRead + read;
    }
    assert bytes[..] == bytes[..totalRead];
    return Ok(bytes[..]);
  }

  /** readString. */
  method ReadString(stream: ByteStream, utf8: Utf8) returns (r: Result<string>)
    requires stream.Valid()
    modifies stream`pos
    ensures stream.Valid() && Delivers(r, stream.pos, StringAt(stream.data, old(stream.pos), utf8), |stream.data|)
    ensures var length := VarIntAt(stream.data, old(stream.pos));
      length.Ok? && length.value.value < 0 ==> stream.pos == length.value.next
  {
    var length :- ReadLength(stream);
    if length == 0 {
      return Ok("");
    }
    if length < 0 {
      assert NegativeArraySize(length)[0] != EndOfStream[0] && NegativeArraySize(length)[0] != EndOfStreamInString[0];
      return Err(NegativeArraySize(length));
    }
    var content :- ReadContent(stream, length);
    return Ok(utf8(content));
  }

  // ---- station ids --------------------------------------------------------------

  /** idToName: none for a splay's far end, the plain number for other negative ids, "major.minor" otherwise. */
  function IdToName(value: int): (r: Option<string>)
    requires -0x8000_0000 <= value < 0x8000_0000
    ensures r.None? <==> value == UndefinedId
  {
    if value == UndefinedId then None
    else if value < 0 then Some(NatToString(value + 0x1_0000_0000 - 0x8000_0001))
    else Some(NatToString(value / 65536) + "." + NatToString(value % 65536))
  }

  function IdAt(data: seq<Byte>, pos: nat): Result<Read<Option<string>>>
  {
    match Int32At(data, pos)
    case Ok(r) => Ok(Read(IdToName(r.value), r.next))
    case Err(e) => Err(e)
  }

  /** readId. */
  method ReadId(stream: ByteStream) returns (r: Result<Option<string>>)
    requires stream.Valid()
    modifies stream`pos
    ensures stream.Valid() && Delivers(r, stream.pos, IdAt(stream.data, old(stream.pos)), |stream.data|)
  {
    var value :- ReadInt32(stream);
    return Ok(IdToName(value));
  }

  /** The id a station name stands for: the inverse of IdToName. */
  function NameToId(name: string): Option<int>
  {
    match IndexOf(name, '.')
    case None =>
      if name != [] && AllDigits(name) && DigitsValue(name) <= 0x7FFF_FFFE then Some(DigitsValue(name) - 0x7FFF_FFFF)
      else None
    case Some(k) =>
      var major, minor := name[..k], name[k + 1..];
      if AllDigits(major) && AllDigits(minor) && DigitsValue(major) < 0x8000 && DigitsValue(minor) < 0x1_0000 then
        Some(DigitsValue(major) * 65536 + DigitsValue(minor))
      else None
  }

  /** In a numeral, a dot and another numeral, the first dot is the one after the first numeral. */
  lemma DotAfterNumeral(a: string, b: string)
    requires AllDigits(a)
    ensures IndexOf(a + "." + b, '.') == Some(|a|)
    ensures (a + "." + b)[..|a|] == a && (a + "." + b)[|a| + 1..] == b
  {
    var name := a + "." + b;
    assert name[|a|] == '.';
    assert forall k :: 0 <= k < |a| ==> name[k] == a[k];
  }

  lemma NumeralHasNoDot(a: string)
    requires AllDigits(a)
    ensures IndexOf(a, '.') == None
  {
    assert forall k :: 0 <= k < |a| ==> a[k] != '.';
  }

  /** Every station id's name leads back to the id, so no two ids share a name. */
  lemma IdNameRoundTrip(value: int)
    requires -0x8000_0000 <= value < 0x8000_0000 && value != UndefinedId
    ensures NameToId(IdToName(value).value) == Some(value)
  {
    if value < 0 {
      DigitsValueOfNatToString(value + 0x7FFF_FFFF);
      NumeralHasNoDot(NatToString(value + 0x7FFF_FFFF));
    } else {
      var a, b := NatToString(value / 65536), NatToString(value % 65536);
      DigitsValueOfNatToString(value / 65536);
      DigitsValueOfNatToString(value % 65536);
      DotAfterNumeral(a, b);
    }
  }

  lemma IdToNameInjective(v: int, w: int)
    requires -0x8000_0000 <= v < 0x8000_0000 && -0x8000_0000 <= w < 0x8000_0000
    requires IdToName(v) == IdToName(w)
    ensures v == w
  {
    if v != UndefinedId {
      IdNameRoundTrip(v);
      IdNameRoundTrip(w);
    }
  }

  lemma Numerals()
    ensures NatToString(0) == "0" && NatToString(1) == "1" && NatToString(2) == "2" && NatToString(10) == "10"
  {
    assert NatToString(10) == NatToString(1) + [DigitChar(0)];
  }

  /** The documented ids: 0x80000001 is "0", 0x8000000B is "10", 0x00010002 is "1.2". */
  lemma IdExamples()
    ensures IdToName(0x8000_0001 - 0x1_0000_0000) == Some("0")
    ensures IdToName(0x8000_000B - 0x1_0000_0000) == Some("10")
    ensures IdToName(0) == Some("0.0")
    ensures IdToName(0x0001_0002) == Some("1.2")
  {
    Numerals();
    assert "0" + "." + "0" == "0.0" && "1" + "." + "2" == "1.2";
    assert IdToName(0x8000_000B - 0x1_0000_0000) == Some(NatToString(10));
    assert IdToName(0) == Some(NatToString(0) + "." + NatToString(0));
    assert 0x0001_0002 / 65536 == 1 && 0x0001_0002 % 65536 == 2;
    assert IdToName(0x0001_0002) == Some(NatToString(1) + "." + NatToString(2));
  }

  // ---- unit conversions -----------------------------------------------------------

  /** azimuthToDegrees: the angle taken unsigned, in [0, 360). */
  function AzimuthToDegrees(raw: int): (r: real)
    requires -0x8000 <= raw < 0x8000
    ensures 0.0 <= r < 360.0
  {
    (Unsigned(raw, 2) as real * 360.0) / (FullCircle as real)
  }

  /** inclinationToDegrees: the angle taken signed, in [-180, 180). */
  function InclinationToDegrees(raw: int): (r: real)
    requires -0x8000 <= raw < 0x8000
    ensures -180.0 <= r < 180.0
  {
    (raw as real * 360.0) / (FullCircle as real)
  }

  /** Back from degrees to the raw units: each conversion loses nothing. */
  lemma AngleConversionsInvertible(raw: int)
    requires -0x8000 <= raw < 0x8000
    ensures AzimuthToDegrees(raw) * 65536.0 / 360.0 == Unsigned(raw, 2) as real
    ensures InclinationToDegrees(raw) * 65536.0 / 360.0 == raw as real
  {
  }

  /** East is 0x4000 = 90; 0xC000 is 270 as an azimuth and -90 as an inclination. */
  lemma AngleExamples()
    ensures AzimuthToDegrees(0x4000) == 90.0
    ensures AzimuthToDegrees(0xC000 - 0x1_0000) == 270.0
    ensures InclinationToDegrees(0xC000 - 0x1_0000) == -90.0
  {
  }

  /** distanceToMetres. */
  function DistanceToMetres(mm: int): (r: real)
    ensures r * 1000.0 == mm as real
  {
    mm as real / 1000.0
  }

  /** A 64-bit long subtraction or addition wraps around. */
  function Wrap64(x: int): (r: int)
    ensures -0x8000_0000_0000_0000 <= r < 0x8000_0000_0000_0000
    ensures -0x8000_0000_0000_0000 <= x < 0x8000_0000_0000_0000 ==> r == x
  {
    (x + 0x8000_0000_0000_0000) % 0x1_0000_0000_0000_0000 - 0x8000_0000_0000_0000
  }

  /** Java's / on longs, which truncates toward zero. */
  function JavaDiv(a: int, b: int): (r: int)
    requires b > 0
    ensures a >= 0 ==> r == a / b
  {
    if a >= 0 then a / b else -((-a) / b)
  }

  /** ticksToDate: 100 ns ticks since 0001 to milliseconds since 1970. */
  function TicksToDate(ticks: int): Date
    requires -0x8000_0000_0000_0000 <= ticks < 0x8000_0000_0000_0000
  {
    Date(JavaDiv(Wrap64(ticks - TicksAtEpoch), TicksPerMillisecond))
  }

  /** The ticks of a date. */
  function DateToTicks(d: Date): int
  {
    TicksAtEpoch + d.millis * TicksPerMillisecond
  }

  /** A date that fits in ticks survives the round trip; the epoch is 0 ms. */
  lemma TicksRoundTrip(d: Date)
    requires -0x8000_0000_0000_0000 <= DateToTicks(d) < 0x8000_0000_0000_0000
    requires -0x8000_0000_0000_0000 <= d.millis * TicksPerMillisecond
    ensures TicksToDate(DateToTicks(d)) == d
    ensures TicksToDate(TicksAtEpoch) == Date(0)
  {
    var x := d.millis * TicksPerMillisecond;
    assert DateToTicks(d) - TicksAtEpoch == x;
    assert Wrap64(x) == x;
    if x < 0 {
      assert -x == (-d.millis) * TicksPerMillisecond;
      assert (-x) / TicksPerMillisecond == -d.millis;
    } else {
      assert x / TicksPerMillisecond == d.millis;
    }
  }

  /** A tick count just short of a millisecond either side of the epoch truncates to the epoch. */
  lemma TicksTruncateTowardEpoch()
    ensures TicksToDate(TicksAtEpoch - 9999) == Date(0)
    ensures TicksToDate(TicksAtEpoch + 9999) == Date(0)
  {
  }

  // ---- colours ---------------------------------------------------------------------

  datatype Colour = Black | Grey | Brown | Blue | Red | Green | Orange

  /** topoColourToColour: 1..7 in PocketTopo's order, anything else black. */
  function TopoColourToColour(colourByte: int): (c: Colour)
    ensures !(1 <= colourByte <= 7) ==> c == Black
  {
    match colourByte
    case 1 => Black
    case 2 => Grey
    case 3 => Brown
    case 4 => Blue
    case 5 => Red
    case 6 => Green
    case 7 => Orange
    case _ => Black
  }

  /** PocketTopo's number for a colour. */
  function TopoColourOf(c: Colour): (b: int)
    ensures 1 <= b <= 7
  {
    match c
    case Black => 1
    case Grey => 2
    case Brown => 3
    case Blue => 4
    case Red => 5
    case Green => 6
    case Orange => 7
  }

  /** Every colour is reached, and 2..7 name different colours from each other and from black. */
  lemma TopoColourRoundTrip(c: Colour, b: int)
    ensures TopoColourToColour(TopoColourOf(c)) == c
    ensures 2 <= b <= 7 ==> TopoColourOf(TopoColourToColour(b)) == b
  {
  }
}
