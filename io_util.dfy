/** Stream helpers: big-endian int and long encoding, reading a line,
    reading a buffer full, and copying one stream to another.

    Streams carry bytes. An output stream appends; `write(int b)` keeps the
    low eight bits of b. An input stream hands out its remaining bytes from
    the front: `read()` gives one byte or -1 at the end, and
    `read(buf, off, len)` gives as many as the stream chooses, here at most
    its `chunk` size (a stream whose chunk is 0 reads nothing and answers 0). */
module IoUtil {
  import opened JavaLang

  newtype byte = x: int | 0 <= x < 256

  /** The byte `os.write(b)` emits for the Java int b: its low eight bits. */
  function LowByte(b: int): (r: byte)
    ensures (b - r as int) % 256 == 0
  {
    (b % 256) as byte
  }

  /** Java's `v >> n` on a non-negative shift: floor division. */
  function Shr(v: int, pow: nat): int
    requires pow > 0
  {
    v / pow
  }

  //
  // int and long encoding
  //

  /** writeInt: the four bytes of v, most significant first. */
  function WriteInt(v: int): (r: seq<byte>)
    ensures |r| == 4
  {
    [LowByte(Shr(v, 0x100_0000)), LowByte(Shr(v, 0x1_0000)), LowByte(Shr(v, 0x100)), LowByte(v)]
  }

  /** writeLong: the eight bytes of v, most significant first; each shift is
      cast to int before it is written. */
  function WriteLong(v: int): (r: seq<byte>)
    ensures |r| == 8
  {
    [LowByte(Wrap32(Shr(v, 0x100_0000_0000_0000))), LowByte(Wrap32(Shr(v, 0x1_0000_0000_0000))),
     LowByte(Wrap32(Shr(v, 0x100_0000_0000))), LowByte(Wrap32(Shr(v, 0x1_0000_0000))),
     LowByte(Wrap32(Shr(v, 0x100_0000))), LowByte(Wrap32(Shr(v, 0x1_0000))),
     LowByte(Wrap32(Shr(v, 0x100))), LowByte(Wrap32(v))]
  }

  /** `is.read()` on the remaining bytes s: the next byte, or -1 at the end. */
  function ReadByte(s: seq<byte>): (r: (int, seq<byte>))
    ensures s == [] ==> r == (-1, [])
    ensures s != [] ==> r == (s[0] as int, s[1..])
  {
    if s == [] then (-1, []) else (s[0] as int, s[1..])
  }

  /** readInt: four reads shifted into place and added in int arithmetic. A
      read past the end contributes -1 shifted. */
  function ReadInt(s: seq<byte>): (r: (int, seq<byte>))
    ensures IsInt(r.0)
    ensures r.1 == if |s| >= 4 then s[4..] else []
  {
    var (b0, s1) := ReadByte(s);
    var (b1, s2) := ReadByte(s1);
    var (b2, s3) := ReadByte(s2);
    var (b3, s4) := ReadByte(s3);
    (IntOfReads(b0, b1, b2, b3), s4)
  }

  /** readLong: eight reads, each widened to long, shifted and added in long
      arithmetic. */
  function ReadLong(s: seq<byte>): (r: (int, seq<byte>))
    ensures IsLong(r.0)
    ensures r.1 == if |s| >= 8 then s[8..] else []
  {
    var (b0, s1) := ReadByte(s);
    var (b1, s2) := ReadByte(s1);
    var (b2, s3) := ReadByte(s2);
    var (b3, s4) := ReadByte(s3);
    var (b4, s5) := ReadByte(s4);
    var (b5, s6) := ReadByte(s5);
    var (b6, s7) := ReadByte(s6);
    var (b7, s8) := ReadByte(s7);
    (LongOfReads([b0, b1, b2, b3, b4, b5, b6, b7]), s8)
  }

  /** Two integers that agree modulo 2^32 wrap to the same int. */
  lemma Wrap32Congruent(x: int, y: int)
    requires (x - y) % TWO_32 == 0
    ensures Wrap32(x) == Wrap32(y)
  {
    var q := (x - y) / TWO_32;
    assert x == y + TWO_32 * q;
    assert x % TWO_32 == y % TWO_32;
  }

  lemma Wrap64Congruent(x: int, y: int)
    requires (x - y) % TWO_64 == 0
    ensures Wrap64(x) == Wrap64(y)
  {
    var q := (x - y) / TWO_64;
    assert x == y + TWO_64 * q;
    assert x % TWO_64 == y % TWO_64;
  }

  /** Division by 256 three times is division by 2^24, and the quotients'
      low bytes rebuild v. */
  lemma Digits256(v: int)
    ensures v / 0x1_0000 == v / 0x100 / 0x100
    ensures v / 0x100_0000 == v / 0x100 / 0x100 / 0x100
    ensures v == v / 0x100_0000 * 0x100_0000 + v / 0x1_0000 % 0x100 * 0x1_0000
                 + v / 0x100 % 0x100 * 0x100 + v % 0x100
  {
    var v1 := v / 0x100;
    var v2 := v1 / 0x100;
    var v3 := v2 / 0x100;
    assert v == v1 * 0x100 + v % 0x100;
    assert v1 == v2 * 0x100 + v1 % 0x100;
    assert v2 == v3 * 0x100 + v2 % 0x100;
    assert v == v2 * 0x1_0000 + (v1 % 0x100 * 0x100 + v % 0x100);
    DivUnique(v, 0x1_0000, v2, v1 % 0x100 * 0x100 + v % 0x100);
    assert v == v3 * 0x100_0000 + (v2 % 0x100 * 0x1_0000 + v1 % 0x100 * 0x100 + v % 0x100);
    DivUnique(v, 0x100_0000, v3, v2 % 0x100 * 0x1_0000 + v1 % 0x100 * 0x100 + v % 0x100);
  }

  lemma DivUnique(a: int, d: int, q: int, r: int)
    requires d > 0 && 0 <= r < d && a == q * d + r
    ensures a / d == q && a % d == r
  {
    var q' := a / d;
    var r' := a % d;
    assert a == q' * d + r';
    assert (q - q') * d == r' - r;
    if q > q' {
      assert (q - q') * d >= d by { MulAtLeast(q - q', d); }
    } else if q < q' {
      assert (q' - q) * d >= d by { MulAtLeast(q' - q, d); }
    }
  }

  lemma MulAtLeast(k: int, d: int)
    requires k >= 1 && d > 0
    ensures k * d >= d
  {
  }

  /** The int readInt assembles from four reads. */
  function IntOfReads(b0: int, b1: int, b2: int, b3: int): int
  {
    Wrap32(Wrap32(Wrap32(Wrap32(b0 * 0x100_0000) + b1 * 0x1_0000) + b2 * 0x100) + b3)
  }

  lemma IntOfReadsExact(b0: int, b1: int, b2: int, b3: int)
    ensures IntOfReads(b0, b1, b2, b3) == Wrap32(b0 * 0x100_0000 + b1 * 0x1_0000 + b2 * 0x100 + b3)
  {
    var p0, p1, p2 := b0 * 0x100_0000, b1 * 0x1_0000, b2 * 0x100;
    Wrap32AddAbsorb(p0, p1);
    Wrap32AddAbsorb(p0 + p1, p2);
    Wrap32AddAbsorb(p0 + p1 + p2, b3);
  }

  /** Wrapping a partial sum before adding the next term changes nothing. */
  lemma Wrap32AddAbsorb(x: int, y: int)
    ensures Wrap32(Wrap32(x) + y) == Wrap32(x + y)
  {
    var k := (x - Wrap32(x)) / TWO_32;
    assert x - Wrap32(x) == TWO_32 * k;
    assert (Wrap32(x) + y) - (x + y) == TWO_32 * -k;
    Wrap32Congruent(Wrap32(x) + y, x + y);
  }

  /** The low bytes of the shifts of v, recombined, agree with v modulo 2^32. */
  lemma IntBytesCongruent(v: int)
    ensures (v / 0x100_0000 % 0x100 * 0x100_0000 + v / 0x1_0000 % 0x100 * 0x1_0000
             + v / 0x100 % 0x100 * 0x100 + v % 0x100 - v) % TWO_32 == 0
  {
    Digits256(v);
    var v3 := v / 0x100_0000;
    var b0 := v3 % 0x100;
    assert b0 - v3 == -0x100 * (v3 / 0x100);
  }

  /** readInt undoes writeInt, and consumes exactly the four bytes. */
  lemma ReadWriteInt(v: int, rest: seq<byte>)
    requires IsInt(v)
    ensures ReadInt(WriteInt(v) + rest) == (v, rest)
  {
    var w, b := WriteInt(v) + rest, WriteInt(v);
    assert w[4..] == rest;
    assert ReadInt(w).0 == IntOfReads(b[0] as int, b[1] as int, b[2] as int, b[3] as int);
    WriteIntValue(v);
  }

  /** The four bytes of writeInt(v), assembled as readInt does, give v. */
  lemma WriteIntValue(v: int)
    requires IsInt(v)
    ensures var b := WriteInt(v); IntOfReads(b[0] as int, b[1] as int, b[2] as int, b[3] as int) == v
  {
    var b := WriteInt(v);
    var b0, b1, b2, b3 := b[0] as int, b[1] as int, b[2] as int, b[3] as int;
    IntOfReadsExact(b0, b1, b2, b3);
    IntBytesCongruent(v);
    Wrap32Congruent(b0 * 0x100_0000 + b1 * 0x1_0000 + b2 * 0x100 + b3, v);
  }

  predicate Cong64(x: int, y: int)
  {
    (x - y) % TWO_64 == 0
  }

  lemma Wrap64Cong(x: int)
    ensures Cong64(Wrap64(x), x)
  {
    var k := (x - Wrap64(x)) / TWO_64;
    assert Wrap64(x) - x == TWO_64 * -k;
  }

  lemma Cong64Trans(x: int, y: int, z: int)
    requires Cong64(x, y) && Cong64(y, z)
    ensures Cong64(x, z)
  {
    var k1 := (x - y) / TWO_64;
    var k2 := (y - z) / TWO_64;
    assert x - z == TWO_64 * (k1 + k2);
  }

  lemma Cong64Add(x: int, x': int, y: int, y': int)
    requires Cong64(x, x') && Cong64(y, y')
    ensures Cong64(x + y, x' + y')
  {
    var k1 := (x - x') / TWO_64;
    var k2 := (y - y') / TWO_64;
    assert x + y - (x' + y') == TWO_64 * (k1 + k2);
  }

  /** Java long addition of terms onto acc, left to right. */
  function WrapSum64(acc: int, terms: seq<int>): (r: int)
    ensures terms != [] ==> IsLong(r)
    ensures terms == [] ==> r == acc
    decreases |terms|
  {
    if terms == [] then acc else WrapSum64(Wrap64(acc + terms[0]), terms[1..])
  }

  function Sum(terms: seq<int>): int
    decreases |terms|
  {
    if terms == [] then 0 else terms[0] + Sum(terms[1..])
  }

  /** Wrapping after every addition agrees with adding exactly, modulo 2^64. */
  lemma {:induction false} WrapSum64Congruent(acc: int, terms: seq<int>)
    ensures Cong64(WrapSum64(acc, terms), acc + Sum(terms))
    decreases |terms|
  {
    if terms != [] {
      var acc' := Wrap64(acc + terms[0]);
      WrapSum64Congruent(acc', terms[1..]);
      Cong64Add(acc', acc + terms[0], Sum(terms[1..]), Sum(terms[1..]));
      Cong64Trans(WrapSum64(acc, terms), acc' + Sum(terms[1..]), acc + Sum(terms));
    }
  }

  /** Sums of termwise-congruent sequences are congruent. */
  lemma {:induction false} SumCongruent(t: seq<int>, e: seq<int>)
    requires |t| == |e|
    requires forall i :: 0 <= i < |t| ==> Cong64(t[i], e[i])
    ensures Cong64(Sum(t), Sum(e))
    decreases |t|
  {
    if t != [] {
      assert forall i :: 0 <= i < |t[1..]| ==> t[1..][i] == t[i + 1] && e[1..][i] == e[i + 1];
      SumCongruent(t[1..], e[1..]);
      Cong64Add(t[0], e[0], Sum(t[1..]), Sum(e[1..]));
    }
  }

  /** The long readLong assembles from eight reads: each read widened to
      long and shifted, then added left to right. */
  function LongOfReads(b: seq<int>): int
    requires |b| == 8
  {
    WrapSum64(Wrap64(b[0] * 0x100_0000_0000_0000), LongTerms(b))
  }

  function LongTerms(b: seq<int>): (t: seq<int>)
    requires |b| == 8
    ensures |t| == 7
  {
    [Wrap64(b[1] * 0x1_0000_0000_0000), Wrap64(b[2] * 0x100_0000_0000),
     Wrap64(b[3] * 0x1_0000_0000), Wrap64(b[4] * 0x100_0000), Wrap64(b[5] * 0x1_0000),
     Wrap64(b[6] * 0x100), Wrap64(b[7])]
  }

  function ExactTerms(b: seq<int>): (e: seq<int>)
    requires |b| == 8
    ensures |e| == 7
  {
    [b[1] * 0x1_0000_0000_0000, b[2] * 0x100_0000_0000, b[3] * 0x1_0000_0000,
     b[4] * 0x100_0000, b[5] * 0x1_0000, b[6] * 0x100, b[7]]
  }

  function HighSum(b0: int, b1: int, b2: int, b3: int): int
  {
    b0 * 0x100_0000 + b1 * 0x1_0000 + b2 * 0x100 + b3
  }

  lemma SumExactTerms(b: seq<int>)
    requires |b| == 8
    ensures b[0] * 0x100_0000_0000_0000 + Sum(ExactTerms(b))
      == HighSum(b[0], b[1], b[2], b[3]) * TWO_32 + HighSum(b[4], b[5], b[6], b[7])
  {
    var e := ExactTerms(b);
    assert Sum(e[6..]) == e[6] by { assert e[6..][1..] == []; }
    assert Sum(e[5..]) == e[5] + Sum(e[6..]) by { assert e[5..][1..] == e[6..]; }
    assert Sum(e[4..]) == e[4] + Sum(e[5..]) by { assert e[4..][1..] == e[5..]; }
    assert Sum(e[3..]) == e[3] + Sum(e[4..]) by { assert e[3..][1..] == e[4..]; }
    assert Sum(e[2..]) == e[2] + Sum(e[3..]) by { assert e[2..][1..] == e[3..]; }
    assert Sum(e[1..]) == e[1] + Sum(e[2..]) by { assert e[1..][1..] == e[2..]; }
    assert Sum(e) == e[0] + Sum(e[1..]);
  }

  lemma LongOfReadsExact(b: seq<int>)
    requires |b| == 8
    ensures LongOfReads(b)
      == Wrap64(HighSum(b[0], b[1], b[2], b[3]) * TWO_32 + HighSum(b[4], b[5], b[6], b[7]))
  {
    var a0 := Wrap64(b[0] * 0x100_0000_0000_0000);
    var t, e := LongTerms(b), ExactTerms(b);
    var exact := HighSum(b[0], b[1], b[2], b[3]) * TWO_32 + HighSum(b[4], b[5], b[6], b[7]);
    WrapSum64Congruent(a0, t);
    forall i | 0 <= i < 7 ensures Cong64(t[i], e[i]) {
      Wrap64Cong(e[i]);
    }
    SumCongruent(t, e);
    Wrap64Cong(b[0] * 0x100_0000_0000_0000);
    Cong64Add(a0, b[0] * 0x100_0000_0000_0000, Sum(t), Sum(e));
    SumExactTerms(b);
    Cong64Trans(LongOfReads(b), a0 + Sum(t), exact);
    Wrap64Congruent(LongOfReads(b), exact);
  }

  /** Casting to int keeps the low byte. */
  lemma LowByteOfWrap32(x: int)
    ensures LowByte(Wrap32(x)) == LowByte(x)
  {
    var w := Wrap32(x);
    var q := (x - w) / TWO_32;
    assert x == w + TWO_32 * q;
    DivUnique(x, 0x100, w / 0x100 + 0x100_0000 * q, w % 0x100);
  }

  /** The shifts of a long, split into its high and low int halves. */
  lemma LongShifts(v: int)
    ensures var hi, lo := v / TWO_32, v % TWO_32;
      v / 0x100_0000_0000_0000 == hi / 0x100_0000
      && v / 0x1_0000_0000_0000 == hi / 0x1_0000
      && v / 0x100_0000_0000 == hi / 0x100
      && v / 0x100_0000 % 0x100 == lo / 0x100_0000 % 0x100
      && v / 0x1_0000 % 0x100 == lo / 0x1_0000 % 0x100
      && v / 0x100 % 0x100 == lo / 0x100 % 0x100
      && v % 0x100 == lo % 0x100
  {
    var hi, lo := v / TWO_32, v % TWO_32;
    assert v == hi * TWO_32 + lo;
    DivUnique(v, 0x100_0000_0000_0000, hi / 0x100_0000, hi % 0x100_0000 * TWO_32 + lo);
    DivUnique(v, 0x1_0000_0000_0000, hi / 0x1_0000, hi % 0x1_0000 * TWO_32 + lo);
    DivUnique(v, 0x100_0000_0000, hi / 0x100, hi % 0x100 * TWO_32 + lo);
    DivUnique(v, 0x100_0000, hi * 0x100 + lo / 0x100_0000, lo % 0x100_0000);
    DivUnique(hi * 0x100 + lo / 0x100_0000, 0x100, hi + lo / 0x100_0000 / 0x100, lo / 0x100_0000 % 0x100);
    DivUnique(v, 0x1_0000, hi * 0x1_0000 + lo / 0x1_0000, lo % 0x1_0000);
    DivUnique(hi * 0x1_0000 + lo / 0x1_0000, 0x100, hi * 0x100 + lo / 0x1_0000 / 0x100, lo / 0x1_0000 % 0x100);
    DivUnique(v, 0x100, hi * 0x100_0000 + lo / 0x100, lo % 0x100);
    DivUnique(hi * 0x100_0000 + lo / 0x100, 0x100, hi * 0x1_0000 + lo / 0x100 / 0x100, lo / 0x100 % 0x100);
    DivUnique(v, 0x100, hi * 0x100_0000 + lo / 0x100, lo % 0x100);
  }

  /** The bytes of writeLong(v) are the bytes of its high int half followed
      by those of its low half. */
  lemma WriteLongBytes(v: int)
    ensures var w, hi, lo := WriteLong(v), v / TWO_32, v % TWO_32;
      w[0] as int == hi / 0x100_0000 % 0x100 && w[1] as int == hi / 0x1_0000 % 0x100
      && w[2] as int == hi / 0x100 % 0x100 && w[3] as int == hi % 0x100
      && w[4] as int == lo / 0x100_0000 % 0x100 && w[5] as int == lo / 0x1_0000 % 0x100
      && w[6] as int == lo / 0x100 % 0x100 && w[7] as int == lo % 0x100
  {
    LowByteOfWrap32(v / 0x100_0000_0000_0000);
    LowByteOfWrap32(v / 0x1_0000_0000_0000);
    LowByteOfWrap32(v / 0x100_0000_0000);
    LowByteOfWrap32(v / 0x1_0000_0000);
    LowByteOfWrap32(v / 0x100_0000);
    LowByteOfWrap32(v / 0x1_0000);
    LowByteOfWrap32(v / 0x100);
    LowByteOfWrap32(v);
    LongShifts(v);
  }

  function Bytes8(s: seq<byte>): (b: seq<int>)
    requires |s| >= 8
    ensures |b| == 8
  {
    [s[0] as int, s[1] as int, s[2] as int, s[3] as int,
     s[4] as int, s[5] as int, s[6] as int, s[7] as int]
  }

  lemma ReadLongOfBytes(s: seq<byte>)
    requires |s| >= 8
    ensures ReadLong(s).0 == LongOfReads(Bytes8(s))
  {
  }

  /** The big-endian bytes of a long's two int halves. */
  function HalfBytes(v: int): seq<int>
  {
    var hi, lo := v / TWO_32, v % TWO_32;
    [hi / 0x100_0000 % 0x100, hi / 0x1_0000 % 0x100, hi / 0x100 % 0x100, hi % 0x100,
     lo / 0x100_0000 % 0x100, lo / 0x1_0000 % 0x100, lo / 0x100 % 0x100, lo % 0x100]
  }

  lemma HalvesRecombine(v: int)
    requires IsLong(v)
    ensures var b := HalfBytes(v);
      Wrap64(HighSum(b[0], b[1], b[2], b[3]) * TWO_32 + HighSum(b[4], b[5], b[6], b[7])) == v
  {
    var hi, lo := v / TWO_32, v % TWO_32;
    var high := HighSum(hi / 0x100_0000 % 0x100, hi / 0x1_0000 % 0x100, hi / 0x100 % 0x100, hi % 0x100);
    var low := HighSum(lo / 0x100_0000 % 0x100, lo / 0x1_0000 % 0x100, lo / 0x100 % 0x100, lo % 0x100);
    assert Cong32(high, hi) by {
      IntBytesCongruent(hi);
    }
    assert low == lo by {
      LowHalf(lo);
    }
    Recombine(v, hi, lo, high);
  }

  lemma LowHalf(lo: int)
    requires 0 <= lo < TWO_32
    ensures HighSum(lo / 0x100_0000 % 0x100, lo / 0x1_0000 % 0x100, lo / 0x100 % 0x100, lo % 0x100) == lo
  {
    Digits256(lo);
    assert lo / 0x100_0000 < 0x100;
  }

  lemma Recombine(v: int, hi: int, lo: int, high: int)
    requires v == hi * TWO_32 + lo && Cong32(high, hi) && IsLong(v)
    ensures Wrap64(high * TWO_32 + lo) == v
  {
    var k := (high - hi) / TWO_32;
    assert high == hi + TWO_32 * k;
    assert high * TWO_32 + lo == v + TWO_64 * k;
    Wrap64Congruent(high * TWO_32 + lo, v);
  }

  lemma WriteLongHalves(v: int)
    ensures Bytes8(WriteLong(v)) == HalfBytes(v)
  {
    WriteLongBytes(v);
  }

  /** The eight bytes of writeLong(v), read back as a long, give v. */
  lemma WriteLongValue(v: int)
    requires IsLong(v)
    ensures LongOfReads(Bytes8(WriteLong(v))) == v
  {
    WriteLongHalves(v);
    LongOfReadsExact(HalfBytes(v));
    HalvesRecombine(v);
  }

  /** readLong undoes writeLong, and consumes exactly the eight bytes. */
  lemma ReadWriteLong(v: int, rest: seq<byte>)
    requires IsLong(v)
    ensures ReadLong(WriteLong(v) + rest) == (v, rest)
  {
    var w := WriteLong(v) + rest;
    assert w[8..] == rest;
    assert Bytes8(w) == Bytes8(WriteLong(v));
    ReadLongOfBytes(w);
    WriteLongValue(v);
  }

  predicate Cong32(x: int, y: int)
  {
    (x - y) % TWO_32 == 0
  }

  //
  // streams
  //

  function Min(a: int, b: int): int
  {
    if a < b then a else b
  }

  /** An input stream over the bytes it has left. */
  class InputStream {
    var data: seq<byte>
    /** The most bytes one read(buf, off, len) hands out. */
    const chunk: nat

    constructor (data: seq<byte>, chunk: nat)
      ensures this.data == data && this.chunk == chunk
    {
      this.data := data;
      this.chunk := chunk;
    }

    /** How many bytes read(buf, off, len) with len > 0 hands out when
        bytes are left. */
    function Take(len: int): (n: nat)
      reads this
      ensures n <= |data| && n <= chunk && (len >= 0 ==> n <= len)
    {
      if len <= 0 then 0 else Min(Min(chunk, len), |data|)
    }

    /** read(): the next byte, or -1 at the end. */
    method Read() returns (b: int)
      modifies this`data
      ensures (b, data) == ReadByte(old(data))
    {
      if data == [] {
        return -1;
      }
      b := data[0] as int;
      data := data[1..];
    }

    /** read(buf, off, len) into a scratch buffer: the bytes read, with the
        count; -1 at the end of the stream and 0 for len == 0. */
    method ReadChunk(len: int) returns (n: int, bytes: seq<byte>)
      requires len >= 0
      modifies this`data
      ensures len == 0 ==> n == 0 && bytes == [] && data == old(data)
      ensures len > 0 && old(data) == [] ==> n == -1 && bytes == [] && data == old(data)
      ensures len > 0 && old(data) != [] ==>
        n == old(Take(len)) && bytes == old(data)[..n] && data == old(data)[n..]
    {
      if len == 0 {
        return 0, [];
      }
      if data == [] {
        return -1, [];
      }
      n := Take(len);
      bytes := data[..n];
      data := data[n..];
    }

    /** read(buf, off, len) into buf[off..off + len). */
    method ReadInto(buf: array<byte>, off: int, len: int) returns (n: int)
      requires 0 <= off && 0 <= len && off + len <= buf.Length
      modifies this`data, buf
      ensures len == 0 ==> n == 0 && data == old(data)
      ensures len > 0 && old(data) == [] ==> n == -1 && data == old(data)
      ensures len > 0 && old(data) != [] ==>
        n == old(Take(len)) && buf[off..off + n] == old(data)[..n] && data == old(data)[n..]
      ensures forall i :: 0 <= i < buf.Length && !(off <= i < off + Max0(n)) ==> buf[i] == old(buf[i])
    {
      var bytes;
      n, bytes := ReadChunk(len);
      forall i | 0 <= i < Max0(n) {
        buf[off + i] := bytes[i];
      }
    }
  }

  function Max0(n: int): nat
  {
    if n < 0 then 0 else n
  }

  /** An output stream: the bytes written so far. */
  class OutputStream {
    var data: seq<byte>

    constructor ()
      ensures data == []
    {
      data := [];
    }

    /** write(int b): the low eight bits of b. */
    method WriteByte(b: int)
      modifies this`data
      ensures data == old(data) + [LowByte(b)]
    {
      data := data + [LowByte(b)];
    }

    method Write(bytes: seq<byte>)
      modifies this`data
      ensures data == old(data) + bytes
    {
      data := data + bytes;
    }
  }

  /** The position of the first newline in d, or |d|. */
  function LineEnd(d: seq<byte>): (k: nat)
    ensures k <= |d| && (k < |d| ==> d[k] == 10)
    ensures forall i :: 0 <= i < k ==> d[i] != 10
    decreases |d|
  {
    if d == [] then 0 else if d[0] == 10 then 0 else 1 + LineEnd(d[1..])
  }

  /** A line without newlines followed by a newline ends where the newline
      is, so readln gives the line back and leaves exactly what follows. */
  lemma {:induction false} LineEndOfLine(line: seq<byte>, rest: seq<byte>)
    requires forall i :: 0 <= i < |line| ==> line[i] != 10
    ensures LineEnd(line + [10] + rest) == |line|
    decreases |line|
  {
    if line != [] {
      assert (line + [10] + rest)[1..] == line[1..] + [10] + rest;
      LineEndOfLine(line[1..], rest);
    }
  }

  /** Each byte as the char of the same code. */
  function Chars(d: seq<byte>): (r: string)
    ensures |r| == |d| && forall i :: 0 <= i < |d| ==> r[i] as int == d[i] as int
  {
    seq(|d|, i requires 0 <= i < |d| => (d[i] as int) as char)
  }

  /** readln: the chars before the first newline or the end of the stream;
      the newline input consumed but not returned. */
  method Readln(input: InputStream) returns (line: string)
    modifies input
    ensures var d, k := old(input.data), LineEnd(old(input.data));
      line == Chars(d[..k]) && input.data == (if k < |d| then d[k + 1..] else [])
    ensures '\n' !in line
  {
    ghost var d := input.data;
    ghost var k := LineEnd(d);
    line := [];
    var ch := input.Read();
    while ch >= 0 && ch != 10
      invariant |line| <= k
      invariant line == Chars(d[..|line|])
      invariant ch >= -1
      invariant ch == -1 ==> |line| == |d| && input.data == []
      invariant ch >= 0 ==> |line| < |d| && ch == d[|line|] as int && input.data == d[|line| + 1..]
      decreases |input.data| + (if ch >= 0 then 1 else 0)
    {
      line := line + [ch as char];
      ch := input.Read();
    }
    assert forall i :: 0 <= i < |line| ==> line[i] as int == d[i] as int && d[i] != 10;
  }

  /** readAll: read into buffer[offset..offset + length) until it is full or
      a read gives nothing; the bytes land contiguously from offset. */
  method ReadAll(input: InputStream, buffer: array<byte>, offset: int, length: int) returns (readLength: int)
    requires 0 <= offset && 0 <= length && offset + length <= buffer.Length
    modifies input, buffer
    ensures 0 <= readLength <= length
    ensures readLength == (if input.chunk == 0 then 0 else Min(length, |old(input.data)|))
    ensures buffer[offset..offset + readLength] == old(input.data)[..readLength]
    ensures input.data == old(input.data)[readLength..]
    ensures forall i :: 0 <= i < buffer.Length && !(offset <= i < offset + readLength) ==> buffer[i] == old(buffer[i])
  {
    ghost var d, b0 := input.data, buffer[..];
    var off, len := offset, length;
    readLength := 0;
    while len > 0
      invariant 0 <= readLength <= |d| && off == offset + readLength && len == length - readLength
      invariant len >= 0
      invariant buffer[offset..off] == d[..readLength] && input.data == d[readLength..]
      invariant input.chunk > 0 || readLength == 0
      invariant forall i :: 0 <= i < buffer.Length && !(offset <= i < off) ==> buffer[i] == b0[i]
      decreases len
    {
      ghost var before := buffer[..];
      var sublen := input.ReadInto(buffer, off, len);
      if sublen <= 0 {
        assert input.chunk > 0 ==> readLength == |d|;
        return;
      }
      ReadAllStep(b0, before, buffer[..], d, offset, off, readLength, sublen);
      len := len - sublen;
      off := off + sublen;
      readLength := readLength + sublen;
    }
  }

  /** One read of readAll lands right after the bytes already read and
      touches nothing else. */
  lemma ReadAllStep(b0: seq<byte>, before: seq<byte>, after: seq<byte>, d: seq<byte>,
                    offset: int, off: int, r: int, n: int)
    requires |b0| == |before| == |after|
    requires 0 <= offset && off == offset + r && 0 <= r && 0 < n && off + n <= |after| && r + n <= |d|
    requires before[offset..off] == d[..r] && after[off..off + n] == d[r..][..n]
    requires forall i :: 0 <= i < |after| && !(off <= i < off + n) ==> after[i] == before[i]
    requires forall i :: 0 <= i < |before| && !(offset <= i < off) ==> before[i] == b0[i]
    ensures after[offset..off + n] == d[..r + n]
    ensures forall i :: 0 <= i < |after| && !(offset <= i < off + n) ==> after[i] == b0[i]
  {
    assert after[offset..off] == before[offset..off];
    assert after[offset..off + n] == after[offset..off] + after[off..off + n];
    assert d[..r + n] == d[..r] + d[r..][..n];
  }

  /** copy(input, output): write what each read gives until a read gives nothing;
      the result is the number of bytes copied. `bufferLength` is the size of
      the scratch buffer. */
  method Copy(input: InputStream, output: OutputStream, bufferLength: nat) returns (total: int)
    requires bufferLength > 0
    modifies input, output
    ensures 0 <= total <= |old(input.data)|
    ensures total == (if input.chunk == 0 then 0 else |old(input.data)|)
    ensures output.data == old(output.data) + old(input.data)[..total]
    ensures input.data == old(input.data)[total..]
  {
    ghost var d := input.data;
    total := 0;
    var sublen, bytes := input.ReadChunk(bufferLength);
    while sublen > 0
      invariant 0 <= total && total + Max0(sublen) <= |d|
      invariant output.data == old(output.data) + d[..total]
      invariant input.data == d[total + Max0(sublen)..]
      invariant sublen > 0 ==> bytes == d[total..total + sublen]
      invariant sublen <= 0 ==> total == (if input.chunk == 0 then 0 else |d|)
      invariant input.chunk > 0 || sublen <= 0
      decreases |input.data| + Max0(sublen)
    {
      output.Write(bytes);
      assert d[..total + sublen] == d[..total] + bytes;
      total := total + sublen;
      sublen, bytes := input.ReadChunk(bufferLength);
    }
  }

  /** copy(input, output, len): as copy, but no read is issued once `len` bytes have
      been copied. The last read is not capped at what is left of len, so
      the total can exceed len, by less than one read. */
  method CopyLength(input: InputStream, output: OutputStream, len: int, bufferLength: nat) returns (total: int)
    requires bufferLength > 0
    modifies input, output
    ensures 0 <= total <= |old(input.data)|
    ensures output.data == old(output.data) + old(input.data)[..total]
    ensures input.data == old(input.data)[total..]
    ensures len <= 0 || input.chunk == 0 ==> total == 0
    ensures len > 0 && input.chunk > 0 ==> Min(len, |old(input.data)|) <= total
    ensures total < len + Min(input.chunk, bufferLength) || total == 0
  {
    ghost var d := input.data;
    total := 0;
    var remaining := len;
    while remaining > 0
      invariant 0 <= total <= |d| && remaining == len - total
      invariant output.data == old(output.data) + d[..total]
      invariant input.data == d[total..]
      invariant input.chunk == 0 || len <= 0 ==> total == 0
      invariant total < len + Min(input.chunk, bufferLength) || total == 0
      decreases remaining
    {
      var sublen, bytes := input.ReadChunk(bufferLength);
      if sublen <= 0 {
        assert input.chunk > 0 ==> total == |d|;
        return;
      }
      output.Write(bytes);
      assert d[..total + sublen] == d[..total] + bytes;
      remaining := remaining - sublen;
      total := total + sublen;
    }
  }
}
