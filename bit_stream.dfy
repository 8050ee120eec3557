/**
 * The pure view of a most-significant-bit-first bit stream: how values of a given
 * width become bits, and how bits are grouped into big-endian bytes, the last byte
 * padded with zero bits. The byte buffer of byte_buffer.dfy is specified against
 * these functions.
 */
module BitStream {

  type u8 = x: int | 0 <= x < 0x100
  type u16 = x: int | 0 <= x < 0x1_0000
  type u32 = x: int | 0 <= x < 0x1_0000_0000
  type u64 = x: int | 0 <= x < 0x1_0000_0000_0000_0000

  function Pow2(n: nat): (r: nat)
    ensures r >= 1
  {
    if n == 0 then 1 else 2 * Pow2(n - 1)
  }

  /** Bit i of v, that is `(v >> i) & 1 == 1`. */
  predicate Bit(v: nat, i: nat)
  {
    (v / Pow2(i)) % 2 == 1
  }

  /** The low n bits of v, most significant first. */
  function BitsOf(v: nat, n: nat): (s: seq<bool>)
    ensures |s| == n
  {
    if n == 0 then [] else BitsOf(v / 2, n - 1) + [v % 2 == 1]
  }

  function Zeros(n: nat): (s: seq<bool>)
    ensures |s| == n
  {
    if n == 0 then [] else Zeros(n - 1) + [false]
  }

  /** The number read from s, most significant bit first. */
  function Value(s: seq<bool>): nat
  {
    if s == [] then 0 else 2 * Value(s[..|s| - 1]) + (if s[|s| - 1] then 1 else 0)
  }

  /** v shifted left by n bits, `v << n`. */
  function Shifted(v: nat, n: nat): nat
  {
    if n == 0 then v else 2 * Shifted(v, n - 1)
  }

  /** Bits 7, 6, ... of a byte holding the (up to 8) bits of s, the rest zero. */
  function Chunk(s: seq<bool>): nat
    requires |s| <= 8
  {
    Shifted(Value(s), 8 - |s|)
  }

  /** The bytes holding s, eight bits to a byte, the last one zero-padded. */
  function Pack(s: seq<bool>): seq<u8>
    decreases |s|
  {
    if s == [] then []
    else if |s| <= 8 then ChunkBound(s); [Chunk(s)]
    else ChunkBound(s[..8]); [Chunk(s[..8])] + Pack(s[8..])
  }

  /** The low k bytes of v, most significant first. */
  function BigEndian(v: nat, k: nat): (r: seq<u8>)
    ensures |r| == k
  {
    if k == 0 then [] else BigEndian(v / 256, k - 1) + [v % 256]
  }

  /** The number whose big-endian bytes are bs. */
  function BigEndianValue(bs: seq<u8>): nat
  {
    if bs == [] then 0 else 256 * BigEndianValue(bs[..|bs| - 1]) + bs[|bs| - 1]
  }

  /** Bits lo .. lo + width - 1 of w, as a number: `(w >> lo) & ((1 << width) - 1)`. */
  function Field(w: nat, lo: nat, width: nat): nat
  {
    (w / Pow2(lo)) % Pow2(width)
  }

  // ---------------------------------------------------------------------------
  // Arithmetic

  lemma {:induction false} MulAtLeast(k: nat, d: nat)
    requires k >= 1
    ensures k * d >= d
  {
    if k > 1 {
      MulAtLeast(k - 1, d);
      assert k * d == (k - 1) * d + d;
    }
  }

  lemma {:induction false} DivModUnique(v: int, d: int, q: int, r: int)
    requires d > 0 && 0 <= r < d && v == q * d + r
    ensures v / d == q && v % d == r
  {
    var q0, r0 := v / d, v % d;
    assert q0 * d + r0 == q * d + r;
    assert (q0 - q) * d == r - r0;
    if q0 > q {
      MulAtLeast(q0 - q, d);
    } else if q0 < q {
      MulAtLeast(q - q0, d);
    }
  }

  /** Dividing by 2q is halving and then dividing by q. */
  lemma {:induction false} DivModTwice(v: nat, q: nat)
    requires q >= 1
    ensures v / (2 * q) == (v / 2) / q
    ensures v % (2 * q) == 2 * ((v / 2) % q) + v % 2
  {
    var h, s, t := v / 2, (v / 2) / q, (v / 2) % q;
    assert h == s * q + t;
    assert v == s * (2 * q) + (2 * t + v % 2);
    DivModUnique(v, 2 * q, s, 2 * t + v % 2);
  }

  lemma {:induction false} Pow2Add(a: nat, b: nat)
    ensures Pow2(a + b) == Pow2(a) * Pow2(b)
  {
    if a > 0 {
      Pow2Add(a - 1, b);
      assert Pow2(a + b) == 2 * Pow2(a - 1 + b);
    }
  }

  // ---------------------------------------------------------------------------
  // Bits and their value

  lemma {:induction false} ValueBound(s: seq<bool>)
    ensures Value(s) < Pow2(|s|)
  {
    if s != [] {
      ValueBound(s[..|s| - 1]);
    }
  }

  lemma {:induction false} ValueSnoc(s: seq<bool>, b: bool)
    ensures Value(s + [b]) == 2 * Value(s) + (if b then 1 else 0)
  {
    assert (s + [b])[..|s|] == s;
  }

  lemma {:induction false} ShiftedBelow(a: nat, m: nat, n: nat)
    requires a < Pow2(m)
    ensures Shifted(a, n) < Pow2(m + n)
  {
    if n > 0 {
      ShiftedBelow(a, m, n - 1);
    }
  }

  /** Zero bits appended to s shift its value left. */
  lemma {:induction false} ValuePadded(s: seq<bool>, j: nat)
    ensures Value(s + Zeros(j)) == Shifted(Value(s), j)
  {
    if j == 0 {
      assert s + Zeros(0) == s;
    } else {
      assert s + Zeros(j) == (s + Zeros(j - 1)) + [false];
      ValueSnoc(s + Zeros(j - 1), false);
      ValuePadded(s, j - 1);
    }
  }

  lemma {:induction false} ChunkBound(s: seq<bool>)
    requires |s| <= 8
    ensures Shifted(Value(s), 8 - |s|) < 256
  {
    ValueBound(s);
    ShiftedBelow(Value(s), |s|, 8 - |s|);
    assert Pow2(8) == 256;
  }

  /** Reading the low n bits of v gives v modulo 2^n. */
  lemma {:induction false} ValueOfBitsOf(v: nat, n: nat)
    ensures Value(BitsOf(v, n)) == v % Pow2(n)
  {
    if n > 0 {
      ValueOfBitsOf(v / 2, n - 1);
      ValueSnoc(BitsOf(v / 2, n - 1), v % 2 == 1);
      DivModTwice(v, Pow2(n - 1));
    }
  }

  /** The first of the n + 1 low bits of v is bit n: bits go out most significant first. */
  lemma {:induction false} BitsOfFirst(v: nat, n: nat)
    ensures BitsOf(v, n + 1) == [Bit(v, n)] + BitsOf(v, n)
  {
    if n > 0 {
      BitsOfFirst(v / 2, n - 1);
      DivModTwice(v, Pow2(n - 1));
      assert Bit(v / 2, n - 1) == Bit(v, n);
    }
  }

  /** Only the low n bits of v are written: a wider value is truncated. */
  lemma {:induction false} BitsOfTruncates(v: nat, n: nat)
    ensures BitsOf(v, n) == BitsOf(v % Pow2(n), n)
  {
    if n > 0 {
      DivModTwice(v, Pow2(n - 1));
      var w := v % Pow2(n);
      assert w / 2 == (v / 2) % Pow2(n - 1) && w % 2 == v % 2;
      BitsOfTruncates(v / 2, n - 1);
    }
  }

  /** Writing a in n bits and then b in m bits writes the (n + m)-bit number a:b, where p is 2^m. */
  lemma {:induction false} BitsOfJoin(a: nat, n: nat, b: nat, m: nat, p: nat)
    requires p == Pow2(m) && b < p
    ensures BitsOf(a, n) + BitsOf(b, m) == BitsOf(a * p + b, n + m)
  {
    if m == 0 {
      assert a * p + b == a;
    } else {
      var x := a * Pow2(m - 1);
      assert a * p == 2 * x;
      assert (2 * x + b) / 2 == x + b / 2 && (2 * x + b) % 2 == b % 2;
      BitsOfJoin(a, n, b / 2, m - 1, Pow2(m - 1));
    }
  }

  /** After any prefix h, writing a in n bits and then b in m bits writes c = a:b in k = n + m bits. */
  lemma {:induction false} BitsOfExtend(h: seq<bool>, a: nat, n: nat, b: nat, m: nat, p: nat, c: nat, k: nat)
    requires p == Pow2(m) && b < p && c == a * p + b && k == n + m
    ensures h + BitsOf(a, n) + BitsOf(b, m) == h + BitsOf(c, k)
  {
    BitsOfJoin(a, n, b, m, p);
    assert h + BitsOf(a, n) + BitsOf(b, m) == h + (BitsOf(a, n) + BitsOf(b, m));
  }

  // ---------------------------------------------------------------------------
  // Packing bits into bytes

  /** A stream of at least eight bits packs its first eight into one byte. */
  lemma {:induction false} PackCons(s: seq<bool>)
    requires |s| >= 8
    ensures Pack(s) == [Chunk(s[..8])] + Pack(s[8..])
  {
    if |s| == 8 {
      assert s[..8] == s && s[8..] == [];
    }
  }

  /** Bits starting on a byte boundary become bytes of their own. */
  lemma {:induction false} PackAppend(x: seq<bool>, y: seq<bool>)
    requires |x| % 8 == 0
    ensures Pack(x + y) == Pack(x) + Pack(y)
    decreases |x|
  {
    if x == [] {
      assert x + y == y;
    } else {
      var t := x + y;
      PackCons(x);
      PackCons(t);
      assert t[..8] == x[..8] && t[8..] == x[8..] + y;
      PackAppend(x[8..], y);
    }
  }

  /** The eight bits of a byte pack into that byte. */
  lemma {:induction false} PackByte(v: u8)
    ensures Pack(BitsOf(v, 8)) == [v]
  {
    var s := BitsOf(v, 8);
    assert Pack(s) == [Chunk(s)];
    assert Chunk(s) == Value(s);
    ValueOfBitsOf(v, 8);
    assert Pow2(8) == 256;
  }

  /** The 8k low bits of v are the 8(k - 1) low bits of v / 256, then the byte v % 256. */
  lemma {:induction false} BitsOfLastByte(v: nat, k: nat)
    requires k > 0
    ensures BitsOf(v, 8 * k) == BitsOf(v / 256, 8 * (k - 1)) + BitsOf(v % 256, 8)
  {
    var hi, lo := v / 256, v % 256;
    assert Pow2(8) == 256;
    assert hi * 256 + lo == v;
    BitsOfJoin(hi, 8 * (k - 1), lo, 8, 256);
    assert 8 * (k - 1) + 8 == 8 * k;
  }

  /** The 8k low bits of v pack into the k big-endian bytes of v. */
  lemma {:induction false} PackBitsOf(v: nat, k: nat)
    ensures Pack(BitsOf(v, 8 * k)) == BigEndian(v, k)
  {
    if k > 0 {
      BitsOfLastByte(v, k);
      PackAppend(BitsOf(v / 256, 8 * (k - 1)), BitsOf(v % 256, 8));
      PackBitsOf(v / 256, k - 1);
      PackByte(v % 256);
    }
  }

  /** The sixteen bits of a u16 pack into its high byte and then its low byte. */
  lemma {:induction false} PackU16(v: u16)
    ensures Pack(BitsOf(v, 16)) == [v / 256, v % 256]
  {
    PackBitsOf(v, 2);
    assert BigEndian(v, 2) == BigEndian(v / 256, 1) + [v % 256];
    assert BigEndian(v / 256, 1) == [v / 256 % 256];
  }

  /** BigEndianValue undoes BigEndian for a value that fits the k bytes. */
  lemma {:induction false} BigEndianRoundTrip(v: nat, k: nat)
    requires v < Pow2(8 * k)
    ensures BigEndianValue(BigEndian(v, k)) == v
  {
    if k > 0 {
      var r := BigEndian(v, k);
      assert r[..k - 1] == BigEndian(v / 256, k - 1);
      Pow2Add(8, 8 * (k - 1));
      assert Pow2(8) == 256;
      assert v / 256 < Pow2(8 * (k - 1));
      BigEndianRoundTrip(v / 256, k - 1);
    }
  }
}
