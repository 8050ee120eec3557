/**
 * The growable byte buffer the driver borrows from the `bytebuffer` crate, reduced
 * to what the driver uses: bit-granular writes (`write_bits`), whole big-endian
 * bytes (`write_u8`, `write_u16`), one byte read back (`read_u8`) and the written
 * bytes (`as_bytes`).
 *
 * The buffer holds its completed bytes in `data` and the byte being filled apart,
 * as the number `acc` of its first `wbit` bits. The crate instead ORs each bit
 * into the last byte of its vector; both give the same bytes, `AsBytes()`.
 * The ghost field `bits` is every bit written so far, padding included, and
 * `AsBytes() == Pack(bits)`.
 */
module ByteBuffers {
  import opened BitStream
  import opened Wrappers

  class ByteBuffer {
    var data: seq<u8>
    var acc: nat
    var wbit: nat
    var rpos: nat
    /** Every bit written so far, padding included: the completed bytes' bits, then the open byte's. */
    ghost var bits: seq<bool>
    ghost var full: seq<bool>
    ghost var open: seq<bool>

    ghost predicate Valid()
      reads this
    {
      bits == full + open && |full| == 8 * |data| && |open| == wbit < 8 &&
      data == Pack(full) && acc == Value(open) &&
      rpos <= |data| + (if wbit == 0 then 0 else 1)
    }

    constructor ()
      ensures Valid() && bits == [] && wbit == 0 && rpos == 0
    {
      data, acc, wbit, rpos := [], 0, 0, 0;
      bits, full, open := [], [], [];
    }

    /** The bytes written so far, a partial last byte padded with zero bits. */
    function AsBytes(): (r: seq<u8>)
      reads this
      requires Valid()
      ensures r == Pack(bits)
    {
      Aligned(|full|, |data|);
      OpenByteShown(full, open);
      if wbit == 0 then data else data + [Shifted(acc, 8 - wbit)]
    }

    /** Appends one bit, completing the open byte when it is the eighth. */
    method WriteBit(bit: bool)
      requires Valid()
      modifies this
      ensures Valid() && bits == old(bits) + [bit] && rpos == old(rpos)
    {
      Aligned(|full|, |data|);
      BitStep(full, open, bit);
      ghost var grown := open + [bit];
      var b := 2 * acc + (if bit then 1 else 0);
      if wbit == 7 {
        assert b < 256 && data + [b] == Pack(full + grown);
        ghost var full', open' := full + grown, [];
        assert bits + [bit] == full' + open' && |full'| == 8 * |data + [b]|;
        data, acc, wbit, full, open, bits := data + [b], 0, 0, full', open', bits + [bit];
      } else {
        assert b == Value(grown) && |grown| == wbit + 1 < 8;
        assert bits + [bit] == full + grown;
        acc, wbit, open, bits := b, wbit + 1, grown, bits + [bit];
      }
    }

    /** Appends the low n bits of value, most significant first. */
    method WriteBits(value: u64, n: nat)
      requires Valid() && n <= 64
      modifies this
      ensures Valid() && bits == old(bits) + BitsOf(value, n) && rpos == old(rpos)
      decreases n
    {
      if n > 0 {
        BitsOfFirst(value, n - 1);
        WriteBit(Bit(value, n - 1));
        WriteBits(value, n - 1);
      }
    }

    /** Completes an open byte with zero bits; the bytes do not change. */
    method FlushBits()
      requires Valid()
      modifies this
      ensures Valid() && wbit == 0 && rpos == old(rpos)
      ensures AsBytes() == old(AsBytes())
      ensures bits == old(bits) + Zeros((8 - |old(bits)| % 8) % 8)
      ensures old(wbit) == 0 ==> bits == old(bits)
    {
      Aligned(|full|, |data|);
      OpenLength(full, open);
      ghost var padding := (8 - |bits| % 8) % 8;
      if wbit > 0 {
        assert padding == 8 - wbit;
        ghost var closed := full + (open + Zeros(padding));
        assert bits + Zeros(padding) == closed;
        FlushStep(full, open);
        data, acc, wbit := data + [Shifted(acc, 8 - wbit)], 0, 0;
        full, open, bits := closed, [], closed;
      } else {
        assert padding == 0;
        assert bits + Zeros(0) == bits;
      }
    }

    method WriteU8(v: u8)
      requires Valid()
      modifies this
      ensures Valid() && wbit == 0 && rpos == old(rpos)
      ensures AsBytes() == old(AsBytes()) + [v]
      ensures bits == old(bits) + Zeros((8 - |old(bits)| % 8) % 8) + BitsOf(v, 8)
      ensures old(wbit) == 0 ==> bits == old(bits) + BitsOf(v, 8)
    {
      FlushBits();
      PackByte(v);
      AppendBytes(full, BitsOf(v, 8), [v]);
      data := data + [v];
      full := full + BitsOf(v, 8);
      bits := full;
    }

    /** Appends v as two bytes, big-endian. */
    method WriteU16(v: u16)
      requires Valid()
      modifies this
      ensures Valid() && wbit == 0 && rpos == old(rpos)
      ensures AsBytes() == old(AsBytes()) + [v / 256, v % 256]
      ensures bits == old(bits) + Zeros((8 - |old(bits)| % 8) % 8) + BitsOf(v, 16)
      ensures old(wbit) == 0 ==> bits == old(bits) + BitsOf(v, 16)
    {
      FlushBits();
      PackU16(v);
      AppendBytes(full, BitsOf(v, 16), [v / 256, v % 256]);
      data := data + [v / 256, v % 256];
      full := full + BitsOf(v, 16);
      bits := full;
    }

    /** The next unread byte, or None when every byte has been read. */
    method ReadU8() returns (r: Option<u8>)
      requires Valid()
      modifies this`rpos
      ensures Valid()
      ensures old(rpos) < |AsBytes()| ==> r == Some(AsBytes()[old(rpos)]) && rpos == old(rpos) + 1
      ensures old(rpos) >= |AsBytes()| ==> r == None && rpos == old(rpos)
    {
      var bytes := AsBytes();
      if rpos < |bytes| {
        r := Some(bytes[rpos]);
        rpos := rpos + 1;
      } else {
        r := None;
      }
    }
  }

  /** The bytes of a stream are its complete bytes and then its open byte, if any. */
  lemma {:induction false} OpenByteShown(full: seq<bool>, open: seq<bool>)
    requires |full| % 8 == 0 && |open| < 8
    ensures Shifted(Value(open), 8 - |open|) < 256
    ensures Pack(full + open) ==
      Pack(full) + (if open == [] then [] else [Shifted(Value(open), 8 - |open|)])
  {
    PackAppend(full, open);
    ChunkBound(open);
    if open != [] {
      assert Pack(open) == [Chunk(open)];
    }
  }

  lemma {:induction false} Aligned(n: nat, k: nat)
    requires n == 8 * k
    ensures n % 8 == 0
  {
    DivModUnique(n, 8, k, 0);
  }

  /** The open byte holds the bits past the last byte boundary. */
  lemma {:induction false} OpenLength(full: seq<bool>, open: seq<bool>)
    requires |full| % 8 == 0 && |open| < 8
    ensures |full + open| % 8 == |open|
    ensures (8 - |full + open| % 8) % 8 == if open == [] then 0 else 8 - |open|
  {
    DivModUnique(|full| + |open|, 8, |full| / 8, |open|);
    if open == [] {
      DivModUnique(8, 8, 1, 0);
    } else {
      DivModUnique(8 - |open|, 8, 0, 8 - |open|);
    }
  }

  /** Eight bits on a byte boundary close one byte holding their value. */
  lemma {:induction false} CloseByte(full: seq<bool>, open: seq<bool>)
    requires |full| % 8 == 0 && |open| == 8
    ensures Pack(full + open) == Pack(full) + [Value(open)]
  {
    PackAppend(full, open);
    assert Pack(open) == [Chunk(open)];
  }

  /** One more bit joins the open byte, and its eighth bit closes it. */
  lemma {:induction false} BitStep(full: seq<bool>, open: seq<bool>, bit: bool)
    requires |full| % 8 == 0 && |open| < 8
    ensures Value(open + [bit]) == 2 * Value(open) + (if bit then 1 else 0)
    ensures (full + open) + [bit] == full + (open + [bit])
    ensures |open| == 7 ==> Value(open + [bit]) < 256
    ensures |open| == 7 ==> Pack(full + (open + [bit])) == Pack(full) + [Value(open + [bit])]
    ensures |open| == 7 ==> (full + (open + [bit])) + [] == full + (open + [bit])
  {
    ValueSnoc(open, bit);
    if |open| == 7 {
      ValueBound(open + [bit]);
      assert Pow2(8) == 256;
      CloseByte(full, open + [bit]);
    }
  }

  /** Completing the open byte with zero bits closes it into the byte it is shown as. */
  lemma {:induction false} FlushStep(full: seq<bool>, open: seq<bool>)
    requires |full| % 8 == 0 && 0 < |open| < 8
    ensures Shifted(Value(open), 8 - |open|) < 256
    ensures |full + (open + Zeros(8 - |open|))| == |full| + 8
    ensures Pack(full + (open + Zeros(8 - |open|))) == Pack(full) + [Shifted(Value(open), 8 - |open|)]
    ensures Pack(full + open) == Pack(full) + [Shifted(Value(open), 8 - |open|)]
  {
    PadOpenByte(full, open);
    OpenByteShown(full, open);
  }

  /** Whole bytes written on a byte boundary are appended to the bytes so far. */
  lemma {:induction false} AppendBytes(full: seq<bool>, more: seq<bool>, bytes: seq<u8>)
    requires |full| % 8 == 0 && Pack(more) == bytes
    ensures Pack(full + more) == Pack(full) + bytes
  {
    PackAppend(full, more);
  }

  /** Zero padding closes an open byte into the byte it is already shown as. */
  lemma {:induction false} PadOpenByte(full: seq<bool>, open: seq<bool>)
    requires |full| % 8 == 0 && 0 < |open| < 8
    ensures Pack(full + (open + Zeros(8 - |open|))) == Pack(full) + [Shifted(Value(open), 8 - |open|)]
  {
    var j := 8 - |open|;
    var padded := open + Zeros(j);
    CloseByte(full, padded);
    ValuePadded(open, j);
    assert Pack(full + padded) == Pack(full) + [Value(padded)];
    assert Value(padded) == Shifted(Value(open), j);
    assert Pack(full + padded) == Pack(full) + [Shifted(Value(open), j)];
  }
}
