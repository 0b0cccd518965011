/**
 * Bit vectors and the bit-packed row format used by the batch decode path.
 *
 * A row of bits is stored in bytes with bit i at byte i / 8, bit position
 * i % 8 counted from the least-significant bit (numpy's bitorder="little").
 */
module Bits {

  type Bit = b: nat | b < 2
  type Byte = b: nat | b < 256

  function Pow2(k: nat): (r: nat)
    ensures r >= 1
  {
    if k == 0 then 1 else 2 * Pow2(k - 1)
  }

  lemma {:induction false} Pow2AtMost8(k: nat)
    requires k <= 8
    ensures Pow2(k) <= 256
    decreases 8 - k
  {
    if k < 8 {
      Pow2AtMost8(k + 1);
    } else {
      assert Pow2(8) == 256;
    }
  }

  /** Bit k of the value b, counted from the least-significant bit. */
  function BitAt(b: nat, k: nat): Bit
  {
    if k == 0 then b % 2 else BitAt(b / 2, k - 1)
  }

  lemma {:induction false} BitAtZero(k: nat)
    ensures BitAt(0, k) == 0
  {
    if k > 0 {
      BitAtZero(k - 1);
    }
  }

  /** The value of a group of bits, the first bit being the least significant. */
  function PackByte(bits: seq<Bit>): (r: nat)
    ensures r < Pow2(|bits|)
  {
    if bits == [] then 0 else bits[0] + 2 * PackByte(bits[1..])
  }

  /** Reading bit k of a packed group gives back the k-th bit, and zero past the end. */
  lemma {:induction false} PackByteBits(bits: seq<Bit>, k: nat)
    ensures BitAt(PackByte(bits), k) == if k < |bits| then bits[k] else 0
  {
    if bits == [] {
      BitAtZero(k);
    } else {
      var b := PackByte(bits);
      assert b % 2 == bits[0];
      assert b / 2 == PackByte(bits[1..]);
      if k > 0 {
        PackByteBits(bits[1..], k - 1);
      }
    }
  }

  /** The first n bits of a value, least-significant first. */
  function BitsOf(b: nat, n: nat): (r: seq<Bit>)
    ensures |r| == n
  {
    seq(n, k requires 0 <= k < n => BitAt(b, k))
  }

  /** Packing the low n bits of a value below 2^n gives back the value. */
  lemma {:induction false} PackByteOfBits(b: nat, n: nat)
    requires b < Pow2(n)
    ensures PackByte(BitsOf(b, n)) == b
  {
    if n > 0 {
      var bits := BitsOf(b, n);
      assert bits[1..] == BitsOf(b / 2, n - 1);
      PackByteOfBits(b / 2, n - 1);
    }
  }

  /** numpy.packbits(bits, bitorder="little") for one row: ceil(|bits| / 8) bytes. */
  function PackRow(bits: seq<Bit>): (r: seq<Byte>)
    ensures |r| == (|bits| + 7) / 8
    decreases |bits|
  {
    if bits == [] then []
    else
      var n := if |bits| < 8 then |bits| else 8;
      Pow2AtMost8(n);
      [PackByte(bits[..n])] + PackRow(bits[n..])
  }

  function Zeros(n: nat): seq<Bit>
  {
    seq(n, _ => 0)
  }

  /**
   * numpy.unpackbits(row, count=count, bitorder="little") for one row: exactly
   * `count` bits; bits past the end of the row read as zero, and bits of the
   * row past `count` are not read.
   */
  function UnpackRow(row: seq<Byte>, count: nat): (r: seq<Bit>)
    ensures |r| == count
    ensures forall i :: 0 <= i < count && |row| <= i / 8 ==> r[i] == 0
  {
    seq(count, i requires 0 <= i < count => if i / 8 < |row| then BitAt(row[i / 8], i % 8) else 0)
  }

  /** Bit i of a packed row is the i-th input bit; the padding bits of the last byte are zero. */
  lemma {:induction false} PackRowAt(bits: seq<Bit>, i: nat)
    requires i < 8 * |PackRow(bits)|
    ensures BitAt(PackRow(bits)[i / 8], i % 8) == if i < |bits| then bits[i] else 0
    decreases |bits|
  {
    var n := if |bits| < 8 then |bits| else 8;
    if i < 8 {
      PackByteBits(bits[..n], i);
    } else {
      PackRowAt(bits[n..], i - 8);
      assert (i - 8) / 8 == i / 8 - 1 && (i - 8) % 8 == i % 8;
    }
  }

  /** Unpacking the bits of a packed row with the same bit order gives back the bits. */
  lemma RoundTrip(bits: seq<Bit>)
    ensures UnpackRow(PackRow(bits), |bits|) == bits
  {
    var back := UnpackRow(PackRow(bits), |bits|);
    forall i | 0 <= i < |bits|
      ensures back[i] == bits[i]
    {
      PackRowAt(bits, i);
    }
  }

  /** Every bit of a packed row past the packed bits is zero. */
  lemma PaddingIsZero(bits: seq<Bit>, i: nat)
    requires |bits| <= i < 8 * |PackRow(bits)|
    ensures UnpackRow(PackRow(bits), 8 * |PackRow(bits)|)[i] == 0
  {
    PackRowAt(bits, i);
  }

  /** Unpacking all bits of a row and packing them again gives back the row. */
  lemma {:induction false} PackUnpack(row: seq<Byte>)
    ensures PackRow(UnpackRow(row, 8 * |row|)) == row
  {
    if row != [] {
      var bits := UnpackRow(row, 8 * |row|);
      assert bits[..8] == BitsOf(row[0], 8);
      Pow2AtMost8(8);
      PackByteOfBits(row[0], 8);
      assert bits[8..] == UnpackRow(row[1..], 8 * |row[1..]|) by {
        forall i | 0 <= i < 8 * |row[1..]|
          ensures bits[8..][i] == UnpackRow(row[1..], 8 * |row[1..]|)[i]
        {
          assert (i + 8) / 8 == i / 8 + 1 && (i + 8) % 8 == i % 8;
        }
      }
      PackUnpack(row[1..]);
    }
  }

  /** A row of the wrong width: unpacking `count` bits reads it as if cut or zero-filled to ceil(count / 8) bytes. */
  function Fit(row: seq<Byte>, width: nat): (r: seq<Byte>)
    ensures |r| == width
  {
    if |row| >= width then row[..width] else row + seq(width - |row|, _ => 0)
  }

  /**
   * unpackbits with a count reads only the first ceil(count / 8) bytes: a
   * wider row has its extra bytes dropped, a narrower one is zero-filled; no
   * width is rejected.
   */
  lemma UnpackIgnoresWidth(row: seq<Byte>, count: nat)
    ensures UnpackRow(row, count) == UnpackRow(Fit(row, (count + 7) / 8), count)
  {
    var w := (count + 7) / 8;
    var fitted := Fit(row, w);
    forall i | 0 <= i < count
      ensures UnpackRow(row, count)[i] == UnpackRow(fitted, count)[i]
    {
      assert i / 8 < w;
      if i / 8 >= |row| {
        BitAtZero(i % 8);
      }
    }
  }
}
