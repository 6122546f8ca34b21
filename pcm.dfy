/**
 * 16-bit signed big-endian PCM samples as the mixer reads and writes them.
 * A Java `byte` is kept as its eight bits read unsigned; the narrowing casts
 * `(short)` and `(byte)` of the source are written out as wrap-around.
 */
module Pcm {

  /** The bit pattern of one Java byte, read as an unsigned value. */
  newtype Byte = b: int | 0 <= b < 256

  /** 20 ms of 48 kHz stereo 16-bit PCM: 960 samples x 2 channels x 2 bytes. */
  const FrameSize: nat := 3840

  const ShortMin: int := -32768
  const ShortMax: int := 32767

  predicate IsShort(v: int) {
    ShortMin <= v <= ShortMax
  }

  /** Java's `(short)` narrowing: keep the low 16 bits as two's complement. */
  function ToShort(x: int): (s: int)
    ensures IsShort(s)
    ensures IsShort(x) ==> s == x
    ensures IsShort(x - 65536) ==> s == x - 65536
  {
    (x + 32768) % 65536 - 32768
  }

  /** Java's `(byte)` narrowing: keep the low 8 bits. */
  function ToByte(x: int): Byte {
    (x % 256) as Byte
  }

  /**
   * The sample at a big-endian byte pair, computed as the source does:
   * `buf1 = (short)((hi & 0xff) << 8)`, `buf2 = lo & 0xff`,
   * `(short)(buf1 | buf2)`. The low byte of `buf1` is zero and `buf2` is
   * below 256, so the bitwise or is a sum.
   */
  function Sample(hi: Byte, lo: Byte): (s: int)
    ensures IsShort(s)
    ensures s == hi as int * 256 + lo as int - (if hi >= 128 then 65536 else 0)
  {
    var buf1 := ToShort(hi as int * 256);
    var buf2 := lo as int;
    ToShort(buf1 + buf2)
  }

  /** `(byte) (toAdd >> 8)`: an arithmetic shift is a floor division. */
  function HighByte(v: int): Byte {
    ToByte(v / 256)
  }

  /** `(byte) toAdd`. */
  function LowByte(v: int): Byte {
    ToByte(v)
  }

  /** The if-chain that turns the `int` sum into a `short`. */
  function Saturate(sum: int): (s: int)
    ensures IsShort(s)
  {
    if sum > ShortMax then ShortMax
    else if sum < ShortMin then ShortMin
    else sum
  }

  function Abs(x: int): nat {
    if x < 0 then -x else x
  }

  /** Saturation picks the 16-bit value nearest to the sum: it never wraps. */
  lemma SaturateIsNearest(sum: int, t: int)
    requires IsShort(t)
    ensures IsShort(sum) ==> Saturate(sum) == sum
    ensures Abs(Saturate(sum) - sum) <= Abs(t - sum)
  {
  }

  /** Encoding a 16-bit value big-endian and decoding it gives it back. */
  lemma SampleOfEncoding(v: int)
    requires IsShort(v)
    ensures Sample(HighByte(v), LowByte(v)) == v
  {
    var q, r := v / 256, v % 256;
    assert v == q * 256 + r;
    assert -128 <= q < 128;
    if q >= 0 {
      assert HighByte(v) as int == q;
    } else {
      assert HighByte(v) as int == q + 256;
    }
    assert LowByte(v) as int == r;
  }

  /** Decoding a byte pair and encoding the sample again gives the pair back. */
  lemma EncodingOfSample(hi: Byte, lo: Byte)
    ensures HighByte(Sample(hi, lo)) == hi
    ensures LowByte(Sample(hi, lo)) == lo
  {
    var s := Sample(hi, lo);
    if hi < 128 {
      assert s == hi as int * 256 + lo as int;
      assert s / 256 == hi as int;
      assert s % 256 == lo as int;
    } else {
      assert s == (hi as int - 256) * 256 + lo as int;
      assert s / 256 == hi as int - 256;
      assert s % 256 == lo as int;
    }
  }
}
