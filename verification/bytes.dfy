/**
 * Bytes and the little-endian integers read from them: the `memcpy` of an
 * `int` out of the Whisper vocabulary blob and `ByteBuffer.getInt`/`getShort`
 * in `ByteOrder.LITTLE_ENDIAN` over a WAV file.
 */
module Bytes {

  newtype byte = x: int | 0 <= x < 256

  const TwoTo15: int := 0x8000
  const TwoTo16: int := 0x1_0000
  const TwoTo31: int := 0x8000_0000
  const TwoTo32: int := 0x1_0000_0000

  predicate IsInt32(v: int) {
    -TwoTo31 <= v < TwoTo31
  }

  predicate IsInt16(v: int) {
    -TwoTo15 <= v < TwoTo15
  }

  /** Kotlin and Java `Int` arithmetic: the result wrapped to 32 bits. */
  function WrapInt32(x: int): (r: int)
    ensures IsInt32(r)
    ensures (r - x) % TwoTo32 == 0
    ensures IsInt32(x) ==> r == x
    ensures TwoTo31 <= x < TwoTo31 + TwoTo32 ==> r == x - TwoTo32
  {
    (x + TwoTo31) % TwoTo32 - TwoTo31
  }

  /** 256 to the power `n`: the number of values `n` bytes can hold. */
  function Pow256(n: nat): (p: nat)
    ensures p >= 1
  {
    if n == 0 then 1 else 256 * Pow256(n - 1)
  }

  /** The unsigned value of the `width` bytes at `pos`, least significant
      byte first. */
  function ValueAt(bs: seq<byte>, pos: nat, width: nat): (u: nat)
    requires pos + width <= |bs|
    ensures u < Pow256(width)
    decreases width
  {
    if width == 0 then 0 else bs[pos] as nat + 256 * ValueAt(bs, pos + 1, width - 1)
  }

  /** The lowest `width` bytes of `u`, least significant byte first. */
  function LittleEndian(u: nat, width: nat): (bs: seq<byte>)
    ensures |bs| == width
  {
    if width == 0 then [] else [(u % 256) as byte] + LittleEndian(u / 256, width - 1)
  }

  /** Bytes written little-endian read back as the value written, wherever
      they sit. */
  lemma {:induction false} LittleEndianRoundTrip(u: nat, width: nat, bs: seq<byte>, pos: nat)
    requires u < Pow256(width)
    requires pos + width <= |bs| && bs[pos..pos + width] == LittleEndian(u, width)
    ensures ValueAt(bs, pos, width) == u
    decreases width
  {
    if width > 0 {
      var e := LittleEndian(u, width);
      assert bs[pos] == e[0] == (u % 256) as byte;
      assert bs[pos + 1..pos + width] == e[1..] == LittleEndian(u / 256, width - 1);
      LittleEndianRoundTrip(u / 256, width - 1, bs, pos + 1);
    }
  }

  /** The value at `pos` depends only on the bytes it spans. */
  lemma {:induction false} ValueAtSame(bs: seq<byte>, bs': seq<byte>, pos: nat, width: nat)
    requires pos + width <= |bs| && pos + width <= |bs'|
    requires forall k :: pos <= k < pos + width ==> bs[k] == bs'[k]
    ensures ValueAt(bs, pos, width) == ValueAt(bs', pos, width)
    decreases width
  {
    if width > 0 {
      ValueAtSame(bs, bs', pos + 1, width - 1);
    }
  }

  /** Half the values of `width` bytes: the bound of the signed ones. */
  function Half(width: nat): (h: int)
    requires 0 < width
    ensures Pow256(width) == 2 * h
  {
    128 * Pow256(width - 1)
  }

  /** Two's complement reading of an unsigned value of `width` bytes. */
  function Signed(u: nat, width: nat): (v: int)
    requires 0 < width && u < Pow256(width)
    ensures -Half(width) <= v < Half(width)
    ensures v >= 0 <==> u < Half(width)
  {
    if u < Half(width) then u else u - Pow256(width)
  }

  /** The unsigned value of `width` bytes that reads as `v`. */
  function Unsigned(v: int, width: nat): (u: nat)
    requires 0 < width && -Half(width) <= v < Half(width)
    ensures u < Pow256(width) && Signed(u, width) == v
  {
    if v < 0 then v + Pow256(width) else v
  }

  /** The signed 32-bit integer stored little-endian at `pos`. */
  function Int32At(bs: seq<byte>, pos: nat): (v: int)
    requires pos + 4 <= |bs|
    ensures IsInt32(v)
  {
    Signed(ValueAt(bs, pos, 4), 4)
  }

  /** The signed 16-bit integer stored little-endian at `pos`. */
  function Int16At(bs: seq<byte>, pos: nat): (v: int)
    requires pos + 2 <= |bs|
    ensures IsInt16(v)
  {
    Signed(ValueAt(bs, pos, 2), 2)
  }

  /** The four bytes that store `v` little-endian. */
  function Int32Bytes(v: int): (bs: seq<byte>)
    requires IsInt32(v)
    ensures |bs| == 4
  {
    LittleEndian(Unsigned(v, 4), 4)
  }

  /** The two bytes that store `v` little-endian. */
  function Int16Bytes(v: int): (bs: seq<byte>)
    requires IsInt16(v)
    ensures |bs| == 2
  {
    LittleEndian(Unsigned(v, 2), 2)
  }

  /** Reading back a stored 32-bit integer gives the integer, wherever it
      sits. */
  lemma Int32AtBytes(bs: seq<byte>, pos: nat, end: nat, v: int)
    requires IsInt32(v) && end == pos + 4 && end <= |bs|
    requires bs[pos..end] == Int32Bytes(v)
    ensures Int32At(bs, pos) == v
  {
    LittleEndianRoundTrip(Unsigned(v, 4), 4, bs, pos);
  }

  /** The same for a stored 16-bit integer. */
  lemma Int16AtBytes(bs: seq<byte>, pos: nat, end: nat, v: int)
    requires IsInt16(v) && end == pos + 2 && end <= |bs|
    requires bs[pos..end] == Int16Bytes(v)
    ensures Int16At(bs, pos) == v
  {
    LittleEndianRoundTrip(Unsigned(v, 2), 2, bs, pos);
  }

  /** A part of bytes found at `p` is found at the matching offset. */
  lemma SliceOfSlice(bs: seq<byte>, p: nat, e: seq<byte>, lo: nat, hi: nat, x: seq<byte>)
    requires p + |e| <= |bs| && bs[p..p + |e|] == e && lo <= hi <= |e| && e[lo..hi] == x
    ensures bs[p + lo..p + hi] == x
  {
    assert forall k :: 0 <= k < hi - lo ==> e[lo..hi][k] == e[lo + k] == bs[p + lo + k];
  }

  /** Bytes that start with `pre + x` start with `pre`, and `x` follows
      it. */
  lemma PrefixParts(bs: seq<byte>, pre: seq<byte>, x: seq<byte>)
    requires |pre| + |x| <= |bs| && bs[0..|pre| + |x|] == pre + x
    ensures bs[0..|pre|] == pre
    ensures bs[|pre|..|pre| + |x|] == x
  {
    SliceOfSlice(bs, 0, pre + x, 0, |pre|, pre);
    SliceOfSlice(bs, 0, pre + x, |pre|, |pre| + |x|, x);
  }

  /** A slice read byte by byte. */
  lemma SliceElements(bs: seq<byte>, p: nat, x: seq<byte>)
    requires p + |x| <= |bs| && bs[p..p + |x|] == x
    ensures forall i :: 0 <= i < |x| ==> bs[p + i] == x[i]
  {
    forall i | 0 <= i < |x|
      ensures bs[p + i] == x[i]
    {
      assert bs[p..p + |x|][i] == x[i];
    }
  }

  /** Bytes found one by one at `p` as `x + y + z` hold `x` and `y` as
      slices, and `z` byte by byte after them. */
  lemma ThreePartsAt(bs: seq<byte>, p: nat, x: seq<byte>, y: seq<byte>, z: seq<byte>, q: nat)
    requires q == p + |x| + |y| && q + |z| <= |bs|
    requires forall i :: 0 <= i < |x + y + z| ==> bs[p + i] == (x + y + z)[i]
    ensures bs[p..p + |x|] == x
    ensures bs[p + |x|..q] == y
    ensures forall i :: 0 <= i < |z| ==> bs[q + i] == z[i]
  {
    var e := x + y + z;
    forall i | 0 <= i < |x|
      ensures bs[p..p + |x|][i] == x[i]
    {
      assert e[i] == x[i];
    }
    forall i | 0 <= i < |y|
      ensures bs[p + |x|..q][i] == y[i]
    {
      assert e[|x| + i] == y[i];
    }
    forall i | 0 <= i < |z|
      ensures bs[q + i] == z[i]
    {
      assert e[|x| + |y| + i] == z[i];
    }
  }

  /** A byte read as a character (C++ `char`, Latin-1). */
  function CharOf(b: byte): char {
    (b as int) as char
  }

  /** `std::string(data, len)` / `String(bytes)` over single-byte
      characters. */
  function Chars(bs: seq<byte>): (s: string)
    ensures |s| == |bs|
    ensures forall i :: 0 <= i < |bs| ==> s[i] == CharOf(bs[i])
  {
    seq(|bs|, i requires 0 <= i < |bs| => CharOf(bs[i]))
  }

  /** The bytes of a string whose characters all fit in a byte. */
  function BytesOf(s: string): (bs: seq<byte>)
    requires forall i :: 0 <= i < |s| ==> s[i] as int < 256
    ensures |bs| == |s|
    ensures Chars(bs) == s
  {
    seq(|s|, i requires 0 <= i < |s| => s[i] as int as byte)
  }
}
