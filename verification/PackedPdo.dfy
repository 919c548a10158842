/**
 Bit-packed process images.

 SubDevices smaller than a byte share bytes of the IO map with their neighbours, so images move bit
 by bit. `CopyBits` is the one meaning that the read, write and zero loops and their byte-copy fast
 paths are all proved against. A bit position counts from bit zero of byte zero of the IO map.
 */
module PackedPdo {
  import opened Common
  import opened Bytes

  const MAXIMUM_OUTPUT_WRITE: nat := 1024

  function ImageByteLength(bitCount: nat): nat { (bitCount + 7) / 8 }

  function MappedByteLength(bitCount: nat, startBit: nat): nat {
    if bitCount == 0 || startBit > 7 then 0 else (startBit + bitCount + 7) / 8
  }

  /** Output writes are whole-image transactions. */
  function WholeOutputWrite(outputBytes: nat, offset: nat, length: nat): AckStatus {
    if outputBytes == 0 || outputBytes > MAXIMUM_OUTPUT_WRITE || offset != 0 || length != outputBytes
    then Bounds else Ok
  }

  /** The unused high bits of the last byte are zero. */
  predicate CanonicalPadding(bitCount: nat, image: seq<byte>) {
    && |image| == ImageByteLength(bitCount)
    && (bitCount % 8 != 0 ==> image[|image| - 1] < Pow2(bitCount % 8))
  }

  function Zeros(n: nat): (r: seq<byte>)
    ensures |r| == n
  {
    seq(n, i => 0)
  }

  /** `dst` with bits `to .. to + n` replaced by bits `from .. from + n` of `src`. */
  function CopyBits(dst: seq<byte>, to: nat, src: seq<byte>, from: nat, n: nat): (r: seq<byte>)
    requires to + n <= 8 * |dst| && from + n <= 8 * |src|
    ensures |r| == |dst|
  {
    if n == 0 then dst
    else PutBit(CopyBits(dst, to, src, from, n - 1), to + n - 1, BitAt(src, from + n - 1))
  }

  function WriteImage(io: seq<byte>, first: nat, image: seq<byte>, bitCount: nat): (r: seq<byte>)
    requires first + bitCount <= 8 * |io| && bitCount <= 8 * |image|
    ensures |r| == |io|
  {
    CopyBits(io, first, image, 0, bitCount)
  }

  function ZeroImage(io: seq<byte>, first: nat, bitCount: nat): (r: seq<byte>)
    requires first + bitCount <= 8 * |io|
    ensures |r| == |io|
  {
    CopyBits(io, first, Zeros(ImageByteLength(bitCount)), 0, bitCount)
  }

  function ReadImage(io: seq<byte>, first: nat, bitCount: nat): (r: seq<byte>)
    requires first + bitCount <= 8 * |io|
    ensures |r| == ImageByteLength(bitCount)
  {
    CopyBits(Zeros(ImageByteLength(bitCount)), 0, io, first, bitCount)
  }

  /** Bytes `offset .. offset + length` of a canonical image. */
  function ReadChunk(io: seq<byte>, first: nat, bitCount: nat, offset: nat, length: nat): (r: seq<byte>)
    requires first + bitCount <= 8 * |io|
    requires offset + length <= ImageByteLength(bitCount)
    ensures |r| == length
  {
    var start := Min(8 * offset, bitCount);
    CopyBits(Zeros(length), 0, io, first + start, Min(8 * length, bitCount - start))
  }

  lemma BitOfZeros(n: nat, i: nat)
    requires i < 8 * n
    ensures !BitAt(Zeros(n), i)
  {
    HighBitsClear(0, 0, i % 8);
  }

  /** The meaning of `CopyBits`, bit by bit. */
  lemma {:induction false} BitAtCopyBits(dst: seq<byte>, to: nat, src: seq<byte>, from: nat, n: nat, j: nat)
    requires to + n <= 8 * |dst| && from + n <= 8 * |src| && j < 8 * |dst|
    ensures BitAt(CopyBits(dst, to, src, from, n), j)
         == if to <= j < to + n then BitAt(src, from + (j - to)) else BitAt(dst, j)
  {
    if n > 0 {
      BitAtCopyBits(dst, to, src, from, n - 1, j);
      BitAtPutBit(CopyBits(dst, to, src, from, n - 1), to + n - 1, BitAt(src, from + n - 1), j);
    }
  }

  lemma BitAtReadImage(io: seq<byte>, first: nat, bitCount: nat, j: nat)
    requires first + bitCount <= 8 * |io| && j < 8 * ImageByteLength(bitCount)
    ensures BitAt(ReadImage(io, first, bitCount), j) == (j < bitCount && BitAt(io, first + j))
  {
    BitAtCopyBits(Zeros(ImageByteLength(bitCount)), 0, io, first, bitCount, j);
    BitOfZeros(ImageByteLength(bitCount), j);
  }

  lemma PaddingBitsClear(bitCount: nat, image: seq<byte>, j: nat)
    requires CanonicalPadding(bitCount, image) && bitCount <= j < 8 * |image|
    ensures !BitAt(image, j)
  {
    HighBitsClear(image[|image| - 1], bitCount % 8, j % 8);
  }

  /** What is read back after a write is the image that was written. */
  lemma WriteThenRead(io: seq<byte>, first: nat, image: seq<byte>, bitCount: nat)
    requires first + bitCount <= 8 * |io| && CanonicalPadding(bitCount, image)
    ensures ReadImage(WriteImage(io, first, image, bitCount), first, bitCount) == image
  {
    var written := WriteImage(io, first, image, bitCount);
    forall j | 0 <= j < 8 * |image| ensures BitAt(ReadImage(written, first, bitCount), j) == BitAt(image, j) {
      BitAtReadImage(written, first, bitCount, j);
      if j < bitCount {
        BitAtCopyBits(io, first, image, 0, bitCount, first + j);
      } else {
        PaddingBitsClear(bitCount, image, j);
      }
    }
    SameBitStrings(ReadImage(written, first, bitCount), image);
  }

  lemma ZeroThenRead(io: seq<byte>, first: nat, bitCount: nat)
    requires first + bitCount <= 8 * |io|
    ensures ReadImage(ZeroImage(io, first, bitCount), first, bitCount) == Zeros(ImageByteLength(bitCount))
  {
    var zeros := Zeros(ImageByteLength(bitCount));
    assert CanonicalPadding(bitCount, zeros);
    WriteThenRead(io, first, zeros, bitCount);
  }

  /** Whatever is read is canonical, so it can be written back. */
  lemma ReadIsCanonical(io: seq<byte>, first: nat, bitCount: nat)
    requires first + bitCount <= 8 * |io|
    ensures CanonicalPadding(bitCount, ReadImage(io, first, bitCount))
  {
    var image := ReadImage(io, first, bitCount);
    if bitCount % 8 != 0 {
      var last := |image| - 1;
      forall k | bitCount % 8 <= k < 8 ensures !Bit(image[last], k) {
        BitAtReadImage(io, first, bitCount, 8 * last + k);
      }
      BelowByBits(image[last], bitCount % 8, 8);
    }
  }

  predicate Disjoint(first: nat, n: nat, first': nat, n': nat) {
    first + n <= first' || first' + n' <= first
  }

  /** Writing one SubDevice leaves what any other one reads alone. */
  lemma WriteKeepsOthers(io: seq<byte>, first: nat, image: seq<byte>, n: nat, first': nat, n': nat)
    requires first + n <= 8 * |io| && n <= 8 * |image| && first' + n' <= 8 * |io|
    requires Disjoint(first, n, first', n')
    ensures ReadImage(WriteImage(io, first, image, n), first', n') == ReadImage(io, first', n')
  {
    var written := WriteImage(io, first, image, n);
    var (a, b) := (ReadImage(written, first', n'), ReadImage(io, first', n'));
    forall j | 0 <= j < 8 * |a| ensures BitAt(a, j) == BitAt(b, j) {
      BitAtReadImage(written, first', n', j);
      BitAtReadImage(io, first', n', j);
      if j < n' {
        BitAtCopyBits(io, first, image, 0, n, first' + j);
      }
    }
    SameBitStrings(a, b);
  }

  lemma BitOfTwoWrites(io: seq<byte>, first: nat, image: seq<byte>, n: nat,
                       first': nat, image': seq<byte>, n': nat, j: nat)
    requires first + n <= 8 * |io| && n <= 8 * |image| && j < 8 * |io|
    requires first' + n' <= 8 * |io| && n' <= 8 * |image'|
    ensures BitAt(WriteImage(WriteImage(io, first, image, n), first', image', n'), j)
         == if first' <= j < first' + n' then BitAt(image', j - first')
            else if first <= j < first + n then BitAt(image, j - first) else BitAt(io, j)
  {
    BitAtCopyBits(WriteImage(io, first, image, n), first', image', 0, n', j);
    BitAtCopyBits(io, first, image, 0, n, j);
  }

  /** Operations on disjoint bit ranges commute (zeroing is a write of zeros). */
  lemma DisjointWritesCommute(io: seq<byte>, first: nat, image: seq<byte>, n: nat,
                              first': nat, image': seq<byte>, n': nat)
    requires first + n <= 8 * |io| && n <= 8 * |image|
    requires first' + n' <= 8 * |io| && n' <= 8 * |image'|
    requires Disjoint(first, n, first', n')
    ensures WriteImage(WriteImage(io, first, image, n), first', image', n')
         == WriteImage(WriteImage(io, first', image', n'), first, image, n)
  {
    var a := WriteImage(WriteImage(io, first, image, n), first', image', n');
    var b := WriteImage(WriteImage(io, first', image', n'), first, image, n);
    forall j | 0 <= j < 8 * |io| ensures BitAt(a, j) == BitAt(b, j) {
      BitOfTwoWrites(io, first, image, n, first', image', n', j);
      BitOfTwoWrites(io, first', image', n', first, image, n, j);
    }
    SameBitStrings(a, b);
  }

  lemma BitAtReadChunk(io: seq<byte>, first: nat, bitCount: nat, offset: nat, length: nat, j: nat)
    requires first + bitCount <= 8 * |io| && offset + length <= ImageByteLength(bitCount) && j < 8 * length
    ensures BitAt(ReadChunk(io, first, bitCount, offset, length), j)
         == (8 * offset + j < bitCount && BitAt(io, first + 8 * offset + j))
  {
    var start := Min(8 * offset, bitCount);
    BitAtCopyBits(Zeros(length), 0, io, first + start, Min(8 * length, bitCount - start), j);
    BitOfZeros(length, j);
  }

  /** A chunk is a slice of the whole image. */
  lemma ChunkIsSlice(io: seq<byte>, first: nat, bitCount: nat, offset: nat, length: nat)
    requires first + bitCount <= 8 * |io| && offset + length <= ImageByteLength(bitCount)
    ensures ReadChunk(io, first, bitCount, offset, length)
         == ReadImage(io, first, bitCount)[offset .. offset + length]
  {
    hide ReadChunk, ReadImage;
    var chunk := ReadChunk(io, first, bitCount, offset, length);
    var slice := ReadImage(io, first, bitCount)[offset .. offset + length];
    forall j | 0 <= j < 8 * length ensures BitAt(chunk, j) == BitAt(slice, j) {
      BitAtReadChunk(io, first, bitCount, offset, length, j);
      BitAtReadImage(io, first, bitCount, 8 * offset + j);
    }
    SameBitStrings(chunk, slice);
  }

  /** The chunks of at most `size` bytes from `offset` on, joined. */
  function JoinedChunks(io: seq<byte>, first: nat, bitCount: nat, offset: nat, size: nat): seq<byte>
    requires first + bitCount <= 8 * |io| && size > 0 && offset <= ImageByteLength(bitCount)
    decreases ImageByteLength(bitCount) - offset
  {
    if offset == ImageByteLength(bitCount) then []
    else
      var length := Min(size, ImageByteLength(bitCount) - offset);
      ReadChunk(io, first, bitCount, offset, length)
      + JoinedChunks(io, first, bitCount, offset + length, size)
  }

  lemma {:induction false} ChunksJoinToImage(io: seq<byte>, first: nat, bitCount: nat, offset: nat, size: nat)
    requires first + bitCount <= 8 * |io| && size > 0 && offset <= ImageByteLength(bitCount)
    ensures JoinedChunks(io, first, bitCount, offset, size) == ReadImage(io, first, bitCount)[offset..]
    decreases ImageByteLength(bitCount) - offset
  {
    hide ReadChunk, ReadImage;
    if offset < ImageByteLength(bitCount) {
      var length := Min(size, ImageByteLength(bitCount) - offset);
      ChunkIsSlice(io, first, bitCount, offset, length);
      ChunksJoinToImage(io, first, bitCount, offset + length, size);
    }
  }
}
