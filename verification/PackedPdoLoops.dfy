/**
 The in-place loops over the IO map, with their byte-copy fast paths.

 A mapped span is the window `base .. base + mappedSize` of the IO map, so that the bytes it shares
 with neighbouring SubDevices are in view.
 */
module PackedPdoLoops {
  import opened Bytes
  import opened PackedPdo

  /** `n & ((1 << k) - 1)`. */
  function LowBits(n: nat, k: nat): (r: nat)
    ensures r <= n
  {
    if k == 0 then 0 else LowBits(n / 2, k - 1) * 2 + n % 2
  }

  lemma {:induction false} BitOfLowBits(n: nat, k: nat, j: nat)
    ensures Bit(LowBits(n, k), j) == (j < k && Bit(n, j))
  {
    if k == 0 {
      HighBitsClear(0, 0, j);
    } else if j > 0 {
      BitOfLowBits(n / 2, k - 1, j - 1);
    }
  }

  /** Bit `j` of a chunk in terms of the bits of the map. */
  ghost predicate ChunkBit(io: seq<byte>, first: nat, bitCount: nat, offset: nat, j: nat)
    requires first + bitCount <= 8 * |io|
  {
    8 * offset + j < bitCount && BitAt(io, first + 8 * offset + j)
  }

  lemma ChunkByBits(io: seq<byte>, first: nat, bitCount: nat, offset: nat, d: seq<byte>)
    requires first + bitCount <= 8 * |io| && offset + |d| <= ImageByteLength(bitCount)
    requires forall j :: 0 <= j < 8 * |d| ==> BitAt(d, j) == ChunkBit(io, first, bitCount, offset, j)
    ensures d == ReadChunk(io, first, bitCount, offset, |d|)
  {
    hide ReadChunk;
    forall j | 0 <= j < 8 * |d| ensures BitAt(d, j) == BitAt(ReadChunk(io, first, bitCount, offset, |d|), j) {
      BitAtReadChunk(io, first, bitCount, offset, |d|, j);
    }
    SameBitStrings(d, ReadChunk(io, first, bitCount, offset, |d|));
  }

  /** The aligned fast path: whole bytes, with the padding of the last one masked off. */
  method CopyAlignedChunk(ioMap: array<byte>, base: nat, bitCount: nat, offset: nat, destination: array<byte>)
    requires ioMap != destination && bitCount > 0
    requires base + ImageByteLength(bitCount) <= ioMap.Length
    requires offset + destination.Length <= ImageByteLength(bitCount)
    modifies destination
    ensures destination[..] == ReadChunk(ioMap[..], 8 * base, bitCount, offset, destination.Length)
  {
    var n := destination.Length;
    for i := 0 to n
      invariant forall m :: 0 <= m < i ==> destination[m] == ioMap[base + offset + m]
    {
      destination[i] := ioMap[base + offset + i];
    }
    var usedBits := bitCount % 8;
    var atEnd := usedBits != 0 && n != 0 && offset + n == ImageByteLength(bitCount);
    if atEnd {
      destination[n - 1] := LowBits(destination[n - 1], usedBits);
    }
    ghost var (io, d) := (ioMap[..], destination[..]);
    forall j | 0 <= j < 8 * n ensures BitAt(d, j) == ChunkBit(io, 8 * base, bitCount, offset, j) {
      if atEnd && j / 8 == n - 1 {
        BitOfLowBits(io[base + offset + n - 1], usedBits, j % 8);
      }
    }
    ChunkByBits(io, 8 * base, bitCount, offset, d);
  }

  /** The bit-by-bit path. */
  method GatherChunk(ioMap: array<byte>, base: nat, startBit: nat, bitCount: nat, offset: nat,
                     destination: array<byte>)
    requires ioMap != destination && 8 * base + startBit + bitCount <= 8 * ioMap.Length
    requires offset + destination.Length <= ImageByteLength(bitCount)
    modifies destination
    ensures destination[..] == ReadChunk(ioMap[..], 8 * base + startBit, bitCount, offset, destination.Length)
  {
    var n := destination.Length;
    for i := 0 to n
      invariant forall m :: 0 <= m < i ==> destination[m] == 0
    {
      destination[i] := 0;
    }
    ghost var (io, first) := (ioMap[..], 8 * base + startBit);
    assert destination[..] == Zeros(n);
    forall j | 0 <= j < 8 * n ensures !BitAt(destination[..], j) {
      BitOfZeros(n, j);
    }
    for byteIndex := 0 to n
      invariant forall j :: 0 <= j < 8 * byteIndex ==>
        BitAt(destination[..], j) == ChunkBit(io, first, bitCount, offset, j)
      invariant forall j :: 8 * byteIndex <= j < 8 * n ==> !BitAt(destination[..], j)
    {
      GatherByte(ioMap, base, startBit, bitCount, offset, destination, byteIndex);
    }
    ChunkByBits(io, first, bitCount, offset, destination[..]);
  }

  method GatherByte(ioMap: array<byte>, base: nat, startBit: nat, bitCount: nat, offset: nat,
                    destination: array<byte>, byteIndex: nat)
    requires ioMap != destination && 8 * base + startBit + bitCount <= 8 * ioMap.Length
    requires byteIndex < destination.Length
    requires forall j :: 8 * byteIndex <= j < 8 * destination.Length ==> !BitAt(destination[..], j)
    modifies destination
    ensures forall j :: 0 <= j < 8 * destination.Length ==>
      BitAt(destination[..], j) ==
        if j / 8 == byteIndex then ChunkBit(ioMap[..], 8 * base + startBit, bitCount, offset, j)
        else BitAt(old(destination[..]), j)
  {
    ghost var (before, io) := (destination[..], ioMap[..]);
    var bit := 0;
    while bit < 8
      invariant bit <= 8
      invariant forall j :: 0 <= j < 8 * destination.Length ==>
        BitAt(destination[..], j) ==
          if 8 * byteIndex <= j < 8 * byteIndex + bit
          then ChunkBit(io, 8 * base + startBit, bitCount, offset, j) else BitAt(before, j)
    {
      var logicalBit := 8 * offset + 8 * byteIndex + bit;
      if logicalBit >= bitCount {
        break;
      }
      var mappedBit := startBit + logicalBit;
      assert BitAt(io, 8 * base + mappedBit) == Bit(ioMap[base + mappedBit / 8], mappedBit % 8);
      if Bit(ioMap[base + mappedBit / 8], mappedBit % 8) {
        ghost var d := destination[..];
        WithBitBound(destination[byteIndex], bit, true, 8);
        destination[byteIndex] := WithBit(destination[byteIndex], bit, true);
        forall j | 0 <= j < 8 * |d|
          ensures BitAt(destination[..], j) == if j == 8 * byteIndex + bit then true else BitAt(d, j)
        {
          assert destination[..] == PutBit(d, 8 * byteIndex + bit, true);
          BitAtPutBit(d, 8 * byteIndex + bit, true, j);
        }
      }
      bit := bit + 1;
    }
  }

  method ReadPackedPdoChunk(ioMap: array<byte>, base: nat, mappedSize: nat, startBit: nat, bitCount: nat,
                            offset: nat, destination: array<byte>) returns (ok: bool)
    requires ioMap != destination && base + mappedSize <= ioMap.Length
    modifies destination
    ensures ok <==>
      && startBit <= 7 && mappedSize == MappedByteLength(bitCount, startBit)
      && offset + destination.Length <= ImageByteLength(bitCount)
    ensures ok && bitCount > 0 ==>
      destination[..] == ReadChunk(ioMap[..], 8 * base + startBit, bitCount, offset, destination.Length)
    ensures !ok ==> destination[..] == old(destination[..])
  {
    var imageBytes := ImageByteLength(bitCount);
    if startBit > 7 || mappedSize != MappedByteLength(bitCount, startBit) || offset > imageBytes
       || destination.Length > imageBytes - offset {
      return false;
    }
    if bitCount == 0 {
      return true;
    }
    if startBit == 0 {
      CopyAlignedChunk(ioMap, base, bitCount, offset, destination);
    } else {
      GatherChunk(ioMap, base, startBit, bitCount, offset, destination);
    }
    ok := true;
  }

  lemma WriteByBits(before: seq<byte>, first: nat, image: seq<byte>, bitCount: nat, after: seq<byte>)
    requires |after| == |before| && first + bitCount <= 8 * |before| && bitCount <= 8 * |image|
    requires forall j :: 0 <= j < 8 * |after| ==>
      BitAt(after, j) == if first <= j < first + bitCount then BitAt(image, j - first) else BitAt(before, j)
    ensures after == WriteImage(before, first, image, bitCount)
  {
    var written := WriteImage(before, first, image, bitCount);
    forall j | 0 <= j < 8 * |after| ensures BitAt(after, j) == BitAt(written, j) {
      BitAtCopyBits(before, first, image, 0, bitCount, j);
    }
    SameBitStrings(after, written);
  }

  /** Writes `image` over the SubDevice's own bits; the zero image is the zeroing loop. */
  method ScatterImage(ioMap: array<byte>, base: nat, startBit: nat, bitCount: nat, image: seq<byte>)
    requires 8 * base + startBit + bitCount <= 8 * ioMap.Length && bitCount <= 8 * |image|
    modifies ioMap
    ensures ioMap[..] == WriteImage(old(ioMap[..]), 8 * base + startBit, image, bitCount)
  {
    ghost var before := ioMap[..];
    for logicalBit := 0 to bitCount
      invariant ioMap[..] == CopyBits(before, 8 * base + startBit, image, 0, logicalBit)
    {
      var mappedBit := startBit + logicalBit;
      var index := base + mappedBit / 8;
      assert (8 * base + startBit + logicalBit) / 8 == index;
      var value := Bit(image[logicalBit / 8], logicalBit % 8);
      WithBitBound(ioMap[index], mappedBit % 8, value, 8);
      ioMap[index] := WithBit(ioMap[index], mappedBit % 8, value);
    }
  }

  /** The fast path for a whole number of aligned bytes. */
  method CopyAlignedImage(ioMap: array<byte>, base: nat, bitCount: nat, image: seq<byte>)
    requires bitCount % 8 == 0 && |image| == bitCount / 8 && base + |image| <= ioMap.Length
    modifies ioMap
    ensures ioMap[..] == WriteImage(old(ioMap[..]), 8 * base, image, bitCount)
  {
    ghost var before := ioMap[..];
    for i := 0 to |image|
      invariant forall m :: 0 <= m < ioMap.Length ==>
        ioMap[m] == if base <= m < base + i then image[m - base] else before[m]
    {
      ioMap[base + i] := image[i];
    }
    WriteByBits(before, 8 * base, image, bitCount, ioMap[..]);
  }

  method WritePackedPdoImage(ioMap: array<byte>, base: nat, mappedSize: nat, startBit: nat, bitCount: nat,
                             image: seq<byte>) returns (ok: bool)
    requires base + mappedSize <= ioMap.Length
    modifies ioMap
    ensures ok <==>
      startBit <= 7 && mappedSize == MappedByteLength(bitCount, startBit) && CanonicalPadding(bitCount, image)
    ensures ok && bitCount > 0 ==>
      ioMap[..] == WriteImage(old(ioMap[..]), 8 * base + startBit, image, bitCount)
    ensures !ok || bitCount == 0 ==> ioMap[..] == old(ioMap[..])
  {
    if startBit > 7 || mappedSize != MappedByteLength(bitCount, startBit) || !CanonicalPadding(bitCount, image) {
      return false;
    }
    if startBit == 0 && bitCount % 8 == 0 {
      CopyAlignedImage(ioMap, base, bitCount, image);
    } else if bitCount > 0 {
      ScatterImage(ioMap, base, startBit, bitCount, image);
    }
    ok := true;
  }

  method ZeroPackedPdoImage(ioMap: array<byte>, base: nat, mappedSize: nat, startBit: nat, bitCount: nat)
    returns (ok: bool)
    requires base + mappedSize <= ioMap.Length
    modifies ioMap
    ensures ok <==> startBit <= 7 && mappedSize == MappedByteLength(bitCount, startBit)
    ensures ok && bitCount > 0 ==>
      ioMap[..] == ZeroImage(old(ioMap[..]), 8 * base + startBit, bitCount)
    ensures !ok || bitCount == 0 ==> ioMap[..] == old(ioMap[..])
  {
    if startBit > 7 || mappedSize != MappedByteLength(bitCount, startBit) {
      return false;
    }
    if startBit == 0 && bitCount % 8 == 0 {
      ghost var before := ioMap[..];
      for i := 0 to mappedSize
        invariant forall m :: 0 <= m < ioMap.Length ==>
          ioMap[m] == if base <= m < base + i then 0 else before[m]
      {
        ioMap[base + i] := 0;
      }
      WriteByBits(before, 8 * base, Zeros(mappedSize), bitCount, ioMap[..]);
    } else if bitCount > 0 {
      ScatterImage(ioMap, base, startBit, bitCount, Zeros(ImageByteLength(bitCount)));
    }
    ok := true;
  }
}
