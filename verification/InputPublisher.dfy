/** Publishing one snapshot of a bus's inputs as a run of chunks. */
module InputPublisher {
  import opened Common
  import opened Bytes
  import opened PackedPdo
  import opened PackedPdoLoops
  import opened Payloads
  import opened SpscQueues

  const MAXIMUM_CHUNKS: nat := 128

  /** What the master library reports of a SubDevice; `inputs` is a byte offset from the start of the IO map. */
  datatype SubDevice = SubDevice(inputs: Option<int>, bitCount: nat, startBit: nat)
  {
    /** Checked when the bus is configured. */
    predicate Valid() { bitCount <= MAX_U16 && startBit <= 7 }

    function Bytes(): nat { ImageByteLength(bitCount) }

    function Mapped(): nat { MappedByteLength(bitCount, startBit) }

    /** The SubDevice has inputs and they lie within the IO map. */
    predicate Readable(ioSize: nat) {
      Bytes() != 0 && inputs.Some? && 0 <= inputs.value && inputs.value + Mapped() <= ioSize
    }

    function Chunks(): nat { (Bytes() + MAXIMUM_PDO_CHUNK - 1) / MAXIMUM_PDO_CHUNK }
  }

  datatype InputChunk = InputChunk(header: PdoInput, index: nat, count: nat)

  /** A bus cycle: the layout, the IO map and the tags that its snapshot carries. */
  datatype Cycle = Cycle(bus: nat, subs: seq<SubDevice>, io: seq<byte>, epoch: nat, sequence: nat)
  {
    predicate Valid() {
      && bus <= MAX_U16 && |subs| < MAX_U16 && 0 < epoch <= MAX_U64 && 0 < sequence <= MAX_U64
      && forall i :: 0 <= i < |subs| ==> subs[i].Valid()
    }

    predicate Readable(i: nat)
      requires i < |subs|
    {
      subs[i].Readable(|io|)
    }

    /** The process image of SubDevice `i + 1` in this cycle. */
    function ImageOf(i: nat): (r: seq<byte>)
      requires Valid() && i < |subs| && Readable(i)
      ensures |r| == subs[i].Bytes()
    {
      ReadImage(io, 8 * subs[i].inputs.value + subs[i].startBit, subs[i].bitCount)
    }

    /** Slice `c` of that image. */
    function ChunkOf(i: nat, c: nat): (p: PdoInput)
      requires Valid() && i < |subs| && Readable(i) && c < subs[i].Chunks()
      ensures p.Fits() && p.Valid()
    {
      var offset := c * MAXIMUM_PDO_CHUNK;
      var length := Min(MAXIMUM_PDO_CHUNK, subs[i].Bytes() - offset);
      PdoInput(bus, i + 1, offset, subs[i].Bytes(), epoch, sequence, ImageOf(i)[offset .. offset + length])
    }

    function SubChunks(i: nat): (r: seq<PdoInput>)
      requires Valid() && i < |subs|
    {
      if Readable(i) then seq(subs[i].Chunks(), c requires 0 <= c < subs[i].Chunks() => ChunkOf(i, c)) else []
    }

    /** The chunks of the first `n` SubDevices. */
    function ChunksTo(n: nat): (r: seq<PdoInput>)
      requires Valid() && n <= |subs|
    {
      if n == 0 then [] else ChunksTo(n - 1) + SubChunks(n - 1)
    }

    function Chunks(): seq<PdoInput>
      requires Valid()
    {
      ChunksTo(|subs|)
    }

    /** The snapshot: all chunks, numbered. */
    function Snapshot(): (r: seq<InputChunk>)
      requires Valid()
      ensures |r| == |Chunks()|
    {
      var all := Chunks();
      seq(|all|, k requires 0 <= k < |all| => InputChunk(all[k], k, |all|))
    }
  }

  // ---------------------------------------------------------------- the code

  datatype InputRange = InputRange(sub: nat, firstOrdinal: nat, chunkCount: nat)

  predicate Within(r: InputRange, ordinal: nat) { r.firstOrdinal <= ordinal < r.firstOrdinal + r.chunkCount }

  ghost predicate Found(ranges: seq<InputRange>, ordinal: nat) {
    exists r :: 0 <= r < |ranges| && Within(ranges[r], ordinal)
  }

  /** The range names the chunks of its SubDevice among `all`. */
  ghost predicate RangeOk(c: Cycle, r: InputRange, all: seq<PdoInput>)
    requires c.Valid()
  {
    && 1 <= r.sub <= |c.subs| && c.Readable(r.sub - 1) && r.chunkCount == |c.SubChunks(r.sub - 1)|
    && r.firstOrdinal + r.chunkCount <= |all|
    && all[r.firstOrdinal .. r.firstOrdinal + r.chunkCount] == c.SubChunks(r.sub - 1)
  }

  /** The ranges tile the ordinals of `all`. */
  ghost predicate Tiles(c: Cycle, ranges: seq<InputRange>, all: seq<PdoInput>)
    requires c.Valid()
  {
    && (forall r :: 0 <= r < |ranges| ==> RangeOk(c, ranges[r], all))
    && (forall k :: 0 <= k < |all| ==> Found(ranges, k))
  }

  lemma RangeStays(c: Cycle, r: InputRange, all: seq<PdoInput>, more: seq<PdoInput>)
    requires c.Valid() && RangeOk(c, r, all)
    ensures RangeOk(c, r, all + more)
  {
    hide Cycle.SubChunks;
    assert (all + more)[r.firstOrdinal .. r.firstOrdinal + r.chunkCount]
        == all[r.firstOrdinal .. r.firstOrdinal + r.chunkCount];
  }

  lemma TilesAdd(c: Cycle, ranges: seq<InputRange>, all: seq<PdoInput>, added: InputRange)
    requires c.Valid() && Tiles(c, ranges, all) && 1 <= added.sub <= |c.subs|
    requires RangeOk(c, added, all + c.SubChunks(added.sub - 1))
    requires added.firstOrdinal == |all|
    ensures Tiles(c, ranges + [added], all + c.SubChunks(added.sub - 1))
  {
    hide Cycle.SubChunks, RangeOk;
    var (new_, rs) := (all + c.SubChunks(added.sub - 1), ranges + [added]);
    forall r | 0 <= r < |rs| ensures RangeOk(c, rs[r], new_) {
      if r < |ranges| {
        RangeStays(c, ranges[r], all, c.SubChunks(added.sub - 1));
      }
    }
    forall k | 0 <= k < |new_| ensures Found(rs, k) {
      if k < |all| {
        assert Found(ranges, k);
        var r :| 0 <= r < |ranges| && Within(ranges[r], k);
        assert rs[r] == ranges[r];
      } else {
        AddedCovers(c, added, new_);
        assert Within(rs[|ranges|], k);
      }
    }
  }

  lemma AddedCovers(c: Cycle, added: InputRange, all: seq<PdoInput>)
    requires c.Valid() && RangeOk(c, added, all)
    ensures 1 <= added.sub <= |c.subs| && added.chunkCount == |c.SubChunks(added.sub - 1)|
  {
  }

  lemma AddedOk(c: Cycle, n: nat)
    requires c.Valid() && n < |c.subs| && c.Readable(n)
    ensures RangeOk(c, InputRange(n + 1, |c.ChunksTo(n)|, c.subs[n].Chunks()), c.ChunksTo(n) + c.SubChunks(n))
  {
    hide Cycle.ChunkOf, Cycle.ChunksTo;
    var all := c.ChunksTo(n) + c.SubChunks(n);
    assert all[|c.ChunksTo(n)|..] == c.SubChunks(n);
    assert all[|c.ChunksTo(n)| .. |c.ChunksTo(n)| + |c.SubChunks(n)|] == c.SubChunks(n);
  }

  lemma NothingToAdd(c: Cycle, n: nat)
    requires c.Valid() && n < |c.subs| && !c.Readable(n)
    ensures c.ChunksTo(n + 1) == c.ChunksTo(n)
  {
    assert c.ChunksTo(n) + [] == c.ChunksTo(n);
  }

  /** The ranges after one more SubDevice. */
  function Extended(c: Cycle, ranges: seq<InputRange>, n: nat): seq<InputRange>
    requires c.Valid() && n < |c.subs|
  {
    if c.Readable(n) then ranges + [InputRange(n + 1, |c.ChunksTo(n)|, c.subs[n].Chunks())] else ranges
  }

  lemma ExtendedTiles(c: Cycle, ranges: seq<InputRange>, n: nat)
    requires c.Valid() && n < |c.subs| && Tiles(c, ranges, c.ChunksTo(n))
    ensures Tiles(c, Extended(c, ranges, n), c.ChunksTo(n + 1))
    ensures |c.ChunksTo(n + 1)| == |c.ChunksTo(n)| + if c.Readable(n) then c.subs[n].Chunks() else 0
  {
    hide Tiles, Cycle.SubChunks, RangeOk;
    if c.Readable(n) {
      AddedOk(c, n);
      var added := InputRange(n + 1, |c.ChunksTo(n)|, c.subs[n].Chunks());
      AddedCovers(c, added, c.ChunksTo(n) + c.SubChunks(n));
      TilesAdd(c, ranges, c.ChunksTo(n), added);
    } else {
      NothingToAdd(c, n);
    }
  }

  lemma NoRanges(c: Cycle)
    requires c.Valid()
    ensures c.ChunksTo(0) == [] && Tiles(c, [], c.ChunksTo(0))
  {
  }

  lemma SmallModulus(k: nat, n: nat)
    requires k < n
    ensures k % n == k && n % n == 0
  {
  }

  /** What a range says about one ordinal. */
  lemma ChunkAt(c: Cycle, r: InputRange, all: seq<PdoInput>, ordinal: nat)
    requires c.Valid() && RangeOk(c, r, all) && Within(r, ordinal)
    ensures 1 <= r.sub <= |c.subs| && c.Readable(r.sub - 1) && ordinal - r.firstOrdinal < c.subs[r.sub - 1].Chunks()
    ensures ordinal < |all| && all[ordinal] == c.ChunkOf(r.sub - 1, ordinal - r.firstOrdinal)
  {
    hide Cycle.ChunkOf;
    assert all[ordinal] == all[r.firstOrdinal .. r.firstOrdinal + r.chunkCount][ordinal - r.firstOrdinal];
  }

  /** The range that holds an ordinal. */
  method FindRange(ranges: seq<InputRange>, ordinal: nat) returns (r: nat)
    ensures r <= |ranges| && (r < |ranges| ==> Within(ranges[r], ordinal))
    ensures r == |ranges| ==> !Found(ranges, ordinal)
  {
    r := 0;
    while r < |ranges| && !Within(ranges[r], ordinal)
      invariant r <= |ranges| && forall i :: 0 <= i < r ==> !Within(ranges[i], ordinal)
    {
      r := r + 1;
    }
  }

  class Publisher {
    const bus: nat
    const subs: seq<SubDevice>
    const ioMap: array<byte>
    const inputChunks: SpscQueue<InputChunk>
    var inputChunkCursor: nat

    ghost predicate Valid()
      reads this, ioMap, inputChunks, inputChunks.values
    {
      && bus <= MAX_U16 && |subs| < MAX_U16 && (forall i :: 0 <= i < |subs| ==> subs[i].Valid())
      && inputChunks.Valid() && inputChunkCursor == 0
    }

    function CycleNow(epoch: nat, sequence: nat): Cycle
      reads ioMap
    {
      Cycle(bus, subs, ioMap[..], epoch, sequence)
    }

    constructor (bus: nat, subs: seq<SubDevice>, ioMap: array<byte>, capacity: nat)
      requires bus <= MAX_U16 && |subs| < MAX_U16 && (forall i :: 0 <= i < |subs| ==> subs[i].Valid()) && capacity >= 2
      ensures Valid() && this.ioMap == ioMap && inputChunks.View().Contents() == []
    {
      this.bus, this.subs, this.ioMap := bus, subs, ioMap;
      inputChunks := new SpscQueue(capacity);
      inputChunkCursor := 0;
    }

    method CollectRanges(ghost c: Cycle) returns (ranges: seq<InputRange>, totalChunks: nat)
      requires c.Valid() && c.subs == subs && |c.io| == ioMap.Length
      ensures Tiles(c, ranges, c.Chunks()) && totalChunks == |c.Chunks()|
    {
      hide Cycle.ChunksTo, Tiles, SubDevice.Chunks, SubDevice.Readable, SubDevice.Valid;
      NoRanges(c);
      ranges, totalChunks := [], 0;
      for i := 0 to |subs|
        invariant Tiles(c, ranges, c.ChunksTo(i)) && totalChunks == |c.ChunksTo(i)|
      {
        ExtendedTiles(c, ranges, i);
        if subs[i].Readable(ioMap.Length) {
          var chunks := subs[i].Chunks();
          ranges, totalChunks := ranges + [InputRange(i + 1, totalChunks, chunks)], totalChunks + chunks;
        }
      }
    }

    /** Read chunk `within` of SubDevice `sub` out of the IO map. */
    method ReadChunkOf(sub: nat, within: nat, epoch: nat, sequence: nat) returns (ok: bool, p: PdoInput)
      requires Valid() && CycleNow(epoch, sequence).Valid()
      requires 1 <= sub <= |subs| && CycleNow(epoch, sequence).Readable(sub - 1) && within < subs[sub - 1].Chunks()
      ensures ok && p == CycleNow(epoch, sequence).ChunkOf(sub - 1, within)
    {
      var s := subs[sub - 1];
      var offset := within * MAXIMUM_PDO_CHUNK;
      var length := Min(MAXIMUM_PDO_CHUNK, s.Bytes() - offset);
      var data := new byte[length];
      ok := ReadPackedPdoChunk(ioMap, s.inputs.value, s.Mapped(), s.startBit, s.bitCount, offset, data);
      ChunkIsSlice(ioMap[..], 8 * s.inputs.value + s.startBit, s.bitCount, offset, length);
      p := PdoInput(bus, sub, offset, s.Bytes(), epoch, sequence, data[..]);
    }

    /** Find the range of an ordinal, read its chunk and push it. */
    method PushOrdinal(ghost c: Cycle, ranges: seq<InputRange>, ordinal: nat, count: nat, totalChunks: nat,
                       epoch: nat, sequence: nat)
      requires Valid() && c.Valid() && c == CycleNow(epoch, sequence)
      requires Tiles(c, ranges, c.Chunks()) && ordinal < |c.Chunks()|
      requires |inputChunks.View().Contents()| < inputChunks.values.Length - 1
      modifies inputChunks`write, inputChunks.values
      ensures Valid() && c == CycleNow(epoch, sequence)
      ensures inputChunks.View().Contents()
           == old(inputChunks.View().Contents()) + [InputChunk(c.Chunks()[ordinal], count, totalChunks)]
    {
      hide Cycle.ChunksTo, Cycle.ChunkOf, Ring.Contents, RangeOk, SubDevice.Valid, SubDevice.Chunks, SubDevice.Readable;
      var r := FindRange(ranges, ordinal);
      if r == |ranges| {
        assert false;
      }
      ChunkAt(c, ranges[r], c.Chunks(), ordinal);
      var ok, p := ReadChunkOf(ranges[r].sub, ordinal - ranges[r].firstOrdinal, epoch, sequence);
      if !ok {
        assert false;
      }
      var pushed := inputChunks.TryPush(InputChunk(p, count, totalChunks));
      if !pushed {
        assert false;
      }
    }

    /** All of the snapshot enters the queue, or none of it. */
    method PublishInputs(epoch: nat, sequence: nat)
      requires Valid() && 0 < epoch <= MAX_U64 && 0 < sequence <= MAX_U64
      modifies this`inputChunkCursor, inputChunks`write, inputChunks.values
      ensures Valid()
      ensures
        var (queue, chunks) := (old(inputChunks.View().Contents()), CycleNow(epoch, sequence).Snapshot());
        inputChunks.View().Contents() ==
          if |chunks| <= Min(MAXIMUM_CHUNKS, inputChunks.values.Length - 1 - |queue|) then queue + chunks else queue
    {
      ghost var c := CycleNow(epoch, sequence);
      ghost var queue := inputChunks.View().Contents();
      ghost var chunks := c.Snapshot();
      hide Cycle.ChunksTo, Cycle.ChunkOf, Tiles, Ring.Contents;
      var ranges, totalChunks := CollectRanges(c);
      if totalChunks == 0 {
        inputChunkCursor := 0;
        return;
      }
      var available := inputChunks.AvailableToWrite();
      if totalChunks > MAXIMUM_CHUNKS || available < totalChunks {
        return;
      }
      var published := 0;
      for count := 0 to totalChunks
        invariant Valid() && published == count && CycleNow(epoch, sequence) == c
        invariant inputChunks.View().Contents() == queue + chunks[..count]
      {
        SmallModulus(count, totalChunks);
        var ordinal := (inputChunkCursor + count) % totalChunks;
        PushOrdinal(c, ranges, ordinal, count, totalChunks, epoch, sequence);
        assert chunks[..count + 1] == chunks[..count] + [chunks[count]];
        published := published + 1;
      }
      assert chunks[..totalChunks] == chunks;
      SmallModulus(0, totalChunks);
      inputChunkCursor := (inputChunkCursor + published) % totalChunks;
    }
  }
}
