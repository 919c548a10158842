/**
 The images of the output transition system are the bits of the IO map.

 SubDevices occupy disjoint bit ranges; under that one assumption about the mapper, the in-place
 loops do to the bits exactly what the transition system does to its slots.
 */
module OutputImages {
  import opened Common
  import opened Bytes
  import opened PackedPdo
  import opened PackedPdoLoops
  import opened OutputModel

  /** Where the outputs of one SubDevice lie: first mapped byte, start bit, number of bits. */
  datatype Range = Range(base: nat, startBit: nat, bits: nat)
  {
    function First(): nat { 8 * base + startBit }
  }

  ghost predicate ValidLayout(layout: seq<Range>, size: nat) {
    && (forall i :: 0 <= i < |layout| ==>
          layout[i].startBit <= 7 && layout[i].First() + layout[i].bits <= 8 * size)
    && (forall i, j :: 0 <= i < j < |layout| ==>
          Disjoint(layout[i].First(), layout[i].bits, layout[j].First(), layout[j].bits))
  }

  function Content(image: Image, bits: nat): seq<byte> {
    match image
    case Zero => Zeros(ImageByteLength(bits))
    case Written(c) => c.data
  }

  ghost predicate Represents(io: seq<byte>, layout: seq<Range>, slots: seq<Slot>)
    requires ValidLayout(layout, |io|)
  {
    && |slots| == |layout|
    && forall i :: 0 <= i < |slots| ==>
         && slots[i].bits == layout[i].bits
         && ReadImage(io, layout[i].First(), layout[i].bits) == Content(slots[i].image, slots[i].bits)
  }

  /** The layout is that of the slots. */
  ghost predicate Fitted(io: seq<byte>, layout: seq<Range>, slots: seq<Slot>) {
    && ValidLayout(layout, |io|) && |slots| == |layout|
    && forall i :: 0 <= i < |slots| ==> slots[i].bits == layout[i].bits
  }

  lemma OthersUnchanged(io: seq<byte>, layout: seq<Range>, i: nat, image: seq<byte>, j: nat)
    requires ValidLayout(layout, |io|) && i < |layout| && j < |layout| && i != j
    requires layout[i].bits <= 8 * |image|
    ensures ReadImage(WriteImage(io, layout[i].First(), image, layout[i].bits), layout[j].First(), layout[j].bits)
         == ReadImage(io, layout[j].First(), layout[j].bits)
  {
    hide ReadImage, WriteImage;
    assert Disjoint(layout[i].First(), layout[i].bits, layout[j].First(), layout[j].bits) by {
      if i < j {
      } else {
        assert Disjoint(layout[j].First(), layout[j].bits, layout[i].First(), layout[i].bits);
      }
    }
    WriteKeepsOthers(io, layout[i].First(), image, layout[i].bits, layout[j].First(), layout[j].bits);
  }

  /** Writing an admissible command to the map is applying it to the slots. */
  lemma WriteRepresentsApply(io: seq<byte>, layout: seq<Range>, slots: seq<Slot>, c: Command)
    requires ValidLayout(layout, |io|) && Represents(io, layout, slots) && Fits(slots, c)
    ensures
      var i := c.sub - 1;
      var io' := WriteImage(io, layout[i].First(), c.data, layout[i].bits);
      Represents(io', layout, slots[i := Slot(slots[i].bits, Written(c), c.accepted)])
  {
    hide ReadImage, WriteImage;
    var i := c.sub - 1;
    WriteThenRead(io, layout[i].First(), c.data, layout[i].bits);
    forall j | 0 <= j < |slots| && j != i
      ensures ReadImage(WriteImage(io, layout[i].First(), c.data, layout[i].bits), layout[j].First(), layout[j].bits)
           == ReadImage(io, layout[j].First(), layout[j].bits)
    {
      OthersUnchanged(io, layout, i, c.data, j);
    }
  }

  /** The map after the loop over the first `n` SubDevices has zeroed those marked. */
  function Zeroing(io: seq<byte>, layout: seq<Range>, marked: seq<bool>, n: nat): (r: seq<byte>)
    requires n <= |layout| == |marked|
    requires forall i :: 0 <= i < |layout| ==> layout[i].First() + layout[i].bits <= 8 * |io|
    ensures |r| == |io|
  {
    if n == 0 then io
    else
      var before := Zeroing(io, layout, marked, n - 1);
      if marked[n - 1] then ZeroImage(before, layout[n - 1].First(), layout[n - 1].bits) else before
  }

  function Every(layout: seq<Range>): (r: seq<bool>)
    ensures |r| == |layout|
  {
    seq(|layout|, i => true)
  }

  /** The SubDevices whose last command is missing, in the future or too old. */
  function Stale(slots: seq<Slot>, now: nat, timeout: nat): (r: seq<bool>)
    ensures |r| == |slots|
  {
    seq(|slots|, i requires 0 <= i < |slots| => !Within(slots[i].last, now, timeout))
  }

  /** Zeroing marked ranges zeroes exactly the marked slots. */
  lemma {:induction false} ZeroingRepresents(io: seq<byte>, layout: seq<Range>, slots: seq<Slot>, marked: seq<bool>,
                                             n: nat)
    requires ValidLayout(layout, |io|) && Represents(io, layout, slots) && n <= |layout| == |marked|
    ensures
      var zeroed := seq(|slots|, i requires 0 <= i < |slots| =>
        if i < n && marked[i] then slots[i].(image := Zero) else slots[i]);
      Represents(Zeroing(io, layout, marked, n), layout, zeroed)
  {
    hide ReadImage, ZeroImage, Disjoint;
    if n > 0 {
      ZeroingRepresents(io, layout, slots, marked, n - 1);
      var before := Zeroing(io, layout, marked, n - 1);
      var r := layout[n - 1];
      if marked[n - 1] {
        ZeroThenRead(before, r.First(), r.bits);
        forall j | 0 <= j < |slots| && j != n - 1
          ensures ReadImage(ZeroImage(before, r.First(), r.bits), layout[j].First(), layout[j].bits)
               == ReadImage(before, layout[j].First(), layout[j].bits)
        {
          ZeroKeepsOther(before, layout, n - 1, j);
        }
      }
    }
  }

  lemma ZeroKeepsOther(io: seq<byte>, layout: seq<Range>, i: nat, j: nat)
    requires ValidLayout(layout, |io|) && i < |layout| && j < |layout| && i != j
    ensures ReadImage(ZeroImage(io, layout[i].First(), layout[i].bits), layout[j].First(), layout[j].bits)
         == ReadImage(io, layout[j].First(), layout[j].bits)
  {
    OthersUnchanged(io, layout, i, Zeros(ImageByteLength(layout[i].bits)), j);
  }

  lemma ZeroRepresents(io: seq<byte>, layout: seq<Range>, slots: seq<Slot>)
    requires ValidLayout(layout, |io|) && Represents(io, layout, slots)
    ensures Represents(Zeroing(io, layout, Every(layout), |layout|), layout, ZeroSlots(slots))
  {
    hide Zeroing, ValidLayout;
    ZeroingRepresents(io, layout, slots, Every(layout), |layout|);
  }

  lemma RefreshRepresents(io: seq<byte>, layout: seq<Range>, slots: seq<Slot>, now: nat, timeout: nat)
    requires ValidLayout(layout, |io|) && Represents(io, layout, slots)
    ensures
      var after := Zeroing(io, layout, Stale(slots, now, timeout), |layout|);
      Represents(after, layout, Refreshed(slots, now, timeout))
  {
    hide Zeroing, ValidLayout;
    ZeroingRepresents(io, layout, slots, Stale(slots, now, timeout), |layout|);
  }

  /** Time stamps are no part of the map. */
  lemma StampRepresents(io: seq<byte>, layout: seq<Range>, slots: seq<Slot>, now: nat)
    requires ValidLayout(layout, |io|) && Represents(io, layout, slots)
    ensures Represents(io, layout, Stamped(slots, now))
  {
    hide ReadImage, ValidLayout;
  }

  // ---------------------------------------------------------------- the loops in place

  method ZeroMarked(ioMap: array<byte>, layout: seq<Range>, marked: seq<bool>)
    requires ValidLayout(layout, ioMap.Length) && |marked| == |layout|
    modifies ioMap
    ensures ioMap[..] == Zeroing(old(ioMap[..]), layout, marked, |layout|)
  {
    hide ZeroImage, Disjoint;
    ghost var before := ioMap[..];
    for n := 0 to |layout|
      invariant ioMap[..] == Zeroing(before, layout, marked, n)
    {
      var r := layout[n];
      if marked[n] && r.bits != 0 {
        var ok := ZeroPackedPdoImage(ioMap, r.base, MappedByteLength(r.bits, r.startBit), r.startBit, r.bits);
      } else if marked[n] {
        NothingToZero(Zeroing(before, layout, marked, n), r.First());
      }
    }
  }

  lemma NothingToZero(io: seq<byte>, first: nat)
    requires first <= 8 * |io|
    ensures ZeroImage(io, first, 0) == io
  {
  }

  method ZeroOutputs(ioMap: array<byte>, layout: seq<Range>)
    requires ValidLayout(layout, ioMap.Length)
    modifies ioMap
    ensures ioMap[..] == Zeroing(old(ioMap[..]), layout, Every(layout), |layout|)
  {
    ZeroMarked(ioMap, layout, Every(layout));
  }

  method EnforcePerSubDeviceFreshness(ioMap: array<byte>, layout: seq<Range>, slots: seq<Slot>, now: nat, timeout: nat)
    requires ValidLayout(layout, ioMap.Length) && |slots| == |layout|
    modifies ioMap
    ensures ioMap[..] == Zeroing(old(ioMap[..]), layout, Stale(slots, now, timeout), |layout|)
  {
    var stale := [];
    for i := 0 to |slots|
      invariant stale == Stale(slots, now, timeout)[..i]
    {
      var last := slots[i].last;
      stale := stale + [last == 0 || now < last || now - last > timeout];
    }
    assert stale == Stale(slots, now, timeout);
    ZeroMarked(ioMap, layout, stale);
  }

  /** The map after ApplyOutputCommands has popped one command. */
  function IoApplied(io: seq<byte>, layout: seq<Range>, w: Worker, c: Command, timeout: nat): (r: seq<byte>)
    requires Fitted(io, layout, w.slots)
    ensures |r| == |io|
  {
    if w.aPermit && c.epoch == w.aEpoch && Within(c.accepted, w.aNow, timeout) && Fits(w.slots, c)
    then WriteImage(io, layout[c.sub - 1].First(), c.data, layout[c.sub - 1].bits)
    else io
  }

  method ApplyCommand(ioMap: array<byte>, layout: seq<Range>, w: Worker, c: Command, timeout: nat)
    returns (written: bool)
    requires Fitted(ioMap[..], layout, w.slots)
    modifies ioMap
    ensures ioMap[..] == IoApplied(old(ioMap[..]), layout, w, c, timeout)
    ensures written <==> w.aPermit && c.epoch == w.aEpoch && Within(c.accepted, w.aNow, timeout) && Fits(w.slots, c)
  {
    hide WriteImage, ReadImage, Disjoint;
    if !w.aPermit || c.epoch != w.aEpoch || c.sub == 0 || c.sub > |w.slots| {
      return false;
    }
    if c.accepted == 0 || w.aNow < c.accepted || w.aNow - c.accepted > timeout {
      return false;
    }
    var r := layout[c.sub - 1];
    if WholeOutputWrite(ImageByteLength(r.bits), c.offset, |c.data|) != Ok {
      return false;
    }
    written := WritePackedPdoImage(ioMap, r.base, MappedByteLength(r.bits, r.startBit), r.startBit, r.bits, c.data);
  }

  lemma ApplyRepresents(io: seq<byte>, layout: seq<Range>, w: Worker, c: Command, timeout: nat)
    requires ValidLayout(layout, |io|) && Represents(io, layout, w.slots)
    ensures Represents(IoApplied(io, layout, w, c, timeout), layout, Applied(w, c, timeout))
  {
    if Fits(w.slots, c) {
      WriteRepresentsApply(io, layout, w.slots, c);
    }
    hide WriteImage, ReadImage, ValidLayout;
  }

  // ---------------------------------------------------------------- bits

  /** The bit of a SubDevice is the bit of the command in its slot, and clear if the slot is zero. */
  lemma BitIsCommandBit(io: seq<byte>, layout: seq<Range>, slots: seq<Slot>, i: nat, j: nat)
    requires ValidLayout(layout, |io|) && Represents(io, layout, slots) && i < |slots| && j < layout[i].bits
    ensures BitAt(io, layout[i].First() + j)
         == (slots[i].image.Written? && j < 8 * |slots[i].image.command.data| && BitAt(slots[i].image.command.data, j))
  {
    BitAtReadImage(io, layout[i].First(), layout[i].bits, j);
    if slots[i].image.Zero? {
      BitOfZeros(ImageByteLength(layout[i].bits), j);
    }
  }
}
