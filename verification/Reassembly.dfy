/**
 Putting the chunks of a process image back together.

 Shared by the C++ and the Java client: a buffer with a record of which bytes have arrived. `World`
 names the image that the daemon published under each key; a chunk is true to the world when it is a
 slice of that image.
 */
module Reassembly {
  import opened Bytes
  import opened Payloads

  datatype Key = Key(bus: nat, sub: nat, epoch: nat, sequence: nat)

  type World = map<Key, seq<byte>>

  function KeyOf(p: PdoInput): Key { Key(p.bus, p.sub, p.epoch, p.sequence) }

  /** The chunk is a slice of `image`. */
  predicate SliceOf(image: seq<byte>, p: PdoInput) {
    |image| == p.totalSize && p.offset + |p.data| <= |image| && p.data == image[p.offset .. p.offset + |p.data|]
  }

  /** The chunk is a slice of the image published under its key. */
  predicate TrueTo(w: World, p: PdoInput) {
    KeyOf(p) in w && SliceOf(w[KeyOf(p)], p)
  }

  datatype Buffer = Buffer(data: seq<byte>, received: seq<bool>)
  {
    predicate Shaped() { |received| == |data| }
  }

  function EmptyBuffer(size: nat): (b: Buffer)
    ensures b.Shaped() && |b.data| == size && forall j :: 0 <= j < size ==> !b.received[j]
  {
    Buffer(seq(size, i => 0), seq(size, i => false))
  }

  predicate FitsIn(b: Buffer, p: PdoInput) {
    b.Shaped() && p.offset + |p.data| <= |b.data|
  }

  /** A byte that has already arrived comes again with a different value. */
  predicate ConflictAt(b: Buffer, p: PdoInput, i: nat)
    requires FitsIn(b, p) && i < |p.data|
  {
    b.received[p.offset + i] && b.data[p.offset + i] != p.data[i]
  }

  predicate Conflict(b: Buffer, p: PdoInput)
    requires FitsIn(b, p)
  {
    exists i :: 0 <= i < |p.data| && ConflictAt(b, p, i)
  }

  /** The buffer with the first `n` bytes of the chunk written. */
  function Merged(b: Buffer, p: PdoInput, n: nat): (r: Buffer)
    requires FitsIn(b, p) && n <= |p.data|
    ensures r.Shaped() && |r.data| == |b.data|
  {
    var end := p.offset + n;
    Buffer(b.data[..p.offset] + p.data[..n] + b.data[end..],
           b.received[..p.offset] + seq(n, i => true) + b.received[end..])
  }

  predicate Complete(b: Buffer) {
    forall j :: 0 <= j < |b.received| ==> b.received[j]
  }

  function CountTrue(s: seq<bool>): (n: nat)
    ensures n <= |s|
  {
    if s == [] then 0 else CountTrue(s[..|s| - 1]) + if s[|s| - 1] then 1 else 0
  }

  lemma {:induction false} CountIsComplete(s: seq<bool>)
    ensures CountTrue(s) == |s| <==> forall j :: 0 <= j < |s| ==> s[j]
  {
    if s != [] {
      var t := s[..|s| - 1];
      CountIsComplete(t);
      if forall j :: 0 <= j < |s| ==> s[j] {
        assert forall j :: 0 <= j < |t| ==> t[j] == s[j];
      }
      if CountTrue(s) == |s| {
        forall j | 0 <= j < |s| ensures s[j] {
          if j < |t| {
            assert t[j];
          }
        }
      }
    }
  }

  lemma CountedComplete(b: Buffer)
    requires b.Shaped()
    ensures CountTrue(b.received) == |b.data| <==> Complete(b)
  {
    CountIsComplete(b.received);
  }

  lemma {:induction false} CountNone(s: seq<bool>)
    requires forall j :: 0 <= j < |s| ==> !s[j]
    ensures CountTrue(s) == 0
  {
    if s != [] {
      CountNone(s[..|s| - 1]);
    }
  }

  lemma {:induction false} CountUpdate(s: seq<bool>, i: nat)
    requires i < |s|
    ensures CountTrue(s[i := true]) == CountTrue(s) + if s[i] then 0 else 1
  {
    var (t, last) := (s[..|s| - 1], |s| - 1);
    if i < last {
      CountUpdate(t, i);
      assert s[i := true][..last] == t[i := true];
    } else {
      assert s[i := true][..last] == t;
    }
  }

  /** One more byte of the chunk, as the loop of either client writes it. */
  lemma MergeOneMore(b: Buffer, p: PdoInput, n: nat)
    requires FitsIn(b, p) && n < |p.data|
    ensures
      var (m, at) := (Merged(b, p, n), p.offset + n);
      && Merged(b, p, n + 1) == Buffer(m.data[at := p.data[n]], m.received[at := true])
      && m.data[at] == b.data[at] && m.received[at] == b.received[at]
  {
  }

  /** The same, with the number of bytes that have arrived. */
  lemma CountOneMore(b: Buffer, p: PdoInput, n: nat)
    requires FitsIn(b, p) && n < |p.data|
    ensures
      var (m, at) := (Merged(b, p, n), p.offset + n);
      CountTrue(Merged(b, p, n + 1).received) == CountTrue(m.received) + if m.received[at] then 0 else 1
  {
    hide Merged;
    MergeOneMore(b, p, n);
    CountUpdate(Merged(b, p, n).received, p.offset + n);
  }

  lemma MergeNothing(b: Buffer, p: PdoInput)
    requires FitsIn(b, p)
    ensures Merged(b, p, 0) == b
  {
  }

  // ---------------------------------------------------------------- truth

  /** What has arrived agrees with the published image. */
  ghost predicate Agrees(image: seq<byte>, b: Buffer) {
    && b.Shaped() && |image| == |b.data|
    && forall j :: 0 <= j < |b.data| && b.received[j] ==> b.data[j] == image[j]
  }

  lemma TrueChunksNeverConflict(image: seq<byte>, b: Buffer, p: PdoInput)
    requires Agrees(image, b) && SliceOf(image, p)
    ensures FitsIn(b, p) && !Conflict(b, p) && Agrees(image, Merged(b, p, |p.data|))
  {
  }

  lemma CompleteIsExact(image: seq<byte>, b: Buffer)
    requires Agrees(image, b) && Complete(b)
    ensures b.data == image
  {
  }

  // ---------------------------------------------------------------- any order, any overlap

  /** Some chunk among `ps` carries byte `j`. */
  ghost predicate Covered(ps: seq<PdoInput>, j: nat) {
    exists i :: 0 <= i < |ps| && ps[i].offset <= j < ps[i].offset + |ps[i].data|
  }

  ghost predicate CoversAll(ps: seq<PdoInput>, size: nat) {
    forall j :: 0 <= j < size ==> Covered(ps, j)
  }

  /** The buffer has received exactly the bytes that `ps` cover. */
  ghost predicate Holds(image: seq<byte>, ps: seq<PdoInput>, b: Buffer) {
    Agrees(image, b) && forall j :: 0 <= j < |b.data| ==> (b.received[j] <==> Covered(ps, j))
  }

  lemma CoveredSplit(ps: seq<PdoInput>, p: PdoInput, j: nat)
    ensures Covered(ps + [p], j) <==> Covered(ps, j) || p.offset <= j < p.offset + |p.data|
  {
    var qs := ps + [p];
    if Covered(ps, j) {
      var i :| 0 <= i < |ps| && ps[i].offset <= j < ps[i].offset + |ps[i].data|;
      assert qs[i] == ps[i];
    }
    if p.offset <= j < p.offset + |p.data| {
      assert qs[|ps|] == p;
    }
  }

  lemma MergedHolds(image: seq<byte>, ps: seq<PdoInput>, b: Buffer, p: PdoInput)
    requires Holds(image, ps, b) && SliceOf(image, p)
    ensures FitsIn(b, p) && Holds(image, ps + [p], Merged(b, p, |p.data|))
    ensures Complete(Merged(b, p, |p.data|)) <==> CoversAll(ps + [p], |image|)
  {
    TrueChunksNeverConflict(image, b, p);
    var m := Merged(b, p, |p.data|);
    forall j | 0 <= j < |m.data| ensures m.received[j] <==> Covered(ps + [p], j) {
      CoveredSplit(ps, p, j);
    }
  }

  /** All chunks belong to one image and are slices of it. */
  ghost predicate OneImage(key: Key, image: seq<byte>, ps: seq<PdoInput>) {
    forall i :: 0 <= i < |ps| ==> ps[i].Valid() && KeyOf(ps[i]) == key && SliceOf(image, ps[i])
  }

  lemma CoverageGrows(ps: seq<PdoInput>, p: PdoInput, size: nat)
    requires CoversAll(ps, size)
    ensures CoversAll(ps + [p], size)
  {
    forall j | 0 <= j < size ensures Covered(ps + [p], j) {
      CoveredSplit(ps, p, j);
    }
  }
}
