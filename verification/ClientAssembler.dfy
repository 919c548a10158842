/** The C++ client's bounded reassembly of input images. */
module ClientAssembler {
  import opened Common
  import opened Bytes
  import opened Payloads
  import opened Reassembly

  const MAXIMUM_ASSEMBLIES: nat := 16
  const MAXIMUM_IMAGES: nat := 32
  const MAXIMUM_ASSEMBLY_STORAGE: nat := 4 * 1024 * 1024
  const MAXIMUM_IMAGE_STORAGE: nat := 4 * 1024 * 1024

  datatype Assembly = Assembly(key: Key, buffer: Buffer, receivedBytes: nat)
  {
    function Storage(): nat { |buffer.data| + |buffer.received| }

    predicate Valid() {
      && buffer.Shaped() && receivedBytes == CountTrue(buffer.received) && !Complete(buffer)
      && |buffer.data| <= MAXIMUM_PDO_IMAGE
    }
  }

  datatype Image = Image(key: Key, data: seq<byte>)

  // ---------------------------------------------------------------- what one chunk does

  datatype State = State(assemblies: seq<Assembly>, images: seq<Image>)

  predicate SameTarget(a: Assembly, p: PdoInput) { a.key.bus == p.bus && a.key.sub == p.sub }

  predicate Current(a: Assembly, p: PdoInput) { a.key == KeyOf(p) && |a.buffer.data| == p.totalSize }

  function WithoutStale(s: seq<Assembly>, p: PdoInput): (r: seq<Assembly>)
    ensures |r| <= |s|
    ensures forall a :: a in r <==> a in s && (SameTarget(a, p) ==> Current(a, p))
  {
    if s == [] then []
    else
      var rest := WithoutStale(s[..|s| - 1], p);
      var a := s[|s| - 1];
      if SameTarget(a, p) && !Current(a, p) then rest else rest + [a]
  }

  function AssemblyStorage(s: seq<Assembly>): nat {
    if s == [] then 0 else s[0].Storage() + AssemblyStorage(s[1..])
  }

  function ImageStorage(s: seq<Image>): nat {
    if s == [] then 0 else |s[0].data| + ImageStorage(s[1..])
  }

  /** Room for `required` more bytes under `limit`, as the unsigned subtraction computes it. */
  predicate HasRoom(required: nat, storage: nat, limit: nat) { required <= limit - Min(storage, limit) }

  /** Drop the oldest assemblies until a new one fits. */
  function EvictAssemblies(s: seq<Assembly>, required: nat): (r: seq<Assembly>)
    ensures |r| <= |s| && r == s[|s| - |r|..]
    ensures |r| < MAXIMUM_ASSEMBLIES
    ensures 0 < required <= MAXIMUM_ASSEMBLY_STORAGE ==> required + AssemblyStorage(r) <= MAXIMUM_ASSEMBLY_STORAGE
  {
    if s != [] && (|s| >= MAXIMUM_ASSEMBLIES || !HasRoom(required, AssemblyStorage(s), MAXIMUM_ASSEMBLY_STORAGE))
    then EvictAssemblies(s[1..], required)
    else s
  }

  function EvictImages(s: seq<Image>, required: nat): (r: seq<Image>)
    ensures |r| <= |s| && r == s[|s| - |r|..]
    ensures |r| < MAXIMUM_IMAGES
    ensures 0 < required <= MAXIMUM_IMAGE_STORAGE ==> required + ImageStorage(r) <= MAXIMUM_IMAGE_STORAGE
  {
    if s != [] && (|s| >= MAXIMUM_IMAGES || !HasRoom(required, ImageStorage(s), MAXIMUM_IMAGE_STORAGE))
    then EvictImages(s[1..], required)
    else s
  }

  /** The first current assembly, or the length. */
  function FindCurrent(s: seq<Assembly>, p: PdoInput): (i: nat)
    ensures i <= |s| && (i < |s| ==> Current(s[i], p))
    ensures forall j :: 0 <= j < i ==> !Current(s[j], p)
  {
    if s == [] || Current(s[0], p) then 0 else 1 + FindCurrent(s[1..], p)
  }

  function Created(p: PdoInput): Assembly { Assembly(KeyOf(p), EmptyBuffer(p.totalSize), 0) }

  /** The assemblies with one for this chunk at the returned position. */
  function Opened(s: seq<Assembly>, p: PdoInput): (r: (seq<Assembly>, nat))
    ensures r.1 < |r.0| && Current(r.0[r.1], p)
  {
    var kept := WithoutStale(s, p);
    var i := FindCurrent(kept, p);
    if i < |kept| then (kept, i)
    else
      var room := EvictAssemblies(kept, 2 * p.totalSize);
      (room + [Created(p)], |room|)
  }

  function Without<T>(s: seq<T>, i: nat): seq<T>
    requires i < |s|
  {
    s[..i] + s[i + 1..]
  }

  function Assembled(s: State, p: PdoInput): State
    requires AllValid(s.assemblies) && p.Valid()
  {
    var (open, at) := Opened(s.assemblies, p);
    var b := open[at].buffer;
    if Conflict(b, p) then s.(assemblies := Without(open, at))
    else
      var m := Merged(b, p, |p.data|);
      if !Complete(m)
      then s.(assemblies := open[at := Assembly(KeyOf(p), m, CountTrue(m.received))])
      else State(Without(open, at), EvictImages(s.images, p.totalSize) + [Image(KeyOf(p), m.data)])
  }

  // ---------------------------------------------------------------- bookkeeping

  predicate AllValid(s: seq<Assembly>) {
    forall i :: 0 <= i < |s| ==> s[i].Valid()
  }

  predicate Apart(a: Assembly, b: Assembly) { a.key.bus != b.key.bus || a.key.sub != b.key.sub }

  /** One assembly for each SubDevice. */
  predicate OnePerTarget(s: seq<Assembly>) {
    forall i, j :: 0 <= i < j < |s| ==> Apart(s[i], s[j])
  }

  lemma KeptValid(s: seq<Assembly>, p: PdoInput)
    requires AllValid(s)
    ensures AllValid(WithoutStale(s, p))
  {
    hide Assembly.Valid;
    var kept := WithoutStale(s, p);
    forall i | 0 <= i < |kept| ensures kept[i].Valid() {
      assert kept[i] in s;
    }
  }

  lemma CreatedValid(p: PdoInput)
    requires p.Valid()
    ensures Created(p).Valid()
  {
    CountNone(Created(p).buffer.received);
    assert !Created(p).buffer.received[0];
  }

  lemma OpenedValid(s: seq<Assembly>, p: PdoInput)
    requires AllValid(s) && p.Valid()
    ensures AllValid(Opened(s, p).0)
  {
    hide Assembly.Valid, EmptyBuffer, WithoutStale, FindCurrent, EvictAssemblies, Created;
    KeptValid(s, p);
    CreatedValid(p);
  }

  lemma {:induction false} StorageAppend(s: seq<Assembly>, a: Assembly)
    ensures AssemblyStorage(s + [a]) == AssemblyStorage(s) + a.Storage()
  {
    if s != [] {
      StorageAppend(s[1..], a);
      assert (s + [a])[1..] == s[1..] + [a];
    }
  }

  lemma {:induction false} ImageStorageAppend(s: seq<Image>, a: Image)
    ensures ImageStorage(s + [a]) == ImageStorage(s) + |a.data|
  {
    if s != [] {
      ImageStorageAppend(s[1..], a);
      assert (s + [a])[1..] == s[1..] + [a];
    }
  }

  lemma {:induction false} StorageWithout(s: seq<Assembly>, i: nat)
    requires i < |s|
    ensures AssemblyStorage(s) == AssemblyStorage(Without(s, i)) + s[i].Storage()
  {
    if i == 0 {
      assert Without(s, 0) == s[1..];
    } else {
      StorageWithout(s[1..], i - 1);
      assert Without(s, i)[1..] == Without(s[1..], i - 1);
    }
  }

  lemma {:induction false} StorageReplace(s: seq<Assembly>, i: nat, a: Assembly)
    requires i < |s| && a.Storage() == s[i].Storage()
    ensures AssemblyStorage(s[i := a]) == AssemblyStorage(s)
  {
    if i > 0 {
      StorageReplace(s[1..], i - 1, a);
      assert s[i := a][1..] == s[1..][i - 1 := a];
    }
  }

  lemma {:induction false} StaleRemovalShrinks(s: seq<Assembly>, p: PdoInput)
    requires OnePerTarget(s)
    ensures OnePerTarget(WithoutStale(s, p)) && AssemblyStorage(WithoutStale(s, p)) <= AssemblyStorage(s)
  {
    if s != [] {
      var (front, a) := (s[..|s| - 1], s[|s| - 1]);
      StaleRemovalShrinks(front, p);
      StorageAppend(front, a);
      assert s == front + [a];
      var rest := WithoutStale(front, p);
      StorageAppend(rest, a);
      forall i | 0 <= i < |rest| ensures Apart(rest[i], a) {
        assert rest[i] in front;
      }
    }
  }

  /** Everything the class promises between calls. */
  predicate Bounded(s: State) {
    && AllValid(s.assemblies) && OnePerTarget(s.assemblies)
    && |s.assemblies| <= MAXIMUM_ASSEMBLIES && AssemblyStorage(s.assemblies) <= MAXIMUM_ASSEMBLY_STORAGE
    && |s.images| <= MAXIMUM_IMAGES && ImageStorage(s.images) <= MAXIMUM_IMAGE_STORAGE
  }

  lemma OpenedDistinct(s: seq<Assembly>, p: PdoInput)
    requires OnePerTarget(s)
    ensures OnePerTarget(Opened(s, p).0)
  {
    hide Assembly.Valid, EmptyBuffer, AssemblyStorage, EvictAssemblies, WithoutStale, FindCurrent;
    StaleRemovalShrinks(s, p);
    var kept := WithoutStale(s, p);
    if FindCurrent(kept, p) == |kept| {
      forall j | 0 <= j < |kept| ensures Apart(kept[j], Created(p)) {
        assert kept[j] in kept && !Current(kept[j], p);
      }
    }
  }

  lemma OpenedSmall(s: seq<Assembly>, p: PdoInput)
    requires OnePerTarget(s) && p.Valid()
    requires |s| <= MAXIMUM_ASSEMBLIES && AssemblyStorage(s) <= MAXIMUM_ASSEMBLY_STORAGE
    ensures |Opened(s, p).0| <= MAXIMUM_ASSEMBLIES && AssemblyStorage(Opened(s, p).0) <= MAXIMUM_ASSEMBLY_STORAGE
  {
    hide Assembly.Valid, OnePerTarget;
    StaleRemovalShrinks(s, p);
    var kept := WithoutStale(s, p);
    if FindCurrent(kept, p) == |kept| {
      StorageAppend(EvictAssemblies(kept, 2 * p.totalSize), Created(p));
    }
  }

  lemma OpenedBounded(s: State, p: PdoInput)
    requires Bounded(s) && p.Valid()
    ensures Bounded(s.(assemblies := Opened(s.assemblies, p).0))
    ensures AllValid(s.assemblies) && AllValid(Opened(s.assemblies, p).0)
  {
    hide Assembly.Valid, OnePerTarget, Opened;
    OpenedValid(s.assemblies, p);
    OpenedDistinct(s.assemblies, p);
    OpenedSmall(s.assemblies, p);
  }

  lemma ReplacedBounded(s: State, at: nat, a: Assembly)
    requires Bounded(s) && at < |s.assemblies| && a.Valid()
    requires a.key == s.assemblies[at].key && a.Storage() == s.assemblies[at].Storage()
    ensures Bounded(s.(assemblies := s.assemblies[at := a]))
  {
    hide Assembly.Valid;
    StorageReplace(s.assemblies, at, a);
  }

  lemma RemovedBounded(s: State, at: nat)
    requires Bounded(s) && at < |s.assemblies|
    ensures Bounded(s.(assemblies := Without(s.assemblies, at)))
  {
    hide Assembly.Valid;
    StorageWithout(s.assemblies, at);
  }

  lemma QueuedBounded(s: State, image: Image)
    requires Bounded(s) && 0 < |image.data| <= MAXIMUM_PDO_IMAGE
    ensures Bounded(s.(images := EvictImages(s.images, |image.data|) + [image]))
  {
    hide AllValid, OnePerTarget;
    ImageStorageAppend(EvictImages(s.images, |image.data|), image);
  }

  lemma AssembledBounded(s: State, p: PdoInput)
    requires Bounded(s) && p.Valid()
    ensures Bounded(Assembled(s, p))
  {
    hide Bounded, Opened, Merged, Complete;
    OpenedBounded(s, p);
    var (open, at) := Opened(s.assemblies, p);
    var b := open[at].buffer;
    var m := Merged(b, p, |p.data|);
    var t := s.(assemblies := open);
    RemovedBounded(t, at);
    if !Conflict(b, p) && !Complete(m) {
      ReplacedBounded(t, at, Assembly(KeyOf(p), m, CountTrue(m.received)));
    } else if !Conflict(b, p) {
      QueuedBounded(t.(assemblies := Without(open, at)), Image(KeyOf(p), m.data));
    }
  }

  // ---------------------------------------------------------------- the loops

  method RemoveStale(s: seq<Assembly>, p: PdoInput) returns (kept: seq<Assembly>, storage: nat)
    ensures kept == WithoutStale(s, p) && storage == AssemblyStorage(kept)
  {
    kept := [];
    for i := 0 to |s|
      invariant kept == WithoutStale(s[..i], p)
    {
      assert s[..i + 1][..i] == s[..i];
      if !(SameTarget(s[i], p) && !Current(s[i], p)) {
        kept := kept + [s[i]];
      }
    }
    assert s[..|s|] == s;
    storage := 0;
    for i := 0 to |kept|
      invariant storage == AssemblyStorage(kept[..i])
    {
      StorageAppend(kept[..i], kept[i]);
      assert kept[..i + 1] == kept[..i] + [kept[i]];
      storage := storage + |kept[i].buffer.data| + |kept[i].buffer.received|;
    }
    assert kept[..|kept|] == kept;
  }

  method Find(s: seq<Assembly>, p: PdoInput) returns (i: nat)
    ensures i == FindCurrent(s, p)
  {
    i := 0;
    while i < |s| && !Current(s[i], p)
      invariant i <= |s| && FindCurrent(s, p) == i + FindCurrent(s[i..], p)
    {
      i := i + 1;
    }
  }

  lemma EvictOne(s: seq<Assembly>, required: nat)
    ensures
      if s != [] && (|s| >= MAXIMUM_ASSEMBLIES || !HasRoom(required, AssemblyStorage(s), MAXIMUM_ASSEMBLY_STORAGE))
      then EvictAssemblies(s, required) == EvictAssemblies(s[1..], required)
           && AssemblyStorage(s) == s[0].Storage() + AssemblyStorage(s[1..])
      else EvictAssemblies(s, required) == s
  {
  }

  lemma EvictOneImage(s: seq<Image>, required: nat)
    ensures
      if s != [] && (|s| >= MAXIMUM_IMAGES || !HasRoom(required, ImageStorage(s), MAXIMUM_IMAGE_STORAGE))
      then EvictImages(s, required) == EvictImages(s[1..], required)
           && ImageStorage(s) == |s[0].data| + ImageStorage(s[1..])
      else EvictImages(s, required) == s
  {
  }

  method MakeRoom(s: seq<Assembly>, storage: nat, required: nat) returns (room: seq<Assembly>, left: nat)
    requires storage == AssemblyStorage(s)
    ensures room == EvictAssemblies(s, required) && left == AssemblyStorage(room)
  {
    hide AssemblyStorage, EvictAssemblies;
    room, left := s, storage;
    while room != [] && (|room| >= MAXIMUM_ASSEMBLIES
                         || required > MAXIMUM_ASSEMBLY_STORAGE - Min(left, MAXIMUM_ASSEMBLY_STORAGE))
      invariant EvictAssemblies(room, required) == EvictAssemblies(s, required)
      invariant left == AssemblyStorage(room)
    {
      EvictOne(room, required);
      left := left - (|room[0].buffer.data| + |room[0].buffer.received|);
      room := room[1..];
    }
    EvictOne(room, required);
  }

  method MakeImageRoom(s: seq<Image>, storage: nat, required: nat) returns (room: seq<Image>, left: nat)
    requires storage == ImageStorage(s)
    ensures room == EvictImages(s, required) && left == ImageStorage(room)
  {
    hide ImageStorage, EvictImages;
    room, left := s, storage;
    while room != [] && (|room| >= MAXIMUM_IMAGES
                         || required > MAXIMUM_IMAGE_STORAGE - Min(left, MAXIMUM_IMAGE_STORAGE))
      invariant EvictImages(room, required) == EvictImages(s, required)
      invariant left == ImageStorage(room)
    {
      EvictOneImage(room, required);
      left := left - |room[0].data|;
      room := room[1..];
    }
    EvictOneImage(room, required);
  }

  /** Copy the bytes of the chunk, stopping at the first that contradicts what has arrived. */
  method Merge(a: Assembly, p: PdoInput) returns (ok: bool, r: Assembly)
    requires a.buffer.Shaped() && a.receivedBytes == CountTrue(a.buffer.received) && FitsIn(a.buffer, p)
    ensures ok <==> !Conflict(a.buffer, p)
    ensures r.buffer.Shaped() && |r.buffer.data| == |a.buffer.data|
    ensures ok ==> r == a.(buffer := Merged(a.buffer, p, |p.data|),
                           receivedBytes := CountTrue(Merged(a.buffer, p, |p.data|).received))
  {
    hide Merged, CountTrue;
    r := a;
    MergeNothing(a.buffer, p);
    for i := 0 to |p.data|
      invariant r == Assembly(a.key, Merged(a.buffer, p, i), CountTrue(Merged(a.buffer, p, i).received))
      invariant forall j :: 0 <= j < i ==> !ConflictAt(a.buffer, p, j)
    {
      var at := p.offset + i;
      MergeOneMore(a.buffer, p, i);
      CountOneMore(a.buffer, p, i);
      if r.buffer.received[at] && r.buffer.data[at] != p.data[i] {
        assert ConflictAt(a.buffer, p, i);
        return false, r;
      }
      var count := if r.buffer.received[at] then r.receivedBytes else r.receivedBytes + 1;
      r := Assembly(r.key, Buffer(r.buffer.data[at := p.data[i]], r.buffer.received[at := true]), count);
    }
    ok := true;
  }

  class Assembler {
    var assemblies: seq<Assembly>
    var assemblyStorage: nat
    var images: seq<Image>
    var imageStorage: nat

    ghost function View(): State
      reads this
    {
      State(assemblies, images)
    }

    /** The storage counters are the sizes they stand for, and the limits hold. */
    ghost predicate Valid()
      reads this
    {
      && Bounded(View())
      && assemblyStorage == AssemblyStorage(assemblies) && imageStorage == ImageStorage(images)
    }

    constructor ()
      ensures Valid() && View() == State([], [])
    {
      assemblies, assemblyStorage, images, imageStorage := [], 0, [], 0;
    }

    /** Find the assembly of this chunk, or make room for one and create it. */
    method OpenFor(p: PdoInput) returns (at: nat)
      requires Valid() && p.Valid()
      modifies this`assemblies, this`assemblyStorage
      ensures (assemblies, at) == Opened(old(assemblies), p)
      ensures assemblyStorage == AssemblyStorage(assemblies)
    {
      hide WithoutStale, AssemblyStorage, FindCurrent, EvictAssemblies, Bounded;
      assemblies, assemblyStorage := RemoveStale(assemblies, p);
      at := Find(assemblies, p);
      if at == |assemblies| {
        var required := 2 * p.totalSize;
        assemblies, assemblyStorage := MakeRoom(assemblies, assemblyStorage, required);
        if required > MAXIMUM_ASSEMBLY_STORAGE - Min(assemblyStorage, MAXIMUM_ASSEMBLY_STORAGE) {
          assert false;
        }
        StorageAppend(assemblies, Created(p));
        at := |assemblies|;
        assemblies, assemblyStorage := assemblies + [Created(p)], assemblyStorage + required;
      }
    }

    /** Queue a finished image, dropping the oldest ones that leave no room. */
    method Deliver(image: Image)
      requires imageStorage == ImageStorage(images) && 0 < |image.data| <= MAXIMUM_PDO_IMAGE
      modifies this`images, this`imageStorage
      ensures images == EvictImages(old(images), |image.data|) + [image]
      ensures imageStorage == ImageStorage(images)
    {
      images, imageStorage := MakeImageRoom(images, imageStorage, |image.data|);
      if |image.data| > MAXIMUM_IMAGE_STORAGE - Min(imageStorage, MAXIMUM_IMAGE_STORAGE) {
        assert false;
      }
      ImageStorageAppend(images, image);
      images, imageStorage := images + [image], imageStorage + |image.data|;
    }

    /** Give up the assembly at `at`. */
    method Erase(at: nat)
      requires at < |assemblies| && assemblyStorage == AssemblyStorage(assemblies)
      modifies this`assemblies, this`assemblyStorage
      ensures assemblies == Without(old(assemblies), at) && assemblyStorage == AssemblyStorage(assemblies)
    {
      StorageWithout(assemblies, at);
      assemblyStorage := assemblyStorage - (|assemblies[at].buffer.data| + |assemblies[at].buffer.received|);
      assemblies := Without(assemblies, at);
    }

    method AssembleInput(p: PdoInput)
      requires Valid() && p.Valid()
      modifies this
      ensures Valid() && View() == Assembled(old(View()), p)
    {
      AssembledBounded(View(), p);
      OpenedBounded(View(), p);
      hide Bounded, Opened, Complete, Merged, AssemblyStorage, ImageStorage, EvictImages, CountTrue, Conflict, Without;
      var at := OpenFor(p);
      var ok, a := Merge(assemblies[at], p);
      if !ok {
        Erase(at);
        return;
      }
      CountedComplete(a.buffer);
      if a.receivedBytes != |a.buffer.data| {
        StorageReplace(assemblies, at, a);
        assemblies := assemblies[at := a];
        return;
      }
      Deliver(Image(a.key, a.buffer.data));
      Erase(at);
    }

    method PopInputImage() returns (image: Option<Image>)
      requires Valid()
      modifies this
      ensures Valid() && assemblies == old(assemblies)
      ensures old(images) == [] ==> image == None && images == []
      ensures old(images) != [] ==> image == Some(old(images)[0]) && images == old(images)[1..]
    {
      if images == [] {
        return None;
      }
      imageStorage := imageStorage - |images[0].data|;
      image := Some(images[0]);
      images := images[1..];
    }
  }

  // ---------------------------------------------------------------- what is delivered

  ghost predicate AssembliesTrue(w: World, s: seq<Assembly>) {
    forall i :: 0 <= i < |s| ==> s[i].key in w && Agrees(w[s[i].key], s[i].buffer)
  }

  ghost predicate ImagesTrue(w: World, s: seq<Image>) {
    forall i :: 0 <= i < |s| ==> s[i].key in w && s[i].data == w[s[i].key]
  }

  /** Everything held or delivered is true to the world. */
  ghost predicate Truthful(w: World, s: State) {
    AssembliesTrue(w, s.assemblies) && ImagesTrue(w, s.images)
  }

  lemma KeptTrue(w: World, s: seq<Assembly>, p: PdoInput)
    requires AssembliesTrue(w, s)
    ensures AssembliesTrue(w, WithoutStale(s, p))
  {
    hide Agrees;
    var kept := WithoutStale(s, p);
    forall i | 0 <= i < |kept| ensures kept[i].key in w && Agrees(w[kept[i].key], kept[i].buffer) {
      assert kept[i] in s;
    }
  }

  lemma CreatedTrue(w: World, p: PdoInput)
    requires TrueTo(w, p)
    ensures Agrees(w[KeyOf(p)], Created(p).buffer)
  {
  }

  lemma OpenedTrue(w: World, s: seq<Assembly>, p: PdoInput)
    requires AssembliesTrue(w, s) && TrueTo(w, p)
    ensures AssembliesTrue(w, Opened(s, p).0)
  {
    KeptTrue(w, s, p);
    CreatedTrue(w, p);
    hide Agrees, WithoutStale, FindCurrent, EvictAssemblies, EmptyBuffer, SliceOf;
  }

  /** What the chunk makes of its assembly is true to the world as well. */
  lemma MergedTrue(w: World, open: seq<Assembly>, at: nat, p: PdoInput)
    requires AssembliesTrue(w, open) && at < |open| && open[at].key == KeyOf(p) && TrueTo(w, p)
    ensures FitsIn(open[at].buffer, p) && !Conflict(open[at].buffer, p)
    ensures
      var m := Merged(open[at].buffer, p, |p.data|);
      && (Complete(m) ==> m.data == w[KeyOf(p)])
      && AssembliesTrue(w, open[at := Assembly(KeyOf(p), m, CountTrue(m.received))])
      && AssembliesTrue(w, Without(open, at))
  {
    hide Agrees, SliceOf, Merged, Complete;
    TrueChunksNeverConflict(w[KeyOf(p)], open[at].buffer, p);
    var m := Merged(open[at].buffer, p, |p.data|);
    if Complete(m) {
      CompleteIsExact(w[KeyOf(p)], m);
    }
  }

  /** Chunks of published images, in any order and from any mix of cycles, yield only published images. */
  lemma DeliveredImagesAreExact(w: World, s: State, p: PdoInput)
    requires Truthful(w, s) && Bounded(s) && p.Valid() && TrueTo(w, p)
    ensures Truthful(w, Assembled(s, p))
  {
    hide Bounded, Opened, Merged, Complete, AllValid, AssembliesTrue, TrueTo, EvictImages, Conflict;
    OpenedBounded(s, p);
    OpenedTrue(w, s.assemblies, p);
    var (open, at) := Opened(s.assemblies, p);
    MergedTrue(w, open, at, p);
    KeyIsPublished(w, p);
  }

  lemma KeyIsPublished(w: World, p: PdoInput)
    requires TrueTo(w, p)
    ensures KeyOf(p) in w
  {
  }

  function AssembledAll(s: State, ps: seq<PdoInput>): (r: State)
    requires Bounded(s) && forall i :: 0 <= i < |ps| ==> ps[i].Valid()
    ensures Bounded(r)
    decreases |ps|
  {
    if ps == [] then s
    else
      var t := AssembledAll(s, ps[..|ps| - 1]);
      AssembledBounded(t, ps[|ps| - 1]);
      Assembled(t, ps[|ps| - 1])
  }

  ghost predicate NoneFor(s: seq<Assembly>, key: Key) {
    forall a :: a in s ==> a.key != key
  }

  /** The assembly of `key` holds exactly the bytes that `ps` cover. */
  ghost predicate Progress(s: seq<Assembly>, key: Key, image: seq<byte>, ps: seq<PdoInput>) {
    if ps == [] then NoneFor(s, key)
    else exists i :: 0 <= i < |s| && s[i].key == key && Holds(image, ps, s[i].buffer)
  }

  lemma OpenedProgress(s: seq<Assembly>, key: Key, image: seq<byte>, ps: seq<PdoInput>, p: PdoInput)
    requires OnePerTarget(s) && KeyOf(p) == key && |image| == p.totalSize && Progress(s, key, image, ps)
    ensures Holds(image, ps, Opened(s, p).0[Opened(s, p).1].buffer)
    ensures forall a :: a in Opened(s, p).0 ==> a.key == key || a in s
  {
    hide Assembly.Valid;
    var kept := WithoutStale(s, p);
    if ps == [] {
      assert forall j :: 0 <= j < |kept| ==> kept[j] in s;
      assert Holds(image, [], EmptyBuffer(|image|));
    } else {
      hide Holds;
      var i :| 0 <= i < |s| && s[i].key == key && Holds(image, ps, s[i].buffer);
      HoldsSize(image, ps, s[i].buffer);
      assert s[i] in kept;
      var j := FindCurrent(kept, p);
      assert kept[j] in s;
      var k :| 0 <= k < |s| && s[k] == kept[j];
      assert !Apart(s[i], s[k]) && !Apart(s[k], s[i]);
    }
  }

  lemma HoldsSize(image: seq<byte>, ps: seq<PdoInput>, b: Buffer)
    requires Holds(image, ps, b)
    ensures |b.data| == |image|
  {
  }

  lemma OpenedUnique(s: seq<Assembly>, at: nat)
    requires OnePerTarget(s) && at < |s|
    ensures NoneFor(Without(s, at), s[at].key)
  {
    hide Assembly.Valid;
    forall a | a in Without(s, at) ensures a.key != s[at].key {
      var i :| 0 <= i < |Without(s, at)| && Without(s, at)[i] == a;
      var k := if i < at then i else i + 1;
      assert s[k] == a;
      assert Apart(s[k], s[at]) || Apart(s[at], s[k]);
    }
  }

  /** One more chunk of an image, from any state. */
  lemma ChunkProgress(s: State, key: Key, image: seq<byte>, ps: seq<PdoInput>, p: PdoInput)
    requires Bounded(s) && p.Valid() && KeyOf(p) == key && SliceOf(image, p)
    requires Progress(s.assemblies, key, image, ps)
    ensures
      var t := Assembled(s, p);
      && (forall a :: a in t.assemblies ==> a.key == key || a in s.assemblies)
      && if CoversAll(ps + [p], |image|)
         then t.images == EvictImages(s.images, |image|) + [Image(key, image)] && NoneFor(t.assemblies, key)
         else t.images == s.images && Progress(t.assemblies, key, image, ps + [p])
  {
    OpenedBounded(s, p);
    OpenedProgress(s.assemblies, key, image, ps, p);
    var (open, at) := Opened(s.assemblies, p);
    hide Opened, AllValid, Bounded;
    MergeProgress(s, open, at, key, image, ps, p);
  }

  lemma MergeProgress(s: State, open: seq<Assembly>, at: nat, key: Key, image: seq<byte>, ps: seq<PdoInput>,
                      p: PdoInput)
    requires OnePerTarget(open) && at < |open| && open[at].key == key
    requires p.Valid() && KeyOf(p) == key && SliceOf(image, p) && Holds(image, ps, open[at].buffer)
    requires forall a :: a in open ==> a.key == key || a in s.assemblies
    ensures FitsIn(open[at].buffer, p) && !Conflict(open[at].buffer, p)
    ensures
      var m := Merged(open[at].buffer, p, |p.data|);
      var updated := open[at := Assembly(key, m, CountTrue(m.received))];
      && (forall a :: a in updated || a in Without(open, at) ==> a.key == key || a in s.assemblies)
      && NoneFor(Without(open, at), key)
      && (Complete(m) <==> CoversAll(ps + [p], |image|)) && (Complete(m) ==> m.data == image)
      && Progress(updated, key, image, ps + [p])
  {
    hide Merged, Complete, Agrees, CoversAll, SliceOf;
    OpenedUnique(open, at);
    hide OnePerTarget;
    var b := open[at].buffer;
    MergedHolds(image, ps, b, p);
    TrueChunksNeverConflict(image, b, p);
    var m := Merged(b, p, |p.data|);
    if Complete(m) {
      CompleteIsExact(image, m);
    }
    var a := Assembly(key, m, CountTrue(m.received));
    assert open[at := a][at] == a;
  }

  /** Until the image is covered, the client holds exactly the covered bytes and delivers nothing. */
  lemma {:induction false} PartialImage(s: State, key: Key, image: seq<byte>, ps: seq<PdoInput>)
    requires Bounded(s) && NoneFor(s.assemblies, key) && OneImage(key, image, ps) && !CoversAll(ps, |image|)
    ensures
      var t := AssembledAll(s, ps);
      && t.images == s.images && Progress(t.assemblies, key, image, ps)
      && forall a :: a in t.assemblies ==> a.key == key || a in s.assemblies
    decreases |ps|
  {
    hide CoversAll, Progress, EvictImages, SliceOf, Bounded;
    if ps == [] {
      assert NoneFor(s.assemblies, key);
      NoProgress(s.assemblies, key, image);
    } else {
      var (front, p) := (ps[..|ps| - 1], ps[|ps| - 1]);
      assert ps == front + [p];
      if CoversAll(front, |image|) {
        CoverageGrows(front, p, |image|);
      }
      PartialImage(s, key, image, front);
      ChunkProgress(AssembledAll(s, front), key, image, front, p);
    }
  }

  lemma NoProgress(s: seq<Assembly>, key: Key, image: seq<byte>)
    requires NoneFor(s, key)
    ensures Progress(s, key, image, [])
  {
  }

  /**
   From any state, in any order and with any overlaps: the chunk that completes an image delivers it,
   newest in the queue, and leaves nothing of it behind.
   */
  lemma CoveredImageIsDelivered(s: State, key: Key, image: seq<byte>, ps: seq<PdoInput>)
    requires Bounded(s) && NoneFor(s.assemblies, key) && OneImage(key, image, ps) && ps != []
    requires CoversAll(ps, |image|) && !CoversAll(ps[..|ps| - 1], |image|)
    ensures
      var t := AssembledAll(s, ps);
      && t.images == EvictImages(s.images, |image|) + [Image(key, image)] && NoneFor(t.assemblies, key)
      && forall a :: a in t.assemblies ==> a in s.assemblies
  {
    hide CoversAll, Progress, EvictImages, SliceOf, Bounded;
    var (front, p) := (ps[..|ps| - 1], ps[|ps| - 1]);
    assert ps == front + [p];
    PartialImage(s, key, image, front);
    ChunkProgress(AssembledAll(s, front), key, image, front, p);
  }
}
