/** The Java client's reassembly of input images. */
module JavaAssembler {
  import opened Bytes
  import opened Payloads
  import opened Reassembly
  import Cpp = ClientAssembler

  datatype Target = Target(bus: nat, sub: nat, epoch: nat)

  function TargetOf(k: Key): Target { Target(k.bus, k.sub, k.epoch) }

  datatype Assembly = Assembly(buffer: Buffer, created: int)

  datatype Outcome = Nothing | Delivered(key: Key, data: seq<byte>) | Rejected

  datatype Limits = Limits(assemblies: nat, bytes: nat)

  datatype State = State(assemblies: map<Key, Assembly>, delivered: map<Target, nat>)

  // ---------------------------------------------------------------- sizes

  /** The bytes allocated by all assemblies. */
  ghost function Total(m: map<Key, Assembly>): nat
    decreases |m|
  {
    if m == map[] then 0
    else
      var k :| k in m;
      |m[k].buffer.data| + Total(m - {k})
  }

  lemma {:induction false} TotalWithout(m: map<Key, Assembly>, k: Key)
    requires k in m
    ensures Total(m) == |m[k].buffer.data| + Total(m - {k})
    decreases |m|
  {
    var h :| h in m && Total(m) == |m[h].buffer.data| + Total(m - {h});
    if h != k {
      TotalWithout(m - {h}, k);
      TotalWithout(m - {k}, h);
      assert (m - {h}) - {k} == (m - {k}) - {h};
    }
  }

  lemma TotalWith(m: map<Key, Assembly>, k: Key, a: Assembly)
    ensures Total(m[k := a]) == Total(m - {k}) + |a.buffer.data|
  {
    TotalWithout(m[k := a], k);
    assert m[k := a] - {k} == m - {k};
  }

  // ---------------------------------------------------------------- one chunk

  /** The first byte that contradicts what has arrived, or the length of the chunk. */
  function FirstConflict(b: Buffer, p: PdoInput, from: nat): (i: nat)
    requires FitsIn(b, p) && from <= |p.data|
    ensures from <= i <= |p.data|
    ensures i < |p.data| ==> ConflictAt(b, p, i)
    ensures forall j :: from <= j < i ==> !ConflictAt(b, p, j)
    decreases |p.data| - from
  {
    if from == |p.data| || ConflictAt(b, p, from) then from else FirstConflict(b, p, from + 1)
  }

  /** An assembly that the delivery of `k` makes useless. */
  predicate Superseded(h: Key, k: Key) { TargetOf(h) == TargetOf(k) && h.sequence <= k.sequence }

  function Finished(s: State, k: Key): State {
    State(map h | h in s.assemblies && !Superseded(h, k) :: s.assemblies[h], s.delivered[TargetOf(k) := k.sequence])
  }

  function Merging(s: State, a: Assembly, p: PdoInput): (State, Outcome)
    requires FitsIn(a.buffer, p)
  {
    var n := FirstConflict(a.buffer, p, 0);
    var m := Merged(a.buffer, p, n);
    var t := s.(assemblies := s.assemblies[KeyOf(p) := a.(buffer := m)]);
    if n < |p.data| then (t, Rejected)
    else if !Complete(m) then (t, Nothing)
    else (Finished(s, KeyOf(p)), Delivered(KeyOf(p), m.data))
  }

  predicate Shaped(s: State) {
    forall k | k in s.assemblies :: s.assemblies[k].buffer.Shaped()
  }

  ghost function Accepted(s: State, l: Limits, p: PdoInput, now: int): (State, Outcome)
    requires Shaped(s) && p.Valid()
  {
    var k := KeyOf(p);
    if TargetOf(k) in s.delivered && k.sequence <= s.delivered[TargetOf(k)] then (s, Nothing)
    else if k !in s.assemblies then
      if |s.assemblies| >= l.assemblies || p.totalSize > l.bytes - Total(s.assemblies) then (s, Rejected)
      else Merging(s, Assembly(EmptyBuffer(p.totalSize), now), p)
    else if |s.assemblies[k].buffer.data| != p.totalSize then (s, Rejected)
    else Merging(s, s.assemblies[k], p)
  }

  function Expired(s: State, threshold: int): State {
    s.(assemblies := Young(s.assemblies, threshold))
  }

  // ---------------------------------------------------------------- what every call keeps

  /** Within the limits, and every open assembly is newer than what its SubDevice last delivered. */
  ghost predicate Inv(s: State, l: Limits) {
    && Shaped(s)
    && |s.assemblies| <= l.assemblies && Total(s.assemblies) <= l.bytes
    && forall k :: k in s.assemblies && TargetOf(k) in s.delivered ==> s.delivered[TargetOf(k)] < k.sequence
  }

  lemma {:induction false} SubmapIsSmaller(m: map<Key, Assembly>, n: map<Key, Assembly>)
    requires m.Keys <= n.Keys && forall k :: k in m ==> m[k] == n[k]
    ensures |m| <= |n| && Total(m) <= Total(n)
    decreases |n|
  {
    if n.Keys == m.Keys {
      assert m == n;
    } else {
      var k :| k in n && k !in m;
      TotalWithout(n, k);
      SubmapIsSmaller(m, n - {k});
    }
  }

  /** The assembly may be added or replaced without breaking a limit. */
  ghost predicate Admissible(s: State, l: Limits, k: Key, a: Assembly) {
    && a.buffer.Shaped()
    && |s.assemblies[k := a]| <= l.assemblies && Total(s.assemblies[k := a]) <= l.bytes
    && (TargetOf(k) in s.delivered ==> s.delivered[TargetOf(k)] < k.sequence)
  }

  lemma PutKeepsInv(s: State, l: Limits, k: Key, a: Assembly, b: Assembly)
    requires Inv(s, l) && Admissible(s, l, k, a) && b.buffer.Shaped() && |b.buffer.data| == |a.buffer.data|
    ensures Inv(s.(assemblies := s.assemblies[k := b]), l)
  {
    TotalWith(s.assemblies, k, a);
    TotalWith(s.assemblies, k, b);
    assert s.assemblies[k := a].Keys == s.assemblies[k := b].Keys;
    assert |s.assemblies[k := a]| == |s.assemblies[k := a].Keys| == |s.assemblies[k := b]|;
  }

  lemma FinishKeepsInv(s: State, l: Limits, k: Key)
    requires Inv(s, l)
    ensures Inv(Finished(s, k), l)
  {
    SubmapIsSmaller(Finished(s, k).assemblies, s.assemblies);
  }

  lemma MergingKeepsInv(s: State, l: Limits, a: Assembly, p: PdoInput)
    requires Inv(s, l) && FitsIn(a.buffer, p) && Admissible(s, l, KeyOf(p), a)
    ensures Inv(Merging(s, a, p).0, l)
  {
    hide Inv, Admissible, Finished, Complete, FirstConflict;
    var m := Merged(a.buffer, p, FirstConflict(a.buffer, p, 0));
    PutKeepsInv(s, l, KeyOf(p), a, a.(buffer := m));
    FinishKeepsInv(s, l, KeyOf(p));
  }

  lemma CreatedAdmissible(s: State, l: Limits, k: Key, a: Assembly)
    requires Inv(s, l) && k !in s.assemblies && a.buffer.Shaped()
    requires |s.assemblies| < l.assemblies && |a.buffer.data| <= l.bytes - Total(s.assemblies)
    requires TargetOf(k) in s.delivered ==> s.delivered[TargetOf(k)] < k.sequence
    ensures Admissible(s, l, k, a)
  {
    TotalWith(s.assemblies, k, a);
    assert s.assemblies - {k} == s.assemblies;
  }

  lemma FoundAdmissible(s: State, l: Limits, k: Key)
    requires Inv(s, l) && k in s.assemblies
    ensures s.assemblies[k].buffer.Shaped() && Admissible(s, l, k, s.assemblies[k])
  {
    assert s.assemblies[k := s.assemblies[k]] == s.assemblies;
  }

  lemma AcceptKeepsInv(s: State, l: Limits, p: PdoInput, now: int)
    requires Inv(s, l) && p.Valid()
    ensures Inv(Accepted(s, l, p, now).0, l)
  {
    assert Shaped(s);
    hide Inv, Merging, Admissible, Shaped;
    var k := KeyOf(p);
    if TargetOf(k) in s.delivered && k.sequence <= s.delivered[TargetOf(k)] {
    } else if k !in s.assemblies {
      if |s.assemblies| < l.assemblies && p.totalSize <= l.bytes - Total(s.assemblies) {
        var a := Assembly(EmptyBuffer(p.totalSize), now);
        CreatedAdmissible(s, l, k, a);
        MergingKeepsInv(s, l, a, p);
      }
    } else if |s.assemblies[k].buffer.data| == p.totalSize {
      FoundAdmissible(s, l, k);
      MergingKeepsInv(s, l, s.assemblies[k], p);
    }
  }

  lemma ExpiryKeepsInv(s: State, l: Limits, threshold: int)
    requires Inv(s, l)
    ensures Inv(Expired(s, threshold), l)
  {
    SubmapIsSmaller(Expired(s, threshold).assemblies, s.assemblies);
  }

  // ---------------------------------------------------------------- the code

  class PdoAssembler {
    const limits: Limits
    var assemblies: map<Key, Assembly>
    var deliveredSequences: map<Target, nat>
    var allocatedBytes: nat

    ghost function View(): State
      reads this
    {
      State(assemblies, deliveredSequences)
    }

    ghost predicate Valid()
      reads this
    {
      Inv(View(), limits) && allocatedBytes == Total(assemblies)
    }

    constructor (limits: Limits)
      requires limits.assemblies > 0 && limits.bytes > 0
      ensures Valid() && View() == State(map[], map[]) && this.limits == limits
    {
      this.limits := limits;
      assemblies, deliveredSequences, allocatedBytes := map[], map[], 0;
    }

    /** Forget every assembly that the delivery of `k` supersedes. */
    method RemoveSuperseded(k: Key)
      requires allocatedBytes == Total(assemblies)
      modifies this`assemblies, this`allocatedBytes
      ensures assemblies == map h | h in old(assemblies) && !Superseded(h, k) :: old(assemblies)[h]
      ensures allocatedBytes == Total(assemblies)
    {
      var pending := assemblies.Keys;
      while pending != {}
        invariant pending <= assemblies.Keys <= old(assemblies).Keys
        invariant forall h :: h in old(assemblies) && !Superseded(h, k) ==> h in assemblies
        invariant forall h :: h in assemblies ==>
          assemblies[h] == old(assemblies)[h] && (h in pending || !Superseded(h, k))
        invariant allocatedBytes == Total(assemblies)
        decreases |pending|
      {
        var h :| h in pending;
        pending := pending - {h};
        if Superseded(h, k) {
          TotalWithout(assemblies, h);
          allocatedBytes := allocatedBytes - |assemblies[h].buffer.data|;
          assemblies := assemblies - {h};
        }
      }
    }

    /** Copy the chunk into the buffer until a byte contradicts it. */
    method Merge(b: Buffer, p: PdoInput) returns (ok: bool, m: Buffer)
      requires FitsIn(b, p)
      ensures ok <==> FirstConflict(b, p, 0) == |p.data|
      ensures m == Merged(b, p, FirstConflict(b, p, 0))
    {
      m := b;
      assert b == Merged(b, p, 0);
      for i := 0 to |p.data|
        invariant m == Merged(b, p, i) && FirstConflict(b, p, i) == FirstConflict(b, p, 0)
      {
        var at := p.offset + i;
        MergeOneMore(b, p, i);
        if m.received[at] && m.data[at] != p.data[i] {
          return false, m;
        }
        m := Buffer(m.data[at := p.data[i]], m.received[at := true]);
      }
      ok := true;
    }

    /** Open an assembly for a key that has none. */
    method Open(key: Key, size: nat, now: int) returns (a: Assembly)
      requires key !in assemblies && allocatedBytes == Total(assemblies)
      modifies this`assemblies, this`allocatedBytes
      ensures a == Assembly(EmptyBuffer(size), now) && assemblies == old(assemblies)[key := a]
      ensures allocatedBytes == Total(assemblies)
    {
      a := Assembly(EmptyBuffer(size), now);
      TotalWith(assemblies, key, a);
      assert assemblies - {key} == assemblies;
      assemblies := assemblies[key := a];
      allocatedBytes := allocatedBytes + size;
    }

    method Accept(p: PdoInput, now: int) returns (outcome: Outcome)
      requires Valid() && p.Valid()
      modifies this
      ensures Valid() && (View(), outcome) == Accepted(old(View()), limits, p, now)
    {
      AcceptKeepsInv(View(), limits, p, now);
      ghost var s := View();
      var key := KeyOf(p);
      var target := TargetOf(key);
      hide Inv, Merging, Total, EmptyBuffer;
      if target in deliveredSequences && p.sequence <= deliveredSequences[target] {
        return Nothing;
      }
      if key !in assemblies {
        if |assemblies| >= limits.assemblies || p.totalSize > limits.bytes - allocatedBytes {
          return Rejected;
        }
        var a := Open(key, p.totalSize, now);
        outcome := Absorb(key, a, p, s);
      } else {
        var a := assemblies[key];
        FoundAdmissible(s, limits, key);
        if |a.buffer.data| != p.totalSize {
          return Rejected;
        }
        assert assemblies == assemblies[key := a];
        outcome := Absorb(key, a, p, s);
      }
    }

    /** Replace the assembly under `key` by one of the same size. */
    method Put(key: Key, a: Assembly, ghost s: State)
      requires key in assemblies && |a.buffer.data| == |assemblies[key].buffer.data|
      requires assemblies == s.assemblies[key := assemblies[key]] && allocatedBytes == Total(assemblies)
      modifies this`assemblies
      ensures assemblies == s.assemblies[key := a] && allocatedBytes == Total(assemblies)
    {
      TotalWith(assemblies, key, assemblies[key]);
      assert assemblies[key := assemblies[key]] == assemblies;
      TotalWith(assemblies, key, a);
      assemblies := assemblies[key := a];
    }

    /** Take a complete assembly out, remember its sequence and forget what it supersedes. */
    method Finish(key: Key, ghost s: State)
      requires key in assemblies && assemblies == s.assemblies[key := assemblies[key]]
      requires deliveredSequences == s.delivered && allocatedBytes == Total(assemblies)
      modifies this
      ensures View() == Finished(s, key) && allocatedBytes == Total(assemblies)
    {
      TotalWithout(assemblies, key);
      allocatedBytes := allocatedBytes - |assemblies[key].buffer.data|;
      assemblies := assemblies - {key};
      deliveredSequences := deliveredSequences[TargetOf(key) := key.sequence];
      RemoveSuperseded(key);
      assert assemblies == Finished(s, key).assemblies;
    }

    /** The part of `Accept` after the assembly has been found or created. */
    method Absorb(key: Key, a: Assembly, p: PdoInput, ghost s: State) returns (outcome: Outcome)
      requires key == KeyOf(p) && FitsIn(a.buffer, p)
      requires assemblies == s.assemblies[key := a] && deliveredSequences == s.delivered
      requires allocatedBytes == Total(assemblies)
      modifies this
      ensures (View(), outcome) == Merging(s, a, p) && allocatedBytes == Total(assemblies)
    {
      hide Merged, Complete, FirstConflict, Finished, Total, CountTrue;
      var ok, m := Merge(a.buffer, p);
      Put(key, a.(buffer := m), s);
      if !ok {
        return Rejected;
      }
      CountedComplete(m);
      if CountTrue(m.received) != |m.data| {
        return Nothing;
      }
      Finish(key, s);
      outcome := Delivered(key, m.data);
    }

    /** Forget the assemblies created before `threshold`. */
    method ExpireOlderThan(threshold: int)
      requires Valid()
      modifies this
      ensures Valid() && View() == Expired(old(View()), threshold)
    {
      ExpiryKeepsInv(View(), limits, threshold);
      hide Inv;
      assemblies, allocatedBytes := RemoveExpired(assemblies, allocatedBytes, threshold);
    }
  }

  function Young(m: map<Key, Assembly>, threshold: int): map<Key, Assembly> {
    map k | k in m && m[k].created >= threshold :: m[k]
  }

  method RemoveExpired(m: map<Key, Assembly>, size: nat, threshold: int) returns (kept: map<Key, Assembly>, bytes: nat)
    requires size == Total(m)
    ensures kept == Young(m, threshold) && bytes == Total(kept)
  {
    hide Total;
    kept, bytes := m, size;
    var pending := m.Keys;
    while pending != {}
      invariant pending <= kept.Keys <= m.Keys && bytes == Total(kept)
      invariant forall h :: h in m && m[h].created >= threshold ==> h in kept
      invariant forall h :: h in kept ==> kept[h] == m[h] && (h in pending || kept[h].created >= threshold)
      decreases |pending|
    {
      var h :| h in pending;
      pending := pending - {h};
      if kept[h].created < threshold {
        TotalWithout(kept, h);
        bytes := bytes - |kept[h].buffer.data|;
        kept := kept - {h};
      }
    }
  }

  // ---------------------------------------------------------------- whole runs

  datatype Event = Chunk(p: PdoInput, now: int) | Expiry(threshold: int)

  ghost predicate Events(es: seq<Event>) {
    forall i :: 0 <= i < |es| && es[i].Chunk? ==> es[i].p.Valid()
  }

  ghost predicate EventsTrue(w: World, es: seq<Event>) {
    forall i :: 0 <= i < |es| && es[i].Chunk? ==> TrueTo(w, es[i].p)
  }

  /** The state after `es` and everything delivered on the way. */
  ghost function Run(l: Limits, es: seq<Event>): (r: (State, seq<Outcome>))
    requires Events(es)
    ensures Inv(r.0, l)
    decreases |es|
  {
    if es == [] then (State(map[], map[]), [])
    else
      var (s, out) := Run(l, es[..|es| - 1]);
      match es[|es| - 1]
      case Chunk(p, now) =>
        AcceptKeepsInv(s, l, p, now);
        var (t, o) := Accepted(s, l, p, now);
        (t, if o.Delivered? then out + [o] else out)
      case Expiry(threshold) =>
        ExpiryKeepsInv(s, l, threshold);
        (Expired(s, threshold), out)
  }

  /** Each SubDevice's sequences rise strictly, and `delivered` remembers the last. */
  ghost predicate Increasing(out: seq<Outcome>, delivered: map<Target, nat>) {
    && (forall i :: 0 <= i < |out| ==>
          && out[i].Delivered? && TargetOf(out[i].key) in delivered
          && out[i].key.sequence <= delivered[TargetOf(out[i].key)])
    && (forall i, j :: 0 <= i < j < |out| && TargetOf(out[i].key) == TargetOf(out[j].key) ==>
          out[i].key.sequence < out[j].key.sequence)
  }

  /** A delivery is newer than anything its SubDevice delivered before. */
  lemma DeliveryIsNewer(s: State, l: Limits, p: PdoInput, now: int)
    requires Inv(s, l) && p.Valid()
    ensures
      var ((t, o), k) := (Accepted(s, l, p, now), KeyOf(p));
      if o.Delivered?
      then o.key == k && t.delivered == s.delivered[TargetOf(k) := k.sequence]
           && (TargetOf(k) in s.delivered ==> s.delivered[TargetOf(k)] < k.sequence)
      else t.delivered == s.delivered
  {
    hide Inv, Total, Merged, Complete, FirstConflict, EmptyBuffer, Superseded;
  }

  lemma {:induction false} DeliveriesIncrease(l: Limits, es: seq<Event>)
    requires Events(es)
    ensures Increasing(Run(l, es).1, Run(l, es).0.delivered)
    decreases |es|
  {
    hide Inv, Accepted;
    if es != [] {
      var front := es[..|es| - 1];
      DeliveriesIncrease(l, front);
      var s := Run(l, front).0;
      match es[|es| - 1] {
        case Chunk(p, now) => DeliveryIsNewer(s, l, p, now);
        case Expiry(_) =>
      }
    }
  }

  ghost predicate Truthful(w: World, s: State) {
    forall k :: k in s.assemblies ==> k in w && Agrees(w[k], s.assemblies[k].buffer)
  }

  lemma MergingTruthful(w: World, s: State, a: Assembly, p: PdoInput)
    requires Truthful(w, s) && TrueTo(w, p) && Agrees(w[KeyOf(p)], a.buffer) && FitsIn(a.buffer, p)
    ensures
      var (t, o) := Merging(s, a, p);
      Truthful(w, t) && !o.Rejected? && (o.Delivered? ==> o.key in w && o.data == w[o.key])
  {
    var image := w[KeyOf(p)];
    hide Agrees, SliceOf, Merged, Complete;
    TrueChunksNeverConflict(image, a.buffer, p);
    var m := Merged(a.buffer, p, |p.data|);
    if Complete(m) {
      CompleteIsExact(image, m);
    }
  }

  lemma AcceptTruthful(w: World, s: State, l: Limits, p: PdoInput, now: int)
    requires Truthful(w, s) && Inv(s, l) && p.Valid() && TrueTo(w, p)
    ensures
      var (t, o) := Accepted(s, l, p, now);
      Truthful(w, t) && (o.Delivered? ==> o.key in w && o.data == w[o.key])
  {
    var k := KeyOf(p);
    if k in s.assemblies {
      MergingTruthful(w, s, s.assemblies[k], p);
    } else {
      MergingTruthful(w, s, Assembly(EmptyBuffer(p.totalSize), now), p);
    }
  }

  /** Every image that a run delivers is the one published under its key. */
  lemma {:induction false} DeliveriesAreExact(w: World, l: Limits, es: seq<Event>)
    requires Events(es) && EventsTrue(w, es)
    ensures Truthful(w, Run(l, es).0)
    ensures forall o :: o in Run(l, es).1 ==> o.Delivered? && o.key in w && o.data == w[o.key]
    decreases |es|
  {
    if es != [] {
      var front := es[..|es| - 1];
      DeliveriesAreExact(w, l, front);
      var s := Run(l, front).0;
      match es[|es| - 1] {
        case Chunk(p, now) => AcceptTruthful(w, s, l, p, now);
        case Expiry(threshold) =>
      }
    }
  }

  // ---------------------------------------------------------------- what is delivered at all

  /** The assembly of `key` holds exactly the bytes that `ps` cover, and nothing as new was delivered. */
  ghost predicate Progress(s: State, key: Key, image: seq<byte>, ps: seq<PdoInput>) {
    && (TargetOf(key) in s.delivered ==> s.delivered[TargetOf(key)] < key.sequence)
    && if ps == [] then key !in s.assemblies
       else key in s.assemblies && Holds(image, ps, s.assemblies[key].buffer)
  }

  /** The limits admit one more image of this size. */
  ghost predicate HasRoom(s: State, l: Limits, size: nat) {
    |s.assemblies| < l.assemblies && size <= l.bytes - Total(s.assemblies)
  }

  lemma MergingProgress(s: State, a: Assembly, image: seq<byte>, ps: seq<PdoInput>, p: PdoInput)
    requires Holds(image, ps, a.buffer) && SliceOf(image, p) && FitsIn(a.buffer, p)
    requires TargetOf(KeyOf(p)) in s.delivered ==> s.delivered[TargetOf(KeyOf(p))] < p.sequence
    ensures
      var ((t, o), key) := (Merging(s, a, p), KeyOf(p));
      if CoversAll(ps + [p], |image|)
      then o == Delivered(key, image) && t == Finished(s, key)
      else o == Nothing && Progress(t, key, image, ps + [p])
  {
    hide CoversAll, Merged, Complete, Finished, Agrees, SliceOf;
    TrueChunksNeverConflict(image, a.buffer, p);
    MergedHolds(image, ps, a.buffer, p);
    var m := Merged(a.buffer, p, |p.data|);
    if Complete(m) {
      CompleteIsExact(image, m);
    }
  }

  /** One more chunk of an image: delivered if it completes the image, waiting otherwise. */
  lemma ChunkProgress(s: State, l: Limits, key: Key, image: seq<byte>, ps: seq<PdoInput>, p: PdoInput, now: int)
    requires Inv(s, l) && Progress(s, key, image, ps) && (ps == [] ==> HasRoom(s, l, |image|))
    requires p.Valid() && KeyOf(p) == key && SliceOf(image, p)
    ensures
      var (t, o) := Accepted(s, l, p, now);
      && Inv(t, l)
      && if CoversAll(ps + [p], |image|)
         then o == Delivered(key, image) && t == Finished(s, key)
         else o == Nothing && Progress(t, key, image, ps + [p])
  {
    AcceptKeepsInv(s, l, p, now);
    assert |image| == p.totalSize;
    if ps == [] {
      var a := Assembly(EmptyBuffer(|image|), now);
      assert Holds(image, [], a.buffer);
      hide Holds, Inv, Merging, CoversAll, SliceOf;
      MergingProgress(s, a, image, ps, p);
    } else {
      var a := s.assemblies[key];
      assert |a.buffer.data| == |image| && a.buffer.Shaped();
      hide Holds, Inv, Merging, CoversAll, SliceOf;
      MergingProgress(s, a, image, ps, p);
    }
  }

  /** The state after a run of chunks, and the outcome of each. */
  ghost function AcceptedAll(s: State, l: Limits, ps: seq<PdoInput>, now: nat -> int): (r: (State, seq<Outcome>))
    requires Inv(s, l) && forall i :: 0 <= i < |ps| ==> ps[i].Valid()
    ensures Inv(r.0, l) && |r.1| == |ps|
    decreases |ps|
  {
    if ps == [] then (s, [])
    else
      var n := |ps| - 1;
      var (t, out) := AcceptedAll(s, l, ps[..n], now);
      AcceptKeepsInv(t, l, ps[n], now(n));
      var (u, o) := Accepted(t, l, ps[n], now(n));
      (u, out + [o])
  }

  function Waiting(n: nat): seq<Outcome> { seq(n, i => Nothing) }

  /** Until the image is covered every chunk waits, and the client holds exactly the covered bytes. */
  lemma {:induction false} PartialImage(s: State, l: Limits, key: Key, image: seq<byte>, ps: seq<PdoInput>,
                                        now: nat -> int)
    requires Inv(s, l) && Progress(s, key, image, []) && HasRoom(s, l, |image|)
    requires OneImage(key, image, ps) && !CoversAll(ps, |image|)
    ensures
      var (t, out) := AcceptedAll(s, l, ps, now);
      Progress(t, key, image, ps) && out == Waiting(|ps|)
    decreases |ps|
  {
    hide CoversAll, Progress, SliceOf, Inv, HasRoom, Accepted;
    if ps != [] {
      var (n, front, p) := (|ps| - 1, ps[..|ps| - 1], ps[|ps| - 1]);
      assert ps == front + [p];
      if CoversAll(front, |image|) {
        CoverageGrows(front, p, |image|);
      }
      PartialImage(s, l, key, image, front, now);
      ChunkProgress(AcceptedAll(s, l, front, now).0, l, key, image, front, p, now(n));
    }
  }

  /**
   From any state with room, slices of an image in any order and with any overlaps wait until they
   cover it, and the chunk that completes it delivers it.
   */
  lemma CoveredImageIsDelivered(s: State, l: Limits, key: Key, image: seq<byte>, ps: seq<PdoInput>, now: nat -> int)
    requires Inv(s, l) && Progress(s, key, image, []) && HasRoom(s, l, |image|) && OneImage(key, image, ps) && ps != []
    requires CoversAll(ps, |image|) && !CoversAll(ps[..|ps| - 1], |image|)
    ensures
      var (t, out) := AcceptedAll(s, l, ps, now);
      && out == Waiting(|ps| - 1) + [Delivered(key, image)]
      && TargetOf(key) in t.delivered && t.delivered[TargetOf(key)] == key.sequence
  {
    hide CoversAll, Progress, SliceOf, Inv, HasRoom, Accepted;
    var (n, front, p) := (|ps| - 1, ps[..|ps| - 1], ps[|ps| - 1]);
    assert ps == front + [p];
    PartialImage(s, l, key, image, front, now);
    ChunkProgress(AcceptedAll(s, l, front, now).0, l, key, image, front, p, now(n));
  }

  /** For the same chunks the Java and the C++ client deliver the same image, at the same chunk. */
  lemma ClientsAgree(s: State, l: Limits, t: Cpp.State, key: Key, image: seq<byte>, ps: seq<PdoInput>, now: nat -> int)
    requires Inv(s, l) && Progress(s, key, image, []) && HasRoom(s, l, |image|)
    requires Cpp.Bounded(t) && Cpp.NoneFor(t.assemblies, key)
    requires OneImage(key, image, ps) && ps != [] && CoversAll(ps, |image|) && !CoversAll(ps[..|ps| - 1], |image|)
    ensures
      var (java, cpp) := (AcceptedAll(s, l, ps, now).1, Cpp.AssembledAll(t, ps).images);
      && |java| > 0 && |cpp| > 0 && java[|java| - 1].Delivered?
      && cpp[|cpp| - 1] == Cpp.Image(java[|java| - 1].key, java[|java| - 1].data)
  {
    hide CoversAll, Progress, SliceOf, Inv, HasRoom, Accepted, AcceptedAll, Cpp.Bounded, Cpp.AssembledAll, Cpp.NoneFor;
    CoveredImageIsDelivered(s, l, key, image, ps, now);
    Cpp.CoveredImageIsDelivered(t, key, image, ps);
  }
}
