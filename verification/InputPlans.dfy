/**
 What is queued to a client, read as a plan: single frames that carry no process data, and whole
 publications, those of each bus in the order of their cycles and none of them twice.
 */
module InputPlans {
  import opened Common
  import opened Bytes
  import opened Framing
  import opened Payloads
  import opened Reassembly
  import opened ClientAssembler
  import opened InputPublisher
  import opened InputPath
  import opened ClientFrames
  import T = ClientTable

  datatype Item = Single(frame: Frame) | Whole(cycle: Cycle)

  ghost predicate ItemOk(h: seq<Cycle>, item: Item) {
    match item
    case Single(f) => f.Encodable() && f.code != PDO_INPUT
    case Whole(c) => c in h && c.Valid()
  }

  ghost predicate ItemsOk(h: seq<Cycle>, plan: seq<Item>) {
    forall k :: 0 <= k < |plan| ==> ItemOk(h, plan[k])
  }

  function FramesIn(item: Item): seq<Frame>
    requires item.Whole? ==> item.cycle.Valid()
  {
    match item
    case Single(f) => [f]
    case Whole(c) => FramesOf(c.Chunks())
  }

  ghost function Flat(h: seq<Cycle>, plan: seq<Item>): seq<Frame>
    requires ItemsOk(h, plan)
  {
    if plan == [] then [] else Flat(h, plan[..|plan| - 1]) + FramesIn(plan[|plan| - 1])
  }

  /** The publications of a bus are in the order of their cycles. */
  ghost predicate Rising(plan: seq<Item>) {
    forall a, b :: 0 <= a < b < |plan| && plan[a].Whole? && plan[b].Whole? && plan[a].cycle.bus == plan[b].cycle.bus ==>
      plan[a].cycle.sequence < plan[b].cycle.sequence
  }

  /** No publication is later than the last one that its bus has made. */
  ghost predicate NotLater(plan: seq<Item>, limits: seq<nat>) {
    forall k :: 0 <= k < |plan| && plan[k].Whole? ==>
      plan[k].cycle.bus < |limits| && plan[k].cycle.sequence <= limits[plan[k].cycle.bus]
  }

  ghost predicate IsPlan(h: seq<Cycle>, limits: seq<nat>, plan: seq<Item>) {
    ItemsOk(h, plan) && Rising(plan) && NotLater(plan, limits)
  }

  ghost predicate Planned(h: seq<Cycle>, limits: seq<nat>, sent: seq<seq<byte>>) {
    exists plan :: IsPlan(h, limits, plan) && sent == T.Encoded(Flat(h, plan))
  }

  // ---------------------------------------------------------------- how plans grow

  ghost predicate OrdinaryBytes(bytes: seq<byte>) {
    exists f: Frame :: f.Encodable() && f.code != PDO_INPUT && bytes == Encode(f)
  }

  /** The bytes of every frame that carries no process data. */
  ghost function Ordinaries(): iset<seq<byte>> { iset bytes: seq<byte> | OrdinaryBytes(bytes) }

  lemma NothingPlanned(h: seq<Cycle>, limits: seq<nat>)
    ensures Planned(h, limits, [])
  {
    assert IsPlan(h, limits, []) && T.Encoded(Flat(h, [])) == [];
  }

  lemma FlatOneMore(h: seq<Cycle>, plan: seq<Item>, item: Item)
    requires ItemsOk(h, plan) && ItemOk(h, item)
    ensures ItemsOk(h, plan + [item]) && Flat(h, plan + [item]) == Flat(h, plan) + FramesIn(item)
  {
    hide ItemOk, FramesIn;
    assert (plan + [item])[..|plan|] == plan;
  }

  lemma EncodedAppend(xs: seq<Frame>, ys: seq<Frame>)
    ensures T.Encoded(xs + ys) == T.Encoded(xs) + T.Encoded(ys)
  {
    hide Encode;
  }

  lemma PlannedSingle(h: seq<Cycle>, limits: seq<nat>, sent: seq<seq<byte>>, bytes: seq<byte>)
    requires Planned(h, limits, sent) && OrdinaryBytes(bytes)
    ensures Planned(h, limits, sent + [bytes])
  {
    hide Flat, Encode;
    var plan :| IsPlan(h, limits, plan) && sent == T.Encoded(Flat(h, plan));
    var f: Frame :| f.Encodable() && f.code != PDO_INPUT && bytes == Encode(f);
    FlatOneMore(h, plan, Single(f));
    EncodedAppend(Flat(h, plan), [f]);
    assert T.Encoded([f]) == [bytes];
    assert IsPlan(h, limits, plan + [Single(f)]);
  }

  lemma {:induction false} PlannedExtends(h: seq<Cycle>, limits: seq<nat>, s: seq<seq<byte>>, t: seq<seq<byte>>)
    requires Planned(h, limits, s) && Extends(s, t, Ordinaries())
    ensures Planned(h, limits, t)
    decreases |t|
  {
    hide Planned, OrdinaryBytes;
    if |t| == |s| {
      assert s == t;
    } else {
      var n := |t| - 1;
      PlannedExtends(h, limits, s, t[..n]);
      assert t[n] in Ordinaries();
      PlannedSingle(h, limits, t[..n], t[n]);
      assert t == t[..n] + [t[n]];
    }
  }

  lemma PublicationIsFrames(c: Cycle)
    requires c.Valid()
    ensures PublicationOf(c).frames == T.Encoded(FramesOf(c.Chunks()))
  {
    hide Cycle.Chunks, Encode, FrameOf;
  }

  /** A publication later than all of its bus before it. */
  lemma PlannedWhole(h: seq<Cycle>, limits: seq<nat>, sent: seq<seq<byte>>, c: Cycle)
    requires Planned(h, limits, sent) && c in h && c.Valid() && c.bus < |limits| && limits[c.bus] < c.sequence
    ensures Planned(h, limits[c.bus := c.sequence], sent + PublicationOf(c).frames)
  {
    hide Flat, Encode, PublicationOf, FramesOf, Cycle.Valid, Cycle.Chunks;
    var plan :| IsPlan(h, limits, plan) && sent == T.Encoded(Flat(h, plan));
    FlatOneMore(h, plan, Whole(c));
    EncodedAppend(Flat(h, plan), FramesOf(c.Chunks()));
    PublicationIsFrames(c);
    assert IsPlan(h, limits[c.bus := c.sequence], plan + [Whole(c)]);
  }

  lemma {:induction false} FlatSame(h: seq<Cycle>, g: seq<Cycle>, plan: seq<Item>)
    requires ItemsOk(h, plan) && ItemsOk(g, plan)
    ensures Flat(h, plan) == Flat(g, plan)
  {
    hide ItemOk, FramesIn;
    if plan != [] {
      FlatSame(h, g, plan[..|plan| - 1]);
    }
  }

  /** More cycles and later limits only admit more plans. */
  lemma PlannedMore(h: seq<Cycle>, limits: seq<nat>, g: seq<Cycle>, more: seq<nat>, sent: seq<seq<byte>>)
    requires Planned(h, limits, sent) && (forall c :: c in h ==> c in g)
    requires |limits| <= |more| && forall b :: 0 <= b < |limits| ==> limits[b] <= more[b]
    ensures Planned(g, more, sent)
  {
    hide Flat, Encode, Cycle.Valid;
    var plan :| IsPlan(h, limits, plan) && sent == T.Encoded(Flat(h, plan));
    assert ItemsOk(g, plan);
    FlatSame(h, g, plan);
    assert IsPlan(g, more, plan);
  }

  // ---------------------------------------------------------------- where a frame stands in a plan

  lemma {:induction false} FlatPrefix(h: seq<Cycle>, plan: seq<Item>, m: nat)
    requires ItemsOk(h, plan) && m <= |plan|
    ensures Flat(h, plan[..m]) <= Flat(h, plan)
    decreases |plan|
  {
    hide ItemOk, FramesIn;
    if m < |plan| {
      var front := plan[..|plan| - 1];
      FlatPrefix(h, front, m);
      assert front[..m] == plan[..m];
    } else {
      assert plan[..m] == plan;
    }
  }

  /** The item that the `n`th frame of a plan belongs to, and its place there. */
  lemma {:induction false} Locate(h: seq<Cycle>, plan: seq<Item>, n: nat) returns (m: nat, at: nat)
    requires ItemsOk(h, plan) && n < |Flat(h, plan)|
    ensures m < |plan| && at < |FramesIn(plan[m])| && n == |Flat(h, plan[..m])| + at
    ensures Flat(h, plan)[n] == FramesIn(plan[m])[at]
    ensures Flat(h, plan[..m]) + FramesIn(plan[m]) <= Flat(h, plan)
    decreases |plan|
  {
    hide ItemOk, FramesIn;
    var last := |plan| - 1;
    if n < |Flat(h, plan[..last])| {
      m, at := Locate(h, plan[..last], n);
      assert plan[..last][..m] == plan[..m];
      assert Flat(h, plan[..last]) <= Flat(h, plan);
    } else {
      m, at := last, n - |Flat(h, plan[..last])|;
    }
  }

  lemma {:induction false} FlatSendable(h: seq<Cycle>, plan: seq<Item>, k: nat)
    requires History(h) && ItemsOk(h, plan) && k < |Flat(h, plan)|
    ensures Sendable(h, Flat(h, plan)[k])
  {
    hide Flat, History, Cycle.Chunks, FrameOf;
    var m, at := Locate(h, plan, k);
    if plan[m].Whole? {
      var c := plan[m].cycle;
      var t :| 0 <= t < |h| && h[t] == c;
      ChunkIsSendable(h, t, at);
    }
  }

  lemma ChunkIsSendable(h: seq<Cycle>, t: nat, k: nat)
    requires History(h) && t < |h| && k < |h[t].Chunks()|
    ensures Sendable(h, FrameOf(h[t].Chunks()[k]))
  {
    hide Cycle.ChunksTo, EncodePdoInput, PdoInput.Fits, PdoInput.Valid, SliceOf;
    ChunkTags(h[t], |h[t].subs|, k);
    ChunkFrame(h[t].Chunks()[k]);
    assert ChunkFrameOf(h[t], FrameOf(h[t].Chunks()[k]));
  }

  // ---------------------------------------------------------------- chunks tell cycles apart

  lemma ChunkPlace(c: Cycle, i: nat, k: nat)
    requires c.Valid() && i < |c.subs| && c.Readable(i) && k < c.subs[i].Chunks()
    ensures c.ChunkOf(i, k).sub == i + 1 && c.ChunkOf(i, k).offset == k * MAXIMUM_PDO_CHUNK
  {
    hide Cycle.ImageOf;
  }

  lemma {:induction false} ChunksAreDistinct(c: Cycle, n: nat, j: nat, k: nat)
    requires c.Valid() && n <= |c.subs| && j < k < |c.ChunksTo(n)|
    ensures c.ChunksTo(n)[j] != c.ChunksTo(n)[k]
  {
    hide Cycle.ChunkOf, Cycle.Readable, SubDevice.Chunks, SliceOf, PdoInput.Fits, PdoInput.Valid, Cycle.Valid;
    var (before, i) := (|c.ChunksTo(n - 1)|, n - 1);
    if k < before {
      ChunksAreDistinct(c, i, j, k);
    } else {
      assert c.ChunksTo(n)[k] == c.SubChunks(i)[k - before] == c.ChunkOf(i, k - before);
      ChunkPlace(c, i, k - before);
      if j < before {
        ChunkTags(c, i, j);
      } else {
        assert c.ChunksTo(n)[j] == c.SubChunks(i)[j - before] == c.ChunkOf(i, j - before);
        ChunkPlace(c, i, j - before);
      }
    }
  }

  lemma FrameTellsChunk(p: PdoInput, q: PdoInput)
    requires p.Fits() && p.Valid() && q.Fits() && q.Valid() && FrameOf(p) == FrameOf(q)
    ensures p == q
  {
    hide EncodePdoInput, DecodePdoInput, PdoInput.Valid, PdoInput.Fits;
    PdoInputRoundTrip(p);
    PdoInputRoundTrip(q);
  }

  /** A frame is a chunk of one cycle only, at one place. */
  lemma FrameTellsCycle(h: seq<Cycle>, c: Cycle, j: nat, d: Cycle, k: nat)
    requires History(h) && c in h && d in h && c.Valid() && d.Valid() && j < |c.Chunks()| && k < |d.Chunks()|
    requires FrameOf(c.Chunks()[j]) == FrameOf(d.Chunks()[k])
    ensures c == d && j == k
  {
    hide Cycle.ChunksTo, FrameOf, PdoInput.Valid, PdoInput.Fits, SliceOf, Cycle.Valid;
    ChunkTags(c, |c.subs|, j);
    ChunkTags(d, |d.subs|, k);
    FrameTellsChunk(c.Chunks()[j], d.Chunks()[k]);
    var t :| 0 <= t < |h| && h[t] == c;
    var u :| 0 <= u < |h| && h[u] == d;
    assert t == u;
    if j < k {
      ChunksAreDistinct(c, |c.subs|, j, k);
    } else if k < j {
      ChunksAreDistinct(c, |c.subs|, k, j);
    }
  }

  // ---------------------------------------------------------------- the client before a publication

  /** The frame opens or feeds no assembly of the cycle. */
  ghost predicate NotOf(c: Cycle, f: Frame) {
    f.code == PDO_INPUT && DecodePdoInput(f.payload).Some? ==>
      var p := DecodePdoInput(f.payload).value;
      p.bus != c.bus || p.epoch != c.epoch || p.sequence != c.sequence
  }

  lemma OpenedNoneOf(s: seq<Assembly>, p: PdoInput, c: Cycle)
    requires NoneOfCycle(s, c) && (p.bus != c.bus || p.epoch != c.epoch || p.sequence != c.sequence)
    ensures NoneOfCycle(Opened(s, p).0, c)
  {
    hide WithoutStale, FindCurrent, EvictAssemblies, EmptyBuffer, Assembly.Valid;
    var kept := WithoutStale(s, p);
    assert forall a :: a in kept ==> a in s;
  }

  lemma AssembledNoneOf(s: State, p: PdoInput, c: Cycle)
    requires Bounded(s) && p.Valid() && NoneOfCycle(s.assemblies, c)
    requires p.bus != c.bus || p.epoch != c.epoch || p.sequence != c.sequence
    ensures NoneOfCycle(Assembled(s, p).assemblies, c)
  {
    hide Bounded, Merged, Complete, Conflict, Opened, EvictImages, AllValid, CountTrue;
    OpenedBounded(s, p);
    OpenedNoneOf(s.assemblies, p, c);
  }

  lemma ReceivedNoneOf(s: State, session: nat, f: Frame, c: Cycle)
    requires Bounded(s) && NoneOfCycle(s.assemblies, c) && NotOf(c, f) && Received(s, session, f).Some?
    ensures NoneOfCycle(Received(s, session, f).value.assemblies, c)
  {
    hide Bounded, Assembled, NoneOfCycle;
    if f.code == PDO_INPUT && DecodePdoInput(f.payload).Some? {
      AssembledNoneOf(s, DecodePdoInput(f.payload).value, c);
    }
  }

  lemma {:induction false} ReadNoneOf(session: nat, readings: seq<Reading>, c: Cycle)
    requires ReadAll(NEW_READER, session, readings).Some?
    requires forall k :: 0 <= k < |Arrivals(readings)| ==> NotOf(c, Arrivals(readings)[k])
    ensures NoneOfCycle(ReadAll(NEW_READER, session, readings).value.state.assemblies, c)
    decreases |readings|
  {
    assert Bounded(NEW_READER.state);
    hide Bounded, Received, NotOf;
    if readings != [] {
      var (front, last) := (readings[..|readings| - 1], readings[|readings| - 1]);
      forall k | 0 <= k < |Arrivals(front)| ensures NotOf(c, Arrivals(front)[k]) {
        assert Arrivals(front)[k] == Arrivals(readings)[k];
      }
      ReadNoneOf(session, front, c);
      var s := ReadAll(NEW_READER, session, front).value.state;
      if last.Arrive? {
        assert last.frame == Arrivals(readings)[|Arrivals(front)|];
        ReceivedNoneOf(s, session, last.frame, c);
      }
    }
  }

  /** Before a publication in a plan, nothing of its cycle was sent. */
  lemma NothingOfCycleBefore(h: seq<Cycle>, limits: seq<nat>, plan: seq<Item>, m: nat, k: nat)
    requires History(h) && IsPlan(h, limits, plan) && m < |plan| && plan[m].Whole? && k < |Flat(h, plan[..m])|
    ensures NotOf(plan[m].cycle, Flat(h, plan[..m])[k])
  {
    hide Flat, History, Cycle.ChunksTo, FrameOf, Cycle.Valid;
    var a, at := Locate(h, plan[..m], k);
    assert plan[..m][a] == plan[a];
    if plan[a].Whole? {
      ChunkIsOf(plan[a].cycle, at, plan[m].cycle);
    }
  }

  lemma ChunkIsOf(d: Cycle, k: nat, c: Cycle)
    requires d.Valid() && k < |d.Chunks()| && (d.bus == c.bus ==> d.sequence < c.sequence)
    ensures NotOf(c, FrameOf(d.Chunks()[k]))
  {
    hide Cycle.ChunksTo, EncodePdoInput, DecodePdoInput, PdoInput.Valid, PdoInput.Fits, SliceOf;
    ChunkTags(d, |d.subs|, k);
    PdoInputRoundTrip(d.Chunks()[k]);
  }

  // ---------------------------------------------------------------- delivery

  function ArriveAll(frames: seq<Frame>): seq<Reading> {
    seq(|frames|, k requires 0 <= k < |frames| => Arrive(frames[k]))
  }

  lemma {:induction false} ArrivalsAreReceived(r: Reader, session: nat, readings: seq<Reading>, frames: seq<Frame>)
    requires Bounded(r.state) && ReadAll(r, session, readings).Some?
    ensures
      var q := ReadAll(r, session, readings).value;
      var s := ReceivedAll(q.state, session, frames);
      ReadAll(r, session, readings + ArriveAll(frames)) == if s.None? then None else Some(Reader(s.value, q.taken))
    decreases |frames|
  {
    hide Bounded, Received;
    if frames == [] {
      assert readings + ArriveAll(frames) == readings;
    } else {
      var n := |frames| - 1;
      ArrivalsAreReceived(r, session, readings, frames[..n]);
      var all := readings + ArriveAll(frames);
      assert all[..|all| - 1] == readings + ArriveAll(frames[..n]);
      assert all[|all| - 1] == Arrive(frames[n]);
    }
  }

  /** A publication is received in one piece: what follows its first chunk is the rest of it. */
  lemma PublicationsAreContiguous(h: seq<Cycle>, limits: seq<nat>, plan: seq<Item>, c: Cycle, n: nat) returns (m: nat)
    requires History(h) && IsPlan(h, limits, plan) && c in h && c.Valid() && c.Chunks() != []
    requires n < |Flat(h, plan)| && Flat(h, plan)[n] == FrameOf(c.Chunks()[0])
    ensures m < |plan| && plan[m] == Whole(c) && Flat(h, plan)[..n] == Flat(h, plan[..m])
    ensures Flat(h, plan)[..n] + FramesOf(c.Chunks()) <= Flat(h, plan)
  {
    hide Flat, History, Cycle.ChunksTo, Cycle.Valid, EncodePdoInput;
    var at;
    m, at := Locate(h, plan, n);
    assert plan[m].Whole?;
    FrameTellsCycle(h, c, 0, plan[m].cycle, at);
    FlatPrefix(h, plan, m);
  }
}
