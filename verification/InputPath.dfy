/**
 Inputs end to end: from the IO map of one bus cycle to the image the client application receives.

 A cycle's snapshot travels as numbered chunks through the queue, is reassembled into one publication
 by the daemon's main loop, is queued to a client as frames, crosses a byte stream that may be split
 anywhere, is decoded and put back together.
 */
module InputPath {
  import opened Common
  import opened Bytes
  import opened Payloads
  import opened Framing
  import opened Reassembly
  import opened ClientAssembler
  import opened InputPublisher

  const PDO_INPUT: byte := 0x83
  const MAXIMUM_CLIENT_OUTPUT: nat := 2 * 1024 * 1024

  // ---------------------------------------------------------------- the daemon's accumulator

  datatype Publication = Publication(epoch: nat, frames: seq<seq<byte>>, totalBytes: nat)

  datatype Gathered = Gathered(
    epoch: nat, sequence: nat, expected: nat, next: nat, totalBytes: nat, frames: seq<seq<byte>>)

  const NOTHING: Gathered := Gathered(0, 0, 0, 0, 0, [])

  function FrameOf(p: PdoInput): Frame { Frame(PDO_INPUT, 0, EncodePdoInput(p)) }

  /** What one popped chunk does to the accumulator, and the publication it completes. */
  function Taken(g: Gathered, chunk: InputChunk, subscribed: bool): (Gathered, Option<Publication>) {
    if !subscribed || chunk.count == 0 || chunk.count > 128 || chunk.index >= chunk.count then (NOTHING, None)
    else
      var h := if chunk.index == 0
               then Gathered(chunk.header.epoch, chunk.header.sequence, chunk.count, 0, 0, []) else g;
      if h.epoch != chunk.header.epoch || h.sequence != chunk.header.sequence || h.expected != chunk.count
         || h.next != chunk.index || EncodePdoInput(chunk.header) == [] then (NOTHING, None)
      else
        var frame := Encode(FrameOf(chunk.header));
        if frame == [] || |frame| > MAXIMUM_CLIENT_OUTPUT - Min(h.totalBytes, MAXIMUM_CLIENT_OUTPUT)
        then (NOTHING, None)
        else
          var k := h.(totalBytes := h.totalBytes + |frame|, frames := h.frames + [frame], next := h.next + 1);
          if k.next != k.expected then (k, None)
          else (NOTHING, Some(Publication(k.epoch, k.frames, k.totalBytes)))
  }

  class InputPublicationAccumulator {
    var epoch: nat
    var cycleSequence: nat
    var expectedChunks: nat
    var nextChunk: nat
    var totalBytes: nat
    var frames: seq<seq<byte>>

    function View(): Gathered
      reads this
    {
      Gathered(epoch, cycleSequence, expectedChunks, nextChunk, totalBytes, frames)
    }

    constructor ()
      ensures View() == NOTHING
    {
      epoch, cycleSequence, expectedChunks, nextChunk, totalBytes, frames := 0, 0, 0, 0, 0, [];
    }

    method Reset()
      modifies this
      ensures View() == NOTHING
    {
      epoch, cycleSequence, expectedChunks, nextChunk, totalBytes, frames := 0, 0, 0, 0, 0, [];
    }

    method Take(chunk: InputChunk, subscribed: bool) returns (publication: Option<Publication>)
      modifies this
      ensures (View(), publication) == Taken(old(View()), chunk, subscribed)
    {
      publication := None;
      if !subscribed {
        Reset();
        return;
      }
      if chunk.count == 0 || chunk.count > 128 || chunk.index >= chunk.count {
        Reset();
        return;
      }
      if chunk.index == 0 {
        Reset();
        epoch, cycleSequence, expectedChunks := chunk.header.epoch, chunk.header.sequence, chunk.count;
      }
      if epoch != chunk.header.epoch || cycleSequence != chunk.header.sequence
         || expectedChunks != chunk.count || nextChunk != chunk.index {
        Reset();
        return;
      }
      var payload := EncodePdoInput(chunk.header);
      if payload == [] {
        Reset();
        return;
      }
      var frame := Encode(Frame(PDO_INPUT, 0, payload));
      if frame == [] || |frame| > MAXIMUM_CLIENT_OUTPUT - Min(totalBytes, MAXIMUM_CLIENT_OUTPUT) {
        Reset();
        return;
      }
      totalBytes := totalBytes + |frame|;
      frames := frames + [frame];
      nextChunk := nextChunk + 1;
      if nextChunk != expectedChunks {
        return;
      }
      publication := Some(Publication(epoch, frames, totalBytes));
      Reset();
    }
  }

  /** The accumulator after a run of popped chunks, and the publications it completed on the way. */
  function TakeAll(g: Gathered, chunks: seq<InputChunk>, subscribed: seq<bool>): (Gathered, seq<Publication>)
    requires |subscribed| == |chunks|
    decreases |chunks|
  {
    if chunks == [] then (g, [])
    else
      var n := |chunks| - 1;
      var (h, out) := TakeAll(g, chunks[..n], subscribed[..n]);
      var (k, p) := Taken(h, chunks[n], subscribed[n]);
      (k, if p.Some? then out + [p.value] else out)
  }

  function FramesOf(ps: seq<PdoInput>): (r: seq<Frame>)
    ensures |r| == |ps|
  {
    seq(|ps|, i requires 0 <= i < |ps| => FrameOf(ps[i]))
  }

  function BytesOf(ps: seq<PdoInput>): seq<seq<byte>> {
    seq(|ps|, i requires 0 <= i < |ps| => Encode(FrameOf(ps[i])))
  }

  function TotalOf(frames: seq<seq<byte>>): nat {
    if frames == [] then 0 else TotalOf(frames[..|frames| - 1]) + |frames[|frames| - 1]|
  }

  /** The count that goes with a publication is the number of its bytes. */
  lemma {:induction false} TotalIsJoined(frames: seq<seq<byte>>)
    ensures TotalOf(frames) == |Joined(frames)|
  {
    if frames != [] {
      TotalIsJoined(frames[..|frames| - 1]);
    }
  }

  /** The one publication that stands for a cycle. */
  function PublicationOf(c: Cycle): Publication
    requires c.Valid()
  {
    var frames := BytesOf(c.Chunks());
    Publication(c.epoch, frames, TotalOf(frames))
  }

  predicate AllTrue(s: seq<bool>) { forall i :: 0 <= i < |s| ==> s[i] }

  lemma ChunkFrame(p: PdoInput)
    requires p.Fits() && p.Valid()
    ensures FrameOf(p).Encodable() && EncodePdoInput(p) != []
    ensures 0 < |Encode(FrameOf(p))| <= 1072
  {
    PdoInputRoundTrip(p);
    HeadOfEncoded(FrameOf(p), []);
  }

  lemma {:induction false} ChunkTags(c: Cycle, n: nat, k: nat)
    requires c.Valid() && n <= |c.subs| && k < |c.ChunksTo(n)|
    ensures
      var p := c.ChunksTo(n)[k];
      p.Fits() && p.Valid() && p.bus == c.bus && p.epoch == c.epoch && p.sequence == c.sequence
    ensures
      var p := c.ChunksTo(n)[k];
      1 <= p.sub <= n && c.Readable(p.sub - 1) && SliceOf(c.ImageOf(p.sub - 1), p)
  {
    hide Cycle.ImageOf, Cycle.ChunkOf, SliceOf, PdoInput.Valid, PdoInput.Fits, Cycle.Readable, SubDevice.Chunks;
    if k < |c.ChunksTo(n - 1)| {
      ChunkTags(c, n - 1, k);
    } else {
      var j := k - |c.ChunksTo(n - 1)|;
      assert c.ChunksTo(n)[k] == c.SubChunks(n - 1)[j] == c.ChunkOf(n - 1, j);
      ChunkIsTagged(c, n - 1, j);
    }
  }

  lemma ChunkIsTagged(c: Cycle, i: nat, j: nat)
    requires c.Valid() && i < |c.subs| && c.Readable(i) && j < c.subs[i].Chunks()
    ensures
      var p := c.ChunkOf(i, j);
      && p.Fits() && p.Valid() && KeyOf(p) == Key(c.bus, i + 1, c.epoch, c.sequence) && SliceOf(c.ImageOf(i), p)
  {
    hide Cycle.ImageOf;
  }

  lemma {:induction false} TotalBound(ps: seq<PdoInput>)
    requires forall i :: 0 <= i < |ps| ==> ps[i].Fits() && ps[i].Valid()
    ensures TotalOf(BytesOf(ps)) <= 1072 * |ps|
    decreases |ps|
  {
    if ps != [] {
      var front := ps[..|ps| - 1];
      TotalBound(front);
      assert BytesOf(ps)[..|ps| - 1] == BytesOf(front);
      ChunkFrame(ps[|ps| - 1]);
    }
  }

  /** The accumulator after `k` chunks of a snapshot whose every chunk found a subscriber. */
  function Tracking(c: Cycle, k: nat): Gathered
    requires c.Valid() && k <= |c.Chunks()|
  {
    var frames := BytesOf(c.Chunks()[..k]);
    Gathered(c.epoch, c.sequence, |c.Chunks()|, k, TotalOf(frames), frames)
  }

  lemma TrackingGrows(c: Cycle, k: nat)
    requires c.Valid() && k < |c.Chunks()|
    ensures Tracking(c, 0) == Gathered(c.epoch, c.sequence, |c.Chunks()|, 0, 0, [])
    ensures Tracking(c, k).totalBytes <= 1072 * k
    ensures
      var (g, frame) := (Tracking(c, k), Encode(FrameOf(c.Chunks()[k])));
      Tracking(c, k + 1) == g.(totalBytes := g.totalBytes + |frame|, frames := g.frames + [frame], next := g.next + 1)
  {
    hide Cycle.ChunksTo, FrameOf, Encode;
    var all := c.Chunks();
    forall i | 0 <= i < k ensures all[..k][i].Fits() && all[..k][i].Valid() {
      ChunkTags(c, |c.subs|, i);
    }
    TotalBound(all[..k]);
    assert all[..0] == [];
    assert BytesOf(all[..k + 1]) == BytesOf(all[..k]) + [Encode(FrameOf(all[k]))];
    assert BytesOf(all[..k + 1])[..k] == BytesOf(all[..k]);
  }

  lemma TrackingEnds(c: Cycle)
    requires c.Valid()
    ensures
      var g := Tracking(c, |c.Chunks()|);
      g.expected == g.next == |c.Chunks()| && PublicationOf(c) == Publication(g.epoch, g.frames, g.totalBytes)
  {
    hide Cycle.ChunksTo;
    assert c.Chunks()[..|c.Chunks()|] == c.Chunks();
  }

  lemma TrackingFields(c: Cycle, k: nat)
    requires c.Valid() && k <= |c.Chunks()|
    ensures
      var g := Tracking(c, k);
      g.epoch == c.epoch && g.sequence == c.sequence && g.expected == |c.Chunks()| && g.next == k
  {
  }

  lemma TrackingStep(c: Cycle, k: nat, g: Gathered)
    requires c.Valid() && k < |c.Chunks()| <= 128
    requires k == 0 || g == Tracking(c, k)
    ensures Taken(g, c.Snapshot()[k], true)
         == if k + 1 == |c.Chunks()| then (NOTHING, Some(PublicationOf(c))) else (Tracking(c, k + 1), None)
  {
    hide Cycle.ChunksTo, Tracking, PublicationOf, EncodePdoInput, Encode, PdoInput.Valid, PdoInput.Fits, FrameOf;
    var p := c.Chunks()[k];
    assert c.Snapshot()[k] == InputChunk(p, k, |c.Chunks()|);
    ChunkTags(c, |c.subs|, k);
    ChunkFrame(p);
    TrackingGrows(c, k);
    TrackingFields(c, k);
    TrackingFields(c, k + 1);
    TrackingEnds(c);
  }

  lemma LostStep(c: Cycle, k: nat, subscribed: bool)
    requires c.Valid() && 0 < k < |c.Chunks()|
    ensures Taken(NOTHING, c.Snapshot()[k], subscribed) == (NOTHING, None)
  {
  }

  /** One more chunk of a snapshot. */
  lemma SnapshotStep(c: Cycle, g: Gathered, k: nat, before: seq<bool>, now: bool)
    requires c.Valid() && k < |c.Chunks()| <= 128 && |before| == k
    requires k == 0 || g == (if AllTrue(before) then Tracking(c, k) else NOTHING)
    ensures Taken(g, c.Snapshot()[k], now)
         == if !AllTrue(before + [now]) then (NOTHING, None)
            else if k + 1 == |c.Chunks()| then (NOTHING, Some(PublicationOf(c)))
            else (Tracking(c, k + 1), None)
  {
    hide Tracking, Cycle.Chunks, PublicationOf;
    assert (before + [now])[k] == now;
    if !now {
    } else if AllTrue(before) {
      TrackingStep(c, k, g);
      assert AllTrue(before + [now]);
    } else {
      var i :| 0 <= i < |before| && !before[i];
      assert !(before + [now])[i];
      LostStep(c, k, now);
    }
  }

  /** Part of a snapshot taken from any state. */
  lemma {:induction false} PartialSnapshot(c: Cycle, g: Gathered, k: nat, subscribed: seq<bool>)
    requires c.Valid() && k < |c.Chunks()| <= 128 && |subscribed| == k
    ensures TakeAll(g, c.Snapshot()[..k], subscribed)
         == (if k == 0 then g else if AllTrue(subscribed) then Tracking(c, k) else NOTHING, [])
  {
    hide Tracking, Cycle.Chunks, Taken, AllTrue, PublicationOf;
    if k > 0 {
      var (chunks, n) := (c.Snapshot()[..k], k - 1);
      assert chunks[..n] == c.Snapshot()[..n] && chunks[n] == c.Snapshot()[n];
      PartialSnapshot(c, g, n, subscribed[..n]);
      SnapshotStep(c, TakeAll(g, chunks[..n], subscribed[..n]).0, n, subscribed[..n], subscribed[n]);
      assert subscribed == subscribed[..n] + [subscribed[n]];
    }
  }

  /** A snapshot is published whole exactly when every one of its chunks found a subscriber. */
  lemma SnapshotIsAllOrNothing(c: Cycle, g: Gathered, subscribed: seq<bool>)
    requires c.Valid() && 0 < |c.Chunks()| <= 128 && |subscribed| == |c.Chunks()|
    ensures TakeAll(g, c.Snapshot(), subscribed)
         == (NOTHING, if AllTrue(subscribed) then [PublicationOf(c)] else [])
  {
    hide Tracking, Cycle.Chunks, Taken, AllTrue, PublicationOf;
    var (chunks, n) := (c.Snapshot(), |c.Chunks()| - 1);
    PartialSnapshot(c, g, n, subscribed[..n]);
    SnapshotStep(c, TakeAll(g, chunks[..n], subscribed[..n]).0, n, subscribed[..n], subscribed[n]);
    assert subscribed == subscribed[..n] + [subscribed[n]];
    assert [] + [PublicationOf(c)] == [PublicationOf(c)];
  }

  // ---------------------------------------------------------------- a whole queue of snapshots

  /** Cycles whose snapshots enter the queue. */
  predicate Publishable(cycles: seq<Cycle>) {
    forall i :: 0 <= i < |cycles| ==> cycles[i].Valid() && 0 < |cycles[i].Chunks()| <= MAXIMUM_CHUNKS
  }

  function Stream(cycles: seq<Cycle>): seq<InputChunk>
    requires Publishable(cycles)
  {
    if cycles == [] then [] else Stream(cycles[..|cycles| - 1]) + cycles[|cycles| - 1].Snapshot()
  }

  /** The publications of the cycles all of whose chunks found a subscriber. */
  function Publications(cycles: seq<Cycle>, subscribed: seq<bool>): seq<Publication>
    requires Publishable(cycles) && |subscribed| == |Stream(cycles)|
    decreases |cycles|
  {
    if cycles == [] then []
    else
      var (front, c) := (cycles[..|cycles| - 1], cycles[|cycles| - 1]);
      var n := |Stream(front)|;
      Publications(front, subscribed[..n]) + if AllTrue(subscribed[n..]) then [PublicationOf(c)] else []
  }

  lemma {:induction false} TakeAllAppend(g: Gathered, xs: seq<InputChunk>, ys: seq<InputChunk>, us: seq<bool>,
                                         vs: seq<bool>)
    requires |us| == |xs| && |vs| == |ys|
    ensures
      var (h, out) := TakeAll(g, xs, us);
      TakeAll(g, xs + ys, us + vs) == (TakeAll(h, ys, vs).0, out + TakeAll(h, ys, vs).1)
    decreases |ys|
  {
    hide Taken;
    if ys == [] {
      assert xs + ys == xs && us + vs == us;
      assert TakeAll(g, xs, us).1 + [] == TakeAll(g, xs, us).1;
    } else {
      var n := |ys| - 1;
      TakeAllAppend(g, xs, ys[..n], us, vs[..n]);
      assert (xs + ys)[..|xs| + n] == xs + ys[..n] && (us + vs)[..|us| + n] == us + vs[..n];
      var (h, out) := TakeAll(g, xs, us);
      var (k, more) := TakeAll(h, ys[..n], vs[..n]);
      var p := Taken(k, ys[n], vs[n]).1;
      assert p.Some? ==> (out + more) + [p.value] == out + (more + [p.value]);
    }
  }

  /** The main loop publishes exactly the snapshots that were subscribed to throughout, each whole and in order. */
  lemma {:induction false} DrainPublishesSnapshots(cycles: seq<Cycle>, subscribed: seq<bool>)
    requires Publishable(cycles) && |subscribed| == |Stream(cycles)|
    ensures TakeAll(NOTHING, Stream(cycles), subscribed) == (NOTHING, Publications(cycles, subscribed))
    decreases |cycles|
  {
    hide PublicationOf, Cycle.Snapshot, Cycle.Chunks, Cycle.Valid, TakeAll, AllTrue;
    if cycles == [] {
      TakeNone();
    } else {
      var (front, c) := (cycles[..|cycles| - 1], cycles[|cycles| - 1]);
      var n := |Stream(front)|;
      DrainPublishesSnapshots(front, subscribed[..n]);
      assert subscribed == subscribed[..n] + subscribed[n..];
      DrainOneMore(Stream(front), c, subscribed[..n], subscribed[n..]);
    }
  }

  lemma DrainOneMore(before: seq<InputChunk>, c: Cycle, us: seq<bool>, vs: seq<bool>)
    requires c.Valid() && 0 < |c.Chunks()| <= MAXIMUM_CHUNKS && |us| == |before| && |vs| == |c.Chunks()|
    requires TakeAll(NOTHING, before, us).0 == NOTHING
    ensures TakeAll(NOTHING, before + c.Snapshot(), us + vs)
         == (NOTHING, TakeAll(NOTHING, before, us).1 + if AllTrue(vs) then [PublicationOf(c)] else [])
  {
    hide PublicationOf, Cycle.Chunks, TakeAll, AllTrue;
    TakeAllAppend(NOTHING, before, c.Snapshot(), us, vs);
    SnapshotIsAllOrNothing(c, NOTHING, vs);
  }

  lemma TakeNone()
    ensures TakeAll(NOTHING, [], []) == (NOTHING, [])
  {
  }

  // ---------------------------------------------------------------- the client

  /** What a frame does to the client's assembler; None is a protocol failure. */
  function Received(s: State, session: nat, f: Frame): Option<State>
    requires Bounded(s)
  {
    if f.code != PDO_INPUT then Some(s)
    else if f.requestId != 0 || DecodePdoInput(f.payload).None? then None
    else
      var p := DecodePdoInput(f.payload).value;
      if p.epoch != session then Some(s) else Some(Assembled(s, p))
  }

  function ReceivedAll(s: State, session: nat, frames: seq<Frame>): (r: Option<State>)
    requires Bounded(s)
    ensures r.Some? ==> Bounded(r.value)
    decreases |frames|
  {
    if frames == [] then Some(s)
    else
      var before := ReceivedAll(s, session, frames[..|frames| - 1]);
      if before.None? then None
      else
        var f := frames[|frames| - 1];
        ReceivedBounded(before.value, session, f);
        Received(before.value, session, f)
  }

  lemma ReceivedBounded(s: State, session: nat, f: Frame)
    requires Bounded(s)
    ensures Received(s, session, f).Some? ==> Bounded(Received(s, session, f).value)
  {
    hide Bounded;
    if f.code == PDO_INPUT && f.requestId == 0 && DecodePdoInput(f.payload).Some? {
      AssembledBounded(s, DecodePdoInput(f.payload).value);
    }
  }

  /** The client, and every image that the application has popped from its queue. */
  datatype Reader = Reader(state: State, taken: seq<Image>)

  datatype Reading = Arrive(frame: Frame) | PopImage

  const NEW_READER: Reader := Reader(State([], []), [])

  function Popping(r: Reader): Reader {
    if r.state.images == [] then r
    else r.(state := r.state.(images := r.state.images[1..]), taken := r.taken + [r.state.images[0]])
  }

  lemma PoppingBounded(r: Reader)
    requires Bounded(r.state)
    ensures Bounded(Popping(r).state)
  {
  }

  /** The client after frames have arrived and images have been popped, in any order; None is a protocol failure. */
  function ReadAll(r: Reader, session: nat, readings: seq<Reading>): (q: Option<Reader>)
    requires Bounded(r.state)
    ensures q.Some? ==> Bounded(q.value.state)
    decreases |readings|
  {
    if readings == [] then Some(r)
    else
      var before := ReadAll(r, session, readings[..|readings| - 1]);
      if before.None? then None
      else
        match readings[|readings| - 1]
        case Arrive(f) =>
          ReceivedBounded(before.value.state, session, f);
          var t := Received(before.value.state, session, f);
          if t.None? then None else Some(before.value.(state := t.value))
        case PopImage =>
          PoppingBounded(before.value);
          Some(Popping(before.value))
  }

  function Arrivals(readings: seq<Reading>): seq<Frame> {
    if readings == [] then []
    else
      var last := readings[|readings| - 1];
      Arrivals(readings[..|readings| - 1]) + if last.Arrive? then [last.frame] else []
  }

  // ---------------------------------------------------------------- the history of all buses

  /** Every cycle has its own tag: a bus numbers its cycles upwards. */
  ghost predicate History(h: seq<Cycle>) {
    && (forall t :: 0 <= t < |h| ==> h[t].Valid())
    && (forall t, u :: 0 <= t < u < |h| && h[t].bus == h[u].bus ==> h[t].sequence < h[u].sequence)
  }

  ghost predicate ImageAt(c: Cycle, key: Key, data: seq<byte>)
    requires c.Valid()
  {
    && key == Key(c.bus, key.sub, c.epoch, c.sequence)
    && 1 <= key.sub <= |c.subs| && c.Readable(key.sub - 1) && data == c.ImageOf(key.sub - 1)
  }

  /** The bytes are the process image of SubDevice `key.sub` in the cycle that `key` names. */
  ghost predicate ImageOfCycle(h: seq<Cycle>, key: Key, data: seq<byte>)
    requires History(h)
  {
    exists t :: 0 <= t < |h| && ImageAt(h[t], key, data)
  }

  function CycleWorld(c: Cycle): World
    requires c.Valid()
  {
    map i | 0 <= i < |c.subs| && c.Readable(i) :: Key(c.bus, i + 1, c.epoch, c.sequence) := c.ImageOf(i)
  }

  ghost function HistoryWorld(h: seq<Cycle>): World
    requires History(h)
  {
    if h == [] then map[] else HistoryWorld(h[..|h| - 1]) + CycleWorld(h[|h| - 1])
  }

  lemma CycleWorldIsCycle(c: Cycle, key: Key)
    requires c.Valid() && key in CycleWorld(c)
    ensures ImageAt(c, key, CycleWorld(c)[key])
  {
    hide Cycle.ImageOf;
    var i :| 0 <= i < |c.subs| && c.Readable(i) && key == Key(c.bus, i + 1, c.epoch, c.sequence);
  }

  lemma {:induction false} WorldIsHistory(h: seq<Cycle>, key: Key)
    requires History(h) && key in HistoryWorld(h)
    ensures ImageOfCycle(h, key, HistoryWorld(h)[key])
  {
    hide CycleWorld, ImageAt, Cycle.Valid;
    var (front, c) := (h[..|h| - 1], h[|h| - 1]);
    if key in CycleWorld(c) {
      CycleWorldIsCycle(c, key);
    } else {
      WorldIsHistory(front, key);
      var t :| 0 <= t < |front| && ImageAt(front[t], key, HistoryWorld(front)[key]);
      assert h[t] == front[t];
    }
  }

  lemma CycleInWorld(c: Cycle, i: nat)
    requires c.Valid() && i < |c.subs| && c.Readable(i)
    ensures
      var key := Key(c.bus, i + 1, c.epoch, c.sequence);
      key in CycleWorld(c) && CycleWorld(c)[key] == c.ImageOf(i)
  {
    hide Cycle.ImageOf;
  }

  lemma {:induction false} HistoryInWorld(h: seq<Cycle>, t: nat, i: nat)
    requires History(h) && t < |h| && i < |h[t].subs| && h[t].Readable(i)
    ensures
      var key := Key(h[t].bus, i + 1, h[t].epoch, h[t].sequence);
      key in HistoryWorld(h) && HistoryWorld(h)[key] == h[t].ImageOf(i)
    decreases |h|
  {
    hide Cycle.ImageOf, CycleWorld, Cycle.Readable, Cycle.Valid;
    var (front, c) := (h[..|h| - 1], h[|h| - 1]);
    var key := Key(h[t].bus, i + 1, h[t].epoch, h[t].sequence);
    if t < |h| - 1 {
      HistoryInWorld(front, t, i);
      if key in CycleWorld(c) {
        CycleWorldIsCycle(c, key);
      }
    } else {
      CycleInWorld(c, i);
    }
  }

  lemma PublishedChunksAreTrue(h: seq<Cycle>, t: nat, k: nat)
    requires History(h) && t < |h| && k < |h[t].Chunks()|
    ensures TrueTo(HistoryWorld(h), h[t].Chunks()[k])
  {
    hide Cycle.ImageOf, SliceOf, HistoryWorld, Cycle.ChunksTo, Cycle.Readable, PdoInput.Valid, PdoInput.Fits;
    ChunkTags(h[t], |h[t].subs|, k);
    HistoryInWorld(h, t, h[t].Chunks()[k].sub - 1);
  }

  // ---------------------------------------------------------------- end to end

  ghost predicate ChunkFrameOf(c: Cycle, f: Frame)
    requires c.Valid()
  {
    exists k :: 0 <= k < |c.Chunks()| && f == FrameOf(c.Chunks()[k])
  }

  /** A frame the daemon may queue to a client: no input chunk, or a chunk of a published snapshot. */
  ghost predicate Sendable(h: seq<Cycle>, f: Frame)
    requires History(h)
  {
    && f.Encodable()
    && (f.code == PDO_INPUT ==> exists t :: 0 <= t < |h| && ChunkFrameOf(h[t], f))
  }

  ghost predicate AllOfCycles(h: seq<Cycle>, session: nat, images: seq<Image>)
    requires History(h)
  {
    forall i :: 0 <= i < |images| ==> images[i].key.epoch == session && ImageOfCycle(h, images[i].key, images[i].data)
  }

  /** What the application has popped, and what it may still pop. */
  ghost predicate Delivers(h: seq<Cycle>, session: nat, r: Reader)
    requires History(h)
  {
    AllOfCycles(h, session, r.taken) && AllOfCycles(h, session, r.state.images)
  }

  ghost predicate OfSession(session: nat, s: State) {
    && (forall i :: 0 <= i < |s.assemblies| ==> s.assemblies[i].key.epoch == session)
    && (forall i :: 0 <= i < |s.images| ==> s.images[i].key.epoch == session)
  }

  lemma OpenedOfSession(session: nat, s: seq<Assembly>, p: PdoInput)
    requires p.epoch == session && OfSession(session, State(s, []))
    ensures OfSession(session, State(Opened(s, p).0, []))
  {
    hide WithoutStale, FindCurrent, EvictAssemblies, EmptyBuffer, Assembly.Valid;
    var kept := WithoutStale(s, p);
    forall i | 0 <= i < |kept| ensures kept[i].key.epoch == session {
      assert kept[i] in s;
    }
  }

  lemma AssembledOfSession(session: nat, s: State, p: PdoInput)
    requires Bounded(s) && p.Valid() && p.epoch == session && OfSession(session, s)
    ensures OfSession(session, Assembled(s, p))
  {
    hide Bounded, Merged, Complete, Conflict, Opened, EvictImages, AllValid, CountTrue;
    OpenedBounded(s, p);
    OpenedOfSession(session, s.assemblies, p);
  }

  lemma ReceivedChunk(h: seq<Cycle>, t: nat, k: nat, session: nat, s: State)
    requires History(h) && t < |h| && k < |h[t].Chunks()|
    requires Bounded(s) && Truthful(HistoryWorld(h), s) && OfSession(session, s)
    ensures
      var r := Received(s, session, FrameOf(h[t].Chunks()[k]));
      r.Some? && Truthful(HistoryWorld(h), r.value) && OfSession(session, r.value)
  {
    hide Cycle.ChunksTo, HistoryWorld, Truthful, Bounded, OfSession, TrueTo, EncodePdoInput, DecodePdoInput;
    var p := h[t].Chunks()[k];
    ChunkTags(h[t], |h[t].subs|, k);
    PdoInputRoundTrip(p);
    PublishedChunksAreTrue(h, t, k);
    if p.epoch == session {
      DeliveredImagesAreExact(HistoryWorld(h), s, p);
      AssembledOfSession(session, s, p);
    }
  }

  lemma ReceivedTruthful(h: seq<Cycle>, session: nat, s: State, f: Frame)
    requires History(h) && Sendable(h, f) && Bounded(s) && Truthful(HistoryWorld(h), s) && OfSession(session, s)
    ensures Received(s, session, f).Some?
    ensures
      var t := Received(s, session, f).value;
      Truthful(HistoryWorld(h), t) && OfSession(session, t)
  {
    hide Cycle.Chunks, HistoryWorld, Truthful, Bounded, OfSession, FrameOf, Cycle.Valid;
    if f.code == PDO_INPUT {
      var t :| 0 <= t < |h| && ChunkFrameOf(h[t], f);
      var k :| 0 <= k < |h[t].Chunks()| && f == FrameOf(h[t].Chunks()[k]);
      ReceivedChunk(h, t, k, session, s);
    }
  }

  ghost predicate HonestReader(h: seq<Cycle>, session: nat, r: Reader)
    requires History(h)
  {
    && Bounded(r.state) && Truthful(HistoryWorld(h), r.state) && OfSession(session, r.state)
    && ImagesTrue(HistoryWorld(h), r.taken) && OfSession(session, State([], r.taken))
  }

  lemma PoppingHonest(h: seq<Cycle>, session: nat, r: Reader)
    requires History(h) && HonestReader(h, session, r)
    ensures HonestReader(h, session, Popping(r))
  {
    hide HistoryWorld, Bounded;
    PoppingBounded(r);
  }

  lemma ArrivalHonest(h: seq<Cycle>, session: nat, r: Reader, f: Frame)
    requires History(h) && HonestReader(h, session, r) && Sendable(h, f)
    ensures Received(r.state, session, f).Some?
    ensures HonestReader(h, session, r.(state := Received(r.state, session, f).value))
  {
    hide HistoryWorld, Bounded, Truthful, OfSession, Sendable, Received;
    ReceivedTruthful(h, session, r.state, f);
    ReceivedBounded(r.state, session, f);
  }

  lemma {:induction false} AllReadHonest(h: seq<Cycle>, session: nat, sent: seq<Frame>, readings: seq<Reading>)
    requires History(h) && (forall i :: 0 <= i < |sent| ==> Sendable(h, sent[i])) && Arrivals(readings) <= sent
    ensures ReadAll(NEW_READER, session, readings).Some?
    ensures HonestReader(h, session, ReadAll(NEW_READER, session, readings).value)
    decreases |readings|
  {
    if readings == [] {
      return;
    }
    hide HonestReader, Sendable, Received, Popping, Bounded, HistoryWorld;
    var (front, last) := (readings[..|readings| - 1], readings[|readings| - 1]);
    assert Arrivals(front) <= Arrivals(readings);
    AllReadHonest(h, session, sent, front);
    var r := ReadAll(NEW_READER, session, front).value;
    match last {
      case Arrive(f) =>
        assert f == Arrivals(readings)[|Arrivals(front)|] == sent[|Arrivals(front)|];
        ArrivalHonest(h, session, r, f);
      case PopImage => PoppingHonest(h, session, r);
    }
  }

  lemma HonestDelivers(h: seq<Cycle>, session: nat, r: Reader)
    requires History(h) && HonestReader(h, session, r)
    ensures Delivers(h, session, r)
  {
    hide HistoryWorld, ImageOfCycle, Bounded, AssembliesTrue;
    forall i | 0 <= i < |r.state.images| ensures ImageOfCycle(h, r.state.images[i].key, r.state.images[i].data) {
      WorldIsHistory(h, r.state.images[i].key);
    }
    forall i | 0 <= i < |r.taken| ensures ImageOfCycle(h, r.taken[i].key, r.taken[i].data) {
      WorldIsHistory(h, r.taken[i].key);
    }
  }

  /**
   End to end: for every history of all buses, every mix of frames queued to the client, every point in
   the byte stream and every way of cutting it, and whenever the application pops, each image that it
   has popped or may still pop is the whole process image of one SubDevice in one single cycle of the
   session's epoch.
   */
  lemma EveryImageIsOneCycle(h: seq<Cycle>, session: nat, sent: seq<Frame>, pieces: seq<seq<byte>>,
                             readings: seq<Reading>)
    requires History(h) && forall i :: 0 <= i < |sent| ==> Sendable(h, sent[i])
    requires SocketReads(pieces) && Joined(pieces) <= EncodeAll(sent) && Arrivals(readings) <= FeedAll(pieces).frames
    ensures FeedAll(pieces).decoder.error == NoError
    ensures ReadAll(NEW_READER, session, readings).Some?
    ensures Delivers(h, session, ReadAll(NEW_READER, session, readings).value)
  {
    hide Sendable, FeedAll, ReadAll, Joined, EncodeAll, Delivers, Arrivals, HonestReader;
    assert forall i :: 0 <= i < |sent| ==> sent[i].Encodable() by {
      forall i | 0 <= i < |sent| ensures sent[i].Encodable() {
        SendableEncodes(h, sent[i]);
      }
    }
    PrefixDecodes(sent, pieces);
    AllReadHonest(h, session, sent, readings);
    HonestDelivers(h, session, ReadAll(NEW_READER, session, readings).value);
  }

  lemma SendableEncodes(h: seq<Cycle>, f: Frame)
    requires History(h) && Sendable(h, f)
    ensures f.Encodable()
  {
  }

  // ---------------------------------------------------------------- nothing is lost

  ghost predicate NoneOfCycle(s: seq<Assembly>, c: Cycle) {
    forall a :: a in s ==> a.key.bus != c.bus || a.key.epoch != c.epoch || a.key.sequence != c.sequence
  }

  function ImageFor(c: Cycle, i: nat): Image
    requires c.Valid() && i < |c.subs| && c.Readable(i)
  {
    Image(Key(c.bus, i + 1, c.epoch, c.sequence), c.ImageOf(i))
  }

  /** The client's image queue after the images of the first `n` SubDevices. */
  function Queued(images: seq<Image>, c: Cycle, n: nat): seq<Image>
    requires c.Valid() && n <= |c.subs|
  {
    if n == 0 then images
    else
      var before := Queued(images, c, n - 1);
      if c.Readable(n - 1) then EvictImages(before, c.subs[n - 1].Bytes()) + [ImageFor(c, n - 1)] else before
  }

  lemma SubChunksAreOneImage(c: Cycle, i: nat)
    requires c.Valid() && i < |c.subs| && c.Readable(i)
    ensures |c.SubChunks(i)| == c.subs[i].Chunks() > 0
    ensures OneImage(Key(c.bus, i + 1, c.epoch, c.sequence), c.ImageOf(i), c.SubChunks(i))
  {
    hide Cycle.ImageOf, Cycle.ChunkOf, SliceOf, PdoInput.Valid, PdoInput.Fits;
    forall j | 0 <= j < |c.SubChunks(i)|
      ensures
        var p := c.SubChunks(i)[j];
        p.Valid() && KeyOf(p) == Key(c.bus, i + 1, c.epoch, c.sequence) && SliceOf(c.ImageOf(i), p)
    {
      ChunkIsTagged(c, i, j);
    }
  }

  lemma SubChunksCover(c: Cycle, i: nat)
    requires c.Valid() && i < |c.subs| && c.Readable(i)
    ensures |c.SubChunks(i)| > 0 && CoversAll(c.SubChunks(i), c.subs[i].Bytes())
    ensures !CoversAll(c.SubChunks(i)[..|c.SubChunks(i)| - 1], c.subs[i].Bytes())
  {
    hide Cycle.ImageOf;
    var (ps, size) := (c.SubChunks(i), c.subs[i].Bytes());
    forall j | 0 <= j < size ensures Covered(ps, j) {
      var k := j / MAXIMUM_PDO_CHUNK;
      assert ps[k] == c.ChunkOf(i, k);
    }
    var front := ps[..|ps| - 1];
    assert !Covered(front, size - 1) by {
      forall k | 0 <= k < |front| ensures front[k].offset + |front[k].data| <= size - 1 {
        assert front[k] == c.ChunkOf(i, k);
      }
    }
  }

  lemma SubDeviceIsDelivered(s: State, c: Cycle, i: nat)
    requires Bounded(s) && c.Valid() && i < |c.subs| && c.Readable(i) && NoneOfCycle(s.assemblies, c)
    ensures forall j :: 0 <= j < |c.SubChunks(i)| ==> c.SubChunks(i)[j].Valid()
    ensures
      var t := AssembledAll(s, c.SubChunks(i));
      t.images == EvictImages(s.images, c.subs[i].Bytes()) + [ImageFor(c, i)] && NoneOfCycle(t.assemblies, c)
  {
    SubChunksAreOneImage(c, i);
    SubChunksCover(c, i);
    hide Bounded, Cycle.SubChunks, Cycle.ImageOf, EvictImages, CoversAll, SliceOf, AssembledAll;
    CoveredImageIsDelivered(s, Key(c.bus, i + 1, c.epoch, c.sequence), c.ImageOf(i), c.SubChunks(i));
  }

  lemma {:induction false} AssembledAppend(s: State, xs: seq<PdoInput>, ys: seq<PdoInput>)
    requires Bounded(s) && forall i :: 0 <= i < |xs + ys| ==> (xs + ys)[i].Valid()
    ensures forall i :: 0 <= i < |xs| ==> xs[i].Valid()
    ensures forall i :: 0 <= i < |ys| ==> ys[i].Valid()
    ensures AssembledAll(s, xs + ys) == AssembledAll(AssembledAll(s, xs), ys)
    decreases |ys|
  {
    hide Bounded, Assembled, PdoInput.Valid;
    assert forall i :: 0 <= i < |xs| ==> xs[i] == (xs + ys)[i];
    assert forall i :: 0 <= i < |ys| ==> ys[i] == (xs + ys)[|xs| + i];
    if ys == [] {
      assert xs + ys == xs;
    } else {
      var n := |ys| - 1;
      assert (xs + ys)[..|xs| + n] == xs + ys[..n];
      AssembledAppend(s, xs, ys[..n]);
    }
  }

  lemma ChunksAreValid(c: Cycle, n: nat)
    requires c.Valid() && n <= |c.subs|
    ensures forall j :: 0 <= j < |c.ChunksTo(n)| ==> c.ChunksTo(n)[j].Valid()
  {
    hide Cycle.ChunksTo, PdoInput.Valid, SliceOf;
    forall j | 0 <= j < |c.ChunksTo(n)| ensures c.ChunksTo(n)[j].Valid() {
      ChunkTags(c, n, j);
    }
  }

  lemma NextSubDevice(s: State, c: Cycle, n: nat, chunks: seq<PdoInput>)
    requires Bounded(s) && c.Valid() && n < |c.subs| && forall j :: 0 <= j < |chunks| ==> chunks[j].Valid()
    requires NoneOfCycle(AssembledAll(s, chunks).assemblies, c)
    ensures forall j :: 0 <= j < |chunks + c.SubChunks(n)| ==> (chunks + c.SubChunks(n))[j].Valid()
    ensures
      var (t, u) := (AssembledAll(s, chunks), AssembledAll(s, chunks + c.SubChunks(n)));
      && NoneOfCycle(u.assemblies, c)
      && u.images == if c.Readable(n) then EvictImages(t.images, c.subs[n].Bytes()) + [ImageFor(c, n)] else t.images
  {
    hide Bounded, Assembled, PdoInput.Valid, Cycle.Readable, NoneOfCycle, EvictImages, AssembledAll;
    hide SubDevice.Bytes, Cycle.ChunkOf;
    if c.Readable(n) {
      SubDeviceIsDelivered(AssembledAll(s, chunks), c, n);
      AssembledAppend(s, chunks, c.SubChunks(n));
    } else {
      assert chunks + c.SubChunks(n) == chunks;
    }
  }

  lemma {:induction false} SnapshotToIsDelivered(s: State, c: Cycle, n: nat)
    requires Bounded(s) && c.Valid() && n <= |c.subs| && NoneOfCycle(s.assemblies, c)
    ensures forall j :: 0 <= j < |c.ChunksTo(n)| ==> c.ChunksTo(n)[j].Valid()
    ensures
      var t := AssembledAll(s, c.ChunksTo(n));
      t.images == Queued(s.images, c, n) && NoneOfCycle(t.assemblies, c)
  {
    hide Bounded, Assembled, PdoInput.Valid, Cycle.SubChunks, Cycle.Readable, NoneOfCycle, EvictImages, SubDevice.Bytes;
    ChunksAreValid(c, n);
    if n > 0 {
      SnapshotToIsDelivered(s, c, n - 1);
      NextSubDevice(s, c, n - 1, c.ChunksTo(n - 1));
    }
  }

  lemma {:induction false} FramesAreChunks(s: State, session: nat, ps: seq<PdoInput>)
    requires Bounded(s) && forall i :: 0 <= i < |ps| ==> ps[i].Fits() && ps[i].Valid() && ps[i].epoch == session
    ensures ReceivedAll(s, session, FramesOf(ps)) == Some(AssembledAll(s, ps))
    decreases |ps|
  {
    hide Bounded, Assembled, PdoInput.Valid, PdoInput.Fits, EncodePdoInput, DecodePdoInput;
    if ps != [] {
      var front := ps[..|ps| - 1];
      assert FramesOf(ps)[..|ps| - 1] == FramesOf(front);
      FramesAreChunks(s, session, front);
      PdoInputRoundTrip(ps[|ps| - 1]);
    }
  }

  /** A publication delivers the image of every SubDevice, in order, to a client with no assembly of its cycle open. */
  lemma WholeSnapshotIsDelivered(s: State, c: Cycle)
    requires Bounded(s) && c.Valid() && NoneOfCycle(s.assemblies, c)
    ensures
      var r := ReceivedAll(s, c.epoch, FramesOf(c.Chunks()));
      r.Some? && r.value.images == Queued(s.images, c, |c.subs|) && NoneOfCycle(r.value.assemblies, c)
  {
    hide Bounded, Cycle.ChunksTo, PdoInput.Valid, PdoInput.Fits, NoneOfCycle, ReceivedAll, AssembledAll, Queued;
    hide SliceOf;
    forall i | 0 <= i < |c.Chunks()|
      ensures var p := c.Chunks()[i]; p.Fits() && p.Valid() && p.epoch == c.epoch
    {
      ChunkTags(c, |c.subs|, i);
    }
    SnapshotToIsDelivered(s, c, |c.subs|);
    FramesAreChunks(s, c.epoch, c.Chunks());
  }

  function ImagesTo(c: Cycle, n: nat): (r: seq<Image>)
    requires c.Valid() && n <= |c.subs|
    ensures |r| <= n
  {
    if n == 0 then [] else ImagesTo(c, n - 1) + if c.Readable(n - 1) then [ImageFor(c, n - 1)] else []
  }

  lemma BytesBound(sub: SubDevice)
    requires sub.Valid()
    ensures sub.Bytes() <= 8192
  {
  }

  lemma RoomForOneMore(images: seq<Image>, image: Image, n: nat)
    requires |images| <= n < MAXIMUM_IMAGES && ImageStorage(images) <= 8192 * n && |image.data| <= 8192
    ensures EvictImages(images, |image.data|) == images
    ensures ImageStorage(images + [image]) <= 8192 * (n + 1)
  {
    hide ImageStorage, EvictImages;
    ImageStorageAppend(images, image);
    EvictOneImage(images, |image.data|);
  }

  /** A client that empties its queue between publications loses no image of a bus of up to 32 SubDevices. */
  lemma {:induction false} NothingIsEvicted(c: Cycle, n: nat)
    requires c.Valid() && n <= |c.subs| && n <= MAXIMUM_IMAGES
    ensures Queued([], c, n) == ImagesTo(c, n) && ImageStorage(ImagesTo(c, n)) <= 8192 * n
  {
    assert ImageStorage([]) == 0;
    hide Cycle.ImageOf, Cycle.Readable, SubDevice.Bytes, SubDevice.Valid, EvictImages, ImageStorage;
    if n > 0 {
      NothingIsEvicted(c, n - 1);
      if c.Readable(n - 1) {
        BytesBound(c.subs[n - 1]);
        RoomForOneMore(ImagesTo(c, n - 1), ImageFor(c, n - 1), n - 1);
      }
    }
  }
}
