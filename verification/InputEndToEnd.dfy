/**
 The whole input path in one system: the workers of all buses, the main loop that drains their queues,
 and the table of clients, every step of every thread in any interleaving.
 */
module InputEndToEnd {
  import opened Common
  import opened Bytes
  import opened LittleEndian
  import opened Framing
  import opened SafetyGates
  import opened Payloads
  import opened Reassembly
  import opened InputPublisher
  import opened InputPath
  import opened InputQueues
  import opened InputPlans
  import opened ClientFrames
  import E = ClientEvents
  import Spsc = SpscQueues

  lemma {:induction false} PublicationsAreOfCycles(cycles: seq<Cycle>, subscribed: seq<bool>, p: Publication)
    requires Publishable(cycles) && |subscribed| == |Stream(cycles)| && p in Publications(cycles, subscribed)
    ensures exists i :: 0 <= i < |cycles| && p == PublicationOf(cycles[i])
    decreases |cycles|
  {
    hide PublicationOf, Cycle.Chunks, Cycle.Valid, AllTrue, Cycle.Snapshot;
    var (front, c) := (cycles[..|cycles| - 1], cycles[|cycles| - 1]);
    var n := |Stream(front)|;
    if p in Publications(front, subscribed[..n]) {
      PublicationsAreOfCycles(front, subscribed[..n], p);
      var i :| 0 <= i < |front| && p == PublicationOf(front[i]);
      assert cycles[i] == front[i];
    } else {
      assert p == PublicationOf(c) && c == cycles[|cycles| - 1];
    }
  }

  /** Whatever the main loop has published so far is the publication of some cycle. */
  lemma DrainPublishesCycles(cycles: seq<Cycle>, popped: seq<InputChunk>, subscribed: seq<bool>, p: Publication)
    requires Publishable(cycles) && popped <= Stream(cycles) && |subscribed| == |popped|
    requires p in TakeAll(NOTHING, popped, subscribed).1
    ensures exists i :: 0 <= i < |cycles| && p == PublicationOf(cycles[i])
  {
    hide TakeAll, Stream, Publishable, PublicationOf;
    var all := Stream(cycles);
    var rest := all[|popped|..];
    var more := seq(|rest|, i => true);
    assert all == popped + rest;
    TakeAllAppend(NOTHING, popped, rest, subscribed, more);
    DrainPublishesSnapshots(cycles, subscribed + more);
    PublicationsAreOfCycles(cycles, subscribed + more, p);
  }

  // ---------------------------------------------------------------- the system

  /**
   One bus: its queue, the main loop's accumulator for it, whether each popped chunk found a subscriber,
   and the sequence of the last publication made.
   */
  datatype Bus = Bus(pipe: Pipe, sequence: nat, gathered: Gathered, subscribed: seq<bool>, published: nat)

  /** `history` lists every cycle of every bus that PublishInputs has been entered for. */
  datatype Daemon = Daemon(table: T.Table, buses: seq<Bus>, history: seq<Cycle>)

  /**
   One access of a worker, or one of the main loop popping from a queue, or an event of the client
   table. `chosen` are the clients that have subscribed and whose period has elapsed.
   */
  datatype Happening =
    | Worker(bus: nat, action: Action)
    | Main(bus: nat, subscribed: bool, chosen: set<nat>, now: Time)
    | Table(event: E.Event, now: Time)

  /** The daemon sends process data only by publishing it. */
  predicate Ordinary(e: E.Event) {
    match e
    case Hello(_, _, _, ack) => ack.Encodable() && ack.code != PDO_INPUT
    case Heartbeat(_, requestId, _) => requestId <= MAX_U32
    case Enable(_, requestId, _, _, _) => requestId <= MAX_U32
    case Write(_, requestId, _, _) => requestId <= MAX_U32
    case Release(_, requestId, _) => requestId <= MAX_U32
    case Unlock(_, requestId, _, _, _) => requestId <= MAX_U32
    case Queue(_, frame, _) => frame.Encodable() && frame.code != PDO_INPUT
    case Publish(_, _) => false
    case _ => true
  }

  /** A worker enters PublishInputs once in a cycle, and numbers its cycles upwards. */
  ghost predicate Enabled(d: Daemon, s: Happening) {
    match s
    case Worker(b, a) =>
      && b < |d.buses| && !a.Drain?
      && (a.Begin? ==>
            && d.buses[b].pipe.phase.Resting? && a.cycle.Valid()
            && a.cycle.bus == b && a.cycle.sequence > d.buses[b].sequence)
    case Main(b, _, _, _) => b < |d.buses|
    case Table(e, _) => E.Enabled(d.table, e) && Ordinary(e)
  }

  /** A publication offered to the first `n` clients; its epoch is compared anew for each of them. */
  ghost function PublishedTo(t: T.Table, p: Publication, chosen: set<nat>, n: nat, now: Time): T.Table {
    if n == 0 then t
    else
      var u := PublishedTo(t, p, chosen, n - 1, now);
      if n - 1 < |u.clients| && n - 1 in chosen && u.clients[n - 1].hello && u.clients[n - 1].open
         && p.epoch == u.gate.epoch
      then T.QueuedAll(u, n - 1, p.frames, now) else u
  }

  /** The main loop's access to the queue of one bus, and what it does with a chunk it has popped. */
  ghost function Drained(t: T.Table, bus: Bus, subscribed: bool, chosen: set<nat>, now: Time): (T.Table, Bus)
    requires bus.pipe.queue.ring.Valid()
  {
    var pipe := Draining(bus.pipe);
    var popped := pipe.queue.popped;
    if popped == bus.pipe.queue.popped || popped == [] then (t, bus.(pipe := pipe))
    else
      var chunk := popped[|popped| - 1];
      var (g, p) := Taken(bus.gathered, chunk, subscribed);
      (if p.Some? then PublishedTo(t, p.value, chosen, |t.clients|, now) else t,
       bus.(pipe := pipe, gathered := g, subscribed := bus.subscribed + [subscribed],
            published := if p.Some? then chunk.header.sequence else bus.published))
  }

  ghost function After(d: Daemon, s: Happening): Daemon
    requires DaemonInv(d) && Enabled(d, s)
  {
    match s
    case Worker(b, a) =>
      var bus := d.buses[b];
      var d' := d.(buses := d.buses[b := bus.(pipe := Acting(bus.pipe, a))]);
      if a.Begin? then Begins(d', b, a.cycle) else d'
    case Main(b, subscribed, chosen, now) =>
      var (t, bus) := Drained(d.table, d.buses[b], subscribed, chosen, now);
      d.(table := t, buses := d.buses[b := bus])
    case Table(e, now) => d.(table := E.Next(d.table, e, now))
  }

  ghost function Begins(d: Daemon, b: nat, c: Cycle): Daemon
    requires b < |d.buses|
  {
    d.(buses := d.buses[b := d.buses[b].(sequence := c.sequence)], history := d.history + [c])
  }

  // ---------------------------------------------------------------- its invariant

  /** The cycles that have entered the queue of a bus or are about to ask for it. */
  function Entered(pipe: Pipe): seq<Cycle> {
    pipe.done + if pipe.phase.Resting? then [] else [pipe.phase.cycle]
  }

  ghost predicate RisingCycles(cycles: seq<Cycle>) {
    forall i, j :: 0 <= i < j < |cycles| ==> cycles[i].sequence < cycles[j].sequence
  }

  /** The cycles are on record, of this bus, and in order. */
  ghost predicate OnRecord(h: seq<Cycle>, b: nat, cycles: seq<Cycle>, sequence: nat) {
    && RisingCycles(cycles)
    && forall i :: 0 <= i < |cycles| ==> cycles[i] in h && cycles[i].bus == b && cycles[i].sequence <= sequence
  }

  /** The last publication is not later than the last chunk, and earlier unless that chunk is the last of its cycle. */
  ghost predicate Behind(published: nat, popped: seq<InputChunk>) {
    if popped == [] then published == 0
    else
      var x := popped[|popped| - 1];
      published <= x.header.sequence && (x.index + 1 != x.count ==> published < x.header.sequence)
  }

  ghost predicate BusInv(h: seq<Cycle>, b: nat, bus: Bus) {
    && PipeInv(bus.pipe) && OnRecord(h, b, Entered(bus.pipe), bus.sequence)
    && |bus.subscribed| == |bus.pipe.queue.popped|
    && bus.gathered == TakeAll(NOTHING, bus.pipe.queue.popped, bus.subscribed).0
    && Behind(bus.published, bus.pipe.queue.popped)
  }

  ghost predicate Numbered(h: seq<Cycle>, buses: seq<Bus>) {
    forall t :: 0 <= t < |h| ==> h[t].bus < |buses| && h[t].sequence <= buses[h[t].bus].sequence
  }

  function Limits(buses: seq<Bus>): (r: seq<nat>)
    ensures |r| == |buses|
  {
    seq(|buses|, b requires 0 <= b < |buses| => buses[b].published)
  }

  ghost predicate AllPlanned(h: seq<Cycle>, limits: seq<nat>, clients: seq<T.Client>) {
    forall i :: 0 <= i < |clients| ==> Planned(h, limits, clients[i].sent)
  }

  ghost predicate DaemonInv(d: Daemon) {
    && History(d.history) && Numbered(d.history, d.buses)
    && (forall b :: 0 <= b < |d.buses| ==> BusInv(d.history, b, d.buses[b]))
    && E.Inv(d.table) && AllPlanned(d.history, Limits(d.buses), d.table.clients)
  }

  // ---------------------------------------------------------------- an event of the client table

  lemma OtherIsOrdinary(f: Frame)
    requires f.Encodable() && f.code != PDO_INPUT
    ensures Encode(f) in Ordinaries()
  {
    hide Encode;
  }

  lemma BroadcastsAreOrdinary()
    ensures Broadcasts(Ordinaries())
  {
    hide Ordinaries, Encode, T.ReasonCode;
    forall reason, bus, epoch ensures T.DisabledFrame(reason, bus, epoch) in Ordinaries() {
      Widths();
      OtherIsOrdinary(Frame(0x86, 0, Le(T.ReasonCode(reason), 2) + Le(bus, 2) + Le(epoch, 8)));
    }
  }

  lemma AnswersAreOrdinary(requestId: nat)
    requires requestId <= MAX_U32
    ensures Answers(requestId, Ordinaries())
  {
    hide Ordinaries, Encode, T.StatusCode;
    forall status ensures Encode(T.Ack(requestId, status)) in Ordinaries() {
      OtherIsOrdinary(T.Ack(requestId, status));
    }
  }

  lemma OrdinaryBrings(e: E.Event)
    requires Ordinary(e)
    ensures Brings(e, Ordinaries())
  {
    hide Ordinaries, Encode, Answers;
    match e {
      case Hello(_, _, _, ack) => OtherIsOrdinary(ack);
      case Heartbeat(_, requestId, _) => AnswersAreOrdinary(requestId);
      case Enable(_, requestId, _, _, _) => AnswersAreOrdinary(requestId);
      case Write(_, requestId, _, _) => AnswersAreOrdinary(requestId);
      case Release(_, requestId, _) => AnswersAreOrdinary(requestId);
      case Unlock(_, requestId, _, _, _) => AnswersAreOrdinary(requestId);
      case Throttle(_) => OtherIsOrdinary(T.Ack(0, QueueFull).(code := 0x85));
      case Queue(_, frame, _) => OtherIsOrdinary(frame);
      case _ =>
    }
  }

  lemma GrownIsPlanned(h: seq<Cycle>, limits: seq<nat>, before: seq<T.Client>, after: seq<T.Client>)
    requires AllPlanned(h, limits, before) && Grown(before, after, Ordinaries())
    ensures AllPlanned(h, limits, after)
  {
    hide Planned, Extends, Ordinaries;
    forall j | 0 <= j < |after| ensures Planned(h, limits, after[j].sent) {
      if after[j].sent == [] {
        NothingPlanned(h, limits);
      } else {
        assert GrownFrom(before, after[j].sent, Ordinaries());
        var i :| 0 <= i < |before| && Extends(before[i].sent, after[j].sent, Ordinaries());
        PlannedExtends(h, limits, before[i].sent, after[j].sent);
      }
    }
  }

  lemma TableKeepsInv(d: Daemon, e: E.Event, now: Time)
    requires DaemonInv(d) && Enabled(d, Table(e, now))
    ensures DaemonInv(After(d, Table(e, now)))
  {
    hide History, Numbered, BusInv, AllPlanned, Grown, Broadcasts, Brings, E.Next, T.Sound, T.Informed, E.Enabled;
    BroadcastsAreOrdinary();
    OrdinaryBrings(e);
    E.NextKeepsInv(d.table, e, now);
    NextGrows(d.table, e, now, Ordinaries());
    GrownIsPlanned(d.history, Limits(d.buses), d.table.clients, E.Next(d.table, e, now).clients);
  }

  // ---------------------------------------------------------------- an access of a worker

  lemma HistoryGrows(h: seq<Cycle>, c: Cycle)
    requires History(h) && c.Valid() && forall t :: 0 <= t < |h| && h[t].bus == c.bus ==> h[t].sequence < c.sequence
    ensures History(h + [c])
  {
    hide Cycle.Valid;
  }

  lemma PlannedWithMore(h: seq<Cycle>, c: Cycle, limits: seq<nat>, clients: seq<T.Client>)
    requires AllPlanned(h, limits, clients)
    ensures AllPlanned(h + [c], limits, clients)
  {
    hide Planned;
    forall i | 0 <= i < |clients| ensures Planned(h + [c], limits, clients[i].sent) {
      PlannedMore(h, limits, h + [c], limits, clients[i].sent);
    }
  }

  lemma RecordGrows(h: seq<Cycle>, c: Cycle, b: nat, bus: Bus)
    requires BusInv(h, b, bus)
    ensures BusInv(h + [c], b, bus)
  {
    hide PipeInv, TakeAll, Behind;
  }

  /** An access of the worker pops nothing, and enters nothing but the cycle it begins. */
  lemma WorkerPopsNothing(p: Pipe, a: Action)
    requires PipeInv(p) && Possible(a) && !a.Drain?
    ensures
      var q := Acting(p, a);
      && q.queue.popped == p.queue.popped
      && (Entered(q) <= Entered(p) || (a.Begin? && Entered(q) == Entered(p) + [a.cycle]))
  {
    hide Cycle.Chunks, Stream, Publishable, Spsc.Ring.Contents, Spsc.Ring.Count, Cycle.Snapshot;
    assert p.done + [] == p.done;
    if a.Begin? && p.phase.Resting? {
      assert Entered(p) == p.done;
    }
  }

  lemma RecordShrinks(h: seq<Cycle>, b: nat, cycles: seq<Cycle>, fewer: seq<Cycle>, sequence: nat)
    requires OnRecord(h, b, cycles, sequence) && fewer <= cycles
    ensures OnRecord(h, b, fewer, sequence)
  {
  }

  lemma WorkKeepsBus(h: seq<Cycle>, b: nat, bus: Bus)
    requires BusInv(h, b, bus)
    ensures BusInv(h, b, bus.(pipe := Acting(bus.pipe, Work)))
  {
    ActKeepsInv(bus.pipe, Work);
    WorkerPopsNothing(bus.pipe, Work);
    RecordShrinks(h, b, Entered(bus.pipe), Entered(Acting(bus.pipe, Work)), bus.sequence);
    hide PipeInv, TakeAll, Acting, OnRecord, Behind;
  }

  lemma RecordAdds(h: seq<Cycle>, b: nat, cycles: seq<Cycle>, sequence: nat, c: Cycle)
    requires OnRecord(h, b, cycles, sequence) && c in h && c.bus == b && sequence < c.sequence
    ensures OnRecord(h, b, cycles, c.sequence) && OnRecord(h, b, cycles + [c], c.sequence)
  {
  }

  lemma BeginKeepsBus(h: seq<Cycle>, b: nat, bus: Bus, c: Cycle)
    requires BusInv(h, b, bus) && c.Valid() && c in h && c.bus == b && bus.sequence < c.sequence
    ensures BusInv(h, b, bus.(pipe := Acting(bus.pipe, Begin(c)), sequence := c.sequence))
  {
    ActKeepsInv(bus.pipe, Begin(c));
    WorkerPopsNothing(bus.pipe, Begin(c));
    RecordAdds(h, b, Entered(bus.pipe), bus.sequence, c);
    var after := Acting(bus.pipe, Begin(c));
    if Entered(after) <= Entered(bus.pipe) {
      RecordShrinks(h, b, Entered(bus.pipe), Entered(after), c.sequence);
    }
    hide PipeInv, TakeAll, Acting, OnRecord, Behind, Entered;
  }

  lemma BusIsReady(h: seq<Cycle>, b: nat, bus: Bus)
    requires BusInv(h, b, bus)
    ensures PipeInv(bus.pipe) && bus.pipe.queue.ring.Valid()
  {
  }

  lemma SameLimits(buses: seq<Bus>, b: nat, bus: Bus)
    requires b < |buses| && bus.published == buses[b].published
    ensures Limits(buses[b := bus]) == Limits(buses)
  {
  }

  lemma WorkKeepsDaemon(d: Daemon, b: nat)
    requires DaemonInv(d) && Enabled(d, Worker(b, Work))
    ensures DaemonInv(After(d, Worker(b, Work)))
  {
    hide History, BusInv, AllPlanned, E.Inv, Acting, PipeInv, Limits;
    BusIsReady(d.history, b, d.buses[b]);
    WorkKeepsBus(d.history, b, d.buses[b]);
    SameLimits(d.buses, b, d.buses[b].(pipe := Acting(d.buses[b].pipe, Work)));
  }

  lemma BeginKeepsDaemon(d: Daemon, b: nat, c: Cycle)
    requires DaemonInv(d) && Enabled(d, Worker(b, Begin(c)))
    ensures DaemonInv(After(d, Worker(b, Begin(c))))
  {
    hide History, BusInv, AllPlanned, E.Inv, Acting, PipeInv, Cycle.Valid, Numbered, Limits;
    BusIsReady(d.history, b, d.buses[b]);
    var h := d.history + [c];
    assert c in h;
    var acted := d.buses[b].(pipe := Acting(d.buses[b].pipe, Begin(c)));
    var bus := acted.(sequence := c.sequence);
    NumberedGrows(d.history, d.buses, c, bus);
    HistoryGrows(d.history, c);
    PlannedWithMore(d.history, c, Limits(d.buses), d.table.clients);
    SameLimits(d.buses, b, bus);
    forall k | 0 <= k < |d.buses| ensures BusInv(h, k, d.buses[k]) {
      RecordGrows(d.history, c, k, d.buses[k]);
    }
    BeginKeepsBus(h, b, d.buses[b], c);
    assert After(d, Worker(b, Begin(c))) == Daemon(d.table, d.buses[b := bus], h) by {
      assert d.buses[b := acted][b := bus] == d.buses[b := bus];
    }
  }

  lemma NumberedGrows(h: seq<Cycle>, buses: seq<Bus>, c: Cycle, bus: Bus)
    requires Numbered(h, buses) && c.bus < |buses| && buses[c.bus].sequence < c.sequence == bus.sequence
    ensures forall t :: 0 <= t < |h| && h[t].bus == c.bus ==> h[t].sequence < c.sequence
    ensures Numbered(h + [c], buses[c.bus := bus])
  {
  }

  // ---------------------------------------------------------------- the order of publications

  lemma SnapshotChunk(c: Cycle, k: nat)
    requires c.Valid() && k < |c.Chunks()|
    ensures
      var x := c.Snapshot()[k];
      x.index == k && x.count == |c.Chunks()| && x.header.sequence == c.sequence && x.header.Fits() && x.header.Valid()
  {
    hide Cycle.ChunksTo, PdoInput.Valid, PdoInput.Fits, SliceOf, Cycle.Readable;
    ChunkTags(c, |c.subs|, k);
  }

  lemma LastOfStream(cycles: seq<Cycle>)
    requires Publishable(cycles) && cycles != []
    ensures Stream(cycles) != []
    ensures
      var x := Stream(cycles)[|Stream(cycles)| - 1];
      x.index + 1 == x.count && x.header.sequence == cycles[|cycles| - 1].sequence
  {
    hide Cycle.Snapshot, Cycle.Chunks, PdoInput.Valid, PdoInput.Fits, Cycle.Valid;
    var c := cycles[|cycles| - 1];
    SnapshotChunk(c, |c.Chunks()| - 1);
  }

  lemma {:induction false} StreamChunk(cycles: seq<Cycle>, k: nat)
    requires Publishable(cycles) && k < |Stream(cycles)|
    ensures var x := Stream(cycles)[k]; x.header.Fits() && x.header.Valid()
    decreases |cycles|
  {
    hide PdoInput.Valid, PdoInput.Fits, Cycle.Snapshot, Cycle.Chunks, Cycle.Valid;
    var (front, c) := (cycles[..|cycles| - 1], cycles[|cycles| - 1]);
    if k < |Stream(front)| {
      StreamChunk(front, k);
    } else {
      SnapshotChunk(c, k - |Stream(front)|);
    }
  }

  /** Along the queue of a bus the sequence rises exactly behind the last chunk of a cycle. */
  lemma {:induction false} StreamRises(cycles: seq<Cycle>, k: nat)
    requires Publishable(cycles) && RisingCycles(cycles) && k + 1 < |Stream(cycles)|
    ensures
      var (x, y) := (Stream(cycles)[k], Stream(cycles)[k + 1]);
      if x.index + 1 == x.count then x.header.sequence < y.header.sequence else x.header.sequence == y.header.sequence
    decreases |cycles|
  {
    hide PdoInput.Valid, PdoInput.Fits, Cycle.Snapshot, Cycle.Chunks, Cycle.Valid;
    var (front, c) := (cycles[..|cycles| - 1], cycles[|cycles| - 1]);
    var n := |Stream(front)|;
    if k + 1 < n {
      StreamRises(front, k);
    } else {
      SnapshotChunk(c, k + 1 - n);
      if k + 1 == n {
        LastOfStream(front);
      } else {
        SnapshotChunk(c, k - n);
      }
    }
  }

  /** The next chunk is of a cycle that has not been published. */
  lemma NextIsNew(cycles: seq<Cycle>, popped: seq<InputChunk>, published: nat)
    requires Publishable(cycles) && RisingCycles(cycles) && popped <= Stream(cycles) && popped != []
    requires Behind(published, popped[..|popped| - 1])
    ensures published < popped[|popped| - 1].header.sequence
  {
    hide Stream, Publishable, RisingCycles, PdoInput.Fits;
    var n := |popped| - 1;
    StreamChunk(cycles, n);
    if n > 0 {
      StreamRises(cycles, n - 1);
    }
  }

  /** A chunk completes a publication only as the last of its cycle, and is the last frame of it. */
  lemma CompletingChunk(g: Gathered, x: InputChunk, subscribed: bool)
    ensures
      var p := Taken(g, x, subscribed).1;
      p.Some? ==>
        && x.index + 1 == x.count && p.value.frames != []
        && p.value.frames[|p.value.frames| - 1] == Encode(FrameOf(x.header))
  {
    hide Encode, EncodePdoInput;
  }

  /** Two frames with the same bytes are the same frame. */
  lemma EncodeIsInjective(f: Frame, g: Frame)
    requires f.Encodable() && g.Encodable() && Encode(f) == Encode(g)
    ensures f == g
  {
    hide Encode, HeadOf;
    HeadOfEncoded(f, []);
    HeadOfEncoded(g, []);
  }

  lemma LastFrameTellsSequence(c: Cycle, p: PdoInput)
    requires c.Valid() && c.Chunks() != [] && p.Fits() && p.Valid()
    requires
      var frames := PublicationOf(c).frames;
      frames[|frames| - 1] == Encode(FrameOf(p))
    ensures p.sequence == c.sequence
  {
    hide Cycle.ChunksTo, Encode, EncodePdoInput, PdoInput.Fits, PdoInput.Valid, SliceOf, TotalOf, Cycle.Readable;
    var q := c.Chunks()[|c.Chunks()| - 1];
    ChunkTags(c, |c.subs|, |c.Chunks()| - 1);
    ChunkFrame(p);
    ChunkFrame(q);
    EncodeIsInjective(FrameOf(p), FrameOf(q));
    FrameTellsChunk(p, q);
  }

  // ---------------------------------------------------------------- an access of the main loop

  /** One access of the consumer pops nothing, or one chunk. */
  lemma DrainPopsOne(p: Pipe)
    requires PipeInv(p)
    ensures
      var q := Draining(p).queue.popped;
      q == p.queue.popped || (|q| == |p.queue.popped| + 1 && q[..|q| - 1] == p.queue.popped)
    ensures Entered(Draining(p)) == Entered(p)
  {
  }

  lemma BegunIsEntered(h: seq<Cycle>, b: nat, pipe: Pipe, sequence: nat)
    requires OnRecord(h, b, Entered(pipe), sequence)
    ensures OnRecord(h, b, pipe.Begun(), sequence)
  {
    assert pipe.Begun() <= Entered(pipe);
  }

  /** The publication that a popped chunk completes is that of a cycle on record, later than all before it. */
  lemma CompletedIsNew(h: seq<Cycle>, b: nat, cycles: seq<Cycle>, sequence: nat, popped: seq<InputChunk>,
                       subscribed: seq<bool>, published: nat) returns (c: Cycle)
    requires OnRecord(h, b, cycles, sequence) && Publishable(cycles) && popped <= Stream(cycles) && popped != []
    requires |subscribed| == |popped| && Behind(published, popped[..|popped| - 1])
    requires
      var n := |popped| - 1;
      var g := TakeAll(NOTHING, popped[..n], subscribed[..n]).0;
      Taken(g, popped[n], subscribed[n]).1.Some?
    ensures c in h && c.Valid() && c.bus == b && published < c.sequence == popped[|popped| - 1].header.sequence
    ensures
      var n := |popped| - 1;
      var g := TakeAll(NOTHING, popped[..n], subscribed[..n]).0;
      Taken(g, popped[n], subscribed[n]).1.value == PublicationOf(c)
  {
    hide Taken, Stream, Cycle.Valid, Cycle.Chunks, PublicationOf, PdoInput.Fits, PdoInput.Valid, Behind;
    var n := |popped| - 1;
    var g := TakeAll(NOTHING, popped[..n], subscribed[..n]).0;
    var p := Taken(g, popped[n], subscribed[n]).1.value;
    assert p in TakeAll(NOTHING, popped, subscribed).1;
    DrainPublishesCycles(cycles, popped, subscribed, p);
    var i :| 0 <= i < |cycles| && p == PublicationOf(cycles[i]);
    c := cycles[i];
    CompletingChunk(g, popped[n], subscribed[n]);
    StreamChunk(cycles, n);
    LastFrameTellsSequence(c, popped[n].header);
    NextIsNew(cycles, popped, published);
  }

  /** The first `n` clients have been offered the publication, the others not yet. */
  ghost predicate OfferedTo(h: seq<Cycle>, limits: seq<nat>, c: Cycle, clients: seq<T.Client>, n: nat)
    requires c.bus < |limits|
  {
    forall k :: 0 <= k < |clients| ==>
      Planned(h, if k < n then limits[c.bus := c.sequence] else limits, clients[k].sent)
  }

  lemma OfferedExtends(h: seq<Cycle>, limits: seq<nat>, c: Cycle, before: seq<T.Client>, after: seq<T.Client>, n: nat)
    requires c.bus < |limits| && OfferedTo(h, limits, c, before, n) && AllExtend(before, after, Ordinaries())
    ensures OfferedTo(h, limits, c, after, n)
  {
    hide Planned, Extends, Ordinaries;
    forall k | 0 <= k < |after|
      ensures Planned(h, if k < n then limits[c.bus := c.sequence] else limits, after[k].sent)
    {
      PlannedExtends(h, if k < n then limits[c.bus := c.sequence] else limits, before[k].sent, after[k].sent);
    }
  }

  /** A client passed over counts as offered. */
  lemma OfferedSkips(h: seq<Cycle>, limits: seq<nat>, c: Cycle, clients: seq<T.Client>, n: nat)
    requires c.bus < |limits| && limits[c.bus] < c.sequence && OfferedTo(h, limits, c, clients, n)
    ensures OfferedTo(h, limits, c, clients, n + 1)
  {
    hide Planned;
    if n < |clients| {
      PlannedMore(h, limits, h, limits[c.bus := c.sequence], clients[n].sent);
    }
  }

  lemma OfferedOne(h: seq<Cycle>, limits: seq<nat>, c: Cycle, t: T.Table, n: nat, now: Time)
    requires c in h && c.Valid() && c.bus < |limits| && limits[c.bus] < c.sequence
    requires n < |t.clients| && OfferedTo(h, limits, c, t.clients, n)
    ensures OfferedTo(h, limits, c, T.QueuedAll(t, n, PublicationOf(c).frames, now).clients, n + 1)
  {
    hide Planned, Ordinaries, T.QueuedAll, PublicationOf, Cycle.Valid, AllExtend;
    BroadcastsAreOrdinary();
    var (frames, before) := (PublicationOf(c).frames, t.clients);
    var after := T.QueuedAll(t, n, frames, now).clients;
    QueuedAllExtends(t, n, frames, now, Ordinaries());
    if AllExtend(before, after, Ordinaries()) {
      OfferedExtends(h, limits, c, before, after, n);
      OfferedSkips(h, limits, c, after, n);
    } else {
      PlannedWhole(h, limits, before[n].sent, c);
    }
  }

  lemma {:induction false} PublishedKeeps(t: T.Table, c: Cycle, chosen: set<nat>, n: nat, now: Time, h: seq<Cycle>,
                                          limits: seq<nat>)
    requires c in h && c.Valid() && c.bus < |limits| && limits[c.bus] < c.sequence
    requires E.Inv(t) && AllPlanned(h, limits, t.clients)
    ensures
      var u := PublishedTo(t, PublicationOf(c), chosen, n, now);
      E.Inv(u) && OfferedTo(h, limits, c, u.clients, n)
  {
    hide Planned, T.Sound, T.Informed, T.QueuedAll, PublicationOf, Cycle.Valid;
    if n > 0 {
      PublishedKeeps(t, c, chosen, n - 1, now, h, limits);
      var (u, frames) := (PublishedTo(t, PublicationOf(c), chosen, n - 1, now), PublicationOf(c).frames);
      OfferedSkips(h, limits, c, u.clients, n - 1);
      if n - 1 < |u.clients| {
        FramesAreNotEmpty(c);
        E.NextKeepsInv(u, E.Publish(n - 1, frames), now);
        OfferedOne(h, limits, c, u, n - 1, now);
      }
    }
  }

  lemma FramesAreNotEmpty(c: Cycle)
    requires c.Valid()
    ensures forall k :: 0 <= k < |PublicationOf(c).frames| ==> PublicationOf(c).frames[k] != []
  {
    hide Cycle.ChunksTo, Encode, EncodePdoInput, PdoInput.Fits, PdoInput.Valid, SliceOf, TotalOf, Cycle.Readable;
    forall k | 0 <= k < |c.Chunks()| ensures PublicationOf(c).frames[k] != [] {
      ChunkTags(c, |c.subs|, k);
      ChunkFrame(c.Chunks()[k]);
    }
  }

  lemma {:induction false} PublishedSize(t: T.Table, p: Publication, chosen: set<nat>, n: nat, now: Time)
    ensures |PublishedTo(t, p, chosen, n, now).clients| == |t.clients|
  {
    hide T.QueuedAll;
    if n > 0 {
      PublishedSize(t, p, chosen, n - 1, now);
      var u := PublishedTo(t, p, chosen, n - 1, now);
      if n - 1 < |u.clients| {
        BroadcastsAreOrdinary();
        QueuedAllExtends(u, n - 1, p.frames, now, Ordinaries());
      }
    }
  }

  lemma AllOffered(h: seq<Cycle>, limits: seq<nat>, c: Cycle, clients: seq<T.Client>)
    requires c.bus < |limits| && OfferedTo(h, limits, c, clients, |clients|)
    ensures AllPlanned(h, limits[c.bus := c.sequence], clients)
  {
    hide Planned;
  }

  /** The bus after one more chunk. */
  lemma TakenKeepsBus(h: seq<Cycle>, b: nat, bus: Bus, pipe: Pipe, subscribed: bool, published: nat)
    requires BusInv(h, b, bus) && PipeInv(pipe) && Entered(pipe) == Entered(bus.pipe)
    requires var q := pipe.queue.popped; |q| == |bus.pipe.queue.popped| + 1 && q[..|q| - 1] == bus.pipe.queue.popped
    requires Behind(published, pipe.queue.popped)
    ensures
      var q := pipe.queue.popped;
      BusInv(h, b, bus.(pipe := pipe, gathered := Taken(bus.gathered, q[|q| - 1], subscribed).0,
                        subscribed := bus.subscribed + [subscribed], published := published))
  {
    hide PipeInv, Taken, Behind, OnRecord, Entered;
    var (q, us) := (pipe.queue.popped, bus.subscribed + [subscribed]);
    assert us[..|q| - 1] == bus.subscribed;
  }

  /** The main loop has popped a chunk. */
  lemma PoppedKeeps(h: seq<Cycle>, b: nat, limits: seq<nat>, t: T.Table, bus: Bus, pipe: Pipe, subscribed: bool,
                    chosen: set<nat>, now: Time)
    requires BusInv(h, b, bus) && PipeInv(pipe) && Entered(pipe) == Entered(bus.pipe)
    requires b < |limits| && limits[b] == bus.published && E.Inv(t) && AllPlanned(h, limits, t.clients)
    requires var q := pipe.queue.popped; |q| == |bus.pipe.queue.popped| + 1 && q[..|q| - 1] == bus.pipe.queue.popped
    ensures
      var x := pipe.queue.popped[|pipe.queue.popped| - 1];
      var (g, p) := Taken(bus.gathered, x, subscribed);
      var published := if p.Some? then x.header.sequence else bus.published;
      var u := if p.Some? then PublishedTo(t, p.value, chosen, |t.clients|, now) else t;
      && BusInv(h, b, bus.(pipe := pipe, gathered := g, subscribed := bus.subscribed + [subscribed],
                           published := published))
      && E.Inv(u) && AllPlanned(h, limits[b := published], u.clients)
  {
    PoppedAreSnapshots(pipe);
    BegunIsEntered(h, b, pipe, bus.sequence);
    hide PipeInv, Taken, TakeAll, Stream, Publishable, PublishedTo, AllPlanned, E.Inv, OnRecord, Entered, Cycle.Valid;
    var (q, us) := (pipe.queue.popped, bus.subscribed + [subscribed]);
    var x := q[|q| - 1];
    assert us[..|q| - 1] == bus.subscribed;
    RecordRises(h, b, pipe.Begun(), bus.sequence);
    NextIsNew(pipe.Begun(), q, bus.published);
    var p := Taken(bus.gathered, x, subscribed).1;
    if p.Some? {
      var c := CompletedIsNew(h, b, pipe.Begun(), bus.sequence, q, us, bus.published);
      CompletingChunk(bus.gathered, x, subscribed);
      PublishedKeeps(t, c, chosen, |t.clients|, now, h, limits);
      PublishedSize(t, p.value, chosen, |t.clients|, now);
      AllOffered(h, limits, c, PublishedTo(t, p.value, chosen, |t.clients|, now).clients);
      TakenKeepsBus(h, b, bus, pipe, subscribed, x.header.sequence);
    } else {
      assert limits[b := bus.published] == limits;
      TakenKeepsBus(h, b, bus, pipe, subscribed, bus.published);
    }
  }

  lemma RecordRises(h: seq<Cycle>, b: nat, cycles: seq<Cycle>, sequence: nat)
    requires OnRecord(h, b, cycles, sequence)
    ensures RisingCycles(cycles)
  {
  }

  lemma DrainedKeeps(h: seq<Cycle>, b: nat, limits: seq<nat>, t: T.Table, bus: Bus, subscribed: bool, chosen: set<nat>,
                     now: Time)
    requires BusInv(h, b, bus) && b < |limits| && limits[b] == bus.published
    requires E.Inv(t) && AllPlanned(h, limits, t.clients)
    ensures
      var (u, after) := Drained(t, bus, subscribed, chosen, now);
      && BusInv(h, b, after) && after.sequence == bus.sequence
      && E.Inv(u) && AllPlanned(h, limits[b := after.published], u.clients)
  {
    BusIsReady(h, b, bus);
    var pipe := Draining(bus.pipe);
    DrainKeepsInv(bus.pipe);
    DrainPopsOne(bus.pipe);
    hide PipeInv, Taken, TakeAll, Draining, PublishedTo, AllPlanned, E.Inv, OnRecord, Entered, Behind;
    if pipe.queue.popped == bus.pipe.queue.popped {
      assert limits[b := bus.published] == limits;
    } else {
      PoppedKeeps(h, b, limits, t, bus, pipe, subscribed, chosen, now);
    }
  }

  lemma LimitsUpdate(buses: seq<Bus>, b: nat, bus: Bus)
    requires b < |buses|
    ensures Limits(buses[b := bus]) == Limits(buses)[b := bus.published]
  {
  }

  lemma MainKeepsDaemon(d: Daemon, b: nat, subscribed: bool, chosen: set<nat>, now: Time)
    requires DaemonInv(d) && b < |d.buses|
    ensures DaemonInv(After(d, Main(b, subscribed, chosen, now)))
  {
    hide History, BusInv, AllPlanned, E.Inv, Drained, PipeInv;
    BusIsReady(d.history, b, d.buses[b]);
    DrainedKeeps(d.history, b, Limits(d.buses), d.table, d.buses[b], subscribed, chosen, now);
    LimitsUpdate(d.buses, b, Drained(d.table, d.buses[b], subscribed, chosen, now).1);
  }

  // ---------------------------------------------------------------- whole runs

  lemma StepKeepsInv(d: Daemon, s: Happening)
    requires DaemonInv(d) && Enabled(d, s)
    ensures DaemonInv(After(d, s))
  {
    hide DaemonInv, After;
    match s {
      case Worker(b, a) =>
        if a.Begin? {
          BeginKeepsDaemon(d, b, a.cycle);
        } else {
          WorkKeepsDaemon(d, b);
        }
      case Main(b, subscribed, chosen, now) => MainKeepsDaemon(d, b, subscribed, chosen, now);
      case Table(e, now) => TableKeepsInv(d, e, now);
    }
  }

  ghost predicate Initial(d: Daemon) {
    && d.history == [] && d.table.clients == []
    && d.table.gate.Valid() && d.table.gate.controller.None? && T.Informed(d.table)
    && forall b :: 0 <= b < |d.buses| ==> NewBus(d.buses[b])
  }

  ghost predicate NewBus(bus: Bus) {
    && bus.gathered == NOTHING && bus.subscribed == [] && bus.published == 0
    && |bus.pipe.queue.ring.slots| >= 2 && bus.pipe == Fresh(bus.pipe.queue.ring.slots)
  }

  lemma NewBusInv(b: nat, bus: Bus)
    requires NewBus(bus)
    ensures BusInv([], b, bus)
  {
    hide PipeInv;
    FreshInv(bus.pipe.queue.ring.slots);
  }

  lemma InitialInv(d: Daemon)
    requires Initial(d)
    ensures DaemonInv(d)
  {
    hide BusInv, NewBus;
    forall b | 0 <= b < |d.buses| ensures BusInv([], b, d.buses[b]) {
      NewBusInv(b, d.buses[b]);
    }
  }

  /** The daemon after a run, or None if some step of it was not enabled. */
  ghost function RunAll(d: Daemon, steps: seq<Happening>): (r: Option<Daemon>)
    requires Initial(d)
    ensures r.Some? ==> DaemonInv(r.value)
    decreases |steps|
  {
    if steps == [] then
      InitialInv(d);
      Some(d)
    else
      var before := RunAll(d, steps[..|steps| - 1]);
      if before.None? || !Enabled(before.value, steps[|steps| - 1]) then None
      else
        StepKeepsInv(before.value, steps[|steps| - 1]);
        Some(After(before.value, steps[|steps| - 1]))
  }

  /** What a client has received is a beginning of its plan. */
  lemma ReceivedIsPlanned(h: seq<Cycle>, limits: seq<nat>, c: T.Client, pieces: seq<seq<byte>>)
    returns (plan: seq<Item>)
    requires History(h) && c.Valid() && Planned(h, limits, c.sent) && SocketReads(pieces) && Joined(pieces) <= c.wire
    ensures IsPlan(h, limits, plan) && c.sent == T.Encoded(Flat(h, plan))
    ensures forall k :: 0 <= k < |Flat(h, plan)| ==> Sendable(h, Flat(h, plan)[k])
    ensures FeedAll(pieces).decoder.error == NoError && FeedAll(pieces).frames <= Flat(h, plan)
  {
    hide Flat, History, Encode, Joined, FeedAll, T.Client.Valid, Sendable;
    plan :| IsPlan(h, limits, plan) && c.sent == T.Encoded(Flat(h, plan));
    forall k | 0 <= k < |Flat(h, plan)| ensures Sendable(h, Flat(h, plan)[k]) && Flat(h, plan)[k].Encodable() {
      FlatSendable(h, plan, k);
      SendableEncodes(h, Flat(h, plan)[k]);
    }
    T.WireCarriesWholeFrames(c, Flat(h, plan), pieces);
  }

  /**
   In every run of the daemon, whatever the threads, the clients and the sockets do: what any client
   has received, cut anywhere, decodes without error, and every image that its application has popped
   or may still pop is the whole process image of one SubDevice in one single cycle of the session's
   epoch.
   */
  lemma InputsEndToEnd(start: Daemon, steps: seq<Happening>, d: Daemon, i: nat, session: nat,
                       pieces: seq<seq<byte>>, readings: seq<Reading>)
    requires Initial(start) && RunAll(start, steps) == Some(d) && i < |d.table.clients|
    requires SocketReads(pieces) && Joined(pieces) <= d.table.clients[i].wire
    requires Arrivals(readings) <= FeedAll(pieces).frames
    ensures FeedAll(pieces).decoder.error == NoError
    ensures ReadAll(NEW_READER, session, readings).Some?
    ensures History(d.history) && Delivers(d.history, session, ReadAll(NEW_READER, session, readings).value)
  {
    hide Joined, FeedAll, ReadAll, Delivers, History, T.Client.Valid, RunAll, BusInv, Numbered, Planned, Sendable, Flat;
    hide HonestReader;
    T.SoundAt(d.table, i);
    var plan := ReceivedIsPlanned(d.history, Limits(d.buses), d.table.clients[i], pieces);
    AllReadHonest(d.history, session, Flat(d.history, plan), readings);
    HonestDelivers(d.history, session, ReadAll(NEW_READER, session, readings).value);
  }

  /**
   In every run of the daemon: where a client receives the first chunk of a cycle it receives the whole
   publication, and having received it holds the image of every SubDevice of the cycle, in order, behind
   the images it had before. Any pops may precede; older images make room as the queue's limits demand.
   */
  lemma PublicationsAreDelivered(start: Daemon, steps: seq<Happening>, d: Daemon, i: nat, c: Cycle,
                                 pieces: seq<seq<byte>>, readings: seq<Reading>)
    requires Initial(start) && RunAll(start, steps) == Some(d) && i < |d.table.clients|
    requires SocketReads(pieces) && Joined(pieces) <= d.table.clients[i].wire
    requires c in d.history && c.Valid() && c.Chunks() != []
    requires
      var (before, got) := (Arrivals(readings), FeedAll(pieces).frames);
      before <= got && |before| + |c.Chunks()| <= |got| && got[|before|] == FrameOf(c.Chunks()[0])
    ensures Arrivals(readings) + FramesOf(c.Chunks()) <= FeedAll(pieces).frames
    ensures
      var r := ReadAll(NEW_READER, c.epoch, readings);
      var q := ReadAll(NEW_READER, c.epoch, readings + ArriveAll(FramesOf(c.Chunks())));
      && r.Some? && q.Some? && q.value.taken == r.value.taken
      && q.value.state.images == Queued(r.value.state.images, c, |c.subs|)
  {
    hide Joined, FeedAll, ReadAll, History, T.Client.Valid, RunAll, BusInv, Numbered, Planned, Sendable, Flat;
    hide HonestReader, Cycle.ChunksTo, Cycle.Valid, FramesOf, FrameOf, NotOf, NoneOfCycle, Arrivals, Queued;
    T.SoundAt(d.table, i);
    var (h, limits, n) := (d.history, Limits(d.buses), |Arrivals(readings)|);
    var plan := ReceivedIsPlanned(h, limits, d.table.clients[i], pieces);
    var m := PublicationsAreContiguous(h, limits, plan, c, n);
    assert Arrivals(readings) == Flat(h, plan)[..n] == Flat(h, plan[..m]);
    AllReadHonest(h, c.epoch, Flat(h, plan), readings);
    forall k | 0 <= k < |Arrivals(readings)| ensures NotOf(c, Arrivals(readings)[k]) {
      NothingOfCycleBefore(h, limits, plan, m, k);
    }
    ReadNoneOf(c.epoch, readings, c);
    PublicationIsReceived(readings, c);
  }

  lemma PublicationIsReceived(readings: seq<Reading>, c: Cycle)
    requires c.Valid() && ReadAll(NEW_READER, c.epoch, readings).Some?
    requires NoneOfCycle(ReadAll(NEW_READER, c.epoch, readings).value.state.assemblies, c)
    ensures
      var r := ReadAll(NEW_READER, c.epoch, readings).value;
      var q := ReadAll(NEW_READER, c.epoch, readings + ArriveAll(FramesOf(c.Chunks())));
      q.Some? && q.value.taken == r.taken && q.value.state.images == Queued(r.state.images, c, |c.subs|)
  {
    hide ReadAll, ReceivedAll, Cycle.ChunksTo, FramesOf, NoneOfCycle, Queued, Cycle.Valid;
    WholeSnapshotIsDelivered(ReadAll(NEW_READER, c.epoch, readings).value.state, c);
    ArrivalsAreReceived(NEW_READER, c.epoch, readings, FramesOf(c.Chunks()));
  }
}
