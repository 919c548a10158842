/**
 The input queue of one bus, with the worker publishing snapshots into it while the main loop drains it.

 Both threads move by single accesses to the ring, in any interleaving. PublishInputs asks once for the
 room and then pushes chunk by chunk; were a push refused it would leave a cut snapshot behind and a
 cursor in the middle of it.
 */
module InputQueues {
  import opened SpscQueues
  import opened InputPublisher
  import opened InputPath

  /** Where the worker stands in PublishInputs. */
  datatype Phase = Resting | Asking(cycle: Cycle) | Pushing(cycle: Cycle, count: nat)

  /** `done` are the cycles whose snapshots the worker has pushed to the end. */
  datatype Pipe = Pipe(queue: Queue<InputChunk>, phase: Phase, cursor: nat, done: seq<Cycle>)
  {
    /** The cycles of which at least a part may have been pushed. */
    function Begun(): seq<Cycle> { done + if phase.Pushing? then [phase.cycle] else [] }
  }

  /** `Begin` enters PublishInputs with the cycle it reads; `Work` and `Drain` are one access of either thread. */
  datatype Action = Begin(cycle: Cycle) | Work | Drain

  function Chunk(c: Cycle, cursor: nat, count: nat): InputChunk
    requires c.Valid() && c.Chunks() != []
  {
    InputChunk(c.Chunks()[(cursor + count) % |c.Chunks()|], count, |c.Chunks()|)
  }

  function Beginning(p: Pipe, c: Cycle): Pipe
    requires c.Valid() && p.queue.ring.Valid()
  {
    if !p.phase.Resting? then p
    else if c.Chunks() == [] then p.(cursor := 0)
    else if |c.Chunks()| > MAXIMUM_CHUNKS then p
    else p.(queue := SpscQueues.Next(p.queue, BeginAvailable), phase := Asking(c))
  }

  /** The worker's next access; AvailableToWrite and TryPush return when the queue's producer falls idle. */
  ghost function Working(p: Pipe): Pipe
    requires p.queue.ring.Valid() && (!p.phase.Resting? ==> p.phase.cycle.Valid() && p.phase.cycle.Chunks() != [])
  {
    match p.phase
    case Resting => p
    case Asking(c) =>
      var q := Produced(p.queue);
      if !q.producer.ProducerIdle? then p.(queue := q)
      else if q.credit < |c.Chunks()| then p.(queue := q, phase := Resting)
      else p.(queue := q, phase := Pushing(c, 0))
    case Pushing(c, n) =>
      if p.queue.producer.ProducerIdle? then
        p.(queue := SpscQueues.Next(p.queue, BeginPush(Chunk(c, p.cursor, n))))
      else
        var q := Produced(p.queue);
        if !q.producer.ProducerIdle? then p.(queue := q)
        else if q.refused then p.(queue := q, phase := Resting, cursor := (p.cursor + n) % |c.Chunks()|)
        else if n + 1 < |c.Chunks()| then p.(queue := q, phase := Pushing(c, n + 1))
        else p.(queue := q, phase := Resting, cursor := (p.cursor + n + 1) % |c.Chunks()|, done := p.done + [c])
  }

  function Draining(p: Pipe): Pipe
    requires p.queue.ring.Valid()
  {
    p.(queue := if p.queue.consumer.ConsumerIdle? then SpscQueues.Next(p.queue, BeginPop) else Consumed(p.queue))
  }

  // ---------------------------------------------------------------- the invariant

  ghost predicate Fits(c: Cycle) { c.Valid() && 0 < |c.Chunks()| <= MAXIMUM_CHUNKS }

  /** The push under way, if one is, is that of chunk `n`. */
  ghost predicate PushingChunk(q: Queue<InputChunk>, c: Cycle, n: nat)
    requires c.Valid() && n < |c.Chunks()|
  {
    match q.producer
    case ProducerIdle => true
    case PushLoaded(v) => v == c.Snapshot()[n]
    case PushRoom(v) => v == c.Snapshot()[n]
    case PushStored(v) => v == c.Snapshot()[n]
    case AvailableLoaded => false
  }

  ghost predicate PipeInv(p: Pipe) {
    && SpscQueues.Inv(p.queue) && p.cursor == 0 && !p.queue.refused && Publishable(p.done)
    && match p.phase {
         case Resting => p.queue.producer.ProducerIdle? && p.queue.pushed == Stream(p.done)
         case Asking(c) => Fits(c) && p.queue.producer.AvailableLoaded? && p.queue.pushed == Stream(p.done)
         case Pushing(c, n) =>
           && Fits(c) && n < |c.Chunks()| && PushingChunk(p.queue, c, n)
           && p.queue.credit >= |c.Chunks()| - n
           && p.queue.pushed == Stream(p.done) + c.Snapshot()[..n]
       }
  }

  lemma ChunkIsSnapshot(c: Cycle, n: nat)
    requires c.Valid() && n < |c.Chunks()|
    ensures Chunk(c, 0, n) == c.Snapshot()[n]
  {
    SmallModulus(n, |c.Chunks()|);
  }

  lemma BeginKeepsInv(p: Pipe, c: Cycle)
    requires PipeInv(p) && c.Valid()
    ensures PipeInv(Beginning(p, c)) && Beginning(p, c).Begun() == p.Begun()
  {
    hide Cycle.Chunks, Stream, Publishable, Ring.Contents, Ring.Count;
  }

  lemma DrainKeepsInv(p: Pipe)
    requires PipeInv(p)
    ensures PipeInv(Draining(p)) && Draining(p).Begun() == p.Begun()
  {
    ConsumeKeepsInv(p.queue);
    DrainIsConsumer(p.queue);
    hide Cycle.Chunks, Stream, Publishable, SpscQueues.Inv, Consumed, Cycle.Valid, Cycle.Snapshot;
  }

  /** A consumer's access leaves everything of the producer's alone. */
  lemma DrainIsConsumer(q: Queue<InputChunk>)
    requires SpscQueues.Inv(q)
    ensures
      var r := if q.consumer.ConsumerIdle? then SpscQueues.Next(q, BeginPop) else Consumed(q);
      && (q.consumer.ConsumerIdle? ==> SpscQueues.Inv(r))
      && r.producer == q.producer && r.pushed == q.pushed && r.credit == q.credit && r.refused == q.refused
  {
    hide Ring.Contents;
  }

  /** While the credit lasts, an access of a push cannot be refused, and completes it at the third. */
  lemma PushAccess(q: Queue<InputChunk>)
    requires SpscQueues.Inv(q) && !q.refused && q.credit > 0
    requires q.producer.PushLoaded? || q.producer.PushRoom? || q.producer.PushStored?
    ensures
      var r := Produced(q);
      && SpscQueues.Inv(r) && !r.refused
      && (q.producer.PushLoaded? ==> r == q.(producer := PushRoom(q.producer.value)))
      && (q.producer.PushRoom? ==>
            r.producer == PushStored(q.producer.value) && r.pushed == q.pushed && r.credit == q.credit)
      && (q.producer.PushStored? ==>
            r.producer.ProducerIdle? && r.pushed == q.pushed + [q.producer.value] && r.credit == q.credit - 1)
  {
    ProduceKeepsInv(q);
    FullMeansCapacityMinusOne(q.ring);
    hide Ring.Contents;
  }

  lemma AskKeepsInv(p: Pipe)
    requires PipeInv(p) && p.phase.Asking?
    ensures PipeInv(Working(p))
  {
    ProduceKeepsInv(p.queue);
    var c := p.phase.cycle;
    assert c.Snapshot()[..0] == [];
    assert Stream(p.done) + [] == Stream(p.done);
    hide Cycle.Chunks, Stream, Publishable, SpscQueues.Inv, Cycle.Valid, Cycle.Snapshot;
  }

  lemma StreamGrows(cycles: seq<Cycle>, c: Cycle)
    requires Publishable(cycles) && Fits(c)
    ensures Publishable(cycles + [c]) && Stream(cycles + [c]) == Stream(cycles) + c.Snapshot()
  {
    hide Cycle.Chunks, Cycle.Snapshot, Cycle.Valid;
    assert (cycles + [c])[..|cycles|] == cycles;
  }

  lemma SnapshotGrows(c: Cycle, n: nat, before: seq<InputChunk>)
    requires c.Valid() && n < |c.Chunks()|
    ensures (before + c.Snapshot()[..n]) + [c.Snapshot()[n]] == before + c.Snapshot()[..n + 1]
    ensures n + 1 == |c.Chunks()| ==> c.Snapshot()[..n + 1] == c.Snapshot()
  {
    hide Cycle.Chunks;
  }

  lemma PushKeepsInv(p: Pipe)
    requires PipeInv(p) && p.phase.Pushing?
    ensures PipeInv(Working(p))
  {
    var (c, n) := (p.phase.cycle, p.phase.count);
    ChunkIsSnapshot(c, n);
    SnapshotGrows(c, n, Stream(p.done));
    StreamGrows(p.done, c);
    SmallModulus(0, |c.Chunks()|);
    if p.queue.producer.ProducerIdle? {
      BeginPushKeepsInv(p.queue, Chunk(c, 0, n));
    } else {
      PushAccess(p.queue);
    }
    hide Cycle.ChunksTo, Stream, Publishable, SpscQueues.Inv, Cycle.Valid, Cycle.Snapshot, Chunk, Produced;
    hide SpscQueues.Next;
  }

  lemma BeginPushKeepsInv(q: Queue<InputChunk>, v: InputChunk)
    requires SpscQueues.Inv(q) && q.producer.ProducerIdle?
    ensures
      var r := SpscQueues.Next(q, BeginPush(v));
      SpscQueues.Inv(r) && r == q.(producer := PushLoaded(v), refused := false)
  {
    hide Ring.Contents;
  }

  /** No access of either thread can cut a snapshot short. */
  lemma WorkKeepsInv(p: Pipe)
    requires PipeInv(p)
    ensures PipeInv(Working(p))
  {
    hide PipeInv, Working;
    match p.phase {
      case Resting => RestingWork(p);
      case Asking(_) => AskKeepsInv(p);
      case Pushing(_, _) => PushKeepsInv(p);
    }
  }

  lemma RestingWork(p: Pipe)
    requires PipeInv(p) && p.phase.Resting?
    ensures Working(p) == p
  {
  }

  // ---------------------------------------------------------------- every interleaving

  ghost predicate Possible(a: Action) { a.Begin? ==> a.cycle.Valid() }

  ghost function Acting(p: Pipe, a: Action): (r: Pipe)
    requires PipeInv(p) && Possible(a)
  {
    match a
    case Begin(c) => Beginning(p, c)
    case Work => Working(p)
    case Drain => Draining(p)
  }

  lemma ActKeepsInv(p: Pipe, a: Action)
    requires PipeInv(p) && Possible(a)
    ensures PipeInv(Acting(p, a))
  {
    hide PipeInv, Beginning, Working, Draining, Cycle.Valid;
    match a {
      case Begin(c) => BeginKeepsInv(p, c);
      case Work => WorkKeepsInv(p);
      case Drain => DrainKeepsInv(p);
    }
  }

  ghost function ActAll(p: Pipe, actions: seq<Action>): (r: Pipe)
    requires PipeInv(p) && forall i :: 0 <= i < |actions| ==> Possible(actions[i])
    ensures PipeInv(r)
    decreases |actions|
  {
    if actions == [] then p
    else
      var before := ActAll(p, actions[..|actions| - 1]);
      ActKeepsInv(before, actions[|actions| - 1]);
      Acting(before, actions[|actions| - 1])
  }

  function Fresh(slots: seq<InputChunk>): Pipe { Pipe(Empty(slots), Resting, 0, []) }

  lemma FreshInv(slots: seq<InputChunk>)
    requires |slots| >= 2
    ensures PipeInv(Fresh(slots))
  {
  }

  /** What the main loop has popped is the beginning of whole snapshots, one after another. */
  lemma PoppedAreSnapshots(p: Pipe)
    requires PipeInv(p)
    ensures Publishable(p.Begun()) && p.queue.popped <= p.queue.pushed <= Stream(p.Begun())
  {
    hide Cycle.Chunks, Stream, Publishable, Ring.Contents, Ring.Count, Cycle.Valid, Cycle.Snapshot;
    if p.phase.Pushing? {
      StreamGrows(p.done, p.phase.cycle);
      var (all, n) := (p.phase.cycle.Snapshot(), p.phase.count);
      assert all[..n] <= all;
      assert Stream(p.done) + all == (Stream(p.done) + all[..n]) + all[n..];
    } else {
      assert p.done + [] == p.done;
    }
  }

  /**
   In every interleaving of the worker and the main loop no push is ever refused, every snapshot that
   was begun is pushed whole and in order, and between two snapshots nothing but whole ones has entered.
   */
  lemma SnapshotsAreNeverCut(slots: seq<InputChunk>, actions: seq<Action>)
    requires |slots| >= 2 && forall i :: 0 <= i < |actions| ==> Possible(actions[i])
    ensures PipeInv(Fresh(slots))
    ensures
      var p := ActAll(Fresh(slots), actions);
      && !p.queue.refused && p.cursor == 0
      && Publishable(p.Begun()) && p.queue.popped <= p.queue.pushed <= Stream(p.Begun())
      && (!p.phase.Pushing? ==> p.queue.pushed == Stream(p.Begun()))
  {
    FreshInv(slots);
    var p := ActAll(Fresh(slots), actions);
    PoppedAreSnapshots(p);
    assert p.done + [] == p.done;
    hide Cycle.Chunks, Stream, Publishable, ActAll, Fresh, SpscQueues.Inv;
  }

  /** A snapshot is begun exactly if it is of 1 to 128 chunks and the queue has room for all of them when asked. */
  lemma AdmissionIsExact(p: Pipe, c: Cycle)
    requires PipeInv(p) && c.Valid()
    ensures p.phase.Resting? ==> (Beginning(p, c).phase == Asking(c) <==> 0 < |c.Chunks()| <= MAXIMUM_CHUNKS)
    ensures p.phase == Asking(c) ==>
      Working(p).phase == if |c.Chunks()| <= p.queue.ring.Free() then Pushing(c, 0) else Resting
  {
    FullMeansCapacityMinusOne(p.queue.ring);
    hide Cycle.Chunks, Stream, Publishable, Ring.Contents, Ring.Count;
  }

  /** The accesses that the snapshot being pushed still takes. */
  function Remaining(p: Pipe): int
    requires p.phase.Pushing? && p.phase.cycle.Valid()
  {
    4 * (|p.phase.cycle.Chunks()| - p.phase.count) -
      match p.queue.producer {
        case PushLoaded(_) => 1
        case PushRoom(_) => 2
        case PushStored(_) => 3
        case _ => 0
      }
  }

  /** Still at it with `k` accesses to go, or done with cycle `c`. */
  ghost predicate Progressed(p: Pipe, done: seq<Cycle>, c: Cycle, k: int)
    requires c.Valid()
  {
    || (p.phase.Pushing? && p.phase.cycle == c && p.done == done && Remaining(p) == k > 0)
    || (done + [c] <= p.done && k <= 0)
  }

  lemma WorkProgresses(p: Pipe, done: seq<Cycle>, c: Cycle, k: int)
    requires PipeInv(p) && c.Valid() && Progressed(p, done, c, k)
    ensures Progressed(Working(p), done, c, k - 1)
  {
    if k > 0 {
      if !p.queue.producer.ProducerIdle? {
        PushAccess(p.queue);
      }
    } else {
      DoneGrows(p);
    }
    hide Cycle.Chunks, Stream, Publishable, SpscQueues.Inv, Cycle.Valid, Cycle.Snapshot, Produced;
  }

  lemma DoneGrows(p: Pipe)
    requires PipeInv(p)
    ensures p.done <= Working(p).done
  {
    hide Cycle.Chunks, Stream, Publishable, SpscQueues.Inv, Cycle.Snapshot, Produced;
  }

  lemma OtherActionsWait(p: Pipe, a: Action, done: seq<Cycle>, c: Cycle, k: int)
    requires PipeInv(p) && c.Valid() && Possible(a) && !a.Work? && Progressed(p, done, c, k)
    ensures Progressed(Acting(p, a), done, c, k)
  {
    match a {
      case Begin(_) =>
      case Drain => DrainIsConsumer(p.queue);
    }
    hide Cycle.Chunks, Stream, Publishable, SpscQueues.Inv, Cycle.Snapshot, Consumed;
  }

  function Works(actions: seq<Action>): nat {
    if actions == [] then 0 else Works(actions[..|actions| - 1]) + if actions[|actions| - 1].Work? then 1 else 0
  }

  lemma {:induction false} RunProgresses(p: Pipe, actions: seq<Action>)
    requires PipeInv(p) && p.phase.Pushing? && p.phase.cycle.Valid() && Remaining(p) > 0
    requires forall i :: 0 <= i < |actions| ==> Possible(actions[i])
    ensures Progressed(ActAll(p, actions), p.done, p.phase.cycle, Remaining(p) - Works(actions))
    decreases |actions|
  {
    hide PipeInv, Remaining, Working, Beginning, Draining, Cycle.Valid;
    if actions == [] {
      StartProgressed(p);
    } else {
      var (front, a) := (actions[..|actions| - 1], actions[|actions| - 1]);
      RunProgresses(p, front);
      var k := Remaining(p) - Works(front);
      if a.Work? {
        WorkProgresses(ActAll(p, front), p.done, p.phase.cycle, k);
      } else {
        OtherActionsWait(ActAll(p, front), a, p.done, p.phase.cycle, k);
      }
    }
  }

  lemma RemainingIsBounded(p: Pipe)
    requires PipeInv(p) && p.phase.Pushing? && p.phase.cycle.Valid()
    ensures 0 < Remaining(p) <= 4 * |p.phase.cycle.Chunks()|
  {
    hide Cycle.Chunks, Stream, Publishable, SpscQueues.Inv, Cycle.Snapshot;
  }

  lemma StartProgressed(p: Pipe)
    requires PipeInv(p) && p.phase.Pushing? && p.phase.cycle.Valid() && Remaining(p) > 0
    ensures Progressed(p, p.done, p.phase.cycle, Remaining(p))
  {
    hide Cycle.Chunks, Remaining, PipeInv;
  }

  /** A snapshot once begun is completed by at most four accesses of the worker for each chunk. */
  lemma BegunIsCompleted(p: Pipe, actions: seq<Action>)
    requires PipeInv(p) && p.phase.Pushing? && p.phase.cycle.Valid()
    requires forall i :: 0 <= i < |actions| ==> Possible(actions[i])
    requires Works(actions) >= 4 * |p.phase.cycle.Chunks()|
    ensures p.done + [p.phase.cycle] <= ActAll(p, actions).done
  {
    hide PipeInv, Remaining, ActAll, Works, Cycle.Chunks, Cycle.Valid;
    RemainingIsBounded(p);
    RunProgresses(p, actions);
  }
}
