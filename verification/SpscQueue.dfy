/**
 The lock-free single-producer single-consumer ring.

 `Ring` is its memory; `Contents` the elements between the two indices. The first half models the two
 threads at single loads and stores; the class at the end is the same code run without interference.
 */
module SpscQueues {
  import opened Common

  /** `(value + 1) % capacity` for an index below the capacity. */
  function Following(value: nat, capacity: nat): (r: nat)
    requires value < capacity
    ensures r < capacity && r == (value + 1) % capacity
  {
    if value + 1 == capacity then 0 else value + 1
  }

  datatype Ring<T> = Ring(slots: seq<T>, read: nat, write: nat)
  {
    ghost predicate Valid() { |slots| >= 2 && read < |slots| && write < |slots| }

    function Count(): (n: nat)
      requires Valid()
      ensures n < |slots|
    {
      if read <= write then write - read else |slots| - (read - write)
    }

    /** Where element `i` of the queue lies. */
    function Position(i: nat): (p: nat)
      requires Valid() && i < |slots|
      ensures p < |slots|
    {
      if read + i < |slots| then read + i else read + i - |slots|
    }

    function Contents(): (s: seq<T>)
      requires Valid()
      ensures |s| == Count()
    {
      seq(Count(), i requires 0 <= i < Count() => slots[Position(i)])
    }

    function Free(): nat
      requires Valid()
    {
      |slots| - 1 - Count()
    }
  }

  // ---------------------------------------------------------------- two threads

  datatype Producer<T> =
    | ProducerIdle
    | PushLoaded(value: T)
    | PushRoom(value: T)
    | PushStored(value: T)
    | AvailableLoaded

  datatype Consumer<T> =
    | ConsumerIdle
    | PopLoaded
    | PopSome
    | PopTaken(taken: T)

  /**
   `pushed` and `popped` record the completed operations in the order of their index stores; `credit`
   is what the last AvailableToWrite returned, less the pushes completed since.
   */
  datatype Queue<T> = Queue(
    ring: Ring<T>, producer: Producer<T>, consumer: Consumer<T>,
    pushed: seq<T>, popped: seq<T>, credit: nat, refused: bool)

  datatype Step<T> =
    | BeginPush(value: T) | BeginAvailable | Produce
    | BeginPop | Consume

  /** The value AvailableToWrite computes from the two indices. */
  function Available(read: nat, write: nat, capacity: nat): int {
    if read > write then read - write - 1 else capacity - (write - read) - 1
  }

  /** The next access of the producer; `refused` says that a push just found the queue full. */
  function Produced<T>(q: Queue<T>): Queue<T>
    requires q.ring.Valid()
  {
    var ring := q.ring;
    match q.producer
    case ProducerIdle => q
    case PushLoaded(value) =>
      if Following(ring.write, |ring.slots|) == ring.read
      then q.(producer := ProducerIdle, refused := true)
      else q.(producer := PushRoom(value))
    case PushRoom(value) =>
      q.(ring := ring.(slots := ring.slots[ring.write := value]), producer := PushStored(value))
    case PushStored(value) =>
      q.(ring := ring.(write := Following(ring.write, |ring.slots|)), producer := ProducerIdle,
         pushed := q.pushed + [value], credit := if q.credit == 0 then 0 else q.credit - 1)
    case AvailableLoaded =>
      var n := Available(ring.read, ring.write, |ring.slots|);
      q.(producer := ProducerIdle, credit := if n < 0 then 0 else n)
  }

  function Consumed<T>(q: Queue<T>): Queue<T>
    requires q.ring.Valid()
  {
    var ring := q.ring;
    match q.consumer
    case ConsumerIdle => q
    case PopLoaded => q.(consumer := if ring.read == ring.write then ConsumerIdle else PopSome)
    case PopSome => q.(consumer := PopTaken(ring.slots[ring.read]))
    case PopTaken(value) =>
      q.(ring := ring.(read := Following(ring.read, |ring.slots|)), consumer := ConsumerIdle,
         popped := q.popped + [value])
  }

  function Next<T>(q: Queue<T>, step: Step<T>): Queue<T>
    requires q.ring.Valid()
  {
    match step
    case BeginPush(value) =>
      if q.producer.ProducerIdle? then q.(producer := PushLoaded(value), refused := false) else q
    case BeginAvailable => if q.producer.ProducerIdle? then q.(producer := AvailableLoaded) else q
    case Produce => Produced(q)
    case BeginPop => if q.consumer.ConsumerIdle? then q.(consumer := PopLoaded) else q
    case Consume => Consumed(q)
  }

  ghost predicate Inv<T>(q: Queue<T>) {
    && q.ring.Valid()
    && q.pushed == q.popped + q.ring.Contents()
    && q.credit <= q.ring.Free()
    && (q.producer.PushLoaded? || q.producer.PushRoom? || q.producer.PushStored? ==> !q.refused)
    && (q.producer.PushRoom? || q.producer.PushStored? ==> q.ring.Free() > 0)
    && (q.producer.PushStored? ==> q.ring.slots[q.ring.write] == q.producer.value)
    && (q.consumer.PopSome? || q.consumer.PopTaken? ==> q.ring.Count() > 0)
    && (q.consumer.PopTaken? ==> q.consumer.taken == q.ring.Contents()[0])
  }

  // ---------------------------------------------------------------- the ring

  lemma FullMeansCapacityMinusOne<T>(ring: Ring<T>)
    requires ring.Valid()
    ensures Following(ring.write, |ring.slots|) == ring.read <==> ring.Count() == |ring.slots| - 1
    ensures Available(ring.read, ring.write, |ring.slots|) == ring.Free()
  {
  }

  /** Writing the slot at the write index of a queue that is not full touches no element of it. */
  lemma StoreIsInvisible<T>(ring: Ring<T>, value: T)
    requires ring.Valid() && ring.Free() > 0
    ensures ring.(slots := ring.slots[ring.write := value]).Contents() == ring.Contents()
  {
  }

  lemma WriteAppends<T>(ring: Ring<T>)
    requires ring.Valid() && ring.Free() > 0
    ensures
      var ring' := ring.(write := Following(ring.write, |ring.slots|));
      ring'.Valid() && ring'.Contents() == ring.Contents() + [ring.slots[ring.write]]
  {
    var ring' := ring.(write := Following(ring.write, |ring.slots|));
    assert ring'.Count() == ring.Count() + 1;
  }

  lemma ReadDropsHead<T>(ring: Ring<T>)
    requires ring.Valid() && ring.Count() > 0
    ensures
      var ring' := ring.(read := Following(ring.read, |ring.slots|));
      ring'.Valid() && ring'.Contents() == ring.Contents()[1..] && ring.Contents()[0] == ring.slots[ring.read]
  {
    var ring' := ring.(read := Following(ring.read, |ring.slots|));
    assert ring'.Count() == ring.Count() - 1;
  }

  // ---------------------------------------------------------------- every interleaving

  lemma ProduceKeepsInv<T>(q: Queue<T>)
    requires Inv(q)
    ensures Inv(Produced(q))
  {
    match q.producer
    case PushRoom(value) => StoreIsInvisible(q.ring, value);
    case PushStored(_) => WriteAppends(q.ring);
    case _ => FullMeansCapacityMinusOne(q.ring);
  }

  lemma ConsumeKeepsInv<T>(q: Queue<T>)
    requires Inv(q)
    ensures Inv(Consumed(q))
  {
    if q.consumer.PopSome? || q.consumer.PopTaken? {
      ReadDropsHead(q.ring);
      assert q.pushed == q.popped + [q.ring.Contents()[0]] + q.ring.Contents()[1..];
    }
  }

  function Exec<T>(q: Queue<T>, steps: seq<Step<T>>): (r: Queue<T>)
    requires q.ring.Valid()
    ensures r.ring.Valid()
  {
    if steps == [] then q else Next(Exec(q, steps[..|steps| - 1]), steps[|steps| - 1])
  }

  lemma {:induction false} RunKeepsInv<T>(q: Queue<T>, steps: seq<Step<T>>)
    requires Inv(q)
    ensures Inv(Exec(q, steps))
  {
    if steps != [] {
      var before := Exec(q, steps[..|steps| - 1]);
      RunKeepsInv(q, steps[..|steps| - 1]);
      ProduceKeepsInv(before);
      ConsumeKeepsInv(before);
    }
  }

  function Empty<T>(slots: seq<T>): Queue<T> {
    Queue(Ring(slots, 0, 0), ProducerIdle, ConsumerIdle, [], [], 0, false)
  }

  /**
   In every interleaving the completed pops are a prefix of the completed pushes, in order and without
   loss or duplication; what is in between is the contents, never more than the capacity less one.
   */
  lemma LinearizableFifo<T>(slots: seq<T>, steps: seq<Step<T>>)
    requires |slots| >= 2
    ensures
      var q := Exec(Empty(slots), steps);
      && q.popped <= q.pushed
      && q.pushed[|q.popped|..] == q.ring.Contents()
      && |q.pushed| - |q.popped| <= |slots| - 1
  {
    assert Inv(Empty(slots));
    RunKeepsInv(Empty(slots), steps);
    RingKeepsSize(slots, steps);
  }

  lemma {:induction false} RingKeepsSize<T>(slots: seq<T>, steps: seq<Step<T>>)
    requires |slots| >= 2
    ensures |Exec(Empty(slots), steps).ring.slots| == |slots|
  {
    if steps != [] {
      RingKeepsSize(slots, steps[..|steps| - 1]);
    }
  }

  /** A push is refused only by a queue that is full, and a pop only by one that is empty, at that access. */
  lemma RefusalIsExact<T>(q: Queue<T>)
    requires Inv(q)
    ensures q.producer.PushLoaded? ==> (Produced(q).refused <==> |q.ring.Contents()| == |q.ring.slots| - 1)
    ensures q.consumer.PopLoaded? ==> (Consumed(q).consumer.ConsumerIdle? <==> q.ring.Contents() == [])
  {
    FullMeansCapacityMinusOne(q.ring);
  }

  /** Running `n` pushes to completion while the consumer does anything at all. */
  ghost predicate PushesOnly<T>(steps: seq<Step<T>>) {
    forall i :: 0 <= i < |steps| ==> !steps[i].BeginAvailable?
  }

  /**
   After AvailableToWrite has returned `q.credit`, no push is refused until that many have completed,
   whatever the consumer does meanwhile.
   */
  lemma {:induction false} CreditIsHonoured<T>(q: Queue<T>, steps: seq<Step<T>>)
    requires Inv(q) && q.producer.ProducerIdle? && !q.refused && PushesOnly(steps)
    requires |Exec(q, steps).pushed| < |q.pushed| + q.credit
    ensures !Exec(q, steps).refused && !Exec(q, steps).producer.AvailableLoaded?
    ensures |Exec(q, steps).pushed| + Exec(q, steps).credit == |q.pushed| + q.credit
  {
    if steps != [] {
      var rest := steps[..|steps| - 1];
      var before := Exec(q, rest);
      PushesNeverShrink(before, steps[|steps| - 1]);
      CreditIsHonoured(q, rest);
      RunKeepsInv(q, rest);
      FullMeansCapacityMinusOne(before.ring);
    }
  }

  lemma PushesNeverShrink<T>(q: Queue<T>, step: Step<T>)
    requires q.ring.Valid()
    ensures |q.pushed| <= |Next(q, step).pushed|
  {
  }

  // ---------------------------------------------------------------- without interference

  class SpscQueue<T(0)> {
    const values: array<T>
    var read: nat
    var write: nat

    function View(): Ring<T>
      reads this, values
    {
      Ring(values[..], read, write)
    }

    ghost predicate Valid()
      reads this, values
    {
      View().Valid()
    }

    constructor (capacity: nat)
      requires capacity >= 2
      ensures Valid() && fresh(values) && values.Length == capacity && View().Contents() == []
    {
      values := new T[capacity];
      read, write := 0, 0;
    }

    method TryPush(value: T) returns (ok: bool)
      requires Valid()
      modifies this`write, values
      ensures Valid()
      ensures ok <==> |old(View().Contents())| < values.Length - 1
      ensures View().Contents() == old(View().Contents()) + (if ok then [value] else [])
    {
      FullMeansCapacityMinusOne(View());
      var next := Following(write, values.Length);
      if next == read {
        return false;
      }
      ghost var before := View();
      StoreIsInvisible(before, value);
      values[write] := value;
      assert View() == before.(slots := before.slots[write := value]);
      WriteAppends(View());
      write := next;
      ok := true;
    }

    method TryPop() returns (value: Option<T>)
      requires Valid()
      modifies this`read
      ensures Valid()
      ensures value.None? <==> old(View().Contents()) == []
      ensures value.None? ==> View().Contents() == []
      ensures value.Some? ==> old(View().Contents()) == [value.value] + View().Contents()
    {
      if read == write {
        return None;
      }
      ReadDropsHead(View());
      value := Some(values[read]);
      read := Following(read, values.Length);
    }

    method AvailableToWrite() returns (n: nat)
      requires Valid()
      ensures n == values.Length - 1 - |View().Contents()|
    {
      FullMeansCapacityMinusOne(View());
      if read > write {
        return read - write - 1;
      }
      n := values.Length - (write - read) - 1;
    }
  }
}
