/**
 Whole runs of the daemon's client events over the safety gate.

 The log fields record every lease ever granted and every output write ever accepted, so that the
 theorems can speak about a run and not just about one call.
 */
module Leases {
  import opened Common
  import opened SafetyGates

  /** A connection; `hello` says that its single HELLO was processed. */
  datatype Client = Client(open: bool, hello: bool)

  datatype Grant = Grant(client: ClientId, epoch: nat)

  datatype LeaseState = LeaseState(
    gate: Gate,
    clients: map<ClientId, Client>,
    nextId: ClientId,
    grants: seq<Grant>,
    writes: seq<Grant>)
  {
    predicate Open(id: ClientId) { id in clients && clients[id].open }
  }

  datatype Event =
    | Connect
    | Hello(id: ClientId, asksControl: bool, authorized: bool, pid: nat, now: Time)
    | Heartbeat(id: ClientId, epoch: nat, now: Time)
    | OutputEnable(id: ClientId, epoch: nat, enabled: bool, healthy: bool, now: Time)
    | OutputWrite(id: ClientId, epoch: nat, queued: bool, now: Time)
    | ReleaseControl(id: ClientId, epoch: nat)
    | AdapterUnlock(id: ClientId, epoch: nat)
    | Close(id: ClientId)
    | Watchdogs(now: Time)
    | Invalidate

  function Initial(epoch: nat, heartbeatTimeout: int, outputTimeout: int): LeaseState {
    LeaseState(NewGate(epoch, heartbeatTimeout, outputTimeout), map[], 1, [], [])
  }

  function Closed(s: LeaseState, id: ClientId): LeaseState {
    if !s.Open(id) then s
    else s.(clients := s.clients[id := s.clients[id].(open := false)], gate := Disconnected(s.gate, id).0)
  }

  function AfterHello(s: LeaseState, id: ClientId, wantsLease: bool, pid: nat, now: Time): LeaseState
    requires id in s.clients
  {
    var known := s.(clients := s.clients[id := s.clients[id].(hello := true)]);
    var (g, r) := Acquired(s.gate, id, pid, now);
    if !wantsLease || r.status != Ok then known
    else known.(gate := g, grants := s.grants + [Grant(id, s.gate.epoch)])
  }

  function AfterWrite(s: LeaseState, id: ClientId, epoch: nat, queued: bool, now: Time): LeaseState {
    if WriteAuthorization(s.gate, id, epoch) == Ok && queued
    then s.(gate := WriteRecorded(s.gate, id, epoch, now).0, writes := s.writes + [Grant(id, epoch)])
    else s
  }

  /** A frame of a client that has completed its HELLO. */
  function Framed(s: LeaseState, ev: Event): LeaseState {
    match ev
    case Heartbeat(id, epoch, now) => s.(gate := Beaten(s.gate, id, epoch, now).0)
    case OutputEnable(id, epoch, enabled, healthy, now) =>
      s.(gate := OutputEnableSet(s.gate, id, epoch, enabled, healthy, now).0)
    case OutputWrite(id, epoch, queued, now) => AfterWrite(s, id, epoch, queued, now)
    case ReleaseControl(id, epoch) => s.(gate := Released(s.gate, id, epoch).0)
    case AdapterUnlock(id, epoch) =>
      if Authorization(s.gate, id, epoch) == Ok then s.(gate := Dropped(s.gate).0) else s
    case _ => s
  }

  function Step(s: LeaseState, ev: Event): LeaseState {
    match ev
    case Connect => s.(clients := s.clients[s.nextId := Client(true, false)], nextId := s.nextId + 1)
    case Close(id) => Closed(s, id)
    case Watchdogs(now) => s.(gate := TimedOut(s.gate, now).0)
    case Invalidate => s.(gate := Dropped(s.gate).0)
    case Hello(id, asks, authorized, pid, now) =>
      if !s.Open(id) then s
      else if s.clients[id].hello then Closed(s, id)
      else AfterHello(s, id, asks && authorized, pid, now)
    case _ =>
      if !s.Open(ev.id) then s
      else if !s.clients[ev.id].hello then Closed(s, ev.id)
      else Framed(s, ev)
  }

  function Exec(s: LeaseState, evs: seq<Event>): LeaseState {
    if evs == [] then s else Step(Exec(s, evs[..|evs| - 1]), evs[|evs| - 1])
  }

  /** Grants carry strictly rising epochs, so an epoch is granted once. */
  ghost predicate Rising(grants: seq<Grant>) {
    forall i, j :: 0 <= i < j < |grants| ==>
      grants[i].epoch < grants[j].epoch && grants[i].client != grants[j].client
  }

  ghost predicate LeaseMatchesGate(s: LeaseState) {
    && (forall k :: 0 <= k < |s.grants| ==> s.grants[k].epoch <= s.gate.epoch)
    && (s.gate.controller.None? ==> forall k :: 0 <= k < |s.grants| ==> s.grants[k].epoch < s.gate.epoch)
    && (s.gate.controller.Some? ==>
          && |s.grants| > 0
          && s.grants[|s.grants| - 1] == Grant(s.gate.controller.value.id, s.gate.epoch))
  }

  ghost predicate ClientsKnown(s: LeaseState) {
    && 0 !in s.clients && s.nextId > 0
    && (forall id :: id in s.clients ==> id < s.nextId)
    && (forall k :: 0 <= k < |s.grants| ==>
          s.grants[k].client in s.clients && s.clients[s.grants[k].client].hello)
    && (s.gate.controller.Some? ==> s.Open(s.gate.controller.value.id))
  }

  ghost predicate Inv(s: LeaseState) {
    && s.gate.Valid()
    && Rising(s.grants)
    && LeaseMatchesGate(s)
    && ClientsKnown(s)
    && (forall w :: w in s.writes ==> w in s.grants)
  }

  /** What an event may do to the gate short of granting a lease. */
  ghost predicate Continues(g: Gate, g': Gate) {
    || (g'.epoch == g.epoch && g'.Valid()
        && g'.controller.Some? == g.controller.Some?
        && (g.controller.Some? ==> g'.controller.value.id == g.controller.value.id))
    || g' == Dropped(g).0
  }

  lemma ContinuesKeepsInv(s: LeaseState, g: Gate)
    requires Inv(s) && s.gate.epoch < MAX_U64 && Continues(s.gate, g)
    ensures Inv(s.(gate := g))
  {
  }

  lemma ClosedKeepsInv(s: LeaseState, id: ClientId)
    requires Inv(s) && s.gate.epoch < MAX_U64
    ensures Inv(Closed(s, id))
  {
    if s.Open(id) {
      var s' := s.(gate := Disconnected(s.gate, id).0);
      ContinuesKeepsInv(s, s'.gate);
      var s'' := Closed(s, id);
      assert s''.grants == s'.grants && s''.gate == s'.gate;
      assert forall k | 0 <= k < |s.grants| :: s.clients[s.grants[k].client].hello;
      assert !s''.gate.HeldBy(id);
    }
  }

  lemma HelloKeepsInv(s: LeaseState, id: ClientId, wantsLease: bool, pid: nat, now: Time)
    requires Inv(s) && s.Open(id) && !s.clients[id].hello
    ensures Inv(AfterHello(s, id, wantsLease, pid, now))
  {
    var s' := AfterHello(s, id, wantsLease, pid, now);
    assert forall k | 0 <= k < |s.grants| :: s.grants[k].client != id;
    assert forall k | 0 <= k < |s'.grants| :: k < |s.grants| ==> s'.grants[k] == s.grants[k];
  }

  lemma WriteKeepsInv(s: LeaseState, id: ClientId, epoch: nat, queued: bool, now: Time)
    requires Inv(s) && s.gate.epoch < MAX_U64
    ensures Inv(AfterWrite(s, id, epoch, queued, now))
  {
    if WriteAuthorization(s.gate, id, epoch) == Ok && queued {
      assert s.grants[|s.grants| - 1] == Grant(id, epoch);
      ContinuesKeepsInv(s, WriteRecorded(s.gate, id, epoch, now).0);
    }
  }

  lemma ConnectKeepsInv(s: LeaseState)
    requires Inv(s)
    ensures Inv(Step(s, Connect))
  {
    assert forall k | 0 <= k < |s.grants| :: s.grants[k].client < s.nextId;
  }

  lemma WatchdogsKeepInv(s: LeaseState, now: Time)
    requires Inv(s) && s.gate.epoch < MAX_U64
    ensures Inv(Step(s, Watchdogs(now)))
  {
    ContinuesKeepsInv(s, TimedOut(s.gate, now).0);
  }

  lemma FramedKeepsInv(s: LeaseState, ev: Event)
    requires Inv(s) && s.gate.epoch < MAX_U64
    ensures Inv(Framed(s, ev))
    ensures s.gate.epoch <= Framed(s, ev).gate.epoch <= s.gate.epoch + 1
  {
    if ev.OutputWrite? {
      WriteKeepsInv(s, ev.id, ev.epoch, ev.queued, ev.now);
    } else {
      ContinuesKeepsInv(s, Framed(s, ev).gate);
      assert Framed(s, ev) == s.(gate := Framed(s, ev).gate);
    }
  }

  lemma StepKeepsInv(s: LeaseState, ev: Event)
    requires Inv(s) && s.gate.epoch < MAX_U64
    ensures Inv(Step(s, ev))
    ensures s.gate.epoch <= Step(s, ev).gate.epoch <= s.gate.epoch + 1
  {
    hide Inv;
    match ev
    case Connect => ConnectKeepsInv(s);
    case Close(id) => ClosedKeepsInv(s, id);
    case Watchdogs(now) => WatchdogsKeepInv(s, now);
    case Invalidate => ContinuesKeepsInv(s, Dropped(s.gate).0);
    case Hello(id, asks, authorized, pid, now) =>
      ClosedKeepsInv(s, id);
      if s.Open(id) && !s.clients[id].hello {
        HelloKeepsInv(s, id, asks && authorized, pid, now);
      }
    case _ =>
      ClosedKeepsInv(s, ev.id);
      FramedKeepsInv(s, ev);
  }

  /** Within an epoch only a healthy OUTPUT_ENABLE changes the output state; a lease loss ends the epoch. */
  lemma StepEffect(s: LeaseState, ev: Event)
    requires Inv(s) && s.gate.epoch < MAX_U64
    ensures
      var (g, g') := (s.gate, Step(s, ev).gate);
      || (g'.epoch == g.epoch && g'.outputsEnabled == g.outputsEnabled)
      || (g'.epoch == g.epoch && g'.outputsEnabled && ev.OutputEnable? && ev.healthy)
      || (g'.epoch == g.epoch + 1 && !g'.outputsEnabled)
    ensures s.grants <= Step(s, ev).grants
  {
    if ev.Hello? && s.Open(ev.id) && !s.clients[ev.id].hello {
      assert !s.gate.HeldBy(ev.id);
    }
  }

  /** No event of the run finds the epoch counter at its last value, so the counter never wraps. */
  ghost predicate NeverWraps(s: LeaseState, evs: seq<Event>) {
    forall n :: 0 <= n < |evs| ==> Exec(s, evs[..n]).gate.epoch < MAX_U64
  }

  lemma PrefixNeverWraps(s: LeaseState, evs: seq<Event>)
    requires evs != [] && NeverWraps(s, evs)
    ensures NeverWraps(s, evs[..|evs| - 1]) && Exec(s, evs[..|evs| - 1]).gate.epoch < MAX_U64
  {
    var front := evs[..|evs| - 1];
    forall n | 0 <= n < |front| ensures Exec(s, front[..n]).gate.epoch < MAX_U64 {
      assert front[..n] == evs[..n];
    }
  }

  lemma {:induction false} RunKeepsInv(s: LeaseState, evs: seq<Event>)
    requires Inv(s) && NeverWraps(s, evs)
    ensures Inv(Exec(s, evs)) && s.gate.epoch <= Exec(s, evs).gate.epoch
  {
    if evs != [] {
      PrefixNeverWraps(s, evs);
      RunKeepsInv(s, evs[..|evs| - 1]);
      StepKeepsInv(Exec(s, evs[..|evs| - 1]), evs[|evs| - 1]);
    }
  }

  /**
   Over every run: an epoch value has at most one lease holder, a connection acquires at most once,
   enabled outputs imply a lease, the holder is an open client, and every accepted write was made by
   the holder of exactly the epoch it names.
   */
  lemma LeaseSafety(epoch: nat, heartbeatTimeout: int, outputTimeout: int, evs: seq<Event>)
    requires epoch <= MAX_U64 && NeverWraps(Initial(epoch, heartbeatTimeout, outputTimeout), evs)
    ensures
      var s := Exec(Initial(epoch, heartbeatTimeout, outputTimeout), evs);
      && (forall i, j | 0 <= i < |s.grants| && 0 <= j < |s.grants| ::
            s.grants[i].epoch == s.grants[j].epoch || s.grants[i].client == s.grants[j].client ==> i == j)
      && (s.gate.outputsEnabled ==> s.gate.controller.Some?)
      && (forall id :: s.gate.HeldBy(id) ==> s.Open(id) && Grant(id, s.gate.epoch) in s.grants)
      && (forall w :: w in s.writes ==> w in s.grants)
  {
    var s0 := Initial(epoch, heartbeatTimeout, outputTimeout);
    assert Inv(s0);
    RunKeepsInv(s0, evs);
  }

  /** A client that once held the lease and no longer does. */
  ghost predicate Lost(s: LeaseState, id: ClientId) {
    && !s.gate.HeldBy(id)
    && exists k :: 0 <= k < |s.grants| && s.grants[k].client == id
  }

  function WritesOf(writes: seq<Grant>, id: ClientId): nat {
    if writes == [] then 0
    else WritesOf(writes[..|writes| - 1], id) + if writes[|writes| - 1].client == id then 1 else 0
  }

  lemma LostStaysLost(s: LeaseState, ev: Event, id: ClientId)
    requires Inv(s) && s.gate.epoch < MAX_U64 && Lost(s, id)
    ensures Lost(Step(s, ev), id)
    ensures WritesOf(Step(s, ev).writes, id) == WritesOf(s.writes, id)
  {
    var s' := Step(s, ev);
    var k :| 0 <= k < |s.grants| && s.grants[k].client == id;
    assert s.clients[id].hello;
    hide Rising;
    assert s'.grants[k].client == id;
    if ev.OutputWrite? && s'.writes != s.writes {
      assert s'.writes[..|s'.writes| - 1] == s.writes;
    }
  }

  /** A connection that has lost its lease never has another write accepted, whatever happens next. */
  lemma {:induction false} NeverWritesAgain(s: LeaseState, evs: seq<Event>, id: ClientId)
    requires Inv(s) && NeverWraps(s, evs) && Lost(s, id)
    ensures Lost(Exec(s, evs), id)
    ensures WritesOf(Exec(s, evs).writes, id) == WritesOf(s.writes, id)
  {
    if evs != [] {
      var before := evs[..|evs| - 1];
      PrefixNeverWraps(s, evs);
      RunKeepsInv(s, before);
      NeverWritesAgain(s, before, id);
      LostStaysLost(Exec(s, before), evs[|evs| - 1], id);
    }
  }

  // ---------------------------------------------------------------- over the wrap

  function Invalidations(n: nat): seq<Event> { seq(n, i => Invalidate) }

  lemma {:induction false} EpochAfterInvalidations(s: LeaseState, n: nat)
    requires 1 <= s.gate.epoch && s.gate.epoch + n <= MAX_U64
    ensures Exec(s, Invalidations(n)) == if n == 0 then s else s.(gate := Dropped(s.gate).0.(epoch := s.gate.epoch + n))
  {
    if n > 0 {
      EpochAfterInvalidations(s, n - 1);
      assert Invalidations(n)[..n - 1] == Invalidations(n - 1);
    }
  }

  lemma {:induction false} ExecAppend(s: LeaseState, a: seq<Event>, b: seq<Event>)
    ensures Exec(s, a + b) == Exec(Exec(s, a), b)
    decreases |b|
  {
    hide Step;
    if b == [] {
      assert a + b == a;
    } else {
      ExecAppend(s, a, b[..|b| - 1]);
      assert (a + b)[..|a + b| - 1] == a + b[..|b| - 1];
    }
  }

  lemma ExecTwo(s: LeaseState, a: Event, b: Event)
    ensures Exec(s, [a, b]) == Step(Step(s, a), b)
  {
    hide Step;
    ExecOne(s, a);
    assert [a, b][..1] == [a];
  }

  /** The lease of a fresh connection that asks for control while nobody holds it. */
  lemma FreshGrant(s: LeaseState)
    requires s.gate.controller.None? && s.nextId > 0 && s.nextId !in s.clients
    ensures
      var t := Exec(s, [Connect, Hello(s.nextId, true, true, 0, 0)]);
      t.grants == s.grants + [Grant(s.nextId, s.gate.epoch)] && t.gate.epoch == s.gate.epoch
      && t.nextId == s.nextId + 1 && t.clients.Keys == s.clients.Keys + {s.nextId}
  {
    ExecTwo(s, Connect, Hello(s.nextId, true, true, 0, 0));
  }

  /** Why the runs above must not wrap: after 2^64 - 1 invalidations a second client is granted epoch 1. */
  lemma WrapGrantsAnEpochTwice()
    ensures exists evs ::
      Exec(Initial(1, 250, 100), evs).grants == [Grant(1, 1), Grant(2, 1)]
  {
    hide Step, Exec;
    var s0 := Initial(1, 250, 100);
    var first := [Connect, Hello(1, true, true, 0, 0)];
    FreshGrant(s0);
    var s1 := Exec(s0, first);
    var climb := Invalidations(MAX_U64 - 1);
    EpochAfterInvalidations(s1, MAX_U64 - 1);
    var s2 := Exec(s1, climb);
    Wraps(s2);
    var second := [Connect, Hello(2, true, true, 0, 0)];
    FreshGrant(Exec(s2, [Invalidate]));
    ExecAppend(s0, first, climb);
    ExecAppend(s0, first + climb, [Invalidate]);
    ExecAppend(s0, first + climb + [Invalidate], second);
    var evs := first + climb + [Invalidate] + second;
    assert Exec(s0, evs).grants == [Grant(1, 1), Grant(2, 1)];
  }

  lemma Wraps(s: LeaseState)
    requires s.gate.epoch == MAX_U64
    ensures
      var t := Exec(s, [Invalidate]);
      t == s.(gate := t.gate) && t.gate.epoch == 1 && t.gate.controller.None?
  {
    ExecOne(s, Invalidate);
  }

  lemma ExecOne(s: LeaseState, e: Event)
    ensures Exec(s, [e]) == Step(s, e)
  {
    hide Step;
    assert [e][..0] == [];
  }
}
