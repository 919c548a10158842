/**
 The readiness check reads the state of a bus twice, and the two reads can disagree.

 A concrete run in which outputs become enabled in an epoch whose zero barrier the bus never sent: a
 clock failure makes the worker raise faults in epoch 1; while it stands before the stores of the
 second one, the daemon advances to epoch 2 and a client asks for outputs; between the two reads the
 worker moves on to reinitialization, and validates its topology before the check reads that.
 */
module OutputRace {
  import opened Common
  import opened OutputModel
  import opened OutputRuns
  import opened OutputTheorems

  ghost predicate Reachable(s: System) {
    exists r :: IsRun(r) && r.states[|r.states| - 1] == s
  }

  lemma ReachNext(s: System, l: Label)
    requires Reachable(s) && Enabled(s, l) && Next(s, l).Gate().epoch < MAX_U64
    ensures Reachable(Next(s, l))
  {
    var r :| IsRun(r) && r.states[|r.states| - 1] == s;
    var r' := Run(r.states + [Next(s, l)], r.labels + [l]);
    forall i | 0 <= i < |r'.labels| ensures Follows(r', i) {
      if i < |r.labels| {
        assert Follows(r, i);
      }
    }
    assert IsRun(r');
  }

  function Branch(n: nat): Choice { Choice(n, false, [8]) }

  /** One SubDevice of eight output bits, as the configuration expects it. */
  const TOPOLOGY: Choice := Choice(0, true, [8])

  /** The state of a run with one bus, apart from the gate. */
  function One(lease: Leases.LeaseState, dpc: DaemonPc, b: Bus, latch: nat, log: seq<Frame>): System {
    System(lease, dpc, [true], [b], latch, 0, 100000, 511, {}, {}, log)
  }

  /** A worker step that neither sends nor stores the latch. */
  lemma WorkOne(lease: Leases.LeaseState, dpc: DaemonPc, b: Bus, latch: nat, log: seq<Frame>, ch: Choice)
    requires Reachable(One(lease, dpc, b, latch, log)) && lease.gate.epoch < MAX_U64
    requires !Transmits(b.w.pc, ch) && LatchAfter(b.w.pc, latch) == latch
    requires ShapeOk(One(lease, dpc, b, latch, log))
    ensures Reachable(One(lease, dpc, WorkerStep(b, latch, 0, 100000, ch), latch, log))
  {
    hide Reachable, WorkerStep;
    var s := One(lease, dpc, b, latch, log);
    ReachNext(s, Work(0, ch));
    assert Next(s, Work(0, ch)) == One(lease, dpc, WorkerStep(b, latch, 0, 100000, ch), latch, log);
  }

  lemma SendOne(lease: Leases.LeaseState, dpc: DaemonPc, b: Bus, latch: nat, log: seq<Frame>, ch: Choice)
    requires Reachable(One(lease, dpc, b, latch, log)) && lease.gate.epoch < MAX_U64
    requires Transmits(b.w.pc, ch) && ShapeOk(One(lease, dpc, b, latch, log))
    ensures Reachable(One(lease, dpc, WorkerStep(b, latch, 0, 100000, ch), latch, log + [FrameOf(b.w, 0, ch.full)]))
  {
    hide Reachable, WorkerStep;
    var s := One(lease, dpc, b, latch, log);
    ReachNext(s, Work(0, ch));
    assert Next(s, Work(0, ch))
        == One(lease, dpc, WorkerStep(b, latch, 0, 100000, ch), latch, log + [FrameOf(b.w, 0, ch.full)]);
  }

  lemma DaemonOne(s: System, m: DaemonMove, s': System)
    requires Reachable(s) && ShapeOk(s) && DaemonEnabled(s, m) && s' == DaemonStep(s, m) && s'.Gate().epoch < MAX_U64
    ensures Reachable(s')
  {
    hide Reachable, DaemonStep;
    ReachNext(s, Daemon(m));
  }

  function Slots(): seq<Slot> { [Slot(8, Zero, 0)] }

  function BusAt(p: Port, pc: WorkerPc, slots: seq<Slot>): Bus {
    Bus(p, Worker(pc, 0, false, true, false, 0, false, 0, 0, slots), None, {})
  }

  const START: Leases.LeaseState := Leases.Initial(1, 250, 100)

  /** The frame of an initializing or closing context: nothing observed, nothing set. */
  function Quiescent(): Frame { Frame(0, 0, Slots(), 0, false, false) }

  lemma InitialIsReachable(s: System)
    requires IsInitial(s) && s.Gate().epoch < MAX_U64
    ensures Reachable(s)
  {
    assert IsRun(Run([s], []));
  }

  lemma Boots()
    ensures Reachable(One(START, Idle, BusAt(Port(1, 0, false, 0, Starting, [], false), InitClose, []), 0, []))
  {
    hide Reachable;
    var s0 := InitialSystem(1, 250, 100, 1, 511);
    InitialIsReachable(s0);
    var s1 := One(START, Idle, InitialBus(), 0, []);
    assert s1 == DaemonStep(s0, Scan([true], false));
    DaemonOne(s0, Scan([true], false), s1);
    var b := Started(InitialBus(), 1);
    DaemonOne(s1, StartWorker(0), One(START, Idle, b, 0, []));
    WorkOne(START, Idle, b, 0, [], Branch(1));
  }

  lemma Initializes()
    ensures Reachable(One(START, Idle, BusAt(Port(1, 0, false, 0, Operational, [], true), Cycle(Top), Slots()), 0,
                          [Quiescent()]))
  {
    hide Reachable;
    Boots();
    var p := Port(1, 0, false, 0, Starting, [], false);
    WorkOne(START, Idle, BusAt(p, InitClose, []), 0, [], Branch(0));
    WorkOne(START, Idle, BusAt(p, Unbind(ThenInit), []), 0, [], Branch(0));
    WorkOne(START, Idle, BusAt(p, Init(Mark), []), 0, [], Branch(0));
    p := p.(state := Initializing);
    WorkOne(START, Idle, BusAt(p, Init(Map), []), 0, [], TOPOLOGY);
    assert Mapped([8]) == Slots();
    p := p.(verified := true);
    WorkOne(START, Idle, BusAt(p, Init(Safe), Slots()), 0, [], Branch(0));
    p := p.(state := SafeOperational);
    SendOne(START, Idle, BusAt(p, Init(Exchanging), Slots()), 0, [], Branch(0));
    assert [] + [Quiescent()] == [Quiescent()];
    WorkOne(START, Idle, BusAt(p, Init(Exchanging), Slots()), 0, [Quiescent()], Branch(1));
    WorkOne(START, Idle, BusAt(p, Init(Done), Slots()), 0, [Quiescent()], Branch(0));
  }

  /** The clock fails at the top of the loop: the worker raises a fault in epoch 1 and closes its context. */
  lemma ClockFails()
    ensures Reachable(One(START, Idle, BusAt(Port(1, 0, false, 1, Operational, [], false), Outer, Slots()), 1,
                          [Quiescent(), Quiescent()]))
  {
    hide Reachable;
    Initializes();
    var log := [Quiescent()];
    var p := Port(1, 0, false, 0, Operational, [], true);
    WorkOne(START, Idle, BusAt(p, Cycle(Top), Slots()), 0, log, Branch(1));
    WorkOne(START, Idle, BusAt(p, Raise(Load, ToClose), Slots()), 0, log, Branch(0));
    WorkOne(START, Idle, BusAt(p, Raise(Own(1), ToClose), Slots()), 0, log, Branch(0));
    p := p.(faulted := 1);
    LatchOne(START, Idle, BusAt(p, Raise(Global(1), ToClose), Slots()), 0, log);
    WorkOne(START, Idle, BusAt(p, Raise(Permit, ToClose), Slots()), 1, log, Branch(0));
    WorkOne(START, Idle, BusAt(p, Close(false), Slots()), 1, log, Branch(0));
    WorkOne(START, Idle, BusAt(p, Unbind(ThenSend(false)), Slots()), 1, log, Branch(0));
    assert Stamped(ZeroSlots(Slots()), 0) == Slots();
    p := p.(verified := false);
    SendOne(START, Idle, BusAt(p, CloseSend(false), Slots()), 1, log, Branch(0));
    assert log + [Quiescent()] == [Quiescent(), Quiescent()];
  }

  lemma LatchOne(lease: Leases.LeaseState, dpc: DaemonPc, b: Bus, latch: nat, log: seq<Frame>)
    requires Reachable(One(lease, dpc, b, latch, log)) && lease.gate.epoch < MAX_U64
    requires b.w.pc.Raise? && b.w.pc.raise.Global? && ShapeOk(One(lease, dpc, b, latch, log))
    ensures Reachable(One(lease, dpc, Go(b, Raise(Permit, b.w.pc.resume)), b.w.pc.raise.r, log))
  {
    hide Reachable;
    var s := One(lease, dpc, b, latch, log);
    ReachNext(s, Work(0, Branch(0)));
    assert Next(s, Work(0, Branch(0)))
        == One(lease, dpc, Go(b, Raise(Permit, b.w.pc.resume)), b.w.pc.raise.r, log);
  }

  const LOG: seq<Frame> := [Quiescent(), Quiescent()]

  /** The worker on its way to reinitialization, having loaded epoch 1 for its second fault. */
  function Stalled(epoch: nat): Bus {
    BusAt(Port(epoch, 0, false, 1, Operational, [], false), Raise(Own(1), ToInit), Slots())
  }

  lemma Stalls()
    ensures Reachable(One(START, Idle, Stalled(1), 1, LOG))
  {
    hide Reachable;
    ClockFails();
    var p := Port(1, 0, false, 1, Operational, [], false);
    WorkOne(START, Idle, BusAt(p, Outer, Slots()), 1, LOG, Branch(1));
    WorkOne(START, Idle, BusAt(p, Raise(Load, ToInit), Slots()), 1, LOG, Branch(0));
  }

  /** ApplySafetyToBuses with outputs off and no latch of the current epoch. */
  lemma PushesOff(lease: Leases.LeaseState, epoch: nat)
    requires Reachable(One(lease, Pushing(0, Exchange), Stalled(epoch), 1, LOG))
    requires 1 < lease.gate.epoch < MAX_U64 && !lease.gate.outputsEnabled
    ensures Reachable(One(lease, Idle, Stalled(lease.gate.epoch), 1, LOG))
  {
    hide Reachable;
    var (e, m) := (lease.gate.epoch, Advance(false, 0));
    DaemonOne(One(lease, Pushing(0, Exchange), Stalled(epoch), 1, LOG), m,
              One(lease, Pushing(0, LoadOwn), Stalled(e), 1, LOG));
    DaemonOne(One(lease, Pushing(0, LoadOwn), Stalled(e), 1, LOG), m,
              One(lease, Pushing(0, LoadGlobal(false)), Stalled(e), 1, LOG));
    DaemonOne(One(lease, Pushing(0, LoadGlobal(false)), Stalled(e), 1, LOG), m,
              One(lease, Pushing(0, Store(false)), Stalled(e), 1, LOG));
    DaemonOne(One(lease, Pushing(0, Store(false)), Stalled(e), 1, LOG), m,
              One(lease, Idle, Stalled(e), 1, LOG));
  }

  const CONNECTED: Leases.LeaseState := Leases.Step(START, Leases.Connect)
  const ADVANCED: Leases.LeaseState := Leases.Step(CONNECTED, Leases.Invalidate)
  const HELD: Leases.LeaseState := Leases.Step(ADVANCED, Leases.Hello(1, true, true, 7, 0))

  /** The daemon answers the first fault with a new epoch, and a client acquires the lease in it. */
  lemma LeaseMovesOn()
    ensures Reachable(One(HELD, Idle, Stalled(2), 1, LOG))
  {
    hide Reachable;
    Stalls();
    DaemonOne(One(START, Idle, Stalled(1), 1, LOG), LeaseEvent(Leases.Connect, false),
              One(CONNECTED, Idle, Stalled(1), 1, LOG));
    DaemonOne(One(CONNECTED, Idle, Stalled(1), 1, LOG), LeaseEvent(Leases.Invalidate, true),
              One(ADVANCED, Pushing(0, Exchange), Stalled(1), 1, LOG));
    PushesOff(ADVANCED, 1);
    DaemonOne(One(ADVANCED, Idle, Stalled(2), 1, LOG), LeaseEvent(Leases.Hello(1, true, true, 7, 0), true),
              One(HELD, Pushing(0, Exchange), Stalled(2), 1, LOG));
    PushesOff(HELD, 2);
  }

  const REQUEST: EnableRequest := EnableRequest(1, 2, true)

  lemma FirstReadPasses()
    ensures Reachable(One(HELD, Checking(REQUEST, 0, SecondState, false, {}), Stalled(2), 1, LOG))
  {
    hide Reachable;
    LeaseMovesOn();
    var m := Advance(true, 0);
    DaemonOne(One(HELD, Idle, Stalled(2), 1, LOG), StartCheck(REQUEST),
              One(HELD, Checking(REQUEST, 0, GlobalLatch, false, {}), Stalled(2), 1, LOG));
    DaemonOne(One(HELD, Checking(REQUEST, 0, GlobalLatch, false, {}), Stalled(2), 1, LOG), m,
              One(HELD, Checking(REQUEST, 0, FirstState, false, {}), Stalled(2), 1, LOG));
    DaemonOne(One(HELD, Checking(REQUEST, 0, FirstState, false, {}), Stalled(2), 1, LOG), m,
              One(HELD, Checking(REQUEST, 0, SecondState, false, {}), Stalled(2), 1, LOG));
  }

  /** The worker after the CloseContext of its reinitialization, before it looks at the topology. */
  function Left(): Bus {
    BusAt(Port(2, 0, false, 1, Initializing, [], false), Init(Map), Slots())
  }

  lemma WorkerLeaves()
    ensures Reachable(One(HELD, Checking(REQUEST, 0, SecondState, false, {}), Left(), 1, LOG))
  {
    hide Reachable;
    FirstReadPasses();
    var dpc := Checking(REQUEST, 0, SecondState, false, {});
    var p := Port(2, 0, false, 1, Operational, [], false);
    WorkOne(HELD, dpc, Stalled(2), 1, LOG, Branch(0));
    LatchOne(HELD, dpc, BusAt(p, Raise(Global(1), ToInit), Slots()), 1, LOG);
    WorkOne(HELD, dpc, BusAt(p, Raise(Permit, ToInit), Slots()), 1, LOG, Branch(0));
    WorkOne(HELD, dpc, BusAt(p, InitClose, Slots()), 1, LOG, Branch(0));
    WorkOne(HELD, dpc, BusAt(p, Unbind(ThenInit), Slots()), 1, LOG, Branch(0));
    assert Stamped(ZeroSlots(Slots()), 0) == Slots();
    WorkOne(HELD, dpc, BusAt(p, Init(Mark), Slots()), 1, LOG, Branch(0));
  }

  /** The topology validates while the bus is still Initializing. */
  function Validated(): Bus {
    BusAt(Port(2, 0, false, 1, Initializing, [], true), Init(Safe), Slots())
  }

  /** The second read finds the bus outside OP; the worker then validates; the last read finds that. */
  lemma CheckPasses()
    ensures Reachable(One(HELD, Deciding(REQUEST, true, {0}), Validated(), 1, LOG))
  {
    hide Reachable;
    WorkerLeaves();
    var m := Advance(true, 0);
    var dpc := Checking(REQUEST, 0, Topology, false, {0});
    assert {} + {0} == {0};
    DaemonOne(One(HELD, Checking(REQUEST, 0, SecondState, false, {}), Left(), 1, LOG), m,
              One(HELD, dpc, Left(), 1, LOG));
    WorkOne(HELD, dpc, Left(), 1, LOG, TOPOLOGY);
    assert Mapped([8]) == Slots();
    DaemonOne(One(HELD, dpc, Validated(), 1, LOG), m, One(HELD, Deciding(REQUEST, true, {0}), Validated(), 1, LOG));
  }

  /** Outputs are enabled in an epoch whose zero barrier the only bus never sent. */
  lemma ReadinessRace()
    ensures exists s :: Reachable(s) && s.Gate().outputsEnabled && |s.buses| == 1
                     && s.skipped == {0} && !Barrier(s.log, 0, s.Gate().epoch)
  {
    hide Reachable;
    CheckPasses();
    var t := One(HELD, Deciding(REQUEST, true, {0}), Validated(), 1, LOG);
    var m := Advance(true, 0);
    DaemonOne(t, m, DaemonStep(t, m));
    var u := DaemonStep(t, m);
    assert u.Gate().outputsEnabled && u.Gate().epoch == 2 && u.log == LOG;
  }
}
