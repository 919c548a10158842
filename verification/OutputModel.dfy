/**
 The output path as a transition system: one daemon process and one worker per bus, interleaved at
 single loads and stores of the shared atomics.

 Every worker program counter stands before at most one access to shared memory. What is not decided
 by the code itself (send results, working counters, link state, topology, scheduling) is a free
 `Choice`. Three fields only record what happened: `history` the accepted output commands, `log` the
 frames sent, and per bus `acked` the epochs whose all-zero frame came back with a full working counter.
 */
module OutputModel {
  import opened Common
  import opened Bytes
  import opened PackedPdo
  import opened SafetyGates
  import Leases

  /** An output write that the daemon accepted, as it travels to the worker of bus `bus`. */
  datatype Command = Command(
    client: ClientId, epoch: nat, bus: nat, sub: nat, offset: nat, accepted: nat, data: seq<byte>)

  /** What the output bits of one SubDevice hold: zero, or the image of the command that wrote them. */
  datatype Image = Zero | Written(command: Command)

  /** One SubDevice: its output bits, their content, and the accept time of its last command. */
  datatype Slot = Slot(bits: nat, image: Image, last: nat)

  datatype BusState =
    | Starting | WaitingForLink | Initializing | SafeOperational | Operational | Fault | Stopping

  /** RaiseFault: load the epoch, then store both latches and the permit flag. */
  datatype RaiseStage = Load | Own(r: nat) | Global(r: nat) | Permit

  datatype Resume = ToInit | ToMarkFault | ToClose

  /** Initialize. */
  datatype InitStage = Mark | Map | Safe | Exchanging | Done

  /** One pass of the cyclic loop. */
  datatype CycleStage =
    | Top | ReadEpoch
    | ApplyEpoch | ApplyPermit | ApplyClock | ApplyPop
    | FreshClock | FreshPermit
    | PermitGate | Recheck | RecheckPermit | LatchCheck | Transmit
    | BarrierLoad | BarrierStore | CycleEnd

  /** What follows the CloseContext under way. */
  datatype Closing = ThenSend(final: bool) | ThenInit | ThenFail

  datatype WorkerPc =
    | Down | Outer
    | Raise(raise: RaiseStage, resume: Resume)
    | MarkFault
    // CloseContext before its first store; `final` when the thread is about to end.
    | Close(final: bool) | InitClose | InitFailClose
    // CloseContext between its store of the permit and that of the topology flag.
    | Unbind(closing: Closing)
    | CloseSend(final: bool) | Init(init: InitStage) | InitFailMark
    | Cycle(c: CycleStage)
    // The way out of the loop after lost frames or a clock fault.
    | FaultPermit | FaultSend

  /** The atomics and the command queue that the daemon and the worker of a bus share. */
  datatype Port = Port(
    epoch: nat, applied: nat, permitted: bool, faulted: nat, state: BusState, queue: seq<Command>, verified: bool)

  datatype Worker = Worker(
    pc: WorkerPc, observed: nat, was: bool, attempted: bool, barrier: bool,
    aEpoch: nat, aPermit: bool, aNow: nat, fNow: nat, slots: seq<Slot>)

  /** `pushed` records the last SetSafety store that the running session has received. */
  datatype Bus = Bus(p: Port, w: Worker, pushed: Option<(nat, bool)>, acked: set<nat>)

  /**
   A frame put on the wire, with the time of the freshness check that preceded it in its cycle; `cyclic`
   is false for the frames of an initializing, faulting or closing context.
   */
  datatype Frame = Frame(bus: nat, epoch: nat, slots: seq<Slot>, checkedAt: nat, full: bool, cyclic: bool)

  datatype Choice = Choice(branch: nat, full: bool, bits: seq<nat>)

  predicate AllZero(slots: seq<Slot>) {
    forall i :: 0 <= i < |slots| ==> slots[i].image.Zero?
  }

  /** ZeroOutputs. */
  function ZeroSlots(slots: seq<Slot>): (r: seq<Slot>)
    ensures |r| == |slots| && AllZero(r)
  {
    seq(|slots|, i requires 0 <= i < |slots| => slots[i].(image := Zero))
  }

  function Stamped(slots: seq<Slot>, now: nat): (r: seq<Slot>)
    ensures |r| == |slots| && (AllZero(slots) ==> AllZero(r))
  {
    seq(|slots|, i requires 0 <= i < |slots| => slots[i].(last := now))
  }

  function Mapped(bits: seq<nat>): (r: seq<Slot>)
    ensures AllZero(r)
  {
    seq(|bits|, i requires 0 <= i < |bits| => Slot(bits[i], Zero, 0))
  }

  /** ZeroOutputs together with the reset of the permit edge detector. */
  function Cleared(w: Worker): Worker {
    w.(slots := ZeroSlots(w.slots), was := false)
  }

  predicate Within(accepted: nat, now: nat, timeout: nat) {
    accepted != 0 && accepted <= now && now - accepted <= timeout
  }

  /** The command is a canonical whole image of SubDevice `c.sub`. */
  predicate Fits(slots: seq<Slot>, c: Command) {
    && 1 <= c.sub <= |slots|
    && WholeOutputWrite(ImageByteLength(slots[c.sub - 1].bits), c.offset, |c.data|) == Ok
    && CanonicalPadding(slots[c.sub - 1].bits, c.data)
  }

  /** The slots after ApplyOutputCommands has popped `c`. */
  function Applied(w: Worker, c: Command, timeout: nat): seq<Slot> {
    if w.aPermit && c.epoch == w.aEpoch && Within(c.accepted, w.aNow, timeout) && Fits(w.slots, c)
    then w.slots[c.sub - 1 := Slot(w.slots[c.sub - 1].bits, Written(c), c.accepted)]
    else w.slots
  }

  /** EnforcePerSubDeviceFreshness. */
  function Refreshed(slots: seq<Slot>, now: nat, timeout: nat): (r: seq<Slot>)
    ensures |r| == |slots|
  {
    seq(|slots|, i requires 0 <= i < |slots| =>
      if Within(slots[i].last, now, timeout) then slots[i] else slots[i].(image := Zero))
  }

  function Go(b: Bus, pc: WorkerPc): Bus { b.(w := b.w.(pc := pc)) }

  function GoTo(b: Bus, w: Worker, c: CycleStage): Bus { b.(w := w.(pc := Cycle(c))) }

  /** The start of a cycle and ApplyOutputCommands. */
  function ApplyStep(b: Bus, c: CycleStage, clock: nat, timeout: nat): Bus {
    var (p, w) := (b.p, b.w);
    match c
    case ReadEpoch =>
      if p.epoch != w.observed
      then GoTo(b, Cleared(w).(observed := p.epoch, barrier := true), PermitGate)
      else GoTo(b, w.(barrier := false), ApplyEpoch)
    case ApplyEpoch => GoTo(b, w.(aEpoch := p.epoch), ApplyPermit)
    case ApplyPermit => GoTo(b, w.(aPermit := p.permitted), ApplyClock)
    case ApplyClock =>
      if w.aPermit && !w.was
      then GoTo(b, w.(aNow := clock, was := true, slots := Stamped(ZeroSlots(w.slots), clock)), ApplyPop)
      else GoTo(b, w.(aNow := clock), ApplyPop)
    case ApplyPop =>
      if p.queue == [] then GoTo(b, w, FreshClock)
      else b.(p := p.(queue := p.queue[1..]), w := w.(slots := Applied(w, p.queue[0], timeout)))
    case _ => b
  }

  /** The freshness check and the rechecks before transmission. */
  function GuardStep(b: Bus, c: CycleStage, latch: nat, clock: nat, timeout: nat): Bus {
    var (p, w) := (b.p, b.w);
    match c
    case FreshClock => GoTo(b, w.(fNow := clock), FreshPermit)
    case FreshPermit =>
      GoTo(b, if p.permitted then w.(slots := Refreshed(w.slots, w.fNow, timeout)) else w, PermitGate)
    case PermitGate => GoTo(b, if w.barrier || !p.permitted then Cleared(w) else w, Recheck)
    case Recheck =>
      GoTo(b, if p.epoch != w.observed then Cleared(w).(observed := p.epoch, barrier := true) else w, RecheckPermit)
    case RecheckPermit => GoTo(b, if !p.permitted then Cleared(w) else w, LatchCheck)
    case LatchCheck => GoTo(b, if latch == w.observed then Cleared(w) else w, Transmit)
    case _ => b
  }

  /** Transmission, the epoch barrier, and the end of the cycle. */
  function SendStep(b: Bus, c: CycleStage, ch: Choice): Bus {
    match c
    case Top =>
      if ch.branch == 0 then GoTo(b, b.w, ReadEpoch)
      else Go(b, if ch.branch == 1 then Raise(Load, ToClose) else Close(false)).(pushed := None)
    case Transmit =>
      GoTo(b, b.w, if b.w.barrier && ch.full then BarrierLoad else CycleEnd)
        .(acked := if AllZero(b.w.slots) && ch.full then b.acked + {b.w.observed} else b.acked)
    case BarrierLoad => GoTo(b, b.w, if b.p.epoch == b.w.observed then BarrierStore else CycleEnd)
    case BarrierStore => GoTo(b.(p := b.p.(applied := b.w.observed)), b.w, CycleEnd)
    case CycleEnd =>
      if ch.branch == 0 then GoTo(b, b.w, Top) else Go(b, FaultPermit).(pushed := None)
    case _ => b
  }

  function CycleStep(b: Bus, c: CycleStage, latch: nat, clock: nat, timeout: nat, ch: Choice): Bus {
    match c
    case ReadEpoch | ApplyEpoch | ApplyPermit | ApplyClock | ApplyPop => ApplyStep(b, c, clock, timeout)
    case FreshClock | FreshPermit | PermitGate | Recheck | RecheckPermit | LatchCheck =>
      GuardStep(b, c, latch, clock, timeout)
    case Top | Transmit | BarrierLoad | BarrierStore | CycleEnd => SendStep(b, c, ch)
  }

  function AfterRaise(resume: Resume): WorkerPc {
    match resume case ToInit => InitClose case ToMarkFault => MarkFault case ToClose => Close(false)
  }

  function RaiseStep(b: Bus, stage: RaiseStage, resume: Resume): Bus {
    match stage
    case Load => Go(b, Raise(Own(b.p.epoch), resume))
    case Own(r) => Go(b.(p := b.p.(faulted := r)), Raise(Global(r), resume))
    case Global(r) => Go(b, Raise(Permit, resume))
    case Permit => Go(b.(p := b.p.(permitted := false)), AfterRaise(resume))
  }

  /** CloseContext takes the permit down; */
  function Forbidden(b: Bus, closing: Closing): Bus {
    Go(b.(p := b.p.(permitted := false), pushed := None), Unbind(closing))
  }

  /** then it takes the topology flag down and clears its outputs. */
  function Unbound(b: Bus): Bus {
    b.(p := b.p.(verified := false), w := b.w.(slots := Stamped(ZeroSlots(b.w.slots), 0), was := false))
  }

  function AfterUnbind(closing: Closing): WorkerPc {
    match closing case ThenSend(final) => CloseSend(final) case ThenInit => Init(Mark) case ThenFail => InitFailMark
  }

  function InState(b: Bus, state: BusState, pc: WorkerPc): Bus {
    Go(b.(p := b.p.(state := state)), pc)
  }

  function InitStep(b: Bus, stage: InitStage, ch: Choice): Bus {
    match stage
    case Mark => InState(b, Initializing, Init(Map))
    // ValidateTopology stores whether the configuration vouches for the outputs it found.
    case Map =>
      var b' := b.(w := b.w.(slots := Mapped(ch.bits)), p := b.p.(verified := ch.full));
      if ch.branch == 0 then Go(b', Init(Safe)) else Go(b', InitFailClose).(pushed := None)
    case Safe => InState(b, SafeOperational, Init(Exchanging))
    case Exchanging =>
      if ch.branch == 0 then b
      else if ch.branch == 1 then Go(b, Init(Done))
      else Go(b, InitFailClose).(pushed := None)
    case Done => InState(b, Operational, Cycle(Top))
  }

  predicate IsClosing(pc: WorkerPc) { pc.Close? || pc.InitClose? || pc.InitFailClose? || pc.Unbind? }

  function CloseStep(b: Bus): Bus {
    match b.w.pc
    case Close(final) => Forbidden(b, ThenSend(final))
    case InitClose => Forbidden(b, ThenInit)
    case InitFailClose => Forbidden(b, ThenFail)
    case Unbind(closing) => Go(Unbound(b), AfterUnbind(closing))
    case _ => b
  }

  /** The outer loop of the worker, CloseContext, and the ways between the phases. */
  function OuterStep(b: Bus, ch: Choice): Bus {
    match b.w.pc
    case Outer =>
      if ch.branch == 0 then InState(b, WaitingForLink, Outer)
      else if ch.branch == 1 then
        Go(b.(w := b.w.(attempted := true)), if b.w.attempted then Raise(Load, ToInit) else InitClose)
      else InState(b, Stopping, Close(true))
    case MarkFault => InState(b, Fault, Close(false))
    case CloseSend(final) => Go(b, if final then Down else Outer)
    case InitFailMark => InState(b, Fault, Outer)
    case FaultPermit =>
      Go(b.(p := b.p.(permitted := false), w := b.w.(slots := ZeroSlots(b.w.slots))), FaultSend)
    case FaultSend => Go(b, Raise(Load, ToMarkFault))
    case _ => CloseStep(b)
  }

  /** One step of a worker. */
  function WorkerStep(b: Bus, latch: nat, clock: nat, timeout: nat, ch: Choice): Bus {
    match b.w.pc
    case Cycle(c) => CycleStep(b, c, latch, clock, timeout, ch)
    case Raise(stage, resume) => RaiseStep(b, stage, resume)
    case Init(stage) => InitStep(b, stage, ch)
    case _ => OuterStep(b, ch)
  }

  /** The step puts a frame on the wire; the closing frame is not always sent. */
  predicate Transmits(pc: WorkerPc, ch: Choice) {
    || pc == Cycle(Transmit) || pc.FaultSend? || (pc.CloseSend? && ch.branch == 0)
    || (pc == Init(Exchanging) && ch.branch == 0)
  }

  function FrameOf(w: Worker, k: nat, full: bool): Frame {
    Frame(k, w.observed, w.slots, w.fNow, full, w.pc.Cycle?)
  }

  /** The process-wide latch after the step. */
  function LatchAfter(pc: WorkerPc, latch: nat): nat {
    if pc.Raise? && pc.raise.Global? then pc.raise.r else latch
  }

  /** A session lasts from the permit store of the CloseContext in Initialize until the worker leaves the loop. */
  predicate InSession(pc: WorkerPc) { pc.Init? || pc.Cycle? || pc == Unbind(ThenInit) }

  // ---------------------------------------------------------------- the daemon

  datatype PushStage = Exchange | LoadOwn | LoadGlobal(own: bool) | Store(latched: bool)

  datatype CheckStage = GlobalLatch | FirstState | SecondState | AppliedEpoch | Topology

  datatype EnableRequest = EnableRequest(id: ClientId, epoch: nat, enabled: bool)

  datatype DaemonPc =
    | Idle
    // ApplySafetyToBuses: SetSafety of bus `bus`.
    | Pushing(bus: nat, stage: PushStage)
    // AllBusesOperational for an OUTPUT_ENABLE: `any` is anyVerifiedOutputs, and `skipped` are the buses
    // found outside OP by its second read.
    | Checking(request: EnableRequest, bus: nat, check: CheckStage, any: bool, skipped: set<nat>)
    | Deciding(request: EnableRequest, healthy: bool, skipped: set<nat>)
    // HandleOutputWrite between reading the clock and pushing the command.
    | Queueing(command: Command)

  datatype System = System(
    lease: Leases.LeaseState, dpc: DaemonPc, ready: seq<bool>, buses: seq<Bus>,
    latch: nat, clock: nat, timeout: nat, capacity: nat,
    skipped: set<nat>, history: set<Command>, log: seq<Frame>)
  {
    function Gate(): Gate { lease.gate }
  }

  datatype DaemonMove =
    | LeaseEvent(event: Leases.Event, push: bool)
    | StartCheck(request: EnableRequest)
    | Advance(clockHealthy: bool, now: Time)
    | Stamp(id: ClientId, epoch: nat, bus: nat, sub: nat, offset: nat, data: seq<byte>)
    | Scan(next: seq<bool>, changed: bool)
    | ClearPermit(bus: nat)
    | StartWorker(bus: nat)

  datatype Label = Work(k: nat, choice: Choice) | Daemon(move: DaemonMove) | Tick(delta: nat)

  /** Output state changed, so the handler must run ApplySafetyToBuses. */
  predicate MustPush(g: Gate, g': Gate) {
    g.epoch != g'.epoch || g.outputsEnabled != g'.outputsEnabled
  }

  function AfterEvent(s: System, ev: Leases.Event, push: bool): System {
    var lease' := Leases.Step(s.lease, ev);
    s.(lease := lease',
       dpc := if (push || MustPush(s.Gate(), lease'.gate)) && |s.buses| > 0 then Pushing(0, Exchange) else Idle)
  }

  function NextBus(s: System, k: nat): DaemonPc {
    if k + 1 < |s.buses| then Pushing(k + 1, Exchange) else Idle
  }

  function SetBus(s: System, k: nat, b: Bus): System
    requires k < |s.buses|
  {
    s.(buses := s.buses[k := b])
  }

  /** SetSafety of bus `k`, one access at a time. */
  function PushStep(s: System, k: nat, stage: PushStage): System
    requires k < |s.buses|
  {
    var b := s.buses[k];
    match stage
    case Exchange => SetBus(s, k, b.(p := b.p.(epoch := s.Gate().epoch))).(dpc := Pushing(k, LoadOwn))
    case LoadOwn => s.(dpc := Pushing(k, LoadGlobal(b.p.faulted == s.Gate().epoch)))
    case LoadGlobal(own) => s.(dpc := Pushing(k, Store(own || s.latch == s.Gate().epoch)))
    case Store(latched) =>
      var g := s.Gate();
      SetBus(s, k, b.(p := b.p.(permitted := g.outputsEnabled && !latched),
                      pushed := if InSession(b.w.pc) then Some((g.epoch, g.outputsEnabled)) else None))
        .(dpc := NextBus(s, k))
  }

  /** AllBusesOperational, one read at a time. */
  function CheckStep(s: System, c: DaemonPc, clockHealthy: bool): System
    requires c.Checking? && (c.bus < |s.buses| || c.check.GlobalLatch?)
    requires |s.ready| == |s.buses|
  {
    var no := Deciding(c.request, false, c.skipped);
    match c.check
    case GlobalLatch =>
      if |s.buses| == 0 || s.latch == s.Gate().epoch then s.(dpc := no)
      else s.(dpc := Checking(c.request, 0, FirstState, false, {}))
    case FirstState =>
      if !s.ready[c.bus] || s.buses[c.bus].p.state != Operational then s.(dpc := no)
      else s.(dpc := c.(check := SecondState))
    case SecondState =>
      if s.buses[c.bus].p.state == Operational then s.(dpc := c.(check := AppliedEpoch))
      else if !clockHealthy then s.(dpc := no)
      else s.(dpc := c.(check := Topology, skipped := c.skipped + {c.bus}))
    case AppliedEpoch =>
      if s.buses[c.bus].p.applied != s.Gate().epoch || !clockHealthy then s.(dpc := no)
      else s.(dpc := c.(check := Topology))
    case Topology =>
      var any := c.any || s.buses[c.bus].p.verified;
      if c.bus + 1 < |s.buses| then s.(dpc := Checking(c.request, c.bus + 1, FirstState, any, c.skipped))
      else s.(dpc := Deciding(c.request, any, c.skipped))
  }

  function Decided(s: System, c: DaemonPc, now: Time): System
    requires c.Deciding?
  {
    var ev := Leases.OutputEnable(c.request.id, c.request.epoch, c.request.enabled, c.healthy, now);
    var s' := AfterEvent(s, ev, true);
    if s'.Gate().outputsEnabled && !s.Gate().outputsEnabled then s'.(skipped := c.skipped) else s'
  }

  function Enqueued(s: System, c: Command, now: Time): System
    requires c.bus < |s.buses|
  {
    var b := s.buses[c.bus];
    if |b.p.queue| >= s.capacity then s.(dpc := Idle)
    else SetBus(s, c.bus, b.(p := b.p.(queue := b.p.queue + [c])))
           .(dpc := Idle, history := s.history + {c},
             lease := Leases.Step(s.lease, Leases.OutputWrite(c.client, c.epoch, true, now)))
  }

  /** Start(): the worker of the bus has been joined, so this daemon step races with nobody. */
  function Started(b: Bus, epoch: nat): Bus {
    b.(p := b.p.(epoch := epoch, applied := 0, permitted := false),
       w := b.w.(observed := 0, attempted := false, pc := Outer))
  }

  predicate DaemonEnabled(s: System, m: DaemonMove) {
    match m
    case LeaseEvent(ev, _) => s.dpc.Idle? && !ev.OutputEnable? && !ev.OutputWrite?
    case StartCheck(_) => s.dpc.Idle?
    case Advance(_, _) => !s.dpc.Idle?
    case Stamp(id, epoch, bus, _, _, _) =>
      && s.dpc.Idle? && s.lease.Open(id) && s.lease.clients[id].hello
      && WriteAuthorization(s.Gate(), id, epoch) == Ok && bus < |s.buses| && s.clock > 0
    case Scan(next, _) => s.dpc.Idle? && |next| == |s.ready|
    // Stop() and SetLinkUp(false): the scan calls them for an adapter that is not ready, or right after
    // it advanced the epoch.
    case ClearPermit(k) => s.dpc.Idle? && k < |s.buses| && |s.ready| == |s.buses|
                           && (!s.ready[k] || !s.Gate().outputsEnabled)
    case StartWorker(k) => s.dpc.Idle? && k < |s.buses| && s.buses[k].w.pc.Down?
  }

  /** A pass over the adapters: losing one, or rebinding one, first invalidates the epoch. */
  function Scanned(s: System, next: seq<bool>, changed: bool): System
    requires |next| == |s.ready|
  {
    var lost := exists k :: 0 <= k < |next| && s.ready[k] && !next[k];
    if lost || changed then AfterEvent(s, Leases.Invalidate, true).(ready := next) else s.(ready := next)
  }

  predicate ShapeOk(s: System) {
    && |s.ready| == |s.buses|
    && (s.dpc.Pushing? || (s.dpc.Checking? && !s.dpc.check.GlobalLatch?) ==> s.dpc.bus < |s.buses|)
    && (s.dpc.Queueing? ==> s.dpc.command.bus < |s.buses|)
  }

  function DaemonStep(s: System, m: DaemonMove): System
    requires DaemonEnabled(s, m) && ShapeOk(s)
  {
    match m
    case LeaseEvent(ev, push) => AfterEvent(s, ev, push)
    case StartCheck(request) => s.(dpc := Checking(request, 0, GlobalLatch, false, {}))
    case Advance(clockHealthy, now) =>
      (match s.dpc
       case Pushing(k, stage) => PushStep(s, k, stage)
       case Checking(_, _, _, _, _) => CheckStep(s, s.dpc, clockHealthy)
       case Deciding(_, _, _) => Decided(s, s.dpc, now)
       case Queueing(c) => Enqueued(s, c, now)
       case Idle => s)
    case Stamp(id, epoch, bus, sub, offset, data) =>
      s.(dpc := Queueing(Command(id, epoch, bus, sub, offset, s.clock, data)))
    case Scan(next, changed) => Scanned(s, next, changed)
    case ClearPermit(k) => SetBus(s, k, s.buses[k].(p := s.buses[k].p.(permitted := false)))
    case StartWorker(k) => SetBus(s, k, Started(s.buses[k], s.Gate().epoch))
  }

  predicate Enabled(s: System, l: Label) {
    && ShapeOk(s)
    && match l
       case Work(k, _) => k < |s.buses|
       case Daemon(m) => DaemonEnabled(s, m)
       case Tick(_) => true
  }

  function Next(s: System, l: Label): System
    requires Enabled(s, l)
  {
    match l
    case Work(k, ch) =>
      var b := s.buses[k];
      SetBus(s, k, WorkerStep(b, s.latch, s.clock, s.timeout, ch))
        .(latch := LatchAfter(b.w.pc, s.latch),
          log := if Transmits(b.w.pc, ch) then s.log + [FrameOf(b.w, k, ch.full)] else s.log)
    case Daemon(m) => DaemonStep(s, m)
    case Tick(delta) => s.(clock := s.clock + delta)
  }
}
