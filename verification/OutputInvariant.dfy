/**
 The invariant of the output transition system.

 `BusInv` speaks about one bus and the part of the system that a bus depends on (`Env`), so that a
 step of one worker only concerns its own bus, except for the process-wide fault latch.
 */
module OutputInvariant {
  import opened Common
  import opened OutputModel

  datatype Env = Env(epoch: nat, enabled: bool, latch: nat, dpc: DaemonPc, history: set<Command>, timeout: nat)

  function EnvOf(s: System): Env {
    Env(s.Gate().epoch, s.Gate().outputsEnabled, s.latch, s.dpc, s.history, s.timeout)
  }

  // ---------------------------------------------------------------- images

  /** Every image on bus `k` comes from an accepted command for its SubDevice, of an epoch in `lo .. hi`. */
  ghost predicate Tagged(slots: seq<Slot>, history: set<Command>, k: nat, lo: nat, hi: nat) {
    forall i :: 0 <= i < |slots| && slots[i].image.Written? ==>
      var c := slots[i].image.command;
      c in history && c.bus == k && c.sub == i + 1 && c.accepted == slots[i].last && lo <= c.epoch <= hi
  }

  ghost predicate FreshAt(slots: seq<Slot>, now: nat, timeout: nat) {
    forall i :: 0 <= i < |slots| && slots[i].image.Written? ==>
      Within(slots[i].image.command.accepted, now, timeout)
  }

  ghost predicate OlderThan(slots: seq<Slot>, e: nat) {
    forall i :: 0 <= i < |slots| && slots[i].image.Written? ==> slots[i].image.command.epoch < e
  }

  ghost predicate Known(queue: seq<Command>, history: set<Command>, k: nat) {
    forall c :: c in queue ==> c in history && c.bus == k
  }

  /** No command of epoch `e` or later was ever accepted. */
  ghost predicate Before(history: set<Command>, e: nat) {
    forall c :: c in history ==> c.epoch < e
  }

  lemma ZeroIsHarmless(slots: seq<Slot>, history: set<Command>, k: nat, lo: nat, hi: nat, now: nat, timeout: nat,
                       e: nat)
    requires AllZero(slots)
    ensures Tagged(slots, history, k, lo, hi) && FreshAt(slots, now, timeout) && OlderThan(slots, e)
  {
  }

  lemma TaggedWiden(slots: seq<Slot>, history: set<Command>, history': set<Command>, k: nat,
                    lo: nat, hi: nat, lo': nat, hi': nat)
    requires Tagged(slots, history, k, lo, hi) && history <= history' && lo' <= lo && hi <= hi'
    ensures Tagged(slots, history', k, lo', hi')
  {
  }

  lemma AppliedIsTagged(w: Worker, c: Command, timeout: nat, history: set<Command>, k: nat, lo: nat, hi: nat)
    requires Tagged(w.slots, history, k, lo, hi)
    requires c in history && c.bus == k && (c.epoch == w.aEpoch ==> lo <= c.epoch <= hi)
    ensures Tagged(Applied(w, c, timeout), history, k, lo, hi)
  {
  }

  lemma AppliedIsOld(w: Worker, c: Command, timeout: nat, e: nat)
    requires OlderThan(w.slots, e) && c.epoch < e
    ensures OlderThan(Applied(w, c, timeout), e)
  {
  }

  lemma RefreshedIsFresh(slots: seq<Slot>, history: set<Command>, k: nat, lo: nat, hi: nat, now: nat, timeout: nat)
    requires Tagged(slots, history, k, lo, hi)
    ensures Tagged(Refreshed(slots, now, timeout), history, k, lo, hi)
    ensures FreshAt(Refreshed(slots, now, timeout), now, timeout)
  {
  }

  lemma RefreshedIsOld(slots: seq<Slot>, now: nat, timeout: nat, e: nat)
    requires OlderThan(slots, e)
    ensures OlderThan(Refreshed(slots, now, timeout), e)
  {
  }

  // ---------------------------------------------------------------- epochs

  /** Before the transmit recheck an image may be newer than the observed epoch, but never older. */
  predicate BeforeRecheck(c: CycleStage) {
    || c.ApplyEpoch? || c.ApplyPermit? || c.ApplyClock? || c.ApplyPop?
    || c.FreshClock? || c.FreshPermit? || c.PermitGate? || c.Recheck?
  }

  /** The part of a cycle that runs only when the epoch did not change at its start. */
  predicate Steady(c: CycleStage) { BeforeRecheck(c) && !c.PermitGate? && !c.Recheck? }

  predicate Loaded(c: CycleStage) { c.ApplyPermit? || c.ApplyClock? || c.ApplyPop? }

  predicate Raising(pc: WorkerPc) { pc.Raise? && (pc.raise.Own? || pc.raise.Global?) }

  /** The epochs a worker has seen never run ahead of its bus, nor the bus ahead of the gate. */
  ghost predicate EpochsOk(v: Env, b: Bus) {
    && b.p.applied <= b.w.observed <= b.p.epoch <= v.epoch
    && (b.w.pc.Cycle? && Loaded(b.w.pc.c) ==> b.w.observed <= b.w.aEpoch <= b.p.epoch)
    && (b.w.pc.Cycle? && Steady(b.w.pc.c) ==> !b.w.barrier)
    && (Raising(b.w.pc) ==> b.w.observed <= b.w.pc.raise.r <= b.p.epoch)
  }

  predicate InBarrier(c: CycleStage) {
    || c.PermitGate? || c.Recheck? || c.RecheckPermit? || c.LatchCheck? || c.Transmit?
    || c.BarrierLoad? || c.BarrierStore?
  }

  predicate MustBeZero(w: Worker) {
    w.pc.FaultSend? || w.pc.CloseSend? || w.pc.Init? || (w.pc.Cycle? && w.barrier && InBarrier(w.pc.c))
  }

  ghost predicate ImagesOk(v: Env, k: nat, b: Bus) {
    && (b.w.pc.Cycle? ==>
          Tagged(b.w.slots, v.history, k, b.w.observed, if BeforeRecheck(b.w.pc.c) then b.p.epoch else b.w.observed))
    && (MustBeZero(b.w) ==> AllZero(b.w.slots))
    && Known(b.p.queue, v.history, k)
  }

  /** Only an epoch whose all-zero frame came back in full is published as applied. */
  ghost predicate AckOk(b: Bus) {
    && (b.p.applied != 0 ==> b.p.applied in b.acked)
    && (b.w.pc.Cycle? && (b.w.pc.c.BarrierLoad? || b.w.pc.c.BarrierStore?) ==> b.w.barrier && b.w.observed in b.acked)
  }

  ghost predicate Basic(v: Env, k: nat, b: Bus) {
    EpochsOk(v, b) && ImagesOk(v, k, b) && AckOk(b)
  }

  // ---------------------------------------------------------------- latches

  predicate PastRecheck(pc: WorkerPc) {
    pc.Cycle? && (pc.c.RecheckPermit? || pc.c.LatchCheck? || pc.c.Transmit?)
  }

  /** No fault of an older epoch is in flight, and no frame of an older epoch is past its recheck. */
  ghost predicate Settled(e: nat, b: Bus) {
    && (Raising(b.w.pc) ==> b.w.pc.raise.r == e)
    && (PastRecheck(b.w.pc) ==> b.w.observed == e)
  }

  ghost predicate InStep(v: Env, b: Bus) {
    b.p.epoch == v.epoch && Settled(v.epoch, b)
  }

  predicate NeverStarted(b: Bus) { b.w.pc.Down? && b.p.state != Operational }

  /** The daemon has stored the current epoch in bus `k`. */
  predicate Reached(v: Env, k: nat) {
    v.dpc.Pushing? ==> k < v.dpc.bus || (k == v.dpc.bus && !v.dpc.stage.Exchange?)
  }

  /** What the readiness check of the daemon has established so far. */
  ghost predicate Checked(v: Env, k: nat, b: Bus) {
    match v.dpc
    case Checking(_, at, check, _, skipped) =>
      && (!check.GlobalLatch? && (k < at || (k == at && check.Topology?)) ==>
            InStep(v, b) && (k in skipped || v.epoch in b.acked))
      && ((check.SecondState? || check.AppliedEpoch?) && k == at ==>
            b.p.epoch == v.epoch && (b.p.state == Operational || Settled(v.epoch, b)))
    case Deciding(_, healthy, skipped) => healthy ==> InStep(v, b) && (k in skipped || v.epoch in b.acked)
    case _ => true
  }

  ghost predicate Synced(v: Env, k: nat, b: Bus) {
    && (Reached(v, k) ==> b.p.epoch == v.epoch || NeverStarted(b))
    && (v.dpc.Pushing? && v.dpc.bus == k && !v.dpc.stage.Exchange? ==> b.p.epoch == v.epoch)
    && (v.enabled ==> InStep(v, b))
    && Checked(v, k, b)
  }

  // ---------------------------------------------------------------- the permit flag

  predicate InFlight(v: Env, k: nat) { v.dpc.Pushing? && v.dpc.bus == k }

  /** A fault latch of the current epoch that no push in flight on bus `k` has missed. */
  ghost predicate Latched(v: Env, k: nat, p: Port) {
    && (InFlight(v, k) && v.dpc.stage.Store? ==> v.dpc.stage.latched)
    && (|| v.latch == v.epoch
        || (p.faulted == v.epoch && (InFlight(v, k) && v.dpc.stage.LoadGlobal? ==> v.dpc.stage.own)))
  }

  /** What a push in flight has read of the latches still holds. */
  ghost predicate FlightOk(v: Env, k: nat, b: Bus) {
    v.enabled && InFlight(v, k) ==>
      && (v.dpc.stage.LoadGlobal? && v.dpc.stage.own ==> b.p.faulted == v.epoch)
      && (v.dpc.stage.Store? && v.dpc.stage.latched ==> b.p.faulted == v.epoch || v.latch == v.epoch)
  }

  predicate PushSeen(v: Env, b: Bus) { b.pushed.None? || b.pushed == Some((v.epoch, true)) }

  ghost predicate PermitOk(v: Env, k: nat, b: Bus) {
    && (b.pushed.Some? ==> InSession(b.w.pc) && b.pushed.value.0 <= v.epoch)
    && (b.pushed == Some((v.epoch, true)) ==> v.enabled)
    && (InSession(b.w.pc) && b.pushed.None? ==>
          !b.p.permitted && (b.w.pc == Cycle(ApplyClock) || b.w.pc == Cycle(ApplyPop) ==> !b.w.aPermit))
    && (v.enabled && b.pushed == Some((v.epoch, true)) ==> b.p.permitted || Latched(v, k, b.p))
    && (v.enabled && !(v.dpc.Pushing? && v.dpc.bus <= k) ==> PushSeen(v, b))
    && (Before(v.history, v.epoch) || (v.enabled && PushSeen(v, b)))
    && FlightOk(v, k, b)
  }

  // ---------------------------------------------------------------- freshness

  /** The permit flag of bus `k` is down and stays down while the bus keeps its epoch. */
  ghost predicate Blocked(v: Env, k: nat, p: Port) {
    !p.permitted && (p.epoch < v.epoch || (v.enabled && Latched(v, k, p)))
  }

  ghost predicate FreshOk(v: Env, k: nat, b: Bus) {
    b.w.pc.Cycle? ==>
      var c := b.w.pc.c;
      var isFresh := FreshAt(b.w.slots, b.w.fNow, v.timeout);
      && (OlderThan(b.w.slots, v.epoch) || b.pushed == Some((v.epoch, true)))
      && (c.PermitGate? ==> isFresh || b.p.epoch != b.w.observed || Blocked(v, k, b.p))
      && (c.Recheck? ==> isFresh || b.p.epoch != b.w.observed)
      && (PastRecheck(b.w.pc) ==> isFresh)
  }

  ghost predicate BusInv(v: Env, k: nat, b: Bus) {
    Basic(v, k, b) && Synced(v, k, b) && PermitOk(v, k, b) && FreshOk(v, k, b)
  }

  /** A frame carries an image only if its command is of the frame's epoch, for its bus, and was fresh. */
  ghost predicate LegalFrame(history: set<Command>, timeout: nat, f: Frame) {
    Tagged(f.slots, history, f.bus, f.epoch, f.epoch) && FreshAt(f.slots, f.checkedAt, timeout)
  }
}
