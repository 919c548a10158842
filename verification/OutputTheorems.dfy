/**
 What the output transition system guarantees on every run, in every interleaving.

 A run is a sequence of states joined by labels. The only hypothesis besides the initial state is
 that the 64-bit epoch counter does not wrap within the run.
 */
module OutputTheorems {
  import opened Common
  import opened OutputModel
  import opened OutputInvariant
  import opened OutputWorkerSteps
  import opened OutputRuns

  function InitialBus(): Bus {
    Bus(Port(1, 0, false, 0, Starting, [], false),
        Worker(Down, 0, false, false, false, 0, false, 0, 0, []), None, {})
  }

  /** The daemon before its first adapter scan; time is in milliseconds at the gate, in microseconds below. */
  function InitialSystem(epoch: nat, heartbeatMs: nat, outputMs: nat, n: nat, capacity: nat): System {
    System(Leases.Initial(epoch, heartbeatMs, outputMs), Idle, seq(n, i => false), seq(n, i => InitialBus()),
           0, 0, outputMs * 1000, capacity, {}, {}, [])
  }

  ghost predicate IsInitial(s: System) {
    exists epoch: nat, heartbeatMs: nat, outputMs: nat, n: nat, capacity: nat ::
      epoch <= MAX_U64 && s == InitialSystem(epoch, heartbeatMs, outputMs, n, capacity)
  }

  datatype Run = Run(states: seq<System>, labels: seq<Label>)

  ghost predicate Follows(r: Run, i: nat)
    requires i + 1 < |r.states| && i < |r.labels|
  {
    Enabled(r.states[i], r.labels[i]) && r.states[i + 1] == Next(r.states[i], r.labels[i])
  }

  ghost predicate IsRun(r: Run) {
    && |r.states| == |r.labels| + 1
    && IsInitial(r.states[0])
    && (forall i :: 0 <= i < |r.labels| ==> Follows(r, i))
    && (forall i :: 0 <= i < |r.states| ==> r.states[i].Gate().epoch < MAX_U64)
  }

  lemma InitialHasInv(s: System)
    requires IsInitial(s)
    ensures Inv(s)
  {
  }

  lemma NextKeepsInv(s: System, l: Label)
    requires Inv(s) && Enabled(s, l) && s.Gate().epoch < MAX_U64
    ensures Inv(Next(s, l))
  {
    hide BusInv, Leases.Inv, HistoryOk, LogOk, EnabledOk, DaemonStep, WorkerStep;
    match l
    case Work(k, ch) => WorkKeepsInv(s, k, ch);
    case Daemon(m) => DaemonKeepsInv(s, m);
    case Tick(delta) =>
      assert BusesOk(Next(s, l)) by { assert EnvOf(Next(s, l)) == EnvOf(s); }
      SameRecords(s, delta);
  }

  lemma SameRecords(s: System, delta: nat)
    requires HistoryOk(s) && LogOk(s) && EnabledOk(s)
    ensures var s' := s.(clock := s.clock + delta); HistoryOk(s') && LogOk(s') && EnabledOk(s')
  {
  }

  lemma {:induction false} RunHasInv(r: Run, i: nat)
    requires IsRun(r) && i < |r.states|
    ensures Inv(r.states[i])
  {
    if i == 0 {
      InitialHasInv(r.states[0]);
    } else {
      RunHasInv(r, i - 1);
      assert Follows(r, i - 1);
      NextKeepsInv(r.states[i - 1], r.labels[i - 1]);
    }
  }

  // ---------------------------------------------------------------- authorization and freshness

  /**
   Every image on the wire was written by a command that was accepted from the one client that ever
   held the lease of exactly the epoch the worker read at its transmit recheck.
   */
  lemma SentOutputsAreAuthorized(r: Run, n: nat, f: Frame, i: nat)
    requires IsRun(r) && n < |r.states| && f in r.states[n].log
    requires i < |f.slots| && f.slots[i].image.Written?
    ensures
      var (s, c) := (r.states[n], f.slots[i].image.command);
      && c in s.history && c.bus == f.bus && c.sub == i + 1
      && c.epoch == f.epoch
      && Leases.Grant(c.client, f.epoch) in s.lease.grants
      && (forall g :: g in s.lease.grants && g.epoch == f.epoch ==> g.client == c.client)
  {
    RunHasInv(r, n);
    var (s, c) := (r.states[n], f.slots[i].image.command);
    assert LegalFrame(s.history, s.timeout, f);
    GrantIsUnique(s.lease);
  }

  lemma GrantIsUnique(l: Leases.LeaseState)
    requires Leases.Inv(l)
    ensures forall g, h :: g in l.grants && h in l.grants && g.epoch == h.epoch ==> g == h
  {
  }

  /**
   An image is on the wire only if its command was accepted at most the output timeout before the
   freshness check of that very cycle, however alive the gate-wide watchdog is kept.
   */
  lemma SentOutputsAreFresh(r: Run, n: nat, f: Frame, i: nat)
    requires IsRun(r) && n < |r.states| && f in r.states[n].log
    requires i < |f.slots| && f.slots[i].image.Written?
    ensures
      var c := f.slots[i].image.command;
      0 < c.accepted <= f.checkedAt <= c.accepted + r.states[n].timeout
  {
    RunHasInv(r, n);
    assert LegalFrame(r.states[n].history, r.states[n].timeout, f);
  }

  // ---------------------------------------------------------------- the epoch store

  /** Bus `k` cannot send an image of an epoch before `e` any more. */
  ghost predicate Caught(s: System, k: nat, e: nat) {
    && k < |s.buses| && e <= s.buses[k].p.epoch
    && (PastRecheck(s.buses[k].w.pc) ==> e <= s.buses[k].w.observed)
  }

  /** A worker step keeps the epoch of its bus and passes the recheck only with that epoch observed. */
  ghost predicate RechecksEpoch(b: Bus, b': Bus) {
    && b'.p.epoch == b.p.epoch
    && (PastRecheck(b'.w.pc) ==>
          (PastRecheck(b.w.pc) && b'.w.observed == b.w.observed) || b'.w.observed == b.p.epoch)
  }

  lemma CycleRechecks(b: Bus, c: CycleStage, latch: nat, clock: nat, timeout: nat, ch: Choice)
    requires b.w.pc == Cycle(c)
    ensures RechecksEpoch(b, CycleStep(b, c, latch, clock, timeout, ch))
  {
    hide Applied, AllZero;
  }

  lemma WorkerRechecks(b: Bus, latch: nat, clock: nat, timeout: nat, ch: Choice)
    ensures RechecksEpoch(b, WorkerStep(b, latch, clock, timeout, ch))
  {
    hide CycleStep, OuterStep;
    match b.w.pc {
      case Cycle(c) => CycleRechecks(b, c, latch, clock, timeout, ch);
      case Raise(_, _) =>
      case Init(_) =>
      case _ => OuterRechecks(b, ch);
    }
  }

  lemma OuterRechecks(b: Bus, ch: Choice)
    requires !b.w.pc.Cycle? && !b.w.pc.Raise? && !b.w.pc.Init?
    ensures RechecksEpoch(b, OuterStep(b, ch))
  {
    hide ZeroSlots, Stamped, AllZero;
    match b.w.pc {
      case Outer =>
      case Unbind(_) =>
      case FaultPermit =>
      case _ =>
    }
  }

  lemma NextKeepsCaught(s: System, l: Label, k: nat, e: nat)
    requires Inv(s) && Enabled(s, l) && Caught(s, k, e)
    ensures Caught(Next(s, l), k, e)
  {
    hide Leases.Inv, HistoryOk, LogOk, EnabledOk, DaemonOk, WorkerStep, PermitOk, FreshOk, Synced, Leases.Step;
    if l.Work? && l.k == k {
      WorkerRechecks(s.buses[k], s.latch, s.clock, s.timeout, l.choice);
    } else {
      assert BusInv(EnvOf(s), k, s.buses[k]);
    }
  }

  lemma {:induction false} StaysCaught(r: Run, i: nat, j: nat, k: nat, e: nat)
    requires IsRun(r) && i <= j < |r.states| && Caught(r.states[i], k, e)
    ensures Caught(r.states[j], k, e)
    decreases j
  {
    if i < j {
      StaysCaught(r, i, j - 1, k, e);
      RunHasInv(r, j - 1);
      assert Follows(r, j - 1);
      NextKeepsCaught(r.states[j - 1], r.labels[j - 1], k, e);
    }
  }

  /**
   Once epoch `e` is stored in a bus whose worker is not already past its transmit recheck, nothing
   that the bus sends later carries an image of an older epoch.
   */
  lemma OldImagesEndWithTheEpoch(r: Run, i: nat, j: nat, k: nat, ch: Choice, slot: nat)
    requires IsRun(r) && i <= j < |r.labels| && k < |r.states[i].buses|
    requires !PastRecheck(r.states[i].buses[k].w.pc)
    requires k < |r.states[j].buses| && r.labels[j] == Work(k, ch) && Transmits(r.states[j].buses[k].w.pc, ch)
    ensures
      var f := FrameOf(r.states[j].buses[k].w, k, ch.full);
      slot < |f.slots| && f.slots[slot].image.Written? ==>
        f.slots[slot].image.command.epoch >= r.states[i].buses[k].p.epoch
  {
    StaysCaught(r, i, j, k, r.states[i].buses[k].p.epoch);
    RunHasInv(r, j);
    SentIsLegal(EnvOf(r.states[j]), k, r.states[j].buses[k], ch);
    var b := r.states[j].buses[k];
    assert BusInv(EnvOf(r.states[j]), k, b);
  }

  // ---------------------------------------------------------------- the zero barrier

  /** An epoch is published as applied only after its all-zero frame came back with a full working counter. */
  lemma AppliedMeansBarrier(r: Run, n: nat, k: nat)
    requires IsRun(r) && n < |r.states| && k < |r.states[n].buses| && r.states[n].buses[k].p.applied != 0
    ensures Barrier(r.states[n].log, k, r.states[n].buses[k].p.applied)
  {
    RunHasInv(r, n);
    assert BusInv(EnvOf(r.states[n]), k, r.states[n].buses[k]);
  }

  /**
   While outputs are enabled in an epoch, every bus has completed the zero barrier of that epoch,
   except the buses that had left OP between the two state reads of the readiness check and have not
   published the epoch as applied either.
   */
  lemma EnabledAfterBarrier(r: Run, n: nat, k: nat)
    requires IsRun(r) && n < |r.states| && r.states[n].Gate().outputsEnabled && k < |r.states[n].buses|
    requires k !in r.states[n].skipped || r.states[n].buses[k].p.applied == r.states[n].Gate().epoch
    ensures Barrier(r.states[n].log, k, r.states[n].Gate().epoch)
  {
    RunHasInv(r, n);
    if k in r.states[n].skipped {
      LeaseHasEpoch(r.states[n].lease);
      AppliedMeansBarrier(r, n, k);
    }
  }

  /** The readiness check finds the same bus state at both of its reads. */
  ghost predicate ReadsAgree(s: System) {
    s.dpc.Checking? && s.dpc.check.SecondState? && s.dpc.bus < |s.buses| ==> s.buses[s.dpc.bus].p.state == Operational
  }

  ghost predicate NothingSkipped(s: System) {
    s.skipped == {} && (s.dpc.Checking? || s.dpc.Deciding? ==> s.dpc.skipped == {})
  }

  lemma {:induction false} AgreeingReadsSkipNothing(r: Run, n: nat)
    requires IsRun(r) && n < |r.states| && (forall i :: 0 <= i < n ==> ReadsAgree(r.states[i]))
    ensures NothingSkipped(r.states[n])
  {
    if n > 0 {
      AgreeingReadsSkipNothing(r, n - 1);
      assert Follows(r, n - 1) && ReadsAgree(r.states[n - 1]);
    }
  }

  /** With a readiness check that is atomic per bus, outputs are enabled only behind a barrier on every bus. */
  lemma AtomicReadinessGivesBarrier(r: Run, n: nat, k: nat)
    requires IsRun(r) && n < |r.states| && (forall i :: 0 <= i < n ==> ReadsAgree(r.states[i]))
    requires r.states[n].Gate().outputsEnabled && k < |r.states[n].buses|
    ensures Barrier(r.states[n].log, k, r.states[n].Gate().epoch)
  {
    AgreeingReadsSkipNothing(r, n);
    EnabledAfterBarrier(r, n, k);
  }

  // ---------------------------------------------------------------- the fault latch

  /** Outputs are enabled in epoch `e` and a fault of `e` is latched. */
  ghost predicate FaultHeld(s: System, e: nat) {
    s.Gate().epoch == e && s.Gate().outputsEnabled && s.latch == e
  }

  lemma NextKeepsFault(s: System, l: Label, e: nat)
    requires Inv(s) && Enabled(s, l) && s.Gate().epoch < MAX_U64 && FaultHeld(s, e) && Next(s, l).Gate().epoch == e
    ensures FaultHeld(Next(s, l), e)
  {
    hide HistoryOk, LogOk, EnabledOk, WorkerStep, PermitOk, FreshOk, Basic, Leases.Step, Leases.Inv;
    if l.Work? {
      RaisedIsCurrent(EnvOf(s), l.k, s.buses[l.k]);
    } else if l.Daemon? {
      DaemonKeepsEnabled(s, l.move);
    }
  }

  lemma DaemonKeepsEnabled(s: System, m: DaemonMove)
    requires Inv(s) && DaemonEnabled(s, m) && s.Gate().epoch < MAX_U64
    ensures
      var s' := DaemonStep(s, m);
      s'.latch == s.latch
      && (s'.Gate().epoch == s.Gate().epoch && s.Gate().outputsEnabled ==> s'.Gate().outputsEnabled)
  {
    hide HistoryOk, LogOk, EnabledOk, BusesOk, Leases.Step, Leases.Inv;
    if m.LeaseEvent? {
      Leases.StepEffect(s.lease, m.event);
    } else if m.Scan? {
      Leases.StepEffect(s.lease, Leases.Invalidate);
    } else if m.Advance? && s.dpc.Deciding? {
      var c := s.dpc;
      Leases.StepEffect(s.lease, Leases.OutputEnable(c.request.id, c.request.epoch, c.request.enabled,
                                                     c.healthy, m.now));
    } else if m.Advance? && s.dpc.Queueing? {
      Leases.StepEffect(s.lease, Leases.OutputWrite(s.dpc.command.client, s.dpc.command.epoch, true, m.now));
    }
  }

  /** The latch stays until the epoch advances: no fault of an older epoch can overwrite it. */
  lemma {:induction false} FaultStaysLatched(r: Run, i: nat, j: nat, e: nat)
    requires IsRun(r) && i <= j < |r.states| && FaultHeld(r.states[i], e)
    requires forall n :: i <= n <= j ==> r.states[n].Gate().epoch == e
    ensures FaultHeld(r.states[j], e)
    decreases j
  {
    if i < j {
      FaultStaysLatched(r, i, j - 1, e);
      RunHasInv(r, j - 1);
      assert Follows(r, j - 1);
      NextKeepsFault(r.states[j - 1], r.labels[j - 1], e);
    }
  }

  /** Bus `k` stands before its transmission from state `m + 1` to state `j`. */
  ghost predicate Waits(r: Run, m: nat, j: nat, k: nat)
    requires m < j < |r.states|
  {
    forall n :: m < n <= j ==> k < |r.states[n].buses| && r.states[n].buses[k].w.pc == Cycle(Transmit)
  }

  lemma NextKeepsWaiting(s: System, l: Label, k: nat)
    requires Enabled(s, l) && k < |s.buses| && k < |Next(s, l).buses|
    requires s.buses[k].w.pc == Cycle(Transmit) && Next(s, l).buses[k].w.pc == Cycle(Transmit)
    ensures Next(s, l).buses[k].w == s.buses[k].w
  {
    hide AllZero, Leases.Step;
  }

  lemma {:induction false} WaitingKeepsZero(r: Run, m: nat, j: nat, k: nat)
    requires IsRun(r) && m < j < |r.states| && Waits(r, m, j, k)
    requires AllZero(r.states[m + 1].buses[k].w.slots)
    ensures AllZero(r.states[j].buses[k].w.slots)
    decreases j
  {
    if m + 1 < j {
      WaitingKeepsZero(r, m, j - 1, k);
      assert Follows(r, j - 1);
      assert r.states[j - 1].buses[k].w.pc == Cycle(Transmit);
      NextKeepsWaiting(r.states[j - 1], r.labels[j - 1], k);
    }
  }

  /**
   Once a fault is latched in the epoch in which outputs are enabled, every frame on every bus whose
   latch check comes later is all zero, whatever the permit flag of the bus says.
   */
  lemma LatchedFaultZeroesEveryBus(r: Run, i: nat, m: nat, j: nat, k: nat, ch: Choice, e: nat)
    requires IsRun(r) && i <= m < j < |r.labels| && FaultHeld(r.states[i], e)
    requires forall n :: i <= n <= j ==> r.states[n].Gate().epoch == e
    requires k < |r.states[m].buses| && r.labels[m] == Work(k, ch) && r.states[m].buses[k].w.pc == Cycle(LatchCheck)
    requires Waits(r, m, j, k)
    ensures AllZero(r.states[j].buses[k].w.slots)
  {
    FaultStaysLatched(r, i, m, e);
    RunHasInv(r, m);
    var s := r.states[m];
    assert Synced(EnvOf(s), k, s.buses[k]);
    assert Follows(r, m);
    assert AllZero(r.states[m + 1].buses[k].w.slots);
    WaitingKeepsZero(r, m, j, k);
  }
}
