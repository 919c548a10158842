/** The invariant of the whole system, every run, and what follows for what is sent. */
module OutputRuns {
  import opened Common
  import opened SafetyGates
  import opened OutputModel
  import opened OutputInvariant
  import opened OutputWorkerSteps
  import opened OutputDaemonSteps

  ghost predicate BusesOk(s: System) {
    forall k :: 0 <= k < |s.buses| ==> BusInv(EnvOf(s), k, s.buses[k])
  }

  predicate AllReady(ready: seq<bool>, n: nat)
    requires n <= |ready|
  {
    forall k :: 0 <= k < n ==> ready[k]
  }

  /** Outputs are enabled only with every adapter ready, and only an authorized command is in transit. */
  ghost predicate DaemonOk(s: System) {
    && (s.Gate().outputsEnabled ==> AllReady(s.ready, |s.ready|))
    && match s.dpc
       case Checking(_, at, check, _, _) =>
         && (!check.GlobalLatch? ==> at < |s.ready| && AllReady(s.ready, at))
         && (check.SecondState? || check.AppliedEpoch? || check.Topology? ==> s.ready[at])
       case Deciding(_, healthy, _) => healthy ==> AllReady(s.ready, |s.ready|)
       case Queueing(c) =>
         && WriteAuthorization(s.Gate(), c.client, c.epoch) == Ok
         && s.lease.Open(c.client) && s.lease.clients[c.client].hello
       case _ => true
  }

  /** Every accepted command was accepted from the lease holder of its epoch. */
  ghost predicate HistoryOk(s: System) {
    forall c :: c in s.history ==>
      c.epoch <= s.Gate().epoch && Leases.Grant(c.client, c.epoch) in s.lease.grants
  }

  /** The frame is an all-zero one of bus `k`'s own cycle in epoch `e`, back with a full working counter. */
  ghost predicate IsBarrier(f: Frame, k: nat, e: nat) {
    f.bus == k && f.epoch == e && f.cyclic && f.full && AllZero(f.slots)
  }

  /** Bus `k` completed the zero barrier of epoch `e`. */
  ghost predicate Barrier(log: seq<Frame>, k: nat, e: nat) {
    exists n :: 0 <= n < |log| && IsBarrier(log[n], k, e)
  }

  ghost predicate LogOk(s: System) {
    && (forall n :: 0 <= n < |s.log| ==> LegalFrame(s.history, s.timeout, s.log[n]))
    && (forall k, e | 0 <= k < |s.buses| && e in s.buses[k].acked :: Barrier(s.log, k, e))
  }

  ghost predicate EnabledOk(s: System) {
    s.Gate().outputsEnabled ==>
      forall k :: 0 <= k < |s.buses| ==> k in s.skipped || s.Gate().epoch in s.buses[k].acked
  }

  ghost predicate Inv(s: System) {
    && ShapeOk(s) && Leases.Inv(s.lease) && DaemonOk(s) && HistoryOk(s) && LogOk(s) && EnabledOk(s) && BusesOk(s)
  }

  // ---------------------------------------------------------------- workers

  lemma LogGrows(log: seq<Frame>, f: Frame, k: nat, e: nat)
    requires Barrier(log, k, e)
    ensures Barrier(log + [f], k, e)
  {
    var n :| 0 <= n < |log| && IsBarrier(log[n], k, e);
    assert (log + [f])[n] == log[n];
  }

  lemma AckedOnlyBySending(b: Bus, latch: nat, clock: nat, timeout: nat, ch: Choice)
    ensures
      var b' := WorkerStep(b, latch, clock, timeout, ch);
      b'.acked == b.acked
      || (b.w.pc == Cycle(Transmit) && AllZero(b.w.slots) && ch.full && b'.acked == b.acked + {b.w.observed})
  {
    hide AllZero, Applied;
  }

  lemma WorkKeepsLog(s: System, k: nat, ch: Choice)
    requires Inv(s) && k < |s.buses|
    ensures LogOk(Next(s, Work(k, ch)))
  {
    hide BusInv, WorkerStep, LegalFrame, AllZero, HistoryOk, DaemonOk, EnabledOk;
    var s' := Next(s, Work(k, ch));
    var b := s.buses[k];
    var f := FrameOf(b.w, k, ch.full);
    AckedOnlyBySending(b, s.latch, s.clock, s.timeout, ch);
    if Transmits(b.w.pc, ch) {
      SentIsLegal(EnvOf(s), k, b, ch);
      assert s'.log[|s.log|] == f;
      forall j, e | 0 <= j < |s'.buses| && e in s'.buses[j].acked ensures Barrier(s'.log, j, e) {
        if e in s.buses[j].acked {
          LogGrows(s.log, f, j, e);
        }
      }
    }
  }

  lemma WorkKeepsBuses(s: System, k: nat, ch: Choice)
    requires Inv(s) && k < |s.buses|
    ensures BusesOk(Next(s, Work(k, ch)))
  {
    hide Leases.Inv, BusInv, WorkerStep, HistoryOk, DaemonOk, EnabledOk, LogOk;
    var s' := Next(s, Work(k, ch));
    var (v, b) := (EnvOf(s), s.buses[k]);
    WorkerKeepsBus(v, k, b, s.clock, ch);
    assert EnvOf(s') == After(v, b);
    forall j | 0 <= j < |s'.buses| && j != k ensures BusInv(EnvOf(s'), j, s'.buses[j]) {
      if b.w.pc.Raise? && b.w.pc.raise.Global? {
        RaisedIsCurrent(v, k, b);
        LatchStoreKeepsBus(v, j, s.buses[j], b.w.pc.raise.r);
      }
    }
  }

  lemma RaisedIsCurrent(v: Env, k: nat, b: Bus)
    requires BusInv(v, k, b)
    ensures v.enabled && Raising(b.w.pc) ==> b.w.pc.raise.r == v.epoch
  {
  }

  lemma WorkKeepsInv(s: System, k: nat, ch: Choice)
    requires Inv(s) && k < |s.buses|
    ensures Inv(Next(s, Work(k, ch)))
  {
    hide BusInv, WorkerStep;
    WorkKeepsLog(s, k, ch);
    WorkKeepsBuses(s, k, ch);
    AckedOnlyBySending(s.buses[k], s.latch, s.clock, s.timeout, ch);
  }

  // ---------------------------------------------------------------- the daemon

  lemma HistoryBefore(s: System)
    requires HistoryOk(s)
    ensures Before(s.history, s.Gate().epoch + 1)
  {
  }

  /** A lease event, and the start of the push that may follow it. */
  lemma EventKeepsBuses(s: System, ev: Leases.Event, push: bool)
    requires Inv(s) && Resting(s.dpc) && s.Gate().epoch < MAX_U64
    requires ev.OutputEnable? && ev.healthy ==> s.dpc.Deciding? && s.dpc.healthy
    requires s.dpc.Queueing? ==> false
    ensures BusesOk(AfterEvent(s, ev, push))
  {
    hide BusInv, Leases.Inv, Leases.Step, HistoryOk, LogOk, EnabledOk, DaemonOk;
    var s' := AfterEvent(s, ev, push);
    var (v, v') := (EnvOf(s), EnvOf(s'));
    Leases.StepEffect(s.lease, ev);
    HistoryBefore(s);
    forall k | 0 <= k < |s'.buses| ensures BusInv(v', k, s'.buses[k]) {
      var b := s.buses[k];
      assert BusInv(v, k, b);
      if v'.epoch == v.epoch + 1 {
        AdvanceKeepsBus(v, k, b);
      } else if v'.enabled && !v.enabled {
        GrantKeepsBus(v, k, b);
      } else if v'.dpc.Pushing? {
        RepushKeepsBus(v, k, b);
      } else {
        LocalKeepsBus(v, k, b, Idle);
      }
    }
  }

  lemma EventKeepsRest(s: System, ev: Leases.Event, push: bool)
    requires Inv(s) && Resting(s.dpc) && s.Gate().epoch < MAX_U64
    requires ev.OutputEnable? && ev.healthy ==> s.dpc.Deciding? && s.dpc.healthy
    ensures
      var s' := AfterEvent(s, ev, push);
      && ShapeOk(s') && Leases.Inv(s'.lease) && HistoryOk(s') && DaemonOk(s')
  {
    hide BusInv, Leases.Inv, Leases.Step, LogOk, EnabledOk;
    Leases.StepEffect(s.lease, ev);
    Leases.StepKeepsInv(s.lease, ev);
    var s' := AfterEvent(s, ev, push);
    forall c | c in s'.history ensures Leases.Grant(c.client, c.epoch) in s'.lease.grants {
    }
  }

  lemma LeaseEventKeepsInv(s: System, ev: Leases.Event, push: bool)
    requires Inv(s) && s.dpc.Idle? && s.Gate().epoch < MAX_U64 && !ev.OutputEnable? && !ev.OutputWrite?
    ensures Inv(AfterEvent(s, ev, push))
  {
    hide BusInv, Leases.Inv, Leases.Step, HistoryOk, DaemonOk;
    EventKeepsBuses(s, ev, push);
    EventKeepsRest(s, ev, push);
    Leases.StepEffect(s.lease, ev);
  }

  lemma DecidedKeepsInv(s: System, now: Time)
    requires Inv(s) && s.dpc.Deciding? && s.Gate().epoch < MAX_U64
    ensures Inv(Decided(s, s.dpc, now))
  {
    hide Leases.Inv, Leases.Step, LogOk, Basic, PermitOk, FreshOk;
    var c := s.dpc;
    var ev := Leases.OutputEnable(c.request.id, c.request.epoch, c.request.enabled, c.healthy, now);
    EventKeepsBuses(s, ev, true);
    EventKeepsRest(s, ev, true);
    Leases.StepEffect(s.lease, ev);
    var s' := Decided(s, c, now);
    SameLog(s, s');
    assert EnvOf(s') == EnvOf(AfterEvent(s, ev, true));
    assert EnabledOk(s') by { assert forall k | 0 <= k < |s.buses| :: Checked(EnvOf(s), k, s.buses[k]); }
  }

  lemma SameLog(s: System, s': System)
    requires LogOk(s) && s'.log == s.log && s'.history == s.history && s'.timeout == s.timeout
    requires |s'.buses| == |s.buses|
    requires forall k :: 0 <= k < |s.buses| ==> s'.buses[k].acked == s.buses[k].acked
    ensures LogOk(s')
  {
  }

  /** A move that keeps the gate and the records, and whose effect on every bus is already proved. */
  lemma QuietKeepsInv(s: System, s': System)
    requires Inv(s) && ShapeOk(s') && DaemonOk(s') && BusesOk(s')
    requires s'.lease == s.lease && s'.history == s.history && s'.log == s.log && s'.timeout == s.timeout
    requires s'.skipped == s.skipped && |s'.buses| == |s.buses|
    requires forall k :: 0 <= k < |s.buses| ==> s'.buses[k].acked == s.buses[k].acked
    ensures Inv(s')
  {
    hide BusInv, Leases.Inv, DaemonOk, LegalFrame;
    SameLog(s, s');
  }

  lemma PushKeepsBuses(s: System, k: nat, stage: PushStage)
    requires Inv(s) && s.dpc == Pushing(k, stage)
    ensures BusesOk(PushStep(s, k, stage))
  {
    hide BusInv, Leases.Inv, HistoryOk, LogOk, EnabledOk, DaemonOk;
    var s' := PushStep(s, k, stage);
    var (v, b) := (EnvOf(s), s.buses[k]);
    assert BusInv(v, k, b);
    match stage {
      case Exchange => ExchangeKeepsBus(v, k, b);
      case LoadOwn => LoadOwnKeepsBus(v, k, b);
      case LoadGlobal(own) => LoadGlobalKeepsBus(v, k, b, own);
      case Store(latched) => StoreKeepsBus(v, k, b, latched, s'.dpc);
    }
    forall j | 0 <= j < |s'.buses| && j != k ensures BusInv(EnvOf(s'), j, s'.buses[j]) {
      OtherPushKeepsBus(v, j, s.buses[j], k, s'.dpc);
    }
  }

  lemma PushKeepsInv(s: System, k: nat, stage: PushStage)
    requires Inv(s) && s.dpc == Pushing(k, stage)
    ensures Inv(PushStep(s, k, stage))
  {
    hide BusInv, Leases.Inv, HistoryOk, LogOk, EnabledOk;
    PushKeepsBuses(s, k, stage);
    QuietKeepsInv(s, PushStep(s, k, stage));
  }

  lemma CheckKeepsChecked(s: System, clockHealthy: bool, k: nat)
    requires Inv(s) && s.dpc.Checking? && k < |s.buses|
    ensures Checked(EnvOf(s).(dpc := CheckStep(s, s.dpc, clockHealthy).dpc), k, s.buses[k])
  {
    hide Basic, PermitOk, FreshOk, HistoryOk, LogOk, EnabledOk, Leases.Inv;
    var (v, c) := (EnvOf(s), s.dpc);
    assert v.epoch > 0 by { LeaseHasEpoch(s.lease); }
    assert BusInv(v, k, s.buses[k]);
    if c.bus == k && c.check.FirstState? && s.buses[k].p.state == Operational {
      FirstReadChecks(v, k, s.buses[k]);
    }
    if c.bus == k && c.check.AppliedEpoch? && s.buses[k].p.applied == v.epoch {
      AppliedReadChecks(v, k, s.buses[k]);
    }
  }

  lemma LeaseHasEpoch(l: Leases.LeaseState)
    requires Leases.Inv(l)
    ensures l.gate.epoch > 0
  {
  }

  lemma CheckKeepsInv(s: System, clockHealthy: bool)
    requires Inv(s) && s.dpc.Checking?
    ensures Inv(CheckStep(s, s.dpc, clockHealthy))
  {
    hide BusInv, Checked, HistoryOk, LogOk, EnabledOk, Leases.Inv;
    var s' := CheckStep(s, s.dpc, clockHealthy);
    assert EnvOf(s') == EnvOf(s).(dpc := s'.dpc);
    forall k | 0 <= k < |s'.buses| ensures BusInv(EnvOf(s'), k, s'.buses[k]) {
      CheckKeepsChecked(s, clockHealthy, k);
      LocalKeepsBus(EnvOf(s), k, s.buses[k], s'.dpc);
    }
    QuietKeepsInv(s, s');
  }

  lemma EnqueueKeepsRecords(s: System, c: Command, now: Time)
    requires Inv(s) && s.dpc == Queueing(c) && s.Gate().epoch < MAX_U64 && |s.buses[c.bus].p.queue| < s.capacity
    ensures
      var s' := Enqueued(s, c, now);
      && Leases.Inv(s'.lease) && HistoryOk(s') && LogOk(s')
      && EnvOf(s') == EnvOf(s).(dpc := Idle, history := s.history + {c})
  {
    hide BusInv, DaemonOk, EnabledOk, Tagged;
    var ev := Leases.OutputWrite(c.client, c.epoch, true, now);
    assert WriteAuthorization(s.Gate(), c.client, c.epoch) == Ok && s.lease.Open(c.client)
        && s.lease.clients[c.client].hello by { DaemonQueues(s); }
    Leases.StepKeepsInv(s.lease, ev);
    var s' := Enqueued(s, c, now);
    assert Leases.Grant(c.client, c.epoch) in s'.lease.writes;
    forall n | 0 <= n < |s'.log| ensures LegalFrame(s'.history, s'.timeout, s'.log[n]) {
      var f := s.log[n];
      TaggedWiden(f.slots, s.history, s'.history, f.bus, f.epoch, f.epoch, f.epoch, f.epoch);
    }
  }

  lemma DaemonQueues(s: System)
    requires DaemonOk(s) && s.dpc.Queueing?
    ensures WriteAuthorization(s.Gate(), s.dpc.command.client, s.dpc.command.epoch) == Ok
    ensures s.lease.Open(s.dpc.command.client) && s.lease.clients[s.dpc.command.client].hello
  {
  }

  lemma EnqueueKeepsInv(s: System, c: Command, now: Time)
    requires Inv(s) && s.dpc == Queueing(c) && s.Gate().epoch < MAX_U64
    ensures Inv(Enqueued(s, c, now))
  {
    hide BusInv, Leases.Inv, Leases.Step, HistoryOk, LogOk;
    var (s', v) := (Enqueued(s, c, now), EnvOf(s));
    DaemonQueues(s);
    if |s.buses[c.bus].p.queue| < s.capacity {
      EnqueueKeepsRecords(s, c, now);
      forall k | 0 <= k < |s'.buses| ensures BusInv(EnvOf(s'), k, s'.buses[k]) {
        EnqueueKeepsBus(v, k, s.buses[k], c);
      }
    } else {
      forall k | 0 <= k < |s'.buses| ensures BusInv(EnvOf(s'), k, s'.buses[k]) {
        LocalKeepsBus(v, k, s.buses[k], Idle);
      }
      QuietKeepsInv(s, s');
    }
  }

  lemma ScanKeepsInv(s: System, next: seq<bool>, changed: bool)
    requires Inv(s) && s.dpc.Idle? && |next| == |s.ready| && s.Gate().epoch < MAX_U64
    ensures Inv(Scanned(s, next, changed))
  {
    hide BusInv, Leases.Inv, HistoryOk, LogOk;
    var s' := Scanned(s, next, changed);
    if s'.lease == s.lease && s'.dpc.Idle? {
      assert BusesOk(s') by { assert EnvOf(s') == EnvOf(s); }
      QuietKeepsInv(s, s');
    } else {
      var t := AfterEvent(s, Leases.Invalidate, true);
      LeaseEventKeepsInv(s, Leases.Invalidate, true);
      assert EnvOf(s') == EnvOf(t) && s' == t.(ready := next);
      assert HistoryOk(s') && LogOk(s') by { ReadyIsApart(t, next); }
    }
  }

  lemma ReadyIsApart(s: System, next: seq<bool>)
    requires HistoryOk(s) && LogOk(s)
    ensures HistoryOk(s.(ready := next)) && LogOk(s.(ready := next))
  {
  }

  lemma ClearKeepsInv(s: System, k: nat)
    requires Inv(s) && DaemonEnabled(s, ClearPermit(k))
    ensures Inv(DaemonStep(s, ClearPermit(k)))
  {
    hide BusInv, Leases.Inv, HistoryOk, LogOk;
    var s' := DaemonStep(s, ClearPermit(k));
    ClearPermitKeepsBus(EnvOf(s), k, s.buses[k]);
    assert EnvOf(s') == EnvOf(s);
    QuietKeepsInv(s, s');
  }

  lemma StartKeepsInv(s: System, k: nat)
    requires Inv(s) && DaemonEnabled(s, StartWorker(k))
    ensures Inv(DaemonStep(s, StartWorker(k)))
  {
    hide BusInv, Leases.Inv, HistoryOk, LogOk;
    var s' := DaemonStep(s, StartWorker(k));
    StartKeepsBus(EnvOf(s), k, s.buses[k]);
    assert EnvOf(s') == EnvOf(s);
    QuietKeepsInv(s, s');
  }

  lemma LocalKeepsInv(s: System, dpc: DaemonPc)
    requires Inv(s) && s.dpc.Idle? && !dpc.Pushing? && !dpc.Deciding? && (dpc.Checking? ==> dpc.check.GlobalLatch?)
    requires ShapeOk(s.(dpc := dpc)) && DaemonOk(s.(dpc := dpc))
    ensures Inv(s.(dpc := dpc))
  {
    hide BusInv, Leases.Inv, HistoryOk, LogOk, DaemonOk;
    var s' := s.(dpc := dpc);
    forall k | 0 <= k < |s'.buses| ensures BusInv(EnvOf(s'), k, s'.buses[k]) {
      LocalKeepsBus(EnvOf(s), k, s.buses[k], dpc);
    }
    QuietKeepsInv(s, s');
  }

  lemma DaemonKeepsInv(s: System, m: DaemonMove)
    requires Inv(s) && DaemonEnabled(s, m) && s.Gate().epoch < MAX_U64
    ensures Inv(DaemonStep(s, m))
  {
    hide BusInv, Leases.Inv, HistoryOk, LogOk, BusesOk, EnabledOk;
    match m
    case LeaseEvent(ev, push) => LeaseEventKeepsInv(s, ev, push);
    case StartCheck(request) => LocalKeepsInv(s, Checking(request, 0, GlobalLatch, false, {}));
    case Advance(clockHealthy, now) =>
      match s.dpc {
        case Pushing(k, stage) => PushKeepsInv(s, k, stage);
        case Checking(_, _, _, _, _) => CheckKeepsInv(s, clockHealthy);
        case Deciding(_, _, _) => DecidedKeepsInv(s, now);
        case Queueing(c) => EnqueueKeepsInv(s, c, now);
        case Idle => assert false;
      }
    case Stamp(id, epoch, bus, sub, offset, data) =>
      LocalKeepsInv(s, Queueing(Command(id, epoch, bus, sub, offset, s.clock, data)));
    case Scan(next, changed) => ScanKeepsInv(s, next, changed);
    case ClearPermit(k) => ClearKeepsInv(s, k);
    case StartWorker(k) => StartKeepsInv(s, k);
  }
}
