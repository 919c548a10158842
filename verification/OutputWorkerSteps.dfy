/** Every step of a worker keeps the invariant of its own bus. */
module OutputWorkerSteps {
  import opened Common
  import opened OutputModel
  import opened OutputInvariant

  lemma KnownHead(queue: seq<Command>, history: set<Command>, k: nat)
    requires queue != [] && Known(queue, history, k)
    ensures queue[0] in history && queue[0].bus == k && Known(queue[1..], history, k)
  {
  }

  // ---------------------------------------------------------------- epochs and images

  lemma ApplyKeepsBasic(v: Env, k: nat, b: Bus, c: CycleStage, clock: nat)
    requires Basic(v, k, b) && b.w.pc == Cycle(c)
    ensures Basic(v, k, ApplyStep(b, c, clock, v.timeout))
  {
    hide Tagged, Known, AllZero, Applied, Fits;
    if c.ReadEpoch? || c.ApplyClock? {
      ZeroIsHarmless(ZeroSlots(b.w.slots), v.history, k, b.p.epoch, b.p.epoch, 0, 0, 0);
      ZeroIsHarmless(Stamped(ZeroSlots(b.w.slots), clock), v.history, k, b.w.observed, b.p.epoch, 0, 0, 0);
    }
    if c.ApplyPop? && b.p.queue != [] {
      KnownHead(b.p.queue, v.history, k);
      AppliedIsTagged(b.w, b.p.queue[0], v.timeout, v.history, k, b.w.observed, b.p.epoch);
    }
  }

  lemma GuardKeepsBasic(v: Env, k: nat, b: Bus, c: CycleStage, clock: nat)
    requires Basic(v, k, b) && b.w.pc == Cycle(c)
    ensures Basic(v, k, GuardStep(b, c, v.latch, clock, v.timeout))
  {
    hide Tagged, Known, AllZero;
    ZeroIsHarmless(ZeroSlots(b.w.slots), v.history, k, b.w.observed, b.p.epoch, 0, 0, 0);
    ZeroIsHarmless(ZeroSlots(b.w.slots), v.history, k, b.p.epoch, b.p.epoch, 0, 0, 0);
    ZeroIsHarmless(ZeroSlots(b.w.slots), v.history, k, b.w.observed, b.w.observed, 0, 0, 0);
    if c.FreshPermit? {
      RefreshedIsFresh(b.w.slots, v.history, k, b.w.observed, b.p.epoch, b.w.fNow, v.timeout);
    }
  }

  lemma SendKeepsBasic(v: Env, k: nat, b: Bus, c: CycleStage, ch: Choice)
    requires Basic(v, k, b) && b.w.pc == Cycle(c)
    ensures Basic(v, k, SendStep(b, c, ch))
  {
    hide Tagged, Known, AllZero;
  }

  lemma RaiseKeepsBasic(v: Env, k: nat, b: Bus, stage: RaiseStage, resume: Resume)
    requires Basic(v, k, b) && b.w.pc == Raise(stage, resume)
    ensures Basic(v, k, RaiseStep(b, stage, resume))
  {
    hide Tagged, Known, AllZero;
  }

  lemma InitKeepsBasic(v: Env, k: nat, b: Bus, stage: InitStage, ch: Choice)
    requires Basic(v, k, b) && b.w.pc == Init(stage)
    ensures Basic(v, k, InitStep(b, stage, ch))
  {
    hide Tagged, Known, AllZero;
    ZeroIsHarmless(b.w.slots, v.history, k, b.w.observed, b.w.observed, 0, 0, 0);
  }

  lemma CloseKeepsBasic(v: Env, k: nat, b: Bus)
    requires Basic(v, k, b) && IsClosing(b.w.pc)
    ensures Basic(v, k, CloseStep(b))
  {
    hide Tagged, Known, AllZero;
    match b.w.pc {
      case Unbind(_) =>
      case _ =>
    }
  }

  lemma OuterKeepsBasic(v: Env, k: nat, b: Bus, ch: Choice)
    requires Basic(v, k, b) && !b.w.pc.Cycle? && !b.w.pc.Raise? && !b.w.pc.Init?
    ensures Basic(v, k, OuterStep(b, ch))
  {
    if IsClosing(b.w.pc) {
      CloseKeepsBasic(v, k, b);
      hide Basic, CloseStep;
    } else {
      hide Tagged, Known, AllZero;
      match b.w.pc {
        case Outer =>
        case FaultPermit =>
        case _ =>
      }
    }
  }

  // ---------------------------------------------------------------- latches and the readiness check

  lemma ApplyKeepsSynced(v: Env, k: nat, b: Bus, c: CycleStage, clock: nat)
    requires EpochsOk(v, b) && Synced(v, k, b) && b.w.pc == Cycle(c)
    ensures Synced(v, k, ApplyStep(b, c, clock, v.timeout))
  {
    hide Applied;
  }

  lemma GuardKeepsSynced(v: Env, k: nat, b: Bus, c: CycleStage, clock: nat)
    requires EpochsOk(v, b) && Synced(v, k, b) && b.w.pc == Cycle(c)
    ensures Synced(v, k, GuardStep(b, c, v.latch, clock, v.timeout))
  {
  }

  lemma SendKeepsSynced(v: Env, k: nat, b: Bus, c: CycleStage, ch: Choice)
    requires EpochsOk(v, b) && Synced(v, k, b) && b.w.pc == Cycle(c)
    ensures Synced(v, k, SendStep(b, c, ch))
  {
    hide AllZero;
  }

  lemma RaiseKeepsSynced(v: Env, k: nat, b: Bus, stage: RaiseStage, resume: Resume)
    requires EpochsOk(v, b) && Synced(v, k, b) && b.w.pc == Raise(stage, resume)
    ensures Synced(v.(latch := LatchAfter(b.w.pc, v.latch)), k, RaiseStep(b, stage, resume))
  {
  }

  lemma InitKeepsSynced(v: Env, k: nat, b: Bus, stage: InitStage, ch: Choice)
    requires EpochsOk(v, b) && Synced(v, k, b) && b.w.pc == Init(stage)
    ensures Synced(v, k, InitStep(b, stage, ch))
  {
  }

  lemma CloseKeepsSynced(v: Env, k: nat, b: Bus)
    requires EpochsOk(v, b) && Synced(v, k, b) && IsClosing(b.w.pc)
    ensures Synced(v, k, CloseStep(b))
  {
    hide ZeroSlots, Stamped, AllZero;
    match b.w.pc {
      case Unbind(_) =>
      case _ =>
    }
  }

  lemma OuterKeepsSynced(v: Env, k: nat, b: Bus, ch: Choice)
    requires EpochsOk(v, b) && Synced(v, k, b) && !b.w.pc.Cycle? && !b.w.pc.Raise? && !b.w.pc.Init?
    ensures Synced(v, k, OuterStep(b, ch))
  {
    if IsClosing(b.w.pc) {
      CloseKeepsSynced(v, k, b);
      hide Synced, CloseStep;
    } else {
      hide ZeroSlots, Stamped, AllZero;
      match b.w.pc {
        case Outer =>
        case FaultPermit =>
        case _ =>
      }
    }
  }

  // ---------------------------------------------------------------- the permit flag

  lemma ApplyKeepsPermit(v: Env, k: nat, b: Bus, c: CycleStage, clock: nat)
    requires PermitOk(v, k, b) && b.w.pc == Cycle(c)
    ensures PermitOk(v, k, ApplyStep(b, c, clock, v.timeout))
  {
    hide Before, AllZero, Applied, ZeroSlots, Stamped;
  }

  lemma GuardKeepsPermit(v: Env, k: nat, b: Bus, c: CycleStage, clock: nat)
    requires PermitOk(v, k, b) && b.w.pc == Cycle(c)
    ensures PermitOk(v, k, GuardStep(b, c, v.latch, clock, v.timeout))
  {
    hide Before, AllZero, Applied, ZeroSlots, Stamped;
  }

  lemma SendKeepsPermit(v: Env, k: nat, b: Bus, c: CycleStage, ch: Choice)
    requires PermitOk(v, k, b) && b.w.pc == Cycle(c)
    ensures PermitOk(v, k, SendStep(b, c, ch))
  {
    hide Before, AllZero, Applied, ZeroSlots, Stamped;
  }

  lemma CycleKeepsPermit(v: Env, k: nat, b: Bus, c: CycleStage, clock: nat, ch: Choice)
    requires PermitOk(v, k, b) && b.w.pc == Cycle(c)
    ensures PermitOk(v, k, CycleStep(b, c, v.latch, clock, v.timeout, ch))
  {
    hide PermitOk, ApplyStep, GuardStep, SendStep;
    ApplyKeepsPermit(v, k, b, c, clock);
    GuardKeepsPermit(v, k, b, c, clock);
    SendKeepsPermit(v, k, b, c, ch);
  }

  lemma RaiseKeepsPermit(v: Env, k: nat, b: Bus, stage: RaiseStage, resume: Resume)
    requires Synced(v, k, b) && PermitOk(v, k, b) && b.w.pc == Raise(stage, resume)
    ensures PermitOk(v.(latch := LatchAfter(b.w.pc, v.latch)), k, RaiseStep(b, stage, resume))
  {
    hide Before;
  }

  lemma CloseKeepsPermit(v: Env, k: nat, b: Bus)
    requires PermitOk(v, k, b) && IsClosing(b.w.pc)
    ensures PermitOk(v, k, CloseStep(b))
  {
    hide Before, ZeroSlots, Stamped;
    match b.w.pc {
      case Unbind(_) =>
      case _ =>
    }
  }

  lemma OuterKeepsPermit(v: Env, k: nat, b: Bus, ch: Choice)
    requires PermitOk(v, k, b) && !b.w.pc.Cycle? && !b.w.pc.Raise? && !b.w.pc.Init?
    ensures PermitOk(v, k, OuterStep(b, ch))
  {
    if IsClosing(b.w.pc) {
      CloseKeepsPermit(v, k, b);
      hide PermitOk, CloseStep;
    } else {
      hide Before, ZeroSlots, Stamped;
      match b.w.pc {
        case Outer =>
        case FaultPermit =>
        case _ =>
      }
    }
  }

  lemma InitKeepsPermit(v: Env, k: nat, b: Bus, stage: InitStage, ch: Choice)
    requires PermitOk(v, k, b) && b.w.pc == Init(stage)
    ensures PermitOk(v, k, InitStep(b, stage, ch))
  {
    hide Before;
  }

  // ---------------------------------------------------------------- freshness

  /** A command of the current epoch reaches an image only in a session that has seen its permit pushed. */
  lemma PopKeepsPushed(v: Env, k: nat, b: Bus)
    requires BusInv(v, k, b) && b.w.pc == Cycle(ApplyPop) && b.p.queue != []
    ensures OlderThan(Applied(b.w, b.p.queue[0], v.timeout), v.epoch) || b.pushed == Some((v.epoch, true))
  {
    var c := b.p.queue[0];
    assert c in v.history;
    if b.pushed != Some((v.epoch, true)) && c.epoch < v.epoch {
      AppliedIsOld(b.w, c, v.timeout, v.epoch);
    }
  }

  lemma ApplyKeepsFresh(v: Env, k: nat, b: Bus, c: CycleStage, clock: nat)
    requires BusInv(v, k, b) && b.w.pc == Cycle(c)
    ensures FreshOk(v, k, ApplyStep(b, c, clock, v.timeout))
  {
    hide Basic, Synced, PermitOk, OlderThan, AllZero, Applied, FreshAt;
    if c.ApplyPop? && b.p.queue != [] {
      PopKeepsPushed(v, k, b);
    }
    ZeroIsHarmless(ZeroSlots(b.w.slots), v.history, k, 0, 0, b.w.fNow, v.timeout, v.epoch);
    ZeroIsHarmless(Stamped(ZeroSlots(b.w.slots), clock), v.history, k, 0, 0, b.w.fNow, v.timeout, v.epoch);
  }

  /** When the freshness check finds the permit down, it stays down until the recheck, or the epoch moves. */
  lemma UncheckedIsBlocked(v: Env, k: nat, b: Bus)
    requires BusInv(v, k, b) && b.w.pc == Cycle(FreshPermit) && !b.p.permitted && b.p.epoch == b.w.observed
    requires !FreshAt(b.w.slots, b.w.fNow, v.timeout)
    ensures Blocked(v, k, b.p)
  {
    var i :| 0 <= i < |b.w.slots| && b.w.slots[i].image.Written?;
    var c := b.w.slots[i].image.command;
    assert c in v.history && c.epoch == b.p.epoch;
  }

  lemma GuardKeepsFresh(v: Env, k: nat, b: Bus, c: CycleStage, clock: nat)
    requires BusInv(v, k, b) && b.w.pc == Cycle(c)
    ensures FreshOk(v, k, GuardStep(b, c, v.latch, clock, v.timeout))
  {
    hide Synced, PermitOk, OlderThan, AllZero, FreshAt, Tagged, Known, Latched;
    ZeroIsHarmless(ZeroSlots(b.w.slots), v.history, k, 0, 0, b.w.fNow, v.timeout, v.epoch);
    if c.FreshPermit? {
      RefreshedIsFresh(b.w.slots, v.history, k, b.w.observed, b.p.epoch, b.w.fNow, v.timeout);
      if OlderThan(b.w.slots, v.epoch) {
        RefreshedIsOld(b.w.slots, b.w.fNow, v.timeout, v.epoch);
      }
      if !b.p.permitted && b.p.epoch == b.w.observed && !FreshAt(b.w.slots, b.w.fNow, v.timeout) {
        UncheckedIsBlocked(v, k, b);
      }
    }
  }

  lemma SendKeepsFresh(v: Env, k: nat, b: Bus, c: CycleStage, ch: Choice)
    requires FreshOk(v, k, b) && b.w.pc == Cycle(c)
    ensures FreshOk(v, k, SendStep(b, c, ch))
  {
    hide OlderThan, AllZero, FreshAt;
  }

  lemma InitKeepsFresh(v: Env, k: nat, b: Bus, stage: InitStage, ch: Choice)
    requires Basic(v, k, b) && b.w.pc == Init(stage)
    ensures FreshOk(v, k, InitStep(b, stage, ch))
  {
    ZeroIsHarmless(b.w.slots, v.history, k, 0, 0, b.w.fNow, v.timeout, v.epoch);
  }

  // ---------------------------------------------------------------- all together

  lemma CycleKeepsBus(v: Env, k: nat, b: Bus, c: CycleStage, clock: nat, ch: Choice)
    requires BusInv(v, k, b) && b.w.pc == Cycle(c)
    ensures BusInv(v, k, CycleStep(b, c, v.latch, clock, v.timeout, ch))
  {
    hide Basic, Synced, PermitOk, FreshOk;
    assert EpochsOk(v, b) by { BasicHasEpochs(v, k, b); }
    CycleKeepsPermit(v, k, b, c, clock, ch);
    ApplyKeepsBasic(v, k, b, c, clock);
    ApplyKeepsSynced(v, k, b, c, clock);
    ApplyKeepsFresh(v, k, b, c, clock);
    GuardKeepsBasic(v, k, b, c, clock);
    GuardKeepsSynced(v, k, b, c, clock);
    GuardKeepsFresh(v, k, b, c, clock);
    SendKeepsBasic(v, k, b, c, ch);
    SendKeepsSynced(v, k, b, c, ch);
    SendKeepsFresh(v, k, b, c, ch);
  }

  lemma BasicHasEpochs(v: Env, k: nat, b: Bus)
    requires Basic(v, k, b)
    ensures EpochsOk(v, b)
  {
  }

  lemma OuterHasNoCycle(v: Env, k: nat, b: Bus, ch: Choice)
    requires !b.w.pc.Cycle? && !b.w.pc.Raise? && !b.w.pc.Init?
    ensures FreshOk(v, k, OuterStep(b, ch))
  {
    hide FreshAt, OlderThan, Blocked;
    OuterLeavesCycle(b, ch);
  }

  lemma OuterLeavesCycle(b: Bus, ch: Choice)
    requires !b.w.pc.Cycle? && !b.w.pc.Raise? && !b.w.pc.Init?
    ensures !OuterStep(b, ch).w.pc.Cycle?
  {
    hide ZeroSlots, Unbound;
    match b.w.pc {
      case Outer =>
      case Close(_) =>
      case InitClose =>
      case InitFailClose =>
      case Unbind(_) =>
      case FaultPermit =>
      case _ =>
    }
  }

  /** The environment as the step of a worker leaves it. */
  function After(v: Env, b: Bus): Env { v.(latch := LatchAfter(b.w.pc, v.latch)) }

  lemma RaiseKeepsBus(v: Env, k: nat, b: Bus, stage: RaiseStage, resume: Resume)
    requires BusInv(v, k, b) && b.w.pc == Raise(stage, resume)
    ensures BusInv(After(v, b), k, RaiseStep(b, stage, resume))
  {
    BasicHasEpochs(v, k, b);
    RaiseKeepsBasic(v, k, b, stage, resume);
    RaiseKeepsSynced(v, k, b, stage, resume);
    RaiseKeepsPermit(v, k, b, stage, resume);
  }

  lemma WorkerKeepsBus(v: Env, k: nat, b: Bus, clock: nat, ch: Choice)
    requires BusInv(v, k, b)
    ensures BusInv(After(v, b), k, WorkerStep(b, v.latch, clock, v.timeout, ch))
  {
    hide Basic, Synced, PermitOk, FreshOk, CycleStep, RaiseStep, InitStep;
    BasicHasEpochs(v, k, b);
    match b.w.pc
    case Cycle(c) => CycleKeepsBus(v, k, b, c, clock, ch);
    case Raise(stage, resume) => RaiseKeepsBus(v, k, b, stage, resume);
    case Init(stage) =>
      InitKeepsBasic(v, k, b, stage, ch);
      InitKeepsSynced(v, k, b, stage, ch);
      InitKeepsPermit(v, k, b, stage, ch);
      InitKeepsFresh(v, k, b, stage, ch);
    case _ =>
      OuterKeepsBasic(v, k, b, ch);
      OuterKeepsSynced(v, k, b, ch);
      OuterKeepsPermit(v, k, b, ch);
      OuterHasNoCycle(v, k, b, ch);
  }

  /** What a worker sends is legal. */
  lemma SentIsLegal(v: Env, k: nat, b: Bus, ch: Choice)
    requires BusInv(v, k, b) && Transmits(b.w.pc, ch)
    ensures LegalFrame(v.history, v.timeout, FrameOf(b.w, k, ch.full))
  {
    if !b.w.pc.Cycle? {
      ZeroIsHarmless(b.w.slots, v.history, k, b.w.observed, b.w.observed, b.w.fNow, v.timeout, 0);
    }
  }
}
