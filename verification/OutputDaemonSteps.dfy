/** Every step of the daemon keeps the invariant of every bus. */
module OutputDaemonSteps {
  import opened Common
  import opened OutputModel
  import opened OutputInvariant

  predicate Resting(dpc: DaemonPc) { dpc.Idle? || dpc.Deciding? || dpc.Queueing? }

  /** Another worker stores the process-wide latch. */
  lemma LatchStoreKeepsBus(v: Env, k: nat, b: Bus, r: nat)
    requires BusInv(v, k, b) && (v.enabled ==> r == v.epoch)
    ensures BusInv(v.(latch := r), k, b)
  {
    hide Basic, Synced, OlderThan, FreshAt, Before;
    var v' := v.(latch := r);
    assert Basic(v', k, b) && Synced(v', k, b) by { LatchIsApart(v, k, b, r); }
  }

  lemma LatchIsApart(v: Env, k: nat, b: Bus, r: nat)
    requires Basic(v, k, b) && Synced(v, k, b)
    ensures Basic(v.(latch := r), k, b) && Synced(v.(latch := r), k, b)
  {
    hide Tagged, Known, AllZero;
  }

  /** The gate drops the lease: outputs are off in the next epoch until every bus has been reached. */
  lemma AdvanceKeepsBus(v: Env, k: nat, b: Bus)
    requires BusInv(v, k, b) && Resting(v.dpc) && Before(v.history, v.epoch + 1)
    ensures BusInv(v.(epoch := v.epoch + 1, enabled := false, dpc := Pushing(0, Exchange)), k, b)
  {
    hide Tagged, Known, AllZero, FreshAt, Before;
    var v' := v.(epoch := v.epoch + 1, enabled := false, dpc := Pushing(0, Exchange));
    assert FreshOk(v', k, b) by {
      if b.w.pc.Cycle? {
        assert OlderThan(b.w.slots, v'.epoch) by { TaggedIsOld(v, k, b); }
      }
    }
  }

  lemma TaggedIsOld(v: Env, k: nat, b: Bus)
    requires Basic(v, k, b) && b.w.pc.Cycle?
    ensures OlderThan(b.w.slots, v.epoch + 1)
  {
  }

  /** ApplySafetyToBuses starts over with nothing changed. */
  lemma RepushKeepsBus(v: Env, k: nat, b: Bus)
    requires BusInv(v, k, b) && Resting(v.dpc)
    ensures BusInv(v.(dpc := Pushing(0, Exchange)), k, b)
  {
    hide Tagged, Known, AllZero, FreshAt, Before, OlderThan;
  }

  /** Outputs become enabled after a readiness check that every bus passed. */
  lemma GrantKeepsBus(v: Env, k: nat, b: Bus)
    requires BusInv(v, k, b) && v.dpc.Deciding? && v.dpc.healthy && !v.enabled
    ensures BusInv(v.(enabled := true, dpc := Pushing(0, Exchange)), k, b)
  {
    hide Tagged, Known, AllZero, FreshAt, Before, OlderThan;
  }

  // ---------------------------------------------------------------- SetSafety

  lemma ExchangeKeepsBus(v: Env, k: nat, b: Bus)
    requires BusInv(v, k, b) && v.dpc == Pushing(k, Exchange)
    ensures BusInv(v.(dpc := Pushing(k, LoadOwn)), k, b.(p := b.p.(epoch := v.epoch)))
  {
    hide Known, AllZero, FreshAt, Before, OlderThan, Tagged;
    if b.w.pc.Cycle? && BeforeRecheck(b.w.pc.c) {
      TaggedWiden(b.w.slots, v.history, v.history, k, b.w.observed, b.p.epoch, b.w.observed, v.epoch);
    }
  }

  lemma LoadOwnKeepsBus(v: Env, k: nat, b: Bus)
    requires BusInv(v, k, b) && v.dpc == Pushing(k, LoadOwn)
    ensures BusInv(v.(dpc := Pushing(k, LoadGlobal(b.p.faulted == v.epoch))), k, b)
  {
    hide Basic, FreshAt, Before, OlderThan;
    BasicIgnoresDaemon(v, k, b, Pushing(k, LoadGlobal(b.p.faulted == v.epoch)));
  }

  lemma LoadGlobalKeepsBus(v: Env, k: nat, b: Bus, own: bool)
    requires BusInv(v, k, b) && v.dpc == Pushing(k, LoadGlobal(own))
    ensures BusInv(v.(dpc := Pushing(k, Store(own || v.latch == v.epoch))), k, b)
  {
    hide Basic, FreshAt, Before, OlderThan;
    BasicIgnoresDaemon(v, k, b, Pushing(k, Store(own || v.latch == v.epoch)));
  }

  /** The bus as the final store of SetSafety leaves it. */
  function Permitted(v: Env, b: Bus, latched: bool): Bus {
    b.(p := b.p.(permitted := v.enabled && !latched),
       pushed := if InSession(b.w.pc) then Some((v.epoch, v.enabled)) else None)
  }

  predicate NextPush(dpc: DaemonPc, k: nat) { dpc.Idle? || dpc == Pushing(k + 1, Exchange) }

  lemma StoreKeepsBus(v: Env, k: nat, b: Bus, latched: bool, next: DaemonPc)
    requires BusInv(v, k, b) && v.dpc == Pushing(k, Store(latched)) && NextPush(next, k)
    ensures BusInv(v.(dpc := next), k, Permitted(v, b, latched))
  {
    hide Known, AllZero, FreshAt, Before, OlderThan, Tagged;
  }

  lemma BasicIgnoresDaemon(v: Env, k: nat, b: Bus, dpc: DaemonPc)
    requires Basic(v, k, b)
    ensures Basic(v.(dpc := dpc), k, b)
  {
    hide Tagged, Known, AllZero;
  }

  /** A push in flight on another bus moves on. */
  lemma OtherPushKeepsBus(v: Env, k: nat, b: Bus, j: nat, dpc: DaemonPc)
    requires BusInv(v, k, b) && v.dpc.Pushing? && v.dpc.bus == j && k != j
    requires (dpc.Pushing? && dpc.bus == j && !dpc.stage.Exchange?) || (NextPush(dpc, j) && v.dpc.stage.Store?)
    requires dpc.Idle? ==> k < j
    ensures BusInv(v.(dpc := dpc), k, b)
  {
    hide Basic, FreshAt, Before, OlderThan;
    BasicIgnoresDaemon(v, k, b, dpc);
  }

  // ---------------------------------------------------------------- the readiness check

  /** Moves of the daemon that neither push nor decide anything. */
  lemma LocalKeepsBus(v: Env, k: nat, b: Bus, dpc: DaemonPc)
    requires BusInv(v, k, b) && !v.dpc.Pushing? && !dpc.Pushing?
    requires Checked(v.(dpc := dpc), k, b)
    ensures BusInv(v.(dpc := dpc), k, b)
  {
    hide Basic, FreshAt, Before, OlderThan, Checked;
    BasicIgnoresDaemon(v, k, b, dpc);
  }

  /** The first read found the bus operational, so the daemon has reached it. */
  lemma FirstReadChecks(v: Env, k: nat, b: Bus)
    requires BusInv(v, k, b) && v.dpc.Checking? && v.dpc.check.FirstState? && v.dpc.bus == k
    requires b.p.state == Operational
    ensures Checked(v.(dpc := v.dpc.(check := SecondState)), k, b)
  {
  }

  /** A published applied epoch means that the worker observed the epoch, so nothing older is in flight. */
  lemma AppliedReadChecks(v: Env, k: nat, b: Bus)
    requires BusInv(v, k, b) && v.dpc.Checking? && v.dpc.check.AppliedEpoch? && v.dpc.bus == k
    requires b.p.applied == v.epoch && v.epoch > 0
    ensures InStep(v, b) && v.epoch in b.acked
  {
  }

  // ---------------------------------------------------------------- the rest

  lemma EnqueueKeepsBus(v: Env, k: nat, b: Bus, c: Command)
    requires BusInv(v, k, b) && v.enabled && v.dpc == Queueing(c) && c.epoch == v.epoch
    ensures
      var v' := v.(dpc := Idle, history := v.history + {c});
      && (k != c.bus ==> BusInv(v', k, b))
      && (k == c.bus ==> BusInv(v', k, b.(p := b.p.(queue := b.p.queue + [c]))))
  {
    hide FreshAt, OlderThan, AllZero, Tagged, Before;
    var v' := v.(dpc := Idle, history := v.history + {c});
    if b.w.pc.Cycle? {
      var hi := if BeforeRecheck(b.w.pc.c) then b.p.epoch else b.w.observed;
      TaggedWiden(b.w.slots, v.history, v'.history, k, b.w.observed, hi, b.w.observed, hi);
    }
  }

  lemma ClearPermitKeepsBus(v: Env, k: nat, b: Bus)
    requires BusInv(v, k, b) && v.dpc.Idle? && !v.enabled
    ensures BusInv(v, k, b.(p := b.p.(permitted := false)))
  {
    hide Tagged, Known, AllZero, FreshAt, Before, OlderThan;
  }

  lemma StartKeepsBus(v: Env, k: nat, b: Bus)
    requires BusInv(v, k, b) && v.dpc.Idle? && b.w.pc.Down?
    ensures BusInv(v, k, Started(b, v.epoch))
  {
    hide Tagged, Known, AllZero, FreshAt, Before, OlderThan;
  }
}
