/**
 Runs of the output transition system together with the IO map of every worker.

 The map of a worker changes as the code changes it: zeroed in place, written by a command, thinned by
 the freshness pass, filled with zeros for a new topology, and overwritten outside its output ranges by
 whatever is received. On every such run the bits are what the slots say, so the theorems about sent
 images become theorems about sent bits.
 */
module OutputBits {
  import opened Bytes
  import opened PackedPdo
  import opened OutputModel
  import opened OutputInvariant
  import opened OutputImages
  import opened OutputWorkerSteps
  import opened OutputRuns
  import opened OutputTheorems

  datatype IoMap = IoMap(io: seq<byte>, layout: seq<Range>)

  ghost predicate Mirrors(m: IoMap, slots: seq<Slot>) {
    ValidLayout(m.layout, |m.io|) && Represents(m.io, m.layout, slots)
  }

  function ZeroedMap(m: IoMap): IoMap
    requires ValidLayout(m.layout, |m.io|)
  {
    m.(io := Zeroing(m.io, m.layout, Every(m.layout), |m.layout|))
  }

  /** Receiving process data overwrites inputs and leaves every output range. */
  ghost predicate Receives(m: IoMap, m': IoMap)
    requires ValidLayout(m.layout, |m.io|)
  {
    && m'.layout == m.layout && |m'.io| == |m.io|
    && forall i :: 0 <= i < |m.layout| ==>
         ReadImage(m'.io, m.layout[i].First(), m.layout[i].bits)
           == ReadImage(m.io, m.layout[i].First(), m.layout[i].bits)
  }

  /** A cleared map for the topology just found. */
  ghost predicate Remapped(m': IoMap, bits: seq<nat>) {
    && ValidLayout(m'.layout, |m'.io|) && m'.io == Zeros(|m'.io|) && |m'.layout| == |bits|
    && forall i :: 0 <= i < |bits| ==> m'.layout[i].bits == bits[i]
  }

  /** One stage of the cyclic loop before its transmission. */
  function StageMap(m: IoMap, b: Bus, c: CycleStage, latch: nat, timeout: nat): IoMap
    requires Fitted(m.io, m.layout, b.w.slots)
  {
    var (p, w) := (b.p, b.w);
    match c
    case ReadEpoch => if p.epoch != w.observed then ZeroedMap(m) else m
    case ApplyClock => if w.aPermit && !w.was then ZeroedMap(m) else m
    case ApplyPop => if p.queue == [] then m else m.(io := IoApplied(m.io, m.layout, w, p.queue[0], timeout))
    case FreshPermit =>
      if p.permitted then m.(io := Zeroing(m.io, m.layout, Stale(w.slots, w.fNow, timeout), |m.layout|)) else m
    case PermitGate => if w.barrier || !p.permitted then ZeroedMap(m) else m
    case Recheck => if p.epoch != w.observed then ZeroedMap(m) else m
    case RecheckPermit => if !p.permitted then ZeroedMap(m) else m
    case LatchCheck => if latch == w.observed then ZeroedMap(m) else m
    case _ => m
  }

  /** The step of a worker on a map of its topology. */
  ghost predicate MapFollows(m: IoMap, m': IoMap, b: Bus, latch: nat, timeout: nat, ch: Choice)
    requires Fitted(m.io, m.layout, b.w.slots)
  {
    match b.w.pc
    case Cycle(c) => if c.Transmit? then Receives(m, m') else m' == StageMap(m, b, c, latch, timeout)
    case Init(stage) =>
      if stage.Map? then Remapped(m', ch.bits)
      else if stage.Safe? then m' == ZeroedMap(m)
      // The exchange loop receives, then zeroes for its next frame.
      else if stage.Exchanging? then exists r :: Receives(m, r) && ValidLayout(r.layout, |r.io|) && m' == ZeroedMap(r)
      else m' == m
    case Unbind(_) => m' == ZeroedMap(m)
    case FaultPermit => m' == ZeroedMap(m)
    case _ => m' == m
  }

  // ---------------------------------------------------------------- one step

  lemma ZeroedMirrors(m: IoMap, slots: seq<Slot>)
    requires Mirrors(m, slots)
    ensures Mirrors(ZeroedMap(m), ZeroSlots(slots))
  {
    hide ValidLayout, Represents, Zeroing;
    ZeroRepresents(m.io, m.layout, slots);
  }

  lemma StampedMirrors(m: IoMap, slots: seq<Slot>, now: nat)
    requires Mirrors(m, slots)
    ensures Mirrors(m, Stamped(slots, now))
  {
    hide ValidLayout, Represents;
    StampRepresents(m.io, m.layout, slots, now);
  }

  lemma ReceivedMirrors(m: IoMap, m': IoMap, slots: seq<Slot>)
    requires Mirrors(m, slots) && Receives(m, m')
    ensures Mirrors(m', slots)
  {
    hide ReadImage, Disjoint;
  }

  lemma AllZeroIsZeroSlots(slots: seq<Slot>)
    requires AllZero(slots)
    ensures ZeroSlots(slots) == slots
  {
  }

  lemma RemappedMirrors(m': IoMap, bits: seq<nat>)
    requires Remapped(m', bits)
    ensures Mirrors(m', Mapped(bits))
  {
    hide Disjoint;
    forall i | 0 <= i < |bits|
      ensures ReadImage(m'.io, m'.layout[i].First(), m'.layout[i].bits) == Zeros(ImageByteLength(bits[i]))
    {
      ZerosReadZero(|m'.io|, m'.layout[i].First(), bits[i]);
    }
    hide ReadImage;
  }

  lemma ZerosReadZero(size: nat, first: nat, bits: nat)
    requires first + bits <= 8 * size
    ensures ReadImage(Zeros(size), first, bits) == Zeros(ImageByteLength(bits))
  {
    var (a, z) := (ReadImage(Zeros(size), first, bits), Zeros(ImageByteLength(bits)));
    forall j | 0 <= j < 8 * |a| ensures BitAt(a, j) == BitAt(z, j) {
      BitAtReadImage(Zeros(size), first, bits, j);
      BitOfZeros(ImageByteLength(bits), j);
      if j < bits {
        BitOfZeros(size, first + j);
      }
    }
    SameBitStrings(a, z);
  }

  lemma AppliedMirrors(m: IoMap, w: Worker, c: Command, timeout: nat)
    requires Mirrors(m, w.slots)
    ensures Mirrors(m.(io := IoApplied(m.io, m.layout, w, c, timeout)), Applied(w, c, timeout))
  {
    ApplyRepresents(m.io, m.layout, w, c, timeout);
    hide Represents, ValidLayout, Applied;
  }

  lemma RefreshedMirrors(m: IoMap, slots: seq<Slot>, now: nat, timeout: nat)
    requires Mirrors(m, slots)
    ensures
      var io := Zeroing(m.io, m.layout, Stale(slots, now, timeout), |m.layout|);
      Mirrors(m.(io := io), Refreshed(slots, now, timeout))
  {
    hide Represents, ValidLayout, Zeroing, Refreshed, Stale;
    RefreshRepresents(m.io, m.layout, slots, now, timeout);
  }

  lemma MirrorsFit(m: IoMap, slots: seq<Slot>)
    requires Mirrors(m, slots)
    ensures Fitted(m.io, m.layout, slots)
  {
  }

  lemma ApplyMirrors(m: IoMap, b: Bus, c: CycleStage, latch: nat, clock: nat, timeout: nat)
    requires Mirrors(m, b.w.slots) && (c.ReadEpoch? || c.ApplyEpoch? || c.ApplyPermit? || c.ApplyClock? || c.ApplyPop?)
    ensures Mirrors(StageMap(m, b, c, latch, timeout), ApplyStep(b, c, clock, timeout).w.slots)
  {
    hide Mirrors, Zeroing, Applied, ZeroSlots, Stamped, IoApplied, ZeroedMap;
    MirrorsFit(m, b.w.slots);
    match c {
      case ReadEpoch => ZeroedMirrors(m, b.w.slots);
      case ApplyClock =>
        ZeroedMirrors(m, b.w.slots);
        StampedMirrors(ZeroedMap(m), ZeroSlots(b.w.slots), clock);
      case ApplyPop =>
        if b.p.queue != [] {
          AppliedMirrors(m, b.w, b.p.queue[0], timeout);
        }
      case _ =>
    }
  }

  lemma GuardMirrors(m: IoMap, b: Bus, c: CycleStage, latch: nat, clock: nat, timeout: nat)
    requires Mirrors(m, b.w.slots)
    requires c.FreshClock? || c.FreshPermit? || c.PermitGate? || c.Recheck? || c.RecheckPermit? || c.LatchCheck?
    ensures Mirrors(StageMap(m, b, c, latch, timeout), GuardStep(b, c, latch, clock, timeout).w.slots)
  {
    hide Mirrors, Zeroing, Refreshed, ZeroSlots, Stale, ZeroedMap;
    MirrorsFit(m, b.w.slots);
    ZeroedMirrors(m, b.w.slots);
    if c.FreshPermit? {
      RefreshedMirrors(m, b.w.slots, b.w.fNow, timeout);
    }
  }

  lemma StageMirrors(m: IoMap, b: Bus, c: CycleStage, latch: nat, clock: nat, timeout: nat, ch: Choice)
    requires Mirrors(m, b.w.slots) && !c.Transmit?
    ensures Mirrors(StageMap(m, b, c, latch, timeout), CycleStep(b, c, latch, clock, timeout, ch).w.slots)
  {
    hide Mirrors, ApplyStep, GuardStep;
    MirrorsFit(m, b.w.slots);
    match c {
      case ReadEpoch | ApplyEpoch | ApplyPermit | ApplyClock | ApplyPop => ApplyMirrors(m, b, c, latch, clock, timeout);
      case FreshClock | FreshPermit | PermitGate | Recheck | RecheckPermit | LatchCheck =>
        GuardMirrors(m, b, c, latch, clock, timeout);
      case _ =>
    }
  }

  lemma InitMirrors(m: IoMap, m': IoMap, b: Bus, latch: nat, timeout: nat, stage: InitStage, ch: Choice)
    requires Mirrors(m, b.w.slots) && b.w.pc == Init(stage) && AllZero(b.w.slots)
    requires MapFollows(m, m', b, latch, timeout, ch)
    ensures Mirrors(m', InitStep(b, stage, ch).w.slots)
  {
    hide Represents, ValidLayout, Zeroing, Receives;
    ZeroedMirrors(m, b.w.slots);
    AllZeroIsZeroSlots(b.w.slots);
    if stage.Map? {
      RemappedMirrors(m', ch.bits);
    } else if stage.Exchanging? {
      var r :| Receives(m, r) && ValidLayout(r.layout, |r.io|) && m' == ZeroedMap(r);
      ReceivedMirrors(m, r, b.w.slots);
      ZeroedMirrors(r, b.w.slots);
    }
  }

  lemma OuterMirrors(m: IoMap, m': IoMap, b: Bus, latch: nat, timeout: nat, ch: Choice)
    requires Mirrors(m, b.w.slots) && !b.w.pc.Cycle? && !b.w.pc.Init? && !b.w.pc.Raise?
    requires MapFollows(m, m', b, latch, timeout, ch)
    ensures Mirrors(m', OuterStep(b, ch).w.slots)
  {
    hide Mirrors, Zeroing, ZeroSlots, Stamped, StageMap, Receives, Remapped;
    MirrorsFit(m, b.w.slots);
    ZeroedMirrors(m, b.w.slots);
    StampedMirrors(ZeroedMap(m), ZeroSlots(b.w.slots), 0);
    match b.w.pc {
      case Unbind(_) =>
      case FaultPermit =>
      case Outer =>
      case _ =>
    }
  }

  /** A worker step does to the bits what it does to the slots. */
  lemma StepMirrors(m: IoMap, m': IoMap, b: Bus, latch: nat, clock: nat, timeout: nat, ch: Choice)
    requires Mirrors(m, b.w.slots) && (b.w.pc.Init? ==> AllZero(b.w.slots)) && MapFollows(m, m', b, latch, timeout, ch)
    ensures Mirrors(m', WorkerStep(b, latch, clock, timeout, ch).w.slots)
  {
    hide Mirrors, StageMap, Receives, Remapped;
    match b.w.pc
    case Cycle(c) =>
      if c.Transmit? {
        ReceivedMirrors(m, m', b.w.slots);
      } else {
        StageMirrors(m, b, c, latch, clock, timeout, ch);
      }
    case Init(stage) => InitMirrors(m, m', b, latch, timeout, stage, ch);
    case Raise(_, _) =>
    case _ => OuterMirrors(m, m', b, latch, timeout, ch);
  }

  // ---------------------------------------------------------------- whole runs

  /** A run with the IO map of every bus in every state. */
  datatype BitRun = BitRun(run: Run, maps: seq<seq<IoMap>>)

  ghost predicate AllMirror(maps: seq<IoMap>, buses: seq<Bus>) {
    |maps| == |buses| && forall k :: 0 <= k < |buses| ==> Mirrors(maps[k], buses[k].w.slots)
  }

  /** The maps after a step: only the worker that steps touches its own. */
  ghost predicate MapsFollow(maps: seq<IoMap>, maps': seq<IoMap>, s: System, l: Label) {
    match l
    case Work(k, ch) =>
      && |maps'| == |maps|
      && (forall j :: 0 <= j < |maps| && j != k ==> maps'[j] == maps[j])
      && (k < |maps| && k < |s.buses| && Fitted(maps[k].io, maps[k].layout, s.buses[k].w.slots) ==>
            MapFollows(maps[k], maps'[k], s.buses[k], s.latch, s.timeout, ch))
    case Daemon(_) => maps' == maps
    case Tick(_) => maps' == maps
  }

  /** Workers start without a context, and every later map follows from the one before by the code. */
  ghost predicate IsBitRun(br: BitRun) {
    && IsRun(br.run) && |br.maps| == |br.run.states|
    && |br.maps[0]| == |br.run.states[0].buses| && (forall k :: 0 <= k < |br.maps[0]| ==> br.maps[0][k].layout == [])
    && forall i :: 0 <= i < |br.run.labels| ==>
         MapsFollow(br.maps[i], br.maps[i + 1], br.run.states[i], br.run.labels[i])
  }

  lemma DaemonKeepsSlots(s: System, l: Label)
    requires Enabled(s, l) && !l.Work?
    ensures |Next(s, l).buses| == |s.buses|
    ensures forall k :: 0 <= k < |s.buses| ==> Next(s, l).buses[k].w.slots == s.buses[k].w.slots
  {
    hide Leases.Step;
  }

  lemma NextMirrors(s: System, l: Label, maps: seq<IoMap>, maps': seq<IoMap>)
    requires Inv(s) && Enabled(s, l) && AllMirror(maps, s.buses) && MapsFollow(maps, maps', s, l)
    ensures AllMirror(maps', Next(s, l).buses)
  {
    hide WorkerStep, BusInv, LogOk, HistoryOk, EnabledOk, DaemonOk, Leases.Inv, ReadImage, ValidLayout, MapFollows;
    match l
    case Work(k, ch) =>
      InitIsZero(s, k);
      assert Mirrors(maps[k], s.buses[k].w.slots);
      StepMirrors(maps[k], maps'[k], s.buses[k], s.latch, s.clock, s.timeout, ch);
    case Daemon(_) => DaemonKeepsSlots(s, l);
    case Tick(_) =>
  }

  lemma InitIsZero(s: System, k: nat)
    requires Inv(s) && k < |s.buses|
    ensures s.buses[k].w.pc.Init? ==> AllZero(s.buses[k].w.slots)
  {
    assert BusInv(EnvOf(s), k, s.buses[k]);
  }

  lemma StartsMirrored(br: BitRun)
    requires IsBitRun(br)
    ensures AllMirror(br.maps[0], br.run.states[0].buses)
  {
    assert IsInitial(br.run.states[0]);
  }

  lemma BitStepAt(br: BitRun, i: nat)
    requires IsBitRun(br) && i < |br.run.labels|
    ensures |br.run.states| == |br.run.labels| + 1 == |br.maps|
    ensures
      var (s, l) := (br.run.states[i], br.run.labels[i]);
      Inv(s) && Enabled(s, l) && br.run.states[i + 1] == Next(s, l) && MapsFollow(br.maps[i], br.maps[i + 1], s, l)
  {
    RunHasInv(br.run, i);
    assert Follows(br.run, i);
  }

  /** On every run the bits of every IO map are what the slots say. */
  lemma {:induction false} BitsMirrorSlots(br: BitRun, n: nat)
    requires IsBitRun(br) && n < |br.run.states|
    ensures |br.maps| == |br.run.states| && Inv(br.run.states[n]) && AllMirror(br.maps[n], br.run.states[n].buses)
  {
    RunHasInv(br.run, n);
    if n == 0 {
      StartsMirrored(br);
    } else {
      BitsMirrorSlots(br, n - 1);
      BitStepAt(br, n - 1);
      hide AllMirror, Inv, Next, MapsFollow, IsBitRun;
      NextMirrors(br.run.states[n - 1], br.run.labels[n - 1], br.maps[n - 1], br.maps[n]);
    }
  }

  /**
   A set bit in the output range of a SubDevice, at the moment a frame leaves, is a bit of a command
   that was accepted for that SubDevice from the one client that ever held the lease of the epoch the
   worker read at its recheck, no longer than the output timeout before that cycle's freshness check.
   */
  lemma SentBitsAreAuthorized(br: BitRun, n: nat, k: nat, ch: Choice, i: nat, j: nat)
    requires IsBitRun(br) && n < |br.run.labels| && br.run.labels[n] == Work(k, ch)
    requires n < |br.run.states| == |br.maps| && k < |br.run.states[n].buses| == |br.maps[n]|
    requires Transmits(br.run.states[n].buses[k].w.pc, ch)
    requires
      var m := br.maps[n][k];
      && i < |m.layout| && j < m.layout[i].bits
      && m.layout[i].First() + j < 8 * |m.io| && BitAt(m.io, m.layout[i].First() + j)
    ensures
      var (s, w, slots) := (br.run.states[n], br.run.states[n].buses[k].w, br.run.states[n].buses[k].w.slots);
      && i < |slots| && slots[i].image.Written?
      && var c := slots[i].image.command;
         && c in s.history && c.bus == k && c.sub == i + 1 && c.epoch == w.observed
         && Leases.Grant(c.client, w.observed) in s.lease.grants
         && (forall g :: g in s.lease.grants && g.epoch == w.observed ==> g.client == c.client)
         && 0 < c.accepted <= w.fNow <= c.accepted + s.timeout
         && j < 8 * |c.data| && BitAt(c.data, j)
  {
    hide Inv, IsBitRun, BusInv, IsRun;
    var (s, m) := (br.run.states[n], br.maps[n][k]);
    BitsMirrorSlots(br, n);
    BitIsCommandBit(m.io, m.layout, s.buses[k].w.slots, i, j);
    SentIsAuthorized(s, k, ch, i);
  }

  lemma SentIsAuthorized(s: System, k: nat, ch: Choice, i: nat)
    requires Inv(s) && k < |s.buses| && Transmits(s.buses[k].w.pc, ch)
    requires i < |s.buses[k].w.slots| && s.buses[k].w.slots[i].image.Written?
    ensures
      var (w, c) := (s.buses[k].w, s.buses[k].w.slots[i].image.command);
      && c in s.history && c.bus == k && c.sub == i + 1 && c.epoch == w.observed
      && Leases.Grant(c.client, w.observed) in s.lease.grants
      && (forall g :: g in s.lease.grants && g.epoch == w.observed ==> g.client == c.client)
      && 0 < c.accepted <= w.fNow <= c.accepted + s.timeout
  {
    assert BusInv(EnvOf(s), k, s.buses[k]);
    hide BusInv;
    SentIsLegal(EnvOf(s), k, s.buses[k], ch);
    GrantIsUnique(s.lease);
  }
}
