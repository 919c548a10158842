/**
 The Java client's session: generations, the disable barrier and the command queue.

 Application threads and the socket worker meet in one atomic reference to an immutable view. Each
 read, compare-and-set and store of that reference is one step here; `stamp` counts the stores, so a
 compare-and-set succeeds exactly when nothing has been stored since its read.
 */
module JavaSession {

  datatype Kind = Enable | Disable | Write | Release | Generic | Heartbeat

  /** What a view of the session says. */
  datatype View = View(
    generation: nat, ready: bool, controller: bool, epoch: nat, outputsEnabled: bool, barrier: bool)
  {
    predicate ControllerReady() { ready && controller }

    /** The public outputsEnabled(). */
    predicate ReportsEnabled() { ready && controller && outputsEnabled && !barrier }
  }

  function Disconnected(generation: nat): View { View(generation, false, false, 0, false, true) }

  function Handshaking(generation: nat): View { View(generation, false, false, 0, false, true) }

  /** `late` records that the barrier of its generation had already risen when the command was captured. */
  datatype Command = Command(id: nat, generation: nat, epoch: nat, kind: Kind, late: bool)

  datatype Caller =
    | Idle
    | Raising(kind: Kind, seen: View, stamp: nat)
    | Holding(command: Command)

  datatype WorkerPc =
    | Resting
    | Connecting
    | Serving
    | Polled(command: Command)
    | Updating(enabled: bool, epoch: nat)
    | Swapping(enabled: bool, epoch: nat, seen: View, stamp: nat)
    | Ending
    | Invalidating(seen: View, stamp: nat)

  datatype Hello = Hello(epoch: nat, controller: bool, outputsEnabled: bool)

  datatype Frame = Frame(generation: nat, command: Command)

  /**
   `greeted` holds the HELLO_ACK of every generation that completed its handshake, `barred` the
   generations whose barrier a disable or release has raised, `confirmed` those in which the daemon has
   acknowledged an enable, and `sent` every command frame handed to a transport.
   */
  datatype System = System(
    view: View, stamp: nat, generation: nat, pc: WorkerPc, greeted: map<nat, Hello>,
    pending: seq<Command>, queue: seq<Command>, callers: seq<Caller>, nextId: nat,
    barred: set<nat>, confirmed: set<nat>, sent: seq<Frame>)
  {
    predicate HandshakeComplete() { generation in greeted }
  }

  /** Discard is any poll that fails the command: close() and the worker's own draining between generations. */
  datatype Label =
    | Capture(c: nat, kind: Kind)
    | Raise(c: nat)
    | Offer(c: nat)
    | Abandon(c: nat)
    | Discard
    | Begin
    | Connected
    | Greeted(hello: Hello)
    | Poll
    | Decide(roomForFrame: bool, cancelled: bool)
    | Beat
    | Acknowledged(i: nat, ok: bool)
    | OutputsDisabled
    | ReadUpdate
    | SwapUpdate
    | Fail
    | ReadInvalidate
    | SwapInvalidate

  // ---------------------------------------------------------------- application threads

  /** The command built from a captured view. */
  function Captured(s: System, kind: Kind, v: View): Command {
    Command(s.nextId, v.generation, v.epoch, kind, v.generation in s.barred)
  }

  /** Whether the captured view lets the caller go on. */
  predicate Admits(v: View, kind: Kind) {
    match kind
    case Enable => v.ControllerReady() && !v.barrier
    case Disable => v.ControllerReady() && !v.barrier
    case Release => v.ControllerReady() && !v.barrier
    case Write => v.ControllerReady() && v.outputsEnabled && !v.barrier
    case Generic => v.ready
    case Heartbeat => false
  }

  function CaptureStep(s: System, c: nat, kind: Kind): System
    requires c < |s.callers|
  {
    if s.callers[c] != Idle || !Admits(s.view, kind) then s
    else if kind == Disable || kind == Release then s.(callers := s.callers[c := Raising(kind, s.view, s.stamp)])
    else s.(callers := s.callers[c := Holding(Captured(s, kind, s.view))], nextId := s.nextId + 1)
  }

  /** The compare-and-set of the barrier; on failure the caller starts over. */
  function RaiseStep(s: System, c: nat): System
    requires c < |s.callers|
  {
    match s.callers[c]
    case Raising(kind, seen, stamp) =>
      if stamp != s.stamp then s.(callers := s.callers[c := Idle])
      else
        var barred := seen.(barrier := true);
        s.(view := barred, stamp := s.stamp + 1, barred := s.barred + {seen.generation},
           callers := s.callers[c := Holding(Captured(s, kind, barred))], nextId := s.nextId + 1)
    case Idle => s
    case Holding(_) => s
  }

  function OfferStep(s: System, c: nat): System
    requires c < |s.callers|
  {
    match s.callers[c]
    case Holding(command) => s.(queue := s.queue + [command], callers := s.callers[c := Idle])
    case Idle => s
    case Raising(_, _, _) => s
  }

  // ---------------------------------------------------------------- the worker

  function DecideStep(s: System, command: Command, room: bool, cancelled: bool): System {
    var t := s.(pc := Serving);
    if !s.HandshakeComplete() || !s.view.ready || command.generation != s.generation
       || command.generation != s.view.generation || command.epoch != s.view.epoch || cancelled || !room then t
    else t.(pending := s.pending + [command], sent := s.sent + [Frame(s.generation, command)])
  }

  function BeatStep(s: System): System {
    if !s.HandshakeComplete() || !s.view.ControllerReady() || s.view.generation != s.generation then s
    else
      var beat := Command(s.nextId, s.generation, s.view.epoch, Heartbeat, false);
      s.(pending := s.pending + [beat], sent := s.sent + [Frame(s.generation, beat)], nextId := s.nextId + 1)
  }

  function Without<T>(xs: seq<T>, i: nat): seq<T>
    requires i < |xs|
  {
    xs[..i] + xs[i + 1..]
  }

  function AcknowledgedStep(s: System, i: nat, ok: bool): System
    requires i < |s.pending|
  {
    var p := s.pending[i];
    var t := s.(pending := Without(s.pending, i));
    if p.generation != s.generation || p.epoch != s.view.epoch then t
    else if ok && p.kind == Enable then t.(pc := Updating(true, p.epoch), confirmed := s.confirmed + {s.generation})
    else if ok && (p.kind == Disable || p.kind == Release) then t.(pc := Updating(false, p.epoch))
    else t
  }

  function ReadUpdateStep(s: System, enabled: bool, epoch: nat): System {
    if s.view.generation != s.generation || s.view.epoch != epoch then s.(pc := Serving)
    else s.(pc := Swapping(enabled, epoch, s.view, s.stamp))
  }

  function SwapUpdateStep(s: System, enabled: bool, epoch: nat, seen: View, stamp: nat): System {
    if stamp != s.stamp then s.(pc := Updating(enabled, epoch))
    else s.(view := seen.(outputsEnabled := enabled), stamp := s.stamp + 1, pc := Serving)
  }

  function SwapInvalidateStep(s: System, seen: View, stamp: nat): System {
    if stamp != s.stamp then s.(pc := Ending)
    else s.(view := Disconnected(s.generation), stamp := s.stamp + 1, pc := Resting)
  }

  // ---------------------------------------------------------------- one step of anyone

  predicate Enabled(s: System, l: Label) {
    match l
    case Capture(c, _) => c < |s.callers|
    case Raise(c) => c < |s.callers|
    case Offer(c) => c < |s.callers|
    case Abandon(c) => c < |s.callers| && s.callers[c].Holding?
    case Discard => s.queue != []
    case Begin => s.pc == Resting
    case Connected => s.pc == Connecting
    case Greeted(hello) => s.pc == Serving && !s.HandshakeComplete() && !(hello.controller && hello.outputsEnabled)
    case Poll => s.pc == Serving && s.queue != []
    case Decide(_, _) => s.pc.Polled?
    case Beat => s.pc == Serving
    case Acknowledged(i, _) => s.pc == Serving && s.HandshakeComplete() && i < |s.pending|
    case OutputsDisabled => s.pc == Serving && s.HandshakeComplete()
    case ReadUpdate => s.pc.Updating?
    case SwapUpdate => s.pc.Swapping?
    case Fail => !s.pc.Resting? && !s.pc.Ending? && !s.pc.Invalidating?
    case ReadInvalidate => s.pc == Ending
    case SwapInvalidate => s.pc.Invalidating?
  }

  function Next(s: System, l: Label): System
    requires Enabled(s, l)
  {
    match l
    case Capture(c, kind) => CaptureStep(s, c, kind)
    case Raise(c) => RaiseStep(s, c)
    case Offer(c) => OfferStep(s, c)
    case Abandon(c) => s.(callers := s.callers[c := Idle])
    case Discard => s.(queue := s.queue[1..])
    case Begin => s.(generation := s.generation + 1, pc := Connecting, pending := [])
    case Connected => s.(view := Handshaking(s.generation), stamp := s.stamp + 1, pc := Serving)
    case Greeted(hello) =>
      s.(greeted := s.greeted[s.generation := hello], stamp := s.stamp + 1,
         view := View(s.generation, true, hello.controller, hello.epoch,
                      !hello.controller && hello.outputsEnabled, false))
    case Poll => s.(pc := Polled(s.queue[0]), queue := s.queue[1..])
    case Decide(room, cancelled) => DecideStep(s, s.pc.command, room, cancelled)
    case Beat => BeatStep(s)
    case Acknowledged(i, ok) => AcknowledgedStep(s, i, ok)
    case OutputsDisabled => s.(pc := Updating(false, s.view.epoch))
    case ReadUpdate => ReadUpdateStep(s, s.pc.enabled, s.pc.epoch)
    case SwapUpdate => SwapUpdateStep(s, s.pc.enabled, s.pc.epoch, s.pc.seen, s.pc.stamp)
    case Fail => s.(pc := Ending, pending := [])
    case ReadInvalidate => s.(pc := Invalidating(s.view, s.stamp))
    case SwapInvalidate => SwapInvalidateStep(s, s.pc.seen, s.pc.stamp)
  }

  function Initial(callers: nat): System {
    System(Disconnected(0), 0, 0, Resting, map[], [], [], seq(callers, i => Idle), 0, {}, {}, [])
  }

  // ---------------------------------------------------------------- what every step keeps

  /**
   The command was captured in a generation that had said hello, and carries the epoch of that hello.
   Control commands were captured as its controller, an enable or write before the barrier rose, a
   write after the daemon had acknowledged an enable.
   */
  predicate Tagged(greeted: map<nat, Hello>, confirmed: set<nat>, k: Command) {
    && k.generation in greeted && k.epoch == greeted[k.generation].epoch
    && (k.kind != Generic ==> greeted[k.generation].controller)
    && (k.kind == Enable || k.kind == Write ==> !k.late)
    && (k.kind == Write ==> k.generation in confirmed)
  }

  predicate AllTagged(greeted: map<nat, Hello>, confirmed: set<nat>, ks: seq<Command>) {
    forall i :: 0 <= i < |ks| ==> Tagged(greeted, confirmed, ks[i])
  }

  predicate CallerOk(s: System, c: Caller) {
    match c
    case Idle => true
    case Raising(kind, seen, stamp) =>
      && (kind == Disable || kind == Release) && seen.ControllerReady() && !seen.barrier && seen.generation in s.greeted
      && seen.epoch == s.greeted[seen.generation].epoch && s.greeted[seen.generation].controller
      && stamp <= s.stamp && (stamp == s.stamp ==> seen == s.view)
    case Holding(command) => Tagged(s.greeted, s.confirmed, command)
  }

  predicate CallersOk(s: System) {
    forall c :: 0 <= c < |s.callers| ==> CallerOk(s, s.callers[c])
  }

  predicate SentOk(greeted: map<nat, Hello>, confirmed: set<nat>, sent: seq<Frame>) {
    forall i :: 0 <= i < |sent| ==>
      sent[i].generation == sent[i].command.generation && Tagged(greeted, confirmed, sent[i].command)
  }

  predicate GenerationsOk(s: System) {
    && (forall g :: g in s.greeted ==> g <= s.generation)
    && (forall g :: g in s.barred ==> g in s.greeted)
  }

  /** What the shared view may say. */
  predicate ViewOk(s: System) {
    && s.view.generation <= s.generation
    && (s.view.ready ==>
          && s.view.generation == s.generation && s.HandshakeComplete()
          && s.view.epoch == s.greeted[s.generation].epoch && s.view.controller == s.greeted[s.generation].controller)
    && (s.view.generation in s.barred ==> s.view.barrier)
    && (s.view.ControllerReady() && s.view.outputsEnabled ==> s.generation in s.confirmed)
  }

  predicate WorkerOk(s: System) {
    match s.pc
    case Resting => !s.view.ready
    case Connecting => !s.view.ready && !s.HandshakeComplete()
    case Serving => true
    case Polled(command) => Tagged(s.greeted, s.confirmed, command)
    case Updating(enabled, _) => enabled ==> s.generation in s.confirmed
    case Swapping(enabled, _, seen, stamp) =>
      (enabled ==> s.generation in s.confirmed) && stamp <= s.stamp && (stamp == s.stamp ==> seen == s.view)
    case Ending => true
    case Invalidating(_, stamp) => stamp <= s.stamp
  }

  predicate Inv(s: System) {
    && GenerationsOk(s) && ViewOk(s) && WorkerOk(s) && CallersOk(s)
    && AllTagged(s.greeted, s.confirmed, s.queue) && SentOk(s.greeted, s.confirmed, s.sent)
  }

  /** A new generation leaves the tags of older commands alone. */
  lemma TaggedStays(greeted: map<nat, Hello>, confirmed: set<nat>, g: nat, hello: Hello, ks: seq<Command>)
    requires g !in greeted && AllTagged(greeted, confirmed, ks)
    ensures AllTagged(greeted[g := hello], confirmed, ks)
  {
  }

  /** Neither does an acknowledged enable. */
  lemma ConfirmedStays(s: System, g: nat)
    requires AllTagged(s.greeted, s.confirmed, s.queue) && SentOk(s.greeted, s.confirmed, s.sent)
    ensures AllTagged(s.greeted, s.confirmed + {g}, s.queue) && SentOk(s.greeted, s.confirmed + {g}, s.sent)
  {
  }

  lemma CaptureKeepsInv(s: System, c: nat, kind: Kind)
    requires Inv(s) && c < |s.callers|
    ensures Inv(CaptureStep(s, c, kind))
  {
    hide AllTagged, SentOk;
    var t := CaptureStep(s, c, kind);
    forall i | 0 <= i < |t.callers| ensures CallerOk(t, t.callers[i]) {
      assert CallerOk(s, s.callers[i]);
    }
  }

  lemma RaiseKeepsInv(s: System, c: nat)
    requires Inv(s) && c < |s.callers|
    ensures Inv(RaiseStep(s, c))
  {
    hide AllTagged, SentOk;
    var t := RaiseStep(s, c);
    assert CallerOk(s, s.callers[c]);
    forall i | 0 <= i < |t.callers| ensures CallerOk(t, t.callers[i]) {
      assert CallerOk(s, s.callers[i]);
    }
  }

  lemma OfferKeepsInv(s: System, c: nat)
    requires Inv(s) && c < |s.callers|
    ensures Inv(OfferStep(s, c)) && Inv(s.(callers := s.callers[c := Idle]))
  {
    hide SentOk, GenerationsOk, ViewOk, WorkerOk;
    var (t, u) := (OfferStep(s, c), s.(callers := s.callers[c := Idle]));
    assert CallerOk(s, s.callers[c]);
    forall i | 0 <= i < |s.callers| ensures CallerOk(t, t.callers[i]) && CallerOk(u, u.callers[i]) {
      assert CallerOk(s, s.callers[i]);
    }
    KeptParts(s, t);
    KeptParts(s, u);
  }

  /** What does not depend on callers or queue. */
  lemma KeptParts(s: System, t: System)
    requires GenerationsOk(s) && ViewOk(s) && WorkerOk(s)
    requires t == s.(callers := t.callers, queue := t.queue)
    ensures GenerationsOk(t) && ViewOk(t) && WorkerOk(t)
  {
  }

  /** Callers only look at the view, its stamp and the greetings. */
  lemma CallersKept(s: System, t: System)
    requires CallersOk(s) && t.callers == s.callers && t.greeted == s.greeted && s.confirmed <= t.confirmed
    requires s.stamp <= t.stamp && (t.stamp == s.stamp ==> t.view == s.view)
    ensures CallersOk(t)
  {
    forall i | 0 <= i < |t.callers| ensures CallerOk(t, t.callers[i]) {
      assert CallerOk(s, s.callers[i]);
    }
  }

  lemma GreetedKeepsInv(s: System, hello: Hello)
    requires Inv(s) && Enabled(s, Greeted(hello))
    ensures Inv(Next(s, Greeted(hello)))
  {
    var t := Next(s, Greeted(hello));
    TaggedStays(s.greeted, s.confirmed, s.generation, hello, s.queue);
    hide AllTagged;
    forall i | 0 <= i < |t.callers| ensures CallerOk(t, t.callers[i]) {
      assert CallerOk(s, s.callers[i]);
    }
  }

  lemma WorkerKeepsInv(s: System, l: Label)
    requires Inv(s) && Enabled(s, l)
    requires l.Begin? || l.Connected? || l.OutputsDisabled? || l.ReadUpdate? || l.SwapUpdate? || l.Fail?
             || l.ReadInvalidate? || l.SwapInvalidate? || l.Acknowledged? || l.Beat?
    ensures Inv(Next(s, l))
  {
    CallersKept(s, Next(s, l));
    ConfirmedStays(s, s.generation);
    hide CallersOk, AllTagged;
    match l {
      case Begin =>
      case Connected =>
      case Beat =>
      case Acknowledged(i, ok) =>
      case SwapUpdate =>
      case ReadUpdate =>
      case SwapInvalidate =>
      case _ =>
    }
  }

  lemma QueueKeepsInv(s: System, l: Label)
    requires Inv(s) && Enabled(s, l) && (l.Discard? || l.Poll? || l.Decide?)
    ensures Inv(Next(s, l))
  {
    CallersKept(s, Next(s, l));
    hide CallersOk;
    match l {
      case Discard =>
      case Poll => assert Tagged(s.greeted, s.confirmed, s.queue[0]);
      case Decide(room, cancelled) =>
      case _ =>
    }
  }

  lemma NextKeepsInv(s: System, l: Label)
    requires Inv(s) && Enabled(s, l)
    ensures Inv(Next(s, l))
  {
    hide Inv, CaptureStep, RaiseStep, OfferStep;
    match l {
      case Capture(c, kind) => CaptureKeepsInv(s, c, kind);
      case Raise(c) => RaiseKeepsInv(s, c);
      case Offer(c) => OfferKeepsInv(s, c);
      case Abandon(c) => OfferKeepsInv(s, c);
      case Greeted(hello) => GreetedKeepsInv(s, hello);
      case Discard => QueueKeepsInv(s, l);
      case Poll => QueueKeepsInv(s, l);
      case Decide(_, _) => QueueKeepsInv(s, l);
      case _ => WorkerKeepsInv(s, l);
    }
  }

  // ---------------------------------------------------------------- at most once

  function PolledPart(pc: WorkerPc): seq<Command> {
    if pc.Polled? then [pc.command] else []
  }

  /** Only user commands; heartbeats are made by the worker itself. */
  function Trail(s: System): seq<Command> {
    Sent(s.sent) + PolledPart(s.pc) + s.queue
  }

  function Sent(frames: seq<Frame>): (r: seq<Command>)
    ensures |r| == |frames|
  {
    seq(|frames|, i requires 0 <= i < |frames| => frames[i].command)
  }

  predicate DistinctIds(ks: seq<Command>) {
    forall i, j :: 0 <= i < j < |ks| ==> ks[i].id != ks[j].id
  }

  predicate Below(ks: seq<Command>, id: nat) {
    forall i :: 0 <= i < |ks| ==> ks[i].id < id
  }

  predicate Absent(ks: seq<Command>, id: nat) {
    forall i :: 0 <= i < |ks| ==> ks[i].id != id
  }

  predicate HeldOnce(callers: seq<Caller>, trail: seq<Command>, nextId: nat) {
    && (forall c :: 0 <= c < |callers| && callers[c].Holding? ==>
          callers[c].command.id < nextId && Absent(trail, callers[c].command.id))
    && (forall c, d :: 0 <= c < d < |callers| && callers[c].Holding? && callers[d].Holding? ==>
          callers[c].command.id != callers[d].command.id)
  }

  /** Every command is in one place: held by a caller, queued, polled or sent. */
  predicate Once(s: System) {
    DistinctIds(Trail(s)) && Below(Trail(s), s.nextId) && HeldOnce(s.callers, Trail(s), s.nextId)
  }

  /** The trail of `t` is that of `s` with some commands gone. */
  ghost predicate Thinned(xs: seq<Command>, ys: seq<Command>) {
    exists from, to :: 0 <= from <= to <= |ys| && xs == ys[..from] + ys[to..]
  }

  lemma ThinnedKeepsOnce(s: System, t: System)
    requires Once(s) && Thinned(Trail(t), Trail(s)) && t.callers == s.callers && t.nextId == s.nextId
    ensures Once(t)
  {
    var from, to :| 0 <= from <= to <= |Trail(s)| && Trail(t) == Trail(s)[..from] + Trail(s)[to..];
    hide Trail;
    forall i | 0 <= i < |Trail(t)| ensures Trail(t)[i] == Trail(s)[if i < from then i else i + to - from] {
    }
  }

  lemma CallerKeepsOnce(s: System, l: Label)
    requires Once(s) && Enabled(s, l) && (l.Capture? || l.Raise? || l.Abandon?)
    ensures Once(Next(s, l))
  {
    assert Trail(Next(s, l)) == Trail(s);
    hide Trail;
  }

  lemma OfferKeepsOnce(s: System, c: nat)
    requires Once(s) && c < |s.callers|
    ensures Once(OfferStep(s, c))
  {
    if s.callers[c].Holding? {
      assert Trail(OfferStep(s, c)) == Trail(s) + [s.callers[c].command];
    }
    hide Trail;
  }

  lemma BeatKeepsOnce(s: System)
    requires Once(s) && s.pc == Serving
    ensures Once(BeatStep(s))
  {
    var t := BeatStep(s);
    if t != s {
      var beat := Command(s.nextId, s.generation, s.view.epoch, Heartbeat, false);
      assert Sent(t.sent) == Sent(s.sent) + [beat];
      assert Trail(t) == Sent(s.sent) + [beat] + s.queue && Trail(s) == Sent(s.sent) + s.queue;
      hide Trail;
      InsertKeepsOnce(s, t, Sent(s.sent), beat, s.queue);
    }
  }

  lemma InsertKeepsOnce(s: System, t: System, xs: seq<Command>, k: Command, ys: seq<Command>)
    requires Once(s) && Trail(s) == xs + ys && Trail(t) == xs + [k] + ys
    requires k.id == s.nextId && t.nextId == s.nextId + 1 && t.callers == s.callers
    ensures Once(t)
  {
    hide Trail;
    forall i | 0 <= i < |Trail(t)| && i != |xs|
      ensures Trail(t)[i] == Trail(s)[if i < |xs| then i else i - 1]
    {
    }
  }

  lemma DecideKeepsOnce(s: System, room: bool, cancelled: bool)
    requires Once(s) && s.pc.Polled?
    ensures Once(DecideStep(s, s.pc.command, room, cancelled))
  {
    var t := DecideStep(s, s.pc.command, room, cancelled);
    if t.sent == s.sent {
      var n := |s.sent|;
      assert Trail(t) == Trail(s)[..n] + Trail(s)[n + 1..];
    } else {
      assert Sent(t.sent) == Sent(s.sent) + [s.pc.command];
      assert Trail(t) == Trail(s)[..0] + Trail(s)[0..];
    }
    ThinnedKeepsOnce(s, t);
  }

  lemma DiscardKeepsOnce(s: System)
    requires Once(s) && s.queue != []
    ensures Once(s.(queue := s.queue[1..]))
  {
    hide Once;
    var t := s.(queue := s.queue[1..]);
    var n := |Sent(s.sent) + PolledPart(s.pc)|;
    assert Trail(t) == Trail(s)[..n] + Trail(s)[n + 1..];
    ThinnedKeepsOnce(s, t);
  }

  lemma PollKeepsOnce(s: System)
    requires Once(s) && s.queue != [] && s.pc == Serving
    ensures Once(s.(pc := Polled(s.queue[0]), queue := s.queue[1..]))
  {
    hide Once;
    var t := s.(pc := Polled(s.queue[0]), queue := s.queue[1..]);
    assert Trail(t) == Trail(s)[..0] + Trail(s)[0..];
    ThinnedKeepsOnce(s, t);
  }

  lemma FailKeepsOnce(s: System, t: System)
    requires Once(s) && t.sent == s.sent && t.queue == s.queue && t.callers == s.callers && t.nextId == s.nextId
    requires !t.pc.Polled?
    ensures Once(t)
  {
    hide Once;
    var n := |s.sent|;
    assert Trail(t) == Trail(s)[..n] + Trail(s)[n + |PolledPart(s.pc)|..];
    ThinnedKeepsOnce(s, t);
  }

  lemma NextKeepsOnce(s: System, l: Label)
    requires Once(s) && Enabled(s, l)
    ensures Once(Next(s, l))
  {
    hide Once;
    match l {
      case Capture(c, kind) => CallerKeepsOnce(s, l);
      case Raise(c) => CallerKeepsOnce(s, l);
      case Abandon(c) => CallerKeepsOnce(s, l);
      case Offer(c) => OfferKeepsOnce(s, c);
      case Beat => BeatKeepsOnce(s);
      case Decide(room, cancelled) => DecideKeepsOnce(s, room, cancelled);
      case Discard => DiscardKeepsOnce(s);
      case Poll => PollKeepsOnce(s);
      case _ => FailKeepsOnce(s, Next(s, l));
    }
  }

  // ---------------------------------------------------------------- whole runs

  datatype Run = Run(states: seq<System>, labels: seq<Label>)

  ghost predicate Follows(r: Run, i: nat)
    requires i < |r.labels| && |r.states| == |r.labels| + 1
  {
    Enabled(r.states[i], r.labels[i]) && r.states[i + 1] == Next(r.states[i], r.labels[i])
  }

  ghost predicate IsRun(r: Run) {
    && |r.states| == |r.labels| + 1 && r.states[0] == Initial(|r.states[0].callers|)
    && forall i :: 0 <= i < |r.labels| ==> Follows(r, i)
  }

  lemma {:induction false} RunHasInv(r: Run, i: nat)
    requires IsRun(r) && i < |r.states|
    ensures Inv(r.states[i]) && Once(r.states[i])
  {
    if i > 0 {
      RunHasInv(r, i - 1);
      assert Follows(r, i - 1);
      NextKeepsInv(r.states[i - 1], r.labels[i - 1]);
      NextKeepsOnce(r.states[i - 1], r.labels[i - 1]);
    }
  }

  /**
   Every command frame sent in a transport generation was captured in that generation and carries the
   epoch of its HELLO; control commands only where that HELLO granted control, an enable or a write
   only from before the barrier rose, a write only from after an acknowledged enable; and no command is
   ever sent twice, in the same or in another generation.
   */
  lemma SentCommandsAreCurrent(r: Run, n: nat, i: nat)
    requires IsRun(r) && n < |r.states| && i < |r.states[n].sent|
    ensures
      var (s, f) := (r.states[n], r.states[n].sent[i]);
      && f.command.generation == f.generation && f.generation in s.greeted
      && f.command.epoch == s.greeted[f.generation].epoch
      && (f.command.kind != Generic ==> s.greeted[f.generation].controller)
      && (f.command.kind == Enable || f.command.kind == Write ==> !f.command.late)
      && (f.command.kind == Write ==> f.generation in s.confirmed)
    ensures forall j :: 0 <= j < |r.states[n].sent| && j != i ==>
      r.states[n].sent[j].command.id != r.states[n].sent[i].command.id
  {
    RunHasInv(r, n);
    var s := r.states[n];
    assert Tagged(s.greeted, s.confirmed, s.sent[i].command);
    forall j | 0 <= j < |s.sent| ensures Trail(s)[j] == s.sent[j].command {
    }
    forall j | 0 <= j < |s.sent| && j != i ensures s.sent[j].command.id != s.sent[i].command.id {
      assert Trail(s)[j] == s.sent[j].command && Trail(s)[i] == s.sent[i].command;
    }
  }

  lemma {:induction false} BarredStays(r: Run, m: nat, n: nat, g: nat)
    requires IsRun(r) && m <= n < |r.states| && g in r.states[m].barred
    ensures g in r.states[n].barred
  {
    if m < n {
      BarredStays(r, m, n - 1, g);
      assert Follows(r, n - 1);
    }
  }

  /**
   Once a disable or release has raised the barrier of a generation it never falls, and outputs are
   never reported enabled in it again.
   */
  lemma BarrierIsFinal(r: Run, m: nat, n: nat)
    requires IsRun(r) && m <= n < |r.states| && r.states[m].view.generation in r.states[m].barred
    ensures r.states[n].view.generation == r.states[m].view.generation ==>
      r.states[n].view.barrier && !r.states[n].view.ReportsEnabled()
  {
    BarredStays(r, m, n, r.states[m].view.generation);
    RunHasInv(r, n);
  }

  /**
   Outputs are reported enabled only in the live generation, after the daemon acknowledged an enable in
   it and before any disable.
   */
  lemma EnabledHasCause(r: Run, n: nat)
    requires IsRun(r) && n < |r.states| && r.states[n].view.ReportsEnabled()
    ensures
      var s := r.states[n];
      s.view.generation == s.generation && s.generation in s.confirmed && s.generation !in s.barred
  {
    RunHasInv(r, n);
  }

  /** Whoever wins the compare-and-set of the barrier is the first and only one in its generation. */
  lemma BarrierRisesOnce(r: Run, n: nat, c: nat)
    requires IsRun(r) && n < |r.labels| && r.labels[n] == Raise(c) && r.states[n + 1].view != r.states[n].view
    ensures
      var (s, t) := (r.states[n], r.states[n + 1]);
      s.view.generation !in s.barred && t.view.generation in t.barred && t.view == s.view.(barrier := true)
  {
    RunHasInv(r, n);
    assert Follows(r, n);
    assert CallerOk(r.states[n], r.states[n].callers[c]);
  }
}

/** The slots that bound the outstanding command futures. */
module JavaFutures {

  /**
   `holding` counts threads between taking a slot and creating their future, `owed` threads between
   winning the retirement of a future and releasing its slot.
   */
  datatype Slots = Slots(permits: nat, holding: nat, retired: seq<bool>, owed: nat)

  /** Retire is every completion, cancellation clean-up or rejection of future `f`, by any thread. */
  datatype Step = TryAcquire | Create | Retire(f: nat) | Give

  function Next(s: Slots, step: Step): Slots {
    match step
    case TryAcquire => if s.permits == 0 then s else s.(permits := s.permits - 1, holding := s.holding + 1)
    case Create => if s.holding == 0 then s else s.(holding := s.holding - 1, retired := s.retired + [false])
    case Retire(f) =>
      if f >= |s.retired| || s.retired[f] then s else s.(retired := s.retired[f := true], owed := s.owed + 1)
    case Give => if s.owed == 0 then s else s.(owed := s.owed - 1, permits := s.permits + 1)
  }

  function Exec(s: Slots, steps: seq<Step>): Slots
    decreases |steps|
  {
    if steps == [] then s else Next(Exec(s, steps[..|steps| - 1]), steps[|steps| - 1])
  }

  function Unretired(retired: seq<bool>): nat {
    if retired == [] then 0 else Unretired(retired[..|retired| - 1]) + if retired[|retired| - 1] then 0 else 1
  }

  lemma {:induction false} RetiringOne(retired: seq<bool>, f: nat)
    requires f < |retired| && !retired[f]
    ensures Unretired(retired[f := true]) == Unretired(retired) - 1
  {
    var n := |retired| - 1;
    if f < n {
      RetiringOne(retired[..n], f);
      assert retired[f := true][..n] == retired[..n][f := true];
    } else {
      assert retired[f := true][..n] == retired[..n];
    }
  }

  /** However often and by however many threads futures are retired, no slot is lost and none is made. */
  lemma {:induction false} SlotsAreConserved(total: nat, steps: seq<Step>)
    ensures
      var s := Exec(Slots(total, 0, [], 0), steps);
      s.permits + s.holding + Unretired(s.retired) + s.owed == total
    decreases |steps|
  {
    if steps != [] {
      SlotsAreConserved(total, steps[..|steps| - 1]);
      var s := Exec(Slots(total, 0, [], 0), steps[..|steps| - 1]);
      match steps[|steps| - 1] {
        case Create => assert (s.retired + [false])[..|s.retired|] == s.retired;
        case Retire(f) =>
          if f < |s.retired| && !s.retired[f] {
            RetiringOne(s.retired, f);
          }
        case _ =>
      }
    }
  }
}
