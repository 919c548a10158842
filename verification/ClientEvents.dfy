/** Everything that happens to the daemon's client table, one handler at a time, and what all of it keeps. */
module ClientEvents {
  import opened Common
  import opened Bytes
  import opened LittleEndian
  import opened Framing
  import opened SafetyGates
  import opened ClientTable

  datatype Event =
    | Join(id: ClientId)
    | Hello(i: nat, wantsLease: bool, pid: nat, ack: Frame)
    | Heartbeat(i: nat, requestId: nat, epoch: nat)
    | Enable(i: nat, requestId: nat, epoch: nat, enabled: bool, healthy: bool)
    | Write(i: nat, requestId: nat, epoch: nat, verdict: AckStatus)
    | Release(i: nat, requestId: nat, epoch: nat)
    | Unlock(i: nat, requestId: nat, epoch: nat, known: bool, bus: nat)
    | Throttle(i: nat)
    | Queue(i: nat, frame: Frame, required: bool)
    | Publish(i: nat, frames: seq<seq<byte>>)
    | Flush(i: nat, results: seq<SendResult>)
    | Leave(i: nat)
    | Watchdogs
    | Advance(reason: DisableReason, bus: nat)
    | Sweep

  function Joining(id: ClientId): Client { Client(true, id, false, false, [], 0, 0, 0, 0, [], []) }

  function OpenOnly(clients: seq<Client>): seq<Client> {
    if clients == [] then []
    else
      var rest := OpenOnly(clients[..|clients| - 1]);
      var c := clients[|clients| - 1];
      if c.open then rest + [c] else rest
  }

  predicate IsOpen(t: Table, i: nat) { i < |t.clients| && t.clients[i].open }

  /** A client identifier is never reused and never zero; frames come from open connections of the table. */
  ghost predicate Enabled(t: Table, e: Event) {
    match e
    case Join(id) => id != 0 && forall k :: 0 <= k < |t.clients| ==> t.clients[k].id != id
    case Hello(i, _, _, _) => IsOpen(t, i)
    case Heartbeat(i, _, _) => IsOpen(t, i)
    case Enable(i, _, _, _, _) => IsOpen(t, i)
    case Write(i, _, _, _) => IsOpen(t, i)
    case Release(i, _, _) => IsOpen(t, i)
    case Unlock(i, _, _, _, _) => IsOpen(t, i)
    case Throttle(i) => IsOpen(t, i)
    case Queue(i, _, _) => i < |t.clients|
    case Publish(i, frames) => i < |t.clients| && forall k :: 0 <= k < |frames| ==> frames[k] != []
    case Flush(i, _) => i < |t.clients|
    case Leave(i) => i < |t.clients|
    case Watchdogs => true
    case Advance(_, _) => true
    case Sweep => true
  }

  ghost predicate Inv(t: Table) { Sound(t) && Informed(t) }

  ghost function Next(t: Table, e: Event, now: Time): Table
    requires Sound(t) && Enabled(t, e)
  {
    match e
    case Join(id) => t.(clients := t.clients + [Joining(id)])
    case Hello(i, wantsLease, pid, ack) => HelloHandled(t, i, wantsLease, pid, ack, now)
    case Heartbeat(i, requestId, epoch) => HeartbeatHandled(t, i, requestId, epoch, now)
    case Enable(i, requestId, epoch, enabled, healthy) => EnableHandled(t, i, requestId, epoch, enabled, healthy, now)
    case Write(i, requestId, epoch, verdict) => WriteHandled(t, i, requestId, epoch, verdict, now)
    case Release(i, requestId, epoch) => ReleaseHandled(t, i, requestId, epoch, now)
    case Unlock(i, requestId, epoch, known, bus) => UnlockHandled(t, i, requestId, epoch, known, bus, now)
    case Throttle(i) => Throttled(t, i, now)
    case Queue(i, frame, required) => Queued(t, i, Encode(frame), required, now)
    case Publish(i, frames) => QueuedAll(t, i, frames, now)
    case Flush(i, results) => SoundAt(t, i); Flushed(t, i, results, now)
    case Leave(i) => Closed(t, i, now)
    case Watchdogs => TimeoutsHandled(t, now)
    case Advance(reason, bus) => Advanced(t, reason, bus, now)
    case Sweep => t.(clients := OpenOnly(t.clients))
  }

  lemma JoinKeepsSound(t: Table, id: ClientId)
    requires Sound(t) && Enabled(t, Join(id))
    ensures Sound(t.(clients := t.clients + [Joining(id)]))
  {
    var u := t.clients + [Joining(id)];
    assert Joining(id).Valid() by {
      JoinedNone();
    }
    hide Client.Valid;
    if t.gate.controller.Some? {
      var j :| 0 <= j < |t.clients| && t.clients[j].open && t.gate.HeldBy(t.clients[j].id);
      assert u[j] == t.clients[j];
    }
  }

  lemma {:induction false} OpenOnlyKeeps(clients: seq<Client>)
    requires AllValid(clients) && Distinct(clients)
    ensures AllValid(OpenOnly(clients)) && Distinct(OpenOnly(clients))
    ensures forall c :: c in OpenOnly(clients) <==> c in clients && c.open
  {
    hide Client.Valid;
    if clients != [] {
      var (front, c) := (clients[..|clients| - 1], clients[|clients| - 1]);
      OpenOnlyKeeps(front);
      var rest := OpenOnly(front);
      assert clients == front + [c];
      forall k | 0 <= k < |rest| && c.open ensures rest[k].id != c.id {
        assert rest[k] in front;
      }
    }
  }

  lemma SweepKeepsSound(t: Table)
    requires Sound(t)
    ensures Sound(t.(clients := OpenOnly(t.clients)))
  {
    OpenOnlyKeeps(t.clients);
    hide AllValid, Distinct;
    if t.gate.controller.Some? {
      var j :| 0 <= j < |t.clients| && t.clients[j].open && t.gate.HeldBy(t.clients[j].id);
      assert t.clients[j] in OpenOnly(t.clients);
    }
  }

  lemma NextKeepsSound(t: Table, e: Event, now: Time)
    requires Sound(t) && Enabled(t, e)
    ensures Sound(Next(t, e, now))
  {
    hide Sound, Closed, Queued, QueuedAll, Flushed, Advanced, Client.Valid, HelloHandled, HeartbeatHandled;
    hide EnableHandled, WriteHandled, ReleaseHandled, UnlockHandled, Throttled, TimeoutsHandled;
    match e {
      case Join(id) => JoinKeepsSound(t, id);
      case Hello(i, wantsLease, pid, ack) => HelloKeepsSound(t, i, wantsLease, pid, ack, now);
      case Heartbeat(i, requestId, epoch) => HeartbeatKeepsSound(t, i, requestId, epoch, now);
      case Enable(i, requestId, epoch, enabled, healthy) =>
        EnableKeepsSound(t, i, requestId, epoch, enabled, healthy, now);
      case Write(i, requestId, epoch, verdict) => WriteKeepsSound(t, i, requestId, epoch, verdict, now);
      case Release(i, requestId, epoch) => ReleaseKeepsSound(t, i, requestId, epoch, now);
      case Unlock(i, requestId, epoch, known, bus) => UnlockKeepsSound(t, i, requestId, epoch, known, bus, now);
      case Throttle(i) => ThrottledKeepsSound(t, i, now);
      case Queue(i, frame, required) => QueuedKeepsSound(t, i, Encode(frame), required, now);
      case Publish(i, frames) => QueuedAllKeepsSound(t, i, frames, now);
      case Flush(i, results) => FlushedKeepsSound(t, i, results, now);
      case Leave(i) => ClosedKeepsSound(t, i, now);
      case Watchdogs => TimeoutsKeepSound(t, now);
      case Advance(reason, bus) => AdvancedKeepsSound(t, reason, bus, now);
      case Sweep => SweepKeepsSound(t);
    }
  }

  // ---------------------------------------------------------------- what the buses have been told

  lemma QueuedInforms(t: Table, i: nat, frame: seq<byte>, required: bool, now: Time)
    requires i < |t.clients| && Informed(t)
    ensures Informed(Queued(t, i, frame, required, now)) && |Queued(t, i, frame, required, now).clients| == |t.clients|
  {
    hide Notified, DisabledFrame, Enqueued;
  }

  lemma AckedInforms(t: Table, i: nat, requestId: nat, status: AckStatus, now: Time)
    requires i < |t.clients| && Informed(t)
    ensures Informed(Acked(t, i, requestId, status, now))
  {
    hide Queued, Encode;
    QueuedInforms(t, i, Encode(Ack(requestId, status)), true, now);
  }

  /** The gate keeps its epoch and its enable while one of these is handled, until the acknowledgement is queued. */
  lemma HandledInforms(t: Table, e: Event, now: Time)
    requires Sound(t) && Informed(t) && Enabled(t, e) && (e.Heartbeat? || e.Write? || e.Enable? || e.Unlock?)
    ensures Informed(Next(t, e, now))
  {
    hide Acked, Sound, Notified, DisabledFrame, Marked;
    match e {
      case Heartbeat(i, requestId, epoch) =>
        var (g, r) := Beaten(t.gate, t.clients[i].id, epoch, now);
        AckedInforms(t.(gate := g), i, requestId, r.status, now);
      case Write(i, requestId, epoch, verdict) =>
        var (g, r) := WriteRecorded(t.gate, t.clients[i].id, epoch, now);
        AckedInforms(t, i, requestId, WriteAuthorization(t.gate, t.clients[i].id, epoch), now);
        AckedInforms(t, i, requestId, verdict, now);
        AckedInforms(t.(gate := g), i, requestId, r.status, now);
      case Enable(i, requestId, epoch, enabled, healthy) =>
        var (g, r) := OutputEnableSet(t.gate, t.clients[i].id, epoch, enabled, healthy, now);
        AckedInforms(Told(t.(gate := g)), i, requestId, r.status, now);
      case Unlock(i, requestId, epoch, known, bus) =>
        AckedInforms(t, i, requestId, Authorization(t.gate, t.clients[i].id, epoch), now);
        AckedInforms(t, i, requestId, BadTarget, now);
    }
  }

  /** A release tells the buses last, after an acknowledgement that may itself have closed the client. */
  lemma ReleaseInforms(t: Table, i: nat, requestId: nat, epoch: nat, now: Time)
    requires i < |t.clients| && Informed(t)
    ensures Informed(ReleaseHandled(t, i, requestId, epoch, now))
  {
    hide Acked, Notified, DisabledFrame;
    var (g, r) := Released(t.gate, t.clients[i].id, epoch);
    if !r.epochChanged {
      AckedInforms(t.(gate := g), i, requestId, r.status, now);
    }
  }

  lemma NextInforms(t: Table, e: Event, now: Time)
    requires Sound(t) && Informed(t) && Enabled(t, e)
    ensures Informed(Next(t, e, now))
  {
    hide Sound, Queued, Notified, DisabledFrame, Marked, Flushing, Encode;
    match e {
      case Hello(i, wantsLease, pid, ack) =>
        var c := t.clients[i];
        var (g, r) := Acquired(t.gate, c.id, pid, now);
        var u := if wantsLease && r.status == Ok then Told(t.(gate := g)) else t;
        QueuedInforms(u.(clients := u.clients[i := c.(hello := true)]), i, Encode(ack), true, now);
      case Heartbeat(_, _, _) => HandledInforms(t, e, now);
      case Write(_, _, _, _) => HandledInforms(t, e, now);
      case Enable(_, _, _, _, _) => HandledInforms(t, e, now);
      case Unlock(_, _, _, _, _) => HandledInforms(t, e, now);
      case Release(i, requestId, epoch) => ReleaseInforms(t, i, requestId, epoch, now);
      case Throttle(i) =>
        QueuedInforms(t.(clients := t.clients[i := t.clients[i].(closeAfterWrite := true)]), i,
                      Encode(Ack(0, QueueFull).(code := 0x85)), true, now);
      case Queue(i, frame, required) => QueuedInforms(t, i, Encode(frame), required, now);
      case Flush(i, results) => SoundAt(t, i);
      case _ =>
    }
  }

  /**
   Every event keeps the invariant: exact byte accounting within two mebibytes, whole frames in order on
   every wire, distinct identifiers, the lease held only by an open connection, and the buses told of
   every epoch and enable.
   */
  lemma NextKeepsInv(t: Table, e: Event, now: Time)
    requires Inv(t) && Enabled(t, e)
    ensures Inv(Next(t, e, now))
  {
    hide Sound, Next, Informed;
    NextKeepsSound(t, e, now);
    NextInforms(t, e, now);
  }

  // ---------------------------------------------------------------- epochs

  /** What a broadcast of `frame` did to one client. */
  predicate Reached(c: Client, d: Client, frame: seq<byte>) {
    d.open ==>
      (d.sent == c.sent + [frame] && d.outgoing == c.outgoing + [frame]) || (d.sent == c.sent && d.drops == c.drops + 1)
  }

  /** Every client that had said hello and is still open was told, or had no room. */
  ghost predicate AllReached(before: seq<Client>, after: seq<Client>, frame: seq<byte>) {
    && |after| == |before|
    && forall k :: 0 <= k < |before| && before[k].hello && before[k].open ==> Reached(before[k], after[k], frame)
  }

  lemma NotifiedReached(clients: seq<Client>, frame: seq<byte>, now: Time)
    ensures AllReached(clients, Notified(clients, frame, now), frame)
  {
  }

  /**
   Closing any connection moves the epoch exactly when it held the lease, and then by one step only,
   whatever further connections the broadcast closes; nobody holds the lease afterwards and everyone
   else is told the new epoch.
   */
  lemma CloseAdvancesOnce(t: Table, i: nat, now: Time)
    requires Sound(t) && i < |t.clients|
    ensures
      var (u, c) := (Closed(t, i, now), t.clients[i]);
      && |u.clients| == |t.clients| && !u.clients[i].open
      && u.gate == (if c.open && t.gate.HeldBy(c.id) then Dropped(t.gate).0 else t.gate)
      && (u.gate == t.gate ==> forall k :: 0 <= k < |t.clients| && k != i ==> u.clients[k] == t.clients[k])
      && (u.gate != t.gate ==> u.gate.controller.None? && !u.gate.outputsEnabled)
      && (u.gate != t.gate ==>
            AllReached(t.clients[i := Shut(c)], u.clients, DisabledFrame(Disconnect, EVERY_BUS, u.gate.epoch)))
  {
    hide DisabledFrame, Notified;
    var c := t.clients[i];
    if c.open && t.gate.HeldBy(c.id) {
      var frame := DisabledFrame(Disconnect, EVERY_BUS, Dropped(t.gate).0.epoch);
      NotifiedReached(t.clients[i := Shut(c)], frame, now);
      StaysShut(t.clients[i := Shut(c)], i, frame, now);
    }
  }

  lemma StaysShut(clients: seq<Client>, i: nat, frame: seq<byte>, now: Time)
    requires i < |clients| && !clients[i].open
    ensures Notified(clients, frame, now)[i] == clients[i]
  {
  }

  /** From `g` to `h` the epoch stayed, or moved once and took the lease and the enable with it. */
  predicate MovedOnce(g: Gate, h: Gate) {
    && (h.epoch == g.epoch || (h.epoch == NextEpoch(g.epoch) && h.controller.None? && !h.outputsEnabled))
    && (g.controller.Some? && h.epoch == g.epoch ==>
          h.controller.Some? && h.controller.value.id == g.controller.value.id)
  }

  /** The one event that moves the epoch twice: an unlock that is granted to a client with no room for the answer. */
  predicate AnswerFails(t: Table, e: Event) {
    && e.Unlock? && IsOpen(t, e.i) && e.known && Authorization(t.gate, t.clients[e.i].id, e.epoch) == Ok
    && !HasRoom(t.clients[e.i], |Encode(Ack(e.requestId, Ok))|)
  }

  lemma QueuedMoves(t: Table, i: nat, frame: seq<byte>, required: bool, now: Time)
    requires t.gate.Valid() && i < |t.clients|
    ensures
      var g := Queued(t, i, frame, required, now).gate;
      g == t.gate || (g == Dropped(t.gate).0 && t.clients[i].open && t.gate.HeldBy(t.clients[i].id))
    ensures required && !HasRoom(t.clients[i], |frame|) && t.clients[i].open && t.gate.HeldBy(t.clients[i].id) ==>
      Queued(t, i, frame, required, now).gate == Dropped(t.gate).0
    ensures HasRoom(t.clients[i], |frame|) ==> Queued(t, i, frame, required, now).gate == t.gate
  {
    hide Notified, DisabledFrame, Enqueued;
  }

  /** A handler that changes the gate and then acknowledges. */
  lemma AckedMoves(t: Table, g: Gate, i: nat, requestId: nat, status: AckStatus, now: Time)
    requires t.gate.Valid() && g.Valid() && i < |t.clients| && MovedOnce(t.gate, g)
    ensures
      var u := t.(gate := g);
      && MovedOnce(t.gate, Acked(u, i, requestId, status, now).gate)
      && MovedOnce(t.gate, Acked(Told(u), i, requestId, status, now).gate)
  {
    hide Queued, Encode;
    QueuedMoves(t.(gate := g), i, Encode(Ack(requestId, status)), true, now);
    QueuedMoves(Told(t.(gate := g)), i, Encode(Ack(requestId, status)), true, now);
  }

  lemma RequestMoves(t: Table, e: Event, now: Time)
    requires Sound(t) && Enabled(t, e) && (e.Heartbeat? || e.Write?)
    ensures MovedOnce(t.gate, Next(t, e, now).gate)
  {
    SoundGate(t);
    hide Acked, Sound;
    match e {
      case Heartbeat(i, requestId, epoch) =>
        var (g, r) := Beaten(t.gate, t.clients[i].id, epoch, now);
        AckedMoves(t, g, i, requestId, r.status, now);
      case Write(i, requestId, epoch, verdict) =>
        var (g, r) := WriteRecorded(t.gate, t.clients[i].id, epoch, now);
        AckedMoves(t, t.gate, i, requestId, WriteAuthorization(t.gate, t.clients[i].id, epoch), now);
        AckedMoves(t, t.gate, i, requestId, verdict, now);
        AckedMoves(t, g, i, requestId, r.status, now);
    }
  }

  lemma EndingMoves(t: Table, e: Event, now: Time)
    requires Sound(t) && Enabled(t, e) && (e.Enable? || e.Release?)
    ensures MovedOnce(t.gate, Next(t, e, now).gate)
  {
    SoundGate(t);
    hide Acked, Sound, Notified, DisabledFrame;
    match e {
      case Enable(i, requestId, epoch, enabled, healthy) =>
        var (g, r) := OutputEnableSet(t.gate, t.clients[i].id, epoch, enabled, healthy, now);
        AckedMoves(t, g, i, requestId, r.status, now);
      case Release(i, requestId, epoch) =>
        var (g, r) := Released(t.gate, t.clients[i].id, epoch);
        AckedMoves(t, g, i, requestId, r.status, now);
    }
  }

  lemma HelloMoves(t: Table, i: nat, wantsLease: bool, pid: nat, ack: Frame, now: Time)
    requires Sound(t) && IsOpen(t, i)
    ensures MovedOnce(t.gate, HelloHandled(t, i, wantsLease, pid, ack, now).gate)
  {
    SoundGate(t);
    hide Sound, Queued, Encode;
    var c := t.clients[i];
    var (g, r) := Acquired(t.gate, c.id, pid, now);
    var u := if wantsLease && r.status == Ok then Told(t.(gate := g)) else t;
    QueuedMoves(u.(clients := u.clients[i := c.(hello := true)]), i, Encode(ack), true, now);
  }

  lemma UnlockMoves(t: Table, e: Event, now: Time)
    requires Sound(t) && Enabled(t, e) && e.Unlock?
    ensures
      var h := Next(t, e, now).gate;
      if AnswerFails(t, e) then
        h.epoch == NextEpoch(NextEpoch(t.gate.epoch)) && h.controller.None? && !h.outputsEnabled
      else MovedOnce(t.gate, h)
  {
    SoundGate(t);
    hide Sound, Notified, DisabledFrame, Marked, Queued, Encode;
    var c := t.clients[e.i];
    QueuedMoves(t, e.i, Encode(Ack(e.requestId, Ok)), true, now);
    AckedMoves(t, t.gate, e.i, e.requestId, Authorization(t.gate, c.id, e.epoch), now);
    AckedMoves(t, t.gate, e.i, e.requestId, BadTarget, now);
  }

  lemma ClosedMoves(t: Table, i: nat, now: Time)
    requires t.gate.Valid() && i < |t.clients|
    ensures MovedOnce(t.gate, Closed(t, i, now).gate)
  {
    hide Notified, DisabledFrame;
  }

  lemma RefusedMoves(t: Table, i: nat, now: Time)
    requires t.gate.Valid() && i < |t.clients|
    ensures MovedOnce(t.gate, Refused(t, i, now).gate)
  {
    hide Closed;
    ClosedMoves(t.(clients := t.clients[i := Counted(t.clients[i], now)]), i, now);
  }

  /** What is not a request of the controller can move the epoch only by closing a client, or on purpose. */
  lemma OtherMoves(t: Table, e: Event, now: Time)
    requires Sound(t) && Enabled(t, e) && !e.Unlock?
    ensures MovedOnce(t.gate, Next(t, e, now).gate)
  {
    SoundGate(t);
    hide Sound, Notified, Flushing, DisabledFrame, Marked, OpenOnly, Appended, Joined, Client.Valid, Closed, Refused;
    hide UnlockHandled, EnableHandled, WriteHandled, ReleaseHandled, HeartbeatHandled, HelloHandled, Encode, Queued;
    match e {
      case Hello(i, wantsLease, pid, ack) => HelloMoves(t, i, wantsLease, pid, ack, now);
      case Heartbeat(_, _, _) => RequestMoves(t, e, now);
      case Write(_, _, _, _) => RequestMoves(t, e, now);
      case Enable(_, _, _, _, _) => EndingMoves(t, e, now);
      case Release(_, _, _) => EndingMoves(t, e, now);
      case Throttle(i) =>
        QueuedMoves(t.(clients := t.clients[i := t.clients[i].(closeAfterWrite := true)]), i,
                    Encode(Ack(0, QueueFull).(code := 0x85)), true, now);
      case Queue(i, frame, required) => QueuedMoves(t, i, Encode(frame), required, now);
      case Publish(i, frames) => RefusedMoves(t, i, now);
      case Flush(i, results) =>
        SoundAt(t, i);
        ClosedMoves(t.(clients := t.clients[i := Flushing(t.clients[i], results).0]), i, now);
      case Leave(i) => ClosedMoves(t, i, now);
      case _ =>
    }
  }

  lemma TwoStepsDiffer(epoch: nat)
    requires 0 < epoch <= MAX_U64
    ensures NextEpoch(NextEpoch(epoch)) != epoch && NextEpoch(NextEpoch(epoch)) != NextEpoch(epoch)
  {
  }

  /**
   One event moves the epoch at most once, and a held lease never changes hands without it, exactly
   unless it grants an unlock to a client that has no room for the answer: closing that client and the
   unlock itself then move it one step each.
   */
  lemma EpochMovesAtMostOnce(t: Table, e: Event, now: Time)
    requires Sound(t) && Enabled(t, e)
    ensures MovedOnce(t.gate, Next(t, e, now).gate) <==> !AnswerFails(t, e)
    ensures AnswerFails(t, e) ==>
      var h := Next(t, e, now).gate;
      h.epoch == NextEpoch(NextEpoch(t.gate.epoch)) && h.controller.None? && !h.outputsEnabled
  {
    SoundGate(t);
    TwoStepsDiffer(t.gate.epoch);
    hide Sound, Next, AnswerFails;
    if e.Unlock? {
      UnlockMoves(t, e, now);
    } else {
      OtherMoves(t, e, now);
      OnlyUnlockFails(t, e);
    }
  }

  lemma OnlyUnlockFails(t: Table, e: Event)
    requires !e.Unlock?
    ensures !AnswerFails(t, e)
  {
  }
  // ---------------------------------------------------------------- a table whose answer fails

  /** The table after a run, or None if some event of it was not enabled. */
  ghost function RunAll(t: Table, events: seq<Event>, now: Time): (r: Option<Table>)
    requires Sound(t)
    ensures r.Some? ==> Sound(r.value)
    decreases |events|
  {
    if events == [] then Some(t)
    else
      var before := RunAll(t, events[..|events| - 1], now);
      if before.None? || !Enabled(before.value, events[|events| - 1]) then None
      else
        NextKeepsSound(before.value, events[|events| - 1], now);
        Some(Next(before.value, events[|events| - 1], now))
  }

  lemma RunOneMore(t: Table, events: seq<Event>, e: Event, now: Time)
    requires Sound(t) && RunAll(t, events, now).Some? && Enabled(RunAll(t, events, now).value, e)
    ensures RunAll(t, events + [e], now) == Some(Next(RunAll(t, events, now).value, e, now))
  {
    hide Next, Enabled, Sound;
    assert (events + [e])[..|events|] == events;
  }

  function NewTable(g: Gate): Table { Table([], g, (g.epoch, g.outputsEnabled)) }

  lemma NewTableIsSound(g: Gate)
    requires g.Valid() && g.controller.None?
    ensures Sound(NewTable(g))
  {
  }

  const GREETING: Frame := Frame(0x80, 1, Le(1, 2) + Le(250, 2) + Le(1, 8) + Le(1, 4) + Le(0, 4))

  lemma GreetingSize()
    ensures |Encode(GREETING)| == 36
  {
  }

  /** One client, which holds the lease of epoch 1 and has not read `bytes` bytes. */
  predicate OneHolder(t: Table, bytes: nat) {
    && |t.clients| == 1 && t.clients[0].open && t.clients[0].bytes == bytes
    && t.gate.HeldBy(t.clients[0].id) && t.gate.epoch == 1
  }

  lemma HeartbeatFills(t: Table, bytes: nat, now: Time)
    requires Sound(t) && OneHolder(t, bytes) && bytes + 24 <= MAXIMUM_OUTPUT
    ensures OneHolder(Next(t, Heartbeat(0, 1, 1), now), bytes + 24)
  {
    hide Sound, Encode, Closed;
    AckSize(1, Ok);
  }

  /** Events after which the only client, the controller, leaves `36 + 24 * n` bytes unread. */
  ghost function Unread(n: nat): seq<Event> {
    if n == 0 then [Join(7), Hello(0, true, 1, GREETING)] else Unread(n - 1) + [Heartbeat(0, 1, 1)]
  }

  lemma FirstGrant(g: Gate, now: Time)
    requires g.Valid() && g.epoch == 1 && g.controller.None?
    ensures
      var r := RunAll(NewTable(g), Unread(0), now);
      r.Some? && OneHolder(r.value, 36)
  {
    var t := NewTable(g);
    RunOneMore(t, [], Join(7), now);
    var u := Next(t, Join(7), now);
    assert [] + [Join(7)] == [Join(7)];
    assert Unread(0) == [Join(7)] + [Hello(0, true, 1, GREETING)];
    RunOneMore(t, [Join(7)], Hello(0, true, 1, GREETING), now);
    GreetingSize();
    hide Encode, RunAll, Closed, Sound;
  }

  lemma {:induction false} UnreadFills(g: Gate, n: nat, now: Time)
    requires g.Valid() && g.epoch == 1 && g.controller.None? && 36 + 24 * n <= MAXIMUM_OUTPUT
    ensures
      var r := RunAll(NewTable(g), Unread(n), now);
      r.Some? && OneHolder(r.value, 36 + 24 * n)
  {
    hide RunAll, Next, Sound;
    NewTableIsSound(g);
    if n == 0 {
      FirstGrant(g, now);
    } else {
      UnreadFills(g, n - 1, now);
      var t := RunAll(NewTable(g), Unread(n - 1), now).value;
      RunOneMore(NewTable(g), Unread(n - 1), Heartbeat(0, 1, 1), now);
      HeartbeatFills(t, 36 + 24 * (n - 1), now);
    }
  }

  /**
   A run from the empty table on which one event moves the epoch from 1 to 3: a controller that reads
   nothing sends heartbeats until its queue has no room for another answer, and then an unlock.
   */
  lemma UnlockMovesTheEpochTwice(g: Gate, now: Time)
    requires g.Valid() && g.epoch == 1 && g.controller.None?
    ensures exists events, t, e ::
      && RunAll(NewTable(g), events, now) == Some(t) && Enabled(t, e) && AnswerFails(t, e)
      && t.gate.epoch == 1 && Next(t, e, now).gate.epoch == 3
  {
    hide RunAll, Next, Sound, Encode, Unread;
    NewTableIsSound(g);
    var (n, e) := (87379, Unlock(0, 1, 1, true, 0));
    UnreadFills(g, n, now);
    var t := RunAll(NewTable(g), Unread(n), now).value;
    AckSize(1, Ok);
    assert AnswerFails(t, e);
    EpochMovesAtMostOnce(t, e, now);
    assert Next(t, e, now).gate.epoch == 3;
  }
}
