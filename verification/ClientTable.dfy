/**
 The daemon's client connections: bounded output queues, closing, and the broadcast of epoch changes.

 Closing the controller broadcasts, broadcasting queues, and queueing to a client that has stopped
 reading closes it, so the three methods call one another. They are proved against `Closed`, `Notified`
 and `Offered`, which do not.
 */
module ClientTable {
  import opened Common
  import opened Bytes
  import opened LittleEndian
  import opened Framing
  import opened SafetyGates

  const MAXIMUM_OUTPUT: nat := 2 * 1024 * 1024
  const MAXIMUM_DROPS: nat := 100
  /** Five seconds, in nanoseconds. */
  const MAXIMUM_STALL: int := 5_000_000_000
  const EVERY_BUS: nat := 0xffff

  datatype DisableReason =
    | Requested | HeartbeatTimeout | Disconnect | LinkLoss | Reinitialize | Shutdown | EpochChange
    | AdapterMismatch | ProcessDataFault | OutputCommandTimeout

  function ReasonCode(r: DisableReason): nat {
    match r
    case Requested => 1
    case HeartbeatTimeout => 2
    case Disconnect => 3
    case LinkLoss => 4
    case Reinitialize => 5
    case Shutdown => 6
    case EpochChange => 7
    case AdapterMismatch => 8
    case ProcessDataFault => 9
    case OutputCommandTimeout => 10
  }

  /** The OUTPUTS_DISABLED frame. */
  function DisabledFrame(reason: DisableReason, bus: nat, epoch: nat): (f: seq<byte>)
    ensures |f| == 28
  {
    Widths();
    Encode(Frame(0x86, 0, Le(ReasonCode(reason), 2) + Le(bus, 2) + Le(epoch, 8)))
  }

  /** `sent` and `wire` are histories: every frame queued, and every byte the socket has accepted. */
  datatype Client = Client(
    open: bool, id: ClientId, hello: bool, closeAfterWrite: bool,
    outgoing: seq<seq<byte>>, offset: nat, bytes: nat,
    drops: nat, firstDrop: Time,
    sent: seq<seq<byte>>, wire: seq<byte>)
  {
    /** The bytes still to be written. */
    function Pending(): seq<byte>
      requires offset <= |Joined(outgoing)|
    {
      Joined(outgoing)[offset..]
    }

    /** Nothing queued is lost, reordered or cut, and the byte count is exact and bounded. */
    predicate Valid() {
      if open then
        && (if outgoing == [] then offset == 0 else offset < |outgoing[0]|)
        && offset <= |Joined(outgoing)|
        && bytes == |Pending()| <= MAXIMUM_OUTPUT && id != 0
        && (forall k :: 0 <= k < |outgoing| ==> outgoing[k] != [])
        && wire + Pending() == Joined(sent)
      else
        outgoing == [] && bytes == 0 && wire <= Joined(sent)
    }
  }

  datatype Table = Table(clients: seq<Client>, gate: Gate, applied: (nat, bool))

  // ---------------------------------------------------------------- what the operations do

  function Shut(c: Client): Client { c.(open := false, outgoing := [], bytes := 0) }

  predicate HasRoom(c: Client, size: nat) {
    c.open && 0 < size <= MAXIMUM_OUTPUT - Min(c.bytes, MAXIMUM_OUTPUT)
  }

  function Appended(c: Client, frames: seq<seq<byte>>, size: nat): Client {
    c.(bytes := c.bytes + size, outgoing := c.outgoing + frames, sent := c.sent + frames)
  }

  function Enqueued(c: Client, frame: seq<byte>, required: bool): Client {
    Appended(if !required && c.drops != 0 && c.bytes < MAXIMUM_OUTPUT / 4 then c.(drops := 0) else c, [frame], |frame|)
  }

  function Counted(c: Client, now: Time): Client {
    c.(drops := c.drops + 1, firstDrop := if c.drops == 0 then now else c.firstDrop)
  }

  /** A client that has not taken optional frames for too long. */
  predicate Stalled(c: Client, now: Time) { c.drops >= MAXIMUM_DROPS || now - c.firstDrop >= MAXIMUM_STALL }

  /** An optional frame offered to a client that does not hold the lease. */
  function Offered(c: Client, frame: seq<byte>, now: Time): Client {
    if HasRoom(c, |frame|) then Enqueued(c, frame, false)
    else
      var d := Counted(c, now);
      if Stalled(d, now) then Shut(d) else d
  }

  function Notification(c: Client, frame: seq<byte>, now: Time): Client {
    if c.hello && c.open then Offered(c, frame, now) else c
  }

  function Notified(clients: seq<Client>, frame: seq<byte>, now: Time): (r: seq<Client>)
    ensures |r| == |clients|
  {
    seq(|clients|, k requires 0 <= k < |clients| => Notification(clients[k], frame, now))
  }

  function Closed(t: Table, i: nat, now: Time): Table
    requires i < |t.clients|
  {
    var c := t.clients[i];
    var shut := t.clients[i := Shut(c)];
    if !c.open then t
    else if !t.gate.HeldBy(c.id) then t.(clients := shut)
    else
      var g := Dropped(t.gate).0;
      Table(Notified(shut, DisabledFrame(Disconnect, EVERY_BUS, g.epoch), now), g, (g.epoch, g.outputsEnabled))
  }

  function Refused(t: Table, i: nat, now: Time): Table
    requires i < |t.clients|
  {
    var d := Counted(t.clients[i], now);
    var u := t.(clients := t.clients[i := d]);
    if Stalled(d, now) then Closed(u, i, now) else u
  }

  function Queued(t: Table, i: nat, frame: seq<byte>, required: bool, now: Time): Table
    requires i < |t.clients|
  {
    if HasRoom(t.clients[i], |frame|) then t.(clients := t.clients[i := Enqueued(t.clients[i], frame, required)])
    else if required then Closed(t, i, now)
    else Refused(t, i, now)
  }

  function QueuedAll(t: Table, i: nat, frames: seq<seq<byte>>, now: Time): Table
    requires i < |t.clients|
  {
    var c := t.clients[i];
    if c.open && |Joined(frames)| <= MAXIMUM_OUTPUT - Min(c.bytes, MAXIMUM_OUTPUT)
    then t.(clients := t.clients[i := Appended(c, frames, |Joined(frames)|)])
    else Refused(t, i, now)
  }

  /** The controller may finish reading, then it is closed. */
  function Marked(clients: seq<Client>, id: ClientId): (r: seq<Client>)
    ensures |r| == |clients|
  {
    seq(|clients|, k requires 0 <= k < |clients| =>
      if clients[k].open && clients[k].id == id then clients[k].(closeAfterWrite := true) else clients[k])
  }

  function Advanced(t: Table, reason: DisableReason, bus: nat, now: Time): Table {
    var g := Dropped(t.gate).0;
    var clients := Notified(t.clients, DisabledFrame(reason, bus, g.epoch), now);
    Table(if t.gate.controller.Some? then Marked(clients, t.gate.controller.value.id) else clients,
          g, (g.epoch, g.outputsEnabled))
  }

  /** What one send() returned. */
  datatype SendResult = WouldBlock | Interrupted | Failed | Accepted(count: nat)

  /** The socket took `n` bytes of the frame at the front. */
  function Written(c: Client, n: nat): Client
    requires c.outgoing != [] && c.offset + n <= |c.outgoing[0]| && n <= c.bytes
  {
    var d := c.(bytes := c.bytes - n, wire := c.wire + c.outgoing[0][c.offset .. c.offset + n]);
    if c.offset + n == |c.outgoing[0]| then d.(outgoing := c.outgoing[1..], offset := 0) else d.(offset := c.offset + n)
  }

  /** The client after writing until the socket refuses, and whether it must then be closed. */
  function Flushing(c: Client, results: seq<SendResult>): (r: (Client, bool))
    requires c.Valid()
    ensures r.0.Valid() && r.0.open == c.open && r.0.id == c.id
    decreases |results|
  {
    if !c.open || c.outgoing == [] then (c, c.closeAfterWrite && c.outgoing == [])
    else if results == [] then (c, false)
    else
      match results[0]
      case WouldBlock => (c, false)
      case Interrupted => Flushing(c, results[1..])
      case Failed => (c, true)
      case Accepted(count) =>
        if count == 0 then (c, true)
        else
          FrontFits(c);
          var n := Min(count, |c.outgoing[0]| - c.offset);
          WrittenValid(c, n);
          Flushing(Written(c, n), results[1..])
  }

  function Flushed(t: Table, i: nat, results: seq<SendResult>, now: Time): Table
    requires i < |t.clients| && t.clients[i].Valid()
  {
    var (c, close) := Flushing(t.clients[i], results);
    var u := t.(clients := t.clients[i := c]);
    if close then Closed(u, i, now) else u
  }

  // ---------------------------------------------------------------- the handlers

  function StatusCode(status: AckStatus): nat {
    match status
    case Ok => 0
    case Malformed => 1
    case Unauthorized => 2
    case Busy => 3
    case Disabled => 4
    case BadTarget => 5
    case Bounds => 6
    case StaleEpoch => 7
    case QueueFull => 11
    case InternalError => 12
  }

  function Ack(requestId: nat, status: AckStatus): Frame {
    Frame(0x82, requestId, Le(StatusCode(status), 2) + Le(0, 2) + Le(0, 4))
  }

  const ACK_BYTES: nat := 24

  lemma AckSize(requestId: nat, status: AckStatus)
    ensures |Encode(Ack(requestId, status))| == ACK_BYTES
  {
  }

  /** QueueAck: a client that cannot take its acknowledgement is closed. */
  function Acked(t: Table, i: nat, requestId: nat, status: AckStatus, now: Time): Table
    requires i < |t.clients|
  {
    Queued(t, i, Encode(Ack(requestId, status)), true, now)
  }

  /** ApplySafetyToBuses. */
  function Told(t: Table): Table { t.(applied := (t.gate.epoch, t.gate.outputsEnabled)) }

  /** The client asked for its lease to end: everyone is notified, and it may drain before it is closed. */
  function Farewell(t: Table, i: nat, now: Time): Table
    requires i < |t.clients|
  {
    var clients := Notified(t.clients, DisabledFrame(Requested, EVERY_BUS, t.gate.epoch), now);
    t.(clients := clients[i := clients[i].(closeAfterWrite := true)])
  }

  /** HandleHello, with the acknowledgement that it builds. */
  function HelloHandled(t: Table, i: nat, wantsLease: bool, pid: nat, ack: Frame, now: Time): Table
    requires i < |t.clients|
  {
    var c := t.clients[i];
    var (g, r) := Acquired(t.gate, c.id, pid, now);
    var u := if wantsLease && r.status == Ok then Told(t.(gate := g)) else t;
    Queued(u.(clients := u.clients[i := c.(hello := true)]), i, Encode(ack), true, now)
  }

  function HeartbeatHandled(t: Table, i: nat, requestId: nat, epoch: nat, now: Time): Table
    requires i < |t.clients|
  {
    var (g, r) := Beaten(t.gate, t.clients[i].id, epoch, now);
    Acked(t.(gate := g), i, requestId, r.status, now)
  }

  /** HandleOutputWrite; `verdict` is what target, bounds, clock and bus queue say to an authorized write. */
  function WriteHandled(t: Table, i: nat, requestId: nat, epoch: nat, verdict: AckStatus, now: Time): Table
    requires i < |t.clients|
  {
    var authorization := WriteAuthorization(t.gate, t.clients[i].id, epoch);
    if authorization != Ok then Acked(t, i, requestId, authorization, now)
    else if verdict != Ok then Acked(t, i, requestId, verdict, now)
    else
      var (g, r) := WriteRecorded(t.gate, t.clients[i].id, epoch, now);
      Acked(t.(gate := g), i, requestId, r.status, now)
  }

  function EnableHandled(t: Table, i: nat, requestId: nat, epoch: nat, enabled: bool, healthy: bool, now: Time): Table
    requires i < |t.clients|
  {
    var (g, r) := OutputEnableSet(t.gate, t.clients[i].id, epoch, enabled, healthy, now);
    var u := Acked(Told(t.(gate := g)), i, requestId, r.status, now);
    AckedSize(Told(t.(gate := g)), i, requestId, r.status, now);
    if r.status == Ok && !enabled then Farewell(u, i, now) else u
  }

  /** HandleRelease: the acknowledgement goes out before the buses are told. */
  function ReleaseHandled(t: Table, i: nat, requestId: nat, epoch: nat, now: Time): Table
    requires i < |t.clients|
  {
    var (g, r) := Released(t.gate, t.clients[i].id, epoch);
    var u := Acked(t.(gate := g), i, requestId, r.status, now);
    AckedSize(t.(gate := g), i, requestId, r.status, now);
    if r.epochChanged then Farewell(Told(u), i, now) else u
  }

  function UnlockHandled(t: Table, i: nat, requestId: nat, epoch: nat, known: bool, bus: nat, now: Time): Table
    requires i < |t.clients|
  {
    var authorization := Authorization(t.gate, t.clients[i].id, epoch);
    if authorization != Ok then Acked(t, i, requestId, authorization, now)
    else if !known then Acked(t, i, requestId, BadTarget, now)
    else Advanced(Acked(t, i, requestId, Ok, now), AdapterMismatch, bus, now)
  }

  /** ConsumeRateToken with no token left: the client is told, and closed once it has read that. */
  function Throttled(t: Table, i: nat, now: Time): Table
    requires i < |t.clients|
  {
    Queued(t.(clients := t.clients[i := t.clients[i].(closeAfterWrite := true)]), i,
           Encode(Ack(0, QueueFull).(code := 0x85)), true, now)
  }

  /** HandleSafetyTimeouts: the heartbeat watchdog only if the output one stayed quiet. */
  function TimeoutsHandled(t: Table, now: Time): Table {
    if OutputExpired(t.gate, now).1.epochChanged then Advanced(t, OutputCommandTimeout, EVERY_BUS, now)
    else if HeartbeatExpired(t.gate, now).1.epochChanged then Advanced(t, HeartbeatTimeout, EVERY_BUS, now)
    else t
  }

  lemma AckedSize(t: Table, i: nat, requestId: nat, status: AckStatus, now: Time)
    requires i < |t.clients|
    ensures |Acked(t, i, requestId, status, now).clients| == |t.clients|
  {
    hide Encode;
  }

  // ---------------------------------------------------------------- what they keep

  predicate Distinct(clients: seq<Client>) {
    forall i, j :: 0 <= i < j < |clients| && clients[i].open && clients[j].open ==> clients[i].id != clients[j].id
  }

  predicate AllValid(clients: seq<Client>) {
    forall i :: 0 <= i < |clients| ==> clients[i].Valid()
  }

  /** The lease, if anyone holds it, is held by an open connection. */
  predicate ControllerConnected(clients: seq<Client>, g: Gate) {
    g.controller.Some? ==> exists i :: 0 <= i < |clients| && clients[i].open && g.HeldBy(clients[i].id)
  }

  predicate Sound(t: Table) {
    t.gate.Valid() && AllValid(t.clients) && Distinct(t.clients) && ControllerConnected(t.clients, t.gate)
  }

  /** The buses have been told the epoch and the enable of the gate. */
  predicate Informed(t: Table) { t.applied == (t.gate.epoch, t.gate.outputsEnabled) }

  lemma {:induction false} JoinedAppend(xs: seq<seq<byte>>, ys: seq<seq<byte>>)
    ensures Joined(xs + ys) == Joined(xs) + Joined(ys)
    decreases |ys|
  {
    if ys == [] {
      assert xs + ys == xs;
    } else {
      var (front, y) := (ys[..|ys| - 1], ys[|ys| - 1]);
      JoinedAppend(xs, front);
      assert (xs + ys)[..|xs + ys| - 1] == xs + front && (xs + ys)[|xs + ys| - 1] == y;
      assert (Joined(xs) + Joined(front)) + y == Joined(xs) + (Joined(front) + y);
    }
  }

  lemma JoinedOne(x: seq<byte>)
    ensures Joined([x]) == x
  {
    assert [x][..0] == [];
  }

  lemma JoinedTail(xs: seq<seq<byte>>)
    requires xs != []
    ensures Joined(xs) == xs[0] + Joined(xs[1..])
  {
    JoinedAppend([xs[0]], xs[1..]);
    JoinedOne(xs[0]);
    assert xs == [xs[0]] + xs[1..];
  }

  lemma FrontFits(c: Client)
    requires c.Valid() && c.open && c.outgoing != []
    ensures 0 < |c.outgoing[0]| - c.offset <= c.bytes
  {
    hide Joined;
    JoinedTail(c.outgoing);
  }

  /** Writing moves bytes from the queue to the wire and loses none. */
  lemma WrittenValid(c: Client, n: nat)
    requires c.Valid() && c.open && c.outgoing != [] && 0 < n <= |c.outgoing[0]| - c.offset && n <= c.bytes
    ensures Written(c, n).Valid()
  {
    hide Joined;
    var (d, front, rest) := (Written(c, n), c.outgoing[0], c.outgoing[1..]);
    JoinedTail(c.outgoing);
    var all := Joined(c.outgoing);
    var moved := front[c.offset .. c.offset + n];
    assert all[c.offset..] == moved + all[c.offset + n..];
    if c.offset + n == |front| {
      assert all[c.offset + n..] == Joined(rest);
      assert Joined(rest)[0..] == Joined(rest);
      assert d.Pending() == Joined(rest);
      if rest == [] {
        JoinedNone();
      }
    } else {
      assert d.Pending() == all[c.offset + n..];
    }
    assert (c.wire + moved) + d.Pending() == c.wire + (moved + d.Pending());
  }

  lemma JoinedNone()
    ensures Joined([]) == []
  {
  }

  lemma AppendedValid(c: Client, frames: seq<seq<byte>>)
    requires c.Valid() && c.open && c.bytes + |Joined(frames)| <= MAXIMUM_OUTPUT
    requires forall k :: 0 <= k < |frames| ==> frames[k] != []
    ensures Appended(c, frames, |Joined(frames)|).Valid()
  {
    hide Joined;
    JoinedAppend(c.outgoing, frames);
    JoinedAppend(c.sent, frames);
    var d := Appended(c, frames, |Joined(frames)|);
    assert d.Pending() == c.Pending() + Joined(frames);
  }

  lemma EnqueuedValid(c: Client, frame: seq<byte>, required: bool)
    requires c.Valid() && HasRoom(c, |frame|)
    ensures Enqueued(c, frame, required).Valid()
  {
    JoinedOne(frame);
    AppendedValid(if !required && c.drops != 0 && c.bytes < MAXIMUM_OUTPUT / 4 then c.(drops := 0) else c, [frame]);
  }

  lemma ShutValid(c: Client)
    requires c.Valid()
    ensures Shut(c).Valid()
  {
    hide Joined;
    if c.open {
      assert c.wire <= c.wire + c.Pending();
    }
  }

  lemma OfferedValid(c: Client, frame: seq<byte>, now: Time)
    requires c.Valid()
    ensures Offered(c, frame, now).Valid() && Offered(c, frame, now).id == c.id
    ensures Offered(c, frame, now).open ==> c.open
  {
    hide Joined;
    if HasRoom(c, |frame|) {
      EnqueuedValid(c, frame, false);
    } else {
      ShutValid(Counted(c, now));
    }
  }

  lemma NotifiedValid(clients: seq<Client>, frame: seq<byte>, now: Time)
    requires AllValid(clients) && Distinct(clients)
    ensures
      var r := Notified(clients, frame, now);
      && AllValid(r) && Distinct(r)
      && forall k :: 0 <= k < |clients| ==> r[k].id == clients[k].id && (r[k].open ==> clients[k].open)
  {
    hide Client.Valid, Offered;
    forall k | 0 <= k < |clients|
      ensures
        var o := Notification(clients[k], frame, now);
        o.Valid() && o.id == clients[k].id && (o.open ==> clients[k].open)
    {
      OfferedValid(clients[k], frame, now);
    }
  }

  lemma ClosedKeepsSound(t: Table, i: nat, now: Time)
    requires Sound(t) && i < |t.clients|
    ensures Sound(Closed(t, i, now))
  {
    hide Client.Valid, DisabledFrame, Notified;
    ShutValid(t.clients[i]);
    var c := t.clients[i];
    var shut := t.clients[i := Shut(c)];
    if c.open && t.gate.HeldBy(c.id) {
      NotifiedValid(shut, DisabledFrame(Disconnect, EVERY_BUS, Dropped(t.gate).0.epoch), now);
    } else if c.open && t.gate.controller.Some? {
      var j :| 0 <= j < |t.clients| && t.clients[j].open && t.gate.HeldBy(t.clients[j].id);
      assert shut[j] == t.clients[j];
    }
  }

  /** Between closing the controller's socket and broadcasting. */
  lemma ShutKeepsSound(t: Table, i: nat)
    requires Sound(t) && i < |t.clients| && t.gate.HeldBy(t.clients[i].id)
    ensures
      var g := Dropped(t.gate).0;
      Sound(Table(t.clients[i := Shut(t.clients[i])], g, (g.epoch, g.outputsEnabled)))
  {
    hide Client.Valid;
    ShutValid(t.clients[i]);
  }

  lemma DroppedKeepsSound(t: Table)
    requires Sound(t)
    ensures var g := Dropped(t.gate).0; Sound(Table(t.clients, g, (g.epoch, g.outputsEnabled)))
  {
    hide Client.Valid;
  }

  lemma ReplacedKeepsSound(t: Table, i: nat, d: Client)
    requires Sound(t) && i < |t.clients| && d.Valid() && d.id == t.clients[i].id && d.open == t.clients[i].open
    ensures Sound(t.(clients := t.clients[i := d]))
  {
    hide Client.Valid;
    if t.gate.controller.Some? {
      var j :| 0 <= j < |t.clients| && t.clients[j].open && t.gate.HeldBy(t.clients[j].id);
      assert t.clients[i := d][j].open && t.gate.HeldBy(t.clients[i := d][j].id);
    }
  }

  lemma CountedValid(c: Client, now: Time)
    requires c.Valid()
    ensures Counted(c, now).Valid()
  {
  }

  lemma RefusedKeepsSound(t: Table, i: nat, now: Time)
    requires Sound(t) && i < |t.clients|
    ensures Sound(t.(clients := t.clients[i := Counted(t.clients[i], now)])) && Sound(Refused(t, i, now))
  {
    hide Sound, Closed, Client.Valid;
    assert t.clients[i].Valid() by {
      SoundAt(t, i);
    }
    var d := Counted(t.clients[i], now);
    CountedValid(t.clients[i], now);
    ReplacedKeepsSound(t, i, d);
    ClosedKeepsSound(t.(clients := t.clients[i := d]), i, now);
  }

  lemma SoundAt(t: Table, i: nat)
    requires Sound(t) && i < |t.clients|
    ensures t.clients[i].Valid()
  {
  }

  lemma FlushedKeepsSound(t: Table, i: nat, results: seq<SendResult>, now: Time)
    requires Sound(t) && i < |t.clients|
    ensures t.clients[i].Valid() && Sound(Flushed(t, i, results, now))
  {
    hide Sound, Closed, Client.Valid, Flushing;
    SoundAt(t, i);
    var c := Flushing(t.clients[i], results).0;
    ReplacedKeepsSound(t, i, c);
    ClosedKeepsSound(t.(clients := t.clients[i := c]), i, now);
  }

  lemma SoundGate(t: Table)
    requires Sound(t)
    ensures t.gate.Valid()
  {
  }

  lemma SoundDistinct(t: Table)
    requires Sound(t)
    ensures Distinct(t.clients)
  {
  }

  lemma QueuedKeepsSound(t: Table, i: nat, frame: seq<byte>, required: bool, now: Time)
    requires Sound(t) && i < |t.clients|
    ensures Sound(Queued(t, i, frame, required, now))
  {
    hide Sound, Closed, Client.Valid, Refused;
    SoundAt(t, i);
    if HasRoom(t.clients[i], |frame|) {
      EnqueuedValid(t.clients[i], frame, required);
      ReplacedKeepsSound(t, i, Enqueued(t.clients[i], frame, required));
    } else if required {
      ClosedKeepsSound(t, i, now);
    } else {
      RefusedKeepsSound(t, i, now);
    }
  }

  lemma QueuedAllKeepsSound(t: Table, i: nat, frames: seq<seq<byte>>, now: Time)
    requires Sound(t) && i < |t.clients| && forall k :: 0 <= k < |frames| ==> frames[k] != []
    ensures Sound(QueuedAll(t, i, frames, now))
  {
    SoundAt(t, i);
    var c := t.clients[i];
    assert c.open ==> c.bytes <= MAXIMUM_OUTPUT;
    hide Sound, Closed, Client.Valid, Refused, Joined;
    if c.open && |Joined(frames)| <= MAXIMUM_OUTPUT - Min(c.bytes, MAXIMUM_OUTPUT) {
      AppendedValid(c, frames);
      ReplacedKeepsSound(t, i, Appended(c, frames, |Joined(frames)|));
    } else {
      RefusedKeepsSound(t, i, now);
    }
  }

  /** While nobody holds the lease, queueing an optional frame is just offering it. */
  lemma OfferedIsQueued(t: Table, i: nat, frame: seq<byte>, now: Time)
    requires i < |t.clients| && t.gate.controller.None? && t.clients[i].open
    ensures Queued(t, i, frame, false, now) == t.(clients := t.clients[i := Offered(t.clients[i], frame, now)])
  {
  }

  /** The first `n` clients have been notified. */
  function NotifiedTo(clients: seq<Client>, frame: seq<byte>, now: Time, n: nat): (r: seq<Client>)
    ensures |r| == |clients|
  {
    seq(|clients|, k requires 0 <= k < |clients| => if k < n then Notification(clients[k], frame, now) else clients[k])
  }

  lemma NotifiedStart(clients: seq<Client>, frame: seq<byte>, now: Time)
    ensures NotifiedTo(clients, frame, now, 0) == clients
    ensures NotifiedTo(clients, frame, now, |clients|) == Notified(clients, frame, now)
  {
  }

  lemma NotifiedNext(clients: seq<Client>, frame: seq<byte>, now: Time, n: nat)
    requires n < |clients|
    ensures
      var r := NotifiedTo(clients, frame, now, n);
      r[n] == clients[n] && NotifiedTo(clients, frame, now, n + 1) == r[n := Notification(r[n], frame, now)]
  {
    hide Notification;
  }

  lemma MarkedValid(clients: seq<Client>, id: ClientId)
    requires AllValid(clients) && Distinct(clients)
    ensures AllValid(Marked(clients, id)) && Distinct(Marked(clients, id))
  {
  }

  lemma AdvancedKeepsSound(t: Table, reason: DisableReason, bus: nat, now: Time)
    requires Sound(t)
    ensures Sound(Advanced(t, reason, bus, now))
  {
    hide Client.Valid, AllValid, Distinct, Notified, DisabledFrame, Marked;
    var g := Dropped(t.gate).0;
    var clients := Notified(t.clients, DisabledFrame(reason, bus, g.epoch), now);
    NotifiedValid(t.clients, DisabledFrame(reason, bus, g.epoch), now);
    if t.gate.controller.Some? {
      MarkedValid(clients, t.gate.controller.value.id);
    }
  }

  lemma AckedKeepsSound(t: Table, i: nat, requestId: nat, status: AckStatus, now: Time)
    requires Sound(t) && i < |t.clients|
    ensures Sound(Acked(t, i, requestId, status, now)) && |Acked(t, i, requestId, status, now).clients| == |t.clients|
    ensures t.gate.controller.None? ==> Acked(t, i, requestId, status, now).gate == t.gate
  {
    hide Sound, Encode, Notified, DisabledFrame, Enqueued;
    QueuedKeepsSound(t, i, Encode(Ack(requestId, status)), true, now);
    AckedSize(t, i, requestId, status, now);
  }

  /** A gate that keeps its lease, or has dropped it, goes with the same clients. */
  lemma GateKeepsSound(t: Table, g: Gate)
    requires Sound(t) && g.Valid()
    requires g.controller.Some? ==> t.gate.controller.Some? && g.controller.value.id == t.gate.controller.value.id
    ensures Sound(t.(gate := g)) && Sound(Told(t.(gate := g)))
  {
    hide AllValid, Distinct;
    if g.controller.Some? {
      var j :| 0 <= j < |t.clients| && t.clients[j].open && t.gate.HeldBy(t.clients[j].id);
      assert g.HeldBy(t.clients[j].id);
    }
  }

  lemma FarewellKeepsSound(t: Table, i: nat, now: Time)
    requires Sound(t) && i < |t.clients| && t.gate.controller.None?
    ensures Sound(Farewell(t, i, now))
  {
    hide Client.Valid, Notified, DisabledFrame;
    NotifiedValid(t.clients, DisabledFrame(Requested, EVERY_BUS, t.gate.epoch), now);
    var clients := Notified(t.clients, DisabledFrame(Requested, EVERY_BUS, t.gate.epoch), now);
    MarkingIsHarmless(clients[i]);
  }

  lemma MarkingIsHarmless(c: Client)
    requires c.Valid()
    ensures c.(closeAfterWrite := true).Valid()
  {
  }

  lemma EnableKeepsSound(t: Table, i: nat, requestId: nat, epoch: nat, enabled: bool, healthy: bool, now: Time)
    requires Sound(t) && i < |t.clients|
    ensures Sound(EnableHandled(t, i, requestId, epoch, enabled, healthy, now))
  {
    var (g, r) := OutputEnableSet(t.gate, t.clients[i].id, epoch, enabled, healthy, now);
    GateKeepsSound(t, g);
    hide Sound, Acked, Farewell;
    var u := Told(t.(gate := g));
    AckedKeepsSound(u, i, requestId, r.status, now);
    if r.status == Ok && !enabled {
      FarewellKeepsSound(Acked(u, i, requestId, r.status, now), i, now);
    }
  }

  lemma ReleaseKeepsSound(t: Table, i: nat, requestId: nat, epoch: nat, now: Time)
    requires Sound(t) && i < |t.clients|
    ensures Sound(ReleaseHandled(t, i, requestId, epoch, now))
  {
    var (g, r) := Released(t.gate, t.clients[i].id, epoch);
    GateKeepsSound(t, g);
    hide Acked, Farewell;
    AckedKeepsSound(t.(gate := g), i, requestId, r.status, now);
    var u := Acked(t.(gate := g), i, requestId, r.status, now);
    if r.epochChanged {
      FarewellKeepsSound(Told(u), i, now);
    }
  }

  lemma UnlockKeepsSound(t: Table, i: nat, requestId: nat, epoch: nat, known: bool, bus: nat, now: Time)
    requires Sound(t) && i < |t.clients|
    ensures Sound(UnlockHandled(t, i, requestId, epoch, known, bus, now))
  {
    hide Sound, Acked, Advanced;
    AckedKeepsSound(t, i, requestId, Authorization(t.gate, t.clients[i].id, epoch), now);
    AckedKeepsSound(t, i, requestId, BadTarget, now);
    AckedKeepsSound(t, i, requestId, Ok, now);
    AdvancedKeepsSound(Acked(t, i, requestId, Ok, now), AdapterMismatch, bus, now);
  }

  lemma ThrottledKeepsSound(t: Table, i: nat, now: Time)
    requires Sound(t) && i < |t.clients|
    ensures Sound(Throttled(t, i, now))
  {
    SoundAt(t, i);
    MarkingIsHarmless(t.clients[i]);
    hide Sound, Queued;
    var u := t.(clients := t.clients[i := t.clients[i].(closeAfterWrite := true)]);
    ReplacedKeepsSound(t, i, t.clients[i].(closeAfterWrite := true));
    QueuedKeepsSound(u, i, Encode(Ack(0, QueueFull).(code := 0x85)), true, now);
  }

  lemma TimeoutsKeepSound(t: Table, now: Time)
    requires Sound(t)
    ensures Sound(TimeoutsHandled(t, now))
  {
    hide Sound, Advanced;
    AdvancedKeepsSound(t, OutputCommandTimeout, EVERY_BUS, now);
    AdvancedKeepsSound(t, HeartbeatTimeout, EVERY_BUS, now);
  }

  /** The table once a client that asked for the lease has been served, and greeted. */
  lemma AcquiredKeepsSound(t: Table, i: nat, wantsLease: bool, pid: nat, now: Time)
    requires Sound(t) && i < |t.clients| && t.clients[i].open
    ensures
      var (g, r) := Acquired(t.gate, t.clients[i].id, pid, now);
      var u := if wantsLease && r.status == Ok then Told(t.(gate := g)) else t;
      Sound(u.(clients := u.clients[i := u.clients[i].(hello := true)]))
  {
    var c := t.clients[i];
    var (g, r) := Acquired(t.gate, c.id, pid, now);
    var u := if wantsLease && r.status == Ok then Told(t.(gate := g)) else t;
    assert Sound(u) by {
      hide AllValid, Distinct;
      if wantsLease && r.status == Ok {
        assert ControllerConnected(t.clients, g);
      }
    }
    hide Sound;
    SoundAt(t, i);
    GreetedValid(c);
    ReplacedKeepsSound(u, i, c.(hello := true));
  }

  lemma HelloKeepsSound(t: Table, i: nat, wantsLease: bool, pid: nat, ack: Frame, now: Time)
    requires Sound(t) && i < |t.clients| && t.clients[i].open
    ensures Sound(HelloHandled(t, i, wantsLease, pid, ack, now))
  {
    hide Sound;
    AcquiredKeepsSound(t, i, wantsLease, pid, now);
    var (g, r) := Acquired(t.gate, t.clients[i].id, pid, now);
    var u := if wantsLease && r.status == Ok then Told(t.(gate := g)) else t;
    QueuedKeepsSound(u.(clients := u.clients[i := t.clients[i].(hello := true)]), i, Encode(ack), true, now);
  }

  lemma GreetedValid(c: Client)
    requires c.Valid()
    ensures c.(hello := true).Valid()
  {
  }

  lemma WriteKeepsSound(t: Table, i: nat, requestId: nat, epoch: nat, verdict: AckStatus, now: Time)
    requires Sound(t) && i < |t.clients|
    ensures Sound(WriteHandled(t, i, requestId, epoch, verdict, now))
  {
    var (g, r) := WriteRecorded(t.gate, t.clients[i].id, epoch, now);
    GateKeepsSound(t, g);
    hide Sound, Acked;
    AckedKeepsSound(t, i, requestId, WriteAuthorization(t.gate, t.clients[i].id, epoch), now);
    AckedKeepsSound(t, i, requestId, verdict, now);
    AckedKeepsSound(t.(gate := g), i, requestId, r.status, now);
  }

  lemma HeartbeatKeepsSound(t: Table, i: nat, requestId: nat, epoch: nat, now: Time)
    requires Sound(t) && i < |t.clients|
    ensures Sound(HeartbeatHandled(t, i, requestId, epoch, now))
  {
    var (g, r) := Beaten(t.gate, t.clients[i].id, epoch, now);
    GateKeepsSound(t, g);
    hide Sound, Acked;
    AckedKeepsSound(t.(gate := g), i, requestId, r.status, now);
  }

  // ---------------------------------------------------------------- the code

  class Clients {
    var clients: seq<Client>
    const safety: SafetyGate
    var applied: (nat, bool)

    ghost function View(): Table
      reads this, safety
    {
      Table(clients, safety.State(), applied)
    }

    ghost predicate Valid()
      reads this, safety
    {
      Sound(View())
    }

    /** How deep the calls below may still nest: closing the controller is the only step that broadcasts. */
    ghost function Depth(): nat
      reads this, safety
    {
      if safety.controller.Some? then 1 else 0
    }

    constructor (safety: SafetyGate)
      requires safety.State().Valid() && safety.controller.None?
      ensures Valid() && clients == [] && this.safety == safety
    {
      this.safety := safety;
      clients := [];
      applied := (safety.epoch, safety.outputsEnabled);
    }

    method CloseClient(i: nat, now: Time)
      requires Valid() && i < |clients|
      modifies this, safety
      ensures Valid() && View() == Closed(old(View()), i, now)
      decreases Depth(), 0
    {
      ClosedKeepsSound(View(), i, now);
      hide Sound, Notified, DisabledFrame;
      var c := clients[i];
      if !c.open {
        return;
      }
      var controller := safety.controller.Some? && safety.controller.value.id == c.id;
      clients := clients[i := Shut(c)];
      if controller {
        ShutKeepsSound(old(View()), i);
        var result := safety.Disconnect(c.id);
        if result.epochChanged {
          applied := (safety.epoch, safety.outputsEnabled);
          BroadcastOutputsDisabled(Disconnect, EVERY_BUS, now);
        }
      }
    }

    /** Called only after the lease has been dropped. */
    method BroadcastOutputsDisabled(reason: DisableReason, bus: nat, now: Time)
      requires Valid() && safety.controller.None?
      modifies this, safety
      ensures Valid()
      ensures
        var frame := DisabledFrame(reason, bus, old(safety.epoch));
        View() == old(View()).(clients := Notified(old(clients), frame, now))
      decreases Depth(), 4
    {
      hide Sound, DisabledFrame, Notification;
      var frame := DisabledFrame(reason, bus, safety.epoch);
      ghost var t := View();
      NotifiedStart(clients, frame, now);
      for i := 0 to |clients|
        invariant Valid() && i <= |clients| == |t.clients|
        invariant View() == t.(clients := NotifiedTo(t.clients, frame, now, i))
      {
        NotifiedNext(t.clients, frame, now, i);
        Notify(i, frame, now);
      }
    }

    method Notify(i: nat, frame: seq<byte>, now: Time)
      requires Valid() && safety.controller.None? && i < |clients|
      modifies this, safety
      ensures Valid() && View() == old(View()).(clients := old(clients)[i := Notification(old(clients)[i], frame, now)])
      decreases Depth(), 3
    {
      hide Sound, Offered;
      if clients[i].hello && clients[i].open {
        OfferedIsQueued(View(), i, frame, now);
        var ok := QueueFrame(i, frame, false, now);
      }
    }

    /** Count a frame that found no room, and give up on a client that has stalled. */
    method Refuse(i: nat, now: Time)
      requires Valid() && i < |clients|
      modifies this, safety
      ensures Valid() && View() == Refused(old(View()), i, now)
      decreases Depth(), 1
    {
      RefusedKeepsSound(View(), i, now);
      hide Sound, Closed;
      clients := clients[i := Counted(clients[i], now)];
      if clients[i].drops >= MAXIMUM_DROPS || now - clients[i].firstDrop >= MAXIMUM_STALL {
        CloseClient(i, now);
      }
    }

    method QueueFrame(i: nat, frame: seq<byte>, required: bool, now: Time) returns (ok: bool)
      requires Valid() && i < |clients|
      modifies this, safety
      ensures Valid() && View() == Queued(old(View()), i, frame, required, now)
      ensures ok <==> old(HasRoom(clients[i], |frame|))
      decreases Depth(), 2
    {
      QueuedKeepsSound(View(), i, frame, required, now);
      hide Sound, Closed, Refused, Appended;
      var c := clients[i];
      if !c.open || frame == [] || |frame| > MAXIMUM_OUTPUT - Min(c.bytes, MAXIMUM_OUTPUT) {
        if required {
          CloseClient(i, now);
        } else {
          Refuse(i, now);
        }
        return false;
      }
      if !required && c.drops != 0 && c.bytes < MAXIMUM_OUTPUT / 4 {
        c := c.(drops := 0);
      }
      clients := clients[i := Appended(c, [frame], |frame|)];
      ok := true;
    }

    method QueueFramesAtomically(i: nat, frames: seq<seq<byte>>, totalBytes: nat, now: Time) returns (ok: bool)
      requires Valid() && i < |clients| && totalBytes == |Joined(frames)|
      requires forall k :: 0 <= k < |frames| ==> frames[k] != []
      modifies this, safety
      ensures Valid() && View() == QueuedAll(old(View()), i, frames, now)
    {
      QueuedAllKeepsSound(View(), i, frames, now);
      hide Sound, Closed, Refused;
      var c := clients[i];
      if !c.open || totalBytes > MAXIMUM_OUTPUT - Min(c.bytes, MAXIMUM_OUTPUT) {
        Refuse(i, now);
        return false;
      }
      var outgoing, sent := c.outgoing, c.sent;
      for k := 0 to |frames|
        invariant outgoing == c.outgoing + frames[..k] && sent == c.sent + frames[..k]
      {
        outgoing, sent := outgoing + [frames[k]], sent + [frames[k]];
      }
      assert frames[..|frames|] == frames;
      clients := clients[i := c.(outgoing := outgoing, sent := sent, bytes := c.bytes + totalBytes)];
      ok := true;
    }

    method FlushClient(i: nat, results: seq<SendResult>, now: Time)
      requires Valid() && i < |clients|
      modifies this, safety
      ensures old(clients[i].Valid()) && Valid() && View() == Flushed(old(View()), i, results, now)
    {
      FlushedKeepsSound(View(), i, results, now);
      hide Sound, Closed, Client.Valid;
      ghost var t := View();
      ghost var whole := Flushing(clients[i], results);
      ReplacedKeepsSound(t, i, whole.0);
      var c, n := clients[i], 0;
      var close := false;
      while c.open && c.outgoing != [] && n < |results|
        invariant View() == t && !close
        invariant n <= |results| && c.Valid() && Flushing(c, results[n..]) == whole
        decreases |results| - n
      {
        var result := results[n];
        n := n + 1;
        match result {
          case WouldBlock =>
            clients := clients[i := c];
            return;
          case Interrupted => continue;
          case Failed =>
            close := true;
            break;
          case Accepted(count) =>
            if count == 0 {
              close := true;
              break;
            }
            FrontFits(c);
            var taken := Min(count, |c.outgoing[0]| - c.offset);
            WrittenValid(c, taken);
            c := Written(c, taken);
        }
      }
      clients := clients[i := c];
      if close || (c.closeAfterWrite && c.outgoing == []) {
        CloseClient(i, now);
      }
    }

    method AdvanceEpoch(reason: DisableReason, bus: nat, now: Time)
      requires Valid()
      modifies this, safety
      ensures Valid() && View() == Advanced(old(View()), reason, bus, now)
      ensures safety.State() == Dropped(old(safety.State())).0 && applied == (safety.epoch, false)
    {
      AdvancedKeepsSound(View(), reason, bus, now);
      DroppedKeepsSound(View());
      assert safety.State().Valid();
      hide Sound, DisabledFrame, Notified;
      var controller := safety.controller;
      var result := safety.DropControllerAndAdvanceEpoch();
      applied := (safety.epoch, safety.outputsEnabled);
      BroadcastOutputsDisabled(reason, bus, now);
      if controller.Some? {
        SoundDistinct(View());
        MarkController(controller.value.id);
      }
    }

    /** Find the open client with this identifier and let it drain. */
    method MarkController(id: ClientId)
      requires Distinct(clients)
      modifies this`clients
      ensures clients == Marked(old(clients), id)
    {
      var i := 0;
      while i < |clients| && !(clients[i].id == id && clients[i].open)
        invariant i <= |clients| && forall j :: 0 <= j < i ==> !(clients[j].id == id && clients[j].open)
      {
        i := i + 1;
      }
      if i < |clients| {
        clients := clients[i := clients[i].(closeAfterWrite := true)];
      }
    }

    method QueueAck(i: nat, requestId: nat, status: AckStatus, now: Time) returns (ok: bool)
      requires Valid() && i < |clients|
      modifies this, safety
      ensures Valid() && View() == Acked(old(View()), i, requestId, status, now)
      ensures ok <==> old(HasRoom(clients[i], ACK_BYTES))
      ensures ok ==> safety.State() == old(safety.State()) && applied == old(applied)
    {
      AckSize(requestId, status);
      hide Sound, Encode, Closed, Enqueued;
      ok := QueueFrame(i, Encode(Ack(requestId, status)), true, now);
    }

    method SayFarewell(i: nat, now: Time)
      requires Valid() && i < |clients| && safety.controller.None?
      modifies this, safety
      ensures Valid() && View() == Farewell(old(View()), i, now)
    {
      FarewellKeepsSound(View(), i, now);
      hide Sound, Notified, DisabledFrame;
      BroadcastOutputsDisabled(Requested, EVERY_BUS, now);
      clients := clients[i := clients[i].(closeAfterWrite := true)];
    }

    method HandleHello(i: nat, wantsLease: bool, pid: nat, ack: Frame, now: Time) returns (ok: bool)
      requires Valid() && i < |clients| && clients[i].open
      modifies this, safety
      ensures Valid() && View() == HelloHandled(old(View()), i, wantsLease, pid, ack, now)
    {
      HelloKeepsSound(View(), i, wantsLease, pid, ack, now);
      AcquiredKeepsSound(View(), i, wantsLease, pid, now);
      assert safety.State().Valid();
      hide Sound, Queued, Encode;
      if wantsLease {
        var acquisition := safety.Acquire(clients[i].id, pid, now);
        if acquisition.status == Ok {
          applied := (safety.epoch, safety.outputsEnabled);
        }
      }
      clients := clients[i := clients[i].(hello := true)];
      ok := QueueFrame(i, Encode(ack), true, now);
    }

    method HandleHeartbeat(i: nat, requestId: nat, epoch: nat, now: Time) returns (ok: bool)
      requires Valid() && i < |clients|
      modifies this, safety
      ensures Valid() && View() == HeartbeatHandled(old(View()), i, requestId, epoch, now)
      ensures ok <==> old(HasRoom(clients[i], ACK_BYTES))
      ensures ok && old(safety.State().HeldBy(clients[i].id)) && epoch == old(safety.epoch) ==>
        safety.controller == Some(old(safety.controller).value.(lastHeartbeat := now))
        && safety.State() == old(safety.State()).(controller := safety.controller)
      ensures ok && !(old(safety.State().HeldBy(clients[i].id)) && epoch == old(safety.epoch)) ==>
        safety.State() == old(safety.State())
    {
      assert safety.State().Valid();
      ghost var t := View();
      GateKeepsSound(t, Beaten(t.gate, clients[i].id, epoch, now).0);
      hide Sound, Acked;
      var result := safety.Heartbeat(clients[i].id, epoch, now);
      ok := QueueAck(i, requestId, result.status, now);
    }

    method HandleOutputWrite(i: nat, requestId: nat, epoch: nat, verdict: AckStatus, now: Time) returns (ok: bool)
      requires Valid() && i < |clients|
      modifies this, safety
      ensures Valid() && View() == WriteHandled(old(View()), i, requestId, epoch, verdict, now)
      ensures ok <==> old(HasRoom(clients[i], ACK_BYTES))
      ensures
        var fed := old(safety.State().HeldBy(clients[i].id)) && epoch == old(safety.epoch)
                   && old(safety.outputsEnabled) && verdict == Ok;
        ok ==>
          safety.State() == if fed then old(safety.State()).(lastOutputCommand := now) else old(safety.State())
    {
      assert safety.State().Valid();
      ghost var t := View();
      GateKeepsSound(t, WriteRecorded(t.gate, clients[i].id, epoch, now).0);
      hide Sound, Acked;
      var authorization := WriteAuthorization(safety.State(), clients[i].id, epoch);
      if authorization != Ok {
        ok := QueueAck(i, requestId, authorization, now);
        return;
      }
      if verdict == Ok {
        var refreshed := safety.RecordOutputWrite(clients[i].id, epoch, now);
        if refreshed.status != Ok {
          assert false;
        }
      }
      ok := QueueAck(i, requestId, verdict, now);
    }

    method HandleOutputEnable(i: nat, requestId: nat, epoch: nat, enabled: bool, healthy: bool, now: Time)
      requires Valid() && i < |clients|
      modifies this, safety
      ensures Valid() && View() == EnableHandled(old(View()), i, requestId, epoch, enabled, healthy, now)
    {
      assert safety.State().Valid();
      ghost var t := View();
      GateKeepsSound(t, OutputEnableSet(t.gate, clients[i].id, epoch, enabled, healthy, now).0);
      hide Sound, Acked, Farewell;
      var result := safety.SetOutputEnabled(clients[i].id, epoch, enabled, healthy, now);
      applied := (safety.epoch, safety.outputsEnabled);
      AckedKeepsSound(View(), i, requestId, result.status, now);
      var queued := QueueAck(i, requestId, result.status, now);
      if result.status == Ok && !enabled {
        SayFarewell(i, now);
      }
    }

    method HandleRelease(i: nat, requestId: nat, epoch: nat, now: Time)
      requires Valid() && i < |clients|
      modifies this, safety
      ensures Valid() && View() == ReleaseHandled(old(View()), i, requestId, epoch, now)
    {
      assert safety.State().Valid();
      ghost var t := View();
      GateKeepsSound(t, Released(t.gate, clients[i].id, epoch).0);
      hide Sound, Acked, Farewell;
      var result := safety.Release(clients[i].id, epoch);
      AckedKeepsSound(View(), i, requestId, result.status, now);
      var queued := QueueAck(i, requestId, result.status, now);
      if result.epochChanged {
        SoundGate(View());
        GateKeepsSound(View(), View().gate);
        applied := (safety.epoch, safety.outputsEnabled);
        SayFarewell(i, now);
      }
    }

    method HandleAdapterUnlock(i: nat, requestId: nat, epoch: nat, known: bool, bus: nat, now: Time)
      requires Valid() && i < |clients|
      modifies this, safety
      ensures Valid() && View() == UnlockHandled(old(View()), i, requestId, epoch, known, bus, now)
      ensures
        var granted := known && old(safety.State().HeldBy(clients[i].id)) && epoch == old(safety.epoch);
        && (granted ==> safety.controller.None? && !safety.outputsEnabled && applied == (safety.epoch, false))
        && (granted && old(HasRoom(clients[i], ACK_BYTES)) ==> safety.epoch == NextEpoch(old(safety.epoch)))
        && (!granted && old(HasRoom(clients[i], ACK_BYTES)) ==>
              safety.State() == old(safety.State()) && applied == old(applied))
    {
      hide Sound, Acked, Advanced;
      var authorization := Authorization(safety.State(), clients[i].id, epoch);
      if authorization != Ok {
        var queued := QueueAck(i, requestId, authorization, now);
        return;
      }
      if !known {
        var queued := QueueAck(i, requestId, BadTarget, now);
        return;
      }
      var queued := QueueAck(i, requestId, Ok, now);
      AdvanceEpoch(AdapterMismatch, bus, now);
    }

    method HandleSafetyTimeouts(now: Time)
      requires Valid()
      modifies this, safety
      ensures Valid() && View() == TimeoutsHandled(old(View()), now)
    {
      SoundGate(View());
      TimeoutsKeepSound(View(), now);
      DroppedKeepsSound(View());
      hide Sound, DisabledFrame, Notified;
      var controller := safety.controller;
      var result := safety.ExpireOutputCommands(now);
      if result.epochChanged {
        applied := (safety.epoch, safety.outputsEnabled);
        Expel(OutputCommandTimeout, controller, now);
        return;
      }
      controller := safety.controller;
      result := safety.Expire(now);
      if !result.epochChanged {
        return;
      }
      applied := (safety.epoch, safety.outputsEnabled);
      Expel(HeartbeatTimeout, controller, now);
    }

    /** The broadcast after a watchdog, and the end of the client that held the lease. */
    method Expel(reason: DisableReason, controller: Option<Controller>, now: Time)
      requires Valid() && safety.controller.None?
      modifies this, safety
      ensures
        var notified := Notified(old(clients), DisabledFrame(reason, EVERY_BUS, old(safety.epoch)), now);
        View() == old(View()).(clients := if controller.Some? then Marked(notified, controller.value.id) else notified)
    {
      hide Sound, DisabledFrame, Notified;
      BroadcastOutputsDisabled(reason, EVERY_BUS, now);
      if controller.Some? {
        SoundDistinct(View());
        MarkController(controller.value.id);
      }
    }
  }

  function Encoded(frames: seq<Frame>): (r: seq<seq<byte>>)
    ensures |r| == |frames|
  {
    seq(|frames|, k requires 0 <= k < |frames| => Encode(frames[k]))
  }

  lemma {:induction false} JoinedIsEncodeAll(frames: seq<Frame>)
    ensures Joined(Encoded(frames)) == EncodeAll(frames)
  {
    hide Encode, Joined;
    if frames == [] {
      assert Encoded(frames) == [];
      JoinedNone();
    } else {
      JoinedIsEncodeAll(frames[1..]);
      JoinedTail(Encoded(frames));
      assert Encoded(frames)[1..] == Encoded(frames[1..]);
    }
  }

  /** At any moment, open or closed, what a client reads is a prefix of the frames queued to it, each one whole. */
  lemma WireCarriesWholeFrames(c: Client, frames: seq<Frame>, pieces: seq<seq<byte>>)
    requires c.Valid() && forall k :: 0 <= k < |frames| ==> frames[k].Encodable()
    requires c.sent == Encoded(frames)
    requires SocketReads(pieces) && Joined(pieces) <= c.wire
    ensures FeedAll(pieces).decoder.error == NoError && FeedAll(pieces).frames <= frames
  {
    WireIsPrefix(c);
    hide Encode, Joined, EncodeAll, FeedAll, Client.Valid;
    JoinedIsEncodeAll(frames);
    PrefixDecodes(frames, pieces);
  }

  lemma WireIsPrefix(c: Client)
    requires c.Valid()
    ensures c.wire <= Joined(c.sent)
  {
    hide Joined;
    if c.open {
      assert c.wire <= c.wire + c.Pending();
    }
  }
}
