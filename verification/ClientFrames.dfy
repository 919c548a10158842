/** How the history of what is queued to a client grows: only by what an event brings, answers or broadcasts. */
module ClientFrames {
  import opened Common
  import opened Bytes
  import opened Framing
  import opened SafetyGates
  import opened ClientTable
  import opened ClientEvents

  /** `t` continues `s` with nothing but allowed frames. */
  ghost predicate Extends(s: seq<seq<byte>>, t: seq<seq<byte>>, allowed: iset<seq<byte>>) {
    s <= t && forall k :: |s| <= k < |t| ==> t[k] in allowed
  }

  ghost predicate AllExtend(before: seq<Client>, after: seq<Client>, allowed: iset<seq<byte>>) {
    |after| == |before| && forall i :: 0 <= i < |before| ==> Extends(before[i].sent, after[i].sent, allowed)
  }

  /** Every client afterwards is a former one whose history has grown by allowed frames, or a new one. */
  ghost predicate Grown(before: seq<Client>, after: seq<Client>, allowed: iset<seq<byte>>) {
    forall j :: 0 <= j < |after| ==> after[j].sent == [] || GrownFrom(before, after[j].sent, allowed)
  }

  ghost predicate GrownFrom(before: seq<Client>, sent: seq<seq<byte>>, allowed: iset<seq<byte>>) {
    exists i :: 0 <= i < |before| && Extends(before[i].sent, sent, allowed)
  }

  ghost predicate Broadcasts(allowed: iset<seq<byte>>) {
    forall reason, bus, epoch :: DisabledFrame(reason, bus, epoch) in allowed
  }

  ghost predicate Answers(requestId: nat, allowed: iset<seq<byte>>) {
    forall status :: Encode(Ack(requestId, status)) in allowed
  }

  function Throttling(): seq<byte> { Encode(Ack(0, QueueFull).(code := 0x85)) }

  /** The frames that the event itself hands to a client. */
  ghost predicate Brings(e: Event, allowed: iset<seq<byte>>) {
    match e
    case Hello(_, _, _, ack) => Encode(ack) in allowed
    case Heartbeat(_, requestId, _) => Answers(requestId, allowed)
    case Enable(_, requestId, _, _, _) => Answers(requestId, allowed)
    case Write(_, requestId, _, _) => Answers(requestId, allowed)
    case Release(_, requestId, _) => Answers(requestId, allowed)
    case Unlock(_, requestId, _, _, _) => Answers(requestId, allowed)
    case Throttle(_) => Throttling() in allowed
    case Queue(_, frame, _) => Encode(frame) in allowed
    case Publish(_, frames) => forall k :: 0 <= k < |frames| ==> frames[k] in allowed
    case _ => true
  }

  lemma Chains(a: seq<Client>, b: seq<Client>, c: seq<Client>, allowed: iset<seq<byte>>)
    requires AllExtend(a, b, allowed) && AllExtend(b, c, allowed)
    ensures AllExtend(a, c, allowed)
  {
    forall i | 0 <= i < |a| ensures Extends(a[i].sent, c[i].sent, allowed) {
      var (s, t, u) := (a[i].sent, b[i].sent, c[i].sent);
      assert Extends(s, t, allowed) && Extends(t, u, allowed);
      forall k | |s| <= k < |u| ensures u[k] in allowed {
        assert k < |t| ==> u[k] == t[k];
      }
    }
  }

  lemma NotifiedExtends(clients: seq<Client>, frame: seq<byte>, now: Time, allowed: iset<seq<byte>>)
    requires frame in allowed
    ensures AllExtend(clients, Notified(clients, frame, now), allowed)
  {
  }

  lemma ClosedExtends(t: Table, i: nat, now: Time, allowed: iset<seq<byte>>)
    requires i < |t.clients| && Broadcasts(allowed)
    ensures AllExtend(t.clients, Closed(t, i, now).clients, allowed)
  {
    hide Notified, DisabledFrame;
    var (shut, g) := (t.clients[i := Shut(t.clients[i])], Dropped(t.gate).0);
    NotifiedExtends(shut, DisabledFrame(Disconnect, EVERY_BUS, g.epoch), now, allowed);
  }

  lemma RefusedExtends(t: Table, i: nat, now: Time, allowed: iset<seq<byte>>)
    requires i < |t.clients| && Broadcasts(allowed)
    ensures AllExtend(t.clients, Refused(t, i, now).clients, allowed)
  {
    hide Closed, Broadcasts;
    ClosedExtends(t.(clients := t.clients[i := Counted(t.clients[i], now)]), i, now, allowed);
  }

  lemma QueuedExtends(t: Table, i: nat, frame: seq<byte>, required: bool, now: Time, allowed: iset<seq<byte>>)
    requires i < |t.clients| && Broadcasts(allowed) && frame in allowed
    ensures AllExtend(t.clients, Queued(t, i, frame, required, now).clients, allowed)
  {
    hide Closed, Refused, Broadcasts;
    ClosedExtends(t, i, now, allowed);
    RefusedExtends(t, i, now, allowed);
  }

  /** A publication reaches one client whole; all else that happens meanwhile is broadcasts. */
  lemma QueuedAllExtends(t: Table, i: nat, frames: seq<seq<byte>>, now: Time, allowed: iset<seq<byte>>)
    requires i < |t.clients| && Broadcasts(allowed)
    ensures
      var (before, after) := (t.clients, QueuedAll(t, i, frames, now).clients);
      || AllExtend(before, after, allowed)
      || after == before[i := after[i].(sent := before[i].sent + frames)]
  {
    hide Refused, Broadcasts, Joined;
    RefusedExtends(t, i, now, allowed);
  }

  lemma {:induction false} FlushingSendsNothing(c: Client, results: seq<SendResult>)
    requires c.Valid()
    ensures Flushing(c, results).0.sent == c.sent
    decreases |results|
  {
    hide Client.Valid;
    if c.open && c.outgoing != [] && results != [] {
      match results[0] {
        case Interrupted => FlushingSendsNothing(c, results[1..]);
        case Accepted(count) =>
          if count != 0 {
            FrontFits(c);
            var n := Min(count, |c.outgoing[0]| - c.offset);
            WrittenValid(c, n);
            FlushingSendsNothing(Written(c, n), results[1..]);
          }
        case _ =>
      }
    }
  }

  lemma FlushedExtends(t: Table, i: nat, results: seq<SendResult>, now: Time, allowed: iset<seq<byte>>)
    requires i < |t.clients| && t.clients[i].Valid() && Broadcasts(allowed)
    ensures AllExtend(t.clients, Flushed(t, i, results, now).clients, allowed)
  {
    hide Closed, Broadcasts, Flushing, Client.Valid;
    FlushingSendsNothing(t.clients[i], results);
    ClosedExtends(t.(clients := t.clients[i := Flushing(t.clients[i], results).0]), i, now, allowed);
  }

  lemma AdvancedExtends(t: Table, reason: DisableReason, bus: nat, now: Time, allowed: iset<seq<byte>>)
    requires Broadcasts(allowed)
    ensures AllExtend(t.clients, Advanced(t, reason, bus, now).clients, allowed)
  {
    hide Notified, DisabledFrame;
    NotifiedExtends(t.clients, DisabledFrame(reason, bus, Dropped(t.gate).0.epoch), now, allowed);
  }

  lemma FarewellExtends(t: Table, i: nat, now: Time, allowed: iset<seq<byte>>)
    requires i < |t.clients| && Broadcasts(allowed)
    ensures AllExtend(t.clients, Farewell(t, i, now).clients, allowed)
  {
    hide Notified, DisabledFrame;
    NotifiedExtends(t.clients, DisabledFrame(Requested, EVERY_BUS, t.gate.epoch), now, allowed);
  }

  lemma AckedExtends(t: Table, i: nat, requestId: nat, status: AckStatus, now: Time, allowed: iset<seq<byte>>)
    requires i < |t.clients| && Broadcasts(allowed) && Answers(requestId, allowed)
    ensures AllExtend(t.clients, Acked(t, i, requestId, status, now).clients, allowed)
  {
    hide Queued, Broadcasts, AllExtend, Encode;
    QueuedExtends(t, i, Encode(Ack(requestId, status)), true, now, allowed);
  }

  lemma AnswerExtends(t: Table, e: Event, now: Time, allowed: iset<seq<byte>>)
    requires Sound(t) && Enabled(t, e) && Brings(e, allowed) && Broadcasts(allowed)
    requires e.Heartbeat? || e.Write? || e.Unlock?
    ensures AllExtend(t.clients, Next(t, e, now).clients, allowed)
  {
    hide Acked, AllExtend, Broadcasts, Advanced, Answers, Sound;
    match e {
      case Heartbeat(i, requestId, epoch) =>
        var (g, r) := Beaten(t.gate, t.clients[i].id, epoch, now);
        AckedExtends(t.(gate := g), i, requestId, r.status, now, allowed);
      case Write(i, requestId, epoch, verdict) =>
        var (g, r) := WriteRecorded(t.gate, t.clients[i].id, epoch, now);
        AckedExtends(t, i, requestId, WriteAuthorization(t.gate, t.clients[i].id, epoch), now, allowed);
        AckedExtends(t, i, requestId, verdict, now, allowed);
        AckedExtends(t.(gate := g), i, requestId, r.status, now, allowed);
      case Unlock(i, requestId, epoch, known, bus) =>
        AckedExtends(t, i, requestId, Authorization(t.gate, t.clients[i].id, epoch), now, allowed);
        AckedExtends(t, i, requestId, BadTarget, now, allowed);
        AckedExtends(t, i, requestId, Ok, now, allowed);
        var u := Acked(t, i, requestId, Ok, now);
        AdvancedExtends(u, AdapterMismatch, bus, now, allowed);
        Chains(t.clients, u.clients, Advanced(u, AdapterMismatch, bus, now).clients, allowed);
    }
  }

  lemma AckedFarewell(t: Table, i: nat, requestId: nat, status: AckStatus, now: Time, told: bool,
                      allowed: iset<seq<byte>>)
    requires i < |t.clients| && Broadcasts(allowed) && Answers(requestId, allowed)
    ensures
      var u := Acked(t, i, requestId, status, now);
      |u.clients| == |t.clients| && AllExtend(t.clients, u.clients, allowed)
      && AllExtend(t.clients, Farewell(if told then Told(u) else u, i, now).clients, allowed)
  {
    hide Acked, Farewell, Broadcasts, AllExtend, Answers;
    AckedExtends(t, i, requestId, status, now, allowed);
    AckedSize(t, i, requestId, status, now);
    var u := Acked(t, i, requestId, status, now);
    var v := if told then Told(u) else u;
    FarewellExtends(v, i, now, allowed);
    Chains(t.clients, u.clients, Farewell(v, i, now).clients, allowed);
  }

  lemma EndingExtends(t: Table, e: Event, now: Time, allowed: iset<seq<byte>>)
    requires Sound(t) && Enabled(t, e) && Brings(e, allowed) && Broadcasts(allowed)
    requires e.Enable? || e.Release?
    ensures AllExtend(t.clients, Next(t, e, now).clients, allowed)
  {
    hide Acked, AllExtend, Broadcasts, Farewell, Answers, Sound;
    match e {
      case Enable(i, requestId, epoch, enabled, healthy) =>
        var (g, r) := OutputEnableSet(t.gate, t.clients[i].id, epoch, enabled, healthy, now);
        AckedFarewell(Told(t.(gate := g)), i, requestId, r.status, now, false, allowed);
      case Release(i, requestId, epoch) =>
        var (g, r) := Released(t.gate, t.clients[i].id, epoch);
        AckedFarewell(t.(gate := g), i, requestId, r.status, now, true, allowed);
    }
  }

  lemma HelloExtends(t: Table, i: nat, wantsLease: bool, pid: nat, ack: Frame, now: Time, allowed: iset<seq<byte>>)
    requires IsOpen(t, i) && Encode(ack) in allowed && Broadcasts(allowed)
    ensures AllExtend(t.clients, HelloHandled(t, i, wantsLease, pid, ack, now).clients, allowed)
  {
    hide Queued, Broadcasts, Encode;
    var c := t.clients[i];
    var (g, r) := Acquired(t.gate, c.id, pid, now);
    var u := if wantsLease && r.status == Ok then Told(t.(gate := g)) else t;
    QueuedExtends(u.(clients := u.clients[i := c.(hello := true)]), i, Encode(ack), true, now, allowed);
  }

  lemma ThrottledExtends(t: Table, i: nat, now: Time, allowed: iset<seq<byte>>)
    requires i < |t.clients| && Throttling() in allowed && Broadcasts(allowed)
    ensures AllExtend(t.clients, Throttled(t, i, now).clients, allowed)
  {
    hide Queued, Broadcasts, Encode;
    var u := t.(clients := t.clients[i := t.clients[i].(closeAfterWrite := true)]);
    QueuedExtends(u, i, Throttling(), true, now, allowed);
  }

  lemma OtherExtends(t: Table, e: Event, now: Time, allowed: iset<seq<byte>>)
    requires Sound(t) && Enabled(t, e) && Brings(e, allowed) && Broadcasts(allowed)
    requires e.Hello? || e.Throttle? || e.Queue? || e.Flush? || e.Leave? || e.Watchdogs? || e.Advance?
    ensures AllExtend(t.clients, Next(t, e, now).clients, allowed)
  {
    Unchanged(t.clients, allowed);
    hide Sound, AllExtend, Broadcasts, Closed, Queued, Flushed, Advanced, HelloHandled, Throttled, Encode;
    match e {
      case Hello(i, wantsLease, pid, ack) => HelloExtends(t, i, wantsLease, pid, ack, now, allowed);
      case Throttle(i) => ThrottledExtends(t, i, now, allowed);
      case Queue(i, frame, required) => QueuedExtends(t, i, Encode(frame), required, now, allowed);
      case Flush(i, results) =>
        SoundAt(t, i);
        FlushedExtends(t, i, results, now, allowed);
      case Leave(i) => ClosedExtends(t, i, now, allowed);
      case Watchdogs =>
        AdvancedExtends(t, OutputCommandTimeout, EVERY_BUS, now, allowed);
        AdvancedExtends(t, HeartbeatTimeout, EVERY_BUS, now, allowed);
      case Advance(reason, bus) => AdvancedExtends(t, reason, bus, now, allowed);
    }
  }

  lemma Unchanged(clients: seq<Client>, allowed: iset<seq<byte>>)
    ensures AllExtend(clients, clients, allowed)
  {
  }

  lemma ExtendedIsGrown(before: seq<Client>, after: seq<Client>, allowed: iset<seq<byte>>)
    requires AllExtend(before, after, allowed)
    ensures Grown(before, after, allowed)
  {
    hide Extends;
  }

  lemma PublishedIsGrown(t: Table, i: nat, frames: seq<seq<byte>>, now: Time, allowed: iset<seq<byte>>)
    requires i < |t.clients| && Broadcasts(allowed) && forall k :: 0 <= k < |frames| ==> frames[k] in allowed
    ensures Grown(t.clients, QueuedAll(t, i, frames, now).clients, allowed)
  {
    hide QueuedAll, Broadcasts;
    QueuedAllExtends(t, i, frames, now, allowed);
    ExtendedIsGrown(t.clients, QueuedAll(t, i, frames, now).clients, allowed);
  }

  lemma {:induction false} SweptIsGrown(clients: seq<Client>, allowed: iset<seq<byte>>)
    ensures Grown(clients, OpenOnly(clients), allowed)
  {
    if clients != [] {
      var front := clients[..|clients| - 1];
      SweptIsGrown(front, allowed);
      var after := OpenOnly(clients);
      forall j | 0 <= j < |after| ensures after[j].sent == [] || GrownFrom(clients, after[j].sent, allowed) {
        if j < |OpenOnly(front)| {
          if after[j].sent != [] {
            var i :| 0 <= i < |front| && Extends(front[i].sent, after[j].sent, allowed);
            assert clients[i] == front[i];
          }
        } else {
          assert Extends(clients[|clients| - 1].sent, after[j].sent, allowed);
        }
      }
    }
  }

  lemma JoinedIsGrown(clients: seq<Client>, id: ClientId, allowed: iset<seq<byte>>)
    ensures Grown(clients, clients + [Joining(id)], allowed)
  {
    forall j | 0 <= j < |clients| ensures GrownFrom(clients, clients[j].sent, allowed) {
      assert Extends(clients[j].sent, clients[j].sent, allowed);
    }
  }

  /** Whatever happens, a client is sent nothing but what the events bring, acknowledgements and broadcasts. */
  lemma NextGrows(t: Table, e: Event, now: Time, allowed: iset<seq<byte>>)
    requires Sound(t) && Enabled(t, e) && Brings(e, allowed) && Broadcasts(allowed)
    ensures Grown(t.clients, Next(t, e, now).clients, allowed)
  {
    if e.Join? || e.Sweep? || e.Publish? {
      hide Sound, Grown, Broadcasts, QueuedAll, OpenOnly;
      match e {
        case Join(id) => JoinedIsGrown(t.clients, id, allowed);
        case Publish(i, frames) => PublishedIsGrown(t, i, frames, now, allowed);
        case Sweep => SweptIsGrown(t.clients, allowed);
      }
    } else {
      hide Next, Sound, AllExtend, Grown, Broadcasts, Brings, Enabled;
      match e {
        case Heartbeat(_, _, _) => AnswerExtends(t, e, now, allowed);
        case Write(_, _, _, _) => AnswerExtends(t, e, now, allowed);
        case Unlock(_, _, _, _, _) => AnswerExtends(t, e, now, allowed);
        case Enable(_, _, _, _, _) => EndingExtends(t, e, now, allowed);
        case Release(_, _, _) => EndingExtends(t, e, now, allowed);
        case _ => OtherExtends(t, e, now, allowed);
      }
      ExtendedIsGrown(t.clients, Next(t, e, now).clients, allowed);
    }
  }
}
