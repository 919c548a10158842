/**
 The lease and epoch state machine that decides who may drive outputs.

 `Gate` is the abstract value; the functions on it say what each operation does, and the class
 `SafetyGate` is the object that the daemon updates in place.
 */
module SafetyGates {
  import opened Common

  type ClientId = nat
  type Time = int

  datatype Controller = Controller(id: ClientId, pid: nat, lastHeartbeat: Time)

  datatype Gate = Gate(
    epoch: nat,
    controller: Option<Controller>,
    outputsEnabled: bool,
    lastOutputCommand: Time,
    heartbeatTimeout: int,
    outputCommandTimeout: int)
  {
    /** `id` holds the lease. */
    predicate HeldBy(id: ClientId) {
      controller.Some? && controller.value.id == id
    }

    predicate Valid() {
      && 1 <= epoch <= MAX_U64
      && (outputsEnabled ==> controller.Some?)
      && (controller.Some? ==> controller.value.id != 0)
    }
  }

  datatype GateResult = GateResult(status: AckStatus, outputsWereDisabled: bool, epochChanged: bool)

  const PASS := GateResult(Ok, false, false)

  function Refuse(status: AckStatus): GateResult { GateResult(status, false, false) }

  function NewGate(initialEpoch: nat, heartbeatTimeout: int, outputCommandTimeout: int): Gate {
    Gate(if initialEpoch == 0 then 1 else initialEpoch, None, false, 0, heartbeatTimeout, outputCommandTimeout)
  }

  /** Epoch zero never occurs: the counter wraps from its maximum to one. */
  function NextEpoch(epoch: nat): nat {
    if epoch == MAX_U64 then 1 else epoch + 1
  }

  function Dropped(g: Gate): (Gate, GateResult) {
    (g.(epoch := NextEpoch(g.epoch), controller := None, outputsEnabled := false),
     GateResult(Ok, g.outputsEnabled, true))
  }

  function Authorization(g: Gate, id: ClientId, epoch: nat): AckStatus {
    if epoch != g.epoch then StaleEpoch
    else if !g.HeldBy(id) then Unauthorized
    else Ok
  }

  function WriteAuthorization(g: Gate, id: ClientId, epoch: nat): AckStatus {
    var a := Authorization(g, id, epoch);
    if a != Ok then a else if !g.outputsEnabled then Disabled else Ok
  }

  function Acquired(g: Gate, id: ClientId, pid: nat, now: Time): (Gate, GateResult) {
    if id == 0 then (g, Refuse(Malformed))
    else if g.controller.Some? && g.controller.value.id != id then (g, Refuse(Busy))
    else (g.(controller := Some(Controller(id, pid, now)), outputsEnabled := false),
          GateResult(Ok, g.outputsEnabled, false))
  }

  function Beaten(g: Gate, id: ClientId, epoch: nat, now: Time): (Gate, GateResult) {
    var a := Authorization(g, id, epoch);
    if a != Ok then (g, Refuse(a))
    else (g.(controller := Some(g.controller.value.(lastHeartbeat := now))), PASS)
  }

  function OutputEnableSet(g: Gate, id: ClientId, epoch: nat, enabled: bool, healthy: bool, now: Time)
    : (Gate, GateResult)
  {
    var a := Authorization(g, id, epoch);
    if a != Ok then (g, Refuse(a))
    else if enabled && !healthy then (g, Refuse(Disabled))
    else if !enabled then Dropped(g)
    else (g.(outputsEnabled := true,
             controller := Some(g.controller.value.(lastHeartbeat := now)),
             lastOutputCommand := now),
          GateResult(Ok, g.outputsEnabled, false))
  }

  function WriteRecorded(g: Gate, id: ClientId, epoch: nat, now: Time): (Gate, GateResult) {
    var a := WriteAuthorization(g, id, epoch);
    if a != Ok then (g, Refuse(a)) else (g.(lastOutputCommand := now), PASS)
  }

  function Released(g: Gate, id: ClientId, epoch: nat): (Gate, GateResult) {
    var a := Authorization(g, id, epoch);
    if a != Ok then (g, Refuse(a)) else Dropped(g)
  }

  function Disconnected(g: Gate, id: ClientId): (Gate, GateResult) {
    if g.HeldBy(id) then Dropped(g) else (g, PASS)
  }

  function HeartbeatExpired(g: Gate, now: Time): (Gate, GateResult) {
    if g.controller.Some? && now - g.controller.value.lastHeartbeat > g.heartbeatTimeout
    then Dropped(g) else (g, PASS)
  }

  function OutputExpired(g: Gate, now: Time): (Gate, GateResult) {
    if g.controller.Some? && g.outputsEnabled && now - g.lastOutputCommand > g.outputCommandTimeout
    then Dropped(g) else (g, PASS)
  }

  /** Both watchdogs in the order the daemon runs them: the heartbeat only if the output one stayed quiet. */
  function TimedOut(g: Gate, now: Time): (Gate, GateResult) {
    var out := OutputExpired(g, now);
    if out.1.epochChanged then out else HeartbeatExpired(g, now)
  }

  class SafetyGate {
    var epoch: nat
    var heartbeatTimeout: int
    var outputCommandTimeout: int
    var lastOutputCommand: Time
    var controller: Option<Controller>
    var outputsEnabled: bool

    function State(): Gate
      reads this
    {
      Gate(epoch, controller, outputsEnabled, lastOutputCommand, heartbeatTimeout, outputCommandTimeout)
    }

    constructor (initialEpoch: nat, heartbeatTimeout: int, outputCommandTimeout: int)
      requires initialEpoch <= MAX_U64
      ensures State() == NewGate(initialEpoch, heartbeatTimeout, outputCommandTimeout)
      ensures State().Valid()
    {
      epoch := if initialEpoch == 0 then 1 else initialEpoch;
      this.heartbeatTimeout := heartbeatTimeout;
      this.outputCommandTimeout := outputCommandTimeout;
      lastOutputCommand := 0;
      controller := None;
      outputsEnabled := false;
    }

    method DropControllerAndAdvanceEpoch() returns (r: GateResult)
      requires State().Valid()
      modifies this
      ensures (State(), r) == Dropped(old(State()))
      ensures State().Valid() && State().controller.None? && epoch != old(epoch)
    {
      var wasEnabled := outputsEnabled;
      outputsEnabled := false;
      controller := None;
      if epoch == MAX_U64 {
        epoch := 1;
      } else {
        epoch := epoch + 1;
      }
      r := GateResult(Ok, wasEnabled, true);
    }

    method Acquire(id: ClientId, pid: nat, now: Time) returns (r: GateResult)
      requires State().Valid()
      modifies this
      ensures (State(), r) == Acquired(old(State()), id, pid, now)
      ensures State().Valid() && epoch == old(epoch)
      ensures r.status == Ok <==> State().HeldBy(id) && id != 0
    {
      if id == 0 {
        return Refuse(Malformed);
      }
      if controller.Some? && controller.value.id != id {
        return Refuse(Busy);
      }
      controller := Some(Controller(id, pid, now));
      var wasEnabled := outputsEnabled;
      outputsEnabled := false;
      r := GateResult(Ok, wasEnabled, false);
    }

    method Heartbeat(id: ClientId, commandEpoch: nat, now: Time) returns (r: GateResult)
      requires State().Valid()
      modifies this
      ensures (State(), r) == Beaten(old(State()), id, commandEpoch, now)
      ensures State().Valid() && epoch == old(epoch) && outputsEnabled == old(outputsEnabled)
      ensures r.status == Ok <==> old(State()).HeldBy(id) && commandEpoch == epoch
      ensures r.status == Ok ==> State().HeldBy(id) && controller.value.lastHeartbeat == now
      ensures r.status != Ok ==> State() == old(State())
    {
      var a := Authorization(State(), id, commandEpoch);
      if a != Ok {
        return Refuse(a);
      }
      controller := Some(controller.value.(lastHeartbeat := now));
      r := PASS;
    }

    method SetOutputEnabled(id: ClientId, commandEpoch: nat, enabled: bool, processDataHealthy: bool, now: Time)
      returns (r: GateResult)
      requires State().Valid()
      modifies this
      ensures (State(), r) == OutputEnableSet(old(State()), id, commandEpoch, enabled, processDataHealthy, now)
      ensures State().Valid()
      ensures outputsEnabled && !old(outputsEnabled) ==> enabled && processDataHealthy && old(State()).HeldBy(id)
    {
      var a := Authorization(State(), id, commandEpoch);
      if a != Ok {
        return Refuse(a);
      }
      if enabled && !processDataHealthy {
        return Refuse(Disabled);
      }
      if !enabled {
        r := DropControllerAndAdvanceEpoch();
        return;
      }
      var wasEnabled := outputsEnabled;
      outputsEnabled := true;
      controller := Some(controller.value.(lastHeartbeat := now));
      lastOutputCommand := now;
      r := GateResult(Ok, wasEnabled, false);
    }

    method RecordOutputWrite(id: ClientId, commandEpoch: nat, now: Time) returns (r: GateResult)
      requires State().Valid()
      modifies this
      ensures (State(), r) == WriteRecorded(old(State()), id, commandEpoch, now)
      ensures State().Valid() && State() == old(State()).(lastOutputCommand := lastOutputCommand)
      ensures r.status == Ok <==> State().HeldBy(id) && commandEpoch == epoch && outputsEnabled
      ensures lastOutputCommand == if r.status == Ok then now else old(lastOutputCommand)
    {
      var a := WriteAuthorization(State(), id, commandEpoch);
      if a != Ok {
        return Refuse(a);
      }
      lastOutputCommand := now;
      r := PASS;
    }

    method Release(id: ClientId, commandEpoch: nat) returns (r: GateResult)
      requires State().Valid()
      modifies this
      ensures (State(), r) == Released(old(State()), id, commandEpoch)
      ensures State().Valid()
      ensures r.status == Ok <==> old(State()).HeldBy(id) && commandEpoch == old(epoch)
      ensures r.status == Ok ==> controller.None? && !outputsEnabled && epoch != old(epoch)
      ensures r.status != Ok ==> State() == old(State())
    {
      var a := Authorization(State(), id, commandEpoch);
      if a != Ok {
        return Refuse(a);
      }
      r := DropControllerAndAdvanceEpoch();
    }

    method Disconnect(id: ClientId) returns (r: GateResult)
      requires State().Valid()
      modifies this
      ensures (State(), r) == Disconnected(old(State()), id)
      ensures State().Valid() && !State().HeldBy(id)
    {
      if controller.None? || controller.value.id != id {
        return PASS;
      }
      r := DropControllerAndAdvanceEpoch();
    }

    method ExpireOutputCommands(now: Time) returns (r: GateResult)
      requires State().Valid()
      modifies this
      ensures (State(), r) == OutputExpired(old(State()), now)
      ensures State().Valid() && (outputsEnabled ==> now - lastOutputCommand <= outputCommandTimeout)
    {
      if controller.None? || !outputsEnabled || now - lastOutputCommand <= outputCommandTimeout {
        return PASS;
      }
      r := DropControllerAndAdvanceEpoch();
    }

    method Expire(now: Time) returns (r: GateResult)
      requires State().Valid()
      modifies this
      ensures (State(), r) == HeartbeatExpired(old(State()), now)
      ensures State().Valid()
      ensures controller.Some? ==> now - controller.value.lastHeartbeat <= heartbeatTimeout
    {
      if controller.None? || now - controller.value.lastHeartbeat <= heartbeatTimeout {
        return PASS;
      }
      r := DropControllerAndAdvanceEpoch();
    }

    /** The daemon's watchdog pass over the gate. */
    method HandleSafetyTimeouts(now: Time) returns (r: GateResult)
      requires State().Valid()
      modifies this
      ensures (State(), r) == TimedOut(old(State()), now)
      ensures State().Valid()
      ensures State().controller.Some? ==> now - State().controller.value.lastHeartbeat <= heartbeatTimeout
      ensures outputsEnabled ==> now - lastOutputCommand <= outputCommandTimeout
    {
      r := ExpireOutputCommands(now);
      if r.epochChanged {
        return;
      }
      r := Expire(now);
    }
  }
}
