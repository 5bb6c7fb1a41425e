// The physical keyer actor as a state machine: one step per arm of its session and reconnect
// loops, together with the CAT sessions that compete for the station transmit lease.

module ActorModel {
  import opened Common
  import opened WinkeyerProtocol
  import opened BrokerModel
  import opened BrokerDevice
  import opened Ptt

  // The station lease identity of the keyer.
  const KEYER: nat := U64_MAX
  const SHORT_JOB_SETTLE: nat := 250
  const STATUS_POLL_INTERVAL: nat := 100

  datatype BrokerError =
    UnknownClient | PrimaryExists | NotConnected | Invalid | TransmitBusy | MaintenanceBusy | QueueFull

  datatype Request =
    | Registering(client: ClientId, primary: bool)
    | Unregistering(client: ClientId)
    | Speeding(client: ClientId, speed: SpeedMode)
    | Enqueueing(client: ClientId, payload: bytes, jobSpeed: Option<SpeedMode>, stream: bool)
    | Cancelling(client: ClientId, includeActive: bool)
    | CancellingJob(client: ClientId, job: JobId)
    | EmergencyStopping
    | Configuring(client: ClientId, command: bytes)
    | OwnerCommanding(client: ClientId, command: bytes)
    | MaintenanceCommanding(client: ClientId, command: bytes)
    | ReleasingMaintenance(client: ClientId)
    | ShuttingDown

  datatype Reply = Silent | Done | Submitted(job: JobId) | Canceling(found: bool) | Refused(error: BrokerError)

  datatype Actor = Actor(
    core: Core,
    maintenance: Option<ClientId>,
    reopenPending: bool,
    up: bool,
    stopped: bool,
    lease: Lease,
    lastPoll: nat,
    // The owner the station watchdog has found expired and is unkeying before it frees the lease.
    expiring: Option<nat>)

  // `applied` tells whether the actions were handed to the transport (an early refusal is not).
  datatype Handled = Handled(actor: Actor, reply: Reply, actions: seq<Action>, applied: bool)

  predicate SnapshotBusy(c: Core) {
    c.status.busy || c.active.Some?
  }

  function Apply(a: Actor, o: Outcome, reply: Reply): Handled {
    Handled(a.(core := o.core), reply, o.actions, true)
  }

  function RefuseEarly(a: Actor, e: BrokerError): Handled {
    Handled(a, Refused(e), [], false)
  }

  function RefuseLate(a: Actor, e: BrokerError): Handled {
    Handled(a, Refused(e), [], true)
  }

  predicate LockedOut(a: Actor, x: ClientId) {
    a.reopenPending || (a.maintenance.Some? && a.maintenance.value != x)
  }

  function SubmitJob(a: Actor, r: Request, now: nat): Handled
    requires r.Enqueueing?
  {
    var e := Enqueue(a.core, r.client, r.payload, r.jobSpeed, r.stream, now);
    if e.Some? then Handled(a.(core := e.value.core), Submitted(e.value.job), e.value.actions, true)
    else RefuseLate(a, if a.core.connected then UnknownClient else NotConnected)
  }

  function HandleEnqueue(a: Actor, r: Request, now: nat): Handled
    requires r.Enqueueing?
  {
    if a.maintenance.Some? || a.reopenPending then RefuseEarly(a, MaintenanceBusy)
    else if r.payload == [] || |r.payload| > MAX_JOB_BYTES then RefuseEarly(a, Invalid)
    else if |a.core.queue| >= MAX_QUEUED_JOBS && !(r.stream && ActiveClient(a.core) == Some(r.client))
    then RefuseEarly(a, QueueFull)
    else if a.core.active.None? && (SnapshotBusy(a.core) || a.core.status.breakIn || a.core.status.keyDown)
    then RefuseEarly(a, TransmitBusy)
    else if a.core.active.None? then
      var k := TryKey(a.lease, KEYER, true, now);
      if k.result == KeyResult.Busy then RefuseEarly(a, TransmitBusy)
      else SubmitJob(a.(lease := k.lease), r, now)
    else SubmitJob(a, r, now)
  }

  // What the first maintenance command is preceded by.
  const MAINTENANCE_OPENING: bytes := [0x0a, 0x0b, 0x00, 0x03]

  function HandleMaintenance(a: Actor, x: ClientId, command: bytes): Handled {
    if (a.maintenance.Some? && a.maintenance.value != x) || a.core.active.Some? || a.core.queue != []
    then RefuseLate(a, MaintenanceBusy)
    else if !a.core.connected then RefuseLate(a, NotConnected)
    else
      Handled(a.(maintenance := Some(x)), Done,
              (if a.maintenance.None? then [Write(MAINTENANCE_OPENING, HostControl)] else [])
              + [Write(command, HostControl)], true)
  }

  // Host Open. Any byte that comes next is taken for the answer.
  const HOST_OPEN: bytes := [0x00, 0x02]

  function EndMaintenance(a: Actor): Actor {
    a.(maintenance := None, reopenPending := true)
  }

  function Handle(a: Actor, r: Request, now: nat): Handled {
    match r
    case Registering(x, primary) =>
      var g := Register(a.core, x, primary);
      Handled(a.(core := g.core), if g.accepted then Done else Refused(PrimaryExists), [], true)
    case Unregistering(x) =>
      var o := Unregister(a.core, x, now);
      if a.maintenance == Some(x) then
        Handled(EndMaintenance(a.(core := o.core)), Silent,
                [Write(HOST_OPEN, HostControl)] + o.actions, true)
      else Apply(a, o, Silent)
    case Speeding(x, speed) =>
      if LockedOut(a, x) then RefuseEarly(a, MaintenanceBusy)
      else Apply(a, SetSpeed(a.core, x, speed), if a.core.connected then Done else Refused(NotConnected))
    case Enqueueing(_, _, _, _) => HandleEnqueue(a, r, now)
    case Cancelling(x, includeActive) => Apply(a, CancelClient(a.core, x, includeActive, now), Done)
    case CancellingJob(x, id) =>
      var j := CancelJob(a.core, x, id, now);
      Handled(a.(core := j.core), Canceling(j.canceled), j.actions, true)
    case EmergencyStopping =>
      Apply(a.(maintenance := None, reopenPending := false), EmergencyStop(a.core), Done)
    case Configuring(x, command) =>
      if LockedOut(a, x) then RefuseLate(a, MaintenanceBusy)
      else
        var o := SetCommand(a.core, x, command);
        if o.Some? then Apply(a, o.value, Done) else RefuseLate(a, UnknownClient)
    case OwnerCommanding(x, command) =>
      if a.maintenance.Some? || a.reopenPending then RefuseLate(a, MaintenanceBusy)
      else
        var o := CommandByOwner(a.core, x, command);
        if o.Some? then Handled(a, Done, o.value, true) else RefuseLate(a, Invalid)
    case MaintenanceCommanding(x, command) => HandleMaintenance(a, x, command)
    case ReleasingMaintenance(x) =>
      if a.maintenance == Some(x) then
        Handled(EndMaintenance(a), Silent, [Write(HOST_OPEN, HostControl)], true)
      else Handled(a, Silent, [], true)
    case ShuttingDown => Apply(a, EmergencyStop(a.core), Done)
  }

  // ---- The loops ----

  datatype Reconnection = OpenFailed | InitFailed | RestoreFailed | Reopened

  datatype Event =
    | Serve(request: Request, now: nat, fails: bool)
    // `found` is what a reopened host session finds in the registers after maintenance.
    | Receive(input: byte, now: nat, fails: bool, found: Registers)
    | Tick(now: nat, fails: bool)
    | ReadFault
    // The keyer as a reopened transport finds it: the host session may never have been closed.
    | Reconnect(result: Reconnection, now: nat, device: Keyer)
    | CatKey(session: nat, hasPtt: bool, now: nat)
    | CatUnkey(session: nat)
    | ExpiryRead(now: nat, maxTx: nat)
    | ExpiryRelease

  // `actions` are returned to the loop and performed; `dropped` are results the loop ignores.
  datatype Stepped = Stepped(actor: Actor, actions: seq<Action>, dropped: seq<Action>, reply: Reply)

  // The keyer gives the lease back once it is idle and its key is up.
  function ReleaseIfIdle(a: Actor): Actor {
    if !SnapshotBusy(a.core) && !a.core.status.breakIn && !a.core.status.keyDown
    then a.(lease := Unkey(a.lease, KEYER)) else a
  }

  // The session loop broke: cancel everything, free the lease, start reconnecting.
  function SessionLost(a: Actor, returned: seq<Action>, reply: Reply): Stepped {
    var o := PhysicalError(a.core);
    Stepped(a.(core := o.core, maintenance := None, reopenPending := false, up := false,
               lease := Unkey(a.lease, KEYER)),
            returned + o.actions, [], reply)
  }

  function Finish(a: Actor, returned: seq<Action>, fails: bool, reply: Reply): Stepped {
    if fails then SessionLost(a, returned, reply)
    else Stepped(ReleaseIfIdle(a), returned, [], reply)
  }

  function StepServe(a: Actor, r: Request, now: nat, fails: bool): Stepped {
    var h := Handle(a, r, now);
    if r.ShuttingDown? then
      Stepped(h.actor.(stopped := true, up := false, lease := Unkey(h.actor.lease, KEYER)), h.actions, [], h.reply)
    else if a.up then Finish(h.actor, h.actions, fails && h.applied, h.reply)
    else Stepped(h.actor, h.actions, [], h.reply)
  }

  const HOST_INIT: bytes := [0x0a, 0x0b, 0x00, 0x02, 0x00, 0x07, 0x15]

  function StepReceive(a: Actor, b: byte, now: nat, fails: bool): Stepped {
    if a.reopenPending then
      var a1 := a.(reopenPending := false);
      if b == 0xff then SessionLost(a1, [], Silent)
      else
        var o := Restore(Connect(a.core));
        var a2 := a1.(core := o.core);
        var acts := [Write(HOST_INIT, HostControl)] + o.actions;
        if fails then SessionLost(a2, acts, Silent) else Stepped(a2, acts, [], Silent)
    else if a.maintenance.Some? then Stepped(a, [], [], Silent)
    else
      match ClassifyByte(b)
      case Status(s) =>
        var a1 := if (s.busy || s.breakIn || s.keyDown) && a.core.active.None?
                  then a.(lease := TryKey(a.lease, KEYER, true, now).lease) else a;
        var o := ObserveStatus(a.core, s, now);
        Finish(a1.(core := o.core), o.actions, fails, Silent)
      case _ => Finish(a, [], fails, Silent)
  }

  function StepTick(a: Actor, now: nat, fails: bool): Stepped {
    var w := Watchdog(a.core, now);
    var i := ConfirmIdle(w.core, now, SHORT_JOB_SETTLE);
    var poll := SnapshotBusy(i.core) && Elapsed(now, a.lastPoll) >= STATUS_POLL_INTERVAL;
    Finish(a.(core := i.core, lastPoll := if poll then now else a.lastPoll),
           w.actions + i.actions + (if poll then [Write([0x15], StatusPoll)] else []), fails, Silent)
  }

  function StepReconnect(a: Actor, result: Reconnection, now: nat): Stepped {
    match result
    case OpenFailed => var o := PhysicalError(a.core); Stepped(a.(core := o.core), [], o.actions, Silent)
    case InitFailed => var o := PhysicalError(a.core); Stepped(a.(core := o.core), [], o.actions, Silent)
    case RestoreFailed =>
      var r := Restore(Connect(a.core));
      var o := PhysicalError(r.core);
      Stepped(a.(core := o.core), r.actions, o.actions, Silent)
    case Reopened =>
      var r := Restore(Connect(a.core));
      Stepped(a.(core := r.core, up := true, lastPoll := now), r.actions, [], Silent)
  }

  predicate Enabled(a: Actor, e: Event) {
    match e
    case Serve(_, _, _) => !a.stopped
    case Receive(_, _, _, _) => a.up
    case Tick(_, _) => a.up
    case ReadFault => a.up
    case Reconnect(_, _, _) => !a.up && !a.stopped
    case ExpiryRead(_, _) => a.expiring.None?
    case ExpiryRelease => a.expiring.Some?
    case _ => true
  }

  function Step(a: Actor, e: Event): Stepped
    requires Enabled(a, e)
  {
    match e
    case Serve(r, now, fails) => StepServe(a, r, now, fails)
    case Receive(b, now, fails, _) => StepReceive(a, b, now, fails)
    case Tick(now, fails) => StepTick(a, now, fails)
    case ReadFault => SessionLost(a, [], Silent)
    case Reconnect(result, now, _) => StepReconnect(a, result, now)
    case CatKey(id, hasPtt, now) => Stepped(a.(lease := TryKey(a.lease, id, hasPtt, now).lease), [], [], Silent)
    case CatUnkey(id) => Stepped(a.(lease := Unkey(a.lease, id)), [], [], Silent)
    case ExpiryRead(now, maxTx) => Stepped(a.(expiring := ExpiredOwner(a.lease, now, maxTx)), [], [], Silent)
    case ExpiryRelease =>
      Stepped(a.(lease := Unkey(a.lease, a.expiring.value), expiring := None), [], [], Silent)
  }

  // A freshly spawned actor over an initialised transport; CAT sessions may already be keyed.
  function Spawned(maxTx: nat, lease: Lease, now: nat): Actor {
    Actor(Connect(NewCore(maxTx)), None, false, true, false, lease, now, None)
  }
}
