// The profile cache over whole runs of the actor: maintenance and lost sessions make the device
// unknown, reopening the host session makes it known again.

module ActorDevice {
  import opened Common
  import opened WinkeyerProtocol
  import opened BrokerModel
  import opened BrokerLedger
  import opened BrokerDevice
  import opened ActorModel
  import opened ActorSafety

  // The device registers as read write by write, whether they are known to follow the broker's
  // writes since the host session opened, and whether an emergency stop cut a maintenance period
  // short.
  datatype Reading = Reading(registers: Registers, known: bool, astray: bool)

  predicate OpensSession(a: Actor, e: Event) {
    match e
    case Receive(b, _, fails, _) => a.reopenPending && b != 0xff && !fails
    case Reconnect(result, _, _) => result.Reopened?
    case _ => false
  }

  function FoundRegisters(e: Event): Registers
    requires e.Receive? || e.Reconnect?
  {
    if e.Receive? then e.found else e.device.registers
  }

  predicate CutsMaintenance(a: Actor, e: Event) {
    e.Serve? && e.request.EmergencyStopping? && (a.maintenance.Some? || a.reopenPending)
  }

  function StepReading(a: Actor, b: Reading, e: Event): Reading
    requires Enabled(a, e)
  {
    var s := Step(a, e);
    var opens := OpensSession(a, e);
    Reading(After(if opens then FoundRegisters(e) else b.registers, s.actions),
          s.actor.up && s.actor.maintenance.None? && (opens || b.known),
          !opens && (b.astray || CutsMaintenance(a, e)))
  }

  // What endpoints and the typed interface hand to the broker.
  ghost predicate ProperRequest(r: Request) {
    match r
    case Enqueueing(_, payload, _, _) => KeyingBytes(payload)
    case Configuring(_, command) => Configurable(command)
    case OwnerCommanding(_, command) => OwnerBytes(command)
    case _ => true
  }

  ghost predicate ProperBytes(a: Actor, e: Event) {
    e.Serve? ==> ProperRequest(e.request)
  }

  ghost predicate ReadingOk(a: Actor, b: Reading) {
    && Shape(a.core)
    && (b.known ==> a.up && a.maintenance.None? && !a.reopenPending && Agreement(a.core, b.registers))
    && (a.up && !b.known ==> a.maintenance.Some? || a.reopenPending || b.astray)
  }

  ghost predicate Agrees(c: Core, r: Registers, c': Core, acts: seq<Action>) {
    Shape(c') && (c.connected && Agreement(c, r) ==> Agreement(c', After(r, acts)))
  }

  lemma HandleCancelAgrees(a: Actor, regs: Registers, r: Request, now: nat)
    requires Shape(a.core)
    requires r.Cancelling? || r.CancellingJob? || r.EmergencyStopping? || r.ShuttingDown?
    ensures var h := Handle(a, r, now); Agrees(a.core, regs, h.actor.core, h.actions)
  {
    hide Part;
    match r
    case Cancelling(x, includeActive) => CancelClientAgrees(a.core, regs, x, includeActive, now);
    case CancellingJob(x, id) => CancelJobAgrees(a.core, regs, x, id, now);
    case _ => EmergencyStopAgrees(a.core, regs);
  }

  lemma HandleEnqueueAgrees(a: Actor, regs: Registers, r: Request, now: nat)
    requires Shape(a.core) && r.Enqueueing? && KeyingBytes(r.payload)
    ensures var h := HandleEnqueue(a, r, now); Agrees(a.core, regs, h.actor.core, h.actions)
  {
    hide Shape, Agreement, Enqueue, KeyingBytes;
    var e := Enqueue(a.core, r.client, r.payload, r.jobSpeed, r.stream, now);
    if e.Some? {
      EnqueueAgrees(a.core, regs, r.client, r.payload, r.jobSpeed, r.stream, now);
    }
  }

  lemma HandleConfiguringAgrees(a: Actor, regs: Registers, x: ClientId, command: bytes, now: nat)
    requires Shape(a.core) && Configurable(command)
    ensures var h := Handle(a, Configuring(x, command), now); Agrees(a.core, regs, h.actor.core, h.actions)
  {
    hide Shape, Agreement, SetCommand, Configurable;
    if SetCommand(a.core, x, command).Some? {
      SetCommandShape(a.core, x, command);
      if a.core.connected && Agreement(a.core, regs) {
        SetCommandAgrees(a.core, regs, x, command);
      }
    }
  }

  lemma HandleAgrees(a: Actor, regs: Registers, r: Request, now: nat)
    requires Safe(a) && Shape(a.core) && ProperRequest(r)
    ensures var h := Handle(a, r, now);
            Shape(h.actor.core)
            && (a.maintenance.None? && h.actor.maintenance.None? ==>
                  Agrees(a.core, regs, h.actor.core, h.actions))
  {
    hide Part, Work, Sized;
    match r
    case Registering(x, primary) => RegisterAgrees(a.core, regs, x, primary);
    case Unregistering(x) => UnregisterAgrees(a.core, regs, x, now);
    case Speeding(x, speed) => SetSpeedAgrees(a.core, regs, x, speed);
    case Enqueueing(_, _, _, _) => HandleEnqueueAgrees(a, regs, r, now);
    case Configuring(x, command) => HandleConfiguringAgrees(a, regs, x, command, now);
    case OwnerCommanding(x, command) =>
      if CommandByOwner(a.core, x, command).Some? {
        OwnerCommandAgrees(a.core, regs, x, command);
      }
    case MaintenanceCommanding(x, command) =>
    case ReleasingMaintenance(x) =>
    case _ => HandleCancelAgrees(a, regs, r, now);
  }

  lemma TickAgrees(c: Core, regs: Registers, now: nat, poll: bool)
    requires Shape(c)
    ensures var w := Watchdog(c, now); var i := ConfirmIdle(w.core, now, SHORT_JOB_SETTLE);
            Agrees(c, regs, i.core,
                   w.actions + i.actions + (if poll then [Write([0x15], StatusPoll)] else []))
  {
    var w := Watchdog(c, now);
    var i := ConfirmIdle(w.core, now, SHORT_JOB_SETTLE);
    var polls := if poll then [Write([0x15], StatusPoll)] else [];
    EmergencyStopAgrees(c, regs);
    CompleteActiveAgrees(w.core, After(regs, w.actions), now);
    AfterAppend(regs, w.actions, i.actions);
    AfterAppend(regs, w.actions + i.actions, polls);
    ControlBytesAreHarmless(Pot);
    LeadKeepsAgreement(i.core, i.core, After(regs, w.actions + i.actions), polls);
  }

  lemma OpenedAgrees(a: Actor, found: Registers, lead: seq<Action>)
    requires Safe(a) && Shape(a.core) && a.core.active.None?
    ensures var o := Restore(Connect(a.core));
            Shape(o.core) && Agreement(o.core, After(found, lead + o.actions))
  {
    var o := Restore(Connect(a.core));
    ReopenAgrees(a.core, After(found, lead));
    AfterAppend(found, lead, o.actions);
  }

  lemma SessionLostReading(a: Actor, returned: seq<Action>, reply: Reply, b: Reading)
    requires Shape(a.core) && !b.known
    ensures ReadingOk(SessionLost(a, returned, reply).actor, b)
  {
    PhysicalErrorShape(a.core);
  }

  // Maintenance only ever ends in a pending reopen, unless an emergency stop ends it.
  lemma HandleMaintenanceFlow(a: Actor, r: Request, now: nat)
    ensures var h := Handle(a, r, now).actor;
            (a.maintenance.None? && !a.reopenPending ==> !h.reopenPending)
            && (a.maintenance.Some? || a.reopenPending ==>
                  h.maintenance.Some? || h.reopenPending || r.EmergencyStopping?)
  {
  }

  lemma ServeKeepsReading(a: Actor, b: Reading, e: Event)
    requires Safe(a) && ReadingOk(a, b) && Enabled(a, e) && e.Serve? && ProperBytes(a, e)
    ensures ReadingOk(Step(a, e).actor, StepReading(a, b, e))
  {
    hide Shape, Agreement, Handle, Work, Sized, ProperRequest;
    var h := Handle(a, e.request, e.now);
    HandleAgrees(a, b.registers, e.request, e.now);
    HandleKeepsSafe(a, e.request, e.now);
    HandleMaintenanceFlow(a, e.request, e.now);
    SessionLostReading(h.actor, h.actions, h.reply, Reading(map[], false, false));
  }

  lemma ReceiveKeepsReading(a: Actor, b: Reading, e: Event)
    requires Safe(a) && ReadingOk(a, b) && Enabled(a, e) && e.Receive?
    ensures ReadingOk(Step(a, e).actor, StepReading(a, b, e))
  {
    hide Part, Agreement, Work, Sized, ObserveStatus, Restore;
    if a.reopenPending {
      OpenedAgrees(a, e.found, [Write(HOST_INIT, HostControl)]);
      PhysicalErrorShape(a.core);
      PhysicalErrorShape(Restore(Connect(a.core)).core);
    } else if a.maintenance.None? && ClassifyByte(e.input).Status? {
      var s := ClassifyByte(e.input).status;
      ObserveStatusAgrees(a.core, b.registers, s, e.now);
      PhysicalErrorShape(ObserveStatus(a.core, s, e.now).core);
    } else {
      PhysicalErrorShape(a.core);
    }
  }

  lemma TickKeepsReading(a: Actor, b: Reading, e: Event)
    requires Safe(a) && ReadingOk(a, b) && Enabled(a, e) && e.Tick?
    ensures ReadingOk(Step(a, e).actor, StepReading(a, b, e))
  {
    hide Part, Agreement, Work, Sized, Watchdog, ConfirmIdle;
    var i := ConfirmIdle(Watchdog(a.core, e.now).core, e.now, SHORT_JOB_SETTLE);
    TickAgrees(a.core, b.registers, e.now, SnapshotBusy(i.core) && Elapsed(e.now, a.lastPoll) >= STATUS_POLL_INTERVAL);
    PhysicalErrorShape(i.core);
  }

  lemma ReconnectKeepsReading(a: Actor, b: Reading, e: Event)
    requires Safe(a) && ReadingOk(a, b) && Enabled(a, e) && e.Reconnect?
    ensures ReadingOk(Step(a, e).actor, StepReading(a, b, e))
  {
    hide Part, Agreement, Sized, Restore;
    var r := Restore(Connect(a.core));
    OpenedAgrees(a, e.device.registers, []);
    assert [] + r.actions == r.actions;
    PhysicalErrorShape(a.core);
    PhysicalErrorShape(r.core);
  }

  lemma StepKeepsReading(a: Actor, b: Reading, e: Event)
    requires Safe(a) && ReadingOk(a, b) && Enabled(a, e) && ProperBytes(a, e)
    ensures ReadingOk(Step(a, e).actor, StepReading(a, b, e))
  {
    hide Shape, Agreement, Work, Sized;
    match e
    case Serve(_, _, _) => ServeKeepsReading(a, b, e);
    case Receive(_, _, _, _) => ReceiveKeepsReading(a, b, e);
    case Tick(_, _) => TickKeepsReading(a, b, e);
    case ReadFault => SessionLostReading(a, [], Silent, Reading(map[], false, false));
    case Reconnect(_, _, _) => ReconnectKeepsReading(a, b, e);
    case _ =>
  }
}
