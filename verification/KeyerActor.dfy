// The actor object: it owns the broker, shares the transmit lease and serves one event per call.
// Every method meets the corresponding step of ActorModel.

module KeyerActor {
  import opened Common
  import opened WinkeyerProtocol
  import opened BrokerModel
  import opened Broker
  import opened Ptt
  import opened ActorModel

  class PhysicalActor {
    const core: BrokerCore
    const ptt: PttManager
    var maintenanceOwner: Option<ClientId>
    var reopenPending: bool
    var up: bool
    var stopped: bool
    var lastPoll: nat
    // The station watchdog runs beside the actor and shares the lease: the owner it is unkeying.
    var expiring: Option<nat>

    function View(): Actor
      reads this, core, ptt
    {
      Actor(core.View(), maintenanceOwner, reopenPending, up, stopped, ptt.View(), lastPoll, expiring)
    }

    // Spawned over an initialised transport.
    constructor (core: BrokerCore, ptt: PttManager, now: nat)
      requires core.View() == NewCore(core.maxTx)
      modifies core
      ensures this.core == core && this.ptt == ptt
      ensures View() == Spawned(core.maxTx, old(ptt.View()), now)
    {
      this.core := core;
      this.ptt := ptt;
      maintenanceOwner := None;
      reopenPending := false;
      up := true;
      stopped := false;
      lastPoll := now;
      expiring := None;
      new;
      core.ConnectPhysical();
    }

    method HandleEnqueueing(r: Request, now: nat)
      returns (reply: Reply, actions: seq<Action>, applied: bool)
      requires r.Enqueueing?
      modifies core, ptt
      ensures Handled(View(), reply, actions, applied) == HandleEnqueue(old(View()), r, now)
    {
      if maintenanceOwner.Some? || reopenPending {
        return Refused(MaintenanceBusy), [], false;
      }
      if r.payload == [] || |r.payload| > MAX_JOB_BYTES {
        return Refused(Invalid), [], false;
      }
      if |core.queue| >= MAX_QUEUED_JOBS && !(r.stream && ActiveClient(core.View()) == Some(r.client)) {
        return Refused(QueueFull), [], false;
      }
      if core.active.None? {
        if SnapshotBusy(core.View()) || core.status.breakIn || core.status.keyDown {
          return Refused(TransmitBusy), [], false;
        }
        var result := ptt.Key(KEYER, true, now);
        if result == KeyResult.Busy {
          return Refused(TransmitBusy), [], false;
        }
      }
      var job, acts := core.EnqueueJob(r.client, r.payload, r.jobSpeed, r.stream, now);
      if job.Some? {
        return Submitted(job.value), acts, true;
      }
      return Refused(if core.connected then UnknownClient else NotConnected), [], true;
    }

    method HandleMaintenanceCommand(x: ClientId, command: bytes)
      returns (reply: Reply, actions: seq<Action>)
      modifies this`maintenanceOwner
      ensures Handled(View(), reply, actions, true) == HandleMaintenance(old(View()), x, command)
    {
      if (maintenanceOwner.Some? && maintenanceOwner.value != x) || core.active.Some? || core.queue != [] {
        return Refused(MaintenanceBusy), [];
      }
      if !core.connected {
        return Refused(NotConnected), [];
      }
      actions := [];
      if maintenanceOwner.None? {
        actions := [Write(MAINTENANCE_OPENING, HostControl)];
      }
      maintenanceOwner := Some(x);
      actions := actions + [Write(command, HostControl)];
      reply := Done;
    }

    method HandleConfiguring(x: ClientId, command: bytes) returns (reply: Reply, actions: seq<Action>)
      modifies core
      ensures forall now :: Handled(View(), reply, actions, true) == Handle(old(View()), Configuring(x, command), now)
    {
      if reopenPending || (maintenanceOwner.Some? && maintenanceOwner.value != x) {
        return Refused(MaintenanceBusy), [];
      }
      var acts := core.SetClientCommand(x, command);
      if acts.Some? {
        return Done, acts.value;
      }
      return Refused(UnknownClient), [];
    }

    method HandleOwnerCommanding(x: ClientId, command: bytes) returns (reply: Reply, actions: seq<Action>)
      ensures forall now :: Handled(View(), reply, actions, true) == Handle(View(), OwnerCommanding(x, command), now)
    {
      if maintenanceOwner.Some? || reopenPending {
        return Refused(MaintenanceBusy), [];
      }
      var acts := core.ActiveOwnerCommand(x, command);
      if acts.Some? {
        return Done, acts.value;
      }
      return Refused(Invalid), [];
    }

    method HandleRequest(r: Request, now: nat) returns (reply: Reply, actions: seq<Action>, applied: bool)
      modifies this, core, ptt
      ensures Handled(View(), reply, actions, applied) == Handle(old(View()), r, now)
      ensures up == old(up) && stopped == old(stopped) && lastPoll == old(lastPoll) && expiring == old(expiring)
    {
      hide Unregister, CancelClient, CancelJob, EmergencyStop, HandleEnqueue, HandleMaintenance, Register, SetCommand;
      reply, actions, applied := Silent, [], true;
      match r
      case Registering(x, primary) =>
        var accepted := core.RegisterClient(x, primary);
        reply := if accepted then Done else Refused(PrimaryExists);
      case Unregistering(x) =>
        actions := core.UnregisterClient(x, now);
        if maintenanceOwner == Some(x) {
          maintenanceOwner := None;
          reopenPending := true;
          actions := [Write(HOST_OPEN, HostControl)] + actions;
        }
      case Speeding(x, speed) =>
        if reopenPending || (maintenanceOwner.Some? && maintenanceOwner.value != x) {
          return Refused(MaintenanceBusy), [], false;
        }
        actions := core.SetClientSpeed(x, speed);
        reply := if core.connected then Done else Refused(NotConnected);
      case Enqueueing(_, _, _, _) =>
        reply, actions, applied := HandleEnqueueing(r, now);
      case Cancelling(x, includeActive) =>
        actions := core.CancelAll(x, includeActive, now);
        reply := Done;
      case CancellingJob(x, id) =>
        var canceled;
        canceled, actions := core.CancelOne(x, id, now);
        reply := Canceling(canceled);
      case EmergencyStopping =>
        maintenanceOwner := None;
        reopenPending := false;
        actions := core.Emergency();
        reply := Done;
      case Configuring(x, command) =>
        reply, actions := HandleConfiguring(x, command);
      case OwnerCommanding(x, command) =>
        reply, actions := HandleOwnerCommanding(x, command);
      case MaintenanceCommanding(x, command) =>
        reply, actions := HandleMaintenanceCommand(x, command);
      case ReleasingMaintenance(x) =>
        if maintenanceOwner == Some(x) {
          maintenanceOwner := None;
          reopenPending := true;
          actions := [Write(HOST_OPEN, HostControl)];
        }
      case ShuttingDown =>
        actions := core.Emergency();
        reply := Done;
    }

    method ReleaseStationTxIfIdle()
      modifies ptt
      ensures View() == ReleaseIfIdle(old(View()))
    {
      if !SnapshotBusy(core.View()) && !core.status.breakIn && !core.status.keyDown {
        ptt.Release(KEYER);
      }
    }

    method LoseSession() returns (actions: seq<Action>)
      modifies this, core, ptt
      ensures Stepped(View(), actions, [], Silent) == SessionLost(old(View()), [], Silent)
    {
      maintenanceOwner := None;
      reopenPending := false;
      actions := core.PhysicalFailure();
      ptt.Release(KEYER);
      up := false;
    }

    // Perform returned actions; a transport failure breaks the session.
    method Conclude(returned: seq<Action>, fails: bool) returns (actions: seq<Action>)
      modifies this, core, ptt
      ensures Stepped(View(), actions, [], Silent) == Finish(old(View()), returned, fails, Silent)
    {
      if fails {
        var cancels := LoseSession();
        actions := returned + cancels;
      } else {
        ReleaseStationTxIfIdle();
        actions := returned;
      }
    }

    method OnRequest(r: Request, now: nat, fails: bool) returns (reply: Reply, actions: seq<Action>)
      requires !stopped
      modifies this, core, ptt
      ensures Stepped(View(), actions, [], reply) == Step(old(View()), Serve(r, now, fails))
    {
      hide Handle;
      var applied;
      reply, actions, applied := HandleRequest(r, now);
      if r.ShuttingDown? {
        stopped := true;
        up := false;
        ptt.Release(KEYER);
      } else if up {
        actions := Conclude(actions, fails && applied);
      }
    }

    method OnByte(b: byte, now: nat, fails: bool) returns (actions: seq<Action>)
      requires up
      modifies this, core, ptt
      ensures Stepped(View(), actions, [], Silent) == StepReceive(old(View()), b, now, fails)
    {
      hide ObserveStatus, Restore, PhysicalError, StatusFromByte;
      if reopenPending {
        reopenPending := false;
        if b == 0xff {
          actions := LoseSession();
          return;
        }
        core.ConnectPhysical();
        var restore := core.RestoreForegroundSpeed();
        actions := [Write(HOST_INIT, HostControl)] + restore;
        if fails {
          var cancels := LoseSession();
          actions := actions + cancels;
        }
        return;
      }
      if maintenanceOwner.Some? {
        return [];
      }
      match ClassifyByte(b)
      case Status(s) =>
        if (s.busy || s.breakIn || s.keyDown) && core.active.None? {
          var _ := ptt.Key(KEYER, true, now);
        }
        actions := core.Observe(s, now);
        actions := Conclude(actions, fails);
      case _ =>
        actions := Conclude([], fails);
    }

    method OnTick(now: nat, fails: bool) returns (actions: seq<Action>)
      requires up
      modifies this, core, ptt
      ensures Stepped(View(), actions, [], Silent) == StepTick(old(View()), now, fails)
    {
      actions := core.TransmitWatchdog(now);
      var settled := core.ConfirmIdleAfterSettle(now, SHORT_JOB_SETTLE);
      actions := actions + settled;
      var polls: seq<Action> := [];
      if SnapshotBusy(core.View()) && Elapsed(now, lastPoll) >= STATUS_POLL_INTERVAL {
        polls := [Write([0x15], StatusPoll)];
        lastPoll := now;
      }
      actions := Conclude(actions + polls, fails);
    }

    method OnReadFault() returns (actions: seq<Action>)
      requires up
      modifies this, core, ptt
      ensures Stepped(View(), actions, [], Silent) == Step(old(View()), ReadFault)
    {
      actions := LoseSession();
    }

    method OnReconnect(result: Reconnection, now: nat)
      returns (actions: seq<Action>, ignored: seq<Action>)
      requires !up && !stopped
      modifies this, core
      ensures Stepped(View(), actions, ignored, Silent) == StepReconnect(old(View()), result, now)
    {
      actions, ignored := [], [];
      if result.OpenFailed? || result.InitFailed? {
        ignored := core.PhysicalFailure();
        return;
      }
      core.ConnectPhysical();
      actions := core.RestoreForegroundSpeed();
      if result.RestoreFailed? {
        ignored := core.PhysicalFailure();
      } else {
        up := true;
        lastPoll := now;
      }
    }
  }
}
