// Who may write to the keyer and when: during maintenance and outside it, what each request is
// answered, when a submission is accepted, and when the keyer holds the station lease.

module ActorRights {
  import opened Common
  import opened WinkeyerProtocol
  import opened BrokerModel
  import opened BrokerLedger
  import opened BrokerDevice
  import opened BrokerKeying
  import opened BrokerEndings
  import opened BrokerOrder
  import opened Ptt
  import opened ActorModel
  import opened ActorSafety
  import opened ActorKeying
  import opened ActorHistory
  import opened ActorRuns
  import opened ActorPromises

  // Something is written to the keyer.
  ghost predicate Writing(acts: seq<Action>) {
    exists b | b in acts :: b.Write?
  }

  predicate UnderMaintenance(a: Actor) {
    a.maintenance.Some? || a.reopenPending
  }

  // ---- Maintenance ----

  // The request touches the keyer or its work, and maintenance shuts it out.
  predicate ShutOut(a: Actor, r: Request) {
    match r
    case Speeding(x, _) => a.reopenPending || a.maintenance != Some(x)
    case Configuring(x, _) => a.reopenPending || a.maintenance != Some(x)
    case Enqueueing(_, _, _, _) => true
    case OwnerCommanding(_, _) => true
    case MaintenanceCommanding(x, _) => a.maintenance.Some? && a.maintenance != Some(x)
    case _ => false
  }

  // The requests that write to the keyer under maintenance.
  predicate MayWrite(a: Actor, r: Request) {
    match r
    case Unregistering(x) => a.maintenance == Some(x)
    case ReleasingMaintenance(x) => a.maintenance == Some(x)
    case MaintenanceCommanding(x, _) => a.maintenance == Some(x) || a.maintenance.None?
    case Speeding(x, _) => a.maintenance == Some(x) && !a.reopenPending && IsPrimary(a.core, x)
    case Configuring(x, command) =>
      a.maintenance == Some(x) && !a.reopenPending && IsPrimary(a.core, x) && RegisterOf(command).Some?
    case Cancelling(x, includeActive) => includeActive && IsPrimary(a.core, x)
    case EmergencyStopping => true
    case ShuttingDown => true
    case _ => false
  }

  lemma NothingQueued(c: Core, p: Pick)
    requires c.queue == []
    ensures DropQueued(c, p) == Outcome(c, [])
  {
    assert c.(queue := []) == c;
  }

  lemma WritesInMaintenance(a: Actor, r: Request, now: nat)
    requires Safe(a) && !a.stopped && UnderMaintenance(a)
    ensures Writing(Handle(a, r, now).actions) <==> MayWrite(a, r)
  {
    hide Replay, Restore, Cancellations;
    var h := Handle(a, r, now);
    match r
    case Unregistering(x) =>
      NothingQueued(Forget(a.core, x), AllOf(x));
      if a.maintenance == Some(x) {
        assert Write(HOST_OPEN, HostControl) in h.actions;
      }
    case Speeding(x, speed) =>
      if MayWrite(a, r) {
        assert Write(SpeedCommand(speed), SelectSpeed) in h.actions;
      }
    case Cancelling(x, _) =>
      NothingQueued(a.core, AllOf(x));
      if MayWrite(a, r) {
        assert Write([0x0a], ClearBuffer(x)) in h.actions;
      }
    case CancellingJob(x, id) => NothingQueued(a.core, One(x, id));
    case EmergencyStopping => assert Write([0x0a, 0x0b, 0x00], EmergencyOff) in h.actions;
    case ShuttingDown => assert Write([0x0a, 0x0b, 0x00], EmergencyOff) in h.actions;
    case Configuring(x, command) =>
      if MayWrite(a, r) {
        assert Write(command, Configure(x)) in h.actions;
      }
    case MaintenanceCommanding(x, command) =>
      if MayWrite(a, r) {
        assert Write(command, HostControl) in h.actions;
      }
    case ReleasingMaintenance(x) =>
      if MayWrite(a, r) {
        assert Write(HOST_OPEN, HostControl) in h.actions;
      }
    case _ =>
  }

  lemma ShutOutIsRefused(a: Actor, r: Request, now: nat)
    requires Safe(a) && !a.stopped && UnderMaintenance(a)
    ensures var h := Handle(a, r, now);
            (h.reply == Refused(MaintenanceBusy) <==> ShutOut(a, r))
            && (ShutOut(a, r) ==> h.actor == a && h.actions == [])
  {
    hide Unregister, CancelClient, CancelJob, EmergencyStop, Register, SetSpeed, SetCommand, Work, Sized;
  }

  // Over any run, while one client holds maintenance or the reopen is pending: requests that are shut
  // out write nothing, change nothing, and are answered that maintenance is busy, and no others are
  // answered so; and the requests that write at all are the holder's, a primary client's Clear, the
  // emergency stop, the shutdown, and while nobody holds maintenance the one that takes it. The
  // session then ends a shut-out request by giving back the lease of an idle keyer, or is lost.
  lemma MaintenanceKeepsOthersOut(maxTx: nat, lease: Lease, now: nat, found: Keyer, es: seq<Event>,
      run: seq<World>, k: nat, r: Request, t: nat, fails: bool)
    requires IsRun(Start(maxTx, lease, now, found), es, run, Anything) && k < |run|
    requires !run[k].actor.stopped && UnderMaintenance(run[k].actor)
    ensures var a := run[k].actor; var s := Step(a, Serve(r, t, fails));
            (Writing(s.actions) <==> MayWrite(a, r))
            && (s.reply == Refused(MaintenanceBusy) <==> ShutOut(a, r))
            && (ShutOut(a, r) ==>
                  Handle(a, r, t).actor == a && s.actions == []
                  && (s.actor == a.(lease := s.actor.lease) || (fails && !s.actor.up)))
  {
    var a := run[k].actor;
    WitnessedRuns(maxTx, lease, now, found, es, run, Anything, k);
    ShutOutIsRefused(a, r, t);
    WritesInMaintenance(a, r, t);
    hide IsRun;
    HandleKeepsSafe(a, r, t);
    var h := Handle(a, r, t);
    LossWritesNothing(h.actor.core, h.actions);
    if ShutOut(a, r) {
      NothingToLose(a);
    }
    hide Handle, PhysicalError, MayWrite, ShutOut, Writing, Work, Sized, Witnessed;
  }

  lemma LossWritesNothing(c: Core, acts: seq<Action>)
    ensures Writing(acts + PhysicalError(c).actions) <==> Writing(acts)
  {
    CancellationsName(c.queue);
    CancellationsWriteNothing(c.queue);
    hide Cancellations;
    if Writing(acts) {
      var b :| b in acts && b.Write?;
      assert b in acts + PhysicalError(c).actions;
    }
  }

  lemma {:induction false} CancellationsWriteNothing(q: seq<Job>)
    ensures !Writing(Cancellations(q))
    decreases |q|
  {
    if q != [] {
      CancellationsWriteNothing(q[1..]);
    }
  }

  lemma NothingToLose(a: Actor)
    requires Safe(a) && UnderMaintenance(a)
    ensures PhysicalError(a.core).actions == []
  {
  }

  // A maintenance command is carried out exactly when nobody else holds maintenance, nothing is being
  // sent or waits, and the device is there; then it is written behind the opening bytes if it is the
  // first, and its client holds maintenance.
  lemma MaintenanceIsGranted(a: Actor, x: ClientId, command: bytes, now: nat)
    ensures var h := Handle(a, MaintenanceCommanding(x, command), now);
            (h.reply == Done <==>
               (a.maintenance.None? || a.maintenance == Some(x)) && a.core.active.None? && a.core.queue == [] && a.core.connected)
            && (h.reply == Done ==>
                  h.actor == a.(maintenance := Some(x))
                  && Written(h.actions) == (if a.maintenance.None? then [0x0a, 0x0b, 0x00, 0x03] else []) + command)
            && (h.reply != Done ==> h.reply.Refused? && h.actor == a && h.actions == [])
  {
    var last := [Write(command, HostControl)];
    assert Written(last) == command + Written(last[1..]) && Written(last[1..]) == [];
    var first := Write(MAINTENANCE_OPENING, HostControl);
    assert ([first] + last)[1..] == last;
  }

  // The request by which the holder gives maintenance back.
  predicate GivesBack(a: Actor, r: Request) {
    match r
    case Unregistering(x) => a.maintenance == Some(x)
    case ReleasingMaintenance(x) => a.maintenance == Some(x)
    case _ => false
  }

  // Who holds maintenance changes only by a maintenance command that is carried out, by the holder
  // giving it back, and by an emergency stop. Only giving it back opens the device again; that stays
  // pending until any byte comes, or an emergency stop.
  lemma MaintenanceFollowsTheRequests(a: Actor, r: Request, now: nat)
    ensures var h := Handle(a, r, now); var t := h.actor;
            t.maintenance == (if r.EmergencyStopping? || GivesBack(a, r) then None
                              else if r.MaintenanceCommanding? && h.reply == Done then Some(r.client)
                              else a.maintenance)
            && (t.reopenPending <==> GivesBack(a, r) || (a.reopenPending && !r.EmergencyStopping?))
            && (GivesBack(a, r) ==> Write([0x00, 0x02], HostControl) in h.actions)
  {
    hide Unregister, CancelClient, CancelJob, EmergencyStop, Register, SetSpeed, SetCommand, Enqueue;
  }

  lemma BytesEndTheReopen(a: Actor, b: byte, now: nat, fails: bool, found: Registers)
    requires Safe(a) && a.up
    ensures var s := Step(a, Receive(b, now, fails, found)); var t := s.actor;
            (t.up ==> t.maintenance == a.maintenance && !t.reopenPending)
            && (a.reopenPending ==> (b == 0xff ==> !t.up) && (!fails && b != 0xff ==> t.up && t.core.connected))
            && (a.maintenance.Some? && !a.reopenPending ==> t == a && s.actions == [])
  {
    RestoreOnlyWrites(Connect(a.core));
    hide ObserveStatus, Restore, PhysicalError, StatusFromByte, Work, Sized, TryKey;
  }

  // A tick under maintenance writes nothing but a status poll, and that exactly when the last status
  // seen was busy and the poll is due: the polls go on into the client's maintenance.
  lemma TicksInMaintenance(a: Actor, now: nat, fails: bool)
    requires Safe(a) && a.up && UnderMaintenance(a)
    ensures Step(a, Tick(now, fails)).actions
         == (if a.core.status.busy && Elapsed(now, a.lastPoll) >= 100 then [Write([0x15], StatusPoll)] else [])
  {
    NothingToLose(a);
  }

  // ---- Outside maintenance ----

  // The commands of the client whose job is active, or of a primary client while nothing is: exactly
  // these are written at once.
  predicate Commands(c: Core, x: ClientId) {
    if c.active.Some? then c.active.value.job.client == x else IsPrimary(c, x)
  }

  lemma OwnersCommandAtOnce(a: Actor, x: ClientId, command: bytes, now: nat)
    requires !UnderMaintenance(a)
    ensures var h := Handle(a, OwnerCommanding(x, command), now);
            h.actor == a
            && (if Commands(a.core, x) then h.reply == Done && h.actions == [Write(command, OwnerCommand(x))]
                else h.reply == Refused(Invalid) && h.actions == [])
  {
  }

  // A second primary client is refused, and no other registration is.
  lemma OnePrimaryAtATime(a: Actor, x: ClientId, primary: bool, now: nat)
    ensures var h := Handle(a, Registering(x, primary), now);
            h.actions == []
            && (h.reply == Done <==> !(primary && exists y :: IsPrimary(a.core, y)))
            && (h.reply != Done ==> h.reply == Refused(PrimaryExists) && h.actor == a)
  {
    if Primaries(a.core) != {} {
      var y :| y in Primaries(a.core);
      assert IsPrimary(a.core, y);
    }
    assert forall y :: IsPrimary(a.core, y) <==> y in Primaries(a.core);
  }

  // A speed, or a configuration command, reaches the device at once exactly when its client is primary
  // and nothing is being sent; it is answered for what it is whether or not it is written.
  lemma ChoicesReachAnIdleDevice(a: Actor, x: ClientId, speed: SpeedMode, command: bytes, now: nat)
    requires !UnderMaintenance(a)
    ensures var h := Handle(a, Speeding(x, speed), now);
            var atOnce := a.core.active.None? && IsPrimary(a.core, x);
            h.actions == (if atOnce then [Write([0x02, if speed.Pot? then 0 else speed.wpm], SelectSpeed)] else [])
            && h.reply == (if a.core.connected then Done else Refused(NotConnected))
    ensures var h := Handle(a, Configuring(x, command), now);
            var atOnce := a.core.active.None? && IsPrimary(a.core, x) && RegisterOf(command).Some?;
            h.actions == (if atOnce then [Write(command, Configure(x))] else [])
            && (h.reply == Done <==> x in a.core.clients && RegisterOf(command).Some?)
  {
  }

  // Cancelling a job is answered with whether it was the client's and live.
  lemma CancellationsAreAnswered(a: Actor, x: ClientId, id: JobId, now: nat)
    ensures Handle(a, CancellingJob(x, id), now).reply == Canceling(LiveAs(a.core, id, x))
  {
    CancelJobEnds(a.core, x, id, now);
    hide CancelJob;
  }

  // ---- Submissions ----

  // Nothing is keyed by hand and nobody else holds the station lease.
  predicate StationFree(a: Actor) {
    !a.core.status.busy && !a.core.status.breakIn && !a.core.status.keyDown
    && (a.lease.owner.None? || a.lease.owner == Some(KEYER))
  }

  // The piece extends the client's active stream, or the client's stream that waits last.
  predicate Extends(j: Job, x: ClientId, stream: bool) {
    stream && j.client == x && j.stream
  }

  predicate HasRoom(c: Core, x: ClientId, size: nat, stream: bool) {
    var n := |c.queue|;
    if c.active.Some? && Extends(c.active.value.job, x, stream) then |c.active.value.job.payload| + size <= 120
    else if n > 0 && Extends(c.queue[n - 1], x, stream) then
      |c.queue[n - 1].payload| + size <= 120
    else n < 64
  }

  lemma SubmissionIsAcceptedExactlyWhen(a: Actor, x: ClientId, payload: bytes, speed: Option<SpeedMode>, stream: bool, now: nat)
    requires Safe(a) && !a.stopped
    ensures Handle(a, Enqueueing(x, payload, speed, stream), now).reply.Submitted? <==>
              !UnderMaintenance(a) && 1 <= |payload| <= 120 && a.core.connected && x in a.core.clients
              && (a.core.active.None? ==> StationFree(a))
              && HasRoom(a.core, x, |payload|, stream)
              && (|a.core.queue| < 64 || (stream && ActiveClient(a.core) == Some(x)))
  {
    if a.core.queue != [] {
      assert a.core.queue[|a.core.queue| - 1] in Live(a.core);
    }
    hide StartOrRestore;
  }

  // A refused submission is answered with a reason that holds, and leaves everything but the lease.
  // A piece that does not fit its stream is answered as if its client were unknown.
  lemma RefusalsGiveTheirReason(a: Actor, x: ClientId, payload: bytes, speed: Option<SpeedMode>, stream: bool, now: nat)
    requires Safe(a) && !a.stopped
    ensures var h := Handle(a, Enqueueing(x, payload, speed, stream), now);
            h.reply.Submitted? || (h.reply.Refused? && h.actor == a.(lease := h.actor.lease) && h.actions == [])
    ensures var reply := Handle(a, Enqueueing(x, payload, speed, stream), now).reply;
            reply.Refused? ==>
              match reply.error
              case MaintenanceBusy => UnderMaintenance(a)
              case Invalid => payload == [] || |payload| > 120
              case QueueFull => |a.core.queue| >= 64
              case TransmitBusy => a.core.active.None? && !StationFree(a)
              case NotConnected => !a.core.connected
              case UnknownClient => a.core.connected && (x !in a.core.clients || !HasRoom(a.core, x, |payload|, stream))
              case PrimaryExists => false
  {
    hide StartOrRestore;
  }

  // ---- Who writes outside maintenance ----

  // The requests that write to the keyer while nobody holds maintenance and no reopen is pending.
  predicate MayWriteOutside(a: Actor, r: Request) {
    var c := a.core;
    match r
    case Unregistering(x) => ActiveClient(c) == Some(x)
    case Speeding(x, _) => c.active.None? && IsPrimary(c, x)
    case Configuring(x, command) => c.active.None? && IsPrimary(c, x) && RegisterOf(command).Some?
    case OwnerCommanding(x, _) => Commands(c, x)
    case Cancelling(x, includeActive) => includeActive && Commands(c, x)
    case CancellingJob(x, id) => ActiveAs(c, id, x)
    case MaintenanceCommanding(_, _) => c.active.None? && c.connected
    case Enqueueing(x, payload, _, stream) =>
      1 <= |payload| <= 120 && c.connected && x in c.clients
      && (if c.active.None? then StationFree(a)
          else Extends(c.active.value.job, x, stream) && |c.active.value.job.payload| + |payload| <= 120)
    case EmergencyStopping => true
    case ShuttingDown => true
    case _ => false
  }

  lemma ClearingWrites(acts: seq<Action>)
    requires Cleared(acts)
    ensures Writing(acts)
  {
  }

  lemma DroppingWritesNothing(c: Core, p: Pick)
    ensures !Writing(DropQueued(c, p).actions)
  {
    CancellationsWriteNothing(Dropped(c.queue, p));
  }

  lemma EnqueueWrites(c: Core, x: ClientId, payload: bytes, speed: Option<SpeedMode>, stream: bool, now: nat)
    requires Work(c) && Enqueue(c, x, payload, speed, stream, now).Some?
    ensures Writing(Enqueue(c, x, payload, speed, stream, now).value.actions)
            <==> c.active.None? || AppendsToActive(c, x, stream)
  {
    var acts := Enqueue(c, x, payload, speed, stream, now).value.actions;
    if AppendsToActive(c, x, stream) {
      assert acts[0] in acts;
    } else if c.active.None? {
      var j := Job(c.nextId, x, payload, if speed.Some? then speed.value else c.clients[x].desired, stream);
      StartTurns(c.(nextId := SaturatingNext(c.nextId), queue := c.queue + [j]), now);
      assert !NoKeying(acts);
    }
    hide StartOrRestore;
  }

  lemma SubmissionWrites(a: Actor, x: ClientId, payload: bytes, speed: Option<SpeedMode>, stream: bool, now: nat)
    requires Safe(a) && !a.stopped && !UnderMaintenance(a)
    ensures var r := Enqueueing(x, payload, speed, stream);
            Writing(Handle(a, r, now).actions) <==> MayWriteOutside(a, r)
  {
    var r := Enqueueing(x, payload, speed, stream);
    var h := Handle(a, r, now);
    SubmissionIsAcceptedExactlyWhen(a, x, payload, speed, stream, now);
    RefusalsGiveTheirReason(a, x, payload, speed, stream, now);
    if h.reply.Submitted? {
      EnqueueWrites(a.core, x, payload, speed, stream, now);
      assert h.actions == Enqueue(a.core, x, payload, speed, stream, now).value.actions by { hide Enqueue; }
    }
    hide Enqueue, Writing, TryKey, Sized, Handle;
  }

  // Outside maintenance, exactly these requests write at all: while a job is active, those of its own
  // client; otherwise those of a primary client, a submission, and the maintenance command; and always
  // the two stops.
  lemma WritersOutsideMaintenance(a: Actor, r: Request, now: nat)
    requires Safe(a) && !a.stopped && !UnderMaintenance(a)
    ensures Writing(Handle(a, r, now).actions) <==> MayWriteOutside(a, r)
  {
    var c := a.core;
    var h := Handle(a, r, now);
    hide Cancellations, Dropped, Kept, StartOrRestore, Restore, HandleEnqueue, Cleared;
    assert h.actions != [] ==> h.actions[0] in h.actions;
    match r
    case Unregistering(x) =>
      UnregisterIsOrderly(c, x, now);
      if MayWriteOutside(a, r) { ClearingWrites(h.actions); } else { DroppingWritesNothing(Forget(c, x), AllOf(x)); }
    case Speeding(x, speed) => ChoicesReachAnIdleDevice(a, x, speed, [], now);
    case Configuring(x, command) => ChoicesReachAnIdleDevice(a, x, Pot, command, now);
    case OwnerCommanding(x, command) => OwnersCommandAtOnce(a, x, command, now);
    case Cancelling(x, includeActive) =>
      CancelIsOrderly(c, x, includeActive, now);
      DroppingWritesNothing(c, AllOf(x));
      if MayWriteOutside(a, r) {
        assert Write([0x0a], ClearBuffer(x)) in h.actions;
      }
    case CancellingJob(x, id) =>
      CancelJobIsOrderly(c, x, id, now);
      if MayWriteOutside(a, r) { ClearingWrites(h.actions); } else { DroppingWritesNothing(c, One(x, id)); }
    case MaintenanceCommanding(x, command) =>
      if h.reply == Done {
        assert Write(command, HostControl) in h.actions;
      }
    case Enqueueing(x, payload, speed, stream) => SubmissionWrites(a, x, payload, speed, stream, now);
    case EmergencyStopping =>
      StopIsOrderly(c);
      ClearingWrites(h.actions);
    case ShuttingDown =>
      StopIsOrderly(c);
      ClearingWrites(h.actions);
    case _ =>
  }

  // ---- The station lease ----

  // An event that the session of the keyer answers itself, outside maintenance for a byte.
  predicate Answered(a: Actor, e: Event) {
    e.Serve? || e.Tick? || (e.Receive? && !UnderMaintenance(a))
  }

  // A keyer without work, whose key is up, does not hold the lease once an event has been answered.
  lemma IdleKeyerHoldsNoLease(a: Actor, e: Event)
    requires Safe(a) && a.up && Enabled(a, e) && Answered(a, e)
    ensures var t := Step(a, e).actor;
            t.lease.owner == Some(KEYER) ==>
              t.up && (t.core.active.Some? || t.core.status.busy || t.core.status.breakIn || t.core.status.keyDown)
  {
    if e.Serve? {
      HandleKeepsSafe(a, e.request, e.now);
    }
    hide Handle, ObserveStatus, Watchdog, ConfirmIdle, PhysicalError, TryKey, Work, Sized, StatusFromByte;
  }

  lemma RequestsLeaveTheLeaseOfOthers(a: Actor, r: Request, now: nat)
    requires a.lease.owner.Some? && a.lease.owner.value != KEYER
    ensures Handle(a, r, now).actor.lease == a.lease
  {
    hide Unregister, CancelClient, CancelJob, EmergencyStop, Register, SetSpeed, SetCommand, Enqueue;
  }

  // No event of the keyer takes the lease from a CAT session.
  lemma KeyerLeavesTheLeaseOfOthers(a: Actor, e: Event)
    requires Enabled(a, e) && (e.Serve? || e.Receive? || e.Tick? || e.ReadFault? || e.Reconnect?)
    requires a.lease.owner.Some? && a.lease.owner.value != KEYER
    ensures Step(a, e).actor.lease == a.lease
  {
    if e.Serve? {
      RequestsLeaveTheLeaseOfOthers(a, e.request, e.now);
    }
    hide Handle, ObserveStatus, Watchdog, ConfirmIdle, PhysicalError, Restore, StatusFromByte;
  }

  // A status byte that shows the keyer busy, broken into or keyed by hand (bits 2, 1 and 3) while no
  // job is active takes a free lease for it from that moment, if the session survives.
  lemma PaddleTakesTheLease(a: Actor, b: byte, now: nat, fails: bool, found: Registers)
    requires a.up && !UnderMaintenance(a) && a.core.active.None? && a.lease.owner.None? && IsStatus(b)
    ensures var t := Step(a, Receive(b, now, fails, found)).actor;
            t.up && (b / 2 % 2 == 1 || b / 4 % 2 == 1 || b / 8 % 2 == 1) ==> t.lease == Lease(Some(KEYER), Some(now))
  {
    hide PhysicalError;
  }

  // The status is that of the last status byte that did not go to maintenance.
  lemma StatusFollowsTheBytes(a: Actor, e: Event)
    requires Safe(a) && Enabled(a, e)
    ensures Step(a, e).actor.core.status
         == (if e.Receive? && IsStatus(e.input) && !UnderMaintenance(a) then StatusFromByte(e.input) else a.core.status)
  {
    RestoreOnlyWrites(Connect(a.core));
    hide StatusFromByte, Restore, Work, Sized, LiveAs, NoKeying;
    match e
    case Serve(r, now, fails) =>
      HandleKeepsStatus(a, r, now);
      hide Handle;
    case Receive(b, now, _, _) =>
      StatusMeans(b);
      ObserveSetsStatus(a.core, ClassifyByte(b), now);
      hide ObserveStatus;
    case Tick(now, _) => TickKeepsStatus(a, now);
      hide Watchdog, ConfirmIdle;
    case _ =>
  }

  lemma HandleKeepsStatus(a: Actor, r: Request, now: nat)
    requires !a.stopped
    ensures Handle(a, r, now).actor.core.status == a.core.status
  {
    HandleEnds(a, r, now, false);
    hide Handle, NoKeying, LiveAs;
  }

  lemma ObserveSetsStatus(c: Core, e: DeviceEvent, now: nat)
    ensures e.Status? ==> ObserveStatus(c, e.status, now).core.status == e.status
  {
    hide Replay, Foreground;
  }

  lemma TickKeepsStatus(a: Actor, now: nat)
    ensures Ticked(a, now).core.status == a.core.status
  {
    hide Replay, Foreground;
  }

  // ---- Reconnecting ----

  // A reconnect attempt brings the session back exactly if it reaches the end; then the speed of the
  // foreground has been written last, and the polls are timed from here.
  lemma SessionsComeBackWhole(a: Actor, result: Reconnection, now: nat, device: Keyer)
    requires Safe(a) && Enabled(a, Reconnect(result, now, device))
    ensures var s := Step(a, Reconnect(result, now, device)); var t := s.actor;
            (t.up <==> result == Reopened) && (t.core.connected <==> result == Reopened)
            && t.core.active.None? && t.core.queue == [] && t.core.clients == a.core.clients && t.lease == a.lease
            && (result == Reopened ==>
                  t.lastPoll == now && s.actions != []
                  && var fg := Foreground(a.core);
                     var speed := if fg.Some? && fg.value in a.core.clients then a.core.clients[fg.value].desired else Pot;
                     s.actions[|s.actions| - 1] == Write([0x02, if speed.Pot? then 0 else speed.wpm], SelectSpeed))
  {
    RestoreOnlyWrites(Connect(a.core));
    assert Primaries(Connect(a.core)) == Primaries(a.core);
  }

  // ---- Polls ----

  // A tick that ends no job writes exactly a status poll, and that exactly when the keyer is busy or has
  // a job and the last poll by a tick, or the opening of the session, is 100 ms or more ago.
  lemma TicksPoll(a: Actor, seen: Seen, now: nat)
    requires Knows(a, seen) && a.up && !Overdue(a, seen, now) && !DoneByTick(a, seen, now)
    ensures var s := Step(a, Tick(now, false));
            var due := (a.core.status.busy || a.core.active.Some?) && Elapsed(now, a.lastPoll) >= 100;
            s.actions == (if due then [Write([0x15], StatusPoll)] else [])
            && s.actor.lastPoll == (if due then now else a.lastPoll)
            && s.actor.core == a.core
  {
    hide EmergencyStop, CompleteActive, SomeWorking;
  }
}
