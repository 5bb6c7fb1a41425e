// Every step of the actor keeps the books: conservation of jobs, order, byte accounts and write
// exclusion hold over the actions returned in any run.

module ActorBooks {
  import opened Common
  import opened WinkeyerProtocol
  import opened BrokerModel
  import opened BrokerLedger
  import opened ActorModel
  import opened ActorSafety

  // The identifier counter has not reached its ceiling when a job is submitted.
  ghost predicate FreshIds(a: Actor, e: Event) {
    e.Serve? && e.request.Enqueueing? ==> a.core.nextId < U64_MAX
  }

  // What a served request adds to the books before its actions are performed.
  function Credited(l: Ledger, r: Request, reply: Reply): Ledger {
    if r.Enqueueing? && reply.Submitted? then Accept(l, reply.job, r.client, r.payload) else l
  }

  function StepLedger(a: Actor, l: Ledger, e: Event): Ledger
    requires Enabled(a, e)
  {
    var s := Step(a, e);
    NoteAll(if e.Serve? then Credited(l, e.request, s.reply) else l, s.actions)
  }

  lemma HostControlIsQuiet(c: Core, l: Ledger, b: bytes, rest: seq<Action>)
    requires Settled(c, l) && c.active.None?
    ensures NoteAll(l, [Write(b, HostControl)] + rest) == NoteAll(l, rest)
  {
    NoteAppend(l, [Write(b, HostControl)], rest);
    NoteQuiet(l, [Write(b, HostControl)]);
  }

  lemma HandleMaintenanceBooks(a: Actor, l: Ledger, x: ClientId, command: bytes)
    requires Settled(a.core, l)
    ensures Settled(HandleMaintenance(a, x, command).actor.core, NoteAll(l, HandleMaintenance(a, x, command).actions))
  {
    var h := HandleMaintenance(a, x, command);
    if h.actions != [] {
      NoteQuiet(l, h.actions);
    }
  }

  lemma HandleUnregisteringBooks(a: Actor, l: Ledger, x: ClientId, now: nat)
    requires Safe(a) && Settled(a.core, l)
    ensures var h := Handle(a, Unregistering(x), now); Settled(h.actor.core, NoteAll(l, h.actions))
  {
    UnregisterKeepsBooks(a.core, l, x, now);
    if a.maintenance == Some(x) {
      HostControlIsQuiet(a.core, l, [0x00, 0x02], Unregister(a.core, x, now).actions);
    }
  }

  lemma HandleEnqueueBooks(a: Actor, l: Ledger, r: Request, now: nat)
    requires Settled(a.core, l) && r.Enqueueing? && a.core.nextId < U64_MAX
    ensures var h := HandleEnqueue(a, r, now); Settled(h.actor.core, NoteAll(Credited(l, r, h.reply), h.actions))
  {
    hide Settled;
    if Enqueue(a.core, r.client, r.payload, r.jobSpeed, r.stream, now).Some? {
      EnqueueKeepsBooks(a.core, l, r.client, r.payload, r.jobSpeed, r.stream, now);
    }
  }

  lemma HandleCancelBooks(a: Actor, l: Ledger, r: Request, now: nat)
    requires Settled(a.core, l)
    requires r.Cancelling? || r.CancellingJob? || r.EmergencyStopping? || r.ShuttingDown?
    ensures var h := Handle(a, r, now); Settled(h.actor.core, NoteAll(l, h.actions))
  {
    hide Settled, CancelClient, CancelJob, EmergencyStop, NoteAll;
    match r
    case Cancelling(x, includeActive) => CancelClientKeepsBooks(a.core, l, x, includeActive, now);
    case CancellingJob(x, id) => CancelJobKeepsBooks(a.core, l, x, id, now);
    case _ => EmergencyStopKeepsBooks(a.core, l);
  }

  lemma HandleKeepsBooks(a: Actor, l: Ledger, r: Request, now: nat)
    requires Safe(a) && Settled(a.core, l)
    requires r.Enqueueing? ==> a.core.nextId < U64_MAX
    ensures var h := Handle(a, r, now); Settled(h.actor.core, NoteAll(Credited(l, r, h.reply), h.actions))
  {
    hide Settled;
    match r
    case Registering(x, primary) => RegisterKeepsBooks(a.core, l, x, primary);
    case Unregistering(x) => HandleUnregisteringBooks(a, l, x, now);
    case Speeding(x, speed) => SetSpeedKeepsBooks(a.core, l, x, speed);
    case Enqueueing(_, _, _, _) => HandleEnqueueBooks(a, l, r, now);
    case Configuring(x, command) =>
      if SetCommand(a.core, x, command).Some? {
        SetCommandKeepsBooks(a.core, l, x, command);
      }
    case OwnerCommanding(x, command) =>
      if CommandByOwner(a.core, x, command).Some? {
        OwnerCommandKeepsBooks(a.core, l, x, command);
      }
    case MaintenanceCommanding(x, command) => HandleMaintenanceBooks(a, l, x, command);
    case ReleasingMaintenance(x) =>
      if a.maintenance == Some(x) {
        HostControlIsQuiet(a.core, l, [0x00, 0x02], []);
      }
    case _ => HandleCancelBooks(a, l, r, now);
  }

  lemma SessionLostKeepsBooks(a: Actor, l: Ledger, returned: seq<Action>, reply: Reply)
    requires Settled(a.core, NoteAll(l, returned))
    ensures var s := SessionLost(a, returned, reply); Settled(s.actor.core, NoteAll(l, s.actions))
  {
    PhysicalErrorKeepsBooks(a.core, NoteAll(l, returned));
    NoteAppend(l, returned, PhysicalError(a.core).actions);
  }

  lemma FinishKeepsBooks(a: Actor, l: Ledger, returned: seq<Action>, fails: bool, reply: Reply)
    requires Settled(a.core, NoteAll(l, returned))
    ensures var s := Finish(a, returned, fails, reply); Settled(s.actor.core, NoteAll(l, s.actions))
  {
    if fails {
      SessionLostKeepsBooks(a, l, returned, reply);
    }
  }

  lemma ReopenKeepsBooks(c: Core, l: Ledger, lead: seq<Action>)
    requires Settled(c, l) && c.active.None? && Quiet(lead)
    ensures var o := Restore(Connect(c)); Settled(o.core, NoteAll(l, lead + o.actions))
  {
    var o := Restore(Connect(c));
    RestoreIsQuiet(Connect(c));
    NoteQuiet(l, lead);
    NoteAppend(l, lead, o.actions);
    NoteQuiet(l, o.actions);
    SameJobs(c, o.core, l);
  }

  lemma ReceiveKeepsBooks(a: Actor, l: Ledger, b: byte, now: nat, fails: bool)
    requires Safe(a) && Settled(a.core, l)
    ensures var s := StepReceive(a, b, now, fails); Settled(s.actor.core, NoteAll(l, s.actions))
  {
    if a.reopenPending {
      var a1 := a.(reopenPending := false);
      if b == 0xff {
        SessionLostKeepsBooks(a1, l, [], Silent);
      } else {
        var o := Restore(Connect(a.core));
        var lead := [Write(HOST_INIT, HostControl)];
        ReopenKeepsBooks(a.core, l, lead);
        SessionLostKeepsBooks(a1.(core := o.core), l, lead + o.actions, Silent);
      }
    } else if a.maintenance.None? {
      match ClassifyByte(b)
      case Status(s) =>
        ObserveStatusKeepsBooks(a.core, l, s, now);
        var a1 := if (s.busy || s.breakIn || s.keyDown) && a.core.active.None?
                  then a.(lease := Ptt.TryKey(a.lease, KEYER, true, now).lease) else a;
        var o := ObserveStatus(a.core, s, now);
        FinishKeepsBooks(a1.(core := o.core), l, o.actions, fails, Silent);
      case _ => FinishKeepsBooks(a, l, [], fails, Silent);
    }
  }

  lemma PollKeepsBooks(c: Core, l: Ledger, poll: bool)
    requires Settled(c, l)
    ensures Settled(c, NoteAll(l, if poll then [Write([0x15], StatusPoll)] else []))
  {
    var w := Write([0x15], StatusPoll);
    assert NoteAll(l, [w]) == Note(l, w) == l;
  }

  lemma TickKeepsBooks(a: Actor, l: Ledger, now: nat, fails: bool)
    requires Settled(a.core, l)
    ensures var s := StepTick(a, now, fails); Settled(s.actor.core, NoteAll(l, s.actions))
  {
    var w := Watchdog(a.core, now);
    var i := ConfirmIdle(w.core, now, SHORT_JOB_SETTLE);
    var poll := SnapshotBusy(i.core) && Elapsed(now, a.lastPoll) >= STATUS_POLL_INTERVAL;
    var polls := if poll then [Write([0x15], StatusPoll)] else [];
    WatchdogKeepsBooks(a.core, l, now);
    ConfirmIdleKeepsBooks(w.core, NoteAll(l, w.actions), now, SHORT_JOB_SETTLE);
    NoteAppend(l, w.actions, i.actions);
    NoteAppend(l, w.actions + i.actions, polls);
    PollKeepsBooks(i.core, NoteAll(l, w.actions + i.actions), poll);
    FinishKeepsBooks(a.(core := i.core, lastPoll := if poll then now else a.lastPoll), l,
                     w.actions + i.actions + polls, fails, Silent);
  }

  lemma ReconnectKeepsBooks(a: Actor, l: Ledger, result: Reconnection, now: nat)
    requires Settled(a.core, l) && a.core.active.None? && a.core.queue == []
    ensures var s := StepReconnect(a, result, now); Settled(s.actor.core, NoteAll(l, s.actions))
  {
    var r := Restore(Connect(a.core));
    ReopenKeepsBooks(a.core, l, []);
    assert [] + r.actions == r.actions;
    PhysicalErrorKeepsBooks(r.core, NoteAll(l, r.actions));
    PhysicalErrorKeepsBooks(a.core, l);
    ReconnectKeepsWork(a.core);
    SameJobs(r.core, PhysicalError(r.core).core, NoteAll(l, r.actions));
    SameJobs(a.core, PhysicalError(a.core).core, l);
    hide Settled, PhysicalError, Restore, Connect, NoteAll;
  }

  lemma ServeKeepsBooks(a: Actor, l: Ledger, r: Request, now: nat, fails: bool)
    requires Safe(a) && Settled(a.core, l)
    requires r.Enqueueing? ==> a.core.nextId < U64_MAX
    ensures var s := StepServe(a, r, now, fails);
            Settled(s.actor.core, NoteAll(Credited(l, r, s.reply), s.actions))
  {
    hide Settled;
    var h := Handle(a, r, now);
    HandleKeepsBooks(a, l, r, now);
    FinishKeepsBooks(h.actor, Credited(l, r, h.reply), h.actions, fails && h.applied, h.reply);
  }

  lemma StepKeepsBooks(a: Actor, l: Ledger, e: Event)
    requires Safe(a) && Settled(a.core, l) && Enabled(a, e) && FreshIds(a, e)
    ensures Settled(Step(a, e).actor.core, StepLedger(a, l, e))
  {
    match e
    case Serve(r, now, fails) => ServeKeepsBooks(a, l, r, now, fails);
    case Receive(b, now, fails, _) => ReceiveKeepsBooks(a, l, b, now, fails);
    case Tick(now, fails) => TickKeepsBooks(a, l, now, fails);
    case ReadFault => SessionLostKeepsBooks(a, l, [], Silent);
    case Reconnect(result, now, _) => ReconnectKeepsBooks(a, l, result, now);
    case _ =>
  }
}
