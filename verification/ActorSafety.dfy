// Safety of the keyer actor that needs no assumption about what clients send: where work can be,
// when maintenance excludes it, and who holds the transmit lease.

module ActorSafety {
  import opened Common
  import opened WinkeyerProtocol
  import opened BrokerModel
  import opened BrokerLedger
  import opened Ptt
  import opened ActorModel

  // Without an active job there is no backlog; without a device there is no job.
  ghost predicate Work(c: Core) {
    (c.active.None? ==> c.queue == []) && (!c.connected ==> c.active.None?)
  }

  ghost predicate Sized(c: Core) {
    |c.queue| <= MAX_QUEUED_JOBS && forall j | j in Live(c) :: 1 <= |j.payload| <= MAX_JOB_BYTES
  }

  ghost predicate Safe(a: Actor) {
    && Work(a.core)
    && Sized(a.core)
    && (a.stopped ==> !a.up && a.core.active.None?)
    && (!a.stopped ==> (a.up <==> a.core.connected))
    && (!a.up && !a.stopped ==> a.maintenance.None? && !a.reopenPending)
    // A maintenance lease or a pending host reopen excludes transmit work.
    && (a.maintenance.Some? || a.reopenPending ==> a.core.active.None? && a.core.queue == [])
  }

  // An active job implies the keyer owns the station lease.
  ghost predicate Exclusive(a: Actor) {
    a.core.active.Some? ==> a.lease.owner == Some(KEYER)
  }

  // ---- Broker operations ----

  ghost predicate Smaller(c: Core, c': Core) {
    c'.connected == c.connected && |c'.queue| <= |c.queue|
    && (forall j | j in Live(c') :: j in Live(c))
  }

  lemma StartOrRestoreWork(c: Core, now: nat)
    requires c.active.None? && (!c.connected ==> c.queue == [])
    ensures Work(StartOrRestore(c, now).core) && Smaller(c, StartOrRestore(c, now).core)
    ensures c.queue == [] ==> StartOrRestore(c, now).core.active.None?
  {
    var o := StartOrRestore(c, now);
    if c.queue != [] {
      assert Live(o.core) == Live(c);
    } else {
      RestoreIsQuiet(c);
      assert Live(o.core) == Live(c);
    }
  }

  lemma {:induction false} KeptIsSmaller(q: seq<Job>, p: Pick)
    ensures |Kept(q, p)| <= |q| && forall j | j in Kept(q, p) :: j in q
  {
    if q != [] {
      KeptIsSmaller(q[1..], p);
    }
  }

  lemma EndThenStartWork(c: Core, q: seq<Job>, now: nat)
    requires Work(c) && |q| <= |c.queue| && forall j | j in q :: j in c.queue
    ensures var o := StartOrRestore(c.(active := None, queue := q), now);
            Work(o.core) && Smaller(c, o.core)
  {
    assert !c.connected ==> q == [];
    StartOrRestoreWork(c.(active := None, queue := q), now);
  }

  lemma UnregisterWork(c: Core, x: ClientId, now: nat)
    requires Work(c)
    ensures Work(Unregister(c, x, now).core) && Smaller(c, Unregister(c, x, now).core)
    ensures c.active.None? ==> Unregister(c, x, now).core.active.None?
  {
    KeptIsSmaller(c.queue, AllOf(x));
    EndThenStartWork(Forget(c, x), Kept(c.queue, AllOf(x)), now);
  }

  lemma CancelClientWork(c: Core, x: ClientId, includeActive: bool, now: nat)
    requires Work(c)
    ensures var o := CancelClient(c, x, includeActive, now);
            Work(o.core) && Smaller(c, o.core) && (c.active.None? ==> o.core.active.None?)
  {
    KeptIsSmaller(c.queue, AllOf(x));
    EndThenStartWork(c, Kept(c.queue, AllOf(x)), now);
  }

  lemma CancelJobWork(c: Core, x: ClientId, id: JobId, now: nat)
    requires Work(c)
    ensures var o := CancelJob(c, x, id, now);
            Work(o.core) && Smaller(c, o.core) && (c.active.None? ==> o.core.active.None?)
  {
    KeptIsSmaller(c.queue, One(x, id));
    EndThenStartWork(c, c.queue, now);
    assert c.(queue := c.queue) == c;
  }

  lemma EmergencyStopWork(c: Core)
    requires Work(c)
    ensures var o := EmergencyStop(c);
            Work(o.core) && Smaller(c, o.core) && o.core.active.None? && o.core.queue == []
  {
    RestoreIsQuiet(c.(active := None, queue := []));
  }

  lemma CompleteActiveWork(c: Core, now: nat)
    requires Work(c)
    ensures var o := CompleteActive(c, now);
            Work(o.core) && Smaller(c, o.core) && (c.active.None? ==> o.core.active.None?)
  {
    EndThenStartWork(c, c.queue, now);
    assert c.(queue := c.queue) == c;
  }

  lemma ObserveStatusWork(c: Core, s: DeviceStatus, now: nat)
    requires Work(c)
    ensures var o := ObserveStatus(c, s, now);
            Work(o.core) && Smaller(c, o.core) && (c.active.None? ==> o.core.active.None?)
  {
    var c1 := c.(status := s);
    if c.active.Some? {
      var a := c.active.value.(observedStatus := true);
      assert Live(c1.(active := Some(a))) == Live(c);
      assert Live(c1.(active := Some(a.(sawBusy := true)))) == Live(c);
      CompleteActiveWork(c1.(active := Some(a)), now);
    } else {
      assert Live(c1) == Live(c);
    }
  }

  lemma EnqueueWork(c: Core, x: ClientId, payload: bytes, speed: Option<SpeedMode>, stream: bool, now: nat)
    requires Work(c) && Sized(c) && Enqueue(c, x, payload, speed, stream, now).Some?
    ensures var e := Enqueue(c, x, payload, speed, stream, now).value;
            Work(e.core) && Sized(e.core) && c.connected && e.core.connected
  {
    var e := Enqueue(c, x, payload, speed, stream, now).value;
    if AppendsToActive(c, x, stream) {
      assert forall j | j in Live(e.core) :: j in Live(c) || j == e.core.active.value.job;
    } else if AppendsToLast(c, x, stream) {
      assert forall j | j in Live(e.core) :: j in Live(c) || j == e.core.queue[|c.queue| - 1];
    } else {
      var j := Job(c.nextId, x, payload, if speed.Some? then speed.value else c.clients[x].desired, stream);
      var queued := c.(nextId := SaturatingNext(c.nextId), queue := c.queue + [j]);
      assert forall k | k in Live(queued) :: k in Live(c) || k == j;
      if c.active.None? {
        StartOrRestoreWork(queued, now);
      }
    }
  }

  // ---- Requests ----

  lemma SmallerKeepsSafe(a: Actor, c: Core)
    requires Safe(a) && Work(c) && Smaller(a.core, c) && (a.core.active.None? ==> c.active.None?)
    ensures Safe(a.(core := c))
  {
  }

  lemma HandleEnqueueSafe(a: Actor, r: Request, now: nat)
    requires Safe(a) && !a.stopped && r.Enqueueing?
    ensures var h := HandleEnqueue(a, r, now).actor; Safe(h) && h.up == a.up && h.stopped == a.stopped
  {
    if Enqueue(a.core, r.client, r.payload, r.jobSpeed, r.stream, now).Some? {
      EnqueueWork(a.core, r.client, r.payload, r.jobSpeed, r.stream, now);
    }
  }

  lemma HandleKeepsSafe(a: Actor, r: Request, now: nat)
    requires Safe(a) && !a.stopped
    ensures Safe(Handle(a, r, now).actor)
    ensures var h := Handle(a, r, now).actor; h.up == a.up && !h.stopped
  {
    match r
    case Registering(x, primary) =>
      assert Live(Register(a.core, x, primary).core) == Live(a.core);
    case Unregistering(x) =>
      UnregisterWork(a.core, x, now);
      SmallerKeepsSafe(a, Unregister(a.core, x, now).core);
    case Speeding(x, speed) =>
      assert Live(SetSpeed(a.core, x, speed).core) == Live(a.core);
    case Enqueueing(_, _, _, _) => HandleEnqueueSafe(a, r, now);
    case Cancelling(x, includeActive) =>
      CancelClientWork(a.core, x, includeActive, now);
      SmallerKeepsSafe(a, CancelClient(a.core, x, includeActive, now).core);
    case CancellingJob(x, id) =>
      CancelJobWork(a.core, x, id, now);
      SmallerKeepsSafe(a, CancelJob(a.core, x, id, now).core);
    case EmergencyStopping =>
      EmergencyStopWork(a.core);
    case Configuring(x, command) =>
      if SetCommand(a.core, x, command).Some? {
        assert Live(SetCommand(a.core, x, command).value.core) == Live(a.core);
      }
    case OwnerCommanding(x, command) =>
    case MaintenanceCommanding(x, command) =>
    case ReleasingMaintenance(x) =>
    case ShuttingDown =>
      EmergencyStopWork(a.core);
  }

  // Only a submission can make an idle broker active, and it takes the lease first.
  lemma HandleKeepsExclusive(a: Actor, r: Request, now: nat)
    requires Safe(a) && Exclusive(a)
    ensures Exclusive(Handle(a, r, now).actor)
  {
    match r
    case Unregistering(x) => UnregisterWork(a.core, x, now);
    case Cancelling(x, includeActive) => CancelClientWork(a.core, x, includeActive, now);
    case CancellingJob(x, id) => CancelJobWork(a.core, x, id, now);
    case EmergencyStopping => EmergencyStopWork(a.core);
    case ShuttingDown => EmergencyStopWork(a.core);
    case _ =>
  }

  lemma ReconnectKeepsWork(c: Core)
    requires c.active.None? && c.queue == []
    ensures var o := Restore(Connect(c));
            o.core.active.None? && o.core.queue == [] && o.core.connected
  {
    RestoreIsQuiet(Connect(c));
  }

  lemma TickWork(c: Core, now: nat)
    requires Work(c)
    ensures var w := Watchdog(c, now); var i := ConfirmIdle(w.core, now, SHORT_JOB_SETTLE);
            Work(i.core) && Smaller(c, i.core) && (c.active.None? ==> i.core.active.None?)
  {
    EmergencyStopWork(c);
    CompleteActiveWork(Watchdog(c, now).core, now);
  }

  // ---- Steps ----

  // The station watchdog does not take the lease away from an active keyer job.
  ghost predicate LeaseRespected(a: Actor, e: Event) {
    match e
    case CatKey(id, _, _) => id != KEYER
    case CatUnkey(id) => id != KEYER
    case ExpiryRelease => a.expiring == Some(KEYER) ==> a.core.active.None?
    case _ => true
  }

  lemma SessionLostKeepsSafe(a: Actor, returned: seq<Action>, reply: Reply)
    requires !a.stopped
    ensures Safe(SessionLost(a, returned, reply).actor)
  {
  }

  lemma ServeKeepsSafe(a: Actor, r: Request, now: nat, fails: bool)
    requires Safe(a) && !a.stopped
    ensures Safe(StepServe(a, r, now, fails).actor)
  {
    HandleKeepsSafe(a, r, now);
    if r.ShuttingDown? {
      EmergencyStopWork(a.core);
    } else {
      hide Handle, Work, Sized;
      SessionLostKeepsSafe(Handle(a, r, now).actor, Handle(a, r, now).actions, Handle(a, r, now).reply);
    }
  }

  lemma ReceiveKeepsSafe(a: Actor, b: byte, now: nat, fails: bool)
    requires Safe(a) && a.up
    ensures Safe(StepReceive(a, b, now, fails).actor)
  {
    if a.reopenPending {
      ReconnectKeepsWork(a.core);
    } else if a.maintenance.None? && ClassifyByte(b).Status? {
      ObserveStatusWork(a.core, ClassifyByte(b).status, now);
    }
  }

  lemma StepKeepsSafe(a: Actor, e: Event)
    requires Safe(a) && Enabled(a, e)
    ensures Safe(Step(a, e).actor)
    // Results the reconnect loop ignores are always empty: no cancellation is lost there.
    ensures Step(a, e).dropped == []
  {
    match e
    case Serve(r, now, fails) => ServeKeepsSafe(a, r, now, fails);
    case Receive(b, now, fails, _) => ReceiveKeepsSafe(a, b, now, fails);
    case Tick(now, fails) => TickWork(a.core, now);
    case ReadFault => SessionLostKeepsSafe(a, [], Silent);
    case Reconnect(result, now, _) => ReconnectKeepsWork(a.core);
    case _ =>
  }

  lemma StepKeepsExclusive(a: Actor, e: Event)
    requires Safe(a) && Exclusive(a) && Enabled(a, e) && LeaseRespected(a, e)
    ensures Exclusive(Step(a, e).actor)
  {
    match e
    case Serve(r, now, fails) => HandleKeepsExclusive(a, r, now);
      if r.ShuttingDown? { EmergencyStopWork(a.core); }
    case Receive(b, now, fails, _) =>
      if a.reopenPending {
        ReconnectKeepsWork(a.core);
      } else if a.maintenance.None? && ClassifyByte(b).Status? {
        ObserveStatusWork(a.core, ClassifyByte(b).status, now);
      }
    case Tick(now, fails) => TickWork(a.core, now);
    case Reconnect(result, now, _) => ReconnectKeepsWork(a.core);
    case _ =>
  }
}
