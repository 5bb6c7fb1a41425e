// In which order the broker writes: an opened job is polled at once, and the device buffer is cleared
// before an active job is given up.

module BrokerOrder {
  import opened Common
  import opened WinkeyerProtocol
  import opened BrokerModel
  import opened BrokerLedger
  import opened BrokerKeying
  import opened BrokerEndings
  import opened ActorModel
  import opened ActorKeying
  import opened ActorHistory

  const POLL := Write([0x15], StatusPoll)

  // Every keying write is followed at once by a status poll.
  ghost predicate PolledAtOnce(acts: seq<Action>) {
    forall i {:trigger IsKeying(acts[i])} | 0 <= i < |acts| && IsKeying(acts[i]) :: i + 1 < |acts| && acts[i + 1] == POLL
  }

  // The first write clears the device buffer.
  ghost predicate Cleared(acts: seq<Action>) {
    exists i :: 0 <= i < |acts| && acts[i].Write? && acts[i].data != [] && acts[i].data[0] == 0x0a
                && forall j | 0 <= j < i :: !acts[j].Write?
  }

  lemma PolledAppend(a: seq<Action>, b: seq<Action>)
    requires PolledAtOnce(a) && PolledAtOnce(b)
    ensures PolledAtOnce(a + b)
  {
    forall i {:trigger IsKeying((a + b)[i])} | 0 <= i < |a + b| && IsKeying((a + b)[i])
      ensures i + 1 < |a + b| && (a + b)[i + 1] == POLL
    {
      if i < |a| {
        assert IsKeying(a[i]);
      } else {
        assert IsKeying(b[i - |a|]);
      }
    }
  }

  lemma QuietIsPolled(acts: seq<Action>)
    requires NoKeying(acts)
    ensures PolledAtOnce(acts)
  {
  }

  lemma StartIsPolled(c: Core, now: nat)
    requires c.active.None?
    ensures PolledAtOnce(StartOrRestore(c, now).actions)
  {
    if c.queue == [] {
      RestoreOnlyWrites(c);
    } else {
      var j := c.queue[0];
      SetupOnlyWrites(c, j);
      hide Setup;
      QuietIsPolled(Setup(c, j));
      var open := [Write(j.payload, Keying(j.id, j.client)), POLL];
      assert PolledAtOnce(open);
      PolledAppend(Setup(c, j), open);
    }
    hide Restore;
  }

  lemma AbortIsOrderly(c: Core, now: nat)
    requires c.active.Some?
    ensures PolledAtOnce(AbortActive(c, now).actions) && Cleared(AbortActive(c, now).actions)
  {
    var j := c.active.value.job;
    var lead := [Write([0x0a], ClearBuffer(j.client)), Canceled(j.id, j.client)];
    StartIsPolled(c.(active := None), now);
    PolledAppend(lead, StartOrRestore(c.(active := None), now).actions);
    hide StartOrRestore;
    assert AbortActive(c, now).actions[0] == lead[0];
  }

  lemma ClearedBehind(lead: seq<Action>, acts: seq<Action>)
    requires Cleared(acts) && forall a | a in lead :: !a.Write?
    ensures Cleared(lead + acts)
  {
    var i :| 0 <= i < |acts| && acts[i].Write? && acts[i].data != [] && acts[i].data[0] == 0x0a
             && forall j | 0 <= j < i :: !acts[j].Write?;
    assert (lead + acts)[|lead| + i] == acts[i];
    forall j | 0 <= j < |lead| + i ensures !(lead + acts)[j].Write? {
      if j < |lead| {
        assert lead[j] in lead;
      } else {
        assert (lead + acts)[j] == acts[j - |lead|];
      }
    }
  }

  lemma {:induction false} CancellationsDoNotWrite(q: seq<Job>)
    ensures forall a | a in Cancellations(q) :: a.Canceled?
    decreases |q|
  {
    if q != [] {
      CancellationsDoNotWrite(q[1..]);
    }
  }

  lemma UnregisterIsOrderly(c: Core, x: ClientId, now: nat)
    ensures var acts := Unregister(c, x, now).actions;
            PolledAtOnce(acts) && (ActiveClient(c) == Some(x) ==> Cleared(acts))
  {
    var d := DropQueued(Forget(c, x), AllOf(x));
    CancellationsDoNotWrite(Dropped(Forget(c, x).queue, AllOf(x)));
    hide Cancellations, Dropped, Kept;
    QuietIsPolled(d.actions);
    if ActiveClient(c) == Some(x) {
      AbortIsOrderly(d.core, now);
      hide AbortActive;
      PolledAppend(d.actions, AbortActive(d.core, now).actions);
      ClearedBehind(d.actions, AbortActive(d.core, now).actions);
    }
  }

  lemma CancelIsOrderly(c: Core, x: ClientId, includeActive: bool, now: nat)
    ensures var acts := CancelClient(c, x, includeActive, now).actions;
            PolledAtOnce(acts) && (includeActive && ActiveClient(c) == Some(x) ==> Cleared(acts))
  {
    var d := DropQueued(c, AllOf(x));
    CancellationsDoNotWrite(Dropped(c.queue, AllOf(x)));
    hide Cancellations, Dropped, Kept;
    var acts := CancelClient(c, x, includeActive, now).actions;
    if includeActive && ActiveClient(c) == Some(x) {
      var lead := [Write([0x0a], ClearBuffer(x))] + d.actions + ActiveCancellation(c);
      QuietIsPolled(lead);
      StartIsPolled(d.core.(active := None), now);
      hide StartOrRestore;
      PolledAppend(lead, StartOrRestore(d.core.(active := None), now).actions);
      assert acts[0] == Write([0x0a], ClearBuffer(x));
    } else {
      QuietIsPolled(acts);
    }
  }

  lemma CancelJobIsOrderly(c: Core, x: ClientId, id: JobId, now: nat)
    ensures var acts := CancelJob(c, x, id, now).actions;
            PolledAtOnce(acts) && (ActiveAs(c, id, x) ==> Cleared(acts))
  {
    CancellationsDoNotWrite(Dropped(c.queue, One(x, id)));
    hide Cancellations, Dropped, Kept;
    if ActiveAs(c, id, x) {
      AbortIsOrderly(c, now);
      hide AbortActive;
    } else {
      QuietIsPolled(CancelJob(c, x, id, now).actions);
    }
  }

  lemma StopIsOrderly(c: Core)
    ensures PolledAtOnce(EmergencyStop(c).actions) && Cleared(EmergencyStop(c).actions)
  {
    EmergencyStopEnds(c);
    QuietIsPolled(EmergencyStop(c).actions);
    assert EmergencyStop(c).actions[0] == Write([0x0a, 0x0b, 0x00], EmergencyOff);
    hide Restore;
  }

  lemma EnqueueIsPolled(c: Core, x: ClientId, payload: bytes, speed: Option<SpeedMode>, stream: bool, now: nat)
    requires Enqueue(c, x, payload, speed, stream, now).Some? && !AppendsToActive(c, x, stream)
    ensures PolledAtOnce(Enqueue(c, x, payload, speed, stream, now).value.actions)
  {
    if !AppendsToLast(c, x, stream) && c.active.None? {
      var j := Job(c.nextId, x, payload, if speed.Some? then speed.value else c.clients[x].desired, stream);
      StartIsPolled(c.(nextId := SaturatingNext(c.nextId), queue := c.queue + [j]), now);
    }
    hide StartOrRestore;
  }

  lemma CompleteIsPolled(c: Core, now: nat)
    ensures PolledAtOnce(CompleteActive(c, now).actions)
  {
    if c.active.Some? {
      var j := c.active.value.job;
      StartIsPolled(c.(active := None), now);
      hide StartOrRestore;
      PolledAppend([Completed(j.id, j.client)], StartOrRestore(c.(active := None), now).actions);
    }
  }

  // ---- Steps ----

  lemma HandleIsPolled(a: Actor, r: Request, now: nat, fails: bool)
    requires !a.stopped && !Appends(a, Serve(r, now, fails))
    ensures PolledAtOnce(Handle(a, r, now).actions)
  {
    hide Unregister, CancelClient, CancelJob, EmergencyStop, Enqueue, PolledAtOnce;
    QuietIsPolled([]);
    match r
    case Unregistering(x) =>
      UnregisterIsOrderly(a.core, x, now);
      QuietIsPolled([Write(HOST_OPEN, HostControl)]);
      PolledAppend([Write(HOST_OPEN, HostControl)], Unregister(a.core, x, now).actions);
    case Enqueueing(x, payload, speed, stream) =>
      if Enqueue(a.core, x, payload, speed, stream, now).Some? && !AppendsToActive(a.core, x, stream) {
        EnqueueIsPolled(a.core, x, payload, speed, stream, now);
      }
    case Cancelling(x, includeActive) => CancelIsOrderly(a.core, x, includeActive, now);
    case CancellingJob(x, id) => CancelJobIsOrderly(a.core, x, id, now);
    case EmergencyStopping => StopIsOrderly(a.core);
    case ShuttingDown => StopIsOrderly(a.core);
    case _ => QuietIsPolled(Handle(a, r, now).actions);
  }

  lemma ObserveIsPolled(c: Core, s: DeviceStatus, now: nat)
    ensures PolledAtOnce(ObserveStatus(c, s, now).actions)
  {
    QuietIsPolled([]);
    if c.active.Some? {
      CompleteIsPolled(c.(status := s, active := Some(c.active.value.(observedStatus := true))), now);
    }
    hide CompleteActive, PolledAtOnce;
  }

  lemma TickIsPolled(a: Actor, now: nat)
    ensures PolledAtOnce(Ticked(a, now).actions)
  {
    var w := Watchdog(a.core, now);
    var i := ConfirmIdle(w.core, now, SHORT_JOB_SETTLE);
    QuietIsPolled([]);
    QuietIsPolled([POLL]);
    StopIsOrderly(a.core);
    CompleteIsPolled(w.core, now);
    hide EmergencyStop, CompleteActive, PolledAtOnce;
    PolledAppend(w.actions, i.actions);
    PolledAppend(w.actions + i.actions, []);
    PolledAppend(w.actions + i.actions, [POLL]);
  }

  lemma LossIsPolled(c: Core, acts: seq<Action>)
    requires PolledAtOnce(acts)
    ensures PolledAtOnce(acts + PhysicalError(c).actions)
  {
    PhysicalErrorEnds(c);
    QuietIsPolled(PhysicalError(c).actions);
    hide PhysicalError, PolledAtOnce;
    PolledAppend(acts, PhysicalError(c).actions);
  }

  // A step that does not extend the active job polls the device at once behind everything it keys.
  lemma JobsArePolledWhenOpened(a: Actor, e: Event)
    requires Enabled(a, e) && !Appends(a, e)
    ensures PolledAtOnce(Step(a, e).actions)
  {
    RestoreOnlyWrites(Connect(a.core));
    var restored := Restore(Connect(a.core)).actions;
    QuietIsPolled([]);
    QuietIsPolled([Write(HOST_INIT, HostControl)] + restored);
    QuietIsPolled(restored);
    hide Handle, ObserveStatus, Watchdog, ConfirmIdle, PhysicalError, Restore, PolledAtOnce, NoKeying, Appends;
    match e
    case Serve(r, now, fails) =>
      HandleIsPolled(a, r, now, fails);
      LossIsPolled(Handle(a, r, now).actor.core, Handle(a, r, now).actions);
    case Receive(b, now, _, _) =>
      LossIsPolled(a.core, []);
      LossIsPolled(Restore(Connect(a.core)).core, [Write(HOST_INIT, HostControl)] + restored);
      if ClassifyByte(b).Status? {
        ObserveIsPolled(a.core, ClassifyByte(b).status, now);
        LossIsPolled(ObserveStatus(a.core, ClassifyByte(b).status, now).core, ObserveStatus(a.core, ClassifyByte(b).status, now).actions);
      }
    case Tick(now, _) =>
      TickIsPolled(a, now);
      LossIsPolled(Ticked(a, now).core, Ticked(a, now).actions);
    case ReadFault => LossIsPolled(a.core, []);
    case _ =>
  }

  // A request that ends the active job clears the device buffer before it writes anything else.
  lemma HandleClears(a: Actor, r: Request, now: nat, id: JobId, x: ClientId)
    requires ActiveAs(a.core, id, x) && Condemns(a.core, r, id, x) && a.maintenance.None?
    requires r.Cancelling? ==> r.includeActive
    ensures Cleared(Handle(a, r, now).actions)
  {
    hide Unregister, CancelClient, CancelJob, EmergencyStop, Enqueue, Cleared, QueuedAs;
    match r
    case Unregistering(_) => UnregisterIsOrderly(a.core, x, now);
    case Cancelling(_, includeActive) => CancelIsOrderly(a.core, x, includeActive, now);
    case CancellingJob(_, _) => CancelJobIsOrderly(a.core, x, id, now);
    case EmergencyStopping => StopIsOrderly(a.core);
    case ShuttingDown => StopIsOrderly(a.core);
  }

  // So does the tick that finds the active job overdue.
  lemma TickClears(a: Actor, seen: Seen, now: nat)
    requires Knows(a, seen) && Overdue(a, seen, now)
    ensures Cleared(Ticked(a, now).actions)
  {
    StopIsOrderly(a.core);
    EmergencyStopEnds(a.core);
    assert Watchdog(a.core, now) == EmergencyStop(a.core);
    assert ConfirmIdle(EmergencyStop(a.core).core, now, SHORT_JOB_SETTLE) == Outcome(EmergencyStop(a.core).core, []);
    hide EmergencyStop, Cleared, SomeWorking;
    assert EmergencyStop(a.core).actions + [] == EmergencyStop(a.core).actions;
    ClearedAhead(EmergencyStop(a.core).actions, []);
    ClearedAhead(EmergencyStop(a.core).actions, [POLL]);
  }

  lemma ClearedAhead(acts: seq<Action>, more: seq<Action>)
    requires Cleared(acts)
    ensures Cleared(acts + more)
  {
    var i :| 0 <= i < |acts| && acts[i].Write? && acts[i].data != [] && acts[i].data[0] == 0x0a
             && forall j | 0 <= j < i :: !acts[j].Write?;
    assert (acts + more)[i] == acts[i];
    assert forall j | 0 <= j < i :: (acts + more)[j] == acts[j];
  }
}
