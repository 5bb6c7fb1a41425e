// What clients of the keyer can rely on over every run: when their jobs are reported complete or
// cancelled, that their choices are kept, and that their jobs are what they ordered.

module ActorPromises {
  import opened Common
  import opened WinkeyerProtocol
  import opened BrokerModel
  import opened BrokerLedger
  import opened BrokerDevice
  import opened BrokerKeying
  import opened BrokerEndings
  import opened BrokerOrder
  import opened Ptt
  import opened ActorModel
  import opened ActorSafety
  import opened ActorBooks
  import opened ActorKeying
  import opened ActorHistory
  import opened ActorRuns

  // ---- What is seen is what is known ----

  lemma StepKeepsCeiling(a: Actor, seen: Seen, e: Event)
    requires Knows(a, seen) && Enabled(a, e)
    ensures Step(a, e).actor.core.maxTx == a.core.maxTx
  {
    hide SomeWorking, StatusFromByte, LiveAs, ObserveStatus, Watchdog, ConfirmIdle, Knows, EndsExactly, NoKeying, Restore;
    RestoreOnlyWrites(Connect(a.core));
    match e
    case Serve(r, now, fails) => HandleEnds(a, r, now, fails);
      hide Handle, Appends;
    case Receive(b, now, _, _) =>
      StatusMeans(b);
      if IsStatus(b) {
        ObserveEnds(a, seen, b, now);
      }
    case Tick(now, _) => TickEnds(a, seen, now);
    case _ =>
  }

  ghost predicate Witnessed(w: World, maxTx: nat) {
    Knows(w.actor, w.seen) && w.actor.core.clients == w.seen.roster && w.actor.core.maxTx == maxTx
  }

  lemma {:induction false} WitnessedInvariant(w: World, es: seq<Event>, run: seq<World>, rule: (Actor, Event) -> bool,
      maxTx: nat, k: nat)
    requires IsRun(w, es, run, rule) && k < |run| && Safe(w.actor) && w.dropped == [] && Witnessed(w, maxTx)
    ensures Safe(run[k].actor) && Witnessed(run[k], maxTx)
    decreases k
  {
    hide Safe, Knows;
    SafeInvariant(w, es, run, rule, k);
    if k > 0 {
      WitnessedInvariant(w, es, run, rule, maxTx, k - 1);
      assert Link(run[k - 1], es[k - 1], run[k], rule);
      var a := run[k - 1].actor;
      StepKeepsKnowing(a, run[k - 1].seen, es[k - 1]);
      StepRoster(a, run[k - 1].seen, es[k - 1]);
      StepKeepsCeiling(a, run[k - 1].seen, es[k - 1]);
      hide Step, StepBench, StepLedger, RosterAfter, OrdersAfter, Opens;
    }
  }

  lemma WitnessedRuns(maxTx: nat, lease: Lease, now: nat, found: Keyer, es: seq<Event>, run: seq<World>,
      rule: (Actor, Event) -> bool, k: nat)
    requires IsRun(Start(maxTx, lease, now, found), es, run, rule) && k < |run|
    ensures Safe(run[k].actor) && Witnessed(run[k], maxTx)
  {
    StartIsSafe(maxTx, lease, now);
    WitnessedInvariant(Start(maxTx, lease, now, found), es, run, rule, maxTx, k);
  }

  // ---- Completion ----

  // The event completes the active job.
  ghost predicate Completes(a: Actor, seen: Seen, e: Event) {
    match e
    case Receive(b, _, _, _) => DoneByStatus(a, seen, b)
    case Tick(now, _) => DoneByTick(a, seen, now)
    case _ => false
  }

  lemma LostAddsNoCompletion(c: Core)
    ensures NothingCompleted(PhysicalError(c).actions)
  {
    PhysicalErrorEnds(c);
  }

  lemma ReceiveCompletes(a: Actor, seen: Seen, e: Event, id: JobId, x: ClientId)
    requires Safe(a) && Knows(a, seen) && Enabled(a, e) && e.Receive?
    ensures Completed(id, x) in Step(a, e).actions <==> ActiveAs(a.core, id, x) && Completes(a, seen, e)
  {
    hide StatusFromByte, PhysicalError, ObserveStatus, Sized, Restore, Working, SomeWorking;
    StatusMeans(e.input);
    LostAddsNoCompletion(a.core);
    RestoreOnlyWrites(Connect(a.core));
    LostAddsNoCompletion(Restore(Connect(a.core)).core);
    if !a.reopenPending && a.maintenance.None? && IsStatus(e.input) {
      ObserveEnds(a, seen, e.input, e.now);
      LostAddsNoCompletion(ObserveStatus(a.core, StatusFromByte(e.input), e.now).core);
    }
  }

  lemma StepCompletes(a: Actor, seen: Seen, e: Event, id: JobId, x: ClientId)
    requires Safe(a) && Knows(a, seen) && Enabled(a, e)
    ensures Completed(id, x) in Step(a, e).actions <==> ActiveAs(a.core, id, x) && Completes(a, seen, e)
  {
    match e
    case Receive(_, _, _, _) => ReceiveCompletes(a, seen, e, id, x);
    case Serve(r, now, fails) =>
      HandleEnds(a, r, now, fails);
      LostAddsNoCompletion(Handle(a, r, now).actor.core);
      hide Handle, PhysicalError, Turns, Appends, Safe, Knows;
    case Tick(now, _) =>
      TickEnds(a, seen, now);
      LostAddsNoCompletion(Ticked(a, now).core);
      hide Watchdog, ConfirmIdle, PhysicalError, Turns, Safe, Knows, DoneByTick, Overdue, LiveAs;
    case _ =>
      LostAddsNoCompletion(a.core);
      RestoreOnlyWrites(Connect(a.core));
      hide Restore, PhysicalError, Safe, Knows;
  }

  // Over any run: a job is reported complete exactly when it is the active one and either an idle
  // status byte comes after one that showed it working since it was opened; or, at a tick, some status
  // has come since, the last one was idle, and the settle time has passed but not the transmit
  // ceiling.
  lemma JobsAreCompletedExactlyWhenDone(maxTx: nat, lease: Lease, now: nat, found: Keyer, es: seq<Event>,
      run: seq<World>, k: nat, id: JobId, x: ClientId)
    requires IsRun(Start(maxTx, lease, now, found), es, run, Anything) && k < |es|
    ensures var a := run[k].actor; var seen := run[k].seen; var statuses := seen.statuses;
            Enabled(a, es[k])
            && (Completed(id, x) in Step(a, es[k]).actions <==>
                  ActiveAs(a.core, id, x)
                  && match es[k]
                     case Receive(b, _, _, _) => IsStatus(b) && !Working(b) && exists b' | b' in statuses :: Working(b')
                     case Tick(t, _) =>
                       statuses != [] && !Working(statuses[|statuses| - 1])
                       && 250 <= Elapsed(t, seen.openedAt) < maxTx
                     case _ => false)
  {
    WitnessedRuns(maxTx, lease, now, found, es, run, Anything, k);
    assert Link(run[k], es[k], run[k + 1], Anything);
    StepCompletes(run[k].actor, run[k].seen, es[k], id, x);
    hide IsRun, Step, Safe, Reflects, Working;
  }

  // ---- Cancellation ----

  // The session is lost in this step.
  predicate Loses(a: Actor, e: Event)
    requires Enabled(a, e)
  {
    a.up && !Step(a, e).actor.up && !Step(a, e).actor.stopped
  }

  ghost predicate Cancels(a: Actor, seen: Seen, e: Event, id: JobId, x: ClientId) {
    match e
    case Serve(r, _, _) => Condemns(a.core, r, id, x)
    case Tick(now, _) => Overdue(a, seen, now) && LiveAs(a.core, id, x)
    case _ => false
  }

  lemma ServeCancels(a: Actor, seen: Seen, e: Event, id: JobId, x: ClientId)
    requires Safe(a) && Knows(a, seen) && Enabled(a, e) && e.Serve? && !Loses(a, e)
    ensures Canceled(id, x) in Step(a, e).actions <==> Cancels(a, seen, e, id, x)
  {
    HandleEnds(a, e.request, e.now, e.fails);
    HandleKeepsSafe(a, e.request, e.now);
    hide Handle, PhysicalError, Turns, Appends, Work, Sized, Knows, Condemns;
  }

  lemma StepCancels(a: Actor, seen: Seen, e: Event, id: JobId, x: ClientId)
    requires Safe(a) && Knows(a, seen) && Enabled(a, e) && !Loses(a, e)
    ensures Canceled(id, x) in Step(a, e).actions <==> Cancels(a, seen, e, id, x)
  {
    match e
    case Serve(_, _, _) => ServeCancels(a, seen, e, id, x);
    case Receive(b, now, _, _) =>
      StatusMeans(b);
      RestoreOnlyWrites(Connect(a.core));
      if IsStatus(b) {
        ObserveEnds(a, seen, b, now);
      }
      hide ObserveStatus, Restore, Sized, Work, Working, SomeWorking, StatusFromByte, PhysicalError, Reflects;
    case Tick(now, _) =>
      TickEnds(a, seen, now);
      hide Watchdog, ConfirmIdle, PhysicalError, Turns, Work, Sized, Reflects, DoneByTick, Overdue, LiveAs;
    case _ =>
      RestoreOnlyWrites(Connect(a.core));
      if e.Reconnect? {
        PhysicalErrorEnds(Restore(Connect(a.core)).core);
      }
      hide Restore, PhysicalError, Sized, Reflects;
  }

  // Over any run: while the session holds, a job is reported cancelled exactly when it is live and its
  // client cancels it or leaves, somebody stops everything, the keyer is shut down, or a tick finds
  // that the active job has been transmitting for the ceiling or longer.
  lemma JobsAreCanceledExactlyWhenCalledOff(maxTx: nat, lease: Lease, now: nat, found: Keyer, es: seq<Event>,
      run: seq<World>, k: nat, id: JobId, x: ClientId)
    requires IsRun(Start(maxTx, lease, now, found), es, run, Anything) && k < |es|
    requires Enabled(run[k].actor, es[k]) && !Loses(run[k].actor, es[k])
    ensures var a := run[k].actor; var seen := run[k].seen;
            Canceled(id, x) in Step(a, es[k]).actions <==>
              match es[k]
              case Serve(Unregistering(y), _, _) => x == y && LiveAs(a.core, id, x)
              case Serve(Cancelling(y, includeActive), _, _) =>
                x == y && (QueuedAs(a.core, id, x) || (includeActive && ActiveAs(a.core, id, x)))
              case Serve(CancellingJob(y, job), _, _) => x == y && id == job && LiveAs(a.core, id, x)
              case Serve(EmergencyStopping, _, _) => LiveAs(a.core, id, x)
              case Serve(ShuttingDown, _, _) => LiveAs(a.core, id, x)
              case Tick(t, _) => a.core.active.Some? && Elapsed(t, seen.openedAt) >= maxTx && LiveAs(a.core, id, x)
              case _ => false
  {
    WitnessedRuns(maxTx, lease, now, found, es, run, Anything, k);
    StepCancels(run[k].actor, run[k].seen, es[k], id, x);
    hide IsRun, Step, Safe, Reflects, LiveAs, QueuedAs, ActiveAs;
  }

  lemma StepClears(a: Actor, seen: Seen, e: Event, id: JobId, x: ClientId)
    requires Safe(a) && Knows(a, seen) && Enabled(a, e) && !Loses(a, e)
    requires ActiveAs(a.core, id, x) && !QueuedAs(a.core, id, x) && Canceled(id, x) in Step(a, e).actions
    ensures Cleared(Step(a, e).actions)
  {
    StepCancels(a, seen, e, id, x);
    if e.Serve? {
      HandleClears(a, e.request, e.now, id, x);
      HandleKeepsSafe(a, e.request, e.now);
    } else {
      TickClears(a, seen, e.now);
    }
    hide Handle, Watchdog, ConfirmIdle, PhysicalError, Cleared, Work, Sized, Condemns, Reflects, Overdue, QueuedAs;
  }

  // Over any run below the identifier ceiling: while the session holds, the step that cancels the
  // active job clears the device buffer before it writes anything else.
  lemma CanceledJobsAreCleared(maxTx: nat, lease: Lease, now: nat, found: Keyer, es: seq<Event>,
      run: seq<World>, k: nat, id: JobId, x: ClientId)
    requires IsRun(Start(maxTx, lease, now, found), es, run, FreshIds) && k < |es|
    requires Enabled(run[k].actor, es[k]) && !Loses(run[k].actor, es[k])
    requires ActiveAs(run[k].actor.core, id, x) && Canceled(id, x) in Step(run[k].actor, es[k]).actions
    ensures Cleared(Step(run[k].actor, es[k]).actions)
  {
    WitnessedRuns(maxTx, lease, now, found, es, run, FreshIds, k);
    assert !QueuedAs(run[k].actor.core, id, x) by {
      hide *;
      OrderAndBytes(maxTx, lease, now, found, es, run, k);
      ActiveIsNotQueued(run[k].actor.core, id, x);
    }
    StepClears(run[k].actor, run[k].seen, es[k], id, x);
    hide IsRun, Step, Safe, Reflects, LiveAs, QueuedAs, ActiveAs, Cleared;
  }

  lemma ActiveIsNotQueued(c: Core, id: JobId, x: ClientId)
    requires IdsIncrease(Live(c)) && ActiveAs(c, id, x)
    ensures !QueuedAs(c, id, x)
  {
    forall j | j in c.queue ensures j.id != id {
      var i :| 0 <= i < |c.queue| && c.queue[i] == j;
      assert Live(c)[0].id == id && Live(c)[i + 1] == j;
    }
  }

  // ---- Losing the session ----

  lemma LossFreesTheKeyer(a: Actor, e: Event)
    requires Safe(a) && Enabled(a, e) && Loses(a, e)
    ensures var t := Step(a, e).actor;
            t.core.active.None? && t.core.queue == [] && t.maintenance.None? && !t.reopenPending
            && t.lease.owner != Some(KEYER)
  {
    if e.Serve? {
      HandleKeepsSafe(a, e.request, e.now);
    }
    hide Handle, ObserveStatus, Restore, Watchdog, ConfirmIdle, Work, Sized;
  }

  // Every job that was live has been completed by this step or is cancelled by it, and none is left.
  lemma LosingTheSessionEndsEverything(a: Actor, e: Event, id: JobId, x: ClientId)
    requires Safe(a) && Enabled(a, e) && Loses(a, e)
    ensures var s := Step(a, e);
            s.actor.core.active.None? && s.actor.core.queue == [] && s.actor.maintenance.None? && !s.actor.reopenPending
            && s.actor.lease.owner != Some(KEYER)
            && (LiveAs(a.core, id, x) ==> Canceled(id, x) in s.actions || Completed(id, x) in s.actions)
  {
    LossFreesTheKeyer(a, e);
    hide LiveAs, Step, Safe;
    if LiveAs(a.core, id, x) {
      LiveEndsOrStays(a, e, id, x);
    }
  }

  // The state and the actions just before the session is lost.
  function BeforeLoss(a: Actor, e: Event): Outcome
    requires Enabled(a, e)
  {
    match e
    case Serve(r, now, _) => Outcome(Handle(a, r, now).actor.core, Handle(a, r, now).actions)
    case Receive(b, now, _, _) =>
      if a.reopenPending then
        (if b == 0xff then Outcome(a.core, [])
         else Outcome(Restore(Connect(a.core)).core, [Write(HOST_INIT, HostControl)] + Restore(Connect(a.core)).actions))
      else if ClassifyByte(b).Status? then ObserveStatus(a.core, ClassifyByte(b).status, now) else Outcome(a.core, [])
    case Tick(now, _) => Ticked(a, now)
    case _ => Outcome(a.core, [])
  }

  lemma LossIsLast(a: Actor, e: Event)
    requires Safe(a) && Enabled(a, e) && Loses(a, e)
    ensures Step(a, e).actions == BeforeLoss(a, e).actions + PhysicalError(BeforeLoss(a, e).core).actions
  {
    if e.Serve? {
      HandleKeepsSafe(a, e.request, e.now);
    }
    hide Handle, ObserveStatus, Restore, Watchdog, ConfirmIdle, PhysicalError, Work, Sized;
    if e.ReadFault? {
      assert [] + PhysicalError(a.core).actions == PhysicalError(a.core).actions;
    }
  }

  // A live job is announced as ended, or still live.
  ghost predicate Accounts(c: Core, o: Outcome) {
    forall id, x | LiveAs(c, id, x) ::
      LiveAs(o.core, id, x) || Canceled(id, x) in o.actions || Completed(id, x) in o.actions
  }

  lemma LiveEndsOrStays(a: Actor, e: Event, id: JobId, x: ClientId)
    requires Safe(a) && Enabled(a, e) && Loses(a, e) && LiveAs(a.core, id, x)
    ensures Canceled(id, x) in Step(a, e).actions || Completed(id, x) in Step(a, e).actions
  {
    var o := BeforeLoss(a, e);
    LossIsLast(a, e);
    PhysicalErrorEnds(o.core);
    OutcomesAccount(a, e);
    hide BeforeLoss, Step, PhysicalError, LiveAs;
  }

  lemma OutcomesAccount(a: Actor, e: Event)
    requires Safe(a) && Enabled(a, e)
    ensures Accounts(a.core, BeforeLoss(a, e))
  {
    hide Accounts, Safe, Ticked, Handle, ObserveStatus, Restore;
    match e
    case Serve(r, now, _) => HandleAccounts(a, r, now);
    case Receive(b, now, _, _) =>
      SameAccounts(a.core, a.core, []);
      RestoreOnlyWrites(Connect(a.core));
      SameAccounts(a.core, Restore(Connect(a.core)).core, [Write(HOST_INIT, HostControl)] + Restore(Connect(a.core)).actions);
      if ClassifyByte(b).Status? {
        ObserveAccounts(a.core, ClassifyByte(b).status, now);
      }
    case Tick(now, _) => TickAccounts(a, now);
    case _ => SameAccounts(a.core, a.core, []);
  }

  lemma SameAccounts(c: Core, c': Core, acts: seq<Action>)
    ensures c'.active == c.active && c'.queue == c.queue ==> Accounts(c, Outcome(c', acts))
  {
  }

  lemma StartAccounts(c: Core, now: nat)
    requires c.active.None?
    ensures forall id, x | QueuedAs(c, id, x) :: LiveAs(StartOrRestore(c, now).core, id, x)
  {
    StartTurns(c, now);
    hide StartOrRestore;
    if c.queue != [] {
      assert c.queue == [c.queue[0]] + c.queue[1..];
    }
  }

  lemma KeptAccounts(c: Core, p: Pick, id: JobId, x: ClientId)
    requires QueuedAs(c, id, x) && !(x == p.client && (p.One? ==> id == p.job))
    ensures QueuedAs(c.(queue := Kept(c.queue, p)), id, x)
  {
    DroppedAre(c.queue, p);
    var j :| j in c.queue && j.id == id && j.client == x;
    assert j in Kept(c.queue, p);
  }

  lemma CompleteAccounts(c: Core, now: nat)
    requires c.active.Some?
    ensures Accounts(c, CompleteActive(c, now))
  {
    var c1 := c.(active := None);
    CompleteActiveEnds(c, now);
    StartAccounts(c1, now);
    assert forall id, x :: QueuedAs(c1, id, x) <==> QueuedAs(c, id, x);
    hide StartOrRestore, QueuedAs, Turns;
  }

  lemma ObserveAccounts(c: Core, s: DeviceStatus, now: nat)
    ensures Accounts(c, ObserveStatus(c, s, now))
  {
    var c1 := c.(status := s);
    if c.active.Some? && !(s.busy || s.waiting || s.keyDown) && c.active.value.sawBusy {
      var c2 := c1.(active := Some(c.active.value.(observedStatus := true)));
      CompleteAccounts(c2, now);
      assert forall id, x :: LiveAs(c, id, x) <==> LiveAs(c2, id, x);
      hide CompleteActive, LiveAs;
    }
  }

  lemma TickAccounts(a: Actor, now: nat)
    ensures Accounts(a.core, Ticked(a, now))
  {
    var w := Watchdog(a.core, now);
    EmergencyStopEnds(a.core);
    if w != Outcome(a.core, []) {
      assert ConfirmIdle(w.core, now, SHORT_JOB_SETTLE) == Outcome(w.core, []);
      hide EmergencyStop, LiveAs;
    } else if a.core.active.Some? {
      CompleteAccounts(a.core, now);
      hide CompleteActive, LiveAs;
    }
  }

  lemma AbortAccounts(c: Core, now: nat)
    requires c.active.Some?
    ensures Accounts(c, AbortActive(c, now))
  {
    var c1 := c.(active := None);
    AbortTurns(c, now);
    StartAccounts(c1, now);
    assert forall id, x :: QueuedAs(c1, id, x) <==> QueuedAs(c, id, x);
    hide StartOrRestore, QueuedAs, Turns;
  }

  lemma UnregisterAccounts(c: Core, x: ClientId, now: nat)
    ensures Accounts(c, Unregister(c, x, now))
  {
    UnregisterEnds(c, x, now);
    var d := DropQueued(Forget(c, x), AllOf(x));
    forall id, y | LiveAs(c, id, y) && y != x ensures LiveAs(Unregister(c, x, now).core, id, y) {
      if QueuedAs(c, id, y) {
        KeptAccounts(c, AllOf(x), id, y);
        assert QueuedAs(d.core, id, y);
        if ActiveClient(d.core) == Some(x) {
          StartAccounts(d.core.(active := None), now);
          assert QueuedAs(d.core.(active := None), id, y);
        }
      }
    }
  }

  lemma CancelAccounts(c: Core, x: ClientId, includeActive: bool, now: nat)
    ensures Accounts(c, CancelClient(c, x, includeActive, now))
  {
    CancelClientEnds(c, x, includeActive, now);
    var d := DropQueued(c, AllOf(x));
    forall id, y | LiveAs(c, id, y) && !(y == x && (QueuedAs(c, id, y) || (includeActive && ActiveAs(c, id, y))))
      ensures LiveAs(CancelClient(c, x, includeActive, now).core, id, y)
    {
      if QueuedAs(c, id, y) {
        KeptAccounts(c, AllOf(x), id, y);
        assert QueuedAs(d.core, id, y);
        if includeActive && ActiveClient(c) == Some(x) {
          StartAccounts(d.core.(active := None), now);
          assert QueuedAs(d.core.(active := None), id, y);
        }
      }
    }
  }

  lemma CancelJobAccounts(c: Core, x: ClientId, job: JobId, now: nat)
    ensures Accounts(c, Outcome(CancelJob(c, x, job, now).core, CancelJob(c, x, job, now).actions))
  {
    CancelJobEnds(c, x, job, now);
    if ActiveAs(c, job, x) {
      AbortAccounts(c, now);
      hide AbortActive, LiveAs;
    } else {
      forall id, y | LiveAs(c, id, y) && !(y == x && id == job) ensures LiveAs(CancelJob(c, x, job, now).core, id, y) {
        if QueuedAs(c, id, y) {
          KeptAccounts(c, One(x, job), id, y);
        }
      }
    }
  }

  lemma EnqueueAccounts(c: Core, x: ClientId, payload: bytes, speed: Option<SpeedMode>, stream: bool, now: nat)
    requires Enqueue(c, x, payload, speed, stream, now).Some?
    ensures var o := Enqueue(c, x, payload, speed, stream, now).value; Accounts(c, Outcome(o.core, o.actions))
  {
    var o := Enqueue(c, x, payload, speed, stream, now).value;
    if AppendsToActive(c, x, stream) {
    } else if AppendsToLast(c, x, stream) {
      var last := |c.queue| - 1;
      forall id, y | QueuedAs(c, id, y) ensures QueuedAs(o.core, id, y) {
        var j :| j in c.queue && j.id == id && j.client == y;
        var i :| 0 <= i < |c.queue| && c.queue[i] == j;
        assert o.core.queue[i] in o.core.queue && o.core.queue[i].id == id && o.core.queue[i].client == y;
      }
    } else {
      var j := Job(c.nextId, x, payload, if speed.Some? then speed.value else c.clients[x].desired, stream);
      var queued := c.(nextId := SaturatingNext(c.nextId), queue := c.queue + [j]);
      assert forall id, y | QueuedAs(c, id, y) :: QueuedAs(queued, id, y);
      if c.active.None? {
        StartAccounts(queued, now);
      }
      hide StartOrRestore;
    }
  }

  lemma MoreAccounts(c: Core, lead: seq<Action>, o: Outcome)
    requires Accounts(c, o)
    ensures Accounts(c, Outcome(o.core, lead + o.actions))
  {
    assert forall b | b in o.actions :: b in lead + o.actions;
    hide LiveAs;
  }

  lemma StopAccounts(c: Core)
    ensures Accounts(c, EmergencyStop(c))
  {
    EmergencyStopEnds(c);
    hide EmergencyStop, LiveAs;
  }

  lemma SubmissionAccounts(a: Actor, r: Request, now: nat)
    requires r.Enqueueing?
    ensures Accounts(a.core, Outcome(HandleEnqueue(a, r, now).actor.core, HandleEnqueue(a, r, now).actions))
  {
    SameAccounts(a.core, a.core, []);
    hide Accounts, Enqueue;
    if Enqueue(a.core, r.client, r.payload, r.jobSpeed, r.stream, now).Some? {
      EnqueueAccounts(a.core, r.client, r.payload, r.jobSpeed, r.stream, now);
    }
  }

  lemma HandleAccounts(a: Actor, r: Request, now: nat)
    ensures Accounts(a.core, Outcome(Handle(a, r, now).actor.core, Handle(a, r, now).actions))
  {
    var c := a.core;
    hide Unregister, CancelClient, CancelJob, EmergencyStop, HandleEnqueue, Accounts;
    match r
    case Unregistering(x) =>
      UnregisterAccounts(c, x, now);
      MoreAccounts(c, [Write(HOST_OPEN, HostControl)], Unregister(c, x, now));
    case Enqueueing(_, _, _, _) => SubmissionAccounts(a, r, now);
    case Cancelling(x, includeActive) => CancelAccounts(c, x, includeActive, now);
    case CancellingJob(x, id) => CancelJobAccounts(c, x, id, now);
    case EmergencyStopping => StopAccounts(c);
    case ShuttingDown => StopAccounts(c);
    case _ => SameAccounts(c, Handle(a, r, now).actor.core, Handle(a, r, now).actions);
  }

  // ---- Choices and orders ----

  // Over any run: the broker's clients are exactly those registered and not gone, each with the role
  // it registered for, the speed it chose last, and the last command it stored for each register.
  lemma ClientsAreWhatTheyChose(maxTx: nat, lease: Lease, now: nat, found: Keyer, es: seq<Event>,
      run: seq<World>, k: nat)
    requires IsRun(Start(maxTx, lease, now, found), es, run, Anything) && k < |run|
    ensures run[k].actor.core.clients == run[k].seen.roster
  {
    WitnessedRuns(maxTx, lease, now, found, es, run, Anything, k);
  }

  lemma {:induction false} OrdersInvariant(w: World, es: seq<Event>, run: seq<World>, maxTx: nat, k: nat)
    requires IsRun(w, es, run, FreshIds) && k < |run| && Safe(w.actor) && w.dropped == [] && Witnessed(w, maxTx)
    requires AsOrdered(w.actor.core, w.seen.orders)
    ensures AsOrdered(run[k].actor.core, run[k].seen.orders)
    decreases k
  {
    hide Safe, Knows, AsOrdered;
    if k > 0 {
      OrdersInvariant(w, es, run, maxTx, k - 1);
      WitnessedInvariant(w, es, run, FreshIds, maxTx, k - 1);
      assert Link(run[k - 1], es[k - 1], run[k], FreshIds);
      StepOrders(run[k - 1].actor, run[k - 1].seen, es[k - 1]);
      hide Step, StepBench, StepLedger, RosterAfter, OrdersAfter, Opens;
    }
  }

  // Over any run below the identifier ceiling: every live job is its submitter's, at the speed the
  // submission asked for or else the submitter's speed at that moment, and a stream exactly if it was
  // submitted as one.
  lemma JobsAreWhatWasOrdered(maxTx: nat, lease: Lease, now: nat, found: Keyer, es: seq<Event>,
      run: seq<World>, k: nat, j: Job)
    requires IsRun(Start(maxTx, lease, now, found), es, run, FreshIds) && k < |run| && j in Live(run[k].actor.core)
    ensures j.id in run[k].seen.orders && run[k].seen.orders[j.id] == Order(j.client, j.speed, j.stream)
  {
    StartIsSafe(maxTx, lease, now);
    var w := Start(maxTx, lease, now, found);
    assert Live(w.actor.core) == [];
    OrdersInvariant(w, es, run, maxTx, k);
  }
}
