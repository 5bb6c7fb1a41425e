// What an observer of the keyer remembers: the status bytes since the latest job was opened, when
// that was, what the clients have chosen, and what was ordered under each identifier. It is kept
// from the events, the replies and the returned actions.

module ActorHistory {
  import opened Common
  import opened WinkeyerProtocol
  import opened BrokerModel
  import opened BrokerLedger
  import opened BrokerKeying
  import opened BrokerEndings
  import opened Ptt
  import opened ActorModel
  import opened ActorSafety
  import opened ActorKeying

  datatype Order = Order(client: ClientId, speed: SpeedMode, stream: bool)

  datatype Seen = Seen(statuses: seq<byte>, openedAt: nat, roster: map<ClientId, Client>, orders: map<JobId, Order>)

  const UNSEEN := Seen([], 0, map[], map[])

  // Bits 2, 3 and 4 of a status byte: sending, key down, waiting.
  predicate Working(b: byte) {
    b / 4 % 2 == 1 || b / 8 % 2 == 1 || b / 16 % 2 == 1
  }

  // The two top bits mark a status byte.
  predicate IsStatus(b: byte) {
    b / 64 == 3
  }

  // The step opens a job: it keys, and not as an extension of the active job.
  ghost predicate Opens(a: Actor, e: Event)
    requires Enabled(a, e)
  {
    !NoKeying(Step(a, e).actions) && !Appends(a, e)
  }

  function TimeOf(e: Event): nat {
    match e
    case Serve(_, now, _) => now
    case Receive(_, now, _, _) => now
    case Tick(now, _) => now
    case _ => 0
  }

  function SpeedWanted(roster: map<ClientId, Client>, r: Request): SpeedMode
    requires r.Enqueueing?
  {
    if r.jobSpeed.Some? then r.jobSpeed.value else if r.client in roster then roster[r.client].desired else Pot
  }

  // What a request with this reply makes of the clients.
  function RosterAfter(roster: map<ClientId, Client>, r: Request, reply: Reply): map<ClientId, Client> {
    match r
    case Registering(x, primary) => if reply == Done then roster[x := Client(Pot, primary, map[])] else roster
    case Unregistering(x) => roster - {x}
    case Speeding(x, speed) =>
      if x in roster && reply != Refused(MaintenanceBusy) then roster[x := roster[x].(desired := speed)] else roster
    case Configuring(x, command) =>
      if x in roster && reply == Done && RegisterOf(command).Some? then
        roster[x := roster[x].(profile := roster[x].profile[RegisterOf(command).value := command])]
      else roster
    case _ => roster
  }

  function OrdersAfter(seen: Seen, r: Request, reply: Reply): map<JobId, Order> {
    if r.Enqueueing? && reply.Submitted? && reply.job !in seen.orders then
      seen.orders[reply.job := Order(r.client, SpeedWanted(seen.roster, r), r.stream)]
    else seen.orders
  }

  ghost function Watch(seen: Seen, a: Actor, e: Event): Seen
    requires Enabled(a, e)
  {
    var heard := if e.Receive? && IsStatus(e.input) then seen.statuses + [e.input] else seen.statuses;
    Seen(if Opens(a, e) then [] else heard, if Opens(a, e) then TimeOf(e) else seen.openedAt,
         if e.Serve? then RosterAfter(seen.roster, e.request, Step(a, e).reply) else seen.roster,
         if e.Serve? then OrdersAfter(seen, e.request, Step(a, e).reply) else seen.orders)
  }

  // ---- What the broker knows of the active job is what has been seen ----

  ghost predicate SomeWorking(statuses: seq<byte>) {
    exists b | b in statuses :: Working(b)
  }

  ghost predicate Reflects(c: Core, statuses: seq<byte>, openedAt: nat) {
    c.active.Some? ==>
      var v := c.active.value;
      && v.startedAt == openedAt
      && (v.observedStatus <==> statuses != [])
      && (v.sawBusy <==> SomeWorking(statuses))
      && (statuses != [] ==> c.status == StatusFromByte(statuses[|statuses| - 1]))
  }

  ghost predicate Knows(a: Actor, seen: Seen) {
    Reflects(a.core, seen.statuses, seen.openedAt)
  }

  // An operation that opens a job starts afresh; any other leaves what is known.
  lemma TurnsReflect(c: Core, c': Core, acts: seq<Action>, now: nat, statuses: seq<byte>, openedAt: nat)
    requires Reflects(c, statuses, openedAt) && Turns(c, c', acts, now)
    ensures if NoKeying(acts) then Reflects(c', statuses, openedAt) else Reflects(c', [], now)
  {
    assert !SomeWorking([]);
    hide StatusFromByte, NoKeying;
  }

  lemma NothingIsKeyed()
    ensures NoKeying([])
  {
  }

  lemma StatusMeans(b: byte)
    ensures ClassifyByte(b).Status? <==> IsStatus(b)
    ensures IsStatus(b) ==> ClassifyByte(b).status == StatusFromByte(b)
    ensures var s := StatusFromByte(b); s.busy || s.waiting || s.keyDown <==> Working(b)
  {
  }

  lemma OneMoreStatus(statuses: seq<byte>, b: byte)
    ensures SomeWorking(statuses + [b]) <==> SomeWorking(statuses) || Working(b)
  {
    if SomeWorking(statuses) {
      var x :| x in statuses && Working(x);
      assert x in statuses + [b];
    }
    if Working(b) {
      assert b in statuses + [b];
    }
    if SomeWorking(statuses + [b]) {
      var x :| x in statuses + [b] && Working(x);
      assert x in statuses || x == b;
    }
  }

  // ---- Requests ----

  // Which live jobs a request ends.
  ghost predicate Condemns(c: Core, r: Request, id: JobId, x: ClientId) {
    match r
    case Unregistering(y) => x == y && LiveAs(c, id, x)
    case Cancelling(y, includeActive) => x == y && (QueuedAs(c, id, x) || (includeActive && ActiveAs(c, id, x)))
    case CancellingJob(y, job) => x == y && id == job && LiveAs(c, id, x)
    case EmergencyStopping => LiveAs(c, id, x)
    case ShuttingDown => LiveAs(c, id, x)
    case _ => false
  }

  ghost predicate EndsExactly(c: Core, acts: seq<Action>, r: Request) {
    NothingCompleted(acts) && forall id, x :: Canceled(id, x) in acts <==> Condemns(c, r, id, x)
  }

  lemma HandleEnqueueEnds(a: Actor, r: Request, now: nat)
    requires r.Enqueueing?
    ensures var h := HandleEnqueue(a, r, now);
            OnlyWrites(h.actions)
            && if h.reply.Submitted? && AppendsToActive(a.core, r.client, r.stream) then ExtendsActive(a.core, h.actor.core)
               else Turns(a.core, h.actor.core, h.actions, now)
  {
    var e := Enqueue(a.core, r.client, r.payload, r.jobSpeed, r.stream, now);
    if e.Some? {
      EnqueueEnds(a.core, r.client, r.payload, r.jobSpeed, r.stream, now);
    }
    hide Enqueue;
  }

  // A request ends exactly what it condemns; it opens a job, or leaves the active one as it was.
  lemma HandleEnds(a: Actor, r: Request, now: nat, fails: bool)
    requires !a.stopped
    ensures var h := Handle(a, r, now);
            EndsExactly(a.core, h.actions, r)
            && if Appends(a, Serve(r, now, fails)) then
                 NoCancellations(h.actions) && ExtendsActive(a.core, h.actor.core)
               else Turns(a.core, h.actor.core, h.actions, now)
  {
    hide Unregister, CancelClient, CancelJob, EmergencyStop, HandleEnqueue, LiveAs, QueuedAs, ActiveAs, AppendsToActive;
    match r
    case Unregistering(x) =>
      UnregisterEnds(a.core, x, now);
      HostOpenTurns(a.core, Unregister(a.core, x, now).core, Unregister(a.core, x, now).actions, now);
    case Enqueueing(_, _, _, _) => HandleEnqueueEnds(a, r, now);
    case Cancelling(x, includeActive) => CancelClientEnds(a.core, x, includeActive, now);
    case CancellingJob(x, id) => CancelJobEnds(a.core, x, id, now);
    case EmergencyStopping => EmergencyStopEnds(a.core);
    case ShuttingDown => EmergencyStopEnds(a.core);
    case _ =>
  }

  ghost predicate NoCancellations(acts: seq<Action>) {
    forall a | a in acts :: !a.Canceled?
  }

  // The active job has only grown.
  predicate ExtendsActive(c: Core, c': Core) {
    c.active.Some? && c'.active.Some? && c'.status == c.status && c'.maxTx == c.maxTx
    && c'.active.value == c.active.value.(job := c'.active.value.job)
    && c'.active.value.job == c.active.value.job.(payload := c'.active.value.job.payload)
  }

  lemma HostOpenTurns(c: Core, c': Core, acts: seq<Action>, now: nat)
    requires Turns(c, c', acts, now)
    ensures Turns(c, c', [Write(HOST_OPEN, HostControl)] + acts, now)
    ensures forall a: Action | !a.Write? :: a in [Write(HOST_OPEN, HostControl)] + acts <==> a in acts
  {
    JoinedTurns(c, c', [Write(HOST_OPEN, HostControl)], acts, now);
  }

  // ---- Status bytes and ticks ----

  // The active job is completed by a status byte exactly when the byte is idle and an earlier one
  // since the job was opened was not.
  ghost predicate DoneByStatus(a: Actor, seen: Seen, b: byte) {
    a.core.active.Some? && IsStatus(b) && !Working(b) && SomeWorking(seen.statuses)
  }

  // And by a tick exactly when a status has come, the last one was idle, the settle time has passed
  // since the job was opened, and the transmit ceiling has not.
  predicate DoneByTick(a: Actor, seen: Seen, now: nat) {
    && a.core.active.Some? && seen.statuses != [] && !Working(seen.statuses[|seen.statuses| - 1])
    && Elapsed(now, seen.openedAt) >= 250 && Elapsed(now, seen.openedAt) < a.core.maxTx
  }

  predicate Overdue(a: Actor, seen: Seen, now: nat) {
    a.core.active.Some? && Elapsed(now, seen.openedAt) >= a.core.maxTx
  }

  lemma ObserveEnds(a: Actor, seen: Seen, b: byte, now: nat)
    requires Knows(a, seen) && IsStatus(b)
    ensures var o := ObserveStatus(a.core, StatusFromByte(b), now);
            (forall x: Action | !x.Write? :: x in o.actions <==>
               DoneByStatus(a, seen, b) && x == Completed(a.core.active.value.job.id, a.core.active.value.job.client))
            && (o.core.active.Some? ==>
                  if NoKeying(o.actions) then
                    a.core.active.Some? && Knows(a.(core := o.core), seen.(statuses := seen.statuses + [b]))
                  else o.core.active == Some(ActiveJob(o.core.active.value.job, false, false, now)))
            && o.core.clients == a.core.clients && o.core.maxTx == a.core.maxTx
  {
    StatusMeans(b);
    OneMoreStatus(seen.statuses, b);
    hide StatusFromByte, SomeWorking, Working;
    var c1 := a.core.(status := StatusFromByte(b));
    if DoneByStatus(a, seen, b) {
      var c2 := c1.(active := Some(a.core.active.value.(observedStatus := true)));
      CompleteActiveEnds(c2, now);
      assert ObserveStatus(a.core, StatusFromByte(b), now) == CompleteActive(c2, now);
      hide CompleteActive;
      EndedIsOpened(c2, CompleteActive(c2, now), now);
    }
  }

  // Nothing of a completed job stays active.
  lemma EndedIsOpened(c: Core, o: Outcome, now: nat)
    requires c.active.Some? && o == CompleteActive(c, now)
    ensures o.core.active.Some? ==> !NoKeying(o.actions)
  {
    StartTurns(c.(active := None), now);
    var start := StartOrRestore(c.(active := None), now);
    if o.core.active.Some? {
      var a :| a in start.actions && IsKeying(a);
      assert a in o.actions;
    }
    hide StartOrRestore;
  }

  // The watchdog, the settle time and the poll.
  lemma TickEnds(a: Actor, seen: Seen, now: nat)
    requires Knows(a, seen)
    ensures var o := Ticked(a, now);
            (forall id, x :: Completed(id, x) in o.actions <==> DoneByTick(a, seen, now) && ActiveAs(a.core, id, x))
            && (forall id, x :: Canceled(id, x) in o.actions <==> Overdue(a, seen, now) && LiveAs(a.core, id, x))
            && Turns(a.core, o.core, o.actions, now) && o.core.clients == a.core.clients
  {
    var w := Watchdog(a.core, now);
    var i := ConfirmIdle(w.core, now, SHORT_JOB_SETTLE);
    var poll := if SnapshotBusy(i.core) && Elapsed(now, a.lastPoll) >= STATUS_POLL_INTERVAL then [Write([0x15], StatusPoll)] else [];
    if a.core.active.Some? && seen.statuses != [] {
      StatusMeans(seen.statuses[|seen.statuses| - 1]);
    }
    if Overdue(a, seen, now) {
      EmergencyStopEnds(a.core);
      assert w == EmergencyStop(a.core) && i == Outcome(w.core, []);
      hide EmergencyStop, LiveAs;
      assert w.actions + [] == w.actions;
      assert forall x: Action | !x.Write? :: x in Ticked(a, now).actions <==> x in w.actions;
    } else if DoneByTick(a, seen, now) {
      CompleteActiveEnds(a.core, now);
      assert w == Outcome(a.core, []) && i == CompleteActive(a.core, now);
      hide CompleteActive, LiveAs, StatusFromByte;
      assert [] + i.actions == i.actions;
      PolledTurns(a.core, i.core, i.actions, poll, now);
    } else {
      assert w == Outcome(a.core, []) && i == Outcome(a.core, []);
      hide LiveAs, StatusFromByte;
    }
  }

  lemma PolledTurns(c: Core, c': Core, acts: seq<Action>, poll: seq<Action>, now: nat)
    requires Turns(c, c', acts, now) && (poll == [] || poll == [Write([0x15], StatusPoll)])
    ensures Turns(c, c', acts + poll, now)
    ensures forall a: Action | !a.Write? :: a in acts + poll <==> a in acts
  {
    if !NoKeying(acts) {
      var a :| a in acts && IsKeying(a);
      assert a in acts + poll;
    }
  }

  // ---- Steps ----

  lemma ServeKeepsKnowing(a: Actor, seen: Seen, e: Event)
    requires Knows(a, seen) && Enabled(a, e) && e.Serve?
    ensures Knows(Step(a, e).actor, Watch(seen, a, e))
  {
    var h := Handle(a, e.request, e.now);
    HandleEnds(a, e.request, e.now, e.fails);
    PhysicalErrorEnds(h.actor.core);
    if e.request.ShuttingDown? {
      StopLeavesNothing(a, e.now);
    } else if Appends(a, e) {
      hide EndsExactly, SomeWorking, StatusFromByte, Appends, NoKeying, RosterAfter, OrdersAfter, LiveAs, PhysicalError, Handle;
    } else {
      TurnsReflect(a.core, h.actor.core, h.actions, e.now, seen.statuses, seen.openedAt);
      hide EndsExactly, Turns, Appends, NoKeying, RosterAfter, OrdersAfter, LiveAs, PhysicalError, Handle, SomeWorking;
      hide StatusFromByte;
    }
  }

  lemma StopLeavesNothing(a: Actor, now: nat)
    ensures Handle(a, ShuttingDown, now).actor.core.active.None?
  {
    EmergencyStopEnds(a.core);
    hide EmergencyStop;
  }

  lemma ReceiveKeepsKnowing(a: Actor, seen: Seen, e: Event)
    requires Safe(a) && Knows(a, seen) && Enabled(a, e) && e.Receive?
    ensures Knows(Step(a, e).actor, Watch(seen, a, e))
  {
    NothingIsKeyed();
    hide SomeWorking, StatusFromByte, NoKeying, LiveAs, PhysicalError, ObserveStatus, Sized, Restore, Working;
    StatusMeans(e.input);
    PhysicalErrorEnds(a.core);
    if a.reopenPending {
      ReconnectKeepsWork(a.core);
      PhysicalErrorEnds(Restore(Connect(a.core)).core);
    } else if a.maintenance.None? && IsStatus(e.input) {
      ObserveEnds(a, seen, e.input, e.now);
      var o := ObserveStatus(a.core, StatusFromByte(e.input), e.now);
      PhysicalErrorEnds(o.core);
      NothingObserved(o.core, e.now);
    }
  }

  lemma NothingObserved(c: Core, now: nat)
    ensures c.active.Some? && c.active == Some(ActiveJob(c.active.value.job, false, false, now)) ==> Reflects(c, [], now)
  {
    assert !SomeWorking([]);
  }

  lemma TickKeepsKnowing(a: Actor, seen: Seen, e: Event)
    requires Knows(a, seen) && Enabled(a, e) && e.Tick?
    ensures Knows(Step(a, e).actor, Watch(seen, a, e))
  {
    TickEnds(a, seen, e.now);
    PhysicalErrorEnds(Ticked(a, e.now).core);
    hide SomeWorking, StatusFromByte, NoKeying, LiveAs, PhysicalError, Watchdog, ConfirmIdle;
  }

  lemma StepKeepsKnowing(a: Actor, seen: Seen, e: Event)
    requires Safe(a) && Knows(a, seen) && Enabled(a, e)
    ensures Knows(Step(a, e).actor, Watch(seen, a, e))
  {
    match e
    case Serve(_, _, _) => ServeKeepsKnowing(a, seen, e);
    case Receive(_, _, _, _) => ReceiveKeepsKnowing(a, seen, e);
    case Tick(_, _) => TickKeepsKnowing(a, seen, e);
    case ReadFault => PhysicalErrorEnds(a.core);
    case Reconnect(_, _, _) => ReconnectKeepsWork(a.core);
    case _ =>
  }

  // ---- Clients and orders ----

  lemma HandleRoster(a: Actor, r: Request, now: nat)
    ensures var h := Handle(a, r, now); h.actor.core.clients == RosterAfter(a.core.clients, r, h.reply)
  {
    hide Unregister, CancelClient, CancelJob, EmergencyStop, Enqueue;
    match r
    case Unregistering(x) => UnregisterEnds(a.core, x, now);
    case Enqueueing(x, payload, speed, stream) =>
      if Enqueue(a.core, x, payload, speed, stream, now).Some? {
        EnqueueEnds(a.core, x, payload, speed, stream, now);
      }
    case Cancelling(x, includeActive) => CancelClientEnds(a.core, x, includeActive, now);
    case CancellingJob(x, id) => CancelJobEnds(a.core, x, id, now);
    case EmergencyStopping => EmergencyStopEnds(a.core);
    case ShuttingDown => EmergencyStopEnds(a.core);
    case _ =>
  }

  lemma StepRoster(a: Actor, seen: Seen, e: Event)
    requires Knows(a, seen) && Enabled(a, e)
    ensures var s := Step(a, e);
            s.actor.core.clients == if e.Serve? then RosterAfter(a.core.clients, e.request, s.reply) else a.core.clients
  {
    hide SomeWorking, StatusFromByte, LiveAs, Handle, ObserveStatus, Watchdog, ConfirmIdle, Knows;
    match e
    case Serve(r, now, _) => HandleRoster(a, r, now);
      hide RosterAfter;
    case Receive(b, now, _, _) =>
      StatusMeans(b);
      if IsStatus(b) {
        ObserveEnds(a, seen, b, now);
      }
    case Tick(now, _) => TickEnds(a, seen, now);
    case _ =>
  }

  // Every live job is what was ordered under its identifier.
  ghost predicate AsOrdered(c: Core, orders: map<JobId, Order>) {
    && (forall j | j in Live(c) :: j.id in orders && orders[j.id] == Order(j.client, j.speed, j.stream))
    && (forall id | id in orders :: id < c.nextId)
  }

  lemma FewerStayOrdered(c: Core, c': Core, orders: map<JobId, Order>)
    requires AsOrdered(c, orders) && c'.nextId == c.nextId && forall j | j in Live(c') :: j in Live(c)
    ensures AsOrdered(c', orders)
  {
  }

  predicate Matches(j: Job, orders: map<JobId, Order>) {
    j.id in orders && orders[j.id] == Order(j.client, j.speed, j.stream)
  }

  lemma AppendOrders(c: Core, x: ClientId, payload: bytes, speed: Option<SpeedMode>, stream: bool, now: nat, orders: map<JobId, Order>)
    requires AsOrdered(c, orders) && Enqueue(c, x, payload, speed, stream, now).Some?
    requires AppendsToActive(c, x, stream) || AppendsToLast(c, x, stream)
    ensures var o := Enqueue(c, x, payload, speed, stream, now).value; AsOrdered(o.core, orders) && o.job in orders
  {
    var o := Enqueue(c, x, payload, speed, stream, now).value;
    var grown := if AppendsToActive(c, x, stream) then c.active.value.job else c.queue[|c.queue| - 1];
    assert grown in Live(c) && Matches(grown, orders);
    forall j | j in Live(o.core) ensures Matches(j, orders) {
      assert j in Live(c) || (j.id == grown.id && j.client == grown.client && j.speed == grown.speed && j.stream == grown.stream);
    }
  }

  lemma FreshOrders(c: Core, j: Job, orders: map<JobId, Order>, now: nat)
    requires AsOrdered(c, orders) && j.id == c.nextId < U64_MAX
    ensures var queued := c.(nextId := SaturatingNext(c.nextId), queue := c.queue + [j]);
            var o := if c.active.None? then StartOrRestore(queued, now) else Outcome(queued, []);
            AsOrdered(o.core, orders[j.id := Order(j.client, j.speed, j.stream)])
  {
    var queued := c.(nextId := SaturatingNext(c.nextId), queue := c.queue + [j]);
    QueuedOrders(c, j, orders);
    hide AsOrdered;
    if c.active.None? {
      StartKeepsLive(queued, now);
      hide StartOrRestore, Live;
      FewerStayOrdered(queued, StartOrRestore(queued, now).core, orders[j.id := Order(j.client, j.speed, j.stream)]);
    }
  }

  lemma QueuedOrders(c: Core, j: Job, orders: map<JobId, Order>)
    requires AsOrdered(c, orders) && j.id == c.nextId < U64_MAX
    ensures AsOrdered(c.(nextId := SaturatingNext(c.nextId), queue := c.queue + [j]),
                      orders[j.id := Order(j.client, j.speed, j.stream)])
  {
    var queued := c.(nextId := SaturatingNext(c.nextId), queue := c.queue + [j]);
    forall k | k in Live(queued) ensures k in Live(c) || k == j {
    }
  }

  lemma StartKeepsLive(c: Core, now: nat)
    requires c.active.None?
    ensures var o := StartOrRestore(c, now).core;
            o.nextId == c.nextId && forall k | k in Live(o) :: k in Live(c)
  {
    StartTurns(c, now);
    hide Replay, Foreground;
  }

  lemma EnqueueOrders(c: Core, seen: Seen, r: Request, now: nat)
    requires r.Enqueueing? && AsOrdered(c, seen.orders) && seen.roster == c.clients && c.nextId < U64_MAX
    requires Enqueue(c, r.client, r.payload, r.jobSpeed, r.stream, now).Some?
    ensures var o := Enqueue(c, r.client, r.payload, r.jobSpeed, r.stream, now).value;
            AsOrdered(o.core, OrdersAfter(seen, r, Submitted(o.job)))
  {
    if AppendsToActive(c, r.client, r.stream) || AppendsToLast(c, r.client, r.stream) {
      AppendOrders(c, r.client, r.payload, r.jobSpeed, r.stream, now, seen.orders);
      hide AsOrdered, Enqueue;
    } else {
      assert c.nextId !in seen.orders;
      FreshOrders(c, Job(c.nextId, r.client, r.payload, SpeedWanted(seen.roster, r), r.stream), seen.orders, now);
      hide AsOrdered, StartOrRestore;
    }
  }

  lemma HandleOrders(a: Actor, seen: Seen, r: Request, now: nat)
    requires Safe(a) && !a.stopped && AsOrdered(a.core, seen.orders) && seen.roster == a.core.clients
    requires r.Enqueueing? ==> a.core.nextId < U64_MAX
    ensures var h := Handle(a, r, now); AsOrdered(h.actor.core, OrdersAfter(seen, r, h.reply))
  {
    hide AsOrdered, Unregister, CancelClient, CancelJob, EmergencyStop, Enqueue, Sized;
    var c := a.core;
    match r
    case Enqueueing(x, payload, speed, stream) =>
      if Enqueue(c, x, payload, speed, stream, now).Some? {
        EnqueueOrders(c, seen, r, now);
      }
    case Unregistering(x) =>
      UnregisterWork(c, x, now);
      UnregisterKeepsNext(c, x, now);
      FewerStayOrdered(c, Unregister(c, x, now).core, seen.orders);
    case Cancelling(x, includeActive) =>
      CancelClientWork(c, x, includeActive, now);
      CancelsKeepNext(c, x, includeActive, 0, now);
      FewerStayOrdered(c, CancelClient(c, x, includeActive, now).core, seen.orders);
    case CancellingJob(x, id) =>
      CancelJobWork(c, x, id, now);
      CancelsKeepNext(c, x, false, id, now);
      FewerStayOrdered(c, CancelJob(c, x, id, now).core, seen.orders);
    case EmergencyStopping =>
      EmergencyStopWork(c);
      StopKeepsNext(c);
      FewerStayOrdered(c, EmergencyStop(c).core, seen.orders);
    case ShuttingDown =>
      EmergencyStopWork(c);
      StopKeepsNext(c);
      FewerStayOrdered(c, EmergencyStop(c).core, seen.orders);
    case Registering(x, primary) => FewerStayOrdered(c, Register(c, x, primary).core, seen.orders);
    case Speeding(x, speed) => FewerStayOrdered(c, SetSpeed(c, x, speed).core, seen.orders);
    case Configuring(x, command) =>
      if SetCommand(c, x, command).Some? {
        FewerStayOrdered(c, SetCommand(c, x, command).value.core, seen.orders);
      }
    case _ =>
  }

  lemma UnregisterKeepsNext(c: Core, x: ClientId, now: nat)
    ensures Unregister(c, x, now).core.nextId == c.nextId
  {
  }

  lemma CancelsKeepNext(c: Core, x: ClientId, includeActive: bool, id: JobId, now: nat)
    ensures CancelClient(c, x, includeActive, now).core.nextId == c.nextId
    ensures CancelJob(c, x, id, now).core.nextId == c.nextId
  {
  }

  lemma StopKeepsNext(c: Core)
    ensures EmergencyStop(c).core.nextId == c.nextId
  {
  }

  lemma LossKeepsOrdered(a: Actor, returned: seq<Action>, reply: Reply, orders: map<JobId, Order>)
    requires AsOrdered(a.core, orders)
    ensures AsOrdered(SessionLost(a, returned, reply).actor.core, orders)
  {
    assert Live(PhysicalError(a.core).core) == [];
  }

  lemma StepOrders(a: Actor, seen: Seen, e: Event)
    requires Safe(a) && AsOrdered(a.core, seen.orders) && seen.roster == a.core.clients && Enabled(a, e)
    requires e.Serve? && e.request.Enqueueing? ==> a.core.nextId < U64_MAX
    ensures var s := Step(a, e);
            AsOrdered(s.actor.core, if e.Serve? then OrdersAfter(seen, e.request, s.reply) else seen.orders)
  {
    hide AsOrdered, Handle, ObserveStatus, Restore, Sized, OrdersAfter;
    match e
    case Serve(r, now, fails) =>
      HandleOrders(a, seen, r, now);
      var h := Handle(a, r, now);
      LossKeepsOrdered(h.actor, h.actions, h.reply, OrdersAfter(seen, r, h.reply));
    case Receive(b, now, _, _) =>
      LossKeepsOrdered(a, [], Silent, seen.orders);
      if a.reopenPending {
        ReconnectKeepsWork(a.core);
        assert Live(Restore(Connect(a.core)).core) == [];
        RestoreOnlyWrites(Connect(a.core));
        FewerStayOrdered(a.core, Restore(Connect(a.core)).core, seen.orders);
        LossKeepsOrdered(a.(core := Restore(Connect(a.core)).core), [], Silent, seen.orders);
      } else if a.maintenance.None? && ClassifyByte(b).Status? {
        var o := ObserveStatus(a.core, ClassifyByte(b).status, now);
        ObserveStatusWork(a.core, ClassifyByte(b).status, now);
        ObserveKeepsNext(a.core, ClassifyByte(b).status, now);
        FewerStayOrderedButStatus(a.core, o.core, seen.orders);
        LossKeepsOrdered(a.(core := o.core), o.actions, Silent, seen.orders);
      }
    case Tick(now, _) =>
      TickWork(a.core, now);
      TickKeepsNext(a, now);
      FewerStayOrdered(a.core, Ticked(a, now).core, seen.orders);
      LossKeepsOrdered(a.(core := Ticked(a, now).core), Ticked(a, now).actions, Silent, seen.orders);
      hide Watchdog, ConfirmIdle;
    case ReadFault => LossKeepsOrdered(a, [], Silent, seen.orders);
    case Reconnect(_, _, _) =>
      ReconnectKeepsWork(a.core);
      RestoreOnlyWrites(Connect(a.core));
      assert Live(Restore(Connect(a.core)).core) == [];
      FewerStayOrdered(a.core, Restore(Connect(a.core)).core, seen.orders);
      LossKeepsOrdered(a, [], Silent, seen.orders);
      LossKeepsOrdered(a.(core := Restore(Connect(a.core)).core), [], Silent, seen.orders);
    case _ =>
  }

  lemma FewerStayOrderedButStatus(c: Core, c': Core, orders: map<JobId, Order>)
    requires AsOrdered(c, orders) && c'.nextId == c.nextId && Smaller(c, c')
    ensures AsOrdered(c', orders)
  {
  }

  lemma ObserveKeepsNext(c: Core, s: DeviceStatus, now: nat)
    ensures ObserveStatus(c, s, now).core.nextId == c.nextId
  {
  }

  lemma TickKeepsNext(a: Actor, now: nat)
    ensures Ticked(a, now).core.nextId == a.core.nextId
  {
  }
}
