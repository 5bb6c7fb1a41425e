// Concrete runs of the keyer, event by event from the start, that reach the states in which the
// code falls short.

module ActorWitnesses {
  import opened Common
  import opened WinkeyerProtocol
  import opened BrokerModel
  import opened BrokerDevice
  import opened BrokerKeying
  import opened Ptt
  import opened ActorModel
  import opened ActorSafety
  import opened ActorDevice
  import opened ActorKeying
  import opened ActorRuns

  const MAX_TX: nat := 1000

  // The keyer is found between commands with nothing stored, and nobody transmits.
  function Fresh(): World {
    Start(MAX_TX, FREE, 0, Keyer(map[], EMPTY))
  }

  // What the opening of the transport leaves in the registers.
  function Initial(): Registers {
    Fresh().bench.keyer.registers
  }

  const OPENING_ITEMS: seq<ClientItem> :=
    [Command([0x00, 0x02]), Command([0x0a]), Command([0x0b, 0x00]), Command([0x02, 0x00]), Command([0x07]), Command([0x15])]

  lemma OpeningFlattens()
    ensures Flatten(OPENING_ITEMS) == HOST_OPEN + HOST_INIT
  {
    var items := OPENING_ITEMS;
    assert items[1..][1..] == items[2..] && items[2..][1..] == items[3..] && items[3..][1..] == items[4..];
    assert items[4..][1..] == items[5..] && Flatten(items[5..]) == [0x15];
    assert Flatten(items[4..]) == [0x07, 0x15] && Flatten(items[3..]) == [0x02, 0x00, 0x07, 0x15];
    assert Flatten(items[2..]) == [0x0b, 0x00, 0x02, 0x00, 0x07, 0x15];
    assert Flatten(items[1..]) == HOST_INIT;
  }

  lemma InitializationIsHeard()
    ensures Feed(EMPTY, HOST_OPEN + HOST_INIT) == Parsed(EMPTY, OPENING_ITEMS)
  {
    OpeningFlattens();
    hide Feed, Flatten;
    ParseInvertsFlatten(OPENING_ITEMS);
  }

  lemma InitializationBytes()
    ensures Written(INITIALIZATION) == HOST_OPEN + HOST_INIT
  {
    var none: seq<Action> := [];
    assert INITIALIZATION[1..] == [Write(HOST_INIT, HostControl)] && INITIALIZATION[1..][1..] == none;
    assert Written(INITIALIZATION[1..]) == HOST_INIT + Written(none);
  }

  lemma FreshBench()
    ensures Fresh().bench == Bench(Keyer(Initial(), EMPTY), true, false, map[]) && 0x03 !in Initial()
  {
    hide Feed, Hear;
    HearsOneStream(Keyer(map[], EMPTY), INITIALIZATION);
    InitializationIsHeard();
    InitializationBytes();
    HarmlessItemsAdd(map[], Feed(EMPTY, HOST_OPEN + HOST_INIT).items, 0x03);
  }

  // The events lead from the start to the state, each enabled and obeying the rule.
  ghost predicate Reached(es: seq<Event>, w: World, rule: (Actor, Event) -> bool) {
    exists run :: IsRun(Fresh(), es, run, rule) && run[|es|] == w
  }

  lemma Begin(rule: (Actor, Event) -> bool)
    ensures Reached([], Fresh(), rule)
  {
    assert IsRun(Fresh(), [], [Fresh()], rule);
  }

  lemma Then(es: seq<Event>, w: World, rule: (Actor, Event) -> bool, e: Event) returns (w': World)
    requires Reached(es, w, rule) && Enabled(w.actor, e) && rule(w.actor, e)
    ensures Reached(es + [e], w', rule)
    ensures w'.actor == Step(w.actor, e).actor && w'.bench == StepBench(w.actor, w.bench, e)
  {
    var run :| IsRun(Fresh(), es, run, rule) && run[|es|] == w;
    w' := Advance(w, e);
    RunsExtend(Fresh(), es, run, rule, e);
    assert (run + [w'])[|es + [e]|] == w';
    hide Step, StepBench, Advance;
  }

  function Request0(r: Request): Event {
    Serve(r, 0, false)
  }

  // ---- States of the actor ----

  const IDLE: Actor := Spawned(MAX_TX, FREE, 0)

  function WithClient(a: Actor, x: ClientId, primary: bool): Actor {
    a.(core := a.core.(clients := a.core.clients[x := Client(Pot, primary, map[])]))
  }

  lemma NoPrimaries(c: Core)
    requires forall x :: !IsPrimary(c, x)
    ensures Primaries(c) == {} && Foreground(c) == None
  {
    ForegroundIsThePrimary(c);
    assert forall x :: x in Primaries(c) <==> IsPrimary(c, x);
  }

  lemma OnePrimary(c: Core, x: ClientId)
    requires forall y :: IsPrimary(c, y) <==> y == x
    ensures Foreground(c) == Some(x)
  {
    ForegroundIsThePrimary(c);
    assert IsPrimary(c, x);
  }

  lemma Registered(a: Actor, x: ClientId, primary: bool)
    requires a.up && !a.stopped && a.lease == FREE && forall y :: !IsPrimary(a.core, y)
    ensures Step(a, Request0(Registering(x, primary))).actor == WithClient(a, x, primary)
    ensures Step(a, Request0(Registering(x, primary))).actions == []
  {
    NoPrimaries(a.core);
  }

  lemma RegisteredSecond(a: Actor, x: ClientId)
    requires a.up && !a.stopped && a.lease == FREE
    ensures Step(a, Request0(Registering(x, false))).actor == WithClient(a, x, false)
  {
  }

  // ---- A stream job, a plain job, a stream piece ----

  function Playing(a: Actor, x: ClientId, payload: bytes, now: nat): Actor {
    a.(core := a.core.(active := Some(ActiveJob(Job(1, x, payload, Pot, true), false, false, now)),
                       cached := Some(x), nextId := 2),
       lease := Lease(Some(KEYER), Some(now)))
  }

  lemma FirstJob(a: Actor, x: ClientId, payload: bytes, now: nat)
    requires a.up && !a.stopped && a.maintenance.None? && !a.reopenPending
    requires (a.lease == FREE || a.lease.owner == Some(KEYER))
    requires a.core.connected && a.core.active.None? && a.core.queue == [] && a.core.nextId == 1
    requires x in a.core.clients && a.core.clients[x].desired == Pot && a.core.clients[x].profile == map[]
    requires !a.core.status.busy && !a.core.status.breakIn && !a.core.status.keyDown
    requires payload != [] && |payload| <= MAX_JOB_BYTES && payload[0] != 0x1c
    ensures var s := Step(a, Serve(Enqueueing(x, payload, None, true), now, false));
            s.actor == Playing(a, x, payload, now)
            && s.actions == [Write(SpeedCommand(Pot), SelectSpeed), Write(payload, Keying(1, x)), Write([0x15], StatusPoll)]
  {
    var j := Job(1, x, payload, Pot, true);
    var queued := a.core.(nextId := 2, queue := a.core.queue + [j]);
    assert queued.queue[0] == j && queued.queue[1..] == [];
    assert ProfileWrites(map[]) == [];
    assert Setup(queued, j) == [Write(SpeedCommand(Pot), SelectSpeed)];
    assert StartOrRestore(queued, now).core == Playing(a, x, payload, now).core;
  }

  const ONE_CLIENT: Actor := WithClient(IDLE, 7, false)
  const ONE_JOB: Actor := Playing(ONE_CLIENT, 7, [0x41], 0)
  const ONE_WAITING: Actor :=
    ONE_JOB.(core := ONE_JOB.core.(queue := [Job(2, 7, [0x42], Pot, false)], nextId := 3))

  lemma OvertakingSteps()
    ensures Step(ONE_JOB, Request0(Enqueueing(7, [0x42], None, false))).actor == ONE_WAITING
    ensures var s := Step(ONE_WAITING, Request0(Enqueueing(7, [0x43], None, true)));
            s.reply == Submitted(1) && s.actions == [Write([0x43], Keying(1, 7))]
            && s.actor.core.active.Some? && s.actor.core.active.value.job.payload == [0x41, 0x43]
            && s.actor.core.queue == [Job(2, 7, [0x42], Pot, false)]
  {
    assert ONE_JOB.core.queue + [Job(2, 7, [0x42], Pot, false)] == [Job(2, 7, [0x42], Pot, false)];
    assert [0x41] + [0x43] == [0x41, 0x43];
  }

  // Register a client and start a stream job of one byte.
  lemma OneJobPlays(rule: (Actor, Event) -> bool) returns (es: seq<Event>, w: World)
    requires rule(IDLE, Request0(Registering(7, false)))
    requires rule(ONE_CLIENT, Request0(Enqueueing(7, [0x41], None, true)))
    ensures Reached(es, w, rule) && w.actor == ONE_JOB
    ensures exists w1: World :: w1.bench == StepBench(IDLE, Fresh().bench, Request0(Registering(7, false)))
                                && w.bench == StepBench(ONE_CLIENT, w1.bench, Request0(Enqueueing(7, [0x41], None, true)))
  {
    hide Step, Reached, StepBench;
    Registered(IDLE, 7, false);
    FirstJob(ONE_CLIENT, 7, [0x41], 0);
    Begin(rule);
    es := [Request0(Registering(7, false))];
    var w1 := Then([], Fresh(), rule, es[0]);
    assert [] + es == es;
    w := Then(es, w1, rule, Request0(Enqueueing(7, [0x41], None, true)));
    es := es + [Request0(Enqueueing(7, [0x41], None, true))];
  }

  // A piece of a stream reaches the keyer ahead of the plain job that its client queued before it.
  lemma StreamOvertakes() returns (es: seq<Event>, w: World)
    ensures Reached(es, w, Anything)
    ensures var e := Request0(Enqueueing(7, [0x43], None, true));
            Enabled(w.actor, e)
            && var s := Step(w.actor, e); var c := s.actor.core;
               s.reply == Submitted(1) && s.actions == [Write([0x43], Keying(1, 7))]
               && c.active.Some? && c.active.value.job.payload == [0x41, 0x43]
               && c.queue == [Job(2, 7, [0x42], Pot, false)]
  {
    hide Step, Reached;
    OvertakingSteps();
    es, w := OneJobPlays(Anything);
    w := Then(es, w, Anything, Request0(Enqueueing(7, [0x42], None, false)));
    es := es + [Request0(Enqueueing(7, [0x42], None, false))];
  }

  // ---- The lease ----

  lemma RefusalSteps()
    ensures var a := Step(IDLE, ReadFault).actor;
            Enabled(a, Request0(Enqueueing(9, [0x41], None, false)))
            && var s := Step(a, Request0(Enqueueing(9, [0x41], None, false)));
               s.reply == Refused(NotConnected) && s.actor.lease == Lease(Some(KEYER), Some(0)) && s.actor.core.active.None?
  {
  }

  // A submission refused for want of a device takes the transmit lease and keeps it: no job is
  // live, and a CAT session is refused.
  lemma RefusedSubmissionTakesTheLease() returns (es: seq<Event>, w: World)
    ensures Reached(es, w, LeaseRespected)
    ensures var e := Request0(Enqueueing(9, [0x41], None, false));
            Enabled(w.actor, e)
            && var s := Step(w.actor, e); var a := s.actor;
               s.reply == Refused(NotConnected) && a.core.active.None? && a.lease.owner == Some(KEYER)
               && TryKey(a.lease, 5, true, 0).result == KeyResult.Busy
  {
    hide Step, Reached;
    RefusalSteps();
    Begin(LeaseRespected);
    es := [ReadFault];
    w := Then([], Fresh(), LeaseRespected, ReadFault);
    assert [] + es == es;
  }

  lemma WatchdogSteps()
    ensures Step(ONE_JOB, ExpiryRead(1000, 1000)).actor == ONE_JOB.(expiring := Some(KEYER))
    ensures Step(ONE_JOB.(expiring := Some(KEYER)), ExpiryRelease).actor == ONE_JOB.(lease := FREE)
    ensures Step(ONE_JOB.(lease := FREE), CatKey(5, true, 1000)).actor == ONE_JOB.(lease := Lease(Some(5), Some(1000)))
  {
  }

  // The watchdog takes the lease from a running job, and a CAT session keys into it.
  lemma WatchdogLetsCatKeyIntoAJob() returns (es: seq<Event>, w: World)
    ensures Reached(es, w, Anything)
    ensures w.actor.core.active.Some? && w.actor.lease.owner == Some(5)
  {
    hide Step, Reached;
    WatchdogSteps();
    es, w := OneJobPlays(Anything);
    w := Then(es, w, Anything, ExpiryRead(1000, 1000));
    es := es + [ExpiryRead(1000, 1000)];
    w := Then(es, w, Anything, ExpiryRelease);
    es := es + [ExpiryRelease];
    w := Then(es, w, Anything, CatKey(5, true, 1000));
    es := es + [CatKey(5, true, 1000)];
  }

  const PADDLE: byte := 0xc2
  const AT_REST: byte := 0xc0

  const PADDLING: Actor :=
    IDLE.(core := IDLE.core.(status := DeviceStatus(PADDLE, false, false, false, true, false)),
          lease := Lease(Some(KEYER), Some(0)))
  const RESTING: Actor := IDLE.(expiring := Some(KEYER))
  const LATE_CLIENT: Actor := WithClient(RESTING, 7, false)
  const LATE_JOB: Actor := Playing(LATE_CLIENT, 7, [0x41], 1000)

  lemma PaddleSteps()
    ensures Step(IDLE, Receive(PADDLE, 0, false, map[])).actor == PADDLING
    ensures Step(PADDLING, ExpiryRead(1000, 1000)).actor == PADDLING.(expiring := Some(KEYER))
    ensures Step(PADDLING.(expiring := Some(KEYER)), Receive(AT_REST, 1000, false, map[])).actor == RESTING
    ensures Step(LATE_JOB, ExpiryRelease).actor == LATE_JOB.(lease := FREE, expiring := None)
  {
    assert StatusFromByte(PADDLE) == DeviceStatus(PADDLE, false, false, false, true, false);
    assert StatusFromByte(AT_REST) == DeviceStatus(AT_REST, false, false, false, false, false);
  }

  // The lease was read as expired while a hand held the paddle and no job was active; the job that
  // has started since loses the lease it has just taken.
  lemma WatchdogTakesTheLeaseOfALaterJob()
      returns (idle: World, read: World, es: seq<Event>, busy: World)
    ensures Reached([Receive(PADDLE, 0, false, map[])], idle, Anything) && idle.actor.core.active.None?
    ensures Reached([Receive(PADDLE, 0, false, map[])] + [ExpiryRead(1000, 1000)], read, Anything)
    ensures Reached([Receive(PADDLE, 0, false, map[])] + [ExpiryRead(1000, 1000)] + es, busy, Anything)
    ensures read.actor.expiring == busy.actor.expiring == Some(KEYER)
    ensures busy.actor.core.active.Some? && busy.actor.lease == Lease(Some(KEYER), Some(1000))
    ensures Enabled(busy.actor, ExpiryRelease)
            && var a := Step(busy.actor, ExpiryRelease).actor; a.core.active.Some? && a.lease == FREE
  {
    hide Step, Reached;
    PaddleSteps();
    Begin(Anything);
    var first := [Receive(PADDLE, 0, false, map[])];
    idle := Then([], Fresh(), Anything, first[0]);
    assert [] + first == first;
    read := Then(first, idle, Anything, ExpiryRead(1000, 1000));
    es, busy := LaterJob(first + [ExpiryRead(1000, 1000)], read);
  }

  lemma LaterJob(done: seq<Event>, read: World) returns (es: seq<Event>, busy: World)
    requires Reached(done, read, Anything) && read.actor == PADDLING.(expiring := Some(KEYER))
    ensures Reached(done + es, busy, Anything) && busy.actor == LATE_JOB
  {
    hide Step, Reached;
    PaddleSteps();
    Registered(RESTING, 7, false);
    FirstJob(LATE_CLIENT, 7, [0x41], 1000);
    var e2 := Receive(AT_REST, 1000, false, map[]);
    var e3 := Request0(Registering(7, false));
    var e4 := Serve(Enqueueing(7, [0x41], None, true), 1000, false);
    busy := Then(done, read, Anything, e2);
    busy := Then(done + [e2], busy, Anything, e3);
    busy := Then(done + [e2] + [e3], busy, Anything, e4);
    es := [e2] + [e3] + [e4];
    assert done + es == done + [e2] + [e3] + [e4];
  }

  // ---- Maintenance ----

  const PRIMARY_IDLE: Actor := WithClient(IDLE, 1, true)
  const TWO_CLIENTS: Actor := WithClient(PRIMARY_IDLE, 2, false)

  lemma MaintenanceStep(a: Actor, x: ClientId, command: bytes)
    requires a.up && !a.stopped && a.maintenance.None? && !a.reopenPending && a.lease == FREE
    requires a.core.connected && a.core.active.None? && a.core.queue == []
    ensures var s := Step(a, Request0(MaintenanceCommanding(x, command)));
            s.actor == a.(maintenance := Some(x))
            && s.actions == [Write(MAINTENANCE_OPENING, HostControl)] + [Write(command, HostControl)]
  {
  }

  lemma TwoClientsRun(rule: (Actor, Event) -> bool) returns (es: seq<Event>, w: World)
    requires rule(IDLE, Request0(Registering(1, true))) && rule(PRIMARY_IDLE, Request0(Registering(2, false)))
    ensures Reached(es, w, rule) && w.actor == TWO_CLIENTS
  {
    hide Step, Reached;
    Registered(IDLE, 1, true);
    RegisteredSecond(PRIMARY_IDLE, 2);
    Begin(rule);
    es := [Request0(Registering(1, true))];
    w := Then([], Fresh(), rule, es[0]);
    assert [] + es == es;
    w := Then(es, w, rule, Request0(Registering(2, false)));
    es := es + [Request0(Registering(2, false))];
  }

  // The primary client's Clear reaches the device in the middle of another client's maintenance.
  lemma ClearReachesMaintenance() returns (es: seq<Event>, w: World)
    ensures Reached(es, w, Anything) && w.actor.maintenance == Some(2)
    ensures var e := Request0(Cancelling(1, true));
            Enabled(w.actor, e) && Step(w.actor, e).actions == [Write([0x0a], ClearBuffer(1))]
  {
    hide Step, Reached;
    MaintenanceStep(TWO_CLIENTS, 2, [0x00, 0x0c]);
    ClearStep();
    es, w := TwoClientsRun(Anything);
    w := Then(es, w, Anything, Request0(MaintenanceCommanding(2, [0x00, 0x0c])));
    es := es + [Request0(MaintenanceCommanding(2, [0x00, 0x0c]))];
  }

  lemma ClearStep()
    ensures Step(TWO_CLIENTS.(maintenance := Some(2)), Request0(Cancelling(1, true))).actions
         == [Write([0x0a], ClearBuffer(1))]
  {
    var a := TWO_CLIENTS.(maintenance := Some(2));
    assert a.core.active.None? && IsPrimary(a.core, 1);
    assert [Write([0x0a], ClearBuffer(1))] + [] == [Write([0x0a], ClearBuffer(1))];
  }

  // Somebody keys by hand, then a client takes up maintenance: the broker keeps the status it saw
  // last, and its polls are written into the maintenance.
  const KEYED_BY_HAND: Actor :=
    IDLE.(core := IDLE.core.(status := StatusFromByte(0xc4)), lease := Lease(Some(KEYER), Some(0)))

  lemma HandKeying()
    ensures Step(IDLE, Receive(0xc4, 0, false, map[])).actor == KEYED_BY_HAND
  {
  }

  lemma BusyRegistered(a: Actor, x: ClientId)
    requires a.up && !a.stopped && a.core.status.busy
    ensures Step(a, Request0(Registering(x, false))).actor == WithClient(a, x, false)
  {
  }

  lemma BusyMaintenance(a: Actor, x: ClientId, command: bytes)
    requires a.up && !a.stopped && a.core.status.busy && a.maintenance.None?
    requires a.core.connected && a.core.active.None? && a.core.queue == []
    ensures Step(a, Request0(MaintenanceCommanding(x, command))).actor == a.(maintenance := Some(x))
  {
  }

  lemma BusyTick(a: Actor, now: nat)
    requires a.up && a.core.status.busy && a.core.active.None? && Elapsed(now, a.lastPoll) >= STATUS_POLL_INTERVAL
    ensures Step(a, Tick(now, false)).actions == [Write([0x15], StatusPoll)]
  {
  }

  lemma PollReachesMaintenance() returns (es: seq<Event>, w: World)
    ensures Reached(es, w, Anything) && w.actor.maintenance == Some(2)
    ensures Enabled(w.actor, Tick(100, false)) && Step(w.actor, Tick(100, false)).actions == [Write([0x15], StatusPoll)]
  {
    Begin(Anything);
    HandKeying();
    hide Reached, Step, Advance, Start;
    assert Fresh().actor == IDLE by { StartsIdle(); }
    var byHand := Receive(0xc4, 0, false, map[]);
    w := Then([], Fresh(), Anything, byHand);
    es := [] + [byHand];
    BusyRegistered(w.actor, 2);
    w := Then(es, w, Anything, Request0(Registering(2, false)));
    es := es + [Request0(Registering(2, false))];
    BusyMaintenance(w.actor, 2, [0x00, 0x0c]);
    w := Then(es, w, Anything, Request0(MaintenanceCommanding(2, [0x00, 0x0c])));
    es := es + [Request0(MaintenanceCommanding(2, [0x00, 0x0c]))];
    BusyTick(w.actor, 100);
  }

  lemma StartsIdle()
    ensures Fresh().actor == IDLE
  {
  }

  // ---- A profile changed while its client's job plays ----

  const WEIGHTING: bytes := [0x03, 0x32]

  lemma WeightingIsConfigurable()
    ensures Configurable(WEIGHTING)
  {
  }

  lemma OneLetterIsKeying(b: byte)
    requires b > 0x1f
    ensures KeyingBytes([b])
  {
    FeedOneItem(Data(b));
  }

  const RECONFIGURED: Actor :=
    ONE_JOB.(core := ONE_JOB.core.(clients := map[7 := Client(Pot, false, map[0x03 := WEIGHTING])], cached := None))

  lemma ReconfiguringSteps()
    ensures var s := Step(ONE_JOB, Request0(Configuring(7, WEIGHTING))); s.actor == RECONFIGURED && s.actions == []
    ensures var e := Request0(Enqueueing(7, [0x42], None, true)); var s := Step(RECONFIGURED, e);
            s.actions == [Write([0x42], Keying(1, 7))] && s.actor.core.clients == RECONFIGURED.core.clients
            && Appends(RECONFIGURED, e)
  {
    assert ONE_JOB.core.clients[7 := Client(Pot, false, map[][0x03 := WEIGHTING])] == RECONFIGURED.core.clients;
  }

  // What the first job of an empty keyer leaves in it.
  lemma FirstJobIsHeard(r: Registers)
    requires 0x03 !in r
    ensures var k := Hear(Keyer(r, EMPTY),
                          [Write(SpeedCommand(Pot), SelectSpeed), Write([0x41], Keying(1, 7)), Write([0x15], StatusPoll)]);
            0x03 !in k.registers
  {
    hide Feed, Written, Hear;
    var acts := [Write(SpeedCommand(Pot), SelectSpeed), Write([0x41], Keying(1, 7)), Write([0x15], StatusPoll)];
    var items := [Command(SpeedCommand(Pot)), Data(0x41), Command([0x15])];
    HearsOneStream(Keyer(r, EMPTY), acts);
    FirstJobBytes();
    FirstJobItems();
    HarmlessItemsAdd(r, items, 0x03);
  }

  lemma FirstJobBytes()
    ensures Written([Write(SpeedCommand(Pot), SelectSpeed), Write([0x41], Keying(1, 7)), Write([0x15], StatusPoll)])
         == [0x02, 0x00, 0x41, 0x15]
  {
    var acts := [Write(SpeedCommand(Pot), SelectSpeed), Write([0x41], Keying(1, 7)), Write([0x15], StatusPoll)];
    assert Written(acts[2..]) == [0x15] && acts[1..][1..] == acts[2..];
    assert Written(acts[1..]) == [0x41, 0x15];
  }

  lemma FirstJobItems()
    ensures Feed(EMPTY, [0x02, 0x00, 0x41, 0x15]).items == [Command(SpeedCommand(Pot)), Data(0x41), Command([0x15])]
  {
    hide Feed;
    var items := [Command(SpeedCommand(Pot)), Data(0x41), Command([0x15])];
    ParseInvertsFlatten(items);
    assert Flatten(items[2..]) == [0x15] && items[1..][1..] == items[2..];
    assert Flatten(items[1..]) == [0x41, 0x15];
    assert Flatten(items) == [0x02, 0x00, 0x41, 0x15];
  }

  lemma FirstJobOnTheBench(w1: Bench, w2: Bench)
    requires w1 == StepBench(IDLE, Fresh().bench, Request0(Registering(7, false)))
    requires w2 == StepBench(ONE_CLIENT, w1, Request0(Enqueueing(7, [0x41], None, true)))
    ensures 0x03 !in w2.keyer.registers && !w2.astray
  {
    Registered(IDLE, 7, false);
    FirstJob(ONE_CLIENT, 7, [0x41], 0);
    FreshBench();
    FirstJobIsHeard(Initial());
    hide Step;
    var none: seq<Action> := [];
    assert Hear(Fresh().bench.keyer, none) == Fresh().bench.keyer;
  }

  // A client stores a register command while its stream job plays, and sends another piece. The
  // piece is keyed although the keyer does not hold the client's profile: no emergency stop, no
  // maintenance, only proper bytes.
  lemma APieceIsKeyedUnderAnOldProfile() returns (es: seq<Event>, w: World)
    ensures Reached(es, w, ProperBytes) && InSession(w.actor) && !w.bench.astray
    ensures var e := Request0(Enqueueing(7, [0x42], None, true));
            Enabled(w.actor, e) && ProperBytes(w.actor, e) && Appends(w.actor, e)
            && var s := Step(w.actor, e);
               s.actions == [Write([0x42], Keying(1, 7))]
               && !KeyedUnder(w.bench.keyer.registers, s.actor.core.clients, s.actions)
  {
    OneLetterIsKeying(0x41);
    OneLetterIsKeying(0x42);
    WeightingIsConfigurable();
    ReconfiguringSteps();
    hide Reached, Step, KeyingBytes, Configurable, Appends, StepBench, KeyedUnder, Holds;
    es, w := OneJobPlays(ProperBytes);
    var w1: World :| w1.bench == StepBench(IDLE, Fresh().bench, Request0(Registering(7, false)))
                     && w.bench == StepBench(ONE_CLIENT, w1.bench, Request0(Enqueueing(7, [0x41], None, true)));
    FirstJobOnTheBench(w1.bench, w.bench);
    var before := w.bench;
    w := Then(es, w, ProperBytes, Request0(Configuring(7, WEIGHTING)));
    es := es + [Request0(Configuring(7, WEIGHTING))];
    QuietOnTheBench(ONE_JOB, before, Request0(Configuring(7, WEIGHTING)));
    NotKeyedUnder(w.bench.keyer.registers);
  }

  lemma NotKeyedUnder(r: Registers)
    requires 0x03 !in r
    ensures !KeyedUnder(r, RECONFIGURED.core.clients, [Write([0x42], Keying(1, 7))])
  {
    assert !Holds(r, map[0x03 := WEIGHTING]);
  }

  lemma QuietOnTheBench(a: Actor, b: Bench, e: Event)
    requires Enabled(a, e) && e.Serve? && !e.request.EmergencyStopping? && Step(a, e).actions == []
    ensures StepBench(a, b, e).keyer == b.keyer && StepBench(a, b, e).astray == b.astray
  {
    hide Step;
    var none: seq<Action> := [];
    assert Hear(b.keyer, none) == b.keyer;
  }

  // ---- An emergency stop in maintenance ----

  const STORED: Actor :=
    PRIMARY_IDLE.(core := PRIMARY_IDLE.core.(clients := map[1 := Client(Pot, true, map[0x03 := WEIGHTING])],
                                             cached := Some(1)))

  // Load Defaults, cut off by one byte: the keyer waits for fourteen more.
  const DEFAULTS: bytes := [0x00, 0x0f, 0x01]
  const INSIDE_DEFAULTS := ParserState([0x0f, 0x01], Some(16))
  const SAFE_STATE: seq<Action> := [Write([0x0a, 0x0b, 0x00], EmergencyOff)] + [Write(SpeedCommand(Pot), SelectSpeed)]

  lemma StoringStep(a: Actor)
    requires a == PRIMARY_IDLE || a == PRIMARY_IDLE.(core := PRIMARY_IDLE.core.(cached := Some(1)))
    ensures var s := Step(a, Request0(Configuring(1, WEIGHTING)));
            s.actor == STORED && s.actions == [Write(WEIGHTING, Configure(1))]
  {
    assert a.core.clients[1 := Client(Pot, true, map[][0x03 := WEIGHTING])] == STORED.core.clients;
  }

  lemma EmergencyStep(a: Actor, cached: Option<ClientId>)
    requires a.up && !a.stopped && !a.reopenPending && a.lease == FREE && a.core.active.None? && a.core.queue == []
    requires !a.core.status.busy && !a.core.status.breakIn && !a.core.status.keyDown
    requires 1 in a.core.clients && a.core.clients[1].desired == Pot && forall y :: IsPrimary(a.core, y) <==> y == 1
    requires a.core.cached == Some(1) || a.core.clients[1].profile == map[]
    ensures var s := Step(a, Request0(EmergencyStopping));
            s.actor == a.(core := a.core.(cached := Some(1)), maintenance := None) && s.actions == SAFE_STATE
  {
    OnePrimary(a.core, 1);
    assert a.core.(active := None, queue := []) == a.core;
    assert ProfileWrites(map[]) == [];
    assert Restore(a.core).actions == [Write(SpeedCommand(Pot), SelectSpeed)];
  }

  lemma WeightingIsHeard(r: Registers)
    ensures Hear(Keyer(r, EMPTY), [Write(WEIGHTING, Configure(1))]) == Keyer(r[0x03 := WEIGHTING], EMPTY)
  {
    WeightingIsConfigurable();
    CommandsAreComplete(WEIGHTING);
    WriteInstalls(r, 0x03, WEIGHTING);
    var acts := [Write(WEIGHTING, Configure(1))];
    HearAtBoundary(r, acts);
    var none: seq<Action> := [];
    assert acts[1..] == none && After(r, acts) == After(AfterWrite(r, WEIGHTING), none);
  }

  // Entering maintenance with Load Defaults overwrites register 0x03 and leaves the keyer waiting.
  lemma MaintenanceIsHeard(r: Registers)
    ensures var k := Hear(Keyer(r, EMPTY), [Write(MAINTENANCE_OPENING, HostControl)] + [Write(DEFAULTS, HostControl)]);
            k.parser == INSIDE_DEFAULTS && 0x03 in k.registers && k.registers[0x03] == [0x03, 0x00]
  {
    var acts := [Write(MAINTENANCE_OPENING, HostControl)] + [Write(DEFAULTS, HostControl)];
    var none: seq<Action> := [];
    HearsOneStream(Keyer(r, EMPTY), acts);
    assert acts[1..] == [Write(DEFAULTS, HostControl)] && acts[1..][1..] == none;
    assert Written(acts[1..]) == DEFAULTS + Written(none);
    assert Written(acts) == MAINTENANCE_OPENING + DEFAULTS;
    MaintenanceOpensInsideACommand(DEFAULTS);
    InsideLoadDefaults();
    var items := [Command([0x0a]), Command([0x0b, 0x00]), Command([0x03, 0x00])];
    assert items + [] == items;
    hide Feed, MAINTENANCE_OPENING;
    ThreeItems(r);
  }

  lemma InsideLoadDefaults()
    ensures Feed(EMPTY, DEFAULTS[1..]) == Parsed(INSIDE_DEFAULTS, [])
  {
    var b: bytes := [0x0f, 0x01];
    assert DEFAULTS[1..] == b && b[1..] == [0x01] && [0x0f] + [0x01] == b;
    assert PushByte(EMPTY, 0x0f) == Pushed(ParserState([0x0f], Some(16)), None);
    assert PushByte(ParserState([0x0f], Some(16)), 0x01) == Pushed(INSIDE_DEFAULTS, None);
    var none: bytes := [];
    assert b[1..][1..] == none && Feed(INSIDE_DEFAULTS, none) == Parsed(INSIDE_DEFAULTS, []);
    assert Feed(ParserState([0x0f], Some(16)), b[1..]) == Parsed(INSIDE_DEFAULTS, []);
  }

  lemma ThreeItems(r: Registers)
    ensures var r' := ApplyItems(r, [Command([0x0a]), Command([0x0b, 0x00]), Command([0x03, 0x00])]);
            0x03 in r' && r'[0x03] == [0x03, 0x00]
  {
    var items := [Command([0x0a]), Command([0x0b, 0x00]), Command([0x03, 0x00])];
    assert items == [Command([0x0a]), Command([0x0b, 0x00])] + [Command([0x03, 0x00])];
    ItemsAppend(r, [Command([0x0a]), Command([0x0b, 0x00])], [Command([0x03, 0x00])]);
    var r1 := ApplyItems(r, [Command([0x0a]), Command([0x0b, 0x00])]);
    assert [Command([0x03, 0x00])][1..] == [];
    assert ApplyItems(r1, [Command([0x03, 0x00])]) == ApplyItems(ApplyItem(r1, Command([0x03, 0x00])), []);
  }

  // The keyer takes whatever follows as defaults.
  lemma TakenAsDefaults(r: Registers, p: ParserState, acts: seq<Action>)
    requires |p.command| >= 2 && p.expectedLen == Some(16) && |p.command| + |Written(acts)| < 16
    ensures Hear(Keyer(r, p), acts) == Keyer(r, ParserState(p.command + Written(acts), Some(16)))
  {
    HearsOneStream(Keyer(r, p), acts);
    StaysInside(p, Written(acts), 16);
  }

  lemma SafeStateBytes()
    ensures Written(SAFE_STATE) == [0x0a, 0x0b, 0x00, 0x02, 0x00]
    ensures Written([Write(WEIGHTING, Configure(1))]) == WEIGHTING
  {
    var none: seq<Action> := [];
    assert SAFE_STATE[1..] == [Write(SpeedCommand(Pot), SelectSpeed)] && SAFE_STATE[1..][1..] == none;
    assert Written(SAFE_STATE[1..]) == SpeedCommand(Pot) + Written(none);
    var one := [Write(WEIGHTING, Configure(1))];
    assert one[1..] == none && Written(one) == WEIGHTING + Written(none);
  }

  lemma EnteringOnTheBench(a: Actor, b: Bench, r: Registers)
    requires a == PRIMARY_IDLE || a == STORED
    requires b.keyer == Keyer(r, EMPTY)
    ensures var k := StepBench(a, b, Request0(MaintenanceCommanding(1, DEFAULTS))).keyer;
            k.parser == INSIDE_DEFAULTS && 0x03 in k.registers && k.registers[0x03] == [0x03, 0x00]
  {
    hide Step, Hear;
    MaintenanceStep(a, 1, DEFAULTS);
    MaintenanceIsHeard(r);
  }

  lemma StoppingOnTheBench(a: Actor, b: Bench)
    requires a == PRIMARY_IDLE || a == STORED
    requires b.keyer.parser == INSIDE_DEFAULTS
    ensures var b' := StepBench(a.(maintenance := Some(1)), b, Request0(EmergencyStopping));
            b'.keyer == Keyer(b.keyer.registers, ParserState([0x0f, 0x01, 0x0a, 0x0b, 0x00, 0x02, 0x00], Some(16)))
            && b'.astray
  {
    hide Step, Hear, Written;
    EmergencyStep(a.(maintenance := Some(1)), a.core.cached);
    SafeStateBytes();
    TakenAsDefaults(b.keyer.registers, b.keyer.parser, SAFE_STATE);
    assert INSIDE_DEFAULTS.command + [0x0a, 0x0b, 0x00, 0x02, 0x00] == [0x0f, 0x01, 0x0a, 0x0b, 0x00, 0x02, 0x00];
  }

  // Maintenance and an emergency stop, from a state in session.
  lemma CutMaintenance(done: seq<Event>, w: World, a: Actor, r: Registers) returns (es: seq<Event>, stopped: World)
    requires Reached(done, w, ProperBytes) && w.actor == a && w.bench.keyer == Keyer(r, EMPTY)
    requires a == PRIMARY_IDLE || a == STORED
    ensures Reached(es, stopped, ProperBytes) && stopped.actor == a.(core := a.core.(cached := Some(1)))
    ensures var b := stopped.bench;
            b.keyer.parser == ParserState([0x0f, 0x01, 0x0a, 0x0b, 0x00, 0x02, 0x00], Some(16))
            && 0x03 in b.keyer.registers && b.keyer.registers[0x03] == [0x03, 0x00] && b.astray
  {
    hide Step, Reached, StepBench;
    MaintenanceStep(a, 1, DEFAULTS);
    EmergencyStep(a.(maintenance := Some(1)), a.core.cached);
    EnteringOnTheBench(a, w.bench, r);
    var held := Then(done, w, ProperBytes, Request0(MaintenanceCommanding(1, DEFAULTS)));
    StoppingOnTheBench(a, held.bench);
    es := done + [Request0(MaintenanceCommanding(1, DEFAULTS))];
    stopped := Then(es, held, ProperBytes, Request0(EmergencyStopping));
    es := es + [Request0(EmergencyStopping)];
  }

  lemma OnePrimaryRegisters() returns (es: seq<Event>, w: World)
    ensures Reached(es, w, ProperBytes) && w.actor == PRIMARY_IDLE && w.bench.keyer == Keyer(Initial(), EMPTY)
  {
    hide Step, Reached, StepBench;
    Registered(IDLE, 1, true);
    FreshBench();
    Begin(ProperBytes);
    es := [Request0(Registering(1, true))];
    w := Then([], Fresh(), ProperBytes, es[0]);
    assert [] + es == es;
    QuietOnTheBench(IDLE, Fresh().bench, es[0]);
  }

  // A stored profile, a maintenance command, an emergency stop: the session goes on outside
  // maintenance, and the broker believes in a profile that the keyer does not hold.
  lemma EmergencyLeavesAStaleCache() returns (es: seq<Event>, w: World)
    ensures Reached(es, w, ProperBytes) && InSession(w.actor) && w.bench.astray
    ensures !Agreement(w.actor.core, w.bench.keyer.registers)
  {
    hide Step, Reached, Configurable, StepBench;
    WeightingIsConfigurable();
    StoringStep(PRIMARY_IDLE);
    es, w := OnePrimaryRegisters();
    StoringOnTheBench(w.bench, Initial());
    w := Then(es, w, ProperBytes, Request0(Configuring(1, WEIGHTING)));
    es, w := CutMaintenance(es + [Request0(Configuring(1, WEIGHTING))], w, STORED, Initial()[0x03 := WEIGHTING]);
  }

  lemma StoringOnTheBench(b: Bench, r: Registers)
    requires b.keyer == Keyer(r, EMPTY)
    ensures StepBench(PRIMARY_IDLE, b, Request0(Configuring(1, WEIGHTING))).keyer == Keyer(r[0x03 := WEIGHTING], EMPTY)
  {
    StoringStep(PRIMARY_IDLE);
    WeightingIsHeard(r);
    hide Step, Hear;
  }

  // Even when nothing is stored at the emergency stop, so that the cache cannot be wrong about it,
  // the keyer takes the next stored command as defaults: only reopening the host session helps.
  lemma AnEmptyProfileIsNotEnough() returns (es: seq<Event>, stopped: World, w: World)
    ensures Reached(es, stopped, ProperBytes) && InSession(stopped.actor) && stopped.bench.astray
    ensures var c := stopped.actor.core; c.cached == Some(1) && 1 in c.clients && c.clients[1].profile == map[]
    ensures Reached(es + [Request0(Configuring(1, WEIGHTING))], w, ProperBytes) && InSession(w.actor)
    ensures !Agreement(w.actor.core, w.bench.keyer.registers)
  {
    hide Step, Reached, Configurable, StepBench;
    var calm := PRIMARY_IDLE.(core := PRIMARY_IDLE.core.(cached := Some(1)));
    WeightingIsConfigurable();
    StoringStep(calm);
    es, w := OnePrimaryRegisters();
    es, stopped := CutMaintenance(es, w, PRIMARY_IDLE, Initial());
    w := Then(es, stopped, ProperBytes, Request0(Configuring(1, WEIGHTING)));
    SwallowedOnTheBench(calm, stopped.bench);
  }

  lemma SwallowedOnTheBench(a: Actor, b: Bench)
    requires a == PRIMARY_IDLE.(core := PRIMARY_IDLE.core.(cached := Some(1)))
    requires b.keyer.parser == ParserState([0x0f, 0x01, 0x0a, 0x0b, 0x00, 0x02, 0x00], Some(16))
    ensures StepBench(a, b, Request0(Configuring(1, WEIGHTING))).keyer.registers == b.keyer.registers
  {
    StoringStep(a);
    SafeStateBytes();
    hide Step;
    TakenAsDefaults(b.keyer.registers, b.keyer.parser, [Write(WEIGHTING, Configure(1))]);
    hide Hear, Written;
  }

  // ---- A reopen inside a command ----

  const POT: byte := 0x85
  const REOPENING: Actor := STORED.(reopenPending := true)
  const REPLAYED: seq<Action> := [Write(WEIGHTING, ProfileReplay), Write(SpeedCommand(Pot), SelectSpeed)]

  lemma ReleasingStep()
    ensures var s := Step(STORED.(maintenance := Some(1)), Request0(ReleasingMaintenance(1)));
            s.actor == REOPENING && s.actions == [Write(HOST_OPEN, HostControl)]
  {
  }

  lemma StoredIsReplayed()
    ensures Restore(Connect(STORED.core)) == Outcome(STORED.core, REPLAYED)
  {
    var c := Connect(STORED.core);
    OnePrimary(c, 1);
    var p: Profile := map[0x03 := WEIGHTING];
    AscendingProperties(p.Keys);
    IncreasingIsAscending([0x03], p.Keys);
    assert Ascending(p.Keys) == [0x03];
    assert [0x03][1..] == [] && Replay([0x03], p) == [Write(WEIGHTING, ProfileReplay)] + Replay([], p);
    assert REPLAYED == [Write(WEIGHTING, ProfileReplay)] + [Write(SpeedCommand(Pot), SelectSpeed)];
  }

  lemma AnswerStep(found: Registers)
    ensures Step(REOPENING, Receive(POT, 0, false, found)).actor == STORED
  {
    StoredIsReplayed();
    hide Restore;
  }

  // Host Open, the opening bytes and the replay: thirteen bytes, all taken as defaults.
  lemma ReopenIsSwallowed(b: Bench)
    requires b.keyer.parser == INSIDE_DEFAULTS
    ensures var b1 := StepBench(STORED.(maintenance := Some(1)), b, Request0(ReleasingMaintenance(1)));
            b1.keyer == Keyer(b.keyer.registers, ParserState([0x0f, 0x01, 0x00, 0x02], Some(16)))
  {
    ReleasingStep();
    var acts := [Write(HOST_OPEN, HostControl)];
    var none: seq<Action> := [];
    assert acts[1..] == none && Written(acts) == HOST_OPEN + Written(none);
    hide Step, Hear, Written;
    TakenAsDefaults(b.keyer.registers, b.keyer.parser, acts);
    assert INSIDE_DEFAULTS.command + HOST_OPEN == [0x0f, 0x01, 0x00, 0x02];
  }

  lemma ReplayedBytes()
    ensures Written(REPLAYED) == [0x03, 0x32, 0x02, 0x00]
  {
    var none: seq<Action> := [];
    assert REPLAYED[1..] == [Write(SpeedCommand(Pot), SelectSpeed)] && REPLAYED[1..][1..] == none;
    assert Written(REPLAYED[1..]) == SpeedCommand(Pot) + Written(none);
  }

  lemma AnswerIsSwallowed(b: Bench)
    requires b.keyer.parser == ParserState([0x0f, 0x01, 0x00, 0x02], Some(16))
    ensures var b1 := StepBench(REOPENING, b, Receive(POT, 0, false, b.keyer.registers));
            b1.keyer.registers == b.keyer.registers && b1.keyer.parser != EMPTY
  {
    hide Feed, Restore, Hear, Written, Step;
    StoredIsReplayed();
    StaysInside(b.keyer.parser, HOST_INIT, 16);
    var p := ParserState(b.keyer.parser.command + HOST_INIT, Some(16));
    var none: seq<ClientItem> := [];
    assert ApplyItems(b.keyer.registers, none) == b.keyer.registers;
    assert HearBytes(b.keyer, HOST_INIT) == Keyer(b.keyer.registers, p);
    ReplayedBytes();
    TakenAsDefaults(b.keyer.registers, p, REPLAYED);
  }

  ghost predicate NoStop(es: seq<Event>) {
    forall e | e in es :: e.Serve? && !e.request.EmergencyStopping?
  }

  lemma StoredRun() returns (es: seq<Event>, w: World)
    ensures Reached(es, w, ProperBytes) && NoStop(es)
    ensures w.actor == STORED && w.bench.keyer == Keyer(Initial()[0x03 := WEIGHTING], EMPTY)
  {
    hide Step, Reached, Configurable, StepBench;
    WeightingIsConfigurable();
    Registered(IDLE, 1, true);
    StoringStep(PRIMARY_IDLE);
    FreshBench();
    Begin(ProperBytes);
    var e0 := Request0(Registering(1, true));
    var e1 := Request0(Configuring(1, WEIGHTING));
    var w0 := Then([], Fresh(), ProperBytes, e0);
    QuietOnTheBench(IDLE, Fresh().bench, e0);
    StoringOnTheBench(w0.bench, Initial());
    w := Then([] + [e0], w0, ProperBytes, e1);
    es := [] + [e0] + [e1];
  }

  lemma ReleasedRun() returns (es: seq<Event>, w: World)
    ensures Reached(es, w, ProperBytes) && NoStop(es) && w.actor == REOPENING
    ensures var k := w.bench.keyer;
            k.parser == ParserState([0x0f, 0x01, 0x00, 0x02], Some(16))
            && 0x03 in k.registers && k.registers[0x03] == [0x03, 0x00]
  {
    hide Step, Reached, StepBench;
    MaintenanceStep(STORED, 1, DEFAULTS);
    ReleasingStep();
    es, w := StoredRun();
    EnteringOnTheBench(STORED, w.bench, Initial()[0x03 := WEIGHTING]);
    w := Then(es, w, ProperBytes, Request0(MaintenanceCommanding(1, DEFAULTS)));
    es := es + [Request0(MaintenanceCommanding(1, DEFAULTS))];
    ReopenIsSwallowed(w.bench);
    w := Then(es, w, ProperBytes, Request0(ReleasingMaintenance(1)));
    es := es + [Request0(ReleasingMaintenance(1))];
  }

  // A maintenance command whose first byte the opening takes away, the release of maintenance, and a byte
  // of the speed pot that counts as the answer to Host Open: the broker believes in a profile that
  // the keyer does not hold. No emergency stop, nothing but proper bytes.
  lemma ReopenLeavesAStaleCache() returns (es: seq<Event>, released: World, w: World)
    ensures Reached(es, released, ProperBytes) && NoStop(es)
    ensures Reached(es + [Receive(POT, 0, false, released.bench.keyer.registers)], w, ProperBytes)
    ensures InSession(w.actor) && w.actor.core.cached == Some(1) && !Agreement(w.actor.core, w.bench.keyer.registers)
    ensures w.bench.keyer.registers == released.bench.keyer.registers && w.bench.keyer.parser != EMPTY
  {
    hide Step, Reached, StepBench, NoStop;
    es, released := ReleasedRun();
    var found := released.bench.keyer.registers;
    AnswerStep(found);
    AnswerIsSwallowed(released.bench);
    w := Then(es, released, ProperBytes, Receive(POT, 0, false, found));
    assert !Holds(found, map[0x03 := WEIGHTING]);
  }

  // ---- A reopen in the middle of the next maintenance ----

  const NEXT_HELD: Actor := TWO_CLIENTS.(maintenance := Some(2), reopenPending := true)

  lemma NextHolderSteps()
    ensures var s := Step(TWO_CLIENTS.(reopenPending := true), Request0(MaintenanceCommanding(2, [0x00, 0x0c])));
            s.actor == NEXT_HELD && s.reply == Done
    ensures forall found :: var s := Step(NEXT_HELD, Receive(POT, 0, false, found));
              s.actor.maintenance == Some(2) && s.actions != [] && s.actions[0] == Write(HOST_INIT, HostControl)
  {
    hide Restore;
  }

  // A client maintains the keyer and releases it, at once.
  lemma HeldAndReleased(a: Actor, es: seq<Event>, w: World) returns (es': seq<Event>, w': World)
    requires Reached(es, w, ProperBytes) && w.actor == a
    requires a.up && !a.stopped && a.maintenance.None? && !a.reopenPending && a.lease == FREE
    requires a.core.connected && a.core.active.None? && a.core.queue == []
    ensures Reached(es', w', ProperBytes) && w'.actor == a.(reopenPending := true)
  {
    hide Reached, StepBench;
    MaintenanceStep(a, 1, [0x00, 0x0c]);
    assert Step(a.(maintenance := Some(1)), Request0(ReleasingMaintenance(1))).actor == a.(reopenPending := true);
    hide Step;
    w' := Then(es, w, ProperBytes, Request0(MaintenanceCommanding(1, [0x00, 0x0c])));
    es' := es + [Request0(MaintenanceCommanding(1, [0x00, 0x0c]))];
    w' := Then(es', w', ProperBytes, Request0(ReleasingMaintenance(1)));
    es' := es' + [Request0(ReleasingMaintenance(1))];
  }

  // A client is granted maintenance while the host session is still being reopened after another
  // client's; the opening bytes and the foreground profile are then written into its maintenance.
  lemma ReopenWritesIntoMaintenance() returns (es: seq<Event>, w: World)
    ensures Reached(es, w, ProperBytes) && w.actor.maintenance == Some(2) && w.actor.reopenPending
    ensures forall found :: Enabled(w.actor, Receive(POT, 0, false, found))
              && var s := Step(w.actor, Receive(POT, 0, false, found));
                 s.actor.maintenance == Some(2) && s.actions != [] && s.actions[0] == Write(HOST_INIT, HostControl)
  {
    hide Step, Reached;
    NextHolderSteps();
    es, w := TwoClientsRun(ProperBytes);
    es, w := HeldAndReleased(TWO_CLIENTS, es, w);
    w := Then(es, w, ProperBytes, Request0(MaintenanceCommanding(2, [0x00, 0x0c])));
    es := es + [Request0(MaintenanceCommanding(2, [0x00, 0x0c]))];
  }
}
