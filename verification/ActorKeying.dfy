// The keyer over whole runs of the actor: what every step writes to it, what it holds when it keys,
// and where its byte stream stands between commands.

module ActorKeying {
  import opened Common
  import opened WinkeyerProtocol
  import opened BrokerModel
  import opened BrokerLedger
  import opened BrokerDevice
  import opened BrokerKeying
  import opened ActorModel
  import opened ActorSafety
  import opened ActorDevice

  // ---- What each step plays to the device ----

  // The request extends the active job.
  predicate Appends(a: Actor, e: Event) {
    e.Serve? && e.request.Enqueueing? && Handle(a, e.request, e.now).reply.Submitted?
    && AppendsToActive(a.core, e.request.client, e.request.stream)
  }

  // In session, outside maintenance.
  predicate InSession(a: Actor) {
    a.up && a.maintenance.None? && !a.reopenPending
  }

  lemma HandleEnqueuePlays(a: Actor, r: Registers, req: Request, now: nat)
    requires Safe(a) && Shape(a.core) && req.Enqueueing? && KeyingBytes(req.payload)
    requires HandleEnqueue(a, req, now).reply.Submitted? ==> !AppendsToActive(a.core, req.client, req.stream)
    ensures var h := HandleEnqueue(a, req, now); Plays(a.core, r, h.actor.core, h.actions)
  {
    hide Shape, Plays, Enqueue, KeyingBytes, AppendsToActive, Sized;
    var e := Enqueue(a.core, req.client, req.payload, req.jobSpeed, req.stream, now);
    QuietPlays(a.core, r, a.core, []);
    if HandleEnqueue(a, req, now).reply.Submitted? {
      EnqueuePlays(a.core, r, req.client, req.payload, req.jobSpeed, req.stream, now);
    }
  }

  lemma HandlePlays(a: Actor, r: Registers, e: Event)
    requires Safe(a) && Shape(a.core) && InSession(a) && e.Serve? && ProperRequest(e.request)
    requires !Appends(a, e) && !e.request.MaintenanceCommanding?
    ensures var h := Handle(a, e.request, e.now); Plays(a.core, r, h.actor.core, h.actions)
  {
    hide Shape, Plays, HandleEnqueue, KeyingBytes, Configurable, OwnerBytes, Sized;
    QuietPlays(a.core, r, a.core, []);
    match e.request
    case Registering(x, primary) => QuietPlays(a.core, r, Register(a.core, x, primary).core, []);
    case Unregistering(x) => UnregisterPlays(a.core, r, x, e.now);
    case Speeding(x, speed) => SetSpeedPlays(a.core, r, x, speed);
    case Enqueueing(_, _, _, _) => HandleEnqueuePlays(a, r, e.request, e.now);
    case Cancelling(x, includeActive) => CancelClientPlays(a.core, r, x, includeActive, e.now);
    case CancellingJob(x, id) => CancelJobPlays(a.core, r, x, id, e.now);
    case Configuring(x, command) =>
      if SetCommand(a.core, x, command).Some? {
        SetCommandPlays(a.core, r, x, command);
      }
    case OwnerCommanding(x, command) =>
      if CommandByOwner(a.core, x, command).Some? {
        OwnerCommandPlays(a.core, r, x, command);
      }
    case ReleasingMaintenance(x) =>
    case _ => ShapeIsPart(a.core); EmergencyStopPlays(a.core, r);
  }

  lemma ShapeIsPart(c: Core)
    requires Shape(c)
    ensures Part(c)
  {
  }

  lemma WatchdogPlays(c: Core, r: Registers, now: nat)
    requires Shape(c)
    ensures var w := Watchdog(c, now);
            Plays(c, r, w.core, w.actions) && Agrees(c, r, w.core, w.actions) && w.core.clients == c.clients
            && (w == Outcome(c, []) || w.core.active.None?)
  {
    hide Part, Plays, EmergencyStop;
    ShapeIsPart(c);
    QuietPlays(c, r, c, []);
    EmergencyStopPlays(c, r);
    EmergencyStopAgrees(c, r);
    assert After(r, []) == r;
  }

  lemma ConfirmIdlePlays(c: Core, r: Registers, now: nat, settle: nat)
    requires Shape(c)
    ensures var i := ConfirmIdle(c, now, settle);
            Plays(c, r, i.core, i.actions) && i.core.clients == c.clients && (c.active.None? ==> i == Outcome(c, []))
  {
    hide Part, Plays;
    QuietPlays(c, r, c, []);
    CompleteActivePlays(c, r, now);
  }

  // A status poll behind anything.
  lemma PollPlays(c: Core, r: Registers, c': Core, acts: seq<Action>, poll: bool)
    requires Plays(c, r, c', acts)
    ensures Plays(c, r, c', acts + (if poll then [Write([0x15], StatusPoll)] else []))
  {
    var polls := if poll then [Write([0x15], StatusPoll)] else [];
    ControlBytesAreHarmless(Pot);
    FixedBytesAreComplete(Pot);
    hide HarmlessBytes, Complete;
    KeyedAppend(r, c'.clients, acts, polls);
    NothingKeyed(After(r, acts), c'.clients, polls);
    hide KeyedUnder, Agreement;
    assert forall a | a in acts + polls :: a in acts || a in polls;
    assert forall a | a in acts :: a in acts + polls;
  }

  // The watchdog, the idle settle and the poll of one tick.
  function Ticked(a: Actor, now: nat): Outcome {
    var w := Watchdog(a.core, now);
    var i := ConfirmIdle(w.core, now, SHORT_JOB_SETTLE);
    var poll := SnapshotBusy(i.core) && Elapsed(now, a.lastPoll) >= STATUS_POLL_INTERVAL;
    Outcome(i.core, w.actions + i.actions + (if poll then [Write([0x15], StatusPoll)] else []))
  }

  lemma TickPlays(a: Actor, r: Registers, now: nat)
    requires Shape(a.core)
    ensures Plays(a.core, r, Ticked(a, now).core, Ticked(a, now).actions)
    ensures Ticked(a, now).core.clients == a.core.clients
  {
    var c := a.core;
    var w := Watchdog(c, now);
    var i := ConfirmIdle(w.core, now, SHORT_JOB_SETTLE);
    WatchdogPlays(c, r, now);
    ConfirmIdlePlays(w.core, r, now, SHORT_JOB_SETTLE);
    hide Shape, Plays, Watchdog, ConfirmIdle;
    assert [] + i.actions == i.actions;
    assert w.actions + [] == w.actions;
    PollPlays(c, r, i.core, w.actions + i.actions,
              SnapshotBusy(i.core) && Elapsed(now, a.lastPoll) >= STATUS_POLL_INTERVAL);
  }

  // What a step of a session in order plays, before a failing transport ends it.
  lemma SessionPlays(a: Actor, r: Registers, e: Event, core: Core, acts: seq<Action>)
    requires Safe(a) && Shape(a.core) && InSession(a) && Enabled(a, e) && ProperBytes(a, e)
    requires !Appends(a, e) && !(e.Serve? && e.request.MaintenanceCommanding?)
    requires Performed(a, e) == Outcome(core, acts)
    ensures Plays(a.core, r, core, acts)
  {
    hide Shape, Plays, Handle, Ticked, ObserveStatus, Appends, ProperRequest;
    QuietPlays(a.core, r, a.core, []);
    match e
    case Serve(_, _, _) => HandlePlays(a, r, e);
    case Receive(b, now, _, _) =>
      if ClassifyByte(b).Status? {
        ObserveStatusPlays(a.core, r, ClassifyByte(b).status, now);
      }
    case Tick(now, _) => TickPlays(a, r, now);
    case _ =>
  }

  // The broker state and the actions of a step, before a failing transport ends the session.
  function Performed(a: Actor, e: Event): Outcome {
    match e
    case Serve(r, now, _) => Outcome(Handle(a, r, now).actor.core, Handle(a, r, now).actions)
    case Receive(b, now, _, _) =>
      if ClassifyByte(b).Status? then ObserveStatus(a.core, ClassifyByte(b).status, now) else Outcome(a.core, [])
    case Tick(now, _) => Ticked(a, now)
    case _ => Outcome(a.core, [])
  }

  // A step in session returns what it performed; if the session is lost, cancellations follow.
  lemma StepPerforms(a: Actor, e: Event)
    requires InSession(a) && Enabled(a, e)
    ensures var s := Step(a, e); var o := Performed(a, e);
            s.actor.core.clients == o.core.clients
            && (s.actor.up ==> s.actor.core == o.core && s.actions == o.actions)
            && (s.actions == o.actions || exists q :: s.actions == o.actions + q && CancelsOnly(q))
  {
    hide Handle, Watchdog, ConfirmIdle, ObserveStatus;
    var o := Performed(a, e);
    var q := ActiveCancellation(o.core) + Cancellations(o.core.queue);
    CancellationsAreNotWrites(o.core.queue);
    assert CancelsOnly(q);
    if e.ReadFault? {
      assert Step(a, e).actions == [] + q;
    }
  }

  ghost predicate CancelsOnly(q: seq<Action>) {
    forall a | a in q :: a.Canceled?
  }

  // Over one step in session that does not extend the active job: every keying write finds the
  // whole profile of its client; apart from maintenance, every write is complete.
  lemma StepKeysUnderProfiles(a: Actor, r: Registers, e: Event)
    requires Safe(a) && Shape(a.core) && InSession(a) && Agreement(a.core, r)
    requires Enabled(a, e) && ProperBytes(a, e) && !Appends(a, e)
    ensures var s := Step(a, e);
            KeyedUnder(r, s.actor.core.clients, s.actions)
            && (!(e.Serve? && e.request.MaintenanceCommanding?) ==> AllComplete(s.actions))
  {
    var s := Step(a, e);
    var o := Performed(a, e);
    StepPerforms(a, e);
    hide Shape, Performed, Step, Agreement, Appends, Safe;
    if e.Serve? && e.request.MaintenanceCommanding? {
      MaintenanceKeysNothing(a, e);
      NothingKeyed(r, s.actor.core.clients, s.actions);
    } else {
      SessionPlays(a, r, e, o.core, o.actions);
      if s.actions != o.actions {
        var q :| s.actions == o.actions + q && CancelsOnly(q);
        KeyedAppend(r, o.core.clients, o.actions, q);
        NothingKeyed(After(r, o.actions), o.core.clients, q);
        hide KeyedUnder, Complete;
        assert forall x | x in s.actions :: x in o.actions || x in q;
      }
    }
  }

  lemma MaintenanceKeysNothing(a: Actor, e: Event)
    requires InSession(a) && Enabled(a, e) && e.Serve? && e.request.MaintenanceCommanding?
    ensures NoKeying(Step(a, e).actions)
  {
    StepPerforms(a, e);
    var s := Step(a, e);
    var o := Performed(a, e);
    assert NoKeying(o.actions);
    hide Performed, Step;
    if s.actions != o.actions {
      var q :| s.actions == o.actions + q && CancelsOnly(q);
    }
  }

  // Outside the session, in maintenance and while the host session reopens, nothing is keyed.
  lemma NothingKeyedOutsideTheSession(a: Actor, e: Event)
    requires Safe(a) && Enabled(a, e) && !InSession(a) && Shape(a.core)
    ensures NoKeying(Step(a, e).actions)
  {
    hide Part;
    assert a.core.active.None? && a.core.queue == [];
    IdleKeysNothing(a, e);
  }

  lemma IdleRestoreKeysNothing(c: Core)
    requires Shape(c) && c.active.None?
    ensures NoKeying(Restore(c).actions) && NoKeying(Restore(Connect(c)).actions)
    ensures NoKeying(EmergencyStop(c).actions)
  {
    RestoreIsComplete(c);
    var c1 := Connect(c);
    assert Live(c1) == Live(c);
    assert forall x :: IsPrimary(c1, x) <==> IsPrimary(c, x);
    RestoreIsComplete(c1);
    CancellationsAreNotWrites(c.queue);
    assert c.(active := None, queue := []) == c;
    hide Restore, Part;
  }

  lemma IdleKeysNothing(a: Actor, e: Event)
    requires Safe(a) && Enabled(a, e) && !InSession(a) && Shape(a.core) && a.core.active.None? && a.core.queue == []
    ensures NoKeying(Step(a, e).actions)
  {
    hide Restore, EmergencyStop, Shape, Sized;
    IdleRestoreKeysNothing(a.core);
    ReconnectKeepsWork(a.core);
    match e
    case Serve(r, now, fails) =>
      IdleHandleKeysNothing(a, r, now);
      hide Handle;
    case Receive(_, _, _, _) =>
    case Tick(now, _) =>
    case _ =>
  }

  lemma IdleHandleKeysNothing(a: Actor, r: Request, now: nat)
    requires Safe(a) && !a.stopped && !InSession(a) && Shape(a.core) && a.core.active.None? && a.core.queue == []
    ensures var h := Handle(a, r, now);
            NoKeying(h.actions) && h.actor.core.active.None? && h.actor.core.queue == []
  {
    hide Restore, Shape, Sized, EmergencyStop;
    IdleRestoreKeysNothing(a.core);
    EmergencyStopWork(a.core);
    match r
    case Unregistering(x) =>
    case Cancelling(x, includeActive) =>
    case CancellingJob(x, id) =>
    case Configuring(x, command) =>
    case OwnerCommanding(x, command) =>
    case _ =>
  }

  // ---- The bench ----

  // An idle broker's emergency stop makes the cache right: it replays the foreground profile, or the
  // broker believes in no profile, or in one with nothing in it.
  predicate StopRestoresCache(c: Core) {
    (Foreground(c).Some? && Foreground(c) != c.cached)
    || c.cached.None? || (c.cached.value in c.clients && c.clients[c.cached.value].profile == map[])
  }

  lemma EmergencyReplays(c: Core, r: Registers)
    requires Part(c) && c.active.None? && c.queue == []
    requires Foreground(c).Some? && Foreground(c) != c.cached
    ensures Agreement(EmergencyStop(c).core, After(r, EmergencyStop(c).actions))
  {
    var fg := Foreground(c);
    ForegroundIsThePrimary(c);
    var p := c.clients[fg.value].profile;
    var lead := [Write([0x0a, 0x0b, 0x00], EmergencyOff)];
    var speed := [Write(SpeedCommand(c.clients[fg.value].desired), SelectSpeed)];
    assert EmergencyStop(c).actions == lead + ProfileWrites(p) + speed by {
      assert c.(active := None, queue := []) == c;
    }
    ControlBytesAreHarmless(c.clients[fg.value].desired);
    AfterAppend(r, lead + ProfileWrites(p), speed);
    AfterAppend(r, lead, ProfileWrites(p));
    ProfileWritesInstall(After(r, lead), p);
    HarmlessWritesKeep(After(r, lead + ProfileWrites(p)), speed, p);
  }

  lemma EmergencyRestores(c: Core, r: Registers)
    requires Part(c) && c.active.None? && c.queue == [] && StopRestoresCache(c)
    ensures Agreement(EmergencyStop(c).core, After(r, EmergencyStop(c).actions))
  {
    ForegroundIsThePrimary(c);
    if Foreground(c).Some? && Foreground(c) != c.cached {
      EmergencyReplays(c, r);
    } else {
      assert c.(active := None, queue := []) == c;
      assert EmergencyStop(c).core == c;
    }
  }

  // The emergency stop that cuts a maintenance period short finds the keyer between commands and
  // makes the cache right.
  predicate Recovers(a: Actor, k: Keyer, e: Event)
    requires Enabled(a, e)
  {
    CutsMaintenance(a, e) && Step(a, e).actor.up && k.parser == EMPTY && StopRestoresCache(a.core)
  }

  // What is written to every newly opened transport.
  const INITIALIZATION: seq<Action> := [Write(HOST_OPEN, HostControl), Write(HOST_INIT, HostControl)]

  // The keyer at the moment the broker starts restoring the foreground in a newly opened session.
  // Any byte counts as the answer to Host Open, so it goes on reading where it was: it may take the
  // opening bytes as parameters.
  function Opened(k: Keyer, e: Event): Keyer
    requires e.Receive? || e.Reconnect?
  {
    if e.Receive? then HearBytes(Keyer(e.found, k.parser), HOST_INIT) else Hear(e.device, INITIALIZATION)
  }

  // The keyer; whether it is known to follow the broker's writes since the host session opened;
  // whether it may have gone astray in this session, because the session was opened inside a
  // command, or because an emergency stop cut a maintenance period short without restoring the
  // cache; and the profile under which the latest job was opened.
  datatype Bench = Bench(keyer: Keyer, known: bool, astray: bool, jobProfile: Profile)

  ghost function StepBench(a: Actor, b: Bench, e: Event): Bench
    requires Enabled(a, e)
  {
    if OpensSession(a, e) then
      var k := Opened(b.keyer, e);
      Bench(Hear(k, Restore(Connect(a.core)).actions), k.parser == EMPTY && a.maintenance.None?, k.parser != EMPTY,
            b.jobProfile)
    else
      var s := Step(a, e);
      var reading := StepReading(a, Reading(b.keyer.registers, b.known, b.astray), e);
      var recovers := Recovers(a, b.keyer, e);
      Bench(Hear(b.keyer, s.actions), reading.known || recovers, reading.astray && !recovers,
            if !Appends(a, e) && !NoKeying(s.actions) then ActiveProfile(s.actor.core) else b.jobProfile)
  }

  function ActiveProfile(c: Core): Profile {
    if c.active.Some? && c.active.value.job.client in c.clients then c.clients[c.active.value.job.client].profile
    else map[]
  }

  ghost predicate BenchOk(a: Actor, b: Bench) {
    && ReadingOk(a, Reading(b.keyer.registers, b.known, b.astray))
    && (b.known ==>
          b.keyer.parser == EMPTY
          && (a.core.active.Some? ==> ProfileOk(b.jobProfile) && Holds(b.keyer.registers, b.jobProfile)))
  }

  lemma ConnectedKeepsPart(c: Core)
    requires Shape(c) && c.active.None?
    ensures Part(Connect(c))
  {
    var c1 := Connect(c);
    assert Live(c1) == Live(c);
    assert forall x :: IsPrimary(c1, x) <==> IsPrimary(c, x);
  }

  lemma OpeningActions(a: Actor, e: Event)
    requires Safe(a) && Enabled(a, e) && OpensSession(a, e)
    ensures var s := Step(a, e); var o := Restore(Connect(a.core));
            s.actor.core == o.core && a.core.active.None? && s.actor.up && !s.actor.reopenPending
            && s.actor.maintenance == a.maintenance
            && s.actions == (if e.Receive? then [Write(HOST_INIT, HostControl)] else []) + o.actions
  {
    hide Restore, Sized;
    assert [] + Restore(Connect(a.core)).actions == Restore(Connect(a.core)).actions;
  }

  // A session opened between commands: the whole foreground profile is installed.
  lemma OpeningIsHeard(c: Core, r: Registers)
    requires Shape(c) && c.active.None?
    ensures var o := Restore(Connect(c)); var k := Hear(Keyer(r, EMPTY), o.actions);
            k.parser == EMPTY && Shape(o.core) && Agreement(o.core, k.registers)
  {
    var acts := Restore(Connect(c)).actions;
    ReopenAgrees(c, r);
    ConnectedKeepsPart(c);
    RestoreIsComplete(Connect(c));
    hide Shape, Restore, Complete, Part, Hear, After, Connect, Agreement;
    HearAtBoundary(r, acts);
  }

  lemma CompleteAppend(a: bytes, b: bytes)
    requires Complete(a) && Complete(b)
    ensures Complete(a + b)
  {
    FeedAppend(EMPTY, a, b);
  }

  lemma HostInitIsComplete()
    ensures Complete(HOST_INIT)
  {
    hide Complete;
    FixedBytesAreComplete(Pot);
    CommandsAreComplete([0x07]);
    CompleteAppend([0x0a, 0x0b, 0x00], SpeedCommand(Pot));
    CompleteAppend([0x0a, 0x0b, 0x00] + SpeedCommand(Pot), [0x07]);
    CompleteAppend([0x0a, 0x0b, 0x00] + SpeedCommand(Pot) + [0x07], [0x15]);
    assert [0x0a, 0x0b, 0x00] + SpeedCommand(Pot) + [0x07] + [0x15] == HOST_INIT;
  }

  // A piece appended to the active job is one complete, harmless write.
  lemma AppendIsOneWrite(a: Actor, e: Event)
    requires Shape(a.core) && Enabled(a, e) && ProperBytes(a, e) && Appends(a, e) && InSession(a)
    ensures var s := Step(a, e); var j := a.core.active.value.job;
            var key := Write(e.request.payload, Keying(j.id, j.client));
            a.core.active.Some? && s.actions != [] && s.actions[0] == key && KeyingBytes(key.data)
            && s.actor.core.clients == a.core.clients
            && (s.actor.up ==> s.actions == [key] && s.actor.core.active.Some?)
            && j.client == e.request.client && e.request.stream
            && Enqueue(a.core, e.request.client, e.request.payload, e.request.jobSpeed, e.request.stream, e.now).Some?
  {
    hide Shape, KeyingBytes;
  }

  lemma AppendIsComplete(a: Actor, e: Event)
    requires Shape(a.core) && Enabled(a, e) && ProperBytes(a, e) && Appends(a, e) && InSession(a)
    ensures AllComplete(Step(a, e).actions)
  {
    AppendIsOneWrite(a, e);
    StepPerforms(a, e);
    var s := Step(a, e);
    var o := Performed(a, e);
    assert o.actions == [s.actions[0]];
    hide Performed, Step, Appends;
    assert Complete(e.request.payload);
    if s.actions != o.actions {
      var q :| s.actions == o.actions + q && CancelsOnly(q);
    }
  }

  lemma StepKeepsJobProfile(a: Actor, b: Bench, e: Event)
    requires Safe(a) && BenchOk(a, b) && Enabled(a, e) && ProperBytes(a, e) && b.known
    requires var s := Step(a, e); s.actor.up && s.actor.maintenance.None?
    requires var s := Step(a, e); Shape(s.actor.core) && Agreement(s.actor.core, After(b.keyer.registers, s.actions))
    ensures var s := Step(a, e); var b' := StepBench(a, b, e);
            AllComplete(s.actions)
            && (s.actor.core.active.Some? ==>
                  ProfileOk(b'.jobProfile) && Holds(After(b.keyer.registers, s.actions), b'.jobProfile))
  {
    var s := Step(a, e);
    var r := b.keyer.registers;
    if Appends(a, e) {
      AppendIsOneWrite(a, e);
      KeyingBytesAreHarmless(e.request.payload);
      hide Shape, Appends, Step, HarmlessBytes;
      OneAction(r, s.actions[0], b.jobProfile);
    } else if e.Serve? && e.request.MaintenanceCommanding? {
      RefusedMaintenance(a, e);
      hide Step, Shape, Appends;
    } else {
      StepPlays(a, r, e);
      hide Step, Appends, Performed;
      if NoKeying(s.actions) {
        if s.actor.core.active.Some? {
          hide Shape, HarmlessBytes;
          HarmlessWritesKeep(r, s.actions, b.jobProfile);
        }
      } else {
        assert s.actor.core.active.value.job in Live(s.actor.core);
      }
    }
  }

  lemma StepPlays(a: Actor, r: Registers, e: Event)
    requires Safe(a) && Shape(a.core) && InSession(a) && Enabled(a, e) && ProperBytes(a, e)
    requires !Appends(a, e) && !(e.Serve? && e.request.MaintenanceCommanding?) && Step(a, e).actor.up
    ensures var s := Step(a, e); Plays(a.core, r, s.actor.core, s.actions)
  {
    var o := Performed(a, e);
    StepPerforms(a, e);
    hide Performed, Step, Appends, Plays, Shape, Safe;
    SessionPlays(a, r, e, o.core, o.actions);
  }

  lemma RefusedMaintenance(a: Actor, e: Event)
    requires InSession(a) && Enabled(a, e) && e.Serve? && e.request.MaintenanceCommanding?
    requires var s := Step(a, e); s.actor.up && s.actor.maintenance.None?
    ensures Step(a, e).actions == [] && Step(a, e).actor.core == a.core
  {
  }

  lemma StopIsHeard(a: Actor, b: Bench, e: Event)
    requires Safe(a) && Shape(a.core) && Enabled(a, e) && Recovers(a, b.keyer, e)
    ensures var s := Step(a, e); var k := Hear(b.keyer, s.actions);
            k.parser == EMPTY && Agreement(s.actor.core, k.registers) && Shape(s.actor.core)
            && s.actor.up && s.actor.maintenance.None? && !s.actor.reopenPending && s.actor.core.active.None?
  {
    var r := b.keyer.registers;
    var o := EmergencyStop(a.core);
    StopPerforms(a, e);
    EmergencyRestores(a.core, r);
    EmergencyStopAgrees(a.core, r);
    EmergencyStopPlays(a.core, r);
    hide Shape, Complete, Step, Part, Hear, After, EmergencyStop, Agreement, Foreground;
    HearAtBoundary(r, o.actions);
  }

  lemma StopPerforms(a: Actor, e: Event)
    requires Safe(a) && Enabled(a, e) && CutsMaintenance(a, e) && Step(a, e).actor.up
    ensures var s := Step(a, e); var o := EmergencyStop(a.core);
            s.actor.core == o.core && s.actions == o.actions && s.actor.maintenance.None? && !s.actor.reopenPending
            && a.core.active.None? && a.core.queue == []
  {
    hide EmergencyStop;
  }

  lemma StepKeepsBench(a: Actor, b: Bench, e: Event)
    requires Safe(a) && BenchOk(a, b) && Enabled(a, e) && ProperBytes(a, e)
    ensures BenchOk(Step(a, e).actor, StepBench(a, b, e))
  {
    var reading := Reading(b.keyer.registers, b.known, b.astray);
    var s := Step(a, e);
    StepKeepsReading(a, reading, e);
    if OpensSession(a, e) {
      var k := Opened(b.keyer, e);
      OpeningActions(a, e);
      ReconnectKeepsWork(a.core);
      if k.parser == EMPTY {
        OpeningIsHeard(a.core, k.registers);
      }
    } else if Recovers(a, b.keyer, e) {
      StopIsHeard(a, b, e);
    } else if StepReading(a, reading, e).known {
      StepKeepsJobProfile(a, b, e);
      HearAtBoundary(b.keyer.registers, s.actions);
    }
    hide Step, Hear, After, Shape, Agreement, Holds, ProfileOk, AllComplete, Appends;
  }

  // ---- Entering maintenance ----

  const INSIDE_WEIGHTING := ParserState([0x03], Some(2))

  lemma OpeningParsed()
    ensures Feed(EMPTY, MAINTENANCE_OPENING) == Parsed(INSIDE_WEIGHTING, [Command([0x0a]), Command([0x0b, 0x00])])
  {
    EmergencyBytes();
    FeedAppend(EMPTY, [0x0a, 0x0b, 0x00], [0x03]);
    assert [0x0a, 0x0b, 0x00] + [0x03] == MAINTENANCE_OPENING;
    ByteInside();
  }

  lemma ByteInside()
    ensures Feed(EMPTY, [0x03]) == Parsed(INSIDE_WEIGHTING, [])
  {
    var b: bytes := [0x03];
    var none: bytes := [];
    assert b[1..] == none;
    assert PushByte(EMPTY, 0x03).item.None?;
    assert PushByte(EMPTY, 0x03).state == INSIDE_WEIGHTING;
    assert Feed(INSIDE_WEIGHTING, none) == Parsed(INSIDE_WEIGHTING, []);
  }

  lemma ParameterTaken(command: bytes)
    requires command != []
    ensures var rest := Feed(EMPTY, command[1..]);
            Feed(INSIDE_WEIGHTING, command) == Parsed(rest.state, [Command([0x03, command[0]])] + rest.items)
  {
    assert INSIDE_WEIGHTING.command + [command[0]] == [0x03, command[0]];
    assert PushByte(INSIDE_WEIGHTING, command[0]) == Pushed(EMPTY, Some(Command([0x03, command[0]])));
  }

  // The opening of a maintenance period ends inside a command: the keyer takes the first byte of
  // the maintenance command as the parameter of opcode 0x03 and starts reading at the second.
  lemma MaintenanceOpensInsideACommand(command: bytes)
    requires command != []
    ensures !Complete(MAINTENANCE_OPENING)
    ensures var heard := Feed(EMPTY, MAINTENANCE_OPENING + command); var rest := Feed(EMPTY, command[1..]);
            heard == Parsed(rest.state, [Command([0x0a]), Command([0x0b, 0x00]), Command([0x03, command[0]])] + rest.items)
  {
    OpeningParsed();
    ParameterTaken(command);
    hide Feed;
    FeedAppend(EMPTY, MAINTENANCE_OPENING, command);
    var lead := [Command([0x0a]), Command([0x0b, 0x00])];
    var taken := [Command([0x03, command[0]])];
    Associative(lead, taken, Feed(EMPTY, command[1..]).items);
    assert lead + taken == [Command([0x0a]), Command([0x0b, 0x00]), Command([0x03, command[0]])];
  }

  lemma EmergencyBytes()
    ensures Feed(EMPTY, [0x0a, 0x0b, 0x00]) == Parsed(EMPTY, [Command([0x0a]), Command([0x0b, 0x00])])
  {
    var items := [Command([0x0a]), Command([0x0b, 0x00])];
    ParseInvertsFlatten(items);
    assert items[1..] == [Command([0x0b, 0x00])];
    assert Flatten(items[1..]) == [0x0b, 0x00];
    assert Flatten(items) == [0x0a, 0x0b, 0x00];
  }
}
