// What the device holds at the moment a keying byte is written: every job is opened while the
// whole profile of its client is in the device, and everything appended to it finds the profile it
// was opened under.

module BrokerKeying {
  import opened Common
  import opened WinkeyerProtocol
  import opened BrokerModel
  import opened BrokerLedger
  import opened BrokerDevice

  predicate IsKeying(a: Action) {
    a.Write? && a.purpose.Keying?
  }

  ghost predicate NoKeying(acts: seq<Action>) {
    forall a | a in acts :: !IsKeying(a)
  }

  ghost predicate AllHarmless(acts: seq<Action>) {
    forall a | a in acts && a.Write? :: HarmlessBytes(a.data)
  }

  // The monitor over the writes: at every keying write, the device holds the whole profile of the
  // client whose job is keyed.
  ghost predicate KeyedUnder(r: Registers, clients: map<ClientId, Client>, acts: seq<Action>)
    decreases |acts|
  {
    acts == []
    || ((IsKeying(acts[0]) ==>
           acts[0].purpose.client in clients && Holds(r, clients[acts[0].purpose.client].profile))
        && KeyedUnder(if acts[0].Write? then AfterWrite(r, acts[0].data) else r, clients, acts[1..]))
  }

  lemma {:induction false} NothingKeyed(r: Registers, clients: map<ClientId, Client>, acts: seq<Action>)
    requires NoKeying(acts)
    ensures KeyedUnder(r, clients, acts)
    decreases |acts|
  {
    hide AfterWrite, Holds;
    if acts != [] {
      assert acts[0] in acts && forall a | a in acts[1..] :: a in acts;
      NothingKeyed(if acts[0].Write? then AfterWrite(r, acts[0].data) else r, clients, acts[1..]);
    }
  }

  lemma {:induction false} KeyedAppend(r: Registers, clients: map<ClientId, Client>, a: seq<Action>, b: seq<Action>)
    ensures KeyedUnder(r, clients, a + b) <==> KeyedUnder(r, clients, a) && KeyedUnder(After(r, a), clients, b)
    decreases |a|
  {
    hide AfterWrite, Holds;
    if a == [] {
      assert a + b == b;
    } else {
      assert (a + b)[0] == a[0] && (a + b)[1..] == a[1..] + b;
      KeyedAppend(if a[0].Write? then AfterWrite(r, a[0].data) else r, clients, a[1..], b);
    }
  }

  // ---- Bytes of the broker are complete ----

  lemma FixedBytesAreComplete(s: SpeedMode)
    ensures Complete([0x0a]) && Complete([0x15]) && Complete(SpeedCommand(s)) && Complete([0x0a, 0x0b, 0x00])
  {
    FeedOneItem(Command([0x0a]));
    FeedOneItem(Command([0x15]));
    FeedOneItem(Command(SpeedCommand(s)));
    var items := [Command([0x0a]), Command([0x0b, 0x00])];
    ParseInvertsFlatten(items);
    assert items[1..] == [Command([0x0b, 0x00])];
    assert Flatten(items[1..]) == [0x0b, 0x00];
    assert Flatten(items) == [0x0a, 0x0b, 0x00];
  }

  lemma CommandsAreComplete(c: bytes)
    requires WellFormedCommand(c)
    ensures Complete(c)
  {
    FeedOneItem(Command(c));
  }

  lemma {:induction false} ReplayIsComplete(order: seq<nat>, p: Profile)
    requires ProfileOk(p)
    ensures AllComplete(Replay(order, p)) && NoKeying(Replay(order, p))
    decreases |order|
  {
    hide Complete;
    if order != [] {
      ReplayIsComplete(order[1..], p);
      if order[0] in p {
        CommandsAreComplete(p[order[0]]);
      }
    }
  }

  lemma SetupIsComplete(c: Core, j: Job)
    requires Part(c)
    ensures AllComplete(Setup(c, j)) && NoKeying(Setup(c, j))
  {
    hide Complete;
    FixedBytesAreComplete(j.speed);
    if j.client in c.clients {
      ReplayIsComplete(Ascending(c.clients[j.client].profile.Keys), c.clients[j.client].profile);
    }
    hide Replay;
  }

  lemma RestoreIsComplete(c: Core)
    requires Part(c)
    ensures AllComplete(Restore(c).actions) && NoKeying(Restore(c).actions)
  {
    hide Complete;
    var fg := Foreground(c);
    FixedBytesAreComplete(if fg.Some? && fg.value in c.clients then c.clients[fg.value].desired else Pot);
    if fg.Some? && fg.value in c.clients {
      ReplayIsComplete(Ascending(c.clients[fg.value].profile.Keys), c.clients[fg.value].profile);
    }
    hide Replay, Foreground;
  }

  // ---- What one operation plays to the device ----

  // A job is opened, with its profile cached; or the job in progress goes on undisturbed.
  ghost predicate Continues(c: Core, c': Core, acts: seq<Action>) {
    if NoKeying(acts) then c'.active.Some? ==> c.active.Some? && AllHarmless(acts)
    else c'.active.Some? && c'.cached == Some(c'.active.value.job.client)
  }

  ghost predicate Plays(c: Core, r: Registers, c': Core, acts: seq<Action>) {
    && AllComplete(acts)
    && (Agreement(c, r) ==> KeyedUnder(r, c'.clients, acts))
    && Continues(c, c', acts)
  }

  lemma QuietPlays(c: Core, r: Registers, c': Core, acts: seq<Action>)
    requires NoKeying(acts) && AllComplete(acts)
    requires c'.active.Some? ==> c.active.Some? && AllHarmless(acts)
    ensures Plays(c, r, c', acts)
  {
    NothingKeyed(r, c'.clients, acts);
  }

  lemma OpeningIsKeyed(c: Core, r: Registers, j: Job)
    requires Part(c) && Agreement(c, r) && j.client in c.clients
    ensures KeyedUnder(r, c.clients, Setup(c, j) + [Write(j.payload, Keying(j.id, j.client)), Write([0x15], StatusPoll)])
  {
    var tail := [Write(j.payload, Keying(j.id, j.client)), Write([0x15], StatusPoll)];
    SetupInstallsProfile(c, r, j);
    SetupIsComplete(c, j);
    NothingKeyed(r, c.clients, Setup(c, j));
    KeyedAppend(r, c.clients, Setup(c, j), tail);
    var r1 := After(r, Setup(c, j));
    NothingKeyed(AfterWrite(r1, j.payload), c.clients, [Write([0x15], StatusPoll)]);
    hide Holds, AfterWrite, Setup, After;
    assert tail[1..] == [Write([0x15], StatusPoll)];
  }

  lemma OpeningIsComplete(c: Core, j: Job)
    requires Part(c) && j in Live(c)
    ensures var acts := Setup(c, j) + [Write(j.payload, Keying(j.id, j.client)), Write([0x15], StatusPoll)];
            AllComplete(acts) && !NoKeying(acts)
  {
    var key := Write(j.payload, Keying(j.id, j.client));
    var tail := [key, Write([0x15], StatusPoll)];
    SetupIsComplete(c, j);
    FixedBytesAreComplete(Pot);
    assert Complete(j.payload);
    hide Part, Setup, Complete;
    assert key in Setup(c, j) + tail && IsKeying(key);
    assert forall a | a in Setup(c, j) + tail :: a in Setup(c, j) || a in tail;
  }

  lemma StartOrRestorePlays(c: Core, r: Registers, now: nat)
    requires Part(c) && c.active.None?
    ensures Plays(c, r, StartOrRestore(c, now).core, StartOrRestore(c, now).actions)
    ensures StartOrRestore(c, now).core.clients == c.clients
  {
    var o := StartOrRestore(c, now);
    if c.queue == [] {
      RestoreIsComplete(c);
      hide Restore, AllComplete, AllHarmless;
      RestoreKeepsIdle(c);
      QuietPlays(c, r, o.core, o.actions);
    } else {
      var j := c.queue[0];
      assert j in Live(c) && j.client in c.clients;
      OpeningIsComplete(c, j);
      hide Live, AllComplete, NoKeying, KeyedUnder;
      if Agreement(c, r) {
        OpeningIsKeyed(c, r, j);
      }
      hide Setup, Part, Agreement;
    }
  }

  lemma RestoreKeepsIdle(c: Core)
    ensures Restore(c).core.active == c.active && Restore(c).core.clients == c.clients
  {
  }

  // Some harmless actions that end the active job, then the next job or the foreground.
  lemma LeadPlays(c: Core, c1: Core, r: Registers, lead: seq<Action>, now: nat)
    requires Part(c1) && c1.active.None? && NoKeying(lead) && AllComplete(lead) && AllHarmless(lead)
    requires Agreement(c, r) ==> Agreement(c1, After(r, lead))
    ensures var next := StartOrRestore(c1, now); Plays(c, r, next.core, lead + next.actions)
  {
    var next := StartOrRestore(c1, now);
    StartOrRestorePlays(c1, After(r, lead), now);
    hide Part, Agreement, StartOrRestore, Complete;
    NothingKeyed(r, next.core.clients, lead);
    KeyedAppend(r, next.core.clients, lead, next.actions);
    hide KeyedUnder;
    assert forall a | a in lead + next.actions :: a in lead || a in next.actions;
    assert forall a | a in next.actions :: a in lead + next.actions;
  }

  // ---- Every operation ----

  lemma EndActivePlays(c: Core, r: Registers, lead: seq<Action>, now: nat)
    requires Part(c) && NoKeying(lead) && AllComplete(lead) && AllHarmless(lead)
    ensures var next := StartOrRestore(c.(active := None), now); Plays(c, r, next.core, lead + next.actions)
  {
    var c1 := c.(active := None);
    EndedKeepsPart(c);
    LeadKeepsAgreement(c, c1, r, lead);
    LeadPlays(c, c1, r, lead, now);
  }

  lemma EndedKeepsPart(c: Core)
    requires Part(c)
    ensures Part(c.(active := None))
  {
    var c1 := c.(active := None);
    assert forall j | j in Live(c1) :: j in Live(c);
    assert forall x :: IsPrimary(c1, x) <==> IsPrimary(c, x);
  }

  // Clearing the buffer and cancelling are quiet.
  lemma ClearingIsQuiet(q: seq<Job>, x: ClientId, end: Action)
    requires !end.Write?
    ensures var lead := [Write([0x0a], ClearBuffer(x))] + Cancellations(q) + [end];
            NoKeying(lead) && AllComplete(lead) && AllHarmless(lead)
    ensures var lead := [Write([0x0a], ClearBuffer(x)), end];
            NoKeying(lead) && AllComplete(lead) && AllHarmless(lead)
    ensures NoKeying(Cancellations(q)) && AllComplete(Cancellations(q)) && AllHarmless(Cancellations(q))
  {
    ControlBytesAreHarmless(Pot);
    FixedBytesAreComplete(Pot);
    CancellationsAreNotWrites(q);
    hide HarmlessBytes, Complete;
  }

  lemma AbortActivePlays(c: Core, r: Registers, now: nat)
    requires Part(c) && c.active.Some?
    ensures var o := AbortActive(c, now); Plays(c, r, o.core, o.actions)
  {
    var j := c.active.value.job;
    ClearingIsQuiet([], j.client, Canceled(j.id, j.client));
    EndActivePlays(c, r, [Write([0x0a], ClearBuffer(j.client)), Canceled(j.id, j.client)], now);
  }

  lemma UnregisterPlays(c: Core, r: Registers, x: ClientId, now: nat)
    requires Shape(c)
    ensures var o := Unregister(c, x, now); Plays(c, r, o.core, o.actions)
  {
    var d := DropQueued(Forget(c, x), AllOf(x));
    var dropped := Dropped(c.queue, AllOf(x));
    ClearingIsQuiet(dropped, x, Canceled(0, x));
    CancellationsWriteNothing(r, dropped);
    if ActiveClient(c) == Some(x) {
      var j := c.active.value.job;
      var e := d.core.(active := None);
      var clear := [Write([0x0a], ClearBuffer(x)), Canceled(j.id, j.client)];
      var lead := Cancellations(dropped) + clear;
      ClearingIsQuiet(dropped, x, Canceled(j.id, j.client));
      PickMembers(c.queue, AllOf(x));
      KeptIsShorter(c.queue, AllOf(x));
      ForgetKeepsPart(c, x, d.core.queue, None);
      hide Part, Shape, StartOrRestore, HarmlessBytes, Complete;
      assert AllHarmless(lead) && AllComplete(lead) && NoKeying(lead);
      ForgottenAgrees(c, e, r, lead, x);
      LeadPlays(c, e, r, lead, now);
      Associative(Cancellations(dropped), clear, StartOrRestore(e, now).actions);
    } else {
      QuietPlays(c, r, d.core, d.actions);
    }
  }

  // Forgetting a client forgets its cache entry, so the cache stays true.
  lemma ForgottenAgrees(c: Core, e: Core, r: Registers, lead: seq<Action>, x: ClientId)
    requires Shape(c) && AllHarmless(lead)
    requires e.clients == c.clients - {x} && e.cached == if c.cached == Some(x) then None else c.cached
    ensures Agreement(c, r) ==> Agreement(e, After(r, lead))
  {
    if Agreement(c, r) && e.cached.Some? && e.cached.value in e.clients {
      HarmlessWritesKeep(r, lead, c.clients[c.cached.value].profile);
    }
  }

  lemma CancelClientPlays(c: Core, r: Registers, x: ClientId, includeActive: bool, now: nat)
    requires Shape(c)
    ensures var o := CancelClient(c, x, includeActive, now); Plays(c, r, o.core, o.actions)
  {
    var d := DropQueued(c, AllOf(x));
    var dropped := Dropped(c.queue, AllOf(x));
    var clear := [Write([0x0a], ClearBuffer(x))];
    if includeActive && ActiveClient(c) == Some(x) {
      var end := Canceled(c.active.value.job.id, x);
      ClearingIsQuiet(dropped, x, end);
      DropQueuedAgrees(c, AllOf(x));
      EndActivePlays(d.core, r, clear + d.actions + [end], now);
    } else {
      ClearingIsQuiet(dropped, x, Canceled(0, x));
      ControlBytesAreHarmless(Pot);
      FixedBytesAreComplete(Pot);
      hide HarmlessBytes, Complete;
      QuietPlays(c, r, d.core, clear + d.actions);
      QuietPlays(c, r, d.core, d.actions);
    }
  }

  lemma CancelJobPlays(c: Core, r: Registers, x: ClientId, id: JobId, now: nat)
    requires Shape(c)
    ensures var o := CancelJob(c, x, id, now); Plays(c, r, o.core, o.actions)
  {
    if c.active.Some? && c.active.value.job.client == x && c.active.value.job.id == id {
      AbortActivePlays(c, r, now);
    } else {
      ClearingIsQuiet(Dropped(c.queue, One(x, id)), x, Canceled(0, x));
      QuietPlays(c, r, DropQueued(c, One(x, id)).core, DropQueued(c, One(x, id)).actions);
    }
  }

  lemma EmergencyStopPlays(c: Core, r: Registers)
    requires Part(c)
    ensures var o := EmergencyStop(c); Plays(c, r, o.core, o.actions) && o.core.clients == c.clients && o.core.active.None?
  {
    var c1 := c.(active := None, queue := []);
    var o := EmergencyStop(c);
    SwitchedOffPart(c);
    RestoreIsComplete(c1);
    RestoreKeepsIdle(c1);
    FixedBytesAreComplete(Pot);
    CancellationsAreNotWrites(c.queue);
    hide Part, Complete, Restore;
    var lead := [Write([0x0a, 0x0b, 0x00], EmergencyOff)] + ActiveCancellation(c) + Cancellations(c.queue);
    assert forall a | a in o.actions :: a in lead || a in Restore(c1).actions;
    QuietPlays(c, r, o.core, o.actions);
  }

  lemma CompleteActivePlays(c: Core, r: Registers, now: nat)
    requires Shape(c)
    ensures var o := CompleteActive(c, now); Plays(c, r, o.core, o.actions) && o.core.clients == c.clients
  {
    if c.active.Some? {
      var j := c.active.value.job;
      EndActivePlays(c, r, [Completed(j.id, j.client)], now);
      EndedKeepsPart(c);
      StartOrRestorePlays(c.(active := None), r, now);
    } else {
      QuietPlays(c, r, c, []);
    }
  }

  lemma ObserveStatusPlays(c: Core, r: Registers, s: DeviceStatus, now: nat)
    requires Shape(c)
    ensures var o := ObserveStatus(c, s, now); Plays(c, r, o.core, o.actions)
  {
    var c1 := c.(status := s);
    if c.active.Some? {
      var a := c.active.value.(observedStatus := true);
      var c2 := c1.(active := Some(a));
      assert Live(c2) == Live(c);
      assert forall x :: IsPrimary(c2, x) <==> IsPrimary(c, x);
      CompleteActivePlays(c2, r, now);
      QuietPlays(c, r, ObserveStatus(c, s, now).core, []);
      hide Part, KeyedUnder, AllComplete;
    } else {
      QuietPlays(c, r, c1, []);
    }
  }

  lemma SetSpeedPlays(c: Core, r: Registers, x: ClientId, speed: SpeedMode)
    ensures var o := SetSpeed(c, x, speed); Plays(c, r, o.core, o.actions)
  {
    ControlBytesAreHarmless(speed);
    FixedBytesAreComplete(speed);
    hide HarmlessBytes, Complete, SpeedCommand;
    QuietPlays(c, r, SetSpeed(c, x, speed).core, SetSpeed(c, x, speed).actions);
  }

  lemma SetCommandPlays(c: Core, r: Registers, x: ClientId, command: bytes)
    requires Configurable(command) && SetCommand(c, x, command).Some?
    ensures var o := SetCommand(c, x, command).value; Plays(c, r, o.core, o.actions)
  {
    CommandsAreComplete(command);
    hide Complete;
    QuietPlays(c, r, SetCommand(c, x, command).value.core, SetCommand(c, x, command).value.actions);
  }

  lemma OwnerCommandPlays(c: Core, r: Registers, x: ClientId, command: bytes)
    requires OwnerBytes(command) && CommandByOwner(c, x, command).Some? && (c.active.None? ==> c.queue == [])
    ensures Plays(c, r, c, CommandByOwner(c, x, command).value)
  {
    CommandsAreComplete(command);
    OwnerBytesAreHarmless(command);
    hide Complete, HarmlessBytes;
    QuietPlays(c, r, c, CommandByOwner(c, x, command).value);
  }

  lemma EnqueuePlays(c: Core, r: Registers, x: ClientId, payload: bytes, speed: Option<SpeedMode>,
                     stream: bool, now: nat)
    requires Shape(c) && KeyingBytes(payload) && Enqueue(c, x, payload, speed, stream, now).Some?
    requires !AppendsToActive(c, x, stream)
    ensures var e := Enqueue(c, x, payload, speed, stream, now).value; Plays(c, r, e.core, e.actions)
  {
    var e := Enqueue(c, x, payload, speed, stream, now).value;
    if AppendsToLast(c, x, stream) {
      QuietPlays(c, r, e.core, []);
    } else {
      var j := Job(c.nextId, x, payload, if speed.Some? then speed.value else c.clients[x].desired, stream);
      AppendFreshPart(c, j);
      var queued := c.(nextId := SaturatingNext(c.nextId), queue := c.queue + [j]);
      if c.active.None? {
        StartOrRestorePlays(queued, r, now);
        hide Part, StartOrRestore, KeyedUnder, AllComplete;
      } else {
        QuietPlays(c, r, queued, []);
      }
    }
  }

  // ---- Pieces appended to the active job ----

  // An appended piece finds the whole current profile of its client, on every device the cache is
  // true of, exactly when that client is still the cached one or has nothing stored. The cache is
  // dropped when the client stores a command while its job is active.
  lemma AppendUnderProfileIff(c: Core, x: ClientId, payload: bytes, speed: Option<SpeedMode>, now: nat)
    requires Part(c) && AppendsToActive(c, x, true) && Enqueue(c, x, payload, speed, true, now).Some?
    ensures var e := Enqueue(c, x, payload, speed, true, now).value;
            (forall r | Agreement(c, r) :: KeyedUnder(r, e.core.clients, e.actions))
            <==> c.cached == Some(x) || c.clients[x].profile == map[]
  {
    var e := Enqueue(c, x, payload, speed, true, now).value;
    var p := c.clients[x].profile;
    var key := Write(payload, Keying(c.active.value.job.id, x));
    assert e.actions == [key] && e.core.clients == c.clients;
    assert c.active.value.job in Live(c);
    forall r ensures KeyedUnder(r, c.clients, [key]) <==> Holds(r, p) {
      assert [key][1..] == [];
      assert KeyedUnder(AfterWrite(r, payload), c.clients, []);
    }
    if c.cached != Some(x) && p != map[] {
      assert c.cached.None?;
      var k :| k in p;
      assert Agreement(c, map[]) && !Holds(map[], p);
    }
  }
}
