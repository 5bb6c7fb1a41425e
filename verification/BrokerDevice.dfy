// The keyer at the other end: a register map driven by the bytes the broker writes, read by the
// same command grammar. The broker's one-entry profile cache is correct about it.

module BrokerDevice {
  import opened Common
  import opened WinkeyerProtocol
  import opened BrokerModel
  import opened BrokerLedger

  // The last command seen per register.
  type Registers = map<nat, bytes>

  function ApplyItem(r: Registers, i: ClientItem): Registers {
    if i.Command? && RegisterOf(i.command).Some? then r[RegisterOf(i.command).value := i.command] else r
  }

  function ApplyItems(r: Registers, items: seq<ClientItem>): Registers
    decreases |items|
  {
    if items == [] then r else ApplyItems(ApplyItem(r, items[0]), items[1..])
  }

  function AfterWrite(r: Registers, b: bytes): Registers {
    ApplyItems(r, Feed(EMPTY, b).items)
  }

  function After(r: Registers, acts: seq<Action>): Registers
    decreases |acts|
  {
    if acts == [] then r
    else After(if acts[0].Write? then AfterWrite(r, acts[0].data) else r, acts[1..])
  }

  // The keyer itself reads one byte stream: a write may end inside a command.
  datatype Keyer = Keyer(registers: Registers, parser: ParserState)

  function HearBytes(k: Keyer, b: bytes): Keyer {
    var heard := Feed(k.parser, b);
    Keyer(ApplyItems(k.registers, heard.items), heard.state)
  }

  function Hear(k: Keyer, acts: seq<Action>): Keyer
    decreases |acts|
  {
    if acts == [] then k else Hear(if acts[0].Write? then HearBytes(k, acts[0].data) else k, acts[1..])
  }

  function Written(acts: seq<Action>): bytes
    decreases |acts|
  {
    if acts == [] then [] else (if acts[0].Write? then acts[0].data else []) + Written(acts[1..])
  }

  // Bytes that start and end between commands.
  ghost predicate Complete(b: bytes) {
    Feed(EMPTY, b).state == EMPTY
  }

  ghost predicate AllComplete(acts: seq<Action>) {
    forall a | a in acts && a.Write? :: Complete(a.data)
  }

  ghost predicate Holds(r: Registers, p: Profile) {
    forall k | k in p :: k in r && r[k] == p[k]
  }

  // Registers a client may configure persistently: everything transient except speed, and the
  // four Admin settings a controller may change.
  predicate ConfigRegister(k: nat) {
    (0x01 <= k <= 0x17 && k !in {0x02, 0x0a, 0x0b, 0x14, 0x16})
    || k in {0x10f, 0x113, 0x116, 0x119}
  }

  ghost predicate Configurable(c: bytes) {
    WellFormedCommand(c) && RegisterOf(c).Some? && ConfigRegister(RegisterOf(c).value)
  }

  ghost predicate ProfileOk(p: Profile) {
    forall k | k in p :: Configurable(p[k]) && RegisterOf(p[k]) == Some(k)
  }

  // Items that cannot disturb a stored profile. A status request has one possible content.
  ghost predicate Harmless(i: ClientItem) {
    i.Command? ==>
      i.command == [0x15]
      || (RegisterOf(i.command).Some? ==> !ConfigRegister(RegisterOf(i.command).value))
  }

  ghost predicate HarmlessBytes(b: bytes) {
    forall i | i in Feed(EMPTY, b).items :: Harmless(i)
  }

  // Transmit bytes: printable data and buffered commands, complete.
  predicate KeyingItem(i: ClientItem) {
    i.Command? ==> i.command != [] && 0x18 <= i.command[0] <= 0x1f
  }

  ghost predicate KeyingBytes(b: bytes) {
    Feed(EMPTY, b).state == EMPTY && forall i | i in Feed(EMPTY, b).items :: KeyingItem(i)
  }

  ghost predicate OwnerBytes(b: bytes) {
    WellFormedCommand(b) && Policy(b) == ActiveOwner
  }

  // ---- Device facts ----

  lemma {:induction false} AfterAppend(r: Registers, a: seq<Action>, b: seq<Action>)
    ensures After(r, a + b) == After(After(r, a), b)
    decreases |a|
  {
    if a == [] {
      assert a + b == b;
    } else {
      assert (a + b)[1..] == a[1..] + b;
      AfterAppend(if a[0].Write? then AfterWrite(r, a[0].data) else r, a[1..], b);
    }
  }

  lemma {:induction false} ItemsAppend(r: Registers, a: seq<ClientItem>, b: seq<ClientItem>)
    ensures ApplyItems(r, a + b) == ApplyItems(ApplyItems(r, a), b)
    decreases |a|
  {
    hide ApplyItem;
    if a == [] {
      assert a + b == b;
    } else {
      assert (a + b)[0] == a[0] && (a + b)[1..] == a[1..] + b;
      ItemsAppend(ApplyItem(r, a[0]), a[1..], b);
    }
  }

  // How the bytes are divided into writes makes no difference to the keyer.
  lemma {:induction false} HearsOneStream(k: Keyer, acts: seq<Action>)
    ensures Hear(k, acts) == HearBytes(k, Written(acts))
    decreases |acts|
  {
    if acts != [] {
      var b := if acts[0].Write? then acts[0].data else [];
      var k1 := HearBytes(k, b);
      var rest := Written(acts[1..]);
      HearsOneStream(k1, acts[1..]);
      FeedAppend(k.parser, b, rest);
      ItemsAppend(k.registers, Feed(k.parser, b).items, Feed(k1.parser, rest).items);
    }
  }

  // Complete writes to a keyer between commands can be read one by one.
  lemma {:induction false} HearAtBoundary(r: Registers, acts: seq<Action>)
    requires AllComplete(acts)
    ensures Hear(Keyer(r, EMPTY), acts) == Keyer(After(r, acts), EMPTY)
    decreases |acts|
  {
    if acts != [] {
      assert acts[0] in acts && forall a | a in acts[1..] :: a in acts;
      hide Feed, ApplyItems;
      HearAtBoundary(if acts[0].Write? then AfterWrite(r, acts[0].data) else r, acts[1..]);
    }
  }

  lemma {:induction false} HarmlessItemsKeep(r: Registers, items: seq<ClientItem>, p: Profile)
    requires Holds(r, p) && ProfileOk(p) && forall i | i in items :: Harmless(i)
    ensures Holds(ApplyItems(r, items), p)
    decreases |items|
  {
    if items != [] {
      assert items[0] in items;
      HarmlessItemsKeep(ApplyItem(r, items[0]), items[1..], p);
    }
  }

  lemma {:induction false} HarmlessWritesKeep(r: Registers, acts: seq<Action>, p: Profile)
    requires Holds(r, p) && ProfileOk(p)
    requires forall a | a in acts && a.Write? :: HarmlessBytes(a.data)
    ensures Holds(After(r, acts), p)
    decreases |acts|
  {
    if acts != [] {
      assert acts[0] in acts;
      if acts[0].Write? {
        HarmlessItemsKeep(r, Feed(EMPTY, acts[0].data).items, p);
      }
      HarmlessWritesKeep(if acts[0].Write? then AfterWrite(r, acts[0].data) else r, acts[1..], p);
    }
  }

  lemma OneCommand(c: bytes)
    requires WellFormedCommand(c)
    ensures Feed(EMPTY, c).items == [Command(c)]
  {
    FeedOneItem(Command(c));
  }

  lemma EmergencyBytesAreHarmless()
    ensures HarmlessBytes([0x0a, 0x0b, 0x00])
  {
    var items := [Command([0x0a]), Command([0x0b, 0x00])];
    ParseInvertsFlatten(items);
    assert items[1..] == [Command([0x0b, 0x00])];
    assert Flatten(items[1..]) == [0x0b, 0x00];
    assert Flatten(items) == [0x0a, 0x0b, 0x00];
  }

  lemma ControlBytesAreHarmless(s: SpeedMode)
    ensures HarmlessBytes(SpeedCommand(s))
    ensures HarmlessBytes([0x15])
    ensures HarmlessBytes([0x0a])
  {
    OneCommand(SpeedCommand(s));
    OneCommand([0x15]);
    OneCommand([0x0a]);
  }

  lemma KeyingBytesAreHarmless(b: bytes)
    requires KeyingBytes(b)
    ensures HarmlessBytes(b)
  {
  }

  lemma OwnerBytesAreHarmless(b: bytes)
    requires OwnerBytes(b)
    ensures HarmlessBytes(b)
  {
    OneCommand(b);
  }

  lemma KeyingAppend(a: bytes, b: bytes)
    requires KeyingBytes(a) && KeyingBytes(b)
    ensures KeyingBytes(a + b)
  {
    FeedAppend(EMPTY, a, b);
  }

  lemma WriteInstalls(r: Registers, k: nat, c: bytes)
    requires Configurable(c) && RegisterOf(c) == Some(k)
    ensures AfterWrite(r, c) == r[k := c]
  {
    OneCommand(c);
    var items := Feed(EMPTY, c).items;
    assert items[1..] == [];
    assert ApplyItems(r, items) == ApplyItems(ApplyItem(r, items[0]), items[1..]);
  }

  lemma ReplayStep(r: Registers, order: seq<nat>, p: Profile)
    requires ProfileOk(p) && order != [] && order[0] in p
    ensures After(r, Replay(order, p)) == After(r[order[0] := p[order[0]]], Replay(order[1..], p))
  {
    WriteInstalls(r, order[0], p[order[0]]);
    assert Replay(order, p)[1..] == Replay(order[1..], p);
  }

  // A replayed profile ends up in the device, whatever was there before.
  lemma {:induction false} ReplayInstalls(r: Registers, order: seq<nat>, p: Profile)
    requires ProfileOk(p) && forall k | k in order :: k in p
    ensures var r' := After(r, Replay(order, p));
            (forall k | k in order :: k in r' && r'[k] == p[k])
            && (forall k | k in r && k !in order :: k in r' && r'[k] == r[k])
    decreases |order|
  {
    if order != [] {
      var k0 := order[0];
      var rest := order[1..];
      assert order == [k0] + rest;
      ReplayStep(r, order, p);
      ReplayInstalls(r[k0 := p[k0]], rest, p);
    }
  }

  lemma ProfileWritesInstall(r: Registers, p: Profile)
    requires ProfileOk(p)
    ensures Holds(After(r, ProfileWrites(p)), p)
  {
    AscendingProperties(p.Keys);
    ReplayInstalls(r, Ascending(p.Keys), p);
  }

  // ---- Shape of a broker state ----

  ghost predicate Part(c: Core) {
    && (forall j | j in Live(c) :: j.client in c.clients && 1 <= |j.payload| <= MAX_JOB_BYTES && KeyingBytes(j.payload))
    && |c.queue| <= MAX_QUEUED_JOBS
    && (c.cached.Some? ==> c.cached.value in c.clients)
    && (forall x, y | IsPrimary(c, x) && IsPrimary(c, y) :: x == y)
    && (forall x | x in c.clients :: ProfileOk(c.clients[x].profile))
    && (c.active.Some? ==> c.cached.None? || c.cached == Some(c.active.value.job.client))
    && (!c.connected ==> c.active.None? && c.queue == [])
  }

  // Between operations: an idle broker has no backlog, and an idle primary whose profile is not
  // the cached one has nothing to replay.
  ghost predicate Shape(c: Core) {
    && Part(c)
    && (c.active.None? ==> c.queue == [])
    && (c.connected && c.active.None? ==>
          forall x | IsPrimary(c, x) && c.cached != Some(x) :: c.clients[x].profile == map[])
  }

  // The cache tells the truth: the device holds every entry of the cached client's profile.
  ghost predicate Agreement(c: Core, r: Registers) {
    c.cached.Some? && c.cached.value in c.clients ==> Holds(r, c.clients[c.cached.value].profile)
  }

  lemma ForegroundIsThePrimary(c: Core)
    ensures Foreground(c).Some? ==> IsPrimary(c, Foreground(c).value)
    ensures Foreground(c).None? ==> forall x :: !IsPrimary(c, x)
  {
    AscendingProperties(Primaries(c));
    var order := Ascending(Primaries(c));
    if order != [] {
      assert order[0] in order;
    } else {
      forall x ensures !IsPrimary(c, x) {
        assert x in Primaries(c) <==> IsPrimary(c, x);
      }
    }
  }

  lemma RestoreAgrees(c: Core, r: Registers)
    requires Part(c) && c.active.None? && c.queue == []
    ensures Shape(Restore(c).core)
    ensures Agreement(c, r) ==> Agreement(Restore(c).core, After(r, Restore(c).actions))
  {
    var o := Restore(c);
    ForegroundIsThePrimary(c);
    var fg := Foreground(c);
    assert Shape(o.core) by {
      assert forall x :: IsPrimary(o.core, x) <==> IsPrimary(c, x);
    }
    var speed := if fg.Some? then c.clients[fg.value].desired else Pot;
    var tail := [Write(SpeedCommand(speed), SelectSpeed)];
    ControlBytesAreHarmless(speed);
    if Agreement(c, r) && o.core.cached.Some? {
      var p := o.core.clients[o.core.cached.value].profile;
      if fg.Some? && fg != c.cached {
        ProfileWritesInstall(r, p);
        AfterAppend(r, ProfileWrites(p), tail);
        HarmlessWritesKeep(After(r, ProfileWrites(p)), tail, p);
      } else {
        assert o.actions == tail;
        HarmlessWritesKeep(r, tail, p);
      }
    }
  }

  // When a job starts, its client's whole profile is in the device before its first byte.
  lemma SetupInstallsProfile(c: Core, r: Registers, j: Job)
    requires Part(c) && Agreement(c, r) && j.client in c.clients
    ensures Holds(After(r, Setup(c, j)), c.clients[j.client].profile)
  {
    var p := c.clients[j.client].profile;
    var replay := if c.cached != Some(j.client) then ProfileWrites(p) else [];
    var speed := if j.payload != [] && j.payload[0] == 0x1c then []
                 else [Write(SpeedCommand(j.speed), SelectSpeed)];
    if c.cached != Some(j.client) {
      ProfileWritesInstall(r, p);
    }
    ControlBytesAreHarmless(j.speed);
    AfterAppend(r, replay, speed);
    HarmlessWritesKeep(After(r, replay), speed, p);
  }

  const SPEED_REGISTER: nat := 0x02

  lemma SpeedWriteSelects(r: Registers, lead: seq<Action>, s: SpeedMode)
    ensures After(r, lead + [Write(SpeedCommand(s), SelectSpeed)])
         == After(r, lead)[SPEED_REGISTER := SpeedCommand(s)]
  {
    var cmd := SpeedCommand(s);
    var last := [Write(cmd, SelectSpeed)];
    AfterAppend(r, lead, last);
    OneCommand(cmd);
    var items := Feed(EMPTY, cmd).items;
    assert items[1..] == [] && last[1..] == [];
    hide Feed;
    assert AfterWrite(After(r, lead), cmd) == ApplyItems(ApplyItem(After(r, lead), Command(cmd)), []);
    assert After(After(r, lead), last) == After(AfterWrite(After(r, lead), cmd), []);
  }

  // A job that does not bring its own buffered speed is keyed at its own speed, and an idle keyer
  // is left at the speed of the primary client, or at the pot; whatever the device held before.
  lemma SpeedFollowsTheJob(c: Core, r: Registers, j: Job)
    ensures j.payload == [] || j.payload[0] != 0x1c ==>
              var r' := After(r, Setup(c, j));
              SPEED_REGISTER in r' && r'[SPEED_REGISTER] == SpeedCommand(j.speed)
    ensures j.payload != [] && j.payload[0] == 0x1c ==>
              forall a | a in Setup(c, j) && a.Write? :: a.purpose == ProfileReplay
  {
    var lead := if c.cached != Some(j.client) && j.client in c.clients then ProfileWrites(c.clients[j.client].profile) else [];
    SpeedWriteSelects(r, lead, j.speed);
    hide SpeedCommand;
    if c.cached != Some(j.client) && j.client in c.clients {
      ReplaysOnly(Ascending(c.clients[j.client].profile.Keys), c.clients[j.client].profile);
    }
    assert lead + [] == lead;
  }

  lemma {:induction false} ReplaysOnly(order: seq<nat>, p: Profile)
    ensures forall a | a in Replay(order, p) :: a.Write? && a.purpose == ProfileReplay
    decreases |order|
  {
    if order != [] {
      ReplaysOnly(order[1..], p);
    }
  }

  lemma SpeedReturnsToTheForeground(c: Core, r: Registers)
    ensures var r' := After(r, Restore(c).actions); var fg := Foreground(c);
            SPEED_REGISTER in r'
            && r'[SPEED_REGISTER] == SpeedCommand(if fg.Some? then c.clients[fg.value].desired else Pot)
            && (fg.Some? ==> IsPrimary(c, fg.value)) && (fg.None? ==> forall x :: !IsPrimary(c, x))
  {
    var fg := Foreground(c);
    ForegroundIsThePrimary(c);
    var speed := if fg.Some? then c.clients[fg.value].desired else Pot;
    var lead := if fg.Some? && fg != c.cached then ProfileWrites(c.clients[fg.value].profile) else [];
    assert Restore(c).actions == lead + [Write(SpeedCommand(speed), SelectSpeed)];
    SpeedWriteSelects(r, lead, speed);
    hide After, SpeedCommand;
  }

  lemma StartOrRestoreAgrees(c: Core, r: Registers, now: nat)
    requires Part(c) && c.active.None?
    ensures Shape(StartOrRestore(c, now).core)
    ensures Agreement(c, r) ==>
              Agreement(StartOrRestore(c, now).core, After(r, StartOrRestore(c, now).actions))
  {
    if c.queue == [] {
      RestoreAgrees(c, r);
    } else {
      var o := StartOrRestore(c, now);
      var j := c.queue[0];
      var tail := [Write(j.payload, Keying(j.id, j.client)), Write([0x15], StatusPoll)];
      assert Live(o.core) == Live(c) && Live(c)[0] == j;
      assert forall x :: IsPrimary(o.core, x) <==> IsPrimary(c, x);
      if Agreement(c, r) {
        var p := c.clients[j.client].profile;
        SetupInstallsProfile(c, r, j);
        KeyingBytesAreHarmless(j.payload);
        ControlBytesAreHarmless(Pot);
        AfterAppend(r, Setup(c, j), tail);
        HarmlessWritesKeep(After(r, Setup(c, j)), tail, p);
      }
    }
  }

  // ---- Every operation keeps the shape and the agreement ----

  lemma DropQueuedAgrees(c: Core, p: Pick)
    requires Part(c)
    ensures Part(DropQueued(c, p).core)
    ensures forall r :: After(r, DropQueued(c, p).actions) == r
    ensures c.queue == [] ==> DropQueued(c, p).core == c
  {
    var d := DropQueued(c, p);
    PickMembers(c.queue, p);
    KeptIsShorter(c.queue, p);
    assert forall j | j in Live(d.core) :: j in Live(c);
    assert forall x :: IsPrimary(d.core, x) <==> IsPrimary(c, x);
    forall r ensures After(r, d.actions) == r {
      CancellationsWriteNothing(r, Dropped(c.queue, p));
    }
  }

  lemma {:induction false} KeptIsShorter(q: seq<Job>, p: Pick)
    ensures |Kept(q, p)| <= |q|
  {
    if q != [] {
      KeptIsShorter(q[1..], p);
    }
  }

  lemma {:induction false} CancellationsWriteNothing(r: Registers, q: seq<Job>)
    ensures After(r, Cancellations(q)) == r
    decreases |q|
  {
    if q != [] {
      assert Cancellations(q)[1..] == Cancellations(q[1..]);
      CancellationsWriteNothing(r, q[1..]);
    }
  }

  // One action that cannot disturb a profile.
  lemma OneAction(r: Registers, a: Action, p: Profile)
    requires Holds(r, p) && ProfileOk(p) && (a.Write? ==> HarmlessBytes(a.data))
    ensures Holds(After(r, [a]), p)
  {
    HarmlessWritesKeep(r, [a], p);
  }

  lemma LeadKeepsAgreement(c: Core, c': Core, r: Registers, lead: seq<Action>)
    requires Part(c) && c'.clients == c.clients && c'.cached == c.cached
    requires forall a | a in lead && a.Write? :: HarmlessBytes(a.data)
    ensures Agreement(c, r) ==> Agreement(c', After(r, lead))
  {
    if Agreement(c, r) && c.cached.Some? {
      HarmlessWritesKeep(r, lead, c.clients[c.cached.value].profile);
    }
  }

  // End the active job behind some harmless actions, then move on.
  lemma EndThenStart(c: Core, r: Registers, lead: seq<Action>, now: nat)
    requires Part(c) && forall a | a in lead && a.Write? :: HarmlessBytes(a.data)
    ensures var next := StartOrRestore(c.(active := None), now);
            Shape(next.core)
            && (Agreement(c, r) ==> Agreement(next.core, After(r, lead + next.actions)))
  {
    var c1 := c.(active := None);
    assert forall j | j in Live(c1) :: j in Live(c);
    assert forall x :: IsPrimary(c1, x) <==> IsPrimary(c, x);
    LeadKeepsAgreement(c, c1, r, lead);
    AfterAppend(r, lead, StartOrRestore(c1, now).actions);
    StartOrRestoreAgrees(c1, After(r, lead), now);
  }

  lemma AbortActiveAgrees(c: Core, r: Registers, now: nat)
    requires Part(c) && c.active.Some?
    ensures var o := AbortActive(c, now);
            Shape(o.core) && (Agreement(c, r) ==> Agreement(o.core, After(r, o.actions)))
  {
    var j := c.active.value.job;
    ControlBytesAreHarmless(Pot);
    EndThenStart(c, r, [Write([0x0a], ClearBuffer(j.client)), Canceled(j.id, j.client)], now);
  }

  // A client none of whose jobs remain can be forgotten.
  lemma ForgetKeepsPart(c: Core, x: ClientId, q: seq<Job>, a: Option<ActiveJob>)
    requires Part(c) && |q| <= |c.queue| && (forall j | j in q :: j in c.queue && j.client != x)
    requires a.None? || (a == c.active && a.value.job.client != x)
    ensures Part(Forget(c, x).(queue := q, active := a))
  {
    var e := Forget(c, x).(queue := q, active := a);
    forall j | j in Live(e) ensures j in Live(c) && j.client != x {
    }
    assert forall y | IsPrimary(e, y) :: IsPrimary(c, y);
    assert c.queue != [] || q == [];
  }

  lemma UnregisterAgrees(c: Core, r: Registers, x: ClientId, now: nat)
    requires Shape(c)
    ensures var o := Unregister(c, x, now);
            Shape(o.core) && (Agreement(c, r) ==> Agreement(o.core, After(r, o.actions)))
  {
    var d := DropQueued(Forget(c, x), AllOf(x));
    PickMembers(c.queue, AllOf(x));
    KeptIsShorter(c.queue, AllOf(x));
    CancellationsWriteNothing(r, Dropped(c.queue, AllOf(x)));
    assert Agreement(c, r) ==> Agreement(d.core, r);
    if ActiveClient(c) == Some(x) {
      UnregisterActiveAgrees(c, r, x, now, d);
    } else {
      ForgetKeepsPart(c, x, d.core.queue, c.active);
      assert forall y | IsPrimary(d.core, y) :: IsPrimary(c, y);
    }
  }

  lemma UnregisterActiveAgrees(c: Core, r: Registers, x: ClientId, now: nat, d: Outcome)
    requires Shape(c) && ActiveClient(c) == Some(x) && d == DropQueued(Forget(c, x), AllOf(x))
    requires After(r, d.actions) == r && (Agreement(c, r) ==> Agreement(d.core, r))
    ensures var o := Unregister(c, x, now);
            Shape(o.core) && (Agreement(c, r) ==> Agreement(o.core, After(r, o.actions)))
  {
    var j := c.active.value.job;
    var lead := [Write([0x0a], ClearBuffer(x)), Canceled(j.id, j.client)];
    var e := d.core.(active := None);
    var next := StartOrRestore(e, now);
    PickMembers(c.queue, AllOf(x));
    KeptIsShorter(c.queue, AllOf(x));
    ForgetKeepsPart(c, x, d.core.queue, None);
    ControlBytesAreHarmless(Pot);
    EndThenStart(e, r, lead, now);
    hide Part, Shape, HarmlessBytes, StartOrRestore;
    AfterAppend(r, d.actions, lead + next.actions);
  }

  lemma CancelActiveAgrees(c: Core, r: Registers, x: ClientId, now: nat)
    requires Part(c) && ActiveClient(c) == Some(x)
    ensures var o := CancelClient(c, x, true, now);
            Shape(o.core) && (Agreement(c, r) ==> Agreement(o.core, After(r, o.actions)))
  {
    var d := DropQueued(c, AllOf(x));
    var lead := [Write([0x0a], ClearBuffer(x))] + d.actions + ActiveCancellation(c);
    DropQueuedAgrees(c, AllOf(x));
    ControlBytesAreHarmless(Pot);
    CancellationsAreNotWrites(Dropped(c.queue, AllOf(x)));
    EndThenStart(d.core, r, lead, now);
    hide Part, Shape, HarmlessBytes, StartOrRestore;
  }

  lemma CancelClientAgrees(c: Core, r: Registers, x: ClientId, includeActive: bool, now: nat)
    requires Shape(c)
    ensures var o := CancelClient(c, x, includeActive, now);
            Shape(o.core) && (Agreement(c, r) ==> Agreement(o.core, After(r, o.actions)))
  {
    if includeActive && ActiveClient(c) == Some(x) {
      CancelActiveAgrees(c, r, x, now);
    } else {
      var d := DropQueued(c, AllOf(x));
      var clear := Write([0x0a], ClearBuffer(x));
      DropQueuedAgrees(c, AllOf(x));
      ControlBytesAreHarmless(Pot);
      AfterAppend(r, [clear], d.actions);
      LeadKeepsAgreement(c, c, r, [clear]);
    }
  }

  lemma {:induction false} CancellationsAreNotWrites(q: seq<Job>)
    ensures forall a | a in Cancellations(q) :: a.Canceled?
  {
    if q != [] {
      CancellationsAreNotWrites(q[1..]);
    }
  }

  lemma CancelJobAgrees(c: Core, r: Registers, x: ClientId, id: JobId, now: nat)
    requires Shape(c)
    ensures var o := CancelJob(c, x, id, now);
            Shape(o.core) && (Agreement(c, r) ==> Agreement(o.core, After(r, o.actions)))
  {
    if c.active.Some? && c.active.value.job.client == x && c.active.value.job.id == id {
      AbortActiveAgrees(c, r, now);
    } else {
      DropQueuedAgrees(c, One(x, id));
    }
  }

  lemma SwitchedOffPart(c: Core)
    requires Part(c)
    ensures Part(c.(active := None, queue := []))
  {
    var c1 := c.(active := None, queue := []);
    assert forall x :: IsPrimary(c1, x) <==> IsPrimary(c, x);
  }

  lemma EmergencyStopAgrees(c: Core, r: Registers)
    requires Part(c)
    ensures var o := EmergencyStop(c);
            Shape(o.core) && (Agreement(c, r) ==> Agreement(o.core, After(r, o.actions)))
  {
    var c1 := c.(active := None, queue := []);
    var lead := [Write([0x0a, 0x0b, 0x00], EmergencyOff)] + ActiveCancellation(c) + Cancellations(c.queue);
    EmergencyBytesAreHarmless();
    CancellationsAreNotWrites(c.queue);
    SwitchedOffPart(c);
    hide Part, HarmlessBytes, Restore;
    LeadKeepsAgreement(c, c1, r, lead);
    AfterAppend(r, lead, Restore(c1).actions);
    RestoreAgrees(c1, After(r, lead));
  }

  lemma CompleteActiveAgrees(c: Core, r: Registers, now: nat)
    requires Shape(c)
    ensures var o := CompleteActive(c, now);
            Shape(o.core) && (Agreement(c, r) ==> Agreement(o.core, After(r, o.actions)))
  {
    if c.active.Some? {
      var j := c.active.value.job;
      EndThenStart(c, r, [Completed(j.id, j.client)], now);
    }
  }

  lemma ObserveStatusAgrees(c: Core, r: Registers, s: DeviceStatus, now: nat)
    requires Shape(c)
    ensures var o := ObserveStatus(c, s, now);
            Shape(o.core) && (Agreement(c, r) ==> Agreement(o.core, After(r, o.actions)))
  {
    var c1 := c.(status := s);
    assert Live(c1) == Live(c);
    assert forall x :: IsPrimary(c1, x) <==> IsPrimary(c, x);
    if c.active.Some? {
      var a := c.active.value.(observedStatus := true);
      var c2 := c1.(active := Some(a));
      var c3 := c1.(active := Some(a.(sawBusy := true)));
      assert Live(c2) == Live(c) && Live(c3) == Live(c);
      assert forall x :: (IsPrimary(c2, x) <==> IsPrimary(c, x)) && (IsPrimary(c3, x) <==> IsPrimary(c, x));
      CompleteActiveAgrees(c2, r, now);
    }
  }

  lemma SetSpeedShape(c: Core, x: ClientId, speed: SpeedMode)
    requires Shape(c)
    ensures Shape(SetSpeed(c, x, speed).core)
  {
    var o := SetSpeed(c, x, speed);
    assert Live(o.core) == Live(c);
    assert forall y :: IsPrimary(o.core, y) <==> IsPrimary(c, y);
  }

  lemma SetSpeedAgrees(c: Core, r: Registers, x: ClientId, speed: SpeedMode)
    requires Shape(c)
    ensures var o := SetSpeed(c, x, speed);
            Shape(o.core) && (Agreement(c, r) ==> Agreement(o.core, After(r, o.actions)))
  {
    var o := SetSpeed(c, x, speed);
    SetSpeedShape(c, x, speed);
    if c.cached.Some? && Agreement(c, r) && o.actions != [] {
      ControlBytesAreHarmless(speed);
      OneAction(r, o.actions[0], c.clients[c.cached.value].profile);
    }
  }

  lemma SetCommandPart(c: Core, x: ClientId, command: bytes)
    requires Shape(c) && Configurable(command) && SetCommand(c, x, command).Some?
    ensures var c' := SetCommand(c, x, command).value.core;
            Part(c') && c'.queue == c.queue && c'.active == c.active
            && forall y :: IsPrimary(c', y) <==> IsPrimary(c, y)
  {
    var c' := SetCommand(c, x, command).value.core;
    var p := c.clients[x].profile;
    assert ProfileOk(p[RegisterOf(command).value := command]);
    assert Live(c') == Live(c);
    assert forall y :: IsPrimary(c', y) <==> IsPrimary(c, y);
  }

  lemma SetCommandShape(c: Core, x: ClientId, command: bytes)
    requires Shape(c) && Configurable(command) && SetCommand(c, x, command).Some?
    ensures Shape(SetCommand(c, x, command).value.core)
  {
    var o := SetCommand(c, x, command).value;
    SetCommandPart(c, x, command);
    forall y | IsPrimary(o.core, y) && o.core.cached != Some(y) && c.connected && c.active.None?
      ensures o.core.clients[y].profile == map[]
    {
      assert IsPrimary(c, y);
      if !IsPrimary(c, x) {
        assert y != x && o.core.clients[y] == c.clients[y] && c.cached != Some(y);
      }
    }
  }

  // An idle primary's command reaches the device at once and the cache becomes the primary: this
  // is truthful because its profile was either cached already or empty.
  lemma SetCommandAgrees(c: Core, r: Registers, x: ClientId, command: bytes)
    requires Shape(c) && Configurable(command) && SetCommand(c, x, command).Some?
    requires c.connected && Agreement(c, r)
    ensures var o := SetCommand(c, x, command).value; Agreement(o.core, After(r, o.actions))
  {
    var o := SetCommand(c, x, command).value;
    if c.active.None? && c.clients[x].primary {
      var k := RegisterOf(command).value;
      var p := c.clients[x].profile;
      assert IsPrimary(c, x);
      assert Holds(r, p);
      WriteInstalls(r, k, command);
      assert o.actions[1..] == [];
      assert After(r, o.actions) == r[k := command];
      assert Holds(r[k := command], p[k := command]);
    }
  }

  lemma OwnerCommandAgrees(c: Core, r: Registers, x: ClientId, command: bytes)
    requires Shape(c) && OwnerBytes(command) && CommandByOwner(c, x, command).Some?
    ensures Agreement(c, r) ==> Agreement(c, After(r, CommandByOwner(c, x, command).value))
  {
    OwnerBytesAreHarmless(command);
    if c.cached.Some? && Agreement(c, r) {
      OneAction(r, Write(command, OwnerCommand(x)), c.clients[c.cached.value].profile);
    }
  }

  lemma RegisterAgrees(c: Core, r: Registers, x: ClientId, primary: bool)
    requires Shape(c)
    ensures Shape(Register(c, x, primary).core)
    ensures Agreement(c, r) ==> Agreement(Register(c, x, primary).core, r)
  {
    var o := Register(c, x, primary);
    assert Live(o.core) == Live(c);
    if o.accepted {
      assert forall y :: IsPrimary(c, y) <==> y in Primaries(c);
      assert forall y | y != x :: IsPrimary(o.core, y) <==> IsPrimary(c, y);
    }
  }

  lemma GrowActiveAgrees(c: Core, r: Registers, a: ActiveJob, payload: bytes)
    requires Shape(c) && KeyingBytes(payload) && c.active == Some(a)
    requires |a.job.payload| + |payload| <= MAX_JOB_BYTES
    ensures var c' := c.(active := Some(a.(job := a.job.(payload := a.job.payload + payload))));
            var w := Write(payload, Keying(a.job.id, a.job.client));
            Shape(c') && (Agreement(c, r) ==> Agreement(c', After(r, [w])))
  {
    var c' := c.(active := Some(a.(job := a.job.(payload := a.job.payload + payload))));
    KeyingAppend(a.job.payload, payload);
    KeyingBytesAreHarmless(payload);
    assert Live(c)[0] == a.job;
    assert forall j | j in Live(c') :: j in Live(c) || j == c'.active.value.job;
    assert forall y :: IsPrimary(c', y) <==> IsPrimary(c, y);
    if c.cached.Some? && Agreement(c, r) {
      OneAction(r, Write(payload, Keying(a.job.id, a.job.client)), c.clients[c.cached.value].profile);
    }
  }

  lemma GrowLastShape(c: Core, payload: bytes)
    requires Shape(c) && KeyingBytes(payload) && c.queue != []
    requires |c.queue[|c.queue| - 1].payload| + |payload| <= MAX_JOB_BYTES
    ensures var j := c.queue[|c.queue| - 1];
            Shape(c.(queue := c.queue[|c.queue| - 1 := j.(payload := j.payload + payload)]))
  {
    var last := |c.queue| - 1;
    var j := c.queue[last];
    var c' := c.(queue := c.queue[last := j.(payload := j.payload + payload)]);
    assert j in Live(c);
    KeyingAppend(j.payload, payload);
    assert forall k | k in Live(c') :: k in Live(c) || k == c'.queue[last];
    assert forall y :: IsPrimary(c', y) <==> IsPrimary(c, y);
  }

  lemma AppendFreshPart(c: Core, j: Job)
    requires Shape(c) && j.client in c.clients && c.connected && |c.queue| < MAX_QUEUED_JOBS
    requires 1 <= |j.payload| <= MAX_JOB_BYTES && KeyingBytes(j.payload)
    ensures Part(c.(nextId := SaturatingNext(c.nextId), queue := c.queue + [j]))
  {
    var queued := c.(nextId := SaturatingNext(c.nextId), queue := c.queue + [j]);
    assert forall k | k in Live(queued) :: k in Live(c) || k == j;
    assert forall y :: IsPrimary(queued, y) <==> IsPrimary(c, y);
  }

  lemma EnqueueAgrees(c: Core, r: Registers, x: ClientId, payload: bytes, speed: Option<SpeedMode>,
                      stream: bool, now: nat)
    requires Shape(c) && KeyingBytes(payload) && Enqueue(c, x, payload, speed, stream, now).Some?
    ensures var e := Enqueue(c, x, payload, speed, stream, now).value;
            Shape(e.core) && (Agreement(c, r) ==> Agreement(e.core, After(r, e.actions)))
  {
    if AppendsToActive(c, x, stream) {
      GrowActiveAgrees(c, r, c.active.value, payload);
    } else if AppendsToLast(c, x, stream) {
      GrowLastShape(c, payload);
    } else {
      var j := Job(c.nextId, x, payload, if speed.Some? then speed.value else c.clients[x].desired, stream);
      AppendFreshPart(c, j);
      var queued := c.(nextId := SaturatingNext(c.nextId), queue := c.queue + [j]);
      if c.active.None? {
        StartOrRestoreAgrees(queued, r, now);
      } else {
        assert forall y :: IsPrimary(queued, y) <==> IsPrimary(c, y);
      }
    }
  }

  // Reconnecting empties the cache and replays the foreground profile: whatever the device held,
  // the cache is right afterwards.
  lemma ReopenAgrees(c: Core, r: Registers)
    requires Part(c) && c.active.None? && c.queue == []
    ensures var o := Restore(Connect(c));
            Shape(o.core) && Agreement(o.core, After(r, o.actions))
  {
    var c1 := Connect(c);
    assert Live(c1) == Live(c);
    assert forall x :: IsPrimary(c1, x) <==> IsPrimary(c, x);
    RestoreAgrees(c1, r);
  }

  lemma PhysicalErrorShape(c: Core)
    requires Part(c)
    ensures Shape(PhysicalError(c).core)
  {
    var o := PhysicalError(c);
    assert forall x :: IsPrimary(o.core, x) <==> IsPrimary(c, x);
  }
}
