// Opening the host session while the keyer is inside a command.

module ActorReopening {
  import opened Common
  import opened WinkeyerProtocol
  import opened BrokerModel
  import opened BrokerDevice
  import opened BrokerKeying
  import opened Ptt
  import opened ActorModel
  import opened ActorSafety
  import opened ActorDevice
  import opened ActorKeying
  import opened ActorRuns

  // What is written when the answer to Host Open has come.
  function Reopening(c: Core): seq<Action> {
    [Write(HOST_INIT, HostControl)] + Restore(Connect(c)).actions
  }

  // If the opening bytes leave the keyer between commands, the cache is right after the reopen and
  // the keyer follows the broker from then on.
  lemma ReopenBetweenCommands(c: Core, k: Keyer)
    requires Shape(c) && c.active.None? && HearBytes(k, HOST_INIT).parser == EMPTY
    ensures var k' := Hear(k, Reopening(c));
            k'.parser == EMPTY && Agreement(Restore(Connect(c)).core, k'.registers)
  {
    var k1 := HearBytes(k, HOST_INIT);
    var o := Restore(Connect(c));
    OpeningIsHeard(c, k1.registers);
    assert k1 == Keyer(k1.registers, EMPTY);
    hide Shape, Restore, Connect, HearBytes, Agreement;
    assert Reopening(c)[1..] == o.actions && Reopening(c)[0] == Write(HOST_INIT, HostControl);
  }

  // A keyer that is found between commands is one.
  lemma BetweenCommandsStays(r: Registers)
    ensures HearBytes(Keyer(r, EMPTY), HOST_INIT).parser == EMPTY
  {
    HostInitIsComplete();
    hide ApplyItems;
  }

  // An EEPROM load that lacks m bytes.
  function EepromLacking(m: nat): ParserState
    requires 1 <= m <= 256
  {
    ParserState([0x00, 0x0d] + seq(256 - m, _ => 0), Some(258))
  }

  // The bytes that complete a long command.
  lemma CompletesACommand(p: ParserState, b: bytes, n: nat)
    requires |p.command| >= 2 && p.expectedLen == Some(n) && b != [] && |p.command| + |b| == n
    ensures Feed(p, b) == Parsed(EMPTY, [Command(p.command + b)])
  {
    var last := |b| - 1;
    var q := ParserState(p.command + b[..last], Some(n));
    StaysInside(p, b[..last], n);
    FeedAppend(p, b[..last], [b[last]]);
    assert b[..last] + [b[last]] == b;
    assert q.command + [b[last]] == p.command + b;
    assert PushByte(q, b[last]) == Pushed(EMPTY, Some(Command(p.command + b)));
    assert [b[last]][1..] == [];
    assert Feed(EMPTY, []) == Parsed(EMPTY, []);
    assert [] + [Command(p.command + b)] == [Command(p.command + b)];
  }

  lemma ConfigurableIsShort(c: bytes)
    requires Configurable(c)
    ensures 1 <= |c| <= 16
  {
  }

  lemma LoadApplied(r: Registers, load: bytes)
    requires |load| >= 2 && load[0] == 0x00 && load[1] == 0x0d
    ensures ApplyItems(r, [Command(load)]) == r[0x10d := load]
  {
    var items := [Command(load)];
    assert items[1..] == [];
    assert ApplyItems(r, items) == ApplyItems(ApplyItem(r, items[0]), []);
  }

  lemma InsideHears(r: Registers, p: ParserState, b: bytes)
    requires |p.command| >= 2 && p.expectedLen == Some(258) && |p.command| + |b| < 258
    ensures HearBytes(Keyer(r, p), b) == Keyer(r, ParserState(p.command + b, Some(258)))
  {
    StaysInside(p, b, 258);
    hide Feed;
  }

  lemma LoadHeard(r: Registers, p: ParserState, b: bytes)
    requires |p.command| >= 2 && p.command[0] == 0x00 && p.command[1] == 0x0d && p.expectedLen == Some(258)
    requires b != [] && |p.command| + |b| == 258
    ensures HearBytes(Keyer(r, p), b) == Keyer(r[0x10d := p.command + b], EMPTY)
  {
    CompletesACommand(p, b, 258);
    LoadApplied(r, p.command + b);
    hide Feed, ApplyItems;
  }

  // The opening bytes and the first stored command are taken as EEPROM contents.
  lemma SwallowedOpening(r: Registers, c: bytes)
    requires 1 <= |c| <= 16
    ensures var k := Hear(Keyer(r, EepromLacking(7 + |c|)), [Write(HOST_INIT, HostControl), Write(c, ProfileReplay)]);
            k.parser == EMPTY && forall n | n in r && n != 0x10d :: n in k.registers && k.registers[n] == r[n]
  {
    hide HearBytes;
    var p := EepromLacking(7 + |c|);
    var q := ParserState(p.command + HOST_INIT, Some(258));
    var acts := [Write(HOST_INIT, HostControl), Write(c, ProfileReplay)];
    InsideHears(r, p, HOST_INIT);
    LoadHeard(r, q, c);
    var k2 := Keyer(r[0x10d := q.command + c], EMPTY);
    assert acts[1..] == [Write(c, ProfileReplay)] && acts[1..][1..] == [];
    assert Hear(Keyer(r, q), acts[1..]) == k2;
  }

  lemma FirstStored(p: Profile) returns (k: nat, rest: seq<nat>)
    requires p != map[]
    ensures Ascending(p.Keys) == [k] + rest && k in p && k !in rest && forall n | n in rest :: n in p
  {
    AscendingProperties(p.Keys);
    var n :| n in p;
    var order := Ascending(p.Keys);
    assert n in order;
    k, rest := order[0], order[1..];
    assert order == [k] + rest;
  }

  lemma {:induction false} HearAppend(k: Keyer, a: seq<Action>, b: seq<Action>)
    ensures Hear(k, a + b) == Hear(Hear(k, a), b)
    decreases |a|
  {
    hide HearBytes;
    if a == [] {
      assert a + b == b;
    } else {
      assert (a + b)[0] == a[0] && (a + b)[1..] == a[1..] + b;
      HearAppend(if a[0].Write? then HearBytes(k, a[0].data) else k, a[1..], b);
    }
  }

  // The other stored commands and the speed leave the register alone.
  lemma RestKeepsRegister(r: Registers, rest: seq<nat>, p: Profile, s: SpeedMode, k: nat)
    requires ProfileOk(p) && k in r && k !in rest && k != 0x02 && forall n | n in rest :: n in p
    ensures var k' := Hear(Keyer(r, EMPTY), Replay(rest, p) + [Write(SpeedCommand(s), SelectSpeed)]);
            k in k'.registers && k'.registers[k] == r[k]
  {
    hide Complete;
    var speed := [Write(SpeedCommand(s), SelectSpeed)];
    ReplayIsComplete(rest, p);
    FixedBytesAreComplete(s);
    ReplayInstalls(r, rest, p);
    HearAtBoundary(r, Replay(rest, p));
    var r1 := After(r, Replay(rest, p));
    HearAtBoundary(r1, speed);
    HearAppend(Keyer(r, EMPTY), Replay(rest, p), speed);
    OneCommand(SpeedCommand(s));
    hide Hear, Replay;
    var items := [Command(SpeedCommand(s))];
    assert items[1..] == [] && speed[1..] == [];
    assert After(r1, speed) == AfterWrite(r1, SpeedCommand(s));
    assert ApplyItems(r1, items) == ApplyItem(r1, items[0]);
  }

  // Whatever keyer answers, wherever it is in its stream, the cache is right after the reopen if and
  // only if the foreground client has nothing stored.
  lemma ReopenInsideACommand(c: Core)
    requires Shape(c) && c.active.None?
    ensures (forall k: Keyer | ValidParser(k.parser) ::
              Agreement(Restore(Connect(c)).core, Hear(k, Reopening(c)).registers))
            <==> (Foreground(c).None? || c.clients[Foreground(c).value].profile == map[])
  {
    RestoringActions(c);
    if Foreground(c).Some? && c.clients[Foreground(c).value].profile != map[] {
      ReopenGoesWrong(c);
    }
    hide Hear, Foreground, Reopening;
  }

  lemma RestoringActions(c: Core)
    requires Shape(c)
    ensures var fg := Foreground(c); var o := Restore(Connect(c));
            o.core.clients == c.clients && o.core.cached == fg && (fg.Some? ==> fg.value in c.clients)
    ensures var fg := Foreground(c);
            fg.Some? ==>
              Reopening(c) == [Write(HOST_INIT, HostControl)]
                              + (ProfileWrites(c.clients[fg.value].profile)
                                 + [Write(SpeedCommand(c.clients[fg.value].desired), SelectSpeed)])
  {
    ForegroundIsThePrimary(c);
    assert Primaries(Connect(c)) == Primaries(c);
  }

  lemma ReopenGoesWrong(c: Core)
    requires Shape(c) && c.active.None?
    requires Foreground(c).Some? && Foreground(c).value in c.clients && c.clients[Foreground(c).value].profile != map[]
    ensures exists k: Keyer :: ValidParser(k.parser)
                               && !Agreement(Restore(Connect(c)).core, Hear(k, Reopening(c)).registers)
  {
    var x := Foreground(c).value;
    var p := c.clients[x].profile;
    RestoringActions(c);
    var n, k := OpeningMisread(p, c.clients[x].desired);
    hide Hear, Foreground, Reopening, Restore, ValidParser;
    assert !Holds(Hear(k, Reopening(c)).registers, p);
  }

  lemma ConfigurableIsNeither(p: Profile, n: nat)
    requires ProfileOk(p) && n in p
    ensures n != 0x02 && n != 0x10d && 1 <= |p[n]| <= 16
  {
    ConfigurableIsShort(p[n]);
  }

  // A keyer that takes the opening bytes and the first stored command for its own.
  lemma OpeningMisread(p: Profile, s: SpeedMode) returns (n: nat, k: Keyer)
    requires ProfileOk(p) && p != map[]
    ensures ValidParser(k.parser) && n in p
    ensures var acts := [Write(HOST_INIT, HostControl)] + (ProfileWrites(p) + [Write(SpeedCommand(s), SelectSpeed)]);
            var r := Hear(k, acts).registers; n in r && r[n] != p[n]
  {
    hide Hear, Replay, ValidParser, EepromLacking, Configurable, ConfigRegister, RegisterOf;
    var rest;
    n, rest := FirstStored(p);
    ConfigurableIsNeither(p, n);
    k := Keyer(map[n := []], EepromLacking(7 + |p[n]|));
    SwallowedOpening(k.registers, p[n]);
    EepromIsValid(7 + |p[n]|);
    var lead := [Write(HOST_INIT, HostControl), Write(p[n], ProfileReplay)];
    var tail := Replay(rest, p) + [Write(SpeedCommand(s), SelectSpeed)];
    var k1 := Hear(k, lead);
    assert k1 == Keyer(k1.registers, EMPTY);
    RestKeepsRegister(k1.registers, rest, p, s, n);
    HearAppend(k, lead, tail);
    ReplayFirst(n, rest, p);
    assert [Write(HOST_INIT, HostControl)] + (ProfileWrites(p) + [Write(SpeedCommand(s), SelectSpeed)]) == lead + tail;
  }

  lemma EepromIsValid(m: nat)
    requires 1 <= m <= 256
    ensures ValidParser(EepromLacking(m))
  {
  }

  lemma ReplayFirst(n: nat, rest: seq<nat>, p: Profile)
    requires n in p
    ensures Replay([n] + rest, p) == [Write(p[n], ProfileReplay)] + Replay(rest, p)
  {
    assert ([n] + rest)[1..] == rest;
  }

  // ---- Maintenance while the host session reopens ----

  // A pending reopen does not keep a client from maintenance, only another holder does; and the
  // answer to Host Open, unless it is 0xff, then has the opening bytes written and takes nothing from
  // the holder.
  lemma PendingReopenAdmitsMaintenance(a: Actor, x: ClientId, command: bytes, now: nat, b: byte, found: Registers)
    requires Safe(a) && a.up && a.reopenPending
    ensures Handle(a, MaintenanceCommanding(x, command), now).reply == Done
            <==> a.maintenance.None? || a.maintenance == Some(x)
    ensures var s := Step(a, Receive(b, now, false, found));
            (s.actions != [] && s.actions[0] == Write(HOST_INIT, HostControl) && s.actor.maintenance == a.maintenance)
            <==> b != 0xff
  {
    hide Restore;
  }

  // ---- Sessions without maintenance ----

  // Proper bytes, no maintenance command, and every reopened keyer lets itself be opened.
  ghost predicate Undisturbed(a: Actor, e: Event) {
    && ProperBytes(a, e)
    && (e.Serve? ==> !e.request.MaintenanceCommanding?)
    && (e.Reconnect? ==> Hear(e.device, INITIALIZATION).parser == EMPTY)
  }

  ghost predicate OnCourse(w: World) {
    !w.bench.astray && w.actor.maintenance.None? && !w.actor.reopenPending
  }

  lemma StepStaysOnCourse(w: World, e: Event)
    requires OnCourse(w) && Enabled(w.actor, e) && Undisturbed(w.actor, e)
    ensures OnCourse(Advance(w, e))
  {
    NobodyMaintains(w.actor, e);
    hide Hear, Step, ProperBytes, Restore, Appends, NoKeying;
  }

  lemma NobodyMaintains(a: Actor, e: Event)
    requires a.maintenance.None? && !a.reopenPending && Enabled(a, e)
    requires e.Serve? ==> !e.request.MaintenanceCommanding?
    ensures var a1 := Step(a, e).actor; a1.maintenance.None? && !a1.reopenPending
  {
    hide Register, Unregister, SetSpeed, CancelClient, CancelJob, SetCommand, CommandByOwner, Enqueue;
    hide EmergencyStop, ObserveStatus, Watchdog, ConfirmIdle, Restore, PhysicalError;
  }

  lemma {:induction false} RunStaysOnCourse(w: World, es: seq<Event>, run: seq<World>, k: nat)
    requires IsRun(w, es, run, Undisturbed) && k < |run| && OnCourse(w)
    ensures OnCourse(run[k])
    decreases k
  {
    if k > 0 {
      RunStaysOnCourse(w, es, run, k - 1);
      assert Link(run[k - 1], es[k - 1], run[k], Undisturbed);
      StepStaysOnCourse(run[k - 1], es[k - 1]);
    }
    hide Advance, Enabled, OnCourse;
  }

  lemma UndisturbedIsProper(w: World, es: seq<Event>, run: seq<World>)
    requires IsRun(w, es, run, Undisturbed)
    ensures IsRun(w, es, run, ProperBytes)
  {
    hide Advance, Enabled, ProperBytes;
    forall i | 0 <= i < |es| ensures Link(run[i], es[i], run[i + 1], ProperBytes) {
      assert Link(run[i], es[i], run[i + 1], Undisturbed);
    }
  }

  // As long as nobody maintains the keyer, and every opened keyer ends up between commands, the
  // cache is right in every state with an open session, whatever else happens.
  lemma ProfileCacheAgreesWithoutMaintenance(maxTx: nat, lease: Lease, now: nat, found: Keyer, es: seq<Event>,
      run: seq<World>, k: nat)
    requires IsRun(Start(maxTx, lease, now, found), es, run, Undisturbed) && k < |run|
    requires Hear(found, INITIALIZATION).parser == EMPTY
    ensures var w := run[k];
            w.actor.up ==> Agreement(w.actor.core, w.bench.keyer.registers) && w.bench.keyer.parser == EMPTY
  {
    RunStaysOnCourse(Start(maxTx, lease, now, found), es, run, k);
    UndisturbedIsProper(Start(maxTx, lease, now, found), es, run);
    ProfileCacheAgrees(maxTx, lease, now, found, es, run, k);
    hide IsRun, Start, Agreement;
  }
}
