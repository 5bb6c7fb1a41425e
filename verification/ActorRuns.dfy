// The main results about the keyer: what holds in every state of every run.

module ActorRuns {
  import opened Common
  import opened WinkeyerProtocol
  import opened BrokerModel
  import opened BrokerLedger
  import opened BrokerDevice
  import opened BrokerKeying
  import opened Ptt
  import opened ActorModel
  import opened ActorSafety
  import opened ActorBooks
  import opened ActorDevice
  import opened ActorKeying
  import opened ActorHistory

  // The actor with everything that is observed about it.
  datatype World = World(actor: Actor, ledger: Ledger, bench: Bench, dropped: seq<Action>, seen: Seen)

  ghost function Advance(w: World, e: Event): World
    requires Enabled(w.actor, e)
  {
    var s := Step(w.actor, e);
    World(s.actor, StepLedger(w.actor, w.ledger, e), StepBench(w.actor, w.bench, e), w.dropped + s.dropped,
          Watch(w.seen, w.actor, e))
  }

  // One step of a run: the event is enabled, obeys the given rule, and leads to the next state.
  ghost predicate Link(w: World, e: Event, w': World, rule: (Actor, Event) -> bool) {
    Enabled(w.actor, e) && rule(w.actor, e) && w' == Advance(w, e)
  }

  // A run: all its states, one more than events.
  ghost predicate IsRun(w: World, es: seq<Event>, run: seq<World>, rule: (Actor, Event) -> bool) {
    && |run| == |es| + 1 && run[0] == w
    && forall i {:trigger es[i]} | 0 <= i < |es| :: Link(run[i], es[i], run[i + 1], rule)
  }

  // Every enabled event extends every run, so runs reach exactly what the steps reach.
  lemma RunsExtend(w: World, es: seq<Event>, run: seq<World>, rule: (Actor, Event) -> bool, e: Event)
    requires IsRun(w, es, run, rule)
    requires Enabled(run[|es|].actor, e) && rule(run[|es|].actor, e)
    ensures IsRun(w, es + [e], run + [Advance(run[|es|], e)], rule)
  {
    hide Link;
    var next := Advance(run[|es|], e);
    assert Link(run[|es|], e, next, rule) by { LinkAdvances(run[|es|], e, rule); }
    forall i | 0 <= i < |es + [e]| ensures Link((run + [next])[i], (es + [e])[i], (run + [next])[i + 1], rule) {
      assert i < |es| ==> Link(run[i], es[i], run[i + 1], rule);
    }
    hide Advance;
  }

  lemma LinkAdvances(w: World, e: Event, rule: (Actor, Event) -> bool)
    requires Enabled(w.actor, e) && rule(w.actor, e)
    ensures Link(w, e, Advance(w, e), rule)
  {
  }

  // Any keyer, found anywhere in its stream; any holder of the station lease.
  function Start(maxTx: nat, lease: Lease, now: nat, found: Keyer): World {
    World(Spawned(maxTx, lease, now), BLANK, Initialized(found), [], UNSEEN)
  }

  function Initialized(found: Keyer): Bench {
    var k := Hear(found, INITIALIZATION);
    Bench(k, k.parser == EMPTY, k.parser != EMPTY, map[])
  }

  ghost predicate Anything(a: Actor, e: Event) {
    true
  }

  // ---- Work, maintenance and lossless reconnects ----

  lemma {:induction false} SafeInvariant(w: World, es: seq<Event>, run: seq<World>,
                                         rule: (Actor, Event) -> bool, k: nat)
    requires IsRun(w, es, run, rule) && k < |run| && Safe(w.actor) && w.dropped == []
    ensures Safe(run[k].actor) && run[k].dropped == []
    decreases k
  {
    if k > 0 {
      SafeInvariant(w, es, run, rule, k - 1);
      assert Link(run[k - 1], es[k - 1], run[k], rule);
      StepKeepsSafe(run[k - 1].actor, es[k - 1]);
      hide Safe;
    }
  }

  lemma StartIsSafe(maxTx: nat, lease: Lease, now: nat)
    ensures Safe(Spawned(maxTx, lease, now))
  {
    assert Live(Spawned(maxTx, lease, now).core) == [];
  }

  // In every reachable state: no backlog without an active job, no job without a device, bounded
  // queue and payloads; a maintenance lease or a pending reopen excludes work; and the results
  // the reconnect loop ignores were always empty.
  lemma WorkAndMaintenance(maxTx: nat, lease: Lease, now: nat, found: Keyer, es: seq<Event>,
      run: seq<World>, k: nat)
    requires IsRun(Start(maxTx, lease, now, found), es, run, Anything) && k < |run|
    ensures var w := run[k];
            var c := w.actor.core;
            (c.active.None? ==> c.queue == [])
            && (!c.connected ==> c.active.None? && c.queue == [])
            && (w.actor.maintenance.Some? || w.actor.reopenPending ==> c.active.None? && c.queue == [])
            && |c.queue| <= MAX_QUEUED_JOBS
            && (forall j | j in Live(c) :: 1 <= |j.payload| <= MAX_JOB_BYTES)
            && w.dropped == []
  {
    StartIsSafe(maxTx, lease, now);
    SafeInvariant(Start(maxTx, lease, now, found), es, run, Anything, k);
  }

  // ---- CAT and CW exclude each other ----

  lemma {:induction false} ExclusiveInvariant(w: World, es: seq<Event>, run: seq<World>, k: nat)
    requires IsRun(w, es, run, LeaseRespected) && k < |run| && Safe(w.actor) && w.dropped == [] && Exclusive(w.actor)
    ensures Exclusive(run[k].actor)
    decreases k
  {
    if k > 0 {
      ExclusiveInvariant(w, es, run, k - 1);
      SafeInvariant(w, es, run, LeaseRespected, k - 1);
      assert Link(run[k - 1], es[k - 1], run[k], LeaseRespected);
      StepKeepsExclusive(run[k - 1].actor, es[k - 1]);
      hide Safe, Exclusive;
    }
  }

  // While a keyer job is active the keyer owns the station lease, and no CAT session can take it.
  lemma TransmitExclusion(maxTx: nat, lease: Lease, now: nat, found: Keyer, es: seq<Event>,
      run: seq<World>, k: nat, session: nat, hasPtt: bool, later: nat)
    requires IsRun(Start(maxTx, lease, now, found), es, run, LeaseRespected) && k < |run| && session != KEYER
    ensures var a := run[k].actor;
            a.core.active.Some? ==>
              a.lease.owner == Some(KEYER)
              && TryKey(a.lease, session, hasPtt, later).result != KeyResult.Keyed
              && Step(a, CatKey(session, hasPtt, later)).actor == a
              && Step(a, CatUnkey(session)).actor == a
  {
    StartIsSafe(maxTx, lease, now);
    ExclusiveInvariant(Start(maxTx, lease, now, found), es, run, k);
  }

  // ---- The books ----

  lemma {:induction false} BooksInvariant(w: World, es: seq<Event>, run: seq<World>, k: nat)
    requires IsRun(w, es, run, FreshIds) && k < |run| && Safe(w.actor) && w.dropped == []
    requires Settled(w.actor.core, w.ledger)
    ensures Settled(run[k].actor.core, run[k].ledger)
    decreases k
  {
    hide Safe, Settled;
    if k > 0 {
      BooksInvariant(w, es, run, k - 1);
      SafeInvariant(w, es, run, FreshIds, k - 1);
      assert Link(run[k - 1], es[k - 1], run[k], FreshIds);
      StepKeepsBooks(run[k - 1].actor, run[k - 1].ledger, es[k - 1]);
    }
  }

  lemma StartIsSettled(maxTx: nat, lease: Lease, now: nat)
    ensures Settled(Spawned(maxTx, lease, now).core, BLANK)
  {
    assert Live(Spawned(maxTx, lease, now).core) == [];
  }

  lemma BooksOfRuns(maxTx: nat, lease: Lease, now: nat, found: Keyer, es: seq<Event>,
      run: seq<World>, k: nat)
    requires IsRun(Start(maxTx, lease, now, found), es, run, FreshIds) && k < |run|
    ensures var w := run[k]; Settled(w.actor.core, w.ledger)
  {
    StartIsSafe(maxTx, lease, now);
    StartIsSettled(maxTx, lease, now);
    hide Safe, Settled;
    BooksInvariant(Start(maxTx, lease, now, found), es, run, k);
  }

  lemma {:induction false} IssuedOnce(s: seq<Ticket>, t: Ticket)
    requires TicketsIncrease(s)
    ensures multiset(s)[t] == if t in s then 1 else 0
    decreases |s|
  {
    if s != [] {
      var rest := s[..|s| - 1];
      assert s == rest + [s[|s| - 1]];
      IssuedOnce(rest, t);
    }
  }

  // Every issued job is live or has ended, exactly once, under its submitting client's name; and
  // nothing else is live or has ended.
  lemma JobConservation(maxTx: nat, lease: Lease, now: nat, found: Keyer, es: seq<Event>,
      run: seq<World>, k: nat, t: Ticket)
    requires IsRun(Start(maxTx, lease, now, found), es, run, FreshIds) && k < |run|
    ensures var w := run[k];
            multiset(Tickets(Live(w.actor.core)))[t] + multiset(w.ledger.ended)[t]
            == (if t in w.ledger.issued then 1 else 0)
    ensures var w := run[k];
            forall u, v | u in w.ledger.issued && v in w.ledger.issued && u.job == v.job :: u == v
  {
    BooksOfRuns(maxTx, lease, now, found, es, run, k);
    var w := run[k];
    IssuedOnce(w.ledger.issued, t);
  }

  // While a job is active, every write is that job's own bytes, a command of its own client, a
  // status poll, or the clear or emergency write after which nothing is written until the job has
  // ended: the monitor that enforces this over the whole action stream is never violated, and it
  // always knows the active job.
  lemma NoInterleaving(maxTx: nat, lease: Lease, now: nat, found: Keyer, es: seq<Event>,
      run: seq<World>, k: nat)
    requires IsRun(Start(maxTx, lease, now, found), es, run, FreshIds) && k < |run|
    ensures var w := run[k];
            w.ledger.monitor ==
              if w.actor.core.active.Some? then
                Held(w.actor.core.active.value.job.id, w.actor.core.active.value.job.client)
              else Free
  {
    BooksOfRuns(maxTx, lease, now, found, es, run, k);
  }

  // Jobs start in strictly increasing identifier order; queued identifiers increase and exceed
  // both the active one and every one started; each live job stores exactly the pieces accepted
  // for it, in order; and what has been keyed for a job is nothing or all of that.
  lemma OrderAndBytes(maxTx: nat, lease: Lease, now: nat, found: Keyer, es: seq<Event>,
      run: seq<World>, k: nat)
    requires IsRun(Start(maxTx, lease, now, found), es, run, FreshIds) && k < |run|
    ensures var w := run[k];
            var c := w.actor.core; var l := w.ledger;
            Increasing(l.started) && IdsIncrease(Live(c))
            && (forall id, j | id in l.started && j in c.queue :: id < j.id)
            && (forall j | j in Live(c) :: j.id in l.accepted && l.accepted[j.id] == j.payload)
            && (forall id | id in l.keyed :: id in l.accepted && l.keyed[id] == l.accepted[id])
            && (forall j | j in c.queue :: j.id !in l.keyed)
            && (c.active.Some? ==> c.active.value.job.id in l.keyed)
  {
    BooksOfRuns(maxTx, lease, now, found, es, run, k);
    var w := run[k];
    var c := w.actor.core;
    if c.active.Some? {
      IdsIncreaseCons(c.active.value.job, c.queue);
    } else {
      assert Live(c) == c.queue;
    }
    assert forall j | j in Live(c) :: j in c.queue || (c.active.Some? && j == c.active.value.job);
  }

  // ---- The profile cache ----

  lemma {:induction false} BenchInvariant(w: World, es: seq<Event>, run: seq<World>, k: nat)
    requires IsRun(w, es, run, ProperBytes) && k < |run| && Safe(w.actor) && w.dropped == []
    requires BenchOk(w.actor, w.bench)
    ensures BenchOk(run[k].actor, run[k].bench)
    decreases k
  {
    hide Safe, BenchOk;
    if k > 0 {
      BenchInvariant(w, es, run, k - 1);
      SafeInvariant(w, es, run, ProperBytes, k - 1);
      assert Link(run[k - 1], es[k - 1], run[k], ProperBytes);
      StepKeepsBench(run[k - 1].actor, run[k - 1].bench, es[k - 1]);
    }
  }

  lemma StartIsBenchOk(maxTx: nat, lease: Lease, now: nat, found: Keyer)
    ensures BenchOk(Spawned(maxTx, lease, now), Initialized(found))
  {
    assert Live(Spawned(maxTx, lease, now).core) == [];
  }

  // In every reachable state in session, unless the session was opened while the keyer was inside a
  // command that the opening bytes did not end, or an emergency stop has cut a maintenance period
  // short since then and not restored the cache: the keyer is between commands and holds every entry
  // of the profile of the client the broker believes is applied.
  lemma ProfileCacheAgrees(maxTx: nat, lease: Lease, now: nat, found: Keyer, es: seq<Event>,
      run: seq<World>, k: nat)
    requires IsRun(Start(maxTx, lease, now, found), es, run, ProperBytes) && k < |run|
    ensures var w := run[k];
            InSession(w.actor) && !w.bench.astray ==>
              Agreement(w.actor.core, w.bench.keyer.registers) && w.bench.keyer.parser == EMPTY
  {
    StartIsSafe(maxTx, lease, now);
    StartIsBenchOk(maxTx, lease, now, found);
    BenchInvariant(Start(maxTx, lease, now, found), es, run, k);
  }

  // In those states, the writes before a job's payload would leave its client's whole profile in
  // the device, whichever job came next.
  lemma JobsStartUnderTheirProfile(maxTx: nat, lease: Lease, now: nat, found: Keyer, es: seq<Event>,
      run: seq<World>, k: nat, j: Job)
    requires IsRun(Start(maxTx, lease, now, found), es, run, ProperBytes) && k < |run|
    requires InSession(run[k].actor) && !run[k].bench.astray && j.client in run[k].actor.core.clients
    ensures var w := run[k];
            Holds(After(w.bench.keyer.registers, Setup(w.actor.core, j)),
                  w.actor.core.clients[j.client].profile)
  {
    StartIsSafe(maxTx, lease, now);
    StartIsBenchOk(maxTx, lease, now, found);
    BenchInvariant(Start(maxTx, lease, now, found), es, run, k);
    var w := run[k];
    SetupInstallsProfile(w.actor.core, w.bench.keyer.registers, j);
  }

  // In session, and possibly out of step with the keyer.
  predicate Astray(w: World) {
    InSession(w.actor) && w.bench.astray
  }

  // In every step of every run that does not extend the active job: every keying write that the
  // step emits finds the whole profile of its client in the keyer. So every job is opened under
  // its client's profile.
  lemma JobsOpenUnderTheirProfile(maxTx: nat, lease: Lease, now: nat, found: Keyer, es: seq<Event>,
      run: seq<World>, k: nat)
    requires IsRun(Start(maxTx, lease, now, found), es, run, ProperBytes) && k < |es|
    requires !Astray(run[k]) && Enabled(run[k].actor, es[k]) && !Appends(run[k].actor, es[k])
    ensures var s := Step(run[k].actor, es[k]);
            s.actor == run[k + 1].actor
            && KeyedUnder(run[k].bench.keyer.registers, s.actor.core.clients, s.actions)
  {
    var w := run[k];
    assert Link(w, es[k], run[k + 1], ProperBytes);
    StartIsSafe(maxTx, lease, now);
    StartIsBenchOk(maxTx, lease, now, found);
    BenchInvariant(Start(maxTx, lease, now, found), es, run, k);
    SafeInvariant(Start(maxTx, lease, now, found), es, run, ProperBytes, k);
    hide IsRun, Safe, Step, Shape, Agreement, Appends;
    if InSession(w.actor) {
      StepKeysUnderProfiles(w.actor, w.bench.keyer.registers, es[k]);
    } else {
      NothingKeyedOutsideTheSession(w.actor, es[k]);
      NothingKeyed(w.bench.keyer.registers, Step(w.actor, es[k]).actor.core.clients, Step(w.actor, es[k]).actions);
    }
    hide KeyedUnder;
  }

  // A step that extends the active job writes the piece first, while the keyer still holds the
  // whole profile under which the job was opened; it holds the client's current profile if the
  // client is the cached one or has nothing stored.
  lemma AppendsFindTheJobProfile(maxTx: nat, lease: Lease, now: nat, found: Keyer, es: seq<Event>,
      run: seq<World>, k: nat)
    requires IsRun(Start(maxTx, lease, now, found), es, run, ProperBytes) && k < |es|
    requires !Astray(run[k]) && Enabled(run[k].actor, es[k]) && Appends(run[k].actor, es[k])
    ensures var w := run[k]; var c := w.actor.core; var r := w.bench.keyer.registers;
            c.active.Some? && c.active.value.job.client in c.clients
            && w.bench.keyer.parser == EMPTY
            && Step(w.actor, es[k]).actions != []
            && Step(w.actor, es[k]).actions[0]
               == Write(es[k].request.payload, Keying(c.active.value.job.id, c.active.value.job.client))
            && Holds(r, w.bench.jobProfile)
            && (c.cached == Some(c.active.value.job.client) || c.clients[c.active.value.job.client].profile == map[] ==>
                  Holds(r, c.clients[c.active.value.job.client].profile))
  {
    var w := run[k];
    assert Link(w, es[k], run[k + 1], ProperBytes);
    StartIsSafe(maxTx, lease, now);
    StartIsBenchOk(maxTx, lease, now, found);
    BenchInvariant(Start(maxTx, lease, now, found), es, run, k);
    SafeInvariant(Start(maxTx, lease, now, found), es, run, ProperBytes, k);
    hide IsRun;
    AppendsInSession(w.actor, es[k]);
    AppendIsOneWrite(w.actor, es[k]);
    assert w.actor.core.active.value.job in Live(w.actor.core);
    hide Step, Appends, Safe;
  }

  lemma AppendsInSession(a: Actor, e: Event)
    requires Safe(a) && Enabled(a, e) && Appends(a, e)
    ensures InSession(a)
  {
  }

  // Outside maintenance commands, every write of every step in session ends between commands, so
  // the keyer reads the stream as it was meant.
  lemma WritesEndBetweenCommands(maxTx: nat, lease: Lease, now: nat, found: Keyer, es: seq<Event>,
      run: seq<World>, k: nat)
    requires IsRun(Start(maxTx, lease, now, found), es, run, ProperBytes) && k < |es|
    requires InSession(run[k].actor) && !run[k].bench.astray && Enabled(run[k].actor, es[k])
    requires !(es[k].Serve? && es[k].request.MaintenanceCommanding?)
    ensures AllComplete(Step(run[k].actor, es[k]).actions)
  {
    var w := run[k];
    assert Link(w, es[k], run[k + 1], ProperBytes);
    StartIsSafe(maxTx, lease, now);
    StartIsBenchOk(maxTx, lease, now, found);
    BenchInvariant(Start(maxTx, lease, now, found), es, run, k);
    SafeInvariant(Start(maxTx, lease, now, found), es, run, ProperBytes, k);
    hide IsRun;
    if Appends(w.actor, es[k]) {
      AppendIsComplete(w.actor, es[k]);
    } else {
      hide Safe, Step, Shape, Agreement, Appends;
      StepKeysUnderProfiles(w.actor, w.bench.keyer.registers, es[k]);
    }
  }

  // ---- Where the code falls short, exactly ----

  lemma EmergencyLeavesStale(c: Core)
    requires Part(c) && c.active.None? && c.queue == []
    requires Foreground(c).None? || Foreground(c) == c.cached
    requires c.cached.Some? && c.clients[c.cached.value].profile != map[]
    ensures !Agreement(EmergencyStop(c).core, After(map[], EmergencyStop(c).actions))
  {
    var fg := Foreground(c);
    ForegroundIsThePrimary(c);
    var p := c.clients[c.cached.value].profile;
    var k :| k in p;
    var speed := if fg.Some? then c.clients[fg.value].desired else Pot;
    assert c.(active := None, queue := []) == c;
    EmergencyLeavesRegister(map[], speed, k);
    assert EmergencyStop(c).actions
        == [Write([0x0a, 0x0b, 0x00], EmergencyOff)] + [Write(SpeedCommand(speed), SelectSpeed)];
    assert k !in After(map[], EmergencyStop(c).actions);
    assert EmergencyStop(c).core == c;
  }

  // An emergency stop during maintenance skips the reopen. If it finds the keyer between commands, the
  // cache is right afterwards whatever maintenance did to the device if and only if the stop replays
  // the foreground profile, or the cache is empty, or the cached profile has nothing in it. If
  // maintenance left the keyer inside a command, see EmergencyInsideACommand.
  lemma EmergencyDuringMaintenance(c: Core)
    requires Part(c) && c.active.None? && c.queue == []
    ensures (forall r :: Agreement(EmergencyStop(c).core, After(r, EmergencyStop(c).actions))) <==> StopRestoresCache(c)
  {
    if StopRestoresCache(c) {
      forall r ensures Agreement(EmergencyStop(c).core, After(r, EmergencyStop(c).actions)) {
        EmergencyRestores(c, r);
      }
    } else {
      EmergencyLeavesStale(c);
    }
  }

  // The emergency bytes and a speed command configure nothing.
  lemma EmergencyLeavesRegister(r: Registers, speed: SpeedMode, k: nat)
    requires ConfigRegister(k) && k !in r
    ensures k !in After(r, [Write([0x0a, 0x0b, 0x00], EmergencyOff)]
                                        + [Write(SpeedCommand(speed), SelectSpeed)])
  {
    var a := Write([0x0a, 0x0b, 0x00], EmergencyOff);
    var b := Write(SpeedCommand(speed), SelectSpeed);
    EmergencyBytes();
    OneCommand(SpeedCommand(speed));
    AfterAppend(r, [a], [b]);
    HarmlessItemsAdd(r, Feed(EMPTY, a.data).items, k);
    assert After(r, [a]) == AfterWrite(r, a.data);
    HarmlessItemsAdd(AfterWrite(r, a.data), Feed(EMPTY, b.data).items, k);
    assert After(AfterWrite(r, a.data), [b]) == AfterWrite(AfterWrite(r, a.data), b.data);
  }

  lemma {:induction false} HarmlessItemsAdd(r: Registers, items: seq<ClientItem>, k: nat)
    requires k !in r
    requires forall i | i in items && i.Command? :: RegisterOf(i.command) != Some(k)
    ensures k !in ApplyItems(r, items)
    decreases |items|
  {
    if items != [] {
      assert items[0] in items;
      HarmlessItemsAdd(ApplyItem(r, items[0]), items[1..], k);
    }
  }

  // The client whose profile the broker believes applied once the foreground has been restored.
  function BelievedAfterStop(c: Core): Option<ClientId> {
    if Foreground(c).Some? then Foreground(c) else c.cached
  }

  // A keyer left inside a command by maintenance can take the emergency bytes, and whatever else is
  // written, as parameters. In a settled broker, the cache is right after an emergency stop that
  // skips the reopen, whatever the keyer holds and wherever it is in its stream, if and only if the
  // foreground client, or without one the cached client, has nothing stored.
  lemma EmergencyInsideACommand(c: Core)
    requires Shape(c) && c.connected && c.active.None?
    ensures var y := BelievedAfterStop(c);
            (forall k: Keyer :: Agreement(EmergencyStop(c).core, Hear(k, EmergencyStop(c).actions).registers))
            <==> (y.None? || c.clients[y.value].profile == map[])
  {
    var o := EmergencyStop(c);
    var fg := Foreground(c);
    ForegroundIsThePrimary(c);
    assert c.(active := None, queue := []) == c;
    assert o.core.cached == BelievedAfterStop(c);
    if o.core.cached.Some? && c.clients[o.core.cached.value].profile != map[] {
      assert fg.None? || fg == c.cached;
      var speed := if fg.Some? then c.clients[fg.value].desired else Pot;
      assert o.actions == [Write([0x0a, 0x0b, 0x00], EmergencyOff)] + [Write(SpeedCommand(speed), SelectSpeed)];
      Swallowed(speed);
      var p := c.clients[o.core.cached.value].profile;
      var k :| k in p;
      assert !Agreement(o.core, Hear(Keyer(map[], INSIDE_EEPROM), o.actions).registers);
    }
  }

  // Inside a 258-byte EEPROM load.
  const INSIDE_EEPROM := ParserState([0x00, 0x0d], Some(258))

  lemma Swallowed(speed: SpeedMode)
    ensures Hear(Keyer(map[], INSIDE_EEPROM),
                 [Write([0x0a, 0x0b, 0x00], EmergencyOff)] + [Write(SpeedCommand(speed), SelectSpeed)]).registers == map[]
  {
    var acts := [Write([0x0a, 0x0b, 0x00], EmergencyOff)] + [Write(SpeedCommand(speed), SelectSpeed)];
    var b := [0x0a, 0x0b, 0x00] + SpeedCommand(speed);
    HearsOneStream(Keyer(map[], INSIDE_EEPROM), acts);
    var none: seq<Action> := [];
    assert acts[1..] == [Write(SpeedCommand(speed), SelectSpeed)] && acts[1..][1..] == none;
    assert Written(acts[1..]) == SpeedCommand(speed) + Written(none);
    assert Written(acts) == b;
    StaysInside(INSIDE_EEPROM, b, 258);
  }

  // Bytes inside a long command produce nothing.
  lemma {:induction false} StaysInside(p: ParserState, b: bytes, n: nat)
    requires |p.command| >= 2 && p.expectedLen == Some(n) && |p.command| + |b| < n
    ensures Feed(p, b) == Parsed(ParserState(p.command + b, Some(n)), [])
    decreases |b|
  {
    if b == [] {
      assert p.command + b == p.command;
    } else {
      var q := ParserState(p.command + [b[0]], Some(n));
      assert PushByte(p, b[0]) == Pushed(q, None);
      StaysInside(q, b[1..], n);
      assert p.command + b == q.command + b[1..];
    }
  }

  // Identifiers saturate: a fresh submission leaves the counter on a new identifier if and only
  // if the counter was below its ceiling.
  lemma IdentifiersSaturate(c: Core, x: ClientId, payload: bytes, speed: Option<SpeedMode>,
                            stream: bool, now: nat)
    requires Enqueue(c, x, payload, speed, stream, now).Some?
    requires !AppendsToActive(c, x, stream) && !AppendsToLast(c, x, stream) && c.nextId <= U64_MAX
    ensures var e := Enqueue(c, x, payload, speed, stream, now).value;
            e.job == c.nextId && (e.core.nextId != e.job <==> c.nextId < U64_MAX)
  {
    var j := Job(c.nextId, x, payload, if speed.Some? then speed.value else c.clients[x].desired, stream);
    RestoreIsQuiet(c.(nextId := SaturatingNext(c.nextId), queue := c.queue + [j]));
  }

  // At the ceiling two submissions in a row are given the same identifier, and both jobs wait.
  lemma TwoJobsShareAnIdentifier(c: Core, x: ClientId, y: ClientId, p: bytes, q: bytes, now: nat)
    requires c.nextId == U64_MAX && c.active.Some? && |c.queue| + 2 <= MAX_QUEUED_JOBS && c.connected
    requires x in c.clients && y in c.clients && x != y
    requires p != [] && |p| <= MAX_JOB_BYTES && q != [] && |q| <= MAX_JOB_BYTES
    ensures var first := Enqueue(c, x, p, None, false, now);
            first.Some? && var second := Enqueue(first.value.core, y, q, None, false, now);
            second.Some? && first.value.job == second.value.job == U64_MAX
            && var waiting := second.value.core.queue; var n := |waiting|;
               n >= 2 && waiting[n - 2].id == waiting[n - 1].id && waiting[n - 2].client != waiting[n - 1].client
  {
  }

  // While reconnecting, a refused submission can leave the keyer holding the station lease: it
  // does exactly when the submission is well formed, the key is up and no CAT session holds it.
  lemma RefusedSubmissionKeepsLease(a: Actor, r: Request, now: nat, fails: bool)
    requires Safe(a) && !a.up && !a.stopped && r.Enqueueing? && a.lease.owner != Some(KEYER)
    ensures var s := Step(a, Serve(r, now, fails));
            s.reply.Refused? && s.actor.core == a.core
            && (s.actor.lease.owner == Some(KEYER) <==>
                  r.payload != [] && |r.payload| <= MAX_JOB_BYTES
                  && !SnapshotBusy(a.core) && !a.core.status.breakIn && !a.core.status.keyDown
                  && a.lease.owner.None?)
  {
  }

  // Stream bytes go behind everything their client still has waiting, unless they extend the
  // client's active job while the client also has a queued one; then they overtake it.
  lemma StreamOvertakesIff(c: Core, l: Ledger, x: ClientId, payload: bytes, speed: Option<SpeedMode>,
                           stream: bool, now: nat)
    requires Ordered(c, l) && Work(c)
    requires Enqueue(c, x, payload, speed, stream, now).Some?
    ensures var e := Enqueue(c, x, payload, speed, stream, now).value;
            (forall j | j in Live(c) && j.client == x :: j.id <= e.job)
            <==> !(AppendsToActive(c, x, stream) && exists j :: j in c.queue && j.client == x)
  {
    var e := Enqueue(c, x, payload, speed, stream, now).value;
    assert forall j | j in Live(c) :: j in c.queue || (c.active.Some? && j == c.active.value.job);
    if AppendsToActive(c, x, stream) {
      assert e.job == c.active.value.job.id;
      assert forall j | j in c.queue :: j in Live(c) && e.job < j.id;
    } else if AppendsToLast(c, x, stream) {
      var last := |c.queue| - 1;
      assert e.job == c.queue[last].id && c.queue[last] in c.queue;
      forall j | j in c.queue ensures j.id <= e.job {
        var i :| 0 <= i < |c.queue| && c.queue[i] == j;
      }
    } else {
      assert e.job == c.nextId;
    }
  }

  // The station watchdog releases whatever owner it read before: it takes the lease from a keyer
  // job exactly when it had found the keyer's lease expired and a keyer job is active now, started
  // before the read or since. Reading takes nothing.
  lemma WatchdogFreesKeyerLeaseIff(a: Actor, now: nat, maxTx: nat)
    requires Exclusive(a)
    ensures a.expiring.None? ==> Exclusive(Step(a, ExpiryRead(now, maxTx)).actor)
    ensures a.expiring.Some? ==>
              (Exclusive(Step(a, ExpiryRelease).actor) <==> !(a.core.active.Some? && a.expiring == Some(KEYER)))
  {
  }

  // During one client's maintenance, another client's Clear reaches the device exactly when that
  // client is the primary one.
  lemma ClearDuringMaintenance(a: Actor, x: ClientId, now: nat)
    requires Safe(a) && a.maintenance.Some? && a.maintenance.value != x
    ensures var h := Handle(a, Cancelling(x, true), now);
            h.actions == (if IsPrimary(a.core, x) then [Write([0x0a], ClearBuffer(x))] else [])
            && h.actor.core == a.core && h.actor.maintenance == a.maintenance
  {
    assert a.core.(queue := []) == a.core;
    assert [Write([0x0a], ClearBuffer(x))] + [] == [Write([0x0a], ClearBuffer(x))];
  }
}
