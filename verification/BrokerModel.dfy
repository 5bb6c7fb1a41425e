// The WinKeyer broker as a state machine on values: every operation maps a state to the next
// state and the ordered actions the physical actor must perform.

module BrokerModel {
  import opened Common
  import opened WinkeyerProtocol

  type ClientId = nat
  type JobId = nat

  const MAX_JOB_BYTES: nat := 120
  const MAX_QUEUED_JOBS: nat := 64

  datatype SpeedMode = Pot | Fixed(wpm: byte)

  function SpeedCommand(s: SpeedMode): bytes {
    [0x02, match s case Pot => 0 case Fixed(wpm) => wpm]
  }

  // Which branch of the broker or actor issued a write.
  datatype Purpose =
    | ProfileReplay
    | SelectSpeed
    | Keying(job: JobId, client: ClientId)
    | StatusPoll
    | ClearBuffer(client: ClientId)
    | EmergencyOff
    | OwnerCommand(client: ClientId)
    | Configure(client: ClientId)
    | HostControl

  datatype Action =
    | Write(data: bytes, purpose: Purpose)
    | Completed(job: JobId, client: ClientId)
    | Canceled(job: JobId, client: ClientId)

  datatype Job = Job(id: JobId, client: ClientId, payload: bytes, speed: SpeedMode, stream: bool)

  datatype ActiveJob = ActiveJob(job: Job, sawBusy: bool, observedStatus: bool, startedAt: nat)

  // A profile keeps the last command per register.
  type Profile = map<nat, bytes>

  datatype Client = Client(desired: SpeedMode, primary: bool, profile: Profile)

  datatype Core = Core(
    clients: map<ClientId, Client>,
    cached: Option<ClientId>,
    queue: seq<Job>,
    active: Option<ActiveJob>,
    nextId: JobId,
    connected: bool,
    status: DeviceStatus,
    maxTx: nat)

  datatype Outcome = Outcome(core: Core, actions: seq<Action>)

  function NewCore(maxTx: nat): Core {
    Core(map[], None, [], None, 1, false, DeviceStatus(0xc0, false, false, false, false, false), maxTx)
  }

  // ---- Queue helpers ----

  // Which queued jobs a cancellation removes.
  datatype Pick = AllOf(client: ClientId) | One(client: ClientId, job: JobId)

  predicate Hits(p: Pick, j: Job) {
    j.client == p.client && (p.One? ==> j.id == p.job)
  }

  function Kept(q: seq<Job>, p: Pick): seq<Job> {
    if q == [] then [] else (if Hits(p, q[0]) then [] else [q[0]]) + Kept(q[1..], p)
  }

  function Dropped(q: seq<Job>, p: Pick): seq<Job> {
    if q == [] then [] else (if Hits(p, q[0]) then [q[0]] else []) + Dropped(q[1..], p)
  }

  function Cancellations(q: seq<Job>): seq<Action> {
    if q == [] then [] else [Canceled(q[0].id, q[0].client)] + Cancellations(q[1..])
  }

  function ActiveClient(c: Core): Option<ClientId> {
    if c.active.Some? then Some(c.active.value.job.client) else None
  }

  function ActiveCancellation(c: Core): seq<Action> {
    if c.active.Some? then [Canceled(c.active.value.job.id, c.active.value.job.client)] else []
  }

  predicate IsPrimary(c: Core, x: ClientId) {
    x in c.clients && c.clients[x].primary
  }

  // ---- Starting the next job or restoring the foreground ----

  function Replay(order: seq<nat>, p: Profile): seq<Action> {
    if order == [] then []
    else (if order[0] in p then [Write(p[order[0]], ProfileReplay)] else []) + Replay(order[1..], p)
  }

  // The writes that replay a profile, in ascending register order.
  function ProfileWrites(p: Profile): seq<Action> {
    Replay(Ascending(p.Keys), p)
  }

  function Primaries(c: Core): set<ClientId> {
    set x | x in c.clients && c.clients[x].primary
  }

  // The first primary client in identifier order.
  function Foreground(c: Core): Option<ClientId> {
    var order := Ascending(Primaries(c));
    if order == [] then None else Some(order[0])
  }

  function Restore(c: Core): Outcome {
    var fg := Foreground(c);
    var replay := fg.Some? && fg != c.cached;
    var profile := if replay && fg.value in c.clients then ProfileWrites(c.clients[fg.value].profile)
                   else [];
    var speed := if fg.Some? && fg.value in c.clients then c.clients[fg.value].desired else Pot;
    Outcome(if replay then c.(cached := fg) else c,
            profile + [Write(SpeedCommand(speed), SelectSpeed)])
  }

  // The replay that precedes a job: only when ownership of the profile changes.
  function Setup(c: Core, j: Job): seq<Action> {
    (if c.cached != Some(j.client) && j.client in c.clients
     then ProfileWrites(c.clients[j.client].profile) else [])
    + (if j.payload != [] && j.payload[0] == 0x1c then []
       else [Write(SpeedCommand(j.speed), SelectSpeed)])
  }

  function StartOrRestore(c: Core, now: nat): Outcome {
    if c.queue != [] then
      var j := c.queue[0];
      Outcome(c.(queue := c.queue[1..], cached := Some(j.client),
                 active := Some(ActiveJob(j, false, false, now))),
              Setup(c, j) + [Write(j.payload, Keying(j.id, j.client)), Write([0x15], StatusPoll)])
    else Restore(c)
  }

  // ---- Operations ----

  function Connect(c: Core): Core {
    c.(connected := true, cached := None)
  }

  function PhysicalError(c: Core): Outcome {
    Outcome(c.(connected := false, cached := None, active := None, queue := []),
            ActiveCancellation(c) + Cancellations(c.queue))
  }

  datatype Registration = Registration(core: Core, accepted: bool)

  function Register(c: Core, x: ClientId, primary: bool): Registration {
    if primary && Primaries(c) != {} then Registration(c, false)
    else Registration(c.(clients := c.clients[x := Client(Pot, primary, map[])]), true)
  }

  function DropQueued(c: Core, p: Pick): Outcome {
    Outcome(c.(queue := Kept(c.queue, p)), Cancellations(Dropped(c.queue, p)))
  }

  // Clear the device buffer, cancel the active job and move on.
  function AbortActive(c: Core, now: nat): Outcome
    requires c.active.Some?
  {
    var j := c.active.value.job;
    var next := StartOrRestore(c.(active := None), now);
    Outcome(next.core, [Write([0x0a], ClearBuffer(j.client)), Canceled(j.id, j.client)] + next.actions)
  }

  function Forget(c: Core, x: ClientId): Core {
    c.(clients := c.clients - {x}, cached := if c.cached == Some(x) then None else c.cached)
  }

  function Unregister(c: Core, x: ClientId, now: nat): Outcome {
    var d := DropQueued(Forget(c, x), AllOf(x));
    if ActiveClient(d.core) == Some(x) then
      var a := AbortActive(d.core, now);
      Outcome(a.core, d.actions + a.actions)
    else d
  }

  function SetSpeed(c: Core, x: ClientId, speed: SpeedMode): Outcome {
    if x !in c.clients then Outcome(c, []) else
      var c' := c.(clients := c.clients[x := c.clients[x].(desired := speed)]);
      Outcome(c', if c.active.None? && c.clients[x].primary
                  then [Write(SpeedCommand(speed), SelectSpeed)] else [])
  }

  // The register a command addresses; Admin registers live above the plain opcodes.
  function RegisterOf(command: bytes): Option<nat> {
    if command == [] then None
    else if command[0] == 0x00 then
      if |command| < 2 then None else Some(command[1] as int + 0x100)
    else Some(command[0])
  }

  function SetCommand(c: Core, x: ClientId, command: bytes): Option<Outcome> {
    var key := RegisterOf(command);
    if key.None? || x !in c.clients then None else
      var client := c.clients[x];
      var stored := c.(clients := c.clients[x := client.(profile := client.profile[key.value := command])]);
      if c.active.None? && client.primary then
        Some(Outcome(stored.(cached := Some(x)), [Write(command, Configure(x))]))
      else
        Some(Outcome(if c.cached == Some(x) then stored.(cached := None) else stored, []))
  }

  function CommandByOwner(c: Core, x: ClientId, command: bytes): Option<seq<Action>> {
    var allowed := if c.active.Some? then c.active.value.job.client == x else IsPrimary(c, x);
    if allowed then Some([Write(command, OwnerCommand(x))]) else None
  }

  datatype Enqueued = Enqueued(job: JobId, core: Core, actions: seq<Action>)

  predicate AppendsToActive(c: Core, x: ClientId, stream: bool) {
    stream && c.active.Some? && c.active.value.job.client == x && c.active.value.job.stream
  }

  predicate AppendsToLast(c: Core, x: ClientId, stream: bool) {
    stream && c.queue != [] && c.queue[|c.queue| - 1].client == x && c.queue[|c.queue| - 1].stream
  }

  function SaturatingNext(id: JobId): JobId {
    if id < U64_MAX then id + 1 else id
  }

  function Enqueue(c: Core, x: ClientId, payload: bytes, speed: Option<SpeedMode>, stream: bool,
                   now: nat): Option<Enqueued>
  {
    if payload == [] || |payload| > MAX_JOB_BYTES || !c.connected || x !in c.clients then None
    else if AppendsToActive(c, x, stream) then
      var a := c.active.value;
      if |a.job.payload| + |payload| > MAX_JOB_BYTES then None else
        Some(Enqueued(a.job.id,
                      c.(active := Some(a.(job := a.job.(payload := a.job.payload + payload)))),
                      [Write(payload, Keying(a.job.id, x))]))
    else if AppendsToLast(c, x, stream) then
      var last := |c.queue| - 1;
      var j := c.queue[last];
      if |j.payload| + |payload| > MAX_JOB_BYTES then None else
        Some(Enqueued(j.id, c.(queue := c.queue[last := j.(payload := j.payload + payload)]), []))
    else if |c.queue| >= MAX_QUEUED_JOBS then None
    else
      var j := Job(c.nextId, x, payload, if speed.Some? then speed.value else c.clients[x].desired, stream);
      var queued := c.(nextId := SaturatingNext(c.nextId), queue := c.queue + [j]);
      var o := if c.active.None? then StartOrRestore(queued, now) else Outcome(queued, []);
      Some(Enqueued(j.id, o.core, o.actions))
  }

  function CancelClient(c: Core, x: ClientId, includeActive: bool, now: nat): Outcome {
    var d := DropQueued(c, AllOf(x));
    if includeActive && ActiveClient(c) == Some(x) then
      var next := StartOrRestore(d.core.(active := None), now);
      Outcome(next.core,
              [Write([0x0a], ClearBuffer(x))] + d.actions + ActiveCancellation(c) + next.actions)
    else if includeActive && c.active.None? && IsPrimary(c, x) then
      Outcome(d.core, [Write([0x0a], ClearBuffer(x))] + d.actions)
    else d
  }

  datatype JobCancellation = JobCancellation(canceled: bool, core: Core, actions: seq<Action>)

  function CancelJob(c: Core, x: ClientId, id: JobId, now: nat): JobCancellation {
    if c.active.Some? && c.active.value.job.client == x && c.active.value.job.id == id then
      var a := AbortActive(c, now);
      JobCancellation(true, a.core, a.actions)
    else
      var d := DropQueued(c, One(x, id));
      JobCancellation(Dropped(c.queue, One(x, id)) != [], d.core, d.actions)
  }

  function EmergencyStop(c: Core): Outcome {
    var r := Restore(c.(active := None, queue := []));
    Outcome(r.core, [Write([0x0a, 0x0b, 0x00], EmergencyOff)] + ActiveCancellation(c)
                    + Cancellations(c.queue) + r.actions)
  }

  function CompleteActive(c: Core, now: nat): Outcome {
    if c.active.None? then Outcome(c, []) else
      var j := c.active.value.job;
      var next := StartOrRestore(c.(active := None), now);
      Outcome(next.core, [Completed(j.id, j.client)] + next.actions)
  }

  function ObserveStatus(c: Core, s: DeviceStatus, now: nat): Outcome {
    var c1 := c.(status := s);
    if c.active.None? then Outcome(c1, []) else
      var a := c.active.value.(observedStatus := true);
      if s.busy || s.waiting || s.keyDown then Outcome(c1.(active := Some(a.(sawBusy := true))), [])
      else if a.sawBusy then CompleteActive(c1.(active := Some(a)), now)
      else Outcome(c1.(active := Some(a)), [])
  }

  function ConfirmIdle(c: Core, now: nat, settle: nat): Outcome {
    if c.active.Some? && c.active.value.observedStatus
       && Elapsed(now, c.active.value.startedAt) >= settle
       && !c.status.busy && !c.status.waiting && !c.status.keyDown
    then CompleteActive(c, now) else Outcome(c, [])
  }

  function Watchdog(c: Core, now: nat): Outcome {
    if c.active.Some? && Elapsed(now, c.active.value.startedAt) >= c.maxTx then EmergencyStop(c)
    else Outcome(c, [])
  }
}
