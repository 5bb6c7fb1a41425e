// What every broker operation does to the books kept over the returned actions: which jobs were
// issued and ended, which bytes were accepted and keyed, and who may write while a job is active.

module BrokerLedger {
  import opened Common
  import opened WinkeyerProtocol
  import opened BrokerModel

  datatype Ticket = Ticket(job: JobId, client: ClientId)

  // The write-exclusion monitor. It reads only the action stream.
  datatype Monitor =
    | Free
    | Held(job: JobId, client: ClientId)
    | Closing(job: JobId, client: ClientId)
    | Violated

  function WatchWrite(m: Monitor, why: Purpose): Monitor {
    match m
    case Free => if why.Keying? then Held(why.job, why.client) else Free
    case Held(id, x) =>
      (match why
       case Keying(id', x') => if id == id' && x == x' then m else Violated
       case OwnerCommand(y) => if x == y then m else Violated
       case StatusPoll => m
       case ClearBuffer(y) => if x == y then Closing(id, x) else Violated
       case EmergencyOff => Closing(id, x)
       case _ => Violated)
    case _ => Violated
  }

  // A terminal action for the holder frees the device; a terminal for a queued job changes nothing.
  function WatchEnd(m: Monitor, t: Ticket): Monitor {
    match m
    case Held(id, x) => if t.job == id then (if t.client == x then Free else Violated) else m
    case Closing(id, x) => if t.job == id then (if t.client == x then Free else Violated) else m
    case _ => m
  }

  datatype Ledger = Ledger(
    issued: seq<Ticket>,
    ended: seq<Ticket>,
    accepted: map<JobId, bytes>,
    keyed: map<JobId, bytes>,
    started: seq<JobId>,
    monitor: Monitor)

  const BLANK := Ledger([], [], map[], map[], [], Free)

  function Grown(m: map<JobId, bytes>, id: JobId, b: bytes): map<JobId, bytes> {
    m[id := (if id in m then m[id] else []) + b]
  }

  function Note(l: Ledger, a: Action): Ledger {
    match a
    case Write(b, why) =>
      (if why.Keying? then
         l.(keyed := Grown(l.keyed, why.job, b),
            started := if why.job in l.keyed then l.started else l.started + [why.job])
       else l).(monitor := WatchWrite(l.monitor, why))
    case Completed(id, x) =>
      l.(ended := l.ended + [Ticket(id, x)], monitor := WatchEnd(l.monitor, Ticket(id, x)))
    case Canceled(id, x) =>
      l.(ended := l.ended + [Ticket(id, x)], monitor := WatchEnd(l.monitor, Ticket(id, x)))
  }

  function NoteAll(l: Ledger, acts: seq<Action>): Ledger
    decreases |acts|
  {
    if acts == [] then l else NoteAll(Note(l, acts[0]), acts[1..])
  }

  // An accepted submission: a fresh identifier is also an issue.
  function Accept(l: Ledger, id: JobId, x: ClientId, payload: bytes): Ledger {
    l.(accepted := Grown(l.accepted, id, payload),
       issued := if id in l.accepted then l.issued else l.issued + [Ticket(id, x)])
  }

  lemma {:induction false} NoteAppend(l: Ledger, a: seq<Action>, b: seq<Action>)
    ensures NoteAll(l, a + b) == NoteAll(NoteAll(l, a), b)
    decreases |a|
  {
    if a == [] {
      assert a + b == b;
    } else {
      assert (a + b)[1..] == a[1..] + b;
      NoteAppend(Note(l, a[0]), a[1..], b);
    }
  }

  lemma NoteTwo(l: Ledger, a: Action, b: Action)
    ensures NoteAll(l, [a, b]) == Note(Note(l, a), b)
  {
    assert [a, b][1..] == [b];
    assert NoteAll(Note(l, a), [b]) == NoteAll(Note(Note(l, a), b), []);
  }

  // ---- The books of a state ----

  function Live(c: Core): seq<Job> {
    (if c.active.Some? then [c.active.value.job] else []) + c.queue
  }

  function Tickets(q: seq<Job>): seq<Ticket> {
    if q == [] then [] else [Ticket(q[0].id, q[0].client)] + Tickets(q[1..])
  }

  // Conservation: what was issued is exactly what is live plus what has ended.
  ghost predicate Conserved(c: Core, l: Ledger) {
    multiset(l.issued) == multiset(Tickets(Live(c))) + multiset(l.ended)
  }

  ghost predicate IdsIncrease(q: seq<Job>) {
    forall i, j :: 0 <= i < j < |q| ==> q[i].id < q[j].id
  }

  ghost predicate TicketsIncrease(s: seq<Ticket>) {
    forall i, j :: 0 <= i < j < |s| ==> s[i].job < s[j].job
  }

  ghost predicate Ordered(c: Core, l: Ledger) {
    && IdsIncrease(c.queue)
    && (forall j | j in c.queue :: j.id < c.nextId)
    && (c.active.Some? ==>
          c.active.value.job.id < c.nextId
          && forall j | j in c.queue :: c.active.value.job.id < j.id)
    && TicketsIncrease(l.issued)
    && (forall t | t in l.issued :: t.job < c.nextId)
    && Increasing(l.started)
    && (forall id | id in l.started :: id < c.nextId)
    && (forall id, j | id in l.started && j in c.queue :: id < j.id)
  }

  ghost predicate Accounted(c: Core, l: Ledger) {
    && (forall j | j in c.queue :: j.id in l.accepted && l.accepted[j.id] == j.payload && j.id !in l.keyed)
    && (c.active.Some? ==>
          var j := c.active.value.job;
          j.id in l.accepted && l.accepted[j.id] == j.payload
          && j.id in l.keyed && l.keyed[j.id] == j.payload)
    && (forall id | id in l.keyed :: id in l.accepted && l.keyed[id] == l.accepted[id])
    && (forall id | id in l.accepted :: id < c.nextId)
    && (forall id :: id in l.started <==> id in l.keyed)
  }

  ghost predicate Watched(c: Core, l: Ledger) {
    if c.active.Some? then
      var j := c.active.value.job;
      l.monitor == Held(j.id, j.client) || l.monitor == Closing(j.id, j.client)
    else l.monitor == Free
  }

  // Holds at every point of every operation, even between two actions.
  ghost predicate Books(c: Core, l: Ledger) {
    Conserved(c, l) && Ordered(c, l) && Accounted(c, l) && Watched(c, l)
  }

  // Between operations the device is additionally not being shut down for the active job.
  ghost predicate Settled(c: Core, l: Ledger) {
    Books(c, l) && !l.monitor.Closing?
  }

  // ---- Small facts ----

  lemma {:induction false} TicketsAppend(a: seq<Job>, b: seq<Job>)
    ensures Tickets(a + b) == Tickets(a) + Tickets(b)
  {
    if a == [] {
      assert a + b == b;
    } else {
      assert (a + b)[1..] == a[1..] + b;
      TicketsAppend(a[1..], b);
    }
  }

  lemma LiveTickets(c: Core)
    ensures multiset(Tickets(Live(c)))
         == (if c.active.Some? then multiset{Ticket(c.active.value.job.id, c.active.value.job.client)}
             else multiset{}) + multiset(Tickets(c.queue))
  {
    if c.active.Some? {
      var j := c.active.value.job;
      TicketsAppend([j], c.queue);
      assert Tickets([j]) == [Ticket(j.id, j.client)];
    } else {
      assert Live(c) == c.queue;
    }
  }

  lemma PickStep(q: seq<Job>, p: Pick)
    requires q != []
    ensures var t := [Ticket(q[0].id, q[0].client)];
            Tickets(Kept(q, p)) == (if Hits(p, q[0]) then [] else t) + Tickets(Kept(q[1..], p))
            && Tickets(Dropped(q, p)) == (if Hits(p, q[0]) then t else []) + Tickets(Dropped(q[1..], p))
  {
    var t := [Ticket(q[0].id, q[0].client)];
    assert Tickets([q[0]]) == t;
    TicketsAppend(if Hits(p, q[0]) then [] else [q[0]], Kept(q[1..], p));
    TicketsAppend(if Hits(p, q[0]) then [q[0]] else [], Dropped(q[1..], p));
  }

  lemma {:induction false} PickSplits(q: seq<Job>, p: Pick)
    ensures multiset(Tickets(q)) == multiset(Tickets(Kept(q, p))) + multiset(Tickets(Dropped(q, p)))
  {
    if q != [] {
      PickSplits(q[1..], p);
      PickStep(q, p);
      hide Kept, Dropped;
    }
  }

  lemma {:induction false} PickMembers(q: seq<Job>, p: Pick)
    ensures forall j | j in Kept(q, p) :: j in q && !Hits(p, j)
    ensures forall j | j in Dropped(q, p) :: j in q && Hits(p, j)
  {
    if q != [] {
      PickMembers(q[1..], p);
      assert q == [q[0]] + q[1..];
    }
  }

  lemma IdsIncreaseCons(j: Job, q: seq<Job>)
    requires IdsIncrease(q) && forall k | k in q :: j.id < k.id
    ensures IdsIncrease([j] + q)
  {
    var r := [j] + q;
    forall a, b | 0 <= a < b < |r| ensures r[a].id < r[b].id {
      assert r[b] == q[b - 1] && q[b - 1] in q;
    }
  }

  lemma TailIncreases(q: seq<Job>)
    requires IdsIncrease(q) && q != []
    ensures IdsIncrease(q[1..]) && forall k | k in q[1..] :: q[0].id < k.id
  {
    var rest := q[1..];
    assert forall i | 0 <= i < |rest| :: rest[i] == q[i + 1];
  }

  lemma {:induction false} KeptIncreases(q: seq<Job>, p: Pick)
    requires IdsIncrease(q)
    ensures IdsIncrease(Kept(q, p))
  {
    if q != [] {
      TailIncreases(q);
      hide IdsIncrease;
      KeptIncreases(q[1..], p);
      PickMembers(q[1..], p);
      if !Hits(p, q[0]) {
        IdsIncreaseCons(q[0], Kept(q[1..], p));
      }
    } else {
      assert Kept(q, p) == q;
    }
  }

  lemma EndedAssoc(l: Ledger, t: Ticket, rest: seq<Ticket>)
    ensures (l.ended + [t]) + rest == l.ended + ([t] + rest)
  {
  }

  // Cancelling queued jobs only ends their tickets: the holder is untouched.
  lemma {:induction false} NoteCancellations(l: Ledger, q: seq<Job>)
    requires (l.monitor.Held? || l.monitor.Closing?) ==> forall j | j in q :: j.id != l.monitor.job
    ensures NoteAll(l, Cancellations(q)) == l.(ended := l.ended + Tickets(q))
    decreases |q|
  {
    if q == [] {
      assert l.ended + [] == l.ended;
    } else {
      var t := Ticket(q[0].id, q[0].client);
      var l1 := l.(ended := l.ended + [t]);
      assert q[0] in q;
      assert Note(l, Canceled(t.job, t.client)) == l1;
      NoteCancellations(l1, q[1..]);
      assert Cancellations(q)[1..] == Cancellations(q[1..]);
      EndedAssoc(l, t, Tickets(q[1..]));
    }
  }

  // Writes that do not key a job leave a free device free and change no account.
  ghost predicate Quiet(acts: seq<Action>) {
    forall a | a in acts :: a.Write? && !a.purpose.Keying?
  }

  lemma {:induction false} NoteQuiet(l: Ledger, acts: seq<Action>)
    requires l.monitor == Free && Quiet(acts)
    ensures NoteAll(l, acts) == l
    decreases |acts|
  {
    if acts != [] {
      assert acts[0] in acts;
      NoteQuiet(l, acts[1..]);
    }
  }

  lemma {:induction false} ReplayIsQuiet(order: seq<nat>, p: Profile)
    ensures Quiet(Replay(order, p))
  {
    if order != [] {
      ReplayIsQuiet(order[1..], p);
    }
  }

  lemma RestoreIsQuiet(c: Core)
    ensures Quiet(Restore(c).actions)
    ensures Restore(c).core.(cached := c.cached) == c
  {
    var fg := Foreground(c);
    if fg.Some? && fg.value in c.clients {
      ReplayIsQuiet(Ascending(c.clients[fg.value].profile.Keys), c.clients[fg.value].profile);
    }
  }

  lemma SetupIsQuiet(c: Core, j: Job)
    ensures Quiet(Setup(c, j))
  {
    if j.client in c.clients {
      ReplayIsQuiet(Ascending(c.clients[j.client].profile.Keys), c.clients[j.client].profile);
    }
  }

  // The books read only the jobs and the identifier counter.
  lemma SameJobs(c: Core, c': Core, l: Ledger)
    requires Settled(c, l)
    requires c'.queue == c.queue && c'.active == c.active && c'.nextId == c.nextId
    ensures Settled(c', l)
  {
    assert Live(c') == Live(c);
  }

  // ---- The primitives every operation is composed of ----

  // Removing queued jobs disturbs neither the order, the accounts nor the holder.
  lemma ShrinkQueue(c: Core, l: Ledger, q: seq<Job>, ended: seq<Ticket>)
    requires Ordered(c, l) && Accounted(c, l) && Watched(c, l)
    requires IdsIncrease(q) && forall j | j in q :: j in c.queue
    ensures var c' := c.(queue := q); var l' := l.(ended := ended);
            Ordered(c', l') && Accounted(c', l') && Watched(c', l')
  {
  }

  lemma DropConserves(c: Core, l: Ledger, kept: seq<Job>, gone: seq<Job>)
    requires Conserved(c, l)
    requires multiset(Tickets(c.queue)) == multiset(Tickets(kept)) + multiset(Tickets(gone))
    ensures Conserved(c.(queue := kept), l.(ended := l.ended + Tickets(gone)))
  {
    LiveTickets(c);
    LiveTickets(c.(queue := kept));
  }

  lemma DropQueuedKeepsBooks(c: Core, l: Ledger, p: Pick)
    requires Books(c, l)
    ensures var o := DropQueued(c, p);
            Books(o.core, NoteAll(l, o.actions)) && NoteAll(l, o.actions).monitor == l.monitor
  {
    hide Conserved, Accounted;
    var kept, gone := Kept(c.queue, p), Dropped(c.queue, p);
    PickSplits(c.queue, p);
    PickMembers(c.queue, p);
    KeptIncreases(c.queue, p);
    NoteCancellations(l, gone);
    ShrinkQueue(c, l, kept, l.ended + Tickets(gone));
    DropConserves(c, l, kept, gone);
  }

  lemma DropAllKeepsBooks(c: Core, l: Ledger)
    requires Books(c, l)
    ensures Books(c.(queue := []), NoteAll(l, Cancellations(c.queue)))
    ensures NoteAll(l, Cancellations(c.queue)).monitor == l.monitor
  {
    hide Conserved, Accounted;
    NoteCancellations(l, c.queue);
    ShrinkQueue(c, l, [], l.ended + Tickets(c.queue));
    DropConserves(c, l, [], c.queue);
  }

  lemma EndConserves(c: Core, l: Ledger, t: Ticket)
    requires Conserved(c, l) && c.active.Some?
    requires t == Ticket(c.active.value.job.id, c.active.value.job.client)
    ensures Conserved(c.(active := None), l.(ended := l.ended + [t], monitor := Free))
  {
    LiveTickets(c);
    LiveTickets(c.(active := None));
  }

  lemma EndAccounts(c: Core, l: Ledger, ended: seq<Ticket>)
    requires Ordered(c, l) && Accounted(c, l)
    ensures var c' := c.(active := None); var l' := l.(ended := ended, monitor := Free);
            Ordered(c', l') && Accounted(c', l')
  {
  }

  // A terminal action for the active job.
  lemma EndActiveKeepsBooks(c: Core, l: Ledger, t: Action)
    requires Books(c, l) && c.active.Some?
    requires var j := c.active.value.job; t == Completed(j.id, j.client) || t == Canceled(j.id, j.client)
    ensures Books(c.(active := None), NoteAll(l, [t]))
  {
    hide Conserved, Ordered, Accounted;
    var ticket := Ticket(c.active.value.job.id, c.active.value.job.client);
    assert NoteAll(l, [t]) == Note(l, t) == l.(ended := l.ended + [ticket], monitor := Free);
    EndConserves(c, l, ticket);
    EndAccounts(c, l, l.ended + [ticket]);
  }

  // The bookkeeping of starting the oldest queued job.
  function Started(l: Ledger, j: Job): Ledger {
    l.(keyed := Grown(l.keyed, j.id, j.payload), started := l.started + [j.id],
       monitor := Held(j.id, j.client))
  }

  lemma StartOrdered(c: Core, l: Ledger, a: ActiveJob)
    requires Ordered(c, l) && c.queue != [] && a.job == c.queue[0]
    ensures Ordered(c.(queue := c.queue[1..], active := Some(a)), Started(l, a.job))
  {
    TailIncreases(c.queue);
    assert a.job in c.queue;
    assert forall k | k in c.queue[1..] :: k in c.queue;
    IncreasingSnoc(l.started, a.job.id);
    hide IdsIncrease, Increasing, TicketsIncrease;
  }

  lemma StartAccounts(c: Core, l: Ledger, a: ActiveJob)
    requires Ordered(c, l) && Accounted(c, l) && c.queue != [] && a.job == c.queue[0]
    ensures Accounted(c.(queue := c.queue[1..], active := Some(a)), Started(l, a.job))
  {
    var j := a.job;
    var q' := c.queue[1..];
    assert j in c.queue;
    assert [] + j.payload == j.payload;
    assert forall i | 0 <= i < |q'| :: q'[i] == c.queue[i + 1];
    assert forall k | k in q' :: k in c.queue && j.id < k.id;
  }

  lemma StartKeepsBooks(c: Core, l: Ledger, a: ActiveJob, cached: Option<ClientId>)
    requires Books(c, l) && c.active.None? && c.queue != [] && a.job == c.queue[0]
    ensures Settled(c.(queue := c.queue[1..], active := Some(a), cached := cached), Started(l, a.job))
  {
    var c' := c.(queue := c.queue[1..], active := Some(a));
    StartOrdered(c, l, a);
    StartAccounts(c, l, a);
    hide Ordered, Accounted;
    assert Live(c') == Live(c);
    SameJobs(c', c'.(cached := cached), Started(l, a.job));
  }

  lemma NoteStart(c: Core, l: Ledger, j: Job)
    requires Books(c, l) && c.active.None? && c.queue != [] && j == c.queue[0]
    ensures NoteAll(l, Setup(c, j) + [Write(j.payload, Keying(j.id, j.client)), Write([0x15], StatusPoll)])
         == Started(l, j)
  {
    var key := Write(j.payload, Keying(j.id, j.client));
    var poll := Write([0x15], StatusPoll);
    assert j in c.queue && j.id !in l.keyed;
    hide Conserved, Ordered, Accounted;
    SetupIsQuiet(c, j);
    NoteQuiet(l, Setup(c, j));
    NoteAppend(l, Setup(c, j), [key, poll]);
    NoteTwo(l, key, poll);
  }

  lemma StartOrRestoreKeepsBooks(c: Core, l: Ledger, now: nat)
    requires Books(c, l) && c.active.None?
    ensures var o := StartOrRestore(c, now); Settled(o.core, NoteAll(l, o.actions))
  {
    if c.queue == [] {
      hide Conserved, Ordered, Accounted;
      RestoreIsQuiet(c);
      NoteQuiet(l, Restore(c).actions);
      SameJobs(c, Restore(c).core, l);
    } else {
      hide Settled;
      var j := c.queue[0];
      NoteStart(c, l, j);
      StartKeepsBooks(c, l, ActiveJob(j, false, false, now), Some(j.client));
    }
  }

  // ---- Every operation keeps the books ----

  // The books other than the holder do not read the monitor.
  lemma HolderMoves(c: Core, l: Ledger, m: Monitor)
    requires Books(c, l) && Watched(c, l.(monitor := m))
    ensures Books(c, l.(monitor := m))
  {
  }

  lemma NoteClearBuffer(c: Core, l: Ledger)
    requires Settled(c, l) && c.active.Some?
    ensures var clear := Write([0x0a], ClearBuffer(c.active.value.job.client));
            Books(c, Note(l, clear)) && NoteAll(l, [clear]) == Note(l, clear)
  {
    hide Conserved, Ordered, Accounted;
    var x := c.active.value.job.client;
    assert Note(l, Write([0x0a], ClearBuffer(x))) == l.(monitor := WatchWrite(l.monitor, ClearBuffer(x)));
    HolderMoves(c, l, WatchWrite(l.monitor, ClearBuffer(x)));
  }

  lemma AbortActiveKeepsBooks(c: Core, l: Ledger, now: nat)
    requires Settled(c, l) && c.active.Some?
    ensures var o := AbortActive(c, now); Settled(o.core, NoteAll(l, o.actions))
  {
    hide Conserved, Ordered, Accounted;
    var o := AbortActive(c, now);
    var j := c.active.value.job;
    var clear := Write([0x0a], ClearBuffer(j.client));
    var cancel := Canceled(j.id, j.client);
    var c1 := c.(active := None);
    var l1 := Note(l, clear);
    NoteTwo(l, clear, cancel);
    NoteClearBuffer(c, l);
    NoteAppend(l, [clear, cancel], StartOrRestore(c1, now).actions);
    assert NoteAll(l1, [cancel]) == Note(l1, cancel);
    EndActiveKeepsBooks(c, l1, cancel);
    StartOrRestoreKeepsBooks(c1, Note(l1, cancel), now);
  }

  lemma ForgetKeepsBooks(c: Core, l: Ledger, x: ClientId)
    requires Settled(c, l)
    ensures Settled(Forget(c, x), l)
  {
    SameJobs(c, Forget(c, x), l);
  }

  lemma UnregisterKeepsBooks(c: Core, l: Ledger, x: ClientId, now: nat)
    requires Settled(c, l)
    ensures var o := Unregister(c, x, now); Settled(o.core, NoteAll(l, o.actions))
  {
    hide Conserved, Ordered, Accounted;
    var f := Forget(c, x);
    ForgetKeepsBooks(c, l, x);
    DropQueuedKeepsBooks(f, l, AllOf(x));
    var d := DropQueued(f, AllOf(x));
    if ActiveClient(d.core) == Some(x) {
      AbortActiveKeepsBooks(d.core, NoteAll(l, d.actions), now);
      NoteAppend(l, d.actions, AbortActive(d.core, now).actions);
    }
  }

  lemma CancelClientKeepsBooks(c: Core, l: Ledger, x: ClientId, includeActive: bool, now: nat)
    requires Settled(c, l)
    ensures var o := CancelClient(c, x, includeActive, now); Settled(o.core, NoteAll(l, o.actions))
  {
    hide Conserved, Ordered, Accounted;
    var d := DropQueued(c, AllOf(x));
    var clear := Write([0x0a], ClearBuffer(x));
    DropQueuedKeepsBooks(c, l, AllOf(x));
    if includeActive && ActiveClient(c) == Some(x) {
      var l1 := Note(l, clear);
      NoteClearBuffer(c, l);
      DropQueuedKeepsBooks(c, l1, AllOf(x));
      var l2 := NoteAll(l1, d.actions);
      var cancel := ActiveCancellation(c)[0];
      EndActiveKeepsBooks(d.core, l2, cancel);
      var c3 := d.core.(active := None);
      var l3 := NoteAll(l2, [cancel]);
      var next := StartOrRestore(c3, now);
      StartOrRestoreKeepsBooks(c3, l3, now);
      NoteAppend(l, [clear], d.actions);
      NoteAppend(l, [clear] + d.actions, [cancel]);
      NoteAppend(l, [clear] + d.actions + [cancel], next.actions);
    } else if includeActive && c.active.None? && IsPrimary(c, x) {
      assert NoteAll(l, [clear]) == Note(l, clear) == l;
      NoteAppend(l, [clear], d.actions);
    }
  }

  lemma CancelJobKeepsBooks(c: Core, l: Ledger, x: ClientId, id: JobId, now: nat)
    requires Settled(c, l)
    ensures var o := CancelJob(c, x, id, now); Settled(o.core, NoteAll(l, o.actions))
  {
    hide Conserved, Ordered, Accounted;
    if c.active.Some? && c.active.value.job.client == x && c.active.value.job.id == id {
      AbortActiveKeepsBooks(c, l, now);
    } else {
      DropQueuedKeepsBooks(c, l, One(x, id));
    }
  }

  // Everything live is cancelled: first the active job, then the queue.
  lemma CancelEverything(c: Core, l: Ledger)
    requires Books(c, l)
    ensures Settled(c.(active := None, queue := []),
                    NoteAll(l, ActiveCancellation(c) + Cancellations(c.queue)))
  {
    hide Conserved, Ordered, Accounted;
    NoteAppend(l, ActiveCancellation(c), Cancellations(c.queue));
    var l1 := NoteAll(l, ActiveCancellation(c));
    if c.active.Some? {
      EndActiveKeepsBooks(c, l, ActiveCancellation(c)[0]);
    } else {
      assert c.(active := None) == c;
    }
    DropAllKeepsBooks(c.(active := None), l1);
  }

  lemma NoteEmergencyOff(c: Core, l: Ledger)
    requires Settled(c, l)
    ensures Books(c, NoteAll(l, [Write([0x0a, 0x0b, 0x00], EmergencyOff)]))
  {
    hide Conserved, Ordered, Accounted;
    var off := Write([0x0a, 0x0b, 0x00], EmergencyOff);
    assert NoteAll(l, [off]) == Note(l, off) == l.(monitor := WatchWrite(l.monitor, EmergencyOff));
    HolderMoves(c, l, WatchWrite(l.monitor, EmergencyOff));
  }

  lemma SwitchOff(c: Core, l: Ledger)
    requires Settled(c, l)
    ensures Settled(c.(active := None, queue := []),
                    NoteAll(l, [Write([0x0a, 0x0b, 0x00], EmergencyOff)] + ActiveCancellation(c)
                               + Cancellations(c.queue)))
  {
    hide Conserved, Ordered, Accounted;
    var off := Write([0x0a, 0x0b, 0x00], EmergencyOff);
    var cancels := ActiveCancellation(c) + Cancellations(c.queue);
    NoteEmergencyOff(c, l);
    CancelEverything(c, NoteAll(l, [off]));
    NoteAppend(l, [off], cancels);
    assert [off] + ActiveCancellation(c) + Cancellations(c.queue) == [off] + cancels;
  }

  lemma EmergencyStopKeepsBooks(c: Core, l: Ledger)
    requires Settled(c, l)
    ensures var o := EmergencyStop(c); Settled(o.core, NoteAll(l, o.actions))
  {
    hide Conserved, Ordered, Accounted;
    var c1 := c.(active := None, queue := []);
    var first := [Write([0x0a, 0x0b, 0x00], EmergencyOff)] + ActiveCancellation(c) + Cancellations(c.queue);
    var r := Restore(c1);
    SwitchOff(c, l);
    RestoreIsQuiet(c1);
    NoteQuiet(NoteAll(l, first), r.actions);
    NoteAppend(l, first, r.actions);
    SameJobs(c1, r.core, NoteAll(l, first));
  }

  lemma PhysicalErrorKeepsBooks(c: Core, l: Ledger)
    requires Books(c, l)
    ensures var o := PhysicalError(c); Settled(o.core, NoteAll(l, o.actions))
  {
    hide Conserved, Ordered, Accounted;
    CancelEverything(c, l);
    SameJobs(c.(active := None, queue := []), PhysicalError(c).core, NoteAll(l, PhysicalError(c).actions));
  }

  lemma CompleteActiveKeepsBooks(c: Core, l: Ledger, now: nat)
    requires Settled(c, l)
    ensures var o := CompleteActive(c, now); Settled(o.core, NoteAll(l, o.actions))
  {
    hide Conserved, Ordered, Accounted;
    if c.active.Some? {
      var j := c.active.value.job;
      var done := Completed(j.id, j.client);
      EndActiveKeepsBooks(c, l, done);
      StartOrRestoreKeepsBooks(c.(active := None), NoteAll(l, [done]), now);
      NoteAppend(l, [done], StartOrRestore(c.(active := None), now).actions);
    }
  }

  // Nor do the books read the progress flags of the active job.
  lemma SameActiveJob(c: Core, c': Core, l: Ledger)
    requires Settled(c, l) && c'.queue == c.queue && c'.nextId == c.nextId
    requires c.active.Some? && c'.active.Some? && c'.active.value.job == c.active.value.job
    ensures Settled(c', l)
  {
    assert Live(c') == Live(c);
  }

  lemma ObserveStatusKeepsBooks(c: Core, l: Ledger, s: DeviceStatus, now: nat)
    requires Settled(c, l)
    ensures var o := ObserveStatus(c, s, now); Settled(o.core, NoteAll(l, o.actions))
  {
    hide Settled;
    var c1 := c.(status := s);
    if c.active.Some? {
      var a := c.active.value.(observedStatus := true);
      SameActiveJob(c, c1.(active := Some(a)), l);
      SameActiveJob(c, c1.(active := Some(a.(sawBusy := true))), l);
      CompleteActiveKeepsBooks(c1.(active := Some(a)), l, now);
    } else {
      SameJobs(c, c1, l);
    }
  }

  lemma WatchdogKeepsBooks(c: Core, l: Ledger, now: nat)
    requires Settled(c, l)
    ensures var o := Watchdog(c, now); Settled(o.core, NoteAll(l, o.actions))
  {
    hide Conserved, Ordered, Accounted;
    EmergencyStopKeepsBooks(c, l);
  }

  lemma ConfirmIdleKeepsBooks(c: Core, l: Ledger, now: nat, settle: nat)
    requires Settled(c, l)
    ensures var o := ConfirmIdle(c, now, settle); Settled(o.core, NoteAll(l, o.actions))
  {
    hide Conserved, Ordered, Accounted;
    CompleteActiveKeepsBooks(c, l, now);
  }

  lemma SetSpeedKeepsBooks(c: Core, l: Ledger, x: ClientId, speed: SpeedMode)
    requires Settled(c, l)
    ensures var o := SetSpeed(c, x, speed); Settled(o.core, NoteAll(l, o.actions))
  {
    hide Conserved, Ordered, Accounted;
    var o := SetSpeed(c, x, speed);
    SameJobs(c, o.core, l);
    if o.actions != [] {
      NoteQuiet(l, o.actions);
    }
  }

  lemma SetCommandKeepsBooks(c: Core, l: Ledger, x: ClientId, command: bytes)
    requires Settled(c, l) && SetCommand(c, x, command).Some?
    ensures var o := SetCommand(c, x, command).value; Settled(o.core, NoteAll(l, o.actions))
  {
    hide Conserved, Ordered, Accounted;
    var o := SetCommand(c, x, command).value;
    SameJobs(c, o.core, l);
    if o.actions != [] {
      NoteQuiet(l, o.actions);
    }
  }

  lemma OwnerCommandKeepsBooks(c: Core, l: Ledger, x: ClientId, command: bytes)
    requires Settled(c, l) && CommandByOwner(c, x, command).Some?
    ensures Settled(c, NoteAll(l, CommandByOwner(c, x, command).value))
  {
    hide Conserved, Ordered, Accounted;
    var w := Write(command, OwnerCommand(x));
    assert NoteAll(l, [w]) == Note(l, w);
    assert Note(l, w) == l;
  }

  lemma RegisterKeepsBooks(c: Core, l: Ledger, x: ClientId, primary: bool)
    requires Settled(c, l)
    ensures Settled(Register(c, x, primary).core, l)
  {
    hide Conserved, Ordered, Accounted;
    SameJobs(c, Register(c, x, primary).core, l);
  }

  // A fresh submission joins the end of the queue under the next identifier.
  lemma AppendFreshConserves(c: Core, l: Ledger, j: Job)
    requires Conserved(c, l) && j.id !in l.accepted
    ensures Conserved(c.(nextId := SaturatingNext(c.nextId), queue := c.queue + [j]),
                      Accept(l, j.id, j.client, j.payload))
  {
    LiveTickets(c);
    LiveTickets(c.(nextId := SaturatingNext(c.nextId), queue := c.queue + [j]));
    TicketsAppend(c.queue, [j]);
    assert Tickets([j]) == [Ticket(j.id, j.client)];
  }

  lemma AppendFreshOrdered(c: Core, l: Ledger, j: Job)
    requires Ordered(c, l) && j.id == c.nextId && c.nextId < U64_MAX && j.id !in l.accepted
    ensures Ordered(c.(nextId := c.nextId + 1, queue := c.queue + [j]),
                    Accept(l, j.id, j.client, j.payload))
  {
    var q := c.queue + [j];
    forall k | k in q ensures k in c.queue || k == j {
      var i :| 0 <= i < |q| && q[i] == k;
    }
    assert forall i | 0 <= i < |c.queue| :: q[i] in c.queue;
  }

  lemma AppendFreshAccounted(c: Core, l: Ledger, j: Job)
    requires Accounted(c, l) && j.id == c.nextId
    requires forall k | k in Live(c) :: k.id < j.id
    ensures Accounted(c.(nextId := c.nextId + 1, queue := c.queue + [j]),
                      Accept(l, j.id, j.client, j.payload))
  {
    var q := c.queue + [j];
    assert [] + j.payload == j.payload;
    forall k | k in q ensures k in c.queue || k == j {
      var i :| 0 <= i < |q| && q[i] == k;
    }
    assert forall k | k in c.queue :: k in Live(c);
    assert c.active.Some? ==> Live(c)[0] == c.active.value.job;
  }

  lemma AppendFresh(c: Core, l: Ledger, j: Job)
    requires Settled(c, l) && j.id == c.nextId && c.nextId < U64_MAX
    ensures Settled(c.(nextId := SaturatingNext(c.nextId), queue := c.queue + [j]),
                    Accept(l, j.id, j.client, j.payload))
  {
    AppendFreshConserves(c, l, j);
    AppendFreshOrdered(c, l, j);
    AppendFreshAccounted(c, l, j);
  }

  lemma GrowActiveAccounts(c: Core, l: Ledger, a: ActiveJob, payload: bytes)
    requires Ordered(c, l) && Accounted(c, l) && c.active == Some(a)
    ensures var id := a.job.id;
            var c' := c.(active := Some(a.(job := a.job.(payload := a.job.payload + payload))));
            var l' := l.(accepted := Grown(l.accepted, id, payload), keyed := Grown(l.keyed, id, payload));
            id in l.accepted && id in l.keyed && Ordered(c', l') && Accounted(c', l')
  {
  }

  lemma GrowActive(c: Core, l: Ledger, a: ActiveJob, payload: bytes)
    requires Settled(c, l) && c.active == Some(a)
    ensures var a' := a.(job := a.job.(payload := a.job.payload + payload));
            var w := Write(payload, Keying(a.job.id, a.job.client));
            Settled(c.(active := Some(a')),
                    NoteAll(Accept(l, a.job.id, a.job.client, payload), [w]))
  {
    var id := a.job.id;
    var c' := c.(active := Some(a.(job := a.job.(payload := a.job.payload + payload))));
    var w := Write(payload, Keying(id, a.job.client));
    var l1 := Accept(l, id, a.job.client, payload);
    GrowActiveAccounts(c, l, a, payload);
    hide Ordered, Accounted;
    assert NoteAll(l1, [w]) == Note(l1, w);
    assert Note(l1, w)
        == l.(accepted := Grown(l.accepted, id, payload), keyed := Grown(l.keyed, id, payload));
    LiveTickets(c);
    LiveTickets(c');
  }

  lemma GrowLastConserves(c: Core, l: Ledger, l': Ledger, j: Job, j': Job)
    requires Conserved(c, l) && l'.issued == l.issued && l'.ended == l.ended
    requires c.queue != [] && c.queue[|c.queue| - 1] == j
    requires j'.id == j.id && j'.client == j.client
    ensures Conserved(c.(queue := c.queue[|c.queue| - 1 := j']), l')
  {
    var last := |c.queue| - 1;
    assert c.queue == c.queue[..last] + [j];
    assert c.queue[last := j'] == c.queue[..last] + [j'];
    TicketsAppend(c.queue[..last], [j]);
    TicketsAppend(c.queue[..last], [j']);
    assert Tickets([j]) == Tickets([j']);
    LiveTickets(c);
    LiveTickets(c.(queue := c.queue[last := j']));
  }

  lemma GrowLastMembers(q: seq<Job>, j': Job)
    requires q != [] && IdsIncrease(q) && j'.id == q[|q| - 1].id
    ensures var q' := q[|q| - 1 := j'];
            IdsIncrease(q') && forall k | k in q' :: k == j' || (k in q && k.id < j'.id)
  {
  }

  lemma GrowLastAccounts(c: Core, l: Ledger, j: Job, j': Job, payload: bytes)
    requires Ordered(c, l) && Accounted(c, l) && c.queue != [] && c.queue[|c.queue| - 1] == j
    requires j' == j.(payload := j.payload + payload)
    ensures var c' := c.(queue := c.queue[|c.queue| - 1 := j']);
            var l' := l.(accepted := l.accepted[j.id := j'.payload]);
            j.id in l.accepted && l.accepted[j.id] == j.payload && Ordered(c', l') && Accounted(c', l')
  {
    assert j in c.queue;
    GrowLastMembers(c.queue, j');
    hide IdsIncrease, Increasing, TicketsIncrease;
  }

  lemma GrowLast(c: Core, l: Ledger, payload: bytes)
    requires Settled(c, l) && c.queue != []
    ensures var last := |c.queue| - 1; var j := c.queue[last];
            Settled(c.(queue := c.queue[last := j.(payload := j.payload + payload)]),
                    Accept(l, j.id, j.client, payload))
  {
    hide Conserved, Ordered, Accounted;
    var last := |c.queue| - 1;
    var j := c.queue[last];
    var j' := j.(payload := j.payload + payload);
    GrowLastAccounts(c, l, j, j', payload);
    GrowLastConserves(c, l, l.(accepted := l.accepted[j.id := j'.payload]), j, j');
    assert Accept(l, j.id, j.client, payload) == l.(accepted := l.accepted[j.id := j'.payload]);
  }

  lemma EnqueueKeepsBooks(c: Core, l: Ledger, x: ClientId, payload: bytes, speed: Option<SpeedMode>,
                          stream: bool, now: nat)
    requires Settled(c, l) && c.nextId < U64_MAX
    requires Enqueue(c, x, payload, speed, stream, now).Some?
    ensures var e := Enqueue(c, x, payload, speed, stream, now).value;
            Settled(e.core, NoteAll(Accept(l, e.job, x, payload), e.actions))
  {
    hide Conserved, Ordered, Accounted;
    var e := Enqueue(c, x, payload, speed, stream, now).value;
    if AppendsToActive(c, x, stream) {
      GrowActive(c, l, c.active.value, payload);
    } else if AppendsToLast(c, x, stream) {
      GrowLast(c, l, payload);
    } else {
      var j := Job(c.nextId, x, payload, if speed.Some? then speed.value else c.clients[x].desired, stream);
      AppendFresh(c, l, j);
      var queued := c.(nextId := SaturatingNext(c.nextId), queue := c.queue + [j]);
      if c.active.None? {
        StartOrRestoreKeepsBooks(queued, Accept(l, j.id, x, payload), now);
      }
    }
  }
}
