// Which jobs each broker operation ends, and how; and what it starts.

module BrokerEndings {
  import opened Common
  import opened WinkeyerProtocol
  import opened BrokerModel
  import opened BrokerLedger
  import opened BrokerKeying

  predicate ActiveAs(c: Core, id: JobId, x: ClientId) {
    c.active.Some? && c.active.value.job.id == id && c.active.value.job.client == x
  }

  ghost predicate QueuedAs(c: Core, id: JobId, x: ClientId) {
    exists j | j in c.queue :: j.id == id && j.client == x
  }

  ghost predicate LiveAs(c: Core, id: JobId, x: ClientId) {
    ActiveAs(c, id, x) || QueuedAs(c, id, x)
  }

  // What is active afterwards was active before, or has just been opened.
  ghost predicate Turns(c: Core, c': Core, acts: seq<Action>, now: nat) {
    c'.status == c.status && c'.maxTx == c.maxTx
    && (c'.active.Some? ==>
          if NoKeying(acts) then c'.active == c.active
          else c'.active == Some(ActiveJob(c'.active.value.job, false, false, now)))
  }

  ghost predicate OnlyWrites(acts: seq<Action>) {
    forall a | a in acts :: a.Write?
  }

  ghost predicate NothingCompleted(acts: seq<Action>) {
    forall a | a in acts :: !a.Completed?
  }

  lemma {:induction false} ReplayOnlyWrites(order: seq<nat>, p: Profile)
    ensures OnlyWrites(Replay(order, p)) && NoKeying(Replay(order, p))
    decreases |order|
  {
    if order != [] {
      ReplayOnlyWrites(order[1..], p);
    }
  }

  lemma RestoreOnlyWrites(c: Core)
    ensures OnlyWrites(Restore(c).actions) && NoKeying(Restore(c).actions)
    ensures var o := Restore(c); o.core == c.(cached := o.core.cached)
  {
    var fg := Foreground(c);
    if fg.Some? && fg.value in c.clients {
      ReplayOnlyWrites(Ascending(c.clients[fg.value].profile.Keys), c.clients[fg.value].profile);
    }
    hide Replay, Foreground;
  }

  lemma SetupOnlyWrites(c: Core, j: Job)
    ensures OnlyWrites(Setup(c, j)) && NoKeying(Setup(c, j))
  {
    if j.client in c.clients {
      ReplayOnlyWrites(Ascending(c.clients[j.client].profile.Keys), c.clients[j.client].profile);
    }
    hide Replay;
  }

  // The next job is opened exactly when one waits: the first.
  lemma StartTurns(c: Core, now: nat)
    requires c.active.None?
    ensures var o := StartOrRestore(c, now);
            OnlyWrites(o.actions) && (NoKeying(o.actions) <==> c.queue == []) && o.core.clients == c.clients
            && o.core.status == c.status && o.core.maxTx == c.maxTx
            && (if c.queue == [] then o.core.active.None? && o.core.queue == []
                else o.core.active == Some(ActiveJob(c.queue[0], false, false, now)) && o.core.queue == c.queue[1..])
  {
    if c.queue == [] {
      RestoreOnlyWrites(c);
    } else {
      var j := c.queue[0];
      SetupOnlyWrites(c, j);
      var key := Write(j.payload, Keying(j.id, j.client));
      assert StartOrRestore(c, now).actions == Setup(c, j) + [key, Write([0x15], StatusPoll)];
      hide Setup;
      assert key in StartOrRestore(c, now).actions && IsKeying(key);
    }
  }

  lemma {:induction false} CancellationsName(q: seq<Job>)
    ensures NoKeying(Cancellations(q)) && NothingCompleted(Cancellations(q))
    ensures forall id, x :: Canceled(id, x) in Cancellations(q) <==> exists j | j in q :: j.id == id && j.client == x
    decreases |q|
  {
    if q != [] {
      CancellationsName(q[1..]);
      forall id, x
        ensures Canceled(id, x) in Cancellations(q) <==> exists j | j in q :: j.id == id && j.client == x
      {
        assert q == [q[0]] + q[1..];
        if Canceled(id, x) in Cancellations(q) && !(q[0].id == id && q[0].client == x) {
          assert Canceled(id, x) in Cancellations(q[1..]);
        }
      }
    }
  }

  lemma {:induction false} DroppedAre(q: seq<Job>, p: Pick)
    ensures forall j :: j in Dropped(q, p) <==> j in q && j.client == p.client && (p.One? ==> j.id == p.job)
    ensures forall j :: j in Kept(q, p) <==> j in q && !(j.client == p.client && (p.One? ==> j.id == p.job))
    decreases |q|
  {
    if q != [] {
      DroppedAre(q[1..], p);
      assert q == [q[0]] + q[1..];
    }
  }

  // What a removal from the queue announces.
  lemma DropNames(c: Core, p: Pick)
    ensures var acts := Cancellations(Dropped(c.queue, p));
            NoKeying(acts) && NothingCompleted(acts)
            && forall id, x :: Canceled(id, x) in acts <==>
                 QueuedAs(c, id, x) && x == p.client && (p.One? ==> id == p.job)
  {
    DroppedAre(c.queue, p);
    CancellationsName(Dropped(c.queue, p));
    hide Dropped, Cancellations;
  }

  // Actions in front of those that start the next job.
  lemma LeadTurns(c: Core, c1: Core, lead: seq<Action>, now: nat)
    requires c1.active.None? && NoKeying(lead) && c1.status == c.status && c1.maxTx == c.maxTx
    ensures var o := StartOrRestore(c1, now);
            Turns(c, o.core, lead + o.actions, now)
            && forall a: Action | !a.Write? :: a in lead + o.actions <==> a in lead
  {
    StartTurns(c1, now);
    var o := StartOrRestore(c1, now);
    hide StartOrRestore;
    if o.core.active.Some? {
      assert exists a :: a in o.actions && IsKeying(a);
      var a :| a in o.actions && IsKeying(a);
      assert a in lead + o.actions;
    }
  }

  lemma AbortTurns(c: Core, now: nat)
    requires c.active.Some?
    ensures var o := AbortActive(c, now); var j := c.active.value.job;
            Turns(c, o.core, o.actions, now) && NothingCompleted(o.actions) && o.core.clients == c.clients
            && forall id, x :: Canceled(id, x) in o.actions <==> id == j.id && x == j.client
  {
    var j := c.active.value.job;
    var lead := [Write([0x0a], ClearBuffer(j.client)), Canceled(j.id, j.client)];
    LeadTurns(c, c.(active := None), lead, now);
    StartTurns(c.(active := None), now);
    hide StartOrRestore;
    assert forall a: Action | a.Completed? :: a in AbortActive(c, now).actions <==> a in lead;
  }

  // Unregistering cancels every live job of the client and nothing else.
  lemma UnregisterEnds(c: Core, x: ClientId, now: nat)
    ensures var o := Unregister(c, x, now);
            Turns(c, o.core, o.actions, now) && NothingCompleted(o.actions) && o.core.clients == c.clients - {x}
            && forall id, y :: Canceled(id, y) in o.actions <==> y == x && LiveAs(c, id, y)
  {
    var f := Forget(c, x);
    var d := DropQueued(f, AllOf(x));
    DropNames(f, AllOf(x));
    assert forall id, y :: QueuedAs(f, id, y) <==> QueuedAs(c, id, y);
    hide Dropped, Cancellations, Kept, QueuedAs;
    if ActiveClient(d.core) == Some(x) {
      AbortTurns(d.core, now);
      var a := AbortActive(d.core, now);
      hide AbortActive;
      JoinedTurns(c, a.core, d.actions, a.actions, now);
      assert forall b | b in d.actions + a.actions :: b in d.actions || b in a.actions;
    }
  }

  lemma JoinedTurns(c: Core, c': Core, lead: seq<Action>, acts: seq<Action>, now: nat)
    requires NoKeying(lead) && Turns(c, c', acts, now)
    ensures Turns(c, c', lead + acts, now)
  {
    if NoKeying(acts) {
      assert NoKeying(lead + acts);
    } else {
      var a :| a in acts && IsKeying(a);
      assert a in lead + acts;
    }
  }

  // Cancelling ends the client's queued jobs, its active one if that is asked for, and nothing else.
  lemma CancelClientEnds(c: Core, x: ClientId, includeActive: bool, now: nat)
    ensures var o := CancelClient(c, x, includeActive, now);
            Turns(c, o.core, o.actions, now) && NothingCompleted(o.actions) && o.core.clients == c.clients
            && forall id, y :: Canceled(id, y) in o.actions <==>
                 y == x && (QueuedAs(c, id, y) || (includeActive && ActiveAs(c, id, y)))
  {
    var d := DropQueued(c, AllOf(x));
    DropNames(c, AllOf(x));
    hide Dropped, Cancellations, Kept, QueuedAs;
    if includeActive && ActiveClient(c) == Some(x) {
      var lead := [Write([0x0a], ClearBuffer(x))] + d.actions + ActiveCancellation(c);
      assert forall b | b in lead :: b in d.actions || b in ActiveCancellation(c) || b == Write([0x0a], ClearBuffer(x));
      assert forall b | b in d.actions || b in ActiveCancellation(c) :: b in lead;
      LeadTurns(c, d.core.(active := None), lead, now);
      StartTurns(d.core.(active := None), now);
      hide StartOrRestore;
    }
  }

  // Cancelling one job ends that job, if it is live and the client's, and says whether it was.
  lemma CancelJobEnds(c: Core, x: ClientId, id: JobId, now: nat)
    ensures var o := CancelJob(c, x, id, now);
            Turns(c, o.core, o.actions, now) && NothingCompleted(o.actions) && o.core.clients == c.clients
            && (o.canceled <==> LiveAs(c, id, x))
            && forall i, y :: Canceled(i, y) in o.actions <==> i == id && y == x && LiveAs(c, i, y)
  {
    DroppedAre(c.queue, One(x, id));
    DropNames(c, One(x, id));
    assert Dropped(c.queue, One(x, id)) != [] ==> Dropped(c.queue, One(x, id))[0] in Dropped(c.queue, One(x, id));
    if ActiveAs(c, id, x) {
      AbortTurns(c, now);
      hide AbortActive;
    } else {
      hide Cancellations, Kept;
      if QueuedAs(c, id, x) {
        var j :| j in c.queue && j.id == id && j.client == x;
        assert j in Dropped(c.queue, One(x, id));
      }
    }
  }

  // An emergency stop cancels every live job.
  lemma EmergencyStopEnds(c: Core)
    ensures var o := EmergencyStop(c);
            o.core.active.None? && o.core.queue == [] && NoKeying(o.actions) && NothingCompleted(o.actions)
            && o.core.status == c.status && o.core.maxTx == c.maxTx
            && o.core.clients == c.clients
            && forall id, y :: Canceled(id, y) in o.actions <==> LiveAs(c, id, y)
  {
    var c1 := c.(active := None, queue := []);
    RestoreOnlyWrites(c1);
    CancellationsName(c.queue);
    var lead := [Write([0x0a, 0x0b, 0x00], EmergencyOff)] + ActiveCancellation(c) + Cancellations(c.queue);
    hide Restore, Cancellations;
    assert EmergencyStop(c).actions == lead + Restore(c1).actions;
    assert forall a | a in lead :: a == Write([0x0a, 0x0b, 0x00], EmergencyOff) || a in ActiveCancellation(c) || a in Cancellations(c.queue);
    assert forall a | a in ActiveCancellation(c) || a in Cancellations(c.queue) :: a in lead;
  }

  // So does losing the device.
  lemma PhysicalErrorEnds(c: Core)
    ensures var o := PhysicalError(c);
            o.core.active.None? && o.core.queue == [] && NoKeying(o.actions) && NothingCompleted(o.actions)
            && o.core.status == c.status && o.core.maxTx == c.maxTx
            && o.core.clients == c.clients
            && forall id, y :: Canceled(id, y) in o.actions <==> LiveAs(c, id, y)
  {
    CancellationsName(c.queue);
    hide Cancellations;
    assert forall a | a in PhysicalError(c).actions :: a in ActiveCancellation(c) || a in Cancellations(c.queue);
  }

  // A submission ends nothing. It opens a job, leaves the active one alone, or extends it.
  lemma EnqueueEnds(c: Core, x: ClientId, payload: bytes, speed: Option<SpeedMode>, stream: bool, now: nat)
    requires Enqueue(c, x, payload, speed, stream, now).Some?
    ensures var o := Enqueue(c, x, payload, speed, stream, now).value;
            OnlyWrites(o.actions) && o.core.clients == c.clients
            && if AppendsToActive(c, x, stream) then
                 o.core.status == c.status && o.core.maxTx == c.maxTx
                 && o.core.active == Some(c.active.value.(job := c.active.value.job.(payload := c.active.value.job.payload + payload)))
               else Turns(c, o.core, o.actions, now)
  {
    if !AppendsToActive(c, x, stream) && !AppendsToLast(c, x, stream) && c.active.None? {
      var j := Job(c.nextId, x, payload, if speed.Some? then speed.value else c.clients[x].desired, stream);
      var queued := c.(nextId := SaturatingNext(c.nextId), queue := c.queue + [j]);
      StartTurns(queued, now);
      LeadTurns(c, queued, [], now);
      hide StartOrRestore;
      assert [] + StartOrRestore(queued, now).actions == StartOrRestore(queued, now).actions;
    }
  }

  // Completing announces the active job and opens the next.
  lemma CompleteActiveEnds(c: Core, now: nat)
    requires c.active.Some?
    ensures var o := CompleteActive(c, now); var j := c.active.value.job;
            Turns(c, o.core, o.actions, now) && o.core.clients == c.clients
            && forall a: Action | !a.Write? :: a in o.actions <==> a == Completed(j.id, j.client)
  {
    var j := c.active.value.job;
    LeadTurns(c, c.(active := None), [Completed(j.id, j.client)], now);
    StartTurns(c.(active := None), now);
    hide StartOrRestore;
  }
}
