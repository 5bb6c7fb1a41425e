// The broker object: its fields updated in place, its action lists built by loops over the queue
// and the profiles. Every method meets the state machine of BrokerModel.

module Broker {
  import opened Common
  import opened WinkeyerProtocol
  import opened BrokerModel

  // The clients in identifier order: the first primary one is the foreground.
  lemma FirstPrimary(c: Core, keys: seq<nat>, i: nat)
    requires keys == Ascending(c.clients.Keys) && i < |keys| && IsPrimary(c, keys[i])
    requires forall k | 0 <= k < i :: !IsPrimary(c, keys[k])
    ensures Foreground(c) == Some(keys[i])
  {
    AscendingProperties(c.clients.Keys);
    var s := Primaries(c);
    forall y | y in s ensures keys[i] <= y {
      var k :| 0 <= k < |keys| && keys[k] == y;
    }
    AscendingStep(s, keys[i]);
  }

  lemma NoPrimary(c: Core)
    requires forall x | x in Ascending(c.clients.Keys) :: !IsPrimary(c, x)
    ensures Foreground(c) == None && Primaries(c) == {}
  {
    AscendingProperties(c.clients.Keys);
    assert Primaries(c) == {};
  }

  lemma ReplayUnfold(done: seq<Action>, order: seq<nat>, i: nat, p: Profile)
    requires i < |order| && order[i] in p
    ensures done + Replay(order[i..], p)
         == (done + [Write(p[order[i]], ProfileReplay)]) + Replay(order[i + 1..], p)
  {
    assert order[i..][1..] == order[i + 1..];
    assert Replay(order[i..], p) == [Write(p[order[i]], ProfileReplay)] + Replay(order[i + 1..], p);
  }

  // One job moved out of the queue or kept, against the rest of the queue.
  lemma RetainStep(q: seq<Job>, i: nat, p: Pick, kept: seq<Job>, actions: seq<Action>)
    requires i < |q|
    ensures kept + Kept(q[i..], p) == (if Hits(p, q[i]) then kept else kept + [q[i]]) + Kept(q[i + 1..], p)
    ensures actions + Cancellations(Dropped(q[i..], p))
         == (if Hits(p, q[i]) then actions + [Canceled(q[i].id, q[i].client)] else actions)
            + Cancellations(Dropped(q[i + 1..], p))
  {
    hide Hits;
    var rest := q[i + 1..];
    assert q[i..][0] == q[i] && q[i..][1..] == rest;
    if Hits(p, q[i]) {
      var dropped := [q[i]] + Dropped(rest, p);
      assert [] + Kept(rest, p) == Kept(rest, p);
      assert dropped[0] == q[i] && dropped[1..] == Dropped(rest, p);
      Associative(actions, [Canceled(q[i].id, q[i].client)], Cancellations(Dropped(rest, p)));
    } else {
      assert [] + Dropped(rest, p) == Dropped(rest, p);
      Associative(kept, [q[i]], Kept(rest, p));
    }
  }

  lemma NothingRetained(p: Pick)
    ensures Kept([], p) == [] && Cancellations(Dropped([], p)) == []
  {
  }

  lemma CancellationsPerJob(q: seq<Job>)
    ensures Cancellations(q) == [] <==> q == []
  {
  }

  class BrokerCore {
    var clients: map<ClientId, Client>
    var appliedProfileClient: Option<ClientId>
    var queue: seq<Job>
    var active: Option<ActiveJob>
    var nextJobId: JobId
    var connected: bool
    var status: DeviceStatus
    const maxTx: nat

    function View(): Core
      reads this
    {
      Core(clients, appliedProfileClient, queue, active, nextJobId, connected, status, maxTx)
    }

    constructor (maxTx: nat)
      ensures View() == NewCore(maxTx)
    {
      clients := map[];
      appliedProfileClient := None;
      queue := [];
      active := None;
      nextJobId := 1;
      connected := false;
      status := DeviceStatus(0xc0, false, false, false, false, false);
      this.maxTx := maxTx;
    }

    method ConnectPhysical()
      modifies this
      ensures View() == Connect(old(View()))
    {
      connected := true;
      appliedProfileClient := None;
    }

    method FindForeground() returns (fg: Option<ClientId>)
      ensures fg == Foreground(View())
      ensures fg.Some? ==> fg.value in clients
      ensures fg.Some? <==> Primaries(View()) != {}
    {
      var keys := Ascending(clients.Keys);
      AscendingProperties(clients.Keys);
      for i := 0 to |keys|
        invariant forall k | 0 <= k < i :: !IsPrimary(View(), keys[k])
      {
        assert keys[i] in keys;
        if clients[keys[i]].primary {
          FirstPrimary(View(), keys, i);
          assert keys[i] in Primaries(View());
          return Some(keys[i]);
        }
      }
      NoPrimary(View());
      return None;
    }

    method ReplayProfile(x: ClientId) returns (actions: seq<Action>)
      requires x in clients
      ensures actions == ProfileWrites(clients[x].profile)
    {
      var profile := clients[x].profile;
      var order := Ascending(profile.Keys);
      AscendingProperties(profile.Keys);
      actions := [];
      for i := 0 to |order|
        invariant actions + Replay(order[i..], profile) == Replay(order, profile)
      {
        assert order[i] in order;
        ReplayUnfold(actions, order, i, profile);
        actions := actions + [Write(profile[order[i]], ProfileReplay)];
      }
    }

    // Move every picked job out of the queue, in order.
    method Retain(p: Pick) returns (actions: seq<Action>)
      modifies this`queue
      ensures Outcome(View(), actions) == DropQueued(old(View()), p)
      ensures actions == [] <==> Dropped(old(queue), p) == []
    {
      hide Kept, Dropped, Cancellations, Hits;
      var kept: seq<Job> := [];
      actions := [];
      var i := 0;
      assert queue[0..] == queue;
      NothingRetained(p);
      assert kept + Kept(queue, p) == Kept(queue, p);
      assert actions + Cancellations(Dropped(queue, p)) == Cancellations(Dropped(queue, p));
      while i < |queue|
        invariant 0 <= i <= |queue| && queue == old(queue)
        invariant kept + Kept(queue[i..], p) == Kept(queue, p)
        invariant actions + Cancellations(Dropped(queue[i..], p)) == Cancellations(Dropped(queue, p))
      {
        var job := queue[i];
        RetainStep(queue, i, p, kept, actions);
        if Hits(p, job) {
          actions := actions + [Canceled(job.id, job.client)];
        } else {
          kept := kept + [job];
        }
        i := i + 1;
      }
      assert queue[i..] == [];
      assert kept == Kept(queue, p);
      assert actions == Cancellations(Dropped(queue, p));
      CancellationsPerJob(Dropped(queue, p));
      queue := kept;
    }

    // Cancel the active job and then everything queued.
    method Drain() returns (actions: seq<Action>)
      modifies this`queue, this`active
      ensures View() == old(View()).(active := None, queue := [])
      ensures actions == ActiveCancellation(old(View())) + Cancellations(old(queue))
    {
      actions := [];
      if active.Some? {
        actions := actions + [Canceled(active.value.job.id, active.value.job.client)];
        active := None;
      }
      while queue != []
        invariant active.None?
        invariant View() == old(View()).(active := None, queue := queue)
        invariant actions + Cancellations(queue) == ActiveCancellation(old(View())) + Cancellations(old(queue))
        decreases |queue|
      {
        var job := queue[0];
        assert actions + Cancellations(queue)
            == (actions + [Canceled(job.id, job.client)]) + Cancellations(queue[1..]);
        queue := queue[1..];
        actions := actions + [Canceled(job.id, job.client)];
      }
    }

    method PhysicalFailure() returns (actions: seq<Action>)
      modifies this
      ensures Outcome(View(), actions) == PhysicalError(old(View()))
    {
      actions := Drain();
      connected := false;
      appliedProfileClient := None;
    }

    method RegisterClient(x: ClientId, primary: bool) returns (accepted: bool)
      modifies this
      ensures Registration(View(), accepted) == Register(old(View()), x, primary)
    {
      if primary {
        var fg := FindForeground();
        if fg.Some? {
          return false;
        }
      }
      clients := clients[x := Client(Pot, primary, map[])];
      accepted := true;
    }

    method RestoreForegroundSpeed() returns (actions: seq<Action>)
      modifies this`appliedProfileClient
      ensures Outcome(View(), actions) == Restore(old(View()))
    {
      var foreground := FindForeground();
      var profileChanged := foreground.Some? && foreground != appliedProfileClient;
      actions := [];
      if profileChanged {
        actions := ReplayProfile(foreground.value);
        appliedProfileClient := foreground;
      }
      var speed := if foreground.Some? then clients[foreground.value].desired else Pot;
      actions := actions + [Write(SpeedCommand(speed), SelectSpeed)];
    }

    method StartNextOrRestore(now: nat) returns (actions: seq<Action>)
      modifies this
      ensures Outcome(View(), actions) == StartOrRestore(old(View()), now)
    {
      if queue == [] {
        actions := RestoreForegroundSpeed();
        return;
      }
      var job := queue[0];
      queue := queue[1..];
      actions := [];
      if appliedProfileClient != Some(job.client) {
        if job.client in clients {
          actions := ReplayProfile(job.client);
        }
        appliedProfileClient := Some(job.client);
      }
      ghost var setup := actions;
      if job.payload == [] || job.payload[0] != 0x1c {
        actions := actions + [Write(SpeedCommand(job.speed), SelectSpeed)];
      }
      assert actions == Setup(old(View()), job);
      actions := actions + [Write(job.payload, Keying(job.id, job.client))];
      actions := actions + [Write([0x15], StatusPoll)];
      active := Some(ActiveJob(job, false, false, now));
    }

    method UnregisterClient(x: ClientId, now: nat) returns (actions: seq<Action>)
      modifies this
      ensures Outcome(View(), actions) == Unregister(old(View()), x, now)
    {
      clients := clients - {x};
      if appliedProfileClient == Some(x) {
        appliedProfileClient := None;
      }
      assert View() == Forget(old(View()), x);
      actions := Retain(AllOf(x));
      if active.Some? && active.value.job.client == x {
        var job := active.value.job;
        active := None;
        var next := StartNextOrRestore(now);
        actions := actions + ([Write([0x0a], ClearBuffer(x)), Canceled(job.id, x)] + next);
      }
    }

    method SetClientSpeed(x: ClientId, speed: SpeedMode) returns (actions: seq<Action>)
      modifies this
      ensures Outcome(View(), actions) == SetSpeed(old(View()), x, speed)
    {
      if x !in clients {
        return [];
      }
      clients := clients[x := clients[x].(desired := speed)];
      if active.None? && clients[x].primary {
        return [Write(SpeedCommand(speed), SelectSpeed)];
      }
      return [];
    }

    method SetClientCommand(x: ClientId, command: bytes) returns (actions: Option<seq<Action>>)
      modifies this
      ensures var o := SetCommand(old(View()), x, command);
              if o.Some? then actions.Some? && Outcome(View(), actions.value) == o.value
              else actions.None? && View() == old(View())
    {
      var key := RegisterOf(command);
      if key.None? || x !in clients {
        return None;
      }
      var client := clients[x];
      clients := clients[x := client.(profile := client.profile[key.value := command])];
      if active.None? && client.primary {
        appliedProfileClient := Some(x);
        return Some([Write(command, Configure(x))]);
      }
      if appliedProfileClient == Some(x) {
        appliedProfileClient := None;
      }
      return Some([]);
    }

    method ActiveOwnerCommand(x: ClientId, command: bytes) returns (actions: Option<seq<Action>>)
      ensures actions == CommandByOwner(View(), x, command)
    {
      var allowed;
      if active.Some? {
        allowed := active.value.job.client == x;
      } else {
        allowed := x in clients && clients[x].primary;
      }
      return if allowed then Some([Write(command, OwnerCommand(x))]) else None;
    }

    method EnqueueJob(x: ClientId, payload: bytes, speed: Option<SpeedMode>, stream: bool, now: nat)
      returns (job: Option<JobId>, actions: seq<Action>)
      modifies this
      ensures var e := Enqueue(old(View()), x, payload, speed, stream, now);
              if e.Some? then job == Some(e.value.job) && View() == e.value.core && actions == e.value.actions
              else job.None? && actions == [] && View() == old(View())
    {
      if payload == [] || |payload| > MAX_JOB_BYTES || !connected || x !in clients {
        return None, [];
      }
      if stream {
        if active.Some? && active.value.job.client == x && active.value.job.stream {
          var a := active.value;
          if |a.job.payload| + |payload| > MAX_JOB_BYTES {
            return None, [];
          }
          active := Some(a.(job := a.job.(payload := a.job.payload + payload)));
          return Some(a.job.id), [Write(payload, Keying(a.job.id, x))];
        }
        if queue != [] {
          var last := |queue| - 1;
          var queued := queue[last];
          if queued.client == x && queued.stream {
            if |queued.payload| + |payload| > MAX_JOB_BYTES {
              return None, [];
            }
            queue := queue[last := queued.(payload := queued.payload + payload)];
            return Some(queued.id), [];
          }
        }
      }
      if |queue| >= MAX_QUEUED_JOBS {
        return None, [];
      }
      var id := nextJobId;
      nextJobId := SaturatingNext(nextJobId);
      queue := queue + [Job(id, x, payload, if speed.Some? then speed.value else clients[x].desired, stream)];
      actions := [];
      if active.None? {
        actions := StartNextOrRestore(now);
      }
      job := Some(id);
    }

    method CancelAll(x: ClientId, includeActive: bool, now: nat) returns (actions: seq<Action>)
      modifies this
      ensures Outcome(View(), actions) == CancelClient(old(View()), x, includeActive, now)
    {
      actions := Retain(AllOf(x));
      if includeActive && active.Some? && active.value.job.client == x {
        var job := active.value.job;
        active := None;
        actions := [Write([0x0a], ClearBuffer(x))] + actions + [Canceled(job.id, x)];
        var next := StartNextOrRestore(now);
        actions := actions + next;
      } else if includeActive && active.None? && x in clients && clients[x].primary {
        actions := [Write([0x0a], ClearBuffer(x))] + actions;
      }
    }

    method CancelOne(x: ClientId, id: JobId, now: nat) returns (canceled: bool, actions: seq<Action>)
      modifies this
      ensures JobCancellation(canceled, View(), actions) == CancelJob(old(View()), x, id, now)
    {
      if active.Some? && active.value.job.client == x && active.value.job.id == id {
        active := None;
        var next := StartNextOrRestore(now);
        return true, [Write([0x0a], ClearBuffer(x)), Canceled(id, x)] + next;
      }
      actions := Retain(One(x, id));
      canceled := actions != [];
    }

    method Emergency() returns (actions: seq<Action>)
      modifies this
      ensures Outcome(View(), actions) == EmergencyStop(old(View()))
    {
      var cancels := Drain();
      var restore := RestoreForegroundSpeed();
      actions := [Write([0x0a, 0x0b, 0x00], EmergencyOff)] + cancels + restore;
      ghost var c := old(View());
      assert [Write([0x0a, 0x0b, 0x00], EmergencyOff)] + (ActiveCancellation(c) + Cancellations(c.queue))
          == [Write([0x0a, 0x0b, 0x00], EmergencyOff)] + ActiveCancellation(c) + Cancellations(c.queue);
    }

    method Complete(now: nat) returns (actions: seq<Action>)
      modifies this
      ensures Outcome(View(), actions) == CompleteActive(old(View()), now)
    {
      if active.None? {
        return [];
      }
      var job := active.value.job;
      active := None;
      var next := StartNextOrRestore(now);
      actions := [Completed(job.id, job.client)] + next;
    }

    method Observe(s: DeviceStatus, now: nat) returns (actions: seq<Action>)
      modifies this
      ensures Outcome(View(), actions) == ObserveStatus(old(View()), s, now)
    {
      status := s;
      if active.None? {
        return [];
      }
      active := Some(active.value.(observedStatus := true));
      if s.busy || s.waiting || s.keyDown {
        active := Some(active.value.(sawBusy := true));
        return [];
      }
      if active.value.sawBusy {
        actions := Complete(now);
        return;
      }
      return [];
    }

    method ConfirmIdleAfterSettle(now: nat, settle: nat) returns (actions: seq<Action>)
      modifies this
      ensures Outcome(View(), actions) == ConfirmIdle(old(View()), now, settle)
    {
      if active.Some? && active.value.observedStatus && Elapsed(now, active.value.startedAt) >= settle
         && !status.busy && !status.waiting && !status.keyDown {
        actions := Complete(now);
      } else {
        actions := [];
      }
    }

    method TransmitWatchdog(now: nat) returns (actions: seq<Action>)
      modifies this
      ensures Outcome(View(), actions) == Watchdog(old(View()), now)
    {
      if active.Some? && Elapsed(now, active.value.startedAt) >= maxTx {
        actions := Emergency();
      } else {
        actions := [];
      }
    }
  }
}
