// The actor object in use: whatever sequence of events it is driven through, together with the CAT
// sessions and the station watchdog that share its lease, what is proved about runs holds of it.

module KeyerRuns {
  import opened Common
  import opened BrokerModel
  import opened BrokerLedger
  import opened BrokerDevice
  import opened Ptt
  import opened ActorModel
  import opened ActorSafety
  import opened ActorBooks
  import opened ActorDevice
  import opened ActorKeying
  import opened ActorRuns
  import opened KeyerActor

  // What one call hands out.
  datatype Output = Output(actions: seq<Action>, dropped: seq<Action>, reply: Reply)

  function OutputOf(s: Stepped): Output {
    Output(s.actions, s.dropped, s.reply)
  }

  // The station has one transmit ceiling.
  predicate OneCeiling(es: seq<Event>, maxTx: nat) {
    forall e | e in es && e.ExpiryRead? :: e.maxTx == maxTx
  }

  // One event reaches the actor, or one of the others that use the lease.
  method Perform(actor: PhysicalActor, e: Event) returns (out: Output)
    requires Enabled(actor.View(), e) && OneCeiling([e], actor.ptt.maxTx)
    modifies actor, actor.core, actor.ptt
    ensures var s := Step(old(actor.View()), e); actor.View() == s.actor && out == OutputOf(s)
  {
    hide StepReceive, StepTick, StepReconnect, StepServe, SessionLost;
    match e
    case Serve(r, now, fails) =>
      var reply, actions := actor.OnRequest(r, now, fails);
      out := Output(actions, [], reply);
    case Receive(b, now, fails, _) =>
      var actions := actor.OnByte(b, now, fails);
      out := Output(actions, [], Silent);
    case Tick(now, fails) =>
      var actions := actor.OnTick(now, fails);
      out := Output(actions, [], Silent);
    case ReadFault =>
      var actions := actor.OnReadFault();
      out := Output(actions, [], Silent);
    case Reconnect(result, now, _) =>
      var actions, dropped := actor.OnReconnect(result, now);
      out := Output(actions, dropped, Silent);
    case CatKey(id, hasPtt, now) =>
      var _ := actor.ptt.Key(id, hasPtt, now);
      out := Output([], [], Silent);
    case CatUnkey(id) =>
      actor.ptt.Release(id);
      out := Output([], [], Silent);
    case ExpiryRead(now, maxTx) =>
      assert e in [e];
      actor.expiring := actor.ptt.Expired(now);
      out := Output([], [], Silent);
    case ExpiryRelease =>
      actor.ptt.Release(actor.expiring.value);
      actor.expiring := None;
      out := Output([], [], Silent);
  }

  lemma RunSteps(w: World, es: seq<Event>, run: seq<World>, k: nat)
    requires IsRun(w, es, run, Anything) && k < |es|
    ensures Enabled(run[k].actor, es[k]) && run[k + 1].actor == Step(run[k].actor, es[k]).actor
  {
    assert Link(run[k], es[k], run[k + 1], Anything);
    hide Step, StepBench, StepLedger;
  }

  lemma RunShape(w: World, es: seq<Event>, run: seq<World>)
    requires IsRun(w, es, run, Anything)
    ensures |run| == |es| + 1 && run[0] == w
  {
  }

  // Every result of a run speaks of the object driven through it: its state, and what its calls
  // have handed out.
  method Drive(actor: PhysicalActor, es: seq<Event>, ghost w: World, ghost run: seq<World>)
      returns (outputs: seq<Output>)
    requires IsRun(w, es, run, Anything) && w.actor == actor.View() && OneCeiling(es, actor.ptt.maxTx)
    modifies actor, actor.core, actor.ptt
    ensures actor.View() == run[|es|].actor
    ensures |outputs| == |es|
    ensures forall i | 0 <= i < |es| :: Enabled(run[i].actor, es[i]) && outputs[i] == OutputOf(Step(run[i].actor, es[i]))
  {
    hide Step, IsRun, Enabled;
    assert |run| == |es| + 1 && run[0] == w by { RunShape(w, es, run); }
    outputs := [];
    var k := 0;
    while k < |es|
      invariant 0 <= k <= |es| && actor.View() == run[k].actor
      invariant |outputs| == k
      invariant forall i | 0 <= i < k :: Enabled(run[i].actor, es[i]) && outputs[i] == OutputOf(Step(run[i].actor, es[i]))
    {
      RunSteps(w, es, run, k);
      assert es[k] in es;
      var out := Perform(actor, es[k]);
      outputs := outputs + [out];
      k := k + 1;
    }
  }

  // Every event of the run obeys the rule.
  ghost predicate Obeyed(es: seq<Event>, run: seq<World>, rule: (Actor, Event) -> bool)
    requires |run| == |es| + 1
  {
    forall i {:trigger es[i]} | 0 <= i < |es| :: rule(run[i].actor, es[i])
  }

  lemma ObeyedRuns(w: World, es: seq<Event>, run: seq<World>, rule: (Actor, Event) -> bool)
    requires IsRun(w, es, run, Anything) && Obeyed(es, run, rule)
    ensures IsRun(w, es, run, rule)
  {
    hide Advance;
    forall i | 0 <= i < |es| ensures Link(run[i], es[i], run[i + 1], rule) {
      assert Link(run[i], es[i], run[i + 1], Anything);
    }
  }

  lemma NothingDropped(maxTx: nat, lease: Lease, now: nat, found: Keyer, es: seq<Event>, run: seq<World>, i: nat)
    requires IsRun(Start(maxTx, lease, now, found), es, run, Anything) && i < |es|
    requires Enabled(run[i].actor, es[i])
    ensures Step(run[i].actor, es[i]).dropped == []
  {
    assert Link(run[i], es[i], run[i + 1], Anything);
    WorkAndMaintenance(maxTx, lease, now, found, es, run, i);
    WorkAndMaintenance(maxTx, lease, now, found, es, run, i + 1);
    hide Step, IsRun;
    assert run[i + 1].dropped == run[i].dropped + Step(run[i].actor, es[i]).dropped;
  }

  // A freshly spawned actor that has been driven through any events. It has no backlog without an
  // active job and no work in maintenance, and no call has dropped a result. If the lease rule was
  // obeyed, an active job means that the keyer owns the station lease. If identifiers were fresh,
  // every job issued by the calls is live in the object or has ended, once. If the clients sent
  // proper bytes, the keyer holds the profile that the object believes is applied.
  method DriveSpawned(actor: PhysicalActor, es: seq<Event>, ghost now: nat, ghost found: Keyer, ghost run: seq<World>)
      returns (outputs: seq<Output>)
    requires actor.View() == Spawned(actor.core.maxTx, actor.ptt.View(), now) && OneCeiling(es, actor.ptt.maxTx)
    requires IsRun(Start(actor.core.maxTx, actor.ptt.View(), now, found), es, run, Anything)
    modifies actor, actor.core, actor.ptt
    ensures actor.View() == run[|es|].actor
    ensures |outputs| == |es|
    ensures forall i | 0 <= i < |es| :: Enabled(run[i].actor, es[i]) && outputs[i] == OutputOf(Step(run[i].actor, es[i]))
    ensures forall i | 0 <= i < |es| :: outputs[i].dropped == []
    ensures actor.core.active.None? ==> actor.core.queue == []
    ensures actor.maintenanceOwner.Some? || actor.reopenPending ==> actor.core.active.None?
    ensures Obeyed(es, run, LeaseRespected) && actor.core.active.Some? ==> actor.ptt.owner == Some(KEYER)
    ensures Obeyed(es, run, FreshIds) ==>
              forall t :: multiset(Tickets(Live(actor.core.View())))[t] + multiset(run[|es|].ledger.ended)[t]
                          == (if t in run[|es|].ledger.issued then 1 else 0)
    ensures Obeyed(es, run, ProperBytes) && InSession(actor.View()) && !run[|es|].bench.astray ==>
              Agreement(actor.core.View(), run[|es|].bench.keyer.registers)
  {
    ghost var maxTx, lease := actor.core.maxTx, actor.ptt.View();
    ghost var w := Start(maxTx, lease, now, found);
    outputs := Drive(actor, es, w, run);
    hide Step, IsRun, Obeyed, Agreement, InSession;
    ghost var n := |es|;
    WorkAndMaintenance(maxTx, lease, now, found, es, run, n);
    forall i | 0 <= i < |es| ensures outputs[i].dropped == [] {
      NothingDropped(maxTx, lease, now, found, es, run, i);
    }
    if Obeyed(es, run, LeaseRespected) {
      ObeyedRuns(w, es, run, LeaseRespected);
      TransmitExclusion(maxTx, lease, now, found, es, run, n, 0, true, 0);
    }
    if Obeyed(es, run, FreshIds) {
      ObeyedRuns(w, es, run, FreshIds);
      forall t
        ensures multiset(Tickets(Live(run[n].actor.core)))[t] + multiset(run[n].ledger.ended)[t]
             == (if t in run[n].ledger.issued then 1 else 0)
      {
        JobConservation(maxTx, lease, now, found, es, run, n, t);
      }
    }
    if Obeyed(es, run, ProperBytes) {
      ObeyedRuns(w, es, run, ProperBytes);
      ProfileCacheAgrees(maxTx, lease, now, found, es, run, n);
    }
  }
}
