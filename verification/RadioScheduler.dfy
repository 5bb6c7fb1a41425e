// The per-session priority scheduler: first in, first out within a session; lowest priority value
// first across sessions.

module RadioScheduler {
  import opened Common

  type Priority = x: int | 0 <= x <= 3

  const POLL: Priority := 3

  datatype Operation<T> = Operation(session: nat, priority: Priority, kind: T)

  datatype Queue<T> = Queue(session: nat, waiting: seq<Operation<T>>)

  // Where a session's queue is, or the number of queues.
  function Find<T>(queues: seq<Queue<T>>, session: nat): (k: nat)
    ensures k <= |queues|
    ensures k < |queues| ==> queues[k].session == session
    ensures forall i | 0 <= i < k :: queues[i].session != session
  {
    if queues == [] || queues[0].session == session then 0
    else
      var k := Find(queues[1..], session);
      assert forall i | 0 <= i < k + 1 :: queues[i].session == (if i == 0 then queues[0] else queues[1..][i - 1]).session;
      1 + k
  }

  function Enqueued<T>(queues: seq<Queue<T>>, op: Operation<T>): seq<Queue<T>> {
    var k := Find(queues, op.session);
    if k < |queues| then queues[k := queues[k].(waiting := queues[k].waiting + [op])]
    else queues + [Queue(op.session, [op])]
  }

  ghost predicate Ready<T>(queues: seq<Queue<T>>, k: int) {
    0 <= k < |queues| && queues[k].waiting != []
  }

  // The pick: a head no other head comes before, and the first such.
  ghost predicate IsPick<T>(queues: seq<Queue<T>>, k: int) {
    && Ready(queues, k)
    && (forall j | Ready(queues, j) :: queues[k].waiting[0].priority <= queues[j].waiting[0].priority)
    && (forall j | Ready(queues, j) && j < k :: queues[k].waiting[0].priority < queues[j].waiting[0].priority)
  }

  class Scheduler<T> {
    var queues: seq<Queue<T>>

    constructor ()
      ensures queues == []
    {
      queues := [];
    }

    method Enqueue(op: Operation<T>)
      modifies this
      ensures queues == Enqueued(old(queues), op)
    {
      var k := 0;
      while k < |queues| && queues[k].session != op.session
        invariant 0 <= k <= |queues| && queues == old(queues)
        invariant forall i | 0 <= i < k :: queues[i].session != op.session
      {
        k := k + 1;
      }
      FindIs(queues, op.session, k);
      if k < |queues| {
        queues := queues[k := queues[k].(waiting := queues[k].waiting + [op])];
      } else {
        queues := queues + [Queue(op.session, [op])];
      }
    }

    // Scans the heads once, keeping the best so far.
    method SelectNext() returns (picked: Option<Operation<T>>)
      modifies this
      ensures picked.None? ==> queues == old(queues) && forall j :: !Ready(queues, j)
      ensures picked.Some? ==>
                exists k :: IsPick(old(queues), k) && picked.value == old(queues)[k].waiting[0]
                            && queues == Removed(old(queues), k)
    {
      var best: Option<nat> := None;
      var bestPriority := POLL;
      var k := 0;
      while k < |queues|
        invariant 0 <= k <= |queues| && queues == old(queues)
        invariant best.None? ==> forall j | 0 <= j < k :: !Ready(queues, j)
        invariant best.Some? ==>
                    best.value < k && Ready(queues, best.value)
                    && bestPriority == queues[best.value].waiting[0].priority
        invariant best.Some? ==> forall j | 0 <= j < k && Ready(queues, j) ::
                    bestPriority <= queues[j].waiting[0].priority
                    && (j < best.value ==> bestPriority < queues[j].waiting[0].priority)
      {
        if queues[k].waiting != [] {
          var head := queues[k].waiting[0];
          if best.None? || head.priority < bestPriority {
            best := Some(k);
            bestPriority := head.priority;
          }
        }
        k := k + 1;
      }
      if best.None? {
        return None;
      }
      picked := Some(queues[best.value].waiting[0]);
      assert IsPick(queues, best.value);
      queues := Removed(queues, best.value);
    }
  }

  function Removed<T>(queues: seq<Queue<T>>, k: nat): seq<Queue<T>>
    requires k < |queues| && queues[k].waiting != []
  {
    queues[k := queues[k].(waiting := queues[k].waiting[1..])]
  }

  lemma {:induction false} FindIs<T>(queues: seq<Queue<T>>, session: nat, k: nat)
    requires k <= |queues| && (k < |queues| ==> queues[k].session == session)
    requires forall i | 0 <= i < k :: queues[i].session != session
    ensures Find(queues, session) == k
  {
    if Find(queues, session) < k {
      assert false;
    }
  }

  // There is one pick at most, and one whenever anything waits.
  lemma PickIsUnique<T>(queues: seq<Queue<T>>, k: int, l: int)
    requires IsPick(queues, k) && IsPick(queues, l)
    ensures k == l
  {
  }

  lemma {:induction false} PickExists<T>(queues: seq<Queue<T>>, j: int)
    requires Ready(queues, j)
    ensures exists k :: IsPick(queues, k)
  {
    var best := PickAmong(queues, |queues|, j);
    assert IsPick(queues, best);
  }

  lemma {:induction false} PickAmong<T>(queues: seq<Queue<T>>, n: nat, j: int) returns (best: int)
    requires n <= |queues| && Ready(queues, j) && j < n
    ensures Ready(queues, best) && best < n
    ensures forall i | Ready(queues, i) && i < n ::
              queues[best].waiting[0].priority <= queues[i].waiting[0].priority
              && (i < best ==> queues[best].waiting[0].priority < queues[i].waiting[0].priority)
    decreases n
  {
    if exists i :: Ready(queues, i) && i < n - 1 {
      var i :| Ready(queues, i) && i < n - 1;
      best := PickAmong(queues, n - 1, i);
      if Ready(queues, n - 1) && queues[n - 1].waiting[0].priority < queues[best].waiting[0].priority {
        best := n - 1;
      }
    } else {
      best := j;
    }
  }

  // ---- Runs ----

  datatype Event<T> = Submit(op: Operation<T>) | Pick

  datatype World<T> = World(queues: seq<Queue<T>>, submitted: seq<Operation<T>>, executed: seq<Operation<T>>)

  function Start<T>(): World<T> {
    World([], [], [])
  }

  ghost function Step<T>(w: World<T>, e: Event<T>): World<T> {
    match e
    case Submit(op) => World(Enqueued(w.queues, op), w.submitted + [op], w.executed)
    case Pick =>
      if exists k :: IsPick(w.queues, k) then
        var k :| IsPick(w.queues, k);
        World(Removed(w.queues, k), w.submitted, w.executed + [w.queues[k].waiting[0]])
      else w
  }

  ghost function Run<T>(w: World<T>, es: seq<Event<T>>): World<T>
    decreases |es|
  {
    if es == [] then w else Run(Step(w, es[0]), es[1..])
  }

  function OfSession<T>(ops: seq<Operation<T>>, session: nat): seq<Operation<T>>
    decreases |ops|
  {
    if ops == [] then [] else
      OfSession(ops[..|ops| - 1], session) + (if ops[|ops| - 1].session == session then [ops[|ops| - 1]] else [])
  }

  function WaitingOf<T>(queues: seq<Queue<T>>, session: nat): seq<Operation<T>> {
    var k := Find(queues, session);
    if k < |queues| then queues[k].waiting else []
  }

  ghost predicate OwnQueues<T>(queues: seq<Queue<T>>) {
    && (forall i, j | 0 <= i < j < |queues| :: queues[i].session != queues[j].session)
    && (forall i, n | 0 <= i < |queues| && 0 <= n < |queues[i].waiting| ::
          queues[i].waiting[n].session == queues[i].session)
  }

  // Per session: what ran, followed by what waits, is what was submitted.
  ghost predicate Accounted<T>(w: World<T>) {
    && OwnQueues(w.queues)
    && forall s: nat :: OfSession(w.executed, s) + WaitingOf(w.queues, s) == OfSession(w.submitted, s)
  }

  lemma OfSessionSnoc<T>(ops: seq<Operation<T>>, op: Operation<T>, session: nat)
    ensures OfSession(ops + [op], session) == OfSession(ops, session) + (if op.session == session then [op] else [])
  {
    assert (ops + [op])[..|ops|] == ops;
  }

  lemma EnqueuedWaiting<T>(queues: seq<Queue<T>>, op: Operation<T>, session: nat)
    requires OwnQueues(queues)
    ensures OwnQueues(Enqueued(queues, op))
    ensures WaitingOf(Enqueued(queues, op), session)
         == WaitingOf(queues, session) + (if op.session == session then [op] else [])
  {
    var after := Enqueued(queues, op);
    var k := Find(queues, op.session);
    var f := Find(queues, session);
    if f < |queues| || session == op.session {
      FindIs(after, session, f);
    } else {
      FindIs(after, session, |after|);
    }
  }

  lemma RemovedWaiting<T>(queues: seq<Queue<T>>, k: nat, session: nat)
    requires OwnQueues(queues) && Ready(queues, k)
    ensures OwnQueues(Removed(queues, k))
    ensures var head := queues[k].waiting[0];
            head.session == queues[k].session
            && WaitingOf(queues, session)
               == (if head.session == session then [head] else []) + WaitingOf(Removed(queues, k), session)
  {
    var after := Removed(queues, k);
    var f := Find(queues, session);
    FindIs(after, session, f);
    assert queues[k].waiting == [queues[k].waiting[0]] + queues[k].waiting[1..];
  }

  lemma SubmitKeepsAccounts<T>(w: World<T>, op: Operation<T>)
    requires Accounted(w)
    ensures Accounted(World(Enqueued(w.queues, op), w.submitted + [op], w.executed))
  {
    hide OwnQueues, Enqueued, WaitingOf, OfSession;
    var queues := Enqueued(w.queues, op);
    EnqueuedWaiting(w.queues, op, op.session);
    forall s: nat ensures OfSession(w.executed, s) + WaitingOf(queues, s) == OfSession(w.submitted + [op], s) {
      EnqueuedWaiting(w.queues, op, s);
      OfSessionSnoc(w.submitted, op, s);
      assert OfSession(w.executed, s) + WaitingOf(w.queues, s) == OfSession(w.submitted, s);
    }
  }

  lemma PickKeepsAccounts<T>(w: World<T>, k: nat)
    requires Accounted(w) && Ready(w.queues, k)
    ensures Accounted(World(Removed(w.queues, k), w.submitted, w.executed + [w.queues[k].waiting[0]]))
  {
    hide OwnQueues, Removed, WaitingOf, OfSession;
    var queues := Removed(w.queues, k);
    var head := w.queues[k].waiting[0];
    RemovedWaiting(w.queues, k, 0);
    forall s: nat ensures OfSession(w.executed + [head], s) + WaitingOf(queues, s) == OfSession(w.submitted, s) {
      RemovedWaiting(w.queues, k, s);
      OfSessionSnoc(w.executed, head, s);
      assert OfSession(w.executed, s) + WaitingOf(w.queues, s) == OfSession(w.submitted, s);
    }
  }

  lemma StepKeepsAccounts<T>(w: World<T>, e: Event<T>)
    requires Accounted(w)
    ensures Accounted(Step(w, e))
  {
    match e
    case Submit(op) => SubmitKeepsAccounts(w, op);
    case Pick =>
      if exists k :: IsPick(w.queues, k) {
        var k :| IsPick(w.queues, k)
                 && Step(w, e) == World(Removed(w.queues, k), w.submitted, w.executed + [w.queues[k].waiting[0]]);
        PickKeepsAccounts(w, k);
        hide Accounted;
      }
  }

  lemma {:induction false} RunKeepsAccounts<T>(w: World<T>, es: seq<Event<T>>)
    requires Accounted(w)
    ensures Accounted(Run(w, es))
    decreases |es|
  {
    hide Accounted, Step;
    if es != [] {
      StepKeepsAccounts(w, es[0]);
      RunKeepsAccounts(Step(w, es[0]), es[1..]);
    }
  }

  // Over any run of submissions and picks: for every session, the operations executed are a prefix
  // of those submitted, in order, and exactly the rest still waits. Nothing is lost or duplicated.
  lemma SessionsAreServedInOrder<T>(es: seq<Event<T>>, session: nat)
    ensures var w := Run(Start<T>(), es);
            OfSession(w.executed, session) <= OfSession(w.submitted, session)
            && OfSession(w.submitted, session) == OfSession(w.executed, session) + WaitingOf(w.queues, session)
  {
    assert Accounted(Start<T>());
    RunKeepsAccounts(Start<T>(), es);
  }

  // A pick is made exactly when something waits, and it is the operation at the head of the first
  // of the queues whose head has the least priority value.
  lemma PicksAreUrgent<T>(es: seq<Event<T>>)
    ensures var w := Run(Start<T>(), es); var w1 := Step(w, Pick);
            if exists j :: Ready(w.queues, j) then
              exists k :: IsPick(w.queues, k) && w1.executed == w.executed + [w.queues[k].waiting[0]]
            else w1 == w
  {
    var w := Run(Start<T>(), es);
    hide Run;
    if exists j :: Ready(w.queues, j) {
      var j :| Ready(w.queues, j);
      PickExists(w.queues, j);
    }
  }
}
