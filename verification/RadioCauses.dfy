// What an answer says about what happened to its command.

module RadioCauses {
  import opened Common
  import opened RadioTransport
  import opened RadioAnswers

  // From the events alone: whether each taken command was written, and which event brought each reply.
  datatype Trail = Trail(written: seq<bool>, causes: seq<Event>)

  const UNTRODDEN := Trail([], [])

  function Follow(t: Trail, e: Event, replied: bool): Trail {
    Trail(if e.Take? then t.written + [e.written] else t.written, if replied then t.causes + [e] else t.causes)
  }

  function TrailOf(l: Link, t: Trail, es: seq<Event>): Trail
    requires AllEnabled(l, es)
    decreases |es|
  {
    if es == [] then t
    else TrailOf(Step(l, es[0]).link, Follow(t, es[0], Step(l, es[0]).replied.Some?), es[1..])
  }

  predicate Awaited(cmd: Command) {
    cmd.expected.Reply? || (cmd.expected.Lines? && cmd.expected.n > 0)
  }

  // A command that could not be written is answered as lost. One that awaits nothing is a success once
  // it is written. Any other succeeds by a frame that arrives, times out when its time is up, and is
  // lost when the stream is.
  predicate Explained(cmd: Command, written: bool, answer: Answer, cause: Event) {
    if !written then answer == TransportLost && cause == Take(false)
    else if !Awaited(cmd) then answer == Success([]) && cause == Take(true)
    else
      match cause
      case Arrive(_) => answer.Success?
      case Expire => answer == TimedOut
      case Drop => answer == TransportLost
      case _ => false
  }

  ghost predicate Sorted(w: World, t: Trail) {
    var g := w.ledger;
    && |t.causes| == |g.replies| <= |g.taken| == |t.written|
    && (if w.link.pending.Some? then
          w.link.running && |g.taken| == |g.replies| + 1 && t.written[|g.taken| - 1] && Awaited(g.taken[|g.taken| - 1])
        else |g.taken| == |g.replies|)
    && (forall i | 0 <= i < |g.replies| :: Explained(g.taken[i], t.written[i], g.replies[i].answer, t.causes[i]))
    // The number of a command that was not written is no frame's fate.
    && |g.fates| == |g.received|
    && (forall i: nat | i >= |g.replies| :: Delivered(i) !in g.fates && Discarded(i) !in g.fates)
    && (forall i: nat | i < |g.replies| && !t.written[i] :: Delivered(i) !in g.fates && Discarded(i) !in g.fates)
    && (w.link.pending.None? ==> Held !in g.fates)
  }

  lemma SettledMembers(fates: seq<Fate>, to: Fate, x: Fate)
    requires x in Settled(fates, to)
    ensures (x == to && Held in fates) || (x in fates && x != Held)
  {
  }

  lemma StepKeepsSorted(w: World, t: Trail, e: Event)
    requires Sorted(w, t) && Enabled(w.link, e)
    ensures Sorted(Advance(w, e), Follow(t, e, Step(w.link, e).replied.Some?))
  {
    hide FrameMatches, IsError;
    var g := w.ledger;
    var g1 := Advance(w, e).ledger;
    var t1 := Follow(t, e, Step(w.link, e).replied.Some?);
    forall i | 0 <= i < |g1.replies| ensures Explained(g1.taken[i], t1.written[i], g1.replies[i].answer, t1.causes[i]) {
      assert i < |g.replies| ==> Explained(g.taken[i], t.written[i], g.replies[i].answer, t.causes[i]);
    }
  }

  lemma {:induction false} RunKeepsSorted(w: World, t: Trail, es: seq<Event>)
    requires Sorted(w, t) && AllEnabled(w.link, es)
    ensures Sorted(Run(w, es), TrailOf(w.link, t, es))
    decreases |es|
  {
    if es != [] {
      StepKeepsSorted(w, t, es[0]);
      AdvanceLink(w, es[0]);
      hide Sorted, Advance, Step, Enabled;
      RunKeepsSorted(Advance(w, es[0]), Follow(t, es[0], Step(w.link, es[0]).replied.Some?), es[1..]);
    }
  }

  // Over any run: the i-th reply is what the fate of the i-th command calls for. In particular only a
  // written command succeeds, a written one that awaits no reply always does, and no frame belongs to
  // the answer of a command that was not written.
  lemma AnswersTellWhatHappened(es: seq<Event>)
    requires AllEnabled(START, es)
    ensures var g := Run(World(START, EMPTY), es).ledger; var t := TrailOf(START, UNTRODDEN, es);
            |t.causes| == |g.replies| <= |g.taken| == |t.written|
            && forall i: nat | i < |g.replies| ::
                 Explained(g.taken[i], t.written[i], g.replies[i].answer, t.causes[i])
                 && (g.replies[i].answer.Success? ==> t.written[i])
                 && (!t.written[i] ==> Delivered(i) !in g.fates && Discarded(i) !in g.fates)
  {
    RunKeepsSorted(World(START, EMPTY), UNTRODDEN, es);
    hide Run, TrailOf;
  }

  // Over any run: a frame answers the command in flight exactly when it begins with one of the awaited
  // verbs, or is the last of the awaited lines or a downstream error; a frame that no command in
  // flight takes is routed.
  lemma FramesAnswerWhatAwaitsThem(es: seq<Event>, frame: bytes)
    requires AllEnabled(START, es) && Enabled(Run(World(START, EMPTY), es).link, Arrive(frame))
    ensures var w := Run(World(START, EMPTY), es); var g := w.ledger; var o := Step(w.link, Arrive(frame));
            if |g.taken| == |g.replies| then o.replied.None? && o.routed == Some(frame)
            else
              |g.taken| == |g.replies| + 1 && |g.received| == |g.fates|
              && var cmd := g.taken[|g.replies|]; var held := FramesOf(g.received, g.fates, Held);
                 match cmd.expected
                 case NoReply => false
                 case Reply(verbs) =>
                   if exists v | v in verbs :: v <= frame then
                     o.replied == Some(Replied(cmd.id, Success(frame))) && o.routed.None?
                   else o.replied.None? && o.routed == Some(frame)
                 case Lines(n) =>
                   o.routed.None?
                   && if |held| + 1 == n || [0x52, 0x50, 0x52, 0x54, 0x20] <= frame then
                        o.replied == Some(Replied(cmd.id, Success(Concat(held) + frame)))
                      else o.replied.None?
  {
    RunKeepsSound(World(START, EMPTY), es);
    var w := Run(World(START, EMPTY), es);
    hide Run, FramesOf, Answered, GoodAnswer, Concat;
    if w.link.pending.Some? && w.link.pending.value.matcher.Verb? {
      var verbs := w.link.pending.value.matcher.verbs;
      if exists v | v in verbs :: v <= frame {
        var v :| v in verbs && v <= frame;
        var i :| 0 <= i < |verbs| && verbs[i] == v;
        assert StartsWith(frame, verbs[i]);
      } else {
        assert forall i | 0 <= i < |verbs| :: verbs[i] in verbs;
      }
    }
  }

  // A command that cannot be written takes the link down: nothing more is taken before it is reopened.
  lemma UnwrittenTakesTheLinkDown(l: Link)
    requires Enabled(l, Take(false))
    ensures var o := Step(l, Take(false));
            !o.link.running && o.link.pending.None? && o.routed.None?
            && forall e | Enabled(o.link, e) :: e.Submit? || e.Reopen?
  {
  }
}
