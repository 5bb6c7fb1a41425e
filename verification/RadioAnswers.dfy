// Every command is answered exactly once and in order, and every received frame has one fate.

module RadioAnswers {
  import opened Common
  import opened RadioTransport

  // The frames that met a fate, in the order they arrived.
  function FramesOf(received: seq<bytes>, fates: seq<Fate>, fate: Fate): seq<bytes>
    requires |received| == |fates|
    decreases |fates|
  {
    if fates == [] then []
    else
      FramesOf(received[..|fates| - 1], fates[..|fates| - 1], fate)
      + (if fates[|fates| - 1] == fate then [received[|fates| - 1]] else [])
  }

  function Concat(frames: seq<bytes>): bytes
    decreases |frames|
  {
    if frames == [] then [] else Concat(frames[..|frames| - 1]) + frames[|frames| - 1]
  }

  lemma ConcatSnoc(frames: seq<bytes>, f: bytes)
    ensures Concat(frames + [f]) == Concat(frames) + f
  {
    assert (frames + [f])[..|frames|] == frames;
  }

  lemma FramesSnoc(received: seq<bytes>, fates: seq<Fate>, f: bytes, met: Fate, fate: Fate)
    requires |received| == |fates|
    ensures FramesOf(received + [f], fates + [met], fate) == FramesOf(received, fates, fate) + (if met == fate then [f] else [])
  {
    assert (received + [f])[..|received|] == received && (fates + [met])[..|fates|] == fates;
  }

  lemma {:induction false} NoneMet(received: seq<bytes>, fates: seq<Fate>, fate: Fate)
    requires |received| == |fates| && fate !in fates
    ensures FramesOf(received, fates, fate) == []
    decreases |fates|
  {
    if fates != [] {
      var n := |fates| - 1;
      assert fates[n] in fates && forall x | x in fates[..n] :: x in fates;
      NoneMet(received[..n], fates[..n], fate);
    }
  }

  lemma {:induction false} SomeMet(received: seq<bytes>, fates: seq<Fate>, fate: Fate)
    requires |received| == |fates| && FramesOf(received, fates, fate) == []
    ensures fate !in fates
    decreases |fates|
  {
    if fates != [] {
      SomeMet(received[..|fates| - 1], fates[..|fates| - 1], fate);
    }
  }

  lemma {:induction false} SettledFrames(received: seq<bytes>, fates: seq<Fate>, to: Fate, fate: Fate)
    requires |received| == |fates| && to != Held && to !in fates
    ensures FramesOf(received, Settled(fates, to), fate)
         == if fate == Held then [] else if fate == to then FramesOf(received, fates, Held)
            else FramesOf(received, fates, fate)
    decreases |fates|
  {
    hide FramesOf;
    if fates == [] {
      NoneMet(received, Settled(fates, to), fate);
      NoneMet(received, fates, fate);
      NoneMet(received, fates, Held);
    } else {
      var n := |fates| - 1;
      assert fates[n] in fates && forall x | x in fates[..n] :: x in fates;
      var met := if fates[n] == Held then to else fates[n];
      SettledFrames(received[..n], fates[..n], to, fate);
      assert received == received[..n] + [received[n]] && fates == fates[..n] + [fates[n]];
      assert Settled(fates, to) == Settled(fates[..n], to) + [met];
      hide Settled;
      FramesSnoc(received[..n], Settled(fates[..n], to), received[n], met, fate);
      FramesSnoc(received[..n], fates[..n], received[n], fates[n], fate);
      FramesSnoc(received[..n], fates[..n], received[n], fates[n], Held);
    }
  }

  // ---- What an answer may look like ----

  // Lines collected so far for a request of n lines: fewer than n, none of them an error.
  predicate Unfinished(frames: seq<bytes>, n: nat) {
    |frames| < n && forall i | 0 <= i < |frames| :: !IsError(frames[i])
  }

  // A complete multi-line reply: the last line is the n-th or the first error.
  predicate Finished(frames: seq<bytes>, n: nat) {
    if n == 0 then frames == []
    else
      frames != [] && Unfinished(frames[..|frames| - 1], n)
      && (|frames| == n || IsError(frames[|frames| - 1]))
  }

  predicate GoodAnswer(expected: Expect, answer: Answer, delivered: seq<bytes>, discarded: seq<bytes>) {
    match answer
    case Success(data) =>
      discarded == [] && data == Concat(delivered)
      && (match expected
          case NoReply => delivered == []
          case Reply(verbs) => |delivered| == 1 && FrameMatches(delivered[0], verbs)
          case Lines(n) => Finished(delivered, n))
    case _ => delivered == [] && (discarded != [] ==> expected.Lines? && Unfinished(discarded, expected.n))
  }

  ghost predicate Answered(g: Ledger, i: nat)
    requires |g.received| == |g.fates| && i < |g.replies| <= |g.taken|
  {
    && g.replies[i].id == g.taken[i].id
    && GoodAnswer(g.taken[i].expected, g.replies[i].answer,
                  FramesOf(g.received, g.fates, Delivered(i)), FramesOf(g.received, g.fates, Discarded(i)))
  }

  // What the held frames and the pending matcher say about the command in flight.
  ghost predicate InFlight(p: Pending, cmd: Command, held: seq<bytes>) {
    && p.id == cmd.id
    && match p.matcher
       case Verb(verbs) => cmd.expected == Reply(verbs) && held == []
       case Collecting(remaining, acc) =>
         cmd.expected.Lines? && Unfinished(held, cmd.expected.n)
         && remaining == cmd.expected.n - |held| && acc == Concat(held)
  }

  ghost predicate Sound(w: World) {
    var g := w.ledger;
    && g.submitted == g.taken + w.link.queue
    && |g.received| == |g.fates|
    && |g.taken| == |g.replies| + (if w.link.pending.Some? then 1 else 0)
    && (!w.link.running ==> w.link.pending.None?)
    && g.routed == FramesOf(g.received, g.fates, Routed)
    && (forall i | 0 <= i < |g.replies| :: Answered(g, i))
    && (forall i: nat | i >= |g.replies| :: Delivered(i) !in g.fates && Discarded(i) !in g.fates)
    && (if w.link.pending.Some? then
          InFlight(w.link.pending.value, g.taken[|g.taken| - 1], FramesOf(g.received, g.fates, Held))
        else Held !in g.fates)
  }

  function Arrived(g: Ledger, f: bytes, met: Fate): Ledger {
    g.(received := g.received + [f], fates := g.fates + [met], routed := g.routed + (if met == Routed then [f] else []))
  }

  // Adding a frame that is routed or held leaves every answered command as it was.
  lemma ArrivalKeepsAnswers(g: Ledger, f: bytes, met: Fate, i: nat)
    requires |g.received| == |g.fates| && i < |g.replies| <= |g.taken| && Answered(g, i)
    requires met == Routed || met == Held
    ensures Answered(Arrived(g, f, met), i)
  {
    assert FramesOf(g.received, g.fates, Delivered(i)) + [] == FramesOf(g.received, g.fates, Delivered(i));
    assert FramesOf(g.received, g.fates, Discarded(i)) + [] == FramesOf(g.received, g.fates, Discarded(i));
    FramesSnoc(g.received, g.fates, f, met, Delivered(i));
    FramesSnoc(g.received, g.fates, f, met, Discarded(i));
    hide FramesOf, GoodAnswer;
  }

  // Answering the command in flight settles its frames and no others.
  lemma AnswerKeepsAnswers(g: Ledger, r: Replied, i: nat)
    requires |g.received| == |g.fates| && i < |g.replies| < |g.taken| && Answered(g, i)
    requires var n := |g.replies|; Delivered(n) !in g.fates && Discarded(n) !in g.fates
    ensures Answered(WithReply(g, r), i)
  {
    var to := if r.answer.Success? then Delivered(|g.replies|) else Discarded(|g.replies|);
    SettledFrames(g.received, g.fates, to, Delivered(i));
    SettledFrames(g.received, g.fates, to, Discarded(i));
    hide FramesOf, GoodAnswer;
  }

  function WithReply(g: Ledger, r: Replied): Ledger {
    var i := |g.replies|;
    g.(replies := g.replies + [r],
       fates := Settled(g.fates, if r.answer.Success? then Delivered(i) else Discarded(i)))
  }

  // The general step that ends the command in flight.
  lemma ReplyKeepsSound(w: World, r: Replied, l: Link)
    requires Sound(w) && w.link.pending.Some? && r.id == w.link.pending.value.id
    requires l.pending.None? && l.queue == w.link.queue
    requires var g := w.ledger; var held := FramesOf(g.received, g.fates, Held); var cmd := g.taken[|g.taken| - 1];
             if r.answer.Success? then GoodAnswer(cmd.expected, r.answer, held, [])
             else GoodAnswer(cmd.expected, r.answer, [], held)
    ensures Sound(World(l, WithReply(w.ledger, r)))
  {
    Settles(w.ledger, r);
    hide FramesOf, GoodAnswer, InFlight;
  }

  // The reply is the answer to the command that was in flight.
  lemma LastIsAnswered(g: Ledger, r: Replied)
    requires |g.received| == |g.fates| && |g.taken| == |g.replies| + 1
    requires forall i: nat | i >= |g.replies| :: Delivered(i) !in g.fates && Discarded(i) !in g.fates
    requires r.id == g.taken[|g.taken| - 1].id
    requires var held := FramesOf(g.received, g.fates, Held); var cmd := g.taken[|g.taken| - 1];
             if r.answer.Success? then GoodAnswer(cmd.expected, r.answer, held, [])
             else GoodAnswer(cmd.expected, r.answer, [], held)
    ensures Answered(WithReply(g, r), |g.replies|)
  {
    var n := |g.replies|;
    var to := if r.answer.Success? then Delivered(n) else Discarded(n);
    var other := if r.answer.Success? then Discarded(n) else Delivered(n);
    hide GoodAnswer, FramesOf, Settled;
    SettledFrames(g.received, g.fates, to, to);
    SettledFrames(g.received, g.fates, to, other);
    NoneMet(g.received, g.fates, other);
  }

  // The ledger part of ending a command.
  lemma Settles(g: Ledger, r: Replied)
    requires |g.received| == |g.fates| && |g.taken| == |g.replies| + 1
    requires g.routed == FramesOf(g.received, g.fates, Routed)
    requires forall i | 0 <= i < |g.replies| :: Answered(g, i)
    requires forall i: nat | i >= |g.replies| :: Delivered(i) !in g.fates && Discarded(i) !in g.fates
    requires r.id == g.taken[|g.taken| - 1].id
    requires var held := FramesOf(g.received, g.fates, Held); var cmd := g.taken[|g.taken| - 1];
             if r.answer.Success? then GoodAnswer(cmd.expected, r.answer, held, [])
             else GoodAnswer(cmd.expected, r.answer, [], held)
    ensures var g1 := WithReply(g, r);
            |g1.received| == |g1.fates| && g1.routed == FramesOf(g1.received, g1.fates, Routed)
            && (forall i | 0 <= i < |g1.replies| :: Answered(g1, i))
            && (forall i: nat | i >= |g1.replies| :: Delivered(i) !in g1.fates && Discarded(i) !in g1.fates)
            && Held !in g1.fates
  {
    hide GoodAnswer, FramesOf, Answered;
    var n := |g.replies|;
    var to := if r.answer.Success? then Delivered(n) else Discarded(n);
    var g1 := WithReply(g, r);
    SettledFrames(g.received, g.fates, to, Routed);
    SettledMembers(g.fates, to);
    forall i | 0 <= i < |g1.replies| ensures Answered(g1, i) {
      if i < n {
        assert Answered(g, i);
        AnswerKeepsAnswers(g, r, i);
      } else {
        LastIsAnswered(g, r);
      }
    }
    hide Settled;
  }

  lemma SettledMembers(fates: seq<Fate>, to: Fate)
    requires to != Held
    ensures Held !in Settled(fates, to) && forall x | x in Settled(fates, to) :: x == to || x in fates
  {
  }

  // A frame arrives and its command, if any, stays in flight.
  lemma ArrivalKeepsSound(w: World, f: bytes, met: Fate, l: Link)
    requires Sound(w) && l.queue == w.link.queue && l.pending.Some? == w.link.pending.Some?
    requires l.running ==> w.link.running
    requires !l.running ==> l.pending.None?
    requires (met == Routed && l.pending == w.link.pending)
          || (met == Held && l.pending.Some?
              && InFlight(l.pending.value, w.ledger.taken[|w.ledger.taken| - 1],
                          FramesOf(w.ledger.received, w.ledger.fates, Held) + [f]))
    ensures Sound(World(l, Arrived(w.ledger, f, met)))
  {
    hide FramesOf, GoodAnswer, InFlight;
    var g := w.ledger;
    var g1 := Arrived(g, f, met);
    FramesSnoc(g.received, g.fates, f, met, Routed);
    FramesSnoc(g.received, g.fates, f, met, Held);
    var held := FramesOf(g.received, g.fates, Held);
    assert held + [] == held;
    forall i | 0 <= i < |g1.replies| ensures Answered(g1, i) {
      assert Answered(g, i);
      ArrivalKeepsAnswers(g, f, met, i);
    }
    hide Answered;
  }

  lemma NothingHeld(w: World)
    requires Sound(w) && w.link.pending.None?
    ensures FramesOf(w.ledger.received, w.ledger.fates, Held) == []
  {
    NoneMet(w.ledger.received, w.ledger.fates, Held);
  }

  // Taking a command and leaving it in flight.
  lemma TakingKeepsSound(w: World, l: Link, cmd: Command)
    requires Sound(w) && w.link.pending.None? && w.link.queue != [] && cmd == w.link.queue[0]
    requires l.queue == w.link.queue[1..] && l.pending.Some? && l.running
    requires InFlight(l.pending.value, cmd, [])
    ensures Sound(World(l, w.ledger.(taken := w.ledger.taken + [cmd])))
  {
    NothingHeld(w);
    var g := w.ledger;
    var g1 := g.(taken := g.taken + [cmd]);
    hide FramesOf, GoodAnswer, InFlight;
    assert g.submitted == g1.taken + l.queue;
    forall i | 0 <= i < |g1.replies| ensures Answered(g1, i) {
      assert Answered(g, i);
    }
  }

  // Taking a command and answering it at once.
  lemma AnsweringAtOnceKeepsSound(w: World, l: Link, cmd: Command, r: Replied)
    requires Sound(w) && w.link.pending.None? && w.link.queue != [] && cmd == w.link.queue[0] && r.id == cmd.id
    requires l.queue == w.link.queue[1..] && l.pending.None?
    requires GoodAnswer(cmd.expected, r.answer, [], [])
    ensures Sound(World(l, WithReply(w.ledger.(taken := w.ledger.taken + [cmd]), r)))
  {
    NothingHeld(w);
    var g := w.ledger;
    var g1 := g.(taken := g.taken + [cmd]);
    hide FramesOf, GoodAnswer;
    assert g.submitted == g1.taken + l.queue;
    forall i | 0 <= i < |g1.replies| ensures Answered(g1, i) {
      assert Answered(g, i);
    }
    Settles(g1, r);
  }

  lemma TakeKeepsSound(w: World, written: bool)
    requires Sound(w) && Enabled(w.link, Take(written))
    ensures Sound(Advance(w, Take(written)))
  {
    var cmd := w.link.queue[0];
    var o := Step(w.link, Take(written));
    assert Concat([]) == [];
    assert w.ledger.routed + [] == w.ledger.routed;
    if o.replied.Some? {
      assert GoodAnswer(cmd.expected, o.replied.value.answer, [], []);
      hide Sound;
      AnsweringAtOnceKeepsSound(w, o.link, cmd, o.replied.value);
    } else {
      assert InFlight(o.link.pending.value, cmd, []);
      hide Sound;
      TakingKeepsSound(w, o.link, cmd);
    }
  }

  lemma ArriveKeepsSound(w: World, f: bytes)
    requires Sound(w) && Enabled(w.link, Arrive(f))
    ensures Sound(Advance(w, Arrive(f)))
  {
    var o := Step(w.link, Arrive(f));
    var g := w.ledger;
    assert g.routed + [] == g.routed;
    if o.routed.Some? {
      hide Sound, FramesOf;
      ArrivalKeepsSound(w, f, Routed, w.link);
    } else {
      var held := FramesOf(g.received, g.fates, Held);
      var cmd := g.taken[|g.taken| - 1];
      var p := w.link.pending.value;
      ConcatSnoc(held, f);
      if o.replied.None? {
        assert InFlight(o.link.pending.value, cmd, held + [f]);
        hide Sound, FramesOf, InFlight;
        ArrivalKeepsSound(w, f, Held, o.link);
      } else {
        CompletingReply(p, cmd, held, f);
        FinishingFrame(w, f, o.replied.value, o.link);
      }
    }
  }

  // A matching frame or a last line makes a good answer of the held frames and itself.
  lemma CompletingReply(p: Pending, cmd: Command, held: seq<bytes>, f: bytes)
    requires InFlight(p, cmd, held)
    requires match p.matcher
             case Verb(verbs) => FrameMatches(f, verbs)
             case Collecting(remaining, _) => remaining == 1 || IsError(f)
    ensures GoodAnswer(cmd.expected, Success(if p.matcher.Verb? then f else p.matcher.acc + f), held + [f], [])
  {
    ConcatSnoc(held, f);
    assert (held + [f])[..|held|] == held;
    if p.matcher.Verb? {
      assert Concat([]) == [] && [] + f == f;
    }
  }

  // The frame that ends the command in flight is held for an instant and settled with the rest.
  lemma FinishingFrame(w: World, f: bytes, r: Replied, l: Link)
    requires Sound(w) && w.link.pending.Some? && r.id == w.link.pending.value.id && r.answer.Success?
    requires l.pending.None? && l.queue == w.link.queue
    requires GoodAnswer(w.ledger.taken[|w.ledger.taken| - 1].expected, r.answer,
                        FramesOf(w.ledger.received, w.ledger.fates, Held) + [f], [])
    ensures Sound(World(l, WithReply(Arrived(w.ledger, f, Held), r)))
  {
    var g := w.ledger;
    var g1 := Arrived(g, f, Held);
    FramesSnoc(g.received, g.fates, f, Held, Routed);
    FramesSnoc(g.received, g.fates, f, Held, Held);
    hide FramesOf, GoodAnswer, InFlight;
    forall i | 0 <= i < |g1.replies| ensures Answered(g1, i) {
      assert Answered(g, i);
      ArrivalKeepsAnswers(g, f, Held, i);
    }
    Settles(g1, r);
  }

  // Timing out or losing the link fails the command in flight and discards what it collected.
  lemma FailingKeepsSound(w: World, e: Event)
    requires Sound(w) && Enabled(w.link, e) && w.link.pending.Some? && (e.Expire? || e.Drop?)
    ensures Sound(Advance(w, e))
  {
    var o := Step(w.link, e);
    var g := w.ledger;
    assert g.routed + [] == g.routed;
    assert GoodAnswer(g.taken[|g.taken| - 1].expected, o.replied.value.answer, [],
                      FramesOf(g.received, g.fates, Held));
    hide Sound, FramesOf, GoodAnswer, InFlight;
    ReplyKeepsSound(w, o.replied.value, o.link);
  }

  lemma QuietKeepsSound(w: World, e: Event)
    requires Sound(w) && Enabled(w.link, e)
    requires e.Submit? || e.Close? || e.Reopen? || (e.Drop? && w.link.pending.None?)
    ensures Sound(Advance(w, e))
  {
    var g := w.ledger;
    var w1 := Advance(w, e);
    assert g.routed + [] == g.routed;
    assert w1.ledger.submitted == w1.ledger.taken + w1.link.queue;
    hide FramesOf, GoodAnswer, InFlight;
    forall i | 0 <= i < |g.replies| ensures Answered(w1.ledger, i) {
      assert Answered(g, i);
    }
  }

  lemma {:induction false} RunKeepsSound(w: World, es: seq<Event>)
    requires Sound(w) && AllEnabled(w.link, es)
    ensures Sound(Run(w, es))
    decreases |es|
  {
    if es != [] {
      var e := es[0];
      StepKeepsSound(w, e);
      hide Sound, Advance;
      assert Advance(w, e).link == Step(w.link, e).link by { AdvanceLink(w, e); }
      RunKeepsSound(Advance(w, e), es[1..]);
    }
  }

  lemma AdvanceLink(w: World, e: Event)
    requires Enabled(w.link, e)
    ensures Advance(w, e).link == Step(w.link, e).link
  {
  }

  lemma StepKeepsSound(w: World, e: Event)
    requires Sound(w) && Enabled(w.link, e)
    ensures Sound(Advance(w, e))
  {
    hide Sound, Advance, Step;
    match e
    case Take(written) => TakeKeepsSound(w, written);
    case Arrive(f) => ArriveKeepsSound(w, f);
    case Expire => FailingKeepsSound(w, e);
    case Drop =>
      if w.link.pending.Some? {
        FailingKeepsSound(w, e);
      } else {
        QuietKeepsSound(w, e);
      }
    case _ => QuietKeepsSound(w, e);
  }

  const EMPTY := Ledger([], [], [], [], [], [])

  // Over any run, across any number of lost and reopened links: commands are taken in the order
  // they were submitted, at most one is unanswered, and the i-th command taken is answered by the
  // i-th reply, once, on its own channel. A link that is down has answered every command it took.
  lemma CommandsAreAnsweredOnceInOrder(es: seq<Event>)
    requires AllEnabled(START, es)
    ensures var w := Run(World(START, EMPTY), es); var g := w.ledger;
            g.submitted == g.taken + w.link.queue
            && |g.replies| <= |g.taken| <= |g.replies| + 1
            && (!w.link.running || w.link.pending.None? ==> |g.taken| == |g.replies|)
            && forall i | 0 <= i < |g.replies| :: g.replies[i].id == g.taken[i].id
  {
    RunKeepsSound(World(START, EMPTY), es);
    var w := Run(World(START, EMPTY), es);
    hide Run;
    forall i | 0 <= i < |w.ledger.replies| ensures w.ledger.replies[i].id == w.ledger.taken[i].id {
      assert Answered(w.ledger, i);
    }
  }

  // Every received frame has exactly one fate: it was routed, in order; or it is part of exactly
  // one reply, which is good for its command; or it was discarded by a command of several lines
  // that failed before its last line; or it is held by such a command in flight.
  lemma FramesHaveOneFate(es: seq<Event>)
    requires AllEnabled(START, es)
    ensures var w := Run(World(START, EMPTY), es); var g := w.ledger;
            |g.fates| == |g.received|
            && g.routed == FramesOf(g.received, g.fates, Routed)
            && (forall i | 0 <= i < |g.replies| :: |g.replies| <= |g.taken| && Answered(g, i))
            && (forall i: nat | Delivered(i) in g.fates || Discarded(i) in g.fates :: i < |g.replies|)
            && (Held in g.fates ==> w.link.running && w.link.pending.Some? && w.link.pending.value.matcher.Collecting?)
  {
    RunKeepsSound(World(START, EMPTY), es);
    var w := Run(World(START, EMPTY), es);
    hide Run;
    if Held in w.ledger.fates && FramesOf(w.ledger.received, w.ledger.fates, Held) == [] {
      SomeMet(w.ledger.received, w.ledger.fates, Held);
    }
    hide Answered, FramesOf;
  }
}
