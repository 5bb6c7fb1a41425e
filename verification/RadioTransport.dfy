// The radio transport: one command in flight, replies matched, every other frame routed, across
// any number of lost and reopened links.

module RadioTransport {
  import opened Common

  datatype Expect = Reply(verbs: seq<bytes>) | Lines(n: nat) | NoReply

  // The id stands for the reply channel the command carries.
  datatype Command = Command(id: nat, payload: bytes, expected: Expect)

  datatype Matcher = Verb(verbs: seq<bytes>) | Collecting(remaining: nat, acc: bytes)

  datatype Pending = Pending(matcher: Matcher, id: nat)

  datatype Answer = Success(data: bytes) | TimedOut | TransportLost

  datatype Replied = Replied(id: nat, answer: Answer)

  datatype Link = Link(running: bool, shutDown: bool, pending: Option<Pending>, queue: seq<Command>)

  datatype Event =
    | Submit(command: Command)
    | Take(written: bool)
    | Arrive(frame: bytes)
    | Expire
    | Drop
    | Close
    | Reopen

  predicate StartsWith(frame: bytes, prefix: bytes) {
    prefix <= frame
  }

  predicate FrameMatches(frame: bytes, verbs: seq<bytes>) {
    exists i | 0 <= i < |verbs| :: StartsWith(frame, verbs[i])
  }

  // "RPRT ": a downstream error is a complete one-line response.
  const ERROR_PREFIX: bytes := [0x52, 0x50, 0x52, 0x54, 0x20]

  predicate IsError(frame: bytes) {
    StartsWith(frame, ERROR_PREFIX)
  }

  predicate Enabled(l: Link, e: Event) {
    match e
    case Submit(_) => !l.shutDown
    case Take(_) => l.running && l.pending.None? && l.queue != []
    case Arrive(_) => l.running
    case Expire => l.running && l.pending.Some?
    case Drop => l.running
    case Close => l.running && l.pending.None? && l.queue == []
    case Reopen => !l.running && !l.shutDown
  }

  // What one event changes and emits.
  datatype Outcome = Outcome(link: Link, taken: Option<Command>, replied: Option<Replied>, routed: Option<bytes>)

  function Quiet(l: Link): Outcome {
    Outcome(l, None, None, None)
  }

  function TakeCommand(l: Link, written: bool): Outcome
    requires l.queue != []
  {
    var cmd := l.queue[0];
    var l1 := l.(queue := l.queue[1..]);
    if !written then Outcome(l1.(running := false), Some(cmd), Some(Replied(cmd.id, TransportLost)), None)
    else match cmd.expected
      case NoReply => Outcome(l1, Some(cmd), Some(Replied(cmd.id, Success([]))), None)
      case Reply(verbs) => Outcome(l1.(pending := Some(Pending(Verb(verbs), cmd.id))), Some(cmd), None, None)
      case Lines(n) =>
        if n == 0 then Outcome(l1, Some(cmd), Some(Replied(cmd.id, Success([]))), None)
        else Outcome(l1.(pending := Some(Pending(Collecting(n, []), cmd.id))), Some(cmd), None, None)
  }

  function ReceiveFrame(l: Link, frame: bytes): Outcome {
    if l.pending.None? then Outcome(l, None, None, Some(frame))
    else
      var p := l.pending.value;
      match p.matcher
      case Verb(verbs) =>
        if FrameMatches(frame, verbs) then
          Outcome(l.(pending := None), None, Some(Replied(p.id, Success(frame))), None)
        else Outcome(l, None, None, Some(frame))
      case Collecting(remaining, acc) =>
        var left := if remaining > 0 then remaining - 1 else 0;
        if left == 0 || IsError(frame) then
          Outcome(l.(pending := None), None, Some(Replied(p.id, Success(acc + frame))), None)
        else Outcome(l.(pending := Some(Pending(Collecting(left, acc + frame), p.id))), None, None, None)
  }

  function Step(l: Link, e: Event): Outcome
    requires Enabled(l, e)
  {
    match e
    case Submit(cmd) => Quiet(l.(queue := l.queue + [cmd]))
    case Take(written) => TakeCommand(l, written)
    case Arrive(frame) => ReceiveFrame(l, frame)
    case Expire => Outcome(l.(pending := None), None, Some(Replied(l.pending.value.id, TimedOut)), None)
    case Drop =>
      var l1 := l.(running := false, pending := None);
      if l.pending.None? then Quiet(l1)
      else Outcome(l1, None, Some(Replied(l.pending.value.id, TransportLost)), None)
    case Close => Quiet(l.(running := false, shutDown := true))
    case Reopen => Quiet(l.(running := true))
  }

  // ---- The transport object ----

  class Transport {
    var running: bool
    var shutDown: bool
    var pending: Option<Pending>
    var queue: seq<Command>
    var replies: seq<Replied>
    var routed: seq<bytes>

    ghost function State(): Link
      reads this
    {
      Link(running, shutDown, pending, queue)
    }

    constructor ()
      ensures State() == START && replies == [] && routed == []
    {
      running, shutDown, pending, queue := true, false, None, [];
      replies, routed := [], [];
    }

    method Send(id: nat, answer: Answer)
      modifies this`replies
      ensures replies == old(replies) + [Replied(id, answer)]
    {
      replies := replies + [Replied(id, answer)];
    }

    method Queue(cmd: Command)
      requires Enabled(State(), Submit(cmd))
      modifies this
      ensures Emits(old(State()), Submit(cmd), old(replies), old(routed))
    {
      queue := queue + [cmd];
    }

    // What the state, the replies and the routed frames are after an event.
    ghost predicate Emits(l: Link, e: Event, repliesBefore: seq<Replied>, routedBefore: seq<bytes>)
      requires Enabled(l, e)
      reads this
    {
      var o := Step(l, e);
      && State() == o.link
      && replies == repliesBefore + (if o.replied.Some? then [o.replied.value] else [])
      && routed == routedBefore + (if o.routed.Some? then [o.routed.value] else [])
    }

    method TakeNext(written: bool) returns (cmd: Command)
      requires Enabled(State(), Take(written))
      modifies this
      ensures Emits(old(State()), Take(written), old(replies), old(routed))
      ensures Step(old(State()), Take(written)).taken == Some(cmd)
    {
      cmd := queue[0];
      queue := queue[1..];
      if !written {
        Send(cmd.id, TransportLost);
        running := false;
        return;
      }
      match cmd.expected {
        case NoReply => Send(cmd.id, Success([]));
        case Reply(verbs) => pending := Some(Pending(Verb(verbs), cmd.id));
        case Lines(n) =>
          if n == 0 {
            Send(cmd.id, Success([]));
          } else {
            pending := Some(Pending(Collecting(n, []), cmd.id));
          }
      }
    }

    method MatchFrame(frame: bytes)
      requires Enabled(State(), Arrive(frame))
      modifies this
      ensures Emits(old(State()), Arrive(frame), old(replies), old(routed))
    {
      if pending.None? {
        routed := routed + [frame];
        return;
      }
      var p := pending.value;
      match p.matcher {
        case Verb(verbs) =>
          if FrameMatches(frame, verbs) {
            Send(p.id, Success(frame));
            pending := None;
          } else {
            routed := routed + [frame];
          }
        case Collecting(remaining, acc) =>
          var left := if remaining > 0 then remaining - 1 else 0;
          if left == 0 || IsError(frame) {
            Send(p.id, Success(acc + frame));
            pending := None;
          } else {
            pending := Some(Pending(Collecting(left, acc + frame), p.id));
          }
      }
    }

    method ReplyTimeout()
      requires Enabled(State(), Expire)
      modifies this
      ensures Emits(old(State()), Expire, old(replies), old(routed))
    {
      Send(pending.value.id, TimedOut);
      pending := None;
    }

    method StreamClosed()
      requires Enabled(State(), Drop)
      modifies this
      ensures Emits(old(State()), Drop, old(replies), old(routed))
    {
      if pending.Some? {
        Send(pending.value.id, TransportLost);
        pending := None;
      }
      running := false;
    }

    method ChannelClosed()
      requires Enabled(State(), Close)
      modifies this
      ensures Emits(old(State()), Close, old(replies), old(routed))
    {
      running := false;
      shutDown := true;
    }

    method Reconnect()
      requires Enabled(State(), Reopen)
      modifies this
      ensures Emits(old(State()), Reopen, old(replies), old(routed))
    {
      running := true;
    }

    method Handle(e: Event)
      requires Enabled(State(), e)
      modifies this
      ensures Emits(old(State()), e, old(replies), old(routed))
    {
      hide Step;
      match e {
        case Submit(cmd) => Queue(cmd);
        case Take(written) => var _ := TakeNext(written);
        case Arrive(frame) => MatchFrame(frame);
        case Expire => ReplyTimeout();
        case Drop => StreamClosed();
        case Close => ChannelClosed();
        case Reopen => Reconnect();
      }
    }

    // The supervised loop: one event at a time, for as long as they keep coming.
    method Serve(es: seq<Event>)
      requires AllEnabled(State(), es)
      modifies this
      ensures var r := Run(World(old(State()), Ledger([], [], old(replies), [], [], old(routed))), es);
              State() == r.link && replies == r.ledger.replies && routed == r.ledger.routed
    {
      hide Step, Enabled;
      var k := 0;
      ghost var w := World(State(), Ledger([], [], replies, [], [], routed));
      assert es[0..] == es;
      while k < |es|
        invariant 0 <= k <= |es|
        invariant State() == w.link && replies == w.ledger.replies && routed == w.ledger.routed
        invariant AllEnabled(w.link, es[k..])
        invariant Run(w, es[k..]) == Run(World(old(State()), Ledger([], [], old(replies), [], [], old(routed))), es)
      {
        assert es[k..][0] == es[k] && es[k..][1..] == es[k + 1..];
        LedgerMoves(w, es[k]);
        Handle(es[k]);
        w := Advance(w, es[k]);
        k := k + 1;
      }
    }
  }

  lemma LedgerMoves(w: World, e: Event)
    requires Enabled(w.link, e)
    ensures var o := Step(w.link, e); var w1 := Advance(w, e);
            w1.link == o.link
            && w1.ledger.replies == w.ledger.replies + (if o.replied.Some? then [o.replied.value] else [])
            && w1.ledger.routed == w.ledger.routed + (if o.routed.Some? then [o.routed.value] else [])
  {
    hide Step;
    assert w.ledger.replies + [] == w.ledger.replies;
  }

  const START := Link(true, false, None, [])

  // ---- Runs and their ledger ----

  datatype Fate = Routed | Held | Delivered(index: nat) | Discarded(index: nat)

  datatype Ledger = Ledger(
    submitted: seq<Command>,
    taken: seq<Command>,
    replies: seq<Replied>,
    received: seq<bytes>,
    fates: seq<Fate>,
    routed: seq<bytes>)

  datatype World = World(link: Link, ledger: Ledger)

  // Held frames go with the reply that ends their command.
  function Settled(fates: seq<Fate>, to: Fate): seq<Fate> {
    seq(|fates|, i requires 0 <= i < |fates| => if fates[i] == Held then to else fates[i])
  }

  function Enter(g: Ledger, e: Event, o: Outcome): Ledger {
    var g1 := if e.Submit? then g.(submitted := g.submitted + [e.command]) else g;
    var g2 := if o.taken.Some? then g1.(taken := g1.taken + [o.taken.value]) else g1;
    var g3 := if e.Arrive? then
                g2.(received := g2.received + [e.frame],
                    fates := g2.fates + [if o.routed.Some? then Routed else Held])
              else g2;
    var g4 := g3.(routed := g3.routed + (if o.routed.Some? then [o.routed.value] else []));
    if o.replied.None? then g4
    else
      var i := |g4.replies|;
      g4.(replies := g4.replies + [o.replied.value],
          fates := Settled(g4.fates, if o.replied.value.answer.Success? then Delivered(i) else Discarded(i)))
  }

  function Advance(w: World, e: Event): World
    requires Enabled(w.link, e)
  {
    var o := Step(w.link, e);
    World(o.link, Enter(w.ledger, e, o))
  }

  predicate AllEnabled(l: Link, es: seq<Event>)
    decreases |es|
  {
    es == [] || (Enabled(l, es[0]) && AllEnabled(Step(l, es[0]).link, es[1..]))
  }

  function Run(w: World, es: seq<Event>): World
    requires AllEnabled(w.link, es)
    decreases |es|
  {
    if es == [] then w else Run(Advance(w, es[0]), es[1..])
  }
}
