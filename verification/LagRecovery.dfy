// Subscribers of the broadcast ring: whatever they miss, they end at the hub's snapshot.

module LagRecovery {
  import opened Common
  import opened RadioState
  import TransmitPower

  const RING_CAPACITY: nat := 1024

  // ---- Changes are assignments to named facts ----

  datatype Fact = FFreq(vfo: Vfo) | FMode(vfo: Vfo) | FData(vfo: Vfo) | FRx | FSplit | FTx | FPtt | FRit | FXit | FPower

  datatype FactValue =
    | Number(n: nat)
    | ModeValue(m: Mode)
    | Flag(on: bool)
    | VfoValue(v: Vfo)
    | Offset(enabled: bool, hz: int)
    | PowerValue(p: Option<TransmitPower.TxPower>)

  type Facts = map<Fact, FactValue>

  const FACTS: set<Fact> := {FFreq(A), FFreq(B), FMode(A), FMode(B), FData(A), FData(B), FRx, FSplit, FTx, FPtt,
                             FRit, FXit, FPower}

  function Look(s: Snapshot, f: Fact): FactValue {
    match f
    case FFreq(v) => Number(s.Of(v).freqHz)
    case FMode(v) => ModeValue(s.Of(v).mode)
    case FData(v) => Flag(s.Of(v).data)
    case FRx => VfoValue(s.rxVfo)
    case FSplit => Flag(s.split)
    case FTx => VfoValue(s.txVfo)
    case FPtt => Flag(s.ptt)
    case FRit => Offset(s.ritEnabled, s.ritOffsetHz)
    case FXit => Offset(s.xitEnabled, s.xitOffsetHz)
    case FPower => PowerValue(s.txPower)
  }

  // A snapshot as a client can see it: everything but whether a mode has been observed.
  function View(s: Snapshot): Facts {
    map f | f in FACTS :: Look(s, f)
  }

  function Assigns(ch: StateChange): Facts {
    match ch
    case RxVfo(v) => map[FRx := VfoValue(v)]
    case Freq(v, hz) => map[FFreq(v) := Number(hz)]
    case ModeIs(v, m) => map[FMode(v) := ModeValue(m)]
    case DataMode(v, on) => map[FData(v) := Flag(on)]
    case Split(enabled, tx) =>
      if tx.Some? then map[FSplit := Flag(enabled), FTx := VfoValue(tx.value)] else map[FSplit := Flag(enabled)]
    case Ptt(keyed) => map[FPtt := Flag(keyed)]
    case Rit(enabled, hz) => map[FRit := Offset(enabled, hz)]
    case Xit(enabled, hz) => map[FXit := Offset(enabled, hz)]
    case Power(p) => map[FPower := PowerValue(p)]
  }

  lemma EveryFact(f: Fact)
    ensures f in FACTS
  {
    match f
    case FFreq(v) => assert v == A || v == B;
    case FMode(v) => assert v == A || v == B;
    case FData(v) => assert v == A || v == B;
    case _ =>
  }

  lemma ApplyLooks(s: Snapshot, ch: StateChange, f: Fact)
    ensures var s1 := ApplyChange(s, ch).snapshot;
            Look(s1, f) == if f in Assigns(ch) then Assigns(ch)[f] else Look(s, f)
    ensures !ApplyChange(s, ch).changed ==> Look(ApplyChange(s, ch).snapshot, f) == Look(s, f)
  {
    if ch.Freq? || ch.ModeIs? || ch.DataMode? {
      ApplyLooksVfo(s, ch, f);
      hide Look, ApplyChange, Assigns;
    }
  }

  lemma ApplyLooksVfo(s: Snapshot, ch: StateChange, f: Fact)
    requires ch.Freq? || ch.ModeIs? || ch.DataMode?
    ensures var s1 := ApplyChange(s, ch).snapshot;
            Look(s1, f) == if f in Assigns(ch) then Assigns(ch)[f] else Look(s, f)
    ensures !ApplyChange(s, ch).changed ==> Look(ApplyChange(s, ch).snapshot, f) == Look(s, f)
  {
    VfoApplied(s, ch);
    hide ApplyChange;
    match f
    case FFreq(v) => assert v == ch.vfo || v == ch.vfo.Other();
    case FMode(v) => assert v == ch.vfo || v == ch.vfo.Other();
    case FData(v) => assert v == ch.vfo || v == ch.vfo.Other();
    case _ =>
  }

  lemma VfoApplied(s: Snapshot, ch: StateChange)
    requires ch.Freq? || ch.ModeIs? || ch.DataMode?
    ensures var r := ApplyChange(s, ch);
            r.snapshot == s.With(ch.vfo, r.snapshot.Of(ch.vfo))
            && r.snapshot.Of(ch.vfo.Other()) == s.Of(ch.vfo.Other())
            && r.snapshot.Of(ch.vfo)
               == match ch
                  case Freq(v, hz) => s.Of(v).(freqHz := hz)
                  case ModeIs(v, mode) => s.Of(v).(mode := mode, modeKnown := true)
                  case DataMode(v, on) => s.Of(v).(data := on)
                  case _ => s.Of(A)
    ensures !ApplyChange(s, ch).changed ==>
              match ch
              case Freq(v, hz) => hz == s.Of(v).freqHz
              case ModeIs(v, mode) => mode == s.Of(v).mode
              case DataMode(v, on) => on == s.Of(v).data
              case _ => true
  {
  }

  lemma ApplyAssigns(s: Snapshot, ch: StateChange)
    ensures View(ApplyChange(s, ch).snapshot) == View(s) + Assigns(ch)
    ensures !ApplyChange(s, ch).changed ==> View(ApplyChange(s, ch).snapshot) == View(s)
  {
    forall f: Fact
      ensures f in FACTS
      ensures var s1 := ApplyChange(s, ch).snapshot;
              Look(s1, f) == if f in Assigns(ch) then Assigns(ch)[f] else Look(s, f)
      ensures !ApplyChange(s, ch).changed ==> Look(ApplyChange(s, ch).snapshot, f) == Look(s, f)
    {
      EveryFact(f);
      ApplyLooks(s, ch, f);
    }
    hide Look, ApplyChange, Assigns, View;
    ViewOfAssigned(s, ApplyChange(s, ch).snapshot, Assigns(ch));
    ViewOfAssigned(s, ApplyChange(s, ch).snapshot, map[]);
  }

  lemma ViewOfAssigned(s: Snapshot, s1: Snapshot, facts: Facts)
    requires forall f: Fact :: f in FACTS
    ensures (forall f: Fact :: Look(s1, f) == if f in facts then facts[f] else Look(s, f)) ==> View(s1) == View(s) + facts
  {
    hide Look;
  }

  // What a client does with the events it reads: changes are applied, relayed frames are not state.
  function Follow(s: Snapshot, events: seq<RadioEvent>): Snapshot
    decreases |events|
  {
    if events == [] then s
    else Follow(if events[0].Change? then ApplyChange(s, events[0].change).snapshot else s, events[1..])
  }

  function Writes(events: seq<RadioEvent>): Facts
    decreases |events|
  {
    if events == [] then map[]
    else (if events[0].Change? then Assigns(events[0].change) else map[]) + Writes(events[1..])
  }

  lemma {:induction false} FollowWrites(s: Snapshot, events: seq<RadioEvent>)
    ensures View(Follow(s, events)) == View(s) + Writes(events)
    decreases |events|
  {
    hide View, ApplyChange, Assigns;
    if events != [] {
      var s1 := if events[0].Change? then ApplyChange(s, events[0].change).snapshot else s;
      if events[0].Change? {
        ApplyAssigns(s, events[0].change);
      }
      FollowWrites(s1, events[1..]);
    }
  }

  lemma {:induction false} WritesAppend(a: seq<RadioEvent>, b: seq<RadioEvent>)
    ensures Writes(a + b) == Writes(a) + Writes(b)
    decreases |a|
  {
    hide Assigns;
    if a == [] {
      assert a + b == b;
    } else {
      assert (a + b)[0] == a[0] && (a + b)[1..] == a[1..] + b;
      WritesAppend(a[1..], b);
      Associate(if a[0].Change? then Assigns(a[0].change) else map[], Writes(a[1..]), Writes(b));
    }
  }

  function AsEvents(chs: seq<StateChange>): seq<RadioEvent> {
    seq(|chs|, i requires 0 <= i < |chs| => Change(chs[i]))
  }

  // The last change that assigns a fact decides it.
  lemma {:induction false} LastWriteWins(chs: seq<StateChange>, i: nat, f: Fact)
    requires i < |chs| && f in Assigns(chs[i]) && forall j | i < j < |chs| :: f !in Assigns(chs[j])
    ensures f in Writes(AsEvents(chs)) && Writes(AsEvents(chs))[f] == Assigns(chs[i])[f]
    decreases |chs|
  {
    hide Assigns;
    var rest := chs[1..];
    assert AsEvents(chs)[0] == Change(chs[0]) && AsEvents(chs)[1..] == AsEvents(rest);
    if i > 0 {
      LastWriteWins(rest, i - 1, f);
    } else {
      NeverWritten(rest, f);
    }
  }

  lemma {:induction false} NeverWritten(chs: seq<StateChange>, f: Fact)
    requires forall j | 0 <= j < |chs| :: f !in Assigns(chs[j])
    ensures f !in Writes(AsEvents(chs))
    decreases |chs|
  {
    hide Assigns;
    if chs != [] {
      assert AsEvents(chs)[0] == Change(chs[0]) && AsEvents(chs)[1..] == AsEvents(chs[1..]);
      NeverWritten(chs[1..], f);
    }
  }

  // Where the full list assigns each fact.
  function Place(f: Fact): nat {
    match f
    case FFreq(v) => if v == A then 0 else 1
    case FMode(v) => if v == A then 2 else 3
    case FData(v) => if v == A then 4 else 5
    case FSplit => 6
    case FTx => 6
    case FRit => 7
    case FXit => 8
    case FPtt => 9
    case FPower => 10
    case FRx => 11
  }

  lemma FullListAssigns(s: Snapshot, f: Fact)
    ensures var l := AsChanges(s);
            f in Assigns(l[Place(f)]) && Assigns(l[Place(f)])[f] == Look(s, f)
            && forall j | Place(f) < j < |l| :: f !in Assigns(l[j])
  {
  }

  // From any stale state, a full replay shows exactly the snapshot.
  lemma FullReplay(stale: Snapshot, s: Snapshot)
    ensures View(Follow(stale, AsEvents(AsChanges(s)))) == View(s)
  {
    var l := AsChanges(s);
    FollowWrites(stale, AsEvents(l));
    forall f: Fact ensures f in FACTS && f in Writes(AsEvents(l)) && Writes(AsEvents(l))[f] == Look(s, f) {
      EveryFact(f);
      FullListAssigns(s, f);
      LastWriteWins(l, Place(f), f);
    }
    hide Follow, Writes, AsEvents, AsChanges, Look, Assigns, Place;
  }

  // ---- A hub and one subscriber ----

  datatype Client = Client(copy: Snapshot, cursor: nat)

  datatype World = World(hub: Hub, client: Client)

  datatype Step =
    | Recording(change: StateChange, source: EventSource)
    | Relaying(frame: bytes)
    | RelayingNative(frame: bytes)
    | Receiving

  // Reading from the ring: a reader that fell behind skips to the oldest kept event and replays
  // the current snapshot; otherwise it takes the next event, if there is one.
  function Receive(h: Hub, c: Client): Client {
    if c.cursor + RING_CAPACITY < |h.log| then
      Client(Follow(c.copy, AsEvents(AsChanges(h.snapshot))), |h.log| - RING_CAPACITY)
    else if c.cursor < |h.log| then Client(Follow(c.copy, [h.log[c.cursor]]), c.cursor + 1)
    else c
  }

  function Advance(w: World, s: Step): World {
    match s
    case Recording(ch, source) => w.(hub := Record(w.hub, ch, source))
    case Relaying(frame) => w.(hub := w.hub.(log := w.hub.log + [Raw(frame)]))
    case RelayingNative(frame) => w.(hub := w.hub.(log := w.hub.log + [RawNative(frame)]))
    case Receiving => w.(client := Receive(w.hub, w.client))
  }

  function Runs(w: World, steps: seq<Step>): World
    decreases |steps|
  {
    if steps == [] then w else Runs(Advance(w, steps[0]), steps[1..])
  }

  // The log explains the snapshot.
  ghost predicate Explained(h: Hub) {
    View(h.snapshot) == View(DEFAULT) + Writes(h.log)
  }

  // Whatever a client still has to read takes it to the snapshot.
  ghost predicate OnTrack(w: World) {
    && w.client.cursor <= |w.hub.log|
    && View(w.client.copy) + Writes(w.hub.log[w.client.cursor..]) == View(w.hub.snapshot)
  }

  lemma WritesOne(e: RadioEvent)
    ensures Writes([e]) == if e.Change? then Assigns(e.change) else map[]
  {
    assert [e][1..] == [];
    assert Writes([e]) == (if e.Change? then Assigns(e.change) else map[]) + Writes([]);
  }

  lemma ExplainedGrows(h: Hub, e: RadioEvent, s: Snapshot)
    requires Explained(h) && View(s) == View(h.snapshot) + (if e.Change? then Assigns(e.change) else map[])
    ensures Explained(h.(snapshot := s, log := h.log + [e]))
  {
    hide View, Assigns, Writes;
    WritesAppend(h.log, [e]);
    WritesOne(e);
    Associate(View(DEFAULT), Writes(h.log), Writes([e]));
  }

  lemma OnTrackGrows(w: World, e: RadioEvent, s: Snapshot)
    requires OnTrack(w) && View(s) == View(w.hub.snapshot) + (if e.Change? then Assigns(e.change) else map[])
    ensures OnTrack(w.(hub := w.hub.(snapshot := s, log := w.hub.log + [e])))
  {
    hide View, Assigns, Writes;
    var behind := w.hub.log[w.client.cursor..];
    assert (w.hub.log + [e])[w.client.cursor..] == behind + [e];
    WritesAppend(behind, [e]);
    WritesOne(e);
    Associate(View(w.client.copy), Writes(behind), Writes([e]));
  }

  // Only values are broadcast that really changed, and every changed value is.
  lemma AdvanceKeepsExplained(w: World, step: Step)
    requires Explained(w.hub)
    ensures Explained(Advance(w, step).hub)
  {
    hide View, Assigns, ApplyChange, UncertainAfter, FieldOf, Writes;
    match step
    case Recording(ch, source) =>
      ApplyAssigns(w.hub.snapshot, ch);
      if ApplyChange(w.hub.snapshot, ch).changed {
        ExplainedGrows(w.hub, Change(ch), ApplyChange(w.hub.snapshot, ch).snapshot);
      }
    case Relaying(frame) => ExplainedGrows(w.hub, Raw(frame), w.hub.snapshot);
    case RelayingNative(frame) => ExplainedGrows(w.hub, RawNative(frame), w.hub.snapshot);
    case Receiving =>
  }

  // Re-applying any retained end of the log to the snapshot it led to changes nothing.
  lemma SuffixIsAbsorbed(h: Hub, from: nat)
    requires Explained(h) && from <= |h.log|
    ensures View(h.snapshot) + Writes(h.log[from..]) == View(h.snapshot)
  {
    hide View, Writes;
    assert h.log == h.log[..from] + h.log[from..];
    WritesAppend(h.log[..from], h.log[from..]);
    Absorb(View(DEFAULT), Writes(h.log[..from]), Writes(h.log[from..]));
  }

  lemma Absorb(a: Facts, b: Facts, c: Facts)
    ensures (a + (b + c)) + c == a + (b + c)
  {
  }

  lemma Associate(a: Facts, b: Facts, c: Facts)
    ensures (a + b) + c == a + (b + c)
  {
  }

  lemma ReceiveKeepsOnTrack(w: World)
    requires OnTrack(w) && Explained(w.hub)
    ensures OnTrack(w.(client := Receive(w.hub, w.client)))
  {
    hide View, Follow, AsChanges, Writes;
    var c := w.client;
    if c.cursor + RING_CAPACITY < |w.hub.log| {
      LaggingResynchronises(w);
    } else if c.cursor < |w.hub.log| {
      var e := w.hub.log[c.cursor];
      var behind := w.hub.log[c.cursor + 1..];
      FollowWrites(c.copy, [e]);
      assert w.hub.log[c.cursor..] == [e] + behind;
      WritesAppend([e], behind);
      Associate(View(c.copy), Writes([e]), Writes(behind));
    }
  }

  // A reader that lost events is put on track by the replay, whatever stale copy it held.
  lemma LaggingResynchronises(w: World)
    requires Explained(w.hub) && w.client.cursor + RING_CAPACITY < |w.hub.log|
    ensures OnTrack(w.(client := Receive(w.hub, w.client)))
    ensures View(Receive(w.hub, w.client).copy) == View(w.hub.snapshot)
  {
    FullReplay(w.client.copy, w.hub.snapshot);
    SuffixIsAbsorbed(w.hub, |w.hub.log| - RING_CAPACITY);
    hide View, Follow, AsChanges;
  }

  lemma AdvanceKeepsOnTrack(w: World, step: Step)
    requires OnTrack(w) && Explained(w.hub)
    ensures OnTrack(Advance(w, step))
  {
    hide View, Assigns, ApplyChange, UncertainAfter, FieldOf, Writes, Receive;
    match step
    case Recording(ch, source) =>
      ApplyAssigns(w.hub.snapshot, ch);
      if ApplyChange(w.hub.snapshot, ch).changed {
        OnTrackGrows(w, Change(ch), ApplyChange(w.hub.snapshot, ch).snapshot);
      }
    case Relaying(frame) => OnTrackGrows(w, Raw(frame), w.hub.snapshot);
    case RelayingNative(frame) => OnTrackGrows(w, RawNative(frame), w.hub.snapshot);
    case Receiving => ReceiveKeepsOnTrack(w);
  }

  lemma {:induction false} RunsKeepTrack(w: World, steps: seq<Step>)
    requires Explained(w.hub)
    ensures Explained(Runs(w, steps).hub)
    ensures OnTrack(w) ==> OnTrack(Runs(w, steps))
    decreases |steps|
  {
    hide Explained, OnTrack, Advance;
    if steps != [] {
      AdvanceKeepsExplained(w, steps[0]);
      if OnTrack(w) {
        AdvanceKeepsOnTrack(w, steps[0]);
      }
      RunsKeepTrack(Advance(w, steps[0]), steps[1..]);
    }
  }

  // The hub explains itself over every run: folding all broadcast changes over the defaults gives
  // the snapshot, up to whether modes have been observed.
  lemma {:induction false} BroadcastsReconstructTheSnapshot(steps: seq<Step>, client: Client)
    ensures var h := Runs(World(NEW_HUB, client), steps).hub;
            View(Follow(DEFAULT, h.log)) == View(h.snapshot)
  {
    RunsKeepTrack(World(NEW_HUB, client), steps);
    FollowWrites(DEFAULT, Runs(World(NEW_HUB, client), steps).hub.log);
    hide View, Follow, Runs;
  }

  // A subscriber with any stale copy that loses events: from the moment it notices, over any
  // further run of recordings, relayed frames and reads, it shows exactly the hub's snapshot
  // whenever it has read everything.
  lemma {:induction false} LaggedSubscriberConverges(before: seq<Step>, client: Client, after: seq<Step>)
    requires var w := Runs(World(NEW_HUB, client), before); w.client.cursor + RING_CAPACITY < |w.hub.log|
    ensures var w := Runs(Advance(Runs(World(NEW_HUB, client), before), Receiving), after);
            w.client.cursor <= |w.hub.log|
            && (w.client.cursor == |w.hub.log| ==> View(w.client.copy) == View(w.hub.snapshot))
  {
    var w := Runs(World(NEW_HUB, client), before);
    RunsKeepTrack(World(NEW_HUB, client), before);
    LaggingResynchronises(w);
    assert Advance(w, Receiving) == w.(client := Receive(w.hub, w.client));
    RunsKeepTrack(Advance(w, Receiving), after);
    hide View, Runs, Advance;
  }

  // A subscriber that starts from a true copy never leaves the track, lagging or not.
  lemma {:induction false} SubscriberConverges(w: World, steps: seq<Step>)
    requires Explained(w.hub) && w.client.cursor == |w.hub.log| && View(w.client.copy) == View(w.hub.snapshot)
    ensures var w' := Runs(w, steps);
            w'.client.cursor <= |w'.hub.log|
            && (w'.client.cursor == |w'.hub.log| ==> View(w'.client.copy) == View(w'.hub.snapshot))
  {
    hide View, Runs;
    assert w.hub.log[w.client.cursor..] == [];
    assert OnTrack(w);
    RunsKeepTrack(w, steps);
    var w' := Runs(w, steps);
    assert w'.client.cursor == |w'.hub.log| ==> w'.hub.log[w'.client.cursor..] == [];
  }
}
