// Redundant writes are not sent. That is sound even for a radio that recalls mode and DATA from
// its band memory, because a frequency write makes both facts uncertain.

module Suppression {
  import opened Common
  import opened RadioState
  import opened RadioCommands

  datatype RigVfo = RigVfo(freqHz: nat, digit: byte, data: bool)

  datatype Clarifier = Clarifier(on: bool, offsetHz: int)

  // The radio itself: per-VFO facts; the receive VFO, to which mode and DATA commands apply; the
  // transmit VFO; RIT and XIT; and whether it transmits. Split is receiving on one VFO and
  // transmitting on the other.
  datatype Rig = Rig(a: RigVfo, b: RigVfo, rx: Vfo, tx: Vfo, rit: Clarifier, xit: Clarifier, keyed: bool) {
    function Of(v: Vfo): RigVfo {
      if v == A then a else b
    }

    function With(v: Vfo, s: RigVfo): Rig {
      if v == A then this.(a := s) else this.(b := s)
    }
  }

  // What the band memory holds for a frequency that is tuned to.
  datatype Recall = Recall(digit: byte, data: bool)

  // The radio obeys one command. Tuning a VFO to the frequency it is on recalls nothing.
  function Obeyed(r: Rig, c: RadioCommand, recall: Recall): Rig {
    match c
    case SelectRx(v) => r.(rx := v)
    case SelectTx(v) => r.(tx := v)
    case Tune(v, hz) => if r.Of(v).freqHz == hz then r else r.With(v, RigVfo(hz, recall.digit, recall.data))
    case ChooseMode(digit) => r.With(r.rx, r.Of(r.rx).(digit := digit))
    case ChooseData(on) => r.With(r.rx, r.Of(r.rx).(data := on))
    case Transmit(on) => r.(keyed := on)
    case SwitchRit(on) => r.(rit := r.rit.(on := on))
    case SwitchXit(on) => r.(xit := r.xit.(on := on))
  }

  function ObeyedAll(r: Rig, cs: seq<RadioCommand>, recall: Recall): Rig
    decreases |cs|
  {
    if cs == [] then r else ObeyedAll(Obeyed(r, cs[0], recall), cs[1..], recall)
  }

  // The radio obeys the commands that a write is translated to.
  function Executed(r: Rig, s: Snapshot, m: Mutation, recall: Recall): Rig {
    ObeyedAll(r, Commands(s, m), recall)
  }

  lemma OneObeyed(r: Rig, c: RadioCommand, recall: Recall)
    ensures ObeyedAll(r, [c], recall) == Obeyed(r, c, recall)
  {
    assert [c][1..] == [];
  }

  lemma TwoObeyed(r: Rig, c: RadioCommand, d: RadioCommand, recall: Recall)
    ensures ObeyedAll(r, [c, d], recall) == Obeyed(Obeyed(r, c, recall), d, recall)
  {
    assert [c, d][1..] == [d];
    OneObeyed(Obeyed(r, c, recall), d, recall);
  }

  // What each write makes of the radio.
  lemma ExecutedIs(r: Rig, s: Snapshot, m: Mutation, recall: Recall)
    ensures Executed(r, s, m, recall) == (
              match m
              case SetRxVfo(v) => r.(rx := v, tx := if s.split then s.txVfo else v)
              case SetVfoFreq(v, hz) => Obeyed(r, Tune(v, hz), recall)
              case SetMode(_, mode) => Obeyed(r, ChooseMode(KenwoodDigit(mode)), recall)
              case SetDataMode(_, on) => Obeyed(r, ChooseData(on), recall)
              case SetSplit(enabled, tx) => r.(rx := A, tx := SplitTx(enabled, tx))
              case SetPtt(on) => r.(keyed := on)
              case SetRit(_, on) => r.(rit := r.rit.(on := on))
              case SetXit(_, on) => r.(xit := r.xit.(on := on)))
  {
    hide ObeyedAll, KenwoodDigit;
    var cs := Commands(s, m);
    if |cs| == 1 {
      OneObeyed(r, cs[0], recall);
      assert cs == [cs[0]];
    } else {
      TwoObeyed(r, cs[0], cs[1], recall);
      assert cs == [cs[0], cs[1]];
    }
  }

  // What the backend records once a write is on the wire.
  function Written(h: Hub, m: Mutation): Hub {
    var h1 := Record(h, IntoChange(m), OptimisticWrite);
    if m.SetRxVfo? && !h.snapshot.split then Record(h1, Split(false, Some(m.rx)), OptimisticWrite) else h1
  }

  // The second half of a Hamlib mode command, addressed to the VFO that was receiving when the
  // command began.
  datatype DataHalf = DataHalf(vfo: Vfo, on: bool)

  // What a session has under way: a write that has passed the check and waits for its turn at the
  // radio, perhaps with a DATA half to follow; or a DATA half whose first half has been executed.
  datatype Work = Queued(mutation: Mutation, half: Option<DataHalf>) | Due(data: DataHalf)

  datatype Bench = Bench(hub: Hub, rig: Rig, work: map<nat, Work>)

  datatype Event =
    // A session that has nothing under way makes a write, or begins a Hamlib mode command.
    | Ask(session: nat, mutation: Mutation)
    | AskMode(session: nat, mode: Mode, on: bool)
    // A queued write has its turn: it is executed, or it is lost.
    | Execute(session: nat, recall: Recall)
    | Lose(session: nat)
    // A session whose mode half has been executed goes on to the DATA half.
    | Continue(session: nat)
    | ReportFreq(vfo: Vfo, source: EventSource)
    | ReportMode(vfo: Vfo, source: EventSource)
    | ReportData(vfo: Vfo, source: EventSource)
    | ReportSelection(source: EventSource)
    // The operator changes a fact, or selects the receive and transmit VFO, and the radio says so.
    | Operated(change: StateChange, source: EventSource)
    | Selected(rx: Vfo, tx: Vfo, source: EventSource)
    // The operator works the clarifiers. The backend hears nothing of it.
    | Clarified(rit: Clarifier, xit: Clarifier)

  // The operator changes one fact at the radio.
  function Turned(r: Rig, ch: StateChange): Rig {
    match ch
    case Freq(v, hz) => r.With(v, r.Of(v).(freqHz := hz))
    case ModeIs(v, mode) => r.With(v, r.Of(v).(digit := KenwoodDigit(mode)))
    case DataMode(v, on) => r.With(v, r.Of(v).(data := on))
    case Ptt(on) => r.(keyed := on)
    case _ => r
  }

  const NOTHING: Recall := Recall(0, false)

  function Begin(b: Bench, session: nat, w: Work): Bench {
    b.(work := b.work[session := w])
  }

  function End(b: Bench, session: nat): Bench {
    b.(work := b.work - {session})
  }

  // A queued write is executed and recorded.
  function Sent(b: Bench, m: Mutation, recall: Recall): Bench {
    b.(hub := Written(b.hub, m), rig := Executed(b.rig, b.hub.snapshot, m, recall))
  }

  // A write that passes the suppression waits for its turn.
  function Asked(b: Bench, session: nat, m: Mutation): Bench {
    if Redundant(b.hub, m) then End(b, session) else Begin(b, session, Queued(m, None))
  }

  function DataWrite(d: DataHalf): Mutation {
    SetDataMode(d.vfo, d.on)
  }

  // The receive VFO is read once for both halves; a suppressed first half leads straight to the
  // second.
  function AskedMode(b: Bench, session: nat, mode: Mode, on: bool): Bench {
    var d := DataHalf(b.hub.snapshot.rxVfo, on);
    if Redundant(b.hub, SetMode(d.vfo, mode)) then Asked(b, session, DataWrite(d))
    else Begin(b, session, Queued(SetMode(d.vfo, mode), Some(d)))
  }

  predicate IsQueued(b: Bench, session: nat) {
    session in b.work && b.work[session].Queued?
  }

  predicate IsDue(b: Bench, session: nat) {
    session in b.work && b.work[session].Due?
  }

  function Step(b: Bench, e: Event): Bench {
    match e
    case Ask(s, m) => if s in b.work then b else Asked(b, s, m)
    case AskMode(s, mode, on) => if s in b.work then b else AskedMode(b, s, mode, on)
    case Execute(s, recall) =>
      if !IsQueued(b, s) then b
      else
        var w := b.work[s];
        var b1 := Sent(b, w.mutation, recall);
        if w.half.Some? then Begin(b1, s, Due(w.half.value)) else End(b1, s)
    case Lose(s) => if IsQueued(b, s) then End(b, s) else b
    case Continue(s) => if IsDue(b, s) then Asked(b, s, DataWrite(b.work[s].data)) else b
    case ReportFreq(v, source) => b.(hub := Record(b.hub, Freq(v, b.rig.Of(v).freqHz), source))
    case ReportMode(v, source) => b.(hub := Record(b.hub, ModeIs(v, ModeOfDigit(b.rig.Of(v).digit)), source))
    case ReportData(v, source) => b.(hub := Record(b.hub, DataMode(v, b.rig.Of(v).data), source))
    case ReportSelection(source) => b.(hub := HeardSelection(b.hub, b.rig.rx, b.rig.tx, source))
    case Operated(ch, source) => b.(hub := Record(b.hub, ch, source), rig := Turned(b.rig, ch))
    case Selected(rx, tx, source) => b.(hub := HeardSelection(b.hub, rx, tx, source), rig := b.rig.(rx := rx, tx := tx))
    case Clarified(rit, xit) => b.(rig := b.rig.(rit := rit, xit := xit))
  }

  // A receive VFO and a transmit VFO are heard, one after the other.
  function HeardSelection(h: Hub, rx: Vfo, tx: Vfo, source: EventSource): Hub {
    Record(Record(h, RxVfo(rx), source), Split(rx != tx, Some(tx)), source)
  }

  // A mode or DATA write addressed to the receive VFO, a split set while receiving on A, or any
  // other write.
  predicate OnVfo(h: Hub, m: Mutation) {
    (m.SetMode? || m.SetDataMode? ==> m.vfo == h.snapshot.rxVfo) && (m.SetSplit? ==> h.snapshot.rxVfo == A)
  }

  // The transmit VFO that the hub records for a split write.
  function RecordedTx(h: Hub, tx: Option<Vfo>): Vfo {
    if tx.Some? then tx.value else h.snapshot.txVfo
  }

  // The writes that the hub records as the radio executes them: mode and DATA on the receive VFO; a
  // receive VFO that does not end a split; a split set while receiving on A that the hub takes for
  // B transmitting, or its end that the hub takes for A; and a clarifier whose offset is left alone,
  // because only its switch is sent.
  predicate Keeps(h: Hub, m: Mutation) {
    OnVfo(h, m)
    && (m.SetRxVfo? && h.snapshot.split ==> m.rx != h.snapshot.txVfo)
    && (m.SetSplit? ==> RecordedTx(h, m.txVfo) == if m.enabled then B else A)
    && (m.SetRit? ==> m.offsetHz == h.snapshot.ritOffsetHz)
    && (m.SetXit? ==> m.offsetHz == h.snapshot.xitOffsetHz)
  }

  // Writes keep what the hub records true when they have their turn; the radio reports modes that
  // the hub knows; and the operator leaves alone what the backend cannot hear.
  predicate Allowed(b: Bench, e: Event) {
    match e
    case Execute(s, _) => IsQueued(b, s) ==> Keeps(b.hub, b.work[s].mutation)
    case ReportMode(v, source) => source != OptimisticWrite && ModeOfDigit(b.rig.Of(v).digit) != Unknown
    case ReportFreq(_, source) => source != OptimisticWrite
    case ReportData(_, source) => source != OptimisticWrite
    case ReportSelection(source) => source != OptimisticWrite
    case Operated(ch, source) => source != OptimisticWrite && !ch.RxVfo? && !ch.Split? && !ch.Rit? && !ch.Xit?
    case Selected(_, _, source) => source != OptimisticWrite
    case Clarified(rit, xit) => rit == b.rig.rit && xit == b.rig.xit
    case _ => true
  }

  function Run(b: Bench, es: seq<Event>): Bench
    decreases |es|
  {
    if es == [] then b else Run(Step(b, es[0]), es[1..])
  }

  predicate AllAllowed(b: Bench, es: seq<Event>)
    decreases |es|
  {
    es == [] || (Allowed(b, es[0]) && AllAllowed(Step(b, es[0]), es[1..]))
  }

  // The hub may be wrong about a mode fact only while it says so.
  ghost predicate FactsAgree(h: Hub, r: Rig, v: Vfo) {
    && h.snapshot.Of(v).freqHz == r.Of(v).freqHz
    && (Base(v) !in h.uncertain ==> KenwoodDigit(h.snapshot.Of(v).mode) == r.Of(v).digit)
    && (Data(v) !in h.uncertain ==> h.snapshot.Of(v).data == r.Of(v).data)
  }

  ghost predicate SwitchesAgree(s: Snapshot, r: Rig) {
    && s.rxVfo == r.rx && s.txVfo == r.tx && s.split == (r.rx != r.tx) && s.ptt == r.keyed
    && Clarifier(s.ritEnabled, s.ritOffsetHz) == r.rit && Clarifier(s.xitEnabled, s.xitOffsetHz) == r.xit
  }

  ghost predicate Coherent(b: Bench) {
    SwitchesAgree(b.hub.snapshot, b.rig) && FactsAgree(b.hub, b.rig, A) && FactsAgree(b.hub, b.rig, B)
  }

  lemma TunedAgrees(h: Hub, r: Rig, v: Vfo, hz: nat, recall: Recall, w: Vfo)
    requires FactsAgree(h, r, w) && FactsAgree(h, r, v)
    ensures FactsAgree(Written(h, SetVfoFreq(v, hz)), Obeyed(r, Tune(v, hz), recall), w)
  {
    hide KenwoodDigit, FieldOf;
  }

  // A write that leaves both VFOs alone.
  lemma SwitchedAgrees(h: Hub, r: Rig, m: Mutation, r1: Rig, w: Vfo)
    requires FactsAgree(h, r, w) && !m.SetVfoFreq? && !m.SetMode? && !m.SetDataMode? && r1.a == r.a && r1.b == r.b
    ensures FactsAgree(Written(h, m), r1, w)
  {
    hide KenwoodDigit, FieldOf;
  }

  lemma ModedAgrees(h: Hub, r: Rig, m: Mutation, recall: Recall, w: Vfo)
    requires FactsAgree(h, r, w) && (m.SetMode? || m.SetDataMode?) && m.vfo == r.rx
    ensures var c := if m.SetMode? then ChooseMode(KenwoodDigit(m.mode)) else ChooseData(m.on);
            FactsAgree(Written(h, m), Obeyed(r, c, recall), w)
  {
    hide KenwoodDigit, FieldOf;
  }

  lemma SentAgrees(h: Hub, r: Rig, m: Mutation, recall: Recall, w: Vfo)
    requires FactsAgree(h, r, A) && FactsAgree(h, r, B) && h.snapshot.rxVfo == r.rx && OnVfo(h, m)
    ensures FactsAgree(Written(h, m), Executed(r, h.snapshot, m, recall), w)
  {
    ExecutedIs(r, h.snapshot, m, recall);
    hide FactsAgree, Written, Executed, KenwoodDigit;
    assert w == A || w == B;
    match m
    case SetVfoFreq(v, hz) =>
      assert v == A || v == B;
      TunedAgrees(h, r, v, hz, recall, w);
    case SetMode(_, _) => ModedAgrees(h, r, m, recall, w);
    case SetDataMode(_, _) => ModedAgrees(h, r, m, recall, w);
    case _ => SwitchedAgrees(h, r, m, Executed(r, h.snapshot, m, recall), w);
  }

  lemma AppliedSwitches(s: Snapshot, ch: StateChange)
    ensures var s1 := ApplyChange(s, ch).snapshot;
            s1.rxVfo == (if ch.RxVfo? then ch.rx else s.rxVfo)
            && s1.split == (if ch.Split? then ch.enabled else s.split)
            && s1.txVfo == (if ch.Split? && ch.txVfo.Some? then ch.txVfo.value else s.txVfo)
            && s1.ptt == (if ch.Ptt? then ch.keyed else s.ptt)
            && s1.ritEnabled == (if ch.Rit? then ch.enabled else s.ritEnabled)
            && s1.ritOffsetHz == (if ch.Rit? then ch.offsetHz else s.ritOffsetHz)
            && s1.xitEnabled == (if ch.Xit? then ch.enabled else s.xitEnabled)
            && s1.xitOffsetHz == (if ch.Xit? then ch.offsetHz else s.xitOffsetHz)
  {
  }

  // What the hub records of a write, apart from the facts of a VFO.
  lemma WrittenSwitches(h: Hub, m: Mutation)
    ensures var s := h.snapshot; var s1 := Written(h, m).snapshot;
            s1.rxVfo == (if m.SetRxVfo? then m.rx else s.rxVfo)
            && s1.split == (if m.SetSplit? then m.enabled else s.split)
            && s1.txVfo == (if m.SetSplit? then RecordedTx(h, m.txVfo)
                            else if m.SetRxVfo? && !s.split then m.rx else s.txVfo)
            && s1.ptt == (if m.SetPtt? then m.keyed else s.ptt)
            && s1.ritEnabled == (if m.SetRit? then m.enabled else s.ritEnabled)
            && s1.ritOffsetHz == (if m.SetRit? then m.offsetHz else s.ritOffsetHz)
            && s1.xitEnabled == (if m.SetXit? then m.enabled else s.xitEnabled)
            && s1.xitOffsetHz == (if m.SetXit? then m.offsetHz else s.xitOffsetHz)
  {
    var h1 := Record(h, IntoChange(m), OptimisticWrite);
    AppliedSwitches(h.snapshot, IntoChange(m));
    if m.SetRxVfo? {
      AppliedSwitches(h1.snapshot, Split(false, Some(m.rx)));
    }
    hide FieldOf, UncertainAfter, ApplyChange;
  }

  // The selectors and switches after a write: exactly where the hub records what the radio does.
  lemma SentSwitches(h: Hub, r: Rig, m: Mutation, recall: Recall)
    requires SwitchesAgree(h.snapshot, r)
    ensures SwitchesAgree(Written(h, m).snapshot, Executed(r, h.snapshot, m, recall))
            <==> m.SetMode? || m.SetDataMode? || Keeps(h, m)
  {
    ExecutedIs(r, h.snapshot, m, recall);
    WrittenSwitches(h, m);
    hide Executed, Written, KenwoodDigit;
    assert h.snapshot.rxVfo == A || h.snapshot.rxVfo == B;
  }

  lemma SentKeepsCoherence(b: Bench, m: Mutation, recall: Recall)
    requires Coherent(b) && Keeps(b.hub, m)
    ensures Coherent(Sent(b, m, recall))
  {
    SentSwitches(b.hub, b.rig, m, recall);
    SentAgrees(b.hub, b.rig, m, recall, A);
    SentAgrees(b.hub, b.rig, m, recall, B);
    hide FactsAgree, SwitchesAgree, Written, Executed;
  }

  lemma HeardAgrees(h: Hub, r: Rig, ch: StateChange, source: EventSource, v: Vfo)
    requires FactsAgree(h, r, v) && source != OptimisticWrite
    ensures FactsAgree(Record(h, ch, source), Turned(r, ch), v)
  {
    hide KenwoodDigit, FieldOf;
  }

  lemma HeardKeepsCoherence(b: Bench, ch: StateChange, source: EventSource)
    requires Coherent(b) && source != OptimisticWrite && !ch.RxVfo? && !ch.Split? && !ch.Rit? && !ch.Xit?
    ensures Coherent(b.(hub := Record(b.hub, ch, source), rig := Turned(b.rig, ch)))
  {
    HeardAgrees(b.hub, b.rig, ch, source, A);
    HeardAgrees(b.hub, b.rig, ch, source, B);
    AppliedSwitches(b.hub.snapshot, ch);
    hide FactsAgree, UncertainAfter, ApplyChange, FieldOf;
  }

  lemma SelectionKeepsCoherence(b: Bench, rx: Vfo, tx: Vfo, source: EventSource)
    requires Coherent(b) && source != OptimisticWrite
    ensures Coherent(b.(hub := HeardSelection(b.hub, rx, tx, source), rig := b.rig.(rx := rx, tx := tx)))
  {
    var h1 := Record(b.hub, RxVfo(rx), source);
    forall v: Vfo ensures FactsAgree(HeardSelection(b.hub, rx, tx, source), b.rig.(rx := rx, tx := tx), v) {
      assert v == A || v == B;
      HeardAgrees(b.hub, b.rig, RxVfo(rx), source, v);
      HeardAgrees(h1, b.rig, Split(rx != tx, Some(tx)), source, v);
    }
    hide FactsAgree, UncertainAfter, FieldOf;
  }

  // A truthful report describes a change the radio has already made.
  lemma ReportsKeepCoherence(b: Bench, e: Event)
    requires Coherent(b) && Allowed(b, e)
    requires e.ReportFreq? || e.ReportMode? || e.ReportData? || e.ReportSelection? || e.Operated? || e.Selected?
    ensures Coherent(Step(b, e))
  {
    hide FactsAgree, Record, HeardSelection, SwitchesAgree;
    match e
    case ReportFreq(v, source) =>
      assert Turned(b.rig, Freq(v, b.rig.Of(v).freqHz)) == b.rig;
      HeardKeepsCoherence(b, Freq(v, b.rig.Of(v).freqHz), source);
    case ReportMode(v, source) =>
      ModeDigits(Usb, b.rig.Of(v).digit);
      assert Turned(b.rig, ModeIs(v, ModeOfDigit(b.rig.Of(v).digit))) == b.rig;
      HeardKeepsCoherence(b, ModeIs(v, ModeOfDigit(b.rig.Of(v).digit)), source);
    case ReportData(v, source) =>
      assert Turned(b.rig, DataMode(v, b.rig.Of(v).data)) == b.rig;
      HeardKeepsCoherence(b, DataMode(v, b.rig.Of(v).data), source);
    case ReportSelection(source) =>
      assert b.rig.(rx := b.rig.rx, tx := b.rig.tx) == b.rig;
      SelectionKeepsCoherence(b, b.rig.rx, b.rig.tx, source);
    case Operated(ch, source) => HeardKeepsCoherence(b, ch, source);
    case Selected(rx, tx, source) => SelectionKeepsCoherence(b, rx, tx, source);
  }

  lemma StepKeepsCoherence(b: Bench, e: Event)
    requires Coherent(b) && Allowed(b, e)
    ensures Coherent(Step(b, e))
  {
    hide FactsAgree, SwitchesAgree, Sent, Record, Turned, Redundant, Keeps, HeardSelection;
    match e
    case Ask(_, _) =>
    case AskMode(_, _, _) =>
    case Execute(s, recall) =>
      if IsQueued(b, s) {
        SentKeepsCoherence(b, b.work[s].mutation, recall);
      }
    case Lose(_) =>
    case Continue(_) =>
    case Clarified(rit, xit) => assert b.rig.(rit := rit, xit := xit) == b.rig;
    case _ => ReportsKeepCoherence(b, e);
  }

  lemma {:induction false} RunsKeepCoherence(b: Bench, es: seq<Event>)
    requires Coherent(b) && AllAllowed(b, es)
    ensures Coherent(Run(b, es))
    decreases |es|
  {
    hide Coherent, Allowed, Step;
    if es != [] {
      StepKeepsCoherence(b, es[0]);
      RunsKeepCoherence(Step(b, es[0]), es[1..]);
    }
  }

  lemma RedundantIsHarmless(b: Bench, m: Mutation, recall: Recall)
    requires Coherent(b) && OnVfo(b.hub, m) && Redundant(b.hub, m)
    ensures Executed(b.rig, b.hub.snapshot, m, recall) == b.rig
  {
    ExecutedIs(b.rig, b.hub.snapshot, m, recall);
    hide Executed, KenwoodDigit;
    assert b.hub.snapshot.rxVfo == A || b.hub.snapshot.rxVfo == B;
    if m.SetVfoFreq? {
      assert m.vfo == A || m.vfo == B;
    }
  }

  // After any allowed run from a coherent start, a write of any kind that is suppressed would have
  // left the radio exactly as it is at the moment of the check.
  lemma SuppressionIsSound(b: Bench, es: seq<Event>, m: Mutation, recall: Recall)
    requires Coherent(b) && AllAllowed(b, es)
    requires OnVfo(Run(b, es).hub, m) && Redundant(Run(b, es).hub, m)
    ensures var b1 := Run(b, es); Executed(b1.rig, b1.hub.snapshot, m, recall) == b1.rig
  {
    RunsKeepCoherence(b, es);
    RedundantIsHarmless(Run(b, es), m, recall);
  }

  // The hub is certain of every fact that the write is about.
  predicate Certain(h: Hub, m: Mutation) {
    (m.SetMode? ==> Base(m.vfo) !in h.uncertain) && (m.SetDataMode? ==> Data(m.vfo) !in h.uncertain)
  }

  // The suppression is exact: a write is held back if and only if it is not a key command, the hub is
  // certain of what it is about, and recording it would change no value the radio can tell apart.
  lemma SuppressedExactlyWhenUnchanged(h: Hub, m: Mutation)
    requires OnVfo(h, m)
    ensures Redundant(h, m) <==>
              !m.SetPtt? && Certain(h, m)
              && var s1 := ApplyChange(h.snapshot, IntoChange(m)).snapshot;
                 if m.SetMode? then KenwoodDigit(s1.Of(m.vfo).mode) == KenwoodDigit(h.snapshot.Of(m.vfo).mode)
                 else s1 == h.snapshot
  {
    hide KenwoodDigit;
    if m.SetVfoFreq? || m.SetDataMode? || m.SetMode? {
      assert m.vfo == A || m.vfo == B;
    }
  }

  // The VFO that a session's work is addressed to.
  function Addressed(w: Work): Option<Vfo> {
    match w
    case Queued(SetMode(v, _), _) => Some(v)
    case Queued(SetDataMode(v, _), _) => Some(v)
    case Queued(_, _) => None
    case Due(d) => Some(d.vfo)
  }

  // Nothing of this session happens, and nothing moves the receive VFO away from v.
  predicate StaysOn(b: Bench, es: seq<Event>, session: nat, v: Vfo)
    decreases |es|
  {
    es == []
    || (!((es[0].Execute? || es[0].Lose? || es[0].Continue?) && es[0].session == session)
        && Step(b, es[0]).hub.snapshot.rxVfo == v && StaysOn(Step(b, es[0]), es[1..], session, v))
  }

  // Work addressed to the receive VFO still meets it, however long it waits and whatever the others
  // do, as long as nothing moves the receive VFO.
  lemma {:induction false} WaitingStaysOnVfo(b: Bench, es: seq<Event>, session: nat)
    requires session in b.work && Addressed(b.work[session]) == Some(b.hub.snapshot.rxVfo)
    requires StaysOn(b, es, session, b.hub.snapshot.rxVfo)
    ensures var b1 := Run(b, es);
            session in b1.work && b1.work[session] == b.work[session]
            && (b1.work[session].Queued? ==> OnVfo(b1.hub, b1.work[session].mutation))
            && (b1.work[session].Due? ==> OnVfo(b1.hub, DataWrite(b1.work[session].data)))
    decreases |es|
  {
    if es != [] {
      WorkIsKept(b, es[0], session);
      hide Step;
      WaitingStaysOnVfo(Step(b, es[0]), es[1..], session);
    }
  }

  lemma WorkIsKept(b: Bench, e: Event, session: nat)
    requires session in b.work && !((e.Execute? || e.Lose? || e.Continue?) && e.session == session)
    ensures var b1 := Step(b, e); session in b1.work && b1.work[session] == b.work[session]
  {
    hide Record, Written, Executed, Turned, Redundant;
  }

  predicate WritesFact(m: Mutation, f: ModeFact) {
    if f.Base? then m.SetMode? && m.vfo == f.vfo else m.SetDataMode? && m.vfo == f.vfo
  }

  // Whether an event tells the hub about a VFO's base mode or its DATA flag.
  predicate Settles(b: Bench, e: Event, f: ModeFact) {
    match e
    case Execute(s, _) => IsQueued(b, s) && WritesFact(b.work[s].mutation, f)
    case ReportMode(v, _) => f == Base(v)
    case ReportData(v, _) => f == Data(v)
    case Operated(ch, _) => if f.Base? then ch.ModeIs? && ch.vfo == f.vfo else ch.DataMode? && ch.vfo == f.vfo
    case _ => false
  }

  predicate NeverSettled(b: Bench, es: seq<Event>, f: ModeFact)
    decreases |es|
  {
    es == [] || (!Settles(b, es[0], f) && NeverSettled(Step(b, es[0]), es[1..], f))
  }

  lemma SentKeepsUncertain(b: Bench, m: Mutation, recall: Recall, f: ModeFact)
    requires f in b.hub.uncertain && !WritesFact(m, f)
    ensures f in Sent(b, m, recall).hub.uncertain
  {
    hide Redundant, ApplyChange, Executed;
  }

  lemma StepKeepsUncertain(b: Bench, e: Event, f: ModeFact)
    requires f in b.hub.uncertain && !Settles(b, e, f)
    ensures f in Step(b, e).hub.uncertain
  {
    hide ApplyChange, Sent, Turned, ModeOfDigit, Redundant, WritesFact;
    if e.Execute? && IsQueued(b, e.session) {
      SentKeepsUncertain(b, b.work[e.session].mutation, e.recall, f);
    }
  }

  lemma {:induction false} StaysUncertain(b: Bench, es: seq<Event>, f: ModeFact)
    requires f in b.hub.uncertain && NeverSettled(b, es, f)
    ensures f in Run(b, es).hub.uncertain
    decreases |es|
  {
    hide Step, Settles;
    if es != [] {
      StepKeepsUncertain(b, es[0], f);
      StaysUncertain(Step(b, es[0]), es[1..], f);
    }
  }

  // Once a frequency write that changes the frequency is executed, neither mode write to that VFO is
  // suppressed, however the run goes on, until the fact is reported or written.
  lemma TuningUnlocksModeWrites(b: Bench, session: nat, v: Vfo, hz: nat, recall: Recall, es: seq<Event>, mode: Mode, on: bool)
    requires IsQueued(b, session) && b.work[session].mutation == SetVfoFreq(v, hz)
    requires !Redundant(b.hub, SetVfoFreq(v, hz))
    ensures var b1 := Step(b, Execute(session, recall)); var after := Run(b1, es);
            (NeverSettled(b1, es, Base(v)) ==> !Redundant(after.hub, SetMode(v, mode)))
            && (NeverSettled(b1, es, Data(v)) ==> !Redundant(after.hub, SetDataMode(v, on)))
  {
    var b1 := Step(b, Execute(session, recall));
    assert b1.hub == Written(b.hub, SetVfoFreq(v, hz));
    assert Base(v) in b1.hub.uncertain && Data(v) in b1.hub.uncertain;
    hide Step, Run, NeverSettled;
    if NeverSettled(b1, es, Base(v)) {
      StaysUncertain(b1, es, Base(v));
    }
    if NeverSettled(b1, es, Data(v)) {
      StaysUncertain(b1, es, Data(v));
    }
  }

  // ---- Exactly where the assumptions matter ----

  // The bench of a hub and a radio, with nothing under way.
  function Idle(h: Hub, r: Rig): Bench {
    Bench(h, r, map[])
  }

  const CENTERED := Clarifier(false, 0)

  // Of the writes other than mode and DATA, exactly these are recorded as the radio executes them.
  lemma SentKeepsCoherenceIff(b: Bench, m: Mutation, recall: Recall)
    requires Coherent(b) && !m.SetMode? && !m.SetDataMode?
    ensures Coherent(Sent(b, m, recall)) <==> Keeps(b.hub, m)
  {
    SentSwitches(b.hub, b.rig, m, recall);
    if Keeps(b.hub, m) {
      SentKeepsCoherence(b, m, recall);
    }
    hide FactsAgree, SwitchesAgree, Written, Executed, Keeps;
  }

  // Setting split selects VFO A for reception without recording it.
  lemma SplitKeepsCoherenceIffReceivingOnA(b: Bench, enabled: bool, recall: Recall)
    requires Coherent(b)
    ensures Coherent(Sent(b, SetSplit(enabled, Some(if enabled then B else A)), recall)) <==> b.hub.snapshot.rxVfo == A
  {
    SentKeepsCoherenceIff(b, SetSplit(enabled, Some(if enabled then B else A)), recall);
    hide Coherent, Sent;
  }

  // The radio and the hub after one session's write, checked and executed.
  function WrittenAlone(b: Bench, m: Mutation): Bench {
    Step(Step(b, Ask(1, m)), Execute(1, NOTHING))
  }

  lemma WrittenAloneIs(b: Bench, m: Mutation)
    requires b.work == map[] && !Redundant(b.hub, m)
    ensures WrittenAlone(b, m) == Sent(b, m, NOTHING)
  {
    assert Step(b, Ask(1, m)) == Begin(b, 1, Queued(m, None));
    hide Redundant, Written, Executed;
    assert map[1 := Queued(m, None)] - {1} == map[];
  }

  // Receiving and transmitting on the given VFOs, both in USB.
  function Selecting(rx: Vfo, tx: Vfo): Bench {
    Idle(NEW_HUB.(snapshot := DEFAULT.(rxVfo := rx, txVfo := tx, split := rx != tx)),
         Rig(RigVfo(0, 0x32, false), RigVfo(0, 0x32, false), rx, tx, CENTERED, CENTERED, false))
  }

  lemma SplitWhileReceivingOnB()
    ensures var b1 := WrittenAlone(Selecting(B, B), SetSplit(true, Some(A)));
            Coherent(Selecting(B, B)) && b1.rig.rx == A && b1.hub.snapshot.rxVfo == B
  {
    WrittenAloneIs(Selecting(B, B), SetSplit(true, Some(A)));
    ExecutedIs(Selecting(B, B).rig, Selecting(B, B).hub.snapshot, SetSplit(true, Some(A)), NOTHING);
    hide WrittenAlone, Executed;
  }

  // Hamlib's request to end the split, with VFO B named: the radio transmits on A, the hub says B.
  lemma SplitEndedOnB()
    ensures var b1 := WrittenAlone(Selecting(A, A), SetSplit(false, Some(B)));
            Coherent(Selecting(A, A)) && b1.rig.tx == A && b1.hub.snapshot.txVfo == B
  {
    WrittenAloneIs(Selecting(A, A), SetSplit(false, Some(B)));
    ExecutedIs(Selecting(A, A).rig, Selecting(A, A).hub.snapshot, SetSplit(false, Some(B)), NOTHING);
    hide WrittenAlone, Executed;
  }

  // With a split, receiving on the transmit VFO ends it at the radio; the hub goes on saying split.
  lemma ReceivingOnTheTransmitVfo()
    ensures var b1 := WrittenAlone(Selecting(A, B), SetRxVfo(B));
            Coherent(Selecting(A, B)) && b1.rig.rx == b1.rig.tx == B && b1.hub.snapshot.split
  {
    WrittenAloneIs(Selecting(A, B), SetRxVfo(B));
    ExecutedIs(Selecting(A, B).rig, Selecting(A, B).hub.snapshot, SetRxVfo(B), NOTHING);
    hide WrittenAlone, Executed;
  }

  // The offset of a clarifier is recorded and never sent.
  lemma OffsetIsNotSent()
    ensures var b1 := WrittenAlone(Selecting(A, A), SetRit(300, true));
            Coherent(Selecting(A, A)) && b1.rig.rit == Clarifier(true, 0) && b1.hub.snapshot.ritOffsetHz == 300
  {
    WrittenAloneIs(Selecting(A, A), SetRit(300, true));
    ExecutedIs(Selecting(A, A).rig, Selecting(A, A).hub.snapshot, SetRit(300, true), NOTHING);
    hide WrittenAlone, Executed;
  }

  // The operator's clarifier is not heard, so a later write of what the hub remembers is held back
  // although it would change the radio.
  lemma ClarifierSuppressedWrongly()
    ensures var b1 := Step(Selecting(A, A), Clarified(Clarifier(true, 0), CENTERED));
            Coherent(Selecting(A, A)) && Redundant(b1.hub, SetRit(0, false))
            && Executed(b1.rig, b1.hub.snapshot, SetRit(0, false), NOTHING) != b1.rig
  {
    var b1 := Step(Selecting(A, A), Clarified(Clarifier(true, 0), CENTERED));
    ExecutedIs(b1.rig, b1.hub.snapshot, SetRit(0, false), NOTHING);
    hide Executed;
  }

  // Suppressing a split write is harmless exactly when the radio receives on A.
  lemma SplitSuppression(b: Bench, enabled: bool, tx: Option<Vfo>)
    requires Coherent(b) && Redundant(b.hub, SetSplit(enabled, tx))
    ensures Executed(b.rig, b.hub.snapshot, SetSplit(enabled, tx), NOTHING) == b.rig <==> b.hub.snapshot.rxVfo == A
  {
    ExecutedIs(b.rig, b.hub.snapshot, SetSplit(enabled, tx), NOTHING);
    if b.hub.snapshot.rxVfo == A {
      RedundantIsHarmless(b, SetSplit(enabled, tx), NOTHING);
    }
    hide Executed, FactsAgree;
  }

  // A radio that agrees with everything a hub is certain of, and holds the given facts where the hub
  // is not.
  function RigFor(h: Hub, digit: byte, data: bool): Rig {
    var s := h.snapshot;
    Rig(RigVfoFor(h, A, digit, data), RigVfoFor(h, B, digit, data), s.rxVfo, s.txVfo,
        Clarifier(s.ritEnabled, s.ritOffsetHz), Clarifier(s.xitEnabled, s.xitOffsetHz), s.ptt)
  }

  // There are radios that a hub is coherent with if and only if its split flag says whether its two
  // VFOs differ.
  predicate Plausible(h: Hub) {
    h.snapshot.split == (h.snapshot.rxVfo != h.snapshot.txVfo)
  }

  function RigVfoFor(h: Hub, v: Vfo, digit: byte, data: bool): RigVfo {
    RigVfo(h.snapshot.Of(v).freqHz, if Base(v) in h.uncertain then digit else KenwoodDigit(h.snapshot.Of(v).mode),
           if Data(v) in h.uncertain then data else h.snapshot.Of(v).data)
  }

  lemma RigForIsCoherent(h: Hub, digit: byte, data: bool)
    requires Plausible(h)
    ensures Coherent(Idle(h, RigFor(h, digit, data)))
  {
  }

  lemma NoRigIsCoherent(h: Hub)
    requires !Plausible(h)
    ensures forall rig :: !Coherent(Idle(h, rig))
  {
    hide FactsAgree;
  }

  // Suppressing a mode write addressed to the VFO that is not receiving is harmless on every radio
  // the hub is coherent with exactly when the hub is certain of the receive VFO's mode; the hub
  // checks the certainty of the other one.
  lemma OffVfoModeSuppression(h: Hub, v: Vfo, mode: Mode)
    requires v != h.snapshot.rxVfo && Redundant(h, SetMode(v, mode))
    ensures (forall rig | Coherent(Idle(h, rig)) :: Executed(rig, h.snapshot, SetMode(v, mode), NOTHING) == rig)
            <==> (Plausible(h) ==> Base(h.snapshot.rxVfo) !in h.uncertain)
  {
    forall rig ensures Executed(rig, h.snapshot, SetMode(v, mode), NOTHING) == Obeyed(rig, ChooseMode(KenwoodDigit(mode)), NOTHING) {
      ExecutedIs(rig, h.snapshot, SetMode(v, mode), NOTHING);
    }
    hide Executed;
    if Plausible(h) && Base(h.snapshot.rxVfo) in h.uncertain {
      var rig := RigFor(h, 0, false);
      RigForIsCoherent(h, 0, false);
      assert rig.Of(rig.rx).digit == 0;
    }
  }

  // What a write off the receive VFO does to the facts of one VFO: the hub records it for v, the
  // radio executes it on the other one.
  lemma ModeWriteOnVfo(b: Bench, v: Vfo, mode: Mode, w: Vfo)
    requires FactsAgree(b.hub, b.rig, w) && b.rig.rx != v
    ensures var b1 := Sent(b, SetMode(v, mode), NOTHING);
            FactsAgree(b1.hub, b1.rig, w) <==>
              if w == v then b.rig.Of(v).digit == KenwoodDigit(mode)
              else Base(w) in b.hub.uncertain || KenwoodDigit(b.hub.snapshot.Of(w).mode) == KenwoodDigit(mode)
  {
    ExecutedIs(b.rig, b.hub.snapshot, SetMode(v, mode), NOTHING);
    hide KenwoodDigit, Executed;
  }

  lemma ModeWriteOnRig(b: Bench, v: Vfo, mode: Mode)
    requires Coherent(b) && v != b.hub.snapshot.rxVfo
    ensures var rx := b.hub.snapshot.rxVfo;
            Coherent(Sent(b, SetMode(v, mode), NOTHING)) <==>
              b.rig.Of(v).digit == KenwoodDigit(mode)
              && (Base(rx) in b.hub.uncertain || KenwoodDigit(b.hub.snapshot.Of(rx).mode) == KenwoodDigit(mode))
  {
    ModeWriteOnVfo(b, v, mode, A);
    ModeWriteOnVfo(b, v, mode, B);
    SentSwitches(b.hub, b.rig, SetMode(v, mode), NOTHING);
    assert b.rig.rx != v && (v == A || v == B);
    hide FactsAgree, KenwoodDigit, Executed, Written;
  }

  // A mode write that has its turn while the other VFO is receiving keeps every such radio coherent
  // exactly when the hub is certain that the addressed VFO already holds the mode, and uncertain of
  // the receive VFO's or certain that it holds the mode too.
  lemma OffVfoModeWrite(h: Hub, v: Vfo, mode: Mode)
    requires v != h.snapshot.rxVfo
    ensures var rx := h.snapshot.rxVfo;
            (forall rig | Coherent(Idle(h, rig)) :: Coherent(Sent(Idle(h, rig), SetMode(v, mode), NOTHING)))
            <==> (Plausible(h) ==>
                    Base(v) !in h.uncertain && KenwoodDigit(h.snapshot.Of(v).mode) == KenwoodDigit(mode)
                    && (Base(rx) in h.uncertain || KenwoodDigit(h.snapshot.Of(rx).mode) == KenwoodDigit(mode)))
  {
    var rig := RigFor(h, 0, false);
    if Plausible(h) {
      RigForIsCoherent(h, 0, false);
    } else {
      NoRigIsCoherent(h);
    }
    assert Base(v) in h.uncertain ==> rig.Of(v).digit != KenwoodDigit(mode);
    forall rig | Coherent(Idle(h, rig))
      ensures var rx := h.snapshot.rxVfo;
              Coherent(Sent(Idle(h, rig), SetMode(v, mode), NOTHING)) <==>
                rig.Of(v).digit == KenwoodDigit(mode)
                && (Base(rx) in h.uncertain || KenwoodDigit(h.snapshot.Of(rx).mode) == KenwoodDigit(mode))
      ensures Base(v) !in h.uncertain ==> rig.Of(v).digit == KenwoodDigit(h.snapshot.Of(v).mode)
    {
      ModeWriteOnRig(Idle(h, rig), v, mode);
      assert v == A || v == B;
    }
    hide Coherent, Sent, KenwoodDigit, RigFor;
  }

  // Suppressing a DATA write that finds the other VFO receiving is harmless on every radio the hub is
  // coherent with exactly when the hub is certain that the receive VFO has the same flag.
  lemma OffVfoDataSuppression(h: Hub, v: Vfo, on: bool)
    requires v != h.snapshot.rxVfo && Redundant(h, SetDataMode(v, on))
    ensures (forall rig | Coherent(Idle(h, rig)) :: Executed(rig, h.snapshot, SetDataMode(v, on), NOTHING) == rig)
            <==> (Plausible(h) ==> Data(h.snapshot.rxVfo) !in h.uncertain && h.snapshot.Of(h.snapshot.rxVfo).data == on)
  {
    var rig := RigFor(h, 0, !on);
    if Plausible(h) {
      RigForIsCoherent(h, 0, !on);
    } else {
      NoRigIsCoherent(h);
    }
    forall rig ensures Executed(rig, h.snapshot, SetDataMode(v, on), NOTHING) == Obeyed(rig, ChooseData(on), NOTHING) {
      ExecutedIs(rig, h.snapshot, SetDataMode(v, on), NOTHING);
    }
    hide Executed;
  }

  lemma DataWriteOnVfo(b: Bench, v: Vfo, on: bool, w: Vfo)
    requires FactsAgree(b.hub, b.rig, w) && b.rig.rx != v
    ensures var b1 := Sent(b, SetDataMode(v, on), NOTHING);
            FactsAgree(b1.hub, b1.rig, w) <==>
              if w == v then b.rig.Of(v).data == on else Data(w) in b.hub.uncertain || b.hub.snapshot.Of(w).data == on
  {
    ExecutedIs(b.rig, b.hub.snapshot, SetDataMode(v, on), NOTHING);
    hide KenwoodDigit, Executed;
  }

  lemma DataWriteOnRig(b: Bench, v: Vfo, on: bool)
    requires Coherent(b) && v != b.hub.snapshot.rxVfo
    ensures var rx := b.hub.snapshot.rxVfo;
            Coherent(Sent(b, SetDataMode(v, on), NOTHING)) <==>
              b.rig.Of(v).data == on && (Data(rx) in b.hub.uncertain || b.hub.snapshot.Of(rx).data == on)
  {
    DataWriteOnVfo(b, v, on, A);
    DataWriteOnVfo(b, v, on, B);
    SentSwitches(b.hub, b.rig, SetDataMode(v, on), NOTHING);
    assert b.rig.rx != v && (v == A || v == B);
    hide FactsAgree, Executed, Written;
  }

  // A DATA write that has its turn while the other VFO is receiving keeps every such radio coherent
  // exactly when the hub is certain that the addressed VFO has the flag, and uncertain of the
  // receive VFO's or certain that it is the same.
  lemma OffVfoDataWrite(h: Hub, v: Vfo, on: bool)
    requires v != h.snapshot.rxVfo
    ensures var rx := h.snapshot.rxVfo;
            (forall rig | Coherent(Idle(h, rig)) :: Coherent(Sent(Idle(h, rig), SetDataMode(v, on), NOTHING)))
            <==> (Plausible(h) ==>
                    Data(v) !in h.uncertain && h.snapshot.Of(v).data == on
                    && (Data(rx) in h.uncertain || h.snapshot.Of(rx).data == on))
  {
    var rig := RigFor(h, 0, !on);
    if Plausible(h) {
      RigForIsCoherent(h, 0, !on);
    } else {
      NoRigIsCoherent(h);
    }
    assert Data(v) in h.uncertain ==> rig.Of(v).data != on;
    DataWritesOnRigs(h, v, on);
    hide Coherent, Sent, RigFor;
  }

  lemma DataWritesOnRigs(h: Hub, v: Vfo, on: bool)
    requires v != h.snapshot.rxVfo
    ensures forall rig | Coherent(Idle(h, rig)) ::
              var rx := h.snapshot.rxVfo;
              (Coherent(Sent(Idle(h, rig), SetDataMode(v, on), NOTHING)) <==>
                rig.Of(v).data == on && (Data(rx) in h.uncertain || h.snapshot.Of(rx).data == on))
              && (Data(v) !in h.uncertain ==> rig.Of(v).data == h.snapshot.Of(v).data)
  {
    forall rig | Coherent(Idle(h, rig))
      ensures var rx := h.snapshot.rxVfo;
              Coherent(Sent(Idle(h, rig), SetDataMode(v, on), NOTHING)) <==>
                rig.Of(v).data == on && (Data(rx) in h.uncertain || h.snapshot.Of(rx).data == on)
      ensures Data(v) !in h.uncertain ==> rig.Of(v).data == h.snapshot.Of(v).data
    {
      DataWriteOnRig(Idle(h, rig), v, on);
      assert v == A || v == B;
    }
    hide Coherent, Sent;
  }

  // If the hub still finds such a write necessary, sending it is never safe: whatever the hub knows,
  // some radio it is coherent with ends up incoherent.
  lemma OffVfoDataWriteIsNeverSafe(h: Hub, v: Vfo, on: bool)
    requires v != h.snapshot.rxVfo && !Redundant(h, SetDataMode(v, on)) && Plausible(h)
    ensures exists rig :: Coherent(Idle(h, rig)) && !Coherent(Sent(Idle(h, rig), SetDataMode(v, on), NOTHING))
  {
    OffVfoDataWrite(h, v, on);
    hide Coherent, Sent;
  }

  // It goes well on some radio exactly when the hub is uncertain of the addressed VFO's flag or
  // certain that it is the one being set, and the same of the receive VFO's.
  lemma OffVfoDataWriteCanGoWell(h: Hub, v: Vfo, on: bool)
    requires v != h.snapshot.rxVfo
    ensures var rx := h.snapshot.rxVfo;
            (exists rig :: Coherent(Idle(h, rig)) && Coherent(Sent(Idle(h, rig), SetDataMode(v, on), NOTHING)))
            <==> Plausible(h) && (Data(v) in h.uncertain || h.snapshot.Of(v).data == on)
                 && (Data(rx) in h.uncertain || h.snapshot.Of(rx).data == on)
  {
    var rig := RigFor(h, 0, on);
    if Plausible(h) {
      RigForIsCoherent(h, 0, on);
    } else {
      NoRigIsCoherent(h);
    }
    assert Data(v) in h.uncertain ==> rig.Of(v).data == on;
    assert Data(v) !in h.uncertain ==> rig.Of(v).data == h.snapshot.Of(v).data;
    DataWritesOnRigs(h, v, on);
    hide Coherent, Sent, RigFor;
  }

  // ---- Runs that go wrong ----

  // Receiving on A in the given mode, with DATA on on B, everything certain.
  function TwoModes(mode: Mode): Bench {
    Idle(NEW_HUB.(snapshot := DEFAULT.(a := VfoSnapshot(14_074_000, mode, true, false),
                                       b := VfoSnapshot(7_074_000, Usb, true, true))),
         Rig(RigVfo(14_074_000, KenwoodDigit(mode), false), RigVfo(7_074_000, 0x32, true), A, A, CENTERED, CENTERED, false))
  }

  lemma RunsNothing(b: Bench)
    ensures Run(b, []) == b
  {
  }

  lemma {:induction false} RunsOnce(b: Bench, es: seq<Event>, e: Event)
    ensures Run(b, es + [e]) == Step(Run(b, es), e)
    decreases |es|
  {
    hide Step;
    if es == [] {
      assert [] + [e] == [e] && [e][1..] == [];
      RunsNothing(Step(b, e));
    } else {
      assert (es + [e])[0] == es[0] && (es + [e])[1..] == es[1..] + [e];
      RunsOnce(Step(b, es[0]), es[1..], e);
    }
  }

  lemma FourEvents(b: Bench, e0: Event, e1: Event, e2: Event, e3: Event)
    ensures Run(b, [e0, e1, e2, e3]) == Step(Step(Step(Step(b, e0), e1), e2), e3)
  {
    hide Step, Run;
    RunsNothing(b);
    RunsOnce(b, [], e0);
    RunsOnce(b, [e0], e1);
    RunsOnce(b, [e0, e1], e2);
    RunsOnce(b, [e0, e1, e2], e3);
    assert [] + [e0] == [e0] && [e0] + [e1] == [e0, e1] && [e0, e1] + [e2] == [e0, e1, e2];
    assert [e0, e1, e2] + [e3] == [e0, e1, e2, e3];
  }

  // Two CAT sessions: one switches to B, the other asks for CW on the VFO it sees receiving, A.
  // Executed in the order in which they came, the mode is set on B and recorded for A: the cache is
  // wrong about both modes, and certain of both.
  lemma ModeLandsOnTheOtherVfo()
    ensures var b := Run(TwoModes(Usb), [Ask(2, SetRxVfo(B)), Ask(1, SetMode(A, Cw)), Execute(2, NOTHING),
                                         Execute(1, NOTHING)]);
            Coherent(TwoModes(Usb)) && b.hub.uncertain == {}
            && b.hub.snapshot.a.mode == Cw && b.rig.a.digit == KenwoodDigit(Usb)
            && b.hub.snapshot.b.mode == Usb && b.rig.b.digit == KenwoodDigit(Cw)
  {
    var b0 := TwoModes(Usb);
    var b1 := Begin(b0, 2, Queued(SetRxVfo(B), None));
    var b2 := Begin(b1, 1, Queued(SetMode(A, Cw), None));
    var b3 := End(Sent(b2, SetRxVfo(B), NOTHING), 2);
    var b4 := End(Sent(b3, SetMode(A, Cw), NOTHING), 1);
    assert Step(b0, Ask(2, SetRxVfo(B))) == b1 && Step(b1, Ask(1, SetMode(A, Cw))) == b2;
    assert Step(b2, Execute(2, NOTHING)) == b3 && Step(b3, Execute(1, NOTHING)) == b4;
    FourEvents(b0, Ask(2, SetRxVfo(B)), Ask(1, SetMode(A, Cw)), Execute(2, NOTHING), Execute(1, NOTHING));
    hide Step, Run;
  }

  lemma TwoModesAreCoherent(mode: Mode)
    ensures Coherent(TwoModes(mode))
  {
  }

  lemma SwitchedBetweenHalves(b1: Bench)
    requires b1 == TwoModes(Usb).(hub := b1.hub, work := map[1 := Due(DataHalf(A, false))])
    requires b1.hub.uncertain == {} && b1.hub.snapshot == TwoModes(Usb).hub.snapshot
    ensures var b := Step(b1, Selected(B, B, NativePush));
            Coherent(b) && b.hub.uncertain == {} && b.work == b1.work
            && Redundant(b.hub, SetDataMode(A, false))
            && Executed(b.rig, b.hub.snapshot, SetDataMode(A, false), NOTHING) != b.rig
  {
    var b := Step(b1, Selected(B, B, NativePush));
    TwoModesAreCoherent(Usb);
    assert Coherent(b1);
    SelectionKeepsCoherence(b1, B, B, NativePush);
    ExecutedIs(b.rig, b.hub.snapshot, SetDataMode(A, false), NOTHING);
    hide Executed, FactsAgree, SwitchesAgree;
  }

  // From CW on A, a client asks for plain USB. The mode half is sent, the operator switches to B, and
  // the DATA half is suppressed although it would have changed the radio.
  lemma HamlibHalfSuppressedWrongly()
    ensures var es := [AskMode(1, Usb, false), Execute(1, NOTHING), Selected(B, B, NativePush)];
            var b := Run(TwoModes(Cw), es);
            Coherent(TwoModes(Cw)) && Coherent(b) && b.hub.uncertain == {} && b.work == map[1 := Due(DataHalf(A, false))]
            && Redundant(b.hub, SetDataMode(A, false)) && Executed(b.rig, b.hub.snapshot, SetDataMode(A, false), NOTHING) != b.rig
  {
    hide Step, Run, Redundant, Executed, Coherent;
    TwoModesAreCoherent(Cw);
    var b1 := ModeHalfSent(false);
    SwitchedBetweenHalves(b1);
    RunsOnce(TwoModes(Cw), [AskMode(1, Usb, false), Execute(1, NOTHING)], Selected(B, B, NativePush));
    assert [AskMode(1, Usb, false), Execute(1, NOTHING)] + [Selected(B, B, NativePush)]
        == [AskMode(1, Usb, false), Execute(1, NOTHING), Selected(B, B, NativePush)];
  }

  lemma ModeHalfSent(on: bool) returns (b: Bench)
    ensures b == Run(TwoModes(Cw), [AskMode(1, Usb, on), Execute(1, NOTHING)])
    ensures b == TwoModes(Usb).(hub := b.hub, work := map[1 := Due(DataHalf(A, on))])
    ensures b.hub.uncertain == {} && b.hub.snapshot == TwoModes(Usb).hub.snapshot
  {
    var b0 := TwoModes(Cw);
    var b1 := Begin(b0, 1, Queued(SetMode(A, Usb), Some(DataHalf(A, on))));
    b := Step(b1, Execute(1, NOTHING));
    assert Step(b0, AskMode(1, Usb, on)) == b1;
    assert b == Begin(Sent(b1, SetMode(A, Usb), NOTHING), 1, Due(DataHalf(A, on)));
    assert b.work == map[1 := Due(DataHalf(A, on))];
    hide Step, Run;
    RunsNothing(b0);
    RunsOnce(b0, [], AskMode(1, Usb, on));
    RunsOnce(b0, [AskMode(1, Usb, on)], Execute(1, NOTHING));
    assert [] + [AskMode(1, Usb, on)] == [AskMode(1, Usb, on)];
    assert [AskMode(1, Usb, on)] + [Execute(1, NOTHING)] == [AskMode(1, Usb, on), Execute(1, NOTHING)];
  }

  lemma DataHalfSent(b1: Bench) returns (b4: Bench)
    requires b1 == TwoModes(Usb).(hub := b1.hub, work := map[1 := Due(DataHalf(A, true))])
    requires b1.hub.uncertain == {} && b1.hub.snapshot == TwoModes(Usb).hub.snapshot
    ensures b4 == Step(Step(Step(b1, Continue(1)), Selected(B, B, NativePush)), Execute(1, NOTHING))
    ensures b4.hub.uncertain == {} && b4.hub.snapshot.a.data && !b4.rig.a.data
  {
    var b2 := Begin(b1, 1, Queued(SetDataMode(A, true), None));
    var b3 := b2.(hub := HeardSelection(b2.hub, B, B, NativePush), rig := b2.rig.(rx := B, tx := B));
    b4 := End(Sent(b3, SetDataMode(A, true), NOTHING), 1);
    assert Step(b1, Continue(1)) == b2 && Step(b2, Selected(B, B, NativePush)) == b3;
    assert Step(b3, Execute(1, NOTHING)) == b4;
  }

  // The other way round, the client asks for DATA. Both halves are sent; the operator switches while
  // the second waits for its turn. The flag is set on B and recorded for A, and from then on the
  // cache is wrong about A without saying so.
  lemma HamlibHalfSentWrongly()
    ensures var es := [AskMode(1, Usb, true), Execute(1, NOTHING), Continue(1), Selected(B, B, NativePush),
                      Execute(1, NOTHING)];
            var b := Run(TwoModes(Cw), es);
            b.hub.uncertain == {} && b.hub.snapshot.a.data && !b.rig.a.data
  {
    hide Step, Run;
    var first := [AskMode(1, Usb, true), Execute(1, NOTHING)];
    var b1 := ModeHalfSent(true);
    var b4 := DataHalfSent(b1);
    RunsOnce(TwoModes(Cw), first, Continue(1));
    RunsOnce(TwoModes(Cw), first + [Continue(1)], Selected(B, B, NativePush));
    RunsOnce(TwoModes(Cw), first + [Continue(1)] + [Selected(B, B, NativePush)], Execute(1, NOTHING));
    assert first + [Continue(1)] + [Selected(B, B, NativePush)] + [Execute(1, NOTHING)]
        == [AskMode(1, Usb, true), Execute(1, NOTHING), Continue(1), Selected(B, B, NativePush), Execute(1, NOTHING)];
  }
}
