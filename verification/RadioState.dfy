// The universal radio state: one snapshot, change-only broadcast, native-push coverage and the
// mode facts a frequency write made uncertain.

module RadioState {
  import opened Common
  import TransmitPower

  datatype Vfo = A | B {
    function Other(): Vfo {
      if this == A then B else A
    }
  }

  datatype Mode = Lsb | Usb | Cw | CwR | Fsk | FskR | Am | Fm | Unknown

  // The ASCII digit a mode is written with; an unknown mode is written as USB.
  function KenwoodDigit(m: Mode): byte {
    match m
    case Lsb => 0x31
    case Usb => 0x32
    case Unknown => 0x32
    case Cw => 0x33
    case Fm => 0x34
    case Am => 0x35
    case Fsk => 0x36
    case CwR => 0x37
    case FskR => 0x39
  }

  function ModeOfDigit(d: byte): Mode {
    match d
    case 0x31 => Lsb
    case 0x32 => Usb
    case 0x33 => Cw
    case 0x34 => Fm
    case 0x35 => Am
    case 0x36 => Fsk
    case 0x37 => CwR
    case 0x39 => FskR
    case _ => Unknown
  }

  // A mode survives the wire except that Unknown comes back as USB; a digit survives being read
  // exactly when it is one of the eight written ones.
  lemma ModeDigits(m: Mode, d: byte)
    ensures ModeOfDigit(KenwoodDigit(m)) == if m == Unknown then Usb else m
    ensures KenwoodDigit(ModeOfDigit(d)) == d <==> ModeOfDigit(d) != Unknown
  {
  }

  datatype VfoSnapshot = VfoSnapshot(freqHz: nat, mode: Mode, modeKnown: bool, data: bool)

  datatype Snapshot = Snapshot(
    a: VfoSnapshot,
    b: VfoSnapshot,
    rxVfo: Vfo,
    txVfo: Vfo,
    split: bool,
    ptt: bool,
    txPower: Option<TransmitPower.TxPower>,
    ritEnabled: bool,
    ritOffsetHz: int,
    xitEnabled: bool,
    xitOffsetHz: int)
  {
    function Of(v: Vfo): VfoSnapshot {
      if v == A then a else b
    }

    function With(v: Vfo, s: VfoSnapshot): Snapshot {
      if v == A then this.(a := s) else this.(b := s)
    }
  }

  const FRESH_VFO := VfoSnapshot(0, Usb, false, false)
  const DEFAULT := Snapshot(FRESH_VFO, FRESH_VFO, A, A, false, false, None, false, 0, false, 0)

  datatype StateChange =
    | RxVfo(rx: Vfo)
    | Freq(vfo: Vfo, hz: nat)
    | ModeIs(vfo: Vfo, mode: Mode)
    | DataMode(vfo: Vfo, on: bool)
    | Split(enabled: bool, txVfo: Option<Vfo>)
    | Ptt(keyed: bool)
    | Rit(enabled: bool, offsetHz: int)
    | Xit(enabled: bool, offsetHz: int)
    | Power(power: Option<TransmitPower.TxPower>)

  datatype Mutation =
    | SetRxVfo(rx: Vfo)
    | SetVfoFreq(vfo: Vfo, hz: nat)
    | SetMode(vfo: Vfo, mode: Mode)
    | SetDataMode(vfo: Vfo, on: bool)
    | SetSplit(enabled: bool, txVfo: Option<Vfo>)
    | SetPtt(keyed: bool)
    | SetRit(offsetHz: int, enabled: bool)
    | SetXit(offsetHz: int, enabled: bool)

  function IntoChange(m: Mutation): StateChange {
    match m
    case SetRxVfo(v) => RxVfo(v)
    case SetVfoFreq(v, hz) => Freq(v, hz)
    case SetMode(v, mode) => ModeIs(v, mode)
    case SetDataMode(v, on) => DataMode(v, on)
    case SetSplit(enabled, tx) => Split(enabled, tx)
    case SetPtt(keyed) => Ptt(keyed)
    case SetRit(offset, enabled) => Rit(enabled, offset)
    case SetXit(offset, enabled) => Xit(enabled, offset)
  }

  datatype EventSource = NativePush | PollDiff | OptimisticWrite

  datatype Field = FieldRxVfo | FieldFreq(vfo: Vfo) | FieldMode(vfo: Vfo) | FieldSplit | FieldPtt | FieldRit
                 | FieldXit | FieldPower

  function FieldOf(ch: StateChange): Field {
    match ch
    case RxVfo(_) => FieldRxVfo
    case Freq(v, _) => FieldFreq(v)
    case ModeIs(v, _) => FieldMode(v)
    case DataMode(v, _) => FieldMode(v)
    case Split(_, _) => FieldSplit
    case Ptt(_) => FieldPtt
    case Rit(_, _) => FieldRit
    case Xit(_, _) => FieldXit
    case Power(_) => FieldPower
  }

  // ---- Applying a change ----

  datatype Applied = Applied(snapshot: Snapshot, changed: bool)

  function ApplyChange(s: Snapshot, ch: StateChange): Applied {
    match ch
    case RxVfo(v) => if s.rxVfo == v then Applied(s, false) else Applied(s.(rxVfo := v), true)
    case Freq(v, hz) =>
      if s.Of(v).freqHz == hz then Applied(s, false) else Applied(s.With(v, s.Of(v).(freqHz := hz)), true)
    case ModeIs(v, mode) =>
      Applied(s.With(v, s.Of(v).(mode := mode, modeKnown := true)), s.Of(v).mode != mode)
    case DataMode(v, on) =>
      if s.Of(v).data == on then Applied(s, false) else Applied(s.With(v, s.Of(v).(data := on)), true)
    case Split(enabled, tx) =>
      var newTx := if tx.Some? then tx.value else s.txVfo;
      if s.split == enabled && s.txVfo == newTx then Applied(s, false)
      else Applied(s.(split := enabled, txVfo := newTx), true)
    case Ptt(keyed) => if s.ptt == keyed then Applied(s, false) else Applied(s.(ptt := keyed), true)
    case Rit(enabled, offset) =>
      if s.ritEnabled == enabled && s.ritOffsetHz == offset then Applied(s, false)
      else Applied(s.(ritEnabled := enabled, ritOffsetHz := offset), true)
    case Xit(enabled, offset) =>
      if s.xitEnabled == enabled && s.xitOffsetHz == offset then Applied(s, false)
      else Applied(s.(xitEnabled := enabled, xitOffsetHz := offset), true)
    case Power(power) => if s.txPower == power then Applied(s, false) else Applied(s.(txPower := power), true)
  }

  // ---- The hub ----

  datatype ModeFact = Base(vfo: Vfo) | Data(vfo: Vfo)

  // What subscribers receive, in order: modeled changes and frames relayed verbatim.
  datatype RadioEvent = Change(change: StateChange) | Raw(frame: bytes) | RawNative(frame: bytes)

  datatype Hub = Hub(snapshot: Snapshot, covered: set<Field>, uncertain: set<ModeFact>, log: seq<RadioEvent>)

  const NEW_HUB := Hub(DEFAULT, {}, {}, [])

  function UncertainAfter(uncertain: set<ModeFact>, ch: StateChange, changed: bool, source: EventSource): set<ModeFact> {
    match ch
    case Freq(v, _) => if changed && source == OptimisticWrite then uncertain + {Base(v), Data(v)} else uncertain
    case ModeIs(v, _) => uncertain - {Base(v)}
    case DataMode(v, _) => uncertain - {Data(v)}
    case _ => uncertain
  }

  function Record(h: Hub, ch: StateChange, source: EventSource): Hub {
    var applied := ApplyChange(h.snapshot, ch);
    Hub(applied.snapshot,
        if source == NativePush then h.covered + {FieldOf(ch)} else h.covered,
        UncertainAfter(h.uncertain, ch, applied.changed, source),
        if applied.changed then h.log + [Change(ch)] else h.log)
  }

  function SnapshotRedundant(s: Snapshot, m: Mutation): bool {
    match m
    case SetRxVfo(v) => s.rxVfo == v
    case SetVfoFreq(v, hz) => s.Of(v).freqHz == hz
    case SetMode(_, mode) => KenwoodDigit(s.Of(s.rxVfo).mode) == KenwoodDigit(mode)
    case SetDataMode(v, on) => s.Of(v).data == on
    case SetSplit(enabled, tx) => s.split == enabled && s.txVfo == (if tx.Some? then tx.value else s.txVfo)
    case SetRit(offset, enabled) => s.ritEnabled == enabled && s.ritOffsetHz == offset
    case SetXit(offset, enabled) => s.xitEnabled == enabled && s.xitOffsetHz == offset
    case SetPtt(_) => false
  }

  function Invalidated(uncertain: set<ModeFact>, m: Mutation): bool {
    match m
    case SetMode(v, _) => Base(v) in uncertain
    case SetDataMode(v, _) => Data(v) in uncertain
    case _ => false
  }

  function Redundant(h: Hub, m: Mutation): bool {
    !Invalidated(h.uncertain, m) && SnapshotRedundant(h.snapshot, m)
  }

  // The full ordered list of changes that reconstructs a snapshot; the receive VFO comes last.
  function AsChanges(s: Snapshot): seq<StateChange> {
    [Freq(A, s.a.freqHz), Freq(B, s.b.freqHz), ModeIs(A, s.a.mode), ModeIs(B, s.b.mode),
     DataMode(A, s.a.data), DataMode(B, s.b.data), Split(s.split, Some(s.txVfo)),
     Rit(s.ritEnabled, s.ritOffsetHz), Xit(s.xitEnabled, s.xitOffsetHz), Ptt(s.ptt), Power(s.txPower),
     RxVfo(s.rxVfo)]
  }

  class StateHandle {
    var snapshot: Snapshot
    var covered: set<Field>
    var uncertainMode: set<ModeFact>
    var sent: seq<RadioEvent>

    function State(): Hub
      reads this
    {
      Hub(snapshot, covered, uncertainMode, sent)
    }

    constructor ()
      ensures State() == NEW_HUB
    {
      snapshot := DEFAULT;
      covered := {};
      uncertainMode := {};
      sent := [];
    }

    // Updates one field in place and reports whether its value changed.
    method Apply(change: StateChange) returns (changed: bool)
      modifies this`snapshot
      ensures Applied(snapshot, changed) == ApplyChange(old(snapshot), change)
    {
      changed := true;
      match change {
        case RxVfo(v) =>
          if snapshot.rxVfo == v { return false; }
          snapshot := snapshot.(rxVfo := v);
        case Freq(v, hz) =>
          var target := snapshot.Of(v);
          if target.freqHz == hz { return false; }
          snapshot := snapshot.With(v, target.(freqHz := hz));
        case ModeIs(v, mode) =>
          var target := snapshot.Of(v);
          changed := target.mode != mode;
          snapshot := snapshot.With(v, target.(mode := mode, modeKnown := true));
        case DataMode(v, on) =>
          var target := snapshot.Of(v);
          if target.data == on { return false; }
          snapshot := snapshot.With(v, target.(data := on));
        case Split(enabled, tx) =>
          var newTx := if tx.Some? then tx.value else snapshot.txVfo;
          if snapshot.split == enabled && snapshot.txVfo == newTx { return false; }
          snapshot := snapshot.(split := enabled, txVfo := newTx);
        case Ptt(keyed) =>
          if snapshot.ptt == keyed { return false; }
          snapshot := snapshot.(ptt := keyed);
        case Rit(enabled, offset) =>
          if snapshot.ritEnabled == enabled && snapshot.ritOffsetHz == offset { return false; }
          snapshot := snapshot.(ritEnabled := enabled, ritOffsetHz := offset);
        case Xit(enabled, offset) =>
          if snapshot.xitEnabled == enabled && snapshot.xitOffsetHz == offset { return false; }
          snapshot := snapshot.(xitEnabled := enabled, xitOffsetHz := offset);
        case Power(power) =>
          if snapshot.txPower == power { return false; }
          snapshot := snapshot.(txPower := power);
      }
    }

    method RecordChange(change: StateChange, source: EventSource)
      modifies this
      ensures State() == Record(old(State()), change, source)
    {
      if source == NativePush {
        covered := covered + {FieldOf(change)};
      }
      var changed := Apply(change);
      match change {
        case Freq(v, _) =>
          if changed && source == OptimisticWrite {
            uncertainMode := uncertainMode + {Base(v), Data(v)};
          }
        case ModeIs(v, _) =>
          uncertainMode := uncertainMode - {Base(v)};
        case DataMode(v, _) =>
          uncertainMode := uncertainMode - {Data(v)};
        case _ =>
      }
      if changed {
        sent := sent + [Change(change)];
      }
    }

    method RecordRaw(frame: bytes)
      modifies this`sent
      ensures State() == old(State()).(log := old(sent) + [Raw(frame)])
    {
      sent := sent + [Raw(frame)];
    }

    method RecordRawNative(frame: bytes)
      modifies this`sent
      ensures State() == old(State()).(log := old(sent) + [RawNative(frame)])
    {
      sent := sent + [RawNative(frame)];
    }

    function IsRedundant(m: Mutation): bool
      reads this
    {
      Redundant(State(), m)
    }
  }
}
