// What a modeled write is translated to: the commands of the TS-590, and their frames.

module RadioCommands {
  import opened Common
  import opened RadioState
  import opened Kenwood
  import opened Decimal
  import RadioFramer

  datatype RadioCommand =
    | SelectRx(vfo: Vfo)
    | SelectTx(vfo: Vfo)
    | Tune(vfo: Vfo, hz: nat)
    | ChooseMode(digit: byte)
    | ChooseData(on: bool)
    | Transmit(on: bool)
    | SwitchRit(on: bool)
    | SwitchXit(on: bool)

  // The transmit VFO that a split write sends.
  function SplitTx(enabled: bool, tx: Option<Vfo>): Vfo {
    if !enabled then A else if tx.Some? then tx.value else B
  }

  // Switching the receive VFO moves the transmit VFO along unless there is a split. Of a clarifier
  // only the switch is sent.
  function Commands(s: Snapshot, m: Mutation): seq<RadioCommand> {
    match m
    case SetRxVfo(v) => [SelectRx(v), SelectTx(if s.split then s.txVfo else v)]
    case SetVfoFreq(v, hz) => [Tune(v, hz)]
    case SetMode(_, mode) => [ChooseMode(KenwoodDigit(mode))]
    case SetDataMode(_, on) => [ChooseData(on)]
    case SetSplit(enabled, tx) => [SelectRx(A), SelectTx(SplitTx(enabled, tx))]
    case SetPtt(on) => [Transmit(on)]
    case SetRit(_, on) => [SwitchRit(on)]
    case SetXit(_, on) => [SwitchXit(on)]
  }

  const DATA: bytes := [0x44, 0x41]
  const RIT: bytes := [0x52, 0x54]
  const XIT: bytes := [0x58, 0x54]
  const TX: bytes := [0x54, 0x58]
  const RX: bytes := [0x52, 0x58]

  function Frame(c: RadioCommand): bytes {
    match c
    case SelectRx(v) => OneDigitFrame([0x46, 0x52], VfoDigit(v))
    case SelectTx(v) => OneDigitFrame([0x46, 0x54], VfoDigit(v))
    case Tune(v, hz) => FreqFrame(if v == A then [0x46, 0x41] else [0x46, 0x42], hz)
    case ChooseMode(digit) => OneDigitFrame([0x4d, 0x44], digit)
    case ChooseData(on) => OneDigitFrame(DATA, FlagDigit(on))
    case Transmit(on) => (if on then TX else RX) + [SEMICOLON]
    case SwitchRit(on) => OneDigitFrame(RIT, FlagDigit(on))
    case SwitchXit(on) => OneDigitFrame(XIT, FlagDigit(on))
  }

  // What the backend makes of the same frame when the radio sends it.
  function Meaning(s: Snapshot, c: RadioCommand): Option<StateChange> {
    match c
    case SelectRx(v) => Some(RxVfo(v))
    case SelectTx(v) => Some(Split(s.rxVfo != v, Some(v)))
    case Tune(v, hz) => Some(Freq(v, hz))
    case ChooseMode(digit) => Some(ModeIs(s.rxVfo, ModeOfDigit(digit)))
    case ChooseData(on) => Some(DataMode(s.rxVfo, on))
    case _ => None
  }

  lemma DataIsHeard(h: Hub, on: bool, source: EventSource)
    ensures RecordEvent(h, Frame(ChooseData(on)), source) == Heard(Record(h, DataMode(h.snapshot.rxVfo, on), source), true)
  {
    LettersAreVerbs(DA);
    FrameReports(h, DA, [FlagDigit(on)], source);
    hide RecordEvent, Record, VerbOf;
  }

  lemma SwitchIsNotHeard(h: Hub, verb: bytes, payload: bytes, source: EventSource)
    requires (verb in {RIT, XIT} && (payload == [ZERO] || payload == [ONE])) || (verb in {TX, RX} && payload == [])
    ensures RecordEvent(h, verb + payload + [SEMICOLON], source) == Heard(h, false)
  {
    FrameSplits(verb, payload);
    hide SplitFrame, Record;
  }

  // A command the radio sends back is recorded as what it says, except that the backend does not hear
  // the clarifier switches and the key commands at all.
  lemma CommandsAreHeard(h: Hub, c: RadioCommand, source: EventSource)
    requires (c.Tune? ==> c.hz <= U64_MAX) && (c.ChooseMode? ==> exists m :: c.digit == KenwoodDigit(m))
    ensures RecordEvent(h, Frame(c), source) ==
            var ch := Meaning(h.snapshot, c);
            if ch.None? then Heard(h, false) else Heard(Record(h, ch.value, source), true)
  {
    hide RecordEvent, Record, FreqFrame, KenwoodDigit;
    match c
    case SelectRx(v) => SelectorsReadBack(h, v, source);
    case SelectTx(v) => SelectorsReadBack(h, v, source);
    case Tune(v, hz) => FreqFrameReadsBack(h, v, hz, source);
    case ChooseMode(digit) =>
      var m :| digit == KenwoodDigit(m);
      ModeDigits(m, digit);
      ModeReadsBack(h, m, source);
    case ChooseData(on) => DataIsHeard(h, on, source);
    case Transmit(on) =>
      SwitchIsNotHeard(h, if on then TX else RX, [], source);
      assert (if on then TX else RX) + [] + [SEMICOLON] == (if on then TX else RX) + [SEMICOLON];
    case SwitchRit(on) => SwitchIsNotHeard(h, RIT, [FlagDigit(on)], source);
    case SwitchXit(on) => SwitchIsNotHeard(h, XIT, [FlagDigit(on)], source);
  }

  // ---- Frames on the wire ----

  predicate Sendable(c: RadioCommand) {
    (c.Tune? ==> c.hz <= U64_MAX) && (c.ChooseMode? ==> c.digit != SEMICOLON)
  }

  lemma Twenty()
    ensures U64_MAX < Pow10(20)
  {
    assert Pow10(4) == 10_000 && Pow10(8) == 10_000 * Pow10(4) && Pow10(12) == 10_000 * Pow10(8);
    assert Pow10(16) == 10_000 * Pow10(12) && Pow10(20) == 10_000 * Pow10(16);
  }

  lemma FrequencyIsShort(hz: nat)
    requires hz <= U64_MAX
    ensures Plain(FreqDigits(hz)) && |FreqDigits(hz)| <= 20
  {
    FreqDigitsParse(hz);
    Twenty();
    DigitsWidth(hz, 20);
    hide Pow10, Plain, Digits;
  }

  lemma FrameIsProper(c: RadioCommand)
    requires Sendable(c)
    ensures RadioFramer.ProperFrame(Frame(c), 0x3b)
  {
    if c.Tune? {
      FrequencyIsShort(c.hz);
      hide FreqDigits;
    }
  }

  function FramesOf(cs: seq<RadioCommand>): seq<bytes> {
    seq(|cs|, i requires 0 <= i < |cs| => Frame(cs[i]))
  }

  // Whatever commands are sent back to back, the framer of a radio with semicolons hands out their
  // frames one by one, however long their frequencies are.
  lemma CommandsComeOutFrameByFrame(cs: seq<RadioCommand>)
    requires forall i | 0 <= i < |cs| :: Sendable(cs[i])
    ensures RadioFramer.PushBytes([], RadioFramer.Joined(FramesOf(cs)), RadioFramer.Delimiter(RadioFramer.SemicolonTerminated))
         == RadioFramer.Framed([], FramesOf(cs))
  {
    forall f | f in FramesOf(cs) ensures RadioFramer.ProperFrame(f, 0x3b) {
      var i :| 0 <= i < |cs| && FramesOf(cs)[i] == f;
      FrameIsProper(cs[i]);
    }
    RadioFramer.ProperFramesComeOut(FramesOf(cs), 0x3b);
  }
}
