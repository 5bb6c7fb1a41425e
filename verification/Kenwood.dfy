// Kenwood CAT frames: what the native dialect prints and what the backend's parser records.

module Kenwood {
  import opened Common
  import opened Decimal
  import opened RadioState
  import TransmitPower

  const SEMICOLON: byte := 0x3b
  const ZERO: byte := 0x30
  const ONE: byte := 0x31
  const PLUS: byte := 0x2b

  // The modeled two-letter verbs.
  datatype Verb = FA | FB | FR | FT | MD | DA | PC | IF | Unmodeled

  function Letters(v: Verb): bytes
    requires v != Unmodeled
  {
    match v
    case FA => [0x46, 0x41]
    case FB => [0x46, 0x42]
    case FR => [0x46, 0x52]
    case FT => [0x46, 0x54]
    case MD => [0x4d, 0x44]
    case DA => [0x44, 0x41]
    case PC => [0x50, 0x43]
    case IF => [0x49, 0x46]
  }

  function VerbOf(verb: bytes): Verb {
    if |verb| != 2 then Unmodeled
    else
      match (verb[0], verb[1])
      case (0x46, 0x41) => FA
      case (0x46, 0x42) => FB
      case (0x46, 0x52) => FR
      case (0x46, 0x54) => FT
      case (0x4d, 0x44) => MD
      case (0x44, 0x41) => DA
      case (0x50, 0x43) => PC
      case (0x49, 0x46) => IF
      case _ => Unmodeled
  }

  lemma LettersAreVerbs(v: Verb)
    requires v != Unmodeled
    ensures |Letters(v)| == 2 && IsAlphabetic(Letters(v)[0]) && IsAlphabetic(Letters(v)[1]) && VerbOf(Letters(v)) == v
  {
  }

  // ---- Frames and numbers ----

  predicate IsAlphabetic(b: byte) {
    0x41 <= b <= 0x5a || 0x61 <= b <= 0x7a
  }

  predicate IsDigit(b: byte) {
    0x30 <= b <= 0x39
  }

  predicate IsBlank(b: byte) {
    0x09 <= b <= 0x0d || b == 0x20
  }

  // The bytes in front of the first terminator, or all of them.
  function Body(frame: bytes): bytes {
    if frame == [] || frame[0] == SEMICOLON then [] else [frame[0]] + Body(frame[1..])
  }

  function VerbLen(body: bytes): (n: nat)
    ensures n <= |body|
  {
    if body == [] || !IsAlphabetic(body[0]) then 0 else 1 + VerbLen(body[1..])
  }

  datatype Command = Command(verb: bytes, payload: bytes)

  function SplitFrame(frame: bytes): Option<Command> {
    var body := Body(frame);
    var n := VerbLen(body);
    if n == 0 then None else Some(Command(body[..n], body[n..]))
  }

  function TrimLeft(b: bytes): bytes {
    if b != [] && IsBlank(b[0]) then TrimLeft(b[1..]) else b
  }

  function TrimRight(b: bytes): bytes {
    if b != [] && IsBlank(b[|b| - 1]) then TrimRight(b[..|b| - 1]) else b
  }

  predicate AllDigits(b: bytes) {
    forall i | 0 <= i < |b| :: IsDigit(b[i])
  }

  function AsDigits(b: bytes): seq<digit>
    requires AllDigits(b)
  {
    seq(|b|, i requires 0 <= i < |b| && IsDigit(b[i]) => b[i] - 0x30)
  }

  // An unsigned 64-bit number: an optional plus sign, then digits, within range.
  function ParseDigits(b: bytes): Option<nat> {
    var ds := if |b| > 1 && b[0] == PLUS then b[1..] else b;
    if ds == [] || !AllDigits(ds) || Value(AsDigits(ds)) > U64_MAX then None else Some(Value(AsDigits(ds)))
  }

  function ParseU64(b: bytes): Option<nat> {
    ParseDigits(TrimRight(TrimLeft(b)))
  }

  function Glyph(d: digit): byte {
    d + 0x30
  }

  function DigitBytes(ds: seq<digit>): (b: bytes)
    ensures |b| == |ds|
  {
    seq(|ds|, i requires 0 <= i < |ds| => Glyph(ds[i]))
  }

  // Eleven digits or more.
  function FreqDigits(hz: nat): bytes {
    DigitBytes(Padded(11, hz))
  }

  function FreqFrame(verb: bytes, hz: nat): bytes {
    verb + FreqDigits(hz) + [SEMICOLON]
  }

  function OneDigitFrame(verb: bytes, d: byte): bytes {
    verb + [d] + [SEMICOLON]
  }

  function VfoDigit(v: Vfo): byte {
    if v == A then ZERO else ONE
  }

  function FlagDigit(on: bool): byte {
    if on then ONE else ZERO
  }

  // ---- The operating-status frame ----

  datatype IfStatus = IfStatus(freqHz: nat, ptt: bool, mode: Mode, rxVfo: Vfo, split: bool)

  const IF_MIDDLE: bytes := [0x30, 0x30, 0x30, 0x30, 0x2b, 0x30, 0x30, 0x30, 0x30, 0x30, 0x30, 0x30, 0x30, 0x30, 0x30]

  function IfPayload(digits: bytes, tx: byte, mode: byte, rx: byte, split: byte): bytes {
    digits + (IF_MIDDLE + [tx, mode, rx, ZERO, split, ZERO, ZERO, ZERO, ZERO])
  }

  function SynthIf(s: Snapshot, singleVfo: bool): bytes {
    Letters(IF)
    + IfPayload(FreqDigits(s.Of(s.rxVfo).freqHz), FlagDigit(s.ptt), KenwoodDigit(s.Of(s.rxVfo).mode),
                if singleVfo then ZERO else VfoDigit(s.rxVfo),
                if singleVfo then ZERO else FlagDigit(s.split))
    + [SEMICOLON]
  }

  function ParseVfoDigit(payload: bytes): Option<Vfo> {
    if payload == [] then None
    else if payload[0] == ZERO then Some(A)
    else if payload[0] == ONE then Some(B)
    else None
  }

  function ParseIfStatus(frame: bytes): Option<IfStatus> {
    var c := SplitFrame(frame);
    if c.None? || VerbOf(c.value.verb) != IF then None
    else
      var p := c.value.payload;
      if |p| <= 28 || ParseVfoDigit(p[28..]).None? then None
      else
        var hz := ParseU64(p[0..11]);
        if hz.None? || |p| <= 30 then None
        else Some(IfStatus(hz.value, p[26] == ONE, ModeOfDigit(p[27]), ParseVfoDigit(p[28..]).value, p[30] == ONE))
  }

  function RecordIfStatus(h: Hub, st: IfStatus, source: EventSource): Hub {
    var h1 := Record(h, Freq(st.rxVfo, st.freqHz), source);
    var h2 := Record(h1, ModeIs(st.rxVfo, st.mode), source);
    var h3 := Record(h2, Ptt(st.ptt), source);
    var tx := if st.split then st.rxVfo.Other() else st.rxVfo;
    var h4 := Record(h3, Split(st.split, Some(tx)), source);
    Record(h4, RxVfo(st.rxVfo), source)
  }

  function MaxPowerWatts(m: Mode): TransmitPower.u32 {
    if m == Am then 25 else 100
  }

  // The change a frame other than the status frame reports, given the current snapshot.
  function ReportedChange(s: Snapshot, c: Command): Option<StateChange> {
    match VerbOf(c.verb)
    case FA => (var hz := ParseU64(c.payload); if hz.None? then None else Some(Freq(A, hz.value)))
    case FB => (var hz := ParseU64(c.payload); if hz.None? then None else Some(Freq(B, hz.value)))
    case FR => (var v := ParseVfoDigit(c.payload); if v.None? then None else Some(RxVfo(v.value)))
    case FT => (var v := ParseVfoDigit(c.payload); if v.None? then None else Some(Split(s.rxVfo != v.value, v)))
    case MD => if c.payload == [] then None else Some(ModeIs(s.rxVfo, ModeOfDigit(c.payload[0])))
    case DA => if c.payload == [] then None else Some(DataMode(s.rxVfo, c.payload[0] == ONE))
    case PC =>
      (var watts := ParseU64(c.payload);
       if watts.None? || watts.value > U32_MAX then None
       else
         var tx := if s.split then s.txVfo else s.rxVfo;
         Some(Power(Some(TransmitPower.FromWatts(watts.value, MaxPowerWatts(s.Of(tx).mode))))))
    case _ => None
  }

  datatype Heard = Heard(hub: Hub, modeled: bool)

  function RecordEvent(h: Hub, frame: bytes, source: EventSource): Heard {
    var st := ParseIfStatus(frame);
    if st.Some? then Heard(RecordIfStatus(h, st.value, source), true)
    else
      var c := SplitFrame(frame);
      var ch := if c.None? then None else ReportedChange(h.snapshot, c.value);
      if ch.None? then Heard(h, false) else Heard(Record(h, ch.value, source), true)
  }

  method RecordStatus(state: StateHandle, st: IfStatus, source: EventSource)
    modifies state
    ensures state.State() == RecordIfStatus(old(state.State()), st, source)
  {
    state.RecordChange(Freq(st.rxVfo, st.freqHz), source);
    state.RecordChange(ModeIs(st.rxVfo, st.mode), source);
    state.RecordChange(Ptt(st.ptt), source);
    var tx := if st.split then st.rxVfo.Other() else st.rxVfo;
    state.RecordChange(Split(st.split, Some(tx)), source);
    state.RecordChange(RxVfo(st.rxVfo), source);
  }

  method RecordFrame(state: StateHandle, frame: bytes, source: EventSource) returns (modeled: bool)
    modifies state
    ensures Heard(state.State(), modeled) == RecordEvent(old(state.State()), frame, source)
  {
    var st := ParseIfStatus(frame);
    if st.Some? {
      RecordStatus(state, st.value, source);
      return true;
    }
    var c := SplitFrame(frame);
    if c.None? {
      return false;
    }
    var ch := ReportedChange(state.snapshot, c.value);
    if ch.None? {
      return false;
    }
    state.RecordChange(ch.value, source);
    return true;
  }

  // ---- Printed frames parse back ----

  ghost predicate Plain(payload: bytes) {
    forall i | 0 <= i < |payload| :: payload[i] != SEMICOLON && !IsAlphabetic(payload[i])
  }

  lemma {:induction false} BodyOfTerminated(body: bytes)
    requires forall i | 0 <= i < |body| :: body[i] != SEMICOLON
    ensures Body(body + [SEMICOLON]) == body
    decreases |body|
  {
    var f := body + [SEMICOLON];
    if body != [] {
      assert f[1..] == body[1..] + [SEMICOLON];
      BodyOfTerminated(body[1..]);
      assert body == [body[0]] + body[1..];
    }
  }

  // Two letters and a plain payload split as they were joined.
  lemma FrameSplits(verb: bytes, payload: bytes)
    requires |verb| == 2 && IsAlphabetic(verb[0]) && IsAlphabetic(verb[1]) && Plain(payload)
    ensures SplitFrame(verb + payload + [SEMICOLON]) == Some(Command(verb, payload))
  {
    var body := verb + payload;
    BodyOfTerminated(body);
    assert body[1..][1..] == payload;
    assert VerbLen(payload) == 0;
    assert VerbLen(body[1..]) == 1 && VerbLen(body) == 2;
    assert body[..2] == verb && body[2..] == payload;
  }

  lemma DigitsRoundTrip(ds: seq<digit>)
    ensures AllDigits(DigitBytes(ds)) && AsDigits(DigitBytes(ds)) == ds && Plain(DigitBytes(ds))
  {
  }

  lemma DigitsParse(ds: seq<digit>)
    requires ds != []
    ensures ParseU64(DigitBytes(ds)) == if Value(ds) <= U64_MAX then Some(Value(ds)) else None
  {
    hide Value;
    DigitsRoundTrip(ds);
    var b := DigitBytes(ds);
    assert IsDigit(b[0]) && IsDigit(b[|b| - 1]);
    assert TrimRight(TrimLeft(b)) == b;
  }

  lemma FreqDigitsParse(hz: nat)
    requires hz <= U64_MAX
    ensures ParseU64(FreqDigits(hz)) == Some(hz)
    ensures Plain(FreqDigits(hz)) && |FreqDigits(hz)| >= 11
    ensures |FreqDigits(hz)| == 11 <==> hz < Pow10(11)
  {
    hide ParseU64, Padded, Value, Pow10, Plain;
    PaddedValue(11, hz);
    PaddedWidth(11, hz);
    DigitsParse(Padded(11, hz));
    DigitsRoundTrip(Padded(11, hz));
  }

  // A frame with a modeled verb is recorded as the change it reports.
  lemma FrameReports(h: Hub, v: Verb, payload: bytes, source: EventSource)
    requires v != Unmodeled && v != IF && Plain(payload)
    ensures var r := RecordEvent(h, Letters(v) + payload + [SEMICOLON], source);
            var ch := ReportedChange(h.snapshot, Command(Letters(v), payload));
            r == if ch.None? then Heard(h, false) else Heard(Record(h, ch.value, source), true)
  {
    LettersAreVerbs(v);
    FrameSplits(Letters(v), payload);
    hide SplitFrame, Letters, VerbOf, Record, ReportedChange, Plain;
  }

  // A frequency frame parses back, whatever the number of digits it took.
  lemma FreqFrameReadsBack(h: Hub, v: Vfo, hz: nat, source: EventSource)
    requires hz <= U64_MAX
    ensures RecordEvent(h, FreqFrame(Letters(if v == A then FA else FB), hz), source)
         == Heard(Record(h, Freq(v, hz), source), true)
  {
    hide RecordEvent, ParseU64, FreqDigits, Record, Pow10, Letters, VerbOf, Plain;
    var verb := if v == A then FA else FB;
    LettersAreVerbs(verb);
    FreqDigitsParse(hz);
    FrameReports(h, verb, FreqDigits(hz), source);
  }

  lemma OneDigitReports(h: Hub, v: Verb, d: byte, source: EventSource)
    requires v in {FR, FT, MD} && IsDigit(d)
    ensures var r := RecordEvent(h, OneDigitFrame(Letters(v), d), source);
            var ch := ReportedChange(h.snapshot, Command(Letters(v), [d]));
            r == if ch.None? then Heard(h, false) else Heard(Record(h, ch.value, source), true)
  {
    FrameReports(h, v, [d], source);
    hide RecordEvent, Record, Letters, ReportedChange;
  }

  lemma SelectorsReadBack(h: Hub, v: Vfo, source: EventSource)
    ensures RecordEvent(h, OneDigitFrame(Letters(FR), VfoDigit(v)), source) == Heard(Record(h, RxVfo(v), source), true)
    ensures RecordEvent(h, OneDigitFrame(Letters(FT), VfoDigit(v)), source)
         == Heard(Record(h, Split(h.snapshot.rxVfo != v, Some(v)), source), true)
  {
    LettersAreVerbs(FR);
    LettersAreVerbs(FT);
    OneDigitReports(h, FR, VfoDigit(v), source);
    OneDigitReports(h, FT, VfoDigit(v), source);
    hide RecordEvent, Record, OneDigitFrame, Letters, VerbOf;
  }

  lemma ModeReadsBack(h: Hub, m: Mode, source: EventSource)
    ensures RecordEvent(h, OneDigitFrame(Letters(MD), KenwoodDigit(m)), source)
         == Heard(Record(h, ModeIs(h.snapshot.rxVfo, if m == Unknown then Usb else m), source), true)
  {
    LettersAreVerbs(MD);
    ModeDigits(m, 0);
    OneDigitReports(h, MD, KenwoodDigit(m), source);
    hide RecordEvent, Record, OneDigitFrame, Letters, VerbOf, KenwoodDigit, ModeOfDigit;
  }

  // A power frame is recorded as that many watts of the transmitting VFO's full scale, 25 W in AM and
  // 100 W in every other mode; a number of 32 bits or more is not recorded.
  lemma PowerReadsBack(h: Hub, watts: nat, source: EventSource)
    ensures var s := h.snapshot; var tx := s.Of(if s.split then s.txVfo else s.rxVfo);
            RecordEvent(h, [0x50, 0x43] + DigitBytes(Padded(3, watts)) + [SEMICOLON], source) ==
            if watts > U32_MAX then Heard(h, false)
            else Heard(Record(h, Power(Some(TransmitPower.FromWatts(watts, if tx.mode == Am then 25 else 100))), source), true)
  {
    LettersAreVerbs(PC);
    WattsParse(watts);
    hide RecordEvent, Record, ParseU64, Padded, Plain, VerbOf, DigitBytes;
    FrameReports(h, PC, DigitBytes(Padded(3, watts)), source);
  }

  lemma WattsParse(watts: nat)
    ensures var b := DigitBytes(Padded(3, watts));
            Plain(b) && ParseU64(b) == if watts <= U64_MAX then Some(watts) else None
  {
    hide ParseU64, Padded, Value, Plain, DigitBytes;
    PaddedValue(3, watts);
    PaddedWidth(3, watts);
    DigitsParse(Padded(3, watts));
    DigitsRoundTrip(Padded(3, watts));
  }

  // The payload positions of a status frame, relative to the width of its frequency.
  lemma IfPositions(digits: bytes, tx: byte, mode: byte, rx: byte, split: byte)
    requires |digits| == 11
    ensures var p := IfPayload(digits, tx, mode, rx, split);
            |p| == 35 && p[0..11] == digits && p[26] == tx && p[27] == mode && p[28] == rx && p[30] == split
  {
  }

  lemma IfSplits(digits: bytes, tx: byte, mode: byte, rx: byte, split: byte)
    requires Plain(digits) && IsDigit(tx) && IsDigit(mode) && IsDigit(rx) && IsDigit(split)
    ensures var p := IfPayload(digits, tx, mode, rx, split);
            SplitFrame(Letters(IF) + p + [SEMICOLON]) == Some(Command(Letters(IF), p))
  {
    var rest := IF_MIDDLE + [tx, mode, rx, ZERO, split, ZERO, ZERO, ZERO, ZERO];
    assert Plain(rest);
    assert Plain(digits + rest);
    LettersAreVerbs(IF);
    FrameSplits(Letters(IF), digits + rest);
    hide SplitFrame, Letters, VerbOf;
  }

  function StatusOf(s: Snapshot): IfStatus {
    IfStatus(s.Of(s.rxVfo).freqHz, s.ptt, if s.Of(s.rxVfo).mode == Unknown then Usb else s.Of(s.rxVfo).mode, s.rxVfo,
             s.split)
  }

  lemma StatusSplits(s: Snapshot)
    requires s.Of(s.rxVfo).freqHz <= U64_MAX
    ensures SplitFrame(SynthIf(s, false))
         == Some(Command(Letters(IF), IfPayload(FreqDigits(s.Of(s.rxVfo).freqHz), FlagDigit(s.ptt),
                                                KenwoodDigit(s.Of(s.rxVfo).mode), VfoDigit(s.rxVfo), FlagDigit(s.split))))
  {
    hide SplitFrame, IfPayload, FreqDigits, ParseU64, Plain, Pow10, Letters;
    FreqDigitsParse(s.Of(s.rxVfo).freqHz);
    DigitFlags(s);
    IfSplits(FreqDigits(s.Of(s.rxVfo).freqHz), FlagDigit(s.ptt), KenwoodDigit(s.Of(s.rxVfo).mode),
             VfoDigit(s.rxVfo), FlagDigit(s.split));
    hide IsDigit, KenwoodDigit, FlagDigit, VfoDigit;
  }

  lemma DigitFlags(s: Snapshot)
    ensures IsDigit(FlagDigit(s.ptt)) && IsDigit(FlagDigit(s.split)) && IsDigit(VfoDigit(s.rxVfo))
    ensures IsDigit(KenwoodDigit(s.Of(s.rxVfo).mode))
  {
  }

  lemma StatusParsed(s: Snapshot)
    requires s.Of(s.rxVfo).freqHz <= U64_MAX
    ensures var p := IfPayload(FreqDigits(s.Of(s.rxVfo).freqHz), FlagDigit(s.ptt), KenwoodDigit(s.Of(s.rxVfo).mode),
                               VfoDigit(s.rxVfo), FlagDigit(s.split));
            var st := ParseIfStatus(SynthIf(s, false));
            |p| >= 35 && p[0..11] == FreqDigits(s.Of(s.rxVfo).freqHz)[0..11]
            && st == if ParseVfoDigit(p[28..]).None? || ParseU64(p[0..11]).None? then None
                     else Some(IfStatus(ParseU64(p[0..11]).value, p[26] == ONE, ModeOfDigit(p[27]),
                                        ParseVfoDigit(p[28..]).value, p[30] == ONE))
  {
    StatusSplits(s);
    FreqDigitsParse(s.Of(s.rxVfo).freqHz);
    LettersAreVerbs(IF);
    hide SplitFrame, SynthIf, FreqDigits, ParseU64, KenwoodDigit, ModeOfDigit, Letters, VerbOf, Pow10, Plain, ParseVfoDigit;
  }

  // The parser undoes the printer of the status frame exactly while the frequency has eleven
  // digits; from 10^11 Hz on, the fields move away from where the parser looks for them.
  lemma StatusReadsBackIffItFits(s: Snapshot)
    requires s.Of(s.rxVfo).freqHz <= U64_MAX
    ensures ParseIfStatus(SynthIf(s, false)) == Some(StatusOf(s)) <==> s.Of(s.rxVfo).freqHz < Pow10(11)
    ensures s.Of(s.rxVfo).freqHz >= Pow10(11) && ParseIfStatus(SynthIf(s, false)).Some? ==>
              ParseIfStatus(SynthIf(s, false)).value.freqHz < Pow10(11)
  {
    var active := s.Of(s.rxVfo);
    var digits := FreqDigits(active.freqHz);
    FreqDigitsParse(active.freqHz);
    StatusParsed(s);
    if |digits| == 11 {
      ModeDigits(active.mode, 0);
      IfPositions(digits, FlagDigit(s.ptt), KenwoodDigit(active.mode), VfoDigit(s.rxVfo), FlagDigit(s.split));
      assert digits[0..11] == digits;
    } else {
      FirstDigits(Padded(11, active.freqHz));
    }
    hide ParseIfStatus, SynthIf, IfPayload, ParseU64, KenwoodDigit, ModeOfDigit, Padded, DigitBytes, Pow10, Plain;
  }

  lemma AllButTheLast(ds: seq<digit>)
    requires ds != []
    ensures Value(ds) == 10 * Value(ds[..|ds| - 1]) + ds[|ds| - 1]
  {
  }

  lemma TwelveDigits(hz: nat)
    requires Pow10(11) <= hz < Pow10(12) && hz <= U64_MAX
    ensures |FreqDigits(hz)| == 12 && ParseU64(FreqDigits(hz)[0..11]) == Some(hz / 10)
  {
    var ds := Padded(11, hz);
    assert |ds| == 12 by {
      DigitsWidth(hz, 11);
      DigitsWidth(hz, 12);
    }
    PaddedValue(11, hz);
    AllButTheLast(ds);
    hide Value, Padded, Pow10, ParseU64;
    assert Value(ds[..11]) == hz / 10;
    DigitsParse(ds[..11]);
    assert DigitBytes(ds)[0..11] == DigitBytes(ds[..11]);
  }

  // One digit more moves every later field by one place.
  lemma IfPositionsMoved(digits: bytes, tx: byte, mode: byte, rx: byte, split: byte)
    requires |digits| == 12
    ensures var p := IfPayload(digits, tx, mode, rx, split);
            |p| == 36 && p[0..11] == digits[0..11] && p[26] == ZERO && p[27] == tx && p[30] == ZERO
            && ParseVfoDigit(p[28..]) == if mode == ZERO then Some(A) else if mode == ONE then Some(B) else None
  {
  }

  lemma ModesAsVfoDigits(m: Mode)
    ensures KenwoodDigit(m) != ZERO && (KenwoodDigit(m) == ONE <==> m == Lsb)
  {
  }

  lemma FlagsAsModeDigits(on: bool)
    ensures ModeOfDigit(FlagDigit(on)) == if on then Lsb else Unknown
  {
  }

  // What the parser makes of a twelve-digit frequency: it takes the mode for the receive VFO. In LSB
  // it reads a tenth of the frequency, on VFO B, whatever the snapshot says; in every other mode it
  // reads nothing.
  lemma TwelveDigitStatus(s: Snapshot)
    requires Pow10(11) <= s.Of(s.rxVfo).freqHz < Pow10(12) && s.Of(s.rxVfo).freqHz <= U64_MAX
    ensures ParseIfStatus(SynthIf(s, false)) ==
            if s.Of(s.rxVfo).mode == Lsb then
              Some(IfStatus(s.Of(s.rxVfo).freqHz / 10, false, if s.ptt then Lsb else Unknown, B, false))
            else None
  {
    var active := s.Of(s.rxVfo);
    var digits := FreqDigits(active.freqHz);
    TwelveDigits(active.freqHz);
    StatusParsed(s);
    IfPositionsMoved(digits, FlagDigit(s.ptt), KenwoodDigit(active.mode), VfoDigit(s.rxVfo), FlagDigit(s.split));
    ModesAsVfoDigits(active.mode);
    FlagsAsModeDigits(s.ptt);
    hide ParseIfStatus, SynthIf, IfPayload, ParseU64, FreqDigits, Pow10, ParseVfoDigit, KenwoodDigit, ModeOfDigit, FlagDigit;
  }

  // 100 GHz in LSB on VFO A is read back as 10 GHz on VFO B.
  lemma StatusTooWide()
    ensures var s := DEFAULT.(a := VfoSnapshot(100_000_000_000, Lsb, true, false));
            StatusOf(s) == IfStatus(100_000_000_000, false, Lsb, A, false)
            && ParseIfStatus(SynthIf(s, false)) == Some(IfStatus(10_000_000_000, false, Unknown, B, false))
  {
    var s := DEFAULT.(a := VfoSnapshot(100_000_000_000, Lsb, true, false));
    assert Pow10(4) == 10000 && Pow10(8) == 10000 * Pow10(4) && Pow10(11) == 1000 * Pow10(8) && Pow10(12) == 10 * Pow10(11);
    hide Pow10;
    TwelveDigitStatus(s);
    hide ParseIfStatus, SynthIf;
  }

  // Eleven digits cut from a longer number stay below 10^11.
  lemma FirstDigits(ds: seq<digit>)
    requires |ds| >= 11
    ensures ParseU64(DigitBytes(ds)[0..11]).Some? ==> ParseU64(DigitBytes(ds)[0..11]).value < Pow10(11)
  {
    assert DigitBytes(ds)[0..11] == DigitBytes(ds[0..11]);
    DigitsParse(ds[0..11]);
    ValueBelow(ds[0..11]);
    hide ParseU64, Value, Pow10;
  }

  // ---- Resynchronising a native controller ----

  function ResyncFrames(s: Snapshot): seq<bytes> {
    [FreqFrame(Letters(FA), s.a.freqHz), FreqFrame(Letters(FB), s.b.freqHz), OneDigitFrame(Letters(FR), VfoDigit(s.rxVfo)),
     OneDigitFrame(Letters(FT), VfoDigit(s.txVfo)), OneDigitFrame(Letters(MD), KenwoodDigit(s.Of(s.rxVfo).mode)),
     SynthIf(s, false)]
  }

  function RecordAll(h: Hub, frames: seq<bytes>, source: EventSource): Hub
    decreases |frames|
  {
    if frames == [] then h else RecordAll(RecordEvent(h, frames[0], source).hub, frames[1..], source)
  }

  // The mirror shows the snapshot: both frequencies, receive VFO, active mode, PTT and split.
  predicate Mirrors(m: Snapshot, s: Snapshot) {
    && m.a.freqHz == s.a.freqHz && m.b.freqHz == s.b.freqHz
    && m.rxVfo == s.rxVfo && m.Of(m.rxVfo).mode == (if s.Of(s.rxVfo).mode == Unknown then Usb else s.Of(s.rxVfo).mode)
    && m.ptt == s.ptt && m.split == s.split
  }

  lemma FirstFrame(h: Hub, f: bytes, rest: seq<bytes>, source: EventSource)
    ensures RecordAll(h, [f] + rest, source) == RecordAll(RecordEvent(h, f, source).hub, rest, source)
  {
    assert ([f] + rest)[1..] == rest;
  }

  lemma SixFrames(h: Hub, f0: bytes, f1: bytes, f2: bytes, f3: bytes, f4: bytes, f5: bytes, source: EventSource)
    ensures RecordAll(h, [f0, f1, f2, f3, f4, f5], source)
         == RecordEvent(RecordEvent(RecordEvent(RecordEvent(RecordEvent(RecordEvent(
              h, f0, source).hub, f1, source).hub, f2, source).hub, f3, source).hub, f4, source).hub, f5, source).hub
  {
    var h1 := RecordEvent(h, f0, source).hub;
    var h2 := RecordEvent(h1, f1, source).hub;
    var h3 := RecordEvent(h2, f2, source).hub;
    var h4 := RecordEvent(h3, f3, source).hub;
    var h5 := RecordEvent(h4, f4, source).hub;
    hide RecordEvent;
    FirstFrame(h5, f5, [], source);
    assert [f5] + [] == [f5];
    hide RecordAll;
    FirstFrame(h4, f4, [f5], source);
    assert [f4] + [f5] == [f4, f5];
    FirstFrame(h3, f3, [f4, f5], source);
    assert [f3] + [f4, f5] == [f3, f4, f5];
    FirstFrame(h2, f2, [f3, f4, f5], source);
    assert [f2] + [f3, f4, f5] == [f2, f3, f4, f5];
    FirstFrame(h1, f1, [f2, f3, f4, f5], source);
    assert [f1] + [f2, f3, f4, f5] == [f1, f2, f3, f4, f5];
    FirstFrame(h, f0, [f1, f2, f3, f4, f5], source);
    assert [f0] + [f1, f2, f3, f4, f5] == [f0, f1, f2, f3, f4, f5];
  }

  // What a change assigns, changed or not.
  function Assigned(s: Snapshot, ch: StateChange): Snapshot {
    match ch
    case RxVfo(v) => s.(rxVfo := v)
    case Freq(v, hz) => s.With(v, s.Of(v).(freqHz := hz))
    case ModeIs(v, mode) => s.With(v, s.Of(v).(mode := mode, modeKnown := true))
    case DataMode(v, on) => s.With(v, s.Of(v).(data := on))
    case Split(enabled, tx) => s.(split := enabled, txVfo := if tx.Some? then tx.value else s.txVfo)
    case Ptt(keyed) => s.(ptt := keyed)
    case Rit(enabled, offset) => s.(ritEnabled := enabled, ritOffsetHz := offset)
    case Xit(enabled, offset) => s.(xitEnabled := enabled, xitOffsetHz := offset)
    case Power(power) => s.(txPower := power)
  }

  lemma RecordAssigns(h: Hub, ch: StateChange, source: EventSource)
    ensures Record(h, ch, source).snapshot == Assigned(h.snapshot, ch)
  {
  }

  // The hub before the last frame.
  function BeforeStatus(h: Hub, s: Snapshot, source: EventSource): Hub {
    var h1 := Record(h, Freq(A, s.a.freqHz), source);
    var h2 := Record(h1, Freq(B, s.b.freqHz), source);
    var h3 := Record(h2, RxVfo(s.rxVfo), source);
    var h4 := Record(h3, Split(h3.snapshot.rxVfo != s.txVfo, Some(s.txVfo)), source);
    Record(h4, ModeIs(h4.snapshot.rxVfo, if s.Of(s.rxVfo).mode == Unknown then Usb else s.Of(s.rxVfo).mode), source)
  }

  lemma BeforeStatusFacts(h: Hub, s: Snapshot, source: EventSource)
    ensures var m := BeforeStatus(h, s, source).snapshot;
            m.a.freqHz == s.a.freqHz && m.b.freqHz == s.b.freqHz && m.rxVfo == s.rxVfo && m.ptt == h.snapshot.ptt
  {
    hide Record;
    var mode := if s.Of(s.rxVfo).mode == Unknown then Usb else s.Of(s.rxVfo).mode;
    var h1 := Record(h, Freq(A, s.a.freqHz), source);
    var h2 := Record(h1, Freq(B, s.b.freqHz), source);
    var h3 := Record(h2, RxVfo(s.rxVfo), source);
    var h4 := Record(h3, Split(h3.snapshot.rxVfo != s.txVfo, Some(s.txVfo)), source);
    RecordAssigns(h, Freq(A, s.a.freqHz), source);
    RecordAssigns(h1, Freq(B, s.b.freqHz), source);
    RecordAssigns(h2, RxVfo(s.rxVfo), source);
    RecordAssigns(h3, Split(h3.snapshot.rxVfo != s.txVfo, Some(s.txVfo)), source);
    RecordAssigns(h4, ModeIs(h4.snapshot.rxVfo, mode), source);
  }

  lemma FirstFive(h: Hub, s: Snapshot, source: EventSource)
    requires s.a.freqHz <= U64_MAX && s.b.freqHz <= U64_MAX
    ensures RecordAll(h, ResyncFrames(s), source)
         == RecordEvent(BeforeStatus(h, s, source), SynthIf(s, false), source).hub
  {
    hide Record, RecordEvent, FreqFrame, OneDigitFrame, SynthIf, KenwoodDigit, RecordAll, Letters, VfoDigit;
    var h1 := Record(h, Freq(A, s.a.freqHz), source);
    var h2 := Record(h1, Freq(B, s.b.freqHz), source);
    var h3 := Record(h2, RxVfo(s.rxVfo), source);
    var h4 := Record(h3, Split(h3.snapshot.rxVfo != s.txVfo, Some(s.txVfo)), source);
    SixFrames(h, FreqFrame(Letters(FA), s.a.freqHz), FreqFrame(Letters(FB), s.b.freqHz),
              OneDigitFrame(Letters(FR), VfoDigit(s.rxVfo)), OneDigitFrame(Letters(FT), VfoDigit(s.txVfo)),
              OneDigitFrame(Letters(MD), KenwoodDigit(s.Of(s.rxVfo).mode)), SynthIf(s, false), source);
    FreqFrameReadsBack(h, A, s.a.freqHz, source);
    FreqFrameReadsBack(h1, B, s.b.freqHz, source);
    SelectorsReadBack(h2, s.rxVfo, source);
    SelectorsReadBack(h3, s.txVfo, source);
    ModeReadsBack(h4, s.Of(s.rxVfo).mode, source);
  }

  lemma StatusRecorded(h: Hub, st: IfStatus, source: EventSource)
    ensures var m := RecordIfStatus(h, st, source).snapshot;
            m.Of(st.rxVfo).freqHz == st.freqHz && m.Of(st.rxVfo).mode == st.mode && m.rxVfo == st.rxVfo
            && m.Of(st.rxVfo.Other()).freqHz == h.snapshot.Of(st.rxVfo.Other()).freqHz
            && m.ptt == st.ptt && m.split == st.split
            && m.txVfo == (if st.split then st.rxVfo.Other() else st.rxVfo)
  {
    hide Record;
    var tx := if st.split then st.rxVfo.Other() else st.rxVfo;
    var h1 := Record(h, Freq(st.rxVfo, st.freqHz), source);
    var h2 := Record(h1, ModeIs(st.rxVfo, st.mode), source);
    var h3 := Record(h2, Ptt(st.ptt), source);
    var h4 := Record(h3, Split(st.split, Some(tx)), source);
    RecordAssigns(h, Freq(st.rxVfo, st.freqHz), source);
    RecordAssigns(h1, ModeIs(st.rxVfo, st.mode), source);
    RecordAssigns(h2, Ptt(st.ptt), source);
    RecordAssigns(h3, Split(st.split, Some(tx)), source);
    RecordAssigns(h4, RxVfo(st.rxVfo), source);
  }

  lemma StatusIgnored(h: Hub, s: Snapshot, source: EventSource)
    requires s.Of(s.rxVfo).freqHz <= U64_MAX && ParseIfStatus(SynthIf(s, false)).None?
    ensures RecordEvent(h, SynthIf(s, false), source) == Heard(h, false)
  {
    hide SplitFrame, SynthIf, ParseIfStatus, IfPayload, Record, ReportedChange, Letters, FreqDigits, KenwoodDigit;
    StatusSplits(s);
    StatusReportsNothing(h.snapshot, SplitFrame(SynthIf(s, false)).value.payload);
  }

  lemma StatusReportsNothing(s: Snapshot, payload: bytes)
    ensures ReportedChange(s, Command(Letters(IF), payload)) == None
  {
    LettersAreVerbs(IF);
  }

  lemma LastFrame(h: Hub, s: Snapshot, source: EventSource)
    requires s.a.freqHz <= U64_MAX && s.b.freqHz <= U64_MAX
    ensures var m := RecordAll(h, ResyncFrames(s), source).snapshot;
            if s.Of(s.rxVfo).freqHz < Pow10(11) then
              Mirrors(m, s) && m.txVfo == (if s.split then s.rxVfo.Other() else s.rxVfo)
            else h.snapshot.ptt != s.ptt ==> !Mirrors(m, s)
  {
    hide Pow10, ParseIfStatus, SynthIf, RecordIfStatus, RecordAll, ResyncFrames, BeforeStatus, SplitFrame;
    hide ReportedChange, Record;
    var h5 := BeforeStatus(h, s, source);
    StatusReadsBackIffItFits(s);
    FirstFive(h, s, source);
    BeforeStatusFacts(h, s, source);
    var st := ParseIfStatus(SynthIf(s, false));
    if st.Some? {
      StatusRecorded(h5, st.value, source);
    } else {
      StatusIgnored(h5, s, source);
    }
  }

  // Feeding the resync frames to the backend's own parser mirrors the snapshot from every starting
  // state exactly when the active frequency fits the eleven digits of the status frame. The
  // inactive frequency may be anything.
  lemma ResyncReadsBack(s: Snapshot, source: EventSource)
    requires s.a.freqHz <= U64_MAX && s.b.freqHz <= U64_MAX
    ensures (forall h: Hub :: Mirrors(RecordAll(h, ResyncFrames(s), source).snapshot, s))
            <==> s.Of(s.rxVfo).freqHz < Pow10(11)
  {
    hide Pow10, RecordAll, ResyncFrames, Mirrors;
    if s.Of(s.rxVfo).freqHz < Pow10(11) {
      forall h: Hub ensures Mirrors(RecordAll(h, ResyncFrames(s), source).snapshot, s) {
        LastFrame(h, s, source);
      }
    } else {
      LastFrame(NEW_HUB.(snapshot := DEFAULT.(ptt := !s.ptt)), s, source);
    }
  }

  // The transmit VFO is implied by the receive VFO and split, so it comes back exactly when the
  // snapshot follows that rule.
  lemma ResyncTransmitVfo(h: Hub, s: Snapshot, source: EventSource)
    requires s.a.freqHz <= U64_MAX && s.b.freqHz <= U64_MAX && s.Of(s.rxVfo).freqHz < Pow10(11)
    ensures RecordAll(h, ResyncFrames(s), source).snapshot.txVfo == s.txVfo
            <==> (s.split <==> s.txVfo != s.rxVfo)
  {
    hide Pow10, RecordAll, ResyncFrames, Mirrors;
    LastFrame(h, s, source);
  }

  // ---- Routing unsolicited frames ----

  function RouteEvent(h: Hub, frame: bytes): Hub {
    var r := RecordEvent(h, frame, NativePush);
    r.hub.(log := r.hub.log + [if r.modeled then RawNative(frame) else Raw(frame)])
  }

  method Route(state: StateHandle, frame: bytes)
    modifies state
    ensures state.State() == RouteEvent(old(state.State()), frame)
  {
    var modeled := RecordFrame(state, frame, NativePush);
    if modeled {
      state.RecordRawNative(frame);
    } else {
      state.RecordRaw(frame);
    }
  }

  // The log only grows, by modeled changes.
  ghost predicate GrowsByChanges(before: seq<RadioEvent>, after: seq<RadioEvent>) {
    && before <= after
    && forall i | |before| <= i < |after| :: after[i].Change?
  }

  lemma RecordGrows(before: seq<RadioEvent>, h: Hub, ch: StateChange, source: EventSource)
    requires GrowsByChanges(before, h.log)
    ensures GrowsByChanges(before, Record(h, ch, source).log)
  {
    hide ApplyChange, UncertainAfter, FieldOf;
  }

  lemma RecordEventGrows(h: Hub, frame: bytes, source: EventSource)
    ensures GrowsByChanges(h.log, RecordEvent(h, frame, source).hub.log)
    ensures !RecordEvent(h, frame, source).modeled ==> RecordEvent(h, frame, source).hub == h
  {
    hide Record, GrowsByChanges, ReportedChange, ParseIfStatus, SplitFrame;
    assert GrowsByChanges(h.log, h.log) by { NothingGrows(h.log); }
    var st := ParseIfStatus(frame);
    if st.Some? {
      var s := st.value;
      var tx := if s.split then s.rxVfo.Other() else s.rxVfo;
      var h1 := Record(h, Freq(s.rxVfo, s.freqHz), source);
      var h2 := Record(h1, ModeIs(s.rxVfo, s.mode), source);
      var h3 := Record(h2, Ptt(s.ptt), source);
      var h4 := Record(h3, Split(s.split, Some(tx)), source);
      RecordGrows(h.log, h, Freq(s.rxVfo, s.freqHz), source);
      RecordGrows(h.log, h1, ModeIs(s.rxVfo, s.mode), source);
      RecordGrows(h.log, h2, Ptt(s.ptt), source);
      RecordGrows(h.log, h3, Split(s.split, Some(tx)), source);
      RecordGrows(h.log, h4, RxVfo(s.rxVfo), source);
    } else {
      var c := SplitFrame(frame);
      var ch := if c.None? then None else ReportedChange(h.snapshot, c.value);
      if ch.Some? {
        RecordGrows(h.log, h, ch.value, source);
      }
    }
  }

  lemma NothingGrows(log: seq<RadioEvent>)
    ensures GrowsByChanges(log, log)
  {
  }

  // Every unsolicited frame is relayed verbatim exactly once, behind the changes it caused; a frame
  // that is not understood changes nothing and is marked as such.
  lemma RoutedFrameIsRelayedOnce(h: Hub, frame: bytes)
    ensures var r := RouteEvent(h, frame); var n := |r.log| - 1; var modeled := RecordEvent(h, frame, NativePush).modeled;
            n >= |h.log| && GrowsByChanges(h.log, r.log[..n])
            && r.log[n] == (if modeled then RawNative(frame) else Raw(frame))
            && (!modeled ==> r == h.(log := h.log + [Raw(frame)]))
  {
    hide RecordEvent;
    RecordEventGrows(h, frame, NativePush);
    var before := RecordEvent(h, frame, NativePush).hub.log;
    var r := RouteEvent(h, frame);
    assert r.log[..|before|] == before;
  }
}
