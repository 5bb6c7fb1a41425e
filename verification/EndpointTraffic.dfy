// What reaches the broker from endpoints and from the typed text interface, as bytes on the wire:
// complete, and unable to disturb a stored profile.

module EndpointTraffic {
  import opened Common
  import opened WinkeyerProtocol
  import opened BrokerModel
  import opened BrokerDevice
  import opened WinkeyerEndpoint

  // ---- Endpoint traffic ----

  ghost predicate ProperCall(c: Call) {
    match c
    case Stream(prefix, text) => KeyingBytes(prefix + text)
    case Configuration(command) => Configurable(command)
    case Owner(command) => OwnerBytes(command)
    case _ => true
  }

  ghost predicate Tidy(s: Session) {
    && KeyingBytes(s.prefix) && KeyingBytes(s.text)
    && forall c | c in s.calls :: ProperCall(c)
  }

  lemma NothingIsKeying()
    ensures KeyingBytes([])
  {
  }

  lemma OneItemIsKeying(i: ClientItem)
    requires WellFormed(i) && KeyingItem(i)
    ensures KeyingBytes(ItemBytes(i))
  {
    FeedOneItem(i);
  }

  // One more proper call keeps a session tidy.
  lemma OneMoreCall(s: Session, s1: Session, c: Call)
    requires Tidy(s) && ProperCall(c) && s1.calls == s.calls + [c]
    requires s1.prefix == s.prefix && s1.text == s.text
    ensures Tidy(s1)
  {
    hide KeyingBytes, ProperCall;
  }

  lemma FlushTidy(s: Session, ok: Outcomes)
    requires Tidy(s)
    ensures Tidy(Flush(s, ok))
  {
    hide KeyingBytes;
    if s.prefix != [] || s.text != [] {
      KeyingAppend(s.prefix, s.text);
      OneMoreCall(s, s.(calls := s.calls + [Stream(s.prefix, s.text)]), Stream(s.prefix, s.text));
      NothingIsKeying();
    }
  }

  // A command makes no call, or one proper call.
  ghost predicate AtMostOneCall(s: Session, s1: Session) {
    && s1.prefix == s.prefix && s1.text == s.text
    && (s1.calls == s.calls || exists c :: ProperCall(c) && s1.calls == s.calls + [c])
  }

  lemma AdminCall(s: Session, c: bytes, p: Permissions, ok: Outcomes)
    requires WellFormedCommand(c) && c[0] == 0x00
    ensures AtMostOneCall(s, HandleAdmin(s, c, p, ok))
  {
    hide KeyingBytes, WellFormedCommand;
    assert |c| >= 2 && c[1] in {0x0f, 0x13, 0x16, 0x19} ==> Configurable(c);
    assert ProperCall(Configuration(c)) == Configurable(c);
    assert ProperCall(Answer) && ProperCall(ReleaseMaintenance) && ProperCall(MaintenanceCall(c));
    hide ProperCall;
  }

  lemma PlainCall(s: Session, c: bytes, p: Permissions, ok: Outcomes)
    requires WellFormedCommand(c) && c[0] != 0x00 && c[0] != 0x0a && !IsBuffered(c)
    ensures AtMostOneCall(s, HandleCommand(s, c, p, ok))
  {
    hide KeyingBytes, HandleAdmin;
    assert Policy(c) == ActiveOwner ==> OwnerBytes(c);
    assert Policy(c) != ActiveOwner && c[0] != 0x02 ==> Configurable(c);
    assert ProperCall(Configuration(c)) == Configurable(c);
    assert ProperCall(Owner(c)) == OwnerBytes(c);
    assert forall v :: ProperCall(ChooseSpeed(v));
    assert ProperCall(Answer) && ProperCall(MaintenanceCall(c));
    hide ProperCall;
  }

  lemma CommandTidy(s: Session, c: bytes, p: Permissions, ok: Outcomes)
    requires Tidy(s) && WellFormedCommand(c) && c[0] != 0x0a && !IsBuffered(c)
    ensures Tidy(HandleCommand(s, c, p, ok))
  {
    if c[0] == 0x00 { AdminCall(s, c, p, ok); } else { PlainCall(s, c, p, ok); }
    var s1 := HandleCommand(s, c, p, ok);
    assert AtMostOneCall(s, s1);
    hide KeyingBytes, ProperCall, HandleCommand;
    if s1.calls != s.calls {
      var call :| ProperCall(call) && s1.calls == s.calls + [call];
      OneMoreCall(s, s1, call);
    }
  }

  lemma ItemTidy(s: Session, i: ClientItem, p: Permissions, ok: Outcomes)
    requires Tidy(s) && WellFormed(i)
    ensures Tidy(TakeItem(s, i, p, ok))
  {
    NothingIsKeying();
    match i
    case Data(b) =>
      OneItemIsKeying(i);
      KeyingAppend(s.text, [b]);
      hide KeyingBytes, ProperCall;
    case Command(c) =>
      if c[0] == 0x0a {
        hide KeyingBytes;
        var s1 := s.(prefix := [], text := []);
        OneMoreCall(s1, s1.(calls := s.calls + [CancelAll]), CancelAll);
      } else {
        FlushTidy(s, ok);
        if IsBuffered(c) {
          OneItemIsKeying(i);
          var f := if s.text != [] then Flush(s, ok) else s;
          KeyingAppend(f.prefix, c);
          hide KeyingBytes, ProperCall, Flush;
        } else {
          CommandTidy(Flush(s, ok), c, p, ok);
          hide Tidy, Flush, HandleCommand;
        }
      }
  }

  lemma ByteTidy(s: Session, b: byte, p: Permissions, ok: Outcomes)
    requires Tidy(s) && !s.closed && ValidParser(s.parser)
    ensures var s1 := TakeByte(s, b, p, ok); Tidy(s1) && (!s1.closed ==> ValidParser(s1.parser))
  {
    var r := PushByte(s.parser, b);
    var s0 := s.(parser := r.state);
    PushStep(s.parser, b);
    assert Tidy(s0);
    hide Tidy, ValidParser;
    if r.item.Some? {
      var i := r.item.value;
      assert i in ItemsOf(r.item);
      ItemTidy(s0, i, p, ok);
      KeepsParser(s0, i, p, ok);
      assert ItemsOf(r.item)[1..] == [];
      assert TakeItems(s0, ItemsOf(r.item), p, ok) == TakeItem(s0, i, p, ok);
    }
  }

  lemma KeepsParser(s: Session, i: ClientItem, p: Permissions, ok: Outcomes)
    ensures TakeItem(s, i, p, ok).parser == s.parser
  {
  }

  lemma {:induction false} BytesTidy(s: Session, input: bytes, p: Permissions, ok: Outcomes)
    requires Tidy(s) && (!s.closed ==> ValidParser(s.parser))
    ensures var s1 := TakeBytes(s, input, p, ok); Tidy(s1) && (!s1.closed ==> ValidParser(s1.parser))
    decreases |input|
  {
    if input != [] && !s.closed {
      hide Tidy, TakeByte;
      ByteTidy(s, input[0], p, ok);
      BytesTidy(TakeByte(s, input[0], p, ok), input[1..], p, ok);
    }
  }

  lemma {:induction false} ReadsTidy(s: Session, chunks: seq<bytes>, p: Permissions, ok: Outcomes)
    requires Tidy(s) && (!s.closed ==> ValidParser(s.parser))
    ensures Tidy(Reads(s, chunks, p, ok))
    decreases |chunks|
  {
    if chunks != [] {
      var s1 := Read(s, chunks[0], p, ok);
      BytesTidy(s, chunks[0], p, ok);
      FlushTidy(TakeBytes(s, chunks[0], p, ok), ok);
      hide Tidy, TakeBytes;
      ReadsTidy(s1, chunks[1..], p, ok);
    }
  }

  // Whatever a client writes, and however the bytes arrive: every payload an endpoint submits
  // consists of complete printable data and buffered commands, every configuration command is one
  // that a profile may hold, and every owner command is one that a profile cannot hold. These are
  // the assumptions under which the profile cache is proved correct.
  lemma EndpointSendsProperBytes(chunks: seq<bytes>, p: Permissions, ok: Outcomes)
    ensures forall c | c in Reads(FRESH, chunks, p, ok).calls :: ProperCall(c)
  {
    NothingIsKeying();
    ReadsTidy(FRESH, chunks, p, ok);
  }

  // ---- Text submitted through the typed interface ----

  // The validation in front of a typed job: not empty, at most 120 characters, ASCII, and no
  // control characters other than a tab; letters are folded to upper case.
  function ValidateText(text: string): Option<bytes> {
    if text == [] || |text| > MAX_JOB_BYTES || exists i | 0 <= i < |text| :: Unsupported(text[i]) then None
    else Some(UpperCased(text))
  }

  predicate Unsupported(c: char) {
    c as int > 0x7f || ((c as int < 0x20 || c as int == 0x7f) && c != '\t')
  }

  function UpperCase(c: char): byte
    requires !Unsupported(c)
  {
    if 'a' <= c <= 'z' then c as int - 0x20 else c as int
  }

  function UpperCased(text: string): bytes
    requires forall i | 0 <= i < |text| :: !Unsupported(text[i])
  {
    seq(|text|, i requires 0 <= i < |text| && !Unsupported(text[i]) => UpperCase(text[i]))
  }

  lemma {:induction false} PrintableIsData(b: bytes)
    requires forall x | x in b :: x > 0x1f
    ensures Feed(EMPTY, b).state == EMPTY && forall i | i in Feed(EMPTY, b).items :: i.Data?
    decreases |b|
  {
    if b != [] {
      assert b[0] in b && forall x | x in b[1..] :: x in b;
      PrintableIsData(b[1..]);
    }
  }

  // The first byte at or below 0x1f starts a command: either the parser is left inside it, or the
  // first item that is not data is that command.
  lemma {:induction false} ControlStartsCommand(b: bytes, k: nat)
    requires k < |b| && b[k] <= 0x1f && forall j | 0 <= j < k :: b[j] > 0x1f
    ensures var r := Feed(EMPTY, b);
            r.state != EMPTY || exists i | i in r.items :: i.Command? && i.command != [] && i.command[0] == b[k]
    decreases k
  {
    if k > 0 {
      ControlStartsCommand(b[1..], k - 1);
      var rest := Feed(EMPTY, b[1..]);
      assert Feed(EMPTY, b).items == [Data(b[0])] + rest.items;
      if rest.state == EMPTY {
        var i :| i in rest.items && i.Command? && i.command != [] && i.command[0] == b[k];
        assert i in Feed(EMPTY, b).items;
      }
    } else {
      InsideKeepsFirst(EMPTY, b);
    }
  }

  // Once inside a command, its opcode stays the first byte of whatever item comes out next.
  lemma {:induction false} InsideKeepsFirst(p: ParserState, b: bytes)
    requires ValidParser(p) && p.command + b != [] && (p.command + b)[0] <= 0x1f && b != []
    ensures var r := Feed(p, b); var opcode := (p.command + b)[0];
            r.state != EMPTY || exists i | i in r.items :: i.Command? && i.command != [] && i.command[0] == opcode
    decreases |b|
  {
    var opcode := (p.command + b)[0];
    var first := PushByte(p, b[0]);
    PushStep(p, b[0]);
    if first.item.Some? {
      assert first.item.value.Command? && first.item.value.command[0] == opcode;
      assert first.item.value in Feed(p, b).items;
    } else if b[1..] != [] {
      assert (first.state.command + b[1..])[0] == opcode;
      InsideKeepsFirst(first.state, b[1..]);
    }
  }

  // Accepted text is keyed verbatim, as printable data only, exactly when it holds no tab: byte
  // 0x09 is not text to the keyer but the opcode of a two-byte register command.
  lemma TypedTextIsKeyingIffNoTab(text: string)
    requires ValidateText(text).Some?
    ensures KeyingBytes(ValidateText(text).value) <==> '\t' !in text
  {
    var b := ValidateText(text).value;
    forall x | x in b && x <= 0x1f ensures x == 0x09 && '\t' in text {
      var j :| 0 <= j < |b| && b[j] == x;
      assert text[j] in text;
    }
    if '\t' !in text {
      assert forall x | x in b :: x > 0x1f;
      PrintableIsData(b);
    } else {
      var j :| 0 <= j < |text| && text[j] == '\t';
      assert b[j] in b && b[j] <= 0x1f;
      var k := FirstControl(b);
      assert b[k] in b && b[k] == 0x09;
      ControlStartsCommand(b, k);
    }
  }

  lemma FirstControl(b: bytes) returns (k: nat)
    requires exists x | x in b :: x <= 0x1f
    ensures k < |b| && b[k] <= 0x1f && forall j | 0 <= j < k :: b[j] > 0x1f
  {
    k := 0;
    while b[k] > 0x1f
      invariant k < |b| && forall j | 0 <= j < k :: b[j] > 0x1f
      decreases |b| - k
    {
      var x :| x in b && x <= 0x1f;
      var i :| 0 <= i < |b| && b[i] == x;
      assert i > k;
      k := k + 1;
    }
  }

  // A concrete accepted text that overwrites a stored register.
  lemma TabReachesTheRegisters()
    ensures ValidateText("\tA") == Some([0x09, 0x41])
    ensures AfterWrite(map[], [0x09, 0x41]) == map[0x09 := [0x09, 0x41]]
  {
    assert UpperCased("\tA") == [0x09, 0x41];
    WriteInstalls(map[], 0x09, [0x09, 0x41]);
  }
}
