// What an endpoint may ask of the broker for its client, and when it answers the client itself.

module EndpointRights {
  import opened Common
  import opened WinkeyerProtocol
  import opened BrokerModel
  import opened BrokerDevice
  import opened WinkeyerEndpoint
  import opened EndpointTraffic

  // ---- Permissions ----

  // Keying at once, and holding the transmitter, need the permission to transmit.
  predicate MayBuffer(i: ClientItem, p: Permissions) {
    i.Command? && i.command != [] && (i.command[0] == 0x18 || i.command[0] == 0x19 ==> p.ptt)
  }

  ghost predicate BuffersOnlyAllowed(prefix: bytes, p: Permissions) {
    forall i | i in Feed(EMPTY, prefix).items :: MayBuffer(i, p)
  }

  ghost predicate Permitted(c: Call, p: Permissions) {
    match c
    case Stream(prefix, text) => p.send && BuffersOnlyAllowed(prefix, p)
    case CancelAll => p.send
    case ChooseSpeed(_) => p.control
    case Configuration(_) => p.control
    case Owner(command) => p.control && (command != [] && command[0] == 0x0b ==> p.ptt)
    case MaintenanceCall(_) => p.configWrite
    case ReleaseMaintenance => true
    case Answer => p.status
  }

  ghost predicate Rightful(s: Session, p: Permissions) {
    && Tidy(s)
    && (s.prefix != [] || s.text != [] ==> p.send)
    && BuffersOnlyAllowed(s.prefix, p)
    && forall c | c in s.calls :: Permitted(c, p)
  }

  lemma OneMoreRight(s: Session, s1: Session, c: Call, p: Permissions)
    requires Rightful(s, p) && Tidy(s1) && Permitted(c, p) && s1.calls == s.calls + [c]
    requires (s1.prefix == s.prefix && s1.text == s.text) || (s1.prefix == [] && s1.text == [])
    ensures Rightful(s1, p)
  {
    hide Tidy, Permitted;
  }

  lemma FlushIsRightful(s: Session, p: Permissions, ok: Outcomes)
    requires Rightful(s, p)
    ensures Rightful(Flush(s, ok), p)
  {
    FlushTidy(s, ok);
    if s.prefix != [] || s.text != [] {
      OneMoreRight(s, Flush(s, ok), Stream(s.prefix, s.text), p);
    }
    hide Tidy, BuffersOnlyAllowed;
  }

  lemma BufferIsRightful(s: Session, c: bytes, p: Permissions)
    requires Rightful(s, p) && p.send && WellFormedCommand(c) && MayBuffer(Command(c), p)
    requires Tidy(s.(prefix := s.prefix + c))
    ensures Rightful(s.(prefix := s.prefix + c), p)
  {
    FeedAppend(EMPTY, s.prefix, c);
    FeedOneItem(Command(c));
    assert Feed(EMPTY, s.prefix + c).items == Feed(EMPTY, s.prefix).items + [Command(c)];
    hide Permitted;
  }

  lemma CommandIsRightful(s: Session, c: bytes, p: Permissions, ok: Outcomes)
    requires Rightful(s, p) && WellFormedCommand(c) && c[0] != 0x0a && !IsBuffered(c)
    ensures Rightful(HandleCommand(s, c, p, ok), p)
  {
    CommandTidy(s, c, p, ok);
    var s1 := HandleCommand(s, c, p, ok);
    CommandAsksPermission(s, c, p, ok);
    hide Tidy, Permitted, HandleCommand, BuffersOnlyAllowed;
    if s1.calls != s.calls {
      var call :| Permitted(call, p) && s1.calls == s.calls + [call];
      OneMoreRight(s, s1, call, p);
    }
  }

  lemma CommandAsksPermission(s: Session, c: bytes, p: Permissions, ok: Outcomes)
    requires WellFormedCommand(c) && c[0] != 0x0a && !IsBuffered(c)
    ensures var s1 := HandleCommand(s, c, p, ok);
            s1.prefix == s.prefix && s1.text == s.text
            && (s1.calls == s.calls || exists call :: Permitted(call, p) && s1.calls == s.calls + [call])
  {
    assert Permitted(ReleaseMaintenance, p) && (p.status ==> Permitted(Answer, p));
    assert p.control ==> Permitted(Configuration(c), p) && forall v :: Permitted(ChooseSpeed(v), p);
    assert p.control && (c[0] != 0x0b || p.ptt) ==> Permitted(Owner(c), p);
    assert p.configWrite ==> Permitted(MaintenanceCall(c), p);
    hide Permitted;
  }

  lemma ItemIsRightful(s: Session, i: ClientItem, p: Permissions, ok: Outcomes)
    requires Rightful(s, p) && WellFormed(i)
    ensures Rightful(TakeItem(s, i, p, ok), p)
  {
    ItemTidy(s, i, p, ok);
    match i
    case Data(b) => hide Tidy, BuffersOnlyAllowed, Permitted;
    case Command(c) =>
      if c[0] == 0x0a {
        assert BuffersOnlyAllowed([], p);
        if p.send {
          OneMoreRight(s, TakeItem(s, i, p, ok), CancelAll, p);
        }
        hide Tidy, BuffersOnlyAllowed, Permitted;
      } else {
        FlushIsRightful(s, p, ok);
        if IsBuffered(c) {
          var f := if s.text != [] then Flush(s, ok) else s;
          if s.isOpen && p.send && BufferedAllowed(c, p) && !f.closed {
            hide Flush, BuffersOnlyAllowed, Permitted, Tidy;
            BufferIsRightful(f, c, p);
          }
          hide Flush, Rightful;
        } else {
          CommandIsRightful(Flush(s, ok), c, p, ok);
          hide Rightful, Flush, HandleCommand;
        }
      }
  }

  lemma {:induction false} BytesAreRightful(s: Session, input: bytes, p: Permissions, ok: Outcomes)
    requires Rightful(s, p) && (!s.closed ==> ValidParser(s.parser))
    ensures var s1 := TakeBytes(s, input, p, ok); Rightful(s1, p) && (!s1.closed ==> ValidParser(s1.parser))
    decreases |input|
  {
    if input != [] && !s.closed {
      var r := PushByte(s.parser, input[0]);
      var s0 := s.(parser := r.state);
      PushStep(s.parser, input[0]);
      ByteTidy(s, input[0], p, ok);
      assert Rightful(s0, p);
      hide Rightful, ValidParser, PushByte;
      if r.item.Some? {
        var i := r.item.value;
        assert i in ItemsOf(r.item) && ItemsOf(r.item)[1..] == [];
        ItemIsRightful(s0, i, p, ok);
        assert TakeItems(s0, ItemsOf(r.item), p, ok) == TakeItem(s0, i, p, ok);
      }
      hide TakeItem;
      BytesAreRightful(TakeByte(s, input[0], p, ok), input[1..], p, ok);
    }
  }

  lemma {:induction false} ReadsAreRightful(s: Session, chunks: seq<bytes>, p: Permissions, ok: Outcomes)
    requires Rightful(s, p) && (!s.closed ==> ValidParser(s.parser))
    ensures Rightful(Reads(s, chunks, p, ok), p)
    decreases |chunks|
  {
    if chunks != [] {
      BytesAreRightful(s, chunks[0], p, ok);
      FlushIsRightful(TakeBytes(s, chunks[0], p, ok), p, ok);
      KeepsItsParser(TakeBytes(s, chunks[0], p, ok), ok);
      hide Rightful, TakeBytes, ValidParser, Flush;
      ReadsAreRightful(Read(s, chunks[0], p, ok), chunks[1..], p, ok);
    }
  }

  lemma KeepsItsParser(s: Session, ok: Outcomes)
    ensures Flush(s, ok).parser == s.parser && (s.closed && !Flush(s, ok).closed ==> s.prefix != [] || s.text != [])
  {
  }

  // Whatever a client writes: everything asked of the broker for it, and every answer, is permitted.
  lemma CallsArePermitted(chunks: seq<bytes>, p: Permissions, ok: Outcomes)
    ensures forall c | c in Reads(FRESH, chunks, p, ok).calls :: Permitted(c, p)
  {
    NothingIsKeying();
    ReadsAreRightful(FRESH, chunks, p, ok);
  }

  // ---- Answers, cancellations and releases ----

  function Signals(calls: seq<Call>): seq<Call> {
    if calls == [] then []
    else Signals(calls[..|calls| - 1])
         + (if calls[|calls| - 1] in {CancelAll, ReleaseMaintenance, Answer} then [calls[|calls| - 1]] else [])
  }

  // A clear asks for a cancellation; closing the host session gives maintenance back; a query is
  // answered: speed pot and status in an open session, and the others at any time.
  function DueSignal(isOpen: bool, i: ClientItem, p: Permissions): seq<Call> {
    match i
    case Data(_) => []
    case Command(c) =>
      if c == [] then []
      else if c[0] == 0x0a then (if p.send then [CancelAll] else [])
      else if c[0] == 0x00 then
        if |c| < 2 then []
        else if c[1] == 0x03 then [ReleaseMaintenance]
        else if p.status && c[1] in {0x02, 0x04, 0x05, 0x06, 0x07, 0x09, 0x15, 0x17, 0x18} then [Answer]
        else []
      else if isOpen && p.status && (c[0] == 0x07 || c[0] == 0x15) then [Answer]
      else []
  }

  function DueSignals(items: seq<ClientItem>, isOpen: bool, p: Permissions): seq<Call>
    decreases |items|
  {
    if items == [] then []
    else DueSignal(isOpen, items[0], p) + DueSignals(items[1..], OpenAfter(isOpen, items[0], p), p)
  }

  lemma OneMoreSignal(calls: seq<Call>, c: Call)
    ensures Signals(calls + [c])
         == Signals(calls) + (if c in {CancelAll, ReleaseMaintenance, Answer} then [c] else [])
  {
    assert (calls + [c])[..|calls|] == calls;
  }

  lemma FlushSignalsNothing(s: Session, ok: Outcomes)
    ensures var f := Flush(s, ok);
            Signals(f.calls) == Signals(s.calls) && f.isOpen == s.isOpen && f.parser == s.parser
  {
    OneMoreSignal(s.calls, Stream(s.prefix, s.text));
  }

  // The command makes at most one call, which signals what is due.
  ghost predicate OneSignal(s: Session, s1: Session, due: seq<Call>) {
    s1.parser == s.parser
    && ((s1.calls == s.calls && due == [])
        || exists c :: s1.calls == s.calls + [c] && due == (if c in {CancelAll, ReleaseMaintenance, Answer} then [c] else []))
  }

  lemma AdminSignals(s: Session, c: bytes, p: Permissions, ok: Outcomes)
    requires WellFormedCommand(c) && c[0] == 0x00
    ensures var s1 := HandleAdmin(s, c, p, ok);
            OneSignal(s, s1, DueSignal(s.isOpen, Command(c), p))
            && (!s1.closed ==> s1.isOpen == OpenAfter(s.isOpen, Command(c), p))
  {
  }

  lemma PlainSignals(s: Session, c: bytes, p: Permissions, ok: Outcomes)
    requires WellFormedCommand(c) && c[0] != 0x00 && c[0] != 0x0a
    ensures var s1 := HandleCommand(s, c, p, ok);
            OneSignal(s, s1, DueSignal(s.isOpen, Command(c), p))
            && (!s1.closed ==> s1.isOpen == OpenAfter(s.isOpen, Command(c), p))
  {
    hide HandleAdmin;
  }

  lemma CommandSignals(s: Session, c: bytes, p: Permissions, ok: Outcomes)
    requires WellFormedCommand(c) && c[0] != 0x0a
    ensures var s1 := HandleCommand(s, c, p, ok);
            Signals(s1.calls) == Signals(s.calls) + DueSignal(s.isOpen, Command(c), p)
            && (!s1.closed ==> s1.isOpen == OpenAfter(s.isOpen, Command(c), p)) && s1.parser == s.parser
  {
    var s1 := HandleCommand(s, c, p, ok);
    if c[0] == 0x00 { AdminSignals(s, c, p, ok); } else { PlainSignals(s, c, p, ok); }
    assert OneSignal(s, s1, DueSignal(s.isOpen, Command(c), p));
    hide HandleAdmin, HandleCommand, DueSignal, OpenAfter;
    if s1.calls != s.calls {
      var call :| s1.calls == s.calls + [call]
                  && DueSignal(s.isOpen, Command(c), p) == (if call in {CancelAll, ReleaseMaintenance, Answer} then [call] else []);
      OneMoreSignal(s.calls, call);
    }
  }

  // What a session must satisfy after the items `done`.
  ghost predicate Signalled(s: Session, done: seq<ClientItem>, p: Permissions) {
    && Signals(s.calls) <= DueSignals(done, false, p)
    && (!s.closed ==> Signals(s.calls) == DueSignals(done, false, p) && s.isOpen == OpenAfterAll(false, done, p))
  }

  lemma ItemSignals(s: Session, i: ClientItem, p: Permissions, ok: Outcomes)
    requires WellFormed(i)
    ensures var s1 := TakeItem(s, i, p, ok); var due := DueSignal(s.isOpen, i, p);
            Signals(s1.calls) <= Signals(s.calls) + due
            && (!s1.closed ==> Signals(s1.calls) == Signals(s.calls) + due && s1.isOpen == OpenAfter(s.isOpen, i, p))
            && s1.parser == s.parser
  {
    FlushSignalsNothing(s, ok);
    OneMoreSignal(s.calls, CancelAll);
    hide Signals, Flush;
    if i.Command? {
      if i.command[0] == 0x0a {
        hide HandleCommand;
      } else if IsBuffered(i.command) {
        hide HandleCommand;
      } else {
        CommandSignals(Flush(s, ok), i.command, p, ok);
        hide HandleCommand, DueSignal, OpenAfter, WellFormedCommand;
      }
    }
  }

  lemma {:induction false} SignalsAppend(a: seq<ClientItem>, b: seq<ClientItem>, isOpen: bool, p: Permissions)
    ensures DueSignals(a + b, isOpen, p) == DueSignals(a, isOpen, p) + DueSignals(b, OpenAfterAll(isOpen, a, p), p)
    decreases |a|
  {
    hide DueSignal, OpenAfter;
    if a == [] {
      assert a + b == b;
    } else {
      SignalsAppend(a[1..], b, OpenAfter(isOpen, a[0], p), p);
      assert (a + b)[0] == a[0] && (a + b)[1..] == a[1..] + b;
    }
  }

  lemma SignalledStep(s: Session, i: ClientItem, done: seq<ClientItem>, p: Permissions, ok: Outcomes)
    requires Signalled(s, done, p) && !s.closed && WellFormed(i)
    ensures Signalled(TakeItem(s, i, p, ok), done + [i], p) && TakeItem(s, i, p, ok).parser == s.parser
  {
    ItemSignals(s, i, p, ok);
    var here := OpenAfterAll(false, done, p);
    SignalsAppend(done, [i], false, p);
    DueAppend(done, [i], false, p);
    assert DueSignals([i], here, p) == DueSignal(here, i, p) + DueSignals([], OpenAfter(here, i, p), p);
    assert OpenAfterAll(here, [i], p) == OpenAfterAll(OpenAfter(here, i, p), [], p);
    hide TakeItem, WellFormed, DueSignal, OpenAfter, Signals;
  }

  lemma ClosedStaysSignalled(s: Session, done: seq<ClientItem>, more: seq<ClientItem>, p: Permissions)
    requires s.closed && Signalled(s, done, p)
    ensures Signalled(s, done + more, p)
  {
    SignalsAppend(done, more, false, p);
  }

  lemma ByteSignals(s: Session, b: byte, done: seq<ClientItem>, p: Permissions, ok: Outcomes)
    requires Signalled(s, done, p) && !s.closed && ValidParser(s.parser)
    ensures var r := PushByte(s.parser, b); var s1 := TakeByte(s, b, p, ok);
            ValidParser(r.state) && Signalled(s1, done + ItemsOf(r.item), p) && s1.parser == r.state
  {
    var r := PushByte(s.parser, b);
    var s0 := s.(parser := r.state);
    PushStep(s.parser, b);
    assert Signalled(s0, done, p);
    hide Signalled, ValidParser, PushByte;
    if r.item.Some? {
      var i := r.item.value;
      assert i in ItemsOf(r.item) && ItemsOf(r.item)[1..] == [];
      SignalledStep(s0, i, done, p, ok);
      assert TakeItems(s0, ItemsOf(r.item), p, ok) == TakeItem(s0, i, p, ok);
    } else {
      assert done + ItemsOf(r.item) == done;
    }
  }

  lemma {:induction false} BytesSignal(s: Session, input: bytes, done: seq<ClientItem>, p: Permissions, ok: Outcomes)
    requires Signalled(s, done, p) && (!s.closed ==> ValidParser(s.parser))
    ensures var s1 := TakeBytes(s, input, p, ok);
            !s.closed ==>
              var r := Feed(s.parser, input);
              Signalled(s1, done + r.items, p) && (!s1.closed ==> s1.parser == r.state && ValidParser(r.state))
    decreases |input|
  {
    var r := Feed(s.parser, input);
    hide Signalled, ValidParser, PushByte, TakeByte;
    if s.closed {
    } else if input == [] {
      assert done + r.items == done;
    } else {
      var first := PushByte(s.parser, input[0]);
      var rest := Feed(first.state, input[1..]);
      var s1 := TakeByte(s, input[0], p, ok);
      ByteSignals(s, input[0], done, p, ok);
      BytesSignal(s1, input[1..], done + ItemsOf(first.item), p, ok);
      assert (done + ItemsOf(first.item)) + rest.items == done + r.items;
      if s1.closed {
        assert TakeBytes(s1, input[1..], p, ok) == s1;
        ClosedStaysSignalled(s1, done + ItemsOf(first.item), rest.items, p);
      }
    }
  }

  lemma ReadSignals(s: Session, chunk: bytes, done: seq<ClientItem>, p: Permissions, ok: Outcomes)
    requires Signalled(s, done, p) && !s.closed && ValidParser(s.parser)
    ensures var s1 := Read(s, chunk, p, ok); var r := Feed(s.parser, chunk);
            Signalled(s1, done + r.items, p) && (!s1.closed ==> s1.parser == r.state && ValidParser(r.state))
  {
    BytesSignal(s, chunk, done, p, ok);
    FlushSignalsNothing(TakeBytes(s, chunk, p, ok), ok);
    hide Feed, TakeBytes, ValidParser, Signals, DueSignals;
  }

  lemma {:induction false} ReadsSignal(s: Session, chunks: seq<bytes>, done: seq<ClientItem>, p: Permissions, ok: Outcomes)
    requires Signalled(s, done, p) && !s.closed && ValidParser(s.parser)
    ensures Signalled(Reads(s, chunks, p, ok), done + Feed(s.parser, Concat(chunks)).items, p)
    decreases |chunks|
  {
    hide ValidParser, Signalled, Read;
    if chunks == [] {
      assert done + Feed(s.parser, []).items == done;
    } else {
      hide Feed;
      var first := Feed(s.parser, chunks[0]);
      var rest := Feed(first.state, Concat(chunks[1..]));
      var s2 := Read(s, chunks[0], p, ok);
      FeedAppend(s.parser, chunks[0], Concat(chunks[1..]));
      ReadSignals(s, chunks[0], done, p, ok);
      assert done + (first.items + rest.items) == (done + first.items) + rest.items;
      if s2.closed {
        ClosedReads(s2, chunks[1..], p, ok);
        ClosedStaysSignalled(s2, done + first.items, rest.items, p);
      } else {
        ReadsSignal(s2, chunks[1..], done + first.items, p, ok);
      }
    }
  }

  // However the input is split into reads: the cancellations, the releases of maintenance and the
  // answers are exactly those due, in order, while the session lives, and a prefix of them if it closes.
  lemma SignalsInOrder(chunks: seq<bytes>, p: Permissions, ok: Outcomes)
    ensures var s := Reads(FRESH, chunks, p, ok); var due := DueSignals(Feed(EMPTY, Concat(chunks)).items, false, p);
            Signals(s.calls) <= due && (!s.closed ==> Signals(s.calls) == due)
  {
    ReadsSignal(FRESH, chunks, [], p, ok);
    assert [] + Feed(EMPTY, Concat(chunks)).items == Feed(EMPTY, Concat(chunks)).items;
  }

  // A clear discards what was not handed over yet, and asks for a cancellation if its client may send.
  lemma ClearDiscards(s: Session, p: Permissions, ok: Outcomes)
    ensures TakeItem(s, Command([0x0a]), p, ok)
         == s.(prefix := [], text := [], calls := s.calls + (if p.send then [CancelAll] else []))
  {
    assert s.calls + [] == s.calls;
  }

  // ---- Where commands go ----

  // In an open session of a client that may control and transmit: a speed is chosen if it is the pot or
  // 5 to 99 words a minute; opcodes 0x0b, 0x14 and 0x16 act on what is being sent; and every other command
  // that is neither a query nor buffered is stored as configuration.
  lemma CommandsGoWhereTheyBelong(s: Session, c: bytes, p: Permissions, ok: Outcomes)
    requires s.isOpen && p.control && p.ptt && WellFormedCommand(c) && !IsBuffered(c)
    requires c[0] !in {0x00, 0x07, 0x0a, 0x15}
    ensures HandleCommand(s, c, p, ok).calls == s.calls +
            (if c[0] == 0x02 then
               if c[1] == 0 then [ChooseSpeed(Pot)] else if 5 <= c[1] <= 99 then [ChooseSpeed(Fixed(c[1]))] else []
             else if c[0] in {0x0b, 0x14, 0x16} then [Owner(c)]
             else [Configuration(c)])
  {
    assert s.calls + [] == s.calls;
  }

  // Admin commands that the endpoint neither answers nor ignores nor stores are maintenance: they go to
  // the broker exactly if the client may configure, and close the session if it may not or if the broker
  // refuses; once one is carried out, the client holds maintenance.
  lemma DisruptiveCommandsAreMaintenance(s: Session, c: bytes, p: Permissions, ok: Outcomes)
    requires !s.closed && WellFormedCommand(c) && c[0] == 0x00
    requires c[1] in {0x00, 0x01, 0x08, 0x0c, 0x0d, 0x0e, 0x10, 0x11, 0x12} || c[1] >= 0x1a
    ensures var s1 := HandleCommand(s, c, p, ok);
            s1.calls == s.calls + (if p.configWrite then [MaintenanceCall(c)] else [])
            && (s1.closed <==> !p.configWrite || !ok(|s.calls|))
            && s1.maintenance == (s.maintenance || !s1.closed)
  {
    assert s.calls + [] == s.calls;
  }

  // And these are stored, or ignored, for a client that may control.
  lemma HarmlessAdminIsKept(s: Session, c: bytes, p: Permissions, ok: Outcomes)
    requires p.control && WellFormedCommand(c) && c[0] == 0x00
    requires c[1] in {0x0a, 0x0b, 0x0f, 0x13, 0x14, 0x16, 0x19}
    ensures HandleCommand(s, c, p, ok)
         == s.(calls := s.calls + (if c[1] in {0x0f, 0x13, 0x16, 0x19} then [Configuration(c)] else []))
  {
    assert s.calls + [] == s.calls;
  }

  // A buffered command is one of the opcodes 0x18 to 0x1f; it waits in front of the text, whose pending
  // part is handed over first; key-immediate and PTT commands need the permission to transmit.
  lemma BufferedCommandsWait(s: Session, c: bytes, p: Permissions, ok: Outcomes)
    requires s.isOpen && !s.closed && p.send && c != [] && 0x18 <= c[0] <= 0x1f
    ensures var s1 := TakeItem(s, Command(c), p, ok);
            if c[0] in {0x18, 0x19} && !p.ptt then s1 == s
            else if s.text == [] then s1 == s.(prefix := s.prefix + c)
            else if ok(|s.calls|) then
              s1 == s.(calls := s.calls + [Stream(s.prefix, s.text)], prefix := c, text := [])
            else s1.closed && s1.calls == s.calls + [Stream(s.prefix, s.text)]
  {
    assert [] + c == c;
  }
}
