// A virtual WinKeyer endpoint: what it forwards to the broker for the bytes a client writes.

module WinkeyerEndpoint {
  import opened Common
  import opened WinkeyerProtocol
  import opened BrokerModel
  import opened BrokerDevice

  datatype Permissions = Permissions(status: bool, send: bool, control: bool, ptt: bool, configWrite: bool)

  // Requests to the broker, and bytes answered to the client, in the order they are made.
  datatype Call =
    | Stream(prefix: bytes, text: bytes)
    | CancelAll
    | ChooseSpeed(speed: SpeedMode)
    | Configuration(command: bytes)
    | Owner(command: bytes)
    | MaintenanceCall(command: bytes)
    | ReleaseMaintenance
    | Answer

  // The outcome of the n-th call of the session.
  type Outcomes = nat -> bool

  datatype Session = Session(
    parser: ParserState,
    isOpen: bool,
    maintenance: bool,
    prefix: bytes,
    text: bytes,
    calls: seq<Call>,
    closed: bool)

  function ParseSpeed(v: byte): Option<SpeedMode> {
    if v == 0 then Some(Pot) else if 5 <= v <= 99 then Some(Fixed(v)) else None
  }

  predicate IsBuffered(c: bytes) {
    c != [] && 0x18 <= c[0] <= 0x1f
  }

  predicate BufferedAllowed(c: bytes, p: Permissions) {
    !(c != [] && (c[0] == 0x18 || c[0] == 0x19)) || p.ptt
  }

  // A call whose failure closes the session.
  function Vital(s: Session, c: Call, ok: Outcomes): Session {
    s.(calls := s.calls + [c], closed := !ok(|s.calls|))
  }

  function Minor(s: Session, c: Call): Session {
    s.(calls := s.calls + [c])
  }

  function Flush(s: Session, ok: Outcomes): Session {
    if s.prefix == [] && s.text == [] then s
    else Vital(s, Stream(s.prefix, s.text), ok).(prefix := [], text := [])
  }

  function AttemptMaintenance(s: Session, c: bytes, p: Permissions, ok: Outcomes): Session {
    if !p.configWrite then s.(closed := true)
    else
      var s1 := Vital(s, MaintenanceCall(c), ok);
      if s1.closed then s1 else s1.(maintenance := true)
  }

  function HandleAdmin(s: Session, c: bytes, p: Permissions, ok: Outcomes): (s1: Session)
    ensures s1.parser == s.parser && s1.prefix == s.prefix && s1.text == s.text
  {
    if |c| < 2 then s
    else if c[1] == 0x02 && p.status then Vital(s.(isOpen := true), Answer, ok)
    else if c[1] == 0x03 then Minor(s.(isOpen := false), ReleaseMaintenance).(maintenance := false)
    else if c[1] == 0x04 && p.status then (if |c| > 2 then Vital(s, Answer, ok) else s)
    else if (0x05 <= c[1] <= 0x07 || c[1] == 0x15 || 0x17 <= c[1] <= 0x18) && p.status then Vital(s, Answer, ok)
    else if c[1] == 0x09 && p.status then Vital(s, Answer, ok)
    else if (c[1] == 0x0a || c[1] == 0x0b || c[1] == 0x14) && p.control then s
    else if (c[1] == 0x0f || c[1] == 0x13 || c[1] == 0x16 || c[1] == 0x19) && p.control then Minor(s, Configuration(c))
    else AttemptMaintenance(s, c, p, ok)
  }

  function HandleCommand(s: Session, c: bytes, p: Permissions, ok: Outcomes): (s1: Session)
    ensures s1.parser == s.parser && s1.prefix == s.prefix && s1.text == s.text
  {
    if c != [] && c[0] == 0x00 then HandleAdmin(s, c, p, ok)
    else if !s.isOpen || c == [] then s
    else if c[0] == 0x02 && p.control then
      (if |c| > 1 && ParseSpeed(c[1]).Some? then Minor(s, ChooseSpeed(ParseSpeed(c[1]).value)) else s)
    else if (c[0] == 0x07 || c[0] == 0x15) && p.status then Vital(s, Answer, ok)
    else
      match Policy(c)
      case Transient => if p.control then Minor(s, Configuration(c)) else s
      case ActiveOwner => if p.control && (c[0] != 0x0b || p.ptt) then Minor(s, Owner(c)) else s
      case Maintenance => AttemptMaintenance(s, c, p, ok)
      case Virtualized => s
  }

  function TakeItem(s: Session, i: ClientItem, p: Permissions, ok: Outcomes): Session {
    match i
    case Data(b) => if s.isOpen && p.send then s.(text := s.text + [b]) else s
    case Command(c) =>
      if c != [] && c[0] == 0x0a then
        var s1 := s.(prefix := [], text := []);
        if p.send then Minor(s1, CancelAll) else s1
      else if IsBuffered(c) then
        if s.isOpen && p.send && BufferedAllowed(c, p) then
          var s1 := if s.text != [] then Flush(s, ok) else s;
          if s1.closed then s1 else s1.(prefix := s1.prefix + c)
        else s
      else
        var s1 := Flush(s, ok);
        if s1.closed then s1 else HandleCommand(s1, c, p, ok)
  }

  function TakeItems(s: Session, items: seq<ClientItem>, p: Permissions, ok: Outcomes): Session
    decreases |items|
  {
    if items == [] || s.closed then s else TakeItems(TakeItem(s, items[0], p, ok), items[1..], p, ok)
  }

  function TakeByte(s: Session, b: byte, p: Permissions, ok: Outcomes): Session {
    var r := PushByte(s.parser, b);
    TakeItems(s.(parser := r.state), ItemsOf(r.item), p, ok)
  }

  function TakeBytes(s: Session, input: bytes, p: Permissions, ok: Outcomes): Session
    decreases |input|
  {
    if input == [] || s.closed then s else TakeBytes(TakeByte(s, input[0], p, ok), input[1..], p, ok)
  }

  // One read of the serial port.
  function Read(s: Session, chunk: bytes, p: Permissions, ok: Outcomes): Session {
    if s.closed then s else
      var s1 := TakeBytes(s, chunk, p, ok);
      if s1.closed then s1 else Flush(s1, ok)
  }

  function Reads(s: Session, chunks: seq<bytes>, p: Permissions, ok: Outcomes): Session
    decreases |chunks|
  {
    if chunks == [] then s else Reads(Read(s, chunks[0], p, ok), chunks[1..], p, ok)
  }

  const FRESH := Session(EMPTY, false, false, [], [], [], false)

  // ---- What the client is entitled to ----

  // Whether the session is open after an item.
  predicate OpenAfter(isOpen: bool, i: ClientItem, p: Permissions) {
    if i.Command? && |i.command| >= 2 && i.command[0] == 0x00 && i.command[1] == 0x02 && p.status then true
    else if i.Command? && |i.command| >= 2 && i.command[0] == 0x00 && i.command[1] == 0x03 then false
    else isOpen
  }

  predicate AdminForwarded(sub: byte, p: Permissions) {
    if (sub == 0x0f || sub == 0x13 || sub == 0x16 || sub == 0x19) then p.control || p.configWrite
    else if sub == 0x03 then false
    else if sub == 0x02 || 0x04 <= sub <= 0x07 || sub == 0x09 || sub == 0x15 || 0x17 <= sub <= 0x18 then !p.status && p.configWrite
    else if (sub == 0x0a || sub == 0x0b || sub == 0x14) then !p.control && p.configWrite
    else p.configWrite
  }

  // Whether an item's bytes are to be forwarded by an open or closed session.
  predicate Entitled(isOpen: bool, i: ClientItem, p: Permissions) {
    match i
    case Data(_) => isOpen && p.send
    case Command(c) =>
      c != []
      && (if c[0] == 0x0a then false
          else if IsBuffered(c) then isOpen && p.send && BufferedAllowed(c, p)
          else if c[0] == 0x00 then |c| >= 2 && AdminForwarded(c[1], p)
          else if c[0] == 0x02 then isOpen && p.control && |c| > 1 && ParseSpeed(c[1]).Some?
          else if c[0] == 0x07 || c[0] == 0x15 then isOpen && p.control && !p.status
          else isOpen && p.control && (c[0] != 0x0b || p.ptt))
  }

  // The bytes due for an item list, in input order.
  function Due(items: seq<ClientItem>, isOpen: bool, p: Permissions): bytes
    decreases |items|
  {
    if items == [] then [] else
      (if Entitled(isOpen, items[0], p) then ItemBytes(items[0]) else [])
      + Due(items[1..], OpenAfter(isOpen, items[0], p), p)
  }

  function OpenAfterAll(isOpen: bool, items: seq<ClientItem>, p: Permissions): bool
    decreases |items|
  {
    if items == [] then isOpen else OpenAfterAll(OpenAfter(isOpen, items[0], p), items[1..], p)
  }

  // The bytes a call forwards.
  function CallBytes(c: Call): bytes {
    match c
    case Stream(prefix, text) => prefix + text
    case ChooseSpeed(s) => SpeedCommand(s)
    case Configuration(cmd) => cmd
    case Owner(cmd) => cmd
    case MaintenanceCall(cmd) => cmd
    case _ => []
  }

  function Forwarded(calls: seq<Call>): bytes {
    if calls == [] then [] else Forwarded(calls[..|calls| - 1]) + CallBytes(calls[|calls| - 1])
  }

  lemma ForwardedSnoc(calls: seq<Call>, c: Call)
    ensures Forwarded(calls + [c]) == Forwarded(calls) + CallBytes(c)
  {
    assert (calls + [c])[..|calls|] == calls;
  }

  // Everything forwarded and pending.
  function Handed(s: Session): bytes {
    Forwarded(s.calls) + (s.prefix + s.text)
  }

  lemma FlushHands(s: Session, ok: Outcomes)
    ensures var s1 := Flush(s, ok);
            Handed(s1) == Handed(s) && s1.prefix == [] && s1.text == []
            && s1.isOpen == s.isOpen && s1.parser == s.parser
  {
    if s.prefix != [] || s.text != [] {
      ForwardedSnoc(s.calls, Stream(s.prefix, s.text));
      assert Forwarded(s.calls) + (s.prefix + s.text) + ([] + []) == Forwarded(s.calls) + (s.prefix + s.text);
    }
  }

  predicate IsClear(i: ClientItem) {
    i.Command? && i.command != [] && i.command[0] == 0x0a
  }

  // At most one call is made, and it forwards exactly what is due.
  ghost predicate OneCall(s: Session, s1: Session, due: bytes) {
    && s1.prefix == s.prefix && s1.text == s.text && s1.parser == s.parser
    && (|| (s1.calls == s.calls && due == [])
        || exists c :: CallBytes(c) == due && s1.calls == s.calls + [c])
  }

  lemma OneCallHands(s: Session, s1: Session, due: bytes)
    requires OneCall(s, s1, due) && s.prefix == [] && s.text == []
    ensures Handed(s1) == Handed(s) + due
  {
    if s1.calls != s.calls {
      var c :| CallBytes(c) == due && s1.calls == s.calls + [c];
      ForwardedSnoc(s.calls, c);
    }
  }

  lemma HandleAdminCalls(s: Session, c: bytes, p: Permissions, ok: Outcomes)
    requires |c| >= 2 && c[0] == 0x00
    ensures var s1 := HandleAdmin(s, c, p, ok);
            OneCall(s, s1, if AdminForwarded(c[1], p) then c else [])
            && (!s1.closed ==> s1.isOpen == OpenAfter(s.isOpen, Command(c), p))
  {
    assert CallBytes(Answer) == [] && CallBytes(ReleaseMaintenance) == [];
    assert CallBytes(Configuration(c)) == c && CallBytes(MaintenanceCall(c)) == c;
    hide CallBytes;
  }

  lemma HandleCommandCalls(s: Session, c: bytes, p: Permissions, ok: Outcomes)
    requires WellFormedCommand(c) && !IsBuffered(c) && c[0] != 0x0a
    ensures var s1 := HandleCommand(s, c, p, ok);
            OneCall(s, s1, if Entitled(s.isOpen, Command(c), p) then c else [])
            && (!s1.closed ==> s1.isOpen == OpenAfter(s.isOpen, Command(c), p))
  {
    if c[0] == 0x00 {
      HandleAdminCalls(s, c, p, ok);
      hide HandleAdmin;
    } else if c[0] == 0x02 {
      assert c == [c[0], c[1]];
    }
  }

  // Per item: exactly the entitled bytes are handed on, behind everything handed on before; a
  // closing session has handed on a prefix.
  lemma ItemHands(s: Session, i: ClientItem, p: Permissions, ok: Outcomes)
    requires !s.closed && WellFormed(i) && !IsClear(i)
    ensures var s1 := TakeItem(s, i, p, ok); var due := if Entitled(s.isOpen, i, p) then ItemBytes(i) else [];
            Handed(s1) <= Handed(s) + due
            && (!s1.closed ==> Handed(s1) == Handed(s) + due && s1.isOpen == OpenAfter(s.isOpen, i, p))
            && s1.parser == s.parser
  {
    match i
    case Data(b) =>
      if s.isOpen && p.send {
        assert s.prefix + (s.text + [b]) == (s.prefix + s.text) + [b];
        assert Forwarded(s.calls) + ((s.prefix + s.text) + [b]) == Handed(s) + [b];
      }
    case Command(c) =>
      if IsBuffered(c) {
        BufferedHands(s, c, p, ok);
      } else {
        FlushHands(s, ok);
        var f := Flush(s, ok);
        if !f.closed {
          HandleCommandCalls(f, c, p, ok);
          hide HandleCommand, Entitled;
          OneCallHands(f, HandleCommand(f, c, p, ok), if Entitled(f.isOpen, i, p) then c else []);
        }
      }
  }

  lemma PrefixGrows(s: Session, c: bytes)
    requires s.text == []
    ensures Handed(s.(prefix := s.prefix + c)) == Handed(s) + c
  {
    assert (s.prefix + c) + s.text == (s.prefix + s.text) + c;
    assert Forwarded(s.calls) + ((s.prefix + s.text) + c) == Handed(s) + c;
  }

  lemma BufferedHands(s: Session, c: bytes, p: Permissions, ok: Outcomes)
    requires !s.closed && c != [] && IsBuffered(c)
    ensures var s1 := TakeItem(s, Command(c), p, ok);
            var due := if Entitled(s.isOpen, Command(c), p) then c else [];
            Handed(s1) <= Handed(s) + due
            && (!s1.closed ==> Handed(s1) == Handed(s) + due && s1.isOpen == s.isOpen)
            && s1.parser == s.parser
  {
    var f := if s.text != [] then Flush(s, ok) else s;
    FlushHands(s, ok);
    assert Entitled(s.isOpen, Command(c), p) == (s.isOpen && p.send && BufferedAllowed(c, p));
    PrefixGrows(f, c);
    hide Handed, Flush, BufferedAllowed, Entitled;
    assert f.isOpen == s.isOpen;
  }

  lemma {:induction false} DueAppend(a: seq<ClientItem>, b: seq<ClientItem>, isOpen: bool, p: Permissions)
    ensures Due(a + b, isOpen, p) == Due(a, isOpen, p) + Due(b, OpenAfterAll(isOpen, a, p), p)
    ensures OpenAfterAll(isOpen, a + b, p) == OpenAfterAll(OpenAfterAll(isOpen, a, p), b, p)
    decreases |a|
  {
    hide Entitled, OpenAfter, ItemBytes;
    if a == [] {
      assert a + b == b;
    } else {
      var next := OpenAfter(isOpen, a[0], p);
      var first := if Entitled(isOpen, a[0], p) then ItemBytes(a[0]) else [];
      var rest := Due(b, OpenAfterAll(next, a[1..], p), p);
      DueAppend(a[1..], b, next, p);
      assert (a + b)[0] == a[0] && (a + b)[1..] == a[1..] + b;
      assert first + (Due(a[1..], next, p) + rest) == (first + Due(a[1..], next, p)) + rest;
    }
  }

  ghost predicate NoClear(items: seq<ClientItem>) {
    forall i | i in items :: !IsClear(i)
  }

  // What a session must satisfy after the items `done`, starting open or closed as given.
  ghost predicate Faithful(s: Session, done: seq<ClientItem>, isOpen: bool, p: Permissions) {
    Handed(s) <= Due(done, isOpen, p)
    && (!s.closed ==> Handed(s) == Due(done, isOpen, p) && s.isOpen == OpenAfterAll(isOpen, done, p))
  }

  lemma FaithfulStep(s: Session, i: ClientItem, done: seq<ClientItem>, isOpen: bool, p: Permissions, ok: Outcomes)
    requires Faithful(s, done, isOpen, p) && WellFormed(i) && !IsClear(i)
    ensures Faithful(if s.closed then s else TakeItem(s, i, p, ok), done + [i], isOpen, p)
    ensures !s.closed ==> TakeItem(s, i, p, ok).parser == s.parser
  {
    DueAppend(done, [i], isOpen, p);
    var here := OpenAfterAll(isOpen, done, p);
    assert Due([i], here, p) == (if Entitled(here, i, p) then ItemBytes(i) else []) + Due([], OpenAfter(here, i, p), p);
    assert OpenAfterAll(here, [i], p) == OpenAfterAll(OpenAfter(here, i, p), [], p) == OpenAfter(here, i, p);
    if !s.closed {
      ItemHands(s, i, p, ok);
    }
  }

  lemma ByteFaithful(s: Session, b: byte, done: seq<ClientItem>, isOpen: bool, p: Permissions, ok: Outcomes)
    requires !s.closed && Faithful(s, done, isOpen, p) && ValidParser(s.parser)
    requires NoClear(ItemsOf(PushByte(s.parser, b).item))
    ensures var r := PushByte(s.parser, b); var s1 := TakeByte(s, b, p, ok);
            Faithful(s1, done + ItemsOf(r.item), isOpen, p) && s1.parser == r.state
  {
    var r := PushByte(s.parser, b);
    var s0 := s.(parser := r.state);
    PushStep(s.parser, b);
    if r.item.Some? {
      var i := r.item.value;
      assert i in ItemsOf(r.item);
      FaithfulStep(s0, i, done, isOpen, p, ok);
      assert ItemsOf(r.item)[1..] == [];
      assert TakeItems(s0, ItemsOf(r.item), p, ok) == TakeItem(s0, i, p, ok);
    } else {
      assert done + ItemsOf(r.item) == done;
    }
  }

  // A closed session stays a prefix of what is due, however much input follows.
  lemma ClosedStaysFaithful(s: Session, done: seq<ClientItem>, more: seq<ClientItem>, isOpen: bool, p: Permissions)
    requires s.closed && Faithful(s, done, isOpen, p)
    ensures Faithful(s, done + more, isOpen, p)
  {
    DueAppend(done, more, isOpen, p);
  }

  lemma {:induction false} BytesFaithful(s: Session, input: bytes, done: seq<ClientItem>, isOpen: bool,
                                         p: Permissions, ok: Outcomes)
    requires Faithful(s, done, isOpen, p) && ValidParser(s.parser) && NoClear(Feed(s.parser, input).items)
    ensures var s1 := TakeBytes(s, input, p, ok); var r := Feed(s.parser, input);
            Faithful(s1, done + r.items, isOpen, p) && (!s1.closed ==> s1.parser == r.state)
    decreases |input|
  {
    var r := Feed(s.parser, input);
    if s.closed {
      ClosedStaysFaithful(s, done, r.items, isOpen, p);
    } else if input == [] {
      assert done + r.items == done;
    } else {
      var first := PushByte(s.parser, input[0]);
      var rest := Feed(first.state, input[1..]);
      var s1 := TakeByte(s, input[0], p, ok);
      hide NoClear, ValidParser, Faithful, TakeByte, PushByte, ItemsOf;
      NoClearSplits(ItemsOf(first.item), rest.items);
      ByteFaithful(s, input[0], done, isOpen, p, ok);
      PushStep(s.parser, input[0]);
      BytesFaithful(s1, input[1..], done + ItemsOf(first.item), isOpen, p, ok);
      Associative(done, ItemsOf(first.item), rest.items);
    }
  }

  function Concat(chunks: seq<bytes>): bytes {
    if chunks == [] then [] else chunks[0] + Concat(chunks[1..])
  }

  lemma ReadFaithful(s: Session, chunk: bytes, done: seq<ClientItem>, isOpen: bool, p: Permissions, ok: Outcomes)
    requires !s.closed && Faithful(s, done, isOpen, p) && ValidParser(s.parser)
    requires NoClear(Feed(s.parser, chunk).items)
    ensures var s1 := Read(s, chunk, p, ok); var r := Feed(s.parser, chunk);
            Faithful(s1, done + r.items, isOpen, p)
            && (!s1.closed ==> s1.parser == r.state && s1.prefix == [] && s1.text == [])
  {
    BytesFaithful(s, chunk, done, isOpen, p, ok);
    FlushHands(TakeBytes(s, chunk, p, ok), ok);
  }

  lemma NoClearSplits(a: seq<ClientItem>, b: seq<ClientItem>)
    requires NoClear(a + b)
    ensures NoClear(a) && NoClear(b)
  {
    assert forall i | i in a :: i in a + b;
    assert forall i | i in b :: i in a + b;
  }

  // The items of a first read followed by the rest.
  lemma SplitReads(p0: ParserState, first: bytes, rest: bytes, done: seq<ClientItem>)
    requires ValidParser(p0) && NoClear(Feed(p0, first + rest).items)
    ensures var r := Feed(p0, first); var r' := Feed(r.state, rest);
            ValidParser(r.state) && NoClear(r.items) && NoClear(r'.items)
            && done + Feed(p0, first + rest).items == (done + r.items) + r'.items
  {
    hide Feed, ValidParser, NoClear;
    var r := Feed(p0, first);
    var r' := Feed(r.state, rest);
    FeedAppend(p0, first, rest);
    ParserConservesBytes(p0, first);
    NoClearSplits(r.items, r'.items);
    assert done + (r.items + r'.items) == (done + r.items) + r'.items;
  }

  lemma {:induction false} ReadsFaithful(s: Session, chunks: seq<bytes>, done: seq<ClientItem>, isOpen: bool,
                                         p: Permissions, ok: Outcomes)
    requires Faithful(s, done, isOpen, p) && ValidParser(s.parser)
    requires NoClear(Feed(s.parser, Concat(chunks)).items)
    requires !s.closed ==> s.prefix == [] && s.text == []
    ensures var s1 := Reads(s, chunks, p, ok);
            Faithful(s1, done + Feed(s.parser, Concat(chunks)).items, isOpen, p)
            && (!s1.closed ==> s1.prefix == [] && s1.text == [])
    decreases |chunks|
  {
    hide Faithful, Read, NoClear, ValidParser;
    if chunks == [] {
      assert done + Feed(s.parser, []).items == done;
    } else if s.closed {
      ClosedReads(s, chunks, p, ok);
      ClosedStaysFaithful(s, done, Feed(s.parser, Concat(chunks)).items, isOpen, p);
    } else {
      hide Feed;
      var first := Feed(s.parser, chunks[0]);
      var rest := Feed(first.state, Concat(chunks[1..]));
      SplitReads(s.parser, chunks[0], Concat(chunks[1..]), done);
      ReadFaithful(s, chunks[0], done, isOpen, p, ok);
      var s2 := Read(s, chunks[0], p, ok);
      if s2.closed {
        ClosedReads(s2, chunks[1..], p, ok);
        ClosedStaysFaithful(s2, done + first.items, rest.items, isOpen, p);
      } else {
        ReadsFaithful(s2, chunks[1..], done + first.items, isOpen, p, ok);
      }
    }
  }

  lemma {:induction false} ClosedReads(s: Session, chunks: seq<bytes>, p: Permissions, ok: Outcomes)
    requires s.closed
    ensures Reads(s, chunks, p, ok) == s
    decreases |chunks|
  {
    if chunks != [] {
      ClosedReads(s, chunks[1..], p, ok);
    }
  }

  // Authorised command and text bytes reach the broker in their original order, complete, however
  // the input is split into reads: what is forwarded is what is due while the session lives, and a
  // prefix of it if the session closes. (Clear Buffer discards on purpose and is excluded.)
  lemma ForwardsInOrder(chunks: seq<bytes>, p: Permissions, ok: Outcomes)
    requires NoClear(Feed(EMPTY, Concat(chunks)).items)
    ensures var s := Reads(FRESH, chunks, p, ok); var due := Due(Feed(EMPTY, Concat(chunks)).items, false, p);
            Forwarded(s.calls) <= due && (!s.closed ==> Forwarded(s.calls) == due)
  {
    var s := Reads(FRESH, chunks, p, ok);
    ReadsFaithful(FRESH, chunks, [], false, p, ok);
    assert [] + Feed(EMPTY, Concat(chunks)).items == Feed(EMPTY, Concat(chunks)).items;
    assert Forwarded(s.calls) <= Handed(s);
  }

  // ---- A register command between two pieces ----

  const ALLOWED := Permissions(true, true, true, true, true)

  lemma OneItem(s: Session, i: ClientItem, p: Permissions, ok: Outcomes)
    requires !s.closed
    ensures TakeItems(s, [i], p, ok) == TakeItem(s, i, p, ok)
  {
    hide TakeItem;
    assert [i][1..] == [];
    assert TakeItems(s, [i], p, ok) == TakeItems(TakeItem(s, i, p, ok), [], p, ok);
  }

  const OPENED: Session := FRESH.(isOpen := true)
  const TYPED: Session := OPENED.(text := [0x41])
  const CONFIGURED: Session := OPENED.(calls := [Stream([], [0x41]), Configuration([0x03, 0x32])])

  lemma OneLetter(s: Session, b: byte, ok: Outcomes)
    requires s.isOpen && s.parser == EMPTY && s.text == [] && !s.closed && b > 0x1f
    ensures TakeByte(s, b, ALLOWED, ok) == s.(text := [b])
  {
    OneItem(s, Data(b), ALLOWED, ok);
    assert [] + [b] == [b];
  }

  lemma OneRegisterCommand(ok: Outcomes)
    requires ok(0)
    ensures TakeItem(TYPED, Command([0x03, 0x32]), ALLOWED, ok) == CONFIGURED
  {
    assert [] + [Stream([], [0x41])] == [Stream([], [0x41])];
    assert CONFIGURED.calls == [Stream([], [0x41])] + [Configuration([0x03, 0x32])];
  }

  lemma TwoBytes(ok: Outcomes)
    requires ok(0)
    ensures TakeByte(TYPED, 0x03, ALLOWED, ok) == TYPED.(parser := ParserState([0x03], Some(2)))
    ensures TakeByte(TYPED.(parser := ParserState([0x03], Some(2))), 0x32, ALLOWED, ok) == CONFIGURED
  {
    hide TakeItem;
    OneRegisterCommand(ok);
    OneItem(TYPED, Command([0x03, 0x32]), ALLOWED, ok);
    assert PushByte(EMPTY, 0x03) == Pushed(ParserState([0x03], Some(2)), None);
    assert [0x03] + [0x32] == [0x03, 0x32];
    assert PushByte(ParserState([0x03], Some(2)), 0x32) == Pushed(EMPTY, Some(Command([0x03, 0x32])));
  }

  // One read of an open session can submit a piece, store a register command, and submit another
  // piece: three calls in this order.
  lemma ConfigurationBetweenPieces(ok: Outcomes)
    requires ok(0)
    ensures Read(OPENED, [0x41, 0x03, 0x32, 0x42], ALLOWED, ok).calls
         == [Stream([], [0x41]), Configuration([0x03, 0x32]), Stream([], [0x42])]
  {
    hide TakeByte, TakeBytes;
    var done := CONFIGURED.(text := [0x42]);
    var held := TYPED.(parser := ParserState([0x03], Some(2)));
    OneLetter(OPENED, 0x41, ok);
    OneByteOf(OPENED, 0x41, [0x03, 0x32, 0x42], TYPED, ok);
    TwoBytes(ok);
    OneByteOf(TYPED, 0x03, [0x32, 0x42], held, ok);
    OneByteOf(held, 0x32, [0x42], CONFIGURED, ok);
    OneLetter(CONFIGURED, 0x42, ok);
    OneByteOf(CONFIGURED, 0x42, [], done, ok);
    NoBytes(done, ok);
    assert [0x41] + [0x03, 0x32, 0x42] == [0x41, 0x03, 0x32, 0x42];
    assert [0x03] + [0x32, 0x42] == [0x03, 0x32, 0x42] && [0x32] + [0x42] == [0x32, 0x42] && [0x42] + [] == [0x42];
    assert done.calls + [Stream([], [0x42])] == [Stream([], [0x41]), Configuration([0x03, 0x32]), Stream([], [0x42])];
  }

  lemma OneByteOf(s: Session, b: byte, rest: bytes, s1: Session, ok: Outcomes)
    requires !s.closed && TakeByte(s, b, ALLOWED, ok) == s1
    ensures TakeBytes(s, [b] + rest, ALLOWED, ok) == TakeBytes(s1, rest, ALLOWED, ok)
  {
    assert ([b] + rest)[1..] == rest;
    hide TakeByte;
  }

  lemma NoBytes(s: Session, ok: Outcomes)
    ensures TakeBytes(s, [], ALLOWED, ok) == s
  {
  }
}
