// WinKeyer host-protocol framing: the incremental command parser, the command policy and the
// classification of device bytes.

module WinkeyerProtocol {
  import opened Common

  const MAX_COMMAND_LEN: nat := 258

  datatype ClientItem =
    | Data(data: byte)
    | Command(command: bytes)

  function InitialCommandLen(opcode: byte): Option<nat> {
    if opcode <= 0x03 || opcode == 0x06 || opcode == 0x09 || 0x0b <= opcode <= 0x0e
       || 0x10 <= opcode <= 0x12 || opcode == 0x14 || 0x16 <= opcode <= 0x1a
       || 0x1c <= opcode <= 0x1d then Some(2)
    else if opcode == 0x04 || opcode == 0x1b then Some(3)
    else if opcode == 0x05 then Some(4)
    else if 0x07 <= opcode <= 0x08 || opcode == 0x0a || opcode == 0x13 || opcode == 0x15
            || 0x1e <= opcode <= 0x1f then Some(1)
    else if opcode == 0x0f then Some(16)
    else None
  }

  function AdminCommandLen(subcommand: byte): nat {
    if subcommand == 0x00 || subcommand == 0x04 || 0x0e <= subcommand <= 0x0f
       || subcommand == 0x16 || subcommand == 0x19 then 3
    else if subcommand == 0x0d then 258
    else if subcommand == 0x13 then 4
    else 2
  }

  // ---- The parser as a state machine on values ----

  datatype ParserState = ParserState(command: bytes, expectedLen: Option<nat>)

  const EMPTY := ParserState([], None)

  // The refined expectation once the second byte of an Admin or Pointer command is known.
  function RefineVariableLength(p: ParserState): ParserState
    requires p.command != []
  {
    if p.command[0] == 0x00 && |p.command| == 2 then
      p.(expectedLen := Some(if p.command[1] == 0x1c then 3 else AdminCommandLen(p.command[1])))
    else if p.command[0] == 0x16 && |p.command| == 2 && 0x01 <= p.command[1] <= 0x03 then
      p.(expectedLen := Some(3))
    else p
  }

  datatype Pushed = Pushed(state: ParserState, item: Option<ClientItem>)

  function PushByte(p: ParserState, b: byte): Pushed {
    if p.command == [] && b > 0x1f then
      Pushed(p, Some(Data(b)))
    else
      var q := if p.command == [] then ParserState([b], InitialCommandLen(b))
               else RefineVariableLength(p.(command := p.command + [b]));
      if q.expectedLen == Some(|q.command|) then Pushed(EMPTY, Some(Command(q.command)))
      else Pushed(q, None)
  }

  datatype Parsed = Parsed(state: ParserState, items: seq<ClientItem>)

  function ItemsOf(o: Option<ClientItem>): seq<ClientItem> {
    match o case None => [] case Some(i) => [i]
  }

  // Feed a whole byte string.
  function Feed(p: ParserState, input: bytes): Parsed
    decreases |input|
  {
    if input == [] then Parsed(p, []) else
      var first := PushByte(p, input[0]);
      var rest := Feed(first.state, input[1..]);
      Parsed(rest.state, ItemsOf(first.item) + rest.items)
  }

  // ---- The grammar as a declaration ----

  // The total length a command has, as far as its first one or two bytes decide it.
  function KnownLen(command: bytes): nat
    requires command != [] && command[0] <= 0x1f
  {
    if |command| >= 2 && command[0] == 0x00 then
      (if command[1] == 0x1c then 3 else AdminCommandLen(command[1]))
    else if |command| >= 2 && command[0] == 0x16 && 0x01 <= command[1] <= 0x03 then 3
    else InitialCommandLen(command[0]).value
  }

  ghost predicate WellFormedCommand(c: bytes) {
    c != [] && c[0] <= 0x1f && |c| == KnownLen(c)
  }

  ghost predicate WellFormed(i: ClientItem) {
    match i
    case Data(b) => b > 0x1f
    case Command(c) => WellFormedCommand(c)
  }

  ghost predicate AllWellFormed(items: seq<ClientItem>) {
    forall i | i in items :: WellFormed(i)
  }

  function ItemBytes(i: ClientItem): bytes {
    match i case Data(b) => [b] case Command(c) => c
  }

  function Flatten(items: seq<ClientItem>): bytes {
    if items == [] then [] else ItemBytes(items[0]) + Flatten(items[1..])
  }

  // A reachable parser state: at an item boundary, or strictly inside a bounded command.
  ghost predicate ValidParser(p: ParserState) {
    p == EMPTY
    || (p.command != [] && p.command[0] <= 0x1f
        && p.expectedLen == Some(KnownLen(p.command))
        && |p.command| < KnownLen(p.command) <= MAX_COMMAND_LEN)
  }

  lemma PushStep(p: ParserState, b: byte)
    requires ValidParser(p)
    ensures var r := PushByte(p, b);
            ValidParser(r.state)
            && AllWellFormed(ItemsOf(r.item))
            && p.command + [b] == Flatten(ItemsOf(r.item)) + r.state.command
  {
    var r := PushByte(p, b);
    if r.item.Some? {
      assert Flatten([r.item.value]) == ItemBytes(r.item.value);
    }
  }

  lemma {:induction false} FlattenAppend(a: seq<ClientItem>, b: seq<ClientItem>)
    ensures Flatten(a + b) == Flatten(a) + Flatten(b)
  {
    if a == [] {
      assert a + b == b;
    } else {
      assert (a + b)[1..] == a[1..] + b;
      FlattenAppend(a[1..], b);
    }
  }

  lemma Regroup(held: bytes, input: bytes, a: bytes, held': bytes, b: bytes, held'': bytes)
    requires input != []
    requires held + [input[0]] == a + held'
    requires held' + input[1..] == b + held''
    ensures held + input == (a + b) + held''
  {
    assert held + input == (held + [input[0]]) + input[1..];
    assert (a + held') + input[1..] == a + (held' + input[1..]);
    assert a + (b + held'') == (a + b) + held'';
  }

  // Nothing is lost, reordered or invented: what came out, flattened, followed by the partial
  // command, is exactly what went in; every item is well formed; a partial command is always
  // strictly shorter than its known, bounded length.
  lemma {:induction false} ParserConservesBytes(p: ParserState, input: bytes)
    requires ValidParser(p)
    ensures var r := Feed(p, input);
            p.command + input == Flatten(r.items) + r.state.command
            && AllWellFormed(r.items)
            && ValidParser(r.state)
    decreases |input|
  {
    if input == [] {
      assert p.command + input == p.command;
    } else {
      var first := PushByte(p, input[0]);
      var rest := Feed(first.state, input[1..]);
      PushStep(p, input[0]);
      ParserConservesBytes(first.state, input[1..]);
      FlattenAppend(ItemsOf(first.item), rest.items);
      Regroup(p.command, input, Flatten(ItemsOf(first.item)), first.state.command,
              Flatten(rest.items), rest.state.command);
    }
  }

  // However the bytes are split into reads, the same items come out.
  lemma {:induction false} FeedAppend(p: ParserState, a: bytes, b: bytes)
    ensures var first := Feed(p, a);
            var second := Feed(first.state, b);
            Feed(p, a + b) == Parsed(second.state, first.items + second.items)
    decreases |a|
  {
    if a == [] {
      assert a + b == b;
    } else {
      assert (a + b)[1..] == a[1..] + b;
      var r := PushByte(p, a[0]);
      FeedAppend(r.state, a[1..], b);
      assert ItemsOf(r.item) + (Feed(r.state, a[1..]).items + Feed(Feed(r.state, a[1..]).state, b).items)
          == (ItemsOf(r.item) + Feed(r.state, a[1..]).items) + Feed(Feed(r.state, a[1..]).state, b).items;
    }
  }

  lemma {:induction false} FeedInsideCommand(c: bytes, k: nat)
    requires WellFormedCommand(c) && 1 <= k < |c|
    ensures Feed(ParserState(c[..k], Some(KnownLen(c[..k]))), c[k..]) == Parsed(EMPTY, [Command(c)])
    decreases |c| - k
  {
    var p := ParserState(c[..k], Some(KnownLen(c[..k])));
    assert c[..k] + [c[k]] == c[..k + 1];
    assert c[k..][1..] == c[k + 1..];
    if k + 1 < |c| {
      assert PushByte(p, c[k]) == Pushed(ParserState(c[..k + 1], Some(KnownLen(c[..k + 1]))), None);
      FeedInsideCommand(c, k + 1);
    } else {
      assert c[..k + 1] == c;
      assert PushByte(p, c[k]) == Pushed(EMPTY, Some(Command(c)));
      assert Feed(EMPTY, c[k + 1..]) == Parsed(EMPTY, []);
    }
  }

  lemma FeedOneItem(i: ClientItem)
    requires WellFormed(i)
    ensures Feed(EMPTY, ItemBytes(i)) == Parsed(EMPTY, [i])
  {
    var input := ItemBytes(i);
    var r := PushByte(EMPTY, input[0]);
    if |input| == 1 {
      assert input == [input[0]];
      assert Feed(r.state, input[1..]) == Parsed(r.state, []);
    } else {
      assert i.command[..1] == [i.command[0]];
      assert r == Pushed(ParserState(i.command[..1], Some(KnownLen(i.command[..1]))), None);
      FeedInsideCommand(i.command, 1);
    }
  }

  // Parsing inverts flattening, so the grammar is uniquely decodable.
  lemma {:induction false} ParseInvertsFlatten(items: seq<ClientItem>)
    requires AllWellFormed(items)
    ensures Feed(EMPTY, Flatten(items)) == Parsed(EMPTY, items)
  {
    if items != [] {
      FeedOneItem(items[0]);
      ParseInvertsFlatten(items[1..]);
      FeedAppend(EMPTY, ItemBytes(items[0]), Flatten(items[1..]));
      assert [items[0]] + items[1..] == items;
    }
  }

  // ---- How many parameters each command takes ----

  // Opcode by opcode.
  const PARAMETERS: seq<nat> :=
    [1, 1, 1, 1, 2, 3, 1, 0, 0, 1, 0, 1, 1, 1, 1, 15, 1, 1, 1, 0, 1, 0, 1, 1, 1, 1, 1, 2, 1, 1, 0, 0]

  // Behind the subcommand of an Admin command.
  function AdminParameters(sub: byte): nat {
    match sub
    case 0x00 => 1
    case 0x04 => 1
    case 0x0d => 256
    case 0x0e => 1
    case 0x0f => 1
    case 0x13 => 2
    case 0x16 => 1
    case 0x19 => 1
    case 0x1c => 1
    case _ => 0
  }

  // A command is complete after exactly the parameters of its opcode, an Admin command after those of
  // its subcommand, and a Pointer command that moves or adds after one more; whatever follows it is
  // read afresh. A byte above 0x1f outside a command is text.
  lemma CommandsTakeTheirParameters(opcode: byte, params: bytes, rest: bytes)
    requires opcode <= 0x1f && params != []
    requires |params| == if opcode == 0x00 then 1 + AdminParameters(params[0])
                         else if opcode == 0x16 && 1 <= params[0] <= 3 then 2 else PARAMETERS[opcode]
    ensures Feed(EMPTY, [opcode] + params + rest)
         == var r := Feed(EMPTY, rest); Parsed(r.state, [Command([opcode] + params)] + r.items)
  {
    var c := [opcode] + params;
    assert |c| == KnownLen(c);
    FeedOneItem(Command(c));
    FeedAppend(EMPTY, c, rest);
  }

  lemma SingleBytesAreItems(b: byte, rest: bytes)
    requires b > 0x1f || PARAMETERS[b] == 0
    ensures Feed(EMPTY, [b] + rest)
         == var r := Feed(EMPTY, rest); Parsed(r.state, [if b > 0x1f then Data(b) else Command([b])] + r.items)
  {
    var i := if b > 0x1f then Data(b) else Command([b]);
    assert WellFormed(i);
    FeedOneItem(i);
    FeedAppend(EMPTY, [b], rest);
  }

  // ---- The parser object ----

  class ClientParser {
    var command: bytes
    var expectedLen: Option<nat>

    function State(): ParserState
      reads this
    {
      ParserState(command, expectedLen)
    }

    constructor ()
      ensures State() == EMPTY
    {
      command := [];
      expectedLen := None;
    }

    method Push(b: byte) returns (item: Option<ClientItem>)
      requires ValidParser(State())
      modifies this
      ensures Pushed(State(), item) == PushByte(old(State()), b)
      ensures ValidParser(State())
    {
      ghost var before := State();
      PushStep(before, b);
      if command == [] {
        if b > 0x1f {
          return Some(Data(b));
        }
        command := command + [b];
        assert command == [b];
        expectedLen := InitialCommandLen(b);
      } else {
        command := command + [b];
        assert State() == before.(command := before.command + [b]);
        RefineLength();
      }
      if expectedLen == Some(|command|) {
        expectedLen := None;
        item := Some(Command(command));
        command := [];
        return;
      }
      item := None;
    }

    method RefineLength()
      requires command != []
      modifies this`expectedLen
      ensures State() == RefineVariableLength(old(State()))
    {
      var opcode := command[0];
      if opcode == 0x00 && |command| == 2 {
        var admin := command[1];
        expectedLen := Some(if admin == 0x1c then 3 else AdminCommandLen(admin));
      } else if opcode == 0x16 && |command| == 2 {
        if 0x01 <= command[1] <= 0x03 {
          expectedLen := Some(3);
        }
      }
    }

    method Reset()
      modifies this
      ensures State() == EMPTY
    {
      command := [];
      expectedLen := None;
    }

    predicate IsPartial()
      reads this
    {
      command != []
    }
  }

  // ---- Device bytes ----

  datatype DeviceStatus = DeviceStatus(
    raw: byte, waiting: bool, keyDown: bool, busy: bool, breakIn: bool, xoff: bool)

  function StatusFromByte(raw: byte): DeviceStatus {
    DeviceStatus(raw, raw / 16 % 2 == 1, raw / 8 % 2 == 1, raw / 4 % 2 == 1, raw / 2 % 2 == 1,
                 raw % 2 == 1)
  }

  datatype DeviceEvent =
    | SpeedPot(value: byte)
    | Status(status: DeviceStatus)
    | Echo(echoed: byte)

  // The two top bits tag the byte: 10 speed pot, 11 status, anything else an echo.
  function ClassifyByte(b: byte): DeviceEvent {
    if 0x80 <= b < 0xc0 then SpeedPot(b - 0x80)
    else if b >= 0xc0 then Status(StatusFromByte(b))
    else Echo(b)
  }

  // ---- Command policy ----

  datatype CommandPolicy = Virtualized | Transient | ActiveOwner | Maintenance

  function Policy(command: bytes): CommandPolicy {
    if command == [] then Maintenance
    else if command[0] == 0x00 then
      if |command| >= 2 && (0x02 <= command[1] <= 0x07 || 0x09 <= command[1] <= 0x0b
                            || 0x14 <= command[1] <= 0x15 || 0x17 <= command[1] <= 0x18)
      then Virtualized else Maintenance
    else if 0x0a <= command[0] <= 0x0b || command[0] == 0x14 || command[0] == 0x16
            || 0x18 <= command[0] <= 0x1a then ActiveOwner
    else Transient
  }
}
