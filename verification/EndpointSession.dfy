// The endpoint's session loop, byte by byte, proved against the session model.

module EndpointSession {
  import opened Common
  import opened WinkeyerProtocol
  import opened BrokerModel
  import opened WinkeyerEndpoint

  class Endpoint {
    const permissions: Permissions
    const outcomes: Outcomes
    const parser: ClientParser
    var isOpen: bool
    var maintenance: bool
    var calls: seq<Call>
    var closed: bool

    ghost function State(prefix: bytes, text: bytes): Session
      reads this, parser
    {
      Session(parser.State(), isOpen, maintenance, prefix, text, calls, closed)
    }

    ghost predicate Valid()
      reads this, parser
    {
      !closed ==> ValidParser(parser.State())
    }

    constructor (p: Permissions, ok: Outcomes)
      ensures Valid() && State([], []) == FRESH && permissions == p && outcomes == ok
      ensures fresh(parser)
    {
      permissions := p;
      outcomes := ok;
      isOpen := false;
      maintenance := false;
      calls := [];
      closed := false;
      parser := new ClientParser();
    }

    // A broker request or an answer byte; its failure is remembered by the caller.
    method Make(c: Call) returns (ok: bool)
      modifies this`calls
      ensures calls == old(calls) + [c] && ok == outcomes(|old(calls)|)
    {
      ok := outcomes(|calls|);
      calls := calls + [c];
    }

    method FlushStream(prefix: bytes, text: bytes)
      modifies this`calls, this`closed
      ensures State([], []) == Flush(old(State(prefix, text)), outcomes)
    {
      if prefix == [] && text == [] {
        return;
      }
      var ok := Make(Stream(prefix, text));
      closed := !ok;
    }

    method HandleMaintenance(c: bytes)
      requires !closed
      modifies this`calls, this`closed, this`maintenance
      ensures State([], []) == AttemptMaintenance(old(State([], [])), c, permissions, outcomes)
    {
      if !permissions.configWrite {
        closed := true;
        return;
      }
      var ok := Make(MaintenanceCall(c));
      if !ok {
        closed := true;
        return;
      }
      maintenance := true;
    }

    method Respond()
      requires !closed
      modifies this`calls, this`closed
      ensures State([], []) == Vital(old(State([], [])), Answer, outcomes)
    {
      var ok := Make(Answer);
      closed := !ok;
    }

    method HandleAdminCommand(c: bytes)
      requires !closed
      modifies this`calls, this`closed, this`maintenance, this`isOpen
      ensures State([], []) == HandleAdmin(old(State([], [])), c, permissions, outcomes)
    {
      if |c| < 2 {
        return;
      }
      var sub := c[1];
      if sub == 0x02 && permissions.status {
        isOpen := true;
        Respond();
      } else if sub == 0x03 {
        isOpen := false;
        var _ := Make(ReleaseMaintenance);
        maintenance := false;
      } else if sub == 0x04 && permissions.status {
        if |c| > 2 {
          Respond();
        }
      } else if (0x05 <= sub <= 0x07 || sub == 0x15 || 0x17 <= sub <= 0x18) && permissions.status {
        Respond();
      } else if sub == 0x09 && permissions.status {
        Respond();
      } else if (sub == 0x0a || sub == 0x0b || sub == 0x14) && permissions.control {
        return;
      } else if (sub == 0x0f || sub == 0x13 || sub == 0x16 || sub == 0x19) && permissions.control {
        var _ := Make(Configuration(c));
      } else {
        HandleMaintenance(c);
      }
    }

    method HandleOneCommand(c: bytes)
      requires !closed
      modifies this`calls, this`closed, this`maintenance, this`isOpen
      ensures State([], []) == HandleCommand(old(State([], [])), c, permissions, outcomes)
    {
      hide HandleAdmin, AttemptMaintenance;
      if c != [] && c[0] == 0x00 {
        HandleAdminCommand(c);
        return;
      }
      if !isOpen || c == [] {
        return;
      }
      if c[0] == 0x02 && permissions.control {
        var speed := if |c| > 1 then ParseSpeed(c[1]) else None;
        if speed.Some? {
          var _ := Make(ChooseSpeed(speed.value));
        }
      } else if (c[0] == 0x07 || c[0] == 0x15) && permissions.status {
        Respond();
      } else {
        match Policy(c) {
          case Transient =>
            if permissions.control { var _ := Make(Configuration(c)); }
          case ActiveOwner =>
            if permissions.control && (c[0] != 0x0b || permissions.ptt) { var _ := Make(Owner(c)); }
          case Maintenance =>
            // Only Admin commands need maintenance, and they have left above.
            assert false;
          case Virtualized =>
        }
      }
    }

    // One parsed item; the pending prefix and text live as long as one read.
    method HandleItem(i: ClientItem, prefix: bytes, text: bytes) returns (prefix': bytes, text': bytes)
      requires !closed
      modifies this`calls, this`closed, this`maintenance, this`isOpen
      ensures var s := TakeItem(old(State(prefix, text)), i, permissions, outcomes);
              State(s.prefix, s.text) == s && (!closed ==> prefix' == s.prefix && text' == s.text)
    {
      hide HandleCommand;
      prefix', text' := prefix, text;
      match i {
        case Data(b) =>
          if isOpen && permissions.send {
            text' := text + [b];
          }
        case Command(c) =>
          if c != [] && c[0] == 0x0a {
            prefix', text' := [], [];
            if permissions.send {
              var _ := Make(CancelAll);
            }
          } else if IsBuffered(c) {
            if isOpen && permissions.send && BufferedAllowed(c, permissions) {
              if text != [] {
                FlushStream(prefix, text);
                if closed { return; }
                prefix', text' := [], [];
              }
              prefix' := prefix' + c;
            }
          } else {
            FlushStream(prefix, text);
            if closed { return; }
            prefix', text' := [], [];
            HandleOneCommand(c);
            CommandKeepsPending(old(State(prefix, text)), c, permissions, outcomes);
          }
      }
    }

    // One successful read of the serial port.
    method ReadChunk(chunk: bytes)
      requires Valid() && !closed
      modifies this, parser
      ensures var s := Read(old(State([], [])), chunk, permissions, outcomes);
              State(s.prefix, s.text).(parser := s.parser) == s && (!closed ==> parser.State() == s.parser)
      ensures Valid()
    {
      var prefix: bytes, text: bytes := [], [];
      ghost var first := State([], []);
      ghost var seen: Session := first;
      var k := 0;
      while k < |chunk|
        invariant 0 <= k <= |chunk| && !closed && Valid()
        invariant State(prefix, text) == seen
        invariant TakeBytes(seen, chunk[k..], permissions, outcomes) == TakeBytes(first, chunk, permissions, outcomes)
      {
        hide TakeItem, PushByte, Flush;
        assert chunk[k..][0] == chunk[k] && chunk[k..][1..] == chunk[k + 1..];
        ghost var r := PushByte(parser.State(), chunk[k]);
        ghost var s0 := seen.(parser := r.state);
        var item := parser.Push(chunk[k]);
        k := k + 1;
        if item.Some? {
          OneItem(s0, item.value, permissions, outcomes);
          seen := TakeItem(s0, item.value, permissions, outcomes);
          prefix, text := HandleItem(item.value, prefix, text);
          if closed {
            ClosedBytes(seen, chunk[k..], permissions, outcomes);
            return;
          }
        } else {
          seen := s0;
        }
      }
      FlushStream(prefix, text);
    }

    // The reads of a session until it closes. Whatever the split, the broker has been handed what
    // the client is entitled to, in order: all of it while the session lives, a prefix of it once
    // it has closed.
    method Serve(chunks: seq<bytes>)
      requires State([], []) == FRESH
      modifies this, parser
      ensures var s := Reads(FRESH, chunks, permissions, outcomes);
              calls == s.calls && closed == s.closed && (!closed ==> State([], []) == s)
      ensures NoClear(Feed(EMPTY, Concat(chunks)).items) ==>
                var due := Due(Feed(EMPTY, Concat(chunks)).items, false, permissions);
                Forwarded(calls) <= due && (!closed ==> Forwarded(calls) == due)
    {
      hide Read, TakeBytes, NoClear, Due, Forwarded, Feed, Concat;
      ghost var seen := FRESH;
      var k := 0;
      while k < |chunks| && !closed
        invariant 0 <= k <= |chunks| && Valid()
        invariant calls == seen.calls && closed == seen.closed && (!closed ==> State([], []) == seen)
        invariant Reads(seen, chunks[k..], permissions, outcomes) == Reads(FRESH, chunks, permissions, outcomes)
      {
        assert chunks[k..][0] == chunks[k] && chunks[k..][1..] == chunks[k + 1..];
        seen := Read(seen, chunks[k], permissions, outcomes);
        ReadLeavesNothingPending(State([], []), chunks[k], permissions, outcomes);
        ReadChunk(chunks[k]);
        k := k + 1;
      }
      if closed {
        ClosedReads(seen, chunks[k..], permissions, outcomes);
      }
      if NoClear(Feed(EMPTY, Concat(chunks)).items) {
        ForwardsInOrder(chunks, permissions, outcomes);
      }
    }
  }

  lemma ReadLeavesNothingPending(s: Session, chunk: bytes, p: Permissions, ok: Outcomes)
    requires !s.closed
    ensures var s1 := Read(s, chunk, p, ok); !s1.closed ==> s1.prefix == [] && s1.text == []
  {
    hide TakeBytes;
  }

  lemma ClosedBytes(s: Session, input: bytes, p: Permissions, ok: Outcomes)
    requires s.closed
    ensures TakeBytes(s, input, p, ok) == s
  {
  }

  // Commands that are not buffered leave nothing pending.
  lemma CommandKeepsPending(s: Session, c: bytes, p: Permissions, ok: Outcomes)
    ensures var f := Flush(s, ok); var s1 := HandleCommand(f, c, p, ok);
            f.prefix == [] && f.text == [] && s1.prefix == [] && s1.text == []
  {
  }
}
