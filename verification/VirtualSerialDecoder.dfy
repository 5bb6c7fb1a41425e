// The incremental frame decoder over an arbitrarily split byte stream.

module VirtualSerialDecoder {
  import opened Common
  import opened VirtualSerialProtocol
  import opened VirtualSerialCodec

  // What one request for a frame leaves buffered and returns.
  datatype Taken = Taken(rest: bytes, result: Result<Option<Frame>, ProtocolError>)

  function TakeFrame(buffer: bytes): Taken {
    if |buffer| < HEADER_LEN then Taken(buffer, Ok(None))
    else if buffer[0..4] != MAGIC then Taken(buffer, Err(BadMagic))
    else
      var headerLen := ReadU16(buffer, 4);
      if headerLen != HEADER_LEN then Taken(buffer, Err(UnsupportedHeader(headerLen)))
      else
        var total := HEADER_LEN + ReadU32(buffer, 16);
        if total > ABSOLUTE_MAX_FRAME_LEN then Taken(buffer, Err(FrameTooLarge(total)))
        else if |buffer| < total then Taken(buffer, Ok(None))
        else
          var frame := Decode(buffer[..total]);
          Taken(buffer[total..], if frame.Err? then Err(frame.error) else Ok(Some(frame.value)))
  }

  class FrameDecoder {
    var buffer: bytes

    constructor ()
      ensures buffer == []
    {
      buffer := [];
    }

    method Push(input: bytes)
      modifies this
      ensures buffer == old(buffer) + input
    {
      buffer := buffer + input;
    }

    method NextFrame() returns (result: Result<Option<Frame>, ProtocolError>)
      modifies this
      ensures Taken(buffer, result) == TakeFrame(old(buffer))
    {
      if |buffer| < HEADER_LEN {
        return Ok(None);
      }
      if buffer[0..4] != MAGIC {
        return Err(BadMagic);
      }
      var headerLen := ReadU16(buffer, 4);
      if headerLen != HEADER_LEN {
        return Err(UnsupportedHeader(headerLen));
      }
      var total := HEADER_LEN + ReadU32(buffer, 16);
      if total > ABSOLUTE_MAX_FRAME_LEN {
        return Err(FrameTooLarge(total));
      }
      if |buffer| < total {
        return Ok(None);
      }
      var input := buffer[..total];
      buffer := buffer[total..];
      var frame := Decode(input);
      return if frame.Err? then Err(frame.error) else Ok(Some(frame.value));
    }

    function BufferedLen(): nat
      reads this
    {
      |buffer|
    }
  }

  // ---- Schedules of pushes and requests ----

  datatype Op = Push(input: bytes) | Next

  datatype Stream = Stream(buffer: bytes, results: seq<Result<Frame, ProtocolError>>)

  function Returned(r: Result<Option<Frame>, ProtocolError>): seq<Result<Frame, ProtocolError>> {
    match r
    case Ok(None) => []
    case Ok(Some(f)) => [Ok(f)]
    case Err(e) => [Err(e)]
  }

  function Run(buffer: bytes, ops: seq<Op>): Stream
    decreases |ops|
  {
    if ops == [] then Stream(buffer, [])
    else match ops[0]
      case Push(input) => Run(buffer + input, ops[1..])
      case Next =>
        var t := TakeFrame(buffer);
        var later := Run(t.rest, ops[1..]);
        Stream(later.buffer, Returned(t.result) + later.results)
  }

  function Pushed(ops: seq<Op>): bytes
    decreases |ops|
  {
    if ops == [] then [] else (if ops[0].Push? then ops[0].input else []) + Pushed(ops[1..])
  }

  function Joined(raws: seq<bytes>): bytes
    decreases |raws|
  {
    if raws == [] then [] else raws[0] + Joined(raws[1..])
  }

  // A byte string whose header delimits it; its message number and body may be anything.
  ghost predicate Framed(raw: bytes) {
    && |raw| >= HEADER_LEN && raw[0..4] == MAGIC && ReadU16(raw, 4) == HEADER_LEN
    && |raw| == HEADER_LEN + ReadU32(raw, 16) <= ABSOLUTE_MAX_FRAME_LEN
  }

  ghost predicate AllFramed(raws: seq<bytes>) {
    forall raw | raw in raws :: Framed(raw)
  }

  function Decoded(raws: seq<bytes>): seq<Result<Frame, ProtocolError>>
    decreases |raws|
  {
    if raws == [] then [] else [Decode(raws[0])] + Decoded(raws[1..])
  }

  lemma SameHeader(buffer: bytes, raw: bytes)
    requires |buffer| >= HEADER_LEN && |raw| >= HEADER_LEN && buffer[..HEADER_LEN] == raw[..HEADER_LEN]
    ensures buffer[0..4] == raw[0..4] && ReadU16(buffer, 4) == ReadU16(raw, 4) && ReadU32(buffer, 16) == ReadU32(raw, 16)
  {
    assert buffer[0..4] == buffer[..HEADER_LEN][0..4] == raw[0..4];
    assert buffer[4..6] == buffer[..HEADER_LEN][4..6] == raw[4..6];
    assert buffer[16..20] == buffer[..HEADER_LEN][16..20] == raw[16..20];
  }

  // With part of a well-framed stream buffered, a request waits for the whole next string and
  // then consumes exactly it, whether or not its body is acceptable.
  lemma NextTakesOneString(buffer: bytes, raw: bytes, later: bytes)
    requires Framed(raw) && buffer <= raw + later
    ensures |buffer| < |raw| ==> TakeFrame(buffer) == Taken(buffer, Ok(None))
    ensures |buffer| >= |raw| ==>
              TakeFrame(buffer).rest == buffer[|raw|..] && buffer[..|raw|] == raw
              && Returned(TakeFrame(buffer).result) == [Decode(raw)]
  {
    hide Decode, ReadU16, ReadU32;
    if |buffer| >= HEADER_LEN {
      assert buffer[..HEADER_LEN] == (raw + later)[..HEADER_LEN] == raw[..HEADER_LEN];
      SameHeader(buffer, raw);
      if |buffer| >= |raw| {
        assert buffer[..|raw|] == (raw + later)[..|raw|] == raw;
      }
    }
  }

  lemma {:induction false} RunReturnsDecodedPrefix(buffer: bytes, ops: seq<Op>, raws: seq<bytes>)
    requires AllFramed(raws) && buffer + Pushed(ops) <= Joined(raws)
    ensures var r := Run(buffer, ops); var k := |r.results|;
            k <= |raws| && r.results == Decoded(raws[..k])
            && buffer + Pushed(ops) == Joined(raws[..k]) + r.buffer
    decreases |ops|
  {
    hide TakeFrame, Decode, Framed;
    if ops == [] {
      assert raws[..0] == [];
      assert Joined(raws[..0]) + buffer == buffer + Pushed(ops);
    } else if ops[0].Push? {
      assert (buffer + ops[0].input) + Pushed(ops[1..]) == buffer + Pushed(ops);
      RunReturnsDecodedPrefix(buffer + ops[0].input, ops[1..], raws);
    } else {
      assert Pushed(ops) == Pushed(ops[1..]);
      if raws == [] {
        assert buffer == [];
        NothingBuffered();
        RunReturnsDecodedPrefix([], ops[1..], raws);
        assert Run(buffer, ops).results == [] + Run([], ops[1..]).results;
      } else {
        NextStep(buffer, ops, raws);
      }
    }
  }

  lemma NothingBuffered()
    ensures TakeFrame([]) == Taken([], Ok(None))
  {
  }

  // One string taken in front of a run over the strings behind it.
  lemma TakenStep(buffer: bytes, raw: bytes, rest: bytes, later: seq<bytes>, ops: seq<Op>)
    requires ops != [] && ops[0].Next? && buffer == raw + rest
    requires TakeFrame(buffer).rest == rest && Returned(TakeFrame(buffer).result) == [Decode(raw)]
    requires var r := Run(rest, ops[1..]); var k := |r.results|;
             k <= |later| && r.results == Decoded(later[..k])
             && rest + Pushed(ops[1..]) == Joined(later[..k]) + r.buffer
    ensures var raws := [raw] + later; var r := Run(buffer, ops); var k := |r.results|;
            k <= |raws| && r.results == Decoded(raws[..k])
            && buffer + Pushed(ops[1..]) == Joined(raws[..k]) + r.buffer
  {
    hide TakeFrame, Decode, Pushed;
    var r := Run(rest, ops[1..]);
    var k := |r.results|;
    var raws := [raw] + later;
    assert Run(buffer, ops) == Stream(r.buffer, [Decode(raw)] + r.results);
    assert raws[..k + 1][0] == raw && raws[..k + 1][1..] == later[..k];
    hide Run;
    assert (raw + rest) + Pushed(ops[1..]) == raw + (rest + Pushed(ops[1..]));
    assert raw + (Joined(later[..k]) + r.buffer) == (raw + Joined(later[..k])) + r.buffer;
  }

  // Removing the first string from a prefix of a stream.
  lemma Behind(buffer: bytes, more: bytes, raw: bytes, later: bytes)
    requires buffer + more <= raw + later
    ensures buffer <= raw + later
    ensures |buffer| >= |raw| ==> buffer == raw + buffer[|raw|..] && buffer[|raw|..] + more <= later
  {
    assert buffer == (buffer + more)[..|buffer|];
    if |buffer| >= |raw| {
      assert buffer[..|raw|] == (raw + later)[..|raw|] == raw;
      assert buffer[|raw|..] + more == (buffer + more)[|raw|..];
      assert later == (raw + later)[|raw|..];
    }
  }

  lemma FirstFramed(raws: seq<bytes>)
    requires raws != [] && AllFramed(raws)
    ensures Framed(raws[0]) && AllFramed(raws[1..]) && raws == [raws[0]] + raws[1..]
  {
    assert raws[0] in raws && forall x | x in raws[1..] :: x in raws;
  }

  lemma {:induction false} NextStep(buffer: bytes, ops: seq<Op>, raws: seq<bytes>)
    requires ops != [] && ops[0].Next? && raws != []
    requires AllFramed(raws) && buffer + Pushed(ops[1..]) <= Joined(raws)
    ensures var r := Run(buffer, ops); var k := |r.results|;
            k <= |raws| && r.results == Decoded(raws[..k])
            && buffer + Pushed(ops[1..]) == Joined(raws[..k]) + r.buffer
    decreases |ops|, 0
  {
    hide TakeFrame, Decode, Framed, AllFramed, Pushed, Decoded, Returned;
    var raw := raws[0];
    var later := raws[1..];
    FirstFramed(raws);
    Behind(buffer, Pushed(ops[1..]), raw, Joined(later));
    NextTakesOneString(buffer, raw, Joined(later));
    if |buffer| < |raw| {
      RunReturnsDecodedPrefix(buffer, ops[1..], raws);
      WaitingStep(buffer, ops);
    } else {
      hide Run, Joined;
      RunReturnsDecodedPrefix(buffer[|raw|..], ops[1..], later);
      TakenStep(buffer, raw, buffer[|raw|..], later, ops);
    }
  }

  lemma WaitingStep(buffer: bytes, ops: seq<Op>)
    requires ops != [] && ops[0].Next? && TakeFrame(buffer) == Taken(buffer, Ok(None))
    ensures Run(buffer, ops) == Run(buffer, ops[1..])
  {
    hide TakeFrame;
    var r := Run(buffer, ops[1..]);
    assert [] + r.results == r.results;
  }

  lemma Cancelled(a: bytes, b: bytes, c: bytes)
    requires a + b <= a + c
    ensures b <= c
  {
    assert b == (a + b)[|a|..] && c == (a + c)[|a|..];
  }

  // However a well-framed stream is split into pushes, and however requests are interleaved with
  // them: the requests return the decoding of each string, in order, each exactly once, and the
  // buffer holds exactly the bytes behind the last returned string.
  lemma {:induction false} DecoderIsChunkIndependent(ops: seq<Op>, raws: seq<bytes>)
    requires AllFramed(raws) && Pushed(ops) <= Joined(raws)
    ensures var r := Run([], ops); var k := |r.results|;
            k <= |raws| && r.results == Decoded(raws[..k]) && Pushed(ops) == Joined(raws[..k]) + r.buffer
  {
    assert [] + Pushed(ops) == Pushed(ops);
    RunReturnsDecodedPrefix([], ops, raws);
  }

  // A string whose framing is complete is never reported as cut short or too long.
  lemma {:induction false} NoLengthErrors(raws: seq<bytes>)
    requires AllFramed(raws)
    ensures |Decoded(raws)| == |raws|
    ensures forall r | r in Decoded(raws) :: r.Err? ==> !r.error.Incomplete? && !r.error.TrailingBytes?
    decreases |raws|
  {
    if raws != [] {
      assert raws[0] in raws;
      FieldErrors(raws[0][HEADER_LEN..], map[]);
      assert forall x | x in raws[1..] :: x in raws;
      NoLengthErrors(raws[1..]);
    }
  }

  function Requests(n: nat): seq<Op> {
    if n == 0 then [] else [Next] + Requests(n - 1)
  }

  lemma {:induction false} DrainAll(buffer: bytes, raws: seq<bytes>, n: nat)
    requires AllFramed(raws) && buffer == Joined(raws) && n >= |raws|
    ensures Run(buffer, Requests(n)) == Stream([], Decoded(raws))
    decreases n
  {
    hide TakeFrame, Decode, Framed;
    if n > 0 {
      assert Requests(n)[1..] == Requests(n - 1);
      if raws == [] {
        NothingBuffered();
        DrainAll([], [], n - 1);
      } else {
        assert Framed(raws[0]) by { assert raws[0] in raws; }
        assert AllFramed(raws[1..]) by { assert forall x | x in raws[1..] :: x in raws; }
        NextTakesOneString(buffer, raws[0], Joined(raws[1..]));
        assert buffer[|raws[0]|..] == Joined(raws[1..]);
        DrainAll(Joined(raws[1..]), raws[1..], n - 1);
      }
    }
  }

  lemma {:induction false} RunAppend(buffer: bytes, a: seq<Op>, b: seq<Op>)
    ensures var first := Run(buffer, a); var second := Run(first.buffer, b);
            Run(buffer, a + b) == Stream(second.buffer, first.results + second.results)
    decreases |a|
  {
    hide TakeFrame, Returned;
    if a == [] {
      assert a + b == b;
      assert [] + Run(buffer, b).results == Run(buffer, b).results;
    } else {
      assert (a + b)[0] == a[0] && (a + b)[1..] == a[1..] + b;
      if a[0].Push? {
        RunAppend(buffer + a[0].input, a[1..], b);
      } else {
        var t := TakeFrame(buffer);
        var mid := Run(t.rest, a[1..]);
        RunAppend(t.rest, a[1..], b);
        assert Returned(t.result) + (mid.results + Run(mid.buffer, b).results)
            == (Returned(t.result) + mid.results) + Run(mid.buffer, b).results;
      }
    }
  }

  lemma JoinedSplit(raws: seq<bytes>, k: nat)
    requires k <= |raws|
    ensures Joined(raws) == Joined(raws[..k]) + Joined(raws[k..])
    ensures Decoded(raws) == Decoded(raws[..k]) + Decoded(raws[k..])
    decreases k
  {
    hide Decode;
    if k == 0 {
      assert raws[..0] == [] && raws[0..] == raws;
    } else {
      JoinedSplit(raws[1..], k - 1);
      assert raws[..k][0] == raws[0] && raws[..k][1..] == raws[1..][..k - 1];
      assert raws[1..][k - 1..] == raws[k..];
      assert raws[0] + (Joined(raws[1..][..k - 1]) + Joined(raws[k..]))
          == (raws[0] + Joined(raws[1..][..k - 1])) + Joined(raws[k..]);
      assert [Decode(raws[0])] + (Decoded(raws[1..][..k - 1]) + Decoded(raws[k..]))
          == ([Decode(raws[0])] + Decoded(raws[1..][..k - 1])) + Decoded(raws[k..]);
    }
  }

  // Nothing is held back: once everything has been pushed, as many further requests as there are
  // strings leave the buffer empty, and every string has been returned.
  lemma {:induction false} EverythingComesOut(ops: seq<Op>, raws: seq<bytes>, n: nat)
    requires AllFramed(raws) && Pushed(ops) == Joined(raws) && n >= |raws|
    ensures Run([], ops + Requests(n)) == Stream([], Decoded(raws))
  {
    var r := Run([], ops);
    var k := |r.results|;
    DecoderIsChunkIndependent(ops, raws);
    JoinedSplit(raws, k);
    Cancelled(Joined(raws[..k]), r.buffer, Joined(raws[k..]));
    Cancelled(Joined(raws[..k]), Joined(raws[k..]), r.buffer);
    assert AllFramed(raws[k..]) by { assert forall x | x in raws[k..] :: x in raws; }
    DrainAll(r.buffer, raws[k..], n);
    RunAppend([], ops, Requests(n));
  }

  // Frames that can be encoded are well framed, so a stream of encoded frames comes out as the
  // frames themselves.
  function EncodedAll(frames: seq<Frame>): seq<bytes>
    requires forall f | f in frames :: Encode(f).Ok?
    decreases |frames|
  {
    if frames == [] then [] else [Encode(frames[0]).value] + EncodedAll(frames[1..])
  }

  function Oks(frames: seq<Frame>): seq<Result<Frame, ProtocolError>>
    decreases |frames|
  {
    if frames == [] then [] else [Ok(frames[0])] + Oks(frames[1..])
  }

  lemma {:induction false} EncodedAreFramed(frames: seq<Frame>)
    requires forall f | f in frames :: ValidFields(f.fields) && Encode(f).Ok?
    ensures AllFramed(EncodedAll(frames)) && Decoded(EncodedAll(frames)) == Oks(frames)
    ensures |EncodedAll(frames)| == |frames|
    decreases |frames|
  {
    if frames != [] {
      var f := frames[0];
      assert f in frames;
      FrameRoundTrip(f);
      HeaderParts(f, EncodeFields(f.fields).value);
      assert Framed(Encode(f).value);
      hide Encode, Decode, Framed;
      EncodedAreFramed(frames[1..]);
      var raws := EncodedAll(frames);
      assert raws[0] == Encode(f).value && raws[1..] == EncodedAll(frames[1..]);
    }
  }

  // End to end: any sequence of frames, encoded, split anywhere, comes out unchanged and in order.
  lemma {:induction false} FramesSurviveTheStream(frames: seq<Frame>, ops: seq<Op>, n: nat)
    requires forall f | f in frames :: ValidFields(f.fields) && Encode(f).Ok?
    requires Pushed(ops) == Joined(EncodedAll(frames)) && n >= |frames|
    ensures Run([], ops + Requests(n)) == Stream([], Oks(frames))
  {
    EncodedAreFramed(frames);
    EverythingComesOut(ops, EncodedAll(frames), n);
  }

  // ---- Header faults ----

  function HeaderFault(buffer: bytes): Option<ProtocolError> {
    if |buffer| < HEADER_LEN then None
    else if buffer[0..4] != MAGIC then Some(BadMagic)
    else if ReadU16(buffer, 4) != HEADER_LEN then Some(UnsupportedHeader(ReadU16(buffer, 4)))
    else if HEADER_LEN + ReadU32(buffer, 16) > ABSOLUTE_MAX_FRAME_LEN then
      Some(FrameTooLarge(HEADER_LEN + ReadU32(buffer, 16)))
    else None
  }

  // A request fails without consuming anything exactly when the buffered header is at fault.
  lemma FaultsConsumeNothing(buffer: bytes)
    ensures HeaderFault(buffer).Some? <==> TakeFrame(buffer).result.Err? && TakeFrame(buffer).rest == buffer
    ensures HeaderFault(buffer).Some? ==> TakeFrame(buffer) == Taken(buffer, Err(HeaderFault(buffer).value))
  {
    hide Decode, ReadU16, ReadU32;
    if |buffer| >= HEADER_LEN && HeaderFault(buffer).None? && HEADER_LEN + ReadU32(buffer, 16) <= |buffer| {
      assert |TakeFrame(buffer).rest| < |buffer|;
    }
  }

  // A header fault is final: the decoder does not resynchronise. Every later request returns the
  // same error, and everything pushed stays buffered.
  lemma {:induction false} FaultsAreFinal(buffer: bytes, ops: seq<Op>)
    requires HeaderFault(buffer).Some?
    ensures var r := Run(buffer, ops);
            r.buffer == buffer + Pushed(ops)
            && forall x | x in r.results :: x == Err(HeaderFault(buffer).value)
    decreases |ops|
  {
    if ops != [] {
      if ops[0].Push? {
        var more := buffer + ops[0].input;
        assert more[..HEADER_LEN] == buffer[..HEADER_LEN];
        SameHeader(more, buffer);
        hide TakeFrame, ReadU16, ReadU32;
        assert HeaderFault(more) == HeaderFault(buffer);
        FaultsAreFinal(more, ops[1..]);
        assert more + Pushed(ops[1..]) == buffer + (ops[0].input + Pushed(ops[1..]));
      } else {
        FaultsConsumeNothing(buffer);
        hide TakeFrame, ReadU16, ReadU32;
        FaultsAreFinal(buffer, ops[1..]);
        assert Pushed(ops) == Pushed(ops[1..]);
      }
    }
  }

  lemma {:induction false} PushedNothing(n: nat)
    ensures Pushed(Requests(n)) == []
    decreases n
  {
    if n > 0 {
      PushedNothing(n - 1);
    }
  }

  lemma StrayByteFaults(x: byte, raw: bytes)
    requires Framed(raw)
    ensures HeaderFault([x] + raw) == Some(BadMagic)
  {
    var stray := [x] + raw;
    assert raw[0..4] == MAGIC;
    assert stray[1] == raw[0..4][0] && stray[0..4][1] == stray[1];
    hide ReadU16, ReadU32;
  }

  lemma OneFrameComesOut(f: Frame)
    requires ValidFields(f.fields) && Encode(f).Ok?
    ensures Framed(Encode(f).value)
    ensures Run([], [Push(Encode(f).value)] + Requests(1)) == Stream([], [Ok(f)])
  {
    hide Encode, Framed, Decode, Run;
    var raw := Encode(f).value;
    EncodedAreFramed([f]);
    assert EncodedAll([f]) == [raw] && raw in EncodedAll([f]);
    assert Joined([raw]) == raw + Joined([]);
    var ops := [Push(raw)];
    assert Pushed(ops) == raw + Pushed(ops[1..]);
    FramesSurviveTheStream([f], ops, 1);
    assert Oks([f]) == [Ok(f)] + Oks([f][1..]);
  }

  // A frame that comes out on its own never comes out behind one stray byte, however often the
  // client asks.
  lemma AStrayByteHidesAFrame(x: byte, f: Frame, n: nat)
    requires ValidFields(f.fields) && Encode(f).Ok?
    ensures Run([], [Push(Encode(f).value)] + Requests(1)) == Stream([], [Ok(f)])
    ensures var r := Run([], [Push([x] + Encode(f).value)] + Requests(n));
            Ok(f) !in r.results && r.buffer == [x] + Encode(f).value
  {
    hide Encode, Decode, Framed, TakeFrame, HeaderFault, Requests;
    var stray := [x] + Encode(f).value;
    OneFrameComesOut(f);
    StrayByteFaults(x, Encode(f).value);
    FaultsAreFinal(stray, Requests(n));
    PushedNothing(n);
    assert ([Push(stray)] + Requests(n))[1..] == Requests(n) && [] + stray == stray;
  }

  // Such a frame.
  lemma AHiddenFrame(n: nat)
    ensures var f := Frame(Version(1, 0), Hello, 0, 0, 0, map[]);
            Encode(f).Ok? && Ok(f) !in Run([], [Push([0x00] + Encode(f).value)] + Requests(n)).results
  {
    var f := Frame(Version(1, 0), Hello, 0, 0, 0, map[]);
    EncodableFrames(f);
    AStrayByteHidesAFrame(0x00, f, n);
  }
}
