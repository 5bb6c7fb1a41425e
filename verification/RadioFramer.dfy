// Splitting the radio's byte stream into delimited frames with a bounded partial-frame buffer.

module RadioFramer {
  import opened Common

  const MAX_RADIO_FRAME_LEN: nat := 4096

  datatype Framing = SemicolonTerminated | LineTerminated | CiV

  function Delimiter(f: Framing): byte {
    match f
    case SemicolonTerminated => 0x3b
    case LineTerminated => 0x0a
    case CiV => 0xfd
  }

  datatype Framed = Framed(buf: bytes, frames: seq<bytes>)

  // One byte: a full buffer without a delimiter is dropped first.
  function PushByte(buf: bytes, b: byte, delim: byte): Framed {
    var kept := (if |buf| >= MAX_RADIO_FRAME_LEN then [] else buf) + [b];
    if b == delim then Framed([], [kept]) else Framed(kept, [])
  }

  function PushBytes(buf: bytes, input: bytes, delim: byte): Framed
    decreases |input|
  {
    if input == [] then Framed(buf, [])
    else
      var first := PushByte(buf, input[0], delim);
      var rest := PushBytes(first.buf, input[1..], delim);
      Framed(rest.buf, first.frames + rest.frames)
  }

  class Framer {
    const framing: Framing
    var buf: bytes

    constructor (f: Framing)
      ensures framing == f && buf == []
    {
      framing := f;
      buf := [];
    }

    method Push(input: bytes) returns (frames: seq<bytes>)
      modifies this
      ensures Framed(buf, frames) == PushBytes(old(buf), input, Delimiter(framing))
    {
      var delim := Delimiter(framing);
      frames := [];
      var k := 0;
      assert input[0..] == input;
      while k < |input|
        invariant 0 <= k <= |input|
        invariant var rest := PushBytes(buf, input[k..], delim);
                  PushBytes(old(buf), input, delim) == Framed(rest.buf, frames + rest.frames)
      {
        var b := input[k];
        ghost var one := PushByte(buf, b, delim);
        ghost var rest := PushBytes(one.buf, input[k + 1..], delim);
        assert input[k..][0] == b && input[k..][1..] == input[k + 1..];
        assert frames + (one.frames + rest.frames) == (frames + one.frames) + rest.frames;
        if |buf| >= MAX_RADIO_FRAME_LEN {
          buf := [];
        }
        buf := buf + [b];
        if b == delim {
          frames := frames + [buf];
          buf := [];
        } else {
          assert frames + [] == frames;
        }
        k := k + 1;
      }
    }
  }

  // However the stream is cut into reads, the frames and the buffer are the same.
  lemma {:induction false} PushAppend(buf: bytes, a: bytes, b: bytes, delim: byte)
    ensures var first := PushBytes(buf, a, delim);
            var second := PushBytes(first.buf, b, delim);
            PushBytes(buf, a + b, delim) == Framed(second.buf, first.frames + second.frames)
    decreases |a|
  {
    if a == [] {
      assert a + b == b;
      assert [] + PushBytes(buf, b, delim).frames == PushBytes(buf, b, delim).frames;
    } else {
      assert (a + b)[0] == a[0] && (a + b)[1..] == a[1..] + b;
      var one := PushByte(buf, a[0], delim);
      var mid := PushBytes(one.buf, a[1..], delim);
      PushAppend(one.buf, a[1..], b, delim);
      assert one.frames + (mid.frames + PushBytes(mid.buf, b, delim).frames)
          == (one.frames + mid.frames) + PushBytes(mid.buf, b, delim).frames;
    }
  }

  ghost predicate NoDelimiter(b: bytes, delim: byte) {
    forall i | 0 <= i < |b| :: b[i] != delim
  }

  ghost predicate ProperFrame(f: bytes, delim: byte) {
    1 <= |f| <= MAX_RADIO_FRAME_LEN && f[|f| - 1] == delim && NoDelimiter(f[..|f| - 1], delim)
  }

  ghost predicate ValidBuffer(buf: bytes, delim: byte) {
    |buf| <= MAX_RADIO_FRAME_LEN && NoDelimiter(buf, delim)
  }

  // The buffer stays bounded and free of delimiters; every frame is bounded and holds exactly one
  // delimiter, at its end.
  lemma {:induction false} PushIsBounded(buf: bytes, input: bytes, delim: byte)
    requires ValidBuffer(buf, delim)
    ensures var r := PushBytes(buf, input, delim);
            ValidBuffer(r.buf, delim) && forall f | f in r.frames :: ProperFrame(f, delim)
    decreases |input|
  {
    if input != [] {
      var one := PushByte(buf, input[0], delim);
      PushIsBounded(one.buf, input[1..], delim);
      hide PushBytes;
      assert forall f | f in one.frames :: ProperFrame(f, delim);
    }
  }

  // What is buffered after a run of bytes without a delimiter: the part since the last drop.
  function Residue(n: nat): (r: nat)
    ensures r <= n && r <= MAX_RADIO_FRAME_LEN
  {
    if n == 0 then 0 else (n - 1) % MAX_RADIO_FRAME_LEN + 1
  }

  lemma ResidueStep(front: bytes, b: byte, delim: byte)
    requires b != delim
    ensures var run := front + [b];
            PushByte(front[|front| - Residue(|front|)..], b, delim) == Framed(run[|run| - Residue(|run|)..], [])
  {
    var run := front + [b];
    var held := front[|front| - Residue(|front|)..];
    if |held| >= MAX_RADIO_FRAME_LEN {
      assert run[|run| - 1..] == [b];
    } else {
      assert held + [b] == run[|run| - Residue(|run|)..];
    }
  }

  lemma {:induction false} BufferAfterRun(run: bytes, delim: byte)
    requires NoDelimiter(run, delim)
    ensures PushBytes([], run, delim) == Framed(run[|run| - Residue(|run|)..], [])
    decreases |run|
  {
    hide PushByte, Residue;
    if run != [] {
      var front := run[..|run| - 1];
      var b := run[|run| - 1];
      BufferAfterRun(front, delim);
      assert run == front + [b];
      PushAppend([], front, [b], delim);
      OneByte(front[|front| - Residue(|front|)..], b, delim);
      ResidueStep(front, b, delim);
    } else {
      EmptyResidue();
    }
  }

  lemma EmptyResidue()
    ensures Residue(0) == 0
  {
  }

  lemma OneByte(buf: bytes, b: byte, delim: byte)
    ensures PushBytes(buf, [b], delim) == PushByte(buf, b, delim)
  {
    var one := PushByte(buf, b, delim);
    assert [b][1..] == [];
    assert one.frames + [] == one.frames;
  }

  // A delimited string of any length yields one frame: its own end, of a length that depends only
  // on its length. It is delivered whole exactly when it is no longer than the bound.
  lemma StringYieldsOneFrame(run: bytes, delim: byte)
    requires NoDelimiter(run, delim)
    ensures var whole := run + [delim]; var kept := |run| % MAX_RADIO_FRAME_LEN + 1;
            PushBytes([], whole, delim) == Framed([], [whole[|whole| - kept..]])
            && (PushBytes([], whole, delim).frames == [whole] <==> |whole| <= 4096)
  {
    var whole := run + [delim];
    var held := run[|run| - Residue(|run|)..];
    BufferAfterRun(run, delim);
    PushAppend([], run, [delim], delim);
    OneByte(held, delim, delim);
    assert [] + PushByte(held, delim, delim).frames == PushByte(held, delim, delim).frames;
    var kept := |run| % MAX_RADIO_FRAME_LEN + 1;
    if |held| >= MAX_RADIO_FRAME_LEN {
      assert [] + [delim] == whole[|whole| - kept..];
    } else {
      assert held + [delim] == whole[|whole| - kept..];
    }
    assert whole[0..] == whole;
  }

  function Joined(frames: seq<bytes>): bytes
    decreases |frames|
  {
    if frames == [] then [] else frames[0] + Joined(frames[1..])
  }

  // A stream of proper frames comes out frame by frame.
  lemma {:induction false} ProperFramesComeOut(frames: seq<bytes>, delim: byte)
    requires forall f | f in frames :: ProperFrame(f, delim)
    ensures PushBytes([], Joined(frames), delim) == Framed([], frames)
    decreases |frames|
  {
    if frames != [] {
      var f := frames[0];
      assert f in frames && ProperFrame(f, delim);
      assert f == f[..|f| - 1] + [delim];
      StringYieldsOneFrame(f[..|f| - 1], delim);
      PushAppend([], f, Joined(frames[1..]), delim);
      ProperFramesComeOut(frames[1..], delim);
      assert frames == [f] + frames[1..];
    }
  }

  predicate IsEnd(f: bytes, s: bytes) {
    |f| <= |s| && s[|s| - |f|..] == f
  }

  lemma EndOfEnd(f: bytes, t: bytes, s: bytes)
    requires IsEnd(f, t) && IsEnd(t, s)
    ensures IsEnd(f, s)
  {
    assert s[|s| - |f|..] == s[|s| - |t|..][|t| - |f|..];
  }

  // Whatever is buffered and however much junk precedes it, the first delimiter ends the damage:
  // one frame is produced, an end of everything up to it, and every proper frame behind it is intact.
  lemma ResynchronisesAtTheFirstDelimiter(buf: bytes, junk: bytes, frames: seq<bytes>, delim: byte)
    requires ValidBuffer(buf, delim) && NoDelimiter(junk, delim)
    requires forall f | f in frames :: ProperFrame(f, delim)
    ensures var r := PushBytes(buf, junk + [delim] + Joined(frames), delim);
            r.buf == [] && |r.frames| == 1 + |frames| && r.frames[1..] == frames
            && ProperFrame(r.frames[0], delim) && IsEnd(r.frames[0], buf + (junk + [delim]))
  {
    hide IsEnd, ProperFrame, ValidBuffer;
    FirstDelimiter(buf, junk, delim);
    var first := PushBytes(buf, junk + [delim], delim);
    PushIsBounded(buf, junk + [delim], delim);
    PushAppend(buf, junk + [delim], Joined(frames), delim);
    ProperFramesComeOut(frames, delim);
    hide PushBytes;
    assert first.frames == [first.frames[0]];
    assert first.frames[0] in first.frames;
  }

  lemma ByteKeepsEnd(buf: bytes, b: byte, rest: bytes, delim: byte)
    requires b != delim
    ensures PushByte(buf, b, delim).frames == [] && IsEnd(PushByte(buf, b, delim).buf + rest, buf + ([b] + rest))
  {
    var s := buf + ([b] + rest);
    if |buf| >= MAX_RADIO_FRAME_LEN {
      assert s[|buf|..] == [b] + rest;
    } else {
      assert (buf + [b]) + rest == s;
      assert s[0..] == s;
    }
  }

  lemma {:induction false} FirstDelimiter(buf: bytes, junk: bytes, delim: byte)
    requires NoDelimiter(junk, delim)
    ensures var r := PushBytes(buf, junk + [delim], delim);
            r.buf == [] && |r.frames| == 1 && IsEnd(r.frames[0], buf + (junk + [delim]))
    decreases |junk|
  {
    if junk == [] {
      assert junk + [delim] == [delim];
      OneByte(buf, delim, delim);
      assert (buf + [delim])[|buf|..] == [delim] && (buf + [delim])[0..] == buf + [delim];
    } else {
      var one := PushByte(buf, junk[0], delim);
      var rest := junk[1..] + [delim];
      assert junk + [delim] == [junk[0]] + rest && (junk + [delim])[1..] == rest;
      ByteKeepsEnd(buf, junk[0], rest, delim);
      hide IsEnd, PushByte;
      FirstDelimiter(one.buf, junk[1..], delim);
      var later := PushBytes(one.buf, rest, delim);
      assert [] + later.frames == later.frames;
      EndOfEnd(later.frames[0], one.buf + rest, buf + (junk + [delim]));
    }
  }
}
