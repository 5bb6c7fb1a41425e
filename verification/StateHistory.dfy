// What the hub knows, in terms of everything that was recorded: what was broadcast, which fields the
// radio reports by itself, and which mode facts are uncertain.

module StateHistory {
  import opened Common
  import opened RadioState
  import opened LagRecovery

  datatype Recording = Recording(change: StateChange, source: EventSource)

  function Recorded(h: Hub, recs: seq<Recording>): Hub
    decreases |recs|
  {
    if recs == [] then h
    else
      var n := |recs| - 1;
      Record(Recorded(h, recs[..n]), recs[n].change, recs[n].source)
  }

  // ---- Broadcasts ----

  // A change is broadcast, alone and as it was recorded, exactly when a client can see a difference.
  lemma BroadcastExactlyWhenSeen(h: Hub, ch: StateChange, source: EventSource)
    ensures var log := Record(h, ch, source).log;
            log == (if View(Record(h, ch, source).snapshot) == View(h.snapshot) then h.log else h.log + [Change(ch)])
  {
    var s := h.snapshot;
    var s1 := Record(h, ch, source).snapshot;
    ApplyAssigns(s, ch);
    if ApplyChange(s, ch).changed {
      assert exists f | f in FACTS :: Look(s1, f) != Look(s, f) by { ChangedIsSeen(s, ch); }
      var f :| f in FACTS && Look(s1, f) != Look(s, f);
      assert View(s1)[f] != View(s)[f];
    } else {
      UnchangedIsNotSeen(s, ch);
    }
  }

  function FactOf(s: Snapshot, ch: StateChange): Fact {
    match ch
    case RxVfo(_) => FRx
    case Freq(v, _) => FFreq(v)
    case ModeIs(v, _) => FMode(v)
    case DataMode(v, _) => FData(v)
    case Split(enabled, _) => if s.split != enabled then FSplit else FTx
    case Ptt(_) => FPtt
    case Rit(_, _) => FRit
    case Xit(_, _) => FXit
    case Power(_) => FPower
  }

  lemma ChangedIsSeen(s: Snapshot, ch: StateChange)
    requires ApplyChange(s, ch).changed
    ensures var f := FactOf(s, ch); f in FACTS && Look(ApplyChange(s, ch).snapshot, f) != Look(s, f)
  {
    EveryFact(FactOf(s, ch));
  }

  lemma UnchangedIsNotSeen(s: Snapshot, ch: StateChange)
    requires !ApplyChange(s, ch).changed
    ensures View(ApplyChange(s, ch).snapshot) == View(s)
  {
    forall f | f in FACTS ensures Look(ApplyChange(s, ch).snapshot, f) == Look(s, f) {
    }
  }

  // ---- Coverage ----

  predicate Concerns(ch: StateChange, f: Field) {
    match f
    case FieldRxVfo => ch.RxVfo?
    case FieldFreq(v) => ch.Freq? && ch.vfo == v
    case FieldMode(v) => (ch.ModeIs? || ch.DataMode?) && ch.vfo == v
    case FieldSplit => ch.Split?
    case FieldPtt => ch.Ptt?
    case FieldRit => ch.Rit?
    case FieldXit => ch.Xit?
    case FieldPower => ch.Power?
  }

  // The poller may leave a field out exactly when the radio has reported it by itself at least once,
  // whether or not that changed anything.
  lemma {:induction false} CoveredExactlyWhenReported(recs: seq<Recording>, f: Field)
    ensures f in Recorded(NEW_HUB, recs).covered
            <==> exists i :: 0 <= i < |recs| && recs[i].source == NativePush && Concerns(recs[i].change, f)
    decreases |recs|
  {
    if recs != [] {
      var n := |recs| - 1;
      CoveredExactlyWhenReported(recs[..n], f);
      assert f == FieldOf(recs[n].change) <==> Concerns(recs[n].change, f);
      assert forall i | 0 <= i < n :: recs[..n][i] == recs[i];
    }
  }

  // ---- Uncertainty ----

  // The recording settles the mode fact: it says what the mode, or the DATA flag, of that VFO is.
  predicate Settles(ch: StateChange, f: ModeFact) {
    match f
    case Base(v) => ch.ModeIs? && ch.vfo == v
    case Data(v) => ch.DataMode? && ch.vfo == v
  }

  // A client's own write moves the frequency of the fact's VFO.
  predicate Tunes(s: Snapshot, rec: Recording, f: ModeFact) {
    rec.source == OptimisticWrite && rec.change.Freq? && rec.change.vfo == f.vfo && s.Of(f.vfo).freqHz != rec.change.hz
  }

  // Recording i tuned the fact's VFO, and nothing has settled the fact since.
  ghost predicate OpenSince(recs: seq<Recording>, i: int, f: ModeFact) {
    0 <= i < |recs| && Tunes(Recorded(NEW_HUB, recs[..i]).snapshot, recs[i], f)
    && forall j | i < j < |recs| :: !Settles(recs[j].change, f)
  }

  lemma OpenLonger(recs: seq<Recording>, i: nat, f: ModeFact)
    requires i + 1 < |recs|
    ensures var n := |recs| - 1; OpenSince(recs, i, f) <==> OpenSince(recs[..n], i, f) && !Settles(recs[n].change, f)
  {
    var n := |recs| - 1;
    assert recs[..n][i] == recs[i] && recs[..n][..i] == recs[..i];
    assert forall j | i < j < n :: recs[..n][j] == recs[j];
    hide Recorded, Tunes, Settles;
  }

  // A mode fact is uncertain exactly when a client's write has tuned its VFO to another frequency and
  // nothing has settled the fact since.
  lemma {:induction false} UncertainExactlyAfterTuning(recs: seq<Recording>, f: ModeFact)
    ensures f in Recorded(NEW_HUB, recs).uncertain <==> exists i :: OpenSince(recs, i, f)
    decreases |recs|
  {
    if recs != [] {
      var n := |recs| - 1;
      var h := Recorded(NEW_HUB, recs[..n]);
      UncertainExactlyAfterTuning(recs[..n], f);
      OneMoreRecording(h, recs[n], f);
      assert OpenSince(recs, n, f) <==> Tunes(h.snapshot, recs[n], f);
      forall i | 0 <= i < n
        ensures OpenSince(recs, i, f) <==> OpenSince(recs[..n], i, f) && !Settles(recs[n].change, f)
      {
        OpenLonger(recs, i, f);
      }
      OpenIsInside(recs, f);
      OpenIsInside(recs[..n], f);
      hide OpenSince, Tunes, Settles, Record;
    }
  }

  lemma OpenIsInside(recs: seq<Recording>, f: ModeFact)
    ensures forall i | OpenSince(recs, i, f) :: 0 <= i < |recs|
  {
  }

  lemma OneMoreRecording(h: Hub, rec: Recording, f: ModeFact)
    ensures f in Record(h, rec.change, rec.source).uncertain
            <==> Tunes(h.snapshot, rec, f) || (f in h.uncertain && !Settles(rec.change, f))
  {
  }
}
