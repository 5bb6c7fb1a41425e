// Client writes through one session: permission, suppression, the transmit lease, then the radio.
// Between taking the lease, the command's turn at the radio and the session's going on, anything else
// may happen.

module ClientSession {
  import opened Common
  import opened RadioState
  import opened Ptt

  // What an endpoint may write: anything but the key, only frequencies, the key.
  datatype Permissions = Permissions(write: bool, frequencyWrite: bool, ptt: bool)

  predicate Allows(p: Permissions, m: Mutation) {
    if m.SetPtt? then p.ptt else p.write || (p.frequencyWrite && m.SetVfoFreq?)
  }

  datatype ApplyOutcome = Accepted | Refused | LeaseBusy | Failed

  // A key or unkey command that a session waits for: it has not had its turn at the radio, or it has
  // and the session has yet to go on.
  datatype Errand = Queued(key: bool) | Answered(key: bool, delivered: bool)

  // The station watchdog: between rounds; waiting for the unkey command of an owner it has read as
  // expired; or about to release that owner.
  datatype Watch = Resting | Unkeying(owner: nat) | Releasing(owner: nat)

  // `keyedBy` is the session whose key command reached the radio last, until an unkey command does.
  datatype Station = Station(lease: Lease, keyedBy: Option<nat>, errands: map<nat, Errand>, watch: Watch)

  const QUIET := Station(FREE, None, map[], Resting)

  function WithErrand(st: Station, session: nat, e: Errand): Station {
    st.(errands := st.errands[session := e])
  }

  // What a write comes to before the session first waits: an answer at once, or an operation
  // submitted to the radio.
  datatype CheckIn = CheckIn(station: Station, answer: Option<ApplyOutcome>)

  function BeginWrite(st: Station, h: Hub, session: nat, m: Mutation, permitted: bool, hasPtt: bool, now: nat): CheckIn {
    if !permitted then CheckIn(st, Some(Refused))
    else if Redundant(h, m) then CheckIn(st, Some(Accepted))
    else if m.SetPtt? && m.keyed then
      var k := TryKey(st.lease, session, hasPtt, now);
      match k.result
      case Busy => CheckIn(st, Some(LeaseBusy))
      case NotPermitted => CheckIn(st, Some(Refused))
      case Keyed => CheckIn(WithErrand(st, session, Queued(true)).(lease := k.lease), None)
    else if m.SetPtt? then CheckIn(WithErrand(st, session, Queued(false)), None)
    else CheckIn(st, None)
  }

  // The operation has its turn: it reaches the radio or is lost.
  function Arrives(st: Station, session: nat, delivered: bool): Station
    requires session in st.errands && st.errands[session].Queued?
  {
    var key := st.errands[session].key;
    var st1 := WithErrand(st, session, Answered(key, delivered));
    if delivered then st1.(keyedBy := if key then Some(session) else None) else st1
  }

  // The session goes on: an unkey, and a key command that was lost, give the lease back.
  function EndWrite(st: Station, session: nat): Station
    requires session in st.errands && st.errands[session].Answered?
  {
    var e := st.errands[session];
    var st1 := st.(errands := st.errands - {session});
    if e.key && e.delivered then st1 else st1.(lease := Unkey(st.lease, session))
  }

  // The connection of the lease holder closed: an unkey like any other.
  function BeginLeaving(st: Station, session: nat): Station {
    if st.lease.owner != Some(session) then st else WithErrand(st, session, Queued(false))
  }

  function ReadExpired(st: Station, now: nat, maxTx: nat): Station {
    var expired := ExpiredOwner(st.lease, now, maxTx);
    if expired.Some? then st.(watch := Unkeying(expired.value)) else st
  }

  datatype Event =
    | Ask(hub: Hub, session: nat, mutation: Mutation, permitted: bool, hasPtt: bool, now: nat)
    | Leave(session: nat)
    | Arrive(session: nat, delivered: bool)
    | Resume(session: nat)
    | WatchdogReads(now: nat, maxTx: nat)
    | WatchdogArrives(delivered: bool)
    | WatchdogReleases

  // A session has one command under way at a time.
  predicate Enabled(st: Station, e: Event) {
    match e
    case Ask(_, s, _, _, _, _) => s !in st.errands
    case Leave(s) => s !in st.errands
    case Arrive(s, _) => s in st.errands && st.errands[s].Queued?
    case Resume(s) => s in st.errands && st.errands[s].Answered?
    case WatchdogReads(_, _) => st.watch.Resting?
    case WatchdogArrives(_) => st.watch.Unkeying?
    case WatchdogReleases => st.watch.Releasing?
  }

  function Step(st: Station, e: Event): Station
    requires Enabled(st, e)
  {
    match e
    case Ask(h, s, m, permitted, hasPtt, now) => BeginWrite(st, h, s, m, permitted, hasPtt, now).station
    case Leave(s) => BeginLeaving(st, s)
    case Arrive(s, delivered) => Arrives(st, s, delivered)
    case Resume(s) => EndWrite(st, s)
    case WatchdogReads(now, maxTx) => ReadExpired(st, now, maxTx)
    case WatchdogArrives(delivered) =>
      st.(watch := Releasing(st.watch.owner), keyedBy := if delivered then None else st.keyedBy)
    case WatchdogReleases => st.(lease := Unkey(st.lease, st.watch.owner), watch := Resting)
  }

  predicate AllEnabled(st: Station, es: seq<Event>)
    decreases |es|
  {
    es == [] || (Enabled(st, es[0]) && AllEnabled(Step(st, es[0]), es[1..]))
  }

  function Run(st: Station, es: seq<Event>): Station
    requires AllEnabled(st, es)
    decreases |es|
  {
    if es == [] then st else Run(Step(st, es[0]), es[1..])
  }

  predicate KeyWaits(st: Station, session: nat) {
    session in st.errands && st.errands[session] == Queued(true)
  }

  // Whoever transmits, and whoever has a key command on its way, holds the lease; and nobody whose
  // unkey command has arrived transmits.
  ghost predicate Covered(st: Station) {
    && (st.keyedBy.Some? ==> st.lease.owner == st.keyedBy)
    && (forall s: nat | KeyWaits(st, s) :: st.lease.owner == Some(s))
    && (forall s | s in st.errands && st.errands[s] == Answered(false, true) :: st.keyedBy != Some(s))
  }

  // The event gives the lease back over a keyed radio, or over a key command that is on its way: a
  // session whose command was lost goes on although it transmits; or the watchdog releases an owner
  // that transmits or is about to.
  predicate AbandonsRadio(st: Station, e: Event)
    requires Enabled(st, e)
  {
    match e
    case Resume(s) => !st.errands[s].delivered && st.keyedBy == Some(s)
    case WatchdogReleases => st.keyedBy == Some(st.watch.owner) || KeyWaits(st, st.watch.owner)
    case _ => false
  }

  // The lease covers the radio after an event exactly when the event does not abandon it.
  lemma CoverIsLostExactlyByAbandoning(st: Station, e: Event)
    requires Covered(st) && Enabled(st, e)
    ensures Covered(Step(st, e)) <==> !AbandonsRadio(st, e)
  {
    hide Redundant;
    if e.Resume? && AbandonsRadio(st, e) {
      assert Step(st, e).keyedBy == Some(e.session) && Step(st, e).lease == FREE;
    } else if e.WatchdogReleases? && AbandonsRadio(st, e) {
      assert Step(st, e).lease == FREE;
      assert st.keyedBy == Some(st.watch.owner) || KeyWaits(Step(st, e), st.watch.owner);
    }
  }

  predicate NeverAbandons(st: Station, es: seq<Event>)
    requires AllEnabled(st, es)
    decreases |es|
  {
    es == [] || (!AbandonsRadio(st, es[0]) && NeverAbandons(Step(st, es[0]), es[1..]))
  }

  lemma {:induction false} RunsKeepCover(st: Station, es: seq<Event>)
    requires Covered(st) && AllEnabled(st, es) && NeverAbandons(st, es)
    ensures Covered(Run(st, es))
    decreases |es|
  {
    hide Step, AbandonsRadio, Covered, Enabled;
    if es != [] {
      CoverIsLostExactlyByAbandoning(st, es[0]);
      RunsKeepCover(Step(st, es[0]), es[1..]);
    }
  }

  // Over any run of writes by any sessions, disconnects and watchdog rounds, each in its own steps
  // and interleaved in any way, that never abandons the radio: while a session transmits, no other
  // session has a key command on its way, and every attempt to send one is refused and changes
  // nothing.
  lemma OneTransmitterAtATime(es: seq<Event>, h: Hub, other: nat, permitted: bool, hasPtt: bool, now: nat)
    requires AllEnabled(QUIET, es) && NeverAbandons(QUIET, es)
    requires var st := Run(QUIET, es); st.keyedBy.Some? && st.keyedBy.value != other
    ensures var st := Run(QUIET, es);
            var c := BeginWrite(st, h, other, SetPtt(true), permitted, hasPtt, now);
            !KeyWaits(st, other) && c.station == st && c.answer.Some? && c.answer != Some(Accepted)
  {
    RunsKeepCover(QUIET, es);
    hide Run;
  }

  // ---- Who may write ----

  // Without permission nothing happens, whatever the write; a write that would change nothing is
  // accepted and not sent; everything else is submitted, unless it is a key command and the session
  // may not key or another session holds the lease. Only a submitted key command touches the lease.
  lemma SubmittedExactlyWhen(st: Station, h: Hub, session: nat, m: Mutation, permitted: bool, hasPtt: bool, now: nat)
    ensures var c := BeginWrite(st, h, session, m, permitted, hasPtt, now);
            var free := st.lease.owner.None? || st.lease.owner == Some(session);
            (!permitted ==> c == CheckIn(st, Some(Refused)))
            && (permitted && Redundant(h, m) ==> c == CheckIn(st, Some(Accepted)))
            && (c.answer.None? <==> permitted && !Redundant(h, m) && (m == SetPtt(true) ==> hasPtt && free))
            && (c.answer.Some? ==> c.station == st)
            && (c.answer == Some(LeaseBusy) <==> permitted && m == SetPtt(true) && hasPtt && !free)
            && (c.station.lease == if c.answer.None? && m == SetPtt(true) then Lease(Some(session), Some(now)) else st.lease)
  {
    assert m.SetPtt? ==> !Redundant(h, m);
    hide Redundant;
  }

  // A connection that closes has an unkey command sent exactly if its session holds the lease, which it
  // keeps until that command has been answered.
  lemma LeavingUnkeysTheHolder(st: Station, session: nat)
    requires session !in st.errands
    ensures var st1 := BeginLeaving(st, session);
            (session in st1.errands <==> st.lease.owner == Some(session))
            && (session in st1.errands ==> st1.errands[session] == Queued(false))
            && st1.lease == st.lease && st1.keyedBy == st.keyedBy
  {
  }

  // The writes that a run submits, in order.
  function Submissions(st: Station, es: seq<Event>): seq<Event>
    requires AllEnabled(st, es)
    decreases |es|
  {
    if es == [] then []
    else (if es[0].Ask? && BeginWrite(st, es[0].hub, es[0].session, es[0].mutation, es[0].permitted, es[0].hasPtt, es[0].now).answer.None?
          then [es[0]] else [])
         + Submissions(Step(st, es[0]), es[1..])
  }

  // Over any run, everything submitted was permitted and not redundant when it was checked.
  lemma {:induction false} SubmissionsArePermitted(st: Station, es: seq<Event>)
    requires AllEnabled(st, es)
    ensures forall e | e in Submissions(st, es) ::
              e.Ask? && e.permitted && !Redundant(e.hub, e.mutation) && (e.mutation == SetPtt(true) ==> e.hasPtt)
    decreases |es|
  {
    hide Step, Enabled, Redundant, BeginWrite;
    if es != [] {
      if es[0].Ask? {
        SubmittedExactlyWhen(st, es[0].hub, es[0].session, es[0].mutation, es[0].permitted, es[0].hasPtt, es[0].now);
      }
      SubmissionsArePermitted(Step(st, es[0]), es[1..]);
    }
  }

  // An endpoint that may only tune submits frequencies and nothing else; one that may write
  // everything but the key never submits a key or unkey command.
  lemma PermissionsAreNarrow(st: Station, h: Hub, session: nat, p: Permissions, m: Mutation, now: nat)
    requires BeginWrite(st, h, session, m, Allows(p, m), p.ptt, now).answer.None?
    ensures !p.write ==> (m.SetVfoFreq? && p.frequencyWrite) || (m.SetPtt? && p.ptt)
    ensures m.SetPtt? ==> p.ptt
  {
    SubmittedExactlyWhen(st, h, session, m, Allows(p, m), p.ptt, now);
    hide Redundant, BeginWrite;
  }

  // And it submits every frequency that is new.
  lemma TunersTune(st: Station, h: Hub, session: nat, p: Permissions, v: Vfo, hz: nat, now: nat)
    requires p.frequencyWrite || p.write
    ensures BeginWrite(st, h, session, SetVfoFreq(v, hz), Allows(p, SetVfoFreq(v, hz)), p.ptt, now).answer.None?
            <==> h.snapshot.Of(v).freqHz != hz
  {
    assert v == A || v == B;
  }

  // ---- The watchdog and its owner ----

  // Whether the owner transmits, and whether it has a key command on its way.
  datatype Claim = Claim(transmits: bool, waits: bool)

  function ClaimOf(st: Station, owner: nat): Claim {
    Claim(st.keyedBy == Some(owner), KeyWaits(st, owner))
  }

  // The claim after the owner has asked to key, or after a command of anyone has had its turn.
  function ClaimAfter(c: Claim, owner: nat, st: Station, e: Event): Claim
    requires Enabled(st, e)
  {
    match e
    case Ask(_, s, m, permitted, hasPtt, _) =>
      if s == owner && m == SetPtt(true) && permitted && hasPtt && (st.lease.owner.None? || st.lease.owner == Some(owner))
      then c.(waits := true) else c
    case Arrive(s, delivered) =>
      var c1 := if s == owner then c.(waits := false) else c;
      if delivered then c1.(transmits := s == owner && st.errands[s].key) else c1
    case WatchdogArrives(true) => c.(transmits := false)
    case _ => c
  }

  function ClaimSince(c: Claim, owner: nat, st: Station, es: seq<Event>): Claim
    requires AllEnabled(st, es)
    decreases |es|
  {
    if es == [] then c else ClaimSince(ClaimAfter(c, owner, st, es[0]), owner, Step(st, es[0]), es[1..])
  }

  lemma ClaimFollows(st: Station, e: Event, owner: nat)
    requires Enabled(st, e)
    ensures ClaimOf(Step(st, e), owner) == ClaimAfter(ClaimOf(st, owner), owner, st, e)
  {
    hide ExpiredOwner, Unkey;
    if e.Ask? {
      assert e.mutation.SetPtt? ==> !Redundant(e.hub, e.mutation);
    }
  }

  // The watchdog's release abandons the radio if and only if, going by the commands since it read the
  // owner, the owner transmits or has a key command on its way: it was transmitting when it was read
  // and no unkey command of anyone has arrived, or it has keyed since.
  lemma {:induction false} ReleaseAbandonsIffKeyedSince(st: Station, es: seq<Event>, owner: nat)
    requires AllEnabled(st, es) && Run(st, es).watch == Releasing(owner)
    ensures var c := ClaimSince(ClaimOf(st, owner), owner, st, es);
            AbandonsRadio(Run(st, es), WatchdogReleases) <==> c.transmits || c.waits
    decreases |es|
  {
    if es != [] {
      ClaimFollows(st, es[0], owner);
      hide Step, Enabled, ClaimAfter, ClaimOf, AbandonsRadio;
      ReleaseAbandonsIffKeyedSince(Step(st, es[0]), es[1..], owner);
    }
  }

  // If every command arrives, the owner has nothing on its way when it is read as expired, and does
  // not ask to key before it is released, the release abandons nothing.
  predicate QuietOwner(es: seq<Event>, owner: nat) {
    forall i | 0 <= i < |es| :: !(es[i].Ask? && es[i].session == owner && es[i].mutation == SetPtt(true))
                                && (es[i].WatchdogArrives? ==> es[i].delivered)
  }

  lemma {:induction false} StaysUnclaimed(st: Station, es: seq<Event>, owner: nat)
    requires AllEnabled(st, es) && QuietOwner(es, owner) && !KeyWaits(st, owner)
    requires st.keyedBy != Some(owner) || (exists i :: 0 <= i < |es| && es[i].WatchdogArrives?)
    ensures var st1 := Run(st, es); st1.keyedBy != Some(owner) && !KeyWaits(st1, owner)
    decreases |es|
  {
    if es != [] {
      var st1 := Step(st, es[0]);
      ClaimFollows(st, es[0], owner);
      assert es[0] == es[0 + 0];
      assert forall i | 0 <= i < |es[1..]| :: es[1..][i] == es[i + 1];
      if st1.keyedBy == Some(owner) {
        var i :| 0 <= i < |es| && es[i].WatchdogArrives?;
        assert i > 0 && es[1..][i - 1].WatchdogArrives?;
      }
      hide Step, Enabled, ClaimAfter;
      StaysUnclaimed(st1, es[1..], owner);
    }
  }

  lemma QuietOwnerIsReleasedSafely(st: Station, es: seq<Event>, owner: nat)
    requires st.watch == Unkeying(owner) && !KeyWaits(st, owner)
    requires AllEnabled(st, es) && Run(st, es).watch == Releasing(owner) && QuietOwner(es, owner)
    ensures !AbandonsRadio(Run(st, es), WatchdogReleases)
  {
    WatchdogHasArrived(st, es);
    StaysUnclaimed(st, es, owner);
  }

  lemma {:induction false} WatchdogHasArrived(st: Station, es: seq<Event>)
    requires AllEnabled(st, es) && st.watch.Unkeying? && !Run(st, es).watch.Unkeying?
    ensures exists i :: 0 <= i < |es| && es[i].WatchdogArrives?
    decreases |es|
  {
    if !es[0].WatchdogArrives? {
      assert Step(st, es[0]).watch == st.watch;
      hide Step, Enabled;
      WatchdogHasArrived(Step(st, es[0]), es[1..]);
      var i :| 0 <= i < |es[1..]| && es[1..][i].WatchdogArrives?;
      assert es[i + 1].WatchdogArrives?;
    }
  }

  // ---- Runs that go wrong ----

  lemma RunsNothing(st: Station)
    ensures AllEnabled(st, []) && Run(st, []) == st
  {
  }

  lemma {:induction false} RunsOnce(st: Station, es: seq<Event>, e: Event)
    requires AllEnabled(st, es) && Enabled(Run(st, es), e)
    ensures AllEnabled(st, es + [e]) && Run(st, es + [e]) == Step(Run(st, es), e)
    decreases |es|
  {
    hide Step, Enabled;
    if es == [] {
      assert [] + [e] == [e] && [e][1..] == [];
      RunsNothing(Step(st, e));
    } else {
      assert (es + [e])[0] == es[0] && (es + [e])[1..] == es[1..] + [e];
      RunsOnce(Step(st, es[0]), es[1..], e);
    }
  }

  function Keys(h: Hub, session: nat, now: nat): Event {
    Ask(h, session, SetPtt(true), true, true, now)
  }

  // The owner transmits, its time is up, and the watchdog's unkey command has arrived.
  function Expiring(h: Hub, a: nat): seq<Event> {
    [Keys(h, a, 0), Arrive(a, true), Resume(a), WatchdogReads(1000, 1000), WatchdogArrives(true)]
  }

  lemma ExpiringRuns(h: Hub, a: nat)
    ensures AllEnabled(QUIET, Expiring(h, a))
    ensures Run(QUIET, Expiring(h, a)) == Station(Lease(Some(a), Some(0)), None, map[], Releasing(a))
  {
    var s1 := Station(Lease(Some(a), Some(0)), None, map[a := Queued(true)], Resting);
    var s2 := s1.(keyedBy := Some(a), errands := map[a := Answered(true, true)]);
    var s3 := s2.(errands := map[]);
    var s4 := s3.(watch := Unkeying(a));
    assert Step(QUIET, Keys(h, a, 0)) == s1 && Step(s1, Arrive(a, true)) == s2 && Step(s2, Resume(a)) == s3;
    assert Step(s3, WatchdogReads(1000, 1000)) == s4;
    hide Run, AllEnabled;
    RunsNothing(QUIET);
    RunsOnce(QUIET, [], Keys(h, a, 0));
    RunsOnce(QUIET, [] + [Keys(h, a, 0)], Arrive(a, true));
    RunsOnce(QUIET, [] + [Keys(h, a, 0)] + [Arrive(a, true)], Resume(a));
    RunsOnce(QUIET, [] + [Keys(h, a, 0)] + [Arrive(a, true)] + [Resume(a)], WatchdogReads(1000, 1000));
    RunsOnce(QUIET, [] + [Keys(h, a, 0)] + [Arrive(a, true)] + [Resume(a)] + [WatchdogReads(1000, 1000)],
             WatchdogArrives(true));
    assert [] + [Keys(h, a, 0)] + [Arrive(a, true)] + [Resume(a)] + [WatchdogReads(1000, 1000)] + [WatchdogArrives(true)]
        == Expiring(h, a);
  }

  // A run in which every command reaches the radio: the owner keys again between the arrival of the
  // watchdog's unkey command and its release; another session keys into the freed lease, and its key
  // command arrives while the first session transmits.
  lemma RekeyDuringExpiry(h: Hub, a: nat, b: nat)
    requires a != b
    ensures var es := Expiring(h, a) + [Keys(h, a, 1000)] + [WatchdogReleases] + [Arrive(a, true)] + [Resume(a)]
                      + [Keys(h, b, 1001)];
            AllEnabled(QUIET, es)
            && var st := Run(QUIET, es);
               st.keyedBy == Some(a) && KeyWaits(st, b) && st.lease.owner == Some(b)
               && Enabled(st, Arrive(b, true)) && Step(st, Arrive(b, true)).keyedBy == Some(b)
  {
    var s0 := Station(Lease(Some(a), Some(0)), None, map[], Releasing(a));
    var s1 := Station(Lease(Some(a), Some(1000)), None, map[a := Queued(true)], Releasing(a));
    var s2 := s1.(lease := FREE, watch := Resting);
    var s3 := s2.(keyedBy := Some(a), errands := map[a := Answered(true, true)]);
    var s4 := s3.(errands := map[]);
    var s5 := s4.(lease := Lease(Some(b), Some(1001)), errands := map[b := Queued(true)]);
    assert Step(s0, Keys(h, a, 1000)) == s1 && Step(s1, WatchdogReleases) == s2 && Step(s2, Arrive(a, true)) == s3;
    assert Step(s3, Resume(a)) == s4 && Step(s4, Keys(h, b, 1001)) == s5;
    assert Step(s5, Arrive(b, true)).keyedBy == Some(b);
    ExpiringRuns(h, a);
    hide Run, AllEnabled, Step, Expiring;
    RunsOnce(QUIET, Expiring(h, a), Keys(h, a, 1000));
    RunsOnce(QUIET, Expiring(h, a) + [Keys(h, a, 1000)], WatchdogReleases);
    RunsOnce(QUIET, Expiring(h, a) + [Keys(h, a, 1000)] + [WatchdogReleases], Arrive(a, true));
    RunsOnce(QUIET, Expiring(h, a) + [Keys(h, a, 1000)] + [WatchdogReleases] + [Arrive(a, true)], Resume(a));
    RunsOnce(QUIET, Expiring(h, a) + [Keys(h, a, 1000)] + [WatchdogReleases] + [Arrive(a, true)] + [Resume(a)],
             Keys(h, b, 1001));
  }

  // ---- One session ----

  // A whole write with nothing in between.
  datatype Written = Written(station: Station, outcome: ApplyOutcome, sent: bool)

  function Uninterrupted(st: Station, h: Hub, session: nat, m: Mutation, permitted: bool, hasPtt: bool, now: nat,
                         delivered: bool): Written {
    var c := BeginWrite(st, h, session, m, permitted, hasPtt, now);
    if c.answer.Some? then Written(c.station, c.answer.value, false)
    else Written(if m.SetPtt? then EndWrite(Arrives(c.station, session, delivered), session) else c.station,
                 if delivered then Accepted else Failed, true)
  }

  // Keying again while transmitting: if that command is lost, the lease goes although the first
  // key command still holds the radio keyed.
  lemma FailedRekeyFreesTheLease(session: nat, h: Hub, now: nat)
    ensures var st := Station(Lease(Some(session), Some(now)), Some(session), map[], Resting);
            var w := Uninterrupted(st, h, session, SetPtt(true), true, true, now, false);
            Covered(st) && !Covered(w.station) && w.station.lease == FREE && w.outcome == Failed
  {
  }

  // An unkey by a session that does not hold the lease still reaches the radio; the lease stays.
  lemma ForeignUnkeySilencesTheRadio(st: Station, h: Hub, other: nat, now: nat)
    requires Covered(st) && st.keyedBy.Some? && st.keyedBy.value != other && other !in st.errands
    ensures var w := Uninterrupted(st, h, other, SetPtt(false), true, true, now, true);
            w.sent && w.station == st.(keyedBy := None)
  {
    assert st.errands[other := Queued(false)][other := Answered(false, true)] - {other} == st.errands;
  }

  class Session {
    const id: nat
    const perms: Permissions
    const state: StateHandle
    const ptt: PttManager

    constructor (id: nat, perms: Permissions, state: StateHandle, ptt: PttManager)
      ensures this.id == id && this.perms == perms && this.state == state && this.ptt == ptt
    {
      this.id, this.perms, this.state, this.ptt := id, perms, state, ptt;
    }

    // Up to the first wait: an answer, or none when the operation has been submitted.
    method BeginApply(m: Mutation, now: nat, ghost st: Station) returns (answer: Option<ApplyOutcome>)
      requires st.lease == ptt.View()
      modifies ptt
      ensures var c := BeginWrite(st, state.State(), id, m, Allows(perms, m), perms.ptt, now);
              ptt.View() == c.station.lease && answer == c.answer
      ensures !Allows(perms, m) ==> answer == Some(Refused) && ptt.View() == old(ptt.View())
      ensures answer.None? ==> Allows(perms, m) && !Redundant(state.State(), m)
      ensures answer.Some? ==> ptt.View() == old(ptt.View())
    {
      if !Allows(perms, m) {
        return Some(Refused);
      }
      if state.IsRedundant(m) {
        return Some(Accepted);
      }
      if m.SetPtt? && m.keyed {
        var result := ptt.Key(id, perms.ptt, now);
        match result {
          case Busy => return Some(LeaseBusy);
          case NotPermitted => return Some(Refused);
          case Keyed =>
        }
      }
      return None;
    }

    // From the radio's answer on. In the meantime anything may have happened to the lease.
    method EndApply(m: Mutation, delivered: bool, ghost st: Station) returns (outcome: ApplyOutcome)
      requires st.lease == ptt.View()
      requires m.SetPtt? ==> id in st.errands && st.errands[id] == Answered(m.keyed, delivered)
      modifies ptt
      ensures ptt.View() == if m.SetPtt? then EndWrite(st, id).lease else st.lease
      ensures outcome == if delivered then Accepted else Failed
      ensures m.SetPtt? && m.keyed && delivered ==> ptt.View() == old(ptt.View())
      ensures m.SetPtt? && !(m.keyed && delivered) ==> ptt.owner != Some(id)
      ensures old(ptt.owner) != Some(id) ==> ptt.View() == old(ptt.View())
    {
      if m.SetPtt? && !(m.keyed && delivered) {
        ptt.Release(id);
      }
      return if delivered then Accepted else Failed;
    }

    // A whole write, if nothing happens in between.
    method Apply(m: Mutation, now: nat, delivered: bool, ghost st: Station)
      returns (outcome: ApplyOutcome, sent: bool)
      requires st.lease == ptt.View()
      modifies ptt
      ensures var w := Uninterrupted(st, state.State(), id, m, Allows(perms, m), perms.ptt, now, delivered);
              ptt.View() == w.station.lease && outcome == w.outcome && sent == w.sent
      ensures !Allows(perms, m) ==> outcome == Refused && !sent && ptt.View() == old(ptt.View())
    {
      ghost var c := BeginWrite(st, state.State(), id, m, Allows(perms, m), perms.ptt, now);
      var answer := BeginApply(m, now, st);
      if answer.Some? {
        return answer.value, false;
      }
      outcome := EndApply(m, delivered, if m.SetPtt? then Arrives(c.station, id, delivered) else c.station);
      sent := true;
    }

    // The connection closed: whether an unkey command is submitted. EndApply follows its answer.
    method BeginLeave(ghost st: Station) returns (submitted: bool)
      requires st.lease == ptt.View()
      ensures submitted <==> BeginLeaving(st, id) == WithErrand(st, id, Queued(false)) && st.lease.owner == Some(id)
      ensures !submitted ==> BeginLeaving(st, id) == st
    {
      return ptt.owner == Some(id);
    }
  }
}
