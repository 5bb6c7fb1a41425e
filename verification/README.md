# CatHub verification model

CatHub is one process that owns a radio and a CW keyer and shares them among many clients. This
project models its deterministic cores in Dafny and proves what their design promises. `dafny verify
dfyconfig.toml` checks everything.

## How it is organised

**The WinKeyer broker and its actor.** `BrokerModel` is the broker as a state machine on values: every
operation maps a state to a state and the list of actions it returns. `Broker` is the same broker as an
object whose methods update its fields and build action lists in loops; each method is proved to do what
the state machine does. `BrokerLedger` folds the returned actions into books (issued, ended, accepted and
keyed bytes, and a monitor that watches who may write) and proves that every operation keeps them.
`BrokerDevice` puts a keyer at the other end, a register map that reads the written bytes by the keyer's own
command grammar, and proves the one-entry profile cache true of it; `BrokerKeying` watches every keying write
of every operation and proves when it finds its client's profile. `ActorModel` adds requests, device
bytes, ticks, reconnects, the maintenance lease and the station transmit lease; `KeyerActor` is the actor
object; `ActorSafety`, `ActorBooks`, `ActorDevice` and `ActorKeying` prove what each step keeps, `ActorRuns`
states the results over whole runs, `ActorReopening` what opening the host session does to a keyer inside a
command, `ActorWitnesses` gives the runs that reach the states in which the code
falls short, and `KeyerRuns` drives the actor object through any sequence of events. `BrokerEndings` says
which jobs each operation ends, `BrokerOrder` in which order it writes, and `ActorHistory` remembers what an
observer sees: status bytes, choices and orders. On these stand `ActorPromises`, what clients can rely on
over every run, and `ActorRights`, who may write to the keyer and when. `WinkeyerProtocol` is
the command grammar, `WinkeyerEndpoint`, `EndpointSession`, `EndpointTraffic` and `EndpointRights` are the
virtual endpoints that feed the broker, `Ptt` is the transmit lease.

**The private transport.** `VirtualSerialProtocol`, `VirtualSerialCodec` and `VirtualSerialDecoder` model
the frame format, prove encoding and decoding inverse with an exact normal form, and prove the incremental
decoder independent of how the stream is cut.

**The universal state.** `RadioState` is the snapshot with change-only broadcast; `StateHistory` says what
the hub knows in terms of everything recorded. `LagRecovery` proves that subscribers converge to the snapshot
whatever they miss. `RadioCommands` is what each write sends, and what the radio makes of it. `Suppression`
proves against such a radio, with band memory, two selected VFOs and two clarifiers, that leaving out redundant
writes is sound, and exactly which writes keep it so. `ClientSession` combines permission, suppression and
the transmit lease for client writes, step by step.

**The radio link.** `RadioFramer`, `RadioScheduler`, `RadioTransport` and `RadioAnswers` cover framing,
scheduling, and exactly-once replies across reconnects; `RadioCauses` says which reply each fate of a command
calls for.

**Printing and parsing.** `Kenwood` pairs the frames printed for clients with the backend's parser;
`TransmitPower` covers fixed-point power; `Decimal` is digit strings.

Time is a parameter of every operation that reads the clock. Failures of writes, opens and calls are
parameters of the steps that can meet them. `usize` is taken to be 64 bits wide.

## What the code does not keep

Several properties hold only under a condition. Each is proved with the exact condition and with an input or
a run that fails it:

- Text accepted by the typed interface may contain a tab, which the keyer reads as a register command
  (`EndpointTraffic.TypedTextIsKeyingIffNoTab`, `EndpointTraffic.TabReachesTheRegisters`).
- A client that stores a register command while its stream job plays, and sends another piece, has that piece
  keyed without it: the command could not be applied and only the cache is dropped
  (`BrokerKeying.AppendUnderProfileIff`, `ActorWitnesses.APieceIsKeyedUnderAnOldProfile`;
  `WinkeyerEndpoint.ConfigurationBetweenPieces` is one read that does it).
- An emergency stop during maintenance skips the reopen (`ActorRuns.EmergencyDuringMaintenance` for a keyer
  found between commands, `ActorRuns.EmergencyInsideACommand` for one found anywhere,
  `ActorWitnesses.EmergencyLeavesAStaleCache`).
- The opening of maintenance ends inside a command, so the keyer takes the first byte of the first maintenance
  command as a parameter (`ActorKeying.MaintenanceOpensInsideACommand`). This is by the command lengths of
  `protocol.rs`, under which opcode 0x03 has two bytes.
- Any byte counts as the answer to Host Open, so the opening bytes and the replayed profile can be taken as
  parameters by a keyer that maintenance left inside a command (`ActorReopening.ReopenInsideACommand`,
  `ActorWitnesses.ReopenLeavesAStaleCache`). Without maintenance this cannot happen
  (`ActorReopening.ProfileCacheAgreesWithoutMaintenance`).
- Maintenance is granted while a host session is still being reopened, and the opening bytes then go into it
  (`ActorReopening.PendingReopenAdmitsMaintenance`, `ActorWitnesses.ReopenWritesIntoMaintenance`).
- A submission refused while reconnecting can leave the keyer holding the station lease
  (`ActorRuns.RefusedSubmissionKeepsLease`, `ActorWitnesses.RefusedSubmissionTakesTheLease`).
- Stream bytes overtake a client's queued job (`ActorRuns.StreamOvertakesIff`,
  `ActorWitnesses.StreamOvertakes`).
- Job identifiers saturate, and then two jobs share one (`ActorRuns.IdentifiersSaturate`,
  `ActorRuns.TwoJobsShareAnIdentifier`).
- The station watchdog can take the lease from a keyer job, also from one that was not active when the
  expired lease was read (`ActorRuns.WatchdogFreesKeyerLeaseIff`,
  `ActorWitnesses.WatchdogLetsCatKeyIntoAJob`, `ActorWitnesses.WatchdogTakesTheLeaseOfALaterJob`).
- Another client's Clear reaches the device during maintenance
  (`ActorRuns.ClearDuringMaintenance`, `ActorWitnesses.ClearReachesMaintenance`).
- During maintenance the broker keeps the status it saw last, and if that was busy, its status polls are
  written into the maintenance (`ActorRights.TicksInMaintenance`, `ActorWitnesses.PollReachesMaintenance`).
- A stream piece that does not fit its job is refused as if its client were unknown
  (`ActorRights.RefusalsGiveTheirReason`).
- Some writes are recorded otherwise than the radio executes them (`Suppression.SentKeepsCoherenceIff`): split
  set while receiving on VFO B (`Suppression.SplitKeepsCoherenceIffReceivingOnA`,
  `Suppression.SplitWhileReceivingOnB`); split ended with VFO B named (`Suppression.SplitEndedOnB`); receiving
  on the transmit VFO during a split (`Suppression.ReceivingOnTheTransmitVfo`); and a clarifier offset, which
  is never sent (`Suppression.OffsetIsNotSent`).
- A suppressed split write would still have moved a radio that receives on VFO B
  (`Suppression.SplitSuppression`), and the backend does not hear the operator's clarifiers at all
  (`Suppression.ClarifierSuppressedWrongly`).
- Every caller addresses a mode or DATA write to the VFO that is receiving when the write is checked, but the
  radio applies it to the VFO that is receiving when the write has its turn in the queue. If another session
  or the operator switches VFOs in between, the write goes to one VFO and is recorded for the other
  (`Suppression.OffVfoModeWrite`, `Suppression.OffVfoDataWrite`, `Suppression.ModeLandsOnTheOtherVfo`).
- Hamlib's `M` sends its DATA half for the VFO that was receiving when the command began. If the operator
  switches VFOs between the halves, the DATA half can be suppressed wrongly or make the cache wrong
  (`Suppression.OffVfoDataSuppression`, `Suppression.OffVfoDataWriteIsNeverSafe`,
  `Suppression.HamlibHalfSuppressedWrongly`, `Suppression.HamlibHalfSentWrongly`). A suppressed mode write
  would be wrong in the same way, but its check reads the same receive VFO that it is addressed to
  (`Suppression.OffVfoModeSuppression`).
- Losing a releasing command frees the transmit lease over a keyed radio, and so does the station watchdog
  when the owner keys again before its release, also when that key command is still on its way
  (`ClientSession.CoverIsLostExactlyByAbandoning`, `ClientSession.FailedRekeyFreesTheLease`,
  `ClientSession.RekeyDuringExpiry`).
- From 10^11 Hz on, the status frame no longer reads back (`Kenwood.StatusReadsBackIffItFits`,
  `Kenwood.TwelveDigitStatus`, `Kenwood.StatusTooWide`).
- A header fault in the private transport is final; the decoder does not resynchronise
  (`VirtualSerialDecoder.FaultsAreFinal`, `VirtualSerialDecoder.AStrayByteHidesAFrame`).

## Model

| member | source | states |
|---|---|---|
| ActorRuns.WorkAndMaintenance | crates/cathub/src/winkeyer/actor.rs:427-646 | In every state of every run: no backlog without an active job, no job without a device, at most 64 queued jobs of 1 to 120 bytes; a maintenance lease or a pending host reopen excludes active and queued work; and the cancellations that the reconnect loop drops were always empty |
| ActorRuns.RunsExtend | crates/cathub/src/winkeyer/actor.rs:427-646 | Every enabled event that obeys the rule extends every run, so the runs of the results below reach every reachable state |
| ActorRuns.TransmitExclusion | crates/cathub/src/winkeyer/actor.rs:663-895 | Over every run in which the station watchdog never releases the keyer's lease under an active job: while a keyer job is active the keyer owns the station lease, and no CAT session can key, take or release it |
| ActorRuns.JobConservation | crates/cathub/src/winkeyer/broker.rs:195-483 | Over every run below the identifier ceiling, each issued job is live or has appeared in exactly one returned completion or cancellation under its submitting client, never both, never twice, and nothing else is live or ends; identifiers name one job each |
| ActorRuns.NoInterleaving | crates/cathub/src/winkeyer/broker.rs:231-622 | Over the whole stream of returned writes: from a job's first byte to its end, every write is that job's own bytes, its own client's command, a status poll, or the clear or emergency write after which nothing follows until the job has ended |
| ActorRuns.OrderAndBytes | crates/cathub/src/winkeyer/broker.rs:328-388 | Jobs start in strictly increasing identifier order; queued identifiers increase and exceed the active and every started one; each live job stores exactly the pieces accepted for it, in order; what has been keyed for a job is nothing or exactly that |
| ActorRuns.ProfileCacheAgrees | crates/cathub/src/winkeyer/broker.rs:574-651 | Over every run fed by endpoints, from a keyer found anywhere in its stream and reading one byte stream ever after: in session and outside maintenance, the keyer is between commands and holds every entry of the profile of the client whose profile the broker believes is applied, unless the opening bytes of this session left it inside a command, or an emergency stop has since cut a maintenance period short without restoring the cache |
| ActorReopening.ReopenBetweenCommands | crates/cathub/src/winkeyer/actor.rs:478-497 | If the opening bytes leave the keyer between commands, then after the reopen, whatever it held, the cache is right and the keyer is between commands |
| ActorReopening.ReopenInsideACommand | crates/cathub/src/winkeyer/actor.rs:478-497 | Whatever keyer answers, wherever it is in its stream: the cache is right after the reopen if and only if the foreground client has nothing stored |
| ActorReopening.ProfileCacheAgreesWithoutMaintenance | crates/cathub/src/winkeyer/actor.rs:397-646 | Over every run without maintenance commands in which every keyer lets itself be opened, the cache is right and the keyer between commands in every state with an open session |
| ActorWitnesses.ReopenLeavesAStaleCache | crates/cathub/src/winkeyer/actor.rs:478-497 | A run from the start with a stored profile, a maintenance command whose first byte the opening takes away, the release, and a speed-pot byte that counts as the answer to Host Open: no emergency stop, and the broker believes in a profile that the keyer does not hold |
| ActorReopening.PendingReopenAdmitsMaintenance | crates/cathub/src/winkeyer/actor.rs:478-497 | While a reopen is pending, a client is granted maintenance exactly when nobody else holds it; the answer to Host Open then has the opening bytes written, and takes nothing from the holder, exactly when it is not 0xff |
| ActorWitnesses.ReopenWritesIntoMaintenance | crates/cathub/src/winkeyer/actor.rs:478-497 | A run from the start in which a client is granted maintenance while the host session is still being reopened after another's, and the opening bytes are written into its maintenance |
| ActorRuns.JobsStartUnderTheirProfile | crates/cathub/src/winkeyer/broker.rs:574-600 | In those states, the writes before a job's payload would leave the whole profile of its client in the device, whichever job came next |
| ActorRuns.JobsOpenUnderTheirProfile | crates/cathub/src/winkeyer/broker.rs:574-622 | In every such state, in every step that does not extend the active job, every keying write among the returned actions finds the whole profile of its client in the keyer: each job is opened under its client's profile |
| ActorRuns.AppendsFindTheJobProfile | crates/cathub/src/winkeyer/broker.rs:344-357 | A step that extends the active job writes the piece first, while the keyer still holds the whole profile under which the job was opened; it holds the client's current profile if the client is the cached one or has nothing stored |
| ActorRuns.WritesEndBetweenCommands | crates/cathub/src/winkeyer/broker.rs:231-651 | Outside maintenance commands, every write of every step in session is a sequence of whole commands and letters, so the keyer reads the stream as it was meant |
| ActorWitnesses.APieceIsKeyedUnderAnOldProfile | crates/cathub/src/winkeyer/broker.rs:280-357 | A run from the start in which a client stores a register command while its stream job plays and submits another piece: the piece is keyed although the keyer does not hold the client's profile |
| ActorRuns.EmergencyDuringMaintenance | crates/cathub/src/winkeyer/actor.rs:799-805 | An emergency stop during maintenance skips the reopen; the cache is right afterwards, whatever maintenance did to the device, for a keyer found between commands, if and only if the stop replays a foreground profile, the cache is empty, or the cached profile is empty |
| ActorRuns.EmergencyInsideACommand | crates/cathub/src/winkeyer/actor.rs:799-805 | A keyer that maintenance left inside a command can take the emergency bytes as parameters: the cache is right after the stop, whatever the keyer holds and wherever it is in its stream, if and only if the foreground client, or without one the cached client, has nothing stored |
| ActorWitnesses.EmergencyLeavesAStaleCache | crates/cathub/src/winkeyer/actor.rs:799-850 | A run from the start with a stored profile, a maintenance command and an emergency stop, after which the session is in order and the broker believes in a profile that the keyer does not hold |
| ActorWitnesses.AnEmptyProfileIsNotEnough | crates/cathub/src/winkeyer/actor.rs:799-850 | A run in which nothing is stored at the emergency stop, so that the cache cannot be wrong about it, and the keyer, found inside a command, still takes the next stored command as parameters |
| ActorKeying.MaintenanceOpensInsideACommand | crates/cathub/src/winkeyer/actor.rs:846-850 | The bytes written in front of the first maintenance command end inside a two-byte command: by the keyer's grammar the first byte of the maintenance command is taken as its parameter, for every command |
| ActorRuns.IdentifiersSaturate | crates/cathub/src/winkeyer/broker.rs:328-388 | A fresh submission leaves the counter on a new identifier if and only if the counter was below the largest 64-bit value |
| ActorRuns.TwoJobsShareAnIdentifier | crates/cathub/src/winkeyer/broker.rs:328-388 | At the ceiling, two submissions in a row by two clients are both given the largest 64-bit value, and both jobs wait under it |
| ActorRuns.RefusedSubmissionKeepsLease | crates/cathub/src/winkeyer/actor.rs:577-596 | While reconnecting, a refused submission leaves the keyer holding the station lease exactly when it is well formed, the keyer is idle with its key up, and no CAT session holds the lease |
| ActorWitnesses.RefusedSubmissionTakesTheLease | crates/cathub/src/winkeyer/actor.rs:577-596 | A run from the start, one lost session and one refused submission, after which no job is live and the keyer keeps CAT sessions from transmitting |
| ActorRuns.StreamOvertakesIff | crates/cathub/src/winkeyer/broker.rs:328-388 | An accepted piece goes behind everything its client has waiting, unless it extends the client's active job while that client also has a queued one |
| ActorWitnesses.StreamOvertakes | crates/cathub/src/winkeyer/broker.rs:328-388 | A run from the start with a stream job, a plain job and a stream piece of one client: the piece is written while the plain job waits |
| ActorRuns.WatchdogFreesKeyerLeaseIff | crates/cathub/src/lib.rs:507-529 | The station watchdog reads the expired owner, waits for the radio, and releases that owner: reading never breaks the keyer's transmit exclusion, and releasing breaks it exactly when the owner it read is the keyer and a keyer job is active now, started before the read or since |
| ActorWitnesses.WatchdogLetsCatKeyIntoAJob | crates/cathub/src/lib.rs:507-529 | A run from the start in which the watchdog takes the lease from a running job and a CAT session keys into it |
| ActorWitnesses.WatchdogTakesTheLeaseOfALaterJob | crates/cathub/src/lib.rs:507-529 | A run from the start in which no job is active when the expired lease is read, and the job that has started since loses the lease it has just taken |
| ActorRuns.ClearDuringMaintenance | crates/cathub/src/winkeyer/actor.rs:781-789 | During one client's maintenance, another client's Clear writes to the device exactly when that client is the primary one, and changes no state |
| ActorWitnesses.ClearReachesMaintenance | crates/cathub/src/winkeyer/actor.rs:781-789 | A run from the start in which the primary client's Clear is written in the middle of another client's maintenance |
| ActorWitnesses.PollReachesMaintenance | crates/cathub/src/winkeyer/actor.rs:540-548 | A run from the start in which somebody keys by hand, a client takes up maintenance, and a tick 100 ms later writes a status poll into it |
| ActorPromises.JobsAreCompletedExactlyWhenDone | crates/cathub/src/winkeyer/broker.rs:489-522 | Over every run, with the status bytes since the active job's start remembered: a step reports a job complete if and only if it is the active one and either an idle status byte comes after one that was not idle, or a tick finds that a status has come since, the last one idle, and the settle time has passed since the start but not the transmit ceiling |
| ActorPromises.JobsAreCanceledExactlyWhenCalledOff | crates/cathub/src/winkeyer/broker.rs:231-483 | Over every run: while the session holds, a step reports a job cancelled if and only if the job is live and its client cancels it or leaves, everything is stopped or shut down, or a tick finds the active job at the transmit ceiling |
| ActorPromises.LosingTheSessionEndsEverything | crates/cathub/src/winkeyer/actor.rs:556-571 | A step that loses the session announces the end of every job that was live, leaves none, ends maintenance and any pending reopen, and frees the keyer's lease |
| ActorPromises.CanceledJobsAreCleared | crates/cathub/src/winkeyer/broker.rs:231-483 | Over every run below the identifier ceiling: while the session holds, the step that cancels the active job clears the device buffer before it writes anything else |
| BrokerOrder.JobsArePolledWhenOpened | crates/cathub/src/winkeyer/broker.rs:574-622 | In every step that does not extend the active job, every keying write is followed at once by a status poll |
| ActorPromises.ClientsAreWhatTheyChose | crates/cathub/src/winkeyer/broker.rs:216-310 | Over every run, going by requests and replies alone: the broker's clients are those registered and not gone, each with the role it registered for, the speed it chose last, and the last command it stored for each register |
| ActorPromises.JobsAreWhatWasOrdered | crates/cathub/src/winkeyer/broker.rs:328-388 | Over every run below the identifier ceiling: every live job is its submitter's, at the speed the submission asked for or else the submitter's at that moment, and a stream exactly if it was submitted as one |
| BrokerEndings.CancelJobEnds | crates/cathub/src/winkeyer/broker.rs:432-464 | Cancelling one job cancels that job if it is live and the client's own, nothing else, and answers whether it was |
| BrokerEndings.CancelClientEnds | crates/cathub/src/winkeyer/broker.rs:390-430 | Cancelling a client cancels exactly its queued jobs, and its active one if that is asked for |
| ActorRights.MaintenanceKeepsOthersOut | crates/cathub/src/winkeyer/actor.rs:663-895 | In every state of every run with maintenance held or a reopen pending: speed, submission, configuration, owner and maintenance requests of other clients, and submissions and owner commands of anyone, write nothing, change nothing and are refused as maintenance busy, and no others are refused so; and the requests that write at all are the holder's, a primary client's Clear, the emergency stop, the shutdown, and the maintenance command that takes a free maintenance during a reopen |
| ActorRights.MaintenanceIsGranted | crates/cathub/src/winkeyer/actor.rs:829-853 | A maintenance command is carried out exactly when nobody else holds maintenance, nothing is sent or waits, and the device is there; then it is written, behind the opening bytes if it is the first, and its client holds maintenance; otherwise nothing changes |
| ActorRights.MaintenanceFollowsTheRequests | crates/cathub/src/winkeyer/actor.rs:689-862 | Maintenance changes hands only by a maintenance command that is carried out, by the holder giving it back, and by an emergency stop; only giving it back opens the device again, which stays pending until a byte comes or an emergency stop |
| ActorRights.BytesEndTheReopen | crates/cathub/src/winkeyer/actor.rs:478-502 | Any byte ends a pending reopen, 0xff by losing the session; a byte during maintenance changes nothing and writes nothing |
| ActorRights.TicksInMaintenance | crates/cathub/src/winkeyer/actor.rs:540-548 | A tick under maintenance or a pending reopen writes a status poll exactly when the last status seen was busy and the poll is due, and nothing else |
| ActorRights.WritersOutsideMaintenance | crates/cathub/src/winkeyer/actor.rs:663-895 | Outside maintenance, the requests that write are: while a job is active, its own client's commands, clear, cancellation, departure and pieces of its stream that fit; otherwise a primary client's speed, configuration, command and clear, an accepted submission and the maintenance command; and the two stops |
| ActorRights.SubmissionIsAcceptedExactlyWhen | crates/cathub/src/winkeyer/actor.rs:718-780 | A submission is accepted if and only if there is no maintenance, it has 1 to 120 bytes, the device is there, its client is known, there is room for it in its stream or in the queue of 64, and, unless a job is active, nobody keys by hand and no CAT session holds the station lease |
| ActorRights.RefusalsGiveTheirReason | crates/cathub/src/winkeyer/actor.rs:718-780 | A refused submission is answered with a reason that holds, changes nothing but possibly the lease, and writes nothing; a piece that does not fit its stream is answered as if its client were unknown |
| ActorRights.OwnersCommandAtOnce | crates/cathub/src/winkeyer/actor.rs:863-885 | Outside maintenance, a command by the client of the active job, or by a primary client while nothing is active, is written as it is; any other is refused as invalid and writes nothing |
| ActorRights.ChoicesReachAnIdleDevice | crates/cathub/src/winkeyer/actor.rs:698-828 | Outside maintenance, a speed or a configuration command is written at once exactly when its client is primary and nothing is active, and is answered for what it is either way |
| ActorRights.OnePrimaryAtATime | crates/cathub/src/winkeyer/actor.rs:676-688 | A registration is refused exactly when it asks for the primary role and a primary client exists |
| ActorRights.CancellationsAreAnswered | crates/cathub/src/winkeyer/actor.rs:790-798 | Cancelling a job is answered with whether the job was live and the client's own |
| ActorRights.IdleKeyerHoldsNoLease | crates/cathub/src/winkeyer/actor.rs:934-946 | Once the session has answered a request, a tick, or a byte outside maintenance, a keyer without work and with its key up does not hold the station lease |
| ActorRights.KeyerLeavesTheLeaseOfOthers | crates/cathub/src/winkeyer/actor.rs:427-646 | No request, byte, tick, fault or reconnect takes the lease from a CAT session |
| ActorRights.PaddleTakesTheLease | crates/cathub/src/winkeyer/actor.rs:509-523 | A status byte with the busy, break-in or key-down bit, while no job is active, takes a free lease for the keyer from that moment |
| ActorRights.StatusFollowsTheBytes | crates/cathub/src/winkeyer/actor.rs:473-539 | The broker's status is that of the last status byte that did not go to maintenance or to a reopen, and changes by nothing else |
| ActorRights.TicksPoll | crates/cathub/src/winkeyer/actor.rs:540-553 | A tick that ends no job writes exactly a status poll, exactly when the keyer is busy or has a job and 100 ms have passed since the last one by a tick, and changes nothing else |
| ActorRights.SessionsComeBackWhole | crates/cathub/src/winkeyer/actor.rs:597-632 | A reconnect attempt brings the session back exactly if it reaches the end; then the foreground's speed has been written last and the polls are timed from there; clients and lease are untouched |
| ActorSafety.StepKeepsSafe | crates/cathub/src/winkeyer/actor.rs:427-646 | Every request, device byte, tick, fault and reconnect keeps the work, size and maintenance invariant, and drops no cancellation |
| ActorSafety.StepKeepsExclusive | crates/cathub/src/winkeyer/actor.rs:427-646 | Every step that respects the keyer's lease keeps: an active job implies the keyer owns the station lease |
| ActorBooks.StepKeepsBooks | crates/cathub/src/winkeyer/actor.rs:427-646 | Every step keeps the books over the actions it returns: conservation, order, byte accounting and the interleaving monitor |
| ActorDevice.StepKeepsReading | crates/cathub/src/winkeyer/actor.rs:427-646 | Every step keeps the profile cache true of the registers, with each write read by the keyer's own command grammar; maintenance and lost sessions make the device unknown, reopening makes it known |
| ActorKeying.StepKeepsBench | crates/cathub/src/winkeyer/actor.rs:427-646 | Every step keeps the profile cache true of a keyer that reads one byte stream across maintenance and reopening, which stands between commands whenever the device is known, and keeps the profile under which the active job was opened in the device |
| KeyerActor.PhysicalActor.HandleRequest | crates/cathub/src/winkeyer/actor.rs:663-895 | The request handler of the actor object changes state, replies and returns actions exactly as the state machine |
| KeyerActor.PhysicalActor.OnRequest | crates/cathub/src/winkeyer/actor.rs:451-472 | A request in the session or reconnect loop, including the lease release and the write failure paths, is one step of the state machine |
| KeyerActor.PhysicalActor.OnByte | crates/cathub/src/winkeyer/actor.rs:473-539 | A byte from the device, including the reopen answer, maintenance relay and paddle activity, is one step of the state machine |
| KeyerActor.PhysicalActor.OnTick | crates/cathub/src/winkeyer/actor.rs:540-553 | A tick runs the watchdog, the idle settle and the status poll as one step of the state machine |
| KeyerActor.PhysicalActor.OnReadFault | crates/cathub/src/winkeyer/actor.rs:535-571 | A read error cancels everything, ends maintenance and frees the station lease as one step of the state machine |
| KeyerActor.PhysicalActor.OnReconnect | crates/cathub/src/winkeyer/actor.rs:597-632 | A reconnect attempt, successful or failing at each of its three stages, is one step of the state machine |
| KeyerRuns.Perform | crates/cathub/src/winkeyer/actor.rs:427-646 | Any event, of the actor, the CAT sessions or the station watchdog, takes the object to the next state of the state machine and hands out what it says |
| KeyerRuns.Drive | crates/cathub/src/winkeyer/actor.rs:427-646 | Driving the object through any sequence of events follows the run of the state machine, state by state and output by output |
| KeyerRuns.DriveSpawned | crates/cathub/src/winkeyer/actor.rs:427-646 | A freshly spawned object driven through any events: no backlog without an active job, no work in maintenance, no dropped result; under the rules of the runs, an active job means the keyer owns the lease, every issued job is live or ended once, and a keyer that was not opened or cut off inside a command holds the profile believed applied |
| BrokerLedger.EnqueueKeepsBooks | crates/cathub/src/winkeyer/broker.rs:328-388 | Submitting, appending to the active stream, appending to the last queued stream and every refusal keeps the books: every job live or ended once, identifiers ordered, payloads accounted, and no foreign write during a job |
| BrokerLedger.UnregisterKeepsBooks | crates/cathub/src/winkeyer/broker.rs:231-262 | Unregistering a client, with its queued jobs and its active job keeps the books: every job live or ended once, identifiers ordered, payloads accounted, and no foreign write during a job |
| BrokerLedger.CancelClientKeepsBooks | crates/cathub/src/winkeyer/broker.rs:390-430 | Cancelling a client's queue, its active job, or clearing an idle device keeps the books: every job live or ended once, identifiers ordered, payloads accounted, and no foreign write during a job |
| BrokerLedger.CancelJobKeepsBooks | crates/cathub/src/winkeyer/broker.rs:432-464 | Cancelling one job of one client keeps the books: every job live or ended once, identifiers ordered, payloads accounted, and no foreign write during a job |
| BrokerLedger.EmergencyStopKeepsBooks | crates/cathub/src/winkeyer/broker.rs:466-483 | An emergency stop keeps the books: every job live or ended once, identifiers ordered, payloads accounted, and no foreign write during a job |
| BrokerLedger.PhysicalErrorKeepsBooks | crates/cathub/src/winkeyer/broker.rs:195-214 | Losing the device keeps the books: every job live or ended once, identifiers ordered, payloads accounted, and no foreign write during a job |
| BrokerLedger.ObserveStatusKeepsBooks | crates/cathub/src/winkeyer/broker.rs:489-505 | A status byte, including completion keeps the books: every job live or ended once, identifiers ordered, payloads accounted, and no foreign write during a job |
| BrokerLedger.ConfirmIdleKeepsBooks | crates/cathub/src/winkeyer/broker.rs:507-522 | Completion after the idle settle time keeps the books: every job live or ended once, identifiers ordered, payloads accounted, and no foreign write during a job |
| BrokerLedger.WatchdogKeepsBooks | crates/cathub/src/winkeyer/broker.rs:529-538 | The transmit watchdog keeps the books: every job live or ended once, identifiers ordered, payloads accounted, and no foreign write during a job |
| BrokerLedger.StartOrRestoreKeepsBooks | crates/cathub/src/winkeyer/broker.rs:574-622 | Starting the next job or restoring the foreground keeps the books, and the start opens the monitor for exactly that job |
| BrokerDevice.SetupInstallsProfile | crates/cathub/src/winkeyer/broker.rs:574-600 | The writes before a job's payload leave the client's whole profile in the device, replayed or already there |
| BrokerDevice.SpeedFollowsTheJob | crates/cathub/src/winkeyer/broker.rs:600-608 | A job without its own buffered speed is keyed at the job's speed, whatever the device held; one that starts with a buffered speed is preceded by profile writes only |
| BrokerDevice.SpeedReturnsToTheForeground | crates/cathub/src/winkeyer/broker.rs:624-651 | Restoring the foreground leaves the device at the primary client's speed, or at the pot when there is none |
| BrokerDevice.RestoreAgrees | crates/cathub/src/winkeyer/broker.rs:624-651 | Restoring the foreground keeps the profile cache true |
| BrokerDevice.SetCommandAgrees | crates/cathub/src/winkeyer/broker.rs:280-310 | Storing a profile command keeps the cache true: written and cached for an idle primary, otherwise the stale cache is dropped |
| BrokerDevice.EnqueueAgrees | crates/cathub/src/winkeyer/broker.rs:328-388 | Submitting keeps the cache true of the device |
| BrokerDevice.EmergencyStopAgrees | crates/cathub/src/winkeyer/broker.rs:466-483 | An emergency stop keeps the cache true of the device |
| BrokerDevice.ReopenAgrees | crates/cathub/src/winkeyer/actor.rs:478-497 | Reopening the host session makes the cache true whatever the device held |
| BrokerDevice.HearsOneStream | crates/cathub/src/winkeyer/protocol.rs:29-84 | A keyer hears the written bytes as one stream: the registers after any writes are those after the commands its parser finds in their concatenation |
| BrokerKeying.AppendUnderProfileIff | crates/cathub/src/winkeyer/broker.rs:280-357 | A piece appended to the active job finds its client's whole current profile, on every device the cache is true of, if and only if the client is still the cached one or has nothing stored |
| Broker.BrokerCore.constructor | crates/cathub/src/winkeyer/broker.rs:162-186 | A new broker is disconnected and empty |
| Broker.BrokerCore.ConnectPhysical | crates/cathub/src/winkeyer/broker.rs:188-193 | Connecting empties the profile cache: the object's fields and returned actions change exactly as the state machine says |
| Broker.BrokerCore.Retain | crates/cathub/src/winkeyer/broker.rs:231-262 | The retain loop keeps the other jobs in order and returns one cancellation per removed job, in queue order |
| Broker.BrokerCore.Drain | crates/cathub/src/winkeyer/broker.rs:466-483 | The drain loop empties the queue and returns its cancellations in order |
| Broker.BrokerCore.ReplayProfile | crates/cathub/src/winkeyer/broker.rs:574-589 | The profile loop writes every stored command in ascending register order |
| Broker.BrokerCore.FindForeground | crates/cathub/src/winkeyer/broker.rs:624-632 | The scan finds the first primary client in identifier order |
| Broker.BrokerCore.PhysicalFailure | crates/cathub/src/winkeyer/broker.rs:195-214 | Losing the device: the object's fields and returned actions change exactly as the state machine says |
| Broker.BrokerCore.RegisterClient | crates/cathub/src/winkeyer/broker.rs:216-229 | Registering, refused for a second primary: the object's fields and returned actions change exactly as the state machine says |
| Broker.BrokerCore.UnregisterClient | crates/cathub/src/winkeyer/broker.rs:231-262 | Unregistering: the object's fields and returned actions change exactly as the state machine says |
| Broker.BrokerCore.SetClientSpeed | crates/cathub/src/winkeyer/broker.rs:264-278 | Choosing a speed: the object's fields and returned actions change exactly as the state machine says |
| Broker.BrokerCore.SetClientCommand | crates/cathub/src/winkeyer/broker.rs:280-310 | Storing a profile command: the object's fields and returned actions change exactly as the state machine says |
| Broker.BrokerCore.ActiveOwnerCommand | crates/cathub/src/winkeyer/broker.rs:312-326 | A command of the active or idle primary owner: the object's fields and returned actions change exactly as the state machine says |
| Broker.BrokerCore.EnqueueJob | crates/cathub/src/winkeyer/broker.rs:328-388 | Submitting: the object's fields and returned actions change exactly as the state machine says |
| Broker.BrokerCore.CancelAll | crates/cathub/src/winkeyer/broker.rs:390-430 | Cancelling a client: the object's fields and returned actions change exactly as the state machine says |
| Broker.BrokerCore.CancelOne | crates/cathub/src/winkeyer/broker.rs:432-464 | Cancelling a job: the object's fields and returned actions change exactly as the state machine says |
| Broker.BrokerCore.Emergency | crates/cathub/src/winkeyer/broker.rs:466-483 | An emergency stop: the object's fields and returned actions change exactly as the state machine says |
| Broker.BrokerCore.Observe | crates/cathub/src/winkeyer/broker.rs:489-505 | A status byte: the object's fields and returned actions change exactly as the state machine says |
| Broker.BrokerCore.ConfirmIdleAfterSettle | crates/cathub/src/winkeyer/broker.rs:507-522 | Idle settle: the object's fields and returned actions change exactly as the state machine says |
| Broker.BrokerCore.TransmitWatchdog | crates/cathub/src/winkeyer/broker.rs:529-538 | The watchdog: the object's fields and returned actions change exactly as the state machine says |
| Broker.BrokerCore.StartNextOrRestore | crates/cathub/src/winkeyer/broker.rs:574-622 | Starting the next job or restoring the foreground: the object's fields and returned actions change exactly as the state machine says |
| WinkeyerProtocol.ParserConservesBytes | crates/cathub/src/winkeyer/protocol.rs:29-112 | Items and the partial command flatten to exactly the bytes read; every item is well formed; a partial command is strictly shorter than its known length of at most 258 |
| WinkeyerProtocol.FeedAppend | crates/cathub/src/winkeyer/protocol.rs:29-48 | However the bytes are split into reads, the same items come out |
| WinkeyerProtocol.ParseInvertsFlatten | crates/cathub/src/winkeyer/protocol.rs:29-112 | Parsing the bytes of any list of well-formed items gives the list back |
| WinkeyerProtocol.CommandsTakeTheirParameters | crates/cathub/src/winkeyer/protocol.rs:29-112 | A command is complete after exactly the parameters of its opcode, an Admin command after those of its subcommand, a Pointer command that moves or adds after one more, whatever follows |
| WinkeyerProtocol.SingleBytesAreItems | crates/cathub/src/winkeyer/protocol.rs:29-103 | A byte above 0x1f outside a command is text, and an opcode without parameters is a command by itself |
| WinkeyerProtocol.ClientParser.Push | crates/cathub/src/winkeyer/protocol.rs:29-48 | The parser object takes one byte exactly as the parser state machine and stays within its bounds |
| WinkeyerProtocol.ClientParser.RefineLength | crates/cathub/src/winkeyer/protocol.rs:59-84 | The expected length is refined by the second byte of Admin and Pointer commands only |
| WinkeyerProtocol.ClientParser.Reset | crates/cathub/src/winkeyer/protocol.rs:50-53 | Reset returns the parser to an item boundary |
| WinkeyerEndpoint.ForwardsInOrder | crates/cathub/src/winkeyer/endpoint.rs:115-195 | Without Clear Buffer, for every split of the input into reads and every failure of broker calls: what the endpoint forwards, concatenated, is exactly the permitted data and commands in input order while the session lives, and a prefix of it if the session closes |
| WinkeyerEndpoint.ItemHands | crates/cathub/src/winkeyer/endpoint.rs:117-183 | Each item hands on exactly its permitted bytes behind everything handed on before |
| WinkeyerEndpoint.ConfigurationBetweenPieces | crates/cathub/src/winkeyer/endpoint.rs:115-195 | One read of an open session that submits a piece, stores a register command and submits another piece, in this order |
| EndpointTraffic.EndpointSendsProperBytes | crates/cathub/src/winkeyer/endpoint.rs:115-360 | Whatever a client writes: every submitted payload is complete data and buffered commands, every configuration command is one a profile may hold, every owner command one it cannot hold |
| EndpointRights.CallsArePermitted | crates/cathub/src/winkeyer/endpoint.rs:115-434 | Whatever a client writes: everything asked of the broker for it, and every answer, is permitted; keying at once or holding the transmitter, in a submission or as a command, needs the permission to transmit |
| EndpointRights.SignalsInOrder | crates/cathub/src/winkeyer/endpoint.rs:115-434 | However the input is split into reads: the cancellations, the releases of maintenance and the answers to queries are exactly those due, in order, while the session lives, and a prefix of them if it closes |
| EndpointRights.ClearDiscards | crates/cathub/src/winkeyer/endpoint.rs:124-140 | Clear Buffer discards what was not handed over yet, and asks for a cancellation exactly when its client may send |
| EndpointRights.CommandsGoWhereTheyBelong | crates/cathub/src/winkeyer/endpoint.rs:279-360 | For a client that may control and transmit: a speed is chosen if it is the pot or 5 to 99 words a minute, opcodes 0x0b, 0x14 and 0x16 act on what is being sent, and every other command that is neither a query nor buffered is stored as configuration |
| EndpointRights.DisruptiveCommandsAreMaintenance | crates/cathub/src/winkeyer/endpoint.rs:362-434 | Admin commands that the endpoint neither answers nor stores nor ignores go to the broker as maintenance exactly if the client may configure, and close the session if it may not or the broker refuses |
| EndpointRights.HarmlessAdminIsKept | crates/cathub/src/winkeyer/endpoint.rs:362-434 | Which admin commands of a client that may control are stored, and which are ignored |
| EndpointRights.BufferedCommandsWait | crates/cathub/src/winkeyer/endpoint.rs:141-160 | A buffered command waits in front of the text, whose pending part is handed over first; key-immediate and PTT commands need the permission to transmit |
| EndpointTraffic.TypedTextIsKeyingIffNoTab | crates/cathub/src/winkeyer/grpc.rs:212-229 | Text accepted by the typed interface is keyed as printable data only if and only if it has no tab: the validation admits byte 0x09, which is the opcode of a two-byte register command |
| EndpointTraffic.TabReachesTheRegisters | crates/cathub/src/winkeyer/grpc.rs:212-229 | A concrete accepted text that overwrites a register of the keyer |
| EndpointSession.Endpoint.ReadChunk | crates/cathub/src/winkeyer/endpoint.rs:115-195 | The per-byte loop over one read makes exactly the calls of the session model and closes exactly when it does |
| EndpointSession.Endpoint.Serve | crates/cathub/src/winkeyer/endpoint.rs:93-195 | The reads of a session until it closes: the object has called the broker exactly as the session model, so for every split of the input it has forwarded what is due, in order, or a prefix of it once closed |
| EndpointSession.Endpoint.HandleItem | crates/cathub/src/winkeyer/endpoint.rs:120-182 | One item: data collected, Clear drops what is pending, buffered commands gather, anything else flushes first |
| EndpointSession.Endpoint.HandleOneCommand | crates/cathub/src/winkeyer/endpoint.rs:279-360 | Command routing by session, permission and policy makes exactly the call of the session model |
| EndpointSession.Endpoint.HandleAdminCommand | crates/cathub/src/winkeyer/endpoint.rs:362-434 | Admin routing makes exactly the call of the session model |
| EndpointSession.Endpoint.FlushStream | crates/cathub/src/winkeyer/endpoint.rs:242-264 | Flushing sends the pending prefix and text as one payload, or nothing when both are empty |
| Ptt.PttManager.Key | crates/cathub/src/ptt.rs:48-61 | Keying takes or re-asserts the lease for a permitted session; while another session holds it, nothing changes |
| Ptt.PttManager.Release | crates/cathub/src/ptt.rs:64-70 | Only the owner's release frees the lease |
| Ptt.PttManager.Expired | crates/cathub/src/ptt.rs:85-92 | The owner is reported once the ceiling has elapsed and keeps the lease |
| Ptt.LeaseFollowsTheLastKey | crates/cathub/src/ptt.rs:48-83 | After any sequence of keyings and unkeyings, whoever holds the lease keyed last among its own, and the lease counts from then |
| Ptt.OnlyTheOwnerMovesTheLease | crates/cathub/src/ptt.rs:48-70 | A permitted session gets the lease exactly when nobody else holds it, and nobody loses it to another session |
| Ptt.ExpiresAtTheCeiling | crates/cathub/src/ptt.rs:85-92 | The owner is found expired exactly when at least the ceiling has passed since the moment the lease counts from |
| ClientSession.CoverIsLostExactlyByAbandoning | crates/cathub/src/dialect/mod.rs:101-157 | With taking the lease, the command's turn at the radio and the session's going on as separate steps: after any step of any session or of the watchdog, whoever transmits or has a key command on its way holds the lease, except exactly when a session whose command was lost goes on although it transmits, or the watchdog releases an owner that transmits or has a key command on its way |
| ClientSession.OneTransmitterAtATime | crates/cathub/src/ptt.rs:48-70 | Over any interleaving of writes, disconnects and watchdog rounds that never abandons a keyed radio: while one session transmits, no other session has a key command on its way, and its attempts to send one are refused |
| ClientSession.ReleaseAbandonsIffKeyedSince | crates/cathub/src/lib.rs:507-529 | Whatever happens since the watchdog read the owner, its release abandons the radio if and only if, going by the commands since, the owner transmits or has a key command on its way |
| ClientSession.QuietOwnerIsReleasedSafely | crates/cathub/src/lib.rs:507-529 | If the watchdog's unkey command arrives, and the owner has no key command on its way and asks for none in the meantime, the release abandons nothing |
| ClientSession.RekeyDuringExpiry | crates/cathub/src/lib.rs:507-529 | A run in which every command reaches the radio and a second session's key command arrives while the first transmits |
| ClientSession.FailedRekeyFreesTheLease | crates/cathub/src/dialect/mod.rs:118-133 | A failed attempt of the owner to key again frees the lease while the radio is still keyed |
| ClientSession.ForeignUnkeySilencesTheRadio | crates/cathub/src/dialect/mod.rs:135-143 | An unkey by a session without the lease is sent; the lease stays with its owner |
| ClientSession.SubmittedExactlyWhen | crates/cathub/src/dialect/mod.rs:101-143 | A write is submitted to the radio if and only if the session is permitted to make it, it is not redundant, and, to key, the session may transmit and nobody else holds the lease; without permission the station is unchanged and the answer is a refusal |
| ClientSession.SubmissionsArePermitted | crates/cathub/src/dialect/mod.rs:101-157 | Over every run of sessions and watchdog, every submitted operation was permitted to its session and not redundant |
| ClientSession.PermissionsAreNarrow | crates/cathub/src/permissions.rs:98-106 | Keying needs its own permission; permission for frequencies is permission for frequencies only |
| ClientSession.LeavingUnkeysTheHolder | crates/cathub/src/dialect/mod.rs:215-230 | A connection that closes has an unkey command sent exactly if its session holds the lease, which it keeps until that command has been answered |
| ClientSession.Session.BeginApply | crates/cathub/src/dialect/mod.rs:101-127 | Up to the first wait, the session object applies permission, suppression and lease in the order of the model; without permission it refuses, submits nothing and leaves the lease alone, whatever the mutation |
| ClientSession.Session.EndApply | crates/cathub/src/dialect/mod.rs:118-157 | From the radio's answer on, whatever has happened to the lease meanwhile, an unkey and a lost key command give the session's own lease back |
| ClientSession.Session.Apply | crates/cathub/src/dialect/mod.rs:101-157 | With nothing in between, the two parts make one write of the model; without permission it is refused, nothing is submitted and the lease is unchanged |
| RadioState.StateHandle.RecordChange | crates/cathub/src/state.rs:265-313 | Recording updates snapshot, coverage, uncertain mode facts and the broadcast exactly as the model |
| RadioState.StateHandle.Apply | crates/cathub/src/state.rs:375-455 | One field is updated and the report of a change is true exactly when its value changed |
| RadioState.ModeDigits | crates/cathub/src/model.rs:179-205 | A mode survives the Kenwood digit except that Unknown becomes USB; a digit survives being read exactly when it is one of the eight written ones |
| LagRecovery.ApplyAssigns | crates/cathub/src/state.rs:375-455 | Applying a change assigns exactly the facts it names, and an unchanged report means no visible fact changed |
| LagRecovery.BroadcastsReconstructTheSnapshot | crates/cathub/src/state.rs:265-313 | Over every run, folding all broadcast changes over the defaults gives the snapshot, up to whether modes have been observed |
| LagRecovery.FullReplay | crates/cathub/src/state.rs:164-208 | From any stale copy, replaying the full list shows exactly the snapshot |
| LagRecovery.LaggedSubscriberConverges | crates/cathub/src/serial_endpoint.rs:102-122 | A subscriber with any stale copy that lost events: from the read that notices, over every further run, it shows exactly the hub's snapshot whenever it has read everything |
| LagRecovery.SubscriberConverges | crates/cathub/src/state.rs:238-313 | A subscriber that starts with a true copy shows exactly the snapshot whenever it has read everything, however often it lags |
| StateHistory.BroadcastExactlyWhenSeen | crates/cathub/src/state.rs:265-313 | A change is broadcast, once and as it was recorded, exactly when a client can see a difference |
| StateHistory.CoveredExactlyWhenReported | crates/cathub/src/state.rs:265-285 | A field is marked for the poller exactly when the radio has reported it by itself at least once |
| StateHistory.UncertainExactlyAfterTuning | crates/cathub/src/state.rs:286-308 | A mode fact is uncertain exactly when a client's write has tuned its VFO to another frequency and nothing has settled the fact since |
| Suppression.SuppressionIsSound | crates/cathub/src/state.rs:124-153 | After any run from a coherent start, of any sessions whose checked writes wait for their turn in any order, with any band memory, operator actions and Hamlib mode commands in two halves, in which each executed write is one that the hub records as the radio executes it: a suppressed write of any kind (frequency, receive VFO, mode or DATA of the receive VFO, split while receiving on A, RIT, XIT) would have left the radio as it is at the moment of the check, its selected VFOs and clarifiers included |
| Suppression.SuppressedExactlyWhenUnchanged | crates/cathub/src/state.rs:124-153 | A write is suppressed if and only if it is not a key command, the hub is certain of what it is about, and recording it would change no value the radio can tell apart |
| Suppression.RunsKeepCoherence | crates/cathub/src/state.rs:265-308 | Over every such run the hub agrees with the radio on frequencies, receive and transmit VFO, split, RIT, XIT and keying, and is wrong about a mode fact only while it marks the fact uncertain |
| Suppression.SentKeepsCoherenceIff | crates/cathub/src/backend/kenwood/ts590.rs:180-262 | Of the writes other than mode and DATA, exactly these are recorded as the radio executes them: a receive VFO that does not end a split, a split set while receiving on VFO A that the hub takes for B transmitting or its end that it takes for A, a clarifier whose offset is left alone, and every frequency and key write |
| Suppression.WaitingStaysOnVfo | crates/cathub/src/radio/mod.rs:490-535 | A queued mode or DATA write, and the DATA half of a Hamlib mode command, still meets the receive VFO it is addressed to, however long it waits and whatever others do, as long as nothing moves the receive VFO |
| Suppression.TuningUnlocksModeWrites | crates/cathub/src/state.rs:286-308 | Once a frequency write that changes the frequency is executed, mode and DATA writes to that VFO are not suppressed, however the run continues, until the fact is reported or written |
| Suppression.SplitKeepsCoherenceIffReceivingOnA | crates/cathub/src/backend/kenwood/ts590.rs:235-246 | Setting split with VFO B transmitting, or ending it with A, keeps the cache coherent if and only if the radio is receiving on VFO A |
| Suppression.SplitSuppression | crates/cathub/src/state.rs:142-144 | Suppressing a split write is harmless if and only if the radio is receiving on VFO A |
| Suppression.SplitWhileReceivingOnB | crates/cathub/src/backend/kenwood/ts590.rs:235-246 | A concrete split asked for while receiving on VFO B, after which cache and radio disagree on the receive VFO |
| Suppression.SplitEndedOnB | crates/cathub/src/backend/kenwood/ts590.rs:235-246 | A split ended with VFO B named, after which the radio transmits on A and the cache says B |
| Suppression.ReceivingOnTheTransmitVfo | crates/cathub/src/backend/kenwood/ts590.rs:180-206 | During a split, receiving on the transmit VFO, which ends the split at the radio while the cache goes on saying split |
| Suppression.OffsetIsNotSent | crates/cathub/src/backend/kenwood/ts590.rs:247-260 | A clarifier offset that is recorded although only the clarifier's switch is sent |
| Suppression.ClarifierSuppressedWrongly | crates/cathub/src/backend/kenwood/ts590.rs:311-389 | The operator's clarifier is not heard, so a write of what the cache remembers is suppressed although it would have changed the radio |
| RadioCommands.CommandsAreHeard | crates/cathub/src/backend/kenwood/ts590.rs:180-389 | Every command that the backend sends for a frequency, a VFO, split, mode or DATA, heard back as a report, is recorded as what the write records |
| RadioCommands.CommandsComeOutFrameByFrame | crates/cathub/src/radio/mod.rs:117-157 | The frames of any commands sent back to back come out of the framer of a semicolon-terminated radio one by one, however long their frequencies |
| Suppression.OffVfoModeWrite | crates/cathub/src/backend/kenwood/ts590.rs:208-210 | A mode write that has its turn while the other VFO is receiving keeps every radio coherent that the hub is coherent with, if and only if the hub is certain that the addressed VFO holds the mode, and uncertain of the receive VFO's or certain that it holds it too |
| Suppression.ModeLandsOnTheOtherVfo | crates/cathub/src/dialect/mod.rs:111-155 | A concrete run of two CAT sessions, a VFO switch and a mode write executed in the order in which they came, after which the cache is wrong about both modes and certain of both |
| Suppression.OffVfoModeSuppression | crates/cathub/src/state.rs:135-137 | A suppressed mode write addressed to the VFO that is not receiving is harmless on every radio the hub is coherent with, if and only if the hub is certain of the receive VFO's mode |
| Suppression.OffVfoDataSuppression | crates/cathub/src/state.rs:124-153 | A DATA half that finds the other VFO receiving and is suppressed is harmless on every radio the hub is coherent with, if and only if the hub is certain that the receive VFO has the same flag |
| Suppression.DataWriteOnRig | crates/cathub/src/backend/kenwood/ts590.rs:211-214 | Sent to a given radio, such a DATA write keeps the cache coherent if and only if the addressed VFO already has the flag and the receive VFO's is uncertain or cached as the same |
| Suppression.OffVfoDataWrite | crates/cathub/src/backend/kenwood/ts590.rs:211-214 | It keeps every radio coherent that the hub is coherent with, if and only if the hub is certain that the addressed VFO has the flag, and uncertain of the receive VFO's or certain that it is the same |
| Suppression.OffVfoDataWriteIsNeverSafe | crates/cathub/src/hamlib_net.rs:418-453 | If the hub still finds the write necessary at its turn, some radio it is coherent with becomes incoherent, whatever the hub knows |
| Suppression.OffVfoDataWriteCanGoWell | crates/cathub/src/hamlib_net.rs:418-453 | Some radio stays coherent if and only if, of either VFO, the hub is uncertain of the flag or certain that it is the one being set |
| Suppression.HamlibHalfSuppressedWrongly | crates/cathub/src/hamlib_net.rs:418-453 | A concrete run from CW to plain USB, an operator's A/B switch after the mode half has been sent, in which the DATA half is suppressed with nothing uncertain although it would have changed the radio |
| Suppression.HamlibHalfSentWrongly | crates/cathub/src/hamlib_net.rs:418-453 | A concrete run in which the operator switches while the DATA half waits for its turn, and the cache is wrong about VFO A without saying so |
| Kenwood.FreqFrameReadsBack | crates/cathub/src/dialect/kenwood/mod.rs:58-64 | A printed frequency frame is recorded as that frequency of that VFO, for every 64-bit frequency |
| Kenwood.StatusReadsBackIffItFits | crates/cathub/src/dialect/kenwood/ts590.rs:33-51 | The parser reads the printed status frame back if and only if the active frequency is below 10^11 Hz; above, it reads another frequency or none |
| Kenwood.TwelveDigitStatus | crates/cathub/src/dialect/kenwood/ts590.rs:33-51 | What the parser makes of every twelve-digit frequency: in LSB a tenth of it on VFO B, in every other mode nothing |
| Kenwood.StatusTooWide | crates/cathub/src/dialect/kenwood/ts590.rs:33-51 | A concrete status frame, 100 GHz in LSB on VFO A, that is read back as 10 GHz on VFO B |
| Kenwood.ResyncReadsBack | crates/cathub/src/dialect/kenwood/ts590.rs:287-298 | From every starting state, feeding the resync frames to the backend's parser reproduces both frequencies, receive VFO, active mode (Unknown as USB), PTT and split, if and only if the active frequency is below 10^11 Hz |
| Kenwood.ResyncTransmitVfo | crates/cathub/src/backend/kenwood/ts590.rs:111-144 | The transmit VFO comes back if and only if split means that it differs from the receive VFO |
| Kenwood.FrameSplits | crates/cathub/src/backend/kenwood/ts590.rs:51-66 | A two-letter verb and a payload without letters or terminators split as they were joined |
| Kenwood.RecordFrame | crates/cathub/src/backend/kenwood/ts590.rs:311-389 | The recording method changes the shared state exactly as the model for every frame |
| Kenwood.PowerReadsBack | crates/cathub/src/backend/kenwood/ts590.rs:372-384 | A power frame is recorded as that many watts of the transmitting VFO's full scale, 25 W in AM and 100 W otherwise; a number beyond 32 bits is not recorded |
| Kenwood.RecordStatus | crates/cathub/src/backend/kenwood/ts590.rs:111-144 | The five facts of a status frame are recorded in order |
| Kenwood.RoutedFrameIsRelayedOnce | crates/cathub/src/radio/mod.rs:419-433 | Every unsolicited frame is relayed verbatim exactly once, behind the changes it caused; a frame that is not understood changes nothing and is marked as such |
| Kenwood.Route | crates/cathub/src/radio/mod.rs:419-433 | The routing method changes the shared state exactly as the model |
| RadioFramer.PushAppend | crates/cathub/src/radio/mod.rs:133-153 | However the stream is cut into reads, frames and buffer are the same |
| RadioFramer.PushIsBounded | crates/cathub/src/radio/mod.rs:133-157 | The buffer stays within 4096 bytes without a delimiter; every frame is within the bound with exactly one delimiter, at its end |
| RadioFramer.StringYieldsOneFrame | crates/cathub/src/radio/mod.rs:133-157 | A delimited string yields one frame, its own end; it is delivered whole if and only if it has at most 4096 bytes |
| RadioFramer.ProperFramesComeOut | crates/cathub/src/radio/mod.rs:133-153 | A stream of proper frames comes out frame by frame |
| RadioFramer.ResynchronisesAtTheFirstDelimiter | crates/cathub/src/radio/mod.rs:133-153 | After any buffered bytes and any junk, the first delimiter yields one frame and every proper frame behind it is intact |
| RadioFramer.Framer.Push | crates/cathub/src/radio/mod.rs:133-153 | The byte loop of the framer object computes exactly the frames and buffer of the model |
| RadioScheduler.SessionsAreServedInOrder | crates/cathub/src/radio/mod.rs:490-535 | Over any run of submissions and picks: per session, what ran is a prefix of what was submitted, and exactly the rest still waits |
| RadioScheduler.PicksAreUrgent | crates/cathub/src/radio/mod.rs:523-535 | A pick is made exactly when something waits: the first head with the least priority value |
| RadioScheduler.Scheduler.SelectNext | crates/cathub/src/radio/mod.rs:523-535 | The scan loop removes exactly that head, and nothing when every queue is empty |
| RadioScheduler.Scheduler.Enqueue | crates/cathub/src/radio/mod.rs:511-520 | The search loop appends to the session's queue or opens one at the end |
| RadioAnswers.CommandsAreAnsweredOnceInOrder | crates/cathub/src/radio/mod.rs:191-341 | Over any run across lost and reopened links: commands are taken in submission order, at most one is unanswered, the i-th taken is answered by the i-th reply on its own channel, and a link that is down has answered all it took |
| RadioAnswers.FramesHaveOneFate | crates/cathub/src/radio/mod.rs:268-341 | Every received frame is routed once, in order, or belongs to exactly one reply that is good for its command, or was discarded by a multi-line command that failed before its last line, or is held by such a command in flight |
| RadioCauses.AnswersTellWhatHappened | crates/cathub/src/radio/mod.rs:191-341 | Over every run, with whether each command was written and what its reply answers remembered from the events alone: only a written command succeeds; an unwritten one is answered that the transport is lost, and no frame is its own; a written one that awaits no reply always succeeds; one that times out is answered so, and one whose link drops is answered that the transport is lost |
| RadioCauses.FramesAnswerWhatAwaitsThem | crates/cathub/src/radio/mod.rs:160-341 | Over every run, a frame answers the command in flight exactly when it begins with an awaited verb, or is the last awaited line or a downstream error; a frame that no command awaits is routed and answers nothing |
| RadioCauses.UnwrittenTakesTheLinkDown | crates/cathub/src/radio/mod.rs:229-236 | A command that cannot be written takes the link down, and nothing is taken from it until it is reopened |
| RadioAnswers.StepKeepsSound | crates/cathub/src/radio/mod.rs:221-341 | Every event of the loop keeps the ledger of commands, replies and frames |
| RadioTransport.Transport.TakeNext | crates/cathub/src/radio/mod.rs:223-262 | Taking a command writes it and answers at once, awaits a reply, or fails the link |
| RadioTransport.Transport.MatchFrame | crates/cathub/src/radio/mod.rs:268-332 | A frame is matched against the command in flight or routed |
| RadioTransport.Transport.ReplyTimeout | crates/cathub/src/radio/mod.rs:274-291 | A timeout answers the command in flight |
| RadioTransport.Transport.StreamClosed | crates/cathub/src/radio/mod.rs:293-341 | A closed stream answers the command in flight and ends the run |
| RadioTransport.Transport.Serve | crates/cathub/src/radio/mod.rs:357-410 | The supervised loop over any event sequence reaches the state, replies and routed frames of the model run |
| TransmitPower.PrintedLevelReadsBack | crates/cathub/src/model.rs:59-134 | Parsing a printed relative level gives the level back, for every level from 0 to 1000000 |
| TransmitPower.ConversionIsExact | crates/cathub/src/model.rs:136-151 | No 64-bit intermediate saturates: a known maximum converts every level to the exact rounded share, or the remembered value at the observed level |
| TransmitPower.ObservationIsExact | crates/cathub/src/model.rs:101-121 | No 64-bit intermediate saturates when a maximum is inferred |
| TransmitPower.NativeIsExact | crates/cathub/src/model.rs:83-97 | No 64-bit intermediate saturates when a level is computed; it is capped at full scale |
| TransmitPower.NativeConversionIsMonotone | crates/cathub/src/model.rs:83-151 | For native observations a higher level never converts to less power, if and only if the maximum is nonzero or the power is zero |
| TransmitPower.BridgedConversionIsMonotone | crates/cathub/src/model.rs:101-151 | For bridged observations a higher level never converts to less power, whatever the inferred maximum rounds to |
| TransmitPower.ObservedLevelsAreInRange | crates/cathub/src/model.rs:77-121 | Every constructor yields a level that can be printed and read back |
| VirtualSerialProtocol.NegotiationIsTheHighestCommonVersion | crates/cathub-virtual-serial/src/protocol.rs:143-160 | Both sides negotiate the same version: the highest both support within one major generation, and none exactly when there is none |
| VirtualSerialProtocol.LeRoundTrip | crates/cathub-virtual-serial/src/protocol.rs:673-700 | Reading a little-endian integer of any width undoes writing it |
| VirtualSerialProtocol.LeUnique | crates/cathub-virtual-serial/src/protocol.rs:673-700 | Writing the integer read from bytes gives the bytes back |
| VirtualSerialProtocol.KindIsItsNumber | crates/cathub-virtual-serial/src/protocol.rs:208-236 | Message numbers and message kinds correspond one to one |
| VirtualSerialProtocol.EncodeFieldsLoop | crates/cathub-virtual-serial/src/protocol.rs:522-534 | The loop over the ordered map writes the fields by ascending tag |
| VirtualSerialProtocol.DecodeFieldsLoop | crates/cathub-virtual-serial/src/protocol.rs:536-561 | The loop over the remaining input builds the map or returns the first error |
| VirtualSerialCodec.FrameRoundTrip | crates/cathub-virtual-serial/src/protocol.rs:313-391 | Decoding an encoded frame gives the frame, for every frame that can be encoded |
| VirtualSerialCodec.HeaderLayout | crates/cathub-virtual-serial/src/protocol.rs:313-337 | Every part of an encoded header stands at the offset and in the width and byte order of the frame format |
| VirtualSerialCodec.FieldLayout | crates/cathub-virtual-serial/src/protocol.rs:522-534 | A field is its tag, the length of its value and the value |
| VirtualSerialCodec.MessageNumbers | crates/cathub-virtual-serial/src/protocol.rs:208-236 | The message kinds by their numbers, in the order of the message table |
| VirtualSerialCodec.RefusalsShowInTheBytes | crates/cathub-virtual-serial/src/protocol.rs:344-391 | A refused frame is refused for a reason that its bytes show: its length, its magic, the header length, the message number, the payload length, or its fields |
| VirtualSerialCodec.TheFirstFaultDecides | crates/cathub-virtual-serial/src/protocol.rs:536-561 | Behind any well-written fields in any order, the first fault decides the error: a cut field, tag zero, or a repeated tag |
| VirtualSerialCodec.EncodableFrames | crates/cathub-virtual-serial/src/protocol.rs:313-337 | A frame can be encoded exactly when each field fits 32 bits and the whole fits 1 MiB |
| VirtualSerialCodec.FrameNormalises | crates/cathub-virtual-serial/src/protocol.rs:313-391 | Re-encoding an accepted frame succeeds with the same length and meaning, and gives the same bytes if and only if tags ascend and the reserved word is zero |
| VirtualSerialCodec.FieldsNormalise | crates/cathub-virtual-serial/src/protocol.rs:522-561 | The same for the payload alone |
| VirtualSerialCodec.TypedFieldSurvives | crates/cathub-virtual-serial/src/protocol.rs:417-499 | An integer field survives the whole trip at its own width and is refused at every other width |
| VirtualSerialDecoder.DecoderIsChunkIndependent | crates/cathub-virtual-serial/src/protocol.rs:570-611 | For any split of a well-framed stream into pushes, interleaved with requests in any way, the requests return the decoding of each string in order, each once, and the buffer holds exactly the rest |
| VirtualSerialDecoder.NoLengthErrors | crates/cathub-virtual-serial/src/protocol.rs:344-391 | The decoder never reports a well-framed string as incomplete or trailing |
| VirtualSerialDecoder.EverythingComesOut | crates/cathub-virtual-serial/src/protocol.rs:581-606 | Once everything is pushed, enough requests return every string and empty the buffer |
| VirtualSerialDecoder.FramesSurviveTheStream | crates/cathub-virtual-serial/src/protocol.rs:313-606 | Any sequence of frames, encoded, split anywhere, comes out unchanged and in order |
| VirtualSerialDecoder.NextTakesOneString | crates/cathub-virtual-serial/src/protocol.rs:581-606 | A request waits for the whole next string and then consumes exactly it, even when its body is refused |
| VirtualSerialDecoder.FaultsConsumeNothing | crates/cathub-virtual-serial/src/protocol.rs:581-606 | A request fails without consuming anything exactly when the buffered header is at fault |
| VirtualSerialDecoder.FaultsAreFinal | crates/cathub-virtual-serial/src/protocol.rs:581-606 | After a header fault every later request returns the same error and everything pushed stays buffered |
| VirtualSerialDecoder.AStrayByteHidesAFrame | crates/cathub-virtual-serial/src/protocol.rs:581-606 | Every frame that comes out on its own never comes out behind one stray byte, however often the client asks |
| VirtualSerialDecoder.AHiddenFrame | crates/cathub-virtual-serial/src/protocol.rs:581-606 | A concrete such frame |
| VirtualSerialDecoder.FrameDecoder.Push | crates/cathub-virtual-serial/src/protocol.rs:572-574 | Pushing appends to the buffer |
| VirtualSerialDecoder.FrameDecoder.NextFrame | crates/cathub-virtual-serial/src/protocol.rs:581-606 | The decoder object returns and keeps exactly what the model does |

## Left out

- ActorRuns.JobConservation: is over the actions that operations return, not over delivered events, because a write failure partway through a list loses the later notifications in the code as well; and over runs whose identifiers stay below the ceiling.
- ActorRuns.ProfileCacheAgrees: assumes that submitted payloads and commands come from endpoints, which is proved for them; typed text with a tab is outside, as stated above. After a session is opened, or maintenance cut off by an emergency stop, with the keyer inside a command, it speaks again only from the next opening that finds the keyer between commands (`ActorWitnesses.AnEmptyProfileIsNotEnough` shows that the place in the stream matters).
- ActorRuns.NoInterleaving: is over the writes that operations return. The closing bytes that `run_actor` writes after its loops, which clear the keyer and return it to standalone settings, are in no returned list.
- ActorRuns.WritesEndBetweenCommands: says nothing about maintenance commands, which a client may cut anywhere.
- ActorRuns.TransmitExclusion: excludes a station watchdog that releases the keyer under an active job and CAT sessions that use the keyer's own identifier, both of which break it in the code.
- Suppression.SuppressionIsSound: excludes the executed writes that the hub records otherwise than the radio executes them, all of which break it in the code and are listed above, and clarifiers worked at the radio, which the backend does not hear; a suppressed write counts as made at the moment of the check; a radio that changes several facts at once reports them one at a time, except that the two selected VFOs change together; the radio is taken to be split exactly when it receives and transmits on different VFOs.
- ActorPromises.JobsAreCanceledExactlyWhenCalledOff: excludes the steps that lose the session, for which `ActorPromises.LosingTheSessionEndsEverything` stands.
- ClientSession.OneTransmitterAtATime: lets commands arrive in any order, also where the scheduler would keep them in order; excludes the unkeying at shutdown.
- WinkeyerEndpoint.ForwardsInOrder: excludes Clear Buffer, which discards on purpose, and the timeout that drops a partial command.
- LagRecovery.LaggedSubscriberConverges: recording is atomic; the gap between updating the snapshot and sending the broadcast is not modelled.
- Tasks, channels, serial ports, sockets, the gRPC surface, configuration files and logging: only the state that each loop iteration reads and writes is modelled.
- Backoff and timeout durations, and liveness under real scheduling.
- Broker fields that are only displayed: firmware revision, pot reading and its minimum, last error and safety text, queueing time, and the split of a payload into control prefix and intended text.
- The bytes with which an endpoint answers its client, its session mode, and the relay of device events to clients.
- Effects of keyer registers on each other; a register map holds the last command per register.
- The Hamlib, TS-2000 and transparent dialects and the rigctld backend's polling: flat case tables or an unseen peer.
- Kenwood write frames other than frequency, and single-VFO notifications.
- Snapshot fields that no change updates: power-on and passband.
- UTF-8 in CAT payloads: a byte of 0x80 or more makes a number unreadable, whitespace included.
- Dispatch of typed speed requests and the identity strings of the private transport.
