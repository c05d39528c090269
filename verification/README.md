# GAOS session protocol: a verified model

GAOS runs turn- and tick-based games for several seats. Its core is event-sourced: a kernel prepares
each transition on a draft, a host persists the events and commits, clients follow observation deltas,
and a verifier later replays signed evidence. This project models the parts of the SDK whose promises
span many functions and proves those promises for all inputs, runs and interleavings.

- **Session kernel and host lane** (`session_*.dfy`). `session_spec.dfy` says what each prepare call
  computes; `session_draft.dfy`, `session_kernel.dfy` and `session_rehydration.dfy` are the loops and the
  kernel object that compute it in place. `session_replay.dfy` is the second interpreter, which rebuilds
  a kernel from its log. Proved: both interpreters agree on every run; a checkpoint plus the remaining
  log does too; compaction behind a history lookup is a bisimulation; accepted intents can always be
  resolved; retries never run twice; an advance stops short of its target only for a named reason;
  commitments are honoured; a client that folds the published deltas holds the kernel's views; prepared
  transitions commit at most once, on the state they came from; forked states are released exactly
  once; the durable log and the published deltas follow the commits.
- **Observation codec and prediction** (`json*.dfy`, `code_points.dfy`, `observation_codec.dfy`,
  `bounded_diff.dfy`, `json_projection.dfy`, `prediction.dfy`). RFC 6901 pointers, the add, remove and
  replace subset of RFC 6902, canonical JSON with strings as in section 7 of RFC 8259, the bounded diff,
  the projection test and optimistic reconciliation.
- **Seat control and evidence** (`seat_control*.dfy`, `evidence*.dfy`). The schedule of controller
  epochs, its checkpoints, and the verifier of signed command chains.
- **Durable agent runs** (`agent_*.dfy`). The run store as an object, and every party that uses it as
  interleaved atomic steps.
- **Presentation cues** (`presentation_cues.dfy`). Ordered delivery over a channel that loses, repeats
  and reorders.
- **Verifier-kit tar** (`tar_*.dfy`, `utf8.dfy`). The canonical ustar writer and reader, byte by byte,
  with path names decoded as UTF-8 of RFC 3629.

## How to read it

Game code (reducer, view, action mapping, control reducer), hashes, digests and signature checks are
function-valued fields of `SessionTypes.Options`, `Evidence.Crypto` and the like; they are pure and
otherwise arbitrary. Two assumptions are made where a result needs them, always as a visible `requires`:
`Evidence.Collisionless` (no two preimages share a hash) and `Prediction.DigestInjective`. That canonical
text is injective is proved, not assumed. Exceptions are values (`Result`, `Option` with `None` for any
thrown error). What the source updates in place is a class whose methods are proved against functions of
its old state; what an asynchronous caller may find (a failing store, a publisher that stops after some
batches, a failing `apply`) is a parameter.

Seven properties turned out to hold only under a condition. Each condition is exact, in both directions,
and each comes with an input that fails it:

- A log rehydrates exactly when it records no timeout or its session carries a timeout policy the audit
  knows. A tick-bounded policy on an unsigned header is not one: the constructor enables it
  (src/session.ts:1363-1364) and the audit ignores it (src/session.ts:4390-4399). The same holds for the
  events after a checkpoint. One request reaches such a log (`SessionSolo.UnsignedTimeoutRefused`).
- A compacted kernel decides a request as the full one exactly when it is no control under the id of an
  interest that the lookup answers for under `interestCommand` only. The name `gameplaySubmission`
  suggests such a lookup, but the full kernel checks a control against all submission ids
  (src/session.ts:2933-2940). One interest, one compaction and one control reach the difference
  (`SessionSolo.InterestIdReused`).
- A seat-control checkpoint rehydrates exactly when every handoff names a previous chain head, which
  src/seat-control.ts:379 requires and `prepareSeatControl` does not (`SeatControl.UnlinkedHandoff`).
- The invariant behind sound journals survives an append exactly when the append is not an echo: a
  non-terminal event already journaled under the same id with the same content, for a run that has ended.
  The store answers an echo with the ended run, and the executor's next event is accepted behind the
  terminal one. Ids that never repeat exclude echoes; a new room reaches one with a single repeated id
  (`AgentRuns.RepeatedIdsBreakJournal`).
- Repair applies every cue it replays exactly when none of them carries the id of a cue the client already
  applied. A host accepts the id of an evicted cue again (src/presentation-cues.ts:200-237), so this
  does happen (`PresentationCues.EvictedIdReused`).
- The predicted view is the authoritative one with every pending command replayed exactly when none of
  them throws in that order. A command that throws when it is applied stays pending
  (src/session.ts:1128-1132), and the commands behind it are not shown after the next delta
  (`Prediction.ThrownCommandHides`).
- An encoded kit decodes to its files exactly when all their paths are of ASCII characters and U+FFFD. The
  path check accepts others too, the writer keeps the low byte of each UTF-16 unit
  (src/verifier-kit.ts:171-175) and the reader decodes UTF-8 (src/verifier-kit.ts:218-223), so such a kit
  is refused or decodes to other paths (`TarFormat.OtherPathReadsBack`).

One report is weaker than its name: an advance that finds a window unready under a tick timeout policy,
before its deadline, resolves nothing and is not marked partial (src/session.ts:2632-2641).

Check the project with `dafny verify dfyconfig.toml` (Dafny 4.11).

## Model

| member | source | states |
|---|---|---|
| CodePoints.CompareUnicodeCodePoints | src/protocol.ts:481-492 | the comparator's loop decides a strict total order by code point: its sign is negative, zero or positive exactly for before, equal or after |
| CanonicalJson.JsonEqualIsEquality | src/observation-codec.ts:37-52 | the codec's recursive comparison holds exactly for structurally equal values |
| CanonicalText.CanonicalInjective | src/protocol.ts:494-510 | two JSON values have equal canonical text exactly when they are structurally equal |
| JsonPointer.EscapeRoundTrip | src/observation-codec.ts:13-31 | undoing the `~` and `/` escapes of a pointer token gives the token back, whatever it contains |
| JsonPointer.PointerRoundTrip | src/observation-codec.ts:13-31 | a pointer built from keys, empty ones included, decodes to those keys |
| ObservationCodec.DiffRebase | src/observation-codec.ts:77-135 | the diff of a nested value is the diff at the root with every path prefixed |
| ObservationCodec.DiffApplies | src/observation-codec.ts:77-135 | the operations of a diff take the old value to the new one |
| ObservationCodec.PatchRoundTrip | src/observation-codec.ts:147-160 | whenever a patch is returned, applying it to the old value yields the new one |
| ObservationCodec.SafeKeysPatch | src/observation-codec.ts:13-31 | values without refused keys always have a patch |
| ObservationCodec.ApplyJsonPatch | src/observation-codec.ts:200-243 | the loop over the operations applies them in order, or refuses the first that does not apply |
| BoundedDiff.DiffWalk.Emit | src/observation-codec.ts:86-106 | an operation is appended exactly when the list with it still fits both limits, with the running byte count kept exact |
| BoundedDiff.DiffWalk.Visit | src/observation-codec.ts:107-133 | the walk appends the diff of the visited value, or stops at the first operation that breaks a limit |
| BoundedDiff.CreateBoundedValidatedJsonPatch | src/observation-codec.ts:176-198 | the bounded walk answers exactly what the limits ask of the unbounded patch |
| BoundedDiff.CreatePatchByWalk | src/observation-codec.ts:147-160 | without limits the walk computes the plain patch, or refuses its keys |
| BoundedDiff.BoundedPatchExact | src/observation-codec.ts:176-198 | a bounded patch is the unbounded one with its exact canonical text and byte count, within both limits, and it round-trips |
| BoundedDiff.AbandonedExactly | src/observation-codec.ts:176-198 | for byte limits of at least two the walk gives up exactly when the patch breaks a limit |
| JsonProjection.Projects | src/observation-codec.ts:249-267 | the greedy scan answers yes exactly when an order-preserving embedding exists at every array and a key subset at every object |
| JsonProjection.EmbedsReflexive | src/observation-codec.ts:249-267 | every value projects to itself |
| JsonProjection.EmbedsTransitive | src/observation-codec.ts:249-267 | a projection of a projection is a projection |
| JsonProjection.EmbedsAntisymmetric | src/observation-codec.ts:249-267 | values that project to each other are equal |
| SessionDrafts.CheckedView | src/session.ts:1674-1698 | a scoped view is served exactly when it only removes structure from the seat's view |
| SessionDrafts.Draft.MapWindow | src/session.ts:2263-2400 | the loop maps every intent against the books of the ones before it, and moves the books only when all map |
| SessionDrafts.Draft.EvictReceipts | src/session.ts:2532-2549 | the loops keep exactly the receipts within retention and the newest tombstones within their bound |
| SessionDrafts.Draft.DeliverSeat | src/session.ts:2463-2499 | the inner loop updates and encodes exactly the scopes of one seat, each from its own old view and backoff |
| SessionDrafts.Draft.Deliver | src/session.ts:2457-2500 | the in-place loop over seats and scopes refreshes, encodes and backs off exactly as refreshing all scopes at once |
| SessionDrafts.BackoffComplete | src/session.ts:1600-1672 | updating the patch backoff scope by scope ends in the table computed from the old one |
| SessionDrafts.Draft.Settle | src/session.ts:2402-2530 | one resolution on the draft moves it to the specified state, event, deltas and backoff, or leaves the specified rejection |
| SessionDrafts.Draft.Advance | src/session.ts:2655-2691 | the catch-up loop stops where the specification stops, with the same bodies, deltas and count |
| SessionKernels.SessionKernel.Draw | src/session.ts:2016-3312 | each prepare call computes on a draft the transition specified for the live state |
| SessionKernels.SessionKernel.DrawAdvance | src/session.ts:2602-2713 | `prepareAdvance` yields the specified transition or error |
| SessionKernels.SessionKernel.DrawTimeout | src/session.ts:2715-2879 | `prepareTimeout` yields the specified transition or error |
| SessionKernels.SessionKernel.DrawControl | src/session.ts:2909-3050 | `prepareControlTransition` yields the specified transition, duplicate or error |
| SessionKernels.SessionKernel.DrawInterest | src/session.ts:3150-3312 | `prepareInterest` yields the specified transition, duplicate or error |
| SessionKernels.SessionKernel.Prepare | src/session.ts:1733-1842 | preparing leaves the live state alone and forks exactly what the source forks: one state for the draft, one more when the reducer replaces it, and one to examine a command's legality, discarded at once; a failing call discards exactly what it forked |
| SessionKernels.SessionKernel.Commit | src/session.ts:3346-3382 | a commit succeeds exactly for an undecided transition of this kernel whose base is live, and then the live state is the step from the very state it was prepared from; stale ones are closed, foreign and completed ones change nothing |
| SessionKernels.SessionKernel.InstallEvents | src/session.ts:3362-3374 | the loop makes the ids of accepted commands and interests permanent |
| SessionKernels.SessionKernel.Abort | src/session.ts:3384-3389 | aborting discards the forks once, and aborting again changes nothing |
| SessionKernels.Discarded | src/session.ts:1761-1776 | discarding a transition's forks settles it and moves no other transition's forks |
| SessionKernels.Installed | src/session.ts:3356-3381 | installing a draft retires the state it replaces and settles its own forks only |
| SessionKernels.CommittedAhead | src/session.ts:1785-1786 | a committed change moves the revision by one, so a transition prepared earlier can no longer commit |
| SessionKernels.CompletedForksReleased | src/session.ts:1733-1861 | in every interleaving each fork of a completed transition was released exactly once, or is live and unreleased |
| SessionKernels.InterleavedLog | src/session.ts:3346-3389 | in every interleaving the live log rehydrates to the live state, and no submission id was accepted twice |
| SessionIdentities.AcceptedOnce | src/session.ts:2104-2129 | in the log of any run no participant's submission id is accepted twice |
| SessionIdentities.RunIdentified | src/session.ts:3362-3374 | every run keeps the permanent ids a superset of the accepted ones |
| SessionRetries.AcceptedEffect | src/session.ts:2130-2261 | an accepted command was legal and on time, adds exactly its own intent to the window, and its receipt divides the seats into submitted and awaited |
| SessionRetries.RetryAnswers | src/session.ts:2074-2129 | an accepted id sent again after any further requests never runs again: while its receipt is kept a repetition is a duplicate with the original receipt and other content, tick or cursor conflicts; afterwards the id is refused |
| SessionRetries.FindAfterEvict | src/session.ts:2532-2549 | eviction drops exactly the receipts older than retention |
| SessionRetries.ControlRetryAnswers | src/session.ts:2933-2960 | a repeated control answers with its original receipt and runs no reducer again, unless a command took its id |
| SessionAdvance.CatchUpCounts | src/session.ts:2655-2691 | every resolution moves cursor and tick by one, and only a rejection, the end of the game or an unready window under a timeout policy stops a catch-up early |
| SessionAdvance.AdvanceReaches | src/session.ts:2602-2713 | an advance never overshoots its target and stops short of it only for a rejection, the end of the game, the catch-up limit or an unready window; it is partial exactly when the limit allowed fewer resolutions than needed, or an unready window closed the loop after at least one of those allowed |
| SessionAdvance.HeldAdvanceUnreported | src/session.ts:2632-2641 | an advance that finds the window unready before its deadline falls short of its target, changes nothing and is not partial |
| SessionAdvance.PatchPays | src/session.ts:1600-1672 | a patch is sent only when it is within the limits and smaller than the snapshot by the configured factor |
| SessionAdvance.BackoffBounded | src/session.ts:1600-1672 | the backoff stays within its bounds, grows only when a patch did not pay and is reset by a patch |
| SessionAdvance.WholeViewsFirst | src/session.ts:1600-1672 | after a patch that did not pay exactly the backoff's number of changed views are sent whole |
| SessionRehydrate.SettledReplays | src/session.ts:4135-4214 | replaying the event of a resolution moves the state as the live resolution did |
| SessionRehydrate.DeclinedReplays | src/session.ts:4215-4234 | replaying a rejection moves the state as the live rejection did |
| SessionRehydrate.CatchUpReplays | src/session.ts:2655-2691 | replaying the events of a multi-tick catch-up rebuilds the draft it reached |
| SessionRehydrate.PreparedReplays | src/session.ts:3854-4257 | the events of every prepared transition replay to what its commit installs |
| SessionRuns.PreparedAudit | src/session.ts:4366-4448 | every prepared transition's events pass the timeout audit when the audit knows the policy |
| SessionRuns.StepFaithful | src/session.ts:3854-4257 | one more request keeps the kernel equal to the replay of its log |
| SessionRuns.RehydrationAgrees | src/session.ts:3854-4257 | for every run the log is accepted exactly when the audit knows its timeouts, and then rehydration rebuilds the kernel exactly |
| SessionRehydration.ValidateTimeoutAudit | src/session.ts:4373-4448 | the loop accepts exactly the logs whose notices and timeout resolutions pair up as specified |
| SessionRehydration.RefreshViews | src/session.ts:4135-4214 | replay refreshes every scope or refuses, as the live refresh does |
| SessionRehydration.ReplayLog | src/session.ts:3854-4257 | the event loop computes the replay function, with revisions that never fall |
| SessionRehydration.RehydrateKernel | src/session.ts:4273-4292 | rehydration from genesis computes the replay of the whole log |
| SessionCheckpoint.RunCheckpointable | src/session.ts:3481-3568 | every run keeps the state one whose checkpoint restore accepts |
| SessionCheckpoint.RestoreAlike | src/session.ts:3637-3852 | a checkpoint restores to the kernel it was taken from, up to the order of receipts and scopes, the log and tombstones |
| SessionCheckpoint.RunTail | src/session.ts:4294-4334 | the events after any point are contiguous by revision and index and replay onto that point |
| SessionCheckpoint.CheckpointContinues | src/session.ts:4294-4334 | for every split of every run the remaining events pass the contiguity checks; they are accepted after the checkpoint exactly when the audit knows their timeouts, and then rebuild the uninterrupted kernel |
| SessionCheckpoint.CheckpointThenRun | src/session.ts:4294-4334 | the same from any restorable state, however it came about |
| SessionAlike.EventsAlike | src/session.ts:3854-4257 | kernels that differ only in order, log and tombstones stay so under any events |
| SessionCompaction.DecisionsMatch | src/session.ts:2114-2129 | a compacted kernel with its lookup decides every request as the full one: same acceptance, duplicate, error, events and deltas |
| SessionCompaction.CompactRelated | src/session.ts:3570-3606 | compacting again keeps the kernel related to the one never compacted |
| SessionCompaction.CompactRecoverable | src/session.ts:3570-3606 | compaction only drops history that the durable checkpoint handed to it restores |
| SessionCompaction.LookupGrowsRelated | src/session.ts:2114-2129 | the lookup may learn of any identity that was really committed, at any time |
| SessionCompaction.LiveStoreBetween | src/session.ts:3570-3606 | a store that answers for each identity as it is committed is such a lookup, and faithful for compacting |
| SessionCompaction.CompactionBisimulation | src/session.ts:3570-3606 | through any run with any number of compactions, and with a lookup that grows in between, the compacted kernel stays related to the full one |
| SessionCompaction.EveryCompactedRun | src/session.ts:3570-3606 | the same from the start of every session, when no lookup leaves out what was archived or answers for more than was committed |
| SessionCompaction.CompactedKernelRecovers | src/session.ts:4294-4334 | a checkpoint taken after any requests and compactions and the events after it rebuild the compacted kernel, exactly when the audit knows their timeouts |
| SessionCompaction.SnapshotsMatch | src/session.ts:3433-3479 | snapshots agree except those from before the retention floor, which ask for a resync |
| SessionPartialLookup.CompletionDecides | src/session.ts:2933-2960 | answering for interest ids under `gameplaySubmission` too changes no decision but that on a control under such an id, which it refuses |
| SessionPartialLookup.MatchedExactly | src/session.ts:2933-2960 | whatever interest ids the gameplay lookup leaves out, a compacted kernel decides a request as the full one exactly when it is no control under an id left out |
| SessionPartialLookup.PartialLookupExactly | src/session.ts:3570-3606 | for every run with any compactions under such lookups, all decisions are those of the full kernel exactly when no control is left unanswered, and then the kernels stay related |
| SessionPartialLookup.EveryPartialRun | src/session.ts:3570-3606 | the same from the start of every session |
| SessionSolo.UnsignedTimeoutRefused | src/session.ts:4390-4399 | a session the constructor accepts times out by one request, and its own rehydration refuses the log |
| SessionSolo.InterestIdReused | src/session.ts:2933-2940 | one interest, one compaction and one control under the interest's id: the full kernel refuses the control, the compacted one with a lookup faithful but for that id accepts it |
| SessionDeltas.CanonicalTextInjective | src/session.ts:1220-1231 | the unchanged test compares views exactly |
| SessionDeltas.ScopeDeltaApplies | src/session.ts:1600-1672 | whichever of patch, snapshot and unchanged the encoder picks, it takes the old view to the new one and passes its digest |
| SessionDeltas.DeltasFollow | src/session.ts:2457-2500 | the deltas of a refresh update each scope once and leave every other scope alone |
| SessionDeltas.PreparedDeltas | src/session.ts:1022-1043 | the deltas of every prepared transition take every scope's client from its view before to its view after |
| SessionDeltas.ClientsFollow | src/session.ts:1022-1043 | for every run and scope, folding all published deltas from the first view gives exactly the kernel's view, with no digest failure |
| SessionCommitments.MapOneResolves | src/session.ts:2263-2400 | an accepted intent meets no conflict branch when mapped; the one way to be declined is a hash that does not match |
| SessionCommitments.PendingResolves | src/session.ts:2402-2440 | a window maps, or exactly one false opening is declined, which takes that seat's intent out |
| SessionCommitments.RejectionsEnd | src/session.ts:2426-2440 | after at most as many rejections as there are intents the rest of the window resolves |
| SessionCommitments.AcceptedIntentsResolve | src/session.ts:2130-2194 | in every reachable state the open window maps or shrinks by one declined opening |
| SessionCommitments.AdvancesNeverConflict | src/session.ts:2602-2713 | no reachable state refuses an advance because accepted intents conflict |
| SessionCommitments.TimeoutKept | src/session.ts:2715-2879 | once a timeout's own checks pass no accepted intent can make it fail |
| SessionCommitments.CommitmentsHonoured | src/session.ts:2263-2400 | for every run commitment ids per seat are logged as 0, 1, 2 and on, each is opened at most once with its own hash, and open ones stay within the limit |
| SessionHosts.InMemorySessionEventStore.Persist | src/session-host.ts:29-50 | a batch conflicts exactly when an id is stored with other bytes, and then nothing changes; otherwise exactly the new events are appended in order |
| SessionHosts.NoneUnknown | src/session-host.ts:29-50 | retrying stored events appends nothing |
| SessionHosts.PreparedIdsFresh | src/session.ts:1787-1804 | the events of a prepared transition carry ids the log does not have |
| SessionHosts.SessionKernelHost.FlushPublicationQueue | src/session-host.ts:103-109 | batches leave the queue in order, each after it was published, until the publisher fails |
| SessionHosts.SessionKernelHost.Enqueue | src/session-host.ts:80-101 | after every operation the durable log equals the kernel log and published plus queued batches are those of the commits; a conflict is never reported |
| SessionHosts.SessionKernelHost.RetryPublish | src/session-host.ts:148-152 | retrying publishes what is queued and touches neither kernel nor store |
| SessionHosts.BatchesAreDeltas | src/session-host.ts:96-98 | the queued batches are the session's deltas, cut at the commits |
| SessionHosts.PublishedInOrder | src/session-host.ts:80-109 | between operations published followed by queued is every emitted delta in commit order, with no gap or repeat |
| Prediction.PredictionSession.Predict | src/session.ts:1112-1134 | a local command is enqueued and shown at once over the current prediction, or enqueued and not shown when applying it throws, or refused without effect |
| Prediction.PredictionSession.Reconcile | src/session.ts:1136-1209 | a delta is applied, ignored or asks for a resync exactly under its conditions; when applied, settled commands go and the rest is replayed over the new view, up to the first that throws |
| Prediction.Split | src/session.ts:1172-1181 | the filter splits the pending commands into those left and those settled, in order |
| Prediction.AppliedViewIsTheHosts | src/session.ts:1022-1043 | with an injective digest an applied delta leaves the view the host encoded, whatever base the client held |
| Prediction.AlwaysReplayed | src/session.ts:1136-1209 | over every history, whatever throws, the predicted view is the authoritative one with some of the pending commands replayed in order, and with all of them exactly when none of them throws |
| Prediction.ThrownCommandHides | src/session.ts:1128-1132 | a command enqueued behind one that throws is shown at once and no longer after the next delta, while both stay pending |
| Prediction.RevisionsRise | src/session.ts:1138-1159 | applied revisions strictly rise and the last one applied is the one shown |
| Prediction.PendingIsUnsettled | src/session.ts:1168-1182 | pending is exactly the enqueued commands, in order, that no later applied delta settled |
| AgentMemoryStore.InMemoryRoomAgentRuntimeStore.AdmitRunInput | src/room-agent-runtime.ts:619-694 | connects the object to the model: its maps change together as the store function says, or not at all |
| AgentMemoryStore.InMemoryRoomAgentRuntimeStore.SaveRun | src/room-agent-runtime.ts:720-741 | connects the object to the model: its maps change as the store function says |
| AgentMemoryStore.InMemoryRoomAgentRuntimeStore.LoadOpenRun | src/room-agent-runtime.ts:757-767 | the answer is an open run of the channel updated last, or none exactly when none is open |
| AgentMemoryStore.InMemoryRoomAgentRuntimeStore.CommitRunEvent | src/room-agent-runtime.ts:769-828 | connects the object to the model: journal, index and run change together as the store function says, or not at all |
| AgentRetries.RetriedCommit | src/room-agent-runtime.ts:780-791 | a commit repeated after any steps of any party is answered with the entry journaled for it and changes nothing; any other event under its id is refused |
| AgentRetries.RetriedAdmission | src/room-agent-runtime.ts:626-647 | an admission in any reachable room, repeated after any further steps with the run first sent or the one then stored, finds the run of that input and its line and changes nothing |
| AgentRetries.DoOwned | src/room-agent-runtime.ts:743-755 | every step keeps each input with the run it was admitted to, and each run found by its latest input |
| AgentRuns.CommitProgresses | src/room-agent-runtime.ts:769-828 | a commit from a copy of an open run extends that run's journal and nothing else |
| AgentRuns.RepeatAnswered | src/room-agent-runtime.ts:782-791 | under an id the run already has, a commit is answered exactly when it repeats the journaled event, with the run as it is now stored |
| AgentRuns.AppendExact | src/room-agent-runtime.ts:1583-1603 | an append or terminal event by any party, whatever its id, keeps all journals and copies sound exactly when it is not an echo |
| AgentRuns.SoundExactly | src/room-agent-runtime.ts:769-828 | the invariant holds throughout a run exactly when no append of it is an echo |
| AgentRuns.ResumeSound | src/room-agent-runtime.ts:1228-1254 | taking over a run keeps all journals sound |
| AgentRuns.CorrelateSound | src/room-agent-runtime.ts:1381-1403 | what `loadOpenRun` answered still tells which run may be open when the superseded run is loaded later |
| AgentRuns.SupersedeSound | src/room-agent-runtime.ts:2066-2095 | the commit in the cancellation loop of a supersession keeps the channel's one open run known |
| AgentRuns.RecoverSound | src/room-agent-runtime.ts:2096-2108 | so does the run loaded after a refused commit |
| AgentRuns.ProveSound | src/room-agent-runtime.ts:2053-2064 | a replacement is chosen after the cancellation was proved only for a channel without an open run |
| AgentRuns.CloseCommitSound | src/room-agent-runtime.ts:1480-1484 | closing the superseded run leaves its channel without an open one |
| AgentRuns.AdmitSound | src/room-agent-runtime.ts:1485-1501 | the admission that follows never makes a second run of the channel open |
| AgentRuns.JournalsStaySound | src/room-agent-runtime.ts:769-828 | in every interleaving without an echo each journal is numbered 1 to n with `lastSequence` n, a terminal event comes at most once and only last, exactly when the run ended, and a channel has at most one open run |
| AgentRuns.NewIdsNeverEcho | src/room-agent-runtime.ts:1583-1603 | no append is an echo when event ids never repeat |
| AgentRuns.EndedStays | src/room-agent-runtime.ts:1925-1954 | without an echo a run that ended is never changed again |
| AgentRuns.EchoBreaksJournal | src/room-agent-runtime.ts:780-791 | after any echo the next new event of that party is journaled behind the terminal one |
| AgentRuns.RepeatedIdsBreakJournal | src/room-agent-runtime.ts:780-791 | from a new room a run with one repeated event id ends with an event behind the terminal one |
| SeatControlLedgers.SeatControlLedger.Create | src/seat-control.ts:119-144 | a ledger is founded exactly for a named session whose declared seats and controllers are named |
| SeatControlLedgers.SeatControlLedger.PrepareSeatControl | src/seat-control.ts:204-264 | one atomic change is prepared exactly when every seat's change is permitted, and nothing else is pending |
| SeatControlLedgers.SeatControlLedger.CommitChange | src/seat-control.ts:266-279 | an open change is always current; committing it appends its epochs and moves the revision by one |
| SeatControlLedgers.SeatControlLedger.AbortChange | src/seat-control.ts:281-289 | withdrawing leaves the committed schedule as it was |
| SeatControlLedgers.SeatControlLedger.Controlled | src/seat-control.ts:160-172 | the backwards search finds the epoch in force, for every committed revision of a known seat |
| SeatControlLedgers.SeatControlLedger.Authorize | src/seat-control.ts:187-202 | authorization holds exactly for the occupied epoch in force and its controller |
| SeatControlLedgers.SeatControlLedger.TakeCheckpoint | src/seat-control.ts:295-313 | the checkpoint lists every epoch seat by seat and the pending change |
| SeatControlLedgers.SeatControlLedger.Rehydrated | src/seat-control.ts:315-525 | the rehydration loops accept exactly what the rules accept and rebuild that ledger |
| SeatControlLedgers.CheckRevisions | src/seat-control.ts:408-435 | the revision loop accepts exactly schedules that cover every revision with one authorization each |
| SeatControlLedgers.NeverStale | src/seat-control.ts:272-274 | the stale branch of commit cannot be reached |
| SeatControl.PrepareSound | src/seat-control.ts:204-264 | a permitted change keeps the schedule consecutive, rising, digest-linked and atomic |
| SeatControl.CommitSound | src/seat-control.ts:266-279 | committing keeps it so, covering the new revision |
| SeatControl.EpochAtInForce | src/seat-control.ts:160-172 | the epoch found is the only one in force at that revision |
| SeatControl.ControlIsFixed | src/seat-control.ts:160-172 | who controlled a seat at a committed revision never changes, whatever follows |
| SeatControl.RehydratedSound | src/seat-control.ts:315-525 | rehydration accepts only consecutive, strictly rising, digest-linked epochs that cover every revision and whose handoffs name a chain head |
| SeatControl.CheckpointRoundTrip | src/seat-control.ts:295-525 | a checkpoint rehydrates to the same ledger, pending change included, exactly when every handoff names a chain head |
| SeatControl.EveryRunRoundTrips | src/seat-control.ts:204-525 | the same after every run of changes, commits and aborts |
| SeatControl.UnlinkedHandoff | src/seat-control.ts:379-381 | a handoff without a chain head commits but its checkpoint is refused |
| Evidence.CommandHashInjective | src/evidence.ts:166-188 | equal command hashes mean equal envelopes |
| Evidence.DomainsApart | src/evidence.ts:138-164 | a command hash is never a genesis hash |
| Evidence.ChainUnique | src/evidence.ts:143-188 | two chains from one genesis to one head are the same chain |
| Evidence.AcceptedChain | src/evidence.ts:408-461 | in accepted evidence each epoch's commands form one chain from its genesis hash to its recorded head |
| Evidence.SameCommands | src/evidence.ts:258-527 | two accepted bundles of one checkpoint hold the same envelopes in every epoch, in the same order |
| Evidence.OrderIrrelevant | src/evidence.ts:401-445 | the verdict does not depend on the order of the commands array |
| EvidenceVerifier.CheckEpochs | src/evidence.ts:302-393 | the epoch loop finds fault exactly with invalid handoffs, missing policies or states and wrong genesis hashes, and throws exactly on a malformed handoff |
| EvidenceVerifier.CheckCommands | src/evidence.ts:408-445 | the command loop finds no fault exactly when every command continues the chain of the epoch in force |
| EvidenceVerifier.CheckCursors | src/evidence.ts:401-407 | comparing neighbours finds every repeated cursor |
| EvidenceVerifier.CheckClosings | src/evidence.ts:447-517 | the closing loop finds no fault exactly when heads, periodic signatures and handoffs agree with the chains |
| EvidenceVerifier.Verify | src/evidence.ts:258-527 | the verifier's verdict is valid exactly when the chain rules hold |
| PresentationCues.FingerprintInjective | src/presentation-cues.ts:121-123 | cues share a fingerprint exactly when they are the same cue |
| PresentationCues.PresentationCueHost.Restore | src/presentation-cues.ts:165-198 | the loops accept exactly ordered states of the session whose acknowledgements match retained cues |
| PresentationCues.PresentationCueHost.IssueCue | src/presentation-cues.ts:200-237 | connects the object to the model: the call is the next step of its run, or changes nothing |
| PresentationCues.PresentationCueHost.Record | src/presentation-cues.ts:239-273 | connects the object to the model: the call is the next step of its run, or changes nothing |
| PresentationCues.AcknowledgeKeeps | src/presentation-cues.ts:239-273 | a successful acknowledgement is final |
| PresentationCues.IssueExtends | src/presentation-cues.ts:200-237 | a cue is issued exactly under an id that is not retained, evicted ids included, and extends the numbered history, of which the host keeps the last part |
| PresentationCues.EveryRunIssues | src/presentation-cues.ts:200-273 | every run of issues and acknowledgements from a new host, with any ids, numbers what it issues, retains the last part without a repeated id, and acknowledges only what it retains |
| PresentationCues.SavedStateRestores | src/presentation-cues.ts:165-198 | every state any run of a new host reaches is one it accepts back |
| PresentationCues.PresentationCueClient.Take | src/presentation-cues.ts:334-379 | a cue is applied exactly when it is new, next in line or an emergency further on, and neither `interrupt` nor `apply` throws; a throwing `interrupt` leaves the client as it was |
| PresentationCues.AppliedInOrder | src/presentation-cues.ts:334-379 | whatever arrives, applied cues rise strictly and none is applied twice |
| PresentationCues.ResumeExact | src/presentation-cues.ts:275-292 | a snapshot is demanded exactly when a later cue was evicted; otherwise every later cue is replayed |
| PresentationCues.ReplayApplies | src/presentation-cues.ts:334-379 | if `apply` succeeds, every cue that follows the last one applied is applied in order, when none has an id already applied |
| PresentationCues.RepairExact | src/presentation-cues.ts:275-292 | for every run of a host with any ids, and after any loss, repetition, reordering and failures: resuming demands a snapshot exactly when a needed cue was evicted, else replays every later cue; all of them apply, and reach the latest sequence, exactly when none carries an id already applied |
| PresentationCues.RepairReachesLatest | src/presentation-cues.ts:275-292 | with ids that never repeat, repair always applies every replayed cue and reaches the latest sequence, or a needed cue was evicted |
| PresentationCues.EvictedIdReused | src/presentation-cues.ts:200-237 | a host that retains one cue issues an evicted id again, and the client that applied the first two cues throws on the one replayed |
| TarFormat.OctalRoundTrip | src/verifier-kit.ts:177-186 | the octal text of a number is octal digits that parse back |
| TarFormat.OctalWidth | src/verifier-kit.ts:177-186 | a number fits `n` digits exactly below 8 to the `n` |
| TarFormat.ChecksumFits | src/verifier-kit.ts:200-201 | a header's checksum always fits six octal digits |
| Utf8.TextLowBytes | src/verifier-kit.ts:171-175 | text read as UTF-8 from any bytes has at most as many low bytes, and as many only when it is of ASCII characters and U+FFFD |
| Utf8.PlainTrip | src/verifier-kit.ts:218-223 | exactly such text survives being written as low bytes and read as UTF-8 |
| TarFormat.HeaderRoundTrip | src/verifier-kit.ts:188-203 | a header written for a safe plain path reads back as its path and size and is no zero block |
| TarFormat.ScanEncoded | src/verifier-kit.ts:252-278 | from every block boundary the reader finds exactly the files still to come and stops at the trailing zero blocks |
| TarFormat.DecodeEncode | src/verifier-kit.ts:205-291 | decoding an encoded kit gives back its files, for all packable files of plain paths within the limits |
| TarFormat.DecodeExact | src/verifier-kit.ts:240-291 | exactly the canonical encodings of packable files of plain paths within the limits are accepted |
| TarFormat.RoundTripExact | src/verifier-kit.ts:205-291 | everything the packer accepts is written, and within the limits it is read back exactly when its paths are plain |
| TarFormat.OtherPathReadsBack | src/verifier-kit.ts:171-175 | a kit with the safe path U+0141 is accepted, and reads back as a kit with the path `A` |
| TarCodec.WriteAscii | src/verifier-kit.ts:171-175 | a field is overwritten in place, or refused when too long |
| TarCodec.WriteOctal | src/verifier-kit.ts:177-186 | a number field is overwritten in place, or refused on overflow |
| TarCodec.TarHeader | src/verifier-kit.ts:188-203 | the in-place header is the specified one, checksum included |
| TarCodec.EncodeTar | src/verifier-kit.ts:205-216 | the writer's loop lays out whole blocks file by file and two zero blocks |
| TarCodec.ScanFiles | src/verifier-kit.ts:251-278 | the reader's loop collects the files up to the first zero block, or refuses the first bad header |
| TarCodec.DecodeTar | src/verifier-kit.ts:240-291 | the reader answers as specified, canonical comparison included |

## Left out

- The interaction lane (`classifyCommand`, `prepareInteraction`): live commits and rehydration treat its ids differently; sessions here use `commandToAction`.
- Seat signature events, base64 and signature-shape checks on submissions: the seal of a submission is carried without interpretation.
- Salt reuse warnings, host time and other advisory data.
- Header, codec-id and integrity-digest comparisons when a checkpoint is restored: the same options are assumed, and the state codec is a JSON state.
- Event and tick ids are structured values, not the strings that encode them.
- JSON numbers are integers without the safe-range bound; object and depth limits are not modelled.
- Patches are applied to values; the in-place edits of a cloned tree and its aliasing are not modelled.
- Actions are compared as values where the source compares their canonical text.
- Game functions are total: a reducer that throws is only modelled for the view and window errors named in the code; one view function serves live and rehydrated kernels.
- `checkpoint`, `compact` and `restoreCheckpoint` are modelled on values; the kernel object has the prepare, commit and abort calls.
- SessionCheckpoint.CheckpointContinues: leaves out the order of receipts and scopes and the tombstones, which a checkpoint does not carry in the same order.
- Liveness of clients: a client following published deltas may be asked to resync, since some revisions carry no delta and catch-up ticks share one.
- AgentRuns.JournalsStaySound: `attempt` may move back and is not claimed.
- Agent runs: output buffers, transcripts of outputs, speech and progress presentation, `createRun` imports, and several runtimes on one room.
- The sort order of genesis seats: the seats are given in the order the constructor lists them.
- EvidenceVerifier.Verify: does not model the per-epoch notes and the wording of reasons, which do not affect the verdict.
- Seats named like a built-in object property: rehydration assigns the seats into a plain record (src/seat-control.ts:337-339), where `__proto__` creates no key, so that its checkpoint is refused when it is the only seat and accepted otherwise; signatures are looked up by seat in plain records (src/seat-control.ts:228-231), where a seat such as `constructor` finds an inherited value.
- Presentation cues: two overlapping `receive` calls on one client, and hosts restored from states no host reached; cue ids that name built-in object properties.
- Tar paths with unpaired surrogates, which texts here cannot hold. Trimming of non-ASCII white space in octal fields makes no difference, since the canonical comparison refuses such files.
- Ed25519, SHA-256, FNV and base64 themselves; HTTP clients, command lines, the container runner, file caches, replay artifacts, room interaction, leaderboards and the demos.
