# AgentRelay protocol proofs

A Dafny model of the crash-tolerant protocol core of AgentRelay, with proofs about whole runs of it.
`dafny verify dfyconfig.toml` checks everything. Files are grouped by component.

**Mission coordinator** (`MissionTypes`, `MissionReducer`, `MissionInvariant`, `MissionTheorems`,
`MissionProgress`, `MissionHistory`, `MissionAcceptance`). The event-sourced reducer two participants share: acceptance,
alternating turns, contract proposals with two acknowledgements, readiness, verification rounds,
retry or failure. The reducer is pure, as in the source. An explicit table of rules, one per way an
event can take effect, carries the invariant, and one condition says exactly which events are taken;
the theorems are about every accepted log: its length, what completion means, replica convergence,
agreed contract changes, and exactly when completion is still possible.

**Delivery leases** (`Numerals`, `DeliveryLease`). The relay's transition function with its tokens as
printed decimals, fed by an arbitrary stream of events. The log of accepted transitions alone says
who holds the delivery and until when; which events are accepted, and when the work can still be
acknowledged, are stated exactly.

**Host events** (`HostStream`, `HostStreamSpec`, `HostReplay`). The incremental validator of a host's
event stream, a specification of the whole list, and consumption sessions that crash and replay.

**Codex Capsule** (`CapsuleState`, `CapsuleStore`, `CapsuleProofs`, `CapsuleValidity`,
`CapsuleLifecycle`, `CapsuleNormalizer`, `CapsuleSystem`, `CapsuleTheorems`, `CapsuleLiveness`,
`CapsuleExecutor`). The durable phase machine that must not start a provider turn twice. Transitions
change the store's object in place, are specified by pure steps, and are the steps of a small machine
of stages; `mutate` may also fail, or fail after the file was written. The system adds the provider
and any number of concurrent drivers, and lets the process die between any two steps. Beside what
never happens twice stands what can still happen: exactly when a start, an interrupt or a new turn is
possible in some continuation. The executor's methods act on that system: every await lets the others
take any steps, and calling the provider has the claim for that call as a precondition, proved at each
call. Between a claim and its call the others may do anything but make that very call, and a call that
fails may still arrive later.

**Runtime authority in the Node journal** (`Journal`, `JournalSystem`, `RuntimeAuthority`). Active and
predecessor grants with their capabilities and limit sources, staging, compare-and-swap checkpoints,
proven retirement, and the request a delivery waits to have answered, together with the relay's fence,
the starts sent to it, the grants some Capsule may still hold and what a process knows to be revoked.
The retry loops act on that system the way the executor does.

**Self-contained parts.** `Utf16`, `CanonicalJson`, `CanonicalJsonProofs`, `CanonicalJsonShortest`:
JSON text over UTF-16 code units with string escapes (section 7 of RFC 8259) and key order (section
3.2.3 of RFC 8785), against a parser of exactly that grammar: no white space, lower-case hex digits.
`Framing`: newline framing, ending in a round trip of JSON values through frames and chunks.
`BoundedQueue`: the async queue as a class whose promises are recorded in call order. `LeaseWindow`:
the arithmetic of the believed deadline, the relay's renewal bounded by the Mission's end, and the
keeper's loop with its journal writes.

Conventions. UUIDs, digests and keys are natural numbers with an unlimited supply. Timestamps are
integers, monotonic clock readings are reals. A digest is taken to be injective, so it is the value it
digests. A thrown error is an `Err` with the state unchanged. Code that updates objects or loops in
the source is a class or a method here, proved equal to a pure function; the theorems are about that
function. Preconditions of system-level lemmas are invariants that the boot lemmas establish.

What the code does differently from what one may expect of it:

- The Capsule store's validator is not an inductive invariant by itself:
  `CapsuleProofs.ValidatorAloneIsNotInductive` names a state it accepts from which closing a turn is
  refused. `CapsuleValidity.ValidatorAcceptsIff` gives the exact condition for every valid state, and
  `CapsuleProofs.ValidatorAcceptsIffStorable` the simpler one that holds for every state the store
  reaches.
- Six writes in `node/src/delivery-processor.ts` store a relay response without staging it: a
  dead-lettered claim and the answers to start, renew (twice), complete and release. They never forget
  a grant and never leave one named beyond its delivery's fence
  (`JournalSystem.NamedFencesAreBounded`). The fence itself can move back, exactly when the answer is
  to a lease operation that the delivery has meanwhile overtaken (`JournalSystem.FenceMovesBackIff`).
  That takes a claim request sent twice, whose first copy reaches the relay only after the lease of a
  later claim has lapsed: the relay issues a new fence, the next cycle ingests it
  (`node/src/daemon.ts:71-72`) while a renewal is still journaled, and when the renewal is repeated
  the relay replays the recorded answer (`JournalSystem.ReplayedAnswerMovesFenceBack`). The fence the
  delivery waits on never sinks (`JournalSystem.FloorsOnlyAdvance`), and without such an overtaking
  update no fence does (`JournalSystem.FencesOnlyAdvance`).
- A delivery settled but not acknowledged before its lease deadline can only be cancelled
  (`DeliveryLease.SettledPastDeadlineOnlyCancels`). The schema's settlement clause holds through a run
  exactly when settlement on its own comes only for acknowledged or cancelled work
  (`DeliveryLease.ReachableStatesMeetTheClausesIff`); the relay settles and acknowledges in one step.
- The relay renews a lease also when its deadline stays where it is, at the Mission's end; the shared
  state machine demands a strictly later one (`LeaseWindow.RelayRenewsIff`).
- `MissionStatus` has blocked and cancelled values that the coordinator never produces.

## Model

| member | source | states |
|---|---|---|
| MissionReducer.ReplayLoop | protocol/src/mission-coordinator.ts:918-942 | Replaying a log in a loop is the left fold of the reducer over it: it stops at the first rejection with that rejection, and an unparsable configuration is refused before any event. |
| MissionInvariant.StepFollowsRule | protocol/src/mission-coordinator.ts:944-1271 | Every newly applied event matches one of thirteen rules (start, reply, proposal, first and second ready, last turn, first and second acknowledgement, recorded evidence, retried, failed and passed round, closing), each with its guard and whole next state. |
| MissionAcceptance.TakenIff | protocol/src/mission-coordinator.ts:866-1271 | For every reachable state and every event whatsoever: the reducer takes it exactly when it is well formed and either re-delivers a logged event or is new under a fresh envelope with the next sequence number, due (status, participant, version, round, revision, command, nothing counted twice) and faithful to its turn. With the rules this says what is taken and what becomes of it. |
| MissionInvariant.StepKeepsInv | protocol/src/mission-coordinator.ts:866-916 | Any input, accepted or rejected, keeps the full invariant: scheduling, verification records, contract history, log identities, counts, tail of the log and agreed blocks. |
| MissionTheorems.ReduceAppends | protocol/src/mission-coordinator.ts:866-916 | A reduction leaves the state alone exactly when the event is a replay, and otherwise appends that event to the log; configuration never changes. |
| MissionTheorems.LogRebuildsState | protocol/src/mission-coordinator.ts:918-942 | Whatever inputs a coordinator is fed, replaying its own log rebuilds its whole state. |
| MissionTheorems.RunBound | protocol/src/mission-coordinator.ts:986-1271 | Every accepted log has at most 2 + 17 * maxTurns events, below the 4096 cap, and turns, messages, revisions, records, versions and rounds stay below the caps of the state schema. |
| MissionTheorems.CompletionMeansAgreement | protocol/src/mission-coordinator.ts:1121-1315 | A completed log ends with adjacent ready turns by the two participants, then exactly one passed verification per participant and required command in the current round and contract version, and nothing else. |
| MissionTheorems.ReplicaStep | protocol/src/mission-coordinator.ts:1282-1297 | A replica holding a prefix of a log takes re-delivered events without change, takes the next one, and refuses later ones. |
| MissionTheorems.ReplicasConverge | protocol/src/mission-coordinator.ts:866-942 | Fed any duplicated, reordered or lossy selection of one log, a replica always holds exactly the replay of the prefix its sequence number names. |
| MissionTheorems.EqualSequenceEqualState | protocol/src/mission-coordinator.ts:866-942 | Replicas of one log with equal sequence numbers are equal. |
| MissionTheorems.ContractChangesAreAgreed | protocol/src/mission-coordinator.ts:1077-1196 | Accepted revisions are exactly the contiguous blocks of a proposal and two acknowledgements of that revision and artifact by the two participants; their versions are 2, 3, ... and the version in force is one more than their count. |
| MissionTheorems.EventsCarryVersionInForce | protocol/src/mission-coordinator.ts:986-1250 | Every turn and every piece of evidence in a log carries the contract version the log had put in force before it. |
| MissionProgress.ReachableStatesAreWellFormed | protocol/src/mission-coordinator.ts:510-590 | Every reachable state passes the state validation, the schemas of its configuration, contract, applied events, messages and records included; an active Mission has exactly one of a scheduled participant and a pending revision and turns left, a single ready participant is not the scheduled one, and a verifying Mission has an unrecorded required command. |
| MissionProgress.NeverStuck | protocol/src/mission-coordinator.ts:866-1271 | From every reachable non-terminal state a concrete next event exists that the reducer takes. |
| MissionProgress.HopelessForever | protocol/src/mission-coordinator.ts:986-1271 | Once too few turns remain for the readiness still missing, no continuation completes the Mission. |
| MissionProgress.CanComplete | protocol/src/mission-coordinator.ts:866-1271 | While enough turns remain, a concrete continuation that completes the Mission is constructed. |
| MissionProgress.CompletionPossibleIff | protocol/src/mission-coordinator.ts:866-1271 | From any reachable state completion is still possible exactly when the turn budget covers the missing readiness, counting a retry if the round already failed. |
| MissionHistory.TurnsFollowTheHistory | protocol/src/mission-coordinator.ts:986-1033 | Every turn is taken by the participant that the history before it names, read off the log alone. |
| MissionHistory.EventsAreFaithful | protocol/src/mission-coordinator.ts:986-1075 | A logged message or revision repeats exactly what its turn said, by its author and version, and only allowed artifact types are published. |
| MissionHistory.MessagesAreTheReplies | protocol/src/mission-coordinator.ts:1035-1075 | The stored conversation is the logged replies in order, with no message id or idempotency key reused. |
| MissionHistory.NothingCountedTwice | protocol/src/mission-coordinator.ts:1282-1297 | Event ids, idempotency keys, turn deliveries and verification ids never repeat in an accepted log. |
| DeliveryLease.RunKeepsInv | protocol/src/state-machines.ts:171-271 | Any arrivals, in any order and number, keep the relay state and its log of accepted transitions consistent with each other. |
| DeliveryLease.LeasesAreFenced | protocol/src/state-machines.ts:137-310 | The fencing tokens issued are as many as the attempts and the k-th is the printed decimal of k; each accepted operation names the lease and token of the holder the log implies, holder operations strictly before its deadline and expiry at or after it; renewals raise the deadline; nothing follows a terminal transition. |
| DeliveryLease.RunsAreBounded | protocol/src/state-machines.ts:171-271 | A run has at most 3 * maxAttempts transitions that are not renewals, and never more attempts than allowed. |
| DeliveryLease.AcceptedIff | protocol/src/state-machines.ts:171-271 | In every run an event is accepted exactly when it obeys the fence the log implies and status and settlement allow it; given-back work is dead exactly when no attempt is left or the release was permanent or denied by policy, and otherwise stored and held by nobody. |
| DeliveryLease.AcknowledgementPossibleIff | protocol/src/state-machines.ts:171-271 | From every state of every run the work can still be acknowledged exactly when it has not ended otherwise and was not settled before it executed: stored work can be leased again, leased work started, executing work settled and acknowledged. |
| DeliveryLease.StaleClaimsAreRefused | protocol/src/state-machines.ts:284-310 | A claim carrying the printed form of any number but the newest attempt is refused. |
| DeliveryLease.ReachableStatesMeetTheClausesIff | protocol/src/schemas.ts:676-784 | Every state of every run meets the delivery clauses on lease, token, attempts and capacity; the settlement clause holds throughout a run exactly when each settlement on its own came for acknowledged or cancelled work. |
| DeliveryLease.SettledPastDeadlineOnlyCancels | protocol/src/state-machines.ts:221-234 | Work settled without being acknowledged before its deadline accepts cancellation and nothing else. |
| DeliveryLease.RenewalAcceptedIff | protocol/src/state-machines.ts:236-245 | A renewal is taken exactly from the unsettled holder, before the deadline, for a later one. |
| DeliveryLease.TransitionKeepsClauses | protocol/src/state-machines.ts:171-271 | Every accepted transition keeps the clauses and strictly lowers the remaining budget of moves unless it is a renewal. |
| Numerals.DecimalReadsBack | protocol/src/state-machines.ts:180-187 | A printed token is nonempty, all digits, without leading zero, and reads back as its number. |
| Numerals.DecimalInjective | protocol/src/state-machines.ts:180-187 | Different attempt counts print as different tokens. |
| HostStream.AcceptEvent | protocol/src/adapter.ts:468-572 | The loop over an event's artifacts computes the specified next stream state, or the specified error. |
| HostStreamSpec.AcceptDecidesFit | protocol/src/adapter.ts:468-572 | One validator step succeeds exactly when the event may follow the valid list read so far, and keeps the summary of that list. |
| HostStreamSpec.ValidByLast | protocol/src/adapter.ts:468-572 | A list is a valid stream exactly when its prefix is and its last event fits. |
| HostStreamSpec.FoldIsValidStream | protocol/src/adapter.ts:451-572 | Folding the validator succeeds exactly on lists numbered from 1, accepted first and once, about one turn, closed only last and only after usage, with monotone usage and with event count, text bytes and distinct artifacts in bound. |
| HostStreamSpec.TextIsCounted | protocol/src/adapter.ts:620-657 | The text bound is on the UTF-8 encoding of all text the events let out, in order. |
| HostStreamSpec.ArtifactsAreCounted | protocol/src/adapter.ts:601-618 | The artifacts bounded are exactly those some event publishes. |
| Common.Utf8LengthIs | protocol/src/adapter.ts:620-657 | The length counted is that of the UTF-8 encoding. |
| HostReplay.DeliveryEntry.ConsumeHostEvents | node/src/delivery-processor.ts:1058-1109 | The consumption loop leaves journal, phase and success exactly as the fold over journal and input says. |
| HostReplay.PhaseMeans | node/src/delivery-processor.ts:1092-1102 | Journaling new events of a valid stream leaves the delivery terminal exactly when the last of them is, and otherwise accepted when they begin it. |
| HostReplay.AnySessionKeepsJournalValid | node/src/delivery-processor.ts:1058-1109 | Whatever a host sends, a session only extends the journal, which stays a valid stream. |
| HostReplay.SessionSucceedsIff | node/src/delivery-processor.ts:1058-1109 | A session fails exactly when journal and input are not of one valid stream; otherwise its journal is the merger of the two, complete exactly when that ends in a terminal event. |
| HostReplay.ReadPrefix | node/src/delivery-processor.ts:1058-1109 | Re-reading the first k events of a stream into a journal of m of them yields the longer of the two prefixes, without failure. |
| HostReplay.SessionsReachFurthestPrefix | node/src/delivery-processor.ts:1058-1109 | After any number of sessions cut off anywhere, the journal is the longest prefix any of them read, hence the whole stream once one reached its end, and then for good. |
| HostReplay.FullReadSucceeds | node/src/delivery-processor.ts:1058-1109 | A session that reads a closed stream to its end succeeds wherever the journal stood. |
| HostReplay.ResultIsTheDisposition | node/src/journal.ts:798-812 | However often and wherever consumption was interrupted, the published result is the disposition of the stream's last event, if that completes with one to publish, and nothing otherwise. |
| CapsuleStore.CheckTurnEvents | node/src/codex-capsule-state.ts:225-233 | The validation loop decides whether the stored events form a stream that is closed exactly for terminal turns. |
| CapsuleStore.ValidateTurn | node/src/codex-capsule-state.ts:176-223 | One turn is accepted exactly when identity, digest, session, intent, phase and events fit. |
| CapsuleStore.ValidateTurns | node/src/codex-capsule-state.ts:112-135 | The pass over the turns accepts exactly when each turn validates, and counts the open ones. |
| CapsuleStore.Validate | node/src/codex-capsule-state.ts:112-135 | The validator decides exactly the declarative validity of a Capsule. |
| CapsuleStore.CapsuleObject.ClaimSessionStart | node/src/codex-capsule-transitions.ts:38-49 | The in-place transition that claims the session start once leaves exactly the specified object and reply, and on refusal leaves the object unchanged. |
| CapsuleStore.CapsuleObject.AcceptSession | node/src/codex-capsule-transitions.ts:51-64 | The in-place transition that binds a session thread once leaves exactly the specified object and reply, and on refusal leaves the object unchanged. |
| CapsuleStore.CapsuleObject.ResetUnboundSession | node/src/codex-capsule-transitions.ts:66-74 | The in-place transition that returns an unbound session to prepared leaves exactly the specified object and reply, and on refusal leaves the object unchanged. |
| CapsuleStore.CapsuleObject.PrepareTurn | node/src/codex-capsule-transitions.ts:76-110 | The in-place transition that adds an accepted turn when none is open leaves exactly the specified object and reply, and on refusal leaves the object unchanged. |
| CapsuleStore.CapsuleObject.ClaimTurnStart | node/src/codex-capsule-transitions.ts:112-132 | The in-place transition that hands out the one start of a turn leaves exactly the specified object and reply, and on refusal leaves the object unchanged. |
| CapsuleStore.CapsuleObject.AcceptTurn | node/src/codex-capsule-transitions.ts:134-152 | The in-place transition that binds a provider turn once leaves exactly the specified object and reply, and on refusal leaves the object unchanged. |
| CapsuleStore.CapsuleObject.RequestCancellation | node/src/codex-capsule-transitions.ts:154-164 | The in-place transition that cancels or marks a turn leaves exactly the specified object and reply, and on refusal leaves the object unchanged. |
| CapsuleStore.CapsuleObject.ClaimInterrupt | node/src/codex-capsule-transitions.ts:166-179 | The in-place transition that hands out the one interrupt of a turn leaves exactly the specified object and reply, and on refusal leaves the object unchanged. |
| CapsuleStore.CapsuleObject.RecordUncertainInterrupt | node/src/codex-capsule-transitions.ts:181-208 | The in-place transition that closes a turn whose interrupt outcome is lost leaves exactly the specified object and reply, and on refusal leaves the object unchanged. |
| CapsuleStore.CapsuleObject.RecordUnmatchedStart | node/src/codex-capsule-transitions.ts:210-236 | The in-place transition that closes a turn whose start is lost leaves exactly the specified object and reply, and on refusal leaves the object unchanged. |
| CapsuleStore.CapsuleObject.RecordTerminal | node/src/codex-capsule-transitions.ts:238-266 | The in-place transition that closes a turn or replays the same record leaves exactly the specified object and reply, and on refusal leaves the object unchanged. |
| CapsuleStore.CodexCapsuleStore.mutate | node/src/codex-capsule-store.ts:218-233 | Clone, transition, validate, write, publish: memory and file afterwards, and the reply, for a write that succeeds, fails, or fails after reaching the file. |
| CapsuleLifecycle.TurnsFollowLifecycle | node/src/codex-capsule-transitions.ts:112-266 | From every state the validator accepts, an operation on a turn is taken exactly when the turn it addresses is in a stage that takes it; that turn alone moves to its next stage, ends in the right report, and the stage before decides the reply: fresh is sent, sent or unbound is reconciled, anything else is accepted, over or not. |
| CapsuleLifecycle.SessionsFollowLifecycle | node/src/codex-capsule-transitions.ts:38-74 | A session is sent once and bound once; a start that never bound can be given back; phase and thread decide each reply. |
| CapsuleLifecycle.PreparationFollowsLifecycle | node/src/codex-capsule-transitions.ts:76-110 | A turn is prepared exactly for the bound session while none is open, or found again under the same input. |
| CapsuleProofs.TransitionsOnlyAdvance | node/src/codex-capsule-transitions.ts:38-266 | No transition removes a turn, rebinds a thread or provider turn, lowers a phase or cancellation, drops an event, or touches a terminal turn. |
| CapsuleProofs.ValidatorAcceptsIffStorable | node/src/codex-capsule-state.ts:112-233 | From every state the store reaches, a transition is storable exactly when there is room for a new turn and the usage total is in bound, and open turns stay fresh. |
| CapsuleProofs.ValidatorAloneIsNotInductive | node/src/codex-capsule-state.ts:112-233 | A concrete state the validator accepts from which a successful transition is refused: validity alone is not kept. |
| CapsuleProofs.ClosedTurnFolds | node/src/codex-capsule-transitions.ts:257-266 | Closing a fresh turn yields a complete valid stream exactly when the usage is in bound. |
| CapsuleValidity.ClosedTurnConsistentIff | node/src/codex-capsule-transitions.ts:257-266 | Closing any consistent open turn yields a consistent one exactly when its events are its own, two more events and the text fit, and the usage takes nothing back. |
| CapsuleValidity.ValidatorAcceptsIff | node/src/codex-capsule-state.ts:112-233 | From every state the validator accepts, reachable or not, the exact condition under which each successful transition is accepted again. |
| CapsuleNormalizer.ReconcileCodexTurn | node/src/codex-capsule-normalizer.ts:32-54 | The nested search over turns and items returns the specified match or error. |
| CapsuleNormalizer.ReconciledIff | node/src/codex-capsule-normalizer.ts:32-54 | The search finds nothing, or the turn with the one message that carries the intent's id, exactly when all turns are in full view, each such message is exact and there is no second one; anything else is an error. |
| CapsuleNormalizer.WellKeptMatches | node/src/codex-capsule-normalizer.ts:32-54 | A provider turn that keeps its one user message first matches an intent exactly when it carries the intent's client message id. |
| CapsuleNormalizer.NormalizedOutcomeIs | node/src/codex-capsule-normalizer.ts:57-88 | Every finished provider turn reduces to an outcome the store parses: completed with a disposition exactly when the turn is whole, allowed and has one final answer, which is that disposition and publishable; cancelled exactly when interrupted on a local request; otherwise a failure whose class says why. |
| CapsuleSystem.NextKeepsInv | node/src/codex-capsule-store.ts:218-233 | Every step of stores, drivers and provider, torn writes and crashes included, keeps the system invariant. |
| CapsuleSystem.ReconciliationIsExact | node/src/codex-capsule-normalizer.ts:32-54 | Reading the thread for a stored turn finds no error and no second match, and finds a match exactly when a start for its key was received. |
| CapsuleTheorems.AtMostOneStartAndInterrupt | node/src/codex-turn-executor.ts:49-134 | In every run with crashes anywhere, the provider receives at most one start per execution key and at most one interrupt per turn, and holds at most one turn per client message id. |
| CapsuleTheorems.ReconciliationNeverFails | node/src/codex-turn-executor.ts:136-142 | In every reachable world the file can be opened again and reconciliation is exact. |
| CapsuleTheorems.StateOnlyAdvances | node/src/codex-capsule-store.ts:218-233 | Across crashes and torn writes the visible state only advances and the file is never behind it: bound threads and turns stay bound, terminal turns are frozen. |
| CapsuleTheorems.AcknowledgedIsDurable | node/src/codex-capsule-store.ts:218-233 | What an operation acknowledged survives every later crash, in memory and on file. |
| CapsuleTheorems.BindingIsForever | node/src/codex-capsule-transitions.ts:134-152 | Whoever names a provider turn for a key, at any two times of a run, names the same one. |
| CapsuleTheorems.LostStartStaysLost | node/src/codex-capsule-transitions.ts:210-236 | Once a claim is consumed with nothing in flight and nothing at the provider, no later run makes the provider start that turn. |
| CapsuleTheorems.CrashThenEmptyReadIsFinal | node/src/codex-turn-executor.ts:109-125 | After a crash, one reading that finds no turn proves that the turn was and will never be started. |
| CapsuleTheorems.StartsCanBeLost | node/src/codex-turn-executor.ts:49-60 | A concrete run that loses a start between the claim and the call. |
| CapsuleLiveness.StartPossibleIff | node/src/codex-capsule-transitions.ts:112-132 | From every reached world a stored turn can still become the provider's exactly when its start was received, is in flight, or has not been claimed. |
| CapsuleLiveness.InterruptPossibleIff | node/src/codex-capsule-transitions.ts:154-179 | From every reached world the provider can still be asked to stop a turn exactly when it was asked, is being asked, or an open turn whose start can reach it has not used its interrupt. |
| CapsuleLiveness.TurnPossibleIff | node/src/codex-capsule-transitions.ts:38-110 | From every reached world an input can become a stored turn exactly when it is stored, in memory or on file, or its key is new, its session is this one and there is room. |
| CapsuleLiveness.OpenTurnsCanEnd | node/src/codex-capsule-transitions.ts:154-266 | Every open turn of every reached world can be ended. |
| CapsuleExecutor.SharedSystem.ReadMatchedTurn | node/src/codex-turn-executor.ts:136-142 | Reading back never conflicts; an empty reading means no start was received; a match teaches the driver that turn. |
| CapsuleExecutor.CodexTurnExecutor.Finalize | node/src/codex-turn-executor.ts:196-209 | Returns normally only with the turn durably terminal, reported with the usage given and the outcome the provider's turn normalises to; throws only for an unfinished turn, a bad address or a failure. |
| CapsuleExecutor.CodexTurnExecutor.BindReconciled | node/src/codex-turn-executor.ts:127-134 | Given a turn the provider reported for this input, binds it, and returns normally for a finished one only with the turn durably terminal. |
| CapsuleExecutor.CodexTurnExecutor.ReconcileUnbound | node/src/codex-turn-executor.ts:109-125 | Records a start as lost only after every reading came back empty; with nothing in flight it is then lost for good. |
| CapsuleExecutor.CodexTurnExecutor.PerformInterrupt | node/src/codex-turn-executor.ts:87-107 | Returns normally only if the turn is durably terminal or its interrupt is handed out, or it has no provider binding yet; throws only if something it tried failed; remembers at most this turn as issued. Others act and the process may die also between the claim and the call; that it still holds the claim then is a proved precondition of the call. |
| CapsuleExecutor.CodexTurnExecutor.SettleInterrupt | node/src/codex-turn-executor.ts:94-106 | Settling an interrupt of a former generation returns normally only with the turn durably terminal. |
| CapsuleExecutor.CodexTurnExecutor.ApplyProviderEvent | node/src/codex-turn-executor.ts:174-194 | Reports a turn as closed only when it is durably terminal as the notification says; otherwise it has taken over the usage exactly when the notification is about this turn. |
| CapsuleExecutor.CodexTurnExecutor.WaitForTerminal | node/src/codex-turn-executor.ts:144-172 | The watching loop returns normally only with the turn durably terminal, whatever others do at each await. |
| CapsuleExecutor.CodexTurnExecutor.Execute | node/src/codex-turn-executor.ts:49-70 | A whole run of the executor, with interference and crashes at every await, the one between claim and call included, starts the provider only where it provably holds the start claim. It returns normally only with the turn durably terminal; it throws only if something it tried failed, the reference and input name no one turn, or the notifications were out of order; while it watches, the turn is bound, and a cancellation asked for before has its interrupt handed out. It reports a start lost only truthfully. |
| CapsuleExecutor.CodexTurnExecutor.Resume | node/src/codex-turn-executor.ts:64-69 | Once a run has claimed, it never finds its turn unbound: the exception for that cannot occur. |
| Journal.AdvanceAcceptedIff | node/src/journal.ts:210-258 | Exactly which delivery updates are taken, and where the one named grant ends up: active while its lease is current or absent, set aside once a newer fence is out. |
| Journal.IntersectedIsGreatest | node/src/runtime-authority-contract.ts:276-294 | The effective limits exceed none of the four sources, and any limits below all four are within them. |
| Journal.JournalDelivery.StageRuntimeAuthoritySuccessor | node/src/journal.ts:210-258 | Staging in place leaves exactly the specified entry or reports the specified error. |
| Journal.JournalDelivery.Advance | node/src/journal.ts:508-541 | An update of a known delivery checks its identity, stages, then replaces the delivery. |
| Journal.JournalDelivery.CheckpointGrant | node/src/journal.ts:389-417 | A checkpoint compares and swaps the entry to name exactly the new grant. |
| Journal.CheckpointAgain | node/src/journal.ts:389-417 | A checkpoint leaves exactly its grant named and may be repeated. |
| Journal.NodeJournal.Mutate | node/src/journal.ts:342-352 | Working on a clone yields the specified entries or error. |
| Journal.NodeJournal.Update | node/src/journal.ts:469-491 | Clone, mutate, validate, save, publish: memory and file afterwards for a save that succeeds, fails, or fails after reaching the file. |
| JournalSystem.UpdateKeepsNames | node/src/journal.ts:210-258 | No permitted update forgets a grant whose revocation has not returned. |
| JournalSystem.HeldGrantsAreNamed | node/src/journal.ts:620-677 | In every interleaving of updates, torn saves, checkpoints, retirements, late installs and crashes, each grant a Capsule may hold is named in memory and on file, active and predecessor never coexist, and no delivery has two held grants. |
| JournalSystem.NamedUntilRevoked | node/src/delivery-runtime-authority.ts:67-111 | A held grant stays named until its revocation returns or its Capsule is gone. |
| JournalSystem.ScopeNeverWidens | node/src/journal.ts:679-698 | Until the delivery is retired, no chain of renewals, new leases, successors, torn saves and crashes changes the policy, workspace, capabilities, limit sources, effective limits or hard deadline of its grant. |
| JournalSystem.NamedGrantsNarrow | node/src/runtime-authority-contract.ts:111-129 | In every run each grant named in memory or on file allows no more than any of its sources, and nothing every source allows is withheld. |
| JournalSystem.AttemptsOnlyAdvance | node/src/delivery-processor.ts:1233-1256 | In every run no delivery's attempt number sinks; that it moves, by one, exactly when a release back to the relay is stored is `AttemptMovesIff`. |
| Journal.JournalDelivery.StoreClaim | node/src/delivery-processor.ts:515-527 | Storing what a claim found stages a new lease, or closes a dead delivery without staging. |
| Journal.JournalDelivery.StoreAnswer | node/src/delivery-processor.ts:964-970 | Storing the answer to a lease operation replaces the delivery unstaged and clears the request; a release back to the relay also begins the next attempt, and is refused while a grant is named. |
| Journal.AnswerStoredIff | node/src/delivery-processor.ts:592-604 | Exactly which answers to a lease operation are stored, beside which grants, and what the entry is then. |
| Journal.ClaimStoredIff | node/src/delivery-processor.ts:515-527 | Exactly which claim results are stored: a new lease as a delivery update is, a dead delivery while no predecessor is named. |
| JournalSystem.NamedFencesAreBounded | node/src/journal.ts:210-258 | In every run, late answers, torn saves and crashes included, no grant named in memory or on file has a fence beyond its delivery's, and a predecessor's is strictly older. |
| JournalSystem.FloorsOnlyAdvance | node/src/delivery-processor.ts:537-610 | In every run, the fence of the lease operation a delivery waits for, or else its own fence, never sinks. |
| JournalSystem.FenceMovesBackIff | node/src/delivery-processor.ts:592-604 | A write moves a delivery's fence back exactly when it stores the answer to a lease operation that the delivery has meanwhile overtaken. |
| JournalSystem.ReplayedAnswerMovesFenceBack | relay/src/services/delivery-ledger.ts:504-522 | A concrete run whose answers all parse and belong to their requests, in which a replayed renewal takes the fence from 2 back to 1. |
| JournalSystem.FencesOnlyAdvance | node/src/journal.ts:508-541 | As long as no delivery update overtakes a lease operation that still waits for its answer, no fence ever moves back, torn saves and crashes included. |
| RuntimeAuthority.RecompilesIff | node/src/runtime-authority-factory.ts:33-133 | Recompiling an installed grant gives that grant exactly when policy, workspace, capabilities and limit sources are unchanged, the Mission still outlasts it, and the delivery executes with nothing expired. |
| RuntimeAuthority.CompiledIff | node/src/runtime-authority-factory.ts:33-133 | For inputs as the schemas have them, a fresh grant is compiled exactly for an executing delivery whose lease and Mission have not expired; it is that lease's and input's, each limit is the least of product, local policy and Mission, its capabilities are those the adapter supports, and it ends with the Mission or the least turn limit, within every source's. |
| RuntimeAuthority.SucceedsIff | node/src/runtime-authority-factory.ts:33-133 | What is compiled for the next lease passes the successor check exactly when the predecessor came from the same inputs and nothing has expired. |
| RuntimeAuthority.ResolvesIff | node/src/delivery-runtime-authority.ts:142-203 | After every run that does not retire the delivery, inputs resolve its grant, by replay or by an accepted successor checkpoint, exactly when they are the ones the first grant was compiled from and the delivery executes with nothing expired. |
| RuntimeAuthority.FirstGrantResolvesIff | node/src/delivery-runtime-authority.ts:142-203 | An entry that names no grant resolves exactly while the delivery executes and neither its lease nor the Mission has expired. |
| RuntimeAuthority.EveryNameCanBeRetired | node/src/delivery-runtime-authority.ts:67-111 | Whatever a delivery's entry names in a reached world, some continuation leaves it naming nothing. |
| RuntimeAuthority.ResolvedGrantCanBeHeld | node/src/delivery-runtime-authority.ts:113-203 | Whenever the inputs resolve a grant in a reached world, some continuation holds exactly that grant in a Capsule, unless this process revoked it. |
| RuntimeAuthority.DeliveryRuntimeAuthority.RetireJournaled | node/src/delivery-runtime-authority.ts:67-111 | Success means that the journal names nothing for the delivery and that no Capsule holds a grant of it; it ends otherwise only if the delivery is not journaled, there is no port, or something it tried failed. |
| RuntimeAuthority.DeliveryRuntimeAuthority.ResolveGrant | node/src/delivery-runtime-authority.ts:135-203 | The grant returned was read from or checkpointed in the journal by this process, for this delivery and these inputs; the journal names it, a start was sent for its fence, and every other grant of the delivery that was named at the call is revoked. It throws only for a reason the journal and the clock give or after a failure, and stays pending only after a failure or a change by others. |
| RuntimeAuthority.DeliveryRuntimeAuthority.Install | node/src/delivery-runtime-authority.ts:113-133 | An installed grant is held and named, in memory and on file, and compiled from these inputs; installation fails only after a failure or a change by others, or when nothing resolves or the resolved grant no longer fits the journaled lease or was revoked. |
| CanonicalJsonProofs.StringReadsBack | node/src/capsule-correlation.ts:18 | Every string, lone surrogates included, is recovered from its escaped form. |
| CanonicalJsonShortest.PrintedAsIsIff | node/src/capsule-correlation.ts:18 | A string is printed between its quotes as it is exactly when it has no quote, backslash, control unit or lone surrogate, and longer otherwise. |
| CanonicalJsonShortest.EscapeUnitShape | node/src/capsule-correlation.ts:18 | Which units are escaped, in two or six units, with lower-case hex digits. |
| CanonicalJsonShortest.StringifyIsTheShortest | node/src/capsule-correlation.ts:17-25 | What is printed for a value has no control unit and no lone surrogate, reads back as the value, and is the one shortest such text that does. |
| CanonicalJsonProofs.ParseInvertsStringify | node/src/capsule-correlation.ts:17-25 | The parser undoes the printer in front of any text that does not continue a number. |
| CanonicalJsonProofs.CanonicalPrintsCanon | node/src/capsule-correlation.ts:20-24 | Sorting keys and looking values up at every object prints the recursively sorted value. |
| CanonicalJsonProofs.CanonDecidesSame | node/src/capsule-correlation.ts:20-24 | Sorted forms are equal exactly for the same value up to key order. |
| CanonicalJsonProofs.CanonicalTextIsUnique | node/src/capsule-correlation.ts:17-25 | Canonical texts are equal exactly for the same value up to key order. |
| CanonicalJsonProofs.CanonicalReadsBack | node/src/capsule-correlation.ts:17-25 | Canonical text followed by anything but a digit reads back as the sorted value and leaves the rest. |
| CanonicalJsonProofs.ExecutionKeyIsInjective | node/src/capsule-correlation.ts:9-11 | An execution key determines delivery id and attempt, whatever characters the id has. |
| Utf16.SortSorts | node/src/capsule-correlation.ts:22 | Sorting distinct keys lists the same keys in ascending code-unit order. |
| Utf16.SortedIsUnique | node/src/capsule-correlation.ts:22 | A set of keys has one sorted listing. |
| BoundedQueue.BoundedAsyncQueue.Push | node/src/bounded-async-queue.ts:25-40 | A push is refused, ignored, handed to the first waiter or queued exactly as specified, and keeps the queue valid. |
| BoundedQueue.BoundedAsyncQueue.Next | node/src/bounded-async-queue.ts:57-69 | A call is answered from the queue, by the end or the failure, or waits, exactly as specified. |
| BoundedQueue.BoundedAsyncQueue.Close | node/src/bounded-async-queue.ts:42-55 | Closing settles every waiter, and drops what is queued only on an error. |
| BoundedQueue.OrderAndConservation | node/src/bounded-async-queue.ts:12-69 | In every interleaving the i-th value-bearing call gets the i-th accepted value, callers wait only while nothing is queued, the retained weight is the queue's and within both bounds, and nothing accepted is lost without a failure. |
| BoundedQueue.PushDoes | node/src/bounded-async-queue.ts:25-40 | After any run, a push of usable weight is ignored exactly after a close, goes to the caller who waits longest, is queued exactly when both bounds still hold with it, and else overflows and changes nothing. |
| BoundedQueue.CallDoes | node/src/bounded-async-queue.ts:57-69 | After any run, a call is rejected exactly when the first close carried an error, and otherwise takes the oldest value, reports the end, or waits. |
| BoundedQueue.CloseDoes | node/src/bounded-async-queue.ts:42-55 | After any run, the first close answers every waiting caller, and no other, with its error or the end, and drops what is queued only on an error; later closes do nothing. |
| BoundedQueue.GracefulCloseDeliversEverything | node/src/bounded-async-queue.ts:42-69 | After a graceful close, whatever calls, pushes and further closes follow in any order, the calls deliver the accepted values in order and then the end, and nothing more is accepted. |
| BoundedQueue.FailedQueueStaysSilent | node/src/bounded-async-queue.ts:42-69 | After a failure every call is rejected with it and nothing more is accepted or delivered. |
| Framing.ReadCodexLines | node/src/codex-app-server-process.ts:130-149 | Lines and failure depend only on the concatenated text, however it was cut into chunks. |
| Framing.ReadingMeans | node/src/codex-app-server-process.ts:130-149 | Reading yields the nonempty segments before the first oversize one, and fails exactly when a segment is oversize or the last line is incomplete. |
| Utf16.ByteLengthIs | node/src/codex-app-server-process.ts:158-162 | The frame size counted is that of the UTF-8 encoding, lone surrogates replaced. |
| Framing.Cut | node/src/codex-app-server-process.ts:130-149 | Every text is newline-terminated segments and a tail. |
| Framing.TextIsOneLine | node/src/codex-app-server-process.ts:151-157 | JSON text is one nonempty line. |
| Framing.FramesReadBack | node/src/codex-app-server-process.ts:130-157 | Frames written one after another and cut anywhere are read back as exactly the values written, without an error. |
| LeaseWindow.WindowIsSafe | node/src/delivery-processor.ts:1424-1450 | If the relay recorded the renewal between request and response, the believed deadline is never after the relay's, and the next renewal is due more than 50 ms before it. |
| LeaseWindow.WindowIsTight | node/src/delivery-processor.ts:1424-1450 | No later deadline would be safe, the remainder is exact to the millisecond, and the renewal is due half-way through it. |
| LeaseWindow.WindowExistsIff | node/src/delivery-processor.ts:1424-1450 | A window exists exactly when the receipt matches and more than the minimum is left after the round trip, rounded up. |
| LeaseWindow.RelayRenewsIff | relay/src/services/delivery-ledger.ts:274-300 | The relay renews exactly for the holder, before the deadline, when the minute or the Mission's end does not move the deadline back; on unsettled work with a later deadline this is the shared state machine's transition. |
| LeaseWindow.FreshWindowIsBelieved | node/src/delivery-processor.ts:574-607 | The window computed from any answer to a renewal the relay took, recorded between request and response, is a safe reading of the lease, which is where a keeper starts. |
| LeaseWindow.TimelyRenewalIsAccepted | node/src/delivery-processor.ts:1312-1364 | A renewal whose lateness and latency stay under half the safe remainder is taken by the relay, whatever is left of the Mission, and the answer yields a safe window again. |
| LeaseWindow.TimelyKeeperIsNeverRefused | node/src/delivery-processor.ts:1312-1364 | Through a whole run, whatever interrupts it, no timely renewal finds the lease gone, and the lease is still the keeper's when it stops. |
| LeaseWindow.RoundSucceedsIff | node/src/delivery-processor.ts:1324-1361 | A timely round succeeds exactly when nothing interrupts it, the journal still shows the keeper's lease and more than the minimum is left after the round trip; then deadline, count and window are the new ones. |
| LeaseWindow.RecordFollowsRelay | node/src/delivery-processor.ts:1327-1355 | If nobody else rewrites the lease, the journal never claims a later deadline than the relay's and is behind only while a request is journaled, which is so exactly after the failures that leave one; it is the newest request. |
| LeaseWindow.LeaseKeeper.Renew | node/src/delivery-processor.ts:1324-1361 | One pass of the loop, with the changed-lease check, both journal writes and every point of failure, leaves exactly the specified window, record and failure. |
| LeaseWindow.LeaseKeeper.Run | node/src/delivery-processor.ts:1312-1364 | The keeper's loop ends in the specified window, record, relay state and failure; never refused while timely, and its record follows the relay. |

## Left out

- String length, pattern, UUID and date-format checks of the schemas: values are assumed to have the right shape, and clauses that compare fields are kept.
- SHA-256 and deterministic UUIDs: taken to be injective.
- `updated_at`, `available_at` and other bookkeeping timestamps, and `mission_context.created_by`: no branch modelled here depends on them.
- Files, locks and sockets: one durable write is one step that succeeds, fails, or fails after reaching the file.
- The provider: one turn per start call received, one user message first in each turn, and no start of an ended process arriving later.
- The adapter of the runtime authority port: a returned revocation means the grant's Capsule is retired, and the same process refuses to install that grant again.
- Capsule session start (`codex-capsule-runner.ts`): the store's session transitions are modelled, the driver of the session is not.
- `#interruptOperations` of the turn executor, which shares one promise among concurrent callers: at most one interrupt is proved without it.
- CapsuleExecutor.CodexTurnExecutor.WaitForTerminal: the endless watching loop ends where the given list of observations does, as if the process died there, since no bound on the provider's running time exists; every run that returns makes finitely many observations, so all of those are covered.
- CapsuleExecutor.CodexTurnExecutor.Execute: watches the same finite list of observations.
- Journal schema side checks that host events and start inputs belong to the active attempt, and cursors, sessions and Mission acceptances of the journal.
- `nextHostEvent`, abort signals and callbacks of host event consumption: an abort is a session cut off at that point.
- JSON numbers other than integers, and integers of 22 digits and more, which JavaScript prints with an exponent.
- LeaseWindow.WindowIsSafe: assumes that the relay's millisecond timestamp itself lies between request and response, and that both clocks run at the same rate.
- LeaseWindow.RelayRenewsIff: the relay's other grounds for refusing a renewal (a cancelled Mission, a participant or workspace no longer accepted, lost trust) and its replay of a repeated request are not part of the keeper's model.
- BoundedQueue.BoundedAsyncQueue.Push: the exception for an overflow is a result value; which error object it carries is not modelled.
- Delivery receipts (`protocol/src/delivery-operations.ts:447-560`): of their checks the model keeps the status an operation may lead to and that the answer carries the lease and fence presented. Of the relay it assumes that it reports no fence it has not reached, execution only after a start request for that fence, and an end only at its last fence. `JournalSystem.NamedFencesAreBounded`, `FloorsOnlyAdvance` and `FenceMovesBackIff` rely on this.
- The relay's claim, expiry and back-off logic in the journal's system: the fence of a delivery moves forward there at any time.
- Policy and trust configuration, HTTP clients, sandboxing and process guardians.
