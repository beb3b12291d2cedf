/** Durable state of one Codex Mission Capsule: its session, its turns, and the transitions
    that move them. Each transition either yields the next state and a reply or a refusal. */
module CapsuleState {
  import opened Common
  import opened MissionTypes
  import opened HostStream

  const MAX_STORED_TURNS := 200
  const MAX_TEXT := 16_000
  const MAX_FAILURE_TEXT := 4_000

  datatype SessionInput = SessionInput(missionId: Id, participantId: Id, workspaceAlias: string)

  datatype HostSessionRef = HostSessionRef(input: SessionInput, sessionId: Id)

  /** A turn to start. `prompt` stands for all mission text the provider is shown. */
  datatype StartTurnInput = StartTurnInput(
    session: HostSessionRef, missionId: Id, deliveryId: Id, executionAttempt: nat, contractVersion: nat,
    prompt: Id)

  datatype ExecutionKey = ExecutionKey(deliveryId: Id, executionAttempt: nat)

  /** SHA-256 of canonical JSON, taken to be injective: a digest is what it digests. */
  datatype Digest = SessionDigest(session: SessionInput) | TurnDigest(turn: StartTurnInput)

  datatype Intent = Intent(clientMessageId: ExecutionKey, text: Id, textDigest: Digest)

  datatype SessionPhase = SessionPrepared | SessionStartMaybeSent | SessionReady
  datatype TurnPhase = Prepared | StartMaybeSent | TurnAccepted | Cancelling | TurnTerminal
  datatype Cancellation = NotRequested | Requested | InterruptMaybeSent

  datatype StoredTurn = StoredTurn(
    input: StartTurnInput, digest: Digest, hostTurnId: Id, phase: TurnPhase, codexTurnId: Option<Id>,
    intent: Intent, cancellation: Cancellation, events: seq<HostEvent>)

  datatype Capsule = Capsule(
    capsuleId: Id, session: SessionInput, sessionDigest: Digest, hostSessionId: Id,
    sessionPhase: SessionPhase, threadId: Option<Id>, turns: map<ExecutionKey, StoredTurn>)

  datatype Identity = Identity(capsuleId: Id, session: SessionInput)

  datatype TerminalOutcome =
    | OutcomeCompleted(disposition: Disposition)
    | OutcomeFailed(class_: string, message: string)
    | OutcomeCancelled

  datatype SessionClaim = SessionIsReady(session: HostSessionRef, threadId: Option<Id>) | ReconcileSession | SendSession
  datatype TurnClaim =
    | Send(intent: Intent)
    | Reconcile(intent: Intent)
    | AlreadyAccepted(turn: HostTurnRef, terminal: bool)
  datatype InterruptClaim =
    | InterruptTerminal | AwaitingProvider | InterruptReconcile
    | InterruptSend(threadId: Option<Id>, codexTurnId: Id)

  datatype Reply =
    | SessionClaimed(sessionClaim: SessionClaim)
    | SessionBound(session: HostSessionRef)
    | TurnBound(turn: HostTurnRef)
    | TurnClaimed(claim: TurnClaim)
    | InterruptClaimed(interrupt: InterruptClaim)
    | TurnEvents(events: seq<HostEvent>)
    | Done

  datatype CapsuleError = ScopeMismatch | NotFound | Conflict | Malformed | Rejected | WriteFailed

  datatype Operation =
    | ClaimSessionStart
    | AcceptSession(threadId: Id)
    | ResetUnboundSession
    | PrepareTurn(input: StartTurnInput, freshTurnId: Id)
    | ClaimTurnStart(input: StartTurnInput)
    | AcceptTurn(input: StartTurnInput, codexTurnId: Id)
    | RequestCancellation(turn: HostTurnRef)
    | ClaimInterrupt(turn: HostTurnRef)
    | RecordUncertainInterrupt(turn: HostTurnRef, input: StartTurnInput)
    | RecordUnmatchedStart(turn: HostTurnRef, input: StartTurnInput)
    | RecordTerminal(turn: HostTurnRef, usage: HostUsage, outcome: TerminalOutcome)

  type Step = Result<(Capsule, Reply), CapsuleError>

  // ---- Records -------------------------------------------------------------------------

  function KeyOf(input: StartTurnInput): ExecutionKey { ExecutionKey(input.deliveryId, input.executionAttempt) }

  function KeyOfRef(turn: HostTurnRef): ExecutionKey { ExecutionKey(turn.deliveryId, turn.executionAttempt) }

  function BuildIntent(input: StartTurnInput): Intent { Intent(KeyOf(input), input.prompt, TurnDigest(input)) }

  function HostSession(v: Capsule): HostSessionRef { HostSessionRef(v.session, v.hostSessionId) }

  function HostTurn(t: StoredTurn): HostTurnRef {
    HostTurnRef(t.hostTurnId, t.input.session.sessionId, t.input.missionId, t.input.deliveryId,
                t.input.executionAttempt, t.input.contractVersion)
  }

  /** The turn a store validates a stream against: the stored one, its host id left open. */
  function StoredCorrelation(t: StoredTurn): Correlation {
    Correlation(None, t.input.session.sessionId, t.input.missionId, t.input.deliveryId,
                t.input.executionAttempt, t.input.contractVersion)
  }

  predicate SameInput(t: StoredTurn, input: StartTurnInput) {
    t.input == input && t.digest == TurnDigest(input)
  }

  function TurnByInput(v: Capsule, input: StartTurnInput): Result<StoredTurn, CapsuleError> {
    var key := KeyOf(input);
    if key !in v.turns then Err(NotFound)
    else if !SameInput(v.turns[key], input) then Err(Conflict)
    else Ok(v.turns[key])
  }

  function TurnByRef(v: Capsule, turn: HostTurnRef): Result<StoredTurn, CapsuleError> {
    var key := KeyOfRef(turn);
    if key !in v.turns || HostTurn(v.turns[key]) != turn then Err(NotFound) else Ok(v.turns[key])
  }

  predicate TextParses(s: string, limit: nat) { 1 <= |s| <= limit }

  /** Only replies without artifacts and blocked turns may leave the read-only Capsule. */
  predicate OutcomeParses(outcome: TerminalOutcome) {
    match outcome
    case OutcomeCompleted(Reply(_, text, artifacts)) => artifacts.None? && TextParses(text, MAX_TEXT)
    case OutcomeCompleted(Blocked(reason, requested)) =>
      TextParses(reason, MAX_TEXT) && (requested.Some? ==> TextParses(requested.value, MAX_TEXT))
    case OutcomeCompleted(_) => false
    case OutcomeFailed(_, message) => TextParses(message, MAX_FAILURE_TEXT)
    case OutcomeCancelled => true
  }

  function TerminalEvent(outcome: TerminalOutcome, turn: HostTurnRef, sequence: nat): HostEvent {
    match outcome
    case OutcomeCompleted(disposition) => HostCompleted(turn, sequence, disposition)
    case OutcomeFailed(class_, message) => HostFailed(turn, sequence, class_, message)
    case OutcomeCancelled => HostCancelled(turn, sequence)
  }

  const NOT_REPORTED := Unavailable("not_reported")
  const LOST_START :=
    OutcomeFailed("transient", "Codex start could not be recovered after provider shutdown")
  const LOST_INTERRUPT :=
    OutcomeFailed("transient", "Codex cancellation outcome could not be recovered after provider shutdown")

  function AppendTerminal(t: StoredTurn, usage: HostUsage, outcome: TerminalOutcome): StoredTurn {
    var n := |t.events|;
    t.(events := t.events + [Usage(HostTurn(t), n + 1, usage), TerminalEvent(outcome, HostTurn(t), n + 2)],
       phase := TurnTerminal)
  }

  function WithTurn(v: Capsule, t: StoredTurn): Capsule { v.(turns := v.turns[KeyOf(t.input) := t]) }

  // ---- Transitions ---------------------------------------------------------------------

  function ClaimSessionStartStep(v: Capsule): Step {
    match v.sessionPhase
    case SessionReady => Ok((v, SessionClaimed(SessionIsReady(HostSession(v), v.threadId))))
    case SessionStartMaybeSent => Ok((v, SessionClaimed(ReconcileSession)))
    case SessionPrepared => Ok((v.(sessionPhase := SessionStartMaybeSent), SessionClaimed(SendSession)))
  }

  function AcceptSessionStep(v: Capsule, threadId: Id): Step {
    match v.sessionPhase
    case SessionReady =>
      if v.threadId != Some(threadId) then Err(Conflict) else Ok((v, SessionBound(HostSession(v))))
    case SessionPrepared => Err(Conflict)
    case SessionStartMaybeSent =>
      Ok((v.(sessionPhase := SessionReady, threadId := Some(threadId)), SessionBound(HostSession(v))))
  }

  function ResetUnboundSessionStep(v: Capsule): Step {
    if !v.sessionPhase.SessionStartMaybeSent? || v.threadId.Some? then Err(Conflict)
    else if v.turns != map[] then Err(Conflict)
    else Ok((v.(sessionPhase := SessionPrepared), Done))
  }

  function PrepareTurnStep(v: Capsule, input: StartTurnInput, freshTurnId: Id): Step {
    if !v.sessionPhase.SessionReady? then Err(ScopeMismatch)
    else if input.session != HostSession(v) then Err(ScopeMismatch)
    else
      var key := KeyOf(input);
      if key in v.turns then
        if !SameInput(v.turns[key], input) then Err(Conflict) else Ok((v, TurnBound(HostTurn(v.turns[key]))))
      else if exists k <- v.turns :: !v.turns[k].phase.TurnTerminal? then Err(Conflict)
      else
        var t := StoredTurn(input, TurnDigest(input), freshTurnId, Prepared, None, BuildIntent(input),
                            NotRequested, []);
        var accepted := t.(events := [Accepted(HostTurn(t), 1)]);
        Ok((WithTurn(v, accepted), TurnBound(HostTurn(accepted))))
  }

  function ClaimTurnStartStep(v: Capsule, input: StartTurnInput): Step {
    var found := TurnByInput(v, input);
    if found.Err? then Err(found.error)
    else
      var t := found.value;
      if t.phase.Prepared? then
        Ok((WithTurn(v, t.(phase := StartMaybeSent)), TurnClaimed(Send(t.intent))))
      else if t.phase.StartMaybeSent? || (t.phase.Cancelling? && t.codexTurnId.None?) then
        Ok((v, TurnClaimed(Reconcile(t.intent))))
      else Ok((v, TurnClaimed(AlreadyAccepted(HostTurn(t), t.phase.TurnTerminal?))))
  }

  function AcceptTurnStep(v: Capsule, input: StartTurnInput, codexTurnId: Id): Step {
    var found := TurnByInput(v, input);
    if found.Err? then Err(found.error)
    else
      var t := found.value;
      if t.codexTurnId.Some? then
        if t.codexTurnId != Some(codexTurnId) then Err(Conflict) else Ok((v, TurnBound(HostTurn(t))))
      else if !t.phase.StartMaybeSent? && !t.phase.Cancelling? then Err(Conflict)
      else
        var bound := t.(codexTurnId := Some(codexTurnId),
                        phase := if t.phase.StartMaybeSent? then TurnAccepted else t.phase);
        Ok((WithTurn(v, bound), TurnBound(HostTurn(bound))))
  }

  function RequestCancellationStep(v: Capsule, turn: HostTurnRef): Step {
    var found := TurnByRef(v, turn);
    if found.Err? then Err(found.error)
    else
      var t := found.value;
      match t.phase
      case TurnTerminal => Ok((v, Done))
      case Cancelling => Ok((v, Done))
      case Prepared =>
        Ok((WithTurn(v, AppendTerminal(t.(cancellation := Requested), NOT_REPORTED, OutcomeCancelled)), Done))
      case _ => Ok((WithTurn(v, t.(phase := Cancelling, cancellation := Requested)), Done))
  }

  function ClaimInterruptStep(v: Capsule, turn: HostTurnRef): Step {
    var found := TurnByRef(v, turn);
    if found.Err? then Err(found.error)
    else
      var t := found.value;
      if t.phase.TurnTerminal? then Ok((v, InterruptClaimed(InterruptTerminal)))
      else if !t.phase.Cancelling? then Err(Conflict)
      else if t.codexTurnId.None? then Ok((v, InterruptClaimed(AwaitingProvider)))
      else if t.cancellation.InterruptMaybeSent? then Ok((v, InterruptClaimed(InterruptReconcile)))
      else
        Ok((WithTurn(v, t.(cancellation := InterruptMaybeSent)),
            InterruptClaimed(InterruptSend(v.threadId, t.codexTurnId.value))))
  }

  function Close(v: Capsule, t: StoredTurn, usage: HostUsage, outcome: TerminalOutcome): Step {
    var closed := AppendTerminal(t, usage, outcome);
    Ok((WithTurn(v, closed), TurnEvents(closed.events)))
  }

  function RecordUncertainInterruptStep(v: Capsule, turn: HostTurnRef, input: StartTurnInput): Step {
    var found := TurnByRef(v, turn);
    if found.Err? then Err(found.error)
    else
      var t := found.value;
      if !SameInput(t, input) then Err(Conflict)
      else if t.phase.TurnTerminal? then Ok((v, TurnEvents(t.events)))
      else if !t.phase.Cancelling? || !t.cancellation.InterruptMaybeSent? || t.codexTurnId.None? then Err(Conflict)
      else Close(v, t, NOT_REPORTED, LOST_INTERRUPT)
  }

  function RecordUnmatchedStartStep(v: Capsule, turn: HostTurnRef, input: StartTurnInput): Step {
    var found := TurnByRef(v, turn);
    if found.Err? then Err(found.error)
    else
      var t := found.value;
      if !SameInput(t, input) then Err(Conflict)
      else if t.phase.TurnTerminal? then Ok((v, TurnEvents(t.events)))
      else if (!t.phase.StartMaybeSent? && !t.phase.Cancelling?) || t.codexTurnId.Some? then Err(Conflict)
      else Close(v, t, NOT_REPORTED, if t.cancellation.NotRequested? then LOST_START else OutcomeCancelled)
  }

  /** Recording the same terminal result again returns the stored events; anything else conflicts. */
  function ReplayTerminal(v: Capsule, t: StoredTurn, usage: HostUsage, outcome: TerminalOutcome): Step {
    var n := |t.events|;
    if n < 2 || !t.events[n - 2].Usage? then Err(Conflict)
    else if t.events[n - 2].usage != usage
            || t.events[n - 1] != TerminalEvent(outcome, HostTurn(t), t.events[n - 1].sequence)
    then Err(Conflict)
    else Ok((v, TurnEvents(t.events)))
  }

  function RecordTerminalStep(v: Capsule, turn: HostTurnRef, usage: HostUsage, outcome: TerminalOutcome): Step {
    if !OutcomeParses(outcome) then Err(Malformed)
    else
      var found := TurnByRef(v, turn);
      if found.Err? then Err(found.error)
      else
        var t := found.value;
        if t.phase.TurnTerminal? then ReplayTerminal(v, t, usage, outcome)
        else if outcome.OutcomeCancelled? && !t.phase.Cancelling? then Err(Conflict)
        else if !t.phase.TurnAccepted? && !t.phase.Cancelling? then Err(Conflict)
        else Close(v, t, usage, outcome)
  }

  /** Inputs are parsed before the state is touched. */
  predicate InputParses(input: StartTurnInput) {
    input.missionId == input.session.input.missionId && input.executionAttempt >= 1
  }

  predicate OperationParses(op: Operation) {
    match op
    case PrepareTurn(input, _) => InputParses(input)
    case ClaimTurnStart(input) => InputParses(input)
    case AcceptTurn(input, _) => InputParses(input)
    case RecordUncertainInterrupt(_, input) => InputParses(input)
    case RecordUnmatchedStart(_, input) => InputParses(input)
    case _ => true
  }

  function Perform(v: Capsule, op: Operation): Step {
    if !OperationParses(op) then Err(Malformed)
    else
      match op
      case ClaimSessionStart => ClaimSessionStartStep(v)
      case AcceptSession(threadId) => AcceptSessionStep(v, threadId)
      case ResetUnboundSession => ResetUnboundSessionStep(v)
      case PrepareTurn(input, freshTurnId) => PrepareTurnStep(v, input, freshTurnId)
      case ClaimTurnStart(input) => ClaimTurnStartStep(v, input)
      case AcceptTurn(input, codexTurnId) => AcceptTurnStep(v, input, codexTurnId)
      case RequestCancellation(turn) => RequestCancellationStep(v, turn)
      case ClaimInterrupt(turn) => ClaimInterruptStep(v, turn)
      case RecordUncertainInterrupt(turn, input) => RecordUncertainInterruptStep(v, turn, input)
      case RecordUnmatchedStart(turn, input) => RecordUnmatchedStartStep(v, turn, input)
      case RecordTerminal(turn, usage, outcome) => RecordTerminalStep(v, turn, usage, outcome)
  }

  function CreateCapsule(id: Identity, freshSessionId: Id): Capsule {
    Capsule(id.capsuleId, id.session, SessionDigest(id.session), freshSessionId, SessionPrepared, None, map[])
  }

  // ---- The store validator -------------------------------------------------------------

  predicate PhaseConsistent(t: StoredTurn) {
    && (t.phase.Prepared? || t.phase.StartMaybeSent? ==> t.codexTurnId.None?)
    && (t.phase.TurnAccepted? ==> t.codexTurnId.Some?)
    && (t.phase.Cancelling? ==> !t.cancellation.NotRequested?)
    && (!t.phase.Cancelling? && !t.phase.TurnTerminal? ==> t.cancellation.NotRequested?)
    && (t.phase.TurnTerminal? && t.events != [] && t.events[|t.events| - 1].HostCancelled? ==>
          !t.cancellation.NotRequested?)
  }

  predicate EventsConsistent(t: StoredTurn) {
    var folded := Fold(StoredCorrelation(t), DEFAULT_POLICY, t.events);
    t.events != [] && folded.Ok? && (t.phase.TurnTerminal? <==> folded.value.phase.Closed?)
  }

  predicate TurnValidates(v: Capsule, key: ExecutionKey, t: StoredTurn) {
    && InputParses(t.input)
    && key == KeyOf(t.input)
    && t.digest == TurnDigest(t.input)
    && t.input.session == HostSession(v)
    && t.intent == BuildIntent(t.input)
    && PhaseConsistent(t)
    && EventsConsistent(t)
  }

  function ActiveKeys(v: Capsule): set<ExecutionKey> {
    set k <- v.turns | !v.turns[k].phase.TurnTerminal?
  }

  predicate Validates(id: Identity, v: Capsule) {
    && |v.turns| <= MAX_STORED_TURNS
    && v.capsuleId == id.capsuleId
    && v.session == id.session
    && v.sessionDigest == SessionDigest(v.session)
    && (v.sessionPhase.SessionReady? <==> v.threadId.Some?)
    && (forall k <- v.turns :: TurnValidates(v, k, v.turns[k]))
    && |ActiveKeys(v)| <= 1
    && (!v.sessionPhase.SessionReady? ==> v.turns == map[])
  }
}
