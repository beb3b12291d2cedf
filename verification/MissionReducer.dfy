/** The event-sourced Mission coordinator: every event either produces the next state or a
    named rejection that leaves the state untouched. */
module MissionReducer {
  import opened Common
  import opened MissionTypes

  datatype Reason =
    | Malformed | EventIdentityConflict | MissionMismatch | WrongSequence | AlreadyTerminal
    | DeliveryConflict | InvalidTransition
    | TerminalState | AcceptanceState | AcceptanceParticipants | AcceptanceContract
    | TurnNotScheduled | TurnParticipant | ContractVersionMismatch | TurnLimit
    | UnsupportedDisposition | ReplyMessageMissing | ReplyMessageMismatch | MessageIdentityConflict
    | ArtifactType | RevisionMissing | RevisionMismatch | RevisionContractIdentity
    | RevisionIdentityConflict | NoPendingRevision | AcknowledgementParticipant
    | AcknowledgementRevision | DuplicateAcknowledgement | NotVerifying | VerificationRoundMismatch
    | VerificationCommand | VerificationConflict | UnknownParticipant

  datatype MissionEvent =
    | ParticipantsAcceptedEvent | ParticipantsReady | BlockingRequired | BlockResolved
    | VerificationPassed | VerificationFailed | Cancel | Expire | Fail

  /** The Mission status table. */
  function TransitionMissionStatus(current: MissionStatus, event: MissionEvent): Option<MissionStatus> {
    match (current, event)
    case (AwaitingAcceptance, ParticipantsAcceptedEvent) => Some(Active)
    case (Active, ParticipantsReady) => Some(Verifying)
    case (Active, BlockingRequired) => Some(MissionBlocked)
    case (Verifying, BlockingRequired) => Some(MissionBlocked)
    case (Verifying, VerificationPassed) => Some(Completed)
    case (Verifying, VerificationFailed) => Some(Active)
    case (MissionBlocked, BlockResolved) => Some(Active)
    case (AwaitingAcceptance, Cancel) => Some(Cancelled)
    case (Active, Cancel) => Some(Cancelled)
    case (Verifying, Cancel) => Some(Cancelled)
    case (MissionBlocked, Cancel) => Some(Cancelled)
    case (AwaitingAcceptance, Expire) => Some(Expired)
    case (Active, Expire) => Some(Expired)
    case (Verifying, Expire) => Some(Expired)
    case (MissionBlocked, Expire) => Some(Expired)
    case (AwaitingAcceptance, Fail) => Some(MissionFailed)
    case (Active, Fail) => Some(MissionFailed)
    case (Verifying, Fail) => Some(MissionFailed)
    case (MissionBlocked, Fail) => Some(MissionFailed)
    case _ => None
  }

  predicate IsTerminal(status: MissionStatus) {
    status.Completed? || status.Cancelled? || status.Expired? || status.MissionFailed?
  }

  function Create(c: Config): State {
    State(c.manifest, c.required, AwaitingAcceptance, 0, 0, c.manifest.sharedContract.version, 0,
          c.manifest.sharedContract, None, [], None, [], [], [], [])
  }

  function OtherParticipant(s: State, p: Id): Option<Id> {
    Find(s.manifest.participants, p)
  }

  /** First participant that is not `p`. */
  function Find(participants: seq<Id>, p: Id): Option<Id> {
    if participants == [] then None
    else if participants[0] != p then Some(participants[0])
    else Find(participants[1..], p)
  }

  predicate AllowedArtifacts(s: State, artifacts: seq<ArtifactRef>) {
    forall a <- artifacts :: a.kind in s.manifest.allowedArtifactTypes
  }

  // ---- Event handlers ------------------------------------------------------------------

  function ApplyMissionTerminal(s: State, e: Event): Result<State, Reason>
    requires e.MissionTerminal?
  {
    if !s.status.Active? && !s.status.Verifying? then Err(TerminalState)
    else
      var next := TransitionMissionStatus(s.status, if e.terminalStatus.ToExpired? then Expire else Fail);
      if next.None? then Err(InvalidTransition)
      else Ok(s.(status := next.value, pending := None, current := None, ready := [], records := []))
  }

  function ApplyParticipantsAccepted(s: State, e: Event): Result<State, Reason>
    requires e.ParticipantsAccepted?
  {
    if !s.status.AwaitingAcceptance? || |s.applied| != 0 then Err(AcceptanceState)
    else if !SameMembers(e.participantIds, s.manifest.participants) then Err(AcceptanceParticipants)
    else if e.contract != s.manifest.sharedContract then Err(AcceptanceContract)
    else
      var next := TransitionMissionStatus(s.status, ParticipantsAcceptedEvent);
      if next.None? then Err(InvalidTransition)
      else if s.manifest.participants == [] then Err(UnknownParticipant)
      else Ok(s.(status := next.value, current := Some(s.manifest.participants[0])))
  }

  function ApplyReply(s: State, e: Event): Result<State, Reason>
    requires e.TurnCompleted? && e.disposition.Reply?
  {
    if e.message.None? then Err(ReplyMessageMissing)
    else
      var m := e.message.value;
      var expectedArtifacts := if e.disposition.artifacts.Some? then e.disposition.artifacts.value else [];
      var expectedParent := if s.messages == [] then None else Some(s.messages[|s.messages| - 1].messageId);
      if || m.missionId != e.env.missionId || m.author != e.participant
         || m.contractVersion != s.contractVersion || m.messageType != e.disposition.messageType
         || m.body != e.disposition.text || m.artifacts != expectedArtifacts
         || m.sequenceNo != |s.messages| + 1 || m.causalParent != expectedParent
      then Err(ReplyMessageMismatch)
      else if exists x <- s.messages :: x.messageId == m.messageId || x.idempotencyKey == m.idempotencyKey
      then Err(MessageIdentityConflict)
      else if !AllowedArtifacts(s, m.artifacts) then Err(ArtifactType)
      else
        var other := OtherParticipant(s, e.participant);
        if other.None? then Err(UnknownParticipant)
        else Ok(s.(current := other, ready := [], records := [], messages := s.messages + [m]))
  }

  function ApplyContractProposal(s: State, e: Event): Result<State, Reason>
    requires e.TurnCompleted? && e.disposition.ProposeContract?
  {
    if e.revision.None? then Err(RevisionMissing)
    else
      var r := e.revision.value;
      if || r.missionId != e.env.missionId || r.proposedBy != e.participant
         || r.previousVersion != s.contractVersion || r.version != s.contractVersion + 1
         || |r.acknowledgedBy| != 0 || r.artifact != e.disposition.artifact
      then Err(RevisionMismatch)
      else if r.artifact.artifactId != s.activeContract.artifactId || r.artifact.kind != s.activeContract.kind
      then Err(RevisionContractIdentity)
      else if exists x <- s.accepted :: x.revisionId == r.revisionId || x.idempotencyKey == r.idempotencyKey
      then Err(RevisionIdentityConflict)
      else if !AllowedArtifacts(s, [r.artifact]) then Err(ArtifactType)
      else Ok(s.(pending := Some(r), current := None, ready := [], records := []))
  }

  function ApplyReady(s: State, e: Event): Result<State, Reason>
    requires e.TurnCompleted? && e.disposition.Ready?
  {
    if !AllowedArtifacts(s, EvidenceArtifacts(e.disposition.evidence)) then Err(ArtifactType)
    else
      var ready := s.ready + [e.participant];
      if SameMembers(ready, s.manifest.participants) then
        var next := TransitionMissionStatus(s.status, ParticipantsReady);
        if next.None? then Err(InvalidTransition)
        else Ok(s.(status := next.value, verificationRound := s.verificationRound + 1,
                   current := None, ready := ready, records := []))
      else
        var other := OtherParticipant(s, e.participant);
        if other.None? then Err(UnknownParticipant)
        else Ok(s.(current := other, ready := ready))
  }

  function ApplyDisposition(s: State, e: Event): Result<State, Reason>
    requires e.TurnCompleted?
  {
    match e.disposition
    case Reply(_, _, _) => ApplyReply(s, e)
    case ProposeContract(_) => ApplyContractProposal(s, e)
    case Ready(_) => ApplyReady(s, e)
    case _ => Err(UnsupportedDisposition)
  }

  /** The turn that exhausts the budget without reaching verification fails the Mission. */
  function CloseExhausted(s: State): Result<State, Reason> {
    if s.status.Active? && s.turnCount >= s.manifest.maxTurns then
      var next := TransitionMissionStatus(s.status, Fail);
      if next.None? then Err(InvalidTransition)
      else Ok(s.(status := next.value, pending := None, current := None, ready := [], records := []))
    else Ok(s)
  }

  function ApplyTurnCompleted(s: State, e: Event): Result<State, Reason>
    requires e.TurnCompleted?
  {
    if !s.status.Active? || s.pending.Some? || s.current.None? then Err(TurnNotScheduled)
    else if Some(e.participant) != s.current then Err(TurnParticipant)
    else if e.contractVersion != s.contractVersion then Err(ContractVersionMismatch)
    else if s.turnCount >= s.manifest.maxTurns then Err(TurnLimit)
    else
      var reduced := ApplyDisposition(s.(turnCount := s.turnCount + 1), e);
      if reduced.Err? then reduced else CloseExhausted(reduced.value)
  }

  function ApplyContractAcknowledged(s: State, e: Event): Result<State, Reason>
    requires e.ContractAcknowledged?
  {
    if !s.status.Active? || s.pending.None? || s.current.Some? then Err(NoPendingRevision)
    else
      var p := s.pending.value;
      if e.participant !in s.manifest.participants then Err(AcknowledgementParticipant)
      else if e.revisionId != p.revisionId || e.contractVersion != p.version || e.artifact != p.artifact
      then Err(AcknowledgementRevision)
      else if e.participant in p.acknowledgedBy then Err(DuplicateAcknowledgement)
      else
        var acknowledged := p.(acknowledgedBy := p.acknowledgedBy + [e.participant]);
        if !RevisionParses(acknowledged) then Err(Malformed)
        else if !SameMembers(acknowledged.acknowledgedBy, s.manifest.participants) then
          Ok(s.(pending := Some(acknowledged)))
        else
          var other := OtherParticipant(s, acknowledged.proposedBy);
          if other.None? then Err(UnknownParticipant)
          else Ok(s.(contractVersion := acknowledged.version, activeContract := acknowledged.artifact,
                     pending := None, accepted := s.accepted + [acknowledged], current := other,
                     ready := [], records := []))
  }

  predicate AllParticipantCommandsRecorded(commands: seq<string>, p: Id, records: seq<Record>) {
    forall c <- commands :: exists r <- records :: r.participant == p && r.evidence.commandId == c
  }

  predicate PassedOnRecord(s: State, records: seq<Record>, p: Id, c: string) {
    exists r <- records ::
      && r.participant == p && r.contractVersion == s.contractVersion
      && r.round == s.verificationRound && r.evidence.commandId == c
      && r.evidence.outcome == Passed
  }

  predicate AllRequiredCommandsPassed(s: State, records: seq<Record>) {
    forall p <- s.manifest.participants :: p in s.required &&
      forall c <- s.required[p] :: PassedOnRecord(s, records, p, c)
  }

  function RecordOf(e: Event): Record
    requires e.VerificationRecorded?
  {
    Record(e.env.eventId, e.participant, e.contractVersion, e.round, e.evidence)
  }

  /** What one more accepted record does to a verification round. */
  function SettleRound(s: State, records: seq<Record>, p: Id): Result<State, Reason>
    requires p in s.required
  {
    if !AllParticipantCommandsRecorded(s.required[p], p, records) then Ok(s.(records := records))
    else if exists r <- records :: r.participant == p && r.evidence.outcome == Failed then
      var canRetry := s.manifest.maxTurns - s.turnCount >= |s.manifest.participants|;
      var next := TransitionMissionStatus(s.status, if canRetry then VerificationFailed else Fail);
      if next.None? then Err(InvalidTransition)
      else Ok(s.(status := next.value, current := if canRetry then Some(p) else None,
                 ready := [], records := []))
    else if !AllRequiredCommandsPassed(s, records) then Ok(s.(records := records))
    else
      var next := TransitionMissionStatus(s.status, VerificationPassed);
      if next.None? then Err(InvalidTransition)
      else Ok(s.(status := next.value, records := records))
  }

  function ApplyVerificationRecorded(s: State, e: Event): Result<State, Reason>
    requires e.VerificationRecorded?
  {
    if !s.status.Verifying? || s.pending.Some? || s.current.Some? then Err(NotVerifying)
    else if e.contractVersion != s.contractVersion then Err(ContractVersionMismatch)
    else if e.round != s.verificationRound then Err(VerificationRoundMismatch)
    else if e.participant !in s.required || e.evidence.commandId !in s.required[e.participant]
    then Err(VerificationCommand)
    else if || (exists x <- s.applied :: x.VerificationRecorded?
                 && x.evidence.verificationId == e.evidence.verificationId)
            || (exists r <- s.records :: r.participant == e.participant
                 && r.evidence.commandId == e.evidence.commandId)
    then Err(VerificationConflict)
    else if !AllowedArtifacts(s, e.evidence.artifacts) then Err(ArtifactType)
    else SettleRound(s, s.records + [RecordOf(e)], e.participant)
  }

  function Apply(s: State, e: Event): Result<State, Reason> {
    match e
    case ParticipantsAccepted(_, _, _) => ApplyParticipantsAccepted(s, e)
    case TurnCompleted(_, _, _, _, _, _, _) => ApplyTurnCompleted(s, e)
    case ContractAcknowledged(_, _, _, _, _, _) => ApplyContractAcknowledged(s, e)
    case VerificationRecorded(_, _, _, _, _, _) => ApplyVerificationRecorded(s, e)
    case MissionTerminal(_, _, _, _) => ApplyMissionTerminal(s, e)
  }

  // ---- Reduction and replay ------------------------------------------------------------

  predicate SharesIdentity(a: Event, e: Event) {
    a.env.eventId == e.env.eventId || a.env.idempotencyKey == e.env.idempotencyKey
  }

  /** Applied events sharing an id or an idempotency key with `e` (`findReplay`). */
  function Matches(log: seq<Event>, e: Event): seq<Event> {
    if log == [] then []
    else
      Matches(log[..|log| - 1], e)
      + if SharesIdentity(log[|log| - 1], e) then [log[|log| - 1]] else []
  }

  function Reduce(s: State, e: Event): Result<State, Reason> {
    if !EventParses(e) then Err(Malformed)
    else
      var matches := Matches(s.applied, e);
      if |matches| > 1 then Err(EventIdentityConflict)
      else if |matches| == 1 then
        if matches[0] == e then Ok(s) else Err(EventIdentityConflict)
      else if e.env.missionId != s.manifest.missionId then Err(MissionMismatch)
      else if e.env.sequenceNo != s.sequenceNo + 1 then Err(WrongSequence)
      else if IsTerminal(s.status) then Err(AlreadyTerminal)
      else if e.TurnCompleted? && exists x <- s.applied :: x.TurnCompleted? && x.deliveryId == e.deliveryId
      then Err(DeliveryConflict)
      else
        var reduced := Apply(s, e);
        if reduced.Err? then reduced
        else Ok(reduced.value.(sequenceNo := e.env.sequenceNo, applied := reduced.value.applied + [e]))
  }

  /** Strict replay: the first rejected event rejects the log. */
  function Replay(c: Config, log: seq<Event>): Result<State, Reason> {
    if log == [] then (if ConfigParses(c) then Ok(Create(c)) else Err(Malformed))
    else
      var before := Replay(c, log[..|log| - 1]);
      if before.Err? then before else Reduce(before.value, log[|log| - 1])
  }

  /** A replica that ignores rejections: the state after any stream of inputs. */
  function Feed(s: State, inputs: seq<Event>): State {
    if inputs == [] then s
    else Step(Feed(s, inputs[..|inputs| - 1]), inputs[|inputs| - 1])
  }

  function Step(s: State, e: Event): State {
    var r := Reduce(s, e);
    if r.Ok? then r.value else s
  }

  lemma {:induction false} FailedPrefixFails(c: Config, log: seq<Event>, k: nat)
    requires k <= |log| && Replay(c, log[..k]).Err?
    ensures Replay(c, log) == Replay(c, log[..k])
    decreases |log|
  {
    if k < |log| {
      assert log[..|log| - 1][..k] == log[..k];
      FailedPrefixFails(c, log[..|log| - 1], k);
    } else {
      assert log[..k] == log;
    }
  }

  /** The replay loop, which stops at the first rejection, computes `Replay`. */
  method ReplayLoop(c: Config, log: seq<Event>) returns (r: Result<State, Reason>)
    ensures r == Replay(c, log)
  {
    if !ConfigParses(c) {
      assert log[..0] == [];
      FailedPrefixFails(c, log, 0);
      return Err(Malformed);
    }
    var state := Create(c);
    for i := 0 to |log|
      invariant Replay(c, log[..i]) == Ok(state)
    {
      assert log[..i + 1][..i] == log[..i];
      var next := Reduce(state, log[i]);
      if next.Err? {
        FailedPrefixFails(c, log, i + 1);
        return next;
      }
      state := next.value;
    }
    assert log[..|log|] == log;
    return Ok(state);
  }
}
