/** Records exchanged with the Mission coordinator, and the shape checks their schemas make.
    Text-only constraints (length, alphabet) are assumed of well-formed values. */
module MissionTypes {
  import opened Common

  const MAX_TURNS := 200
  const MAX_ARTIFACTS := 16
  const MAX_COMMANDS := 16
  const MAX_ARTIFACT_BYTES := 1_048_576
  const MAX_CONTRACT_VERSION := 1_000_000
  const MAX_SEQUENCE := 2_147_483_647

  datatype ArtifactRef = ArtifactRef(
    artifactId: Id, kind: string, version: nat, sha256: Id, mediaType: string, byteSize: nat)

  datatype Message = Message(
    messageId: Id, missionId: Id, sequenceNo: nat, author: Id, messageType: string, body: string,
    artifacts: seq<ArtifactRef>, contractVersion: nat, idempotencyKey: Id,
    causalParent: Option<Id>, createdAt: int)

  datatype Revision = Revision(
    revisionId: Id, missionId: Id, previousVersion: nat, version: nat, artifact: ArtifactRef,
    proposedBy: Id, acknowledgedBy: seq<Id>, idempotencyKey: Id, createdAt: int)

  datatype Outcome = Passed | Failed

  datatype Evidence = Evidence(
    verificationId: Id, commandId: string, outcome: Outcome, exitCode: nat, durationMs: nat,
    summary: string, outputSha256: Id, artifacts: seq<ArtifactRef>, recordedAt: int)

  datatype Disposition =
    | Reply(messageType: string, text: string, artifacts: Option<seq<ArtifactRef>>)
    | ProposeContract(artifact: ArtifactRef)
    | Ready(evidence: seq<Evidence>)
    | Blocked(reason: string, requestedInput: Option<string>)
    | TurnFailed(class_: string)

  datatype TerminalStatus = ToExpired | ToFailed
  datatype TerminalReason = DeadlineExceeded | DeliveryDeadLettered

  datatype Envelope = Envelope(
    eventId: Id, idempotencyKey: Id, missionId: Id, sequenceNo: nat, createdAt: int)

  datatype Event =
    | ParticipantsAccepted(env: Envelope, participantIds: seq<Id>, contract: ArtifactRef)
    | TurnCompleted(env: Envelope, participant: Id, deliveryId: Id, contractVersion: nat,
                    disposition: Disposition, message: Option<Message>, revision: Option<Revision>)
    | ContractAcknowledged(env: Envelope, participant: Id, deliveryId: Id, revisionId: Id,
                           contractVersion: nat, artifact: ArtifactRef)
    | VerificationRecorded(env: Envelope, participant: Id, deliveryId: Id, contractVersion: nat,
                           round: nat, evidence: Evidence)
    | MissionTerminal(env: Envelope, terminalStatus: TerminalStatus, reason: TerminalReason,
                      triggeringDelivery: Option<Id>)

  datatype Manifest = Manifest(
    missionId: Id, participants: seq<Id>, sharedContract: ArtifactRef, maxTurns: nat,
    allowedArtifactTypes: seq<string>)

  type CommandPlan = map<Id, seq<string>>

  datatype Config = Config(manifest: Manifest, required: CommandPlan)

  datatype MissionStatus =
    | AwaitingAcceptance | Active | Verifying | MissionBlocked
    | Completed | Cancelled | Expired | MissionFailed

  datatype Record = Record(
    eventId: Id, participant: Id, contractVersion: nat, round: nat, evidence: Evidence)

  datatype State = State(
    manifest: Manifest,
    required: CommandPlan,
    status: MissionStatus,
    sequenceNo: nat,
    turnCount: nat,
    contractVersion: nat,
    verificationRound: nat,
    activeContract: ArtifactRef,
    pending: Option<Revision>,
    accepted: seq<Revision>,
    current: Option<Id>,
    ready: seq<Id>,
    records: seq<Record>,
    messages: seq<Message>,
    applied: seq<Event>)

  /** Every artifact a list of evidence publishes. */
  function EvidenceArtifacts(evidence: seq<Evidence>): seq<ArtifactRef> {
    if evidence == [] then [] else evidence[0].artifacts + EvidenceArtifacts(evidence[1..])
  }

  // ---- Schema checks -------------------------------------------------------------------

  predicate VersionParses(v: nat) { 1 <= v <= MAX_CONTRACT_VERSION }

  predicate ArtifactParses(a: ArtifactRef) {
    VersionParses(a.version) && a.byteSize <= MAX_ARTIFACT_BYTES
  }

  predicate ArtifactsParse(artifacts: seq<ArtifactRef>) {
    |artifacts| <= MAX_ARTIFACTS && forall a <- artifacts :: ArtifactParses(a)
  }

  predicate EvidenceParses(e: Evidence) {
    && e.exitCode <= 255
    && (e.outcome == Passed <==> e.exitCode == 0)
    && ArtifactsParse(e.artifacts)
  }

  predicate MessageParses(m: Message) {
    && 1 <= m.sequenceNo
    && VersionParses(m.contractVersion)
    && ArtifactsParse(m.artifacts)
    && Unique(seq(|m.artifacts|, i requires 0 <= i < |m.artifacts| => m.artifacts[i].artifactId))
  }

  predicate RevisionParses(r: Revision) {
    && 1 <= r.previousVersion
    && r.version == r.previousVersion + 1 <= MAX_CONTRACT_VERSION
    && ArtifactParses(r.artifact)
    && r.artifact.version == r.version
    && |r.acknowledgedBy| <= 2
    && Unique(r.acknowledgedBy)
  }

  predicate DispositionParses(d: Disposition) {
    match d
    case Reply(_, _, artifacts) => artifacts.Some? ==> ArtifactsParse(artifacts.value)
    case ProposeContract(artifact) => ArtifactParses(artifact)
    case Ready(evidence) => |evidence| <= 16 && forall e <- evidence :: EvidenceParses(e)
    case Blocked(_, _) => true
    case TurnFailed(_) => true
  }

  /** Shape and companion rules of `missionCoordinatorEventSchema`. */
  predicate EventParses(e: Event) {
    && 1 <= e.env.sequenceNo <= MAX_SEQUENCE
    && match e {
      case ParticipantsAccepted(_, ids, contract) =>
        |ids| == 2 && Unique(ids) && ArtifactParses(contract)
      case TurnCompleted(_, _, _, version, disposition, message, revision) =>
        && VersionParses(version)
        && DispositionParses(disposition)
        && (disposition.Reply? <==> message.Some?)
        && (disposition.ProposeContract? <==> revision.Some?)
        && (disposition.Reply? || disposition.ProposeContract? || disposition.Ready?)
        && (message.Some? ==> MessageParses(message.value))
        && (revision.Some? ==> RevisionParses(revision.value))
      case ContractAcknowledged(_, _, _, _, version, artifact) =>
        VersionParses(version) && ArtifactParses(artifact)
      case VerificationRecorded(_, _, _, version, round, evidence) =>
        VersionParses(version) && 1 <= round && EvidenceParses(evidence)
      case MissionTerminal(_, status, reason, delivery) =>
        || (status.ToExpired? && reason.DeadlineExceeded? && delivery.None?)
        || (status.ToFailed? && reason.DeliveryDeadLettered? && delivery.Some?)
    }
  }

  /** `missionCoordinatorConfigSchema`: two distinct participants, each with its own
      duplicate-free verification commands, and an allowed first contract. */
  predicate ConfigParses(c: Config) {
    var m := c.manifest;
    && |m.participants| == 2
    && m.participants[0] != m.participants[1]
    && 1 <= m.maxTurns <= MAX_TURNS
    && ArtifactParses(m.sharedContract)
    && m.sharedContract.version == 1
    && m.sharedContract.kind in m.allowedArtifactTypes
    && c.required.Keys == {m.participants[0], m.participants[1]}
    && forall p <- c.required.Keys ::
        1 <= |c.required[p]| <= MAX_COMMANDS && Unique(c.required[p])
  }
}
