/** The incremental validator of a host's event stream. */
module HostStream {
  import opened Common
  import opened MissionTypes

  datatype HostTurnRef = HostTurnRef(
    turnId: Id, sessionId: Id, missionId: Id, deliveryId: Id, executionAttempt: nat, contractVersion: nat)

  /** A turn whose id the host has not reported yet. */
  datatype Correlation = Correlation(
    turnId: Option<Id>, sessionId: Id, missionId: Id, deliveryId: Id, executionAttempt: nat,
    contractVersion: nat)

  datatype HostUsage = Available(inputTokens: nat, outputTokens: nat) | Unavailable(reason: string)

  datatype HostEvent =
    | Accepted(turn: HostTurnRef, sequence: nat)
    | Output(turn: HostTurnRef, sequence: nat, text: string)
    | Tool(turn: HostTurnRef, sequence: nat, activity: string)
    | Permission(turn: HostTurnRef, sequence: nat, activity: string)
    | Artifact(turn: HostTurnRef, sequence: nat, artifact: ArtifactRef)
    | Usage(turn: HostTurnRef, sequence: nat, usage: HostUsage)
    | HostCompleted(turn: HostTurnRef, sequence: nat, disposition: Disposition)
    | HostFailed(turn: HostTurnRef, sequence: nat, class_: string, message: string)
    | HostCancelled(turn: HostTurnRef, sequence: nat)

  datatype Policy = Policy(
    maxEvents: nat, maxOutputBytes: nat, maxArtifacts: nat, maxArtifactBytes: nat, maxTokens: nat,
    usageAvailable: bool)

  const DEFAULT_POLICY :=
    Policy(256, 256 * 1_024, 16, 16 * MAX_ARTIFACT_BYTES, 100_000_000, true)

  datatype Phase = Awaiting | Streaming | Closed

  datatype StreamState = StreamState(
    phase: Phase, lastSequence: nat, outputBytes: nat, artifactCount: nat, artifactBytes: nat,
    artifactKeys: seq<ArtifactRef>, usage: Option<HostUsage>, turn: Option<HostTurnRef>,
    expected: Correlation)

  datatype StreamError =
    | InvalidPolicy | MalformedEvent | SequenceError | AcceptanceError | TurnMismatch | TerminalError
    | EventLimit | OutputLimit | ArtifactLimit | UsageUnavailable | UsageLimit | UsageRegression
    | UsageMissing

  function CreateStream(expected: Correlation): StreamState {
    StreamState(Awaiting, 0, 0, 0, 0, [], None, None, expected)
  }

  predicate PolicyParses(p: Policy) {
    p.maxEvents > 0 && p.maxOutputBytes > 0 && p.maxArtifacts > 0 && p.maxArtifactBytes > 0 && p.maxTokens > 0
  }

  predicate HostEventParses(e: HostEvent) {
    && 1 <= e.sequence
    && (e.HostCompleted? ==> DispositionParses(e.disposition))
    && (e.Artifact? ==> ArtifactParses(e.artifact))
  }

  predicate MatchesExpected(expected: Correlation, t: HostTurnRef) {
    && (expected.turnId.None? || expected.turnId.value == t.turnId)
    && expected.sessionId == t.sessionId && expected.missionId == t.missionId
    && expected.deliveryId == t.deliveryId && expected.executionAttempt == t.executionAttempt
    && expected.contractVersion == t.contractVersion
  }

  predicate IsTerminalEvent(e: HostEvent) {
    e.HostCompleted? || e.HostFailed? || e.HostCancelled?
  }

  function EvidenceText(evidence: seq<Evidence>): nat {
    if evidence == [] then 0 else Utf8Length(evidence[0].summary) + EvidenceText(evidence[1..])
  }

  function ArtifactsIn(e: HostEvent): seq<ArtifactRef> {
    match e
    case Artifact(_, _, artifact) => [artifact]
    case HostCompleted(_, _, Reply(_, _, artifacts)) => if artifacts.Some? then artifacts.value else []
    case HostCompleted(_, _, ProposeContract(artifact)) => [artifact]
    case HostCompleted(_, _, Ready(evidence)) => EvidenceArtifacts(evidence)
    case _ => []
  }

  function TextBytesIn(e: HostEvent): nat {
    match e
    case Output(_, _, text) => Utf8Length(text)
    case HostFailed(_, _, _, message) => Utf8Length(message)
    case HostCompleted(_, _, Reply(_, text, _)) => Utf8Length(text)
    case HostCompleted(_, _, Blocked(reason, requested)) =>
      Utf8Length(if requested.None? then reason else reason + requested.value)
    case HostCompleted(_, _, Ready(evidence)) => EvidenceText(evidence)
    case _ => 0
  }

  /** Fold artifacts into the distinct ones seen so far and their total size. */
  function AddArtifacts(keys: seq<ArtifactRef>, bytes: nat, artifacts: seq<ArtifactRef>): (seq<ArtifactRef>, nat) {
    if artifacts == [] then (keys, bytes)
    else
      var (k, b) := AddArtifacts(keys, bytes, artifacts[..|artifacts| - 1]);
      var last := artifacts[|artifacts| - 1];
      if last in k then (k, b) else (k + [last], b + last.byteSize)
  }

  function AcceptUsage(current: Option<HostUsage>, reported: HostUsage, p: Policy): Result<Option<HostUsage>, StreamError> {
    if reported.Available? && !p.usageAvailable then Err(UsageUnavailable)
    else if reported.Available? && reported.inputTokens + reported.outputTokens > p.maxTokens then Err(UsageLimit)
    else if current.Some? && current.value.Available?
            && (|| reported.Unavailable? || reported.inputTokens < current.value.inputTokens
                || reported.outputTokens < current.value.outputTokens)
    then Err(UsageRegression)
    else Ok(Some(reported))
  }

  function AcceptHostEvent(s: StreamState, e: HostEvent, p: Policy): Result<StreamState, StreamError> {
    if !PolicyParses(p) then Err(InvalidPolicy)
    else if !HostEventParses(e) then Err(MalformedEvent)
    else if e.sequence != s.lastSequence + 1 then Err(SequenceError)
    else if s.phase.Awaiting? != e.Accepted? then Err(AcceptanceError)
    else if s.phase.Awaiting? && !MatchesExpected(s.expected, e.turn) then Err(TurnMismatch)
    else if s.phase.Closed? then Err(TerminalError)
    else if !s.phase.Awaiting? && s.turn != Some(e.turn) then Err(TurnMismatch)
    else if e.sequence > p.maxEvents then Err(EventLimit)
    else if s.outputBytes + TextBytesIn(e) > p.maxOutputBytes then Err(OutputLimit)
    else
      var (keys, bytes) := AddArtifacts(s.artifactKeys, s.artifactBytes, ArtifactsIn(e));
      if |keys| > p.maxArtifacts || bytes > p.maxArtifactBytes then Err(ArtifactLimit)
      else
        var usage := if e.Usage? then AcceptUsage(s.usage, e.usage, p) else Ok(s.usage);
        if usage.Err? then Err(usage.error)
        else if IsTerminalEvent(e) && usage.value.None? then Err(UsageMissing)
        else Ok(StreamState(
          if IsTerminalEvent(e) then Closed else Streaming, e.sequence, s.outputBytes + TextBytesIn(e),
          |keys|, bytes, keys, usage.value, if s.turn.None? then Some(e.turn) else s.turn, s.expected))
  }

  /** The validator with its artifact loop computes `AcceptHostEvent`. */
  method AcceptEvent(s: StreamState, e: HostEvent, p: Policy) returns (r: Result<StreamState, StreamError>)
    ensures r == AcceptHostEvent(s, e, p)
  {
    if !PolicyParses(p) { return Err(InvalidPolicy); }
    if !HostEventParses(e) { return Err(MalformedEvent); }
    if e.sequence != s.lastSequence + 1 { return Err(SequenceError); }
    if s.phase.Awaiting? != e.Accepted? { return Err(AcceptanceError); }
    if s.phase.Awaiting? && !MatchesExpected(s.expected, e.turn) { return Err(TurnMismatch); }
    if s.phase.Closed? { return Err(TerminalError); }
    if !s.phase.Awaiting? && s.turn != Some(e.turn) { return Err(TurnMismatch); }
    if e.sequence > p.maxEvents { return Err(EventLimit); }
    var outputBytes := s.outputBytes + TextBytesIn(e);
    if outputBytes > p.maxOutputBytes { return Err(OutputLimit); }
    var artifacts := ArtifactsIn(e);
    var keys, bytes := s.artifactKeys, s.artifactBytes;
    for i := 0 to |artifacts|
      invariant (keys, bytes) == AddArtifacts(s.artifactKeys, s.artifactBytes, artifacts[..i])
    {
      assert artifacts[..i + 1][..i] == artifacts[..i];
      if artifacts[i] !in keys {
        keys := keys + [artifacts[i]];
        bytes := bytes + artifacts[i].byteSize;
      }
    }
    assert artifacts[..|artifacts|] == artifacts;
    if |keys| > p.maxArtifacts || bytes > p.maxArtifactBytes { return Err(ArtifactLimit); }
    var usage := s.usage;
    if e.Usage? {
      var accepted := AcceptUsage(usage, e.usage, p);
      if accepted.Err? { return Err(accepted.error); }
      usage := accepted.value;
    }
    if IsTerminalEvent(e) && usage.None? { return Err(UsageMissing); }
    return Ok(StreamState(
      if IsTerminalEvent(e) then Closed else Streaming, e.sequence, outputBytes, |keys|, bytes, keys, usage,
      if s.turn.None? then Some(e.turn) else s.turn, s.expected));
  }

  /** Feeding a whole list: the first refused event refuses the list. */
  function Fold(expected: Correlation, p: Policy, events: seq<HostEvent>): Result<StreamState, StreamError> {
    if events == [] then Ok(CreateStream(expected))
    else
      var before := Fold(expected, p, events[..|events| - 1]);
      if before.Err? then before else AcceptHostEvent(before.value, events[|events| - 1], p)
  }
}
