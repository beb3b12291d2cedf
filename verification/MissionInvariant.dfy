/** What every accepted Mission log keeps true, event by event. The five parts (shape, contract,
    log, counts, and the shape of the log's tail) are preserved separately. */
module MissionInvariant {
  import opened Common
  import opened MissionTypes
  import opened MissionReducer

  // ---- Counting events -----------------------------------------------------------------

  datatype Kind = KAcceptance | KTurn | KAcknowledgement | KEvidence | KTerminal

  function KindOf(e: Event): Kind {
    match e
    case ParticipantsAccepted(_, _, _) => KAcceptance
    case TurnCompleted(_, _, _, _, _, _, _) => KTurn
    case ContractAcknowledged(_, _, _, _, _, _) => KAcknowledgement
    case VerificationRecorded(_, _, _, _, _, _) => KEvidence
    case MissionTerminal(_, _, _, _) => KTerminal
  }

  function CountKind(log: seq<Event>, k: Kind): nat {
    if log == [] then 0
    else CountKind(log[..|log| - 1], k) + if KindOf(log[|log| - 1]) == k then 1 else 0
  }

  predicate IsProposal(e: Event) {
    e.TurnCompleted? && e.disposition.ProposeContract? && e.revision.Some?
  }

  function CountProposals(log: seq<Event>): nat {
    if log == [] then 0
    else CountProposals(log[..|log| - 1]) + if IsProposal(log[|log| - 1]) then 1 else 0
  }

  // ---- Agreed contract blocks ----------------------------------------------------------

  predicate Acknowledges(e: Event, r: Revision) {
    && e.ContractAcknowledged?
    && e.revisionId == r.revisionId
    && e.contractVersion == r.version
    && e.artifact == r.artifact
  }

  /** A proposal directly followed by two acknowledgements of that exact revision, from two
      different participants. */
  predicate BlockAt(log: seq<Event>, i: nat) {
    && i + 2 < |log|
    && IsProposal(log[i])
    && Acknowledges(log[i + 1], log[i].revision.value)
    && Acknowledges(log[i + 2], log[i].revision.value)
    && log[i + 1].participant != log[i + 2].participant
  }

  /** Where the agreed blocks of a log start, read off the log alone. */
  function Blocks(log: seq<Event>): seq<nat> {
    if log == [] then []
    else
      var before := Blocks(log[..|log| - 1]);
      if |log| >= 3 && BlockAt(log, |log| - 3) then before + [|log| - 3] else before
  }

  /** The contract version a log puts in force: the first one, plus one per agreed block. */
  function VersionInForce(log: seq<Event>): nat { 1 + |Blocks(log)| }

  /** The revision a block accepts, with its acknowledgements in order. */
  function AgreedRevision(log: seq<Event>, i: nat): Revision
    requires BlockAt(log, i)
  {
    log[i].revision.value.(acknowledgedBy := [log[i + 1].participant, log[i + 2].participant])
  }

  // ---- The invariant -------------------------------------------------------------------

  predicate InPlan(plan: CommandPlan, p: Id, c: string) {
    p in plan && c in plan[p]
  }

  predicate Recorded(records: seq<Record>, p: Id, c: string) {
    exists r <- records :: r.participant == p && r.evidence.commandId == c
  }

  ghost predicate Unfinished(plan: CommandPlan, records: seq<Record>) {
    exists p, c :: InPlan(plan, p, c) && !Recorded(records, p, c)
  }

  predicate IsReadyTurn(e: Event, p: Id) {
    e.TurnCompleted? && e.disposition.Ready? && e.participant == p
  }

  predicate Idle(s: State) { s.current.None? && s.pending.None? }

  /** Scheduling: who may act in each status. */
  ghost predicate InvShape(s: State) {
    && ConfigParses(Config(s.manifest, s.required))
    && (s.status.AwaitingAcceptance? <==> s.applied == [])
    && s.turnCount <= s.manifest.maxTurns
    && match s.status {
      case AwaitingAcceptance =>
        s == Create(Config(s.manifest, s.required))
      case Active =>
        && (s.current.Some? <==> s.pending.None?)
        && s.turnCount < s.manifest.maxTurns
        && (s.current.Some? ==> s.current.value in s.manifest.participants)
        && s.records == []
        && |s.ready| <= 1
        && (|s.ready| == 1 ==>
              && s.current.Some? && s.ready[0] in s.manifest.participants
              && s.current.value != s.ready[0])
      case Verifying =>
        Idle(s) && SameMembers(s.ready, s.manifest.participants) && Unfinished(s.required, s.records)
      case Completed =>
        && Idle(s) && SameMembers(s.ready, s.manifest.participants)
        && AllRequiredCommandsPassed(s, s.records)
      case Expired => Idle(s) && s.ready == [] && s.records == []
      case MissionFailed => Idle(s) && s.ready == [] && s.records == []
      case _ => false
    }
  }

  /** Verification records: planned, current, one per command, and no participant who has
      finished its commands has a failure on file. */
  ghost predicate InvRecords(s: State) {
    && (forall i, j :: 0 <= i < j < |s.records| ==>
          (s.records[i].participant, s.records[i].evidence.commandId)
          != (s.records[j].participant, s.records[j].evidence.commandId))
    && (forall r <- s.records ::
          && InPlan(s.required, r.participant, r.evidence.commandId)
          && r.contractVersion == s.contractVersion && r.round == s.verificationRound)
    && (forall r <- s.records ::
          r.evidence.outcome == Failed ==>
            !AllParticipantCommandsRecorded(s.required[r.participant], r.participant, s.records))
  }

  ghost predicate InvContract(s: State) {
    && s.contractVersion == 1 + |s.accepted|
    && ArtifactParses(s.activeContract)
    && s.activeContract.version == s.contractVersion
    && s.activeContract.artifactId == s.manifest.sharedContract.artifactId
    && s.activeContract.kind == s.manifest.sharedContract.kind
    && (forall k :: 0 <= k < |s.accepted| ==>
          && s.accepted[k].version == k + 2
          && RevisionParses(s.accepted[k])
          && s.accepted[k].missionId == s.manifest.missionId
          && SameMembers(s.accepted[k].acknowledgedBy, s.manifest.participants))
    && (s.pending.Some? ==>
          && RevisionParses(s.pending.value)
          && s.pending.value.version == s.contractVersion + 1
          && s.pending.value.missionId == s.manifest.missionId
          && s.pending.value.proposedBy in s.manifest.participants
          && s.pending.value.artifact.artifactId == s.manifest.sharedContract.artifactId
          && s.pending.value.artifact.kind == s.manifest.sharedContract.kind
          && |s.pending.value.acknowledgedBy| <= 1
          && forall p <- s.pending.value.acknowledgedBy :: p in s.manifest.participants)
  }

  ghost predicate InvLog(s: State) {
    && s.sequenceNo == |s.applied|
    && (forall i :: 0 <= i < |s.applied| ==>
          && EventParses(s.applied[i])
          && s.applied[i].env.missionId == s.manifest.missionId
          && s.applied[i].env.sequenceNo == i + 1)
    && (forall i, j :: 0 <= i < j < |s.applied| ==> !SharesIdentity(s.applied[i], s.applied[j]))
    && MessagesChained(s.messages, s.manifest.missionId)
  }

  /** Messages are well formed, numbered from 1, and each names its predecessor as its cause. */
  ghost predicate MessagesChained(messages: seq<Message>, mission: Id) {
    forall k :: 0 <= k < |messages| ==> LinkedMessage(messages, k, mission)
  }

  predicate LinkedMessage(messages: seq<Message>, k: nat, mission: Id)
    requires k < |messages|
  {
    && MessageParses(messages[k])
    && messages[k].missionId == mission
    && messages[k].sequenceNo == k + 1
    && messages[k].causalParent == if k == 0 then None else Some(messages[k - 1].messageId)
  }

  ghost predicate InvCounts(s: State) {
    var proposals := CountProposals(s.applied);
    var acknowledgements := CountKind(s.applied, KAcknowledgement);
    var evidence := CountKind(s.applied, KEvidence);
    && CountKind(s.applied, KAcceptance) == (if s.status.AwaitingAcceptance? then 0 else 1)
    && CountKind(s.applied, KTurn) == s.turnCount
    && CountKind(s.applied, KTerminal) <= (if IsTerminal(s.status) then 1 else 0)
    && proposals + 2 * s.verificationRound + (if s.status.Active? then |s.ready| else 0)
       <= s.turnCount
    && |s.messages| + proposals <= s.turnCount
    && |s.accepted| + (if s.pending.Some? then 1 else 0) <= proposals
    && (if s.pending.Some? then acknowledgements <= 2 * (proposals - 1) + |s.pending.value.acknowledgedBy|
        else acknowledgements <= 2 * proposals)
    && (if s.status.Verifying? || s.status.Completed? then
          s.verificationRound >= 1 && evidence <= 32 * (s.verificationRound - 1) + |s.records|
        else evidence <= 32 * s.verificationRound)
  }

  /** The end of the log explains the current readiness and verification records. */
  ghost predicate InvTail(s: State) {
    var n := |s.applied|;
    && (s.status.Active? && |s.ready| == 1 ==>
          && n >= 1 && IsReadyTurn(s.applied[n - 1], s.ready[0])
          && s.applied[n - 1].contractVersion == s.contractVersion)
    && (s.status.Verifying? || s.status.Completed? ==>
          && |s.records| + 2 <= n && |s.ready| == 2
          && var t := n - |s.records|;
          && IsReadyTurn(s.applied[t - 2], s.ready[0])
          && IsReadyTurn(s.applied[t - 1], s.ready[1])
          && s.applied[t - 2].contractVersion == s.contractVersion
          && s.applied[t - 1].contractVersion == s.contractVersion
          && RecordsLogged(s.applied[t..], s.records))
  }

  /** The events are exactly the evidence the records were made from, in order. */
  predicate RecordsLogged(events: seq<Event>, records: seq<Record>) {
    && |events| == |records|
    && forall i :: 0 <= i < |events| ==> events[i].VerificationRecorded? && records[i] == RecordOf(events[i])
  }

  /** The agreed blocks of the log are exactly the accepted revisions, and a pending revision
      is the unfinished block at the end. */
  ghost predicate InvBlocks(s: State) {
    && AgreedBlocks(s.applied, s.accepted)
    && (s.pending.Some? ==> PendingBlock(s.applied, s.pending.value))
  }

  ghost predicate AgreedBlocks(log: seq<Event>, accepted: seq<Revision>) {
    var blocks := Blocks(log);
    && |blocks| == |accepted|
    && (forall k :: 0 <= k < |blocks| ==>
          BlockAt(log, blocks[k]) && accepted[k] == AgreedRevision(log, blocks[k]))
    && (forall j, k :: 0 <= j < k < |blocks| ==> blocks[j] + 3 <= blocks[k])
  }

  ghost predicate PendingBlock(log: seq<Event>, pending: Revision) {
    var n, a := |log|, |pending.acknowledgedBy|;
    && a + 1 <= n && a <= 1
    && IsProposal(log[n - a - 1])
    && log[n - a - 1].revision.value == pending.(acknowledgedBy := [])
    && (a == 1 ==> Acknowledges(log[n - 1], pending)
                   && log[n - 1].participant == pending.acknowledgedBy[0])
    && (forall k :: 0 <= k < |Blocks(log)| ==> Blocks(log)[k] + 3 <= n - a - 1)
  }

  ghost predicate Inv(s: State) {
    InvShape(s) && InvRecords(s) && InvContract(s) && InvLog(s) && InvCounts(s) && InvTail(s) && InvBlocks(s)
  }

  // ---- Preservation --------------------------------------------------------------------

  /** `e` is neither a replay nor a conflict, and its handler accepts it. */
  ghost predicate Applies(s: State, e: Event) {
    Reduce(s, e).Ok? && Matches(s.applied, e) == []
  }

  lemma MatchesEmpty(log: seq<Event>, e: Event)
    ensures Matches(log, e) == [] <==> forall i :: 0 <= i < |log| ==> !SharesIdentity(log[i], e)
  {
    if log != [] { MatchesEmpty(log[..|log| - 1], e); }
  }

  lemma AppendCounts(log: seq<Event>, e: Event)
    ensures forall k :: CountKind(log + [e], k) == CountKind(log, k) + if KindOf(e) == k then 1 else 0
    ensures CountProposals(log + [e]) == CountProposals(log) + if IsProposal(e) then 1 else 0
    ensures Blocks(log + [e])
         == Blocks(log) + if |log| >= 2 && BlockAt(log + [e], |log| - 2) then [|log| - 2] else []
  {
    assert (log + [e])[..|log|] == log;
  }

  lemma InitInv(c: Config)
    requires ConfigParses(c)
    ensures Inv(Create(c))
  {}

  // ---- The rules -----------------------------------------------------------------------

  /** The thirteen ways an event can be accepted. */
  datatype Rule =
    | StartMission | ReplyTurn | ProposalTurn | FirstReadyTurn | SecondReadyTurn | LastTurn
    | FirstAcknowledgement | SecondAcknowledgement
    | RecordEvidence | RetryRound | FailRound | PassRound | CloseMission

  /** The state with `e` logged, before the rule acts. */
  function Logged(s: State, e: Event): State {
    s.(sequenceNo := e.env.sequenceNo, applied := s.applied + [e])
  }

  predicate IsOther(s: State, p: Id, q: Option<Id>) {
    q.Some? && q.value != p && q.value in s.manifest.participants
  }

  ghost predicate ScheduledTurn(s: State, e: Event) {
    && e.TurnCompleted? && s.status.Active? && s.pending.None? && s.current == Some(e.participant)
    && e.contractVersion == s.contractVersion && s.turnCount < s.manifest.maxTurns
  }

  ghost predicate NextMessage(s: State, m: Message) {
    && m.missionId == s.manifest.missionId && m.sequenceNo == |s.messages| + 1
    && m.causalParent == if s.messages == [] then None else Some(s.messages[|s.messages| - 1].messageId)
  }

  ghost predicate NextRevision(s: State, p: Id, r: Revision) {
    && RevisionParses(r) && r.missionId == s.manifest.missionId && r.proposedBy == p
    && r.version == s.contractVersion + 1 && r.acknowledgedBy == []
    && r.artifact.artifactId == s.activeContract.artifactId && r.artifact.kind == s.activeContract.kind
  }

  ghost predicate TurnContent(s: State, e: Event)
    requires e.TurnCompleted?
  {
    match e.disposition
    case Reply(_, _, _) => e.message.Some? && NextMessage(s, e.message.value)
    case ProposeContract(_) => e.revision.Some? && NextRevision(s, e.participant, e.revision.value)
    case Ready(_) => true
    case _ => false
  }

  function MessagesAfter(s: State, e: Event): seq<Message>
    requires e.TurnCompleted?
  {
    if e.disposition.Reply? && e.message.Some? then s.messages + [e.message.value] else s.messages
  }

  ghost predicate AwaitedAcknowledgement(s: State, e: Event) {
    && e.ContractAcknowledged? && s.status.Active? && s.pending.Some? && s.current.None?
    && Acknowledges(e, s.pending.value)
    && e.participant in s.manifest.participants && e.participant !in s.pending.value.acknowledgedBy
  }

  ghost predicate PlannedEvidence(s: State, e: Event) {
    && e.VerificationRecorded? && s.status.Verifying? && Idle(s)
    && e.contractVersion == s.contractVersion && e.round == s.verificationRound
    && InPlan(s.required, e.participant, e.evidence.commandId)
    && !Recorded(s.records, e.participant, e.evidence.commandId)
  }

  /** All of a participant's commands are on file once `e` is added, and at least one failed. */
  ghost predicate RoundLost(s: State, e: Event)
    requires PlannedEvidence(s, e)
  {
    var records := s.records + [RecordOf(e)];
    && AllParticipantCommandsRecorded(s.required[e.participant], e.participant, records)
    && exists r <- records :: r.participant == e.participant && r.evidence.outcome == Failed
  }

  ghost predicate Follows(s: State, e: Event, t: State, rule: Rule) {
    var u := Logged(s, e);
    match rule
    case StartMission =>
      && e.ParticipantsAccepted? && s.status.AwaitingAcceptance?
      && SameMembers(e.participantIds, s.manifest.participants) && e.contract == s.manifest.sharedContract
      && |s.manifest.participants| == 2
      && t == u.(status := Active, current := Some(s.manifest.participants[0]))
    case ReplyTurn =>
      && ScheduledTurn(s, e) && e.disposition.Reply? && TurnContent(s, e)
      && s.turnCount + 1 < s.manifest.maxTurns && IsOther(s, e.participant, t.current)
      && t == u.(turnCount := s.turnCount + 1, current := t.current, ready := [], records := [],
                 messages := s.messages + [e.message.value])
    case ProposalTurn =>
      && ScheduledTurn(s, e) && e.disposition.ProposeContract? && TurnContent(s, e)
      && s.turnCount + 1 < s.manifest.maxTurns
      && t == u.(turnCount := s.turnCount + 1, current := None, ready := [], records := [],
                 pending := e.revision)
    case FirstReadyTurn =>
      && ScheduledTurn(s, e) && e.disposition.Ready? && s.ready == []
      && s.turnCount + 1 < s.manifest.maxTurns && IsOther(s, e.participant, t.current)
      && t == u.(turnCount := s.turnCount + 1, current := t.current, ready := [e.participant])
    case SecondReadyTurn =>
      && ScheduledTurn(s, e) && e.disposition.Ready? && |s.ready| == 1
      && t == u.(turnCount := s.turnCount + 1, current := None, ready := s.ready + [e.participant],
                 status := Verifying, verificationRound := s.verificationRound + 1, records := [])
    case LastTurn =>
      && ScheduledTurn(s, e) && TurnContent(s, e)
      && s.turnCount + 1 == s.manifest.maxTurns && !(e.disposition.Ready? && |s.ready| == 1)
      && t == u.(turnCount := s.turnCount + 1, status := MissionFailed, pending := None, current := None,
                 ready := [], records := [], messages := MessagesAfter(s, e))
    case FirstAcknowledgement =>
      && AwaitedAcknowledgement(s, e) && s.pending.value.acknowledgedBy == []
      && t == u.(pending := Some(s.pending.value.(acknowledgedBy := [e.participant])))
    case SecondAcknowledgement =>
      && AwaitedAcknowledgement(s, e) && |s.pending.value.acknowledgedBy| == 1
      && var r := s.pending.value.(acknowledgedBy := s.pending.value.acknowledgedBy + [e.participant]);
      && IsOther(s, r.proposedBy, t.current)
      && t == u.(contractVersion := r.version, activeContract := r.artifact, pending := None,
                 accepted := s.accepted + [r], current := t.current, ready := [], records := [])
    case RecordEvidence =>
      && PlannedEvidence(s, e) && !RoundLost(s, e)
      && t == u.(records := s.records + [RecordOf(e)])
      && !AllRequiredCommandsPassed(s, t.records)
    case RetryRound =>
      && PlannedEvidence(s, e) && RoundLost(s, e) && s.turnCount + 2 <= s.manifest.maxTurns
      && t == u.(status := Active, current := Some(e.participant), ready := [], records := [])
    case FailRound =>
      && PlannedEvidence(s, e) && RoundLost(s, e) && s.turnCount + 2 > s.manifest.maxTurns
      && t == u.(status := MissionFailed, ready := [], records := [])
    case PassRound =>
      && PlannedEvidence(s, e) && !RoundLost(s, e)
      && t == u.(status := Completed, records := s.records + [RecordOf(e)])
      && AllRequiredCommandsPassed(s, t.records)
    case CloseMission =>
      && e.MissionTerminal? && (s.status.Active? || s.status.Verifying?)
      && t == u.(status := if e.terminalStatus.ToExpired? then Expired else MissionFailed,
                 pending := None, current := None, ready := [], records := [])
  }

  lemma OtherExists(s: State, p: Id)
    requires InvShape(s)
    ensures IsOther(s, p, OtherParticipant(s, p))
  {
    var ids := s.manifest.participants;
    assert ids == [ids[0]] + [ids[1]];
    if ids[0] == p { assert Find(ids, p) == Find(ids[1..], p); }
  }

  lemma MembersOfTwo(s: State, one: seq<Id>, p: Id)
    requires InvShape(s) && |one| <= 1 && p in s.manifest.participants
    requires forall q <- one :: q in s.manifest.participants && q != p
    ensures SameMembers(one + [p], s.manifest.participants) <==> |one| == 1
  {}

  lemma TurnIsScheduled(s: State, e: Event)
    requires Applies(s, e) && e.TurnCompleted?
    ensures ScheduledTurn(s, e) && EventParses(e) && e.env.missionId == s.manifest.missionId
    ensures var reduced := ApplyDisposition(s.(turnCount := s.turnCount + 1), e);
            reduced.Ok? && CloseExhausted(reduced.value).Ok?
            && Step(s, e) == Logged(CloseExhausted(reduced.value).value, e)
  {
    hide ApplyDisposition, CloseExhausted, EventParses, Matches, IsTerminal;
  }

  lemma ReadyFollowsRule(s: State, e: Event, reduced: State)
    requires InvShape(s) && ScheduledTurn(s, e) && e.disposition.Ready?
    requires EventParses(e) && e.env.missionId == s.manifest.missionId
    requires ApplyDisposition(s.(turnCount := s.turnCount + 1), e) == Ok(reduced)
    requires |s.ready| == 1 || s.turnCount + 1 < s.manifest.maxTurns
    ensures Follows(s, e, Logged(CloseExhausted(reduced).value, e),
                    if |s.ready| == 1 then SecondReadyTurn else FirstReadyTurn)
  {
    hide RevisionParses, MessageParses, ConfigParses, Unfinished, AllRequiredCommandsPassed, SameMembers;
    OtherExists(s, e.participant);
    MembersOfTwo(s, s.ready, e.participant);
  }

  lemma LastTurnFollowsRule(s: State, e: Event, reduced: State)
    requires InvShape(s) && ScheduledTurn(s, e) && !(e.disposition.Ready? && |s.ready| == 1)
    requires EventParses(e) && e.env.missionId == s.manifest.missionId
    requires ApplyDisposition(s.(turnCount := s.turnCount + 1), e) == Ok(reduced)
    requires s.turnCount + 1 == s.manifest.maxTurns
    ensures Follows(s, e, Logged(CloseExhausted(reduced).value, e), LastTurn)
  {
    hide RevisionParses, MessageParses, ConfigParses, Unfinished, AllRequiredCommandsPassed, SameMembers;
    OtherExists(s, e.participant);
    MembersOfTwo(s, s.ready, e.participant);
  }

  lemma ContentFollowsRule(s: State, e: Event, reduced: State)
    requires InvShape(s) && ScheduledTurn(s, e) && !e.disposition.Ready?
    requires EventParses(e) && e.env.missionId == s.manifest.missionId
    requires ApplyDisposition(s.(turnCount := s.turnCount + 1), e) == Ok(reduced)
    requires s.turnCount + 1 < s.manifest.maxTurns
    ensures Follows(s, e, Logged(CloseExhausted(reduced).value, e),
                    if e.disposition.Reply? then ReplyTurn else ProposalTurn)
  {
    hide RevisionParses, MessageParses, ConfigParses, Unfinished, AllRequiredCommandsPassed, SameMembers;
    OtherExists(s, e.participant);
  }

  lemma DispositionFollowsRule(s: State, e: Event, reduced: State) returns (rule: Rule)
    requires InvShape(s) && ScheduledTurn(s, e)
    requires EventParses(e) && e.env.missionId == s.manifest.missionId
    requires ApplyDisposition(s.(turnCount := s.turnCount + 1), e) == Ok(reduced)
    ensures Follows(s, e, Logged(CloseExhausted(reduced).value, e), rule)
  {
    rule := if e.disposition.Ready? && |s.ready| == 1 then SecondReadyTurn
            else if s.turnCount + 1 == s.manifest.maxTurns then LastTurn
            else if e.disposition.Reply? then ReplyTurn
            else if e.disposition.Ready? then FirstReadyTurn
            else ProposalTurn;
    assert s.turnCount < s.manifest.maxTurns;
    hide InvShape, ScheduledTurn, EventParses, ApplyDisposition, CloseExhausted, Follows;
    if rule.LastTurn? {
      LastTurnFollowsRule(s, e, reduced);
    } else if e.disposition.Ready? {
      ReadyFollowsRule(s, e, reduced);
    } else {
      ContentFollowsRule(s, e, reduced);
    }
  }

  lemma TurnFollowsRule(s: State, e: Event) returns (rule: Rule)
    requires InvShape(s) && Applies(s, e) && e.TurnCompleted?
    ensures Follows(s, e, Step(s, e), rule)
  {
    TurnIsScheduled(s, e);
    var reduced := ApplyDisposition(s.(turnCount := s.turnCount + 1), e);
    rule := DispositionFollowsRule(s, e, reduced.value);
  }

  lemma AcknowledgementFollowsRule(s: State, e: Event) returns (rule: Rule)
    requires InvShape(s) && InvContract(s) && Applies(s, e) && e.ContractAcknowledged?
    ensures Follows(s, e, Step(s, e), rule)
  {
    OtherExists(s, s.pending.value.proposedBy);
    MembersOfTwo(s, s.pending.value.acknowledgedBy, e.participant);
    assert [] + [e.participant] == [e.participant];
    rule := if s.pending.value.acknowledgedBy == [] then FirstAcknowledgement else SecondAcknowledgement;
  }

  lemma PassedMeansRecorded(s: State, records: seq<Record>, p: Id)
    requires AllRequiredCommandsPassed(s, records) && p in s.manifest.participants && p in s.required
    ensures AllParticipantCommandsRecorded(s.required[p], p, records)
  {
    forall c <- s.required[p] ensures Recorded(records, p, c) {
      assert PassedOnRecord(s, records, p, c);
    }
  }

  lemma EvidenceIsPlanned(s: State, e: Event)
    requires Applies(s, e) && e.VerificationRecorded?
    ensures PlannedEvidence(s, e)
    ensures var settled := SettleRound(s, s.records + [RecordOf(e)], e.participant);
            settled.Ok? && Step(s, e) == Logged(settled.value, e)
  {}

  lemma SettlementFollowsRule(s: State, e: Event, settled: State) returns (rule: Rule)
    requires |s.manifest.participants| == 2 && s.required.Keys == Elements(s.manifest.participants)
    requires PlannedEvidence(s, e)
    requires SettleRound(s, s.records + [RecordOf(e)], e.participant) == Ok(settled)
    ensures Follows(s, e, Logged(settled, e), rule)
  {
    var records := s.records + [RecordOf(e)];
    if RoundLost(s, e) {
      rule := if s.turnCount + 2 <= s.manifest.maxTurns then RetryRound else FailRound;
    } else if AllRequiredCommandsPassed(s, records) {
      PassedMeansRecorded(s, records, e.participant);
      rule := PassRound;
    } else {
      rule := RecordEvidence;
    }
  }

  lemma EvidenceFollowsRule(s: State, e: Event) returns (rule: Rule)
    requires InvShape(s) && Applies(s, e) && e.VerificationRecorded?
    ensures Follows(s, e, Step(s, e), rule)
  {
    EvidenceIsPlanned(s, e);
    var settled := SettleRound(s, s.records + [RecordOf(e)], e.participant);
    rule := SettlementFollowsRule(s, e, settled.value);
  }

  lemma StartFollowsRule(s: State, e: Event)
    requires InvShape(s) && Applies(s, e) && e.ParticipantsAccepted?
    ensures Follows(s, e, Step(s, e), StartMission)
  {}

  lemma CloseFollowsRule(s: State, e: Event)
    requires Applies(s, e) && e.MissionTerminal?
    ensures Follows(s, e, Step(s, e), CloseMission)
  {}

  /** Every accepted event is one application of one rule. */
  lemma StepFollowsRule(s: State, e: Event) returns (rule: Rule)
    requires Inv(s) && Applies(s, e)
    ensures Follows(s, e, Step(s, e), rule)
  {
    hide Follows, Applies, InvShape, InvRecords, InvContract, InvLog, InvCounts, InvTail, InvBlocks;
    match e {
      case ParticipantsAccepted(_, _, _) => StartFollowsRule(s, e); rule := StartMission;
      case TurnCompleted(_, _, _, _, _, _, _) => rule := TurnFollowsRule(s, e);
      case ContractAcknowledged(_, _, _, _, _, _) => rule := AcknowledgementFollowsRule(s, e);
      case VerificationRecorded(_, _, _, _, _, _) => rule := EvidenceFollowsRule(s, e);
      case MissionTerminal(_, _, _, _) => CloseFollowsRule(s, e); rule := CloseMission;
    }
  }

  // ---- Each rule keeps each part -------------------------------------------------------

  /** A round that neither passed nor was lost still owes some participant a command. */
  lemma StillUnfinished(s: State, e: Event)
    requires InvShape(s) && InvRecords(s) && PlannedEvidence(s, e) && !RoundLost(s, e)
    requires !AllRequiredCommandsPassed(s, s.records + [RecordOf(e)])
    ensures Unfinished(s.required, s.records + [RecordOf(e)])
  {
    var t := s.(records := s.records + [RecordOf(e)]);
    var p :| p in s.manifest.participants && exists c <- s.required[p] :: !PassedOnRecord(s, t.records, p, c);
    var c :| c in s.required[p] && !PassedOnRecord(s, t.records, p, c);
    if Recorded(t.records, p, c) {
      var r :| r in t.records && r.participant == p && r.evidence.commandId == c;
      assert r.evidence.outcome == Failed;
      assert !AllParticipantCommandsRecorded(s.required[p], p, t.records) by {
        if p != e.participant { AddingForOthers(s, e, p); }
      }
      var d :| d in s.required[p] && !Recorded(t.records, p, d);
      assert InPlan(t.required, p, d);
    } else {
      assert InPlan(t.required, p, c);
    }
  }

  lemma AddingForOthers(s: State, e: Event, p: Id)
    requires PlannedEvidence(s, e) && p != e.participant && p in s.required
    ensures AllParticipantCommandsRecorded(s.required[p], p, s.records + [RecordOf(e)])
       <==> AllParticipantCommandsRecorded(s.required[p], p, s.records)
  {
    forall c <- s.required[p]
      ensures Recorded(s.records + [RecordOf(e)], p, c) <==> Recorded(s.records, p, c)
    {}
    assert AllParticipantCommandsRecorded(s.required[p], p, s.records)
      <==> forall c <- s.required[p] :: Recorded(s.records, p, c);
    assert AllParticipantCommandsRecorded(s.required[p], p, s.records + [RecordOf(e)])
      <==> forall c <- s.required[p] :: Recorded(s.records + [RecordOf(e)], p, c);
  }

  lemma FreshRoundUnfinished(s: State)
    requires ConfigParses(Config(s.manifest, s.required)) && s.records == []
    ensures Unfinished(s.required, s.records)
  {
    var p := s.manifest.participants[0];
    assert InPlan(s.required, p, s.required[p][0]);
    assert !Recorded(s.records, p, s.required[p][0]);
  }

  lemma VerifyingKeepsShape(s: State, e: Event, t: State, rule: Rule)
    requires InvShape(s) && InvRecords(s) && Follows(s, e, t, rule)
    requires rule.SecondReadyTurn? || rule.RecordEvidence? || rule.PassRound?
    ensures InvShape(t)
  {
    hide NextMessage, NextRevision, Acknowledges, InvRecords, Unfinished, Recorded, RoundLost;
    if rule.RecordEvidence? {
      StillUnfinished(s, e);
    } else if rule.SecondReadyTurn? {
      FreshRoundUnfinished(t);
      MembersOfTwo(s, s.ready, e.participant);
    }
  }

  lemma RuleKeepsShape(s: State, e: Event, t: State, rule: Rule)
    requires InvShape(s) && InvRecords(s) && Follows(s, e, t, rule)
    ensures InvShape(t)
  {
    hide NextMessage, NextRevision, Acknowledges, InvRecords, Unfinished, Recorded, RoundLost, ConfigParses,
         AllRequiredCommandsPassed;
    if rule.SecondReadyTurn? || rule.RecordEvidence? || rule.PassRound? {
      VerifyingKeepsShape(s, e, t, rule);
    } else {
      ConfigFacts(s);
      if rule.RetryRound? { PlannedIsParticipant(s, e.participant, e.evidence.commandId); }
      hide SameMembers, InPlan, TurnContent, MessagesAfter;
    }
  }

  lemma ConfigFacts(s: State)
    requires InvShape(s)
    ensures |s.manifest.participants| == 2 && s.manifest.maxTurns >= 1
  {}

  lemma PlannedIsParticipant(s: State, p: Id, c: string)
    requires InvShape(s) && InPlan(s.required, p, c)
    ensures p in s.manifest.participants
  {}

  lemma AddedRecord(s: State, e: Event)
    requires InvShape(s) && InvRecords(s) && PlannedEvidence(s, e) && !RoundLost(s, e)
    ensures InvRecords(s.(records := s.records + [RecordOf(e)]))
  {
    var t := s.(records := s.records + [RecordOf(e)]);
    forall r <- t.records | r.evidence.outcome == Failed
      ensures !AllParticipantCommandsRecorded(s.required[r.participant], r.participant, t.records)
    {
      if r.participant != e.participant { AddingForOthers(s, e, r.participant); }
    }
  }

  lemma RuleKeepsRecords(s: State, e: Event, t: State, rule: Rule)
    requires InvShape(s) && InvRecords(s) && Follows(s, e, t, rule)
    ensures InvRecords(t)
  {
    hide NextMessage, NextRevision, RevisionParses, AllRequiredCommandsPassed, RoundLost, Acknowledges;
    if rule.RecordEvidence? || rule.PassRound? {
      AddedRecord(s, e);
    } else {
      assert t.records == [];
    }
  }

  lemma RuleKeepsContract(s: State, e: Event, t: State, rule: Rule)
    requires InvShape(s) && InvContract(s) && Follows(s, e, t, rule)
    ensures InvContract(t)
  {
    hide NextMessage, AllRequiredCommandsPassed, RoundLost, Recorded;
  }

  /** Whatever the rule, the event is logged next and at most one message is added. */
  lemma RuleLogs(s: State, e: Event, t: State, rule: Rule)
    requires Follows(s, e, t, rule)
    ensures t.applied == s.applied + [e] && t.sequenceNo == e.env.sequenceNo
    ensures t.manifest == s.manifest && t.required == s.required
    ensures t.messages == s.messages
         || (IsReply(e) && NextMessage(s, e.message.value) && t.messages == s.messages + [e.message.value])
  {
    hide NextRevision, RevisionParses, AllRequiredCommandsPassed, RoundLost, Recorded, SameMembers, InPlan, Acknowledges;
  }

  predicate IsReply(e: Event) {
    e.TurnCompleted? && e.disposition.Reply? && e.message.Some?
  }

  lemma AppliesFacts(s: State, e: Event)
    requires Applies(s, e)
    ensures EventParses(e) && e.env.missionId == s.manifest.missionId
    ensures e.env.sequenceNo == s.sequenceNo + 1
    ensures !IsTerminal(s.status)
    ensures forall i :: 0 <= i < |s.applied| ==> !SharesIdentity(s.applied[i], e)
  {
    MatchesEmpty(s.applied, e);
  }

  lemma MessageExtendsChain(s: State, m: Message)
    requires MessagesChained(s.messages, s.manifest.missionId) && NextMessage(s, m) && MessageParses(m)
    ensures MessagesChained(s.messages + [m], s.manifest.missionId)
  {
    hide MessageParses;
    var after := s.messages + [m];
    forall k | 0 <= k < |after| ensures LinkedMessage(after, k, s.manifest.missionId) {
      if k < |s.messages| {
        assert after[k] == s.messages[k] && LinkedMessage(s.messages, k, s.manifest.missionId);
      }
      if k > 0 { assert after[k - 1] == s.messages[k - 1]; }
    }
  }

  lemma CarriedMessageParses(e: Event)
    requires EventParses(e) && e.TurnCompleted? && e.message.Some?
    ensures MessageParses(e.message.value)
  {}

  lemma RuleKeepsLog(s: State, e: Event, t: State, rule: Rule)
    requires InvLog(s) && Follows(s, e, t, rule)
    requires EventParses(e) && e.env.missionId == s.manifest.missionId
    requires e.env.sequenceNo == s.sequenceNo + 1
    requires forall i :: 0 <= i < |s.applied| ==> !SharesIdentity(s.applied[i], e)
    ensures InvLog(t)
  {
    hide RevisionParses, Follows, EventParses, SharesIdentity, NextMessage, MessagesChained;
    RuleLogs(s, e, t, rule);
    if t.messages != s.messages {
      CarriedMessageParses(e);
      MessageExtendsChain(s, e.message.value);
    }
  }

  /** Every (participant, command) pair the Mission requires. */
  function PlanPairs(s: State): seq<(Id, string)>
    requires ConfigParses(Config(s.manifest, s.required))
  {
    var p, q := s.manifest.participants[0], s.manifest.participants[1];
    seq(|s.required[p]|, i requires 0 <= i < |s.required[p]| => (p, s.required[p][i]))
    + seq(|s.required[q]|, i requires 0 <= i < |s.required[q]| => (q, s.required[q][i]))
  }

  function PairOf(r: Record): (Id, string) { (r.participant, r.evidence.commandId) }

  function RecordPairs(records: seq<Record>): seq<(Id, string)> {
    seq(|records|, i requires 0 <= i < |records| => PairOf(records[i]))
  }

  lemma PlanPairsCovers(s: State, p: Id, c: string)
    requires ConfigParses(Config(s.manifest, s.required))
    ensures (p, c) in PlanPairs(s) <==> InPlan(s.required, p, c)
  {
    if InPlan(s.required, p, c) {
      var k :| 0 <= k < |s.required[p]| && s.required[p][k] == c;
      var shift := if p == s.manifest.participants[0] then 0 else |s.required[s.manifest.participants[0]]|;
      assert PlanPairs(s)[shift + k] == (p, c);
    }
  }

  /** A round never holds more records than the Mission has required commands. */
  lemma RecordsFitPlan(s: State)
    requires InvShape(s) && InvRecords(s)
    ensures Distinct(RecordPairs(s.records))
    ensures forall x <- RecordPairs(s.records) :: x in PlanPairs(s)
    ensures |s.records| <= |PlanPairs(s)| <= 32
  {
    forall x <- RecordPairs(s.records) ensures x in PlanPairs(s) { PlanPairsCovers(s, x.0, x.1); }
    Pigeonhole(RecordPairs(s.records), PlanPairs(s));
  }

  /** Evidence is planned at most once, so even a lost round stays within the plan. */
  lemma RoundBounded(s: State, e: Event)
    requires InvShape(s) && InvRecords(s) && PlannedEvidence(s, e)
    ensures |s.records| + 1 <= 32
  {
    RecordsFitPlan(s);
    var pairs := RecordPairs(s.records) + [PairOf(RecordOf(e))];
    PlanPairsCovers(s, e.participant, e.evidence.commandId);
    Pigeonhole(pairs, PlanPairs(s));
  }

  /** The consequences of the shape that counting needs. */
  ghost predicate Sizes(s: State) {
    && (s.ready != [] ==> s.status.Active? || s.status.Verifying? || s.status.Completed?)
    && (s.status.Active? ==> |s.ready| <= 1 && s.records == [])
    && (s.pending.Some? ==> s.status.Active? && s.ready == [] && |s.pending.value.acknowledgedBy| <= 1)
    && (s.status.AwaitingAcceptance? ==> s.ready == [] && s.records == [] && s.verificationRound == 0)
    && |s.records| <= 32
  }

  lemma ShapeGivesSizes(s: State)
    requires InvShape(s) && InvRecords(s) && InvContract(s)
    ensures Sizes(s)
  {
    RecordsFitPlan(s);
  }

  lemma RuleKeepsCounts(s: State, e: Event, t: State, rule: Rule)
    requires Sizes(s) && InvCounts(s) && Follows(s, e, t, rule)
    requires PlannedEvidence(s, e) ==> |s.records| + 1 <= 32
    ensures InvCounts(t)
  {
    hide NextMessage, NextRevision, RevisionParses, AllRequiredCommandsPassed, RoundLost, Recorded, SameMembers,
         InPlan, Acknowledges;
    hide CountKind, CountProposals, Blocks;
    var log, log' := s.applied, s.applied + [e];
    AppendCounts(log, e);
    assert CountKind(log', KTurn) == CountKind(log, KTurn) + if e.TurnCompleted? then 1 else 0;
    assert CountKind(log', KAcknowledgement)
        == CountKind(log, KAcknowledgement) + if e.ContractAcknowledged? then 1 else 0;
    assert CountKind(log', KEvidence) == CountKind(log, KEvidence) + if e.VerificationRecorded? then 1 else 0;
    assert CountKind(log', KTerminal) == CountKind(log, KTerminal) + if e.MissionTerminal? then 1 else 0;
    assert CountKind(log', KAcceptance) == CountKind(log, KAcceptance) + if e.ParticipantsAccepted? then 1 else 0;
  }

  /** One more piece of evidence extends the verification tail. */
  lemma EvidenceExtendsTail(s: State, e: Event, t: State)
    requires InvTail(s) && (s.status.Verifying?) && e.VerificationRecorded?
    requires t.applied == s.applied + [e] && t.records == s.records + [RecordOf(e)]
    requires t.ready == s.ready && t.contractVersion == s.contractVersion && !t.status.Active?
    ensures InvTail(t)
  {
    var first := |s.applied| - |s.records|;
    assert first == |t.applied| - |t.records|;
    assert t.applied[first..] == s.applied[first..] + [e];
    assert t.applied[first - 2] == s.applied[first - 2] && t.applied[first - 1] == s.applied[first - 1];
  }

  lemma ReadyExtendsTail(s: State, e: Event, t: State, rule: Rule)
    requires Sizes(s) && InvTail(s) && Follows(s, e, t, rule) && (rule.FirstReadyTurn? || rule.SecondReadyTurn?)
    ensures InvTail(t)
  {
    hide SameMembers, Sizes;
    assert |t.applied| == |s.applied| + 1 && t.applied[|s.applied|] == e;
    if rule.SecondReadyTurn? {
      assert t.records == [] && t.applied[|s.applied| - 1] == s.applied[|s.applied| - 1];
    }
  }

  lemma NothingReadyHasNoTail(t: State)
    requires !t.status.Verifying? && !t.status.Completed? && t.ready == []
    ensures InvTail(t)
  {}

  lemma RuleKeepsTail(s: State, e: Event, t: State, rule: Rule)
    requires Sizes(s) && InvTail(s) && Follows(s, e, t, rule)
    ensures InvTail(t)
  {
    hide NextMessage, NextRevision, RevisionParses, AllRequiredCommandsPassed, RoundLost, Recorded,
         SameMembers, InPlan, Acknowledges, CountKind, Blocks, InvTail;
    if rule.RecordEvidence? || rule.PassRound? {
      EvidenceExtendsTail(s, e, t);
    } else if rule.SecondReadyTurn? || rule.FirstReadyTurn? {
      ReadyExtendsTail(s, e, t, rule);
    } else {
      NothingReadyHasNoTail(t);
    }
  }

  lemma BlocksPersist(log: seq<Event>, e: Event, i: nat)
    requires BlockAt(log, i)
    ensures BlockAt(log + [e], i) && AgreedRevision(log + [e], i) == AgreedRevision(log, i)
  {}

  lemma BlocksInside(log: seq<Event>)
    ensures forall k :: 0 <= k < |Blocks(log)| ==> Blocks(log)[k] + 3 <= |log|
  {
    if log != [] { BlocksInside(log[..|log| - 1]); }
  }

  lemma NoBlockAdded(log: seq<Event>, e: Event, accepted: seq<Revision>)
    requires AgreedBlocks(log, accepted) && (|log| >= 2 ==> !BlockAt(log + [e], |log| - 2))
    ensures AgreedBlocks(log + [e], accepted) && Blocks(log + [e]) == Blocks(log)
  {
    AppendCounts(log, e);
    var blocks := Blocks(log);
    forall k | 0 <= k < |blocks|
      ensures BlockAt(log + [e], blocks[k]) && accepted[k] == AgreedRevision(log + [e], blocks[k])
    { BlocksPersist(log, e, blocks[k]); }
  }

  lemma BlockAdded(log: seq<Event>, e: Event, accepted: seq<Revision>, pending: Revision)
    requires AgreedBlocks(log, accepted) && PendingBlock(log, pending)
    requires |pending.acknowledgedBy| == 1 && Acknowledges(e, pending)
    requires e.participant != pending.acknowledgedBy[0]
    ensures AgreedBlocks(log + [e],
              accepted + [pending.(acknowledgedBy := pending.acknowledgedBy + [e.participant])])
  {
    var log', n, blocks := log + [e], |log|, Blocks(log);
    AppendCounts(log, e);
    assert log'[n - 2] == log[n - 2] && log'[n - 1] == log[n - 1] && log'[n] == e;
    assert BlockAt(log', n - 2);
    assert pending.acknowledgedBy + [e.participant] == [log[n - 1].participant, e.participant];
    forall k | 0 <= k < |blocks|
      ensures BlockAt(log', blocks[k]) && accepted[k] == AgreedRevision(log', blocks[k])
    { BlocksPersist(log, e, blocks[k]); }
  }

  /** Only a second acknowledgement completes a block. */
  lemma NoBlockWithoutSecond(s: State, e: Event, t: State, rule: Rule)
    requires InvBlocks(s) && Follows(s, e, t, rule) && !rule.SecondAcknowledgement?
    ensures |s.applied| >= 2 ==> !BlockAt(s.applied + [e], |s.applied| - 2)
  {
    if rule.FirstAcknowledgement? {
      assert (s.applied + [e])[|s.applied| - 1] == s.applied[|s.applied| - 1];
    } else {
      assert !e.ContractAcknowledged?;
    }
  }

  /** Rules that neither propose nor acknowledge leave nothing pending. */
  lemma NothingPends(s: State, e: Event, t: State, rule: Rule)
    requires Sizes(s) && Follows(s, e, t, rule)
    requires !rule.ProposalTurn? && !rule.FirstAcknowledgement? && !rule.SecondAcknowledgement?
    ensures t.pending.None? && t.accepted == s.accepted
  {
    hide NextMessage, NextRevision, RevisionParses, AllRequiredCommandsPassed, RoundLost, Recorded, SameMembers, InPlan,
         TurnContent, MessagesAfter;
  }

  lemma ProposalPends(s: State, e: Event, t: State, rule: Rule)
    requires Sizes(s) && InvBlocks(s) && Follows(s, e, t, rule)
    requires rule.ProposalTurn? || rule.FirstAcknowledgement?
    requires Blocks(t.applied) == Blocks(s.applied)
    ensures t.accepted == s.accepted && t.pending.Some? && PendingBlock(t.applied, t.pending.value)
  {
    hide NextMessage, RevisionParses, SameMembers, AgreedBlocks;
    BlocksInside(s.applied);
    RuleLogs(s, e, t, rule);
    if rule.FirstAcknowledgement? { assert t.applied[|s.applied| - 1] == s.applied[|s.applied| - 1]; }
  }

  lemma SecondAcknowledgementAgrees(s: State, e: Event, t: State)
    requires Sizes(s) && InvBlocks(s) && Follows(s, e, t, SecondAcknowledgement)
    ensures InvBlocks(t)
  {
    hide NextMessage, RevisionParses, SameMembers, AgreedBlocks;
    RuleLogs(s, e, t, SecondAcknowledgement);
    BlockAdded(s.applied, e, s.accepted, s.pending.value);
  }

  lemma RuleKeepsBlocks(s: State, e: Event, t: State, rule: Rule)
    requires Sizes(s) && InvBlocks(s) && Follows(s, e, t, rule)
    ensures InvBlocks(t)
  {
    hide Follows, Sizes, AgreedBlocks, PendingBlock;
    if rule.SecondAcknowledgement? {
      SecondAcknowledgementAgrees(s, e, t);
    } else {
      RuleLogs(s, e, t, rule);
      NoBlockWithoutSecond(s, e, t, rule);
      NoBlockAdded(s.applied, e, s.accepted);
      if rule.ProposalTurn? || rule.FirstAcknowledgement? {
        ProposalPends(s, e, t, rule);
      } else {
        NothingPends(s, e, t, rule);
      }
    }
  }

  lemma StepKeepsInv(s: State, e: Event)
    requires Inv(s)
    ensures Inv(Step(s, e))
  {
    hide InvShape, InvRecords, InvContract, InvLog, InvCounts, InvTail, InvBlocks;
    hide Follows, Apply, Sizes, EventParses;
    if Applies(s, e) {
      var rule := StepFollowsRule(s, e);
      var t := Step(s, e);
      AppliesFacts(s, e);
      RuleKeepsShape(s, e, t, rule);
      RuleKeepsRecords(s, e, t, rule);
      RuleKeepsContract(s, e, t, rule);
      RuleKeepsLog(s, e, t, rule);
      ShapeGivesSizes(s);
      if PlannedEvidence(s, e) { RoundBounded(s, e); }
      RuleKeepsCounts(s, e, t, rule);
      RuleKeepsTail(s, e, t, rule);
      RuleKeepsBlocks(s, e, t, rule);
    } else {
      assert Step(s, e) == s;
    }
  }
}
