/** What the events of an accepted Mission log say about each other: whose turn it was, that
    every companion record repeats its turn, and that nothing is counted twice. */
module MissionHistory {
  import opened Common
  import opened MissionTypes
  import opened MissionReducer
  import opened MissionInvariant
  import opened MissionTheorems

  // ---- Whose turn it is ----------------------------------------------------------------

  /** The last turn or evidence event. */
  function LastAct(log: seq<Event>): Option<Event> {
    if log == [] then None
    else
      var e := log[|log| - 1];
      if e.TurnCompleted? || e.VerificationRecorded? then Some(e) else LastAct(log[..|log| - 1])
  }

  /** Who the history says moves next: the first participant to begin with, then the partner of
      whoever took the last turn, or the participant whose evidence ended a lost round. */
  predicate MovesNext(m: Manifest, log: seq<Event>, p: Id) {
    match LastAct(log)
    case None => |m.participants| > 0 && p == m.participants[0]
    case Some(e) =>
      if e.VerificationRecorded? then p == e.participant
      else e.TurnCompleted? && p != e.participant
  }

  ghost predicate InvActor(s: State) {
    s.status.Active? ==>
      && (s.current.Some? ==> MovesNext(s.manifest, s.applied, s.current.value))
      && (s.pending.Some? ==>
            var last := LastAct(s.applied);
            last.Some? && last.value.TurnCompleted? && last.value.participant == s.pending.value.proposedBy)
  }

  lemma LastActAppend(log: seq<Event>, e: Event)
    ensures LastAct(log + [e]) == if e.TurnCompleted? || e.VerificationRecorded? then Some(e) else LastAct(log)
  {
    assert (log + [e])[..|log|] == log;
  }

  lemma AwaitingHasNoAct(s: State)
    requires InvShape(s) && s.status.AwaitingAcceptance?
    ensures LastAct(s.applied) == None
  {}

  lemma RuleKeepsActor(s: State, e: Event, t: State, rule: Rule)
    requires InvShape(s) && InvActor(s) && Follows(s, e, t, rule)
    ensures InvActor(t)
  {
    hide LastAct, NextMessage, RevisionParses, RoundLost, Acknowledges, ConfigParses, Unfinished,
         SameMembers, AllRequiredCommandsPassed, Recorded, InPlan;
    LastActAppend(s.applied, e);
    if s.status.AwaitingAcceptance? { AwaitingHasNoAct(s); }
  }

  lemma {:induction false} ActorKnown(c: Config, log: seq<Event>)
    requires AcceptedLog(c, log)
    ensures InvActor(StateOf(c, log))
  {
    if log != [] {
      hide InvActor, Inv, InvShape, InvRecords, InvContract, InvLog, InvCounts, InvTail, InvBlocks,
           Replay, Reduce, Step, Follows, Matches;
      var before, e := log[..|log| - 1], log[|log| - 1];
      AcceptedLast(c, log);
      ActorKnown(c, before);
      AcceptedInv(c, before);
      InvHasShape(StateOf(c, before));
      var rule := StepFollowsRule(StateOf(c, before), e);
      RuleKeepsActor(StateOf(c, before), e, StateOf(c, log), rule);
    }
  }

  lemma InvHasShape(s: State)
    requires Inv(s)
    ensures InvShape(s)
  {
    hide InvShape, InvRecords, InvContract, InvLog, InvCounts, InvTail, InvBlocks;
  }

  /** Turns alternate: every turn is taken by the participant the history before it names. */
  lemma TurnsFollowTheHistory(c: Config, log: seq<Event>, i: nat)
    requires AcceptedLog(c, log) && i < |log| && log[i].TurnCompleted?
    ensures MovesNext(c.manifest, log[..i], log[i].participant)
    ensures log[i].participant in c.manifest.participants
  {
    hide InvRecords, InvContract, InvLog, InvCounts, InvTail, InvBlocks, Replay, Reduce, Matches, MovesNext;
    PrefixAccepted(c, log, i + 1);
    AcceptedLast(c, log[..i + 1]);
    assert log[..i + 1][..i] == log[..i];
    AcceptedInv(c, log[..i]);
    ActorKnown(c, log[..i]);
    var rule := StepFollowsRule(StateOf(c, log[..i]), log[i]);
  }

  // ---- Companions repeat their turn ----------------------------------------------------

  predicate AllowedKinds(m: Manifest, artifacts: seq<ArtifactRef>) {
    forall a <- artifacts :: a.kind in m.allowedArtifactTypes
  }

  /** A message or revision is exactly what its turn said, by whoever took the turn, and only
      allowed artifact types are published. */
  predicate FaithfulEvent(m: Manifest, e: Event) {
    match e
    case TurnCompleted(_, participant, _, version, disposition, message, revision) => (
      match disposition
      case Reply(kind, text, artifacts) =>
        && message.Some?
        && message.value.author == participant && message.value.contractVersion == version
        && message.value.messageType == kind && message.value.body == text
        && message.value.artifacts == (if artifacts.Some? then artifacts.value else [])
        && AllowedKinds(m, message.value.artifacts)
      case ProposeContract(artifact) =>
        && revision.Some?
        && revision.value.proposedBy == participant && revision.value.artifact == artifact
        && revision.value.version == version + 1 && revision.value.acknowledgedBy == []
        && artifact.artifactId == m.sharedContract.artifactId && artifact.kind == m.sharedContract.kind
      case Ready(evidence) => AllowedKinds(m, EvidenceArtifacts(evidence))
      case _ => false)
    case VerificationRecorded(_, _, _, _, _, evidence) => AllowedKinds(m, evidence.artifacts)
    case ParticipantsAccepted(_, _, contract) => contract == m.sharedContract
    case ContractAcknowledged(_, participant, _, _, _, _) => participant in m.participants
    case MissionTerminal(_, _, _, _) => true
  }

  lemma AppliedEventIsFaithful(s: State, e: Event)
    requires InvContract(s) && Applies(s, e)
    ensures FaithfulEvent(s.manifest, e)
  {
    hide Matches, EventParses, IsTerminal, SameMembers, SettleRound, CloseExhausted, OtherParticipant,
         EvidenceArtifacts, RevisionParses;
  }

  lemma EventsAreFaithful(c: Config, log: seq<Event>, i: nat)
    requires AcceptedLog(c, log) && i < |log|
    ensures FaithfulEvent(c.manifest, log[i])
  {
    hide InvShape, InvRecords, InvContract, InvLog, InvCounts, InvTail, InvBlocks, Replay, Reduce, Matches,
         FaithfulEvent;
    PrefixAccepted(c, log, i + 1);
    AcceptedLast(c, log[..i + 1]);
    assert log[..i + 1][..i] == log[..i];
    AcceptedInv(c, log[..i]);
    AppliedEventIsFaithful(StateOf(c, log[..i]), log[i]);
  }

  // ---- Messages and identities ---------------------------------------------------------

  /** The messages the turns of a log carry, in order. */
  function ReplyMessages(log: seq<Event>): seq<Message> {
    if log == [] then []
    else
      var e := log[|log| - 1];
      ReplyMessages(log[..|log| - 1]) + if IsReply(e) then [e.message.value] else []
  }

  /** Two events that would count one piece of work twice. */
  predicate SameWork(a: Event, b: Event) {
    || SharesIdentity(a, b)
    || (a.TurnCompleted? && b.TurnCompleted? && a.deliveryId == b.deliveryId)
    || (a.VerificationRecorded? && b.VerificationRecorded?
        && a.evidence.verificationId == b.evidence.verificationId)
  }

  lemma AppliedMessage(s: State, e: Event)
    requires Applies(s, e)
    ensures Step(s, e).messages == s.messages + if IsReply(e) then [e.message.value] else []
    ensures IsReply(e) ==> forall m <- s.messages ::
              m.messageId != e.message.value.messageId && m.idempotencyKey != e.message.value.idempotencyKey
  {
    hide Matches, EventParses, IsTerminal, SameMembers, OtherParticipant, AllowedArtifacts, RevisionParses,
         AllParticipantCommandsRecorded, AllRequiredCommandsPassed;
  }

  lemma AppliedWorkIsNew(s: State, e: Event)
    requires Applies(s, e)
    ensures forall x <- s.applied :: !SameWork(x, e)
  {
    hide ApplyParticipantsAccepted, ApplyTurnCompleted, ApplyContractAcknowledged, ApplyMissionTerminal,
         SettleRound, EventParses, IsTerminal;
    MatchesEmpty(s.applied, e);
  }

  /** The stored conversation is exactly the logged replies, with no message identity reused. */
  lemma {:induction false} MessagesAreTheReplies(c: Config, log: seq<Event>)
    requires AcceptedLog(c, log)
    ensures var ms := StateOf(c, log).messages;
            && ms == ReplyMessages(log)
            && (forall i, j :: 0 <= i < j < |ms| ==>
                  ms[i].messageId != ms[j].messageId && ms[i].idempotencyKey != ms[j].idempotencyKey)
  {
    if log != [] {
      hide Replay, Reduce, Matches, IsReply;
      AcceptedLast(c, log);
      MessagesAreTheReplies(c, log[..|log| - 1]);
      AppliedMessage(StateOf(c, log[..|log| - 1]), log[|log| - 1]);
      assert log == log[..|log| - 1] + [log[|log| - 1]];
    }
  }

  /** No accepted log counts the same work twice: event ids, idempotency keys, turn deliveries
      and verification ids never repeat. */
  lemma NothingCountedTwice(c: Config, log: seq<Event>, i: nat, j: nat)
    requires AcceptedLog(c, log) && i < j < |log|
    ensures !SameWork(log[i], log[j])
  {
    hide Replay, Reduce, Matches, SameWork;
    PrefixAccepted(c, log, j + 1);
    AcceptedLast(c, log[..j + 1]);
    assert log[..j + 1][..j] == log[..j];
    AppliedWorkIsNew(StateOf(c, log[..j]), log[j]);
    assert log[..j][i] == log[i] && log[i] in log[..j];
  }
}
