/** Exactly which events a Mission takes, as one condition on state and event. */
module MissionAcceptance {
  import opened Common
  import opened MissionTypes
  import opened MissionReducer
  import opened MissionInvariant
  import opened MissionTheorems
  import opened MissionProgress
  import opened MissionHistory

  /** The turn's companion record is new: its id and key were not used by an earlier one. */
  ghost predicate NewCompanion(s: State, e: Event)
    requires e.TurnCompleted?
  {
    && (e.message.Some? ==> forall m <- s.messages ::
          m.messageId != e.message.value.messageId && m.idempotencyKey != e.message.value.idempotencyKey)
    && (e.revision.Some? ==> forall r <- s.accepted ::
          r.revisionId != e.revision.value.revisionId && r.idempotencyKey != e.revision.value.idempotencyKey)
  }

  /** The event comes at its time: the status admits it, it is this participant's to send, it names the
      contract version, revision, round or command that is due, and it counts nothing twice. */
  ghost predicate Due(s: State, e: Event) {
    match e
    case ParticipantsAccepted(_, ids, _) => s.status.AwaitingAcceptance? && SameMembers(ids, s.manifest.participants)
    case TurnCompleted(_, _, delivery, _, _, _, _) =>
      && ScheduledTurn(s, e) && TurnContent(s, e) && NewCompanion(s, e)
      && forall x <- s.applied :: x.TurnCompleted? ==> x.deliveryId != delivery
    case ContractAcknowledged(_, _, _, _, _, _) => AwaitedAcknowledgement(s, e)
    case VerificationRecorded(_, _, _, _, _, evidence) =>
      && PlannedEvidence(s, e)
      && forall x <- s.applied :: x.VerificationRecorded? ==> x.evidence.verificationId != evidence.verificationId
    case MissionTerminal(_, _, _, _) => s.status.Active? || s.status.Verifying?
  }

  /** It says what its turn said, and publishes only allowed artifact types. */
  ghost predicate Acceptable(s: State, e: Event) { FaithfulEvent(s.manifest, e) && Due(s, e) }

  lemma ReplyTakenIff(s: State, e: Event)
    requires InvShape(s) && InvContract(s) && EventParses(e) && e.TurnCompleted? && e.disposition.Reply?
    requires ScheduledTurn(s, e) && e.env.missionId == s.manifest.missionId
    ensures ApplyTurnCompleted(s, e).Ok? <==> FaithfulEvent(s.manifest, e) && TurnContent(s, e) && NewCompanion(s, e)
  {
    hide ConfigParses, SameMembers, RevisionParses, Unfinished, MessageParses;
    OtherExists(s, e.participant);
  }

  lemma ProposalTakenIff(s: State, e: Event)
    requires InvShape(s) && InvContract(s) && EventParses(e) && e.TurnCompleted? && e.disposition.ProposeContract?
    requires ScheduledTurn(s, e) && e.env.missionId == s.manifest.missionId
    ensures ApplyTurnCompleted(s, e).Ok? <==> FaithfulEvent(s.manifest, e) && TurnContent(s, e) && NewCompanion(s, e)
  {
    hide SameMembers, Unfinished, MessageParses;
    assert s.manifest.sharedContract.kind in s.manifest.allowedArtifactTypes;
  }

  lemma ReadyTakenIff(s: State, e: Event)
    requires InvShape(s) && InvContract(s) && EventParses(e) && e.TurnCompleted? && e.disposition.Ready?
    requires ScheduledTurn(s, e)
    ensures ApplyTurnCompleted(s, e).Ok? <==> FaithfulEvent(s.manifest, e) && TurnContent(s, e) && NewCompanion(s, e)
  {
    hide Unfinished, MessageParses, RevisionParses, EvidenceArtifacts;
    OtherExists(s, e.participant);
    MembersOfTwo(s, s.ready, e.participant);
    hide SameMembers;
  }

  lemma TurnTakenIff(s: State, e: Event)
    requires InvShape(s) && InvContract(s) && EventParses(e) && e.TurnCompleted? && e.env.missionId == s.manifest.missionId
    ensures ApplyTurnCompleted(s, e).Ok? <==>
              ScheduledTurn(s, e) && FaithfulEvent(s.manifest, e) && TurnContent(s, e) && NewCompanion(s, e)
  {
    hide InvShape, InvContract, ApplyDisposition, CloseExhausted, FaithfulEvent, TurnContent, NewCompanion;
    if ScheduledTurn(s, e) {
      match e.disposition
      case Reply(_, _, _) => ReplyTakenIff(s, e);
      case ProposeContract(_) => ProposalTakenIff(s, e);
      case Ready(_) => ReadyTakenIff(s, e);
    }
  }

  lemma StartTakenIff(s: State, e: Event)
    requires InvShape(s) && e.ParticipantsAccepted?
    ensures ApplyParticipantsAccepted(s, e).Ok? <==> Acceptable(s, e)
  {
    hide SameMembers, Unfinished;
  }

  lemma AcknowledgementTakenIff(s: State, e: Event)
    requires InvShape(s) && InvContract(s) && e.ContractAcknowledged?
    ensures ApplyContractAcknowledged(s, e).Ok? <==> Acceptable(s, e)
  {
    hide SameMembers, Unfinished;
    if s.pending.Some? { OtherExists(s, s.pending.value.proposedBy); }
  }

  lemma EvidenceTakenIff(s: State, e: Event)
    requires InvShape(s) && e.VerificationRecorded?
    ensures ApplyVerificationRecorded(s, e).Ok? <==> Acceptable(s, e)
  {
    hide ConfigParses, SameMembers, Unfinished, AllParticipantCommandsRecorded, AllRequiredCommandsPassed;
    if PlannedEvidence(s, e) { RoundSettles(s, s.records + [RecordOf(e)], e.participant); }
  }

  lemma RoundSettles(s: State, records: seq<Record>, p: Id)
    requires s.status.Verifying? && p in s.required
    ensures SettleRound(s, records, p).Ok?
  {
    hide AllParticipantCommandsRecorded, AllRequiredCommandsPassed;
  }

  lemma HandlerTakesIff(s: State, e: Event)
    requires InvShape(s) && InvContract(s) && EventParses(e) && e.env.missionId == s.manifest.missionId
    requires e.TurnCompleted? ==> forall x <- s.applied :: x.TurnCompleted? ==> x.deliveryId != e.deliveryId
    ensures Apply(s, e).Ok? <==> Acceptable(s, e)
  {
    match e
    case TurnCompleted(_, _, _, _, _, _, _) =>
      hide InvShape, InvContract, EventParses, FaithfulEvent, TurnContent, NewCompanion, ScheduledTurn, ApplyTurnCompleted;
      TurnTakenIff(s, e);
    case ParticipantsAccepted(_, _, _) =>
      hide InvShape, InvContract, EventParses, Acceptable, ApplyParticipantsAccepted;
      StartTakenIff(s, e);
    case ContractAcknowledged(_, _, _, _, _, _) =>
      hide InvShape, InvContract, EventParses, Acceptable, ApplyContractAcknowledged;
      AcknowledgementTakenIff(s, e);
    case VerificationRecorded(_, _, _, _, _, _) =>
      hide InvShape, InvContract, EventParses, Acceptable, ApplyVerificationRecorded;
      EvidenceTakenIff(s, e);
    case MissionTerminal(_, _, _, _) =>
      hide InvShape, InvContract, EventParses;
  }

  /** What is Due is never due after the end, and a turn's delivery is never one already counted. */
  lemma DueIsOpen(s: State, e: Event)
    requires Due(s, e)
    ensures !IsTerminal(s.status)
    ensures e.TurnCompleted? ==> forall x <- s.applied :: x.TurnCompleted? ==> x.deliveryId != e.deliveryId
  {
    hide TurnContent, NewCompanion, Recorded, InPlan, SameMembers, Acknowledges;
  }

  lemma FreshTakenIff(s: State, e: Event)
    requires InvShape(s) && InvContract(s) && EventParses(e) && Matches(s.applied, e) == []
    ensures Reduce(s, e).Ok? <==>
              e.env.missionId == s.manifest.missionId && e.env.sequenceNo == s.sequenceNo + 1 && Acceptable(s, e)
  {
    hide InvShape, InvContract, EventParses, Apply, Due, FaithfulEvent, IsTerminal;
    if Due(s, e) { DueIsOpen(s, e); }
    if e.env.missionId == s.manifest.missionId
       && (e.TurnCompleted? ==> forall x <- s.applied :: x.TurnCompleted? ==> x.deliveryId != e.deliveryId)
    {
      HandlerTakesIff(s, e);
    }
  }

  lemma {:induction false} OneMatch(log: seq<Event>, e: Event)
    requires forall i, j :: 0 <= i < j < |log| ==> !SharesIdentity(log[i], log[j])
    ensures e in log ==> Matches(log, e) == [e]
  {
    if log != [] {
      var before, last := log[..|log| - 1], log[|log| - 1];
      OneMatch(before, e);
      MatchesEmpty(before, e);
      assert log == before + [last];
      if last == e { assert forall i :: 0 <= i < |before| ==> !SharesIdentity(before[i], e); }
      if e in before {
        var i :| 0 <= i < |before| && before[i] == e;
        assert !SharesIdentity(log[i], last);
      }
    }
  }

  lemma MatchesAreLogged(log: seq<Event>, e: Event)
    ensures forall x <- Matches(log, e) :: x in log
  {}

  /** For every reachable state and every event whatsoever: it is taken exactly when it is well formed
      and either a re-delivery of a logged event, or new under a fresh envelope with the next sequence
      number, due, and faithful to its turn. */
  lemma TakenIff(c: Config, inputs: seq<Event>, e: Event)
    requires ConfigParses(c)
    ensures var s := Feed(Create(c), inputs);
            Reduce(s, e).Ok? <==>
              && EventParses(e)
              && (e in s.applied
                  || (&& (forall x <- s.applied :: !SharesIdentity(x, e))
                      && e.env.missionId == s.manifest.missionId && e.env.sequenceNo == s.sequenceNo + 1
                      && Acceptable(s, e)))
  {
    hide Inv, StateValidates, WellScheduled, Acceptable, EventParses, ConfigParses, Apply, Feed;
    var s := Feed(Create(c), inputs);
    ReachableStatesAreWellFormed(c, inputs);
    IdentitiesDiffer(s);
    OneMatch(s.applied, e);
    MatchesEmpty(s.applied, e);
    MatchesAreLogged(s.applied, e);
    hide SharesIdentity, IsTerminal;
    if EventParses(e) && Matches(s.applied, e) == [] {
      PartsOfInv(s);
      FreshTakenIff(s, e);
    }
  }

  lemma PartsOfInv(s: State)
    requires Inv(s)
    ensures InvShape(s) && InvContract(s)
  {
    hide InvShape, InvContract, InvRecords, InvLog, InvCounts, InvTail, InvBlocks;
  }

  lemma IdentitiesDiffer(s: State)
    requires Inv(s)
    ensures forall i, j :: 0 <= i < j < |s.applied| ==> !SharesIdentity(s.applied[i], s.applied[j])
  {
    hide InvShape, InvContract, InvRecords, InvCounts, InvTail, InvBlocks;
  }
}
