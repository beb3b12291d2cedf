/** Reachable Missions are well formed, never stuck, and can still be completed exactly when
    enough turns remain. */
module MissionProgress {
  import opened Common
  import opened MissionTypes
  import opened MissionReducer
  import opened MissionInvariant
  import opened MissionTheorems

  // ---- Well-formedness -----------------------------------------------------------------

  /** `missionVerificationRecordSchema`. */
  predicate RecordParses(r: Record) {
    VersionParses(r.contractVersion) && 1 <= r.round <= MAX_SEQUENCE && EvidenceParses(r.evidence)
  }

  /** The clauses of the coordinator state schema, nested records included, and of its cross-field
      validator. */
  ghost predicate StateValidates(s: State) {
    && ConfigParses(Config(s.manifest, s.required)) && ArtifactParses(s.activeContract)
    && (forall e <- s.applied :: EventParses(e))
    && (forall m <- s.messages :: MessageParses(m))
    && (forall r <- s.records :: RecordParses(r))
    && s.sequenceNo <= MAX_SEQUENCE && s.turnCount <= 200 && VersionParses(s.contractVersion)
    && s.verificationRound <= MAX_SEQUENCE
    && |s.accepted| <= 200 && |s.ready| <= 2 && |s.records| <= 3_200 && |s.messages| <= 200
    && |s.applied| <= 4_096
    && SameMembers(s.manifest.participants, s.manifest.participants)
    && s.required.Keys == Elements(s.manifest.participants)
    && s.activeContract.version == s.contractVersion
    && s.activeContract.kind in s.manifest.allowedArtifactTypes
    && (s.current.Some? ==> s.current.value in s.manifest.participants)
    && Unique(s.ready) && (forall p <- s.ready :: p in s.manifest.participants)
    && |s.applied| == s.sequenceNo
    && (forall i :: 0 <= i < |s.applied| ==>
          s.applied[i].env.missionId == s.manifest.missionId && s.applied[i].env.sequenceNo == i + 1)
    && (forall i :: 0 <= i < |s.messages| ==> s.messages[i].missionId == s.manifest.missionId)
    && (forall i :: 0 <= i < |s.accepted| ==>
          s.accepted[i].missionId == s.manifest.missionId && RevisionParses(s.accepted[i]))
    && (s.pending.Some? ==> s.pending.value.missionId == s.manifest.missionId && RevisionParses(s.pending.value))
  }

  /** Who may move next, in every status. */
  ghost predicate WellScheduled(s: State) {
    && (s.status.Active? ==>
          && (s.current.Some? <==> s.pending.None?)
          && s.turnCount < s.manifest.maxTurns
          && (|s.ready| == 1 ==> s.current != Some(s.ready[0])))
    && (s.status.Verifying? ==> Unfinished(s.required, s.records))
    && (!s.status.Active? ==> Idle(s))
    && !s.status.MissionBlocked? && !s.status.Cancelled?
  }

  lemma BoundedByInv(s: State)
    requires Inv(s)
    ensures |s.applied| <= 2 + 17 * s.manifest.maxTurns <= 3402
    ensures |s.records| <= 32
  {
    hide InvTail, InvBlocks, InvLog, CountKind, CountProposals;
    KindsAddUp(s.applied);
    RecordsFitPlan(s);
  }

  /** Records stem from the well-formed evidence events at the end of the log. */
  lemma RecordsParse(s: State)
    requires Inv(s)
    ensures forall r <- s.records :: RecordParses(r)
  {
    BoundedByInv(s);
    hide InvBlocks, InvRecords, InvContract, Unfinished, CountKind, CountProposals, AllRequiredCommandsPassed, ConfigParses;
    if s.status.Verifying? || s.status.Completed? {
      var tail := s.applied[|s.applied| - |s.records|..];
      forall i | 0 <= i < |s.records| ensures RecordParses(s.records[i]) {
        assert tail[i] in s.applied && EventParses(tail[i]);
      }
    }
  }

  lemma InvValidates(s: State)
    requires Inv(s)
    ensures StateValidates(s)
  {
    hide InvTail, InvBlocks, InvRecords, Unfinished, CountKind, CountProposals, EventParses,
         SharesIdentity, AllRequiredCommandsPassed;
    BoundedByInv(s);
    RecordsParse(s);
    hide EvidenceParses, RecordParses, MessageParses;
    forall i | 0 <= i < |s.messages|
      ensures s.messages[i].missionId == s.manifest.missionId && MessageParses(s.messages[i])
    {
      assert LinkedMessage(s.messages, i, s.manifest.missionId);
    }
  }

  lemma InvSchedules(s: State)
    requires Inv(s)
    ensures WellScheduled(s)
  {
    hide InvTail, InvBlocks, InvRecords, InvContract, InvLog, InvCounts, Unfinished;
  }

  lemma ReachableStatesAreWellFormed(c: Config, inputs: seq<Event>)
    requires ConfigParses(c)
    ensures var s := Feed(Create(c), inputs); Inv(s) && StateValidates(s) && WellScheduled(s)
  {
    hide Replay, Inv, StateValidates, WellScheduled, ConfigParses, Step;
    LogRebuildsState(c, inputs);
    var s := Feed(Create(c), inputs);
    AcceptedInv(c, s.applied);
    InvValidates(s);
    InvSchedules(s);
  }

  // ---- Constructing the next event -----------------------------------------------------

  lemma FreshEnvelope(s: State) returns (env: Envelope)
    requires Inv(s)
    ensures env.missionId == s.manifest.missionId && env.sequenceNo == s.sequenceNo + 1
    ensures 1 <= env.sequenceNo <= MAX_SEQUENCE
    ensures forall x <- s.applied ::
              x.env.eventId != env.eventId && x.env.idempotencyKey != env.idempotencyKey
  {
    hide InvShape, InvRecords, InvContract, InvCounts, InvTail, InvBlocks;
    BoundedByInv(s);
    var id := FreshId(set x <- s.applied :: x.env.eventId);
    var key := FreshId(set x <- s.applied :: x.env.idempotencyKey);
    env := Envelope(id, key, s.manifest.missionId, s.sequenceNo + 1, 0);
  }

  ghost predicate Unshared(s: State, env: Envelope) {
    && env.missionId == s.manifest.missionId && env.sequenceNo == s.sequenceNo + 1
    && 1 <= env.sequenceNo <= MAX_SEQUENCE
    && forall x <- s.applied ::
         x.env.eventId != env.eventId && x.env.idempotencyKey != env.idempotencyKey
  }

  /** A well-shaped event under a fresh envelope is accepted as soon as its handler accepts it. */
  lemma HandlerDecides(s: State, e: Event)
    requires Unshared(s, e.env) && EventParses(e) && !IsTerminal(s.status) && Apply(s, e).Ok?
    requires e.TurnCompleted? ==>
               forall x <- s.applied :: x.TurnCompleted? ==> x.deliveryId != e.deliveryId
    ensures Applies(s, e)
  {
    hide Apply, EventParses, IsTerminal;
    MatchesEmpty(s.applied, e);
  }

  lemma NextStart(s: State) returns (e: Event)
    requires Inv(s) && s.status.AwaitingAcceptance?
    ensures Applies(s, e) && e.ParticipantsAccepted?
  {
    hide InvRecords, InvContract, InvLog, InvCounts, InvTail, InvBlocks;
    var env := FreshEnvelope(s);
    e := ParticipantsAccepted(env, s.manifest.participants, s.manifest.sharedContract);
    HandlerDecides(s, e);
  }

  lemma NextReady(s: State) returns (e: Event)
    requires Inv(s) && s.status.Active? && s.current.Some?
    ensures Applies(s, e) && e.TurnCompleted? && e.disposition == Ready([])
  {
    hide InvRecords, InvLog, InvTail, InvBlocks;
    var env := FreshEnvelope(s);
    var delivery := FreshId(set x <- s.applied | x.TurnCompleted? :: x.deliveryId);
    e := TurnCompleted(env, s.current.value, delivery, s.contractVersion, Ready([]), None, None);
    OtherExists(s, s.current.value);
    MembersOfTwo(s, s.ready, s.current.value);
    assert s.contractVersion <= 201;
    assert Apply(s, e).Ok?;
    HandlerDecides(s, e);
  }

  lemma NextAcknowledgement(s: State) returns (e: Event)
    requires Inv(s) && s.status.Active? && s.pending.Some?
    ensures Applies(s, e) && e.ContractAcknowledged?
  {
    hide InvRecords, InvLog, InvTail, InvBlocks, InvCounts;
    var env := FreshEnvelope(s);
    var r := s.pending.value;
    OtherExists(s, r.proposedBy);
    var ids := s.manifest.participants;
    var p := if ids[0] in r.acknowledgedBy then ids[1] else ids[0];
    assert p in ids && p !in r.acknowledgedBy;
    e := ContractAcknowledged(env, p, 0, r.revisionId, r.version, r.artifact);
    assert Apply(s, e).Ok?;
    HandlerDecides(s, e);
  }

  /** Any required command still missing from the round can be reported as passed. */
  lemma NextEvidence(s: State, p: Id, c: string) returns (e: Event)
    requires Inv(s) && s.status.Verifying? && InPlan(s.required, p, c) && !Recorded(s.records, p, c)
    ensures Applies(s, e) && e.VerificationRecorded? && e.participant == p
    ensures e.evidence.commandId == c && e.evidence.outcome == Passed
  {
    hide InvRecords, InvLog, InvTail, InvBlocks;
    var env := FreshEnvelope(s);
    var id := FreshId(set x <- s.applied | x.VerificationRecorded? :: x.evidence.verificationId);
    var evidence := Evidence(id, c, Passed, 0, 0, "passed", 0, [], 0);
    e := VerificationRecorded(env, p, 0, s.contractVersion, s.verificationRound, evidence);
    assert s.contractVersion <= 201 && s.verificationRound >= 1;
    EvidenceHandled(s, e);
    HandlerDecides(s, e);
  }

  lemma EvidenceHandled(s: State, e: Event)
    requires InvShape(s) && s.status.Verifying? && e.VerificationRecorded?
    requires InPlan(s.required, e.participant, e.evidence.commandId)
    requires !Recorded(s.records, e.participant, e.evidence.commandId)
    requires e.contractVersion == s.contractVersion && e.round == s.verificationRound
    requires e.evidence.artifacts == []
    requires forall x <- s.applied :: x.VerificationRecorded? ==>
               x.evidence.verificationId != e.evidence.verificationId
    ensures Apply(s, e).Ok?
  {
    hide ConfigParses, SameMembers, Unfinished, AllParticipantCommandsRecorded, AllRequiredCommandsPassed;
    assert ApplyVerificationRecorded(s, e) == SettleRound(s, s.records + [RecordOf(e)], e.participant);
  }

  /** No reachable Mission is stuck: until it is terminal, some participant can move it. */
  lemma NeverStuck(c: Config, inputs: seq<Event>) returns (e: Event)
    requires ConfigParses(c) && !IsTerminal(Feed(Create(c), inputs).status)
    ensures var s := Feed(Create(c), inputs);
            Reduce(s, e).Ok? && Reduce(s, e).value != s && !e.MissionTerminal?
  {
    var s := Feed(Create(c), inputs);
    ReachableStatesAreWellFormed(c, inputs);
    hide InvRecords, InvContract, InvLog, InvCounts, InvTail, InvBlocks, Reduce, StateValidates, Matches;
    if s.status.AwaitingAcceptance? {
      e := NextStart(s);
    } else if s.status.Active? {
      if s.current.Some? { e := NextReady(s); } else { e := NextAcknowledgement(s); }
    } else {
      var p, d :| InPlan(s.required, p, d) && !Recorded(s.records, p, d);
      e := NextEvidence(s, p, d);
    }
    ReduceAppends(s, e);
  }

  // ---- When completion is still possible -----------------------------------------------

  predicate Clean(records: seq<Record>) {
    forall r <- records :: r.evidence.outcome == Passed
  }

  /** Enough turns are left to gather the readiness still missing, counting a retry if the
      current round already holds a failure. */
  predicate Completable(s: State) {
    match s.status
    case AwaitingAcceptance => s.manifest.maxTurns >= 2
    case Active => s.turnCount + 2 <= s.manifest.maxTurns + |s.ready|
    case Verifying => Clean(s.records) || s.turnCount + 2 <= s.manifest.maxTurns
    case Completed => true
    case _ => false
  }

  /** Events still needed on the direct route to completion. */
  ghost function Distance(s: State): int
    requires InvShape(s)
  {
    var n := |PlanPairs(s)|;
    match s.status
    case AwaitingAcceptance => n + 4
    case Active =>
      if s.pending.Some? then n + 5 - |s.pending.value.acknowledgedBy| else n + 3 - |s.ready|
    case Verifying =>
      n + 1 - |s.records| + if Clean(s.records) then 0 else n + 3
    case _ => 0
  }

  lemma HopelessStaysHopeless(s: State, e: Event)
    requires Inv(s) && !Completable(s)
    ensures !Completable(Step(s, e))
  {
    hide InvLog, InvCounts, InvTail, InvBlocks, InvContract, Reduce, ConfigParses, Unfinished, SameMembers;
    if Applies(s, e) {
      var rule := StepFollowsRule(s, e);
      RuleKeepsHopeless(s, e, Step(s, e), rule);
    } else {
      StepIdle(s, e);
    }
  }

  lemma StepIdle(s: State, e: Event)
    requires !Applies(s, e)
    ensures Step(s, e) == s
  {}

  /** A failure on file rules out passing the round. */
  lemma FailureBlocksPass(s: State, e: Event, t: State, rule: Rule)
    requires InvShape(s) && InvRecords(s) && Follows(s, e, t, rule) && !Clean(s.records)
    ensures rule != PassRound
  {
    hide NextMessage, NextRevision, Acknowledges, Unfinished, SameMembers;
    if rule.PassRound? {
      var r :| r in s.records && r.evidence.outcome == Failed;
      assert r in t.records;
      AddedRecord(s, e);
      PassedMeansRecorded(s, t.records, r.participant);
    }
  }

  lemma RuleKeepsHopeless(s: State, e: Event, t: State, rule: Rule)
    requires InvShape(s) && InvRecords(s) && !Completable(s) && Follows(s, e, t, rule)
    ensures !Completable(t)
  {
    hide NextMessage, NextRevision, RoundLost, Acknowledges, ConfigParses, Unfinished, SameMembers,
         InvRecords, AllRequiredCommandsPassed;
    if rule.RecordEvidence? || rule.PassRound? {
      FailureBlocksPass(s, e, t, rule);
      var r :| r in s.records && r.evidence.outcome == Failed;
      assert r in t.records;
    }
  }

  lemma {:induction false} HopelessForever(s: State, more: seq<Event>)
    requires Inv(s) && !Completable(s)
    ensures Inv(Feed(s, more)) && !Completable(Feed(s, more))
  {
    hide Inv, Completable, Step;
    if more != [] {
      HopelessForever(s, more[..|more| - 1]);
      HopelessStaysHopeless(Feed(s, more[..|more| - 1]), more[|more| - 1]);
      StepKeepsInv(Feed(s, more[..|more| - 1]), more[|more| - 1]);
    }
  }

  /** The missing evidence worth reporting next: of a participant with a failure, if there is one. */
  lemma WorkToReport(s: State) returns (p: Id, c: string)
    requires InvShape(s) && InvRecords(s) && s.status.Verifying?
    ensures InPlan(s.required, p, c) && !Recorded(s.records, p, c)
    ensures !Clean(s.records) ==> exists r <- s.records :: r.participant == p && r.evidence.outcome == Failed
  {
    if Clean(s.records) {
      p, c :| InPlan(s.required, p, c) && !Recorded(s.records, p, c);
    } else {
      var r :| r in s.records && r.evidence.outcome == Failed;
      p := r.participant;
      c :| c in s.required[p] && !Recorded(s.records, p, c);
    }
  }

  lemma CloserByEvidence(s: State, e: Event, t: State, rule: Rule)
    requires InvShape(s) && InvRecords(s) && InvShape(t) && s.status.Verifying? && Completable(s)
    requires Follows(s, e, t, rule) && e.VerificationRecorded? && e.evidence.outcome == Passed
    requires !Clean(s.records) ==>
               exists r <- s.records :: r.participant == e.participant && r.evidence.outcome == Failed
    ensures Completable(t) && Distance(t) < Distance(s)
  {
    hide NextMessage, NextRevision, Acknowledges, Unfinished, SameMembers, AllRequiredCommandsPassed;
    RecordsFitPlan(s);
    RoundBounded(s, e);
    var records := s.records + [RecordOf(e)];
    assert Clean(s.records) <==> Clean(records);
    if rule.RetryRound? || rule.FailRound? {
      var r :| r in records && r.participant == e.participant && r.evidence.outcome == Failed;
      assert !Clean(records);
    }
    assert |PlanPairs(t)| == |PlanPairs(s)|;
  }

  lemma CloserOtherwise(s: State, e: Event, t: State, rule: Rule)
    requires InvShape(s) && InvContract(s) && InvShape(t) && Completable(s) && Follows(s, e, t, rule)
    requires (s.status.AwaitingAcceptance? && e.ParticipantsAccepted?) || e.ContractAcknowledged?
          || (e.TurnCompleted? && e.disposition == Ready([]))
    ensures Completable(t) && Distance(t) < Distance(s)
  {
    hide NextMessage, NextRevision, RoundLost, Acknowledges, Unfinished, SameMembers, AllRequiredCommandsPassed;
    assert |PlanPairs(t)| == |PlanPairs(s)|;
  }

  lemma StepCloser(s: State) returns (e: Event)
    requires Inv(s) && Completable(s) && !s.status.Completed?
    ensures Inv(Step(s, e)) && Completable(Step(s, e)) && Distance(Step(s, e)) < Distance(s)
  {
    hide InvLog, InvCounts, InvTail, InvBlocks, Reduce, Follows, Applies, Step, ConfigParses, SameMembers;
    if s.status.Verifying? {
      var p, c := WorkToReport(s);
      e := NextEvidence(s, p, c);
      var rule := StepFollowsRule(s, e);
      StepKeepsInv(s, e);
      CloserByEvidence(s, e, Step(s, e), rule);
    } else {
      if s.status.AwaitingAcceptance? { e := NextStart(s); }
      else if s.pending.Some? { e := NextAcknowledgement(s); }
      else { e := NextReady(s); }
      var rule := StepFollowsRule(s, e);
      StepKeepsInv(s, e);
      CloserOtherwise(s, e, Step(s, e), rule);
    }
  }

  lemma {:induction false} FeedPrepend(s: State, e: Event, more: seq<Event>)
    ensures Feed(s, [e] + more) == Feed(Step(s, e), more)
  {
    hide Step;
    var all := [e] + more;
    if more == [] {
      assert all[..|all| - 1] == [];
    } else {
      FeedPrepend(s, e, more[..|more| - 1]);
      assert all[..|all| - 1] == [e] + more[..|more| - 1];
    }
  }

  lemma DistanceNonNegative(s: State)
    requires Inv(s)
    ensures Distance(s) >= 0
  {
    hide InvLog, InvCounts, InvTail, InvBlocks;
    RecordsFitPlan(s);
  }

  lemma {:induction false} CanComplete(s: State) returns (more: seq<Event>)
    requires Inv(s) && Completable(s)
    ensures Feed(s, more).status == Completed
    decreases Distance(s)
  {
    hide InvRecords, InvContract, InvLog, InvCounts, InvTail, InvBlocks, Step, Completable, Distance;
    if s.status.Completed? {
      more := [];
    } else {
      var e := StepCloser(s);
      DistanceNonNegative(s);
      DistanceNonNegative(Step(s, e));
      var rest := CanComplete(Step(s, e));
      FeedPrepend(s, e, rest);
      more := [e] + rest;
    }
  }

  /** From any reachable state, some continuation completes the Mission exactly when enough
      turns remain. */
  lemma CompletionPossibleIff(c: Config, inputs: seq<Event>)
    requires ConfigParses(c)
    ensures var s := Feed(Create(c), inputs);
            Completable(s) <==> exists more :: Feed(s, more).status == Completed
  {
    hide Inv, StateValidates, WellScheduled, Step;
    var s := Feed(Create(c), inputs);
    ReachableStatesAreWellFormed(c, inputs);
    if Completable(s) {
      var more := CanComplete(s);
    } else {
      forall more ensures Feed(s, more).status != Completed { HopelessForever(s, more); }
    }
  }
}
