/** Whole-run properties of the Mission coordinator: log length, what completion means,
    replica convergence, agreed contract changes, and when completion is still possible. */
module MissionTheorems {
  import opened Common
  import opened MissionTypes
  import opened MissionReducer
  import opened MissionInvariant

  // ---- Accepted logs and reachable states ----------------------------------------------

  /** A log every event of which was newly applied. */
  ghost predicate AcceptedLog(c: Config, log: seq<Event>) {
    Replay(c, log).Ok? && Replay(c, log).value.applied == log
  }

  ghost function StateOf(c: Config, log: seq<Event>): State
    requires AcceptedLog(c, log)
  {
    Replay(c, log).value
  }

  lemma ApplyKeepsLog(s: State, e: Event)
    requires Apply(s, e).Ok?
    ensures var t := Apply(s, e).value;
            t.applied == s.applied && t.manifest == s.manifest && t.required == s.required
  {
    hide SameMembers, AllowedArtifacts, RevisionParses, AllParticipantCommandsRecorded, AllRequiredCommandsPassed;
  }

  /** What one reduction can do to the log and to the immutable configuration. */
  lemma ReduceAppends(s: State, e: Event)
    requires Reduce(s, e).Ok?
    ensures Reduce(s, e).value == s || Reduce(s, e).value.applied == s.applied + [e]
    ensures Reduce(s, e).value == s <==> Matches(s.applied, e) != []
    ensures Reduce(s, e).value.manifest == s.manifest && Reduce(s, e).value.required == s.required
  {
    hide Apply, EventParses, IsTerminal;
    if Matches(s.applied, e) == [] { ApplyKeepsLog(s, e); }
  }

  lemma {:induction false} ReplayLength(c: Config, log: seq<Event>)
    requires Replay(c, log).Ok?
    ensures |Replay(c, log).value.applied| <= |log|
  {
    if log != [] {
      ReplayLength(c, log[..|log| - 1]);
      ReduceAppends(Replay(c, log[..|log| - 1]).value, log[|log| - 1]);
    }
  }

  /** The last event of an accepted log was freshly applied to an accepted log. */
  lemma AcceptedLast(c: Config, log: seq<Event>)
    requires AcceptedLog(c, log) && log != []
    ensures AcceptedLog(c, log[..|log| - 1])
    ensures Applies(StateOf(c, log[..|log| - 1]), log[|log| - 1])
    ensures StateOf(c, log) == Step(StateOf(c, log[..|log| - 1]), log[|log| - 1])
  {
    var before := Replay(c, log[..|log| - 1]).value;
    ReplayLength(c, log[..|log| - 1]);
    ReduceAppends(before, log[|log| - 1]);
  }

  lemma {:induction false} PrefixAccepted(c: Config, log: seq<Event>, k: nat)
    requires AcceptedLog(c, log) && k <= |log|
    ensures AcceptedLog(c, log[..k])
    decreases |log|
  {
    if k < |log| {
      AcceptedLast(c, log);
      PrefixAccepted(c, log[..|log| - 1], k);
      assert log[..|log| - 1][..k] == log[..k];
    } else {
      assert log[..k] == log;
    }
  }

  lemma {:induction false} AcceptedInv(c: Config, log: seq<Event>)
    requires AcceptedLog(c, log)
    ensures ConfigParses(c) && Inv(StateOf(c, log))
    ensures StateOf(c, log).manifest == c.manifest && StateOf(c, log).required == c.required
  {
    if log == [] {
      InitInv(c);
    } else {
      AcceptedLast(c, log);
      AcceptedInv(c, log[..|log| - 1]);
      StepKeepsInv(StateOf(c, log[..|log| - 1]), log[|log| - 1]);
      ReduceAppends(StateOf(c, log[..|log| - 1]), log[|log| - 1]);
    }
  }

  /** Event sourcing: whatever inputs a coordinator is fed, replaying its own log rebuilds it. */
  lemma {:induction false} LogRebuildsState(c: Config, inputs: seq<Event>)
    requires ConfigParses(c)
    ensures var s := Feed(Create(c), inputs);
            AcceptedLog(c, s.applied) && StateOf(c, s.applied) == s
  {
    if inputs != [] {
      var before := Feed(Create(c), inputs[..|inputs| - 1]);
      var e := inputs[|inputs| - 1];
      LogRebuildsState(c, inputs[..|inputs| - 1]);
      hide Reduce, Create, ConfigParses;
      if Reduce(before, e).Ok? {
        ReduceAppends(before, e);
        assert (before.applied + [e])[..|before.applied|] == before.applied;
      }
    }
  }

  // ---- Run bound -----------------------------------------------------------------------

  lemma {:induction false} KindsAddUp(log: seq<Event>)
    ensures |log| == CountKind(log, KAcceptance) + CountKind(log, KTurn) + CountKind(log, KAcknowledgement)
                     + CountKind(log, KEvidence) + CountKind(log, KTerminal)
  {
    if log != [] { KindsAddUp(log[..|log| - 1]); }
  }

  /** No accepted log is longer than 2 + 17 * max_turns, and no list in the state can reach the
      cap its schema puts on it. */
  lemma RunBound(c: Config, log: seq<Event>)
    requires AcceptedLog(c, log)
    ensures |log| <= 2 + 17 * c.manifest.maxTurns < 4096
    ensures var s := StateOf(c, log);
            && s.turnCount <= 200 && |s.messages| <= 200 && |s.accepted| <= 200
            && |s.records| <= 32 && s.contractVersion <= 201 && s.verificationRound <= 100
  {
    AcceptedInv(c, log);
    KindsAddUp(log);
    RecordsFitPlan(StateOf(c, log));
  }

  // ---- Completion ----------------------------------------------------------------------

  function EvidencePairs(events: seq<Event>): seq<(Id, string)>
    requires forall e <- events :: e.VerificationRecorded?
  {
    seq(|events|, i requires 0 <= i < |events| => (events[i].participant, events[i].evidence.commandId))
  }

  /** `log` ends with adjacent ready turns by both participants, then one passed verification
      per required command in the given round and version, and nothing else. */
  ghost predicate EndsInAgreement(c: Config, log: seq<Event>, start: nat, version: nat, round: nat)
    requires ConfigParses(c)
  {
    && start + 2 <= |log|
    && log[start].TurnCompleted? && log[start].disposition.Ready?
    && log[start + 1].TurnCompleted? && log[start + 1].disposition.Ready?
    && SameMembers([log[start].participant, log[start + 1].participant], c.manifest.participants)
    && log[start].contractVersion == log[start + 1].contractVersion == version
    && var tail := log[start + 2..];
       && (forall e <- tail ::
             && e.VerificationRecorded? && e.evidence.outcome == Passed
             && e.contractVersion == version && e.round == round)
       && Distinct(EvidencePairs(tail))
       && forall p: Id, c' :: (p, c') in EvidencePairs(tail) <==> InPlan(c.required, p, c')
  }

  lemma RecordFacts(s: State, tail: seq<Event>)
    requires RecordsLogged(tail, s.records)
    ensures EvidencePairs(tail) == RecordPairs(s.records)
  {}

  lemma AllRecordsPassed(s: State)
    requires InvShape(s) && InvRecords(s) && AllRequiredCommandsPassed(s, s.records)
    ensures forall r <- s.records :: r.evidence.outcome == Passed
    ensures forall p: Id, c :: (p, c) in RecordPairs(s.records) <==> InPlan(s.required, p, c)
  {
    forall r <- s.records ensures r.evidence.outcome == Passed {
      PassedMeansRecorded(s, s.records, r.participant);
    }
    forall p: Id, c ensures (p, c) in RecordPairs(s.records) <==> InPlan(s.required, p, c) {
      if InPlan(s.required, p, c) {
        assert PassedOnRecord(s, s.records, p, c);
        var k :| 0 <= k < |s.records| && s.records[k].participant == p && s.records[k].evidence.commandId == c;
        assert RecordPairs(s.records)[k] == (p, c);
      }
    }
  }

  /** What it means for a Mission to be completed. */
  lemma CompletionMeansAgreement(c: Config, log: seq<Event>)
    requires AcceptedLog(c, log) && StateOf(c, log).status == Completed
    ensures ConfigParses(c)
    ensures exists start :: EndsInAgreement(c, log, start, StateOf(c, log).contractVersion,
                                            StateOf(c, log).verificationRound)
  {
    hide InvContract, InvLog, InvCounts, InvBlocks, Replay, ConfigParses, AllRequiredCommandsPassed, InPlan;
    AcceptedInv(c, log);
    var s := StateOf(c, log);
    var start := |log| - |s.records| - 2;
    var tail := log[start + 2..];
    RecordFacts(s, tail);
    AllRecordsPassed(s);
    RecordsFitPlan(s);
    assert [log[start].participant, log[start + 1].participant] == s.ready;
    forall e <- tail
      ensures && e.VerificationRecorded? && e.evidence.outcome == Passed
              && e.contractVersion == s.contractVersion && e.round == s.verificationRound
    {
      var i :| 0 <= i < |tail| && tail[i] == e;
      assert s.records[i] == RecordOf(e) && s.records[i] in s.records;
    }
    assert EndsInAgreement(c, log, start, s.contractVersion, s.verificationRound);
  }

  // ---- Replica convergence -------------------------------------------------------------

  lemma {:induction false} MatchesAre(log: seq<Event>, e: Event, k: nat)
    requires k < |log| && SharesIdentity(log[k], e)
    requires forall i :: 0 <= i < |log| && i != k ==> !SharesIdentity(log[i], e)
    ensures Matches(log, e) == [log[k]]
    decreases |log|
  {
    var n := |log| - 1;
    if k == n {
      MatchesEmpty(log[..n], e);
    } else {
      MatchesAre(log[..n], e, k);
    }
  }

  /** A replica holding the first `k` events: re-delivery changes nothing, the next event
      advances it by one, later events are refused. */
  lemma ReplicaStep(c: Config, log: seq<Event>, k: nat, j: nat)
    requires AcceptedLog(c, log) && k <= |log| && j < |log|
    ensures AcceptedLog(c, log[..k])
    ensures j < k ==> Reduce(StateOf(c, log[..k]), log[j]) == Ok(StateOf(c, log[..k]))
    ensures j == k ==> AcceptedLog(c, log[..k + 1])
                       && Reduce(StateOf(c, log[..k]), log[j]) == Ok(StateOf(c, log[..k + 1]))
    ensures j > k ==> Reduce(StateOf(c, log[..k]), log[j]).Err?
  {
    hide InvShape, InvRecords, InvContract, InvCounts, InvBlocks, InvTail, ConfigParses, Replay, Apply, EventParses;
    PrefixAccepted(c, log, k);
    AcceptedInv(c, log);
    AcceptedInv(c, log[..k]);
    if j < k {
      MatchesAre(log[..k], log[j], j);
    } else {
      MatchesEmpty(log[..k], log[j]);
      if j == k {
        PrefixAccepted(c, log, k + 1);
        AcceptedLast(c, log[..k + 1]);
        assert log[..k + 1][..k] == log[..k];
      }
    }
  }

  /** Feed a replica any duplicated, reordered, lossy selection of an accepted log's events: it
      always holds exactly the replay of the prefix its sequence number names. */
  lemma {:induction false} ReplicasConverge(c: Config, log: seq<Event>, deliveries: seq<Event>)
    requires AcceptedLog(c, log) && forall e <- deliveries :: e in log
    ensures var s := Feed(Create(c), deliveries);
            s.sequenceNo <= |log| && AcceptedLog(c, log[..s.sequenceNo])
            && s == StateOf(c, log[..s.sequenceNo])
  {
    hide InvShape, InvRecords, InvContract, InvCounts, InvBlocks, InvTail, ConfigParses, Reduce;
    PrefixAccepted(c, log, 0);
    AcceptedInv(c, log);
    assert log[..0] == [];
    if deliveries != [] {
      var rest, e := deliveries[..|deliveries| - 1], deliveries[|deliveries| - 1];
      ReplicasConverge(c, log, rest);
      assert e in deliveries;
      var k := Feed(Create(c), rest).sequenceNo;
      var j :| 0 <= j < |log| && log[j] == e;
      ReplicaStep(c, log, k, j);
      if j == k { AcceptedInv(c, log[..k + 1]); }
    }
  }

  /** Replicas of one log that report the same sequence number are the same. */
  lemma EqualSequenceEqualState(c: Config, log: seq<Event>, left: seq<Event>, right: seq<Event>)
    requires AcceptedLog(c, log)
    requires (forall e <- left :: e in log) && (forall e <- right :: e in log)
    requires Feed(Create(c), left).sequenceNo == Feed(Create(c), right).sequenceNo
    ensures Feed(Create(c), left) == Feed(Create(c), right)
  {
    ReplicasConverge(c, log, left);
    ReplicasConverge(c, log, right);
  }

  // ---- Agreed contract changes ---------------------------------------------------------

  /** Every accepted revision is a contiguous proposal and two acknowledgements of exactly it by
      the two participants; accepted versions are 2, 3, ...; the version in force counts them. */
  lemma ContractChangesAreAgreed(c: Config, log: seq<Event>)
    requires AcceptedLog(c, log)
    ensures var s, blocks := StateOf(c, log), Blocks(log);
            && s.contractVersion == VersionInForce(log)
            && |blocks| == |s.accepted|
            && (forall j, k :: 0 <= j < k < |blocks| ==> blocks[j] + 3 <= blocks[k])
            && forall k :: 0 <= k < |blocks| ==>
                 && BlockAt(log, blocks[k])
                 && s.accepted[k] == AgreedRevision(log, blocks[k])
                 && s.accepted[k].version == k + 2
                 && SameMembers([log[blocks[k] + 1].participant, log[blocks[k] + 2].participant],
                                c.manifest.participants)
  {
    AcceptedInv(c, log);
  }

  /** Every turn and every piece of evidence carries the version the log had put in force by then. */
  lemma EventsCarryVersionInForce(c: Config, log: seq<Event>, i: nat)
    requires AcceptedLog(c, log) && i < |log|
    requires log[i].TurnCompleted? || log[i].VerificationRecorded?
    ensures log[i].contractVersion == VersionInForce(log[..i])
  {
    hide InvShape, InvRecords, InvContract, InvCounts, InvBlocks, InvTail, InvLog, Replay, Reduce, Blocks, ConfigParses;
    PrefixAccepted(c, log, i + 1);
    AcceptedLast(c, log[..i + 1]);
    assert log[..i + 1][..i] == log[..i];
    AcceptedInv(c, log[..i]);
    ContractChangesAreAgreed(c, log[..i]);
    var rule := StepFollowsRule(StateOf(c, log[..i]), log[i]);
  }
}
