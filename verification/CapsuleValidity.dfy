/** Which transitions the store's validator takes from any state it accepts, reachable or not. */
module CapsuleValidity {
  import opened Common
  import opened MissionTypes
  import opened HostStream
  import opened HostStreamSpec
  import opened CapsuleState
  import opened CapsuleProofs

  /** An open turn can be closed this way: its events are about this turn, two more of them and the
      outcome's text fit, and the usage takes nothing back and is in bound. */
  ghost predicate Closeable(t: StoredTurn, usage: HostUsage, outcome: TerminalOutcome)
    requires t.events != []
  {
    && t.events[0].turn == HostTurn(t)
    && |t.events| + 2 <= DEFAULT_POLICY.maxEvents
    && TotalText(t.events) + TextBytesIn(TerminalEvent(outcome, HostTurn(t), |t.events| + 2))
       <= DEFAULT_POLICY.maxOutputBytes
    && UsageInPolicy(usage, DEFAULT_POLICY)
    && forall i :: 0 <= i < |t.events| && t.events[i].Usage? ==> UsageAdvances(t.events[i].usage, usage)
  }

  lemma UsageEventFits(t: StoredTurn, usage: HostUsage)
    requires t.events != [] && ValidStream(StoredCorrelation(t), DEFAULT_POLICY, t.events)
    requires !IsTerminalEvent(t.events[|t.events| - 1])
    ensures NextFits(StoredCorrelation(t), DEFAULT_POLICY, t.events, Usage(HostTurn(t), |t.events| + 1, usage)) <==>
              && t.events[0].turn == HostTurn(t) && |t.events| + 1 <= DEFAULT_POLICY.maxEvents
              && UsageInPolicy(usage, DEFAULT_POLICY)
              && forall i :: 0 <= i < |t.events| && t.events[i].Usage? ==> UsageAdvances(t.events[i].usage, usage)
  {
    hide TotalText, SumBytes, ArtifactSet, UsageInPolicy, UsageAdvances, Sequenced, ClosesLast, UsageOrdered;
    var e := Usage(HostTurn(t), |t.events| + 1, usage);
    AppendFacts(t.events, e);
    assert ArtifactSet(t.events) + Elements(ArtifactsIn(e)) == ArtifactSet(t.events);
  }

  lemma TerminalEventFits(t: StoredTurn, events: seq<HostEvent>, outcome: TerminalOutcome)
    requires OutcomeParses(outcome) && ValidStream(StoredCorrelation(t), DEFAULT_POLICY, events)
    requires |events| >= 2 && events[|events| - 1].Usage?
    ensures NextFits(StoredCorrelation(t), DEFAULT_POLICY, events, TerminalEvent(outcome, HostTurn(t), |events| + 1)) <==>
              && events[0].turn == HostTurn(t) && |events| + 1 <= DEFAULT_POLICY.maxEvents
              && TotalText(events) + TextBytesIn(TerminalEvent(outcome, HostTurn(t), |events| + 1))
                 <= DEFAULT_POLICY.maxOutputBytes
  {
    var e := TerminalEvent(outcome, HostTurn(t), |events| + 1);
    TerminalEventShape(outcome, HostTurn(t), |events| + 1);
    hide TotalText, SumBytes, ArtifactSet, Sequenced, ClosesLast, UsageOrdered, TextBytesIn, TerminalEvent, ArtifactsIn,
         OutcomeParses, HostEventParses, IsTerminalEvent;
    AppendFacts(events, e);
    assert ArtifactSet(events) + Elements(ArtifactsIn(e)) == ArtifactSet(events);
    LastIsNoTerminal(events);
  }

  lemma LastIsNoTerminal(events: seq<HostEvent>)
    requires events != [] && events[|events| - 1].Usage?
    ensures !IsTerminalEvent(events[|events| - 1])
  {}

  lemma TerminalEventShape(outcome: TerminalOutcome, turn: HostTurnRef, sequence: nat)
    requires OutcomeParses(outcome) && sequence >= 1
    ensures var e := TerminalEvent(outcome, turn, sequence);
            && HostEventParses(e) && IsTerminalEvent(e) && ArtifactsIn(e) == [] && !e.Usage? && !e.Accepted?
            && e.turn == turn && e.sequence == sequence
  {
    OutcomeFits(outcome, turn);
  }

  lemma ClosedStreamIff(t: StoredTurn, usage: HostUsage, outcome: TerminalOutcome)
    requires t.events != [] && ValidStream(StoredCorrelation(t), DEFAULT_POLICY, t.events)
    requires !IsTerminalEvent(t.events[|t.events| - 1]) && OutcomeParses(outcome)
    ensures ValidStream(StoredCorrelation(t), DEFAULT_POLICY, AppendTerminal(t, usage, outcome).events)
       <==> Closeable(t, usage, outcome)
  {
    var u, last := Usage(HostTurn(t), |t.events| + 1, usage), TerminalEvent(outcome, HostTurn(t), |t.events| + 2);
    var reported, expected := t.events + [u], StoredCorrelation(t);
    assert AppendTerminal(t, usage, outcome).events == reported + [last];
    hide ValidStream, NextFits, UsageInPolicy, UsageAdvances, TerminalEvent, TextBytesIn, OutcomeParses, IsTerminalEvent,
         AppendTerminal, StoredCorrelation;
    ValidByLast(expected, DEFAULT_POLICY, t.events, u);
    ValidByLast(expected, DEFAULT_POLICY, reported, last);
    UsageEventFits(t, usage);
    TextOfReport(t.events, u);
    if ValidStream(expected, DEFAULT_POLICY, reported) {
      TerminalEventFits(t, reported, outcome);
      assert reported[0] == t.events[0];
    }
  }

  lemma ConsistentMeans(t: StoredTurn)
    ensures EventsConsistent(t) <==>
              && t.events != [] && ValidStream(StoredCorrelation(t), DEFAULT_POLICY, t.events)
              && (t.phase.TurnTerminal? <==> IsTerminalEvent(t.events[|t.events| - 1]))
  {
    FoldIsValidStream(StoredCorrelation(t), DEFAULT_POLICY, t.events);
    hide Fold, ValidStream, IsTerminalEvent, StoredCorrelation;
  }

  lemma ClosedEndsTerminal(t: StoredTurn, usage: HostUsage, outcome: TerminalOutcome)
    requires OutcomeParses(outcome)
    ensures var closed := AppendTerminal(t, usage, outcome);
            && closed.events != [] && closed.phase.TurnTerminal? && StoredCorrelation(closed) == StoredCorrelation(t)
            && IsTerminalEvent(closed.events[|closed.events| - 1])
  {
    TerminalEventShape(outcome, HostTurn(t), |t.events| + 2);
  }

  /** Closing a consistent open turn yields a consistent turn exactly when it is closeable so. */
  lemma ClosedTurnConsistentIff(t: StoredTurn, usage: HostUsage, outcome: TerminalOutcome)
    requires EventsConsistent(t) && !t.phase.TurnTerminal? && OutcomeParses(outcome)
    ensures t.events != [] && (EventsConsistent(AppendTerminal(t, usage, outcome)) <==> Closeable(t, usage, outcome))
  {
    hide EventsConsistent, ValidStream, Closeable, IsTerminalEvent, OutcomeParses, AppendTerminal, StoredCorrelation;
    ConsistentMeans(t);
    ConsistentMeans(AppendTerminal(t, usage, outcome));
    ClosedEndsTerminal(t, usage, outcome);
    ClosedStreamIff(t, usage, outcome);
  }

  lemma TextOfReport(events: seq<HostEvent>, u: HostEvent)
    requires u.Usage?
    ensures TotalText(events + [u]) == TotalText(events)
  {
    AppendFacts(events, u);
  }

  /** The record a closing operation would make of an open turn. */
  function ClosingRecord(t: StoredTurn, op: Operation): Option<(HostUsage, TerminalOutcome)> {
    if t.phase.TurnTerminal? then None
    else
      match op
      case RequestCancellation(_) => if t.phase.Prepared? then Some((NOT_REPORTED, OutcomeCancelled)) else None
      case RecordUncertainInterrupt(_, _) => Some((NOT_REPORTED, LOST_INTERRUPT))
      case RecordUnmatchedStart(_, _) =>
        Some((NOT_REPORTED, if t.cancellation.NotRequested? then LOST_START else OutcomeCancelled))
      case RecordTerminal(_, usage, outcome) => Some((usage, outcome))
      case _ => None
  }

  /** What a caller can check before an operation on any valid state. */
  ghost predicate StorableFrom(v: Capsule, op: Operation) {
    match op
    case PrepareTurn(input, _) => KeyOf(input) in v.turns || |v.turns| < MAX_STORED_TURNS
    case RequestCancellation(turn) => ClosesWell(v, turn, op)
    case RecordUncertainInterrupt(turn, _) => ClosesWell(v, turn, op)
    case RecordUnmatchedStart(turn, _) => ClosesWell(v, turn, op)
    case RecordTerminal(turn, _, _) => ClosesWell(v, turn, op)
    case _ => true
  }

  ghost predicate ClosesWell(v: Capsule, turn: HostTurnRef, op: Operation) {
    var key := KeyOfRef(turn);
    key in v.turns && v.turns[key].events != [] && ClosingRecord(v.turns[key], op).Some? ==>
      Closeable(v.turns[key], ClosingRecord(v.turns[key], op).value.0, ClosingRecord(v.turns[key], op).value.1)
  }

  lemma ValidTurnHasEvents(id: Identity, v: Capsule, key: ExecutionKey)
    requires Validates(id, v) && key in v.turns
    ensures EventsConsistent(v.turns[key]) && v.turns[key].events != []
  {
    hide PhaseConsistent;
    assert TurnValidates(v, key, v.turns[key]);
  }

  lemma ClosingDecided(id: Identity, v: Capsule, t: StoredTurn, cancellation: Cancellation, usage: HostUsage,
                       outcome: TerminalOutcome)
    requires Validates(id, v) && KeyOf(t.input) in v.turns && v.turns[KeyOf(t.input)] == t && !t.phase.TurnTerminal?
    requires OutcomeParses(outcome) && (outcome.OutcomeCancelled? ==> !cancellation.NotRequested?) && t.events != []
    ensures Validates(id, WithTurn(v, AppendTerminal(t.(cancellation := cancellation), usage, outcome)))
       <==> Closeable(t, usage, outcome)
  {
    var requested := t.(cancellation := cancellation);
    ValidTurnHasEvents(id, v, KeyOf(t.input));
    assert EventsConsistent(requested) && HostTurn(requested) == HostTurn(t);
    assert PhaseConsistent(AppendTerminal(requested, usage, outcome)) by { hide EventsConsistent; }
    hide Validates, EventsConsistent, PhaseConsistent, OutcomeParses, UsageInPolicy, UsageAdvances;
    MovedTurnValid(id, v, t, AppendTerminal(requested, usage, outcome));
    ClosedTurnConsistentIff(requested, usage, outcome);
  }

  lemma OpenTurnKept(id: Identity, v: Capsule, t: StoredTurn, u: StoredTurn)
    requires Validates(id, v) && KeyOf(t.input) in v.turns && v.turns[KeyOf(t.input)] == t
    requires !t.phase.TurnTerminal? && !u.phase.TurnTerminal? && PhaseConsistent(u)
    requires u == t.(phase := u.phase, codexTurnId := u.codexTurnId, cancellation := u.cancellation)
    ensures Validates(id, WithTurn(v, u))
  {
    ValidTurnHasEvents(id, v, KeyOf(t.input));
    assert EventsConsistent(u);
    hide Validates, EventsConsistent, PhaseConsistent;
    MovedTurnValid(id, v, t, u);
  }

  lemma PrepareDecided(id: Identity, v: Capsule, input: StartTurnInput, freshTurnId: Id)
    requires Validates(id, v) && InputParses(input) && PrepareTurnStep(v, input, freshTurnId).Ok?
    ensures Validates(id, PrepareTurnStep(v, input, freshTurnId).value.0)
       <==> KeyOf(input) in v.turns || |v.turns| < MAX_STORED_TURNS
  {
    hide EventsConsistent, Validates;
    var next, key := PrepareTurnStep(v, input, freshTurnId).value.0, KeyOf(input);
    if key !in v.turns {
      var t := next.turns[key];
      FreshTurnConsistent(t);
      assert next == WithTurn(v, t);
      OneTurnDecides(id, v, t);
      assert ActiveKeys(next) == {key};
      assert next.turns.Keys == v.turns.Keys + {key};
      assert |next.turns| == |v.turns| + 1;
    }
  }

  lemma SessionDecided(id: Identity, v: Capsule, op: Operation)
    requires Validates(id, v) && Perform(v, op).Ok?
    requires op.ClaimSessionStart? || op.AcceptSession? || op.ResetUnboundSession?
    ensures Validates(id, Perform(v, op).value.0)
  {
    hide EventsConsistent, PhaseConsistent;
    var next := Perform(v, op).value.0;
    assert next.turns == v.turns && ActiveKeys(next) == ActiveKeys(v);
    assert forall k, u :: TurnValidates(next, k, u) <==> TurnValidates(v, k, u);
  }

  lemma StartDecided(id: Identity, v: Capsule, op: Operation)
    requires Validates(id, v) && Perform(v, op).Ok? && (op.ClaimTurnStart? || op.AcceptTurn?)
    ensures Validates(id, Perform(v, op).value.0)
  {
    hide Validates;
    var next := Perform(v, op).value.0;
    FoundByInput(v, op.input);
    var t := TurnByInput(v, op.input).value;
    ValidTurn(id, v, KeyOf(t.input));
    if next != v { OpenTurnKept(id, v, t, next.turns[KeyOf(t.input)]); }
  }

  lemma InterruptDecided(id: Identity, v: Capsule, op: Operation)
    requires Validates(id, v) && Perform(v, op).Ok? && op.ClaimInterrupt?
    ensures Validates(id, Perform(v, op).value.0)
  {
    hide Validates;
    var next := Perform(v, op).value.0;
    ValidIsKeyed(id, v);
    FoundByRef(v, op.turn);
    var t := TurnByRef(v, op.turn).value;
    ValidTurn(id, v, KeyOf(t.input));
    if next != v { OpenTurnKept(id, v, t, next.turns[KeyOf(t.input)]); }
  }

  lemma ClosingOperationDecided(id: Identity, v: Capsule, op: Operation)
    requires Validates(id, v) && Perform(v, op).Ok?
    requires op.RequestCancellation? || op.RecordUncertainInterrupt? || op.RecordUnmatchedStart? || op.RecordTerminal?
    ensures Validates(id, Perform(v, op).value.0) <==> ClosesWell(v, op.turn, op)
  {
    hide Validates, AppendTerminal, Closeable;
    ValidIsKeyed(id, v);
    FoundByRef(v, op.turn);
    var t := TurnByRef(v, op.turn).value;
    ValidTurn(id, v, KeyOf(t.input));
    ValidTurnHasEvents(id, v, KeyOf(t.input));
    hide EventsConsistent;
    var record := ClosingRecord(t, op);
    if record.Some? {
      var cancellation := if op.RequestCancellation? then Requested else t.cancellation;
      assert t == t.(cancellation := t.cancellation);
      ClosingDecided(id, v, t, cancellation, record.value.0, record.value.1);
    } else if Perform(v, op).value.0 != v {
      OpenTurnKept(id, v, t, t.(phase := Cancelling, cancellation := Requested));
    }
  }

  /** From every state the validator accepts, a successful transition is accepted again exactly when
      there is room for the turn it prepares and the turn it closes is closeable that way. */
  lemma ValidatorAcceptsIff(id: Identity, v: Capsule, op: Operation)
    requires Validates(id, v) && Perform(v, op).Ok?
    ensures Validates(id, Perform(v, op).value.0) <==> StorableFrom(v, op)
  {
    hide Validates, ClosesWell, ClaimTurnStartStep, AcceptTurnStep, RequestCancellationStep, ClaimInterruptStep,
         ClaimSessionStartStep, AcceptSessionStep, ResetUnboundSessionStep, PrepareTurnStep,
         RecordUncertainInterruptStep, RecordUnmatchedStartStep, RecordTerminalStep;
    match op
    case PrepareTurn(input, freshTurnId) => PrepareDecided(id, v, input, freshTurnId);
    case ClaimTurnStart(_) => StartDecided(id, v, op);
    case AcceptTurn(_, _) => StartDecided(id, v, op);
    case ClaimInterrupt(_) => InterruptDecided(id, v, op);
    case RequestCancellation(_) => ClosingOperationDecided(id, v, op);
    case RecordUncertainInterrupt(_, _) => ClosingOperationDecided(id, v, op);
    case RecordUnmatchedStart(_, _) => ClosingOperationDecided(id, v, op);
    case RecordTerminal(_, _, _) => ClosingOperationDecided(id, v, op);
    case _ => SessionDecided(id, v, op);
  }
}
