/** The Capsule's store validator as an invariant: which transitions keep it, exactly when, and
    what no transition ever changes. */
module CapsuleProofs {
  import opened Common
  import opened MissionTypes
  import opened HostStream
  import opened CapsuleState

  // ---- What transitions never undo -----------------------------------------------------

  function PhaseRank(p: TurnPhase): nat {
    match p
    case Prepared => 0
    case StartMaybeSent => 1
    case TurnAccepted => 2
    case Cancelling => 3
    case TurnTerminal => 4
  }

  function CancellationRank(c: Cancellation): nat {
    match c case NotRequested => 0 case Requested => 1 case InterruptMaybeSent => 2
  }

  /** A turn only moves forward: identity fixed, events appended, binding kept, terminal frozen. */
  predicate Advances(t: StoredTurn, u: StoredTurn) {
    && u.input == t.input && u.digest == t.digest && u.intent == t.intent && u.hostTurnId == t.hostTurnId
    && t.events <= u.events
    && PhaseRank(t.phase) <= PhaseRank(u.phase)
    && CancellationRank(t.cancellation) <= CancellationRank(u.cancellation)
    && (t.codexTurnId.Some? ==> u.codexTurnId == t.codexTurnId)
    && (t.phase.TurnTerminal? ==> u == t)
  }

  predicate Keyed(v: Capsule) {
    forall k <- v.turns :: k == KeyOf(v.turns[k].input)
  }

  predicate CapsuleAdvances(v: Capsule, next: Capsule) {
    && next.capsuleId == v.capsuleId && next.session == v.session && next.sessionDigest == v.sessionDigest
    && next.hostSessionId == v.hostSessionId
    && (v.threadId.Some? ==> next.threadId == v.threadId)
    && v.turns.Keys <= next.turns.Keys
    && forall k <- v.turns :: Advances(v.turns[k], next.turns[k])
  }

  predicate Consistent(v: Capsule) {
    && (v.threadId.Some? ==> v.sessionPhase.SessionReady?)
    && forall k <- v.turns :: k == KeyOf(v.turns[k].input) && PhaseConsistent(v.turns[k])
  }

  lemma OneTurnAdvances(v: Capsule, t: StoredTurn, u: StoredTurn)
    requires Keyed(v) && KeyOf(t.input) in v.turns && v.turns[KeyOf(t.input)] == t && Advances(t, u)
    ensures CapsuleAdvances(v, WithTurn(v, u)) && Keyed(WithTurn(v, u))
  {}

  lemma FoundTurnAdvances(v: Capsule, op: Operation)
    requires Consistent(v) && Perform(v, op).Ok? && Perform(v, op).value.0 != v
    requires !op.PrepareTurn? && !op.ClaimSessionStart? && !op.AcceptSession? && !op.ResetUnboundSession?
    ensures exists t: StoredTurn, u :: && KeyOf(t.input) in v.turns && v.turns[KeyOf(t.input)] == t && Advances(t, u)
                           && Perform(v, op).value.0 == WithTurn(v, u)
  {
    var found := if op.ClaimTurnStart? || op.AcceptTurn? then TurnByInput(v, op.input) else TurnByRef(v, op.turn);
    var t := found.value;
    var u := Perform(v, op).value.0.turns[KeyOf(t.input)];
    assert PhaseConsistent(t);
    assert Perform(v, op).value.0 == WithTurn(v, u);
    assert Advances(t, u);
  }

  /** Every successful transition moves the whole Capsule forward: a bound thread or provider turn
      is never rebound, no turn disappears, and terminal turns keep their events for good. */
  lemma TransitionsOnlyAdvance(v: Capsule, op: Operation)
    requires Consistent(v) && Perform(v, op).Ok?
    ensures CapsuleAdvances(v, Perform(v, op).value.0) && Keyed(Perform(v, op).value.0)
  {
    hide PhaseConsistent;
    if op.PrepareTurn? || op.ClaimSessionStart? || op.AcceptSession? || op.ResetUnboundSession? {
    } else if Perform(v, op).value.0 != v {
      hide Perform, Advances;
      FoundTurnAdvances(v, op);
      var t: StoredTurn, u :| && KeyOf(t.input) in v.turns && v.turns[KeyOf(t.input)] == t && Advances(t, u)
                  && Perform(v, op).value.0 == WithTurn(v, u);
      OneTurnAdvances(v, t, u);
    }
  }

  // ---- The inductive invariant ---------------------------------------------------------

  /** An open turn has reported nothing but its acceptance. */
  predicate OpenTurnsAreFresh(v: Capsule) {
    forall k <- v.turns :: !v.turns[k].phase.TurnTerminal? ==>
      v.turns[k].events == [Accepted(HostTurn(v.turns[k]), 1)]
  }

  predicate CapsuleInv(id: Identity, v: Capsule) {
    Validates(id, v) && OpenTurnsAreFresh(v)
  }

  /** What a caller must check before an operation for its result to be storable. */
  predicate Storable(v: Capsule, op: Operation) {
    match op
    case PrepareTurn(input, _) => KeyOf(input) in v.turns || |v.turns| < MAX_STORED_TURNS
    case RecordTerminal(turn, usage, _) =>
      || (KeyOfRef(turn) in v.turns && v.turns[KeyOfRef(turn)].phase.TurnTerminal?)
      || (usage.Available? ==> usage.inputTokens + usage.outputTokens <= DEFAULT_POLICY.maxTokens)
    case _ => true
  }

  lemma Utf8LengthBound(s: string)
    ensures Utf8Length(s) <= 4 * |s|
  {
    if s != [] { Utf8LengthBound(s[..|s| - 1]); }
  }

  lemma OutcomeFits(outcome: TerminalOutcome, turn: HostTurnRef)
    requires OutcomeParses(outcome)
    ensures var e := TerminalEvent(outcome, turn, 3);
            && HostEventParses(e) && IsTerminalEvent(e) && ArtifactsIn(e) == []
            && TextBytesIn(e) <= DEFAULT_POLICY.maxOutputBytes
  {
    match outcome
    case OutcomeCompleted(Reply(_, text, _)) => Utf8LengthBound(text);
    case OutcomeCompleted(Blocked(reason, requested)) =>
      Utf8LengthBound(if requested.None? then reason else reason + requested.value);
    case OutcomeFailed(_, message) => Utf8LengthBound(message);
    case _ =>
  }

  /** The stream of a turn that was only accepted. */
  function AcceptedStream(t: StoredTurn): StreamState {
    StreamState(Streaming, 1, 0, 0, 0, [], None, Some(HostTurn(t)), StoredCorrelation(t))
  }

  lemma AcceptanceFolds(t: StoredTurn)
    ensures Fold(StoredCorrelation(t), DEFAULT_POLICY, [Accepted(HostTurn(t), 1)]) == Ok(AcceptedStream(t))
  {
    var e := Accepted(HostTurn(t), 1);
    assert [e][..0] == [];
    assert AddArtifacts([], 0, []) == ([], 0);
    assert Fold(StoredCorrelation(t), DEFAULT_POLICY, []) == Ok(CreateStream(StoredCorrelation(t)));
  }

  lemma UsageFolds(t: StoredTurn, usage: HostUsage)
    ensures var events := [Accepted(HostTurn(t), 1), Usage(HostTurn(t), 2, usage)];
            var folded := Fold(StoredCorrelation(t), DEFAULT_POLICY, events);
            && (folded.Ok? <==> UsageReportable(usage))
            && (folded.Ok? ==> folded.value == AcceptedStream(t).(lastSequence := 2, usage := Some(usage)))
  {
    AcceptanceFolds(t);
    var e := Usage(HostTurn(t), 2, usage);
    assert [Accepted(HostTurn(t), 1), e][..1] == [Accepted(HostTurn(t), 1)];
    assert AddArtifacts([], 0, []) == ([], 0);
  }

  predicate UsageReportable(usage: HostUsage) {
    usage.Available? ==> usage.inputTokens + usage.outputTokens <= DEFAULT_POLICY.maxTokens
  }

  /** Closing a fresh turn yields a complete valid stream exactly when the usage is reportable. */
  lemma ClosedTurnFolds(t: StoredTurn, usage: HostUsage, outcome: TerminalOutcome)
    requires t.events == [Accepted(HostTurn(t), 1)] && OutcomeParses(outcome)
    ensures EventsConsistent(AppendTerminal(t, usage, outcome)) <==> UsageReportable(usage)
  {
    var closed := AppendTerminal(t, usage, outcome);
    var before := [Accepted(HostTurn(t), 1), Usage(HostTurn(t), 2, usage)];
    var last := TerminalEvent(outcome, HostTurn(t), 3);
    UsageFolds(t, usage);
    OutcomeFits(outcome, HostTurn(t));
    assert closed.events == before + [last] && closed.events[..2] == before;
    assert AddArtifacts([], 0, []) == ([], 0);
    assert StoredCorrelation(closed) == StoredCorrelation(t);
    hide Fold, TextBytesIn, ArtifactsIn, AddArtifacts, HostEventParses, IsTerminalEvent;
    FoldLast(StoredCorrelation(t), closed.events);
  }

  lemma FoldLast(expected: Correlation, events: seq<HostEvent>)
    requires events != []
    ensures var before := Fold(expected, DEFAULT_POLICY, events[..|events| - 1]);
            Fold(expected, DEFAULT_POLICY, events)
            == if before.Err? then before
               else AcceptHostEvent(before.value, events[|events| - 1], DEFAULT_POLICY)
  {
    hide AcceptHostEvent;
  }

  lemma FreshTurnConsistent(t: StoredTurn)
    requires t.events == [Accepted(HostTurn(t), 1)]
    ensures EventsConsistent(t) <==> !t.phase.TurnTerminal?
  {
    AcceptanceFolds(t);
  }

  /** Replacing or adding one turn: only that turn, the count and the active set need checking. */
  lemma OneTurnDecides(id: Identity, v: Capsule, t: StoredTurn)
    requires Validates(id, v) && v.sessionPhase.SessionReady?
    ensures var next := WithTurn(v, t);
            Validates(id, next) <==>
              |next.turns| <= MAX_STORED_TURNS && TurnValidates(v, KeyOf(t.input), t) && |ActiveKeys(next)| <= 1
  {
    hide EventsConsistent, PhaseConsistent;
    var next := WithTurn(v, t);
    assert forall k <- next.turns :: k != KeyOf(t.input) ==> k in v.turns && next.turns[k] == v.turns[k];
    assert forall k, u :: TurnValidates(next, k, u) <==> TurnValidates(v, k, u);
    assert KeyOf(t.input) in next.turns;
    if Validates(id, next) { assert TurnValidates(next, KeyOf(t.input), next.turns[KeyOf(t.input)]); }
  }

  /** Moving an open turn on, without preparing a new one: only its events remain to be checked. */
  lemma MovedTurnValid(id: Identity, v: Capsule, t: StoredTurn, u: StoredTurn)
    requires Validates(id, v) && KeyOf(t.input) in v.turns && v.turns[KeyOf(t.input)] == t
    requires !t.phase.TurnTerminal? && u.input == t.input && u.digest == t.digest && u.intent == t.intent
    requires PhaseConsistent(u)
    ensures Validates(id, WithTurn(v, u)) <==> EventsConsistent(u)
  {
    hide EventsConsistent, PhaseConsistent;
    var next := WithTurn(v, u);
    assert TurnValidates(v, KeyOf(t.input), t);
    OneTurnDecides(id, v, u);
    assert next.turns.Keys == v.turns.Keys;
    SubsetCardinality(ActiveKeys(next), ActiveKeys(v));
    assert |next.turns| == |next.turns.Keys| && |v.turns| == |v.turns.Keys|;
  }

  lemma MovedTurnStorable(id: Identity, v: Capsule, t: StoredTurn, u: StoredTurn)
    requires CapsuleInv(id, v) && KeyOf(t.input) in v.turns && v.turns[KeyOf(t.input)] == t
    requires !t.phase.TurnTerminal? && u.input == t.input && u.digest == t.digest && u.intent == t.intent
    requires u.hostTurnId == t.hostTurnId && PhaseConsistent(u)
    requires !u.phase.TurnTerminal? ==> u.events == t.events
    ensures Validates(id, WithTurn(v, u)) <==> EventsConsistent(u)
    ensures OpenTurnsAreFresh(WithTurn(v, u))
  {
    hide Validates, EventsConsistent, PhaseConsistent;
    MovedTurnValid(id, v, t, u);
  }

  lemma OpenTurnMoved(id: Identity, v: Capsule, t: StoredTurn, u: StoredTurn)
    requires CapsuleInv(id, v) && KeyOf(t.input) in v.turns && v.turns[KeyOf(t.input)] == t
    requires !t.phase.TurnTerminal? && !u.phase.TurnTerminal?
    requires u == t.(phase := u.phase, codexTurnId := u.codexTurnId, cancellation := u.cancellation)
    requires PhaseConsistent(u)
    ensures CapsuleInv(id, WithTurn(v, u))
  {
    hide Validates, PhaseConsistent, EventsConsistent, TurnValidates;
    MovedTurnStorable(id, v, t, u);
    assert HostTurn(u) == HostTurn(t);
    FreshTurnConsistent(u);
  }

  lemma TurnClosed(id: Identity, v: Capsule, t: StoredTurn, usage: HostUsage, outcome: TerminalOutcome)
    requires CapsuleInv(id, v) && KeyOf(t.input) in v.turns && OutcomeParses(outcome)
    requires v.turns[KeyOf(t.input)] == t.(cancellation := v.turns[KeyOf(t.input)].cancellation)
    requires !t.phase.TurnTerminal? && (outcome.OutcomeCancelled? ==> !t.cancellation.NotRequested?)
    ensures Validates(id, WithTurn(v, AppendTerminal(t, usage, outcome))) <==> UsageReportable(usage)
    ensures OpenTurnsAreFresh(WithTurn(v, AppendTerminal(t, usage, outcome)))
  {
    hide Validates, EventsConsistent, TurnValidates;
    var stored := v.turns[KeyOf(t.input)];
    assert HostTurn(t) == HostTurn(stored);
    MovedTurnStorable(id, v, stored, AppendTerminal(t, usage, outcome));
    ClosedTurnFolds(t, usage, outcome);
  }

  lemma PreparedTurnStorable(id: Identity, v: Capsule, input: StartTurnInput, freshTurnId: Id)
    requires CapsuleInv(id, v) && InputParses(input) && PrepareTurnStep(v, input, freshTurnId).Ok?
    ensures var next := PrepareTurnStep(v, input, freshTurnId).value.0;
            && (Validates(id, next) <==> KeyOf(input) in v.turns || |v.turns| < MAX_STORED_TURNS)
            && OpenTurnsAreFresh(next)
  {
    hide EventsConsistent, Validates;
    var next := PrepareTurnStep(v, input, freshTurnId).value.0;
    var key := KeyOf(input);
    if key !in v.turns {
      var t := next.turns[key];
      FreshTurnConsistent(t);
      assert next == WithTurn(v, t);
      OneTurnDecides(id, v, t);
      assert ActiveKeys(next) == {key};
      assert next.turns.Keys == v.turns.Keys + {key};
      assert |next.turns| == |v.turns| + 1;
    }
  }

  lemma SessionOperationStorable(id: Identity, v: Capsule, op: Operation)
    requires CapsuleInv(id, v) && Perform(v, op).Ok?
    requires op.ClaimSessionStart? || op.AcceptSession? || op.ResetUnboundSession?
    ensures CapsuleInv(id, Perform(v, op).value.0)
  {
    hide EventsConsistent, PhaseConsistent;
    var next := Perform(v, op).value.0;
    assert next.turns == v.turns;
    assert forall k, u :: TurnValidates(next, k, u) <==> TurnValidates(v, k, u);
    assert ActiveKeys(next) == ActiveKeys(v);
  }

  lemma FoundByRef(v: Capsule, turn: HostTurnRef)
    requires Keyed(v) && TurnByRef(v, turn).Ok?
    ensures var t := TurnByRef(v, turn).value;
            KeyOf(t.input) == KeyOfRef(turn) && KeyOf(t.input) in v.turns && v.turns[KeyOf(t.input)] == t
  {}

  lemma FoundByInput(v: Capsule, input: StartTurnInput)
    requires TurnByInput(v, input).Ok?
    ensures var t := TurnByInput(v, input).value;
            t.input == input && KeyOf(t.input) in v.turns && v.turns[KeyOf(t.input)] == t
  {}

  lemma ValidTurn(id: Identity, v: Capsule, key: ExecutionKey)
    requires Validates(id, v) && key in v.turns
    ensures PhaseConsistent(v.turns[key]) && key == KeyOf(v.turns[key].input)
    ensures v.turns[key].intent == BuildIntent(v.turns[key].input) && v.sessionPhase.SessionReady?
    ensures v.turns[key].digest == TurnDigest(v.turns[key].input)
  {
    hide EventsConsistent, PhaseConsistent;
    assert TurnValidates(v, key, v.turns[key]);
  }

  lemma ValidIsKeyed(id: Identity, v: Capsule)
    requires Validates(id, v)
    ensures Keyed(v)
  {
    forall k <- v.turns ensures k == KeyOf(v.turns[k].input) { ValidTurn(id, v, k); }
  }

  lemma StartOperationStorable(id: Identity, v: Capsule, op: Operation)
    requires CapsuleInv(id, v) && Perform(v, op).Ok? && (op.ClaimTurnStart? || op.AcceptTurn?)
    ensures CapsuleInv(id, Perform(v, op).value.0)
  {
    hide Validates, OpenTurnsAreFresh;
    var next := Perform(v, op).value.0;
    FoundByInput(v, op.input);
    var t := TurnByInput(v, op.input).value;
    ValidTurn(id, v, KeyOf(t.input));
    if next != v { OpenTurnMoved(id, v, t, next.turns[KeyOf(t.input)]); }
  }

  lemma CancelOperationStorable(id: Identity, v: Capsule, op: Operation)
    requires CapsuleInv(id, v) && Perform(v, op).Ok? && (op.RequestCancellation? || op.ClaimInterrupt?)
    ensures CapsuleInv(id, Perform(v, op).value.0)
  {
    hide Validates, OpenTurnsAreFresh;
    var next := Perform(v, op).value.0;
    ValidIsKeyed(id, v);
    FoundByRef(v, op.turn);
    var t := TurnByRef(v, op.turn).value;
    ValidTurn(id, v, KeyOf(t.input));
    if op.RequestCancellation? && t.phase.Prepared? {
      TurnClosed(id, v, t.(cancellation := Requested), NOT_REPORTED, OutcomeCancelled);
    } else if next != v {
      OpenTurnMoved(id, v, t, next.turns[KeyOf(t.input)]);
    }
  }

  lemma RecordOperationStorable(id: Identity, v: Capsule, op: Operation)
    requires CapsuleInv(id, v) && Perform(v, op).Ok?
    requires op.RecordUncertainInterrupt? || op.RecordUnmatchedStart? || op.RecordTerminal?
    ensures Validates(id, Perform(v, op).value.0) <==> Storable(v, op)
    ensures OpenTurnsAreFresh(Perform(v, op).value.0)
  {
    hide Validates, OpenTurnsAreFresh, AppendTerminal;
    ValidIsKeyed(id, v);
    FoundByRef(v, op.turn);
    var t := TurnByRef(v, op.turn).value;
    ValidTurn(id, v, KeyOf(t.input));
    if !t.phase.TurnTerminal? {
      match op
      case RecordUncertainInterrupt(_, _) => TurnClosed(id, v, t, NOT_REPORTED, LOST_INTERRUPT);
      case RecordUnmatchedStart(_, _) =>
        TurnClosed(id, v, t, NOT_REPORTED, if t.cancellation.NotRequested? then LOST_START else OutcomeCancelled);
      case RecordTerminal(_, usage, outcome) => TurnClosed(id, v, t, usage, outcome);
    }
  }

  /** From every state the store can hold, a successful transition is accepted by the validator
      exactly when there is room for the turn it prepares and its usage total is in bound. */
  lemma ValidatorAcceptsIffStorable(id: Identity, v: Capsule, op: Operation)
    requires CapsuleInv(id, v) && Perform(v, op).Ok?
    ensures Validates(id, Perform(v, op).value.0) <==> Storable(v, op)
    ensures OpenTurnsAreFresh(Perform(v, op).value.0)
  {
    hide Validates, OpenTurnsAreFresh, ClaimTurnStartStep, AcceptTurnStep, RequestCancellationStep,
         ClaimInterruptStep, ClaimSessionStartStep, AcceptSessionStep, ResetUnboundSessionStep, PrepareTurnStep,
         RecordUncertainInterruptStep, RecordUnmatchedStartStep, RecordTerminalStep;
    match op
    case PrepareTurn(input, freshTurnId) => PreparedTurnStorable(id, v, input, freshTurnId);
    case ClaimTurnStart(_) => StartOperationStorable(id, v, op);
    case AcceptTurn(_, _) => StartOperationStorable(id, v, op);
    case RequestCancellation(_) => CancelOperationStorable(id, v, op);
    case ClaimInterrupt(_) => CancelOperationStorable(id, v, op);
    case RecordUncertainInterrupt(_, _) => RecordOperationStorable(id, v, op);
    case RecordUnmatchedStart(_, _) => RecordOperationStorable(id, v, op);
    case RecordTerminal(_, _, _) => RecordOperationStorable(id, v, op);
    case _ => SessionOperationStorable(id, v, op);
  }

  lemma CreatedCapsuleIsValid(id: Identity, freshSessionId: Id)
    ensures CapsuleInv(id, CreateCapsule(id, freshSessionId))
  {
    assert ActiveKeys(CreateCapsule(id, freshSessionId)) == {};
  }

  // ---- The validator alone is not inductive --------------------------------------------

  /** A state the validator accepts although an open turn already reported usage. */
  function StrayUsageTurn(): StoredTurn {
    var session := SessionInput(1, 2, "workspace");
    var input := StartTurnInput(HostSessionRef(session, 3), 1, 4, 1, 1, 5);
    var t := StoredTurn(input, TurnDigest(input), 6, StartMaybeSent, None, BuildIntent(input), NotRequested, []);
    t.(events := [Accepted(HostTurn(t), 1), Usage(HostTurn(t), 2, Available(7, 7))])
  }

  function StrayUsageCapsule(): Capsule {
    var t := StrayUsageTurn();
    Capsule(9, t.input.session.input, SessionDigest(t.input.session.input), 3, SessionReady, Some(8),
            map[KeyOf(t.input) := t])
  }

  /** Validation by itself is not kept: closing that turn as unreported would take usage back. */
  lemma ValidatorAloneIsNotInductive()
    ensures var id := Identity(9, SessionInput(1, 2, "workspace"));
            var v := StrayUsageCapsule();
            var op := RecordUnmatchedStart(HostTurn(StrayUsageTurn()), StrayUsageTurn().input);
            Validates(id, v) && Perform(v, op).Ok? && !Validates(id, Perform(v, op).value.0)
  {
    var t, v := StrayUsageTurn(), StrayUsageCapsule();
    var op := RecordUnmatchedStart(HostTurn(t), t.input);
    UsageFolds(t, Available(7, 7));
    assert ActiveKeys(v) == {KeyOf(t.input)};
    assert TurnValidates(v, KeyOf(t.input), t);
    var closed := AppendTerminal(t, NOT_REPORTED, LOST_START);
    assert Perform(v, op).value.0 == WithTurn(v, closed);
    RegressionRefused(t);
    assert !TurnValidates(WithTurn(v, closed), KeyOf(t.input), closed);
    assert KeyOf(t.input) in WithTurn(v, closed).turns;
  }

  lemma RegressionRefused(t: StoredTurn)
    requires t == StrayUsageTurn()
    ensures !EventsConsistent(AppendTerminal(t, NOT_REPORTED, LOST_START))
  {
    var closed := AppendTerminal(t, NOT_REPORTED, LOST_START);
    UsageFolds(t, Available(7, 7));
    assert closed.events[..3] == t.events + [Usage(HostTurn(t), 3, NOT_REPORTED)];
    assert closed.events[..3][..2] == t.events;
    assert Fold(StoredCorrelation(t), DEFAULT_POLICY, closed.events[..3]).Err?;
    assert closed.events[..|closed.events| - 1] == closed.events[..3];
  }
}
