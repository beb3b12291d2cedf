/** The life of a session and of a turn as small machines of stages: every store operation is
    exactly one of their steps, taken exactly when the machine allows it. */
module CapsuleLifecycle {
  import opened Common
  import opened HostStream
  import opened CapsuleState
  import opened CapsuleProofs

  // ---- Turns ---------------------------------------------------------------------------

  /** Where a turn stands. `bound` is the provider turn it is known to be. */
  datatype Stage =
    | Fresh
    | Sent
    | Running(codexTurnId: Id)
    | Stopping(bound: Option<Id>, interrupted: bool)
    | Ended(bound: Option<Id>, cancellation: Cancellation)

  function StageOf(t: StoredTurn): Stage
    requires PhaseConsistent(t)
  {
    match t.phase
    case Prepared => Fresh
    case StartMaybeSent => Sent
    case TurnAccepted => Running(t.codexTurnId.value)
    case Cancelling => Stopping(t.codexTurnId, t.cancellation.InterruptMaybeSent?)
    case TurnTerminal => Ended(t.codexTurnId, t.cancellation)
  }

  predicate TurnOperation(op: Operation) {
    !op.ClaimSessionStart? && !op.AcceptSession? && !op.ResetUnboundSession? && !op.PrepareTurn?
  }

  function KeyAddressed(op: Operation): ExecutionKey
    requires TurnOperation(op)
  {
    if op.ClaimTurnStart? || op.AcceptTurn? then KeyOf(op.input) else KeyOfRef(op.turn)
  }

  /** The operation names this turn by its whole input, by its host reference, or by both. */
  predicate Addresses(op: Operation, t: StoredTurn)
    requires TurnOperation(op)
  {
    && (op.ClaimTurnStart? || op.AcceptTurn? || op.RecordUncertainInterrupt? || op.RecordUnmatchedStart? ==>
          op.input == t.input)
    && (!op.ClaimTurnStart? && !op.AcceptTurn? ==> op.turn == HostTurn(t))
  }

  function AfterAccept(s: Stage, id: Id): Option<Stage> {
    match s
    case Fresh => None
    case Sent => Some(Running(id))
    case Running(known) => if id == known then Some(s) else None
    case Stopping(bound, interrupted) =>
      if bound.None? then Some(Stopping(Some(id), interrupted)) else if bound == Some(id) then Some(s) else None
    case Ended(bound, _) => if bound == Some(id) then Some(s) else None
  }

  function AfterCancel(s: Stage): Stage {
    match s
    case Fresh => Ended(None, Requested)
    case Sent => Stopping(None, false)
    case Running(known) => Stopping(Some(known), false)
    case _ => s
  }

  function AfterInterrupt(s: Stage): Option<Stage> {
    match s
    case Stopping(bound, interrupted) => Some(Stopping(bound, interrupted || bound.Some?))
    case Ended(_, _) => Some(s)
    case _ => None
  }

  function AfterLoss(s: Stage, sent: bool): Option<Stage> {
    match s
    case Sent => if sent then Some(Ended(None, NotRequested)) else None
    case Stopping(bound, interrupted) =>
      if sent then (if bound.None? then Some(Ended(None, Asked(interrupted))) else None)
      else if bound.Some? && interrupted then Some(Ended(bound, InterruptMaybeSent)) else None
    case Ended(_, _) => Some(s)
    case _ => None
  }

  function AfterReport(s: Stage, cancelled: bool): Option<Stage> {
    match s
    case Running(known) => if cancelled then None else Some(Ended(Some(known), NotRequested))
    case Stopping(bound, interrupted) => Some(Ended(bound, Asked(interrupted)))
    case Ended(_, _) => Some(s)
    case _ => None
  }

  /** Where an operation takes a turn; nowhere means it is refused. */
  function After(s: Stage, op: Operation): Option<Stage>
    requires TurnOperation(op)
  {
    match op
    case ClaimTurnStart(_) => Some(if s.Fresh? then Sent else s)
    case AcceptTurn(_, id) => AfterAccept(s, id)
    case RequestCancellation(_) => Some(AfterCancel(s))
    case ClaimInterrupt(_) => AfterInterrupt(s)
    case RecordUncertainInterrupt(_, _) => AfterLoss(s, false)
    case RecordUnmatchedStart(_, _) => AfterLoss(s, true)
    case RecordTerminal(_, _, outcome) => AfterReport(s, outcome.OutcomeCancelled?)
  }

  function Asked(interrupted: bool): Cancellation { if interrupted then InterruptMaybeSent else Requested }

  predicate EndsAs(e: HostEvent, turn: HostTurnRef, sequence: nat, outcome: TerminalOutcome) {
    match outcome
    case OutcomeCompleted(disposition) => e == HostCompleted(turn, sequence, disposition)
    case OutcomeFailed(class_, message) => e == HostFailed(turn, sequence, class_, message)
    case OutcomeCancelled => e == HostCancelled(turn, sequence)
  }

  /** The turn ends in this report. */
  predicate Reports(t: StoredTurn, usage: HostUsage, outcome: TerminalOutcome) {
    var n := |t.events|;
    && n >= 2 && t.events[n - 2].Usage? && t.events[n - 2].usage == usage
    && EndsAs(t.events[n - 1], HostTurn(t), t.events[n - 1].sequence, outcome)
  }

  function ReportedUsage(op: Operation): HostUsage { if op.RecordTerminal? then op.usage else NOT_REPORTED }

  /** What a turn that ends is reported as: a start or an interrupt whose fate is unknown is a
      transient failure, unless cancellation of the unstarted work was asked for. */
  function ReportedOutcome(s: Stage, op: Operation): TerminalOutcome
    requires TurnOperation(op)
  {
    match op
    case RecordTerminal(_, _, outcome) => outcome
    case RecordUncertainInterrupt(_, _) => LOST_INTERRUPT
    case _ => if s.Sent? then LOST_START else OutcomeCancelled
  }

  /** The operation is open to this turn. A finished turn only confirms the report it ended in. */
  predicate Takes(t: StoredTurn, op: Operation)
    requires TurnOperation(op) && PhaseConsistent(t)
  {
    && After(StageOf(t), op).Some?
    && (op.RecordTerminal? && t.phase.TurnTerminal? ==> Reports(t, op.usage, op.outcome))
  }

  /** `u` is `t` in its next stage, with the report appended when it ends and nothing else changed. */
  predicate Becomes(t: StoredTurn, op: Operation, u: StoredTurn)
    requires TurnOperation(op) && PhaseConsistent(t)
  {
    && PhaseConsistent(u) && Some(StageOf(u)) == After(StageOf(t), op)
    && u == t.(phase := u.phase, codexTurnId := u.codexTurnId, cancellation := u.cancellation, events := u.events)
    && if !t.phase.TurnTerminal? && u.phase.TurnTerminal? then
         && |u.events| == |t.events| + 2 && t.events <= u.events
         && u.events[|t.events|] == Usage(HostTurn(t), |t.events| + 1, ReportedUsage(op))
         && EndsAs(u.events[|t.events| + 1], HostTurn(t), |t.events| + 2, ReportedOutcome(StageOf(t), op))
       else u.events == t.events
  }

  function StartReply(s: Stage, input: StartTurnInput, turn: HostTurnRef): TurnClaim {
    match s
    case Fresh => Send(BuildIntent(input))
    case Sent => Reconcile(BuildIntent(input))
    case Stopping(None, _) => Reconcile(BuildIntent(input))
    case Ended(_, _) => AlreadyAccepted(turn, true)
    case _ => AlreadyAccepted(turn, false)
  }

  function InterruptReply(s: Stage, thread: Option<Id>): InterruptClaim {
    match s
    case Stopping(Some(codexTurnId), false) => InterruptSend(thread, codexTurnId)
    case Stopping(Some(_), true) => InterruptReconcile
    case Ended(_, _) => InterruptTerminal
    case _ => AwaitingProvider
  }

  /** The reply, decided by the stage before. */
  function ReplyTo(t: StoredTurn, op: Operation, thread: Option<Id>, events: seq<HostEvent>): Reply
    requires TurnOperation(op) && PhaseConsistent(t)
  {
    match op
    case ClaimTurnStart(input) => TurnClaimed(StartReply(StageOf(t), input, HostTurn(t)))
    case AcceptTurn(_, _) => TurnBound(HostTurn(t))
    case RequestCancellation(_) => Done
    case ClaimInterrupt(_) => InterruptClaimed(InterruptReply(StageOf(t), thread))
    case _ => TurnEvents(events)
  }

  predicate Stored(v: Capsule, op: Operation)
    requires TurnOperation(op)
  {
    var key := KeyAddressed(op);
    key in v.turns && PhaseConsistent(v.turns[key]) && Addresses(op, v.turns[key])
  }

  /** The operation is taken exactly when the turn it addresses is stored and takes it. */
  predicate TakenIff(v: Capsule, op: Operation)
    requires TurnOperation(op)
  {
    Perform(v, op).Ok? <==> Stored(v, op) && Takes(v.turns[KeyAddressed(op)], op)
  }

  /** Then exactly that turn moves, to its next stage. */
  predicate Moves(v: Capsule, op: Operation)
    requires TurnOperation(op)
  {
    Perform(v, op).Ok? && Stored(v, op) ==>
      var next, key := Perform(v, op).value.0, KeyAddressed(op);
      && key in next.turns && next == v.(turns := v.turns[key := next.turns[key]])
      && Becomes(v.turns[key], op, next.turns[key])
  }

  /** And the stage it was in decides the reply. */
  predicate Replies(v: Capsule, op: Operation)
    requires TurnOperation(op)
  {
    Perform(v, op).Ok? && Stored(v, op) ==>
      var (next, reply) := Perform(v, op).value;
      var key := KeyAddressed(op);
      key in next.turns && reply == ReplyTo(v.turns[key], op, v.threadId, next.turns[key].events)
  }

  predicate FollowsLifecycle(v: Capsule, op: Operation)
    requires TurnOperation(op)
  {
    TakenIff(v, op) && Moves(v, op) && Replies(v, op)
  }

  predicate WellAsked(op: Operation) { OperationParses(op) && (op.RecordTerminal? ==> OutcomeParses(op.outcome)) }

  predicate SoundTurn(v: Capsule, op: Operation)
    requires TurnOperation(op)
  {
    KeyAddressed(op) in v.turns ==>
      var t := v.turns[KeyAddressed(op)];
      && PhaseConsistent(t) && KeyOf(t.input) == KeyAddressed(op)
      && t.intent == BuildIntent(t.input) && t.digest == TurnDigest(t.input)
  }

  lemma ValidTurnIsSound(id: Identity, v: Capsule, op: Operation)
    requires Validates(id, v) && TurnOperation(op)
    ensures SoundTurn(v, op)
  {
    hide Validates, PhaseConsistent;
    if KeyAddressed(op) in v.turns { ValidTurn(id, v, KeyAddressed(op)); }
  }

  lemma StartClaimFollows(v: Capsule, op: Operation)
    requires op.ClaimTurnStart? && SoundTurn(v, op) && WellAsked(op)
    ensures FollowsLifecycle(v, op)
  {
    hide OutcomeParses, InputParses;
  }

  lemma InterruptClaimFollows(v: Capsule, op: Operation)
    requires op.ClaimInterrupt? && SoundTurn(v, op) && WellAsked(op)
    ensures FollowsLifecycle(v, op)
  {
    hide OutcomeParses, InputParses;
  }

  lemma AcceptanceFollows(v: Capsule, op: Operation)
    requires op.AcceptTurn? && SoundTurn(v, op) && WellAsked(op)
    ensures FollowsLifecycle(v, op)
  {
    hide OutcomeParses, InputParses;
  }

  lemma CancellationFollows(v: Capsule, op: Operation)
    requires op.RequestCancellation? && SoundTurn(v, op) && WellAsked(op)
    ensures FollowsLifecycle(v, op)
  {
    hide OutcomeParses, InputParses;
  }

  lemma LostInterruptFollows(v: Capsule, op: Operation)
    requires op.RecordUncertainInterrupt? && SoundTurn(v, op) && WellAsked(op)
    ensures FollowsLifecycle(v, op)
  {
    hide OutcomeParses, InputParses;
  }

  lemma LostStartFollows(v: Capsule, op: Operation)
    requires op.RecordUnmatchedStart? && SoundTurn(v, op) && WellAsked(op)
    ensures FollowsLifecycle(v, op)
  {
    hide OutcomeParses, InputParses;
  }

  lemma ReportFollows(v: Capsule, op: Operation)
    requires op.RecordTerminal? && SoundTurn(v, op) && WellAsked(op)
    ensures FollowsLifecycle(v, op)
  {
    hide OutcomeParses, InputParses;
  }

  /** From every state the validator accepts, every operation on a turn is a step of its life. */
  lemma TurnsFollowLifecycle(id: Identity, v: Capsule, op: Operation)
    requires Validates(id, v) && TurnOperation(op) && WellAsked(op)
    ensures FollowsLifecycle(v, op)
  {
    hide Validates, TakenIff, Moves, Replies, WellAsked, SoundTurn;
    ValidTurnIsSound(id, v, op);
    match op
    case ClaimTurnStart(_) => StartClaimFollows(v, op);
    case ClaimInterrupt(_) => InterruptClaimFollows(v, op);
    case AcceptTurn(_, _) => AcceptanceFollows(v, op);
    case RequestCancellation(_) => CancellationFollows(v, op);
    case RecordUncertainInterrupt(_, _) => LostInterruptFollows(v, op);
    case RecordUnmatchedStart(_, _) => LostStartFollows(v, op);
    case RecordTerminal(_, _, _) => ReportFollows(v, op);
  }

  // ---- Sessions and new turns ----------------------------------------------------------

  /** A session is claimed once, then bound once; a claim that never bound can be given back. */
  lemma SessionsFollowLifecycle(id: Identity, v: Capsule, threadId: Id)
    requires Validates(id, v)
    ensures var r := Perform(v, ClaimSessionStart);
            && r.Ok? && r.value.0 == (if v.sessionPhase.SessionPrepared? then v.(sessionPhase := SessionStartMaybeSent) else v)
            && r.value.1 == SessionClaimed(
                 match v.sessionPhase
                 case SessionPrepared => SendSession
                 case SessionStartMaybeSent => ReconcileSession
                 case SessionReady => SessionIsReady(HostSession(v), v.threadId))
    ensures var r := Perform(v, AcceptSession(threadId));
            && (r.Ok? <==> v.sessionPhase.SessionStartMaybeSent? || v.threadId == Some(threadId))
            && (r.Ok? ==> r.value == (v.(sessionPhase := SessionReady, threadId := Some(threadId)), SessionBound(HostSession(v))))
    ensures var r := Perform(v, ResetUnboundSession);
            && (r.Ok? <==> v.sessionPhase.SessionStartMaybeSent?)
            && (r.Ok? ==> r.value == (v.(sessionPhase := SessionPrepared), Done))
  {
    hide TurnValidates;
  }

  predicate Unchanged(v: Capsule, next: Capsule, key: ExecutionKey) {
    key in next.turns && next == v.(turns := v.turns[key := next.turns[key]])
  }

  /** A turn is prepared exactly for the bound session while no other is open; asked for again it is
      answered with the turn there is, and any other input under its key conflicts. */
  lemma PreparationFollowsLifecycle(id: Identity, v: Capsule, input: StartTurnInput, freshTurnId: Id)
    requires Validates(id, v) && InputParses(input)
    ensures var r, key := Perform(v, PrepareTurn(input, freshTurnId)), KeyOf(input);
            && (r.Ok? <==>
                  && v.threadId.Some? && input.session == HostSession(v)
                  && if key in v.turns then v.turns[key].input == input
                     else forall k <- v.turns :: v.turns[k].phase.TurnTerminal?)
            && (r.Ok? ==>
                  var next := r.value.0;
                  && Unchanged(v, next, key) && r.value.1 == TurnBound(HostTurn(next.turns[key]))
                  && if key in v.turns then next == v
                     else
                       var t := next.turns[key];
                       && t.input == input && t.digest == TurnDigest(input) && t.intent == BuildIntent(input)
                       && t.hostTurnId == freshTurnId && PhaseConsistent(t) && StageOf(t).Fresh?
                       && t.events == [Accepted(HostTurn(t), 1)])
  {
    hide EventsConsistent;
    if KeyOf(input) in v.turns {
      ValidTurn(id, v, KeyOf(input));
      assert v.turns[KeyOf(input) := v.turns[KeyOf(input)]] == v.turns;
    }
  }
}
