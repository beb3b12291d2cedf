/** The Capsule store: transitions that update the state object in place, the validator's loops,
    and `mutate`, which clones, updates, validates, persists and only then publishes. */
module CapsuleStore {
  import opened Common
  import opened HostStream
  import opened CapsuleState

  /** Event validation as the store runs it. */
  method CheckTurnEvents(t: StoredTurn) returns (ok: bool)
    ensures ok == EventsConsistent(t)
  {
    var stream := CreateStream(StoredCorrelation(t));
    for i := 0 to |t.events|
      invariant Fold(StoredCorrelation(t), DEFAULT_POLICY, t.events[..i]) == Ok(stream)
    {
      hide AcceptHostEvent;
      assert t.events[..i + 1][..i] == t.events[..i];
      var next := AcceptEvent(stream, t.events[i], DEFAULT_POLICY);
      if next.Err? {
        FoldStops(t, i + 1);
        return false;
      }
      stream := next.value;
    }
    assert t.events[..|t.events|] == t.events;
    return t.events != [] && (t.phase.TurnTerminal? <==> stream.phase.Closed?);
  }

  lemma {:induction false} FoldStops(t: StoredTurn, k: nat)
    requires k <= |t.events| && Fold(StoredCorrelation(t), DEFAULT_POLICY, t.events[..k]).Err?
    ensures Fold(StoredCorrelation(t), DEFAULT_POLICY, t.events).Err?
    decreases |t.events|
  {
    hide AcceptHostEvent;
    if k < |t.events| {
      var shorter := t.(events := t.events[..|t.events| - 1]);
      assert shorter.events[..k] == t.events[..k];
      FoldStops(shorter, k);
    } else {
      assert t.events[..k] == t.events;
    }
  }

  ghost function ActiveAmong(v: Capsule, keys: set<ExecutionKey>): set<ExecutionKey>
    requires keys <= v.turns.Keys
  {
    set k <- keys | !v.turns[k].phase.TurnTerminal?
  }

  lemma ActiveAdd(v: Capsule, keys: set<ExecutionKey>, key: ExecutionKey)
    requires keys <= v.turns.Keys && key in v.turns && key !in keys
    ensures |ActiveAmong(v, keys + {key})|
         == |ActiveAmong(v, keys)| + if v.turns[key].phase.TurnTerminal? then 0 else 1
  {
    if v.turns[key].phase.TurnTerminal? {
      assert ActiveAmong(v, keys + {key}) == ActiveAmong(v, keys);
    } else {
      assert ActiveAmong(v, keys + {key}) == ActiveAmong(v, keys) + {key};
    }
  }

  /** The pass over the turns: each must validate, and the active ones are counted. */
  method ValidateTurns(v: Capsule) returns (ok: bool, activeTurns: nat)
    ensures ok == forall k <- v.turns :: TurnValidates(v, k, v.turns[k])
    ensures ok ==> activeTurns == |ActiveKeys(v)|
  {
    hide TurnValidates, ActiveAmong;
    activeTurns := 0;
    var rest := v.turns.Keys;
    ghost var seen: set<ExecutionKey> := {};
    assert |ActiveAmong(v, {})| == 0 by { NoneActive(v); }
    while rest != {}
      invariant seen + rest == v.turns.Keys && seen !! rest
      invariant forall k <- seen :: TurnValidates(v, k, v.turns[k])
      invariant activeTurns == |ActiveAmong(v, seen)|
      decreases |rest|
    {
      var key :| key in rest;
      var valid := ValidateTurn(v, key);
      if !valid { return false, 0; }
      ActiveAdd(v, seen, key);
      if !v.turns[key].phase.TurnTerminal? { activeTurns := activeTurns + 1; }
      seen, rest := seen + {key}, rest - {key};
    }
    assert seen == v.turns.Keys;
    AllActive(v);
    return true, activeTurns;
  }

  lemma NoneActive(v: Capsule)
    ensures ActiveAmong(v, {}) == {}
  {}

  lemma AllActive(v: Capsule)
    ensures ActiveAmong(v, v.turns.Keys) == ActiveKeys(v)
  {}

  method Validate(id: Identity, v: Capsule) returns (ok: bool)
    ensures ok == Validates(id, v)
  {
    hide TurnValidates, ActiveKeys;
    if |v.turns| > MAX_STORED_TURNS || v.capsuleId != id.capsuleId || v.session != id.session {
      return false;
    }
    if v.sessionDigest != SessionDigest(v.session) || v.sessionPhase.SessionReady? != v.threadId.Some? {
      return false;
    }
    var valid, activeTurns := ValidateTurns(v);
    if !valid || activeTurns > 1 { return false; }
    return v.sessionPhase.SessionReady? || v.turns == map[];
  }

  method ValidateTurn(v: Capsule, key: ExecutionKey) returns (ok: bool)
    requires key in v.turns
    ensures ok == TurnValidates(v, key, v.turns[key])
  {
    hide EventsConsistent;
    var t := v.turns[key];
    var events := CheckTurnEvents(t);
    return InputParses(t.input) && key == KeyOf(t.input) && t.digest == TurnDigest(t.input)
        && t.input.session == HostSession(v) && t.intent == BuildIntent(t.input) && PhaseConsistent(t) && events;
  }

  /** The clone a mutator works on. */
  class CapsuleObject {
    var sessionPhase: SessionPhase
    var threadId: Option<Id>
    var turns: map<ExecutionKey, StoredTurn>
    const identity: Identity
    const sessionDigest: Digest
    const hostSessionId: Id

    constructor (v: Capsule)
      ensures View() == v
    {
      sessionPhase, threadId, turns := v.sessionPhase, v.threadId, v.turns;
      identity, sessionDigest, hostSessionId := Identity(v.capsuleId, v.session), v.sessionDigest, v.hostSessionId;
    }

    function View(): Capsule
      reads this
    {
      Capsule(identity.capsuleId, identity.session, sessionDigest, hostSessionId, sessionPhase, threadId, turns)
    }

    /** What a step promises of the object and of the reply. */
    ghost predicate Did(before: Capsule, step: Step, r: Result<Reply, CapsuleError>)
      reads this
    {
      match step
      case Ok((v, reply)) => View() == v && r == Ok(reply)
      case Err(e) => View() == before && r == Err(e)
    }

    method ClaimSessionStart() returns (r: Result<Reply, CapsuleError>)
      modifies this
      ensures Did(old(View()), ClaimSessionStartStep(old(View())), r)
    {
      if sessionPhase.SessionReady? { return Ok(SessionClaimed(SessionIsReady(HostSession(View()), threadId))); }
      if sessionPhase.SessionStartMaybeSent? { return Ok(SessionClaimed(ReconcileSession)); }
      sessionPhase := SessionStartMaybeSent;
      return Ok(SessionClaimed(SendSession));
    }

    method AcceptSession(newThread: Id) returns (r: Result<Reply, CapsuleError>)
      modifies this
      ensures Did(old(View()), AcceptSessionStep(old(View()), newThread), r)
    {
      if sessionPhase.SessionReady? {
        if threadId != Some(newThread) { return Err(Conflict); }
        return Ok(SessionBound(HostSession(View())));
      }
      if !sessionPhase.SessionStartMaybeSent? { return Err(Conflict); }
      sessionPhase := SessionReady;
      threadId := Some(newThread);
      return Ok(SessionBound(HostSession(View())));
    }

    method ResetUnboundSession() returns (r: Result<Reply, CapsuleError>)
      modifies this
      ensures Did(old(View()), ResetUnboundSessionStep(old(View())), r)
    {
      if !sessionPhase.SessionStartMaybeSent? || threadId.Some? { return Err(Conflict); }
      if turns != map[] { return Err(Conflict); }
      sessionPhase := SessionPrepared;
      return Ok(Done);
    }

    method PrepareTurn(input: StartTurnInput, freshTurnId: Id) returns (r: Result<Reply, CapsuleError>)
      modifies this
      ensures Did(old(View()), PrepareTurnStep(old(View()), input, freshTurnId), r)
    {
      if !sessionPhase.SessionReady? { return Err(ScopeMismatch); }
      if input.session != HostSession(View()) { return Err(ScopeMismatch); }
      var key := KeyOf(input);
      if key in turns {
        if !SameInput(turns[key], input) { return Err(Conflict); }
        return Ok(TurnBound(HostTurn(turns[key])));
      }
      if exists k <- turns :: !turns[k].phase.TurnTerminal? { return Err(Conflict); }
      var t := StoredTurn(input, TurnDigest(input), freshTurnId, Prepared, None, BuildIntent(input), NotRequested, []);
      t := t.(events := t.events + [Accepted(HostTurn(t), 1)]);
      assert t.events == [Accepted(HostTurn(t), 1)];
      turns := turns[key := t];
      return Ok(TurnBound(HostTurn(t)));
    }

    method ClaimTurnStart(input: StartTurnInput) returns (r: Result<Reply, CapsuleError>)
      modifies this
      ensures Did(old(View()), ClaimTurnStartStep(old(View()), input), r)
    {
      var found := TurnByInput(View(), input);
      if found.Err? { return Err(found.error); }
      var t := found.value;
      if t.phase.Prepared? {
        turns := turns[KeyOf(t.input) := t.(phase := StartMaybeSent)];
        return Ok(TurnClaimed(Send(t.intent)));
      }
      if t.phase.StartMaybeSent? || (t.phase.Cancelling? && t.codexTurnId.None?) {
        return Ok(TurnClaimed(Reconcile(t.intent)));
      }
      return Ok(TurnClaimed(AlreadyAccepted(HostTurn(t), t.phase.TurnTerminal?)));
    }

    method AcceptTurn(input: StartTurnInput, codexTurnId: Id) returns (r: Result<Reply, CapsuleError>)
      modifies this
      ensures Did(old(View()), AcceptTurnStep(old(View()), input, codexTurnId), r)
    {
      var found := TurnByInput(View(), input);
      if found.Err? { return Err(found.error); }
      var t := found.value;
      if t.codexTurnId.Some? {
        if t.codexTurnId != Some(codexTurnId) { return Err(Conflict); }
        return Ok(TurnBound(HostTurn(t)));
      }
      if !t.phase.StartMaybeSent? && !t.phase.Cancelling? { return Err(Conflict); }
      t := t.(codexTurnId := Some(codexTurnId));
      if t.phase.StartMaybeSent? { t := t.(phase := TurnAccepted); }
      turns := turns[KeyOf(t.input) := t];
      return Ok(TurnBound(HostTurn(t)));
    }

    method RequestCancellation(turn: HostTurnRef) returns (r: Result<Reply, CapsuleError>)
      modifies this
      ensures Did(old(View()), RequestCancellationStep(old(View()), turn), r)
    {
      var found := TurnByRef(View(), turn);
      if found.Err? { return Err(found.error); }
      var t := found.value;
      if t.phase.TurnTerminal? || t.phase.Cancelling? { return Ok(Done); }
      if t.phase.Prepared? {
        t := AppendTerminal(t.(cancellation := Requested), NOT_REPORTED, OutcomeCancelled);
      } else {
        t := t.(phase := Cancelling, cancellation := Requested);
      }
      turns := turns[KeyOf(t.input) := t];
      return Ok(Done);
    }

    method ClaimInterrupt(turn: HostTurnRef) returns (r: Result<Reply, CapsuleError>)
      modifies this
      ensures Did(old(View()), ClaimInterruptStep(old(View()), turn), r)
    {
      var found := TurnByRef(View(), turn);
      if found.Err? { return Err(found.error); }
      var t := found.value;
      if t.phase.TurnTerminal? { return Ok(InterruptClaimed(InterruptTerminal)); }
      if !t.phase.Cancelling? { return Err(Conflict); }
      if t.codexTurnId.None? { return Ok(InterruptClaimed(AwaitingProvider)); }
      if t.cancellation.InterruptMaybeSent? { return Ok(InterruptClaimed(InterruptReconcile)); }
      t := t.(cancellation := InterruptMaybeSent);
      turns := turns[KeyOf(t.input) := t];
      return Ok(InterruptClaimed(InterruptSend(threadId, t.codexTurnId.value)));
    }

    method RecordUncertainInterrupt(turn: HostTurnRef, input: StartTurnInput) returns (r: Result<Reply, CapsuleError>)
      modifies this
      ensures Did(old(View()), RecordUncertainInterruptStep(old(View()), turn, input), r)
    {
      var found := TurnByRef(View(), turn);
      if found.Err? { return Err(found.error); }
      var t := found.value;
      if !SameInput(t, input) { return Err(Conflict); }
      if t.phase.TurnTerminal? { return Ok(TurnEvents(t.events)); }
      if !t.phase.Cancelling? || !t.cancellation.InterruptMaybeSent? || t.codexTurnId.None? { return Err(Conflict); }
      t := AppendTerminal(t, NOT_REPORTED, LOST_INTERRUPT);
      turns := turns[KeyOf(t.input) := t];
      return Ok(TurnEvents(t.events));
    }

    method RecordUnmatchedStart(turn: HostTurnRef, input: StartTurnInput) returns (r: Result<Reply, CapsuleError>)
      modifies this
      ensures Did(old(View()), RecordUnmatchedStartStep(old(View()), turn, input), r)
    {
      var found := TurnByRef(View(), turn);
      if found.Err? { return Err(found.error); }
      var t := found.value;
      if !SameInput(t, input) { return Err(Conflict); }
      if t.phase.TurnTerminal? { return Ok(TurnEvents(t.events)); }
      if (!t.phase.StartMaybeSent? && !t.phase.Cancelling?) || t.codexTurnId.Some? { return Err(Conflict); }
      t := AppendTerminal(t, NOT_REPORTED,
                          if t.cancellation.NotRequested? then LOST_START else OutcomeCancelled);
      turns := turns[KeyOf(t.input) := t];
      return Ok(TurnEvents(t.events));
    }

    method RecordTerminal(turn: HostTurnRef, usage: HostUsage, outcome: TerminalOutcome)
      returns (r: Result<Reply, CapsuleError>)
      modifies this
      ensures Did(old(View()), RecordTerminalStep(old(View()), turn, usage, outcome), r)
    {
      if !OutcomeParses(outcome) { return Err(Malformed); }
      var found := TurnByRef(View(), turn);
      if found.Err? { return Err(found.error); }
      var t := found.value;
      if t.phase.TurnTerminal? {
        var replay := ReplayTerminal(View(), t, usage, outcome);
        if replay.Err? { return Err(replay.error); }
        return Ok(replay.value.1);
      }
      if outcome.OutcomeCancelled? && !t.phase.Cancelling? { return Err(Conflict); }
      if !t.phase.TurnAccepted? && !t.phase.Cancelling? { return Err(Conflict); }
      t := AppendTerminal(t, usage, outcome);
      turns := turns[KeyOf(t.input) := t];
      return Ok(TurnEvents(t.events));
    }

    method Run(op: Operation) returns (r: Result<Reply, CapsuleError>)
      modifies this
      ensures Did(old(View()), Perform(old(View()), op), r)
    {
      hide ClaimSessionStartStep, AcceptSessionStep, ResetUnboundSessionStep, PrepareTurnStep, ClaimTurnStartStep,
           AcceptTurnStep, RequestCancellationStep, ClaimInterruptStep, RecordUncertainInterruptStep,
           RecordUnmatchedStartStep, RecordTerminalStep;
      if !OperationParses(op) { return Err(Malformed); }
      match op {
        case ClaimSessionStart => r := ClaimSessionStart();
        case AcceptSession(newThread) => r := AcceptSession(newThread);
        case ResetUnboundSession => r := ResetUnboundSession();
        case PrepareTurn(input, freshTurnId) => r := PrepareTurn(input, freshTurnId);
        case ClaimTurnStart(input) => r := ClaimTurnStart(input);
        case AcceptTurn(input, codexTurnId) => r := AcceptTurn(input, codexTurnId);
        case RequestCancellation(turn) => r := RequestCancellation(turn);
        case ClaimInterrupt(turn) => r := ClaimInterrupt(turn);
        case RecordUncertainInterrupt(turn, input) => r := RecordUncertainInterrupt(turn, input);
        case RecordUnmatchedStart(turn, input) => r := RecordUnmatchedStart(turn, input);
        case RecordTerminal(turn, usage, outcome) => r := RecordTerminal(turn, usage, outcome);
      }
    }
  }

  /** How a durable write may go: done, not done, or done although an error was reported. */
  datatype WriteOutcome = Written | NotWritten | WrittenButFailed

  /** What `mutate` leaves in memory and on disk, and what it returns. */
  datatype Store = Store(memory: Capsule, disk: Capsule)

  function Mutate(id: Identity, s: Store, op: Operation, write: WriteOutcome): (Store, Result<Reply, CapsuleError>) {
    match Perform(s.memory, op)
    case Err(e) => (s, Err(e))
    case Ok((next, reply)) =>
      if !Validates(id, next) then (s, Err(Rejected))
      else
        match write
        case Written => (Store(next, next), Ok(reply))
        case NotWritten => (s, Err(WriteFailed))
        case WrittenButFailed => (Store(s.memory, next), Err(WriteFailed))
  }

  /** One process's store over the state file. A crash discards it; `open` reads the file again. */
  class CodexCapsuleStore {
    const identity: Identity
    var state: Capsule
    var file: Capsule

    constructor Open(id: Identity, stored: Capsule)
      requires Validates(id, stored)
      ensures identity == id && state == stored && file == stored
    {
      identity, state, file := id, stored, stored;
    }

    method mutate(op: Operation, write: WriteOutcome) returns (r: Result<Reply, CapsuleError>)
      modifies this
      ensures (Store(state, file), r) == Mutate(identity, old(Store(state, file)), op, write)
    {
      hide Perform, Validates;
      var next := new CapsuleObject(state);
      r := next.Run(op);
      if r.Err? { return; }
      var validated := next.View();
      var valid := Validate(identity, validated);
      if !valid { return Err(Rejected); }
      if write.NotWritten? { return Err(WriteFailed); }
      file := validated;
      if write.WrittenButFailed? { return Err(WriteFailed); }
      state := validated;
    }
  }
}
