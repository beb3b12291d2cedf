/** The turn executor as it runs against the shared system: every await lets other drivers, the
    provider and crashes interfere, and every write or call may fail. */
module CapsuleExecutor {
  import opened Common
  import opened MissionTypes
  import opened HostStream
  import opened CapsuleState
  import opened CapsuleStore
  import opened CapsuleProofs
  import opened CapsuleNormalizer
  import opened CapsuleSystem
  import opened CapsuleTheorems
  import opened CapsuleLifecycle

  /** How a driver's call ended: returned, threw, lost its process, or is still watching the turn. */
  datatype Ended = Finished | Threw | Died | Watching

  datatype Inspection = Inspection(
    intent: Intent, threadId: Option<Id>, codexTurnId: Option<Id>, cancellationRequested: bool, terminal: bool)

  function InspectTurn(v: Capsule, ref: HostTurnRef, input: StartTurnInput): Result<Inspection, CapsuleError> {
    var found := TurnByRef(v, ref);
    if found.Err? then Err(found.error)
    else if !SameInput(found.value, input) then Err(Conflict)
    else
      var t := found.value;
      Ok(Inspection(t.intent, v.threadId, t.codexTurnId, !t.cancellation.NotRequested?, t.phase.TurnTerminal?))
  }

  predicate Terminal(v: Capsule, key: ExecutionKey) { key in v.turns && v.turns[key].phase.TurnTerminal? }

  /** What a generation's crash-free interval leaves a driver holding. */
  lemma {:induction false} NoCrashKeepsBindings(w: World, actions: seq<Action>)
    requires Crash !in actions
    ensures w.bindings <= Run(w, actions).bindings
  {
    hide Mutate, Permitted, Reconciled;
    if actions != [] { NoCrashKeepsBindings(w, actions[..|actions| - 1]); }
  }

  /** A provider call this driver was authorised to make and has not made yet. */
  datatype OwnCall = OwnStart(start: StartCall) | OwnInterrupt(interrupt: InterruptCall)

  predicate InHand(w: World, own: OwnCall) {
    match own
    case OwnStart(call) => call in w.starts
    case OwnInterrupt(call) => call in w.interrupts
  }

  /** The action makes or loses exactly this call, which only the driver that holds it can do. */
  predicate Uses(w: World, a: Action, own: OwnCall) {
    match own
    case OwnStart(call) => (a.SendStart? || a.LoseStart?) && a.call < |w.starts| && w.starts[a.call] == call
    case OwnInterrupt(call) =>
      (a.SendInterrupt? || a.LoseInterrupt?) && a.call < |w.interrupts| && w.interrupts[a.call] == call
  }

  lemma WithoutKeepsOthers<T>(s: seq<T>, i: nat, x: T)
    requires i < |s| && x in s && s[i] != x
    ensures x in Without(s, i)
  {
    var j :| 0 <= j < |s| && s[j] == x;
    assert Without(s, i)[if j < i then j else j - 1] == x;
  }

  lemma UnusedStaysInHand(w: World, a: Action, own: OwnCall)
    requires InHand(w, own) && !Uses(w, a, own) && !a.Crash?
    ensures InHand(Next(w, a), own) && w.bindings <= Next(w, a).bindings
  {
    hide Mutate, Permitted, Reconciled, Without;
    match own
    case OwnStart(call) =>
      if (a.SendStart? || a.LoseStart?) && a.call < |w.starts| { WithoutKeepsOthers(w.starts, a.call, call); }
    case OwnInterrupt(call) =>
      if (a.SendInterrupt? || a.LoseInterrupt?) && a.call < |w.interrupts| {
        WithoutKeepsOthers(w.interrupts, a.call, call);
      }
  }

  /** The turn is bound to a provider turn, or over. */
  predicate Settled(v: Capsule, key: ExecutionKey) {
    key in v.turns && (v.turns[key].codexTurnId.Some? || v.turns[key].phase.TurnTerminal?)
  }

  predicate CancelAsked(v: Capsule, key: ExecutionKey) { key in v.turns && !v.turns[key].cancellation.NotRequested? }

  /** The turn's interrupt has been handed out, or the turn is over. */
  predicate InterruptTaken(v: Capsule, key: ExecutionKey) {
    key in v.turns && (v.turns[key].cancellation.InterruptMaybeSent? || v.turns[key].phase.TurnTerminal?)
  }

  predicate Unbound(v: Capsule, key: ExecutionKey) { key in v.turns && v.turns[key].codexTurnId.None? }

  lemma AdvancesKeepTurn(v: Capsule, u: Capsule, key: ExecutionKey)
    requires CapsuleAdvances(v, u)
    ensures Terminal(v, key) ==> Terminal(u, key)
    ensures Claimed(v, key) ==> Claimed(u, key)
    ensures Settled(v, key) ==> Settled(u, key)
    ensures CancelAsked(v, key) ==> CancelAsked(u, key)
    ensures InterruptTaken(v, key) ==> InterruptTaken(u, key)
    ensures key in v.turns ==> key in u.turns && u.turns[key].input == v.turns[key].input
  {
    if key in v.turns { assert Advances(v.turns[key], u.turns[key]); }
  }

  /** What the store's replies tell a driver about the state behind them. */
  lemma RepliesTell(v: Capsule, op: Operation)
    requires Perform(v, op).Ok?
    ensures var (next, reply) := Perform(v, op).value;
            && (op.ClaimTurnStart? && reply.TurnClaimed? ==>
                  && KeyOf(op.input) in v.turns && v.turns[KeyOf(op.input)].input == op.input
                  && Claimed(next, KeyOf(op.input))
                  && (reply.claim.AlreadyAccepted? && reply.claim.terminal ==> Terminal(next, KeyOf(op.input))))
            && (op.RecordTerminal? || op.RecordUncertainInterrupt? || op.RecordUnmatchedStart? ==>
                  KeyOfRef(op.turn) in v.turns)
            && (op.ClaimTurnStart? ==> reply.TurnClaimed?) && (op.ClaimInterrupt? ==> reply.InterruptClaimed?)
            && (op.ClaimTurnStart? && reply.claim.Reconcile? ==> next == v)
            && (op.ClaimInterrupt? && reply.interrupt.InterruptTerminal? ==> Terminal(next, KeyOfRef(op.turn)))
            && (op.ClaimInterrupt? && reply.interrupt.AwaitingProvider? ==> Unbound(next, KeyOfRef(op.turn)))
            && (op.ClaimInterrupt? && !reply.interrupt.AwaitingProvider? ==> InterruptTaken(next, KeyOfRef(op.turn)))
            && (op.ClaimInterrupt? ==> TurnByRef(next, op.turn).Ok?)
            && (op.AcceptTurn? ==> Settled(next, KeyOf(op.input)))
            && (op.ClaimTurnStart? && reply.claim.AlreadyAccepted? && Consistent(v) ==> Settled(next, KeyOf(op.input)))
  {}

  lemma InspectionTells(v: Capsule, ref: HostTurnRef, input: StartTurnInput)
    requires InspectTurn(v, ref, input).Ok?
    ensures KeyOfRef(ref) == KeyOf(input) && KeyOf(input) in v.turns && v.turns[KeyOf(input)].input == input
    ensures InspectTurn(v, ref, input).value.terminal ==> Terminal(v, KeyOf(input))
    ensures InspectTurn(v, ref, input).value.codexTurnId == v.turns[KeyOf(input)].codexTurnId
    ensures InspectTurn(v, ref, input).value.cancellationRequested <==> CancelAsked(v, KeyOf(input))
  {}

  /** A settled turn that is still open is bound. */
  lemma OpenIsBound(v: Capsule, ref: HostTurnRef, input: StartTurnInput)
    requires InspectTurn(v, ref, input).Ok? && Settled(v, KeyOf(input)) && !InspectTurn(v, ref, input).value.terminal
    ensures InspectTurn(v, ref, input).value.codexTurnId.Some?
  {
    InspectionTells(v, ref, input);
  }

  lemma SettledIsTaken(v: Capsule, key: ExecutionKey)
    requires Settled(v, key) && (InterruptTaken(v, key) || Unbound(v, key))
    ensures InterruptTaken(v, key)
  {}

  lemma RecordingCloses(v: Capsule, op: Operation)
    requires Keyed(v) && Perform(v, op).Ok?
    requires op.RecordTerminal? || op.RecordUncertainInterrupt? || op.RecordUnmatchedStart?
    ensures Terminal(Perform(v, op).value.0, KeyOfRef(op.turn))
    ensures op.RecordTerminal? ==> Reports(Perform(v, op).value.0.turns[KeyOfRef(op.turn)], op.usage, op.outcome)
  {}

  lemma AdvancesKeepReference(v: Capsule, u: Capsule, ref: HostTurnRef)
    requires CapsuleAdvances(v, u) && TurnByRef(v, ref).Ok?
    ensures TurnByRef(u, ref).Ok? && TurnByRef(u, ref).value.input == TurnByRef(v, ref).value.input
  {
    assert Advances(v.turns[KeyOfRef(ref)], u.turns[KeyOfRef(ref)]);
  }

  /** A turn that goes by a reference goes on doing so, and by its own input. */
  lemma ReferenceStays(boot: World, before: seq<Action>, after: seq<Action>, ref: HostTurnRef)
    requires SystemInv(boot) && before <= after && TurnByRef(Run(boot, before).store.memory, ref).Ok?
    ensures var v := Run(boot, after).store.memory;
            && TurnByRef(v, ref).Ok?
            && TurnByRef(v, ref).value.input == TurnByRef(Run(boot, before).store.memory, ref).value.input
            && InspectTurn(v, ref, TurnByRef(v, ref).value.input).Ok?
  {
    hide Next, SystemInv, CapsuleAdvances, Run, TurnByRef;
    var rest := after[|before|..];
    assert before + rest == after;
    RunConcat(boot, before, rest);
    RunKeepsInv(boot, before);
    RunKeepsInv(boot, after);
    StateOnlyAdvances(Run(boot, before), rest);
    var v := Run(boot, after).store.memory;
    AdvancesKeepReference(Run(boot, before).store.memory, v, ref);
    ReferenceInspects(Run(boot, after), ref);
  }

  lemma ReferenceInspects(w: World, ref: HostTurnRef)
    requires SystemInv(w) && TurnByRef(w.store.memory, ref).Ok?
    ensures InspectTurn(w.store.memory, ref, TurnByRef(w.store.memory, ref).value.input).Ok?
  {
    hide OutsideInv, StartsBarred, ProviderBarred, InterruptsBarred, TurnsBound, CapsuleAdvances, Validates;
    ValidTurn(w.identity, w.store.memory, KeyOfRef(ref));
  }

  lemma StoredIsConsistent(boot: World, history: seq<Action>)
    requires SystemInv(boot)
    ensures Consistent(Run(boot, history).store.memory)
  {
    hide Run, Next, OutsideInv, StartsBarred, ProviderBarred, InterruptsBarred, TurnsBound, CapsuleAdvances, Consistent,
         CapsuleInv;
    RunKeepsInv(boot, history);
    ValidIsConsistent(Run(boot, history).identity, Run(boot, history).store.memory);
  }

  /** What any later point of the same history guarantees about an earlier one. */
  lemma Later(boot: World, before: seq<Action>, after: seq<Action>, key: ExecutionKey)
    requires SystemInv(boot) && before <= after
    ensures var w, u := Run(boot, before), Run(boot, after);
            && SystemInv(w) && SystemInv(u)
            && CapsuleAdvances(w.store.memory, u.store.memory)
            && (Quiet(w, key) ==> Quiet(u, key) && (key !in w.clients ==> key !in u.clients))
            && (Terminal(w.store.memory, key) ==> Terminal(u.store.memory, key))
            && (Claimed(w.store.memory, key) ==> Claimed(u.store.memory, key))
            && (Settled(w.store.memory, key) ==> Settled(u.store.memory, key))
            && (CancelAsked(w.store.memory, key) ==> CancelAsked(u.store.memory, key))
            && (InterruptTaken(w.store.memory, key) ==> InterruptTaken(u.store.memory, key))
            && (key in w.store.memory.turns ==>
                  key in u.store.memory.turns && u.store.memory.turns[key].input == w.store.memory.turns[key].input)
  {
    hide Next, SystemInv, Quiet, CapsuleAdvances, Run;
    var rest := after[|before|..];
    assert before + rest == after;
    RunConcat(boot, before, rest);
    RunKeepsInv(boot, before);
    RunKeepsInv(Run(boot, before), rest);
    StateOnlyAdvances(Run(boot, before), rest);
    if Quiet(Run(boot, before), key) { QuietStays(Run(boot, before), rest, key); }
    AdvancesKeepTurn(Run(boot, before).store.memory, Run(boot, after).store.memory, key);
  }

  /** Where a request is when its call ends. */
  datatype RequestFate = Received | Lost | InFlight

  /** The one system all drivers share; `history` records every action taken in it. */
  class SharedSystem {
    var world: World
    ghost var history: seq<Action>
    ghost const boot: World
    /** What went wrong so far: operations that failed, and deaths of a driver's process. */
    ghost var failures: nat
    ghost var deaths: nat

    constructor (id: Identity, freshSessionId: Id)
      ensures Valid() && world == Boot(id, freshSessionId)
    {
      world, history, boot := Boot(id, freshSessionId), [], Boot(id, freshSessionId);
      failures, deaths := 0, 0;
      new;
      hide SystemInv;
      BootInv(id, freshSessionId);
    }

    ghost predicate Valid()
      reads this
    {
      world == Run(boot, history) && SystemInv(boot)
    }

    /** A later moment: more happened, and no fewer things went wrong. */
    ghost predicate Since(before: seq<Action>, fails: nat, died: nat)
      reads this
    {
      before <= history && fails <= failures && died <= deaths
    }

    method Do(a: Action)
      requires Valid()
      modifies this
      ensures Valid() && history == old(history) + [a] && world == Next(old(world), a)
      ensures failures == old(failures) && deaths == old(deaths)
    {
      hide Next, SystemInv;
      world := Next(world, a);
      RunThen(boot, history, a);
      history := history + [a];
    }

    /** An await: others act until the driver resumes, unless its process died meanwhile. */
    method Await() returns (alive: bool)
      requires Valid()
      modifies this
      ensures Valid() && Since(old(history), old(failures), old(deaths)) && failures == old(failures)
      ensures if alive then old(world).bindings <= world.bindings && deaths == old(deaths) else deaths == old(deaths) + 1
    {
      hide Next, SystemInv, Run;
      var others: seq<Action> := *;
      RunConcat(boot, history, others);
      history := history + others;
      alive := Crash !in others;
      if alive { NoCrashKeepsBindings(world, others); }
      var w := world;
      RunNothing(world);
      for i := 0 to |others|
        modifies {}
        invariant w == Run(world, others[..i])
      {
        RunThen(world, others[..i], others[i]);
        assert others[..i + 1] == others[..i] + [others[i]];
        w := Next(w, others[i]);
      }
      assert others[..|others|] == others;
      world := w;
      if !alive { deaths := deaths + 1; }
    }

    /** An await between a claim and the call it authorised: others act, or the process dies, but while
        it lives nobody else has this driver's call. */
    method AwaitHolding(own: OwnCall) returns (alive: bool)
      requires Valid() && InHand(world, own)
      modifies this
      ensures Valid() && Since(old(history), old(failures), old(deaths)) && failures == old(failures)
      ensures if alive then InHand(world, own) && old(world).bindings <= world.bindings && deaths == old(deaths)
              else deaths == old(deaths) + 1
    {
      hide Next, SystemInv, Run, InHand, Uses;
      var others: seq<Action> := *;
      alive := true;
      for i := 0 to |others|
        invariant Valid() && old(history) <= history && failures == old(failures) && deaths == old(deaths)
        invariant alive ==> InHand(world, own) && old(world).bindings <= world.bindings
      {
        if !alive || others[i].Crash? {
          alive := false;
          Do(others[i]);
        } else if !Uses(world, others[i], own) {
          UnusedStaysInHand(world, others[i], own);
          Do(others[i]);
        }
      }
      if !alive { deaths := deaths + 1; }
    }

    /** One store operation; the write may fail or be torn. */
    method Transact(op: Operation) returns (r: Result<Reply, CapsuleError>)
      requires Valid() && Permitted(world, op)
      modifies this
      ensures Valid() && old(history) <= history && world.bindings == old(world).bindings && deaths == old(deaths)
      ensures failures == old(failures) + if r.Err? then 1 else 0
      ensures world.clients == old(world).clients
      ensures r.Ok? ==>
                && Perform(old(world).store.memory, op) == Ok((world.store.memory, r.value))
                && world == Authorise(old(world).(store := world.store), op, r)
    {
      hide SystemInv, Perform, Validates, Permitted, Run;
      var write: WriteOutcome := *;
      r := Mutate(world.identity, world.store, op, write).1;
      Do(Operate(op, write));
      if r.Err? { failures := failures + 1; }
    }

    /** The thread as the provider reports it, searched for one turn's intent: reading may fail on
        the wire, but what is read never conflicts. */
    method ReadMatchedTurn(key: ExecutionKey) returns (read: bool, turn: Option<CodexTurn>)
      requires Valid() && key in world.store.memory.turns
      modifies this
      ensures Valid() && old(history) <= history && deaths == old(deaths)
      ensures failures == old(failures) + if read then 0 else 1
      ensures world == old(world).(bindings := world.bindings) && old(world).bindings <= world.bindings
      ensures read && turn.None? ==> key !in world.clients
      ensures read && turn.Some? ==> Binding(world.store.memory.turns[key].input, turn.value.id) in world.bindings
    {
      hide SystemInv, Run, ProviderKept, ViewInv, Reconciled;
      read := *;
      if !read {
        failures := failures + 1;
        return false, None;
      }
      var intent := world.store.memory.turns[key].intent;
      RunKeepsInv(boot, history);
      InvOpens(world);
      ReconciliationIsExact(world, world.store.memory, key);
      var found := ReconcileCodexTurn(world.provider, intent);
      Do(ReadThread(key));
      turn := found.value;
    }

    /** The provider call a claim authorised. Only a call still authorised may be made. Whether it
        arrives now, never or only later, the client may see it fail. */
    method StartReadOnlyTurn(call: StartCall) returns (started: Option<Id>)
      requires Valid() && call in world.starts
      modifies this
      ensures Valid() && old(history) <= history && world.store == old(world).store && deaths == old(deaths)
      ensures failures == old(failures) + if started.Some? then 0 else 1
      ensures started.Some? ==> Binding(call.input, started.value) in world.bindings
    {
      hide SystemInv, Run, Without;
      var i :| 0 <= i < |world.starts| && world.starts[i] == call;
      var newTurnId: Id := *;
      var fate: RequestFate := *;
      var answered: bool := *;
      if fate.InFlight? {
        answered := false;
      } else if fate.Lost? || exists t <- world.provider :: t.id == newTurnId {
        Do(LoseStart(i));
        answered := false;
      } else {
        Do(SendStart(i, newTurnId));
      }
      if !answered { failures := failures + 1; }
      return if answered then Some(newTurnId) else None;
    }

    /** The one interrupt a claim authorised; it too may arrive although the call failed. */
    method InterruptTurn(call: InterruptCall) returns (answered: bool)
      requires Valid() && call in world.interrupts
      modifies this
      ensures Valid() && old(history) <= history && world.store == old(world).store && deaths == old(deaths)
      ensures failures == old(failures) + if answered then 0 else 1
      ensures answered ==> call in world.interrupted
    {
      hide SystemInv, Run, Without;
      var i :| 0 <= i < |world.interrupts| && world.interrupts[i] == call;
      var fate: RequestFate := *;
      answered := *;
      if fate.InFlight? {
        answered := false;
      } else if fate.Lost? {
        Do(LoseInterrupt(i));
        answered := false;
      } else {
        Do(SendInterrupt(i));
      }
      if !answered { failures := failures + 1; }
    }
  }

  // ---- The executor --------------------------------------------------------------------

  datatype ProviderEvent =
    | TokenUsage(threadId: Id, turnId: Id, inputTokens: nat, outputTokens: nat)
    | TurnCompleted(threadId: Id, turn: CodexTurn)
    | TurnStarted(threadId: Id, turnId: Id)

  datatype Observation = Event(event: ProviderEvent) | Timeout | StreamDone

  /** The notifications never end early, and report no turn as completed that is not finished. */
  predicate Orderly(observations: seq<Observation>) {
    forall o <- observations ::
      !o.StreamDone? && (o.Event? && o.event.TurnCompleted? ==> !o.event.turn.status.InProgress?)
  }

  /** The turn is over, reported with this usage and the outcome that the provider's turn normalises to. */
  predicate EndedAs(v: Capsule, key: ExecutionKey, turn: CodexTurn, usage: HostUsage) {
    && Terminal(v, key)
    && exists cancelled: bool ::
         var outcome := NormalizeTerminal(turn, cancelled);
         && outcome.Some? && Reports(v.turns[key], usage, outcome.value)
         && (cancelled ==> CancelAsked(v, key))
  }

  /** A notification about this turn of this thread. */
  predicate About(state: Inspection, threadId: Id, turnId: Id) {
    state.threadId == Some(threadId) && state.codexTurnId == Some(turnId)
  }

  /** The host's reference and input do not name one stored turn. */
  predicate Misaddressed(v: Capsule, ref: HostTurnRef, input: StartTurnInput) { InspectTurn(v, ref, input).Err? }

  class CodexTurnExecutor {
    const shared: SharedSystem
    const zeroMatchReads: nat
    /** Turns this generation sent an interrupt for; a barrier absent here predates it. */
    var interruptsIssued: set<Id>

    constructor (shared: SharedSystem, zeroMatchReads: nat)
      ensures this.shared == shared && this.zeroMatchReads == zeroMatchReads && interruptsIssued == {}
    {
      this.shared, this.zeroMatchReads, interruptsIssued := shared, zeroMatchReads, {};
    }

    /** Reduces a finished provider turn to its terminal record. */
    method Finalize(input: StartTurnInput, ref: HostTurnRef, turn: CodexTurn, usage: HostUsage) returns (e: Ended)
      requires shared.Valid()
      modifies shared
      ensures shared.Valid() && shared.Since(old(shared.history), old(shared.failures), old(shared.deaths))
      ensures e.Finished? ==> EndedAs(shared.world.store.memory, KeyOf(input), turn, usage)
      ensures e.Threw? ==>
                || shared.failures > old(shared.failures) || Misaddressed(shared.world.store.memory, ref, input)
                || turn.status.InProgress?
      ensures e.Died? ==> shared.deaths > old(shared.deaths)
      ensures !e.Watching?
    {
      hide Run, SystemInv, Perform;
      var alive := shared.Await();
      if !alive { return Died; }
      var state := InspectTurn(shared.world.store.memory, ref, input);
      if state.Err? { return Threw; }
      InspectionTells(shared.world.store.memory, ref, input);
      ghost var inspected := shared.history;
      var outcome := NormalizeTerminal(turn, state.value.cancellationRequested);
      if outcome.None? { return Threw; }
      alive := shared.Await();
      if !alive { return Died; }
      e := Record(RecordTerminal(ref, usage, outcome.value), KeyOf(input));
      Later(shared.boot, inspected, shared.history, KeyOf(input));
    }

    /** A store operation that closes the turn for `key`. */
    method Record(op: Operation, key: ExecutionKey) returns (e: Ended)
      requires op.RecordTerminal? || op.RecordUncertainInterrupt? || op.RecordUnmatchedStart?
      requires shared.Valid() && KeyOfRef(op.turn) == key
      modifies shared
      ensures shared.Valid() && shared.Since(old(shared.history), old(shared.failures), old(shared.deaths)) && shared.world.clients == old(shared.world).clients
      ensures if e.Finished? then Terminal(shared.world.store.memory, key)
              else e.Threw? && shared.failures > old(shared.failures)
      ensures e.Finished? && op.RecordTerminal? ==> Reports(shared.world.store.memory.turns[key], op.usage, op.outcome)
    {
      hide Run, SystemInv, Perform;
      ghost var v := shared.world.store.memory;
      StoredIsKeyed(shared.boot, shared.history);
      var r := shared.Transact(op);
      if r.Err? { return Threw; }
      RecordingCloses(v, op);
      return Finished;
    }

    /** Binds the turn a reading found and, when the provider is done with it, closes it. */
    method BindReconciled(input: StartTurnInput, ref: HostTurnRef, turn: CodexTurn) returns (e: Ended)
      requires shared.Valid() && Binding(input, turn.id) in shared.world.bindings
      modifies shared
      ensures shared.Valid() && shared.Since(old(shared.history), old(shared.failures), old(shared.deaths))
      ensures e.Finished? ==> Settled(shared.world.store.memory, KeyOf(input))
      ensures e.Finished? && !turn.status.InProgress? ==> Terminal(shared.world.store.memory, KeyOf(input))
      ensures e.Threw? ==> shared.failures > old(shared.failures) || Misaddressed(shared.world.store.memory, ref, input)
      ensures e.Died? ==> shared.deaths > old(shared.deaths)
      ensures !e.Watching?
    {
      hide Run, SystemInv, Perform;
      var alive := shared.Await();
      if !alive { return Died; }
      ghost var v := shared.world.store.memory;
      var r := shared.Transact(AcceptTurn(input, turn.id));
      if r.Err? { return Threw; }
      RepliesTell(v, AcceptTurn(input, turn.id));
      if turn.status.InProgress? { return Finished; }
      e := Finalize(input, ref, turn, NOT_REPORTED);
    }

    /** Looks for the turn once and then `zeroMatchReads` times more; only when every reading came
        back empty is the start recorded as lost, and then it is lost for good. */
    method ReconcileUnbound(input: StartTurnInput, ref: HostTurnRef) returns (e: Ended, lost: bool)
      requires shared.Valid() && Claimed(shared.world.store.memory, KeyOf(input)) && KeyOfRef(ref) == KeyOf(input)
      requires shared.world.store.memory.turns[KeyOf(input)].input == input
      modifies shared
      ensures shared.Valid() && shared.Since(old(shared.history), old(shared.failures), old(shared.deaths))
      ensures lost ==> e.Finished? && Terminal(shared.world.store.memory, KeyOf(input))
      ensures e.Finished? ==> Settled(shared.world.store.memory, KeyOf(input))
      ensures e.Threw? ==> shared.failures > old(shared.failures) || Misaddressed(shared.world.store.memory, ref, input)
      ensures e.Died? ==> shared.deaths > old(shared.deaths)
      ensures !e.Watching?
      ensures lost && Quiet(old(shared.world), KeyOf(input)) ==> LostStart(shared.world, KeyOf(input))
    {
      hide Run, SystemInv, Perform, Quiet;
      var key := KeyOf(input);
      ghost var start := shared.history;
      for attempt := 0 to zeroMatchReads + 1
        invariant shared.Valid() && shared.Since(start, old(shared.failures), old(shared.deaths))
        invariant attempt > 0 && Quiet(old(shared.world), key) ==> key !in shared.world.clients
      {
        ghost var before := shared.history;
        var alive := shared.Await();
        if !alive { return Died, false; }
        Later(shared.boot, start, shared.history, key);
        var read, turn := shared.ReadMatchedTurn(key);
        if !read { return Threw, false; }
        if turn.Some? {
          e := BindReconciled(input, ref, turn.value);
          return e, false;
        }
      }
      ghost var before := shared.history;
      Later(shared.boot, start, before, key);
      var alive := shared.Await();
      if !alive { return Died, false; }
      Later(shared.boot, before, shared.history, key);
      e := Record(RecordUnmatchedStart(ref, input), key);
      lost := e.Finished?;
      Later(shared.boot, start, shared.history, key);
    }

    /** Sends the turn's one interrupt, or settles an interrupt a former generation may have sent. */
    method PerformInterrupt(ref: HostTurnRef) returns (e: Ended)
      requires shared.Valid()
      modifies shared, this
      ensures shared.Valid() && shared.Since(old(shared.history), old(shared.failures), old(shared.deaths))
      ensures old(interruptsIssued) <= interruptsIssued <= old(interruptsIssued) + {ref.turnId}
      ensures e.Finished? ==>
                || Terminal(shared.world.store.memory, KeyOfRef(ref)) || ref.turnId in interruptsIssued
                || Unbound(shared.world.store.memory, KeyOfRef(ref))
      ensures e.Finished? ==>
                || InterruptTaken(shared.world.store.memory, KeyOfRef(ref))
                || Unbound(shared.world.store.memory, KeyOfRef(ref))
      ensures e.Threw? ==> shared.failures > old(shared.failures)
      ensures e.Died? ==> shared.deaths > old(shared.deaths)
      ensures !e.Watching?
    {
      hide Run, SystemInv, Perform;
      var alive := shared.Await();
      if !alive { return Died; }
      ghost var v := shared.world.store.memory;
      var r := shared.Transact(ClaimInterrupt(ref));
      if r.Err? { return Threw; }
      RepliesTell(v, ClaimInterrupt(ref));
      ghost var claimed := shared.history;
      match r.value.interrupt
      case InterruptSend(_, codexTurnId) =>
        interruptsIssued := interruptsIssued + {ref.turnId};
        var call := InterruptCall(KeyOfRef(ref), codexTurnId);
        alive := shared.AwaitHolding(OwnInterrupt(call));
        if !alive { return Died; }
        var sent := shared.InterruptTurn(call);
        Later(shared.boot, claimed, shared.history, KeyOfRef(ref));
        return if sent then Finished else Threw;
      case InterruptReconcile =>
        if ref.turnId in interruptsIssued { return Finished; }
        e := SettleInterrupt(ref);
      case _ => return Finished;
    }

    /** Closes a turn whose interrupt predates this generation, with the provider's result if it has one. */
    method SettleInterrupt(ref: HostTurnRef) returns (e: Ended)
      requires shared.Valid() && TurnByRef(shared.world.store.memory, ref).Ok?
      modifies shared
      ensures shared.Valid() && shared.Since(old(shared.history), old(shared.failures), old(shared.deaths))
      ensures e.Finished? ==> Terminal(shared.world.store.memory, KeyOfRef(ref))
      ensures e.Threw? ==> shared.failures > old(shared.failures)
      ensures e.Died? ==> shared.deaths > old(shared.deaths)
      ensures !e.Watching?
    {
      hide Run, SystemInv, Perform, TurnByRef, InspectTurn;
      ghost var start := shared.history;
      var alive := shared.Await();
      if !alive { return Died; }
      ReferenceStays(shared.boot, start, shared.history, ref);
      var found := TurnByRef(shared.world.store.memory, ref);
      if found.Err? { return Threw; }
      var input := found.value.input;
      alive := shared.Await();
      if !alive { return Died; }
      ReferenceStays(shared.boot, start, shared.history, ref);
      var state := InspectTurn(shared.world.store.memory, ref, input);
      if state.Err? { return Threw; }
      InspectionTells(shared.world.store.memory, ref, input);
      var read, turn := shared.ReadMatchedTurn(KeyOf(input));
      if !read { return Threw; }
      if turn.Some? {
        alive := shared.Await();
        if !alive { return Died; }
        var r := shared.Transact(AcceptTurn(input, turn.value.id));
        if r.Err? { return Threw; }
        if !turn.value.status.InProgress? {
          e := Finalize(input, ref, turn.value, NOT_REPORTED);
          ReferenceStays(shared.boot, start, shared.history, ref);
          return;
        }
      }
      alive := shared.Await();
      if !alive { return Died; }
      e := Record(RecordUncertainInterrupt(ref, input), KeyOf(input));
    }

    /** Folds one provider notification into the running usage, or closes the turn with it. */
    method ApplyProviderEvent(input: StartTurnInput, ref: HostTurnRef, event: ProviderEvent, usage: Option<HostUsage>)
      returns (e: Ended, latest: Option<HostUsage>, terminal: bool)
      requires shared.Valid()
      modifies shared
      ensures shared.Valid() && shared.Since(old(shared.history), old(shared.failures), old(shared.deaths))
      ensures e.Finished? && terminal ==>
                && event.TurnCompleted?
                && EndedAs(shared.world.store.memory, KeyOf(input), event.turn, if usage.Some? then usage.value else NOT_REPORTED)
      ensures e.Finished? && !terminal ==>
                var state := InspectTurn(shared.world.store.memory, ref, input);
                && state.Ok?
                && latest == (if event.TokenUsage? && About(state.value, event.threadId, event.turnId)
                              then Some(Available(event.inputTokens, event.outputTokens)) else usage)
                && (event.TurnCompleted? ==> !About(state.value, event.threadId, event.turn.id))
      ensures e.Threw? ==>
                || shared.failures > old(shared.failures) || Misaddressed(shared.world.store.memory, ref, input)
                || (event.TurnCompleted? && event.turn.status.InProgress?)
      ensures e.Died? ==> shared.deaths > old(shared.deaths)
      ensures !e.Watching?
    {
      hide Run, SystemInv, Perform;
      latest, terminal := usage, false;
      var alive := shared.Await();
      if !alive { return Died, latest, false; }
      var state := InspectTurn(shared.world.store.memory, ref, input);
      if state.Err? { return Threw, latest, false; }
      match event
      case TokenUsage(threadId, turnId, inputTokens, outputTokens) =>
        if About(state.value, threadId, turnId) {
          latest := Some(Available(inputTokens, outputTokens));
        }
        return Finished, latest, false;
      case TurnCompleted(threadId, turn) =>
        if !About(state.value, threadId, turn.id) {
          return Finished, latest, false;
        }
        e := Finalize(input, ref, turn, if usage.Some? then usage.value else NOT_REPORTED);
        terminal := true;
      case TurnStarted(_, _) => return Finished, latest, false;
    }

    /** Watches notifications and, when they pause, the thread itself, until the turn is closed. The
        driver stops where its observations do. */
    method WaitForTerminal(input: StartTurnInput, ref: HostTurnRef, observations: seq<Observation>) returns (e: Ended)
      requires shared.Valid()
      modifies shared
      ensures shared.Valid() && shared.Since(old(shared.history), old(shared.failures), old(shared.deaths))
      ensures e.Finished? ==> Terminal(shared.world.store.memory, KeyOf(input))
      ensures e.Threw? ==>
                || shared.failures > old(shared.failures) || Misaddressed(shared.world.store.memory, ref, input)
                || !Orderly(observations)
      ensures e.Died? ==> shared.deaths > old(shared.deaths)
      ensures e.Watching? ==> StreamDone !in observations
    {
      hide Run, SystemInv, Perform;
      var latestUsage: Option<HostUsage> := None;
      for i := 0 to |observations|
        invariant shared.Valid() && shared.Since(old(shared.history), old(shared.failures), old(shared.deaths))
        invariant StreamDone !in observations[..i]
      {
        assert observations[..i + 1] == observations[..i] + [observations[i]];
        var alive := shared.Await();
        if !alive { return Died; }
        var state := InspectTurn(shared.world.store.memory, ref, input);
        if state.Err? { return Threw; }
        InspectionTells(shared.world.store.memory, ref, input);
        if state.value.terminal { return Finished; }
        if observations[i].Event? {
          var closed: bool;
          e, latestUsage, closed := ApplyProviderEvent(input, ref, observations[i].event, latestUsage);
          if !e.Finished? || closed { return; }
        } else {
          var closed: bool;
          e, closed := PollThread(input, ref, latestUsage);
          if !e.Finished? || closed { return; }
          if observations[i].StreamDone? { return Threw; }
        }
      }
      assert observations[..|observations|] == observations;
      return Watching;
    }

    method PollThread(input: StartTurnInput, ref: HostTurnRef, usage: Option<HostUsage>) returns (e: Ended, closed: bool)
      requires shared.Valid() && KeyOf(input) in shared.world.store.memory.turns
      requires shared.world.store.memory.turns[KeyOf(input)].input == input
      modifies shared
      ensures shared.Valid() && shared.Since(old(shared.history), old(shared.failures), old(shared.deaths))
      ensures e.Finished? && closed ==> Terminal(shared.world.store.memory, KeyOf(input))
      ensures e.Threw? ==> shared.failures > old(shared.failures) || Misaddressed(shared.world.store.memory, ref, input)
      ensures e.Died? ==> shared.deaths > old(shared.deaths)
      ensures !e.Watching?
    {
      hide Run, SystemInv, Perform;
      var key := KeyOf(input);
      ghost var before := shared.history;
      var alive := shared.Await();
      if !alive { return Died, false; }
      Later(shared.boot, before, shared.history, key);
      var read, turn := shared.ReadMatchedTurn(key);
      if !read { return Threw, false; }
      if turn.None? { return Finished, false; }
      alive := shared.Await();
      if !alive { return Died, false; }
      var r := shared.Transact(AcceptTurn(input, turn.value.id));
      if r.Err? { return Threw, false; }
      if turn.value.status.InProgress? { return Finished, false; }
      closed := true;
      e := Finalize(input, ref, turn.value, if usage.Some? then usage.value else NOT_REPORTED);
    }

    /** Drives one turn to its end: claims its start, sends it or finds it again, interrupts it when
        asked to, and waits. It returns normally only with the turn durably terminal, and when it
        reported the start as lost the provider never had, and never will have, that turn. */
    method Execute(input: StartTurnInput, ref: HostTurnRef, observations: seq<Observation>)
      returns (e: Ended, lost: bool)
      requires shared.Valid() && KeyOfRef(ref) == KeyOf(input)
      modifies shared, this
      ensures shared.Valid() && shared.Since(old(shared.history), old(shared.failures), old(shared.deaths))
      ensures e.Finished? ==> Terminal(shared.world.store.memory, KeyOf(input))
      ensures e.Watching? ==> Settled(shared.world.store.memory, KeyOf(input))
      ensures e.Watching? && CancelAsked(old(shared.world.store.memory), KeyOf(input)) ==>
                InterruptTaken(shared.world.store.memory, KeyOf(input))
      ensures e.Threw? ==>
                || shared.failures > old(shared.failures) || Misaddressed(shared.world.store.memory, ref, input)
                || !Orderly(observations)
      ensures e.Died? ==> shared.deaths > old(shared.deaths)
      ensures lost && Quiet(old(shared.world), KeyOf(input)) ==> LostStart(shared.world, KeyOf(input))
    {
      hide Run, SystemInv, Perform, Quiet;
      var key := KeyOf(input);
      ghost var start := shared.history;
      var over: bool;
      e, lost, over := Begin(input, ref);
      if !e.Finished? || over { return; }
      ghost var settled := shared.history;
      Later(shared.boot, start, settled, key);
      e := Resume(input, ref, observations);
      Later(shared.boot, settled, shared.history, key);
    }

    /** The first half: the claim, and what it calls for. It leaves the turn bound or over. */
    method Begin(input: StartTurnInput, ref: HostTurnRef) returns (e: Ended, lost: bool, over: bool)
      requires shared.Valid() && KeyOfRef(ref) == KeyOf(input)
      modifies shared
      ensures shared.Valid() && shared.Since(old(shared.history), old(shared.failures), old(shared.deaths))
      ensures e.Finished? ==> Settled(shared.world.store.memory, KeyOf(input))
      ensures e.Finished? && over ==> Terminal(shared.world.store.memory, KeyOf(input))
      ensures e.Threw? ==> shared.failures > old(shared.failures) || Misaddressed(shared.world.store.memory, ref, input)
      ensures e.Died? ==> shared.deaths > old(shared.deaths)
      ensures !e.Watching?
      ensures lost ==> e.Finished?
      ensures lost && Quiet(old(shared.world), KeyOf(input)) ==> LostStart(shared.world, KeyOf(input))
    {
      hide Run, SystemInv, Perform, Quiet;
      var key := KeyOf(input);
      lost, over := false, false;
      ghost var start := shared.history;
      var alive := shared.Await();
      if !alive { return Died, false, false; }
      Later(shared.boot, start, shared.history, key);
      ghost var v := shared.world.store.memory;
      StoredIsConsistent(shared.boot, shared.history);
      var r := shared.Transact(ClaimTurnStart(input));
      if r.Err? { return Threw, false, false; }
      RepliesTell(v, ClaimTurnStart(input));
      Later(shared.boot, start, shared.history, key);
      match r.value.claim {
        case Send(intent) => e := StartAndBind(input, intent);
        case Reconcile(_) => e, lost := ReconcileUnbound(input, ref);
        case AlreadyAccepted(_, terminal) => return Finished, false, terminal;
      }
    }

    method StartAndBind(input: StartTurnInput, intent: Intent) returns (e: Ended)
      requires shared.Valid() && StartCall(input, intent) in shared.world.starts
      modifies shared
      ensures shared.Valid() && shared.Since(old(shared.history), old(shared.failures), old(shared.deaths))
      ensures e.Finished? ==> Settled(shared.world.store.memory, KeyOf(input))
      ensures e.Threw? ==> shared.failures > old(shared.failures)
      ensures e.Died? ==> shared.deaths > old(shared.deaths)
      ensures !e.Watching?
    {
      hide Run, SystemInv, Perform;
      var call := StartCall(input, intent);
      var alive := shared.AwaitHolding(OwnStart(call));
      if !alive { return Died; }
      var started := shared.StartReadOnlyTurn(call);
      if started.None? { return Threw; }
      alive := shared.Await();
      if !alive { return Died; }
      ghost var v := shared.world.store.memory;
      var bound := shared.Transact(AcceptTurn(input, started.value));
      if bound.Err? { return Threw; }
      RepliesTell(v, AcceptTurn(input, started.value));
      return Finished;
    }

    /** The second half of a run, once the turn is bound or closed: it never finds the turn unbound. */
    method Resume(input: StartTurnInput, ref: HostTurnRef, observations: seq<Observation>) returns (e: Ended)
      requires shared.Valid() && Settled(shared.world.store.memory, KeyOf(input))
      modifies shared, this
      ensures shared.Valid() && shared.Since(old(shared.history), old(shared.failures), old(shared.deaths))
      ensures e.Finished? ==> Terminal(shared.world.store.memory, KeyOf(input))
      ensures e.Watching? && CancelAsked(old(shared.world.store.memory), KeyOf(input)) ==>
                InterruptTaken(shared.world.store.memory, KeyOf(input))
      ensures e.Threw? ==>
                || shared.failures > old(shared.failures) || Misaddressed(shared.world.store.memory, ref, input)
                || !Orderly(observations)
      ensures e.Died? ==> shared.deaths > old(shared.deaths)
    {
      hide Run, SystemInv, Perform, Orderly, Settled, InterruptTaken, Unbound, InspectTurn;
      var key := KeyOf(input);
      ghost var start := shared.history;
      var alive := shared.Await();
      if !alive { return Died; }
      Later(shared.boot, start, shared.history, key);
      var state := InspectTurn(shared.world.store.memory, ref, input);
      if state.Err? { return Threw; }
      InspectionTells(shared.world.store.memory, ref, input);
      if state.value.terminal { return Finished; }
      OpenIsBound(shared.world.store.memory, ref, input);
      if state.value.codexTurnId.None? {
        assert false;
        return Threw;
      }
      ghost var inspected := shared.history;
      if state.value.cancellationRequested {
        e := PerformInterrupt(ref);
        if !e.Finished? { return; }
        Later(shared.boot, inspected, shared.history, key);
        SettledIsTaken(shared.world.store.memory, key);
      }
      ghost var waiting := shared.history;
      e := WaitForTerminal(input, ref, observations);
      Later(shared.boot, waiting, shared.history, key);
    }
  }

  lemma StoredIsKeyed(boot: World, history: seq<Action>)
    requires SystemInv(boot)
    ensures Keyed(Run(boot, history).store.memory)
  {
    hide Run, Validates, OutsideInv, Next;
    RunKeepsInv(boot, history);
    ValidIsKeyed(Run(boot, history).identity, Run(boot, history).store.memory);
  }
}
