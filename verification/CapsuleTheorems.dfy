/** What holds of a Capsule over whole runs: operations by any number of drivers, torn and failed
    writes, crashes at any point, lost calls, and a provider making progress in between. */
module CapsuleTheorems {
  import opened Common
  import opened HostStream
  import opened CapsuleState
  import opened CapsuleStore
  import opened CapsuleProofs
  import opened CapsuleNormalizer
  import opened CapsuleSystem

  ghost function Reached(id: Identity, freshSessionId: Id, actions: seq<Action>): World {
    Run(Boot(id, freshSessionId), actions)
  }

  lemma ReachedInv(id: Identity, freshSessionId: Id, actions: seq<Action>)
    ensures SystemInv(Reached(id, freshSessionId, actions))
  {
    hide SystemInv, Run;
    BootInv(id, freshSessionId);
    RunKeepsInv(Boot(id, freshSessionId), actions);
  }

  /** At most once: over any run, the provider receives at most one start per execution key and at
      most one interrupt per turn, aimed at the turn it holds for that key; so no two of its turns
      share an id or a client message id. */
  lemma AtMostOneStartAndInterrupt(id: Identity, freshSessionId: Id, actions: seq<Action>)
    ensures var w := Reached(id, freshSessionId, actions);
            && Distinct(w.clients) && |w.clients| == |w.provider|
            && (forall i, j :: 0 <= i < j < |w.provider| ==> w.provider[i].id != w.provider[j].id)
            && (forall i :: 0 <= i < |w.provider| ==> KeptFor(w.provider[i], w.clients[i]))
            && (forall i, j :: 0 <= i < j < |w.interrupted| ==> w.interrupted[i].key != w.interrupted[j].key)
            && (forall c <- w.interrupted :: Holds(w.provider, w.clients, c.codexTurnId, c.key))
  {
    hide Run, ViewInv, CapsuleAdvances;
    ReachedInv(id, freshSessionId, actions);
  }

  /** In every reachable world the file can be opened again, and reading the thread for any stored
      turn is exact: no error, no second match, and a match exactly when its start was received. */
  lemma ReconciliationNeverFails(id: Identity, freshSessionId: Id, actions: seq<Action>, key: ExecutionKey)
    ensures var w := Reached(id, freshSessionId, actions);
            && Validates(id, w.store.disk)
            && (key in w.store.memory.turns ==>
                  var r := Reconciled(w.provider, w.store.memory.turns[key].intent);
                  && r.Ok? && (r.value.Some? <==> key in w.clients)
                  && (r.value.Some? ==> Holds(w.provider, w.clients, r.value.value.id, key)))
  {
    hide Run, ViewInv, CapsuleAdvances, Reconciled, Validates, Holds;
    var w := Reached(id, freshSessionId, actions);
    ReachedInv(id, freshSessionId, actions);
    IdentityKept(Boot(id, freshSessionId), actions);
    if key in w.store.memory.turns { ReconciliationIsExact(w, w.store.memory, key); }
    ViewsAreValid(w);
  }

  lemma ViewsAreValid(w: World)
    requires SystemInv(w)
    ensures CapsuleInv(w.identity, w.store.memory) && CapsuleInv(w.identity, w.store.disk)
  {}

  lemma {:induction false} IdentityKept(w: World, actions: seq<Action>)
    ensures Run(w, actions).identity == w.identity
  {
    hide Mutate, Permitted, Reconciled;
    if actions != [] { IdentityKept(w, actions[..|actions| - 1]); }
  }

  // ---- Nothing moves back --------------------------------------------------------------

  lemma MutateAdvances(w: World, op: Operation, write: WriteOutcome)
    requires SystemInv(w)
    ensures CapsuleAdvances(w.store.memory, Mutate(w.identity, w.store, op, write).0.memory)
  {
    hide Perform, Validates, OutsideInv, CapsuleAdvances, CapsuleInv, Consistent;
    AdvancesReflexive(w.store.memory);
    if Perform(w.store.memory, op).Ok? {
      ValidIsConsistent(w.identity, w.store.memory);
      TransitionsOnlyAdvance(w.store.memory, op);
    }
  }

  lemma NextAdvances(w: World, a: Action)
    requires SystemInv(w)
    ensures CapsuleAdvances(w.store.memory, Next(w, a).store.memory)
  {
    hide OutsideInv, ViewInv, CapsuleAdvances, Mutate, Permitted, Reconciled;
    AdvancesReflexive(w.store.memory);
    if a.Operate? { MutateAdvances(w, a.op, a.write); }
  }

  /** What the process can see only moves forward, across crashes and torn writes too: a bound
      thread or provider turn is never rebound, no turn or event disappears, terminal turns are
      frozen. What is on file is never behind what was visible. */
  lemma {:induction false} StateOnlyAdvances(w: World, actions: seq<Action>)
    requires SystemInv(w)
    ensures CapsuleAdvances(w.store.memory, Run(w, actions).store.memory)
    ensures CapsuleAdvances(w.store.memory, Run(w, actions).store.disk)
  {
    hide Next, CapsuleAdvances, OutsideInv, ViewInv;
    RunKeepsInv(w, actions);
    if actions == [] {
      AdvancesReflexive(w.store.memory);
    } else {
      var before := actions[..|actions| - 1];
      StateOnlyAdvances(w, before);
      RunKeepsInv(w, before);
      NextAdvances(Run(w, before), actions[|actions| - 1]);
      AdvancesTransitive(w.store.memory, Run(w, before).store.memory, Run(w, actions).store.memory);
    }
    AdvancesTransitive(w.store.memory, Run(w, actions).store.memory, Run(w, actions).store.disk);
  }

  /** What an operation acknowledged survives every later crash. */
  lemma AcknowledgedIsDurable(id: Identity, freshSessionId: Id, before: seq<Action>, op: Operation, write: WriteOutcome,
                              after: seq<Action>)
    requires var w := Reached(id, freshSessionId, before);
             Permitted(w, op) && Mutate(w.identity, w.store, op, write).1.Ok?
    ensures var w := Reached(id, freshSessionId, before);
            var next := Perform(w.store.memory, op).value.0;
            var later := Run(Next(w, Operate(op, write)), after);
            CapsuleAdvances(next, later.store.memory) && CapsuleAdvances(next, later.store.disk)
  {
    hide Run, SystemInv, CapsuleAdvances, Perform, Validates, Permitted;
    var w := Reached(id, freshSessionId, before);
    ReachedInv(id, freshSessionId, before);
    NextKeepsInv(w, Operate(op, write));
    StateOnlyAdvances(Next(w, Operate(op, write)), after);
  }

  /** The provider forgets nothing and renames nothing. */
  lemma {:induction false} ProviderOnlyGrows(w: World, actions: seq<Action>)
    requires SystemInv(w)
    ensures var u := Run(w, actions);
            && |w.provider| <= |u.provider| && w.clients <= u.clients
            && forall i :: 0 <= i < |w.provider| ==> u.provider[i].id == w.provider[i].id
  {
    hide Mutate, Permitted, Reconciled, SystemInv;
    if actions != [] { ProviderOnlyGrows(w, actions[..|actions| - 1]); }
  }

  lemma OneTurnPerKey(provider: seq<CodexTurn>, clients: seq<ExecutionKey>, id1: Id, id2: Id, key: ExecutionKey)
    requires ProviderKept(provider, clients) && Holds(provider, clients, id1, key) && Holds(provider, clients, id2, key)
    ensures id1 == id2
  {
    hide KeptFor;
  }

  ghost predicate Binds(w: World, key: ExecutionKey, codexTurnId: Id) {
    || (key in w.store.memory.turns && w.store.memory.turns[key].codexTurnId == Some(codexTurnId))
    || (key in w.store.disk.turns && w.store.disk.turns[key].codexTurnId == Some(codexTurnId))
    || (exists b <- w.bindings :: KeyOf(b.input) == key && b.codexTurnId == codexTurnId)
    || (exists c <- w.interrupted :: c.key == key && c.codexTurnId == codexTurnId)
  }

  lemma BindsWhatIsHeld(w: World, key: ExecutionKey, codexTurnId: Id)
    requires SystemInv(w) && Binds(w, key, codexTurnId)
    ensures Holds(w.provider, w.clients, codexTurnId, key)
  {
    hide CapsuleAdvances, CapsuleInv, ProviderKept, ProviderBarred, StartsBarred, StartsDistinct, InterruptsBarred,
         InterruptsDistinct, Holds;
  }

  /** Whoever names a provider turn for an execution key, in memory, on file, in a driver or in an
      interrupt, before or after any number of crashes, names the same one. */
  lemma BindingIsForever(id: Identity, freshSessionId: Id, before: seq<Action>, after: seq<Action>,
                         key: ExecutionKey, id1: Id, id2: Id)
    requires var w := Reached(id, freshSessionId, before); Binds(w, key, id1) && Binds(Run(w, after), key, id2)
    ensures id1 == id2
  {
    hide Run, Binds, ViewInv, CapsuleAdvances, Holds, ProviderKept;
    var w := Reached(id, freshSessionId, before);
    ReachedInv(id, freshSessionId, before);
    RunKeepsInv(w, after);
    var u := Run(w, after);
    BindsWhatIsHeld(w, key, id1);
    BindsWhatIsHeld(u, key, id2);
    ProviderOnlyGrows(w, after);
    SameLengths(w.provider, w.clients);
    HoldsGrows(w, u);
    OneTurnPerKey(u.provider, u.clients, id1, id2, key);
  }

  // ---- A lost start stays lost ---------------------------------------------------------

  /** The claim on the turn's start has been consumed. */
  predicate Claimed(v: Capsule, key: ExecutionKey) { key in v.turns && !v.turns[key].phase.Prepared? }

  /** ... and no start for it is in flight. */
  predicate Quiet(w: World, key: ExecutionKey) {
    && Claimed(w.store.memory, key)
    && forall c <- w.starts :: KeyOf(c.input) != key
  }

  /** ... and the provider holds nothing for it. */
  predicate LostStart(w: World, key: ExecutionKey) { Quiet(w, key) && key !in w.clients }

  lemma SendNeedsPrepared(v: Capsule, op: Operation)
    requires Perform(v, op).Ok? && op.ClaimTurnStart?
    requires Perform(v, op).value.1.TurnClaimed? && Perform(v, op).value.1.claim.Send?
    ensures KeyOf(op.input) in v.turns && v.turns[KeyOf(op.input)].phase.Prepared?
  {}

  /** An operation authorises no start for a turn whose claim was already consumed. */
  lemma OperationSendsNothing(w: World, op: Operation, write: WriteOutcome, key: ExecutionKey)
    requires Quiet(w, key)
    ensures var u := Next(w, Operate(op, write));
            u.clients == w.clients && forall c <- u.starts :: KeyOf(c.input) != key
  {
    hide Perform, Validates, Permitted;
    var u := Next(w, Operate(op, write));
    if u.starts != w.starts {
      SendNeedsPrepared(w.store.memory, op);
      assert forall c <- u.starts :: c in w.starts || c.input == op.input;
    }
  }

  lemma NextKeepsQuiet(w: World, a: Action, key: ExecutionKey)
    requires SystemInv(w) && Quiet(w, key)
    ensures Quiet(Next(w, a), key) && (key !in w.clients ==> key !in Next(w, a).clients)
  {
    var u := Next(w, a);
    assert key in u.store.memory.turns && !u.store.memory.turns[key].phase.Prepared? by {
      hide Next, ViewInv, OutsideInv;
      NextAdvances(w, a);
      assert Advances(w.store.memory.turns[key], u.store.memory.turns[key]);
    }
    hide Mutate, Authorise, ViewInv, CapsuleAdvances, Permitted, Reconciled, Without, ProviderKept, InterruptsDistinct,
         BindingsHeld, InterruptsHeld;
    if a.Operate? {
      OperationSendsNothing(w, a.op, a.write, key);
    } else if (a.SendStart? || a.LoseStart?) && a.call < |w.starts| {
      WithoutKeeps(w.starts, a.call);
      assert w.starts[a.call].intent.clientMessageId != key;
    }
  }

  lemma {:induction false} QuietStays(w: World, actions: seq<Action>, key: ExecutionKey)
    requires SystemInv(w) && Quiet(w, key)
    ensures Quiet(Run(w, actions), key) && (key !in w.clients ==> key !in Run(w, actions).clients)
  {
    hide Next, SystemInv, Quiet;
    if actions != [] {
      QuietStays(w, actions[..|actions| - 1], key);
      RunKeepsInv(w, actions[..|actions| - 1]);
      NextKeepsQuiet(Run(w, actions[..|actions| - 1]), actions[|actions| - 1], key);
    }
  }

  /** Reporting a start as lost is never contradicted later: once its claim was consumed with
      nothing in flight and nothing at the provider, no later run makes the provider start it. */
  lemma LostStartStaysLost(w: World, actions: seq<Action>, key: ExecutionKey)
    requires SystemInv(w) && LostStart(w, key)
    ensures LostStart(Run(w, actions), key)
  {
    hide Run, SystemInv, Quiet;
    QuietStays(w, actions, key);
  }

  /** After a crash, one reading of the thread that finds no turn settles the matter for good. */
  lemma CrashThenEmptyReadIsFinal(id: Identity, freshSessionId: Id, before: seq<Action>, after: seq<Action>,
                                  key: ExecutionKey)
    requires var w := Next(Reached(id, freshSessionId, before), Crash);
             && key in w.store.memory.turns && !w.store.memory.turns[key].phase.Prepared?
             && Reconciled(w.provider, w.store.memory.turns[key].intent) == Ok(None)
    ensures key !in Run(Next(Reached(id, freshSessionId, before), Crash), after).clients
  {
    hide Run, SystemInv, Reconciled, Reached, ProviderKept, ViewInv;
    ReachedInv(id, freshSessionId, before);
    NextKeepsInv(Reached(id, freshSessionId, before), Crash);
    var w := Next(Reached(id, freshSessionId, before), Crash);
    InvOpens(w);
    ReconciliationIsExact(w, w.store.memory, key);
    LostStartStaysLost(w, after, key);
  }

  lemma InvOpens(w: World)
    requires SystemInv(w)
    ensures ProviderKept(w.provider, w.clients) && ViewInv(w, w.store.memory)
  {}

  // ---- A start can be lost -------------------------------------------------------------

  /** A written operation the validator takes, spelled out. */
  lemma WrittenResult(w: World, op: Operation)
    requires SystemInv(w) && Permitted(w, op) && Perform(w.store.memory, op).Ok? && Storable(w.store.memory, op)
    ensures var (next, reply) := Perform(w.store.memory, op).value;
            Next(w, Operate(op, Written)) == Authorise(w.(store := Store(next, next)), op, Ok(reply))
    ensures SystemInv(Next(w, Operate(op, Written)))
  {
    hide Perform, Validates, OpenTurnsAreFresh, OutsideInv, CapsuleAdvances, Storable, Permitted, Authorise,
         StartsBarred, ProviderBarred, InterruptsBarred, TurnsBound;
    ValidatorAcceptsIffStorable(w.identity, w.store.memory, op);
    NextKeepsInv(w, Operate(op, Written));
  }

  function SampleSession(): SessionInput { SessionInput(1, 2, "workspace") }

  function SampleInput(): StartTurnInput { StartTurnInput(HostSessionRef(SampleSession(), 3), 1, 4, 1, 1, 5) }

  function SampleActions(): seq<Action> {
    [Operate(ClaimSessionStart, Written), Operate(AcceptSession(8), Written),
     Operate(PrepareTurn(SampleInput(), 6), Written), Operate(ClaimTurnStart(SampleInput()), Written), Crash]
  }

  lemma RunOfFive(w: World, a: Action, b: Action, c: Action, d: Action, e: Action)
    ensures Run(w, [a, b, c, d, e]) == Next(Next(Next(Next(Next(w, a), b), c), d), e)
  {
    hide Next, Run;
    RunNothing(w);
    RunThen(w, [], a);
    RunThen(w, [a], b);
    RunThen(w, [a, b], c);
    RunThen(w, [a, b, c], d);
    RunThen(w, [a, b, c, d], e);
    assert [] + [a] == [a] && [a] + [b] == [a, b] && [a, b] + [c] == [a, b, c];
    assert [a, b, c] + [d] == [a, b, c, d] && [a, b, c, d] + [e] == [a, b, c, d, e];
  }

  lemma CrashLosesClaimed(w: World, key: ExecutionKey)
    requires Claimed(w.store.disk, key) && key !in w.clients
    ensures LostStart(Next(w, Crash), key)
  {}

  /** A run that ends that way: the process dies between the claim and the call. */
  lemma StartsCanBeLost()
    ensures LostStart(Reached(Identity(9, SampleSession()), 3, SampleActions()), KeyOf(SampleInput()))
  {
    hide Next, SystemInv, LostStart, Claimed, Boot;
    var id, input, all := Identity(9, SampleSession()), SampleInput(), SampleActions();
    var w0 := Boot(id, 3);
    BootInv(id, 3);
    var ready := SessionIsBound(w0);
    BootedSession(id);
    PrepareThenClaim(ready, input);
    var claimed := Next(Next(ready, all[2]), all[3]);
    CrashLosesClaimed(claimed, KeyOf(input));
    RunOfFive(w0, all[0], all[1], all[2], all[3], all[4]);
  }

  lemma BootedSession(id: Identity)
    ensures var v := Boot(id, 3).store.memory; v.turns == map[] && HostSession(v) == HostSessionRef(id.session, 3)
  {}

  lemma SessionIsBound(w0: World) returns (ready: World)
    requires w0 == Boot(Identity(9, SampleSession()), 3) && SystemInv(w0)
    ensures ready == Next(Next(w0, Operate(ClaimSessionStart, Written)), Operate(AcceptSession(8), Written))
    ensures SystemInv(ready) && ready.clients == [] && ready.starts == []
    ensures ready.store.memory == w0.store.memory.(sessionPhase := SessionReady, threadId := Some(8))
  {
    hide SystemInv;
    WrittenResult(w0, ClaimSessionStart);
    var sent := Next(w0, Operate(ClaimSessionStart, Written));
    assert sent.store.memory == w0.store.memory.(sessionPhase := SessionStartMaybeSent);
    WrittenResult(sent, AcceptSession(8));
    ready := Next(sent, Operate(AcceptSession(8), Written));
  }

  lemma TurnIsPrepared(ready: World, input: StartTurnInput) returns (prepared: World)
    requires SystemInv(ready) && ready.clients == [] && ready.starts == []
    requires ready.store.memory.sessionPhase.SessionReady? && ready.store.memory.turns == map[]
    requires InputParses(input) && input.session == HostSession(ready.store.memory)
    ensures prepared == Next(ready, Operate(PrepareTurn(input, 6), Written))
    ensures SystemInv(prepared) && prepared.clients == [] && TurnByInput(prepared.store.memory, input).Ok?
    ensures TurnByInput(prepared.store.memory, input).value.phase.Prepared?
  {
    hide SystemInv;
    WrittenResult(ready, PrepareTurn(input, 6));
    prepared := Next(ready, Operate(PrepareTurn(input, 6), Written));
  }

  lemma PrepareThenClaim(ready: World, input: StartTurnInput)
    requires SystemInv(ready) && ready.clients == [] && ready.starts == []
    requires ready.store.memory.sessionPhase.SessionReady? && ready.store.memory.turns == map[]
    requires InputParses(input) && input.session == HostSession(ready.store.memory)
    ensures var claimed := Next(Next(ready, Operate(PrepareTurn(input, 6), Written)),
                                Operate(ClaimTurnStart(input), Written));
            Claimed(claimed.store.disk, KeyOf(input)) && claimed.clients == []
  {
    hide SystemInv, Next, PrepareTurnStep, InputParses;
    var prepared := TurnIsPrepared(ready, input);
    FoundByInput(prepared.store.memory, input);
    hide HostSession;
    ClaimIsOk(prepared.store.memory, input);
    hide Perform;
    WrittenResult(prepared, ClaimTurnStart(input));
  }

  lemma ClaimIsOk(v: Capsule, input: StartTurnInput)
    requires InputParses(input) && TurnByInput(v, input).Ok? && TurnByInput(v, input).value.phase.Prepared?
    ensures Perform(v, ClaimTurnStart(input)).Ok?
    ensures Claimed(Perform(v, ClaimTurnStart(input)).value.0, KeyOf(input))
  {}
}
