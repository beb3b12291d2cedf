/** What can still happen to a Capsule: exactly when a start, or an interrupt, can still reach the
    provider, and that every session can be bound and every turn started and ended. */
module CapsuleLiveness {
  import opened Common
  import opened HostStream
  import opened CapsuleState
  import opened CapsuleStore
  import opened CapsuleProofs
  import opened CapsuleNormalizer
  import opened CapsuleSystem
  import opened CapsuleTheorems
  import opened CapsuleLifecycle

  ghost predicate InStage(w: World, key: ExecutionKey, s: Stage) {
    && key in w.store.memory.turns && PhaseConsistent(w.store.memory.turns[key])
    && StageOf(w.store.memory.turns[key]) == s
  }

  lemma StoredIsConsistent(w: World, key: ExecutionKey)
    requires SystemInv(w) && key in w.store.memory.turns
    ensures var t := w.store.memory.turns[key];
            && PhaseConsistent(t) && KeyOf(t.input) == key && KeyOfRef(HostTurn(t)) == key && InputParses(t.input)
            && Validates(w.identity, w.store.memory)
  {
    hide OutsideInv, StartsBarred, ProviderBarred, InterruptsBarred, TurnsBound, PhaseConsistent, EventsConsistent,
         OpenTurnsAreFresh, CapsuleAdvances;
    assert TurnValidates(w.store.memory, key, w.store.memory.turns[key]);
  }

  /** The operation may be asked for and its turn takes it. */
  ghost predicate Askable(w: World, op: Operation) {
    && TurnOperation(op) && WellAsked(op) && Permitted(w, op) && Storable(w.store.memory, op)
    && Stored(w.store.memory, op) && Takes(w.store.memory.turns[KeyAddressed(op)], op)
  }

  /** That turn is in its next stage; a claim answered with "send" has authorised its call; nothing
      outside the store has changed. */
  ghost predicate Moved(w: World, op: Operation, u: World)
    requires TurnOperation(op) && Stored(w.store.memory, op)
  {
    var key := KeyAddressed(op);
    var t := w.store.memory.turns[key];
    && Unchanged(w.store.memory, u.store.memory, key) && Becomes(t, op, u.store.memory.turns[key])
    && u.provider == w.provider && u.clients == w.clients && u.bindings == w.bindings
    && u.interrupted == w.interrupted
    && u.starts == w.starts
         + (if op.ClaimTurnStart? && StageOf(t).Fresh? then [StartCall(op.input, BuildIntent(op.input))] else [])
    && u.interrupts == w.interrupts
         + match StageOf(t)
           case Stopping(Some(id), false) => if op.ClaimInterrupt? then [InterruptCall(key, id)] else []
           case _ => []
  }

  lemma WrittenMoves(w: World, op: Operation)
    requires SystemInv(w) && Askable(w, op)
    ensures SystemInv(Next(w, Operate(op, Written))) && Moved(w, op, Next(w, Operate(op, Written)))
  {
    hide OutsideInv, StartsBarred, ProviderBarred, InterruptsBarred, TurnsBound, CapsuleAdvances, OpenTurnsAreFresh;
    hide Perform, Validates, Permitted, Storable, Next, Becomes, Takes, WellAsked, PhaseConsistent;
    TurnsFollowLifecycle(w.identity, w.store.memory, op);
    WrittenResult(w, op);
    hide SystemInv, ViewInv;
  }

  // ---- Steps of a driver ---------------------------------------------------------------

  lemma CanClaim(w: World, key: ExecutionKey) returns (u: World, a: Action)
    requires SystemInv(w) && InStage(w, key, Fresh)
    ensures u == Next(w, a) && SystemInv(u) && InStage(u, key, Sent)
    ensures exists c <- u.starts :: KeyOf(c.input) == key
  {
    hide SystemInv, Next, Validates, EventsConsistent, Mutate;
    StoredIsConsistent(w, key);
    var t := w.store.memory.turns[key];
    var op := ClaimTurnStart(t.input);
    a := Operate(op, Written);
    u := Next(w, a);
    WrittenMoves(w, op);
    assert StartCall(t.input, BuildIntent(t.input)) in u.starts;
  }

  lemma FreshTurnId(provider: seq<CodexTurn>) returns (id: Id)
    ensures forall t <- provider :: t.id != id
  {
    id := FreshId(set t <- provider :: t.id);
  }

  lemma CanDeliver(w: World, key: ExecutionKey, call: StartCall) returns (u: World, a: Action)
    requires SystemInv(w) && call in w.starts && KeyOf(call.input) == key
    ensures u == Next(w, a) && SystemInv(u) && u.store == w.store && key in u.clients
  {
    hide ViewInv, CapsuleAdvances, ProviderKept, InterruptsDistinct, BindingsHeld, InterruptsHeld;
    var i :| 0 <= i < |w.starts| && w.starts[i] == call;
    var id := FreshTurnId(w.provider);
    a := SendStart(i, id);
    u := Next(w, a);
    hide SystemInv, Next;
    NextKeepsInv(w, a);
  }

  lemma CanRead(w: World, key: ExecutionKey) returns (u: World, a: Action, id: Id)
    requires SystemInv(w) && key in w.store.memory.turns && key in w.clients
    ensures u == Next(w, a) && SystemInv(u) && u.store == w.store && key in u.clients
    ensures Binding(w.store.memory.turns[key].input, id) in u.bindings
  {
    hide SystemInv, ProviderKept, ViewInv, Reconciled;
    a := ReadThread(key);
    u := Next(w, a);
    InvOpens(w);
    ReconciliationIsExact(w, w.store.memory, key);
    id := Reconciled(w.provider, w.store.memory.turns[key].intent).value.value.id;
    NextKeepsInv(w, a);
  }

  lemma CanBind(w: World, key: ExecutionKey, id: Id) returns (u: World, a: Action)
    requires SystemInv(w) && key in w.store.memory.turns
    requires Binding(w.store.memory.turns[key].input, id) in w.bindings
    requires InStage(w, key, Sent) || InStage(w, key, Stopping(None, false))
    ensures u == Next(w, a) && SystemInv(u)
    ensures InStage(u, key, if InStage(w, key, Sent) then Running(id) else Stopping(Some(id), false))
  {
    hide SystemInv, Next, Validates, EventsConsistent, Mutate;
    StoredIsConsistent(w, key);
    var op := AcceptTurn(w.store.memory.turns[key].input, id);
    a := Operate(op, Written);
    u := Next(w, a);
    WrittenMoves(w, op);
  }

  lemma CanCancel(w: World, key: ExecutionKey, s: Stage) returns (u: World, a: Action)
    requires SystemInv(w) && InStage(w, key, s)
    ensures u == Next(w, a) && SystemInv(u) && InStage(u, key, AfterCancel(s))
    ensures Unchanged(w.store.memory, u.store.memory, key)
  {
    hide SystemInv, Next, Validates, EventsConsistent, Mutate;
    StoredIsConsistent(w, key);
    var op := RequestCancellation(HostTurn(w.store.memory.turns[key]));
    a := Operate(op, Written);
    u := Next(w, a);
    WrittenMoves(w, op);
  }

  lemma CanClaimInterrupt(w: World, key: ExecutionKey, id: Id) returns (u: World, a: Action)
    requires SystemInv(w) && InStage(w, key, Stopping(Some(id), false))
    ensures u == Next(w, a) && SystemInv(u) && InterruptCall(key, id) in u.interrupts
  {
    hide SystemInv, Next, Validates, EventsConsistent, Mutate;
    StoredIsConsistent(w, key);
    var op := ClaimInterrupt(HostTurn(w.store.memory.turns[key]));
    a := Operate(op, Written);
    u := Next(w, a);
    WrittenMoves(w, op);
  }

  lemma CanDeliverInterrupt(w: World, call: InterruptCall) returns (u: World, a: Action)
    requires SystemInv(w) && call in w.interrupts
    ensures u == Next(w, a) && SystemInv(u) && call in u.interrupted
  {
    hide SystemInv;
    var i :| 0 <= i < |w.interrupts| && w.interrupts[i] == call;
    a := SendInterrupt(i);
    u := Next(w, a);
    NextKeepsInv(w, a);
  }

  lemma RunOne(w: World, a: Action)
    ensures Run(w, [a]) == Next(w, a)
  {
    RunNothing(w);
    RunThen(w, [], a);
    assert [] + [a] == [a];
  }

  lemma RunFirst(w: World, a: Action, more: seq<Action>)
    ensures Run(w, [a] + more) == Run(Next(w, a), more)
  {
    RunOne(w, a);
    RunConcat(w, [a], more);
  }

  // ---- Starts --------------------------------------------------------------------------

  /** A start for this turn was received, is in flight, or has not been claimed yet. */
  predicate StartPossible(w: World, key: ExecutionKey)
    requires key in w.store.memory.turns
  {
    key in w.clients || w.store.memory.turns[key].phase.Prepared? || exists c <- w.starts :: KeyOf(c.input) == key
  }

  lemma ReachStart(w: World, key: ExecutionKey) returns (more: seq<Action>)
    requires SystemInv(w) && key in w.store.memory.turns && StartPossible(w, key)
    ensures var u := Run(w, more);
            && SystemInv(u) && key in u.clients && key in u.store.memory.turns
            && StageNow(u, key) == if StageNow(w, key).Fresh? then Sent else StageNow(w, key)
  {
    hide SystemInv, Next, Run;
    StoredIsConsistent(w, key);
    if key in w.clients {
      more := [];
      RunNothing(w);
      FreshMeansNoClient(w, key);
    } else {
      var x, first := w, [];
      RunNothing(w);
      if w.store.memory.turns[key].phase.Prepared? {
        var a;
        x, a := CanClaim(w, key);
        first := [a];
        RunOne(w, a);
      }
      var call :| call in x.starts && KeyOf(call.input) == key;
      var u, b := CanDeliver(x, key, call);
      more := first + [b];
      RunThen(w, first, b);
      StoredIsConsistent(x, key);
      if !w.store.memory.turns[key].phase.Prepared? { assert x == w; }
    }
  }

  lemma FreshMeansNoClient(w: World, key: ExecutionKey)
    requires SystemInv(w) && key in w.store.memory.turns && key in w.clients
    ensures !w.store.memory.turns[key].phase.Prepared?
  {
    hide OutsideInv, ViewInv, CapsuleAdvances;
    if w.store.memory.turns[key].phase.Prepared? { PreparedMeansUnstarted(w, w.store.memory, key); }
  }

  /** The stage of a stored turn, where it has one. */
  ghost function StageNow(w: World, key: ExecutionKey): Stage
    requires key in w.store.memory.turns
  {
    if PhaseConsistent(w.store.memory.turns[key]) then StageOf(w.store.memory.turns[key]) else Fresh
  }

  /** From every world ever reached, a stored turn can be the provider's in some continuation exactly
      when its start was received, is in flight, or has not been claimed: a claim hands out the one
      start there is, and nothing else ever does. */
  lemma StartPossibleIff(id: Identity, freshSessionId: Id, before: seq<Action>, key: ExecutionKey)
    requires key in Reached(id, freshSessionId, before).store.memory.turns
    ensures var w := Reached(id, freshSessionId, before);
            StartPossible(w, key) <==> exists more :: key in Run(w, more).clients
  {
    hide SystemInv, Run;
    var w := Reached(id, freshSessionId, before);
    ReachedInv(id, freshSessionId, before);
    if StartPossible(w, key) {
      var more := ReachStart(w, key);
    } else {
      forall more ensures key !in Run(w, more).clients { LostStartStaysLost(w, more, key); }
    }
  }

  // ---- Interrupts ----------------------------------------------------------------------

  /** The turn's one interrupt was received, is in flight, or is still to be claimed by an open turn
      whose start can reach the provider. */
  predicate InterruptPossible(w: World, key: ExecutionKey)
    requires key in w.store.memory.turns
  {
    || (exists c <- w.interrupted :: c.key == key) || (exists c <- w.interrupts :: c.key == key)
    || (!w.store.memory.turns[key].phase.TurnTerminal?
        && !w.store.memory.turns[key].cancellation.InterruptMaybeSent? && StartPossible(w, key))
  }

  lemma ReachInterrupt(w: World, key: ExecutionKey) returns (more: seq<Action>, call: InterruptCall)
    requires SystemInv(w) && key in w.store.memory.turns && InterruptPossible(w, key)
    ensures call.key == key && call in Run(w, more).interrupted
  {
    hide SystemInv, Next, Run, StartPossible;
    if c :| c in w.interrupted && c.key == key {
      more, call := [], c;
      RunNothing(w);
    } else if c :| c in w.interrupts && c.key == key {
      var u, a := CanDeliverInterrupt(w, c);
      more, call := [a], c;
      RunOne(w, a);
    } else {
      StoredIsConsistent(w, key);
      var first := ReachStart(w, key);
      var x := Run(w, first);
      StoredIsConsistent(x, key);
      var rest;
      rest, call := InterruptStarted(x, key);
      more := first + rest;
      RunConcat(w, first, rest);
    }
  }

  predicate InterruptDue(s: Stage) { s.Sent? || s.Running? || (s.Stopping? && !s.interrupted) }

  /** Read the thread, bind, cancel, claim the interrupt and send it, as far as still needed. */
  lemma InterruptStarted(w: World, key: ExecutionKey) returns (more: seq<Action>, call: InterruptCall)
    requires SystemInv(w) && key in w.store.memory.turns && key in w.clients
    requires InterruptDue(StageNow(w, key))
    ensures call.key == key && call in Run(w, more).interrupted
    decreases match StageNow(w, key) case Sent => 2 case Stopping(None, _) => 2 case Running(_) => 1 case _ => 0
  {
    hide SystemInv, Next, Run;
    StoredIsConsistent(w, key);
    var s := StageNow(w, key);
    if s.Stopping? && s.bound.Some? {
      var id := s.bound.value;
      var u, a := CanClaimInterrupt(w, key, id);
      var v, b := CanDeliverInterrupt(u, InterruptCall(key, id));
      more, call := [a] + [b], InterruptCall(key, id);
      RunOne(u, b);
      RunFirst(w, a, [b]);
    } else if s.Running? {
      var u, a := CanCancel(w, key, s);
      ClientsStay(w, a);
      var rest;
      rest, call := InterruptStarted(u, key);
      more := [a] + rest;
      RunFirst(w, a, rest);
    } else {
      var u, a, id := CanRead(w, key);
      var v, b := CanBind(u, key, id);
      ClientsStay(u, b);
      var rest;
      rest, call := InterruptStarted(v, key);
      more := [a] + ([b] + rest);
      RunFirst(u, b, rest);
      RunFirst(w, a, [b] + rest);
    }
  }

  lemma ClientsStay(w: World, a: Action)
    requires SystemInv(w)
    ensures w.clients <= Next(w, a).clients
  {
    RunOne(w, a);
    ProviderOnlyGrows(w, [a]);
  }

  lemma SendNeedsBound(v: Capsule, op: Operation)
    requires Consistent(v) && Perform(v, op).Ok? && op.ClaimInterrupt?
    requires Perform(v, op).value.1.InterruptClaimed? && Perform(v, op).value.1.interrupt.InterruptSend?
    ensures var key := KeyOfRef(op.turn);
            && key in v.turns && !v.turns[key].phase.TurnTerminal? && v.turns[key].codexTurnId.Some?
            && !v.turns[key].cancellation.InterruptMaybeSent?
  {
    InterruptBarrier(v, op);
  }

  lemma OperationInterruptsNothing(w: World, op: Operation, write: WriteOutcome, key: ExecutionKey)
    requires SystemInv(w) && key in w.store.memory.turns && !InterruptPossible(w, key)
    ensures var u := Next(w, Operate(op, write));
            u.interrupted == w.interrupted && forall c <- u.interrupts :: c.key != key
  {
    hide Perform, Validates, Permitted, OutsideInv, StartsBarred, ProviderBarred, InterruptsBarred, CapsuleAdvances,
         Consistent, OpenTurnsAreFresh;
    var u := Next(w, Operate(op, write));
    if u.interrupts != w.interrupts {
      ValidIsConsistent(w.identity, w.store.memory);
      SendNeedsBound(w.store.memory, op);
      assert forall c <- u.interrupts :: c in w.interrupts || c.key == KeyOfRef(op.turn);
    }
  }

  /** Spent or out of reach, a turn stays so. */
  lemma NextKeepsSpent(w: World, a: Action, key: ExecutionKey)
    requires SystemInv(w) && key in w.store.memory.turns
    ensures var u := Next(w, a);
            && key in u.store.memory.turns
            && (w.store.memory.turns[key].phase.TurnTerminal? ==> u.store.memory.turns[key].phase.TurnTerminal?)
            && (w.store.memory.turns[key].cancellation.InterruptMaybeSent? ==>
                  u.store.memory.turns[key].cancellation.InterruptMaybeSent?)
            && (!StartPossible(w, key) ==> !StartPossible(u, key))
  {
    hide Next, SystemInv;
    NextAdvances(w, a);
    assert Advances(w.store.memory.turns[key], Next(w, a).store.memory.turns[key]);
    if !StartPossible(w, key) { NextKeepsQuiet(w, a, key); }
  }

  lemma NextInterruptsNothing(w: World, a: Action, key: ExecutionKey)
    requires SystemInv(w) && key in w.store.memory.turns && !InterruptPossible(w, key)
    ensures forall c <- Next(w, a).interrupted :: c.key != key
    ensures forall c <- Next(w, a).interrupts :: c.key != key
  {
    hide SystemInv, StartPossible, Without, Reconciled, Mutate, Permitted, Authorise;
    if a.Operate? {
      OperationInterruptsNothing(w, a.op, a.write, key);
      hide Next;
    } else if (a.SendInterrupt? || a.LoseInterrupt?) && a.call < |w.interrupts| {
      WithoutKeeps(w.interrupts, a.call);
    }
  }

  lemma NextKeepsInterruptImpossible(w: World, a: Action, key: ExecutionKey)
    requires SystemInv(w) && key in w.store.memory.turns && !InterruptPossible(w, key)
    ensures key in Next(w, a).store.memory.turns && !InterruptPossible(Next(w, a), key)
  {
    hide SystemInv, Next, StartPossible;
    NextKeepsSpent(w, a, key);
    NextInterruptsNothing(w, a, key);
  }

  lemma {:induction false} InterruptStaysImpossible(w: World, more: seq<Action>, key: ExecutionKey)
    requires SystemInv(w) && key in w.store.memory.turns && !InterruptPossible(w, key)
    ensures key in Run(w, more).store.memory.turns && !InterruptPossible(Run(w, more), key)
  {
    hide Next, SystemInv, InterruptPossible;
    if more != [] {
      InterruptStaysImpossible(w, more[..|more| - 1], key);
      RunKeepsInv(w, more[..|more| - 1]);
      NextKeepsInterruptImpossible(Run(w, more[..|more| - 1]), more[|more| - 1], key);
    }
  }

  /** From every world ever reached, the provider can be asked to stop a turn in some continuation
      exactly when it was asked, is being asked, or an open turn whose start can reach it has not used
      its interrupt. */
  lemma InterruptPossibleIff(id: Identity, freshSessionId: Id, before: seq<Action>, key: ExecutionKey)
    requires key in Reached(id, freshSessionId, before).store.memory.turns
    ensures var w := Reached(id, freshSessionId, before);
            InterruptPossible(w, key) <==> exists more :: exists c <- Run(w, more).interrupted :: c.key == key
  {
    hide SystemInv, Run, StartPossible;
    var w := Reached(id, freshSessionId, before);
    ReachedInv(id, freshSessionId, before);
    if InterruptPossible(w, key) {
      var more, call := ReachInterrupt(w, key);
      assert call in Run(w, more).interrupted;
    } else {
      forall more ensures !exists c <- Run(w, more).interrupted :: c.key == key {
        InterruptStaysImpossible(w, more, key);
      }
    }
  }

  // ---- Ends ----------------------------------------------------------------------------

  /** Every open turn can be ended, and nothing else has to change for it. */
  lemma OpenTurnEnds(w: World, key: ExecutionKey) returns (more: seq<Action>)
    requires SystemInv(w) && key in w.store.memory.turns && !w.store.memory.turns[key].phase.TurnTerminal?
    ensures var u := Run(w, more);
            && SystemInv(u) && Unchanged(w.store.memory, u.store.memory, key)
            && u.store.memory.turns[key].phase.TurnTerminal?
  {
    hide SystemInv, Next, Run, Validates, EventsConsistent;
    StoredIsConsistent(w, key);
    var s := StageNow(w, key);
    var u, a := CanCancel(w, key, s);
    more := [a];
    RunOne(w, a);
    if !s.Fresh? {
      StoredIsConsistent(u, key);
      var op := RecordTerminal(HostTurn(u.store.memory.turns[key]), NOT_REPORTED, OutcomeCancelled);
      WrittenMoves(u, op);
      more := [a] + [Operate(op, Written)];
      RunThen(w, [a], Operate(op, Written));
    }
  }

  // ---- New turns -----------------------------------------------------------------------

  predicate StoredAs(v: Capsule, input: StartTurnInput) {
    KeyOf(input) in v.turns && v.turns[KeyOf(input)].input == input
  }

  /** The input is stored, in memory or on file, or it is new, for this session, and there is room. */
  predicate TurnPossible(w: World, input: StartTurnInput) {
    || StoredAs(w.store.memory, input) || StoredAs(w.store.disk, input)
    || (KeyOf(input) !in w.store.memory.turns && input.session == HostSession(w.store.memory)
        && |w.store.memory.turns| < MAX_STORED_TURNS)
  }

  lemma WrittenSession(w: World, op: Operation)
    requires SystemInv(w) && (op.ClaimSessionStart? || op.AcceptSession?) && Perform(w.store.memory, op).Ok?
    ensures SystemInv(Next(w, Operate(op, Written)))
    ensures Next(w, Operate(op, Written)).store.memory == Perform(w.store.memory, op).value.0
  {
    hide SystemInv, Perform, Validates;
    WrittenResult(w, op);
  }

  lemma MemoryIsValid(w: World)
    requires SystemInv(w)
    ensures Validates(w.identity, w.store.memory)
    ensures w.store.memory.threadId.None? ==> w.store.memory.turns == map[]
  {
    hide OutsideInv, StartsBarred, ProviderBarred, InterruptsBarred, TurnsBound, TurnValidates, OpenTurnsAreFresh,
         CapsuleAdvances;
  }

  /** Every session can be bound. */
  lemma SessionBinds(w: World) returns (more: seq<Action>)
    requires SystemInv(w)
    ensures var v, u := w.store.memory, Run(w, more).store.memory;
            && SystemInv(Run(w, more)) && u.threadId.Some? && u.turns == v.turns && HostSession(u) == HostSession(v)
  {
    hide SystemInv, Next, Run, Validates, Perform;
    MemoryIsValid(w);
    RunNothing(w);
    more := [];
    if w.store.memory.threadId.None? {
      SessionsFollowLifecycle(w.identity, w.store.memory, 0);
      ReadyIsBound(w.identity, w.store.memory);
      var claim, accept := Operate(ClaimSessionStart, Written), Operate(AcceptSession(0), Written);
      WrittenSession(w, ClaimSessionStart);
      var x := Next(w, claim);
      MemoryIsValid(x);
      SessionsFollowLifecycle(x.identity, x.store.memory, 0);
      WrittenSession(x, AcceptSession(0));
      more := [claim] + [accept];
      RunOne(w, claim);
      RunThen(w, [claim], accept);
    }
  }

  lemma ReadyIsBound(id: Identity, v: Capsule)
    requires Validates(id, v)
    ensures v.sessionPhase.SessionReady? <==> v.threadId.Some?
  {}

  lemma AtMostOneOpen(id: Identity, v: Capsule, key: ExecutionKey, other: ExecutionKey)
    requires Validates(id, v) && key in v.turns && other in v.turns && key != other
    ensures v.turns[key].phase.TurnTerminal? || v.turns[other].phase.TurnTerminal?
  {
    hide TurnValidates;
    if !v.turns[key].phase.TurnTerminal? && !v.turns[other].phase.TurnTerminal? {
      SubsetCardinality({key, other}, ActiveKeys(v));
    }
  }

  /** Every open turn out of the way. */
  lemma AllTurnsEnd(w: World) returns (more: seq<Action>)
    requires SystemInv(w)
    ensures var v, u := w.store.memory, Run(w, more).store.memory;
            && SystemInv(Run(w, more)) && u.threadId == v.threadId && HostSession(u) == HostSession(v)
            && u.turns.Keys == v.turns.Keys && forall k <- u.turns :: u.turns[k].phase.TurnTerminal?
  {
    hide SystemInv, Next, Run, Validates;
    MemoryIsValid(w);
    RunNothing(w);
    more := [];
    if key :| key in w.store.memory.turns && !w.store.memory.turns[key].phase.TurnTerminal? {
      more := OpenTurnEnds(w, key);
      var u := Run(w, more).store.memory;
      forall k <- u.turns ensures u.turns[k].phase.TurnTerminal? {
        if k != key { AtMostOneOpen(w.identity, w.store.memory, key, k); }
      }
    }
  }

  lemma WrittenPreparation(w: World, input: StartTurnInput)
    requires SystemInv(w) && InputParses(input) && w.store.memory.threadId.Some? && KeyOf(input) !in w.store.memory.turns
    requires input.session == HostSession(w.store.memory) && |w.store.memory.turns| < MAX_STORED_TURNS
    requires forall k <- w.store.memory.turns :: w.store.memory.turns[k].phase.TurnTerminal?
    ensures StoredAs(Next(w, Operate(PrepareTurn(input, 0), Written)).store.memory, input)
  {
    hide SystemInv, Perform, Validates, InputParses;
    MemoryIsValid(w);
    PreparationFollowsLifecycle(w.identity, w.store.memory, input, 0);
    WrittenResult(w, PrepareTurn(input, 0));
  }

  lemma ReachTurn(w: World, input: StartTurnInput) returns (more: seq<Action>)
    requires SystemInv(w) && InputParses(input) && TurnPossible(w, input)
    ensures StoredAs(Run(w, more).store.memory, input)
  {
    hide SystemInv, Next, Run, InputParses;
    if StoredAs(w.store.memory, input) {
      more := [];
      RunNothing(w);
    } else if StoredAs(w.store.disk, input) {
      more := [Crash];
      RunOne(w, Crash);
      CrashShowsFile(w);
    } else {
      var bind := SessionBinds(w);
      var x := Run(w, bind);
      var end := AllTurnsEnd(x);
      var y := Run(x, end);
      assert |y.store.memory.turns| == |w.store.memory.turns| by {
        assert y.store.memory.turns.Keys == w.store.memory.turns.Keys;
        assert |y.store.memory.turns| == |y.store.memory.turns.Keys|;
        assert |w.store.memory.turns| == |w.store.memory.turns.Keys|;
      }
      WrittenPreparation(y, input);
      more := bind + end + [Operate(PrepareTurn(input, 0), Written)];
      RunConcat(w, bind, end);
      RunThen(w, bind + end, Operate(PrepareTurn(input, 0), Written));
    }
  }

  lemma CrashShowsFile(w: World)
    ensures Next(w, Crash).store.memory == w.store.disk
  {}

  lemma OthersStoreNothing(id: Identity, v: Capsule, op: Operation, input: StartTurnInput)
    requires Validates(id, v) && Perform(v, op).Ok? && !op.PrepareTurn? && StoredAs(Perform(v, op).value.0, input)
    ensures StoredAs(v, input)
  {
    if TurnOperation(op) {
      TakenIsWellAsked(v, op);
      TurnsFollowLifecycle(id, v, op);
      hide Validates, Perform, Takes, StageOf, WellAsked, PhaseConsistent;
    } else {
      SessionKeepsTurns(v, op);
      hide Perform, Validates;
    }
  }

  lemma TakenIsWellAsked(v: Capsule, op: Operation)
    requires TurnOperation(op) && Perform(v, op).Ok?
    ensures WellAsked(op)
  {
    hide InputParses;
  }

  lemma SessionKeepsTurns(v: Capsule, op: Operation)
    requires !TurnOperation(op) && !op.PrepareTurn? && Perform(v, op).Ok?
    ensures Perform(v, op).value.0.turns == v.turns
  {}

  lemma RoomWasThere(id: Identity, v: Capsule, next: Capsule, key: ExecutionKey)
    requires Validates(id, next) && key !in v.turns && Unchanged(v, next, key)
    ensures |v.turns| < MAX_STORED_TURNS
  {
    hide TurnValidates;
    assert next.turns.Keys == v.turns.Keys + {key};
    assert |next.turns| == |next.turns.Keys| && |v.turns| == |v.turns.Keys|;
  }

  /** A transition stores no input but the one it prepares: a new one, for this session, within the
      room there is. */
  lemma OnlyPreparationStores(id: Identity, v: Capsule, op: Operation, input: StartTurnInput)
    requires Validates(id, v) && Perform(v, op).Ok? && Validates(id, Perform(v, op).value.0)
    requires StoredAs(Perform(v, op).value.0, input) && !StoredAs(v, input)
    ensures KeyOf(input) !in v.turns && input.session == HostSession(v) && |v.turns| < MAX_STORED_TURNS
  {
    assert op.PrepareTurn? ==> InputParses(op.input);
    hide Validates, Perform, InputParses;
    if op.PrepareTurn? {
      PreparationFollowsLifecycle(id, v, op.input, op.freshTurnId);
      if KeyOf(op.input) !in v.turns { RoomWasThere(id, v, Perform(v, op).value.0, KeyOf(op.input)); }
    } else {
      OthersStoreNothing(id, v, op, input);
    }
  }

  lemma WriteKeepsTurnImpossible(w: World, op: Operation, write: WriteOutcome, input: StartTurnInput)
    requires SystemInv(w) && !TurnPossible(w, input)
    ensures var s := Mutate(w.identity, w.store, op, write).0;
            && !StoredAs(s.memory, input) && !StoredAs(s.disk, input)
            && CapsuleAdvances(w.store.memory, s.memory)
  {
    MutateAdvances(w, op, write);
    MemoryIsValid(w);
    hide SystemInv, Perform, Validates, CapsuleAdvances;
    if Perform(w.store.memory, op).Ok? && Validates(w.identity, Perform(w.store.memory, op).value.0) {
      if StoredAs(Perform(w.store.memory, op).value.0, input) {
        OnlyPreparationStores(w.identity, w.store.memory, op, input);
      }
    }
  }

  lemma AdvancedHasMore(v: Capsule, next: Capsule)
    requires CapsuleAdvances(v, next)
    ensures |v.turns| <= |next.turns| && HostSession(next) == HostSession(v) && v.turns.Keys <= next.turns.Keys
  {
    SubsetCardinality(v.turns.Keys, next.turns.Keys);
    assert |next.turns| == |next.turns.Keys| && |v.turns| == |v.turns.Keys|;
  }

  lemma NextStoresNothing(w: World, a: Action, input: StartTurnInput)
    requires SystemInv(w) && !TurnPossible(w, input)
    ensures !StoredAs(Next(w, a).store.memory, input) && !StoredAs(Next(w, a).store.disk, input)
  {
    hide SystemInv, Mutate, Permitted, Reconciled, StoredAs, Without;
    if a.Operate? { WriteKeepsTurnImpossible(w, a.op, a.write, input); }
  }

  lemma NextKeepsTurnImpossible(w: World, a: Action, input: StartTurnInput)
    requires SystemInv(w) && !TurnPossible(w, input)
    ensures !TurnPossible(Next(w, a), input)
  {
    hide SystemInv, Next, CapsuleAdvances, Advances;
    NextStoresNothing(w, a, input);
    NextAdvances(w, a);
    AdvancedHasMore(w.store.memory, Next(w, a).store.memory);
    if KeyOf(input) in w.store.memory.turns { assert KeyOf(input) in Next(w, a).store.memory.turns; }
  }

  lemma {:induction false} TurnStaysImpossible(w: World, more: seq<Action>, input: StartTurnInput)
    requires SystemInv(w) && !TurnPossible(w, input)
    ensures !TurnPossible(Run(w, more), input)
  {
    hide Next, SystemInv, TurnPossible;
    if more != [] {
      TurnStaysImpossible(w, more[..|more| - 1], input);
      RunKeepsInv(w, more[..|more| - 1]);
      NextKeepsTurnImpossible(Run(w, more[..|more| - 1]), more[|more| - 1], input);
    }
  }

  /** From every world ever reached, a parsed input becomes a stored turn in some continuation exactly
      when it is stored already, in memory or on file, or its key is new, its session is this one and
      there is room: sessions can always be bound and open turns always ended. */
  lemma TurnPossibleIff(id: Identity, freshSessionId: Id, before: seq<Action>, input: StartTurnInput)
    requires InputParses(input)
    ensures var w := Reached(id, freshSessionId, before);
            TurnPossible(w, input) <==> exists more :: StoredAs(Run(w, more).store.memory, input)
  {
    hide SystemInv, Run, InputParses;
    var w := Reached(id, freshSessionId, before);
    ReachedInv(id, freshSessionId, before);
    if TurnPossible(w, input) {
      var more := ReachTurn(w, input);
    } else {
      forall more ensures !StoredAs(Run(w, more).store.memory, input) { TurnStaysImpossible(w, more, input); }
    }
  }

  /** Every open turn of every reached world can be ended. */
  lemma OpenTurnsCanEnd(id: Identity, freshSessionId: Id, before: seq<Action>, key: ExecutionKey)
    requires key in Reached(id, freshSessionId, before).store.memory.turns
    ensures exists more :: var u := Run(Reached(id, freshSessionId, before), more).store.memory;
                           key in u.turns && u.turns[key].phase.TurnTerminal?
  {
    hide SystemInv, Run;
    var w := Reached(id, freshSessionId, before);
    ReachedInv(id, freshSessionId, before);
    RunNothing(w);
    if !w.store.memory.turns[key].phase.TurnTerminal? { var more := OpenTurnEnds(w, key); }
  }
}
