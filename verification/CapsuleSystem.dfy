/** Capsule store, provider and any number of concurrent drivers as one transition system, with
    crashes and torn writes between every durable step and every provider call. */
module CapsuleSystem {
  import opened Common
  import opened HostStream
  import opened CapsuleState
  import opened CapsuleStore
  import opened CapsuleProofs
  import opened CapsuleNormalizer

  /** A start the store has authorised and a driver has not yet sent. */
  datatype StartCall = StartCall(input: StartTurnInput, intent: Intent)
  /** A provider turn id some driver has learnt for an input. */
  datatype Binding = Binding(input: StartTurnInput, codexTurnId: Id)
  /** An interrupt authorised for a turn's provider binding. */
  datatype InterruptCall = InterruptCall(key: ExecutionKey, codexTurnId: Id)

  /** `starts`, `bindings` and `interrupts` live in drivers and die with the process; the store's
      file, the provider's turns and the interrupts it has received do not. */
  datatype World = World(
    identity: Identity, store: Store,
    starts: seq<StartCall>, bindings: seq<Binding>, interrupts: seq<InterruptCall>,
    provider: seq<CodexTurn>, clients: seq<ExecutionKey>, interrupted: seq<InterruptCall>)

  datatype Action =
    | Operate(op: Operation, write: WriteOutcome)
    | SendStart(call: nat, newTurnId: Id)
    | LoseStart(call: nat)
    | ReadThread(key: ExecutionKey)
    | SendInterrupt(call: nat)
    | LoseInterrupt(call: nat)
    | Progress(turn: nat, status: ProviderStatus, produced: seq<ThreadItem>)
    | Crash

  function Without<T>(s: seq<T>, i: nat): seq<T>
    requires i < |s|
  {
    s[..i] + s[i + 1..]
  }

  /** Drivers pass `acceptTurn` only ids the provider gave them; everything else is unrestricted. */
  predicate Permitted(w: World, op: Operation) {
    op.AcceptTurn? ==> Binding(op.input, op.codexTurnId) in w.bindings
  }

  /** The calls an operation's reply authorises. */
  function Authorise(w: World, op: Operation, reply: Result<Reply, CapsuleError>): World {
    if reply.Ok? && op.ClaimTurnStart? && reply.value.TurnClaimed? && reply.value.claim.Send? then
      w.(starts := w.starts + [StartCall(op.input, reply.value.claim.intent)])
    else if reply.Ok? && op.ClaimInterrupt? && reply.value.InterruptClaimed? && reply.value.interrupt.InterruptSend? then
      w.(interrupts := w.interrupts + [InterruptCall(KeyOfRef(op.turn), reply.value.interrupt.codexTurnId)])
    else w
  }

  function Next(w: World, a: Action): World {
    match a
    case Operate(op, write) =>
      if !Permitted(w, op) then w
      else
        var (store, reply) := Mutate(w.identity, w.store, op, write);
        Authorise(w.(store := store), op, reply)
    case SendStart(i, newTurnId) =>
      if i >= |w.starts| || exists t <- w.provider :: t.id == newTurnId then w
      else
        var call := w.starts[i];
        var key := call.intent.clientMessageId;
        var turn := CodexTurn(newTurnId, InProgress, true, [UserMessage(Some(key), [Text(call.intent.text)])]);
        w.(starts := Without(w.starts, i), provider := w.provider + [turn], clients := w.clients + [key],
           bindings := w.bindings + [Binding(call.input, newTurnId)])
    case LoseStart(i) => if i >= |w.starts| then w else w.(starts := Without(w.starts, i))
    case ReadThread(key) =>
      if key !in w.store.memory.turns then w
      else
        var found := Reconciled(w.provider, w.store.memory.turns[key].intent);
        if found.Err? || found.value.None? then w
        else w.(bindings := w.bindings + [Binding(w.store.memory.turns[key].input, found.value.value.id)])
    case SendInterrupt(i) =>
      if i >= |w.interrupts| then w
      else w.(interrupts := Without(w.interrupts, i), interrupted := w.interrupted + [w.interrupts[i]])
    case LoseInterrupt(i) => if i >= |w.interrupts| then w else w.(interrupts := Without(w.interrupts, i))
    case Progress(i, status, produced) =>
      if i >= |w.provider| || exists item <- produced :: item.UserMessage? then w
      else
        var t := w.provider[i];
        w.(provider := w.provider[i := t.(status := status, items := t.items + produced)])
    case Crash =>
      w.(store := Store(w.store.disk, w.store.disk), starts := [], bindings := [], interrupts := [])
  }

  function Run(w: World, actions: seq<Action>): World {
    if actions == [] then w else Next(Run(w, actions[..|actions| - 1]), actions[|actions| - 1])
  }

  function Boot(id: Identity, freshSessionId: Id): World {
    var v := CreateCapsule(id, freshSessionId);
    World(id, Store(v, v), [], [], [], [], [], [])
  }

  // ---- The system invariant ------------------------------------------------------------

  /** The provider holds a turn with this id that was started for `key`. */
  predicate Holds(provider: seq<CodexTurn>, clients: seq<ExecutionKey>, codexTurnId: Id, key: ExecutionKey) {
    exists i :: 0 <= i < |provider| && i < |clients| && provider[i].id == codexTurnId && clients[i] == key
  }

  ghost predicate KeptFor(t: CodexTurn, key: ExecutionKey) { exists text :: WellKept(t, key, text) }

  /** One provider turn per client message id, each with its own id and its one user message. */
  ghost predicate ProviderKept(provider: seq<CodexTurn>, clients: seq<ExecutionKey>) {
    && |clients| == |provider|
    && (forall i, j :: 0 <= i < j < |provider| ==> clients[i] != clients[j] && provider[i].id != provider[j].id)
    && (forall i :: 0 <= i < |provider| ==> |provider[i].items| >= 1 && provider[i].items[0].UserMessage?)
    && (forall i :: 0 <= i < |provider| ==> KeptFor(provider[i], clients[i]))
  }

  ghost predicate StartsDistinct(starts: seq<StartCall>, clients: seq<ExecutionKey>) {
    && (forall i :: 0 <= i < |starts| ==>
          starts[i].intent.clientMessageId == KeyOf(starts[i].input) && KeyOf(starts[i].input) !in clients)
    && (forall i, j :: 0 <= i < j < |starts| ==> KeyOf(starts[i].input) != KeyOf(starts[j].input))
  }

  ghost predicate InterruptsDistinct(pending: seq<InterruptCall>, received: seq<InterruptCall>) {
    && (forall i, j :: 0 <= i < j < |pending| ==> pending[i].key != pending[j].key)
    && (forall i, j :: 0 <= i < j < |received| ==> received[i].key != received[j].key)
    && (forall i, j :: 0 <= i < |pending| && 0 <= j < |received| ==> pending[i].key != received[j].key)
  }

  predicate BindingsHeld(provider: seq<CodexTurn>, clients: seq<ExecutionKey>, bindings: seq<Binding>) {
    forall b <- bindings :: Holds(provider, clients, b.codexTurnId, KeyOf(b.input))
  }

  predicate InterruptsHeld(provider: seq<CodexTurn>, clients: seq<ExecutionKey>, calls: seq<InterruptCall>) {
    forall c <- calls :: Holds(provider, clients, c.codexTurnId, c.key)
  }

  /** What a stored Capsule knows about a start that was authorised for `key`. */
  predicate Started(v: Capsule, key: ExecutionKey, text: Id) {
    key in v.turns && !v.turns[key].phase.Prepared? && v.turns[key].intent.text == text
  }

  predicate StartsBarred(starts: seq<StartCall>, v: Capsule) {
    forall c <- starts :: Started(v, c.intent.clientMessageId, c.intent.text)
  }

  ghost predicate ProviderBarred(provider: seq<CodexTurn>, clients: seq<ExecutionKey>, v: Capsule) {
    forall i, text :: 0 <= i < |provider| && i < |clients| && WellKept(provider[i], clients[i], text) ==>
      Started(v, clients[i], text)
  }

  predicate InterruptsBarred(calls: seq<InterruptCall>, v: Capsule) {
    forall c <- calls :: c.key in v.turns && v.turns[c.key].cancellation.InterruptMaybeSent?
  }

  predicate TurnsBound(provider: seq<CodexTurn>, clients: seq<ExecutionKey>, v: Capsule) {
    forall k <- v.turns :: v.turns[k].codexTurnId.Some? ==> Holds(provider, clients, v.turns[k].codexTurnId.value, k)
  }

  /** Everything one stored view (memory or file) guarantees about the outside. */
  ghost predicate ViewInv(w: World, v: Capsule) {
    && CapsuleInv(w.identity, v)
    && StartsBarred(w.starts, v) && ProviderBarred(w.provider, w.clients, v)
    && InterruptsBarred(w.interrupts, v) && InterruptsBarred(w.interrupted, v)
    && TurnsBound(w.provider, w.clients, v)
  }

  ghost predicate OutsideInv(w: World) {
    && ProviderKept(w.provider, w.clients)
    && StartsDistinct(w.starts, w.clients) && InterruptsDistinct(w.interrupts, w.interrupted)
    && BindingsHeld(w.provider, w.clients, w.bindings)
    && InterruptsHeld(w.provider, w.clients, w.interrupts) && InterruptsHeld(w.provider, w.clients, w.interrupted)
  }

  ghost predicate SystemInv(w: World) {
    && OutsideInv(w) && ViewInv(w, w.store.memory) && ViewInv(w, w.store.disk)
    && CapsuleAdvances(w.store.memory, w.store.disk)
  }

  lemma BootInv(id: Identity, freshSessionId: Id)
    ensures SystemInv(Boot(id, freshSessionId))
  {
    CreatedCapsuleIsValid(id, freshSessionId);
  }

  // ---- Store operations ----------------------------------------------------------------

  lemma ValidIsConsistent(id: Identity, v: Capsule)
    requires CapsuleInv(id, v)
    ensures Consistent(v)
    ensures forall k <- v.turns :: v.turns[k].intent == BuildIntent(v.turns[k].input)
  {
    hide Validates, PhaseConsistent;
    forall k <- v.turns
      ensures k == KeyOf(v.turns[k].input) && PhaseConsistent(v.turns[k])
           && v.turns[k].intent == BuildIntent(v.turns[k].input)
    {
      ValidTurn(id, v, k);
    }
    ThreadNeedsSession(id, v);
  }

  lemma ThreadNeedsSession(id: Identity, v: Capsule)
    requires Validates(id, v)
    ensures v.threadId.Some? ==> v.sessionPhase.SessionReady?
  {}

  lemma AdvancesReflexive(v: Capsule)
    ensures CapsuleAdvances(v, v)
  {}

  lemma AdvancesTransitive(u: Capsule, v: Capsule, x: Capsule)
    requires CapsuleAdvances(u, v) && CapsuleAdvances(v, x)
    ensures CapsuleAdvances(u, x)
  {
    forall k <- u.turns ensures Advances(u.turns[k], x.turns[k]) {
      assert Advances(u.turns[k], v.turns[k]) && Advances(v.turns[k], x.turns[k]);
    }
  }

  /** An advanced view still bars every authorised call. */
  lemma AdvancedViewBars(w: World, v: Capsule, next: Capsule)
    requires ViewInv(w, v) && CapsuleAdvances(v, next)
    ensures StartsBarred(w.starts, next) && ProviderBarred(w.provider, w.clients, next)
    ensures InterruptsBarred(w.interrupts, next) && InterruptsBarred(w.interrupted, next)
  {
    hide WellKept, CapsuleInv, TurnsBound;
    forall key, text | Started(v, key, text) ensures Started(next, key, text) {
      assert Advances(v.turns[key], next.turns[key]);
    }
    forall key | key in v.turns && v.turns[key].cancellation.InterruptMaybeSent?
      ensures key in next.turns && next.turns[key].cancellation.InterruptMaybeSent?
    {
      assert Advances(v.turns[key], next.turns[key]);
    }
  }

  /** Only `acceptTurn` binds, and it binds what it was given. */
  lemma BindingOrigin(v: Capsule, op: Operation, k: ExecutionKey)
    requires Consistent(v) && Perform(v, op).Ok?
    requires var next := Perform(v, op).value.0; k in next.turns && next.turns[k].codexTurnId.Some?
    ensures var next := Perform(v, op).value.0;
            || (k in v.turns && v.turns[k].codexTurnId == next.turns[k].codexTurnId)
            || (op.AcceptTurn? && k == KeyOf(op.input) && next.turns[k].codexTurnId == Some(op.codexTurnId))
  {
    hide PhaseConsistent;
  }

  /** What a "send" reply says about the state it came from and the state it leaves. */
  lemma SendBarrier(v: Capsule, op: Operation)
    requires Consistent(v) && Perform(v, op).Ok? && op.ClaimTurnStart?
    requires var reply := Perform(v, op).value.1; reply.TurnClaimed? && reply.claim.Send?
    requires forall k <- v.turns :: v.turns[k].intent == BuildIntent(v.turns[k].input)
    ensures var key, next, intent := KeyOf(op.input), Perform(v, op).value.0, Perform(v, op).value.1.claim.intent;
            && key in v.turns && v.turns[key].phase.Prepared? && intent.clientMessageId == key
            && Started(next, key, intent.text)
  {}

  lemma InterruptBarrier(v: Capsule, op: Operation)
    requires Consistent(v) && Perform(v, op).Ok? && op.ClaimInterrupt?
    requires var reply := Perform(v, op).value.1; reply.InterruptClaimed? && reply.interrupt.InterruptSend?
    ensures var key, next, id := KeyOfRef(op.turn), Perform(v, op).value.0, Perform(v, op).value.1.interrupt.codexTurnId;
            && key in v.turns && !v.turns[key].cancellation.InterruptMaybeSent?
            && v.turns[key].codexTurnId == Some(id)
            && key in next.turns && next.turns[key].cancellation.InterruptMaybeSent?
  {}

  lemma AdvancedView(w: World, op: Operation)
    requires SystemInv(w) && Permitted(w, op) && Perform(w.store.memory, op).Ok?
    requires Validates(w.identity, Perform(w.store.memory, op).value.0)
    ensures ViewInv(w, Perform(w.store.memory, op).value.0)
    ensures CapsuleAdvances(w.store.memory, Perform(w.store.memory, op).value.0)
    ensures Consistent(w.store.memory)
    ensures forall k <- w.store.memory.turns :: w.store.memory.turns[k].intent == BuildIntent(w.store.memory.turns[k].input)
  {
    hide Perform, Validates, OpenTurnsAreFresh, ProviderKept, StartsDistinct, InterruptsDistinct, InterruptsHeld,
         Holds, CapsuleAdvances, StartsBarred, ProviderBarred, InterruptsBarred, Storable, Consistent;
    var v := w.store.memory;
    ValidIsConsistent(w.identity, v);
    TransitionsOnlyAdvance(v, op);
    ValidatorAcceptsIffStorable(w.identity, v, op);
    var next := Perform(v, op).value.0;
    AdvancedViewBars(w, v, next);
    forall k <- next.turns | next.turns[k].codexTurnId.Some?
      ensures Holds(w.provider, w.clients, next.turns[k].codexTurnId.value, k)
    {
      BindingOrigin(v, op, k);
    }
  }

  /** While a turn is only prepared, no start for it was ever authorised or received. */
  lemma PreparedMeansUnstarted(w: World, v: Capsule, key: ExecutionKey)
    requires OutsideInv(w) && ViewInv(w, v) && key in v.turns && v.turns[key].phase.Prepared?
    ensures forall c <- w.starts :: KeyOf(c.input) != key
    ensures key !in w.clients
  {
    hide WellKept, CapsuleInv, InterruptsBarred, InterruptsHeld, InterruptsDistinct, TurnsBound, BindingsHeld;
    forall c <- w.starts ensures KeyOf(c.input) != key {
      assert Started(v, c.intent.clientMessageId, c.intent.text);
    }
    forall i | 0 <= i < |w.clients| ensures w.clients[i] != key {
      var text :| WellKept(w.provider[i], w.clients[i], text);
      assert Started(v, w.clients[i], text);
    }
  }

  lemma WrittenSend(w: World, op: Operation)
    requires SystemInv(w) && Permitted(w, op) && Perform(w.store.memory, op).Ok? && op.ClaimTurnStart?
    requires Validates(w.identity, Perform(w.store.memory, op).value.0)
    requires Perform(w.store.memory, op).value.1.TurnClaimed? && Perform(w.store.memory, op).value.1.claim.Send?
    ensures var (next, reply) := Perform(w.store.memory, op).value;
            SystemInv(w.(store := Store(next, next), starts := w.starts + [StartCall(op.input, reply.claim.intent)]))
  {
    hide Perform, Validates, CapsuleInv, CapsuleAdvances, Consistent, ProviderKept, ProviderBarred, InterruptsBarred,
         InterruptsHeld, InterruptsDistinct, TurnsBound, BindingsHeld, Started;
    var v := w.store.memory;
    var (next, reply) := Perform(v, op).value;
    AdvancedView(w, op);
    SendBarrier(v, op);
    PreparedMeansUnstarted(w, v, KeyOf(op.input));
    AdvancesReflexive(next);
  }

  lemma WrittenInterrupt(w: World, op: Operation)
    requires SystemInv(w) && Permitted(w, op) && Perform(w.store.memory, op).Ok? && op.ClaimInterrupt?
    requires Validates(w.identity, Perform(w.store.memory, op).value.0)
    requires Perform(w.store.memory, op).value.1.InterruptClaimed?
    requires Perform(w.store.memory, op).value.1.interrupt.InterruptSend?
    ensures var (next, reply) := Perform(w.store.memory, op).value;
            SystemInv(w.(store := Store(next, next),
                         interrupts := w.interrupts + [InterruptCall(KeyOfRef(op.turn), reply.interrupt.codexTurnId)]))
  {
    hide Perform, Validates, CapsuleInv, CapsuleAdvances, Consistent, ProviderKept, ProviderBarred, StartsBarred,
         StartsDistinct, BindingsHeld, Holds;
    var v := w.store.memory;
    var (next, reply) := Perform(v, op).value;
    AdvancedView(w, op);
    InterruptBarrier(v, op);
    AdvancesReflexive(next);
  }

  /** After a written operation, both views are the new state and one call may be authorised. */
  lemma WrittenOperation(w: World, op: Operation)
    requires SystemInv(w) && Permitted(w, op) && Perform(w.store.memory, op).Ok?
    requires Validates(w.identity, Perform(w.store.memory, op).value.0)
    ensures var (next, reply) := Perform(w.store.memory, op).value;
            SystemInv(Authorise(w.(store := Store(next, next)), op, Ok(reply)))
  {
    hide Perform, Validates, Permitted, CapsuleInv, CapsuleAdvances, Consistent, ProviderKept, ProviderBarred,
         StartsBarred, StartsDistinct, InterruptsBarred, InterruptsHeld, InterruptsDistinct, TurnsBound, BindingsHeld;
    var (next, reply) := Perform(w.store.memory, op).value;
    if op.ClaimTurnStart? && reply.TurnClaimed? && reply.claim.Send? {
      WrittenSend(w, op);
    } else if op.ClaimInterrupt? && reply.InterruptClaimed? && reply.interrupt.InterruptSend? {
      WrittenInterrupt(w, op);
    } else {
      AdvancedView(w, op);
      AdvancesReflexive(next);
    }
  }

  lemma TornOperation(w: World, op: Operation)
    requires SystemInv(w) && Permitted(w, op) && Perform(w.store.memory, op).Ok?
    requires Validates(w.identity, Perform(w.store.memory, op).value.0)
    ensures SystemInv(w.(store := Store(w.store.memory, Perform(w.store.memory, op).value.0)))
  {
    hide Perform, Validates, Permitted, CapsuleInv, CapsuleAdvances, Consistent, ProviderKept, ProviderBarred,
         StartsBarred, StartsDistinct, InterruptsBarred, InterruptsHeld, InterruptsDistinct, TurnsBound, BindingsHeld;
    AdvancedView(w, op);
  }

  lemma OperationKeepsInv(w: World, op: Operation, write: WriteOutcome)
    requires SystemInv(w)
    ensures SystemInv(Next(w, Operate(op, write)))
  {
    hide Perform, Validates, SystemInv, Permitted;
    if Permitted(w, op) && Perform(w.store.memory, op).Ok? && Validates(w.identity, Perform(w.store.memory, op).value.0) {
      match write
      case Written => WrittenOperation(w, op);
      case WrittenButFailed => TornOperation(w, op);
      case NotWritten => assert w.(store := w.store) == w;
    } else {
      assert w.(store := w.store) == w;
    }
  }

  // ---- Provider and driver steps -------------------------------------------------------

  /** A provider that kept every turn it held still holds them. */
  lemma HoldsGrows(w: World, u: World)
    requires |w.provider| == |w.clients| <= |u.provider| && w.clients <= u.clients
    requires forall i :: 0 <= i < |w.provider| ==> u.provider[i].id == w.provider[i].id
    ensures forall id, k :: Holds(w.provider, w.clients, id, k) ==> Holds(u.provider, u.clients, id, k)
  {
    forall id, k | Holds(w.provider, w.clients, id, k) ensures Holds(u.provider, u.clients, id, k) {
      var i :| 0 <= i < |w.provider| && w.provider[i].id == id && w.clients[i] == k;
      assert u.provider[i].id == id && u.clients[i] == k;
    }
  }

  lemma NewTurnKept(provider: seq<CodexTurn>, clients: seq<ExecutionKey>, t: CodexTurn, key: ExecutionKey, text: Id)
    requires ProviderKept(provider, clients) && key !in clients && WellKept(t, key, text)
    requires forall p <- provider :: p.id != t.id
    ensures ProviderKept(provider + [t], clients + [key])
  {
    assert |t.items| >= 1 && t.items[0].UserMessage?;
    hide WellKept;
    var n := |provider|;
    assert (provider + [t])[n] == t && (clients + [key])[n] == key && KeptFor(t, key);
    hide KeptFor;
    forall i | 0 <= i < n ensures (provider + [t])[i] == provider[i] && (clients + [key])[i] == clients[i] {}
  }

  lemma NewTurnBarred(provider: seq<CodexTurn>, clients: seq<ExecutionKey>, t: CodexTurn, key: ExecutionKey, text: Id,
                      v: Capsule)
    requires ProviderBarred(provider, clients, v) && |provider| == |clients| && WellKept(t, key, text)
    requires Started(v, key, text)
    ensures ProviderBarred(provider + [t], clients + [key], v)
  {
    hide Started, WellKept;
    forall i, x | 0 <= i < |provider| + 1 && WellKept((provider + [t])[i], (clients + [key])[i], x)
      ensures Started(v, (clients + [key])[i], x)
    {
      if i < |provider| {
        assert WellKept(provider[i], clients[i], x);
      } else {
        OneText(t, key, text, x);
      }
    }
  }

  lemma OneText(t: CodexTurn, key: ExecutionKey, text: Id, x: Id)
    requires WellKept(t, key, text) && WellKept(t, key, x)
    ensures x == text
  {
    assert [Text(text)][0] == [Text(x)][0];
  }

  lemma WithoutKeeps<T>(s: seq<T>, i: nat)
    requires i < |s|
    ensures |Without(s, i)| == |s| - 1
    ensures forall j :: 0 <= j < |s| - 1 ==> Without(s, i)[j] == s[if j < i then j else j + 1]
    ensures forall x <- Without(s, i) :: x in s
  {}

  lemma NewTurnIsWellKept(newTurnId: Id, key: ExecutionKey, text: Id)
    ensures WellKept(CodexTurn(newTurnId, InProgress, true, [UserMessage(Some(key), [Text(text)])]), key, text)
  {}

  lemma KeptInFull(t: CodexTurn, key: ExecutionKey, text: Id)
    requires WellKept(t, key, text)
    ensures t.fullView
  {}

  lemma SameLengths(provider: seq<CodexTurn>, clients: seq<ExecutionKey>)
    requires ProviderKept(provider, clients)
    ensures |provider| == |clients|
  {}

  lemma LastIsHeld(provider: seq<CodexTurn>, clients: seq<ExecutionKey>)
    requires |provider| == |clients| > 0
    ensures Holds(provider, clients, provider[|provider| - 1].id, clients[|clients| - 1])
  {}

  lemma SentStartKeepsInv(w: World, i: nat, newTurnId: Id)
    requires SystemInv(w) && i < |w.starts| && forall t <- w.provider :: t.id != newTurnId
    ensures SystemInv(Next(w, SendStart(i, newTurnId)))
  {
    hide CapsuleInv, CapsuleAdvances, InterruptsBarred, InterruptsDistinct, WellKept, ProviderKept, ProviderBarred,
         Without, Started, Holds;
    var call := w.starts[i];
    var key, text := call.intent.clientMessageId, call.intent.text;
    var u := Next(w, SendStart(i, newTurnId));
    var turn := CodexTurn(newTurnId, InProgress, true, [UserMessage(Some(key), [Text(text)])]);
    NewTurnIsWellKept(newTurnId, key, text);
    NewTurnKept(w.provider, w.clients, turn, key, text);
    SameLengths(w.provider, w.clients);
    NewTurnBarred(w.provider, w.clients, turn, key, text, w.store.memory);
    NewTurnBarred(w.provider, w.clients, turn, key, text, w.store.disk);
    HoldsGrows(w, u);
    LastIsHeld(u.provider, u.clients);
    WithoutKeeps(w.starts, i);
    assert StartsDistinct(u.starts, u.clients);
    hide StartsDistinct;
  }

  lemma LostStartKeepsInv(w: World, i: nat)
    requires SystemInv(w) && i < |w.starts|
    ensures SystemInv(Next(w, LoseStart(i)))
  {
    hide CapsuleInv, CapsuleAdvances, InterruptsBarred, InterruptsDistinct, ProviderKept, ProviderBarred,
         Without, Started, BindingsHeld, InterruptsHeld, TurnsBound;
    WithoutKeeps(w.starts, i);
  }

  lemma LostInterruptKeepsInv(w: World, i: nat)
    requires SystemInv(w) && i < |w.interrupts|
    ensures SystemInv(Next(w, LoseInterrupt(i)))
  {
    hide CapsuleInv, CapsuleAdvances, StartsBarred, StartsDistinct, ProviderKept, ProviderBarred,
         Without, BindingsHeld, TurnsBound, Holds;
    WithoutKeeps(w.interrupts, i);
  }

  lemma SentInterruptKeepsInv(w: World, i: nat)
    requires SystemInv(w) && i < |w.interrupts|
    ensures SystemInv(Next(w, SendInterrupt(i)))
  {
    hide CapsuleInv, CapsuleAdvances, StartsBarred, StartsDistinct, ProviderKept, ProviderBarred,
         Without, BindingsHeld, TurnsBound, Holds;
    WithoutKeeps(w.interrupts, i);
  }

  /** Output appended to a turn leaves its one user message, hence every correlation, alone. */
  lemma ProducedKeepsTurn(t: CodexTurn, status: ProviderStatus, produced: seq<ThreadItem>, key: ExecutionKey, text: Id)
    requires |t.items| >= 1 && forall item <- produced :: !item.UserMessage?
    ensures WellKept(t.(status := status, items := t.items + produced), key, text) <==> WellKept(t, key, text)
  {
    var after := t.items + produced;
    assert forall m :: 1 <= m < |t.items| ==> after[m] == t.items[m];
    assert forall m :: |t.items| <= m < |after| ==> after[m] == produced[m - |t.items|];
  }

  lemma ProgressKeepsProvider(w: World, i: nat, status: ProviderStatus, produced: seq<ThreadItem>)
    requires ProviderKept(w.provider, w.clients) && i < |w.provider| && forall item <- produced :: !item.UserMessage?
    ensures var u := Next(w, Progress(i, status, produced));
            && ProviderKept(u.provider, u.clients)
            && (forall v :: ProviderBarred(w.provider, w.clients, v) ==> ProviderBarred(u.provider, u.clients, v))
            && (forall id, k :: Holds(w.provider, w.clients, id, k) ==> Holds(u.provider, u.clients, id, k))
  {
    hide WellKept, Started, Holds;
    var t := w.provider[i];
    var u := Next(w, Progress(i, status, produced));
    forall key, text ensures WellKept(u.provider[i], key, text) <==> WellKept(t, key, text) {
      ProducedKeepsTurn(t, status, produced, key, text);
    }
    HoldsGrows(w, u);
    assert u.provider[i].items[0] == t.items[0];
    forall j, text | 0 <= j < |w.provider|
      ensures WellKept(u.provider[j], u.clients[j], text) <==> WellKept(w.provider[j], w.clients[j], text)
    {}
    forall j | 0 <= j < |w.provider| ensures KeptFor(u.provider[j], u.clients[j]) {
      var text :| WellKept(w.provider[j], w.clients[j], text);
      assert WellKept(u.provider[j], u.clients[j], text);
    }
    hide KeptFor;
  }

  lemma ProgressKeepsInv(w: World, i: nat, status: ProviderStatus, produced: seq<ThreadItem>)
    requires SystemInv(w) && i < |w.provider| && forall item <- produced :: !item.UserMessage?
    ensures SystemInv(Next(w, Progress(i, status, produced)))
  {
    hide CapsuleInv, CapsuleAdvances, StartsBarred, StartsDistinct, ProviderKept, ProviderBarred, InterruptsBarred,
         InterruptsDistinct, Holds;
    ProgressKeepsProvider(w, i, status, produced);
  }

  lemma CrashKeepsInv(w: World)
    requires SystemInv(w)
    ensures SystemInv(Next(w, Crash))
  {
    hide CapsuleInv, CapsuleAdvances, ProviderKept, ProviderBarred, TurnsBound, Holds;
    AdvancesReflexive(w.store.disk);
  }

  // ---- Reconciliation ------------------------------------------------------------------

  /** The turn the provider holds for a key, if any. */
  ghost function Held(provider: seq<CodexTurn>, clients: seq<ExecutionKey>, key: ExecutionKey, n: nat): Option<CodexTurn>
    requires n <= |provider| == |clients|
  {
    if n == 0 then None
    else if clients[n - 1] == key then Some(provider[n - 1])
    else Held(provider, clients, key, n - 1)
  }

  lemma {:induction false} HeldIsHeld(provider: seq<CodexTurn>, clients: seq<ExecutionKey>, key: ExecutionKey, n: nat)
    requires n <= |provider| == |clients|
    ensures Held(provider, clients, key, n).Some? <==> key in clients[..n]
    ensures Held(provider, clients, key, n).Some? ==>
              var t := Held(provider, clients, key, n).value;
              Holds(provider, clients, t.id, key) && t in provider
  {
    if n > 0 {
      HeldIsHeld(provider, clients, key, n - 1);
      assert clients[..n] == clients[..n - 1] + [clients[n - 1]];
    }
  }

  lemma {:induction false} SearchFindsHeld(w: World, v: Capsule, key: ExecutionKey, n: nat)
    requires ProviderKept(w.provider, w.clients) && ViewInv(w, v) && key in v.turns && n <= |w.provider|
    ensures MatchesInThread(w.provider[..n], v.turns[key].intent)
         == Ok(if Held(w.provider, w.clients, key, n).Some? then [Held(w.provider, w.clients, key, n).value] else [])
  {
    hide WellKept, MatchesInItems, CapsuleInv, InterruptsBarred, StartsBarred, TurnsBound, Holds;
    if n > 0 {
      SearchFindsHeld(w, v, key, n - 1);
      var intent := v.turns[key].intent;
      KeyedIntent(w, v, key);
      var t := w.provider[n - 1];
      var text :| WellKept(t, w.clients[n - 1], text);
      assert Started(v, w.clients[n - 1], text);
      WellKeptMatches(t, w.clients[n - 1], text, |t.items|, intent);
      assert t.items[..|t.items|] == t.items;
      assert w.provider[..n][..n - 1] == w.provider[..n - 1] && w.provider[..n][n - 1] == t;
      KeptInFull(t, w.clients[n - 1], text);
      if w.clients[n - 1] == key {
        assert key !in w.clients[..n - 1];
        HeldIsHeld(w.provider, w.clients, key, n - 1);
        assert [] + [t] == [t];
      } else {
        var before := MatchesInThread(w.provider[..n - 1], intent).value;
        assert before + [] == before;
      }
    }
  }

  lemma KeyedIntent(w: World, v: Capsule, key: ExecutionKey)
    requires CapsuleInv(w.identity, v) && key in v.turns
    ensures v.turns[key].intent.clientMessageId == key && KeyOf(v.turns[key].input) == key
  {
    hide Validates;
    ValidTurn(w.identity, v, key);
  }

  /** Reconciliation never errs and never sees two matches: it returns the provider's one turn for
      the key, or nothing when no start for that key was ever received. */
  lemma ReconciliationIsExact(w: World, v: Capsule, key: ExecutionKey)
    requires ProviderKept(w.provider, w.clients) && ViewInv(w, v) && key in v.turns
    ensures var r := Reconciled(w.provider, v.turns[key].intent);
            && r.Ok? && (r.value.Some? <==> key in w.clients)
            && (r.value.Some? ==> r.value.value in w.provider && Holds(w.provider, w.clients, r.value.value.id, key))
  {
    hide ViewInv, WellKept, Holds, MatchesInThread;
    var n := |w.provider|;
    SearchFindsHeld(w, v, key, n);
    assert w.provider[..n] == w.provider && w.clients[..n] == w.clients;
    HeldIsHeld(w.provider, w.clients, key, n);
  }

  lemma ReadKeepsInv(w: World, key: ExecutionKey)
    requires SystemInv(w) && key in w.store.memory.turns
    ensures SystemInv(Next(w, ReadThread(key)))
  {
    hide CapsuleInv, CapsuleAdvances, StartsBarred, StartsDistinct, ProviderKept, ProviderBarred, InterruptsBarred,
         InterruptsDistinct, InterruptsHeld, TurnsBound, Holds, Reconciled;
    ReconciliationIsExact(w, w.store.memory, key);
    KeyedIntent(w, w.store.memory, key);
  }

  // ---- Every run -----------------------------------------------------------------------

  lemma NextKeepsInv(w: World, a: Action)
    requires SystemInv(w)
    ensures SystemInv(Next(w, a))
  {
    hide SystemInv, Mutate, Permitted, Authorise;
    match a
    case Operate(op, write) => OperationKeepsInv(w, op, write);
    case SendStart(i, newTurnId) =>
      if i < |w.starts| && forall t <- w.provider :: t.id != newTurnId { SentStartKeepsInv(w, i, newTurnId); }
    case LoseStart(i) => if i < |w.starts| { LostStartKeepsInv(w, i); }
    case ReadThread(key) => if key in w.store.memory.turns { ReadKeepsInv(w, key); }
    case SendInterrupt(i) => if i < |w.interrupts| { SentInterruptKeepsInv(w, i); }
    case LoseInterrupt(i) => if i < |w.interrupts| { LostInterruptKeepsInv(w, i); }
    case Progress(i, status, produced) =>
      if i < |w.provider| && forall item <- produced :: !item.UserMessage? { ProgressKeepsInv(w, i, status, produced); }
    case Crash => CrashKeepsInv(w);
  }

  lemma {:induction false} RunKeepsInv(w: World, actions: seq<Action>)
    requires SystemInv(w)
    ensures SystemInv(Run(w, actions))
  {
    hide SystemInv, Next;
    if actions != [] {
      RunKeepsInv(w, actions[..|actions| - 1]);
      NextKeepsInv(Run(w, actions[..|actions| - 1]), actions[|actions| - 1]);
    }
  }

  lemma RunNothing(w: World)
    ensures Run(w, []) == w
  {}

  lemma RunThen(w: World, before: seq<Action>, a: Action)
    ensures Run(w, before + [a]) == Next(Run(w, before), a)
  {
    assert (before + [a])[..|before|] == before;
  }

  lemma {:induction false} RunConcat(w: World, before: seq<Action>, after: seq<Action>)
    ensures Run(w, before + after) == Run(Run(w, before), after)
  {
    hide Next;
    if after == [] {
      assert before + after == before;
    } else {
      RunConcat(w, before, after[..|after| - 1]);
      assert (before + after)[..|before + after| - 1] == before + after[..|after| - 1];
    }
  }
}
