/** The drivers that retire, resolve and install a delivery's grant: bounded retry loops over a
    journal others keep changing, in a process that may die at every await. */
module RuntimeAuthority {
  import opened Common
  import Lease = DeliveryLease
  import opened HostStream
  import opened Journal
  import opened JournalSystem

  /** How a driver's call ended: as asked, transition pending, thrown, or its process died. */
  datatype Outcome = Done | Pending | Threw | Died

  /** The trusted inputs a grant is compiled from: the policy grant, the workspace, what the local
      policy and the Mission allow, and what the adapter can do. */
  datatype AuthorityInput = AuthorityInput(
    deliveryId: Id, policyGrant: Id, workspace: Id, maxTurnSeconds: nat, maxReportedTokens: nat,
    maxWallTimeSeconds: nat, tokenBudget: nat, artifactTypes: set<Id>, missionExpiresAt: int,
    recovery: bool, cancellation: bool)

  function ActiveLease(d: Delivery): Option<RelayLease> { if Lease.Active(d.status) then d.lease else None }

  const DAY_MS := 86_400_000

  function AuthorityLimits(turnMs: nat, reportedTokens: nat, artifactTypes: set<Id>): Limits {
    Limits(turnMs, reportedTokens, DEFAULT_POLICY.maxOutputBytes, DEFAULT_POLICY.maxArtifacts,
           DEFAULT_POLICY.maxArtifactBytes, artifactTypes)
  }

  function SourcesOf(input: AuthorityInput): Sources {
    Sources(
      AuthorityLimits(DAY_MS, DEFAULT_POLICY.maxTokens, input.artifactTypes),
      AuthorityLimits(input.maxTurnSeconds * 1_000, input.maxReportedTokens, input.artifactTypes),
      AuthorityLimits(input.maxWallTimeSeconds * 1_000, input.tokenBudget, input.artifactTypes),
      AuthorityLimits(DAY_MS, DEFAULT_POLICY.maxTokens, input.artifactTypes))
  }

  function CapabilitiesOf(input: AuthorityInput): seq<Capability> {
    [RuntimeStart] + (if input.recovery then [RuntimeRecover] else [])
    + (if input.cancellation then [RuntimeCancel] else [])
    + [WorkspaceRead, UsageReport, ArtifactPublish, OutboundPublish]
  }

  /** The grant for an entry's lease, its hard deadline kept from the grant it replaces or replays. */
  function Compiled(input: AuthorityInput, e: Entry, persisted: Option<Grant>, retained: Option<Grant>, now: int)
    : Option<Grant>
  {
    if !e.delivery.status.Executing? || e.delivery.lease.None? then None
    else
      var lease := e.delivery.lease.value;
      var effective := Intersected(SourcesOf(input));
      var turnExpiresAt := if retained.Some? then retained.value.hardExpiresAt else now + effective.turnMs;
      var hardExpiresAt := if input.missionExpiresAt < turnExpiresAt then input.missionExpiresAt else turnExpiresAt;
      if lease.expiresAt <= now || hardExpiresAt <= now then None
      else
        var grant := Grant(
          GrantId(e.delivery.deliveryId, e.executionAttempt, lease.leaseId, lease.fence, input.policyGrant, input.workspace),
          if persisted.Some? then persisted.value.leaseExpiresAt else lease.expiresAt, hardExpiresAt,
          CapabilitiesOf(input), SourcesOf(input), effective);
        if GrantParses(grant) then Some(grant) else None
  }

  /** The inputs give the grant's policy, workspace, capabilities and limit sources, and the Mission
      lasts at least as long as the grant. */
  predicate Trusts(input: AuthorityInput, g: Grant) {
    && g.id.policyGrant == input.policyGrant && g.id.workspace == input.workspace
    && g.capabilities == CapabilitiesOf(input) && g.sources == SourcesOf(input)
    && g.hardExpiresAt <= input.missionExpiresAt
  }

  predicate IsLeast(n: int, a: int, b: int, c: int) { n <= a && n <= b && n <= c && (n == a || n == b || n == c) }

  /** What a grant compiled from these inputs may do, in terms of the inputs: the product's limit, the
      local policy's and the Mission's, whichever is least, and the actions the adapter supports. */
  predicate LimitedBy(input: AuthorityInput, g: Grant) {
    && IsLeast(g.effective.turnMs, DAY_MS, 1_000 * input.maxTurnSeconds, 1_000 * input.maxWallTimeSeconds)
    && IsLeast(g.effective.reportedTokens, 100_000_000, input.maxReportedTokens, input.tokenBudget)
    && g.effective.outputBytes == 256 * 1_024 && g.effective.artifactCount == 16
    && g.effective.artifactBytes == 16 * 1_048_576 && g.effective.artifactTypes == input.artifactTypes
    && Elements(g.capabilities) == {RuntimeStart, WorkspaceRead, UsageReport, ArtifactPublish, OutboundPublish}
                                   + (if input.recovery then {RuntimeRecover} else {})
                                   + (if input.cancellation then {RuntimeCancel} else {})
    && Unique(g.capabilities)
  }

  predicate InputWellFormed(input: AuthorityInput) {
    && input.maxTurnSeconds > 0 && input.maxReportedTokens > 0 && input.maxWallTimeSeconds > 0 && input.tokenBudget > 0
    && |input.artifactTypes| <= 32
  }

  lemma CapabilitiesAre(input: AuthorityInput)
    ensures Elements(CapabilitiesOf(input)) == {RuntimeStart, WorkspaceRead, UsageReport, ArtifactPublish, OutboundPublish}
                                               + (if input.recovery then {RuntimeRecover} else {})
                                               + (if input.cancellation then {RuntimeCancel} else {})
    ensures Unique(CapabilitiesOf(input))
  {}

  /** A fresh grant is compiled exactly for an executing delivery whose lease, and whose Mission, has not
      expired. It is the lease's and the input's, limited by the inputs, and ends with the Mission or
      when the least turn limit has run, whichever comes first. */
  lemma CompiledIff(input: AuthorityInput, e: Entry, now: int)
    requires InputWellFormed(input) && DeliveryParses(e.delivery)
    ensures var g := Compiled(input, e, None, None, now);
            && (g.Some? <==>
                  && e.delivery.status.Executing? && now < e.delivery.lease.value.expiresAt
                  && now < input.missionExpiresAt)
            && (g.Some? ==>
                  && g.value.id == GrantId(e.delivery.deliveryId, e.executionAttempt, e.delivery.lease.value.leaseId,
                                           e.delivery.lease.value.fence, input.policyGrant, input.workspace)
                  && g.value.leaseExpiresAt == e.delivery.lease.value.expiresAt
                  && LimitedBy(input, g.value) && Narrows(g.value)
                  && g.value.hardExpiresAt in {input.missionExpiresAt, now + g.value.effective.turnMs}
                  && g.value.hardExpiresAt <= input.missionExpiresAt
                  && g.value.hardExpiresAt - now <= g.value.sources.product.turnMs
                  && g.value.hardExpiresAt - now <= g.value.sources.local.turnMs
                  && g.value.hardExpiresAt - now <= g.value.sources.mission.turnMs
                  && g.value.hardExpiresAt - now <= g.value.sources.runtime.turnMs)
  {
    var g := Compiled(input, e, None, None, now);
    CapabilitiesAre(input);
    hide CapabilitiesOf, Elements, Narrows;
    if g.Some? {
      ParsedNarrows(g.value);
      IntersectedIsGreatest(SourcesOf(input), g.value.effective);
    }
  }

  lemma CompiledIsTrusted(input: AuthorityInput, e: Entry, persisted: Option<Grant>, retained: Option<Grant>, now: int)
    requires Compiled(input, e, persisted, retained, now).Some?
    ensures Trusts(input, Compiled(input, e, persisted, retained, now).value)
  {}

  /** When anything is compiled for this entry and time: it executes, and neither its lease nor the
      grant it has to keep has expired. */
  predicate Compilable(e: Entry, g: Grant, now: int) {
    && e.delivery.status.Executing? && e.delivery.lease.Some? && now < e.delivery.lease.value.expiresAt
    && now < g.hardExpiresAt
  }

  /** Recompiling an installed grant gives that grant exactly when its inputs are unchanged and nothing
      has expired. */
  lemma RecompilesIff(input: AuthorityInput, key: Id, e: Entry, now: int)
    requires EntryParses(key, e) && e.active.Some?
    ensures Compiled(input, e, e.active, e.active, now) == e.active <==>
              Trusts(input, e.active.value) && Compilable(e, e.active.value, now)
  {
    hide Intersected;
  }

  /** A grant compiled for the next lease succeeds its predecessor exactly when it is compiled from the
      predecessor's inputs. */
  lemma SucceedsIff(input: AuthorityInput, key: Id, e: Entry, now: int)
    requires EntryParses(key, e) && e.predecessor.Some?
    ensures var g, next := e.predecessor.value, Compiled(input, e, None, e.predecessor, now);
            next.Some? && Succeeds(g, next.value) <==> Trusts(input, g) && Compilable(e, g, now)
  {
    hide Intersected;
  }

  /** The answer the resolver reaches for an entry that names a grant. */
  predicate Resolves(input: AuthorityInput, e: Entry, now: int) {
    if e.active.Some? then Compiled(input, e, e.active, e.active, now) == e.active
    else
      var next := Compiled(input, e, None, e.predecessor, now);
      && next.Some? && e.delivery.lease.Some?
      && var l := e.delivery.lease.value;
         Checkpointed(e, next.value, Some(Expectation(l.leaseId, l.fence, l.expiresAt, None, IdOf(e.predecessor)))).Ok?
  }

  /** Through every run of renewals, new leases, successors, torn saves and crashes that does not
      retire the delivery, the inputs a grant was once compiled from resolve its successor exactly
      while the delivery executes and neither lease nor first hard deadline has passed; and inputs
      that differ never do. */
  lemma ResolvesIff(w: World, actions: seq<Action>, g: Grant, input: AuthorityInput, now: int)
    requires AuthorityInv(w) && ScopeInv(w, g) && forall a <- actions :: !Retires(a, g.id.deliveryId)
    ensures var e := Run(w, actions).store.memory;
            && g.id.deliveryId in e
            && (Resolves(input, e[g.id.deliveryId], now) <==>
                  Trusts(input, g) && Compilable(e[g.id.deliveryId], g, now))
  {
    hide Run, Compiled, Succeeds;
    var key := g.id.deliveryId;
    ScopeNeverWidens(w, actions, g);
    RunKeepsAuthority(w, actions);
    var e := Run(w, actions).store.memory[key];
    assert EntryParses(key, e);
    assert SameScope(g, NamedGrant(e).value);
    if e.active.Some? { RecompilesIff(input, key, e, now); } else { SucceedsIff(input, key, e, now); }
  }

  /** An entry that names no grant resolves exactly while it executes and neither its lease nor the
      Mission has expired. */
  lemma FirstGrantResolvesIff(input: AuthorityInput, key: Id, e: Entry, now: int)
    requires InputWellFormed(input) && EntryParses(key, e) && NamedGrant(e).None?
    ensures Resolves(input, e, now) <==>
              e.delivery.status.Executing? && now < e.delivery.lease.value.expiresAt && now < input.missionExpiresAt
  {
    CompiledIff(input, e, now);
    hide Compiled;
  }

  // ---- What can still happen -----------------------------------------------------------

  lemma RunThen(w: World, before: seq<Action>, a: Action)
    ensures Run(w, before + [a]) == Next(Run(w, before), a)
  {
    assert (before + [a])[..|before|] == before;
  }

  lemma RunOne(w: World, a: Action)
    ensures Run(w, [a]) == Next(w, a)
  {
    assert [a][..0] == [];
  }

  ghost predicate Sound(w: World) { AuthorityInv(w) && FenceInv(w) }

  lemma ReachedIsSound(actions: seq<Action>)
    ensures Sound(Run(Boot(), actions))
  {
    hide Run, Named;
    BootHasAuthority();
    RunKeepsAuthority(Boot(), actions);
    FloorsOnlyAdvance(Boot(), actions);
  }

  lemma SoundEntry(w: World, key: Id)
    requires Sound(w) && key in w.store.memory
    ensures EntryParses(key, w.store.memory[key]) && EntryFollows(w, key, w.store.memory[key]) && Parses(w.store.memory)
  {
    hide Named, EntryParses, EntryFollows;
  }

  lemma OneEntrySaved(w: World, u: Update, next: Entry)
    requires Parses(w.store.memory) && Target(u) in w.store.memory && Permitted(w, u)
    requires UpdatedEntry(w.store.memory[Target(u)], u) == Ok(next) && EntryParses(Target(u), next)
    ensures var j := w.store.memory[Target(u) := next];
            Next(w, Write(u, Saved))
            == w.(store := Store(j, j), known := if u.Checkpoint? then w.known + {u.grant.id} else w.known)
  {
    hide Permitted, UpdatedEntry, EntryParses;
    var j := w.store.memory[Target(u) := next];
    assert Mutated(w.store.memory, u) == Ok(j);
    assert Parses(j);
  }

  /** Whatever a delivery's entry names in any reached world can be retired. */
  lemma EveryNameCanBeRetired(actions: seq<Action>, key: Id)
    requires key in Run(Boot(), actions).store.memory
    ensures exists more :: var j := Run(Run(Boot(), actions), more).store.memory;
                           key in j && j[key].active.None? && j[key].predecessor.None?
  {
    hide Run, EntryFollows, GrantFits, DeliveryParses;
    var w := Run(Boot(), actions);
    ReachedIsSound(actions);
    SoundEntry(w, key);
    var e := w.store.memory[key];
    var retire := Retire(key, e.active, e.predecessor);
    var named := if e.predecessor.Some? then e.predecessor else e.active;
    if named.Some? {
      var revoke := RevokeReturned(named.value.id);
      var x := Next(w, revoke);
      OneEntrySaved(x, retire, e.(active := None, predecessor := None));
      RunOne(w, revoke);
      RunThen(w, [revoke], Write(retire, Saved));
      assert key in Run(w, [revoke] + [Write(retire, Saved)]).store.memory;
    } else {
      OneEntrySaved(w, retire, e);
      RunOne(w, Write(retire, Saved));
      assert key in Run(w, [Write(retire, Saved)]).store.memory;
    }
  }

  lemma CanInstall(w: World, g: GrantId)
    requires g in w.known && g !in w.revoked
    ensures g in Next(w, JournalSystem.Install(g)).held
  {}

  /** The grant the resolver arrives at. */
  function Resolution(input: AuthorityInput, e: Entry, now: int): Option<Grant> {
    Compiled(input, e, e.active, if e.active.Some? then e.active else e.predecessor, now)
  }

  lemma CheckpointWorks(w: World, key: Id, input: AuthorityInput, now: int)
    requires Sound(w) && key in w.store.memory && w.store.memory[key].active.None?
    requires Resolves(input, w.store.memory[key], now)
    requires w.store.memory[key].predecessor.Some? ==> w.store.memory[key].predecessor.value.id in w.revoked
    ensures var e, g := w.store.memory[key], Resolution(input, w.store.memory[key], now);
            && g.Some? && e.delivery.lease.Some?
            && var l := e.delivery.lease.value;
               var u := Checkpoint(key, g.value, Some(Expectation(l.leaseId, l.fence, l.expiresAt, None, IdOf(e.predecessor))));
               && g.value.id in Next(w, Write(u, Saved)).known
               && Next(w, Write(u, Saved)).revoked == w.revoked
  {
    SoundEntry(w, key);
    var e := w.store.memory[key];
    var g := Resolution(input, e, now).value;
    CompiledIsForEntry(input, e, e.active, e.predecessor, now);
    CompiledParses(input, e, e.active, e.predecessor, now);
    hide Compiled, Named, AuthorityInv, FenceInv, GrantParses;
    var l := e.delivery.lease.value;
    var u := Checkpoint(key, g, Some(Expectation(l.leaseId, l.fence, l.expiresAt, None, IdOf(e.predecessor))));
    hide Succeeds;
    OneEntrySaved(w, u, e.(active := Some(g), predecessor := None));
    hide Next;
  }

  lemma CompiledParses(input: AuthorityInput, e: Entry, persisted: Option<Grant>, retained: Option<Grant>, now: int)
    requires Compiled(input, e, persisted, retained, now).Some?
    ensures GrantParses(Compiled(input, e, persisted, retained, now).value)
    ensures Compiled(input, e, persisted, retained, now).value.id.executionAttempt == e.executionAttempt
  {
    hide GrantParses;
  }

  /** Whenever the inputs resolve the grant of a delivery in a reached world, some continuation holds
      exactly that grant in a Capsule, unless this process revoked it. */
  lemma ResolvedGrantCanBeHeld(actions: seq<Action>, key: Id, input: AuthorityInput, now: int)
    requires key in Run(Boot(), actions).store.memory
    requires Resolves(input, Run(Boot(), actions).store.memory[key], now)
    ensures var w := Run(Boot(), actions);
            var g := Resolution(input, w.store.memory[key], now);
            g.Some? && (g.value.id !in w.revoked ==> exists more :: g.value.id in Run(w, more).held)
  {
    hide Run, Compiled, Named;
    var w := Run(Boot(), actions);
    ReachedIsSound(actions);
    var e := w.store.memory[key];
    var g := Resolution(input, e, now);
    if e.active.Some? {
      var more := [Learn(key)];
      RunOne(w, Learn(key));
      if g.value.id !in w.revoked {
        CanInstall(Next(w, Learn(key)), g.value.id);
        RunThen(w, more, JournalSystem.Install(g.value.id));
        assert g.value.id in Run(w, more + [JournalSystem.Install(g.value.id)]).held;
      }
    } else {
      var before := if e.predecessor.Some? then [RevokeReturned(e.predecessor.value.id)] else [];
      var x := Run(w, before);
      RevokedPredecessor(w, key);
      CheckpointWorks(x, key, input, now);
      var l := e.delivery.lease.value;
      var u := Checkpoint(key, g.value, Some(Expectation(l.leaseId, l.fence, l.expiresAt, None, IdOf(e.predecessor))));
      SoundEntry(w, key);
      if g.value.id !in w.revoked {
        CompiledIsForEntry(input, e, e.active, e.predecessor, now);
        RunThen(w, before, Write(u, Saved));
        CanInstall(Next(x, Write(u, Saved)), g.value.id);
        RunThen(w, before + [Write(u, Saved)], JournalSystem.Install(g.value.id));
        assert g.value.id in Run(w, before + [Write(u, Saved)] + [JournalSystem.Install(g.value.id)]).held;
      }
    }
  }

  lemma RevokedPredecessor(w: World, key: Id)
    requires Sound(w) && key in w.store.memory
    ensures var p := w.store.memory[key].predecessor;
            var x := Run(w, if p.Some? then [RevokeReturned(p.value.id)] else []);
            && Sound(x) && x.store == w.store
            && x.revoked == w.revoked + if p.Some? then {p.value.id} else {}
  {
    var p := w.store.memory[key].predecessor;
    if p.Some? {
      var a := RevokeReturned(p.value.id);
      RunOne(w, a);
      hide Run;
      NextKeepsAuthority(w, a);
      NextKeepsFences(w, a);
      hide Sound;
    }
  }

  // ---- The shared system ---------------------------------------------------------------

  /** What a process still knows later: what was started, revoked or known stays so, and a grant the
      journal named is still named or has been revoked. */
  ghost predicate Remembers(w: World, later: World) {
    && w.started <= later.started && w.revoked <= later.revoked && w.known <= later.known
    && forall g :: Named(w.store.memory, g) ==> Named(later.store.memory, g) || g in later.revoked
  }

  lemma RemembersTransitive(w: World, x: World, y: World)
    requires Remembers(w, x) && Remembers(x, y)
    ensures Remembers(w, y)
  {}

  lemma RemembersItself(w: World)
    ensures Remembers(w, w)
  {}

  lemma RevokedStays(w: World, later: World, g: GrantId)
    requires Remembers(w, later) && g in w.revoked
    ensures g in later.revoked
  {}

  lemma StartedStays(w: World, later: World, s: (Id, nat))
    requires Remembers(w, later) && s in w.started
    ensures s in later.started
  {}

  lemma NextRemembers(w: World, a: Action)
    requires AuthorityInv(w) && !a.Crash?
    ensures Remembers(w, Next(w, a))
  {
    hide Named, Mutated, Permitted, Parses;
    if a.Write? && Permitted(w, a.update) && Mutated(w.store.memory, a.update).Ok? {
      forall g | Named(w.store.memory, g) && g !in w.revoked
        ensures Named(Mutated(w.store.memory, a.update).value, g)
      {
        UpdateKeepsNames(w, a.update, g);
      }
    }
  }

  class SharedJournal {
    var world: World
    ghost var history: seq<Action>
    /** What stood in the way so far: operations that failed or awaits that changed something, and
        deaths of a driver's process. */
    ghost var troubles: nat
    ghost var deaths: nat

    constructor ()
      ensures Valid() && world == Boot()
    {
      world, history, troubles, deaths := Boot(), [], 0, 0;
    }

    ghost predicate Since(trouble: nat, died: nat)
      reads this
    {
      trouble <= troubles && died <= deaths
    }

    ghost predicate Valid()
      reads this
    {
      world == Run(Boot(), history)
    }

    method Do(a: Action)
      requires Valid()
      modifies this
      ensures Valid() && world == Next(old(world), a) && troubles == old(troubles) && deaths == old(deaths)
      ensures !a.Crash? ==> Remembers(old(world), world)
    {
      hide Next, Remembers, AuthorityInv;
      if !a.Crash? {
        BootHasAuthority();
        RunKeepsAuthority(Boot(), history);
        NextRemembers(world, a);
      }
      world := Next(world, a);
      RunThen(Boot(), history, a);
      history := history + [a];
    }

    /** An await: others act until the driver resumes, unless its process died meanwhile. */
    method Await() returns (alive: bool)
      requires Valid()
      modifies this
      ensures Valid() && (alive ==> Remembers(old(world), world)) && Since(old(troubles), old(deaths))
      ensures world == old(world) || troubles > old(troubles)
      ensures deaths == old(deaths) + if alive then 0 else 1
    {
      hide Next, Run, Named;
      var others: seq<Action> := *;
      alive := true;
      for i := 0 to |others|
        invariant Valid() && (alive ==> Remembers(old(world), world)) && troubles == old(troubles) && deaths == old(deaths)
      {
        alive := alive && !others[i].Crash?;
        ghost var before := world;
        Do(others[i]);
        if alive { RemembersTransitive(old(world), before, world); }
      }
      if world != old(world) { troubles := troubles + 1; }
      if !alive { deaths := deaths + 1; }
    }

    /** One journal write; the save may fail or be torn. */
    method Update(u: Journal.Update) returns (r: Result<Entries, JournalError>)
      requires Valid() && Permitted(world, u)
      modifies this
      ensures Valid() && world.held == old(world).held && Remembers(old(world), world) && deaths == old(deaths)
      ensures troubles == old(troubles) + if r.Err? then 1 else 0
      ensures r.Ok? ==> world.store.memory == r.value && Mutated(old(world).store.memory, u) == r && Parses(r.value)
      ensures r.Ok? && u.Checkpoint? ==> u.grant.id in world.known
    {
      hide Mutated, Permitted, Run, Parses, Remembers;
      var save: SaveOutcome := *;
      r := Save(world.store, u, save).1;
      Do(Write(u, save));
      if r.Err? { troubles := troubles + 1; }
    }

    /** The port's contract: when a revocation returns, the grant's Capsule is retired. */
    method RevokeAuthority(grant: Grant) returns (returned: bool)
      requires Valid()
      modifies this
      ensures Valid() && Remembers(old(world), world) && (returned ==> grant.id in world.revoked)
      ensures world.store == old(world).store && deaths == old(deaths)
      ensures troubles == old(troubles) + if returned then 0 else 1
    {
      hide Run, Named;
      returned := *;
      if returned { Do(RevokeReturned(grant.id)); } else { troubles := troubles + 1; }
    }
  }

  // ---- The drivers ---------------------------------------------------------------------

  const MAX_TRANSITION_ATTEMPTS := 4

  /** Reasons not to resolve that the journal and the clock give: the delivery is not journaled, has no
      active lease, its grant is another lease's, or the inputs compile to no grant or to another one. */
  predicate Unresolvable(j: Entries, input: AuthorityInput, now: int) {
    input.deliveryId in j ==>
      var e := j[input.deliveryId];
      || ActiveLease(e.delivery).None?
      || (e.active.Some? && !OfLease(e.active.value, ActiveLease(e.delivery).value))
      || Resolution(input, e, now).None? || (e.active.Some? && Resolution(input, e, now) != e.active)
  }

  /** The journaled lease is the grant's and no older, and the grant was not revoked meanwhile. */
  predicate Installable(w: World, grant: Grant) {
    && grant.id.deliveryId in w.store.memory && grant.id !in w.revoked
    && var lease := ActiveLease(w.store.memory[grant.id.deliveryId].delivery);
       lease.Some? && OfLease(grant, lease.value) && grant.leaseExpiresAt <= lease.value.expiresAt
  }

  class DeliveryRuntimeAuthority {
    const shared: SharedJournal
    const hasPort: bool

    constructor (shared: SharedJournal, hasPort: bool)
      ensures this.shared == shared && this.hasPort == hasPort
    {
      this.shared, this.hasPort := shared, hasPort;
    }

    /** Retires the exact durable grant before its name may be discarded: when it reports success,
        the journal names nothing for the delivery and no Capsule holds a grant of it. */
    method RetireJournaled(deliveryId: Id) returns (o: Outcome)
      requires shared.Valid()
      modifies shared
      ensures shared.Valid()
      ensures o.Done? ==>
                && deliveryId in shared.world.store.memory
                && shared.world.store.memory[deliveryId].active.None?
                && shared.world.store.memory[deliveryId].predecessor.None?
                && forall g <- shared.world.held :: g.deliveryId != deliveryId
      ensures shared.Since(old(shared.troubles), old(shared.deaths))
      ensures o.Pending? ==> !hasPort || shared.troubles > old(shared.troubles)
      ensures o.Threw? ==> deliveryId !in shared.world.store.memory || shared.troubles > old(shared.troubles)
      ensures o.Died? ==> shared.deaths > old(shared.deaths)
    {
      hide Run, Parses;
      for attempt := 0 to MAX_TRANSITION_ATTEMPTS
        invariant shared.Valid() && shared.Since(old(shared.troubles), old(shared.deaths))
        invariant attempt > 0 ==> shared.troubles > old(shared.troubles)
      {
        var alive := shared.Await();
        if !alive { return Died; }
        if deliveryId !in shared.world.store.memory { return Threw; }
        var entry := shared.world.store.memory[deliveryId];
        var grant := if entry.predecessor.Some? then entry.predecessor else entry.active;
        if grant.None? {
          UnnamedIsUnheld(shared.history, deliveryId);
          return Done;
        }
        if !hasPort { return Pending; }
        var returned := shared.RevokeAuthority(grant.value);
        if !returned { return Pending; }
        alive := shared.Await();
        if !alive { return Died; }
        var r := shared.Update(Retire(deliveryId, entry.active, entry.predecessor));
        if r.Ok? {
          UnnamedIsUnheld(shared.history, deliveryId);
          return Done;
        }
        if r.error != InputsChanged { return Threw; }
      }
      return Pending;
    }

    /** What a resolved grant is, in the process that resolved it since `start`. */
    ghost predicate Resolved(input: AuthorityInput, start: World, grant: Option<Grant>)
      reads shared
    {
      && grant.Some? && grant.value.id in shared.world.known
      && grant.value.id.deliveryId == input.deliveryId && Trusts(input, grant.value)
      && Named(shared.world.store.memory, grant.value.id)
      && (input.deliveryId, grant.value.id.fence) in shared.world.started
      && forall g: GrantId :: g.deliveryId == input.deliveryId && Named(start.store.memory, g) ==>
           g == grant.value.id || g in shared.world.revoked
    }

    /** The end of one attempt: compile the grant, and replay it or checkpoint it. Nothing is decided when
        the entry changed under the checkpoint. */
    method CheckpointCompiled(input: AuthorityInput, ghost start: World)
      returns (o: Option<Outcome>, grant: Option<Grant>, ghost at: int)
      requires shared.Valid() && Remembers(start, shared.world) && input.deliveryId in shared.world.store.memory
      requires var e := shared.world.store.memory[input.deliveryId];
               ActiveLease(e.delivery).Some? && (e.predecessor.Some? ==> e.predecessor.value.id in shared.world.revoked)
      modifies shared
      ensures shared.Valid() && shared.Since(old(shared.troubles), old(shared.deaths))
      ensures o == Some(Done) ==> Resolved(input, start, grant)
      ensures o == Some(Threw) ==>
                shared.troubles > old(shared.troubles) || Unresolvable(shared.world.store.memory, input, at)
      ensures o == Some(Died) ==> shared.deaths > old(shared.deaths)
      ensures o != Some(Pending)
      ensures o == None ==> shared.troubles > old(shared.troubles) && Remembers(start, shared.world)
    {
      hide Run, Parses, Compiled, Trusts, Remembers, Named;
      var id := input.deliveryId;
      var current := shared.world.store.memory[id];
      var l := ActiveLease(current.delivery).value;
      var now: int := *;
      at := now;
      EntryIsSound(shared.history, id);
      var retained := if current.active.Some? then current.active else current.predecessor;
      var compiled := Compiled(input, current, current.active, retained, now);
      if compiled.None? { return Some(Threw), None, at; }
      CompiledIsTrusted(input, current, current.active, retained, now);
      CompiledIsForEntry(input, current, current.active, retained, now);
      ghost var w := shared.world;
      if current.active.Some? {
        if current.active != compiled { return Some(Threw), None, at; }
        shared.Do(Learn(id));
        RemembersTransitive(start, w, shared.world);
        OthersAreRevoked(start, shared.world, shared.history, compiled.value);
        return Some(Done), compiled, at;
      }
      var alive := shared.Await();
      if !alive { return Some(Died), None, at; }
      RemembersTransitive(start, w, shared.world);
      StartedStays(w, shared.world, (id, compiled.value.id.fence));
      if current.predecessor.Some? { RevokedStays(w, shared.world, current.predecessor.value.id); }
      w := shared.world;
      var r := shared.Update(Checkpoint(id, compiled.value, Some(
        Expectation(l.leaseId, l.fence, l.expiresAt, None, IdOf(current.predecessor)))));
      RemembersTransitive(start, w, shared.world);
      if r.Err? { return if r.error == InputsChanged then None else Some(Threw), None, at; }
      StartedStays(w, shared.world, (id, compiled.value.id.fence));
      OthersAreRevoked(start, shared.world, shared.history, compiled.value);
      return Some(Done), compiled, at;
    }

    /** Reconstructs the grant of an executing delivery, revoking its predecessor first. What it returns
        was, in this process, read from or checkpointed in the journal, which names it; a start went out
        for its fence; and whatever other grant of the delivery was named at the call is revoked. */
    method ResolveGrant(input: AuthorityInput) returns (o: Outcome, grant: Option<Grant>, ghost at: int)
      requires shared.Valid()
      modifies shared
      ensures shared.Valid()
      ensures o.Done? ==> Resolved(input, old(shared.world), grant)
      ensures shared.Since(old(shared.troubles), old(shared.deaths))
      ensures o.Pending? ==> shared.troubles > old(shared.troubles)
      ensures o.Threw? ==> shared.troubles > old(shared.troubles) || Unresolvable(shared.world.store.memory, input, at)
      ensures o.Died? ==> shared.deaths > old(shared.deaths)
    {
      at := 0;
      hide Run, Parses, Compiled, Trusts, Remembers, Named;
      var id := input.deliveryId;
      ghost var start := shared.world;
      RemembersItself(start);
      for attempt := 0 to MAX_TRANSITION_ATTEMPTS
        invariant shared.Valid() && Remembers(start, shared.world) && shared.Since(old(shared.troubles), old(shared.deaths))
        invariant attempt > 0 ==> shared.troubles > old(shared.troubles)
      {
        ghost var w := shared.world;
        var alive := shared.Await();
        if !alive { return Died, None, at; }
        RemembersTransitive(start, w, shared.world);
        if id !in shared.world.store.memory { return Threw, None, at; }
        var current := shared.world.store.memory[id];
        var lease := ActiveLease(current.delivery);
        if lease.None? || (current.active.Some? && !OfLease(current.active.value, lease.value)) { return Threw, None, at; }
        var changed := false;
        if current.predecessor.Some? {
          var expected := current.predecessor.value;
          EntryIsSound(shared.history, id);
          w := shared.world;
          var returned := shared.RevokeAuthority(expected);
          if !returned { return Pending, None, at; }
          RemembersTransitive(start, w, shared.world);
          w := shared.world;
          alive := shared.Await();
          if !alive { return Died, None, at; }
          RemembersTransitive(start, w, shared.world);
          RevokedStays(w, shared.world, expected.id);
          if id !in shared.world.store.memory { return Threw, None, at; }
          current := shared.world.store.memory[id];
          changed := current.active.Some? || IdOf(current.predecessor) != Some(expected.id);
          lease := ActiveLease(current.delivery);
          if !changed && lease.None? { return Threw, None, at; }
        }
        if !changed {
          var ended: Option<Outcome>;
          ended, grant, at := CheckpointCompiled(input, start);
          if ended.Some? { return ended.value, grant, at; }
        }
      }
      return Pending, None, at;
    }

    /** Installs the resolved grant. The adapter takes it unless it was revoked in the meantime, so an
        installed grant is one the journal names. */
    method Install(input: AuthorityInput)
      returns (o: Outcome, grant: Option<Grant>, ghost at: int, ghost resolved: Option<Grant>)
      requires shared.Valid()
      modifies shared
      ensures shared.Valid()
      ensures o.Done? && grant.Some? ==>
                && grant.value.id in shared.world.held && grant.value.id.deliveryId == input.deliveryId
                && Named(shared.world.store.memory, grant.value.id) && Named(shared.world.store.disk, grant.value.id)
      ensures o.Done? && grant.None? ==> !hasPort
      ensures o.Done? && grant.Some? ==> grant == resolved && Trusts(input, grant.value)
      ensures o.Threw? ==>
                || shared.troubles > old(shared.troubles)
                || (if resolved.None? then Unresolvable(shared.world.store.memory, input, at)
                    else !Installable(shared.world, resolved.value))
      ensures shared.Since(old(shared.troubles), old(shared.deaths))
      ensures o.Pending? ==> shared.troubles > old(shared.troubles)
      ensures o.Died? ==> shared.deaths > old(shared.deaths)
    {
      hide Run, Parses, Named, Unresolvable;
      at, resolved := 0, None;
      if !hasPort { return Done, None, at, resolved; }
      o, grant, at := ResolveGrant(input);
      if !o.Done? { return; }
      resolved := grant;
      var alive := shared.Await();
      if !alive { return Died, None, at, resolved; }
      if input.deliveryId !in shared.world.store.memory { return Threw, None, at, resolved; }
      var lease := ActiveLease(shared.world.store.memory[input.deliveryId].delivery);
      if lease.None? || !OfLease(grant.value, lease.value) || lease.value.expiresAt < grant.value.leaseExpiresAt {
        return Threw, None, at, resolved;
      }
      alive := shared.Await();
      if !alive { return Died, None, at, resolved; }
      var g := grant.value.id;
      if g in shared.world.revoked { return Threw, None, at, resolved; }
      shared.Do(JournalSystem.Install(g));
      HeldIsNamed(shared.history, g);
    }
  }

  lemma UnnamedIsUnheld(history: seq<Action>, deliveryId: Id)
    requires var j := Run(Boot(), history).store.memory;
             deliveryId in j && j[deliveryId].active.None? && j[deliveryId].predecessor.None?
    ensures forall g <- Run(Boot(), history).held :: g.deliveryId != deliveryId
  {
    hide Run;
    HeldGrantsAreNamed(history);
  }

  lemma HeldIsNamed(history: seq<Action>, g: GrantId)
    requires var w := Run(Boot(), history); g in w.held
    ensures var w := Run(Boot(), history); Named(w.store.memory, g) && Named(w.store.disk, g)
  {
    hide Run, Named;
    HeldGrantsAreNamed(history);
  }

  /** Once a delivery's entry has this grant active, every other one it named is revoked. */
  lemma OthersAreRevoked(start: World, w: World, history: seq<Action>, grant: Grant)
    requires w == Run(Boot(), history) && Remembers(start, w) && grant.id.deliveryId in w.store.memory
    requires w.store.memory[grant.id.deliveryId].active == Some(grant)
    ensures Named(w.store.memory, grant.id)
    ensures forall g: GrantId :: g.deliveryId == grant.id.deliveryId && Named(start.store.memory, g) ==> g == grant.id || g in w.revoked
  {
    hide Run;
    EntryIsSound(history, grant.id.deliveryId);
  }

  lemma EntryIsSound(history: seq<Action>, deliveryId: Id)
    requires deliveryId in Run(Boot(), history).store.memory
    ensures var w := Run(Boot(), history);
            var d := w.store.memory[deliveryId].delivery;
            && EntryParses(deliveryId, w.store.memory[deliveryId])
            && (d.status.Executing? ==> (deliveryId, d.lastFence) in w.started)
  {
    hide Run, Named;
    assert AuthorityInv(Boot());
    RunKeepsAuthority(Boot(), history);
    FloorsOnlyAdvance(Boot(), history);
    var w := Run(Boot(), history);
    assert EntryParses(deliveryId, w.store.memory[deliveryId]);
    assert EntryFollows(w, deliveryId, w.store.memory[deliveryId]);
  }

  lemma CompiledIsForEntry(input: AuthorityInput, e: Entry, persisted: Option<Grant>, retained: Option<Grant>, now: int)
    requires Compiled(input, e, persisted, retained, now).Some?
    ensures var g := Compiled(input, e, persisted, retained, now).value;
            && e.delivery.status.Executing? && e.delivery.lease.Some? && OfLease(g, e.delivery.lease.value)
            && g.id.deliveryId == e.delivery.deliveryId
  {}
}
