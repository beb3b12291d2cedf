/** The journal, the relay it follows, the Capsules holding grants, and any number of concurrent
    drivers of one Node process as one transition system with torn saves and crashes. */
module JournalSystem {
  import opened Common
  import Lease = DeliveryLease
  import opened Journal

  /** A delivery as the relay stands: its newest fence, and whether it has ended. */
  datatype RelaySide = RelaySide(fence: nat, ended: bool)

  /** `relay` and `started` are the relay's: where each delivery stands, and the fences for which a
      start request was ever sent. `held`: grants a Capsule may still exercise. `revoked` and `known`
      live in the process: grants whose revocation returned, which the adapter refuses to install
      again, and grants some driver has read from the journal or checkpointed there. */
  datatype World = World(
    store: Store, relay: map<Id, RelaySide>, started: set<(Id, nat)>,
    held: set<GrantId>, revoked: set<GrantId>, known: set<GrantId>)

  datatype Action =
    | Write(update: Update, save: SaveOutcome)
    | RelayMoves(deliveryId: Id, side: RelaySide)
    | SendStart(deliveryId: Id)
    | Learn(deliveryId: Id)
    | Install(grant: GrantId)
    | RevokeReturned(grant: GrantId)
    | CapsuleGone(grant: GrantId)
    | Crash

  /** What the relay may say of a delivery, now or in a recorded answer: no fence it has not reached,
      execution only after a start was sent for that fence, and an end only at its last fence. */
  predicate Reported(w: World, d: Delivery) {
    && DeliveryParses(d) && d.deliveryId in w.relay && d.lastFence <= w.relay[d.deliveryId].fence
    && (d.status.Executing? ==> (d.deliveryId, d.lastFence) in w.started)
    && (Lease.Terminal(d.status) ==> w.relay[d.deliveryId] == RelaySide(d.lastFence, true))
  }

  /** The answer belongs to the journaled request: same operation, fence and lease. */
  predicate AnswersIntent(j: Entries, kind: LeaseOperation, d: Delivery) {
    && d.deliveryId in j && ResultParses(kind, d)
    && j[d.deliveryId].operation.Some? && j[d.deliveryId].operation.value.LeaseIntent?
    && var intent := j[d.deliveryId].operation.value;
       && intent.kind == kind && d.lastFence == intent.fence
       && (d.lease.Some? ==> d.lease.value.leaseId == intent.leaseId)
  }

  /** What the relay and the drivers owe a write. Deliveries are the relay's; a request presents the
      journaled lease and its answer comes back to it; a checkpoint states the entry it replaces and is
      for a started fence; and the grant a write makes the journal forget has been revoked. */
  predicate Permitted(w: World, u: Update) {
    match u
    case Upsert(d) => Reported(w, d)
    case Replace(d) => Reported(w, d)
    case Intend(deliveryId, LeaseIntent(_, leaseId, fence)) =>
      && deliveryId in w.store.memory && w.store.memory[deliveryId].delivery.lease.Some?
      && w.store.memory[deliveryId].delivery.lease.value.leaseId == leaseId
      && w.store.memory[deliveryId].delivery.lease.value.fence == fence
    case Intend(_, ClaimIntent) => true
    case Abandon(_) => true
    case ClaimAnswered(d) =>
      && Reported(w, d) && ClaimResultParses(d)
      && d.deliveryId in w.store.memory && w.store.memory[d.deliveryId].operation == Some(ClaimIntent)
    case Answered(kind, d) => Reported(w, d) && AnswersIntent(w.store.memory, kind, d)
    case Checkpoint(deliveryId, grant, expected) =>
      && (deliveryId, grant.id.fence) in w.started
      && expected.Some? && expected.value.active.None?
      && (expected.value.predecessor.Some? ==> expected.value.predecessor.value in w.revoked)
    case Retire(_, active, predecessor) =>
      var grant := if predecessor.Some? then predecessor else active;
      grant.Some? ==> grant.value.id in w.revoked
  }

  predicate PendsLeaseOperation(e: Entry) { e.operation.Some? && e.operation.value.LeaseIntent? }

  predicate PendsStart(e: Entry) { PendsLeaseOperation(e) && e.operation.value.kind.StartOp? }

  function Next(w: World, a: Action): World {
    match a
    case Write(u, save) =>
      if !Permitted(w, u) then w
      else
        var (store, r) := Save(w.store, u, save);
        w.(store := store, known := if r.Ok? && u.Checkpoint? then w.known + {u.grant.id} else w.known)
    case RelayMoves(deliveryId, side) =>
      if deliveryId in w.relay && (w.relay[deliveryId].ended || side.fence < w.relay[deliveryId].fence) then w
      else w.(relay := w.relay[deliveryId := side])
    case SendStart(deliveryId) =>
      if deliveryId in w.store.memory && PendsStart(w.store.memory[deliveryId]) then
        w.(started := w.started + {(deliveryId, w.store.memory[deliveryId].operation.value.fence)})
      else w
    case Learn(deliveryId) =>
      if deliveryId in w.store.memory && w.store.memory[deliveryId].active.Some? then
        w.(known := w.known + {w.store.memory[deliveryId].active.value.id})
      else w
    case Install(g) => if g in w.known && g !in w.revoked then w.(held := w.held + {g}) else w
    case RevokeReturned(g) => w.(held := w.held - {g}, revoked := w.revoked + {g})
    case CapsuleGone(g) => w.(held := w.held - {g})
    case Crash => w.(store := Store(w.store.disk, w.store.disk), revoked := {}, known := {})
  }

  function Run(w: World, actions: seq<Action>): World {
    if actions == [] then w else Next(Run(w, actions[..|actions| - 1]), actions[|actions| - 1])
  }

  function Boot(): World { World(Store(map[], map[]), map[], {}, {}, {}, {}) }

  // ---- No forgotten authority ----------------------------------------------------------

  predicate NamedIn(e: Entry, g: GrantId) { IdOf(e.active) == Some(g) || IdOf(e.predecessor) == Some(g) }

  predicate Named(j: Entries, g: GrantId) { g.deliveryId in j && NamedIn(j[g.deliveryId], g) }

  /** A held grant is named and not revoked; so is a known one, unless revoked; and the file names
      whatever memory does, revoked grants aside. */
  ghost predicate AuthorityInv(w: World) {
    && Parses(w.store.memory) && Parses(w.store.disk)
    && w.held !! w.revoked
    && (forall g <- w.held :: Named(w.store.memory, g))
    && (forall g <- w.known :: g in w.revoked || Named(w.store.memory, g))
    && (forall g :: Named(w.store.memory, g) ==> Named(w.store.disk, g) || g in w.revoked)
  }

  /** No accepted update forgets a grant whose revocation has not returned. */
  lemma UpdateKeepsNames(w: World, u: Update, g: GrantId)
    requires Parses(w.store.memory) && Permitted(w, u) && Mutated(w.store.memory, u).Ok?
    requires Named(w.store.memory, g) && g !in w.revoked
    ensures Named(Mutated(w.store.memory, u).value, g)
  {
    hide DeliveryParses, GrantFits, Reported, AnswersIntent;
    var e := w.store.memory[g.deliveryId];
    assert EntryParses(g.deliveryId, e);
  }

  lemma CheckpointNames(w: World, u: Update)
    requires Permitted(w, u) && u.Checkpoint? && Mutated(w.store.memory, u).Ok? && Parses(Mutated(w.store.memory, u).value)
    ensures Named(Mutated(w.store.memory, u).value, u.grant.id)
  {
    var next := Mutated(w.store.memory, u).value;
    assert EntryParses(u.deliveryId, next[u.deliveryId]);
  }

  lemma WriteKeepsAuthority(w: World, u: Update, save: SaveOutcome)
    requires AuthorityInv(w)
    ensures AuthorityInv(Next(w, Write(u, save)))
  {
    hide Mutated, Permitted, Named, Parses;
    var x := Next(w, Write(u, save));
    if Permitted(w, u) && Mutated(w.store.memory, u).Ok? && Parses(Mutated(w.store.memory, u).value) {
      var next := Mutated(w.store.memory, u).value;
      forall g | Named(w.store.memory, g) && g !in w.revoked ensures Named(next, g) { UpdateKeepsNames(w, u, g); }
      if u.Checkpoint? { CheckpointNames(w, u); }
    }
  }

  lemma MemoryParses(w: World)
    requires Parses(w.store.memory)
    ensures forall k <- w.store.memory :: EntryParses(k, w.store.memory[k])
  {}

  lemma NextKeepsAuthority(w: World, a: Action)
    requires AuthorityInv(w)
    ensures AuthorityInv(Next(w, a))
  {
    MemoryParses(w);
    hide Parses, Save;
    match a
    case Write(u, save) => WriteKeepsAuthority(w, u, save);
    case Learn(deliveryId) =>
      if deliveryId in w.store.memory { assert EntryParses(deliveryId, w.store.memory[deliveryId]); }
    case _ =>
  }

  lemma {:induction false} RunKeepsAuthority(w: World, actions: seq<Action>)
    requires AuthorityInv(w)
    ensures AuthorityInv(Run(w, actions))
  {
    hide AuthorityInv, Next;
    if actions != [] {
      RunKeepsAuthority(w, actions[..|actions| - 1]);
      NextKeepsAuthority(Run(w, actions[..|actions| - 1]), actions[|actions| - 1]);
    }
  }

  lemma BootHasAuthority()
    ensures AuthorityInv(Boot())
  {}

  /** No forgotten authority: in every run of updates, torn saves, checkpoints, retirements, late
      installs and crashes, each grant a Capsule may still hold is named, in memory and on file; no
      entry ever has both an active grant and a predecessor; so no delivery has two grants held. */
  lemma HeldGrantsAreNamed(actions: seq<Action>)
    ensures var w := Run(Boot(), actions);
            && (forall g <- w.held :: Named(w.store.memory, g) && Named(w.store.disk, g))
            && (forall k <- w.store.memory :: w.store.memory[k].active.None? || w.store.memory[k].predecessor.None?)
            && (forall k <- w.store.disk :: w.store.disk[k].active.None? || w.store.disk[k].predecessor.None?)
            && (forall g <- w.held, h <- w.held :: g.deliveryId == h.deliveryId ==> g == h)
  {
    hide Run, DeliveryParses, GrantFits, OfLease;
    var w := Run(Boot(), actions);
    assert AuthorityInv(Boot());
    RunKeepsAuthority(Boot(), actions);
    forall k <- w.store.memory ensures w.store.memory[k].active.None? || w.store.memory[k].predecessor.None? {
      assert EntryParses(k, w.store.memory[k]);
    }
    forall k <- w.store.disk ensures w.store.disk[k].active.None? || w.store.disk[k].predecessor.None? {
      assert EntryParses(k, w.store.disk[k]);
    }
  }

  /** Until its revocation returns or its Capsule is gone, a held grant stays held, hence named. */
  lemma {:induction false} NamedUntilRevoked(before: seq<Action>, after: seq<Action>, g: GrantId)
    requires g in Run(Boot(), before).held && RevokeReturned(g) !in after && CapsuleGone(g) !in after
    ensures var w := Run(Run(Boot(), before), after); g in w.held && Named(w.store.memory, g) && Named(w.store.disk, g)
  {
    assert AuthorityInv(Boot());
    hide Run, Named, Next;
    RunKeepsAuthority(Boot(), before);
    RunKeepsAuthority(Run(Boot(), before), after);
    StaysHeld(Run(Boot(), before), after, g);
  }

  lemma {:induction false} StaysHeld(w: World, actions: seq<Action>, g: GrantId)
    requires g in w.held && RevokeReturned(g) !in actions && CapsuleGone(g) !in actions
    ensures g in Run(w, actions).held
  {
    hide Save, Permitted;
    if actions != [] { StaysHeld(w, actions[..|actions| - 1], g); }
  }

  // ---- Scope ---------------------------------------------------------------------------

  /** Policy, workspace, capabilities, limits, execution attempt and hard deadline are those of the
      earlier grant. */
  predicate SameScope(g: Grant, next: Grant) {
    && next.id.policyGrant == g.id.policyGrant && next.id.workspace == g.id.workspace
    && next.id.executionAttempt == g.id.executionAttempt && next.hardExpiresAt == g.hardExpiresAt
    && next.capabilities == g.capabilities && next.sources == g.sources && next.effective == g.effective
    && next.id.fence >= g.id.fence
  }

  predicate ScopeKept(j: Entries, next: Entries, deliveryId: Id) {
    deliveryId in j && NamedGrant(j[deliveryId]).Some? ==>
      && deliveryId in next && NamedGrant(next[deliveryId]).Some?
      && SameScope(NamedGrant(j[deliveryId]).value, NamedGrant(next[deliveryId]).value)
  }

  lemma EntryKeepsScope(key: Id, e: Entry, u: Update)
    requires EntryParses(key, e) && UpdatedEntry(e, u).Ok? && !u.Retire? && NamedGrant(e).Some?
    ensures var next := NamedGrant(UpdatedEntry(e, u).value);
            next.Some? && SameScope(NamedGrant(e).value, next.value)
  {
    assert e.active.None? || e.predecessor.None?;
    hide EntryParses, CheckpointMatches;
  }

  lemma UpdateKeepsScope(j: Entries, u: Update, deliveryId: Id)
    requires Parses(j) && Mutated(j, u).Ok? && (u.Retire? ==> u.deliveryId != deliveryId)
    ensures ScopeKept(j, Mutated(j, u).value, deliveryId)
  {
    if deliveryId in j && NamedGrant(j[deliveryId]).Some? {
      assert EntryParses(deliveryId, j[deliveryId]);
      hide EntryParses, UpdatedEntry;
      if deliveryId == Target(u) { EntryKeepsScope(deliveryId, j[deliveryId], u); }
    }
  }

  predicate Retires(a: Action, deliveryId: Id) {
    a.Write? && a.update.Retire? && a.update.deliveryId == deliveryId
  }

  ghost predicate ScopeInv(w: World, g: Grant) {
    var d := g.id.deliveryId;
    && d in w.store.memory && NamedGrant(w.store.memory[d]).Some? && SameScope(g, NamedGrant(w.store.memory[d]).value)
    && d in w.store.disk && NamedGrant(w.store.disk[d]).Some? && SameScope(g, NamedGrant(w.store.disk[d]).value)
  }

  lemma NextKeepsScope(w: World, a: Action, g: Grant)
    requires AuthorityInv(w) && ScopeInv(w, g) && !Retires(a, g.id.deliveryId)
    ensures ScopeInv(Next(w, a), g)
  {
    hide Mutated, Parses, Named;
    if a.Write? && Permitted(w, a.update) && Mutated(w.store.memory, a.update).Ok? {
      UpdateKeepsScope(w.store.memory, a.update, g.id.deliveryId);
    }
  }

  /** Until the delivery is retired, no chain of renewals, new leases, successors, torn saves and
      crashes widens what its grant was trusted with or moves its hard deadline. */
  lemma {:induction false} ScopeNeverWidens(w: World, actions: seq<Action>, g: Grant)
    requires AuthorityInv(w) && ScopeInv(w, g) && forall a <- actions :: !Retires(a, g.id.deliveryId)
    ensures ScopeInv(Run(w, actions), g)
  {
    hide AuthorityInv, ScopeInv, Next;
    if actions != [] {
      var before := actions[..|actions| - 1];
      ScopeNeverWidens(w, before, g);
      RunKeepsAuthority(w, before);
      NextKeepsScope(Run(w, before), actions[|actions| - 1], g);
    }
  }

  /** The grant allows no more than any of its sources, and nothing every source allows is withheld. */
  ghost predicate Narrows(g: Grant) {
    && WithinAll(g.effective, g.sources)
    && forall l: Limits :: WithinAll(l, g.sources) ==> Within(l, g.effective)
  }

  ghost predicate NamesNarrow(e: Entry) {
    (e.active.Some? ==> Narrows(e.active.value)) && (e.predecessor.Some? ==> Narrows(e.predecessor.value))
  }

  lemma ParsedNarrows(g: Grant)
    requires GrantParses(g)
    ensures Narrows(g)
  {
    forall l: Limits ensures WithinAll(g.effective, g.sources) && (WithinAll(l, g.sources) ==> Within(l, g.effective)) {
      IntersectedIsGreatest(g.sources, l);
    }
  }

  lemma EntriesNarrow(j: Entries)
    requires Parses(j)
    ensures forall k <- j :: NamesNarrow(j[k])
  {
    hide GrantParses, Narrows;
    forall k <- j ensures NamesNarrow(j[k]) {
      assert EntryParses(k, j[k]);
      if j[k].active.Some? { ParsedNarrows(j[k].active.value); }
      if j[k].predecessor.Some? { ParsedNarrows(j[k].predecessor.value); }
    }
  }

  /** In every run, each grant named in memory or on file is limited by all four of its sources, and by
      nothing else. */
  lemma NamedGrantsNarrow(actions: seq<Action>)
    ensures var w := Run(Boot(), actions);
            && (forall k <- w.store.memory :: NamesNarrow(w.store.memory[k]))
            && (forall k <- w.store.disk :: NamesNarrow(w.store.disk[k]))
  {
    hide Run, Named, Parses, NamesNarrow;
    assert AuthorityInv(Boot()) by { BootHasAuthority(); }
    RunKeepsAuthority(Boot(), actions);
    EntriesNarrow(Run(Boot(), actions).store.memory);
    EntriesNarrow(Run(Boot(), actions).store.disk);
  }

  // ---- Fences --------------------------------------------------------------------------

  /** The fence no later write can undercut: the pending lease operation's, else the delivery's. */
  function Floor(e: Entry): nat {
    if PendsLeaseOperation(e) then e.operation.value.fence else e.delivery.lastFence
  }

  /** The delivery moved to a newer fence while a lease operation was waiting for its answer. */
  predicate Overtaken(e: Entry) { PendsLeaseOperation(e) && e.operation.value.fence < e.delivery.lastFence }

  predicate NamesStarted(started: set<(Id, nat)>, key: Id, g: Option<Grant>) {
    g.Some? ==> (key, g.value.id.fence) in started
  }

  /** An entry stays behind the relay, executes only what was started, names only started fences, and
      waits for no fence it has not reached. */
  predicate EntryFollows(w: World, key: Id, e: Entry) {
    && key in w.relay && e.delivery.lastFence <= w.relay[key].fence
    && (e.delivery.status.Executing? ==> (key, e.delivery.lastFence) in w.started)
    && NamesStarted(w.started, key, e.active) && NamesStarted(w.started, key, e.predecessor)
    && Floor(e) <= e.delivery.lastFence
  }

  predicate Follows(w: World, j: Entries) { forall k <- j :: EntryFollows(w, k, j[k]) }

  /** Every started fence is at or below its delivery's floor. */
  predicate StartsCovered(w: World, j: Entries) {
    forall s <- w.started :: s.0 in j && s.1 <= Floor(j[s.0])
  }

  predicate FloorsAdvance(j: Entries, next: Entries) {
    forall k <- j :: k in next && Floor(j[k]) <= Floor(next[k])
  }

  predicate FenceInv(w: World) {
    && Follows(w, w.store.memory) && Follows(w, w.store.disk)
    && StartsCovered(w, w.store.memory) && StartsCovered(w, w.store.disk)
    && FloorsAdvance(w.store.memory, w.store.disk)
  }

  lemma StagedFollows(w: World, e: Entry, d: Delivery)
    requires EntryFollows(w, d.deliveryId, e) && Reported(w, d) && Staged(e, d).Ok?
    ensures EntryFollows(w, d.deliveryId, Staged(e, d).value.(delivery := d))
    ensures Floor(e) <= Floor(Staged(e, d).value.(delivery := d))
    ensures EntryFollows(w, d.deliveryId, Staged(e, d).value.(delivery := d, operation := None))
    ensures e.delivery.lastFence <= d.lastFence
  {}

  /** One permitted write: the entry still follows the relay, its floor does not sink, and its fence
      moves back exactly when the write answers an overtaken operation. */
  lemma EntryUpdateFollows(w: World, u: Update)
    requires Target(u) in w.store.memory && EntryParses(Target(u), w.store.memory[Target(u)])
    requires EntryFollows(w, Target(u), w.store.memory[Target(u)]) && Permitted(w, u)
    requires UpdatedEntry(w.store.memory[Target(u)], u).Ok?
    requires EntryParses(Target(u), UpdatedEntry(w.store.memory[Target(u)], u).value)
    ensures var e, next := w.store.memory[Target(u)], UpdatedEntry(w.store.memory[Target(u)], u).value;
            && EntryFollows(w, Target(u), next) && Floor(e) <= Floor(next)
            && (next.delivery.lastFence < e.delivery.lastFence <==> u.Answered? && Overtaken(e))
  {
    var key := Target(u);
    var e := w.store.memory[key];
    match u
    case Upsert(d) => StagedFollows(w, e, d);
    case Replace(d) => StagedFollows(w, e, d);
    case ClaimAnswered(d) => if !d.status.DeadLettered? { StagedFollows(w, e, d); }
    case _ =>
  }

  lemma UpdateFollows(w: World, u: Update)
    requires Parses(w.store.memory) && Follows(w, w.store.memory) && Permitted(w, u)
    requires Mutated(w.store.memory, u).Ok? && Parses(Mutated(w.store.memory, u).value)
    ensures Follows(w, Mutated(w.store.memory, u).value)
    ensures FloorsAdvance(w.store.memory, Mutated(w.store.memory, u).value)
  {
    var j, next, key := w.store.memory, Mutated(w.store.memory, u).value, Target(u);
    assert EntryParses(key, next[key]);
    if key in j {
      assert EntryParses(key, j[key]) && EntryFollows(w, key, j[key]);
      hide EntryParses, UpdatedEntry, Permitted;
      EntryUpdateFollows(w, u);
    }
    hide EntryFollows, Floor, Permitted, UpdatedEntry;
    assert forall k <- j :: k != key ==> next[k] == j[k];
  }

  lemma CoveredFurther(w: World, j: Entries, next: Entries)
    requires StartsCovered(w, j) && FloorsAdvance(j, next)
    ensures StartsCovered(w, next)
  {}

  lemma WriteKeepsFences(w: World, u: Update, save: SaveOutcome)
    requires AuthorityInv(w) && FenceInv(w)
    ensures FenceInv(Next(w, Write(u, save)))
    ensures FloorsAdvance(w.store.memory, Next(w, Write(u, save)).store.memory)
  {
    hide Mutated, Parses, Named, Permitted, Floor, EntryFollows;
    var j := w.store.memory;
    var x := Next(w, Write(u, save));
    if Permitted(w, u) && Mutated(j, u).Ok? && Parses(Mutated(j, u).value) {
      var next := Mutated(j, u).value;
      UpdateFollows(w, u);
      CoveredFurther(w, j, next);
      assert Follows(x, j) && Follows(x, next) && Follows(x, w.store.disk) by { FollowsStarts(w, x); }
    } else {
      FollowsStarts(w, x);
    }
  }

  /** What entries follow is the relay and the starts, nothing else. */
  lemma FollowsStarts(w: World, x: World)
    requires x.relay == w.relay && x.started == w.started
    ensures forall j :: Follows(w, j) <==> Follows(x, j)
  {
    forall j ensures Follows(w, j) <==> Follows(x, j) {
      assert forall k <- j :: EntryFollows(w, k, j[k]) <==> EntryFollows(x, k, j[k]);
    }
  }

  lemma RelayKeepsFences(w: World, deliveryId: Id, side: RelaySide)
    requires FenceInv(w)
    ensures FenceInv(Next(w, RelayMoves(deliveryId, side)))
  {
    hide Floor;
    var x := Next(w, RelayMoves(deliveryId, side));
    forall j | Follows(w, j) ensures Follows(x, j) {
      forall k <- j ensures EntryFollows(x, k, j[k]) { assert EntryFollows(w, k, j[k]); }
    }
  }

  lemma StartKeepsFences(w: World, deliveryId: Id)
    requires FenceInv(w)
    ensures FenceInv(Next(w, SendStart(deliveryId)))
  {
    var x := Next(w, SendStart(deliveryId));
    forall j | Follows(w, j) ensures Follows(x, j) {
      forall k <- j ensures EntryFollows(x, k, j[k]) { assert EntryFollows(w, k, j[k]); }
    }
  }

  lemma NextKeepsFences(w: World, a: Action)
    requires AuthorityInv(w) && FenceInv(w)
    ensures FenceInv(Next(w, a)) && FloorsAdvance(w.store.memory, Next(w, a).store.memory)
  {
    hide Save, Permitted, Parses, Named, Floor, EntryFollows;
    match a
    case Write(u, save) => WriteKeepsFences(w, u, save);
    case RelayMoves(deliveryId, side) => RelayKeepsFences(w, deliveryId, side);
    case SendStart(deliveryId) => StartKeepsFences(w, deliveryId);
    case _ => FollowsStarts(w, Next(w, a));
  }

  lemma FloorsTransitive(i: Entries, j: Entries, k: Entries)
    requires FloorsAdvance(i, j) && FloorsAdvance(j, k)
    ensures FloorsAdvance(i, k)
  {}

  /** In every run, crashes, torn saves and late answers included, no delivery's floor ever sinks. */
  lemma {:induction false} FloorsOnlyAdvance(w: World, actions: seq<Action>)
    requires AuthorityInv(w) && FenceInv(w)
    ensures FenceInv(Run(w, actions)) && FloorsAdvance(w.store.memory, Run(w, actions).store.memory)
  {
    hide AuthorityInv, Next, Floor;
    if actions != [] {
      var before := actions[..|actions| - 1];
      FloorsOnlyAdvance(w, before);
      RunKeepsAuthority(w, before);
      NextKeepsFences(Run(w, before), actions[|actions| - 1]);
      FloorsTransitive(w.store.memory, Run(w, before).store.memory, Run(w, actions).store.memory);
    }
  }

  predicate FencedEntry(e: Entry) {
    && (e.active.Some? ==> e.active.value.id.fence <= e.delivery.lastFence)
    && (e.predecessor.Some? ==> e.predecessor.value.id.fence < e.delivery.lastFence)
  }

  /** In every run, in memory and on file, no grant the journal names has a fence beyond its
      delivery's, and a predecessor's is strictly older. */
  lemma NamedFencesAreBounded(actions: seq<Action>)
    ensures var w := Run(Boot(), actions);
            && (forall k <- w.store.memory :: FencedEntry(w.store.memory[k]))
            && (forall k <- w.store.disk :: FencedEntry(w.store.disk[k]))
  {
    hide Run, Named;
    var w := Run(Boot(), actions);
    RunKeepsAuthority(Boot(), actions);
    FloorsOnlyAdvance(Boot(), actions);
    EntriesAreFenced(w, w.store.memory);
    EntriesAreFenced(w, w.store.disk);
  }

  lemma EntriesAreFenced(w: World, j: Entries)
    requires Parses(j) && Follows(w, j) && StartsCovered(w, j)
    ensures forall k <- j :: FencedEntry(j[k])
  {
    hide GrantFits;
    forall k <- j ensures FencedEntry(j[k]) { assert EntryParses(k, j[k]) && EntryFollows(w, k, j[k]); }
  }

  /** Exactly when a write takes a delivery's fence back: when it stores the answer to a lease
      operation the delivery has meanwhile overtaken. Both fences are in the entry beforehand. */
  lemma FenceMovesBackIff(actions: seq<Action>, u: Update)
    requires var w := Run(Boot(), actions);
             && Target(u) in w.store.memory && Permitted(w, u)
             && Mutated(w.store.memory, u).Ok? && Parses(Mutated(w.store.memory, u).value)
    ensures var e := Run(Boot(), actions).store.memory[Target(u)];
            var next := Mutated(Run(Boot(), actions).store.memory, u).value[Target(u)];
            && (next.delivery.lastFence < e.delivery.lastFence <==> u.Answered? && Overtaken(e))
            && Floor(e) <= Floor(next)
  {
    hide Run, Named, Permitted, UpdatedEntry, EntryFollows, Floor, Overtaken;
    var w := Run(Boot(), actions);
    RunKeepsAuthority(Boot(), actions);
    FloorsOnlyAdvance(Boot(), actions);
    assert EntryParses(Target(u), w.store.memory[Target(u)]) && EntryFollows(w, Target(u), w.store.memory[Target(u)]);
    assert EntryParses(Target(u), Mutated(w.store.memory, u).value[Target(u)]);
    EntryUpdateFollows(w, u);
  }

  // ---- When fences never move back -----------------------------------------------------

  /** The update overtakes a lease operation that still waits for its answer. */
  predicate Overtakes(j: Entries, u: Update) {
    && (u.Upsert? || u.Replace?) && Target(u) in j && PendsLeaseOperation(j[Target(u)])
    && j[Target(u)].delivery.lastFence < u.delivery.lastFence
  }

  predicate NoneOvertaken(j: Entries) { forall k <- j :: !Overtaken(j[k]) }

  /** No update of the run overtakes an operation pending when it arrives. */
  predicate Undisturbed(w: World, actions: seq<Action>) {
    actions != [] ==>
      && Undisturbed(w, actions[..|actions| - 1])
      && (actions[|actions| - 1].Write? ==>
            !Overtakes(Run(w, actions[..|actions| - 1]).store.memory, actions[|actions| - 1].update))
  }

  predicate FencesAdvance(j: Entries, next: Entries) {
    forall k <- j :: k in next && j[k].delivery.lastFence <= next[k].delivery.lastFence
  }

  lemma UndisturbedUpdate(w: World, u: Update)
    requires AuthorityInv(w) && FenceInv(w) && NoneOvertaken(w.store.memory) && Permitted(w, u)
    requires Mutated(w.store.memory, u).Ok? && Parses(Mutated(w.store.memory, u).value)
    requires !Overtakes(w.store.memory, u)
    ensures NoneOvertaken(Mutated(w.store.memory, u).value)
    ensures FencesAdvance(w.store.memory, Mutated(w.store.memory, u).value)
  {
    var j, next, key := w.store.memory, Mutated(w.store.memory, u).value, Target(u);
    if key in j {
      assert EntryParses(key, j[key]) && EntryFollows(w, key, j[key]) && EntryParses(key, next[key]);
      EntryUpdateFollows(w, u);
      EntryNotOvertaken(w, u);
      hide EntryFollows, EntryParses, Permitted, UpdatedEntry;
      assert forall k <- j :: k != key ==> next[k] == j[k];
    }
  }

  lemma EntryNotOvertaken(w: World, u: Update)
    requires Target(u) in w.store.memory && !Overtaken(w.store.memory[Target(u)]) && Permitted(w, u)
    requires EntryParses(Target(u), w.store.memory[Target(u)]) && !Overtakes(w.store.memory, u)
    requires UpdatedEntry(w.store.memory[Target(u)], u).Ok?
    ensures !Overtaken(UpdatedEntry(w.store.memory[Target(u)], u).value)
  {
    hide GrantFits, Reported;
  }

  lemma NextUndisturbed(w: World, a: Action)
    requires AuthorityInv(w) && FenceInv(w) && (a.Write? ==> !Overtakes(w.store.memory, a.update))
    requires NoneOvertaken(w.store.memory) && NoneOvertaken(w.store.disk) && FencesAdvance(w.store.memory, w.store.disk)
    ensures var x := Next(w, a);
            && NoneOvertaken(x.store.memory) && NoneOvertaken(x.store.disk)
            && FencesAdvance(x.store.memory, x.store.disk) && FencesAdvance(w.store.memory, x.store.memory)
  {
    hide Mutated, Parses, Named, Permitted, Overtakes, Overtaken, Floor, EntryFollows;
    if a.Write? && Permitted(w, a.update) && Mutated(w.store.memory, a.update).Ok? {
      if Parses(Mutated(w.store.memory, a.update).value) { UndisturbedUpdate(w, a.update); }
    }
  }

  /** As long as no update overtakes a pending lease operation, no delivery's fence ever moves
      backwards, crashes and torn saves included. */
  lemma {:induction false} FencesOnlyAdvance(actions: seq<Action>)
    requires Undisturbed(Boot(), actions)
    ensures var w := Run(Boot(), actions);
            NoneOvertaken(w.store.memory) && NoneOvertaken(w.store.disk) && FencesAdvance(w.store.memory, w.store.disk)
    ensures forall i :: 0 <= i <= |actions| ==>
              FencesAdvance(Run(Boot(), actions[..i]).store.memory, Run(Boot(), actions).store.memory)
  {
    hide Next, Overtaken, Overtakes;
    if actions == [] {
      assert forall i :: 0 <= i <= |actions| ==> actions[..i] == [];
    } else {
      var before, w := actions[..|actions| - 1], Run(Boot(), actions[..|actions| - 1]);
      FencesOnlyAdvance(before);
      RunKeepsAuthority(Boot(), before);
      FloorsOnlyAdvance(Boot(), before);
      NextUndisturbed(w, actions[|actions| - 1]);
      forall i | 0 <= i <= |actions|
        ensures FencesAdvance(Run(Boot(), actions[..i]).store.memory, Run(Boot(), actions).store.memory)
      {
        if i < |actions| {
          assert before[..i] == actions[..i];
          assert FencesAdvance(Run(Boot(), before[..i]).store.memory, w.store.memory);
        } else {
          assert actions[..i] == actions;
        }
      }
    }
  }

  // ---- Attempts ------------------------------------------------------------------------

  predicate BeginsAttempt(u: Update) { u.Answered? && u.kind.ReleaseOp? && u.delivery.status.Stored? }

  /** The attempt number moves exactly when a release back to the relay is stored, and then by one. */
  lemma AttemptMovesIff(e: Entry, u: Update)
    requires UpdatedEntry(e, u).Ok?
    ensures UpdatedEntry(e, u).value.executionAttempt == e.executionAttempt + if BeginsAttempt(u) then 1 else 0
  {}

  predicate AttemptsAdvance(j: Entries, next: Entries) {
    forall k <- j :: k in next && j[k].executionAttempt <= next[k].executionAttempt
  }

  lemma NextKeepsAttempts(w: World, a: Action)
    requires AttemptsAdvance(w.store.memory, w.store.disk)
    ensures AttemptsAdvance(w.store.memory, Next(w, a).store.memory)
    ensures AttemptsAdvance(Next(w, a).store.memory, Next(w, a).store.disk)
  {
    hide Parses, Permitted, UpdatedEntry;
    if a.Write? && Target(a.update) in w.store.memory && UpdatedEntry(w.store.memory[Target(a.update)], a.update).Ok? {
      AttemptMovesIff(w.store.memory[Target(a.update)], a.update);
    }
  }

  /** In every run, no delivery's attempt number ever sinks; so a grant of an earlier attempt, whose id
      carries that number, is never compiled again. */
  lemma {:induction false} AttemptsOnlyAdvance(w: World, actions: seq<Action>)
    requires AttemptsAdvance(w.store.memory, w.store.disk)
    ensures var u := Run(w, actions);
            AttemptsAdvance(w.store.memory, u.store.memory) && AttemptsAdvance(u.store.memory, u.store.disk)
  {
    hide Next;
    if actions != [] {
      AttemptsOnlyAdvance(w, actions[..|actions| - 1]);
      NextKeepsAttempts(Run(w, actions[..|actions| - 1]), actions[|actions| - 1]);
    }
  }

  // ---- A run that moves a fence back ---------------------------------------------------

  function At(status: Lease.Status, fence: nat, leaseId: Id, expiresAt: int): Delivery {
    Delivery(1, 0, status, fence, Some(RelayLease(leaseId, fence, expiresAt)))
  }

  function Saving(u: Update): Action { Write(u, Saved) }

  /** A delivery is claimed and started, and its renewal recorded by the relay; the answer is lost. The
      lease lapses, and a claim sent long before reaches the relay, which issues fence 2. The Node
      reads that first, then repeats the renewal, and the relay replays what it recorded. */
  function ReplayedRenewal(): seq<Action> {
    [RelayMoves(1, RelaySide(1, false)),
     Saving(Upsert(At(Lease.Leased, 1, 3, 50))),
     Saving(Intend(1, LeaseIntent(StartOp, 3, 1))),
     SendStart(1),
     Saving(Answered(StartOp, At(Lease.Executing, 1, 3, 50))),
     Saving(Intend(1, LeaseIntent(RenewOp, 3, 1))),
     RelayMoves(1, RelaySide(2, false)),
     Saving(Upsert(At(Lease.Leased, 2, 4, 90))),
     Saving(Answered(RenewOp, At(Lease.Executing, 1, 3, 60)))]
  }

  /** A world that knows this one delivery, its entry saved. */
  function Alone(d: Delivery, operation: Option<Intent>, fence: nat, started: set<(Id, nat)>): World {
    var j := map[1 := Entry(d, 0, 1, None, None, operation)];
    World(Store(j, j), map[1 := RelaySide(fence, false)], started, {}, {}, {})
  }

  lemma RunStep(actions: seq<Action>, n: nat)
    requires n < |actions|
    ensures Run(Boot(), actions[..n + 1]) == Next(Run(Boot(), actions[..n]), actions[n])
  {
    assert actions[..n + 1][..n] == actions[..n];
  }

  lemma SaveAlone(d: Delivery, operation: Option<Intent>, fence: nat, started: set<(Id, nat)>, u: Update,
                  next: Delivery, nextOperation: Option<Intent>)
    requires !u.Checkpoint? && Target(u) == 1 && EntryParses(1, Entry(next, 0, 1, None, None, nextOperation))
    requires Permitted(Alone(d, operation, fence, started), u)
    requires UpdatedEntry(Entry(d, 0, 1, None, None, operation), u) == Ok(Entry(next, 0, 1, None, None, nextOperation))
    ensures Next(Alone(d, operation, fence, started), Saving(u)) == Alone(next, nextOperation, fence, started)
  {
    hide Permitted, UpdatedEntry, EntryParses;
    var w := Alone(d, operation, fence, started);
    var j := Alone(next, nextOperation, fence, started).store.memory;
    assert w.store.memory[1 := j[1]] == j;
    assert Mutated(w.store.memory, u) == Ok(j) && Parses(j);
  }

  lemma ClaimAlone(d: Delivery, fence: nat)
    requires d.deliveryId == 1 && d.identity == 0 && EntryParses(1, Entry(d, 0, 1, None, None, None))
    requires Reported(Next(Boot(), RelayMoves(1, RelaySide(fence, false))), d)
    ensures Next(Next(Boot(), RelayMoves(1, RelaySide(fence, false))), Saving(Upsert(d))) == Alone(d, None, fence, {})
  {
    hide EntryParses, Reported;
    var j := Alone(d, None, fence, {}).store.memory;
    assert Mutated(map[], Upsert(d)) == Ok(j) && Parses(j);
  }

  lemma StartGoesOut()
    ensures Run(Boot(), ReplayedRenewal()[..4]) ==
              Alone(At(Lease.Leased, 1, 3, 50), Some(LeaseIntent(StartOp, 3, 1)), 1, {(1, 1)})
  {
    var run, leased, start := ReplayedRenewal(), At(Lease.Leased, 1, 3, 50), LeaseIntent(StartOp, 3, 1);
    ClaimAlone(leased, 1);
    SaveAlone(leased, None, 1, {}, run[2].update, leased, Some(start));
    assert Next(Alone(leased, Some(start), 1, {}), run[3]) == Alone(leased, Some(start), 1, {(1, 1)});
    assert Run(Boot(), run[..0]) == Boot();
    hide Next, Run, Permitted;
    RunStep(run, 0); RunStep(run, 1); RunStep(run, 2); RunStep(run, 3);
  }

  lemma RenewalGoesUnanswered()
    ensures Run(Boot(), ReplayedRenewal()[..6]) ==
              Alone(At(Lease.Executing, 1, 3, 50), Some(LeaseIntent(RenewOp, 3, 1)), 1, {(1, 1)})
  {
    var run, s := ReplayedRenewal(), {(1, 1)};
    var leased, executing := At(Lease.Leased, 1, 3, 50), At(Lease.Executing, 1, 3, 50);
    SaveAlone(leased, Some(LeaseIntent(StartOp, 3, 1)), 1, s, run[4].update, executing, None);
    SaveAlone(executing, None, 1, s, run[5].update, executing, Some(LeaseIntent(RenewOp, 3, 1)));
    hide Next, Run, Permitted;
    StartGoesOut();
    RunStep(run, 4); RunStep(run, 5);
  }

  lemma NewLeaseIsRead()
    ensures Run(Boot(), ReplayedRenewal()[..8]) ==
              Alone(At(Lease.Leased, 2, 4, 90), Some(LeaseIntent(RenewOp, 3, 1)), 2, {(1, 1)})
  {
    var run, s, renew := ReplayedRenewal(), {(1, 1)}, Some(LeaseIntent(RenewOp, 3, 1));
    var executing, newer := At(Lease.Executing, 1, 3, 50), At(Lease.Leased, 2, 4, 90);
    assert Next(Alone(executing, renew, 1, s), run[6]) == Alone(executing, renew, 2, s);
    SaveAlone(executing, renew, 2, s, run[7].update, newer, renew);
    hide Next, Run, Permitted;
    RenewalGoesUnanswered();
    RunStep(run, 6); RunStep(run, 7);
  }

  /** Every answer of this run parses and belongs to its request, and every write succeeds, yet the
      journal goes from fence 2 back to fence 1. */
  lemma ReplayedAnswerMovesFenceBack()
    ensures var run := ReplayedRenewal();
            var before, after := Run(Boot(), run[..8]), Run(Boot(), run);
            && before.store.memory.Keys == {1} && before.store.memory[1].delivery == At(Lease.Leased, 2, 4, 90)
            && Permitted(before, run[8].update) && Overtaken(before.store.memory[1])
            && after.store.memory.Keys == {1} && after.store.memory[1].delivery == At(Lease.Executing, 1, 3, 60)
            && after.store.disk == after.store.memory
  {
    var run := ReplayedRenewal();
    SaveAlone(At(Lease.Leased, 2, 4, 90), Some(LeaseIntent(RenewOp, 3, 1)), 2, {(1, 1)}, run[8].update,
              At(Lease.Executing, 1, 3, 60), None);
    hide Next, Run;
    NewLeaseIsRead();
    RunStep(run, 8);
    assert run[..9] == run;
  }
}
