/** The Node journal's runtime-authority entries: what may be written, how a delivery update stages
    a successor, and how grants are checkpointed and cleared. */
module Journal {
  import opened Common
  import Lease = DeliveryLease

  datatype RelayLease = RelayLease(leaseId: Id, fence: nat, expiresAt: int)

  /** `identity` stands for every field a delivery never changes. */
  datatype Delivery = Delivery(
    deliveryId: Id, identity: Id, status: Lease.Status, lastFence: nat, lease: Option<RelayLease>)

  /** Grant ids are derived from exactly these fields. */
  datatype GrantId = GrantId(
    deliveryId: Id, executionAttempt: nat, leaseId: Id, fence: nat, policyGrant: Id, workspace: Id)

  datatype Capability =
    RuntimeStart | RuntimeRecover | RuntimeCancel | WorkspaceRead | UsageReport | ArtifactPublish | OutboundPublish

  datatype Limits = Limits(
    turnMs: nat, reportedTokens: nat, outputBytes: nat, artifactCount: nat, artifactBytes: nat, artifactTypes: set<Id>)

  datatype Sources = Sources(product: Limits, local: Limits, mission: Limits, runtime: Limits)

  datatype Grant = Grant(
    id: GrantId, leaseExpiresAt: int, hardExpiresAt: int, capabilities: seq<Capability>, sources: Sources,
    effective: Limits)

  /** The request a delivery waits for an answer to; lease operations name the lease they present. */
  datatype LeaseOperation = StartOp | RenewOp | CompleteOp | ReleaseOp
  datatype Intent = ClaimIntent | LeaseIntent(kind: LeaseOperation, leaseId: Id, fence: nat)

  datatype Entry = Entry(
    delivery: Delivery, identity: Id, executionAttempt: nat, active: Option<Grant>, predecessor: Option<Grant>,
    operation: Option<Intent>)

  type Entries = map<Id, Entry>

  datatype JournalError =
    | FenceMovedBack | LeaseChangedWithoutFence | ExpiryMovedBack | PredecessorPending | FenceDidNotAdvance
    | IdentityChanged | NotJournaled | InputsChanged | AuthorityChanged | ScopeChanged | StillNamed
    | Invalid | SaveFailed

  // ---- What may be saved ---------------------------------------------------------------

  predicate DeliveryParses(d: Delivery) {
    && (Lease.Active(d.status) <==> d.lease.Some?)
    && (d.lease.Some? ==> d.lease.value.fence == d.lastFence && d.lastFence >= 1)
  }

  function Min(a: nat, b: nat): nat { if a < b then a else b }

  function Narrowed(a: Limits, b: Limits): Limits {
    Limits(Min(a.turnMs, b.turnMs), Min(a.reportedTokens, b.reportedTokens), Min(a.outputBytes, b.outputBytes),
           Min(a.artifactCount, b.artifactCount), Min(a.artifactBytes, b.artifactBytes),
           a.artifactTypes * b.artifactTypes)
  }

  /** `intersectLimits`. */
  function Intersected(s: Sources): Limits { Narrowed(Narrowed(Narrowed(s.product, s.local), s.mission), s.runtime) }

  /** No limit of `a` exceeds its counterpart in `b`. */
  predicate Within(a: Limits, b: Limits) {
    && a.turnMs <= b.turnMs && a.reportedTokens <= b.reportedTokens && a.outputBytes <= b.outputBytes
    && a.artifactCount <= b.artifactCount && a.artifactBytes <= b.artifactBytes
    && a.artifactTypes <= b.artifactTypes
  }

  predicate WithinAll(l: Limits, s: Sources) {
    Within(l, s.product) && Within(l, s.local) && Within(l, s.mission) && Within(l, s.runtime)
  }

  /** The effective limits exceed none of the four sources, and are the widest that do so. */
  lemma IntersectedIsGreatest(s: Sources, l: Limits)
    ensures WithinAll(Intersected(s), s)
    ensures WithinAll(l, s) <==> Within(l, Intersected(s))
  {}

  predicate LimitsParse(l: Limits) {
    && l.turnMs > 0 && l.reportedTokens > 0 && l.outputBytes > 0 && l.artifactCount > 0 && l.artifactBytes > 0
    && |l.artifactTypes| <= 32
  }

  predicate GrantParses(g: Grant) {
    && Unique(g.capabilities) && g.effective == Intersected(g.sources)
    && LimitsParse(g.sources.product) && LimitsParse(g.sources.local) && LimitsParse(g.sources.mission)
    && LimitsParse(g.sources.runtime)
  }

  predicate GrantFits(e: Entry, g: Grant) {
    && GrantParses(g)
    && g.id.deliveryId == e.delivery.deliveryId && g.id.executionAttempt == e.executionAttempt
  }

  predicate OfLease(g: Grant, l: RelayLease) { g.id.leaseId == l.leaseId && g.id.fence == l.fence }

  predicate EntryParses(key: Id, e: Entry) {
    && e.delivery.deliveryId == key && e.identity == e.delivery.identity && DeliveryParses(e.delivery)
    && (e.active.Some? ==>
          GrantFits(e, e.active.value)
          && (e.delivery.lease.Some? ==> OfLease(e.active.value, e.delivery.lease.value)))
    && (e.predecessor.Some? ==>
          && GrantFits(e, e.predecessor.value) && e.active.None? && e.delivery.lease.Some?
          && e.predecessor.value.id.fence < e.delivery.lease.value.fence
          && e.predecessor.value.id.leaseId != e.delivery.lease.value.leaseId)
  }

  predicate Parses(j: Entries) { forall k <- j :: EntryParses(k, j[k]) }

  // ---- Updates -------------------------------------------------------------------------

  /** Moves an installed grant aside before the delivery advances to a newer fence. */
  function Staged(e: Entry, next: Delivery): Result<Entry, JournalError> {
    if next.lastFence < e.delivery.lastFence then Err(FenceMovedBack)
    else if next.lease.None? then
      Ok(if e.active.None? && e.predecessor.Some? then e.(active := e.predecessor, predecessor := None) else e)
    else
      var lease := next.lease.value;
      var held := e.delivery.lease;
      if held.Some? && lease.fence < held.value.fence then Err(FenceMovedBack)
      else if held.Some? && lease.fence == held.value.fence && held.value.leaseId != lease.leaseId then
        Err(LeaseChangedWithoutFence)
      else if held.Some? && lease.fence == held.value.fence && lease.expiresAt < held.value.expiresAt then
        Err(ExpiryMovedBack)
      else if e.active.Some? then
        var grant := e.active.value;
        if lease.fence < grant.id.fence then Err(FenceMovedBack)
        else if lease.fence == grant.id.fence then
          if grant.id.leaseId != lease.leaseId then Err(LeaseChangedWithoutFence) else Ok(e)
        else if e.predecessor.Some? then Err(PredecessorPending)
        else Ok(e.(active := None, predecessor := Some(grant)))
      else if e.predecessor.Some? && lease.fence <= e.predecessor.value.id.fence then Err(FenceDidNotAdvance)
      else Ok(e)
  }

  datatype Expectation = Expectation(
    leaseId: Id, fence: nat, leaseExpiresAt: int, active: Option<GrantId>, predecessor: Option<GrantId>)

  function IdOf(g: Option<Grant>): Option<GrantId> { if g.Some? then Some(g.value.id) else None }

  predicate CheckpointMatches(e: Entry, x: Expectation) {
    && e.delivery.lease == Some(RelayLease(x.leaseId, x.fence, x.leaseExpiresAt))
    && IdOf(e.active) == x.active && IdOf(e.predecessor) == x.predecessor
  }

  /** A successor differs from its predecessor in lease and fence alone, and its fence is newer. */
  predicate Succeeds(old_: Grant, next: Grant) {
    && next.id.fence > old_.id.fence
    && next.id.deliveryId == old_.id.deliveryId && next.id.executionAttempt == old_.id.executionAttempt
    && next.id.policyGrant == old_.id.policyGrant && next.id.workspace == old_.id.workspace
    && next.hardExpiresAt == old_.hardExpiresAt && next.capabilities == old_.capabilities
    && next.sources == old_.sources && next.effective == old_.effective
  }

  function Checkpointed(e: Entry, grant: Grant, expected: Option<Expectation>): Result<Entry, JournalError> {
    if expected.Some? && !CheckpointMatches(e, expected.value) then Err(InputsChanged)
    else if e.active.Some? && e.active.value != grant then Err(AuthorityChanged)
    else if e.active.None? && e.predecessor.Some? && !Succeeds(e.predecessor.value, grant) then Err(ScopeChanged)
    else Ok(e.(active := Some(grant), predecessor := None))
  }

  /** A checkpoint names the grant, and nothing else, and may be repeated. */
  lemma CheckpointAgain(e: Entry, grant: Grant, expected: Option<Expectation>)
    requires Checkpointed(e, grant, expected).Ok?
    ensures var next := Checkpointed(e, grant, expected).value;
            && NamedGrant(next) == Some(grant) && next.predecessor.None? && next.delivery == e.delivery
            && Checkpointed(next, grant, None) == Ok(next)
  {}

  /** The delivery a lease operation's answer may carry, by the receipt's status pairs. */
  predicate ResultParses(kind: LeaseOperation, d: Delivery) {
    && DeliveryParses(d)
    && match kind
       case StartOp => d.status.Executing?
       case RenewOp => Lease.Active(d.status)
       case CompleteOp => d.status.Acknowledged?
       case ReleaseOp => d.status.Stored? || d.status.DeadLettered?
  }

  predicate ClaimResultParses(d: Delivery) { DeliveryParses(d) && (d.status.Leased? || d.status.DeadLettered?) }

  /** One journal write. `Answered` stores a lease operation's answer as it is, without staging it; a
      claim's answer is staged unless the claim found the delivery dead. */
  datatype Update =
    | Upsert(delivery: Delivery)
    | Replace(delivery: Delivery)
    | Intend(deliveryId: Id, intent: Intent)
    | Abandon(deliveryId: Id)
    | ClaimAnswered(delivery: Delivery)
    | Answered(kind: LeaseOperation, delivery: Delivery)
    | Checkpoint(deliveryId: Id, grant: Grant, expected: Option<Expectation>)
    | Retire(deliveryId: Id, active: Option<Grant>, predecessor: Option<Grant>)

  function Target(u: Update): Id {
    match u
    case Checkpoint(deliveryId, _, _) => deliveryId
    case Retire(deliveryId, _, _) => deliveryId
    case Intend(deliveryId, _) => deliveryId
    case Abandon(deliveryId) => deliveryId
    case _ => u.delivery.deliveryId
  }

  function UpdatedEntry(e: Entry, u: Update): Result<Entry, JournalError> {
    match u
    case Upsert(d) => Advanced(e, d)
    case Replace(d) => Advanced(e, d)
    case Intend(_, intent) => Ok(e.(operation := Some(intent)))
    case Abandon(_) => Ok(e.(operation := None))
    case ClaimAnswered(d) =>
      if d.status.DeadLettered? then Ok(e.(delivery := d, operation := None))
      else
        var staged := Staged(e, d);
        if staged.Err? then staged else Ok(staged.value.(delivery := d, operation := None))
    case Answered(kind, d) =>
      if !(kind.ReleaseOp? && d.status.Stored?) then Ok(e.(delivery := d, operation := None))
      else if e.active.Some? || e.predecessor.Some? then Err(StillNamed)
      else Ok(e.(delivery := d, operation := None, executionAttempt := e.executionAttempt + 1))
    case Checkpoint(_, grant, expected) => Checkpointed(e, grant, expected)
    case Retire(_, active, predecessor) =>
      if e.active != active || e.predecessor != predecessor then Err(InputsChanged)
      else Ok(e.(active := None, predecessor := None))
  }

  function Advanced(e: Entry, d: Delivery): Result<Entry, JournalError> {
    if e.identity != d.identity || e.delivery.identity != d.identity then Err(IdentityChanged)
    else
      var staged := Staged(e, d);
      if staged.Err? then staged else Ok(staged.value.(delivery := d))
  }

  function Mutated(j: Entries, u: Update): Result<Entries, JournalError> {
    var key := Target(u);
    if key !in j then
      if u.Upsert? then Ok(j[key := Entry(u.delivery, u.delivery.identity, 1, None, None, None)]) else Err(NotJournaled)
    else
      var next := UpdatedEntry(j[key], u);
      if next.Err? then Err(next.error) else Ok(j[key := next.value])
  }

  /** The one grant an entry names. */
  function NamedGrant(e: Entry): Option<Grant> { if e.active.Some? then e.active else e.predecessor }

  /** The relay moved forward: no lower fence, and on the same fence the same lease, no shorter. */
  predicate Forward(e: Entry, d: Delivery) {
    && e.delivery.lastFence <= d.lastFence
    && (e.delivery.lease.Some? && d.lease.Some? && e.delivery.lastFence == d.lastFence ==>
          && e.delivery.lease.value.leaseId == d.lease.value.leaseId
          && e.delivery.lease.value.expiresAt <= d.lease.value.expiresAt)
  }

  /** The grant is of the new lease, or of an older fence and another lease. */
  predicate Places(g: Grant, l: RelayLease) {
    OfLease(g, l) || (g.id.fence < l.fence && g.id.leaseId != l.leaseId)
  }

  /** Exactly which delivery updates the journal takes, and where they leave the named grant: active
      while it is the current lease's or there is no lease, set aside once a newer fence is out. */
  lemma AdvanceAcceptedIff(key: Id, e: Entry, d: Delivery)
    requires EntryParses(key, e) && DeliveryParses(d) && d.deliveryId == key && d.identity == e.identity
    ensures var r, g := Advanced(e, d), NamedGrant(e);
            && (r.Ok? && EntryParses(key, r.value) <==>
                  && Forward(e, d)
                  && (g.Some? && d.lease.Some? ==> Places(g.value, d.lease.value))
                  && (e.predecessor.Some? && d.lease.Some? ==> g.value.id.fence < d.lease.value.fence))
            && (r.Ok? && EntryParses(key, r.value) ==>
                  var current := g.Some? && (d.lease.None? || OfLease(g.value, d.lease.value));
                  r.value == e.(delivery := d, active := if current then g else None,
                                predecessor := if current then None else g))
  {}

  /** Exactly which answers to a lease operation are stored: for this delivery, beside the grant of its
      lease or a predecessor of an older one; and a release back to the relay only beside none. The
      delivery is then the answer's, nothing is awaited, and a release has begun the next attempt. */
  lemma AnswerStoredIff(key: Id, e: Entry, kind: LeaseOperation, d: Delivery)
    requires EntryParses(key, e) && ResultParses(kind, d) && d.deliveryId == key
    ensures var r := UpdatedEntry(e, Answered(kind, d));
            var back := kind.ReleaseOp? && d.status.Stored?;
            && (r.Ok? && EntryParses(key, r.value) <==>
                  && d.identity == e.identity && (back ==> NamedGrant(e).None?)
                  && (e.active.Some? && d.lease.Some? ==> OfLease(e.active.value, d.lease.value))
                  && (e.predecessor.Some? ==> d.lease.Some? && Precedes(e.predecessor.value, d.lease.value)))
            && (r.Ok? ==>
                  r.value == e.(delivery := d, operation := None, executionAttempt := e.executionAttempt + if back then 1 else 0))
  {}

  predicate Precedes(g: Grant, l: RelayLease) { g.id.fence < l.fence && g.id.leaseId != l.leaseId }

  /** Exactly which claim results are stored. A new lease is taken as a delivery update is; a dead
      delivery is stored as long as no predecessor is named. Nothing is awaited then. */
  lemma ClaimStoredIff(key: Id, e: Entry, d: Delivery)
    requires EntryParses(key, e) && ClaimResultParses(d) && d.deliveryId == key
    ensures var r := UpdatedEntry(e, ClaimAnswered(d));
            && (r.Ok? && EntryParses(key, r.value) <==>
                  && d.identity == e.identity
                  && if d.status.DeadLettered? then e.predecessor.None?
                     else
                       && Advanced(e, d).Ok? && EntryParses(key, Advanced(e, d).value))
            && (r.Ok? && d.identity == e.identity ==>
                  r.value == if d.status.DeadLettered? then e.(delivery := d, operation := None)
                             else Advanced(e, d).value.(operation := None))
  {}

  // ---- In place ------------------------------------------------------------------------

  /** The clone of one entry a mutation works on. */
  class JournalDelivery {
    const identity: Id
    var delivery: Delivery
    var executionAttempt: nat
    var runtimeAuthority: Option<Grant>
    var runtimeAuthorityPredecessor: Option<Grant>
    var operation: Option<Intent>

    constructor (e: Entry)
      ensures View() == e
    {
      identity, delivery, executionAttempt := e.identity, e.delivery, e.executionAttempt;
      runtimeAuthority, runtimeAuthorityPredecessor, operation := e.active, e.predecessor, e.operation;
    }

    function View(): Entry
      reads this
    {
      Entry(delivery, identity, executionAttempt, runtimeAuthority, runtimeAuthorityPredecessor, operation)
    }

    /** A mutation either takes the entry to the specified one or reports the specified error; what a
        failed mutation left behind is discarded with the clone. */
    ghost predicate Did(spec: Result<Entry, JournalError>, r: Option<JournalError>)
      reads this
    {
      match spec
      case Ok(e) => r == None && View() == e
      case Err(error) => r == Some(error)
    }

    method StageRuntimeAuthoritySuccessor(next: Delivery) returns (r: Option<JournalError>)
      modifies this
      ensures Did(Staged(old(View()), next), r)
    {
      if next.lastFence < delivery.lastFence { return Some(FenceMovedBack); }
      if next.lease.None? {
        if runtimeAuthority.None? && runtimeAuthorityPredecessor.Some? {
          runtimeAuthority := runtimeAuthorityPredecessor;
          runtimeAuthorityPredecessor := None;
        }
        return None;
      }
      var nextLease := next.lease.value;
      if delivery.lease.Some? {
        var journaled := delivery.lease.value;
        if nextLease.fence < journaled.fence { return Some(FenceMovedBack); }
        if nextLease.fence == journaled.fence {
          if journaled.leaseId != nextLease.leaseId { return Some(LeaseChangedWithoutFence); }
          if nextLease.expiresAt < journaled.expiresAt { return Some(ExpiryMovedBack); }
        }
      }
      if runtimeAuthority.Some? {
        var current := runtimeAuthority.value;
        if nextLease.fence < current.id.fence { return Some(FenceMovedBack); }
        if nextLease.fence == current.id.fence {
          return if current.id.leaseId != nextLease.leaseId then Some(LeaseChangedWithoutFence) else None;
        }
        if runtimeAuthorityPredecessor.Some? { return Some(PredecessorPending); }
        runtimeAuthorityPredecessor := Some(current);
        runtimeAuthority := None;
        return None;
      }
      if runtimeAuthorityPredecessor.Some? && nextLease.fence <= runtimeAuthorityPredecessor.value.id.fence {
        return Some(FenceDidNotAdvance);
      }
      return None;
    }

    method Advance(next: Delivery) returns (r: Option<JournalError>)
      modifies this
      ensures Did(Advanced(old(View()), next), r)
    {
      if identity != next.identity || delivery.identity != next.identity { return Some(IdentityChanged); }
      r := StageRuntimeAuthoritySuccessor(next);
      if r.Some? { return; }
      delivery := next;
    }

    method CheckpointGrant(grant: Grant, expected: Option<Expectation>) returns (r: Option<JournalError>)
      modifies this
      ensures Did(Checkpointed(old(View()), grant, expected), r)
    {
      if expected.Some? && !CheckpointMatches(View(), expected.value) { return Some(InputsChanged); }
      if runtimeAuthority.Some? {
        if runtimeAuthority.value != grant { return Some(AuthorityChanged); }
      } else if runtimeAuthorityPredecessor.Some? && !Succeeds(runtimeAuthorityPredecessor.value, grant) {
        return Some(ScopeChanged);
      }
      runtimeAuthority := Some(grant);
      runtimeAuthorityPredecessor := None;
      return None;
    }

    /** Stores what a claim found: a new lease, staged, or the delivery's end. */
    method StoreClaim(next: Delivery) returns (r: Option<JournalError>)
      modifies this
      ensures Did(UpdatedEntry(old(View()), ClaimAnswered(next)), r)
    {
      operation := None;
      if !next.status.DeadLettered? {
        r := StageRuntimeAuthoritySuccessor(next);
        if r.Some? { return; }
      }
      delivery := next;
      return None;
    }

    /** Stores a lease operation's answer; a release back to the relay also archives the attempt. */
    method StoreAnswer(kind: LeaseOperation, next: Delivery) returns (r: Option<JournalError>)
      modifies this
      ensures Did(UpdatedEntry(old(View()), Answered(kind, next)), r)
    {
      if kind.ReleaseOp? && next.status.Stored? {
        if runtimeAuthority.Some? || runtimeAuthorityPredecessor.Some? { return Some(StillNamed); }
        executionAttempt := executionAttempt + 1;
      }
      delivery := next;
      operation := None;
      return None;
    }

    method Apply(u: Update) returns (r: Option<JournalError>)
      modifies this
      ensures Did(UpdatedEntry(old(View()), u), r)
    {
      match u {
        case Upsert(d) => r := Advance(d);
        case Replace(d) => r := Advance(d);
        case Intend(_, intent) =>
          operation := Some(intent);
          return None;
        case Abandon(_) =>
          operation := None;
          return None;
        case ClaimAnswered(d) => r := StoreClaim(d);
        case Answered(kind, d) => r := StoreAnswer(kind, d);
        case Checkpoint(_, grant, expected) => r := CheckpointGrant(grant, expected);
        case Retire(_, active, predecessor) =>
          if runtimeAuthority != active || runtimeAuthorityPredecessor != predecessor { return Some(InputsChanged); }
          runtimeAuthority, runtimeAuthorityPredecessor := None, None;
          return None;
      }
    }
  }

  /** How a save may go: done, not done, or done although an error was reported. */
  datatype SaveOutcome = Saved | NotSaved | SavedButFailed

  datatype Store = Store(memory: Entries, disk: Entries)

  function Save(s: Store, u: Update, save: SaveOutcome): (Store, Result<Entries, JournalError>) {
    match Mutated(s.memory, u)
    case Err(e) => (s, Err(e))
    case Ok(next) =>
      if !Parses(next) then (s, Err(Invalid))
      else
        match save
        case Saved => (Store(next, next), Ok(next))
        case NotSaved => (s, Err(SaveFailed))
        case SavedButFailed => (Store(s.memory, next), Err(SaveFailed))
  }

  /** The journal of one process over its file: clone, mutate, validate, save, publish. */
  class NodeJournal {
    var state: Entries
    var file: Entries

    constructor Open(stored: Entries)
      requires Parses(stored)
      ensures state == stored && file == stored
    {
      state, file := stored, stored;
    }

    method Mutate(u: Update) returns (r: Result<Entries, JournalError>)
      ensures r == Mutated(state, u)
    {
      hide UpdatedEntry;
      var key := Target(u);
      if key !in state {
        if !u.Upsert? { return Err(NotJournaled); }
        return Ok(state[key := Entry(u.delivery, u.delivery.identity, 1, None, None, None)]);
      }
      var entry := new JournalDelivery(state[key]);
      var failed := entry.Apply(u);
      return if failed.Some? then Err(failed.value) else Ok(state[key := entry.View()]);
    }

    method Update(u: Update, save: SaveOutcome) returns (r: Result<Entries, JournalError>)
      modifies this
      ensures (Store(state, file), r) == Save(old(Store(state, file)), u, save)
    {
      hide Mutated, Parses;
      r := Mutate(u);
      if r.Err? { return; }
      if !Parses(r.value) { return Err(Invalid); }
      if save.NotSaved? { return Err(SaveFailed); }
      file := r.value;
      if save.SavedButFailed? { return Err(SaveFailed); }
      state := r.value;
    }
  }
}
