/** Fenced delivery leases: the relay's transition function and what an adversarial stream of
    claims, stale, duplicated or reordered, can make it do. */
module DeliveryLease {
  import opened Common
  import opened Numerals

  datatype Status = Stored | Leased | Executing | Acknowledged | Cancelled | DeadLettered

  datatype State = State(
    status: Status, attemptCount: nat, maxAttempts: nat, lastToken: string,
    activeLease: Option<Id>, activeToken: Option<string>, leaseExpiresAt: Option<int>, logicallySettled: bool)

  datatype Claim = Claim(leaseId: Id, token: string, now: int)

  datatype Classification = Transient | Permanent | PolicyDenied

  datatype Event =
    | Lease(claim: Claim, expiresAt: int)
    | RenewLease(claim: Claim, expiresAt: int)
    | StartExecution(claim: Claim)
    | Acknowledge(claim: Claim)
    | Release(claim: Claim, classification: Classification)
    | LeaseExpired(claim: Claim)
    | Cancel(now: int)

  datatype LeaseError = InvalidTransition | Inactive | LeaseMismatch | Expired | InvalidTime | InvalidFencingToken

  predicate Active(status: Status) { status.Leased? || status.Executing? }

  predicate Terminal(status: Status) { status.Acknowledged? || status.Cancelled? || status.DeadLettered? }

  /** The transition table. */
  function Table(status: Status, e: Event): Option<Status> {
    match status
    case Stored => if e.Lease? then Some(Leased) else if e.Cancel? then Some(Cancelled) else None
    case Leased =>
      (match e
       case RenewLease(_, _) => Some(Leased)
       case StartExecution(_) => Some(Executing)
       case Release(_, _) => Some(Stored)
       case LeaseExpired(_) => Some(Stored)
       case Cancel(_) => Some(Cancelled)
       case _ => None)
    case Executing =>
      (match e
       case RenewLease(_, _) => Some(Executing)
       case Acknowledge(_) => Some(Acknowledged)
       case Release(_, _) => Some(Stored)
       case LeaseExpired(_) => Some(Stored)
       case Cancel(_) => Some(Cancelled)
       case _ => None)
    case _ => None
  }

  function Freed(s: State): State { s.(activeLease := None, activeToken := None, leaseExpiresAt := None) }

  function MatchingClaim(s: State, c: Claim): Option<LeaseError> {
    if !Active(s.status) then Some(Inactive)
    else if s.activeLease != Some(c.leaseId) then Some(LeaseMismatch)
    else if s.activeToken != Some(c.token) then Some(InvalidFencingToken)
    else if s.leaseExpiresAt.None? then Some(InvalidTime)
    else None
  }

  function ActiveClaim(s: State, c: Claim): Option<LeaseError> {
    var mismatch := MatchingClaim(s, c);
    if mismatch.Some? then mismatch
    else if c.now >= s.leaseExpiresAt.value then Some(Expired)
    else None
  }

  function ClaimError(s: State, e: Event): Option<LeaseError>
    requires !e.Lease? && !e.Cancel?
  {
    if !Active(s.status) then None
    else if e.LeaseExpired? then
      var mismatch := MatchingClaim(s, e.claim);
      if mismatch.Some? then mismatch
      else if e.claim.now < s.leaseExpiresAt.value then Some(InvalidTime)
      else None
    else ActiveClaim(s, e.claim)
  }

  function Transition(s: State, e: Event): Result<State, LeaseError> {
    var next := Table(s.status, e);
    if next.None? then Err(InvalidTransition)
    else if e.Lease? then
      if s.logicallySettled || s.attemptCount >= s.maxAttempts || e.claim.token != Decimal(s.attemptCount + 1) then
        Err(InvalidTransition)
      else if e.claim.now >= e.expiresAt then Err(InvalidTime)
      else
        Ok(s.(status := next.value, attemptCount := s.attemptCount + 1, lastToken := e.claim.token,
              activeLease := Some(e.claim.leaseId), activeToken := Some(e.claim.token),
              leaseExpiresAt := Some(e.expiresAt)))
    else if e.Cancel? then Ok(Freed(s).(status := next.value))
    else if s.logicallySettled && !e.Acknowledge? then Err(InvalidTransition)
    else if ClaimError(s, e).Some? then Err(ClaimError(s, e).value)
    else if e.RenewLease? then
      if e.claim.now >= e.expiresAt || s.leaseExpiresAt.None? || s.leaseExpiresAt.value >= e.expiresAt then
        Err(InvalidTime)
      else Ok(s.(leaseExpiresAt := Some(e.expiresAt)))
    else if e.Acknowledge? && !s.logicallySettled then Err(InvalidTransition)
    else
      var exhausted := (e.Release? || e.LeaseExpired?) && s.attemptCount >= s.maxAttempts;
      var terminalRelease := e.Release? && !e.classification.Transient?;
      var status := if exhausted || terminalRelease then DeadLettered else next.value;
      Ok(if next.value.Executing? then s.(status := status) else Freed(s).(status := status))
  }

  // ---- Runs ----------------------------------------------------------------------------

  /** What reaches the relay: any event, or the Mission's settlement, alone or with its acknowledgement. */
  datatype Op = Submit(event: Event) | Settle | SettleAndAcknowledge(claim: Claim)

  /** An accepted transition. */
  datatype Entry = Entry(event: Event, before: State, after: State)

  datatype Relay = Relay(state: State, log: seq<Entry>)

  function Receive(r: Relay, e: Event): Relay {
    match Transition(r.state, e)
    case Ok(next) => Relay(next, r.log + [Entry(e, r.state, next)])
    case Err(_) => r
  }

  /** One arrival; whatever is rejected leaves the relay as it was. */
  function Arrive(r: Relay, op: Op): Relay {
    match op
    case Submit(e) => Receive(r, e)
    case Settle => r.(state := r.state.(logicallySettled := true))
    case SettleAndAcknowledge(c) =>
      var settled := Receive(r.(state := r.state.(logicallySettled := true)), Acknowledge(c));
      if settled.state.status.Acknowledged? then settled else r
  }

  function Created(maxAttempts: nat): Relay {
    Relay(State(Stored, 0, maxAttempts, Decimal(0), None, None, None, false), [])
  }

  function Run(maxAttempts: nat, ops: seq<Op>): Relay {
    if ops == [] then Created(maxAttempts) else Arrive(Run(maxAttempts, ops[..|ops| - 1]), ops[|ops| - 1])
  }

  // ---- What the log alone says ---------------------------------------------------------

  /** The fencing tokens issued, in order. */
  function Issued(log: seq<Entry>): seq<string> {
    if log == [] then []
    else
      var last := log[|log| - 1];
      Issued(log[..|log| - 1]) + if last.event.Lease? then [last.event.claim.token] else []
  }

  /** Who holds the delivery, and until when: what issues, renewals and ends of leases leave behind. */
  datatype Holder = Nobody | Held(leaseId: Id, token: string, deadline: int)

  function HolderNext(h: Holder, e: Event): Holder {
    match e
    case Lease(c, expiresAt) => Held(c.leaseId, c.token, expiresAt)
    case RenewLease(_, expiresAt) => if h.Nobody? then Nobody else h.(deadline := expiresAt)
    case StartExecution(_) => h
    case _ => Nobody
  }

  function HolderAfter(log: seq<Entry>): Holder {
    if log == [] then Nobody
    else HolderNext(HolderAfter(log[..|log| - 1]), log[|log| - 1].event)
  }

  /** Non-renewal transitions in a log. */
  function Moves(log: seq<Entry>): nat {
    if log == [] then 0
    else Moves(log[..|log| - 1]) + if log[|log| - 1].event.RenewLease? then 0 else 1
  }

  function Tokens(n: nat): seq<string> { seq(n, i requires 0 <= i < n => Decimal(i + 1)) }

  predicate Names(holder: Holder, c: Claim) {
    holder.Held? && c.leaseId == holder.leaseId && c.token == holder.token
  }

  predicate InTime(holder: Holder, c: Claim) { Names(holder, c) && c.now < holder.deadline }

  /** Each accepted event names the lease and token of the current holder; holder operations come
      strictly before its deadline, expiry at or after it, and a lease is issued only to nobody's work. */
  predicate Fenced(holder: Holder, e: Event) {
    match e
    case Lease(_, _) => holder.Nobody?
    case RenewLease(c, expiresAt) => InTime(holder, c) && expiresAt > holder.deadline
    case StartExecution(c) => InTime(holder, c)
    case Acknowledge(c) => InTime(holder, c)
    case Release(c, _) => InTime(holder, c)
    case LeaseExpired(c) => Names(holder, c) && c.now >= holder.deadline
    case Cancel(_) => true
  }

  // ---- The invariant -------------------------------------------------------------------

  function Budget(s: State): nat {
    if Terminal(s.status) || s.attemptCount > s.maxAttempts then 0
    else
      3 * (s.maxAttempts - s.attemptCount)
      + (match s.status case Leased => 2 case Executing => 1 case _ => 0)
  }

  /** The delivery clauses that concern a single state, settlement aside. */
  predicate DeliveryClauses(s: State) {
    && s.attemptCount <= s.maxAttempts
    && s.lastToken == Decimal(s.attemptCount)
    && (Active(s.status) <==> s.activeLease.Some?)
    && (Active(s.status) <==> s.leaseExpiresAt.Some?)
    && (Active(s.status) ==> s.activeToken == Some(s.lastToken) && s.attemptCount >= 1)
    && (!Active(s.status) ==> s.activeToken.None?)
    && (s.status.Stored? ==> s.attemptCount < s.maxAttempts)
    && (s.status.Acknowledged? ==> s.attemptCount >= 1 && s.logicallySettled)
  }

  predicate SettlementClause(s: State) {
    s.logicallySettled ==> s.status.Acknowledged? || s.status.Cancelled?
  }

  predicate HolderMatches(s: State, h: Holder) {
    match h
    case Nobody => !Active(s.status)
    case Held(leaseId, token, deadline) =>
      Active(s.status) && s.activeLease == Some(leaseId) && s.activeToken == Some(token)
      && s.leaseExpiresAt == Some(deadline)
  }

  ghost predicate RelayInv(r: Relay) {
    && DeliveryClauses(r.state)
    && Issued(r.log) == Tokens(r.state.attemptCount)
    && HolderMatches(r.state, HolderAfter(r.log))
    && Moves(r.log) + Budget(r.state) <= 3 * r.state.maxAttempts
    && (forall i :: 0 <= i < |r.log| ==> Fenced(HolderAfter(r.log[..i]), r.log[i].event))
    && (forall i :: 0 <= i < |r.log| ==> (Terminal(r.log[i].after.status) ==> i == |r.log| - 1))
    && (forall i :: 0 <= i < |r.log| ==> Transition(r.log[i].before, r.log[i].event) == Ok(r.log[i].after))
    && (r.log != [] ==> r.log[|r.log| - 1].after.status == r.state.status)
    && (r.log == [] ==> r.state.status.Stored?)
  }

  lemma TransitionKeepsClauses(s: State, e: Event)
    requires DeliveryClauses(s) && Transition(s, e).Ok?
    ensures var next := Transition(s, e).value;
            && DeliveryClauses(next) && next.maxAttempts == s.maxAttempts && !Terminal(s.status)
            && next.logicallySettled == s.logicallySettled
            && next.attemptCount == s.attemptCount + (if e.Lease? then 1 else 0)
            && (e.Lease? ==> e.claim.token == Decimal(next.attemptCount))
            && Budget(next) + (if e.RenewLease? then 0 else 1) <= Budget(s)
  {
    hide Decimal;
  }

  lemma TransitionIsFenced(s: State, e: Event, h: Holder)
    requires DeliveryClauses(s) && HolderMatches(s, h) && Transition(s, e).Ok?
    ensures Fenced(h, e)
  {
    hide Decimal;
  }

  lemma AcceptedExtendsReading(r: Relay, e: Event)
    requires RelayInv(r) && Transition(r.state, e).Ok?
    ensures var u := Receive(r, e);
            && Issued(u.log) == Tokens(u.state.attemptCount)
            && HolderMatches(u.state, HolderAfter(u.log))
            && Moves(u.log) + Budget(u.state) <= 3 * u.state.maxAttempts
            && DeliveryClauses(u.state)
  {
    hide Transition, DeliveryClauses, Budget, Fenced, Decimal;
    var u := Receive(r, e);
    assert u.log[..|r.log|] == r.log;
    TransitionKeepsClauses(r.state, e);
    TransitionMovesHolder(r.state, e, HolderAfter(r.log));
    assert Tokens(r.state.attemptCount + 1) == Tokens(r.state.attemptCount) + [Decimal(r.state.attemptCount + 1)];
    assert Tokens(r.state.attemptCount) + [] == Tokens(r.state.attemptCount);
  }

  lemma TransitionMovesHolder(s: State, e: Event, h: Holder)
    requires DeliveryClauses(s) && HolderMatches(s, h) && Transition(s, e).Ok?
    ensures HolderMatches(Transition(s, e).value, HolderNext(h, e))
  {
    hide Decimal;
  }

  lemma ReceiveKeepsInv(r: Relay, e: Event)
    requires RelayInv(r)
    ensures RelayInv(Receive(r, e))
  {
    hide Transition, DeliveryClauses, Budget, Fenced, Issued, HolderMatches, HolderAfter, Moves, Tokens;
    var u := Receive(r, e);
    if Transition(r.state, e).Ok? {
      var n := |r.log|;
      AcceptedExtendsReading(r, e);
      TransitionKeepsClauses(r.state, e);
      TransitionIsFenced(r.state, e, HolderAfter(r.log));
      forall i | 0 <= i < n + 1
        ensures Fenced(HolderAfter(u.log[..i]), u.log[i].event)
             && Transition(u.log[i].before, u.log[i].event) == Ok(u.log[i].after)
             && (Terminal(u.log[i].after.status) ==> i == n)
      {
        assert u.log[..i] == r.log[..i];
        if i < n { assert u.log[i] == r.log[i]; } else { assert r.log[..n] == r.log; }
      }
    }
  }

  lemma SettleKeepsInv(r: Relay)
    requires RelayInv(r)
    ensures RelayInv(r.(state := r.state.(logicallySettled := true)))
  {
    hide Fenced, Transition, Decimal;
  }

  lemma ArriveKeepsInv(r: Relay, op: Op)
    requires RelayInv(r)
    ensures RelayInv(Arrive(r, op))
  {
    hide RelayInv, Receive;
    SettleKeepsInv(r);
    match op
    case Submit(e) => ReceiveKeepsInv(r, e);
    case Settle =>
    case SettleAndAcknowledge(c) => ReceiveKeepsInv(r.(state := r.state.(logicallySettled := true)), Acknowledge(c));
  }

  lemma {:induction false} RunKeepsInv(maxAttempts: nat, ops: seq<Op>)
    requires maxAttempts >= 1
    ensures RelayInv(Run(maxAttempts, ops)) && Run(maxAttempts, ops).state.maxAttempts == maxAttempts
  {
    hide Arrive;
    if ops != [] {
      hide RelayInv;
      RunKeepsInv(maxAttempts, ops[..|ops| - 1]);
      ArriveKeepsInv(Run(maxAttempts, ops[..|ops| - 1]), ops[|ops| - 1]);
      ArriveKeepsLimit(Run(maxAttempts, ops[..|ops| - 1]), ops[|ops| - 1]);
    }
  }

  lemma ArriveKeepsLimit(r: Relay, op: Op)
    ensures Arrive(r, op).state.maxAttempts == r.state.maxAttempts
  {}

  // ---- Every run -----------------------------------------------------------------------

  lemma TokensAre(n: nat)
    ensures |Tokens(n)| == n && forall k :: 0 <= k < n ==> Tokens(n)[k] == Decimal(k + 1)
  {}

  /** Whatever arrives, in whatever order and however often: the tokens issued are exactly
      1, 2, ..., attemptCount; every accepted event obeys the fence of the lease in force; and nothing
      is accepted after a terminal transition. */
  lemma {:induction false} LeasesAreFenced(maxAttempts: nat, ops: seq<Op>)
    requires maxAttempts >= 1
    ensures var r := Run(maxAttempts, ops);
            && |Issued(r.log)| == r.state.attemptCount
            && (forall k :: 0 <= k < |Issued(r.log)| ==> Issued(r.log)[k] == Decimal(k + 1))
            && (forall i :: 0 <= i < |r.log| ==> Fenced(HolderAfter(r.log[..i]), r.log[i].event))
            && (forall i :: 0 <= i < |r.log| && Terminal(r.log[i].after.status) ==> i == |r.log| - 1)
            && HolderMatches(r.state, HolderAfter(r.log))
  {
    hide Run, Fenced, HolderAfter, Issued, Tokens, Decimal;
    RunKeepsInv(maxAttempts, ops);
    TokensAre(Run(maxAttempts, ops).state.attemptCount);
  }

  /** Apart from renewals, a delivery moves at most three times per attempt. */
  lemma {:induction false} RunsAreBounded(maxAttempts: nat, ops: seq<Op>)
    requires maxAttempts >= 1
    ensures Moves(Run(maxAttempts, ops).log) <= 3 * maxAttempts
    ensures Run(maxAttempts, ops).state.attemptCount <= maxAttempts
  {
    hide Run, Moves, Issued, HolderAfter, Tokens;
    RunKeepsInv(maxAttempts, ops);
  }

  /** A claim that carries any token but the newest is refused, whatever it asks for. */
  lemma StaleClaimsAreRefused(maxAttempts: nat, ops: seq<Op>, e: Event, k: nat)
    requires maxAttempts >= 1 && !e.Cancel? && !e.Lease?
    requires e.claim.token == Decimal(k) && k != Run(maxAttempts, ops).state.attemptCount
    ensures Transition(Run(maxAttempts, ops).state, e).Err?
  {
    hide Run, Issued, HolderAfter, Moves, Tokens, Decimal;
    RunKeepsInv(maxAttempts, ops);
    if Decimal(k) == Decimal(Run(maxAttempts, ops).state.attemptCount) {
      DecimalInjective(k, Run(maxAttempts, ops).state.attemptCount);
    }
  }

  lemma ArriveKeepsSettlement(r: Relay, op: Op)
    requires RelayInv(r) && SettlementClause(r.state)
    ensures SettlementClause(Arrive(r, op).state) <==> (op.Settle? ==> SettlesWell(r.state.status))
  {
    hide Decimal, Issued, HolderAfter, Moves, Tokens, Fenced;
  }

  /** Settlement on its own leaves a state the clauses allow only once the work is done or cancelled. */
  predicate SettlesWell(status: Status) { status.Acknowledged? || status.Cancelled? }

  /** Every bare settlement of the run found the delivery acknowledged or cancelled. */
  predicate SettledWell(maxAttempts: nat, ops: seq<Op>) {
    forall i :: 0 <= i < |ops| && ops[i].Settle? ==> SettlesWell(Run(maxAttempts, ops[..i]).state.status)
  }

  predicate AlwaysSettledWell(maxAttempts: nat, ops: seq<Op>) {
    forall k :: 0 <= k <= |ops| ==> SettlementClause(Run(maxAttempts, ops[..k]).state)
  }

  /** The delivery's clauses hold in every state of a run, except the settlement clause, and that one
      holds throughout exactly when each bare settlement came for acknowledged or cancelled work. */
  lemma {:induction false} ReachableStatesMeetTheClausesIff(maxAttempts: nat, ops: seq<Op>)
    requires maxAttempts >= 1
    ensures DeliveryClauses(Run(maxAttempts, ops).state)
    ensures AlwaysSettledWell(maxAttempts, ops) <==> SettledWell(maxAttempts, ops)
  {
    hide Arrive, SettlementClause, SettlesWell, AlwaysSettledWell, SettledWell, Issued, HolderAfter, Moves, Tokens;
    hide Decimal;
    RunKeepsInv(maxAttempts, ops);
    if ops == [] {
      CreatedIsUnsettled(maxAttempts);
    } else {
      var n := |ops| - 1;
      var before := ops[..n];
      ReachableStatesMeetTheClausesIff(maxAttempts, before);
      RunKeepsInv(maxAttempts, before);
      if SettlementClause(Run(maxAttempts, before).state) {
        ArriveKeepsSettlement(Run(maxAttempts, before), ops[n]);
      }
      SplitAlways(maxAttempts, ops);
      SplitSettled(maxAttempts, ops);
    }
  }

  lemma CreatedIsUnsettled(maxAttempts: nat)
    ensures AlwaysSettledWell(maxAttempts, []) && SettledWell(maxAttempts, [])
  {
    var none: seq<Op> := [];
    assert SettlementClause(Created(maxAttempts).state) && none[..0] == none;
  }

  lemma SplitAlways(maxAttempts: nat, ops: seq<Op>)
    requires ops != []
    ensures var before := ops[..|ops| - 1];
            && (AlwaysSettledWell(maxAttempts, ops) <==>
                  AlwaysSettledWell(maxAttempts, before) && SettlementClause(Run(maxAttempts, ops).state))
            && (AlwaysSettledWell(maxAttempts, before) ==> SettlementClause(Run(maxAttempts, before).state))
  {
    hide Run, SettlementClause;
    var n, before := |ops| - 1, ops[..|ops| - 1];
    assert forall k :: 0 <= k <= n ==> ops[..k] == before[..k];
    assert ops[..n + 1] == ops && before[..n] == before;
  }

  lemma SplitSettled(maxAttempts: nat, ops: seq<Op>)
    requires ops != []
    ensures var n, before := |ops| - 1, ops[..|ops| - 1];
            SettledWell(maxAttempts, ops) <==>
              && SettledWell(maxAttempts, before)
              && (ops[n].Settle? ==> SettlesWell(Run(maxAttempts, before).state.status))
  {
    hide Run, SettlesWell;
    var n, before := |ops| - 1, ops[..|ops| - 1];
    assert forall k :: 0 <= k < n ==> ops[..k] == before[..k] && ops[k] == before[k];
  }

  /** Why it must be one step: work settled while its lease outlives the deadline can no longer be
      acknowledged, released or expired. Only cancellation ends it. */
  lemma SettledPastDeadlineOnlyCancels(s: State, e: Event)
    requires DeliveryClauses(s) && Active(s.status) && s.logicallySettled
    requires !e.Cancel? ==> e.claim.now >= s.leaseExpiresAt.value
    ensures Transition(s, e).Ok? <==> e.Cancel?
  {
    hide Decimal;
  }

  /** The relay takes a renewal exactly from the holder, before the deadline, for a later one. */
  lemma RenewalAcceptedIff(s: State, c: Claim, expiresAt: int)
    requires DeliveryClauses(s)
    ensures Transition(s, RenewLease(c, expiresAt)).Ok? <==>
              && Active(s.status) && !s.logicallySettled
              && s.activeLease == Some(c.leaseId) && s.activeToken == Some(c.token)
              && c.now < s.leaseExpiresAt.value < expiresAt
  {
    hide Decimal;
  }

  // ---- What is accepted, and where it leads --------------------------------------------

  /** What an event asks of the delivery besides the fence. */
  predicate StatusAllows(s: State, e: Event) {
    match e
    case Lease(c, expiresAt) =>
      s.status.Stored? && !s.logicallySettled && c.token == Decimal(s.attemptCount + 1) && c.now < expiresAt
    case RenewLease(_, _) => !s.logicallySettled
    case StartExecution(_) => s.status.Leased? && !s.logicallySettled
    case Acknowledge(_) => s.status.Executing? && s.logicallySettled
    case Release(_, _) => !s.logicallySettled
    case LeaseExpired(_) => !s.logicallySettled
    case Cancel(_) => !Terminal(s.status)
  }

  /** Work given back is dead once no attempt is left, or when its holder said so for good. */
  predicate GivesUp(s: State, e: Event) {
    s.attemptCount == s.maxAttempts || (e.Release? && !e.classification.Transient?)
  }

  predicate LeadsTo(s: State, e: Event, status: Status) {
    match e
    case Lease(_, _) => status.Leased?
    case RenewLease(_, _) => status == s.status
    case StartExecution(_) => status.Executing?
    case Acknowledge(_) => status.Acknowledged?
    case Cancel(_) => status.Cancelled?
    case _ => if GivesUp(s, e) then status.DeadLettered? else status.Stored?
  }

  lemma TransitionAcceptedIff(s: State, e: Event, h: Holder)
    requires DeliveryClauses(s) && HolderMatches(s, h)
    ensures Transition(s, e).Ok? <==> Fenced(h, e) && StatusAllows(s, e)
    ensures Transition(s, e).Ok? ==>
              var next := Transition(s, e).value;
              LeadsTo(s, e, next.status) && HolderMatches(next, HolderNext(h, e))
  {
    hide Decimal;
  }

  /** In every run, an event is accepted exactly when it obeys the fence the log implies and the
      status and settlement allow it; and it leads where it should: given-back work is dead exactly
      when no attempt is left or the release was permanent or denied by policy, otherwise stored and
      held by nobody. */
  lemma AcceptedIff(maxAttempts: nat, ops: seq<Op>, e: Event)
    requires maxAttempts >= 1
    ensures var r := Run(maxAttempts, ops);
            var next := Transition(r.state, e);
            && (next.Ok? <==> Fenced(HolderAfter(r.log), e) && StatusAllows(r.state, e))
            && (next.Ok? ==>
                  && LeadsTo(r.state, e, next.value.status) && DeliveryClauses(next.value)
                  && HolderMatches(next.value, HolderNext(HolderAfter(r.log), e))
                  && next.value.attemptCount == r.state.attemptCount + (if e.Lease? then 1 else 0)
                  && next.value.maxAttempts == maxAttempts
                  && next.value.logicallySettled == r.state.logicallySettled)
  {
    hide Run, Transition, Fenced, StatusAllows, LeadsTo, Issued, HolderAfter, Moves, Tokens, Decimal;
    RunKeepsInv(maxAttempts, ops);
    var r := Run(maxAttempts, ops);
    TransitionAcceptedIff(r.state, e, HolderAfter(r.log));
    if Transition(r.state, e).Ok? { TransitionKeepsClauses(r.state, e); }
  }

  // ---- When the work can still be acknowledged -----------------------------------------

  /** Not ended, and either unsettled or settled while it executes. */
  predicate Acknowledgeable(s: State) {
    s.status.Acknowledged? || (!Terminal(s.status) && (s.logicallySettled ==> s.status.Executing?))
  }

  function RunFrom(r: Relay, ops: seq<Op>): Relay {
    if ops == [] then r else Arrive(RunFrom(r, ops[..|ops| - 1]), ops[|ops| - 1])
  }

  lemma {:induction false} RunConcat(maxAttempts: nat, ops: seq<Op>, more: seq<Op>)
    ensures Run(maxAttempts, ops + more) == RunFrom(Run(maxAttempts, ops), more)
  {
    hide Arrive;
    if more == [] {
      assert ops + more == ops;
    } else {
      RunConcat(maxAttempts, ops, more[..|more| - 1]);
      assert (ops + more)[..|ops + more| - 1] == ops + more[..|more| - 1];
    }
  }

  lemma RunFromFirst(r: Relay, op: Op, more: seq<Op>)
    ensures RunFrom(r, [op] + more) == RunFrom(Arrive(r, op), more)
  {
    hide Arrive;
    if more == [] {
      assert [op] + more == [op] && [op][..0] == [];
    } else {
      RunFromFirst(r, op, more[..|more| - 1]);
      assert ([op] + more)[..|[op] + more| - 1] == [op] + more[..|more| - 1];
    }
  }

  /** The next operation of a driver that means to see the work acknowledged. */
  function NextOp(s: State): Op {
    if s.status.Stored? || s.activeLease.None? || s.activeToken.None? || s.leaseExpiresAt.None? then
      Submit(Lease(Claim(0, Decimal(s.attemptCount + 1), 0), 1))
    else
      var holder := Claim(s.activeLease.value, s.activeToken.value, s.leaseExpiresAt.value - 1);
      if s.status.Leased? then Submit(StartExecution(holder)) else SettleAndAcknowledge(holder)
  }

  function StepsLeft(status: Status): nat {
    if status.Stored? then 3 else if status.Leased? then 2 else if status.Executing? then 1 else 0
  }

  lemma NextOpAdvances(r: Relay)
    requires DeliveryClauses(r.state) && Acknowledgeable(r.state) && !r.state.status.Acknowledged?
    ensures var u := Arrive(r, NextOp(r.state)).state;
            Acknowledgeable(u) && StepsLeft(u.status) == StepsLeft(r.state.status) - 1
  {
    hide Decimal;
  }

  /** Lease, start, then settle and acknowledge, as far as still needed. */
  lemma {:induction false} ReachAcknowledgement(r: Relay) returns (more: seq<Op>)
    requires RelayInv(r) && Acknowledgeable(r.state)
    ensures RunFrom(r, more).state.status.Acknowledged?
    decreases StepsLeft(r.state.status)
  {
    hide Arrive, RelayInv, NextOp;
    if r.state.status.Acknowledged? {
      more := [];
    } else {
      InvHasClauses(r);
      NextOpAdvances(r);
      ArriveKeepsInv(r, NextOp(r.state));
      var rest := ReachAcknowledgement(Arrive(r, NextOp(r.state)));
      more := [NextOp(r.state)] + rest;
      RunFromFirst(r, NextOp(r.state), rest);
    }
  }

  lemma InvHasClauses(r: Relay)
    requires RelayInv(r)
    ensures DeliveryClauses(r.state)
  {}

  lemma ArriveKeepsHopeless(r: Relay, op: Op)
    requires !Acknowledgeable(r.state)
    ensures !Acknowledgeable(Arrive(r, op).state)
  {
    hide Decimal;
  }

  lemma {:induction false} HopelessForever(r: Relay, more: seq<Op>)
    requires !Acknowledgeable(r.state)
    ensures !Acknowledgeable(RunFrom(r, more).state)
  {
    hide Arrive, Acknowledgeable;
    if more != [] {
      HopelessForever(r, more[..|more| - 1]);
      ArriveKeepsHopeless(RunFrom(r, more[..|more| - 1]), more[|more| - 1]);
    }
  }

  /** From every state of every run the work can still end acknowledged exactly when it has not ended
      otherwise and was not settled before it executed: stored work can always be leased again, leased
      work started, and executing work settled and acknowledged. */
  lemma AcknowledgementPossibleIff(maxAttempts: nat, ops: seq<Op>)
    requires maxAttempts >= 1
    ensures Acknowledgeable(Run(maxAttempts, ops).state) <==>
              exists more :: Run(maxAttempts, ops + more).state.status.Acknowledged?
  {
    hide Run, RunFrom, RelayInv;
    RunKeepsInv(maxAttempts, ops);
    var r := Run(maxAttempts, ops);
    if Acknowledgeable(r.state) {
      var more := ReachAcknowledgement(r);
      RunConcat(maxAttempts, ops, more);
    } else {
      forall more ensures !Run(maxAttempts, ops + more).state.status.Acknowledged? {
        HopelessForever(r, more);
        RunConcat(maxAttempts, ops, more);
      }
    }
  }
}
