/** The Node's view of its lease: the window it derives from a renewal, and the keeper that renews
    it. Node times are readings of a monotonic clock; the relay's clock runs `offset` ahead of it. */
module LeaseWindow {
  import opened Common
  import opened DeliveryLease

  const MIN_SAFE_LEASE_WINDOW_MS := 100

  /** `safeRemaining` is the remainder the other two times were computed from. */
  datatype Window = Window(leaseId: Id, token: string, renewAt: real, expiresAt: real, safeRemaining: int)

  datatype WindowError = ReceiptMismatch | NoSafeWindow

  /** A renewal as the relay answers it: the lease, and the receipt's own times. */
  datatype Renewal = Renewal(
    leaseId: Id, token: string, leaseExpiresAt: int, receiptExpiresAt: Option<int>, recordedAt: int)

  function Ceiling(x: real): int { -((-x).Floor) }

  function LeaseWindowFromRenewal(r: Renewal, requestStartedAt: real, responseReceivedAt: real)
    : Result<Window, WindowError>
  {
    if r.receiptExpiresAt != Some(r.leaseExpiresAt) then Err(ReceiptMismatch)
    else
      var granted := r.leaseExpiresAt - r.recordedAt;
      var elapsed := responseReceivedAt - requestStartedAt;
      var safe := granted - Ceiling(if elapsed > 0.0 then elapsed else 0.0);
      if safe <= MIN_SAFE_LEASE_WINDOW_MS then Err(NoSafeWindow)
      else
        Ok(Window(r.leaseId, r.token, responseReceivedAt + (safe / 2) as real, requestStartedAt + granted as real, safe))
  }

  /** If the relay recorded the renewal between request and response, the deadline the Node believes
      in is never after the relay's, and the next renewal is due before it by at least half of the
      safe remainder, hence by more than 50 ms. */
  lemma WindowIsSafe(r: Renewal, requestStartedAt: real, responseReceivedAt: real, offset: real)
    requires LeaseWindowFromRenewal(r, requestStartedAt, responseReceivedAt).Ok?
    requires requestStartedAt + offset <= r.recordedAt as real <= responseReceivedAt + offset
    ensures var w := LeaseWindowFromRenewal(r, requestStartedAt, responseReceivedAt).value;
            && w.expiresAt + offset <= r.leaseExpiresAt as real
            && responseReceivedAt + 50.0 <= w.renewAt
            && w.renewAt + (w.safeRemaining as real) / 2.0 <= w.expiresAt
            && w.renewAt + 50.0 < w.expiresAt
  {
    var w := LeaseWindowFromRenewal(r, requestStartedAt, responseReceivedAt).value;
    var elapsed := responseReceivedAt - requestStartedAt;
    assert elapsed <= Ceiling(elapsed) as real;
    var half := w.safeRemaining / 2;
    assert 2 * half <= w.safeRemaining <= 2 * half + 1;
    assert w.expiresAt - responseReceivedAt >= w.safeRemaining as real;
  }

  /** No later deadline would be safe: had the relay recorded the renewal the moment it was sent, the
      believed deadline would be the relay's own. The remainder is what the grant leaves after the round
      trip, to the millisecond, and the next renewal is due half-way through it. */
  lemma WindowIsTight(r: Renewal, requestStartedAt: real, responseReceivedAt: real)
    requires LeaseWindowFromRenewal(r, requestStartedAt, responseReceivedAt).Ok? && requestStartedAt <= responseReceivedAt
    ensures var w := LeaseWindowFromRenewal(r, requestStartedAt, responseReceivedAt).value;
            var left := (r.leaseExpiresAt - r.recordedAt) as real - (responseReceivedAt - requestStartedAt);
            && w.expiresAt + (r.recordedAt as real - requestStartedAt) == r.leaseExpiresAt as real
            && left - 1.0 < w.safeRemaining as real <= left
            && (w.safeRemaining - 1) as real <= 2.0 * (w.renewAt - responseReceivedAt) <= w.safeRemaining as real
  {
    var w := LeaseWindowFromRenewal(r, requestStartedAt, responseReceivedAt).value;
    var half := w.safeRemaining / 2;
    assert 2 * half <= w.safeRemaining <= 2 * half + 1;
    assert 2.0 * (half as real) == (2 * half) as real;
  }

  /** The window exists exactly when more than the minimum is left after the round trip, rounded up. */
  lemma WindowExistsIff(r: Renewal, requestStartedAt: real, responseReceivedAt: real)
    requires requestStartedAt <= responseReceivedAt
    ensures LeaseWindowFromRenewal(r, requestStartedAt, responseReceivedAt).Ok? <==>
              && r.receiptExpiresAt == Some(r.leaseExpiresAt)
              && (responseReceivedAt - requestStartedAt)
                 <= (r.leaseExpiresAt - r.recordedAt - MIN_SAFE_LEASE_WINDOW_MS - 1) as real
  {
    var elapsed := responseReceivedAt - requestStartedAt;
    var bound := r.leaseExpiresAt - r.recordedAt - MIN_SAFE_LEASE_WINDOW_MS - 1;
    assert Ceiling(elapsed) <= bound <==> elapsed <= bound as real;
  }

  // ---- The relay's side ----------------------------------------------------------------

  const LEASE_DURATION_MS := 60_000

  /** A lease lasts a minute, and never longer than its Mission. */
  function BoundedLeaseExpiry(now: int, missionExpiresAt: int): int {
    if missionExpiresAt < now + LEASE_DURATION_MS then missionExpiresAt else now + LEASE_DURATION_MS
  }

  datatype RenewalError = Unauthorized(reason: LeaseError) | NoRemainingWindow | DeadlineMovesBack

  function RelayRenews(relay: State, c: Claim, missionExpiresAt: int): Result<State, RenewalError> {
    var claim := ActiveClaim(relay, c);
    var expiresAt := BoundedLeaseExpiry(c.now, missionExpiresAt);
    if claim.Some? then Err(Unauthorized(claim.value))
    else if expiresAt <= c.now then Err(NoRemainingWindow)
    else if expiresAt < relay.leaseExpiresAt.value then Err(DeadlineMovesBack)
    else Ok(relay.(leaseExpiresAt := Some(expiresAt)))
  }

  /** The relay renews exactly for the holder, before the deadline, unless the deadline would move
      back. Where it moves forward on unsettled work, that is the shared state machine's transition; a
      deadline that stands still is renewed by the relay alone. */
  lemma RelayRenewsIff(relay: State, c: Claim, missionExpiresAt: int)
    requires DeliveryClauses(relay)
    ensures var r, expiresAt := RelayRenews(relay, c, missionExpiresAt), BoundedLeaseExpiry(c.now, missionExpiresAt);
            && (r.Ok? <==>
                  && Active(relay.status) && relay.activeLease == Some(c.leaseId) && relay.activeToken == Some(c.token)
                  && c.now < relay.leaseExpiresAt.value <= expiresAt)
            && (r.Ok? ==> DeliveryClauses(r.value) && r.value == relay.(leaseExpiresAt := Some(expiresAt)))
            && (Transition(relay, RenewLease(c, expiresAt)).Ok? <==>
                  r.Ok? && relay.leaseExpiresAt.value < expiresAt && !relay.logicallySettled)
            && (Transition(relay, RenewLease(c, expiresAt)).Ok? ==>
                  Transition(relay, RenewLease(c, expiresAt)).value == r.value)
  {}

  // ---- The keeper ----------------------------------------------------------------------

  /** The lease as the journal has it. */
  datatype JournaledLease = JournaledLease(leaseId: Id, token: string, expiresAt: int)

  /** What the keeper writes in the journal: the lease, how many renewals it ever asked for, and the
      one it still waits for. */
  datatype Record = Record(lease: Option<JournaledLease>, renewCount: nat, pending: Option<nat>)

  /** What may interrupt a round, in the order the steps come. */
  datatype Fault =
    | Smooth | StoppedEarly | IntentUnsaved | StoppedLate | AnswerLost | AnswerUnsaved | CallbackFailed

  datatype Journaling = Untouched | Rewritten(lease: Option<JournaledLease>)

  /** One renewal as it happens: what others made of the journaled lease while the keeper slept, how
      late it sent the request, when the relay's clock recorded it, how long the answer took, and what
      went wrong. */
  datatype Round = Round(others: Journaling, lateness: real, recordedAt: int, downlink: real, fault: Fault)

  datatype KeeperFailure = Changed | Refused | LostWindow | Faulted(fault: Fault)

  datatype Keeping = Keeping(window: Window, record: Record, relay: State, failure: Option<KeeperFailure>)

  function SentAt(w: Window, r: Round): real { w.renewAt + r.lateness }

  function Uplink(w: Window, r: Round, offset: real): real { r.recordedAt as real - offset - SentAt(w, r) }

  /** Wake-up lateness plus latency to the relay stays under half of the safe remainder. */
  predicate Timely(w: Window, r: Round, offset: real) {
    && r.lateness >= 0.0 && r.downlink >= 0.0 && Uplink(w, r, offset) >= 0.0
    && r.lateness + Uplink(w, r, offset) < (w.safeRemaining as real) / 2.0
  }

  function RenewalClaim(w: Window, r: Round): Claim { Claim(w.leaseId, w.token, r.recordedAt) }

  function NextWindow(w: Window, r: Round, offset: real, expiresAt: int): Result<Window, WindowError> {
    LeaseWindowFromRenewal(Renewal(w.leaseId, w.token, expiresAt, Some(expiresAt), r.recordedAt), SentAt(w, r),
                           r.recordedAt as real - offset + r.downlink)
  }

  predicate SameLease(lease: Option<JournaledLease>, w: Window) {
    lease.Some? && lease.value.leaseId == w.leaseId && lease.value.token == w.token
  }

  /** What the keeper finds in the journal when it wakes. */
  function Woken(record: Record, r: Round): Record {
    if r.others.Rewritten? then record.(lease := r.others.lease) else record
  }

  function Asked(record: Record): Record {
    record.(renewCount := record.renewCount + 1, pending := Some(record.renewCount + 1))
  }

  function Failing(k: Keeping, failure: KeeperFailure): Keeping { k.(failure := Some(failure)) }

  /** The answered part of a round. */
  function TakeAnswer(k: Keeping, r: Round, offset: real): Keeping
    requires k.relay.leaseExpiresAt.Some?
  {
    var expiresAt := k.relay.leaseExpiresAt.value;
    if r.fault.AnswerLost? then Failing(k, Faulted(r.fault))
    else
      var next := NextWindow(k.window, r, offset, expiresAt);
      if next.Err? then Failing(k, LostWindow)
      else
        var renewed := k.(window := next.value);
        if r.fault.AnswerUnsaved? then Failing(renewed, Faulted(r.fault))
        else
          var kept := renewed.(record := renewed.record.(
            lease := Some(JournaledLease(k.window.leaseId, k.window.token, expiresAt)), pending := None));
          if r.fault.CallbackFailed? then Failing(kept, Faulted(r.fault)) else kept
  }

  /** One round: look at the journal, write the intent, ask the relay, take the answer. */
  function KeeperRound(k: Keeping, r: Round, offset: real, missionExpiresAt: int): Keeping {
    var woken := k.(record := Woken(k.record, r));
    if r.fault.StoppedEarly? then Failing(woken, Faulted(r.fault))
    else if !SameLease(woken.record.lease, k.window) then Failing(woken, Changed)
    else if r.fault.IntentUnsaved? then Failing(woken, Faulted(r.fault))
    else
      var asked := woken.(record := Asked(woken.record));
      if r.fault.StoppedLate? then Failing(asked, Faulted(r.fault))
      else
        var answered := RelayRenews(k.relay, RenewalClaim(k.window, r), missionExpiresAt);
        if answered.Err? then Failing(asked, Refused) else TakeAnswer(asked.(relay := answered.value), r, offset)
  }

  /** The keeper's whole run: it stops at the first failure. */
  function KeeperRun(k: Keeping, offset: real, missionExpiresAt: int, rounds: seq<Round>): Keeping
    decreases |rounds|
  {
    if rounds == [] || k.failure.Some? then k
    else KeeperRun(KeeperRound(k, rounds[0], offset, missionExpiresAt), offset, missionExpiresAt, rounds[1..])
  }

  predicate AllTimely(k: Keeping, offset: real, missionExpiresAt: int, rounds: seq<Round>)
    decreases |rounds|
  {
    rounds != [] && k.failure.None? ==>
      && Timely(k.window, rounds[0], offset)
      && AllTimely(KeeperRound(k, rounds[0], offset, missionExpiresAt), offset, missionExpiresAt, rounds[1..])
  }

  /** The window is a safe reading of the relay's lease. */
  predicate Believes(w: Window, relay: State, offset: real, missionExpiresAt: int) {
    && DeliveryClauses(relay) && Active(relay.status)
    && relay.activeLease == Some(w.leaseId) && relay.activeToken == Some(w.token)
    && w.expiresAt + offset <= relay.leaseExpiresAt.value as real <= w.renewAt + offset + LEASE_DURATION_MS as real
    && relay.leaseExpiresAt.value <= missionExpiresAt
    && w.renewAt + (w.safeRemaining as real) / 2.0 <= w.expiresAt
  }

  /** Where a keeper starts: the window computed from any answer to a renewal the relay took, recorded
      between request and response, is a safe reading of the lease it renewed. */
  lemma FreshWindowIsBelieved(relay: State, c: Claim, missionExpiresAt: int, offset: real, sentAt: real, receivedAt: real)
    requires DeliveryClauses(relay) && RelayRenews(relay, c, missionExpiresAt).Ok?
    requires sentAt + offset <= c.now as real <= receivedAt + offset
    ensures var renewed := RelayRenews(relay, c, missionExpiresAt).value;
            var expiresAt := BoundedLeaseExpiry(c.now, missionExpiresAt);
            var w := LeaseWindowFromRenewal(Renewal(c.leaseId, c.token, expiresAt, Some(expiresAt), c.now), sentAt, receivedAt);
            w.Ok? ==> Believes(w.value, renewed, offset, missionExpiresAt)
  {
    hide LeaseWindowFromRenewal, RelayRenews;
    var expiresAt := BoundedLeaseExpiry(c.now, missionExpiresAt);
    var r := Renewal(c.leaseId, c.token, expiresAt, Some(expiresAt), c.now);
    RelayRenewsIff(relay, c, missionExpiresAt);
    if LeaseWindowFromRenewal(r, sentAt, receivedAt).Ok? {
      WindowIsSafe(r, sentAt, receivedAt, offset);
      WindowNamesLease(r, sentAt, receivedAt);
    }
  }

  lemma WindowNamesLease(r: Renewal, requestStartedAt: real, responseReceivedAt: real)
    requires LeaseWindowFromRenewal(r, requestStartedAt, responseReceivedAt).Ok?
    ensures var w := LeaseWindowFromRenewal(r, requestStartedAt, responseReceivedAt).value;
            w.leaseId == r.leaseId && w.token == r.token
  {}

  /** A timely renewal reaches the relay while the claim is live, so the relay takes it, and the
      window the answer yields is again a safe reading. */
  lemma TimelyRenewalIsAccepted(w: Window, relay: State, offset: real, missionExpiresAt: int, r: Round)
    requires Believes(w, relay, offset, missionExpiresAt) && Timely(w, r, offset)
    ensures var answered := RelayRenews(relay, RenewalClaim(w, r), missionExpiresAt);
            && answered.Ok? && answered.value.leaseExpiresAt.Some?
            && relay.leaseExpiresAt.value <= answered.value.leaseExpiresAt.value
            && var next := NextWindow(w, r, offset, answered.value.leaseExpiresAt.value);
               next.Ok? ==> Believes(next.value, answered.value, offset, missionExpiresAt)
  {
    hide Transition, LeaseWindowFromRenewal, RelayRenews;
    var at := r.recordedAt as real - offset;
    assert w.renewAt <= at < w.expiresAt;
    RelayRenewsIff(relay, RenewalClaim(w, r), missionExpiresAt);
    FreshWindowIsBelieved(relay, RenewalClaim(w, r), missionExpiresAt, offset, SentAt(w, r), at + r.downlink);
  }

  /** While it runs, the keeper's window is a safe reading; once it stops, the relay's lease is still
      the one it held, and the reason is not that the relay refused. */
  predicate Keeps(k: Keeping, offset: real, missionExpiresAt: int) {
    && k.failure != Some(Refused) && Active(k.relay.status)
    && k.relay.activeLease == Some(k.window.leaseId) && k.relay.activeToken == Some(k.window.token)
    && (k.failure.None? ==> Believes(k.window, k.relay, offset, missionExpiresAt))
  }

  lemma TimelyRoundKeeps(k: Keeping, r: Round, offset: real, missionExpiresAt: int)
    requires k.failure.None? && Keeps(k, offset, missionExpiresAt) && Timely(k.window, r, offset)
    ensures Keeps(KeeperRound(k, r, offset, missionExpiresAt), offset, missionExpiresAt)
  {
    TimelyRenewalIsAccepted(k.window, k.relay, offset, missionExpiresAt, r);
    hide NextWindow, Timely, ActiveClaim;
  }

  /** Through the whole run, whatever interrupts it, no timely renewal ever finds the lease gone. */
  lemma {:induction false} TimelyKeeperIsNeverRefused(k: Keeping, offset: real, missionExpiresAt: int, rounds: seq<Round>)
    requires Keeps(k, offset, missionExpiresAt) && AllTimely(k, offset, missionExpiresAt, rounds)
    ensures Keeps(KeeperRun(k, offset, missionExpiresAt, rounds), offset, missionExpiresAt)
    decreases |rounds|
  {
    hide KeeperRound, Timely, Keeps;
    if rounds != [] && k.failure.None? {
      TimelyRoundKeeps(k, rounds[0], offset, missionExpiresAt);
      TimelyKeeperIsNeverRefused(KeeperRound(k, rounds[0], offset, missionExpiresAt), offset, missionExpiresAt, rounds[1..]);
    }
  }

  /** A timely round of a keeper that believes in its window succeeds exactly when nothing interrupts it,
      the journal still shows the keeper's lease, and more than the minimum is left after the round trip;
      then the new deadline is journaled, the request is settled and counted, and the window is new. */
  lemma RoundSucceedsIff(k: Keeping, r: Round, offset: real, missionExpiresAt: int)
    requires k.failure.None? && Keeps(k, offset, missionExpiresAt) && Timely(k.window, r, offset)
    ensures var next := KeeperRound(k, r, offset, missionExpiresAt);
            var expiresAt := BoundedLeaseExpiry(r.recordedAt, missionExpiresAt);
            && (next.failure.None? <==>
                  && r.fault.Smooth? && SameLease(Woken(k.record, r).lease, k.window)
                  && Uplink(k.window, r, offset) + r.downlink
                     <= (expiresAt - r.recordedAt - MIN_SAFE_LEASE_WINDOW_MS - 1) as real)
            && (next.failure.None? ==>
                  && next.relay == k.relay.(leaseExpiresAt := Some(expiresAt))
                  && next.record == Record(Some(JournaledLease(k.window.leaseId, k.window.token, expiresAt)),
                                           k.record.renewCount + 1, None)
                  && Ok(next.window) == NextWindow(k.window, r, offset, expiresAt))
  {
    TimelyRenewalIsAccepted(k.window, k.relay, offset, missionExpiresAt, r);
    RelayRenewsIff(k.relay, RenewalClaim(k.window, r), missionExpiresAt);
    var expiresAt := BoundedLeaseExpiry(r.recordedAt, missionExpiresAt);
    WindowExistsIff(Renewal(k.window.leaseId, k.window.token, expiresAt, Some(expiresAt), r.recordedAt),
                    SentAt(k.window, r), r.recordedAt as real - offset + r.downlink);
    hide RelayRenews, LeaseWindowFromRenewal, BoundedLeaseExpiry, Believes, Transition;
  }

  /** The record agrees with the relay unless a renewal is pending; then the relay may be ahead. */
  predicate Recorded(k: Keeping) {
    && SameLease(k.record.lease, k.window) && k.relay.leaseExpiresAt.Some?
    && k.record.lease.value.expiresAt <= k.relay.leaseExpiresAt.value
    && (k.record.pending.None? ==> k.record.lease.value.expiresAt == k.relay.leaseExpiresAt.value)
    && (k.record.pending.Some? ==> k.record.pending == Some(k.record.renewCount))
    && (k.record.pending.Some? <==> k.failure.Some? && LeavesRequest(k.failure.value))
  }

  /** The failures that leave a request journaled, for the next cycle to repeat under the same key. */
  predicate LeavesRequest(f: KeeperFailure) {
    f.Refused? || f.LostWindow? || (f.Faulted? && (f.fault.StoppedLate? || f.fault.AnswerLost? || f.fault.AnswerUnsaved?))
  }

  predicate LeftAlone(rounds: seq<Round>) { forall r <- rounds :: r.others.Untouched? }

  lemma RoundKeepsRecord(k: Keeping, r: Round, offset: real, missionExpiresAt: int)
    requires Recorded(k) && k.failure.None? && r.others.Untouched?
    ensures Recorded(KeeperRound(k, r, offset, missionExpiresAt))
    ensures KeeperRound(k, r, offset, missionExpiresAt).failure != Some(Changed)
    ensures var next := KeeperRound(k, r, offset, missionExpiresAt);
            && k.record.renewCount <= next.record.renewCount <= k.record.renewCount + 1
            && (next.failure.None? ==> next.record.renewCount == k.record.renewCount + 1)
  {
    hide BoundedLeaseExpiry;
    if NextWindow(k.window, r, offset, BoundedLeaseExpiry(r.recordedAt, missionExpiresAt)).Ok? {
      var expiresAt := BoundedLeaseExpiry(r.recordedAt, missionExpiresAt);
      WindowNamesLease(Renewal(k.window.leaseId, k.window.token, expiresAt, Some(expiresAt), r.recordedAt),
                       SentAt(k.window, r), r.recordedAt as real - offset + r.downlink);
    }
    hide NextWindow, ActiveClaim;
  }

  /** If nobody else rewrites the lease, the journal never claims a later deadline than the relay's;
      it is behind only while a request is pending, which is so exactly after the failures that leave
      one, and that request is always the newest the keeper made. */
  lemma {:induction false} RecordFollowsRelay(k: Keeping, offset: real, missionExpiresAt: int, rounds: seq<Round>)
    requires Recorded(k) && LeftAlone(rounds)
    ensures var after := KeeperRun(k, offset, missionExpiresAt, rounds);
            && Recorded(after) && (after.failure == Some(Changed) ==> k.failure == Some(Changed))
            && k.record.renewCount <= after.record.renewCount <= k.record.renewCount + |rounds|
            && (after.failure.None? ==> after.record.renewCount == k.record.renewCount + |rounds|)
    decreases |rounds|
  {
    hide KeeperRound, Recorded;
    if rounds != [] && k.failure.None? {
      RoundKeepsRecord(k, rounds[0], offset, missionExpiresAt);
      RecordFollowsRelay(KeeperRound(k, rounds[0], offset, missionExpiresAt), offset, missionExpiresAt, rounds[1..]);
    }
  }

  /** The keeper: it holds its window, writes the delivery's record and, once it stops, says why. */
  class LeaseKeeper {
    var window: Window
    var journaled: Option<JournaledLease>
    var renewCount: nat
    var operation: Option<nat>
    var failure: Option<KeeperFailure>

    constructor (initial: Window, journaled: Option<JournaledLease>, renewCount: nat)
      ensures forall relay :: View(relay) == Keeping(initial, Record(journaled, renewCount, None), relay, None)
    {
      window, failure := initial, None;
      this.journaled, this.renewCount, operation := journaled, renewCount, None;
    }

    function View(relay: State): Keeping
      reads this
    {
      Keeping(window, Record(journaled, renewCount, operation), relay, failure)
    }

    /** One pass of the loop; the answer reaches the relay's state even when it is lost on the way. */
    method Renew(relay: State, offset: real, missionExpiresAt: int, r: Round) returns (after: State)
      requires failure.None?
      modifies this
      ensures View(after) == KeeperRound(old(View(relay)), r, offset, missionExpiresAt)
    {
      hide ActiveClaim, NextWindow;
      after := relay;
      if r.others.Rewritten? { journaled := r.others.lease; }
      if r.fault.StoppedEarly? { failure := Some(Faulted(r.fault)); return; }
      if !SameLease(journaled, window) { failure := Some(Changed); return; }
      if r.fault.IntentUnsaved? { failure := Some(Faulted(r.fault)); return; }
      renewCount := renewCount + 1;
      operation := Some(renewCount);
      if r.fault.StoppedLate? { failure := Some(Faulted(r.fault)); return; }
      var answered := RelayRenews(relay, RenewalClaim(window, r), missionExpiresAt);
      if answered.Err? { failure := Some(Refused); return; }
      after := answered.value;
      if r.fault.AnswerLost? { failure := Some(Faulted(r.fault)); return; }
      var held := window;
      var next := NextWindow(window, r, offset, after.leaseExpiresAt.value);
      if next.Err? { failure := Some(LostWindow); return; }
      window := next.value;
      if r.fault.AnswerUnsaved? { failure := Some(Faulted(r.fault)); return; }
      journaled := Some(JournaledLease(held.leaseId, held.token, after.leaseExpiresAt.value));
      operation := None;
      if r.fault.CallbackFailed? { failure := Some(Faulted(r.fault)); }
    }

    /** Renews until told to stop or a round fails. */
    method Run(relay: State, offset: real, missionExpiresAt: int, rounds: seq<Round>) returns (after: State)
      requires failure.None?
      modifies this
      ensures View(after) == KeeperRun(old(View(relay)), offset, missionExpiresAt, rounds)
      ensures Believes(old(window), relay, offset, missionExpiresAt)
              && AllTimely(old(View(relay)), offset, missionExpiresAt, rounds) ==>
                failure != Some(Refused) && Active(after.status) && after.activeLease == Some(window.leaseId)
      ensures Recorded(old(View(relay))) && LeftAlone(rounds) ==> Recorded(View(after))
    {
      hide KeeperRound, Believes, AllTimely, Recorded, LeftAlone;
      ghost var start := View(relay);
      if Believes(window, relay, offset, missionExpiresAt) && AllTimely(start, offset, missionExpiresAt, rounds) {
        BelievedKeeps(start, offset, missionExpiresAt);
        TimelyKeeperIsNeverRefused(start, offset, missionExpiresAt, rounds);
      }
      if Recorded(start) && LeftAlone(rounds) { RecordFollowsRelay(start, offset, missionExpiresAt, rounds); }
      after := relay;
      assert rounds[0..] == rounds;
      for i := 0 to |rounds|
        invariant failure.None?
        invariant KeeperRun(View(after), offset, missionExpiresAt, rounds[i..])
                  == KeeperRun(start, offset, missionExpiresAt, rounds)
      {
        assert rounds[i..][1..] == rounds[i + 1..];
        after := Renew(after, offset, missionExpiresAt, rounds[i]);
        if failure.Some? { return; }
      }
    }
  }

  lemma BelievedKeeps(k: Keeping, offset: real, missionExpiresAt: int)
    requires k.failure.None? && Believes(k.window, k.relay, offset, missionExpiresAt)
    ensures Keeps(k, offset, missionExpiresAt)
  {}
}
