/** The bounded async queue: the class as it runs, the machine it implements, and what holds of
    order, loss and bounds in every interleaving of push, next and close. */
module BoundedQueue {
  import opened Common

  /** The promise of one `next` call. */
  datatype Answer<T> = Pending | Got(value: T) | Done | Rejected(error: Id)

  datatype Queued<T> = Queued(value: T, weight: nat)

  datatype PushResult = Accepted | Ignored | BadWeight | Overflow

  /** `answers` holds every promise handed out, in call order; `accepted` every value taken. */
  datatype Queue<T> = Queue(
    values: seq<Queued<T>>, waiters: seq<nat>, retainedWeight: nat, closed: bool, failure: Option<Id>,
    answers: seq<Answer<T>>, accepted: seq<T>)

  const MAX_SAFE_INTEGER := 9_007_199_254_740_991

  datatype Limits = Limits(maxValues: nat, maxWeight: nat)

  function Pushed<T>(q: Queue<T>, l: Limits, value: T, weight: int): (Queue<T>, PushResult)
    requires forall i :: 0 <= i < |q.waiters| ==> q.waiters[i] < |q.answers|
  {
    if weight < 0 || weight > MAX_SAFE_INTEGER then (q, BadWeight)
    else if q.closed then (q, Ignored)
    else if q.waiters != [] then
      (q.(waiters := q.waiters[1..], answers := q.answers[q.waiters[0] := Got(value)],
          accepted := q.accepted + [value]), Accepted)
    else if |q.values| >= l.maxValues || weight > l.maxWeight - q.retainedWeight then (q, Overflow)
    else
      (q.(values := q.values + [Queued(value, weight)], retainedWeight := q.retainedWeight + weight,
          accepted := q.accepted + [value]), Accepted)
  }

  function Called<T>(q: Queue<T>): Queue<T>
    requires q.values != [] ==> q.values[0].weight <= q.retainedWeight
  {
    if q.failure.Some? then q.(answers := q.answers + [Rejected(q.failure.value)])
    else if q.values != [] then
      q.(values := q.values[1..], retainedWeight := q.retainedWeight - q.values[0].weight,
         answers := q.answers + [Got(q.values[0].value)])
    else if q.closed then q.(answers := q.answers + [Done])
    else q.(waiters := q.waiters + [|q.answers|], answers := q.answers + [Pending])
  }

  /** Every waiter is settled the same way. */
  function Settled<T>(answers: seq<Answer<T>>, waiters: seq<nat>, a: Answer<T>): (r: seq<Answer<T>>)
    requires forall i :: 0 <= i < |waiters| ==> waiters[i] < |answers|
    ensures |r| == |answers|
    decreases |waiters|
  {
    if waiters == [] then answers else Settled(answers[waiters[0] := a], waiters[1..], a)
  }

  function Closed<T>(q: Queue<T>, error: Option<Id>): Queue<T>
    requires forall i :: 0 <= i < |q.waiters| ==> q.waiters[i] < |q.answers|
  {
    if q.closed then q
    else
      q.(closed := true, failure := error,
         values := if error.Some? then [] else q.values,
         retainedWeight := if error.Some? then 0 else q.retainedWeight,
         waiters := [],
         answers := Settled(q.answers, q.waiters, if error.Some? then Rejected(error.value) else Done))
  }

  // ---- The invariant -------------------------------------------------------------------

  function Weight<T>(values: seq<Queued<T>>): nat {
    if values == [] then 0 else values[0].weight + Weight(values[1..])
  }

  /** The values of the value-bearing calls, in call order. */
  function Delivered<T>(answers: seq<Answer<T>>): seq<T> {
    if answers == [] then []
    else
      var last := answers[|answers| - 1];
      Delivered(answers[..|answers| - 1]) + if last.Got? then [last.value] else []
  }

  function Values<T>(values: seq<Queued<T>>): seq<T> {
    seq(|values|, i requires 0 <= i < |values| => values[i].value)
  }

  predicate QueueInv<T(==)>(q: Queue<T>, l: Limits) {
    && Weight(q.values) == q.retainedWeight
    && |q.values| <= l.maxValues && q.retainedWeight <= l.maxWeight
    && (q.values == [] || q.waiters == [])
    && (q.closed ==> q.waiters == [])
    && (q.failure.Some? ==> q.closed && q.values == [])
    && |q.waiters| <= |q.answers|
    && (forall i :: 0 <= i < |q.waiters| ==> q.waiters[i] == |q.answers| - |q.waiters| + i)
    && (forall i :: 0 <= i < |q.answers| ==> (q.answers[i].Pending? <==> i >= |q.answers| - |q.waiters|))
    && Delivered(q.answers) <= q.accepted
    && (q.failure.None? ==> Delivered(q.answers) + Values(q.values) == q.accepted)
  }

  function Empty<T>(): Queue<T> { Queue([], [], 0, false, None, [], []) }

  datatype Op<T> = Push(value: T, weight: int) | Next | Close(error: Option<Id>)

  lemma {:induction false} NoneGot<T>(answers: seq<Answer<T>>, from: nat)
    requires from <= |answers| && forall i :: from <= i < |answers| ==> !answers[i].Got?
    ensures Delivered(answers) == Delivered(answers[..from])
    decreases |answers|
  {
    if from < |answers| {
      var shorter := answers[..|answers| - 1];
      NoneGot(shorter, from);
      assert shorter[..from] == answers[..from];
    } else {
      assert answers[..from] == answers;
    }
  }

  lemma {:induction false} WeightSplits<T>(values: seq<Queued<T>>, last: Queued<T>)
    ensures Weight(values + [last]) == Weight(values) + last.weight
  {
    if values == [] {
      assert values + [last] == [last] && [last][1..] == [];
    } else {
      WeightSplits(values[1..], last);
      assert (values + [last])[1..] == values[1..] + [last];
    }
  }

  /** Handing a value to the first waiter appends it to what was delivered. */
  lemma WaiterGets<T>(answers: seq<Answer<T>>, first: nat, value: T)
    requires first < |answers| && forall i :: first <= i < |answers| ==> answers[i].Pending?
    ensures Delivered(answers[first := Got(value)]) == Delivered(answers) + [value]
  {
    var after := answers[first := Got(value)];
    NoneGot(after, first + 1);
    NoneGot(answers, first);
    assert after[..first + 1][..first] == answers[..first];
  }

  lemma PushKeepsInv<T>(q: Queue<T>, l: Limits, value: T, weight: int)
    requires QueueInv(q, l)
    ensures QueueInv(Pushed(q, l, value, weight).0, l)
  {
    var (u, r) := Pushed(q, l, value, weight);
    if r.Accepted? && q.waiters != [] {
      hide Delivered, Weight;
      WaiterGets(q.answers, q.waiters[0], value);
      assert Values(q.values) == [] && Delivered(q.answers) + [] == q.accepted by {
        assert Delivered(q.answers) + Values(q.values) == q.accepted;
      }
      assert Delivered(u.answers) + Values(u.values) == u.accepted;
    } else if r.Accepted? {
      hide Delivered;
      WeightSplits(q.values, Queued(value, weight));
      assert Values(u.values) == Values(q.values) + [value];
      assert Delivered(q.answers) + (Values(q.values) + [value]) == q.accepted + [value];
    }
  }

  lemma AnswerAppends<T>(answers: seq<Answer<T>>, a: Answer<T>)
    ensures Delivered(answers + [a]) == Delivered(answers) + if a.Got? then [a.value] else []
  {
    assert (answers + [a])[..|answers|] == answers;
  }

  lemma QueuedIsTaken<T>(q: Queue<T>, l: Limits)
    requires QueueInv(q, l) && q.failure.None? && q.values != []
    ensures q.values[0].weight <= q.retainedWeight && QueueInv(Called(q), l)
  {
    var u, first := Called(q), q.values[0].value;
    AnswerAppends(q.answers, Got(first));
    hide Delivered;
    assert Values(q.values) == [first] + Values(q.values[1..]);
    assert Delivered(q.answers) + ([first] + Values(q.values[1..])) == Delivered(u.answers) + Values(u.values);
  }

  lemma NextKeepsInv<T>(q: Queue<T>, l: Limits)
    requires QueueInv(q, l)
    ensures q.values != [] ==> q.values[0].weight <= q.retainedWeight
    ensures QueueInv(Called(q), l)
  {
    if q.failure.None? && q.values != [] {
      QueuedIsTaken(q, l);
    } else {
      AnswerAppends(q.answers, Called(q).answers[|q.answers|]);
      hide Delivered, Weight;
      assert Delivered(q.answers) + [] == Delivered(q.answers);
    }
  }

  lemma {:induction false} SettledAt<T>(answers: seq<Answer<T>>, waiters: seq<nat>, a: Answer<T>, from: nat)
    requires from + |waiters| == |answers| && forall i :: 0 <= i < |waiters| ==> waiters[i] == from + i
    ensures Settled(answers, waiters, a) == answers[..from] + seq(|waiters|, i => a)
    decreases |waiters|
  {
    if waiters != [] {
      var next := answers[from := a];
      SettledAt(next, waiters[1..], a, from + 1);
      assert next[..from + 1] == answers[..from] + [a];
      assert [a] + seq(|waiters| - 1, i => a) == seq(|waiters|, i => a);
    } else {
      assert answers[..from] == answers;
    }
  }

  lemma CloseKeepsInv<T>(q: Queue<T>, l: Limits, error: Option<Id>)
    requires QueueInv(q, l)
    ensures QueueInv(Closed(q, error), l)
  {
    if !q.closed {
      var u := Closed(q, error);
      var from := |q.answers| - |q.waiters|;
      SettledAt(q.answers, q.waiters, if error.Some? then Rejected(error.value) else Done, from);
      NoneGot(u.answers, from);
      NoneGot(q.answers, from);
      assert u.answers[..from] == q.answers[..from];
      hide Delivered;
    }
  }

  // ---- The class -----------------------------------------------------------------------

  class BoundedAsyncQueue<T(==)> {
    const limits: Limits
    var values: seq<Queued<T>>
    var waiters: seq<nat>
    var retainedWeight: nat
    var closed: bool
    var failure: Option<Id>
    /** The promises handed to callers, in call order. */
    var promises: seq<Answer<T>>
    ghost var accepted: seq<T>

    constructor (maxValues: nat, maxWeight: nat)
      ensures Valid() && View() == Empty() && limits == Limits(maxValues, maxWeight)
    {
      limits := Limits(maxValues, maxWeight);
      values, waiters, retainedWeight, closed, failure, promises, accepted := [], [], 0, false, None, [], [];
    }

    ghost function View(): Queue<T>
      reads this
    {
      Queue(values, waiters, retainedWeight, closed, failure, promises, accepted)
    }

    ghost predicate Valid()
      reads this
    {
      QueueInv(View(), limits)
    }

    method Push(value: T, weight: int) returns (r: PushResult)
      requires Valid()
      modifies this
      ensures Valid() && (View(), r) == Pushed(old(View()), limits, value, weight)
    {
      PushKeepsInv(View(), limits, value, weight);
      if weight < 0 || weight > MAX_SAFE_INTEGER { return BadWeight; }
      if closed { return Ignored; }
      if waiters != [] {
        promises := promises[waiters[0] := Got(value)];
        waiters := waiters[1..];
        accepted := accepted + [value];
        return Accepted;
      }
      if |values| >= limits.maxValues || weight > limits.maxWeight - retainedWeight { return Overflow; }
      values := values + [Queued(value, weight)];
      retainedWeight := retainedWeight + weight;
      accepted := accepted + [value];
      return Accepted;
    }

    /** Hands out the next promise; its number is the call's place in call order. */
    method Next() returns (promise: nat)
      requires Valid()
      modifies this
      ensures promise == |old(promises)|
      ensures old(values) != [] ==> old(values[0].weight) <= old(retainedWeight)
      ensures Valid() && View() == Called(old(View()))
    {
      NextKeepsInv(View(), limits);
      promise := |promises|;
      if failure.Some? {
        promises := promises + [Rejected(failure.value)];
      } else if values != [] {
        var queued := values[0];
        values := values[1..];
        retainedWeight := retainedWeight - queued.weight;
        promises := promises + [Got(queued.value)];
      } else if closed {
        promises := promises + [Done];
      } else {
        waiters := waiters + [promise];
        promises := promises + [Pending];
      }
    }

    method Close(error: Option<Id>)
      requires Valid()
      modifies this
      ensures Valid() && View() == Closed(old(View()), error)
    {
      CloseKeepsInv(View(), limits, error);
      if closed { return; }
      closed := true;
      failure := error;
      if error.Some? {
        values := [];
        retainedWeight := 0;
      }
      var answer := if error.Some? then Rejected(error.value) else Done;
      ghost var before, pending := promises, waiters;
      var i := 0;
      while i < |waiters|
        invariant 0 <= i <= |waiters| && waiters == pending && |promises| == |before|
        invariant Settled(promises, pending[i..], answer) == Settled(before, pending, answer)
        invariant closed && failure == error && values == (if error.Some? then [] else old(values))
        invariant retainedWeight == (if error.Some? then 0 else old(retainedWeight)) && accepted == old(accepted)
      {
        assert pending[i..][1..] == pending[i + 1..];
        promises := promises[waiters[i] := answer];
        i := i + 1;
      }
      waiters := [];
    }
  }

  // ---- Every interleaving --------------------------------------------------------------

  /** A queue some run of operations can leave; any other state would be left alone. */
  function Step<T(==)>(q: Queue<T>, l: Limits, op: Op<T>): Queue<T> {
    if !QueueInv(q, l) then q
    else
      match op
      case Push(value, weight) => Pushed(q, l, value, weight).0
      case Next => NextKeepsInv(q, l); Called(q)
      case Close(error) => Closed(q, error)
  }

  function Run<T(==)>(q: Queue<T>, l: Limits, ops: seq<Op<T>>): Queue<T> {
    if ops == [] then q else Step(Run(q, l, ops[..|ops| - 1]), l, ops[|ops| - 1])
  }

  lemma {:induction false} RunKeepsInv<T>(q: Queue<T>, l: Limits, ops: seq<Op<T>>)
    requires QueueInv(q, l)
    ensures QueueInv(Run(q, l, ops), l)
  {
    hide QueueInv, Pushed, Called, Closed;
    if ops != [] {
      var before := Run(q, l, ops[..|ops| - 1]);
      RunKeepsInv(q, l, ops[..|ops| - 1]);
      match ops[|ops| - 1]
      case Push(value, weight) => PushKeepsInv(before, l, value, weight);
      case Next => NextKeepsInv(before, l);
      case Close(error) => CloseKeepsInv(before, l, error);
    }
  }

  /** In every interleaving, the i-th value-bearing call has the i-th accepted value; callers wait
      only while nothing is queued; the retained weight is the queue's, within both bounds; and
      unless the queue failed, what was delivered and what is queued is all that was accepted. */
  lemma OrderAndConservation<T>(l: Limits, ops: seq<Op<T>>)
    ensures var q := Run(Empty(), l, ops);
            && (forall i :: 0 <= i < |Delivered(q.answers)| ==>
                  i < |q.accepted| && Delivered(q.answers)[i] == q.accepted[i])
            && (q.values == [] || q.waiters == [])
            && Weight(q.values) == q.retainedWeight <= l.maxWeight && |q.values| <= l.maxValues
            && (q.failure.None? ==> Delivered(q.answers) + Values(q.values) == q.accepted)
  {
    assert QueueInv(Empty<T>(), l);
    hide Run, Delivered, Weight;
    RunKeepsInv(Empty<T>(), l, ops);
  }

  /** How the run's first close ended the queue. */
  function FirstClose<T>(ops: seq<Op<T>>): Option<Option<Id>> {
    if ops == [] then None
    else
      var before := FirstClose(ops[..|ops| - 1]);
      if before.Some? then before
      else if ops[|ops| - 1].Close? then Some(ops[|ops| - 1].error) else None
  }

  lemma StepCloses<T>(q: Queue<T>, l: Limits, op: Op<T>)
    requires QueueInv(q, l)
    ensures var u := Step(q, l, op);
            if op.Close? && !q.closed then u.closed && u.failure == op.error
            else u.closed == q.closed && u.failure == q.failure
  {
    NextKeepsInv(q, l);
    hide QueueInv;
  }

  lemma {:induction false} FirstCloseDecides<T>(l: Limits, ops: seq<Op<T>>)
    ensures var q := Run(Empty(), l, ops);
            && QueueInv(q, l) && (q.closed <==> FirstClose(ops).Some?)
            && (FirstClose(ops).Some? ==> q.failure == FirstClose(ops).value) && (FirstClose(ops).None? ==> q.failure.None?)
  {
    assert QueueInv(Empty<T>(), l);
    RunKeepsInv(Empty<T>(), l, ops);
    hide QueueInv, Step;
    if ops != [] {
      FirstCloseDecides(l, ops[..|ops| - 1]);
      StepCloses(Run(Empty<T>(), l, ops[..|ops| - 1]), l, ops[|ops| - 1]);
    }
  }

  /** The call at `i` is the first that still waits. */
  predicate FirstWaiting<T>(answers: seq<Answer<T>>, i: int) {
    0 <= i < |answers| && answers[i].Pending? && forall j :: 0 <= j < i ==> !answers[j].Pending?
  }

  predicate SomeoneWaits<T>(answers: seq<Answer<T>>) { exists i :: 0 <= i < |answers| && answers[i].Pending? }

  lemma WaitersAreFirst<T>(q: Queue<T>, l: Limits)
    requires QueueInv(q, l)
    ensures SomeoneWaits(q.answers) <==> q.waiters != []
    ensures q.waiters != [] ==> FirstWaiting(q.answers, q.waiters[0])
  {
    hide Delivered, Weight;
    if q.waiters != [] { assert q.answers[q.waiters[0]].Pending?; }
  }

  /** After any run, a push with a usable weight is ignored exactly when a close came before it; it goes
      to the caller who waits longest, if one does; otherwise it is queued exactly when both bounds
      still hold with it, and else overflows, changing nothing. */
  lemma PushDoes<T>(l: Limits, ops: seq<Op<T>>, value: T, weight: int)
    ensures var q := Run(Empty(), l, ops);
            QueueInv(q, l)
            && var (u, r) := Pushed(q, l, value, weight);
            var usable := 0 <= weight <= MAX_SAFE_INTEGER;
            var room := |q.values| + 1 <= l.maxValues && Weight(q.values) + weight <= l.maxWeight;
            && (r.BadWeight? <==> !usable)
            && (r.Ignored? <==> usable && FirstClose(ops).Some?)
            && (r.Accepted? <==> usable && FirstClose(ops).None? && (SomeoneWaits(q.answers) || room))
            && (!r.Accepted? ==> u == q)
            && (r.Accepted? ==>
                  && u.accepted == q.accepted + [value]
                  && if SomeoneWaits(q.answers) then
                       u.values == q.values
                       && exists i :: FirstWaiting(q.answers, i) && u.answers == q.answers[i := Got(value)]
                     else u.values == q.values + [Queued(value, weight)] && u.answers == q.answers)
  {
    hide Run, Delivered;
    FirstCloseDecides(l, ops);
    WaitersAreFirst(Run(Empty(), l, ops), l);
  }

  /** After any run, a call is rejected exactly when the first close carried an error; otherwise it takes
      the oldest queued value, if any, and else reports the end once closed, or waits. */
  lemma CallDoes<T>(l: Limits, ops: seq<Op<T>>)
    ensures var q := Run(Empty(), l, ops);
            QueueInv(q, l)
            && (q.values != [] ==> q.values[0].weight <= q.retainedWeight)
            && var u, first := Called(q), FirstClose(ops);
               var a := if first.Some? && first.value.Some? then Rejected(first.value.value)
                        else if q.values != [] then Got(q.values[0].value)
                        else if first.Some? then Done else Pending;
               && u.answers == q.answers + [a] && u.accepted == q.accepted
               && u.values == if a.Got? then q.values[1..] else q.values
  {
    hide Run, Delivered;
    FirstCloseDecides(l, ops);
    NextKeepsInv(Run(Empty<T>(), l, ops), l);
  }

  /** After any run, the first close answers every caller who waits, with its error or the end, and no
      other; what is queued is dropped on an error and kept otherwise. Later closes do nothing. */
  lemma CloseDoes<T>(l: Limits, ops: seq<Op<T>>, error: Option<Id>)
    ensures var q := Run(Empty(), l, ops);
            QueueInv(q, l)
            && var u := Closed(q, error);
            && (FirstClose(ops).Some? ==> u == q)
            && (FirstClose(ops).None? ==>
                  && |u.answers| == |q.answers| && u.accepted == q.accepted && !SomeoneWaits(u.answers)
                  && (forall i :: 0 <= i < |q.answers| ==>
                        u.answers[i] == if q.answers[i].Pending? then
                                          (if error.Some? then Rejected(error.value) else Done)
                                        else q.answers[i])
                  && u.values == if error.Some? then [] else q.values)
  {
    hide Run, Delivered, Weight;
    FirstCloseDecides(l, ops);
    var q := Run(Empty<T>(), l, ops);
    SettledAt(q.answers, q.waiters, if error.Some? then Rejected(error.value) else Done, |q.answers| - |q.waiters|);
  }

  /** How many of the operations are calls of `next`. */
  function CountCalls<T>(ops: seq<Op<T>>): nat {
    if ops == [] then 0 else CountCalls(ops[..|ops| - 1]) + if ops[|ops| - 1].Next? then 1 else 0
  }

  function Capped(n: nat, limit: nat): nat { if n < limit then n else limit }

  /** After a graceful close only calls have an effect, and each takes the first value left. */
  lemma {:induction false} Drain<T>(q: Queue<T>, l: Limits, ops: seq<Op<T>>)
    requires QueueInv(q, l) && q.closed && q.failure.None?
    ensures var u := Run(q, l, ops);
            && u.closed && u.failure.None? && u.accepted == q.accepted
            && u.values == q.values[Capped(CountCalls(ops), |q.values|)..]
            && |u.answers| == |q.answers| + CountCalls(ops)
  {
    hide QueueInv;
    if ops != [] {
      var before := ops[..|ops| - 1];
      Drain(q, l, before);
      RunKeepsInv(q, l, before);
      if ops[|ops| - 1].Next? { NextKeepsInv(Run(q, l, before), l); }
      ClosedHasNoWaiters(Run(q, l, before), l);
    }
  }

  lemma ClosedHasNoWaiters<T>(q: Queue<T>, l: Limits)
    requires QueueInv(q, l) && q.closed
    ensures q.waiters == []
  {}

  /** A graceful close loses nothing: whatever pushes, calls and closes follow it, what is delivered
      and what is still queued is all that was accepted, and it is all delivered, with every further
      call reporting the end, once as many calls came as values were queued. */
  lemma GracefulCloseDeliversEverything<T>(q: Queue<T>, l: Limits, ops: seq<Op<T>>)
    requires QueueInv(q, l) && !q.closed
    ensures var u := Run(Closed(q, None), l, ops);
            && u.accepted == q.accepted && Delivered(u.answers) + Values(u.values) == q.accepted
            && (CountCalls(ops) >= |q.values| ==>
                  && Delivered(u.answers) == q.accepted
                  && QueueInv(u, l) && Called(u).answers == u.answers + [Done])
  {
    hide Delivered, Weight, Run, CountCalls;
    var c := Closed(q, None);
    CloseKeepsInv(q, l, None);
    var u := Run(c, l, ops);
    Drain(c, l, ops);
    RunKeepsInv(c, l, ops);
    if CountCalls(ops) >= |q.values| {
      assert u.values == [] && Delivered(u.answers) + Values(u.values) == Delivered(u.answers);
    }
  }

  lemma FailedIsClosed<T>(q: Queue<T>, l: Limits)
    requires QueueInv(q, l) && q.failure.Some?
    ensures q.closed && q.values == [] && q.waiters == []
  {}

  /** Once closed, a queue accepts nothing; once failed, it delivers nothing more. */
  lemma {:induction false} FailedQueueStaysSilent<T>(q: Queue<T>, l: Limits, ops: seq<Op<T>>)
    requires QueueInv(q, l) && q.failure.Some?
    ensures var u := Run(q, l, ops);
            && u.failure == q.failure && u.accepted == q.accepted && Delivered(u.answers) == Delivered(q.answers)
            && forall i :: |q.answers| <= i < |u.answers| ==> u.answers[i] == Rejected(q.failure.value)
  {
    hide QueueInv, Delivered;
    if ops != [] {
      var before := ops[..|ops| - 1];
      FailedQueueStaysSilent(q, l, before);
      RunKeepsInv(q, l, before);
      var b := Run(q, l, before);
      FailedIsClosed(b, l);
      AnswerAppends(b.answers, Rejected(q.failure.value));
    }
  }
}
