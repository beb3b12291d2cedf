/** Consuming a host stream into the durable delivery journal, across sessions that may be cut
    off anywhere and replay the stream from its start. */
module HostReplay {
  import opened Common
  import opened MissionTypes
  import opened HostStream
  import opened HostStreamSpec

  datatype JournalPhase = RelayExecuting | HostAccepted | HostTerminal

  /** One consumer session: what is durably journaled, the validator state, and whether it failed. */
  datatype Session = Session(journal: seq<HostEvent>, stream: StreamState, failed: bool)

  /** The turn a session expects: the journaled one if acceptance was already seen. */
  function ExpectedTurn(input: Correlation, journal: seq<HostEvent>): Correlation {
    if journal == [] then input.(turnId := None)
    else
      var t := journal[0].turn;
      Correlation(Some(t.turnId), t.sessionId, t.missionId, t.deliveryId, t.executionAttempt, t.contractVersion)
  }

  /** A new session validates what is already journaled before it reads anything. */
  function Open(input: Correlation, p: Policy, journal: seq<HostEvent>): Session {
    var expected := ExpectedTurn(input, journal);
    var replayed := Fold(expected, p, journal);
    if replayed.Ok? then Session(journal, replayed.value, false)
    else Session(journal, CreateStream(expected), true)
  }

  /** One event read from the host: a replay must repeat the journal, anything else must validate. */
  function Receive(se: Session, e: HostEvent, p: Policy): Session {
    if se.failed then se
    else if 1 <= e.sequence <= |se.journal| then
      if se.journal[e.sequence - 1] == e then se else se.(failed := true)
    else
      var accepted := AcceptHostEvent(se.stream, e, p);
      if accepted.Err? then se.(failed := true)
      else se.(journal := se.journal + [e], stream := accepted.value)
  }

  function ReceiveAll(se: Session, inputs: seq<HostEvent>, p: Policy): Session {
    if inputs == [] then se
    else Receive(ReceiveAll(se, inputs[..|inputs| - 1], p), inputs[|inputs| - 1], p)
  }

  function Consume(input: Correlation, p: Policy, journal: seq<HostEvent>, inputs: seq<HostEvent>): Session {
    ReceiveAll(Open(input, p, journal), inputs, p)
  }

  /** The delivery journal entry a session writes to. */
  class DeliveryEntry {
    var hostEvents: seq<HostEvent>
    var phase: JournalPhase

    constructor ()
      ensures hostEvents == [] && phase == RelayExecuting
    {
      hostEvents := [];
      phase := RelayExecuting;
    }

    /** The consumer loop. `inputs` are the events read before the stream ended or the session was
        cut off; the durable journal afterwards is exactly what `Consume` says, and success means
        a terminal event is journaled. */
    method ConsumeHostEvents(input: Correlation, p: Policy, inputs: seq<HostEvent>) returns (ok: bool)
      modifies this
      ensures old(hostEvents) <= hostEvents
      ensures hostEvents == Consume(input, p, old(hostEvents), inputs).journal
      ensures ok <==> var se := Consume(input, p, old(hostEvents), inputs); !se.failed && se.stream.phase.Closed?
      ensures phase == PhaseAfter(old(phase), hostEvents[|old(hostEvents)|..])
    {
      hide AcceptHostEvent, PhaseAfter, CreateStream, ExpectedTurn;
      var expected := ExpectedTurn(input, hostEvents);
      var state := CreateStream(expected);
      assert phase == PhaseAfter(phase, []) by { NoPhaseChange(phase); }
      assert hostEvents[|hostEvents|..] == [];
      for i := 0 to |hostEvents|
        invariant hostEvents == old(hostEvents) && phase == old(phase)
        invariant Fold(expected, p, hostEvents[..i]) == Ok(state)
      {
        assert hostEvents[..i + 1][..i] == hostEvents[..i];
        var replayed := AcceptEvent(state, hostEvents[i], p);
        if replayed.Err? {
          FoldFailsWithPrefix(expected, p, hostEvents, i + 1);
          FailedSessionStays(Open(input, p, hostEvents), inputs, p);
          return false;
        }
        state := replayed.value;
      }
      assert hostEvents[..|hostEvents|] == hostEvents;
      for i := 0 to |inputs|
        invariant Consume(input, p, old(hostEvents), inputs[..i]) == Session(hostEvents, state, false)
        invariant old(hostEvents) <= hostEvents
        invariant phase == PhaseAfter(old(phase), hostEvents[|old(hostEvents)|..])
      {
        assert inputs[..i + 1][..i] == inputs[..i];
        var e := inputs[i];
        if 1 <= e.sequence <= |hostEvents| {
          if hostEvents[e.sequence - 1] != e {
            SessionFailsWithPrefix(Open(input, p, old(hostEvents)), inputs, i + 1, p);
            return false;
          }
        } else {
          var accepted := AcceptEvent(state, e, p);
          if accepted.Err? {
            SessionFailsWithPrefix(Open(input, p, old(hostEvents)), inputs, i + 1, p);
            return false;
          }
          ClosedByTerminal(state, e, p);
          state := accepted.value;
          assert (hostEvents + [e])[|old(hostEvents)|..] == hostEvents[|old(hostEvents)|..] + [e];
          PhaseStep(old(phase), hostEvents[|old(hostEvents)|..], e);
          hostEvents := hostEvents + [e];
          phase := if e.Accepted? then HostAccepted else if state.phase.Closed? then HostTerminal else phase;
        }
      }
      assert inputs[..|inputs|] == inputs;
      return state.phase.Closed?;
    }
  }

  /** The journal phase after newly journaling `events`. */
  function PhaseAfter(before: JournalPhase, events: seq<HostEvent>): JournalPhase {
    if events == [] then before
    else
      var e := events[|events| - 1];
      if e.Accepted? then HostAccepted
      else if IsTerminalEvent(e) then HostTerminal
      else PhaseAfter(before, events[..|events| - 1])
  }

  lemma NoPhaseChange(before: JournalPhase)
    ensures PhaseAfter(before, []) == before
  {}

  /** Journaling new events leaves the delivery terminal exactly when the last of them is, and otherwise
      accepted when they begin the stream. */
  lemma PhaseMeans(input: Correlation, p: Policy, journal: seq<HostEvent>, events: seq<HostEvent>, before: JournalPhase)
    requires ValidStream(input, p, journal + events) && events != []
    ensures PhaseAfter(before, events)
         == if IsTerminalEvent(events[|events| - 1]) then HostTerminal
            else if journal == [] then HostAccepted else before
  {
    hide WithinLimits, UsageOrdered, HostEventParses;
    var all := journal + events;
    assert forall i :: 0 <= i < |events| ==> events[i] == all[|journal| + i];
    if !IsTerminalEvent(events[|events| - 1]) { OpenPhase(journal, events, before); }
  }

  lemma {:induction false} OpenPhase(journal: seq<HostEvent>, events: seq<HostEvent>, before: JournalPhase)
    requires forall e <- events :: !IsTerminalEvent(e)
    requires forall i :: 0 <= i < |events| ==> (events[i].Accepted? <==> |journal| + i == 0)
    ensures PhaseAfter(before, events) == if events != [] && journal == [] then HostAccepted else before
  {
    if events != [] { OpenPhase(journal, events[..|events| - 1], before); }
  }

  lemma ClosedByTerminal(s: StreamState, e: HostEvent, p: Policy)
    ensures AcceptHostEvent(s, e, p).Ok? ==>
              (AcceptHostEvent(s, e, p).value.phase.Closed? <==> IsTerminalEvent(e))
  {}

  lemma PhaseStep(before: JournalPhase, events: seq<HostEvent>, e: HostEvent)
    ensures PhaseAfter(before, events + [e])
         == if e.Accepted? then HostAccepted
            else if IsTerminalEvent(e) then HostTerminal
            else PhaseAfter(before, events)
  {
    assert (events + [e])[..|events|] == events;
  }

  lemma {:induction false} FoldFailsWithPrefix(expected: Correlation, p: Policy, events: seq<HostEvent>, k: nat)
    requires k <= |events| && Fold(expected, p, events[..k]).Err?
    ensures Fold(expected, p, events).Err?
    decreases |events|
  {
    hide AcceptHostEvent;
    if k == |events| {
      assert events[..k] == events;
    } else {
      assert events[..|events| - 1][..k] == events[..k];
      FoldFailsWithPrefix(expected, p, events[..|events| - 1], k);
    }
  }

  lemma {:induction false} FailedSessionStays(se: Session, inputs: seq<HostEvent>, p: Policy)
    requires se.failed
    ensures ReceiveAll(se, inputs, p) == se
  {
    if inputs != [] { FailedSessionStays(se, inputs[..|inputs| - 1], p); }
  }

  lemma {:induction false} SessionFailsWithPrefix(se: Session, inputs: seq<HostEvent>, k: nat, p: Policy)
    requires k <= |inputs| && ReceiveAll(se, inputs[..k], p).failed
    ensures ReceiveAll(se, inputs, p) == ReceiveAll(se, inputs[..k], p)
    decreases |inputs|
  {
    hide AcceptHostEvent;
    if k == |inputs| {
      assert inputs[..k] == inputs;
    } else {
      assert inputs[..|inputs| - 1][..k] == inputs[..k];
      SessionFailsWithPrefix(se, inputs[..|inputs| - 1], k, p);
    }
  }

  // ---- Any session, any input ----------------------------------------------------------

  /** A usable session's validator has read exactly the journal. */
  ghost predicate Synced(se: Session, expected: Correlation, p: Policy) {
    !se.failed ==> Fold(expected, p, se.journal) == Ok(se.stream)
  }

  lemma {:induction false} SessionExtends(se: Session, expected: Correlation, p: Policy, inputs: seq<HostEvent>)
    requires Synced(se, expected, p)
    ensures var after := ReceiveAll(se, inputs, p);
            && Synced(after, expected, p) && se.journal <= after.journal
            && (se.failed ==> after == se)
            && (Fold(expected, p, se.journal).Ok? ==> Fold(expected, p, after.journal).Ok?)
  {
    hide AcceptHostEvent;
    if inputs != [] {
      SessionExtends(se, expected, p, inputs[..|inputs| - 1]);
      var before := ReceiveAll(se, inputs[..|inputs| - 1], p);
      var e := inputs[|inputs| - 1];
      assert (before.journal + [e])[..|before.journal|] == before.journal;
    }
  }

  /** A valid stream about a turn is also valid once that turn's id is pinned, and conversely for
      any id the caller did not pin. */
  lemma PinnedTurn(input: Correlation, p: Policy, events: seq<HostEvent>, k: nat)
    requires ValidStream(input.(turnId := None), p, events) && k <= |events|
    ensures ValidStream(ExpectedTurn(input, events[..k]), p, events)
  {
    hide WithinLimits, ClosesLast, UsageOrdered;
  }

  /** Whatever a host sends, a session only ever extends the journal, and what is journaled stays
      a valid stream for the turn. */
  lemma AnySessionKeepsJournalValid(input: Correlation, p: Policy, journal: seq<HostEvent>, inputs: seq<HostEvent>)
    requires input.turnId.None? && ValidStream(input, p, journal)
    ensures var after := Consume(input, p, journal, inputs).journal;
            journal <= after && ValidStream(input, p, after)
  {
    hide ValidStream, AcceptHostEvent;
    var expected := ExpectedTurn(input, journal);
    assert journal[..|journal|] == journal && input.(turnId := None) == input;
    PinnedTurn(input, p, journal, |journal|);
    FoldIsValidStream(expected, p, journal);
    var se := Open(input, p, journal);
    SessionExtends(se, expected, p, inputs);
    var after := ReceiveAll(se, inputs, p).journal;
    FoldIsValidStream(expected, p, after);
    UnpinnedTurn(input, p, journal, after);
  }

  lemma UnpinnedTurn(input: Correlation, p: Policy, journal: seq<HostEvent>, after: seq<HostEvent>)
    requires input.turnId.None? && ValidStream(input, p, journal) && journal <= after
    requires ValidStream(ExpectedTurn(input, journal), p, after)
    ensures ValidStream(input, p, after)
  {
    hide WithinLimits, ClosesLast, UsageOrdered, HostEventParses;
    if journal != [] { assert after[0] == journal[0]; }
  }

  // ---- Replaying one fixed stream ------------------------------------------------------

  function Max(a: nat, b: nat): nat { if a < b then b else a }

  lemma {:induction false} PrefixOfValid(expected: Correlation, p: Policy, events: seq<HostEvent>, k: nat)
    requires ValidStream(expected, p, events) && k <= |events|
    ensures ValidStream(expected, p, events[..k])
    decreases |events|
  {
    hide ValidStream, NextFits;
    if k == |events| {
      assert events[..k] == events;
    } else {
      var rest, e := events[..|events| - 1], events[|events| - 1];
      assert events == rest + [e] && rest[..k] == events[..k];
      ValidByLast(expected, p, rest, e);
      PrefixOfValid(expected, p, rest, k);
    }
  }

  lemma SequenceOf(expected: Correlation, p: Policy, events: seq<HostEvent>, i: nat)
    requires ValidStream(expected, p, events) && i < |events|
    ensures events[i].sequence == i + 1
  {
    hide WithinLimits, ClosesLast, UsageOrdered, HostEventParses;
  }

  lemma FoldAppend(expected: Correlation, p: Policy, events: seq<HostEvent>, e: HostEvent)
    requires Fold(expected, p, events).Ok?
    ensures Fold(expected, p, events + [e]) == AcceptHostEvent(Fold(expected, p, events).value, e, p)
  {
    hide AcceptHostEvent;
    assert (events + [e])[..|events|] == events;
  }

  /** A session that read `k` events of the stream into a journal of `m` of them. */
  ghost predicate HasRead(se: Session, expected: Correlation, p: Policy, stream: seq<HostEvent>, n: nat)
    requires n <= |stream|
  {
    !se.failed && se.journal == stream[..n] && Fold(expected, p, stream[..n]) == Ok(se.stream)
  }

  /** Re-reading a journaled event changes nothing; reading the next one journals it. */
  lemma ReadOne(se: Session, expected: Correlation, p: Policy, stream: seq<HostEvent>, n: nat, k: nat)
    requires ValidStream(expected, p, stream) && n <= |stream| && k < |stream| && k <= n
    requires HasRead(se, expected, p, stream, n)
    ensures HasRead(Receive(se, stream[k], p), expected, p, stream, Max(n, k + 1))
  {
    hide ValidStream, AcceptHostEvent, Fold;
    SequenceOf(expected, p, stream, k);
    if k == n {
      PrefixOfValid(expected, p, stream, n + 1);
      FoldIsValidStream(expected, p, stream[..n + 1]);
      assert stream[..n + 1] == stream[..n] + [stream[n]];
      FoldAppend(expected, p, stream[..n], stream[n]);
    }
  }

  /** Reading the first `k` events of the stream brings a journal of `m` of them to the longer of
      the two prefixes, without failing. */
  lemma {:induction false} ReadPrefix(input: Correlation, p: Policy, stream: seq<HostEvent>, m: nat, k: nat)
    requires input.turnId.None? && ValidStream(input, p, stream) && m <= |stream| && k <= |stream|
    ensures var se := Consume(input, p, stream[..m], stream[..k]);
            HasRead(se, ExpectedTurn(input, stream[..m]), p, stream, Max(m, k))
    decreases k
  {
    hide ValidStream, Receive, Fold, ExpectedTurn;
    var expected := ExpectedTurn(input, stream[..m]);
    assert input.(turnId := None) == input;
    PinnedTurn(input, p, stream, m);
    if k == 0 {
      PrefixOfValid(expected, p, stream, m);
      FoldIsValidStream(expected, p, stream[..m]);
      assert stream[..0] == [];
    } else {
      ReadPrefix(input, p, stream, m, k - 1);
      assert stream[..k][..k - 1] == stream[..k - 1] && stream[..k][k - 1] == stream[k - 1];
      ReadOne(Consume(input, p, stream[..m], stream[..k - 1]), expected, p, stream, Max(m, k - 1), k - 1);
    }
  }

  ghost predicate CutsInside(cuts: seq<nat>, stream: seq<HostEvent>) {
    forall i :: 0 <= i < |cuts| ==> cuts[i] <= |stream|
  }

  /** The journal after sessions that each read `cuts[i]` events of the stream before stopping. */
  ghost function RunSessions(input: Correlation, p: Policy, stream: seq<HostEvent>, cuts: seq<nat>): seq<HostEvent>
    requires CutsInside(cuts, stream)
  {
    if cuts == [] then []
    else
      Consume(input, p, RunSessions(input, p, stream, cuts[..|cuts| - 1]), stream[..cuts[|cuts| - 1]]).journal
  }

  function Furthest(cuts: seq<nat>): nat {
    if cuts == [] then 0 else Max(Furthest(cuts[..|cuts| - 1]), cuts[|cuts| - 1])
  }

  lemma FurthestIs(cuts: seq<nat>)
    ensures forall i :: 0 <= i < |cuts| ==> cuts[i] <= Furthest(cuts)
    ensures cuts != [] ==> Furthest(cuts) in cuts
  {
    if cuts != [] {
      FurthestIs(cuts[..|cuts| - 1]);
      assert cuts == cuts[..|cuts| - 1] + [cuts[|cuts| - 1]];
    }
  }

  /** After any number of sessions, however they were cut off, the journal is the longest prefix any
      of them read; so it is the whole stream once one session reached the end, and then stays so. */
  lemma {:induction false} SessionsReachFurthestPrefix(
      input: Correlation, p: Policy, stream: seq<HostEvent>, cuts: seq<nat>)
    requires input.turnId.None? && ValidStream(input, p, stream) && CutsInside(cuts, stream)
    ensures Furthest(cuts) <= |stream|
    ensures RunSessions(input, p, stream, cuts) == stream[..Furthest(cuts)]
    ensures |stream| in cuts ==> RunSessions(input, p, stream, cuts) == stream
  {
    hide ValidStream, Consume;
    FurthestIs(cuts);
    if cuts != [] {
      SessionsReachFurthestPrefix(input, p, stream, cuts[..|cuts| - 1]);
      ReadPrefix(input, p, stream, Furthest(cuts[..|cuts| - 1]), cuts[|cuts| - 1]);
    }
    assert stream[..|stream|] == stream;
  }

  /** A session that reads to the terminal event succeeds, wherever the journal was. */
  lemma FullReadSucceeds(input: Correlation, p: Policy, stream: seq<HostEvent>, m: nat)
    requires input.turnId.None? && ValidStream(input, p, stream) && m <= |stream|
    requires stream != [] && IsTerminalEvent(stream[|stream| - 1])
    ensures var se := Consume(input, p, stream[..m], stream);
            !se.failed && se.stream.phase.Closed? && se.journal == stream
  {
    hide ValidStream, Consume, Fold;
    assert stream[..|stream|] == stream && input.(turnId := None) == input;
    ReadPrefix(input, p, stream, m, |stream|);
    PinnedTurn(input, p, stream, m);
    FoldIsValidStream(ExpectedTurn(input, stream[..m]), p, stream);
  }

  // ---- What any session makes of its input ---------------------------------------------

  /** The journal with every event it does not yet reach appended. */
  function Merged(journal: seq<HostEvent>, inputs: seq<HostEvent>): seq<HostEvent> {
    if inputs == [] then journal
    else
      var before, e := Merged(journal, inputs[..|inputs| - 1]), inputs[|inputs| - 1];
      if 1 <= e.sequence <= |before| then before else before + [e]
  }

  predicate LoggedIn(journal: seq<HostEvent>, e: HostEvent) {
    1 <= e.sequence <= |journal| && journal[e.sequence - 1] == e
  }

  /** Journal and input are of one valid stream: what the input adds continues it, and whatever it
      repeats it repeats exactly. */
  ghost predicate Agrees(input: Correlation, p: Policy, journal: seq<HostEvent>, inputs: seq<HostEvent>) {
    ValidStream(input, p, Merged(journal, inputs)) && forall e <- inputs :: LoggedIn(Merged(journal, inputs), e)
  }

  lemma {:induction false} MergedHas(journal: seq<HostEvent>, inputs: seq<HostEvent>)
    ensures journal <= Merged(journal, inputs)
    ensures forall e <- inputs :: e in Merged(journal, inputs) || 1 <= e.sequence <= |Merged(journal, inputs)|
  {
    if inputs != [] {
      MergedHas(journal, inputs[..|inputs| - 1]);
      assert inputs == inputs[..|inputs| - 1] + [inputs[|inputs| - 1]];
    }
  }

  lemma MergedByLast(journal: seq<HostEvent>, before: seq<HostEvent>, e: HostEvent)
    ensures var m := Merged(journal, before);
            Merged(journal, before + [e]) == if 1 <= e.sequence <= |m| then m else m + [e]
  {
    assert (before + [e])[..|before|] == before;
  }

  lemma AgreesByLast(input: Correlation, p: Policy, journal: seq<HostEvent>, before: seq<HostEvent>, e: HostEvent)
    ensures var m := Merged(journal, before);
            Agrees(input, p, journal, before + [e]) <==>
              && Agrees(input, p, journal, before)
              && if 1 <= e.sequence <= |m| then m[e.sequence - 1] == e else ValidStream(input, p, m + [e])
  {
    hide ValidStream, Merged;
    var m := Merged(journal, before);
    MergedHas(journal, before);
    MergedByLast(journal, before, e);
    assert forall x :: x in before + [e] <==> x in before || x == e;
    if 1 <= e.sequence <= |m| {
      assert Merged(journal, before + [e]) == m;
      assert LoggedIn(m, e) <==> m[e.sequence - 1] == e;
    } else if ValidStream(input, p, m + [e]) {
      assert (m + [e])[..|m|] == m;
      PrefixOfValid(input, p, m + [e], |m|);
      SequenceOf(input, p, m + [e], |m|);
      forall x <- before ensures LoggedIn(m + [e], x) <==> LoggedIn(m, x) {
        if x in m {
          var k :| 0 <= k < |m| && m[k] == x;
          assert (m + [e])[k] == x;
          SequenceOf(input, p, m + [e], k);
        }
      }
      assert LoggedIn(m + [e], e);
      assert Merged(journal, before + [e]) == m + [e];
    }
  }

  lemma ConsumeByLast(input: Correlation, p: Policy, journal: seq<HostEvent>, before: seq<HostEvent>, e: HostEvent)
    ensures Consume(input, p, journal, before + [e]) == Receive(Consume(input, p, journal, before), e, p)
  {
    hide Receive, Open;
    assert (before + [e])[..|before|] == before;
  }

  /** What a session that has not failed does with one more event. */
  lemma ReceiveIs(input: Correlation, p: Policy, journal: seq<HostEvent>, se: Session, e: HostEvent)
    requires input.turnId.None? && ValidStream(input, p, journal) && journal <= se.journal && !se.failed
    requires Synced(se, ExpectedTurn(input, journal), p)
    ensures var next := Receive(se, e, p);
            if 1 <= e.sequence <= |se.journal| then next.failed == (se.journal[e.sequence - 1] != e) && next.journal == se.journal
            else
              && (!next.failed <==> ValidStream(input, p, se.journal + [e]))
              && (!next.failed ==> next.journal == se.journal + [e])
  {
    hide ValidStream, AcceptHostEvent, Fold;
    var expected := ExpectedTurn(input, journal);
    if !(1 <= e.sequence <= |se.journal|) {
      FoldAppend(expected, p, se.journal, e);
      FoldIsValidStream(expected, p, se.journal + [e]);
      PinnedLater(input, p, journal, se.journal + [e]);
    }
  }

  /** A session fails exactly when journal and input are not of one valid stream; otherwise its journal
      is the merger of the two, and it reports success exactly when that has its terminal event. */
  lemma {:induction false} SessionSucceedsIff(input: Correlation, p: Policy, journal: seq<HostEvent>, inputs: seq<HostEvent>)
    requires input.turnId.None? && ValidStream(input, p, journal)
    ensures var se := Consume(input, p, journal, inputs);
            && (!se.failed <==> Agrees(input, p, journal, inputs))
            && (!se.failed ==>
                  && se.journal == Merged(journal, inputs)
                  && (se.stream.phase.Closed? <==> se.journal != [] && IsTerminalEvent(se.journal[|se.journal| - 1])))
  {
    hide ValidStream, Receive, Agrees, IsTerminalEvent, Consume, Fold, Merged;
    var se := Consume(input, p, journal, inputs);
    ConsumedIsSynced(input, p, journal, inputs);
    if !se.failed { ClosedIffTerminal(ExpectedTurn(input, journal), p, se.journal); }
    if inputs == [] {
      AgreesWithNothing(input, p, journal);
    } else {
      var before, e := inputs[..|inputs| - 1], inputs[|inputs| - 1];
      assert inputs == before + [e];
      SessionSucceedsIff(input, p, journal, before);
      AgreesByLast(input, p, journal, before, e);
      MergedByLast(journal, before, e);
      ConsumeByLast(input, p, journal, before, e);
      ConsumedIsSynced(input, p, journal, before);
      var was := Consume(input, p, journal, before);
      if was.failed { FailedStays(was, e, p); } else { ReceiveIs(input, p, journal, was, e); }
    }
  }

  lemma FailedStays(se: Session, e: HostEvent, p: Policy)
    requires se.failed
    ensures Receive(se, e, p) == se
  {}

  lemma ConsumedIsSynced(input: Correlation, p: Policy, journal: seq<HostEvent>, inputs: seq<HostEvent>)
    requires input.turnId.None? && ValidStream(input, p, journal)
    ensures var se := Consume(input, p, journal, inputs);
            Synced(se, ExpectedTurn(input, journal), p) && journal <= se.journal
    ensures inputs == [] ==> var se := Consume(input, p, journal, inputs); !se.failed && se.journal == journal
  {
    hide ValidStream, AcceptHostEvent;
    var expected := ExpectedTurn(input, journal);
    assert journal[..|journal|] == journal && input.(turnId := None) == input;
    PinnedTurn(input, p, journal, |journal|);
    FoldIsValidStream(expected, p, journal);
    SessionExtends(Open(input, p, journal), expected, p, inputs);
  }

  lemma AgreesWithNothing(input: Correlation, p: Policy, journal: seq<HostEvent>)
    requires ValidStream(input, p, journal)
    ensures Agrees(input, p, journal, []) && Merged(journal, []) == journal
  {}

  lemma PinnedLater(input: Correlation, p: Policy, journal: seq<HostEvent>, after: seq<HostEvent>)
    requires input.turnId.None? && ValidStream(input, p, journal) && journal <= after
    ensures ValidStream(ExpectedTurn(input, journal), p, after) <==> ValidStream(input, p, after)
  {
    hide ValidStream;
    if ValidStream(input, p, after) {
      assert after[..|journal|] == journal && input.(turnId := None) == input;
      PinnedTurn(input, p, after, |journal|);
    }
    if ValidStream(ExpectedTurn(input, journal), p, after) { UnpinnedTurn(input, p, journal, after); }
  }

  lemma ClosedIffTerminal(expected: Correlation, p: Policy, events: seq<HostEvent>)
    requires Fold(expected, p, events).Ok?
    ensures Fold(expected, p, events).value.phase.Closed? <==> events != [] && IsTerminalEvent(events[|events| - 1])
  {
    hide AcceptHostEvent, IsTerminalEvent;
    if events != [] {
      ClosedByTerminal(Fold(expected, p, events[..|events| - 1]).value, events[|events| - 1], p);
    }
  }

  /** What the Node publishes once the journal ends in a terminal event (`terminalResultFromEvents`). */
  function TerminalResult(events: seq<HostEvent>): Option<Disposition> {
    if events == [] || !events[|events| - 1].HostCompleted? then None
    else
      var d := events[|events| - 1].disposition;
      if d.Blocked? || d.TurnFailed? then None else Some(d)
  }

  /** The stream ends by completing with something to publish. */
  predicate CompletesWith(events: seq<HostEvent>, d: Disposition) {
    && events != [] && events[|events| - 1].HostCompleted? && events[|events| - 1].disposition == d
    && (d.Reply? || d.ProposeContract? || d.Ready?)
  }

  /** The published result does not depend on how often, or where, consumption was interrupted: it is
      the disposition of the stream's last event, when that is one to publish, and else nothing. */
  lemma ResultIsTheDisposition(input: Correlation, p: Policy, stream: seq<HostEvent>, cuts: seq<nat>)
    requires input.turnId.None? && ValidStream(input, p, stream) && CutsInside(cuts, stream) && |stream| in cuts
    ensures var result := TerminalResult(RunSessions(input, p, stream, cuts));
            && (forall d :: result == Some(d) <==> CompletesWith(stream, d))
            && (result == None <==> !exists d :: CompletesWith(stream, d))
  {
    hide RunSessions, ValidStream;
    SessionsReachFurthestPrefix(input, p, stream, cuts);
    if TerminalResult(stream).None? {
      assert forall d :: !CompletesWith(stream, d);
    } else {
      assert CompletesWith(stream, TerminalResult(stream).value);
    }
  }
}
