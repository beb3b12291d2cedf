/** What a valid host stream is, stated of the whole list, and the proof that the incremental
    validator accepts exactly those lists. */
module HostStreamSpec {
  import opened Common
  import opened MissionTypes
  import opened HostStream

  function TotalText(events: seq<HostEvent>): nat {
    if events == [] then 0 else TotalText(events[..|events| - 1]) + TextBytesIn(events[|events| - 1])
  }

  /** The different artifacts published anywhere in the list. */
  ghost function ArtifactSet(events: seq<HostEvent>): set<ArtifactRef> {
    set e, a | e in events && a in ArtifactsIn(e) :: a
  }

  ghost function SumBytes(artifacts: set<ArtifactRef>): nat {
    if artifacts == {} then 0
    else
      var a :| a in artifacts;
      a.byteSize + SumBytes(artifacts - {a})
  }

  ghost predicate UsageInPolicy(u: HostUsage, p: Policy) {
    u.Available? ==> p.usageAvailable && u.inputTokens + u.outputTokens <= p.maxTokens
  }

  /** A later report may not take back what an earlier one counted. */
  ghost predicate UsageAdvances(earlier: HostUsage, later: HostUsage) {
    earlier.Available? ==>
      later.Available? && earlier.inputTokens <= later.inputTokens && earlier.outputTokens <= later.outputTokens
  }

  /** Numbered from 1, accepted first and only first, all about one expected turn. */
  ghost predicate Sequenced(expected: Correlation, events: seq<HostEvent>) {
    && (events != [] ==> MatchesExpected(expected, events[0].turn))
    && forall i :: 0 <= i < |events| ==>
         && HostEventParses(events[i])
         && events[i].sequence == i + 1
         && (events[i].Accepted? <==> i == 0)
         && events[i].turn == events[0].turn
  }

  /** A terminal event comes last, and only after usage was reported. */
  ghost predicate ClosesLast(events: seq<HostEvent>) {
    forall i :: 0 <= i < |events| && IsTerminalEvent(events[i]) ==>
      i == |events| - 1 && exists j :: 0 <= j < i && events[j].Usage?
  }

  ghost predicate UsageOrdered(p: Policy, events: seq<HostEvent>) {
    && (forall i :: 0 <= i < |events| && events[i].Usage? ==> UsageInPolicy(events[i].usage, p))
    && (forall i, j :: 0 <= i < j < |events| && events[i].Usage? && events[j].Usage? ==>
          UsageAdvances(events[i].usage, events[j].usage))
  }

  /** Event count, text, and the number and size of distinct artifacts stay in bound. */
  ghost predicate WithinLimits(p: Policy, events: seq<HostEvent>) {
    && |events| <= p.maxEvents
    && TotalText(events) <= p.maxOutputBytes
    && |ArtifactSet(events)| <= p.maxArtifacts
    && SumBytes(ArtifactSet(events)) <= p.maxArtifactBytes
  }

  ghost predicate ValidStream(expected: Correlation, p: Policy, events: seq<HostEvent>) {
    && (events != [] ==> PolicyParses(p))
    && Sequenced(expected, events) && ClosesLast(events) && UsageOrdered(p, events) && WithinLimits(p, events)
  }

  // ---- What is counted -----------------------------------------------------------------

  function Summaries(evidence: seq<Evidence>): string {
    if evidence == [] then "" else evidence[0].summary + Summaries(evidence[1..])
  }

  /** The text an event lets out. */
  function PublishedText(e: HostEvent): string {
    match e
    case Output(_, _, text) => text
    case HostFailed(_, _, _, message) => message
    case HostCompleted(_, _, disposition) => (
      match disposition
      case Reply(_, text, _) => text
      case Blocked(reason, requested) => reason + (if requested.Some? then requested.value else "")
      case Ready(evidence) => Summaries(evidence)
      case _ => "")
    case _ => ""
  }

  function AllText(events: seq<HostEvent>): string {
    if events == [] then "" else AllText(events[..|events| - 1]) + PublishedText(events[|events| - 1])
  }

  ghost predicate Publishes(e: HostEvent, a: ArtifactRef) {
    || (e.Artifact? && a == e.artifact)
    || (e.HostCompleted? && match e.disposition
                            case Reply(_, _, artifacts) => artifacts.Some? && a in artifacts.value
                            case ProposeContract(artifact) => a == artifact
                            case Ready(evidence) => exists v <- evidence :: a in v.artifacts
                            case _ => false)
  }

  lemma {:induction false} SummariesAreCounted(evidence: seq<Evidence>)
    ensures EvidenceText(evidence) == Utf8Length(Summaries(evidence))
  {
    if evidence != [] {
      SummariesAreCounted(evidence[1..]);
      Utf8LengthConcat(evidence[0].summary, Summaries(evidence[1..]));
    }
  }

  lemma EventTextIsCounted(e: HostEvent)
    ensures TextBytesIn(e) == Utf8Length(PublishedText(e))
  {
    if e.HostCompleted? && e.disposition.Ready? { SummariesAreCounted(e.disposition.evidence); }
    if e.HostCompleted? && e.disposition.Blocked? { assert e.disposition.reason + "" == e.disposition.reason; }
  }

  /** The text bound is on the size of everything let out, in UTF-8. */
  lemma {:induction false} TextIsCounted(events: seq<HostEvent>)
    ensures TotalText(events) == |Utf8Encode(CodePoints(AllText(events)))|
  {
    Utf8LengthIs(AllText(events));
    if events != [] {
      var before, e := events[..|events| - 1], events[|events| - 1];
      TextIsCounted(before);
      Utf8LengthIs(AllText(before));
      EventTextIsCounted(e);
      Utf8LengthConcat(AllText(before), PublishedText(e));
    }
  }

  lemma {:induction false} EvidenceIsPublished(evidence: seq<Evidence>, a: ArtifactRef)
    ensures a in EvidenceArtifacts(evidence) <==> exists v <- evidence :: a in v.artifacts
  {
    if evidence != [] {
      EvidenceIsPublished(evidence[1..], a);
      assert evidence == [evidence[0]] + evidence[1..];
    }
  }

  /** The artifacts counted are those some event publishes. */
  lemma ArtifactsAreCounted(events: seq<HostEvent>)
    ensures forall a :: a in ArtifactSet(events) <==> exists e <- events :: Publishes(e, a)
  {
    forall e, a ensures a in ArtifactsIn(e) <==> Publishes(e, a) {
      if e.HostCompleted? && e.disposition.Ready? { EvidenceIsPublished(e.disposition.evidence, a); }
    }
  }

  // ---- Sums over distinct artifacts ----------------------------------------------------

  lemma {:induction false} SumBytesAdd(s: set<ArtifactRef>, a: ArtifactRef)
    requires a !in s
    ensures SumBytes(s + {a}) == SumBytes(s) + a.byteSize
    decreases |s|
  {
    var t := s + {a};
    var b :| b in t && SumBytes(t) == b.byteSize + SumBytes(t - {b});
    if b == a {
      assert t - {b} == s;
    } else {
      SumBytesAdd(s - {b}, a);
      assert t - {b} == (s - {b}) + {a};
      SumBytesAdd(s - {b}, b);
      assert (s - {b}) + {b} == s;
    }
  }

  lemma {:induction false} SumBytesMonotone(s: set<ArtifactRef>, t: set<ArtifactRef>)
    requires s <= t
    ensures SumBytes(s) <= SumBytes(t) && |s| <= |t|
    decreases |t - s|
  {
    if t - s == {} {
      assert s == t;
    } else {
      var a :| a in t - s;
      SumBytesAdd(s, a);
      SumBytesMonotone(s + {a}, t);
    }
  }

  /** `keys` lists each artifact of `set_` once, and `bytes` is their total. */
  ghost predicate Tallies(keys: seq<ArtifactRef>, bytes: nat, set_: set<ArtifactRef>) {
    Distinct(keys) && Elements(keys) == set_ && |keys| == |set_| && bytes == SumBytes(set_)
  }

  lemma TallyOne(keys: seq<ArtifactRef>, bytes: nat, set_: set<ArtifactRef>, a: ArtifactRef)
    requires Tallies(keys, bytes, set_)
    ensures a in keys ==> Tallies(keys, bytes, set_ + {a})
    ensures a !in keys ==> Tallies(keys + [a], bytes + a.byteSize, set_ + {a})
  {
    hide SumBytes;
    if a in keys {
      assert a in Elements(keys);
      assert set_ + {a} == set_;
    } else {
      SumBytesAdd(set_, a);
      assert Elements(keys + [a]) == Elements(keys) + {a};
      DistinctCardinality(keys + [a]);
    }
  }

  /** The artifact loop adds exactly the unseen artifacts, each once. */
  lemma {:induction false} AddArtifactsIsUnion(
      keys: seq<ArtifactRef>, bytes: nat, seen: set<ArtifactRef>, artifacts: seq<ArtifactRef>)
    requires Tallies(keys, bytes, seen)
    ensures var (k, b) := AddArtifacts(keys, bytes, artifacts);
            Tallies(k, b, seen + Elements(artifacts))
  {
    hide Tallies;
    if artifacts == [] {
      assert seen + Elements(artifacts) == seen;
    } else {
      var rest, last := artifacts[..|artifacts| - 1], artifacts[|artifacts| - 1];
      AddArtifactsIsUnion(keys, bytes, seen, rest);
      var (k, b) := AddArtifacts(keys, bytes, rest);
      TallyOne(k, b, seen + Elements(rest), last);
      assert seen + Elements(artifacts) == (seen + Elements(rest)) + {last} by {
        assert artifacts == rest + [last];
      }
    }
  }

  // ---- The state summarises the list ---------------------------------------------------

  function LastUsage(events: seq<HostEvent>): Option<HostUsage> {
    if events == [] then None
    else if events[|events| - 1].Usage? then Some(events[|events| - 1].usage)
    else LastUsage(events[..|events| - 1])
  }

  ghost predicate Summarises(s: StreamState, expected: Correlation, events: seq<HostEvent>) {
    && s.expected == expected
    && s.lastSequence == |events|
    && s.phase == (if events == [] then Awaiting
                   else if IsTerminalEvent(events[|events| - 1]) then Closed else Streaming)
    && s.turn == (if events == [] then None else Some(events[0].turn))
    && s.outputBytes == TotalText(events)
    && Tallies(s.artifactKeys, s.artifactBytes, ArtifactSet(events))
    && s.artifactCount == |s.artifactKeys|
    && s.usage == LastUsage(events)
  }

  lemma LastUsageIs(events: seq<HostEvent>)
    ensures LastUsage(events).None? ==> forall i :: 0 <= i < |events| ==> !events[i].Usage?
    ensures LastUsage(events).Some? ==>
              exists i :: 0 <= i < |events| && events[i].Usage? && LastUsage(events) == Some(events[i].usage)
                          && forall j :: i < j < |events| ==> !events[j].Usage?
  {
    if events != [] && !events[|events| - 1].Usage? { LastUsageIs(events[..|events| - 1]); }
  }

  /** Comparing with the last report is enough: with a valid history it stands for all of them. */
  lemma UsageStep(events: seq<HostEvent>, e: HostEvent, p: Policy)
    requires e.Usage? && UsageOrdered(p, events)
    ensures AcceptUsage(LastUsage(events), e.usage, p).Ok? <==>
              && UsageInPolicy(e.usage, p)
              && forall i :: 0 <= i < |events| && events[i].Usage? ==> UsageAdvances(events[i].usage, e.usage)
  {
    LastUsageIs(events);
    if LastUsage(events).Some? {
      var k :| 0 <= k < |events| && events[k].Usage? && LastUsage(events) == Some(events[k].usage)
               && forall j :: k < j < |events| ==> !events[j].Usage?;
      assert AcceptUsage(LastUsage(events), e.usage, p).Ok? <==>
        UsageInPolicy(e.usage, p) && UsageAdvances(events[k].usage, e.usage);
      forall i | 0 <= i < |events| && events[i].Usage? && UsageAdvances(events[k].usage, e.usage)
        ensures UsageAdvances(events[i].usage, e.usage)
      {
        if i < k { assert UsageAdvances(events[i].usage, events[k].usage); }
      }
    }
  }

  ghost predicate SequenceFits(expected: Correlation, events: seq<HostEvent>, e: HostEvent) {
    && HostEventParses(e) && e.sequence == |events| + 1 && (e.Accepted? <==> events == [])
    && if events == [] then MatchesExpected(expected, e.turn) else e.turn == events[0].turn
  }

  ghost predicate ClosingFits(events: seq<HostEvent>, e: HostEvent) {
    && (events != [] ==> !IsTerminalEvent(events[|events| - 1]))
    && (IsTerminalEvent(e) ==> exists j :: 0 <= j < |events| && events[j].Usage?)
  }

  ghost predicate UsageFits(p: Policy, events: seq<HostEvent>, e: HostEvent) {
    e.Usage? ==>
      && UsageInPolicy(e.usage, p)
      && forall i :: 0 <= i < |events| && events[i].Usage? ==> UsageAdvances(events[i].usage, e.usage)
  }

  ghost predicate NextFits(expected: Correlation, p: Policy, events: seq<HostEvent>, e: HostEvent) {
    && PolicyParses(p) && SequenceFits(expected, events, e) && ClosingFits(events, e) && UsageFits(p, events, e)
    && WithinLimits(p, events + [e])
  }

  lemma AppendFacts(events: seq<HostEvent>, e: HostEvent)
    ensures TotalText(events + [e]) == TotalText(events) + TextBytesIn(e)
    ensures ArtifactSet(events + [e]) == ArtifactSet(events) + Elements(ArtifactsIn(e))
    ensures LastUsage(events + [e]) == if e.Usage? then Some(e.usage) else LastUsage(events)
  {
    assert (events + [e])[..|events|] == events;
  }

  lemma SequencedByLast(expected: Correlation, events: seq<HostEvent>, e: HostEvent)
    ensures Sequenced(expected, events + [e]) <==> Sequenced(expected, events) && SequenceFits(expected, events, e)
  {
    hide HostEventParses, MatchesExpected;
    var all, n := events + [e], |events|;
    assert all[n] == e && forall i :: 0 <= i < n ==> all[i] == events[i];
    if Sequenced(expected, all) { assert all[n].turn == all[0].turn; }
  }

  lemma ClosesByLast(events: seq<HostEvent>, e: HostEvent)
    ensures ClosesLast(events + [e]) <==> ClosesLast(events) && ClosingFits(events, e)
  {
    var all, n := events + [e], |events|;
    assert all[n] == e && forall i :: 0 <= i < n ==> all[i] == events[i];
    if ClosesLast(all) {
      assert forall i :: 0 <= i < n ==> !IsTerminalEvent(all[i]);
      if IsTerminalEvent(e) {
        var j :| 0 <= j < n && all[j].Usage?;
        assert events[j].Usage?;
      }
    }
    if ClosesLast(events) && ClosingFits(events, e) {
      assert forall i :: 0 <= i < n ==> !IsTerminalEvent(events[i]);
      if IsTerminalEvent(e) {
        var j :| 0 <= j < n && events[j].Usage?;
        assert all[j].Usage?;
      }
    }
  }

  lemma UsageByLast(p: Policy, events: seq<HostEvent>, e: HostEvent)
    ensures UsageOrdered(p, events + [e]) <==> UsageOrdered(p, events) && UsageFits(p, events, e)
  {
    hide UsageAdvances, UsageInPolicy;
    var all, n := events + [e], |events|;
    assert all[n] == e && forall i :: 0 <= i < n ==> all[i] == events[i];
    if UsageOrdered(p, all) {
      forall i, j | 0 <= i < j < n && events[i].Usage? && events[j].Usage?
        ensures UsageAdvances(events[i].usage, events[j].usage)
      { assert all[i].Usage? && all[j].Usage?; }
      forall i | 0 <= i < n && events[i].Usage? && e.Usage? ensures UsageAdvances(events[i].usage, e.usage) {
        assert all[i].Usage? && all[n].Usage?;
      }
    }
  }

  lemma LimitsByLast(p: Policy, events: seq<HostEvent>, e: HostEvent)
    ensures WithinLimits(p, events + [e]) ==> WithinLimits(p, events)
  {
    hide SumBytes, TotalText, ArtifactSet;
    AppendFacts(events, e);
    SumBytesMonotone(ArtifactSet(events), ArtifactSet(events + [e]));
  }

  /** A list is valid exactly when its prefix is and the last event fits. */
  lemma ValidByLast(expected: Correlation, p: Policy, events: seq<HostEvent>, e: HostEvent)
    ensures ValidStream(expected, p, events + [e]) <==>
            ValidStream(expected, p, events) && NextFits(expected, p, events, e)
  {
    hide Sequenced, ClosesLast, UsageOrdered, WithinLimits, PolicyParses, SequenceFits, ClosingFits, UsageFits;
    SequencedByLast(expected, events, e);
    ClosesByLast(events, e);
    UsageByLast(p, events, e);
    LimitsByLast(p, events, e);
  }

  /** One validator step decides exactly whether the next event fits, and keeps the summary. */
  lemma AcceptDecidesFit(s: StreamState, expected: Correlation, p: Policy, events: seq<HostEvent>, e: HostEvent)
    requires ValidStream(expected, p, events) && Summarises(s, expected, events)
    ensures AcceptHostEvent(s, e, p).Ok? <==> NextFits(expected, p, events, e)
    ensures AcceptHostEvent(s, e, p).Ok? ==>
              Summarises(AcceptHostEvent(s, e, p).value, expected, events + [e])
  {
    hide HostEventParses, UsageAdvances, UsageInPolicy, SumBytes, MatchesExpected, PolicyParses, TextBytesIn,
         ArtifactsIn, TotalText, LastUsage, ArtifactSet, AddArtifacts, AcceptUsage;
    AppendFacts(events, e);
    AddArtifactsIsUnion(s.artifactKeys, s.artifactBytes, ArtifactSet(events), ArtifactsIn(e));
    LastUsageIs(events);
    if e.Usage? {
      UsageStep(events, e, p);
      AcceptedUsageIsReport(s.usage, e.usage, p);
    }
    assert (events + [e])[0] == if events == [] then e else events[0];
  }

  lemma AcceptedUsageIsReport(current: Option<HostUsage>, reported: HostUsage, p: Policy)
    ensures AcceptUsage(current, reported, p).Ok? ==> AcceptUsage(current, reported, p).value == Some(reported)
  {}

  /** The incremental check is the whole-stream specification. */
  lemma {:induction false} FoldIsValidStream(expected: Correlation, p: Policy, events: seq<HostEvent>)
    ensures Fold(expected, p, events).Ok? <==> ValidStream(expected, p, events)
    ensures Fold(expected, p, events).Ok? ==> Summarises(Fold(expected, p, events).value, expected, events)
  {
    hide ValidStream, Summarises, AcceptHostEvent, NextFits;
    if events == [] {
      EmptyIsValid(expected, p);
    } else {
      var rest, e := events[..|events| - 1], events[|events| - 1];
      assert events == rest + [e];
      FoldIsValidStream(expected, p, rest);
      ValidByLast(expected, p, rest, e);
      if Fold(expected, p, rest).Ok? {
        AcceptDecidesFit(Fold(expected, p, rest).value, expected, p, rest, e);
      }
    }
  }

  lemma EmptyIsValid(expected: Correlation, p: Policy)
    ensures ValidStream(expected, p, []) && Summarises(CreateStream(expected), expected, [])
  {
    assert ArtifactSet([]) == {};
  }
}
