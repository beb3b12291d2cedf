/** Reading the provider: correlating a thread with one durable intent, and reducing a finished
    provider turn to a bounded outcome. */
module CapsuleNormalizer {
  import opened Common
  import opened MissionTypes
  import opened HostStream
  import opened CapsuleState

  datatype Content = Text(text: Id) | OtherContent

  /** A final answer either parses to a disposition or it does not. */
  datatype Answer = Parsed(disposition: Disposition) | Unparsable

  datatype ThreadItem =
    | UserMessage(clientId: Option<ExecutionKey>, content: seq<Content>)
    | AgentMessage(isFinal: bool, answer: Answer)
    | Reasoning
    | CommandExecution
    | OtherItem(kind: string)

  datatype ProviderStatus = InProgress | TurnCompletedStatus | Interrupted | TurnFailedStatus

  datatype CodexTurn = CodexTurn(id: Id, status: ProviderStatus, fullView: bool, items: seq<ThreadItem>)

  datatype ReconcileError = PartialView | UnexpectedText | MultipleMatches

  // ---- Correlation ---------------------------------------------------------------------

  predicate Correlates(item: ThreadItem, intent: Intent) {
    item.UserMessage? && item.clientId == Some(intent.clientMessageId)
  }

  /** One entry per correlated message, in thread order; an inexact text is an error. */
  function MatchesInItems(t: CodexTurn, items: seq<ThreadItem>, intent: Intent): Result<seq<CodexTurn>, ReconcileError> {
    if items == [] then Ok([])
    else
      var before := MatchesInItems(t, items[..|items| - 1], intent);
      var item := items[|items| - 1];
      if before.Err? || !Correlates(item, intent) then before
      else if item.content != [Text(intent.text)] then Err(UnexpectedText)
      else Ok(before.value + [t])
  }

  function MatchesInThread(thread: seq<CodexTurn>, intent: Intent): Result<seq<CodexTurn>, ReconcileError> {
    if thread == [] then Ok([])
    else
      var before := MatchesInThread(thread[..|thread| - 1], intent);
      var t := thread[|thread| - 1];
      if before.Err? then before
      else if !t.fullView then Err(PartialView)
      else
        var found := MatchesInItems(t, t.items, intent);
        if found.Err? then found else Ok(before.value + found.value)
  }

  function Reconciled(thread: seq<CodexTurn>, intent: Intent): Result<Option<CodexTurn>, ReconcileError> {
    var found := MatchesInThread(thread, intent);
    if found.Err? then Err(found.error)
    else if |found.value| > 1 then Err(MultipleMatches)
    else if found.value == [] then Ok(None)
    else Ok(Some(found.value[0]))
  }

  /** The nested search over turns and items. */
  method ReconcileCodexTurn(thread: seq<CodexTurn>, intent: Intent) returns (r: Result<Option<CodexTurn>, ReconcileError>)
    ensures r == Reconciled(thread, intent)
  {
    hide MatchesInItems;
    var found: seq<CodexTurn> := [];
    for i := 0 to |thread|
      invariant MatchesInThread(thread[..i], intent) == Ok(found)
    {
      assert thread[..i + 1][..i] == thread[..i];
      var t := thread[i];
      if !t.fullView {
        ThreadErrorStays(thread, i + 1, intent);
        return Err(PartialView);
      }
      var inTurn := SearchItems(t, intent);
      if inTurn.Err? {
        ThreadErrorStays(thread, i + 1, intent);
        return Err(inTurn.error);
      }
      found := found + inTurn.value;
    }
    assert thread[..|thread|] == thread;
    if |found| > 1 { return Err(MultipleMatches); }
    return Ok(if found == [] then None else Some(found[0]));
  }

  method SearchItems(t: CodexTurn, intent: Intent) returns (r: Result<seq<CodexTurn>, ReconcileError>)
    ensures r == MatchesInItems(t, t.items, intent)
  {
    var found: seq<CodexTurn> := [];
    for j := 0 to |t.items|
      invariant MatchesInItems(t, t.items[..j], intent) == Ok(found)
    {
      assert t.items[..j + 1][..j] == t.items[..j];
      var item := t.items[j];
      if Correlates(item, intent) {
        if item.content != [Text(intent.text)] {
          ItemErrorStays(t, t.items, j + 1, intent);
          return Err(UnexpectedText);
        }
        found := found + [t];
      }
    }
    assert t.items[..|t.items|] == t.items;
    return Ok(found);
  }

  lemma {:induction false} ItemErrorStays(t: CodexTurn, items: seq<ThreadItem>, k: nat, intent: Intent)
    requires k <= |items| && MatchesInItems(t, items[..k], intent).Err?
    ensures MatchesInItems(t, items, intent) == MatchesInItems(t, items[..k], intent)
    decreases |items|
  {
    if k < |items| {
      assert items[..|items| - 1][..k] == items[..k];
      ItemErrorStays(t, items[..|items| - 1], k, intent);
    } else {
      assert items[..k] == items;
    }
  }

  lemma {:induction false} ThreadErrorStays(thread: seq<CodexTurn>, k: nat, intent: Intent)
    requires k <= |thread| && MatchesInThread(thread[..k], intent).Err?
    ensures MatchesInThread(thread, intent) == MatchesInThread(thread[..k], intent)
    decreases |thread|
  {
    hide MatchesInItems;
    if k < |thread| {
      assert thread[..|thread| - 1][..k] == thread[..k];
      ThreadErrorStays(thread[..|thread| - 1], k, intent);
    } else {
      assert thread[..k] == thread;
    }
  }

  /** A turn as the provider keeps it: its one user message first, everything visible. */
  predicate WellKept(t: CodexTurn, key: ExecutionKey, text: Id) {
    && t.fullView && |t.items| >= 1
    && t.items[0] == UserMessage(Some(key), [Text(text)])
    && forall j :: 1 <= j < |t.items| ==> !t.items[j].UserMessage?
  }

  lemma {:induction false} WellKeptMatches(t: CodexTurn, key: ExecutionKey, text: Id, n: nat, intent: Intent)
    requires WellKept(t, key, text) && 1 <= n <= |t.items|
    requires key == intent.clientMessageId ==> text == intent.text
    ensures MatchesInItems(t, t.items[..n], intent)
         == Ok(if key == intent.clientMessageId then [t] else [])
    decreases n
  {
    var items := t.items[..n];
    assert items[..n - 1] == t.items[..n - 1] && items[n - 1] == t.items[n - 1];
    if n > 1 {
      WellKeptMatches(t, key, text, n - 1, intent);
    } else {
      assert items[..0] == [] && MatchesInItems(t, items[..0], intent) == Ok([]);
      assert [] + [t] == [t];
    }
  }

  // ---- Terminal outcomes ---------------------------------------------------------------

  predicate SafeItem(item: ThreadItem) { !item.OtherItem? }

  /** Dispositions a read-only Capsule may publish. */
  predicate PublishableDisposition(d: Disposition) { OutcomeParses(OutcomeCompleted(d)) }

  function FinalAnswers(items: seq<ThreadItem>): seq<Answer> {
    if items == [] then []
    else (if items[0].AgentMessage? && items[0].isFinal then [items[0].answer] else []) + FinalAnswers(items[1..])
  }

  /** A failure whose class and wording are the Capsule's own. */
  function SafeFailure(class_: string, message: string): (o: TerminalOutcome)
    requires TextParses(message, MAX_FAILURE_TEXT)
    ensures o.OutcomeFailed? && o.class_ == class_ && OutcomeParses(o)
  {
    OutcomeFailed(class_, message)
  }

  function NormalizeTerminal(t: CodexTurn, cancellationRequested: bool): Option<TerminalOutcome> {
    match t.status
    case InProgress => None
    case Interrupted =>
      Some(if cancellationRequested then OutcomeCancelled
           else SafeFailure("transient", "Codex turn stopped without a local cancellation intent"))
    case TurnFailedStatus => Some(SafeFailure("transient", "Codex turn failed without publishable output"))
    case TurnCompletedStatus =>
      if !t.fullView then
        Some(SafeFailure("permanent", "Codex completed without full authoritative output"))
      else if exists item <- t.items :: !SafeItem(item) then
        Some(SafeFailure("policy_denied", "Codex turn attempted a disallowed capability"))
      else
        var answers := FinalAnswers(t.items);
        if |answers| != 1 then
          Some(SafeFailure("permanent", "Codex turn did not produce one structured final answer"))
        else if answers[0].Unparsable? || !PublishableDisposition(answers[0].disposition) then
          Some(SafeFailure("permanent", "Codex final answer violated the structured output contract"))
        else Some(OutcomeCompleted(answers[0].disposition))
  }

  /** Where the items hold a final answer. */
  predicate AnswerAt(items: seq<ThreadItem>, i: int) { 0 <= i < |items| && items[i].AgentMessage? && items[i].isFinal }

  ghost predicate OnlyAnswer(items: seq<ThreadItem>, i: int) {
    AnswerAt(items, i) && forall j :: AnswerAt(items, j) ==> j == i
  }

  /** A full, allowed, completed turn with one final answer, and that is a disposition to publish. */
  ghost predicate Answers(t: CodexTurn, d: Disposition) {
    && t.status.TurnCompletedStatus? && t.fullView && (forall item <- t.items :: SafeItem(item))
    && PublishableDisposition(d) && exists i :: OnlyAnswer(t.items, i) && t.items[i].answer == Parsed(d)
  }

  lemma AnswersShift(items: seq<ThreadItem>)
    requires items != []
    ensures forall i :: i != 0 ==> (AnswerAt(items, i) <==> AnswerAt(items[1..], i - 1))
    ensures forall i :: AnswerAt(items[1..], i) ==> AnswerAt(items, i + 1)
  {}

  lemma {:induction false} NoAnswers(items: seq<ThreadItem>)
    ensures FinalAnswers(items) == [] <==> forall i :: !AnswerAt(items, i)
  {
    if items != [] {
      NoAnswers(items[1..]);
      AnswersShift(items);
      if forall i :: !AnswerAt(items, i) {
        assert !AnswerAt(items, 0);
        forall i ensures !AnswerAt(items[1..], i) { assert !AnswerAt(items, i + 1); }
      }
    }
  }

  /** The head answers: it is the only answer exactly when the rest has none. */
  lemma HeadAnswers(items: seq<ThreadItem>, a: Answer)
    requires items != [] && AnswerAt(items, 0)
    ensures FinalAnswers(items) == [a] <==> FinalAnswers(items[1..]) == [] && items[0].answer == a
    ensures FinalAnswers(items[1..]) == [] <==> OnlyAnswer(items, 0)
  {
    var rest := items[1..];
    NoAnswers(rest);
    AnswersShift(items);
    var x, r := items[0].answer, FinalAnswers(rest);
    assert FinalAnswers(items) == [x] + r && |[x] + r| == 1 + |r| && ([x] + r)[0] == x;
    assert r == [] ==> [x] + r == [x];
    if OnlyAnswer(items, 0) {
      forall k ensures !AnswerAt(rest, k) { assert AnswerAt(rest, k) ==> AnswerAt(items, k + 1); }
    }
  }

  lemma HeadPasses(items: seq<ThreadItem>)
    requires items != [] && !AnswerAt(items, 0)
    ensures FinalAnswers(items) == FinalAnswers(items[1..])
    ensures forall i :: OnlyAnswer(items, i) ==> OnlyAnswer(items[1..], i - 1)
    ensures forall i :: OnlyAnswer(items[1..], i) ==> OnlyAnswer(items, i + 1)
  {
    var rest := items[1..];
    AnswersShift(items);
    assert [] + FinalAnswers(rest) == FinalAnswers(rest);
    hide AnswerAt, FinalAnswers;
    forall i | OnlyAnswer(items, i) ensures OnlyAnswer(rest, i - 1) {
      forall k | AnswerAt(rest, k) ensures k == i - 1 { assert AnswerAt(items, k + 1); }
    }
    forall i | OnlyAnswer(rest, i) ensures OnlyAnswer(items, i + 1) {
      forall k | AnswerAt(items, k) ensures k == i + 1 { assert AnswerAt(rest, k - 1); }
    }
  }

  lemma {:induction false} OneAnswerIs(items: seq<ThreadItem>, a: Answer)
    ensures FinalAnswers(items) == [a] <==> exists i :: OnlyAnswer(items, i) && items[i].answer == a
  {
    if items == [] {
    } else if AnswerAt(items, 0) {
      HeadAnswers(items, a);
      hide FinalAnswers;
    } else {
      var rest := items[1..];
      OneAnswerIs(rest, a);
      HeadPasses(items);
      hide FinalAnswers, AnswerAt;
      if i :| OnlyAnswer(rest, i) && rest[i].answer == a { assert OnlyAnswer(items, i + 1); }
      if i :| OnlyAnswer(items, i) && items[i].answer == a { assert OnlyAnswer(rest, i - 1); }
    }
  }

  /** Whatever a finished provider turn holds, its outcome can be stored. It is completed exactly when
      the turn answers, cancelled exactly when it was stopped on a local request, and otherwise a
      failure: for a disallowed item by policy, for an answer missing or malformed for good, and for a
      turn that stopped or failed on its own in passing. */
  lemma NormalizedOutcomeIs(t: CodexTurn, cancellationRequested: bool)
    ensures var o := NormalizeTerminal(t, cancellationRequested);
            && (o.None? <==> t.status.InProgress?)
            && (o.Some? ==> OutcomeParses(o.value))
            && (o == Some(OutcomeCancelled) <==> t.status.Interrupted? && cancellationRequested)
            && (forall d :: o == Some(OutcomeCompleted(d)) <==> Answers(t, d))
            && (o.Some? && o.value.OutcomeFailed? ==> o.value.class_ == FailureClass(t))
  {
    hide FinalAnswers, TextParses, SafeFailure, OutcomeParses;
    NormalizedParses(t, cancellationRequested);
    FailedAsClassed(t, cancellationRequested);
    hide FailureClass;
    forall d ensures NormalizeTerminal(t, cancellationRequested) == Some(OutcomeCompleted(d)) <==> Answers(t, d) {
      OneAnswerIs(t.items, Parsed(d));
    }
  }

  /** Which kind of failure a finished turn without a result is. */
  function FailureClass(t: CodexTurn): string {
    if !t.status.TurnCompletedStatus? then "transient"
    else if t.fullView && exists item <- t.items :: !SafeItem(item) then "policy_denied"
    else "permanent"
  }

  lemma NormalizedParses(t: CodexTurn, cancellationRequested: bool)
    ensures var o := NormalizeTerminal(t, cancellationRequested); o.Some? ==> OutcomeParses(o.value)
  {
    hide FinalAnswers, TextParses, OutcomeParses, SafeFailure, SafeItem;
    CancelledParses();
  }

  lemma CancelledParses()
    ensures OutcomeParses(OutcomeCancelled)
  {}

  lemma FailedAsClassed(t: CodexTurn, cancellationRequested: bool)
    ensures var o := NormalizeTerminal(t, cancellationRequested);
            o.Some? && o.value.OutcomeFailed? ==> o.value.class_ == FailureClass(t)
  {
    hide FinalAnswers, TextParses, OutcomeParses, SafeItem, SafeFailure;
  }

  // ---- What correlation finds ----------------------------------------------------------

  predicate HitAt(items: seq<ThreadItem>, intent: Intent, j: int) { 0 <= j < |items| && Correlates(items[j], intent) }

  ghost predicate OnlyHit(items: seq<ThreadItem>, intent: Intent, j: int) {
    HitAt(items, intent, j) && forall k :: HitAt(items, intent, k) ==> k == j
  }

  predicate ExactItems(items: seq<ThreadItem>, intent: Intent) {
    forall item <- items :: Correlates(item, intent) ==> item.content == [Text(intent.text)]
  }

  lemma HitsGrow(items: seq<ThreadItem>, intent: Intent)
    requires items != []
    ensures var before, last := items[..|items| - 1], |items| - 1;
            forall j :: HitAt(items, intent, j) <==> HitAt(before, intent, j) || (j == last && Correlates(items[last], intent))
  {}

  lemma {:induction false} ItemsFound(t: CodexTurn, items: seq<ThreadItem>, intent: Intent)
    ensures MatchesInItems(t, items, intent).Ok? <==> ExactItems(items, intent)
    ensures MatchesInItems(t, items, intent) == Ok([]) <==>
              ExactItems(items, intent) && forall j :: !HitAt(items, intent, j)
    ensures MatchesInItems(t, items, intent) == Ok([t]) <==>
              ExactItems(items, intent) && exists j :: OnlyHit(items, intent, j)
    ensures MatchesInItems(t, items, intent).Ok? ==> forall x <- MatchesInItems(t, items, intent).value :: x == t
  {
    if items != [] {
      var n := |items| - 1;
      var before, last := items[..n], items[n];
      ItemsFound(t, before, intent);
      HitsGrow(items, intent);
      assert items == before + [last];
      hide Correlates;
      if !Correlates(last, intent) {
        if j :| OnlyHit(before, intent, j) { assert OnlyHit(items, intent, j); }
        if j :| OnlyHit(items, intent, j) { assert OnlyHit(before, intent, j); }
      } else {
        assert HitAt(items, intent, n);
        if forall j :: !HitAt(before, intent, j) { assert OnlyHit(items, intent, n); }
        if j :| OnlyHit(items, intent, j) {
          assert j == n;
          forall k ensures !HitAt(before, intent, k) { assert HitAt(before, intent, k) ==> HitAt(items, intent, k); }
          assert [] + [t] == [t];
        }
      }
    }
  }

  /** The turn in the thread that holds the one message carrying the intent's id, and no other does. */
  ghost predicate OnlyMatch(thread: seq<CodexTurn>, intent: Intent, i: int) {
    && 0 <= i < |thread| && (exists j :: OnlyHit(thread[i].items, intent, j))
    && forall k, j :: 0 <= k < |thread| && k != i ==> !HitAt(thread[k].items, intent, j)
  }

  ghost predicate NoMatch(thread: seq<CodexTurn>, intent: Intent) {
    forall k, j :: 0 <= k < |thread| ==> !HitAt(thread[k].items, intent, j)
  }

  predicate Exact(thread: seq<CodexTurn>, intent: Intent) {
    forall t <- thread :: t.fullView && ExactItems(t.items, intent)
  }

  lemma NoneByLast(thread: seq<CodexTurn>, last: CodexTurn, intent: Intent)
    requires thread != [] && last == thread[|thread| - 1]
    ensures var before := thread[..|thread| - 1];
            && (MatchesInThread(thread, intent).Ok? <==>
                  MatchesInThread(before, intent).Ok? && last.fullView && MatchesInItems(last, last.items, intent).Ok?)
            && (MatchesInThread(thread, intent) == Ok([]) <==>
                  && MatchesInThread(before, intent) == Ok([]) && last.fullView
                  && MatchesInItems(last, last.items, intent) == Ok([]))
  {
    hide MatchesInItems;
    if MatchesInThread(thread, intent).Ok? {
      var b, f := MatchesInThread(thread[..|thread| - 1], intent).value, MatchesInItems(last, last.items, intent).value;
      assert |b + f| == |b| + |f|;
      assert b + f == [] <==> b == [] && f == [];
    }
  }

  lemma ThreadByLast(thread: seq<CodexTurn>, last: CodexTurn, intent: Intent)
    requires thread != [] && last == thread[|thread| - 1]
    ensures var before := thread[..|thread| - 1];
            && (Exact(thread, intent) <==> Exact(before, intent) && last.fullView && ExactItems(last.items, intent))
            && (NoMatch(thread, intent) <==> NoMatch(before, intent) && forall j :: !HitAt(last.items, intent, j))
  {
    hide ExactItems, HitAt;
    var n := |thread| - 1;
    var before := thread[..n];
    assert thread == before + [last] && forall k :: 0 <= k < n ==> thread[k] == before[k];
    if NoMatch(thread, intent) {
      forall j ensures !HitAt(last.items, intent, j) { assert !HitAt(thread[n].items, intent, j); }
    }
  }

  lemma {:induction false} ThreadFound(thread: seq<CodexTurn>, intent: Intent)
    ensures MatchesInThread(thread, intent).Ok? <==> Exact(thread, intent)
    ensures MatchesInThread(thread, intent) == Ok([]) <==> Exact(thread, intent) && NoMatch(thread, intent)
    ensures forall x :: MatchesInThread(thread, intent) == Ok([x]) <==>
              Exact(thread, intent) && exists i :: OnlyMatch(thread, intent, i) && thread[i] == x
  {
    if thread != [] {
      hide MatchesInThread, MatchesInItems, Exact, ExactItems, NoMatch, HitAt, OnlyHit, OnlyMatch;
      var n := |thread| - 1;
      var before, last := thread[..n], thread[n];
      ThreadFound(before, intent);
      ItemsFound(last, last.items, intent);
      NoneByLast(thread, last, intent);
      ThreadByLast(thread, last, intent);
      forall x ensures MatchesInThread(thread, intent) == Ok([x]) <==>
                         Exact(thread, intent) && exists i :: OnlyMatch(thread, intent, i) && thread[i] == x
      {
        LastDecides(thread, intent, x);
      }
    }
  }

  /** The match is in what came before, and the last turn has none. */
  lemma OnlyStays(thread: seq<CodexTurn>, last: CodexTurn, intent: Intent, i: int)
    requires thread != [] && last == thread[|thread| - 1] && OnlyMatch(thread[..|thread| - 1], intent, i)
    requires forall j :: !HitAt(last.items, intent, j)
    ensures OnlyMatch(thread, intent, i) && thread[i] == thread[..|thread| - 1][i]
  {
    hide HitAt, OnlyHit;
    assert forall k :: 0 <= k < |thread| - 1 ==> thread[k] == thread[..|thread| - 1][k];
  }

  /** Only the last turn has one. */
  lemma OnlyLast(thread: seq<CodexTurn>, last: CodexTurn, intent: Intent)
    requires thread != [] && last == thread[|thread| - 1] && NoMatch(thread[..|thread| - 1], intent)
    requires exists j :: OnlyHit(last.items, intent, j)
    ensures OnlyMatch(thread, intent, |thread| - 1)
  {
    hide HitAt, OnlyHit;
    assert forall k :: 0 <= k < |thread| - 1 ==> thread[k] == thread[..|thread| - 1][k];
  }

  lemma FoundIsOnly(thread: seq<CodexTurn>, intent: Intent, x: CodexTurn)
    requires thread != [] && MatchesInThread(thread, intent) == Ok([x])
    requires var before := thread[..|thread| - 1];
             && (MatchesInThread(before, intent) == Ok([]) <==> Exact(before, intent) && NoMatch(before, intent))
             && (MatchesInThread(before, intent) == Ok([x]) <==>
                   Exact(before, intent) && exists i :: OnlyMatch(before, intent, i) && before[i] == x)
    ensures exists i :: OnlyMatch(thread, intent, i) && thread[i] == x
  {
    hide MatchesInItems, ExactItems, HitAt, OnlyHit, NoMatch, Exact;
    var n := |thread| - 1;
    var before, last := thread[..n], thread[n];
    LastFound(thread, intent);
    hide MatchesInThread;
    ItemsFound(last, last.items, intent);
    var b, f := MatchesInThread(before, intent).value, MatchesInItems(last, last.items, intent).value;
    OneOfTwo(b, f, x);
    if f == [] {
      var i :| OnlyMatch(before, intent, i) && before[i] == x;
      OnlyStays(thread, last, intent, i);
    } else {
      assert f[0] in f;
      OnlyLast(thread, last, intent);
    }
  }

  lemma LastFound(thread: seq<CodexTurn>, intent: Intent)
    requires thread != [] && MatchesInThread(thread, intent).Ok?
    ensures var before, last := thread[..|thread| - 1], thread[|thread| - 1];
            var b, f := MatchesInThread(before, intent), MatchesInItems(last, last.items, intent);
            b.Ok? && f.Ok? && last.fullView && MatchesInThread(thread, intent).value == b.value + f.value
  {
    hide MatchesInItems;
  }

  lemma OneOfTwo<T>(b: seq<T>, f: seq<T>, x: T)
    requires b + f == [x]
    ensures (b == [x] && f == []) || (b == [] && f == [x])
  {
    assert |b| + |f| == 1;
    if f == [] { assert b + f == b; } else { assert b == [] && b + f == f; }
  }

  lemma OnlyIsFound(thread: seq<CodexTurn>, intent: Intent, i: int)
    requires thread != [] && Exact(thread, intent) && OnlyMatch(thread, intent, i)
    requires var before := thread[..|thread| - 1];
             && (MatchesInThread(before, intent) == Ok([]) <==> Exact(before, intent) && NoMatch(before, intent))
             && (MatchesInThread(before, intent) == Ok([thread[i]]) <==>
                   Exact(before, intent) && exists k :: OnlyMatch(before, intent, k) && before[k] == thread[i])
    ensures MatchesInThread(thread, intent) == Ok([thread[i]])
  {
    hide MatchesInItems, ExactItems, HitAt, OnlyHit;
    var n := |thread| - 1;
    var before, last := thread[..n], thread[n];
    assert thread == before + [last] && forall k :: 0 <= k < n ==> thread[k] == before[k];
    if i == n {
      assert NoMatch(before, intent);
      OnlyIsOne(last, intent);
      assert [] + [last] == [last];
    } else {
      assert OnlyMatch(before, intent, i);
      assert forall j :: !HitAt(thread[n].items, intent, j);
      ItemsFound(last, last.items, intent);
      assert [thread[i]] + [] == [thread[i]];
    }
  }

  lemma LastDecides(thread: seq<CodexTurn>, intent: Intent, x: CodexTurn)
    requires thread != [] && (MatchesInThread(thread, intent).Ok? <==> Exact(thread, intent))
    requires var before := thread[..|thread| - 1];
             && (MatchesInThread(before, intent) == Ok([]) <==> Exact(before, intent) && NoMatch(before, intent))
             && (MatchesInThread(before, intent) == Ok([x]) <==>
                   Exact(before, intent) && exists i :: OnlyMatch(before, intent, i) && before[i] == x)
    ensures MatchesInThread(thread, intent) == Ok([x]) <==>
              Exact(thread, intent) && exists i :: OnlyMatch(thread, intent, i) && thread[i] == x
  {
    hide MatchesInThread, Exact, NoMatch;
    if MatchesInThread(thread, intent) == Ok([x]) { FoundIsOnly(thread, intent, x); }
    if Exact(thread, intent) {
      if i :| OnlyMatch(thread, intent, i) && thread[i] == x { OnlyIsFound(thread, intent, i); }
    }
  }

  lemma OnlyIsOne(t: CodexTurn, intent: Intent)
    requires ExactItems(t.items, intent) && exists j :: OnlyHit(t.items, intent, j)
    ensures MatchesInItems(t, t.items, intent) == Ok([t])
  {
    ItemsFound(t, t.items, intent);
  }

  /** The search finds nothing, or the turn that holds the one message carrying the intent's id, exactly
      when all turns are in full view, every message with that id is exact, and there is no other;
      everything else is an error. */
  lemma ReconciledIff(thread: seq<CodexTurn>, intent: Intent)
    ensures Reconciled(thread, intent) == Ok(None) <==> Exact(thread, intent) && NoMatch(thread, intent)
    ensures forall t :: Reconciled(thread, intent) == Ok(Some(t)) <==>
              Exact(thread, intent) && exists i :: OnlyMatch(thread, intent, i) && thread[i] == t
  {
    hide MatchesInThread, Exact, OnlyMatch, NoMatch;
    ThreadFound(thread, intent);
    var found := MatchesInThread(thread, intent);
    forall t ensures Reconciled(thread, intent) == Ok(Some(t)) <==> found == Ok([t]) {
      if found.Ok? && |found.value| == 1 { assert found.value == [found.value[0]]; }
    }
  }
}
