/** Newline framing: how lines are cut out of a stream that arrives in arbitrary chunks, and that
    written frames are read back, value for value, however they were cut. */
module Framing {
  import opened Common
  import opened Utf16
  import opened CanonicalJson
  import opened CanonicalJsonProofs

  const MAX_FRAME_BYTES: nat := 16 * 1_048_576

  /** The lines yielded before the stream ended, and whether it ended without an error. */
  datatype Reading = Reading(lines: seq<Text>, ok: bool)

  function Flatten(chunks: seq<Text>): Text {
    if chunks == [] then [] else chunks[0] + Flatten(chunks[1..])
  }

  /** `text.indexOf("\n")`. */
  function IndexOfNewline(t: Text): (r: Option<nat>)
    ensures r.None? <==> NEWLINE !in t
    ensures r.Some? ==> r.value < |t| && t[r.value] == NEWLINE && forall k :: 0 <= k < r.value ==> t[k] != NEWLINE
  {
    if t == [] then None
    else if t[0] == NEWLINE then Some(0)
    else
      var rest := IndexOfNewline(t[1..]);
      if rest.None? then None else Some(rest.value + 1)
  }

  predicate Fits(line: Text) { ByteLength(line) <= MAX_FRAME_BYTES }

  function Kept(line: Text): seq<Text> { if line == [] then [] else [line] }

  function Then(lines: seq<Text>, r: Reading): Reading { r.(lines := lines + r.lines) }

  /** Reading the whole text at once. */
  function ReadAll(t: Text): Reading
    decreases |t|
  {
    var i := IndexOfNewline(t);
    if i.None? then Reading([], t == [])
    else if !Fits(t[..i.value]) then Reading([], false)
    else Then(Kept(t[..i.value]), ReadAll(t[i.value + 1..]))
  }

  lemma FirstNewline(t: Text, i: nat)
    requires i < |t| && t[i] == NEWLINE && forall k :: 0 <= k < i ==> t[k] != NEWLINE
    ensures IndexOfNewline(t) == Some(i)
  {}

  lemma ThenThen(a: seq<Text>, b: seq<Text>, r: Reading)
    ensures Then(a, Then(b, r)) == Then(a + b, r)
  {
    assert a + (b + r.lines) == (a + b) + r.lines;
  }

  /** A newline inside what is pending is also the first one once more text follows. */
  lemma NewlineInPending(pending: Text, rest: Text)
    requires IndexOfNewline(pending).Some?
    ensures var i := IndexOfNewline(pending).value;
            ReadAll(pending + rest)
            == if Fits(pending[..i]) then Then(Kept(pending[..i]), ReadAll(pending[i + 1..] + rest))
               else Reading([], false)
  {
    hide IndexOfNewline, Fits;
    var i := IndexOfNewline(pending).value;
    var t := pending + rest;
    assert forall k :: 0 <= k <= i ==> t[k] == pending[k];
    assert t[..i] == pending[..i] && t[i + 1..] == pending[i + 1..] + rest;
    FirstNewline(t, i);
  }

  /** Pending text over the limit dooms the stream, whatever follows. */
  lemma OversizePending(pending: Text, rest: Text)
    requires NEWLINE !in pending && !Fits(pending)
    ensures ReadAll(pending + rest) == Reading([], false)
  {
    var t := pending + rest;
    var i := IndexOfNewline(t);
    assert pending != [];
    if i.Some? {
      assert t[i.value] == NEWLINE;
      assert i.value >= |pending|;
      assert t[..i.value][..|pending|] == pending;
      PrefixNoLonger(t[..i.value], |pending|);
    }
  }

  lemma FlattenFrom(chunks: seq<Text>, c: nat)
    requires c < |chunks|
    ensures Flatten(chunks[c..]) == chunks[c] + Flatten(chunks[c + 1..])
  {
    assert chunks[c..][1..] == chunks[c + 1..];
  }

  lemma NothingFlattened()
    ensures Flatten([]) == []
  {}

  lemma ReadTail(t: Text)
    requires NEWLINE !in t
    ensures ReadAll(t) == Reading([], t == [])
  {}

  /** The reading loop: lines and failure depend only on the text, not on how it was cut. */
  method ReadCodexLines(chunks: seq<Text>) returns (lines: seq<Text>, ok: bool)
    ensures Reading(lines, ok) == ReadAll(Flatten(chunks))
  {
    hide ReadAll, IndexOfNewline, Fits, Kept, Flatten;
    var whole := Flatten(chunks);
    var pending: Text := [];
    lines := [];
    assert chunks[0..] == chunks && [] + whole == whole;
    for c := 0 to |chunks|
      invariant NEWLINE !in pending
      invariant ReadAll(whole) == Then(lines, ReadAll(pending + Flatten(chunks[c..])))
    {
      ghost var rest := Flatten(chunks[c + 1..]);
      FlattenFrom(chunks, c);
      assert pending + (chunks[c] + rest) == (pending + chunks[c]) + rest;
      pending := pending + chunks[c];
      var newline := IndexOfNewline(pending);
      while newline.Some?
        invariant newline == IndexOfNewline(pending)
        invariant ReadAll(whole) == Then(lines, ReadAll(pending + rest))
        decreases |pending|
      {
        NewlineInPending(pending, rest);
        var line := pending[..newline.value];
        if !Fits(line) {
          assert lines + [] == lines;
          return lines, false;
        }
        ThenThen(lines, Kept(line), ReadAll(pending[newline.value + 1..] + rest));
        lines := lines + Kept(line);
        pending := pending[newline.value + 1..];
        newline := IndexOfNewline(pending);
      }
      if !Fits(pending) {
        OversizePending(pending, rest);
        assert lines + [] == lines;
        return lines, false;
      }
    }
    NothingFlattened();
    assert chunks[|chunks|..] == [];
    assert pending + [] == pending;
    ReadTail(pending);
    assert lines + [] == lines;
    return lines, pending == [];
  }

  // ---- What the reading means ----------------------------------------------------------

  /** Newline-terminated segments. */
  function Joined(segments: seq<Text>): Text {
    if segments == [] then [] else segments[0] + [NEWLINE] + Joined(segments[1..])
  }

  predicate NewlineFree(segments: seq<Text>) { forall s <- segments :: NEWLINE !in s }

  function NonEmpty(segments: seq<Text>): seq<Text> {
    if segments == [] then [] else Kept(segments[0]) + NonEmpty(segments[1..])
  }

  /** The segments before the first oversize one. */
  function Readable(segments: seq<Text>): seq<Text> {
    if segments == [] || !Fits(segments[0]) then [] else [segments[0]] + Readable(segments[1..])
  }

  /** Every text is newline-terminated segments and a tail, in one way. */
  lemma {:induction false} Cut(t: Text) returns (segments: seq<Text>, tail: Text)
    ensures t == Joined(segments) + tail && NewlineFree(segments) && NEWLINE !in tail
    decreases |t|
  {
    var i := IndexOfNewline(t);
    if i.None? {
      segments, tail := [], t;
      assert Joined(segments) + tail == t;
    } else {
      var rest;
      rest, tail := Cut(t[i.value + 1..]);
      assert NEWLINE !in t[..i.value];
      segments := [t[..i.value]] + rest;
      assert segments[1..] == rest;
      assert t == t[..i.value] + [NEWLINE] + t[i.value + 1..];
    }
  }

  /** Reading yields the nonempty segments up to the first oversize one, and fails exactly when some
      segment is oversize or the last line is incomplete. */
  lemma {:induction false} ReadingMeans(segments: seq<Text>, tail: Text)
    requires NewlineFree(segments) && NEWLINE !in tail
    ensures ReadAll(Joined(segments) + tail)
         == Reading(NonEmpty(Readable(segments)), tail == [] && forall s <- segments :: Fits(s))
    decreases |segments|
  {
    hide Fits;
    var t := Joined(segments) + tail;
    if segments == [] {
      assert t == tail;
    } else {
      var first, rest := segments[0], Joined(segments[1..]) + tail;
      var line := first + [NEWLINE];
      assert t == line + rest;
      assert first in segments;
      FirstNewline(line, |first|);
      NewlineInPending(line, rest);
      assert line[..|first|] == first && line[|first| + 1..] + rest == rest;
      hide IndexOfNewline, ReadAll;
      ReadingMeans(segments[1..], tail);
      assert segments == [first] + segments[1..];
      if Fits(first) { assert Readable(segments)[1..] == Readable(segments[1..]); }
    }
  }

  // ---- Writing -------------------------------------------------------------------------

  /** `writeCodexFrame`: the frame, or nothing when it exceeds the limit. */
  function Frame(v: Value): Option<Text> {
    var frame := Stringify(v) + [NEWLINE];
    if Fits(frame) then Some(frame) else None
  }

  lemma {:induction false} EscapeHasNoNewline(s: Text)
    ensures NEWLINE !in Escape(s)
    decreases |s|
  {
    hide EscapeUnit, IsHigh, IsLow;
    if s == [] {
    } else if |s| > 1 && IsHigh(s[0]) && IsLow(s[1]) {
      EscapeHasNoNewline(s[2..]);
      SurrogatesAreNoNewline(s[0]);
      SurrogatesAreNoNewline(s[1]);
    } else {
      EscapeHasNoNewline(s[1..]);
      EscapedUnitHasNoNewline(s[0]);
    }
  }

  lemma SurrogatesAreNoNewline(c: Unit)
    ensures IsHigh(c) || IsLow(c) ==> c != NEWLINE
  {}

  lemma EscapedUnitHasNoNewline(c: Unit)
    ensures NEWLINE !in EscapeUnit(c)
  {}

  lemma NumberHasNoNewline(n: int)
    ensures NEWLINE !in IntegerText(n)
  {
    var m: nat := if n < 0 then -n else n;
    Numerals.DecimalReadsBack(m);
    UnitsValue(Numerals.Decimal(m));
  }

  /** JSON text is one nonempty line. */
  lemma {:induction false} TextIsOneLine(v: Value)
    ensures Stringify(v) != [] && NEWLINE !in Stringify(v)
    decreases v, 0
  {
    hide Escape, IntegerText;
    StringifyStarts(v);
    match v
    case Number(n) => NumberHasNoNewline(n);
    case Str(s) => EscapeHasNoNewline(s);
    case Array(items) => ItemsAreOneLine(items);
    case Object(fields) => FieldsAreOneLine(fields);
    case _ =>
  }

  lemma {:induction false} ItemsAreOneLine(items: seq<Value>)
    ensures NEWLINE !in StringifyItems(items)
    decreases items
  {
    hide Stringify;
    if items != [] {
      TextIsOneLine(items[0]);
      ItemsAreOneLine(items[1..]);
    }
  }

  lemma {:induction false} FieldsAreOneLine(fields: seq<Field>)
    ensures NEWLINE !in StringifyFields(fields)
    decreases fields
  {
    hide Stringify, Escape;
    if fields != [] {
      EscapeHasNoNewline(fields[0].key);
      TextIsOneLine(fields[0].value);
      FieldsAreOneLine(fields[1..]);
    }
  }

  function Texts(values: seq<Value>): seq<Text> {
    seq(|values|, i requires 0 <= i < |values| => Stringify(values[i]))
  }

  lemma {:induction false} OneLineTextsAreKept(lines: seq<Text>)
    requires forall s <- lines :: s != [] && Fits(s)
    ensures Readable(lines) == lines && NonEmpty(lines) == lines
  {
    hide Fits;
    if lines != [] {
      forall s <- lines[1..] ensures s != [] && Fits(s) { assert s in lines; }
      OneLineTextsAreKept(lines[1..]);
    }
  }

  /** Frames written one after another and cut into chunks anywhere are read back as exactly the
      values that were written, in order, without an error. */
  lemma FramesReadBack(values: seq<Value>, chunks: seq<Text>)
    requires forall i :: 0 <= i < |values| ==> Frame(values[i]).Some?
    requires Flatten(chunks) == Joined(Texts(values))
    ensures ReadAll(Flatten(chunks)) == Reading(Texts(values), true)
    ensures forall i :: 0 <= i < |values| ==> Parse(Texts(values)[i]) == Some((values[i], []))
  {
    hide Stringify, Parse, ReadAll, ByteLength;
    forall i | 0 <= i < |values|
      ensures var s := Texts(values)[i];
              s != [] && NEWLINE !in s && Fits(s) && Parse(s) == Some((values[i], []))
    {
      var s := Stringify(values[i]);
      TextIsOneLine(values[i]);
      ParseInvertsStringify(values[i], []);
      assert s + [] == s && (s + [NEWLINE])[..|s|] == s;
      PrefixNoLonger(s + [NEWLINE], |s|);
    }
    ReadingMeans(Texts(values), []);
    assert Joined(Texts(values)) + [] == Joined(Texts(values));
    OneLineTextsAreKept(Texts(values));
  }
}
