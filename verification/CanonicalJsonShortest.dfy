/** The printer against every other way to write the same value: what it prints is printable, and
    the one shortest printable text that reads as that value. */
module CanonicalJsonShortest {
  import opened Common
  import opened Numerals
  import opened Utf16
  import opened CanonicalJson
  import opened CanonicalJsonProofs

  // ---- Printable text ------------------------------------------------------------------

  /** Half of a surrogate pair without its other half next to it. */
  predicate LoneAt(t: Text, i: nat)
    requires i < |t|
  {
    || (IsHigh(t[i]) && !(i + 1 < |t| && IsLow(t[i + 1])))
    || (IsLow(t[i]) && !(i > 0 && IsHigh(t[i - 1])))
  }

  /** No control unit and no lone surrogate. */
  predicate Printable(t: Text) { forall i :: 0 <= i < |t| ==> t[i] >= 32 && !LoneAt(t, i) }

  predicate Paired(t: Text) { |t| > 1 && IsHigh(t[0]) && IsLow(t[1]) }

  lemma DropPair(t: Text)
    requires Paired(t)
    ensures Printable(t) <==> Printable(t[2..])
  {
    forall i | 0 <= i < |t| - 2 ensures t[i + 2] == t[2..][i] && (LoneAt(t, i + 2) <==> LoneAt(t[2..], i)) {}
    assert !LoneAt(t, 0) && !LoneAt(t, 1);
  }

  lemma DropPlain(t: Text)
    requires t != [] && !IsHigh(t[0]) && !IsLow(t[0])
    ensures Printable(t) <==> t[0] >= 32 && Printable(t[1..])
  {
    forall i | 0 <= i < |t| - 1 ensures t[i + 1] == t[1..][i] && (LoneAt(t, i + 1) <==> LoneAt(t[1..], i)) {}
  }

  lemma FirstIsPairedOrPlain(t: Text)
    requires t != [] && Printable(t)
    ensures Paired(t) || (t[0] >= 32 && !IsHigh(t[0]) && !IsLow(t[0]))
  {
    assert !LoneAt(t, 0);
  }

  lemma {:induction false} DropAscii(t: Text, k: nat)
    requires k <= |t| && (forall i :: 0 <= i < k ==> t[i] < 128)
    ensures Printable(t) <==> (forall i :: 0 <= i < k ==> t[i] >= 32) && Printable(t[k..])
  {
    if k == 0 {
      assert t[0..] == t;
    } else {
      DropPlain(t);
      DropAscii(t[1..], k - 1);
      assert t[1..][k - 1..] == t[k..];
      assert forall i :: 0 <= i < k - 1 ==> t[1..][i] == t[i + 1];
      assert (forall i :: 0 <= i < k ==> t[i] >= 32) <==> t[0] >= 32 && forall i :: 0 <= i < k - 1 ==> t[1..][i] >= 32;
    }
  }

  // ---- What is escaped -----------------------------------------------------------------

  /** Nothing in the string needs an escape. */
  predicate Plain(s: Text) { Printable(s) && QUOTE !in s && BACKSLASH !in s }

  lemma EscapeOfPair(s: Text)
    requires Paired(s)
    ensures Escape(s) == [s[0], s[1]] + Escape(s[2..])
  {}

  lemma EscapeOfOne(s: Text)
    requires s != [] && !Paired(s)
    ensures Escape(s) == EscapeUnit(s[0]) + Escape(s[1..])
  {}

  /** An escape is longer than what it stands for, and its hex digits are lower-case. */
  lemma EscapeUnitShape(c: Unit)
    ensures EscapeUnit(c) == [c] <==> c >= 32 && c != QUOTE && c != BACKSLASH && !IsHigh(c) && !IsLow(c)
    ensures EscapeUnit(c) != [c] ==> |EscapeUnit(c)| in {2, 6} && EscapeUnit(c)[0] == BACKSLASH
    ensures |EscapeUnit(c)| == 6 ==>
              forall i :: 2 <= i < 6 ==> IsDigitUnit(EscapeUnit(c)[i]) || 97 <= EscapeUnit(c)[i] <= 102
    ensures IsHigh(c) || IsLow(c) ==> |EscapeUnit(c)| == 6
  {}

  /** A string is printed between its quotes as it is exactly when it has no quote, no backslash, no
      control unit and no lone surrogate; otherwise its printed form is longer. */
  lemma {:induction false} PrintedAsIsIff(s: Text)
    ensures Escape(s) == s <==> Plain(s)
    ensures |Escape(s)| >= |s| && (|Escape(s)| == |s| ==> Escape(s) == s)
    decreases |s|
  {
    hide EscapeUnit;
    if s == [] {
    } else if Paired(s) {
      PrintedAsIsIff(s[2..]);
      EscapeOfPair(s);
      DropPair(s);
      assert s == [s[0], s[1]] + s[2..];
    } else {
      PrintedAsIsIff(s[1..]);
      EscapeOfOne(s);
      EscapeUnitShape(s[0]);
      assert s == [s[0]] + s[1..];
      if IsHigh(s[0]) || IsLow(s[0]) { assert LoneAt(s, 0); } else { DropPlain(s); }
    }
  }

  // ---- Against any text that reads the same --------------------------------------------

  /** `printed` is no longer than what was read of `t` before `rest`, and as long only if it is that. */
  predicate NoLonger(printed: Text, t: Text, rest: Text) {
    && Printable(rest) && |printed| + |rest| <= |t|
    && (|printed| + |rest| == |t| ==> t == printed + rest)
  }

  lemma Joined(p: Text, t: Text, m: Text, q: Text, rest: Text)
    requires NoLonger(p, t, m) && NoLonger(q, m, rest)
    ensures NoLonger(p + q, t, rest)
  {
    assert p + (q + rest) == (p + q) + rest;
  }

  lemma Mark(t: Text)
    requires t != [] && Printable(t) && t[0] < 128
    ensures NoLonger([t[0]], t, t[1..])
  {
    DropPlain(t);
    assert t == [t[0]] + t[1..];
  }

  lemma HexIsUnique(u: Unit)
    requires HexValue(u).Some?
    ensures HexValue(u).value < 16 && HexDigit(HexValue(u).value) == u && 32 <= u < 128
  {}

  lemma PlacesAreUnique(a: nat, b: nat, c: nat, d: nat)
    requires a < 16 && b < 16 && c < 16 && d < 16
    ensures var n := a * 4096 + b * 256 + c * 16 + d;
            n < 0x1_0000 && n / 4096 == a && n / 256 % 16 == b && n / 16 % 16 == c && n % 16 == d
  {
    var n := a * 4096 + b * 256 + c * 16 + d;
    assert n / 16 == a * 256 + b * 16 + c;
    assert n / 256 == a * 16 + b;
  }

  /** A long escape is the printer's own for that unit. */
  lemma LongEscapeIs(t: Text)
    requires |t| >= 6 && t[0] == BACKSLASH && t[1] == 117 && ParseEscape(t).Some?
    ensures UnicodeEscape(ParseEscape(t).value.0) == t[..6] && ParseEscape(t).value.1 == t[6..]
    ensures forall i :: 0 <= i < 6 ==> 32 <= t[i] < 128
  {
    var a, b, c, d := HexValue(t[2]), HexValue(t[3]), HexValue(t[4]), HexValue(t[5]);
    HexIsUnique(t[2]);
    HexIsUnique(t[3]);
    HexIsUnique(t[4]);
    HexIsUnique(t[5]);
    hide HexValue, HexDigit;
    PlacesAreUnique(a.value, b.value, c.value, d.value);
  }

  lemma ShortEscapeIs(t: Text)
    requires |t| >= 2 && t[0] == BACKSLASH && t[1] != 117 && ParseEscape(t).Some?
    ensures EscapeUnit(ParseEscape(t).value.0) == t[..2] && ParseEscape(t).value.1 == t[2..] && 32 <= t[1] < 128
  {}

  lemma EscapeNoLonger(t: Text)
    requires t != [] && t[0] == BACKSLASH && Printable(t) && ParseEscape(t).Some?
    ensures NoLonger(EscapeUnit(ParseEscape(t).value.0), t, ParseEscape(t).value.1)
  {
    var (c, rest) := ParseEscape(t).value;
    if t[1] == 117 {
      LongEscapeIs(t);
      EscapeUnitShape(c);
      DropAscii(t, 6);
      assert t == t[..6] + t[6..];
      hide ParseEscape, UnicodeEscape;
      LongIsUnicode(c);
    } else {
      ShortEscapeIs(t);
      DropAscii(t, 2);
      assert t == t[..2] + t[2..];
    }
  }

  lemma LongIsUnicode(c: Unit)
    ensures |EscapeUnit(c)| == 6 ==> EscapeUnit(c) == UnicodeEscape(c)
  {}

  /** One more unit in front adds at most its own escape; less when it completes a pair. */
  lemma EscapeInFront(c: Unit, s: Text)
    ensures |Escape([c] + s)| <= |EscapeUnit(c)| + |Escape(s)|
    ensures |Escape([c] + s)| == |EscapeUnit(c)| + |Escape(s)| ==> Escape([c] + s) == EscapeUnit(c) + Escape(s)
  {
    hide EscapeUnit;
    assert ([c] + s)[1..] == s;
    if Paired([c] + s) {
      EscapeOfPair([c] + s);
      assert ([c] + s)[2..] == s[1..];
      EscapeOfOne(s);
      EscapeUnitShape(s[0]);
      EscapeUnitShape(c);
    } else {
      EscapeOfOne([c] + s);
    }
  }

  lemma {:induction false} StringNoLonger(t: Text, s: Text, rest: Text)
    requires Printable(t) && ParseString(t) == Some((s, rest))
    ensures NoLonger(Escape(s) + [QUOTE], t, rest)
    decreases |t|
  {
    hide EscapeUnit, ParseEscape, NoLonger;
    if t[0] == QUOTE {
      Mark(t);
      assert Escape([]) + [QUOTE] == [QUOTE];
    } else if t[0] == BACKSLASH {
      var (c, after) := ParseEscape(t).value;
      EscapeNoLonger(t);
      PrintableAfter(EscapeUnit(c), t, after);
      var tail := ParseString(after).value.0;
      StringNoLonger(after, tail, rest);
      Joined(EscapeUnit(c), t, after, Escape(tail) + [QUOTE], rest);
      EscapeInFront(c, tail);
      Shorter(Escape([c] + tail) + [QUOTE], EscapeUnit(c) + (Escape(tail) + [QUOTE]), t, rest);
    } else if Paired(t) {
      PlainPairRead(t);
      DropPair(t);
      var tail := ParseString(t[2..]).value.0;
      StringNoLonger(t[2..], tail, rest);
      PairInFront(t, tail, rest);
    } else {
      FirstIsPairedOrPlain(t);
      DropPlain(t);
      var tail := ParseString(t[1..]).value.0;
      StringNoLonger(t[1..], tail, rest);
      EscapeUnitShape(t[0]);
      PlainInFront(t, tail, rest);
    }
  }

  lemma PrintableAfter(p: Text, t: Text, rest: Text)
    requires NoLonger(p, t, rest)
    ensures Printable(rest)
  {}

  lemma Shorter(p: Text, q: Text, t: Text, rest: Text)
    requires NoLonger(q, t, rest) && |p| <= |q| && (|p| == |q| ==> p == q)
    ensures NoLonger(p, t, rest)
  {}

  lemma PlainPairRead(t: Text)
    requires Paired(t) && ParseString(t).Some?
    ensures ParseString(t[2..]).Some?
    ensures ParseString(t).value == ([t[0], t[1]] + ParseString(t[2..]).value.0, ParseString(t[2..]).value.1)
  {
    assert t[1..][1..] == t[2..] && t[1..][0] == t[1];
    var tail := ParseString(t[2..]);
    assert ParseString(t[1..]) == if tail.None? then None else Some(([t[1]] + tail.value.0, tail.value.1));
    if tail.Some? { assert [t[0]] + ([t[1]] + tail.value.0) == [t[0], t[1]] + tail.value.0; }
  }

  lemma PairInFront(t: Text, tail: Text, rest: Text)
    requires Paired(t) && NoLonger(Escape(tail) + [QUOTE], t[2..], rest)
    ensures NoLonger(Escape([t[0], t[1]] + tail) + [QUOTE], t, rest)
  {
    var s := [t[0], t[1]] + tail;
    EscapeOfPair(s);
    assert s[2..] == tail && t == [t[0], t[1]] + t[2..];
  }

  lemma PlainInFront(t: Text, tail: Text, rest: Text)
    requires t != [] && EscapeUnit(t[0]) == [t[0]] && NoLonger(Escape(tail) + [QUOTE], t[1..], rest)
    ensures NoLonger(Escape([t[0]] + tail) + [QUOTE], t, rest)
  {
    EscapeUnitShape(t[0]);
    EscapeOfOne([t[0]] + tail);
    assert ([t[0]] + tail)[1..] == tail && t == [t[0]] + t[1..];
  }

  // ---- Numbers -------------------------------------------------------------------------

  lemma DigitsAre(n: nat)
    ensures n < 10 ==> Digits(n) == [48 + n]
    ensures n >= 10 ==> Digits(n) == Digits(n / 10) + [48 + n % 10]
  {
    DecimalReadsBack(n);
    DecimalReadsBack(n / 10);
  }

  /** Leading zeros only make a number longer. */
  lemma {:induction false} DigitsNoLonger(d: Text)
    requires d != [] && forall i :: 0 <= i < |d| ==> IsDigitUnit(d[i])
    ensures |Digits(DigitsValue(d))| <= |d| && (|Digits(DigitsValue(d))| == |d| ==> Digits(DigitsValue(d)) == d)
  {
    hide Digits;
    var head, last := d[..|d| - 1], d[|d| - 1];
    var n := DigitsValue(d);
    DigitsAre(n);
    assert d == head + [last];
    if head != [] {
      DigitsNoLonger(head);
      assert n == DigitsValue(head) * 10 + DigitUnitValue(last);
      if n >= 10 {
        assert n / 10 == DigitsValue(head) && n % 10 == DigitUnitValue(last);
      }
    } else {
      assert DigitsValue(head) == 0;
    }
  }

  lemma NaturalNoLonger(t: Text)
    requires Printable(t) && ParseNatural(t).Some?
    ensures NoLonger(Digits(ParseNatural(t).value.0), t, ParseNatural(t).value.1)
  {
    var k := LeadingDigits(t);
    DigitsNoLonger(t[..k]);
    DropAscii(t, k);
    assert t == t[..k] + t[k..];
  }

  // ---- Values --------------------------------------------------------------------------

  lemma LiteralNoLonger(text: Text, t: Text)
    requires Printable(t) && text <= t && forall i :: 0 <= i < |text| ==> 32 <= text[i] < 128
    ensures NoLonger(text, t, t[|text|..])
  {
    assert forall i :: 0 <= i < |text| ==> t[i] == text[i];
    DropAscii(t, |text|);
    assert t == text + t[|text|..];
  }

  lemma NegativeNoLonger(t: Text)
    requires Printable(t) && t != [] && t[0] == MINUS && ParseNatural(t[1..]).Some?
    ensures NoLonger(Stringify(Negated(ParseNatural(t[1..]).value.0)), t, ParseNatural(t[1..]).value.1)
  {
    hide Digits, ParseNatural, NoLonger;
    var (n, rest) := ParseNatural(t[1..]).value;
    Mark(t);
    PrintableAfter([MINUS], t, t[1..]);
    NaturalNoLonger(t[1..]);
    Joined([MINUS], t, t[1..], Digits(n), rest);
    Shorter(Stringify(Negated(n)), [MINUS] + Digits(n), t, rest);
  }

  lemma NaturalValueNoLonger(t: Text)
    requires Printable(t) && ParseNatural(t).Some?
    ensures NoLonger(Stringify(Number(ParseNatural(t).value.0)), t, ParseNatural(t).value.1)
  {
    hide Digits, ParseNatural, NoLonger;
    NaturalNoLonger(t);
  }

  lemma QuotedNoLonger(t: Text, s: Text, rest: Text)
    requires Printable(t) && t != [] && t[0] == QUOTE && ParseString(t[1..]) == Some((s, rest))
    ensures NoLonger(Quoted(s), t, rest)
  {
    hide ParseString, NoLonger, Escape;
    Mark(t);
    PrintableAfter([QUOTE], t, t[1..]);
    StringNoLonger(t[1..], s, rest);
    Joined([QUOTE], t, t[1..], Escape(s) + [QUOTE], rest);
    assert [QUOTE] + (Escape(s) + [QUOTE]) == Quoted(s);
  }

  lemma {:induction false} ValueNoLonger(t: Text, v: Value, rest: Text)
    requires Printable(t) && Parse(t) == Some((v, rest))
    ensures NoLonger(Stringify(v), t, rest)
    decreases |t|, 1
  {
    hide NoLonger, ParseString, ParseItems, ParseFields, ParseNatural, Printable;
    if NULL_TEXT <= t {
      LiteralNoLonger(NULL_TEXT, t);
    } else if TRUE_TEXT <= t {
      LiteralNoLonger(TRUE_TEXT, t);
    } else if FALSE_TEXT <= t {
      LiteralNoLonger(FALSE_TEXT, t);
    } else if t[0] == QUOTE {
      QuotedNoLonger(t, v.s, rest);
    } else if t[0] == OPEN_BRACKET || t[0] == OPEN_BRACE {
      NestedNoLonger(t, v, rest);
    } else if t[0] == MINUS {
      NegativeNoLonger(t);
    } else {
      NaturalValueNoLonger(t);
    }
  }

  lemma EmptyTexts()
    ensures Stringify(Array([])) == [OPEN_BRACKET] + [CLOSE_BRACKET]
    ensures Stringify(Object([])) == [OPEN_BRACE] + [CLOSE_BRACE]
  {}

  lemma {:induction false} NestedNoLonger(t: Text, v: Value, rest: Text)
    requires Printable(t) && Parse(t) == Some((v, rest)) && (t[0] == OPEN_BRACKET || t[0] == OPEN_BRACE)
    ensures NoLonger(Stringify(v), t, rest)
    decreases |t|, 0
  {
    FirstUnitDecides(t);
    Mark(t);
    PrintableAfter([t[0]], t, t[1..]);
    hide NoLonger, ParseString, ParseItems, ParseFields, ParseNatural, StringifyItems, StringifyFields;
    if |t| > 1 && t[0] == OPEN_BRACKET && t[1] == CLOSE_BRACKET {
      Mark(t[1..]);
      Joined([t[0]], t, t[1..], [t[1]], t[1..][1..]);
      assert t[1..][1..] == t[2..] && Stringify(Array([])) == [t[0]] + [t[1]] by { EmptyTexts(); }
    } else if |t| > 1 && t[0] == OPEN_BRACE && t[1] == CLOSE_BRACE {
      Mark(t[1..]);
      Joined([t[0]], t, t[1..], [t[1]], t[1..][1..]);
      assert t[1..][1..] == t[2..] && Stringify(Object([])) == [t[0]] + [t[1]] by { EmptyTexts(); }
    } else if t[0] == OPEN_BRACKET {
      ItemsNoLonger(t[1..], v.items, rest);
      Joined([t[0]], t, t[1..], StringifyItems(v.items) + [CLOSE_BRACKET], rest);
      assert [t[0]] + (StringifyItems(v.items) + [CLOSE_BRACKET]) == Stringify(v);
    } else {
      FieldsNoLonger(t[1..], v.fields, rest);
      Joined([t[0]], t, t[1..], StringifyFields(v.fields) + [CLOSE_BRACE], rest);
      assert [t[0]] + (StringifyFields(v.fields) + [CLOSE_BRACE]) == Stringify(v);
    }
  }

  lemma {:induction false} ItemsNoLonger(t: Text, items: seq<Value>, rest: Text)
    requires Printable(t) && ParseItems(t) == Some((items, rest))
    ensures NoLonger(StringifyItems(items) + [CLOSE_BRACKET], t, rest)
    decreases |t|, 2
  {
    hide NoLonger, Parse, Stringify, Printable;
    var (first, m) := Parse(t).value;
    ValueNoLonger(t, first, m);
    PrintableAfter(Stringify(first), t, m);
    Mark(m);
    Joined(Stringify(first), t, m, [m[0]], m[1..]);
    if m[0] == CLOSE_BRACKET {
      assert items == [first];
    } else {
      var more := ParseItems(m[1..]).value.0;
      PrintableAfter([m[0]], m, m[1..]);
      ItemsNoLonger(m[1..], more, rest);
      Joined(Stringify(first) + [m[0]], t, m[1..], StringifyItems(more) + [CLOSE_BRACKET], rest);
      ItemsNonempty(m[1..]);
      assert items[1..] == more;
      assert StringifyItems(items) + [CLOSE_BRACKET]
          == Stringify(first) + [m[0]] + (StringifyItems(more) + [CLOSE_BRACKET]);
    }
  }

  lemma ItemsNonempty(t: Text)
    requires ParseItems(t).Some?
    ensures ParseItems(t).value.0 != []
  {
    hide Parse;
  }

  lemma FieldsNonempty(t: Text)
    requires ParseFields(t).Some?
    ensures ParseFields(t).value.0 != []
  {
    hide ParseField;
  }

  lemma {:induction false} FieldNoLonger(t: Text, f: Field, rest: Text)
    requires Printable(t) && ParseField(t) == Some((f, rest))
    ensures NoLonger(StringifyField(f), t, rest)
    decreases |t|, 2
  {
    hide NoLonger, Parse, ParseString, Stringify, Quoted, Printable;
    var (key, m) := ParseString(t[1..]).value;
    QuotedNoLonger(t, key, m);
    PrintableAfter(Quoted(key), t, m);
    Mark(m);
    PrintableAfter([m[0]], m, m[1..]);
    Joined(Quoted(key), t, m, [m[0]], m[1..]);
    ValueNoLonger(m[1..], f.value, rest);
    Joined(Quoted(key) + [m[0]], t, m[1..], Stringify(f.value), rest);
  }

  lemma {:induction false} FieldsNoLonger(t: Text, fields: seq<Field>, rest: Text)
    requires Printable(t) && ParseFields(t) == Some((fields, rest))
    ensures NoLonger(StringifyFields(fields) + [CLOSE_BRACE], t, rest)
    decreases |t|, 3
  {
    hide NoLonger, ParseField, StringifyField, Printable;
    var (first, m) := ParseField(t).value;
    FieldNoLonger(t, first, m);
    PrintableAfter(StringifyField(first), t, m);
    Mark(m);
    Joined(StringifyField(first), t, m, [m[0]], m[1..]);
    if m[0] == CLOSE_BRACE {
      assert fields == [first];
    } else {
      var more := ParseFields(m[1..]).value.0;
      PrintableAfter([m[0]], m, m[1..]);
      FieldsNoLonger(m[1..], more, rest);
      Joined(StringifyField(first) + [m[0]], t, m[1..], StringifyFields(more) + [CLOSE_BRACE], rest);
      FieldsNonempty(m[1..]);
      assert fields[1..] == more;
      assert StringifyFields(fields) + [CLOSE_BRACE]
          == StringifyField(first) + [m[0]] + (StringifyFields(more) + [CLOSE_BRACE]);
    }
  }

  // ---- What is printed is printable ----------------------------------------------------

  lemma {:induction false} PrintableConcat(a: Text, b: Text)
    requires Printable(a) && Printable(b)
    ensures Printable(a + b)
    decreases |a|
  {
    if a == [] {
      assert a + b == b;
    } else {
      FirstIsPairedOrPlain(a);
      var k := if Paired(a) then 2 else 1;
      if Paired(a) { DropPair(a); DropPair(a + b); } else { DropPlain(a); DropPlain(a + b); }
      PrintableConcat(a[k..], b);
      assert (a + b)[k..] == a[k..] + b;
    }
  }

  lemma AsciiIsPrintable(t: Text)
    requires forall i :: 0 <= i < |t| ==> 32 <= t[i] < 128
    ensures Printable(t)
  {}

  lemma EscapeUnitIsPrintable(c: Unit)
    ensures Printable(EscapeUnit(c))
  {
    if EscapeUnit(c) == [c] {
      EscapeUnitShape(c);
    } else {
      HexPlaces(c);
      AsciiIsPrintable(EscapeUnit(c));
    }
  }

  lemma {:induction false} EscapeIsPrintable(s: Text)
    ensures Printable(Escape(s))
    decreases |s|
  {
    hide EscapeUnit, Printable;
    if s == [] {
      AsciiIsPrintable([]);
    } else if Paired(s) {
      EscapeIsPrintable(s[2..]);
      EscapeOfPair(s);
      PairIsPrintable(s[0], s[1]);
      PrintableConcat([s[0], s[1]], Escape(s[2..]));
    } else {
      EscapeIsPrintable(s[1..]);
      EscapeOfOne(s);
      EscapeUnitIsPrintable(s[0]);
      PrintableConcat(EscapeUnit(s[0]), Escape(s[1..]));
    }
  }

  lemma PairIsPrintable(h: Unit, l: Unit)
    requires IsHigh(h) && IsLow(l)
    ensures Printable([h, l])
  {}

  lemma QuotedIsPrintable(s: Text)
    ensures Printable(Quoted(s))
  {
    hide Escape, Printable;
    EscapeIsPrintable(s);
    AsciiIsPrintable([QUOTE]);
    PrintableConcat([QUOTE], Escape(s));
    PrintableConcat([QUOTE] + Escape(s), [QUOTE]);
  }

  lemma NumberIsPrintable(n: int)
    ensures Printable(IntegerText(n))
  {
    var m := if n < 0 then -n else n;
    DecimalReadsBack(m);
    UnitsValue(Decimal(m));
    AsciiIsPrintable(IntegerText(n));
  }

  lemma {:induction false} StringifyIsPrintable(v: Value)
    ensures Printable(Stringify(v))
    decreases v, 0
  {
    hide Printable, Quoted, IntegerText;
    match v
    case Null => AsciiIsPrintable(NULL_TEXT);
    case Bool(b) => AsciiIsPrintable(if b then TRUE_TEXT else FALSE_TEXT);
    case Number(n) => NumberIsPrintable(n);
    case Str(s) => QuotedIsPrintable(s);
    case Array(items) =>
      ItemsArePrintable(items);
      Enclosed(OPEN_BRACKET, StringifyItems(items), CLOSE_BRACKET);
    case Object(fields) =>
      FieldsArePrintable(fields);
      Enclosed(OPEN_BRACE, StringifyFields(fields), CLOSE_BRACE);
  }

  lemma Enclosed(open: Unit, t: Text, close: Unit)
    requires 32 <= open < 128 && 32 <= close < 128 && Printable(t)
    ensures Printable([open] + t + [close])
  {
    hide Printable;
    AsciiIsPrintable([open]);
    AsciiIsPrintable([close]);
    PrintableConcat([open], t);
    PrintableConcat([open] + t, [close]);
  }

  lemma Separated(a: Text, separator: Unit, b: Text)
    requires 32 <= separator < 128 && Printable(a) && Printable(b)
    ensures Printable(a + [separator] + b)
  {
    hide Printable;
    AsciiIsPrintable([separator]);
    PrintableConcat(a, [separator]);
    PrintableConcat(a + [separator], b);
  }

  lemma {:induction false} ItemsArePrintable(items: seq<Value>)
    ensures Printable(StringifyItems(items))
    decreases items
  {
    hide Printable, Stringify;
    AsciiIsPrintable([]);
    if items != [] {
      StringifyIsPrintable(items[0]);
      ItemsArePrintable(items[1..]);
      Separated(Stringify(items[0]), COMMA, StringifyItems(items[1..]));
    }
  }

  lemma {:induction false} FieldsArePrintable(fields: seq<Field>)
    ensures Printable(StringifyFields(fields))
    decreases fields
  {
    hide Printable, Stringify, Quoted;
    AsciiIsPrintable([]);
    if fields != [] {
      QuotedIsPrintable(fields[0].key);
      StringifyIsPrintable(fields[0].value);
      Separated(Quoted(fields[0].key), COLON, Stringify(fields[0].value));
      FieldsArePrintable(fields[1..]);
      Separated(StringifyField(fields[0]), COMMA, StringifyFields(fields[1..]));
    }
  }

  /** What is printed for a value is printable, reads back as it, and is the one shortest printable text
      that does: no needless escape, zero, or space, and nothing else written in its place. */
  lemma StringifyIsTheShortest(v: Value)
    ensures Printable(Stringify(v)) && Parse(Stringify(v)) == Some((v, []))
    ensures forall t :: Printable(t) && Parse(t) == Some((v, [])) ==>
              |Stringify(v)| <= |t| && (|Stringify(v)| == |t| ==> t == Stringify(v))
  {
    hide Printable, Parse, Stringify, NoLonger;
    StringifyIsPrintable(v);
    ParseInvertsStringify(v, []);
    assert Stringify(v) + [] == Stringify(v);
    forall t | Printable(t) && Parse(t) == Some((v, []))
      ensures |Stringify(v)| <= |t| && (|Stringify(v)| == |t| ==> t == Stringify(v))
    {
      ValueNoLonger(t, v, []);
      NothingBehind(Stringify(v), t);
    }
  }

  lemma NothingBehind(p: Text, t: Text)
    requires NoLonger(p, t, [])
    ensures |p| <= |t| && (|p| == |t| ==> t == p)
  {}
}
