/** Unique readability: the parser inverts the printer, and two values share a canonical text
    exactly when they are the same value up to the order of object keys. */
module CanonicalJsonProofs {
  import opened Common
  import opened Numerals
  import opened Utf16
  import opened CanonicalJson

  predicate NoDigitFirst(t: Text) { t == [] || !IsDigitUnit(t[0]) }

  // ---- Strings -------------------------------------------------------------------------

  lemma HexDigitReadsBack(d: nat)
    requires d < 16
    ensures HexValue(HexDigit(d)) == Some(d)
  {}

  lemma HexPlaces(c: Unit)
    ensures c / 4096 < 16
    ensures c / 4096 * 4096 + c / 256 % 16 * 256 + c / 16 % 16 * 16 + c % 16 == c
  {
    assert c / 256 == c / 4096 * 16 + c / 256 % 16;
    assert c / 16 == c / 256 * 16 + c / 16 % 16;
    assert c == c / 16 * 16 + c % 16;
  }

  lemma HexReadsBack(c: Unit, rest: Text)
    ensures ParseEscape(UnicodeEscape(c) + rest) == Some((c, rest))
  {
    hide HexDigit, HexValue;
    var t := UnicodeEscape(c) + rest;
    var a, b, d, e := c / 4096, c / 256 % 16, c / 16 % 16, c % 16;
    HexPlaces(c);
    HexDigitReadsBack(a);
    HexDigitReadsBack(b);
    HexDigitReadsBack(d);
    HexDigitReadsBack(e);
    assert t[1] == 117 && t[2] == HexDigit(a) && t[3] == HexDigit(b) && t[4] == HexDigit(d) && t[5] == HexDigit(e);
    assert t[6..] == rest;
  }

  /** Whatever one unit is printed as, reading the string goes on behind it with that unit read. */
  lemma UnitReadsBack(c: Unit, rest: Text)
    ensures var after := ParseString(rest);
            ParseString(EscapeUnit(c) + rest)
            == if after.None? then None else Some(([c] + after.value.0, after.value.1))
  {
    hide UnicodeEscape;
    if EscapeUnit(c) == [c] {
      PlainReadsOn(c, rest);
    } else {
      EscapeReadsBack(c, rest);
      EscapeStarts(c);
      hide EscapeUnit, ParseEscape;
    }
  }

  lemma EscapeStarts(c: Unit)
    requires EscapeUnit(c) != [c]
    ensures EscapeUnit(c) != [] && EscapeUnit(c)[0] == BACKSLASH
  {}

  lemma EscapeReadsBack(c: Unit, rest: Text)
    requires EscapeUnit(c) != [c]
    ensures EscapeUnit(c) != [] && EscapeUnit(c)[0] == BACKSLASH
    ensures ParseEscape(EscapeUnit(c) + rest) == Some((c, rest))
  {
    hide UnicodeEscape;
    EscapeStarts(c);
    if c == QUOTE || c == BACKSLASH || c in {8, 9, 10, 12, 13} {
      assert (EscapeUnit(c) + rest)[2..] == rest;
    } else {
      HexReadsBack(c, rest);
      hide ParseEscape;
    }
  }

  lemma PlainReadsOn(c: Unit, rest: Text)
    requires c != QUOTE && c != BACKSLASH
    ensures var after := ParseString(rest);
            ParseString([c] + rest) == if after.None? then None else Some(([c] + after.value.0, after.value.1))
  {
    assert ([c] + rest)[1..] == rest;
  }

  lemma QuoteEnds(rest: Text)
    ensures ParseString([QUOTE] + rest) == Some(([], rest))
  {
    assert ([QUOTE] + rest)[1..] == rest;
  }

  lemma {:induction false} StringReadsBack(s: Text, rest: Text)
    ensures ParseString(Escape(s) + ([QUOTE] + rest)) == Some((s, rest))
    decreases |s|
  {
    hide EscapeUnit, ParseString, IsHigh, IsLow;
    var end := [QUOTE] + rest;
    if s == [] {
      assert Escape(s) + end == end;
      QuoteEnds(rest);
    } else if |s| > 1 && IsHigh(s[0]) && IsLow(s[1]) {
      StringReadsBack(s[2..], rest);
      PairReadsBack(s, rest);
    } else {
      StringReadsBack(s[1..], rest);
      var tail := Escape(s[1..]) + end;
      UnitReadsBack(s[0], tail);
      assert Escape(s) + end == EscapeUnit(s[0]) + tail;
      assert [s[0]] + s[1..] == s;
    }
  }

  lemma Regroup(h: Unit, l: Unit, e: Text, end: Text)
    ensures ([h, l] + e) + end == [h] + ([l] + (e + end))
  {}

  lemma TwoPlain(h: Unit, l: Unit, tail: Text, s: Text, rest: Text)
    requires h != QUOTE && h != BACKSLASH && l != QUOTE && l != BACKSLASH
    requires ParseString(tail) == Some((s, rest))
    ensures ParseString([h] + ([l] + tail)) == Some(([h] + ([l] + s), rest))
  {
    hide ParseString;
    PlainReadsOn(l, tail);
    PlainReadsOn(h, [l] + tail);
  }

  lemma PairReadsBack(s: Text, rest: Text)
    requires |s| > 1 && IsHigh(s[0]) && IsLow(s[1])
    requires ParseString(Escape(s[2..]) + ([QUOTE] + rest)) == Some((s[2..], rest))
    ensures ParseString(Escape(s) + ([QUOTE] + rest)) == Some((s, rest))
  {
    hide ParseString, EscapeUnit;
    TwoPlain(s[0], s[1], Escape(s[2..]) + ([QUOTE] + rest), s[2..], rest);
    Regroup(s[0], s[1], Escape(s[2..]), [QUOTE] + rest);
    assert [s[0]] + ([s[1]] + s[2..]) == s;
  }

  lemma QuotedReadsBack(s: Text, rest: Text)
    ensures (Quoted(s) + rest)[0] == QUOTE && ParseString((Quoted(s) + rest)[1..]) == Some((s, rest))
  {
    StringReadsBack(s, rest);
    assert (Quoted(s) + rest)[1..] == Escape(s) + ([QUOTE] + rest);
  }

  // ---- Numbers -------------------------------------------------------------------------

  lemma {:induction false} UnitsValue(s: string)
    requires AllDigits(s)
    ensures |Units(s)| == |s| && forall i :: 0 <= i < |s| ==> IsDigitUnit(Units(s)[i])
    ensures DigitsValue(Units(s)) == ValueOf(s)
  {
    if s != [] {
      var shorter := s[..|s| - 1];
      UnitsValue(shorter);
      assert Units(s)[..|s| - 1] == Units(shorter);
      forall i | 0 <= i < |s| ensures IsDigitUnit(Units(s)[i]) { assert IsDigit(s[i]); }
    }
  }

  lemma {:induction false} DigitsLead(d: Text, rest: Text)
    requires (forall i :: 0 <= i < |d| ==> IsDigitUnit(d[i])) && NoDigitFirst(rest)
    ensures LeadingDigits(d + rest) == |d|
  {
    if d == [] {
      assert d + rest == rest;
    } else {
      DigitsLead(d[1..], rest);
      assert (d + rest)[1..] == d[1..] + rest;
    }
  }

  lemma NaturalReadsBack(n: nat, rest: Text)
    requires NoDigitFirst(rest)
    ensures ParseNatural(Digits(n) + rest) == Some((n, rest))
    ensures Digits(n) != [] && IsDigitUnit(Digits(n)[0])
  {
    DecimalReadsBack(n);
    UnitsValue(Decimal(n));
    DigitsLead(Digits(n), rest);
    var t := Digits(n) + rest;
    assert t[..|Digits(n)|] == Digits(n) && t[|Digits(n)|..] == rest;
  }

  // ---- Values --------------------------------------------------------------------------

  /** A text that starts with a digit, a minus, a quote or a bracket is none of the literals. */
  lemma FirstUnitDecides(t: Text)
    requires t != [] && (IsDigitUnit(t[0]) || t[0] in {MINUS, QUOTE, OPEN_BRACKET, OPEN_BRACE})
    ensures !(NULL_TEXT <= t) && !(TRUE_TEXT <= t) && !(FALSE_TEXT <= t)
  {
    assert NULL_TEXT[0] == 110 && TRUE_TEXT[0] == 116 && FALSE_TEXT[0] == 102;
  }

  lemma LiteralReadsBack(v: Value, rest: Text)
    requires v.Null? || v.Bool?
    ensures Parse(Stringify(v) + rest) == Some((v, rest))
  {
    var text := Stringify(v);
    var t := text + rest;
    assert t[..|text|] == text && t[|text|..] == rest;
    assert t[0] == text[0];
    assert text <= t;
    assert NULL_TEXT[0] == 110 && TRUE_TEXT[0] == 116 && FALSE_TEXT[0] == 102;
  }

  lemma NaturalValueReadsBack(n: nat, rest: Text)
    requires NoDigitFirst(rest)
    ensures Parse(Digits(n) + rest) == Some((Number(n), rest))
  {
    hide Digits, ParseNatural, ParseString, ParseItems, ParseFields;
    var t := Digits(n) + rest;
    NaturalReadsBack(n, rest);
    assert t[0] == Digits(n)[0];
    FirstUnitDecides(t);
  }

  lemma NegativeReadsBack(n: nat, rest: Text)
    requires NoDigitFirst(rest) && n > 0
    ensures Parse([MINUS] + Digits(n) + rest) == Some((Negated(n), rest))
  {
    hide Digits, ParseNatural, ParseString, ParseItems, ParseFields;
    var t := [MINUS] + Digits(n) + rest;
    NaturalReadsBack(n, rest);
    assert t[1..] == Digits(n) + rest;
    FirstUnitDecides(t);
  }

  lemma NumberReadsBack(n: int, rest: Text)
    requires NoDigitFirst(rest)
    ensures Parse(IntegerText(n) + rest) == Some((Number(n), rest))
  {
    hide Digits, Parse;
    if n < 0 { NegativeReadsBack(-n, rest); } else { NaturalValueReadsBack(n, rest); }
  }

  /** Printed values start with none of the closing or separating marks. */
  lemma StringifyStarts(v: Value)
    ensures Stringify(v) != [] && Stringify(v)[0] !in {CLOSE_BRACKET, CLOSE_BRACE, COMMA, COLON}
  {
    match v
    case Number(n) => NaturalReadsBack(if n < 0 then -n else n, []);
    case _ =>
  }

  lemma EmptyArrayReadsBack(rest: Text)
    ensures Parse(Stringify(Array([])) + rest) == Some((Array([]), rest))
  {
    var t := [OPEN_BRACKET, CLOSE_BRACKET] + rest;
    assert Stringify(Array([])) == [OPEN_BRACKET, CLOSE_BRACKET];
    hide Stringify;
    FirstUnitDecides(t);
    assert t[2..] == rest;
  }

  lemma EmptyObjectReadsBack(rest: Text)
    ensures Parse(Stringify(Object([])) + rest) == Some((Object([]), rest))
  {
    var t := [OPEN_BRACE, CLOSE_BRACE] + rest;
    assert Stringify(Object([])) == [OPEN_BRACE, CLOSE_BRACE];
    hide Stringify;
    FirstUnitDecides(t);
    assert t[2..] == rest;
  }

  lemma ArrayReadsBack(items: seq<Value>, rest: Text)
    requires items != [] && ParseItems(StringifyItems(items) + [CLOSE_BRACKET] + rest) == Some((items, rest))
    ensures Parse(Stringify(Array(items)) + rest) == Some((Array(items), rest))
  {
    hide StringifyItems, ParseItems, ParseFields, ParseString, ParseNatural;
    var t := Stringify(Array(items)) + rest;
    FirstUnitDecides(t);
    assert t[1..] == StringifyItems(items) + [CLOSE_BRACKET] + rest;
    ItemsStart(items);
    assert t[1] == StringifyItems(items)[0];
  }

  lemma ObjectReadsBack(fields: seq<Field>, rest: Text)
    requires fields != [] && ParseFields(StringifyFields(fields) + [CLOSE_BRACE] + rest) == Some((fields, rest))
    ensures Parse(Stringify(Object(fields)) + rest) == Some((Object(fields), rest))
  {
    hide StringifyFields, ParseItems, ParseFields, ParseString, ParseNatural;
    var t := Stringify(Object(fields)) + rest;
    FirstUnitDecides(t);
    assert t[1..] == StringifyFields(fields) + [CLOSE_BRACE] + rest;
    FieldsStart(fields);
    assert t[1] == StringifyFields(fields)[0];
  }

  lemma StrReadsBack(s: Text, rest: Text)
    ensures Parse(Stringify(Str(s)) + rest) == Some((Str(s), rest))
  {
    var t := Quoted(s) + rest;
    assert t != [];
    hide Quoted, ParseString, ParseItems, ParseFields, ParseNatural;
    assert Stringify(Str(s)) == Quoted(s);
    QuotedReadsBack(s, rest);
    FirstUnitDecides(t);
  }

  lemma NumberIsPrinted(n: int)
    ensures Stringify(Number(n)) == IntegerText(n)
  {}

  /** The parser undoes the printer in front of any text that cannot continue a number. */
  lemma {:induction false} ParseInvertsStringify(v: Value, rest: Text)
    requires NoDigitFirst(rest)
    ensures Parse(Stringify(v) + rest) == Some((v, rest))
    decreases v, 0
  {
    hide Parse, Stringify;
    match v
    case Null => LiteralReadsBack(v, rest);
    case Bool(_) => LiteralReadsBack(v, rest);
    case Number(n) =>
      NumberReadsBack(n, rest);
      NumberIsPrinted(n);
    case Str(s) => StrReadsBack(s, rest);
    case Array(items) =>
      if items == [] {
        EmptyArrayReadsBack(rest);
      } else {
        ItemsReadBack(items, rest);
        ArrayReadsBack(items, rest);
      }
    case Object(fields) =>
      if fields == [] {
        EmptyObjectReadsBack(rest);
      } else {
        FieldsReadBack(fields, rest);
        ObjectReadsBack(fields, rest);
      }
  }

  lemma ItemsStart(items: seq<Value>)
    requires items != []
    ensures StringifyItems(items) != [] && StringifyItems(items)[0] != CLOSE_BRACKET
  {
    hide Stringify;
    StringifyStarts(items[0]);
  }

  lemma FieldsStart(fields: seq<Field>)
    requires fields != []
    ensures StringifyFields(fields) != [] && StringifyFields(fields)[0] == QUOTE
  {
    hide Stringify, Escape;
  }

  lemma LastItem(t: Text, x: Value, rest: Text)
    requires Parse(t) == Some((x, [CLOSE_BRACKET] + rest))
    ensures ParseItems(t) == Some(([x], rest))
  {
    hide Parse;
    assert ([CLOSE_BRACKET] + rest)[1..] == rest;
  }

  lemma NextItem(t: Text, x: Value, inner: Text, xs: seq<Value>, rest: Text)
    requires Parse(t) == Some((x, [COMMA] + inner)) && ParseItems(inner) == Some((xs, rest))
    ensures ParseItems(t) == Some(([x] + xs, rest))
  {
    hide Parse;
    assert ([COMMA] + inner)[1..] == inner;
  }

  lemma {:induction false} ItemsReadBack(items: seq<Value>, rest: Text)
    requires items != []
    ensures ParseItems(StringifyItems(items) + [CLOSE_BRACKET] + rest) == Some((items, rest))
    decreases items
  {
    hide Stringify, Parse, ParseItems;
    var t := StringifyItems(items) + [CLOSE_BRACKET] + rest;
    if |items| == 1 {
      var tail := [CLOSE_BRACKET] + rest;
      ParseInvertsStringify(items[0], tail);
      assert t == Stringify(items[0]) + tail;
      LastItem(t, items[0], rest);
      assert items == [items[0]];
    } else {
      ItemsReadBack(items[1..], rest);
      var inner := StringifyItems(items[1..]) + [CLOSE_BRACKET] + rest;
      ParseInvertsStringify(items[0], [COMMA] + inner);
      assert t == Stringify(items[0]) + ([COMMA] + inner);
      NextItem(t, items[0], inner, items[1..], rest);
      assert items == [items[0]] + items[1..];
    }
  }

  lemma {:induction false} FieldReadsBack(f: Field, rest: Text)
    requires NoDigitFirst(rest)
    ensures ParseField(StringifyField(f) + rest) == Some((f, rest))
    decreases f
  {
    hide Stringify, Parse, Quoted;
    var t := StringifyField(f) + rest;
    var tail := [COLON] + (Stringify(f.value) + rest);
    ParseInvertsStringify(f.value, rest);
    assert t == Quoted(f.key) + tail;
    QuotedReadsBack(f.key, tail);
    assert tail[1..] == Stringify(f.value) + rest;
  }

  lemma LastField(t: Text, f: Field, rest: Text)
    requires ParseField(t) == Some((f, [CLOSE_BRACE] + rest))
    ensures ParseFields(t) == Some(([f], rest))
  {
    hide ParseField;
    assert ([CLOSE_BRACE] + rest)[1..] == rest;
  }

  lemma NextField(t: Text, f: Field, inner: Text, fs: seq<Field>, rest: Text)
    requires ParseField(t) == Some((f, [COMMA] + inner)) && ParseFields(inner) == Some((fs, rest))
    ensures ParseFields(t) == Some(([f] + fs, rest))
  {
    hide ParseField;
    assert ([COMMA] + inner)[1..] == inner;
  }

  lemma {:induction false} FieldsReadBack(fields: seq<Field>, rest: Text)
    requires fields != []
    ensures ParseFields(StringifyFields(fields) + [CLOSE_BRACE] + rest) == Some((fields, rest))
    decreases fields
  {
    hide StringifyField, ParseField, ParseFields;
    var t := StringifyFields(fields) + [CLOSE_BRACE] + rest;
    if |fields| == 1 {
      var tail := [CLOSE_BRACE] + rest;
      FieldReadsBack(fields[0], tail);
      assert t == StringifyField(fields[0]) + tail;
      LastField(t, fields[0], rest);
      assert fields == [fields[0]];
    } else {
      FieldsReadBack(fields[1..], rest);
      var inner := StringifyFields(fields[1..]) + [CLOSE_BRACE] + rest;
      FieldReadsBack(fields[0], [COMMA] + inner);
      assert t == StringifyField(fields[0]) + ([COMMA] + inner);
      NextField(t, fields[0], inner, fields[1..], rest);
      assert fields == [fields[0]] + fields[1..];
    }
  }

  // ---- Canonical form ------------------------------------------------------------------

  /** The same value, whatever order objects list their keys in. */
  predicate Same(v: Value, w: Value)
    decreases v
  {
    match v
    case Array(items) =>
      && w.Array? && |w.items| == |items|
      && forall i :: 0 <= i < |items| ==> Same(items[i], w.items[i])
    case Object(fields) =>
      && w.Object? && SameKeys(fields, w.fields)
      && forall i :: 0 <= i < |fields| && fields[i].key in Keys(w.fields) ==>
           Same(fields[i].value, Lookup(w, fields[i].key))
    case _ => v == w
  }

  predicate SameKeys(fields: seq<Field>, others: seq<Field>) {
    (forall key <- Keys(fields) :: key in Keys(others)) && forall key <- Keys(others) :: key in Keys(fields)
  }

  /** The value with every object's fields sorted. */
  function Canon(v: Value): Value
    decreases v, 1, 0
  {
    match v
    case Array(items) => Array(CanonItems(items))
    case Object(fields) =>
      SortOfSameKeys(Keys(fields));
      Object(CanonFields(v, Sort(Keys(fields))))
    case _ => v
  }

  function CanonItems(items: seq<Value>): (r: seq<Value>)
    ensures |r| == |items|
    decreases items, 0, 0
  {
    if items == [] then [] else [Canon(items[0])] + CanonItems(items[1..])
  }

  function CanonFields(v: Value, keys: seq<Text>): (r: seq<Field>)
    requires v.Object? && forall key <- keys :: key in Keys(v.fields)
    ensures |r| == |keys| && forall i :: 0 <= i < |keys| ==> r[i].key == keys[i]
    decreases v, 0, |keys|
  {
    if keys == [] then []
    else [Field(keys[0], Canon(Lookup(v, keys[0])))] + CanonFields(v, keys[1..])
  }

  /** `canonicalJson` prints the sorted value. */
  lemma {:induction false} CanonicalPrintsCanon(v: Value)
    ensures Canonical(v) == Stringify(Canon(v))
    decreases v, 1, 0
  {
    match v
    case Array(items) => CanonicalPrintsItems(items);
    case Object(fields) =>
      SortOfSameKeys(Keys(fields));
      CanonicalPrintsFields(v, Sort(Keys(fields)));
    case _ =>
  }

  lemma {:induction false} CanonicalPrintsItems(items: seq<Value>)
    ensures CanonicalItems(items) == StringifyItems(CanonItems(items))
    decreases items, 0, 0
  {
    hide Canonical, Stringify, Canon;
    if items != [] {
      CanonicalPrintsCanon(items[0]);
      CanonicalPrintsItems(items[1..]);
      assert CanonItems(items)[1..] == CanonItems(items[1..]);
    }
  }

  lemma {:induction false} CanonicalPrintsFields(v: Value, keys: seq<Text>)
    requires v.Object? && forall key <- keys :: key in Keys(v.fields)
    ensures CanonicalFields(v, keys) == StringifyFields(CanonFields(v, keys))
    decreases v, 0, |keys|
  {
    hide Canonical, Stringify, Canon, Quoted;
    if keys != [] {
      CanonicalPrintsCanon(Lookup(v, keys[0]));
      CanonicalPrintsFields(v, keys[1..]);
      assert CanonFields(v, keys)[1..] == CanonFields(v, keys[1..]);
    }
  }

  lemma StringifyInjective(v: Value, w: Value)
    requires Stringify(v) == Stringify(w)
    ensures v == w
  {
    hide Stringify, Parse;
    ParseInvertsStringify(v, []);
    ParseInvertsStringify(w, []);
  }

  lemma {:induction false} CanonItemAt(items: seq<Value>, i: nat)
    requires i < |items|
    ensures CanonItems(items)[i] == Canon(items[i])
  {
    hide Canon;
    if i > 0 { CanonItemAt(items[1..], i - 1); }
  }

  lemma {:induction false} CanonFieldAt(v: Value, keys: seq<Text>, i: nat)
    requires v.Object? && (forall key <- keys :: key in Keys(v.fields)) && i < |keys|
    ensures CanonFields(v, keys)[i] == Field(keys[i], Canon(Lookup(v, keys[i])))
    decreases |keys|
  {
    hide Canon;
    if i > 0 { CanonFieldAt(v, keys[1..], i - 1); }
  }

  lemma SameKeysSortAlike(fields: seq<Field>, others: seq<Field>)
    requires WellFormed(Object(fields)) && WellFormed(Object(others))
    ensures SameKeys(fields, others) <==> Sort(Keys(fields)) == Sort(Keys(others))
  {
    hide Sort;
    SortSorts(Keys(fields));
    SortSorts(Keys(others));
    if SameKeys(fields, others) { SortedIsUnique(Sort(Keys(fields)), Sort(Keys(others))); }
  }

  lemma FieldIsLookedUp(fields: seq<Field>, i: nat)
    requires WellFormed(Object(fields)) && i < |fields|
    ensures fields[i].key in Keys(fields) && Lookup(Object(fields), fields[i].key) == fields[i].value
  {
    assert Keys(fields)[i] == fields[i].key;
  }

  /** Sorted forms agree exactly when the values are the same up to key order. */
  lemma {:induction false} CanonDecidesSame(v: Value, w: Value)
    requires WellFormed(v) && WellFormed(w)
    ensures Canon(v) == Canon(w) <==> Same(v, w)
    decreases v
  {
    if v.Array? && w.Array? && |v.items| == |w.items| {
      CanonDecidesItems(v, w);
    } else if v.Object? && w.Object? {
      CanonDecidesFields(v, w);
    }
  }

  lemma {:induction false} CanonDecidesItems(v: Value, w: Value)
    requires WellFormed(v) && WellFormed(w) && v.Array? && w.Array? && |v.items| == |w.items|
    ensures Canon(v) == Canon(w) <==> Same(v, w)
    decreases v, 0
  {
    var n := |v.items|;
    forall i | 0 <= i < n
      ensures CanonItems(v.items)[i] == CanonItems(w.items)[i] <==> Same(v.items[i], w.items[i])
    {
      hide Canon, Same;
      CanonItemAt(v.items, i);
      CanonItemAt(w.items, i);
      CanonDecidesSame(v.items[i], w.items[i]);
    }
    hide CanonItems;
    assert CanonItems(v.items) == CanonItems(w.items) <==>
           forall i :: 0 <= i < n ==> CanonItems(v.items)[i] == CanonItems(w.items)[i];
  }

  lemma {:induction false} CanonDecidesFields(v: Value, w: Value)
    requires WellFormed(v) && WellFormed(w) && v.Object? && w.Object?
    ensures Canon(v) == Canon(w) <==> Same(v, w)
    decreases v, 0
  {
    if SameKeys(v.fields, w.fields) {
      forall i | 0 <= i < |v.fields|
        ensures v.fields[i].key in Keys(w.fields) && v.fields[i].key in Keys(v.fields)
        ensures Canon(Lookup(v, v.fields[i].key)) == Canon(Lookup(w, v.fields[i].key)) <==>
                Same(v.fields[i].value, Lookup(w, v.fields[i].key))
      {
        hide Canon, Same, Keys, SameKeys, Lookup;
        FieldOfBoth(v, w, i);
        CanonDecidesSame(v.fields[i].value, Lookup(w, v.fields[i].key));
      }
      hide Canon, Same, WellFormed, SameKeys, Lookup, Keys;
      SameKeysDecide(v, w);
    } else {
      DifferentKeysDecide(v, w);
    }
  }

  lemma DifferentKeysDecide(v: Value, w: Value)
    requires WellFormed(v) && WellFormed(w) && v.Object? && w.Object? && !SameKeys(v.fields, w.fields)
    ensures Canon(v) != Canon(w) && !Same(v, w)
  {
    hide Sort, SameKeys, Keys, CanonFields, WellFormed;
    SameKeysSortAlike(v.fields, w.fields);
    SortOfSameKeys(Keys(v.fields));
    SortOfSameKeys(Keys(w.fields));
    var keys, others := Sort(Keys(v.fields)), Sort(Keys(w.fields));
    DifferentKeysShow(CanonFields(v, keys), keys, CanonFields(w, others), others);
  }

  lemma FieldsAgreeWhereValuesDo(v: Value, w: Value, keys: seq<Text>)
    requires v.Object? && w.Object?
    requires forall key <- keys :: key in Keys(v.fields) && key in Keys(w.fields)
    ensures forall j :: 0 <= j < |keys| ==>
              (CanonFields(v, keys)[j] == CanonFields(w, keys)[j] <==>
               Canon(Lookup(v, keys[j])) == Canon(Lookup(w, keys[j])))
  {
    hide Canon, CanonFields, Lookup, Keys;
    forall j | 0 <= j < |keys|
      ensures CanonFields(v, keys)[j] == CanonFields(w, keys)[j] <==>
              Canon(Lookup(v, keys[j])) == Canon(Lookup(w, keys[j]))
    {
      CanonFieldAt(v, keys, j);
      CanonFieldAt(w, keys, j);
    }
  }

  lemma CanonOfObject(v: Value)
    requires v.Object?
    ensures forall key <- Sort(Keys(v.fields)) :: key in Keys(v.fields)
    ensures Canon(v) == Object(CanonFields(v, Sort(Keys(v.fields))))
  {
    SortOfSameKeys(Keys(v.fields));
  }

  lemma KnownFieldwise(v: Value, w: Value, keys: seq<Text>)
    requires v.Object? && w.Object?
    requires forall key <- keys :: key in Keys(v.fields) && key in Keys(w.fields)
    requires forall i :: 0 <= i < |v.fields| ==>
               && v.fields[i].key in keys && v.fields[i].key in Keys(w.fields) && v.fields[i].key in Keys(v.fields)
               && (Canon(Lookup(v, v.fields[i].key)) == Canon(Lookup(w, v.fields[i].key)) <==>
                   Same(v.fields[i].value, Lookup(w, v.fields[i].key)))
    ensures FieldwiseKnown(v, w, keys, CanonFields(v, keys), CanonFields(w, keys))
  {
    hide Keys, CanonFields, Lookup, Same, Canon;
    FieldsAgreeWhereValuesDo(v, w, keys);
  }

  lemma SameKeysDecide(v: Value, w: Value)
    requires WellFormed(v) && WellFormed(w) && v.Object? && w.Object? && SameKeys(v.fields, w.fields)
    requires forall i :: 0 <= i < |v.fields| ==>
               && v.fields[i].key in Keys(w.fields) && v.fields[i].key in Keys(v.fields)
               && (Canon(Lookup(v, v.fields[i].key)) == Canon(Lookup(w, v.fields[i].key)) <==>
                   Same(v.fields[i].value, Lookup(w, v.fields[i].key)))
    ensures Canon(v) == Canon(w) <==> Same(v, w)
  {
    hide Sort, Keys, WellFormed, SameKeys, CanonFields, Lookup, Same, Canon, FieldwiseKnown;
    SameKeysSortAlike(v.fields, w.fields);
    SortOfSameKeys(Keys(v.fields));
    SortOfSameKeys(Keys(w.fields));
    CanonOfObject(v);
    CanonOfObject(w);
    var keys := Sort(Keys(v.fields));
    KnownFieldwise(v, w, keys);
    FieldwiseSame(v, w, keys, CanonFields(v, keys), CanonFields(w, keys));
  }

  lemma DifferentKeysShow(a: seq<Field>, keys: seq<Text>, b: seq<Field>, others: seq<Text>)
    requires keys != others && |a| == |keys| && |b| == |others|
    requires forall i :: 0 <= i < |a| ==> a[i].key == keys[i]
    requires forall i :: 0 <= i < |b| ==> b[i].key == others[i]
    ensures a != b
  {
    if |keys| == |others| {
      var i :| 0 <= i < |keys| && keys[i] != others[i];
      assert a[i] != b[i];
    }
  }

  lemma FieldOfBoth(v: Value, w: Value, i: nat)
    requires v.Object? && w.Object? && WellFormed(v) && WellFormed(w) && SameKeys(v.fields, w.fields) && i < |v.fields|
    ensures v.fields[i].key in Keys(v.fields) && v.fields[i].key in Keys(w.fields)
    ensures Lookup(v, v.fields[i].key) == v.fields[i].value
    ensures WellFormed(v.fields[i].value) && WellFormed(Lookup(w, v.fields[i].key))
  {
    FieldIsLookedUp(v.fields, i);
  }

  /** What `CanonDecidesFields` knows of two objects with the same keys. */
  predicate FieldwiseKnown(v: Value, w: Value, keys: seq<Text>, a: seq<Field>, b: seq<Field>)
    requires v.Object? && w.Object?
  {
    && |a| == |b| == |keys|
    && (forall key <- keys :: key in Keys(v.fields) && key in Keys(w.fields))
    && (forall i :: 0 <= i < |v.fields| ==>
          && v.fields[i].key in keys
          && v.fields[i].key in Keys(w.fields) && v.fields[i].key in Keys(v.fields)
          && (Canon(Lookup(v, v.fields[i].key)) == Canon(Lookup(w, v.fields[i].key)) <==>
              Same(v.fields[i].value, Lookup(w, v.fields[i].key))))
    && (forall j :: 0 <= j < |keys| ==>
          (a[j] == b[j] <==> Canon(Lookup(v, keys[j])) == Canon(Lookup(w, keys[j]))))
  }

  /** Key by key agreement, listed in insertion order or sorted. */
  lemma FieldwiseSame(v: Value, w: Value, keys: seq<Text>, a: seq<Field>, b: seq<Field>)
    requires v.Object? && w.Object? && SameKeys(v.fields, w.fields) && FieldwiseKnown(v, w, keys, a, b)
    ensures a == b <==> Same(v, w)
  {
    hide Canon, Lookup, SameKeys, Keys;
    if a == b {
      SortedAgree(v, w, keys, a, b);
    } else {
      SortedDiffer(v, w, keys, a, b);
    }
  }

  lemma SortedAgree(v: Value, w: Value, keys: seq<Text>, a: seq<Field>, b: seq<Field>)
    requires v.Object? && w.Object? && FieldwiseKnown(v, w, keys, a, b) && a == b
    ensures forall i :: 0 <= i < |v.fields| && v.fields[i].key in Keys(w.fields) ==>
              Same(v.fields[i].value, Lookup(w, v.fields[i].key))
  {
    hide Canon, Lookup, SameKeys, Keys, Same;
    forall i | 0 <= i < |v.fields| ensures Same(v.fields[i].value, Lookup(w, v.fields[i].key)) {
      var j :| 0 <= j < |keys| && keys[j] == v.fields[i].key;
      assert a[j] == b[j];
    }
  }

  lemma SortedDiffer(v: Value, w: Value, keys: seq<Text>, a: seq<Field>, b: seq<Field>)
    requires v.Object? && w.Object? && FieldwiseKnown(v, w, keys, a, b) && a != b
    ensures exists i :: && 0 <= i < |v.fields| && v.fields[i].key in Keys(w.fields)
                        && !Same(v.fields[i].value, Lookup(w, v.fields[i].key))
  {
    hide Canon, Lookup, SameKeys, Same;
    var j :| 0 <= j < |keys| && a[j] != b[j];
    assert keys[j] in keys;
    var i :| 0 <= i < |v.fields| && v.fields[i].key == keys[j];
    hide Keys;
  }

  /** Unique readability: canonical texts are equal exactly for the same value up to key order. */
  lemma CanonicalTextIsUnique(v: Value, w: Value)
    requires WellFormed(v) && WellFormed(w)
    ensures Canonical(v) == Canonical(w) <==> Same(v, w)
  {
    hide Canonical, Stringify, Canon, Same;
    CanonicalPrintsCanon(v);
    CanonicalPrintsCanon(w);
    CanonDecidesSame(v, w);
    if Canonical(v) == Canonical(w) { StringifyInjective(Canon(v), Canon(w)); }
  }

  /** Reading canonical text back yields the same value, in front of anything but more digits. */
  lemma CanonicalReadsBack(v: Value, rest: Text)
    requires NoDigitFirst(rest)
    ensures Parse(Canonical(v) + rest) == Some((Canon(v), rest))
  {
    hide Canonical, Stringify, Canon, Parse;
    CanonicalPrintsCanon(v);
    ParseInvertsStringify(Canon(v), rest);
  }

  // ---- Execution keys ------------------------------------------------------------------

  function ExecutionKey(deliveryId: string, executionAttempt: nat): string {
    deliveryId + ":" + Decimal(executionAttempt)
  }

  lemma LastColonSplits(s: string, x: string, t: string, y: string)
    requires s + ":" + x == t + ":" + y && AllDigits(x) && AllDigits(y)
    ensures s == t && x == y
  {
    var a, b := s + ":" + x, t + ":" + y;
    assert a[|s|] == ':' && b[|t|] == ':';
    forall i | |s| < i < |a| ensures a[i] != ':' { assert a[i] == x[i - |s| - 1] && x[i - |s| - 1] in x; }
    forall i | |t| < i < |b| ensures b[i] != ':' { assert b[i] == y[i - |t| - 1] && y[i - |t| - 1] in y; }
    assert |s| == |t|;
    assert s == a[..|s|] && t == b[..|t|] && x == a[|s| + 1..] && y == b[|t| + 1..];
  }

  /** An execution key names one delivery and one attempt, whatever characters a delivery id has. */
  lemma ExecutionKeyIsInjective(d1: string, n1: nat, d2: string, n2: nat)
    ensures ExecutionKey(d1, n1) == ExecutionKey(d2, n2) <==> d1 == d2 && n1 == n2
  {
    DecimalReadsBack(n1);
    DecimalReadsBack(n2);
    if ExecutionKey(d1, n1) == ExecutionKey(d2, n2) {
      LastColonSplits(d1, Decimal(n1), d2, Decimal(n2));
      DecimalInjective(n1, n2);
    }
  }
}
