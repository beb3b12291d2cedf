/** Canonical JSON: objects printed with their keys sorted, everything else as `JSON.stringify`
    prints it, and a parser that inverts the printer in front of any text. */
module CanonicalJson {
  import opened Common
  import opened Numerals
  import opened Utf16

  /** JSON values with integer numbers; `fields` lists an object's properties in insertion order. */
  datatype Value =
    | Null
    | Bool(b: bool)
    | Number(n: int)
    | Str(s: Text)
    | Array(items: seq<Value>)
    | Object(fields: seq<Field>)

  datatype Field = Field(key: Text, value: Value)

  function Keys(fields: seq<Field>): seq<Text> { seq(|fields|, i requires 0 <= i < |fields| => fields[i].key) }

  /** An object has each key once. */
  predicate WellFormed(v: Value) {
    match v
    case Array(items) => forall i :: 0 <= i < |items| ==> WellFormed(items[i])
    case Object(fields) =>
      && (forall i, j :: 0 <= i < j < |fields| ==> fields[i].key != fields[j].key)
      && forall i :: 0 <= i < |fields| ==> WellFormed(fields[i].value)
    case _ => true
  }

  /** `object[key]`. */
  function Lookup(v: Value, key: Text): (r: Value)
    requires v.Object? && key in Keys(v.fields)
    ensures exists i :: 0 <= i < |v.fields| && v.fields[i] == Field(key, r)
  {
    FieldAt(v.fields, key).value
  }

  function FieldAt(fields: seq<Field>, key: Text): (f: Field)
    requires key in Keys(fields)
    ensures f in fields && f.key == key
  {
    if fields[0].key == key then fields[0]
    else
      assert key in Keys(fields[1..]) by {
        var i :| 0 <= i < |fields| && Keys(fields)[i] == key;
        assert Keys(fields[1..])[i - 1] == key;
      }
      FieldAt(fields[1..], key)
  }

  // ---- Strings and numbers -------------------------------------------------------------

  function HexDigit(d: nat): (c: Unit)
    requires d < 16
  {
    if d < 10 then 48 + d else 87 + d
  }

  function UnicodeEscape(c: Unit): Text {
    [BACKSLASH, 117, HexDigit(c / 4096), HexDigit(c / 256 % 16), HexDigit(c / 16 % 16), HexDigit(c % 16)]
  }

  /** One unit that is not half of a surrogate pair. */
  function EscapeUnit(c: Unit): Text {
    if c == QUOTE || c == BACKSLASH then [BACKSLASH, c]
    else if c == 8 then [BACKSLASH, 98]
    else if c == 9 then [BACKSLASH, 116]
    else if c == 10 then [BACKSLASH, 110]
    else if c == 12 then [BACKSLASH, 102]
    else if c == 13 then [BACKSLASH, 114]
    else if c < 32 || IsHigh(c) || IsLow(c) then UnicodeEscape(c)
    else [c]
  }

  function Escape(s: Text): Text {
    if s == [] then []
    else if |s| > 1 && IsHigh(s[0]) && IsLow(s[1]) then [s[0], s[1]] + Escape(s[2..])
    else EscapeUnit(s[0]) + Escape(s[1..])
  }

  function Quoted(s: Text): Text { [QUOTE] + Escape(s) + [QUOTE] }

  function DigitUnit(c: char): Unit
    requires IsDigit(c)
  {
    c as int
  }

  function Units(s: string): Text
    requires AllDigits(s)
  {
    seq(|s|, i requires 0 <= i < |s| => DigitUnit(s[i]))
  }

  function Digits(n: nat): Text {
    DecimalReadsBack(n);
    Units(Decimal(n))
  }

  const MINUS: Unit := 45

  function IntegerText(n: int): Text { if n < 0 then [MINUS] + Digits(-n) else Digits(n) }

  const NULL_TEXT: Text := [110, 117, 108, 108]
  const TRUE_TEXT: Text := [116, 114, 117, 101]
  const FALSE_TEXT: Text := [102, 97, 108, 115, 101]
  const COMMA: Unit := 44
  const COLON: Unit := 58
  const OPEN_BRACKET: Unit := 91
  const CLOSE_BRACKET: Unit := 93
  const OPEN_BRACE: Unit := 123
  const CLOSE_BRACE: Unit := 125

  // ---- Printing ------------------------------------------------------------------------

  /** `JSON.stringify`: fields in the order they are listed. */
  function Stringify(v: Value): Text {
    match v
    case Null => NULL_TEXT
    case Bool(b) => if b then TRUE_TEXT else FALSE_TEXT
    case Number(n) => IntegerText(n)
    case Str(s) => Quoted(s)
    case Array(items) => [OPEN_BRACKET] + StringifyItems(items) + [CLOSE_BRACKET]
    case Object(fields) => [OPEN_BRACE] + StringifyFields(fields) + [CLOSE_BRACE]
  }

  function StringifyItems(items: seq<Value>): Text {
    if items == [] then []
    else if |items| == 1 then Stringify(items[0])
    else Stringify(items[0]) + [COMMA] + StringifyItems(items[1..])
  }

  function StringifyField(f: Field): Text { Quoted(f.key) + [COLON] + Stringify(f.value) }

  function StringifyFields(fields: seq<Field>): Text {
    if fields == [] then []
    else if |fields| == 1 then StringifyField(fields[0])
    else StringifyField(fields[0]) + [COMMA] + StringifyFields(fields[1..])
  }

  /** `canonicalJson`: at every object, the keys are sorted and their values looked up. */
  function Canonical(v: Value): Text
    decreases v, 1, 0
  {
    match v
    case Array(items) => [OPEN_BRACKET] + CanonicalItems(items) + [CLOSE_BRACKET]
    case Object(fields) =>
      SortOfSameKeys(Keys(fields));
      [OPEN_BRACE] + CanonicalFields(v, Sort(Keys(fields))) + [CLOSE_BRACE]
    case _ => Stringify(v)
  }

  function CanonicalItems(items: seq<Value>): Text
    decreases items, 0, 0
  {
    if items == [] then []
    else if |items| == 1 then Canonical(items[0])
    else Canonical(items[0]) + [COMMA] + CanonicalItems(items[1..])
  }

  function CanonicalFields(v: Value, keys: seq<Text>): Text
    requires v.Object? && forall key <- keys :: key in Keys(v.fields)
    decreases v, 0, |keys|
  {
    if keys == [] then []
    else
      var first := Quoted(keys[0]) + [COLON] + Canonical(Lookup(v, keys[0]));
      if |keys| == 1 then first else first + [COMMA] + CanonicalFields(v, keys[1..])
  }

  lemma {:induction false} SortOfSameKeys(s: seq<Text>)
    ensures forall y :: y in Sort(s) <==> y in s
  {
    if s != [] {
      SortOfSameKeys(s[1..]);
      forall y ensures y in Sort(s) <==> y in s {
        InsertAdds(s[0], Sort(s[1..]), y);
        assert s == [s[0]] + s[1..];
      }
    }
  }

  // ---- Parsing -------------------------------------------------------------------------

  type Parsed<T> = Option<(T, Text)>

  predicate IsDigitUnit(c: Unit) { 48 <= c <= 57 }

  function HexValue(c: Unit): Option<nat> {
    if 48 <= c <= 57 then Some(c - 48) else if 97 <= c <= 102 then Some(c - 87) else None
  }

  /** The unit an escape sequence stands for, and what follows it. */
  function ParseEscape(t: Text): (r: Parsed<Unit>)
    requires t != [] && t[0] == BACKSLASH
    ensures r.Some? ==> |r.value.1| < |t|
  {
    if |t| < 2 then None
    else if t[1] == QUOTE || t[1] == BACKSLASH then Some((t[1], t[2..]))
    else if t[1] == 98 then Some((8, t[2..]))
    else if t[1] == 116 then Some((9, t[2..]))
    else if t[1] == 110 then Some((10, t[2..]))
    else if t[1] == 102 then Some((12, t[2..]))
    else if t[1] == 114 then Some((13, t[2..]))
    else if t[1] != 117 || |t| < 6 then None
    else
      var a, b, c, d := HexValue(t[2]), HexValue(t[3]), HexValue(t[4]), HexValue(t[5]);
      if a.None? || b.None? || c.None? || d.None? then None
      else Some((a.value * 4096 + b.value * 256 + c.value * 16 + d.value, t[6..]))
  }

  /** String contents up to the closing quote. */
  function ParseString(t: Text): (r: Parsed<Text>)
    ensures r.Some? ==> |r.value.1| < |t|
    decreases |t|
  {
    if t == [] then None
    else if t[0] == QUOTE then Some(([], t[1..]))
    else
      var unit: Parsed<Unit> := if t[0] == BACKSLASH then ParseEscape(t) else Some((t[0], t[1..]));
      if unit.None? then None
      else
        var rest := ParseString(unit.value.1);
        if rest.None? then None else Some(([unit.value.0] + rest.value.0, rest.value.1))
  }

  function LeadingDigits(t: Text): (k: nat)
    ensures k <= |t| && forall i :: 0 <= i < k ==> IsDigitUnit(t[i])
  {
    if t == [] || !IsDigitUnit(t[0]) then 0 else 1 + LeadingDigits(t[1..])
  }

  function DigitUnitValue(c: Unit): nat
    requires IsDigitUnit(c)
  {
    var n: int := c;
    n - 48
  }

  function DigitsValue(t: Text): nat
    requires forall i :: 0 <= i < |t| ==> IsDigitUnit(t[i])
  {
    if t == [] then 0 else DigitsValue(t[..|t| - 1]) * 10 + DigitUnitValue(t[|t| - 1])
  }

  function ParseNatural(t: Text): (r: Parsed<nat>)
    ensures r.Some? ==> |r.value.1| < |t|
  {
    var k := LeadingDigits(t);
    if k == 0 then None else Some((DigitsValue(t[..k]), t[k..]))
  }

  function Negated(n: nat): Value { Number(0 - n) }

  function Parse(t: Text): (r: Parsed<Value>)
    ensures r.Some? ==> |r.value.1| < |t|
    decreases |t|, 1
  {
    if t == [] then None
    else if NULL_TEXT <= t then Some((Null, t[4..]))
    else if TRUE_TEXT <= t then Some((Bool(true), t[4..]))
    else if FALSE_TEXT <= t then Some((Bool(false), t[5..]))
    else if t[0] == QUOTE then
      var s := ParseString(t[1..]);
      if s.None? then None else Some((Str(s.value.0), s.value.1))
    else if t[0] == OPEN_BRACKET then
      if |t| > 1 && t[1] == CLOSE_BRACKET then Some((Array([]), t[2..]))
      else
        var items := ParseItems(t[1..]);
        if items.None? then None else Some((Array(items.value.0), items.value.1))
    else if t[0] == OPEN_BRACE then
      if |t| > 1 && t[1] == CLOSE_BRACE then Some((Object([]), t[2..]))
      else
        var fields := ParseFields(t[1..]);
        if fields.None? then None else Some((Object(fields.value.0), fields.value.1))
    else if t[0] == MINUS then
      var n := ParseNatural(t[1..]);
      if n.None? then None else Some((Negated(n.value.0), n.value.1))
    else
      var n := ParseNatural(t);
      if n.None? then None else Some((Number(n.value.0), n.value.1))
  }

  /** At least one item, through the closing bracket. */
  function ParseItems(t: Text): (r: Parsed<seq<Value>>)
    ensures r.Some? ==> |r.value.1| < |t|
    decreases |t|, 2
  {
    var first := Parse(t);
    if first.None? || first.value.1 == [] then None
    else if first.value.1[0] == CLOSE_BRACKET then Some(([first.value.0], first.value.1[1..]))
    else if first.value.1[0] != COMMA then None
    else
      var rest := ParseItems(first.value.1[1..]);
      if rest.None? then None else Some(([first.value.0] + rest.value.0, rest.value.1))
  }

  function ParseField(t: Text): (r: Parsed<Field>)
    ensures r.Some? ==> |r.value.1| < |t|
    decreases |t|, 2
  {
    if t == [] || t[0] != QUOTE then None
    else
      var key := ParseString(t[1..]);
      if key.None? || key.value.1 == [] || key.value.1[0] != COLON then None
      else
        var value := Parse(key.value.1[1..]);
        if value.None? then None else Some((Field(key.value.0, value.value.0), value.value.1))
  }

  /** At least one field, through the closing brace. */
  function ParseFields(t: Text): (r: Parsed<seq<Field>>)
    ensures r.Some? ==> |r.value.1| < |t|
    decreases |t|, 3
  {
    var first := ParseField(t);
    if first.None? || first.value.1 == [] then None
    else if first.value.1[0] == CLOSE_BRACE then Some(([first.value.0], first.value.1[1..]))
    else if first.value.1[0] != COMMA then None
    else
      var rest := ParseFields(first.value.1[1..]);
      if rest.None? then None else Some(([first.value.0] + rest.value.0, rest.value.1))
  }
}
