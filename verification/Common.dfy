/** Vocabulary shared by every component: optional values, results, identifiers,
    and the facts about duplicate-free sequences the proofs lean on. */
module Common {

  datatype Option<+T> = None | Some(value: T)

  datatype Result<+T, +E> = Ok(value: T) | Err(error: E)

  /** UUIDs, idempotency keys and digests: opaque, comparable, and never in short supply. */
  type Id = nat

  ghost predicate Distinct<T>(s: seq<T>) {
    forall i, j :: 0 <= i < j < |s| ==> s[i] != s[j]
  }

  /** The elements of a sequence as a set. */
  function Elements<T>(s: seq<T>): set<T> {
    set x | x in s
  }

  /** Executable test for a duplicate-free sequence (`new Set(s).size === s.length`). */
  predicate Unique<T(==)>(s: seq<T>)
    ensures Unique(s) <==> Distinct(s)
  {
    forall i, j :: 0 <= i < j < |s| ==> s[i] != s[j]
  }

  /** Two lists name the same members, each once (`sameStringSet`). */
  predicate SameMembers<T(==)>(left: seq<T>, right: seq<T>) {
    && |left| == |right|
    && Unique(left)
    && forall x <- left :: x in right
  }

  /** Length of one character in UTF-8 (`Buffer.byteLength`). */
  function Utf8Width(c: char): nat {
    var n := c as int;
    if n < 0x80 then 1 else if n < 0x800 then 2 else if n < 0x1_0000 then 3 else 4
  }

  function Utf8Length(s: string): nat {
    if s == [] then 0 else Utf8Length(s[..|s| - 1]) + Utf8Width(s[|s| - 1])
  }

  /** The UTF-8 bytes of one code point (section 3 of RFC 3629). */
  function Utf8Bytes(n: nat): seq<nat> {
    if n < 0x80 then [n]
    else if n < 0x800 then [0xC0 + n / 0x40, 0x80 + n % 0x40]
    else if n < 0x1_0000 then [0xE0 + n / 0x1000, 0x80 + n / 0x40 % 0x40, 0x80 + n % 0x40]
    else [0xF0 + n / 0x4_0000, 0x80 + n / 0x1000 % 0x40, 0x80 + n / 0x40 % 0x40, 0x80 + n % 0x40]
  }

  function Utf8Encode(points: seq<nat>): seq<nat> {
    if points == [] then [] else Utf8Encode(points[..|points| - 1]) + Utf8Bytes(points[|points| - 1])
  }

  function CodePoints(s: string): seq<nat> { seq(|s|, i requires 0 <= i < |s| => s[i] as nat) }

  /** The length is that of the encoding. */
  lemma {:induction false} Utf8LengthIs(s: string)
    ensures Utf8Length(s) == |Utf8Encode(CodePoints(s))|
  {
    if s != [] {
      Utf8LengthIs(s[..|s| - 1]);
      assert CodePoints(s)[..|s| - 1] == CodePoints(s[..|s| - 1]);
    }
  }

  lemma {:induction false} Utf8LengthConcat(s: string, t: string)
    ensures Utf8Length(s + t) == Utf8Length(s) + Utf8Length(t)
  {
    if t == [] {
      assert s + t == s;
    } else {
      Utf8LengthConcat(s, t[..|t| - 1]);
      assert (s + t)[..|s + t| - 1] == s + t[..|t| - 1];
    }
  }

  /** A finite set of identifiers never exhausts the supply. */
  lemma FreshId(used: set<Id>) returns (unused: Id)
    ensures unused !in used
  {
    unused := 0;
    var rest := used;
    while rest != {}
      invariant rest <= used
      invariant forall y <- used :: y in rest || y < unused
      decreases rest
    {
      var x :| x in rest;
      rest := rest - {x};
      if unused <= x { unused := x + 1; }
    }
  }

  lemma {:induction false} DistinctCardinality<T>(s: seq<T>)
    requires Distinct(s)
    ensures |Elements(s)| == |s|
  {
    if s != [] {
      var rest := s[1..];
      DistinctCardinality(rest);
      assert Elements(s) == {s[0]} + Elements(rest) by { assert s == [s[0]] + rest; }
      assert s[0] !in rest;
    }
  }

  lemma {:induction false} ElementsCardinality<T>(s: seq<T>)
    ensures |Elements(s)| <= |s|
  {
    if s != [] {
      ElementsCardinality(s[1..]);
      assert Elements(s) == {s[0]} + Elements(s[1..]) by { assert s == [s[0]] + s[1..]; }
    }
  }

  lemma SubsetCardinality<T>(small: set<T>, big: set<T>)
    requires small <= big
    ensures |small| <= |big|
    ensures |small| == |big| ==> small == big
  {
    assert big == small + (big - small);
    assert |big| == |small| + |big - small|;
  }

  /** Pigeonhole: a duplicate-free list drawn from `pool` is no longer than `pool`, and
      exhausts it once it is as long. */
  lemma Pigeonhole<T>(s: seq<T>, pool: seq<T>)
    requires Distinct(s) && forall x <- s :: x in pool
    ensures |s| <= |pool|
    ensures |s| == |pool| ==> Elements(s) == Elements(pool)
  {
    DistinctCardinality(s);
    ElementsCardinality(pool);
    assert Elements(s) <= Elements(pool);
    SubsetCardinality(Elements(s), Elements(pool));
  }
}
