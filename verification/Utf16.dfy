/** Text as JavaScript holds it, sequences of UTF-16 code units, with its UTF-8 size and order. */
module Utf16 {
  import opened Common

  type Unit = n: int | 0 <= n < 0x1_0000
  type Text = seq<Unit>

  const NEWLINE: Unit := 10
  const QUOTE: Unit := 34
  const BACKSLASH: Unit := 92

  predicate IsHigh(c: Unit) { 0xD800 <= c < 0xDC00 }
  predicate IsLow(c: Unit) { 0xDC00 <= c < 0xE000 }

  /** `Buffer.byteLength(s, "utf8")`: a surrogate pair takes four bytes, a lone surrogate three. */
  function ByteLength(s: Text): nat {
    if s == [] then 0
    else
      var n, c := |s| - 1, s[|s| - 1];
      ByteLength(s[..n])
      + if c < 0x80 then 1 else if c < 0x800 then 2
        else if IsLow(c) && n > 0 && IsHigh(s[n - 1]) then 1 else 3
  }

  const REPLACEMENT := 0xFFFD

  function PairPoint(high: Unit, low: Unit): (point: nat)
    requires IsHigh(high) && IsLow(low)
    ensures 0x1_0000 <= point < 0x11_0000
  {
    var h: int, l: int := high, low;
    0x1_0000 + (h - 0xD800) * 0x400 + (l - 0xDC00)
  }

  /** The code points a text stands for; half of a pair on its own is replaced. */
  function PointsOf(s: Text): seq<nat> {
    if s == [] then []
    else
      var n, c := |s| - 1, s[|s| - 1];
      if IsLow(c) && n > 0 && IsHigh(s[n - 1]) then
        PointsOf(s[..n - 1]) + [PairPoint(s[n - 1], c)]
      else PointsOf(s[..n]) + [if IsHigh(c) || IsLow(c) then REPLACEMENT else c]
  }

  lemma BytesOfPoint(n: nat)
    ensures |Utf8Bytes(n)| == if n < 0x80 then 1 else if n < 0x800 then 2 else if n < 0x1_0000 then 3 else 4
  {}

  /** The byte length is that of the text's UTF-8 encoding. */
  lemma {:induction false} ByteLengthIs(s: Text)
    ensures ByteLength(s) == |Utf8Encode(PointsOf(s))|
    decreases |s|
  {
    hide Utf8Bytes, Utf8Encode;
    if s == [] {
      assert |Utf8Encode([])| == 0 by { NothingEncoded(); }
    } else {
      var n, c := |s| - 1, s[|s| - 1];
      if IsLow(c) && n > 0 && IsHigh(s[n - 1]) {
        ByteLengthIs(s[..n - 1]);
        assert s[..n][..n - 1] == s[..n - 1];
        assert ByteLength(s[..n]) == ByteLength(s[..n - 1]) + 3;
        BytesOfPoint(PairPoint(s[n - 1], c));
        EncodeLast(PointsOf(s[..n - 1]), PairPoint(s[n - 1], c));
      } else {
        var p := if IsHigh(c) || IsLow(c) then REPLACEMENT else c;
        ByteLengthIs(s[..n]);
        BytesOfPoint(p);
        EncodeLast(PointsOf(s[..n]), p);
      }
    }
  }

  lemma NothingEncoded()
    ensures Utf8Encode([]) == []
  {}

  lemma EncodeLast(points: seq<nat>, p: nat)
    ensures Utf8Encode(points + [p]) == Utf8Encode(points) + Utf8Bytes(p)
  {
    assert (points + [p])[..|points|] == points;
  }

  lemma {:induction false} PrefixNoLonger(s: Text, k: nat)
    requires k <= |s|
    ensures ByteLength(s[..k]) <= ByteLength(s)
    decreases |s|
  {
    if k < |s| {
      var shorter := s[..|s| - 1];
      PrefixNoLonger(shorter, k);
      assert shorter[..k] == s[..k];
    } else {
      assert s[..k] == s;
    }
  }

  /** Lexicographic order of code units, the order of `Array.prototype.sort` on strings. */
  predicate Before(a: Text, b: Text) {
    if a == [] then b != []
    else b != [] && (a[0] < b[0] || (a[0] == b[0] && Before(a[1..], b[1..])))
  }

  lemma {:induction false} BeforeIsTotal(a: Text, b: Text)
    ensures Before(a, b) || a == b || Before(b, a)
  {
    if a != [] && b != [] && a[0] == b[0] {
      BeforeIsTotal(a[1..], b[1..]);
      assert a == [a[0]] + a[1..] && b == [b[0]] + b[1..];
    }
  }

  lemma {:induction false} BeforeIsAsymmetric(a: Text, b: Text)
    requires Before(a, b)
    ensures !Before(b, a) && a != b
  {
    if a != [] && a[0] == b[0] { BeforeIsAsymmetric(a[1..], b[1..]); }
  }

  lemma {:induction false} BeforeIsTransitive(a: Text, b: Text, c: Text)
    requires Before(a, b) && Before(b, c)
    ensures Before(a, c)
  {
    if a != [] && a[0] == b[0] == c[0] { BeforeIsTransitive(a[1..], b[1..], c[1..]); }
  }

  predicate Sorted(s: seq<Text>) {
    forall i, j :: 0 <= i < j < |s| ==> Before(s[i], s[j])
  }

  function Insert(x: Text, s: seq<Text>): seq<Text> {
    if s == [] then [x] else if Before(x, s[0]) then [x] + s else [s[0]] + Insert(x, s[1..])
  }

  /** `keys.sort()` for distinct keys. */
  function Sort(s: seq<Text>): seq<Text> {
    if s == [] then [] else Insert(s[0], Sort(s[1..]))
  }

  lemma {:induction false} InsertAdds(x: Text, s: seq<Text>, y: Text)
    ensures y in Insert(x, s) <==> y == x || y in s
  {
    if s != [] && !Before(x, s[0]) {
      InsertAdds(x, s[1..], y);
      assert s == [s[0]] + s[1..];
    }
  }

  lemma {:induction false} InsertKeepsSorted(x: Text, s: seq<Text>)
    requires Sorted(s) && x !in s
    ensures Sorted(Insert(x, s))
  {
    if s == [] {
    } else if Before(x, s[0]) {
      forall i | 0 <= i < |s| ensures Before(x, s[i]) {
        if i > 0 { BeforeIsTransitive(x, s[0], s[i]); }
      }
    } else {
      BeforeIsTotal(x, s[0]);
      InsertKeepsSorted(x, s[1..]);
      var rest := Insert(x, s[1..]);
      forall j | 0 <= j < |rest| ensures Before(s[0], rest[j]) {
        InsertAdds(x, s[1..], rest[j]);
      }
    }
  }

  lemma {:induction false} SortSorts(s: seq<Text>)
    requires forall i, j :: 0 <= i < j < |s| ==> s[i] != s[j]
    ensures Sorted(Sort(s)) && forall y :: y in Sort(s) <==> y in s
  {
    if s != [] {
      SortSorts(s[1..]);
      InsertKeepsSorted(s[0], Sort(s[1..]));
      forall y ensures y in Sort(s) <==> y in s {
        InsertAdds(s[0], Sort(s[1..]), y);
        assert s == [s[0]] + s[1..];
      }
    }
  }

  lemma NonemptyHasMember(s: seq<Text>)
    ensures s != [] ==> exists y :: y in s
  {
    if s != [] { assert s[0] in s; }
  }

  /** A set of keys has one sorted listing. */
  lemma {:induction false} SortedIsUnique(a: seq<Text>, b: seq<Text>)
    requires Sorted(a) && Sorted(b) && forall y :: y in a <==> y in b
    ensures a == b
    decreases |a|
  {
    if a == [] {
      NonemptyHasMember(b);
    } else {
      assert a[0] in a;
      var i :| 0 <= i < |b| && b[i] == a[0];
      assert b[0] in b;
      var j :| 0 <= j < |a| && a[j] == b[0];
      if i > 0 && j > 0 { BeforeIsAsymmetric(b[0], b[i]); }
      assert a[0] == b[0];
      forall y ensures y in a[1..] <==> y in b[1..] {
        SortedOnce(a, y);
        SortedOnce(b, y);
      }
      SortedIsUnique(a[1..], b[1..]);
      assert a == [a[0]] + a[1..] && b == [b[0]] + b[1..];
    }
  }

  lemma SortedOnce(a: seq<Text>, y: Text)
    requires Sorted(a) && a != []
    ensures y in a[1..] <==> y in a && y != a[0]
  {
    if a[0] in a[1..] {
      var k :| 0 <= k < |a| - 1 && a[1..][k] == a[0];
      BeforeIsAsymmetric(a[0], a[k + 1]);
    }
    assert a == [a[0]] + a[1..];
  }
}
