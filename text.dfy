/**
  String primitives the threat engines are built on: ASCII case folding (standing
  in for Python's str.lower), substring search (Python's `needle in hay`),
  decimal rendering of counters (the `T<n>` identifiers), Python's code-point
  string order (the sorted legend) and first-appearance de-duplication (the
  insertion order of a Python dict filled key by key).
 */
module Text {

  // ---------------------------------------------------------------------------
  // Case folding

  predicate IsUpper(c: char) {
    'A' <= c <= 'Z'
  }

  function LowerChar(c: char): char {
    if IsUpper(c) then (c as int + 32) as char else c
  }

  /** ASCII lower-casing of a whole string, character by character. */
  function Lower(s: string): string {
    if s == [] then [] else [LowerChar(s[0])] + Lower(s[1..])
  }

  /** Lower-casing keeps the length, leaves no upper-case ASCII letter, moves each
      upper-case letter 32 code points up and keeps every other character. */
  lemma {:induction false} LowerSpec(s: string)
    ensures |Lower(s)| == |s|
    ensures forall i :: 0 <= i < |s| ==> !IsUpper(Lower(s)[i])
    ensures forall i :: 0 <= i < |s| && !IsUpper(s[i]) ==> Lower(s)[i] == s[i]
    ensures forall i :: 0 <= i < |s| && IsUpper(s[i]) ==> Lower(s)[i] as int == s[i] as int + 32
  {
    if s != [] {
      LowerSpec(s[1..]);
      assert forall i :: 0 < i < |s| ==> Lower(s)[i] == Lower(s[1..])[i - 1];
    }
  }

  /** Lower-casing character by character: `t` is the lower-cased `s`. */
  lemma LowerChars(s: string, t: string)
    requires |s| == |t|
    requires forall i :: 0 <= i < |s| ==> t[i] == LowerChar(s[i])
    ensures Lower(s) == t
  {
    LowerSpec(s);
    forall i | 0 <= i < |s| ensures Lower(s)[i] == t[i] {
      if IsUpper(s[i]) {
        assert Lower(s)[i] as int == t[i] as int;
      }
    }
  }

  /** Folding twice is folding once. */
  lemma LowerIdempotent(s: string)
    ensures Lower(Lower(s)) == Lower(s)
  {
    var l := Lower(s);
    LowerSpec(s);
    LowerSpec(l);
    assert forall i :: 0 <= i < |l| ==> Lower(l)[i] == l[i];
  }

  /** Folding distributes over concatenation. */
  lemma LowerAppend(a: string, b: string)
    ensures Lower(a + b) == Lower(a) + Lower(b)
  {
    LowerSpec(a);
    LowerSpec(b);
    LowerSpec(a + b);
    var l, r := Lower(a + b), Lower(a) + Lower(b);
    assert |l| == |r|;
    forall i | 0 <= i < |l| ensures l[i] == r[i] {
      if i < |a| {
        assert (a + b)[i] == a[i];
      } else {
        assert (a + b)[i] == b[i - |a|];
      }
    }
  }

  // ---------------------------------------------------------------------------
  // Substring search

  /** `needle` sits in `hay` starting at position `i`. */
  predicate OccursAt(needle: string, hay: string, i: int) {
    0 <= i && i + |needle| <= |hay| && hay[i..i + |needle|] == needle
  }

  /** The specification of Python's `needle in hay`: some position holds the needle. */
  ghost predicate Occurs(needle: string, hay: string) {
    exists i :: OccursAt(needle, hay, i)
  }

  /** Substring test by scanning start positions left to right. */
  function Contains(hay: string, needle: string): bool
    decreases |hay|
  {
    if |needle| > |hay| then false
    else if hay[..|needle|] == needle then true
    else Contains(hay[1..], needle)
  }

  /** The scan finds the needle exactly when it occurs somewhere. */
  lemma {:induction false} ContainsIffOccurs(hay: string, needle: string)
    ensures Contains(hay, needle) <==> Occurs(needle, hay)
    decreases |hay|
  {
    if |needle| > |hay| {
      assert forall i :: !OccursAt(needle, hay, i);
    } else if hay[..|needle|] == needle {
      assert OccursAt(needle, hay, 0);
    } else {
      ContainsIffOccurs(hay[1..], needle);
      if Occurs(needle, hay) {
        var i :| OccursAt(needle, hay, i);
        assert i != 0;
        assert hay[1..][i - 1..i - 1 + |needle|] == hay[i..i + |needle|];
        assert OccursAt(needle, hay[1..], i - 1);
      }
      if Occurs(needle, hay[1..]) {
        var i :| OccursAt(needle, hay[1..], i);
        assert hay[1..][i..i + |needle|] == hay[i + 1..i + 1 + |needle|];
        assert OccursAt(needle, hay, i + 1);
      }
    }
  }

  /** A needle free of the separator occurs in `a + [sep] + b` iff it occurs in `a` or in `b`. */
  lemma OccursAcrossSeparator(needle: string, a: string, sep: char, b: string)
    requires sep !in needle
    ensures Occurs(needle, a + [sep] + b) <==> Occurs(needle, a) || Occurs(needle, b)
  {
    var s := a + [sep] + b;
    if Occurs(needle, s) {
      var i :| OccursAt(needle, s, i);
      if i + |needle| <= |a| {
        assert s[i..i + |needle|] == a[i..i + |needle|];
        assert OccursAt(needle, a, i);
      } else if i > |a| {
        assert s[i..i + |needle|] == b[i - |a| - 1..i - |a| - 1 + |needle|];
        assert OccursAt(needle, b, i - |a| - 1);
      } else {
        StraddleHitsSeparator(needle, a, sep, b, i);
        assert false;
      }
    }
    if Occurs(needle, a) {
      var i :| OccursAt(needle, a, i);
      assert s[i..i + |needle|] == a[i..i + |needle|];
      assert OccursAt(needle, s, i);
    }
    if Occurs(needle, b) {
      var i :| OccursAt(needle, b, i);
      var j := i + |a| + 1;
      assert s[j..j + |needle|] == b[i..i + |needle|];
      assert OccursAt(needle, s, j);
    }
  }

  /** An occurrence that spans position |a| of `a + [sep] + b` contains the separator. */
  lemma StraddleHitsSeparator(needle: string, a: string, sep: char, b: string, i: int)
    requires OccursAt(needle, a + [sep] + b, i)
    requires i <= |a| < i + |needle|
    ensures sep in needle
  {
    var s := a + [sep] + b;
    assert needle[|a| - i] == s[|a|] == sep;
  }

  /** The substring test, stated on the scan: a separator-free needle is found in
      `a + [sep] + b` iff it is found in `a` or in `b`. */
  lemma ContainsAcrossSeparator(a: string, sep: char, b: string, needle: string)
    requires sep !in needle
    ensures Contains(a + [sep] + b, needle) <==> Contains(a, needle) || Contains(b, needle)
  {
    ContainsIffOccurs(a + [sep] + b, needle);
    ContainsIffOccurs(a, needle);
    ContainsIffOccurs(b, needle);
    OccursAcrossSeparator(needle, a, sep, b);
  }

  /** A needle found at a known position is found by the scan. */
  lemma ContainsAt(hay: string, needle: string, i: int)
    requires OccursAt(needle, hay, i)
    ensures Contains(hay, needle)
  {
    ContainsIffOccurs(hay, needle);
  }

  /** A needle holding a character the haystack lacks is not found. */
  lemma MissingChar(hay: string, needle: string, c: char)
    requires c in needle && c !in hay
    ensures !Contains(hay, needle)
  {
    var j :| 0 <= j < |needle| && needle[j] == c;
    forall i | 0 <= i && i + |needle| <= |hay| ensures !OccursAt(needle, hay, i) {
      assert hay[i..i + |needle|][j] == hay[i + j];
      assert hay[i + j] in hay;
    }
    ContainsIffOccurs(hay, needle);
  }

  // ---------------------------------------------------------------------------
  // Decimal numerals

  predicate IsDigit(c: char) {
    '0' <= c <= '9'
  }

  function Digit(d: nat): (c: char)
    requires d < 10
    ensures IsDigit(c) && c as int - '0' as int == d
  {
    (d + '0' as int) as char
  }

  /** Python's str() of a natural number: its decimal digits, most significant first. */
  function Decimal(n: nat): (r: string)
    ensures |r| >= 1
    ensures forall i :: 0 <= i < |r| ==> IsDigit(r[i])
    decreases n
  {
    if n < 10 then [Digit(n)] else Decimal(n / 10) + [Digit(n % 10)]
  }

  /** Reading a string of digits back as a number. */
  function ParseDecimal(s: string): nat
    requires forall i :: 0 <= i < |s| ==> IsDigit(s[i])
  {
    if s == [] then 0
    else
      assert IsDigit(s[|s| - 1]);
      ParseDecimal(s[..|s| - 1]) * 10 + (s[|s| - 1] as int - '0' as int)
  }

  /** Rendering a counter and reading it back gives the counter. */
  lemma {:induction false} DecimalRoundTrip(n: nat)
    ensures ParseDecimal(Decimal(n)) == n
    decreases n
  {
    if n < 10 {
      assert Decimal(n)[..0] == [];
    } else {
      var p := Decimal(n / 10);
      DecimalRoundTrip(n / 10);
      assert (p + [Digit(n % 10)])[..|p|] == p;
    }
  }

  /** Distinct counters render as distinct strings. */
  lemma DecimalInjective(a: nat, b: nat)
    ensures Decimal(a) == Decimal(b) <==> a == b
  {
    if Decimal(a) == Decimal(b) {
      DecimalRoundTrip(a);
      DecimalRoundTrip(b);
    }
  }

  // ---------------------------------------------------------------------------
  // Python's string order: code point by code point, a proper prefix first

  predicate LexLess(a: string, b: string)
    decreases |a|
  {
    if a == [] then b != []
    else if b == [] then false
    else if a[0] != b[0] then a[0] < b[0]
    else LexLess(a[1..], b[1..])
  }

  predicate LexLe(a: string, b: string) {
    a == b || LexLess(a, b)
  }

  lemma {:induction false} LexLessIrreflexive(a: string)
    ensures !LexLess(a, a)
    decreases |a|
  {
    if a != [] {
      LexLessIrreflexive(a[1..]);
    }
  }

  lemma {:induction false} LexLessTransitive(a: string, b: string, c: string)
    requires LexLess(a, b) && LexLess(b, c)
    ensures LexLess(a, c)
    decreases |a|
  {
    if a != [] && a[0] == b[0] && b[0] == c[0] {
      LexLessTransitive(a[1..], b[1..], c[1..]);
    }
  }

  lemma {:induction false} LexLessTotal(a: string, b: string)
    requires a != b
    ensures LexLess(a, b) || LexLess(b, a)
    decreases |a|
  {
    if a != [] && b != [] && a[0] == b[0] {
      assert a == [a[0]] + a[1..] && b == [b[0]] + b[1..];
      LexLessTotal(a[1..], b[1..]);
    }
  }

  ghost predicate SortedLex(s: seq<string>) {
    forall i, j :: 0 <= i < j < |s| ==> LexLe(s[i], s[j])
  }

  function Insert(x: string, s: seq<string>): (r: seq<string>)
    requires SortedLex(s)
    ensures SortedLex(r)
    ensures multiset(r) == multiset(s) + multiset{x}
  {
    if s == [] then [x]
    else if LexLe(x, s[0]) then
      assert forall j :: 0 < j < |s| ==> LexLe(x, s[j]) by {
        forall j | 0 < j < |s| ensures LexLe(x, s[j]) {
          if x != s[0] && s[0] != s[j] { LexLessTransitive(x, s[0], s[j]); }
        }
      }
      [x] + s
    else
      assert LexLess(s[0], x) by { LexLessTotal(x, s[0]); }
      var rest := Insert(x, s[1..]);
      assert multiset(rest) == multiset(s[1..]) + multiset{x};
      assert forall y :: y in rest ==> LexLe(s[0], y) by {
        forall y | y in rest ensures LexLe(s[0], y) {
          assert y in multiset(rest);
          if y != x {
            assert y in multiset(s[1..]);
            var j :| 0 <= j < |s[1..]| && s[1..][j] == y;
            assert s[j + 1] == y;
          }
        }
      }
      assert s == [s[0]] + s[1..];
      [s[0]] + rest
  }

  /** Python's sorted() on a list of strings. */
  function Sort(s: seq<string>): (r: seq<string>)
    ensures SortedLex(r)
    ensures multiset(r) == multiset(s)
  {
    if s == [] then []
    else
      assert s == [s[0]] + s[1..];
      Insert(s[0], Sort(s[1..]))
  }

  // ---------------------------------------------------------------------------
  // First-appearance de-duplication (the key order of a dict filled left to right)

  function Dedup(xs: seq<string>): (r: seq<string>)
    ensures forall i, j :: 0 <= i < j < |r| ==> r[i] != r[j]
    ensures forall x :: x in r <==> x in xs
  {
    if xs == [] then []
    else
      var d := Dedup(xs[..|xs| - 1]);
      assert forall x :: x in xs <==> x in xs[..|xs| - 1] || x == xs[|xs| - 1] by {
        assert xs == xs[..|xs| - 1] + [xs[|xs| - 1]];
      }
      if xs[|xs| - 1] in d then d else d + [xs[|xs| - 1]]
  }

  /** The position of the first occurrence of `x` in `xs`. */
  function FirstIndex(xs: seq<string>, x: string): (k: nat)
    requires x in xs
    ensures k < |xs| && xs[k] == x
    ensures forall j :: 0 <= j < k ==> xs[j] != x
  {
    if xs[0] == x then 0 else 1 + FirstIndex(xs[1..], x)
  }

  /** Appending an element moves no first occurrence of an element already present,
      and a new element first occurs at the end. */
  lemma FirstIndexSnoc(xs: seq<string>, y: string, x: string)
    requires x in xs + [y]
    ensures x in xs ==> FirstIndex(xs + [y], x) == FirstIndex(xs, x)
    ensures x !in xs ==> FirstIndex(xs + [y], x) == |xs|
  {
    var k := FirstIndex(xs + [y], x);
    if x in xs {
      var k0 := FirstIndex(xs, x);
      assert (xs + [y])[k0] == x;
      assert k <= k0;
      assert xs[k] == x;
    } else {
      assert forall j :: 0 <= j < |xs| ==> (xs + [y])[j] != x;
    }
  }

  /** `Dedup` lists the distinct elements in the order of their first occurrences. */
  lemma {:induction false} DedupFirstAppearance(xs: seq<string>)
    ensures forall i, j :: 0 <= i < j < |Dedup(xs)| ==>
      FirstIndex(xs, Dedup(xs)[i]) < FirstIndex(xs, Dedup(xs)[j])
  {
    if xs != [] {
      var p, y := xs[..|xs| - 1], xs[|xs| - 1];
      assert xs == p + [y];
      DedupFirstAppearance(p);
      var d, r := Dedup(p), Dedup(xs);
      forall x | x in d ensures FirstIndex(xs, x) == FirstIndex(p, x) {
        FirstIndexSnoc(p, y, x);
      }
      if y !in d {
        assert r == d + [y];
        FirstIndexSnoc(p, y, y);
        forall i, j | 0 <= i < j < |r| ensures FirstIndex(xs, r[i]) < FirstIndex(xs, r[j]) {
          assert r[i] == d[i] && r[i] in d;
          if j < |d| {
            assert r[j] == d[j] && r[j] in d;
          }
        }
      }
    }
  }

  /** A key seen again keeps its first place; a new key goes last. */
  lemma DedupSnoc(xs: seq<string>, x: string)
    ensures Dedup(xs + [x]) == if x in xs then Dedup(xs) else Dedup(xs) + [x]
  {
    assert (xs + [x])[..|xs|] == xs;
  }
}
