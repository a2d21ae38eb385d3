/** The JavaScript string operations the modelled code relies on: `trim`,
    stripping a run of one character class at either end, `split` on one
    character, `join`, `filter(Boolean)`, and the code-unit order that
    `Array.prototype.sort` uses when it is given no comparator. */
module Strings {

  /** ECMAScript's WhiteSpace and LineTerminator characters: what `trim` removes. */
  predicate IsWhitespace(c: char)
  {
    || '\t' <= c <= '\r'   // tab, line feed, vertical tab, form feed, carriage return
    || c == ' ' || c == '\U{00A0}' || c == '\U{1680}'
    || '\U{2000}' <= c <= '\U{200A}'
    || c == '\U{2028}' || c == '\U{2029}' || c == '\U{202F}' || c == '\U{205F}'
    || c == '\U{3000}' || c == '\U{FEFF}'
  }

  const Whitespace: set<char> := set c: char | IsWhitespace(c)

  /** Removes the longest prefix made only of characters in `cs`. */
  function DropLeading(s: string, cs: set<char>): (r: string)
    ensures |r| <= |s| && r == s[|s| - |r|..]
    ensures forall i :: 0 <= i < |s| - |r| ==> s[i] in cs
    ensures r == [] || r[0] !in cs
  {
    if s != [] && s[0] in cs then DropLeading(s[1..], cs) else s
  }

  /** Dropping a leading run stops at the first character outside `cs`. */
  lemma {:induction false} DropLeadingAfter(run: string, t: string, cs: set<char>)
    requires forall i :: 0 <= i < |run| ==> run[i] in cs
    requires t == [] || t[0] !in cs
    ensures DropLeading(run + t, cs) == t
  {
    if run == [] {
      assert run + t == t;
    } else {
      assert (run + t)[0] == run[0] && (run + t)[1..] == run[1..] + t;
      DropLeadingAfter(run[1..], t, cs);
    }
  }

  /** Removes the longest suffix made only of characters in `cs`. */
  function DropTrailing(s: string, cs: set<char>): (r: string)
    ensures |r| <= |s| && r == s[..|r|]
    ensures forall i :: |r| <= i < |s| ==> s[i] in cs
    ensures r == [] || r[|r| - 1] !in cs
  {
    if s != [] && s[|s| - 1] in cs then DropTrailing(s[..|s| - 1], cs) else s
  }

  /** `String.prototype.trim`. */
  function Trim(s: string): (r: string)
    ensures |r| <= |s|
    ensures r == [] || (r[0] !in Whitespace && r[|r| - 1] !in Whitespace)
    ensures s == [] || (s[0] !in Whitespace && s[|s| - 1] !in Whitespace) ==> r == s
  {
    DropTrailing(DropLeading(s, Whitespace), Whitespace)
  }

  /** Trimming keeps one contiguous run of the text: a prefix of what is left
      once the leading white space is dropped, itself a suffix of the text. So
      it holds only characters of the text. */
  lemma {:induction false} TrimInside(s: string)
    ensures Trim(s) <= DropLeading(s, Whitespace)
    ensures forall k :: 0 <= k < |Trim(s)| ==> Trim(s)[k] in s
  {
    var t := DropLeading(s, Whitespace);
    var r := Trim(s);
    var k := |s| - |t|;
    assert r == DropTrailing(t, Whitespace);
    assert r == t[..|r|];
    forall i | 0 <= i < |r|
      ensures r[i] in s
    {
      assert r[i] == s[k + i];
    }
  }

  /** `parts.join(sep)` for a one-character separator. */
  function Join(parts: seq<string>, sep: char): (r: string)
  {
    if |parts| == 0 then []
    else if |parts| == 1 then parts[0]
    else parts[0] + [sep] + Join(parts[1..], sep)
  }

  /** `s.split(sep)` for a one-character separator: never empty, no piece
      holds the separator, and joining the pieces gives `s` back. */
  function Split(s: string, sep: char): (r: seq<string>)
    ensures |r| >= 1
    ensures forall i :: 0 <= i < |r| ==> sep !in r[i]
    ensures Join(r, sep) == s
  {
    if s == [] then [[]]
    else if s[0] == sep then [[]] + Split(s[1..], sep)
    else
      var rest := Split(s[1..], sep);
      [[s[0]] + rest[0]] + rest[1..]
  }

  /** `parts.filter(Boolean)`: the non-empty parts, in order. */
  function NonEmpty(parts: seq<string>): (r: seq<string>)
    ensures |r| <= |parts|
    ensures forall i :: 0 <= i < |r| ==> r[i] != []
    ensures forall x :: x in r <==> x in parts && x != []
    ensures (forall i :: 0 <= i < |parts| ==> parts[i] != []) ==> r == parts
  {
    if parts == [] then []
    else if parts[0] == [] then NonEmpty(parts[1..])
    else [parts[0]] + NonEmpty(parts[1..])
  }

  /** `filter(Boolean)` keeps the order: it filters two lists one after the other. */
  lemma {:induction false} NonEmptyAppend(a: seq<string>, b: seq<string>)
    ensures NonEmpty(a + b) == NonEmpty(a) + NonEmpty(b)
  {
    if a != [] {
      assert (a + b)[0] == a[0] && (a + b)[1..] == a[1..] + b;
      NonEmptyAppend(a[1..], b);
    } else {
      assert a + b == b;
    }
  }

  /** On one string `filter(Boolean)` keeps it exactly when it is not empty. */
  lemma {:induction false} NonEmptyOne(x: string)
    ensures NonEmpty([x]) == if x == [] then [] else [x]
  {
    assert [x][1..] == [];
  }

  /** `s.split(sep).filter(Boolean)`: how a comma-separated list is read. */
  function ParseList(s: string, sep: char): (r: seq<string>)
    ensures forall i :: 0 <= i < |r| ==> r[i] != [] && sep !in r[i]
  {
    var parts := Split(s, sep);
    var r := NonEmpty(parts);
    assert forall i :: 0 <= i < |r| ==> r[i] in parts;
    r
  }

  /** Splitting a join of separator-free parts gives the parts back. */
  lemma {:induction false} SplitJoin(parts: seq<string>, sep: char)
    requires |parts| >= 1
    requires forall i :: 0 <= i < |parts| ==> sep !in parts[i]
    ensures Split(Join(parts, sep), sep) == parts
  {
    if |parts| == 1 {
      SplitNoSeparator(parts[0], sep);
    } else {
      SplitJoin(parts[1..], sep);
      SplitAppend(parts[0], sep, Join(parts[1..], sep));
    }
  }

  lemma {:induction false} SplitNoSeparator(s: string, sep: char)
    requires sep !in s
    ensures Split(s, sep) == [s]
  {
    if s != [] {
      SplitNoSeparator(s[1..], sep);
    }
  }

  lemma {:induction false} SplitAppend(a: string, sep: char, b: string)
    requires sep !in a
    ensures Split(a + [sep] + b, sep) == [a] + Split(b, sep)
  {
    if a == [] {
      assert a + [sep] + b == [sep] + b;
      assert ([sep] + b)[1..] == b;
    } else {
      assert (a + [sep] + b)[1..] == a[1..] + [sep] + b;
      SplitAppend(a[1..], sep, b);
      assert [a[0]] + a[1..] == a;
    }
  }

  /** A list of non-empty, comma-free entries survives `join(",")` followed by
      `split(",").filter(Boolean)` unchanged, the empty list included, and its
      join is empty exactly when the list is. */
  lemma {:induction false} ParseListJoin(parts: seq<string>, sep: char)
    requires forall i :: 0 <= i < |parts| ==> parts[i] != [] && sep !in parts[i]
    ensures ParseList(Join(parts, sep), sep) == parts
    ensures Join(parts, sep) == [] <==> parts == []
  {
    if |parts| >= 1 {
      SplitJoin(parts, sep);
      assert |Join(parts, sep)| >= |parts[0]|;
    } else {
      assert Split([], sep) == [[]];
      NonEmptyOne([]);
    }
  }

  // ---------------------------------------------------------------------
  // Code-unit order (the comparison `sort()` makes without a comparator)

  /** The UTF-16 encoding of one character: one code unit below U+10000,
      otherwise a surrogate pair. */
  function Units(c: char): (r: seq<int>)
    ensures 1 <= |r| <= 2
  {
    var v := c as int;
    if v < 0x1_0000 then [v]
    else [0xD800 + (v - 0x1_0000) / 0x400, 0xDC00 + (v - 0x1_0000) % 0x400]
  }

  /** The UTF-16 code units of a string, the sequence JavaScript compares. */
  function Utf16(s: string): seq<int>
  {
    if s == [] then [] else Units(s[0]) + Utf16(s[1..])
  }

  /** `a <= b` on code-unit sequences, as JavaScript compares strings. */
  predicate UnitsLe(a: seq<int>, b: seq<int>)
  {
    a == [] || (b != [] && (a[0] < b[0] || (a[0] == b[0] && UnitsLe(a[1..], b[1..]))))
  }

  /** The place of a character in code-unit order: characters below the
      surrogate range keep their value, characters written as a surrogate pair
      come next, and U+E000 to U+FFFF come last. */
  function UnitRank(c: char): int
  {
    var v := c as int;
    if v < 0xD800 then v
    else if v >= 0x1_0000 then v - 0x1_0000 + 0xD800
    else v + 0x10_0000
  }

  lemma {:induction false} UnitRankInjective(c: char, d: char)
    requires UnitRank(c) == UnitRank(d)
    ensures c == d
  {
    assert c as int == d as int;
  }

  /** `a` sorts no later than `b`, character by character in code-unit order. */
  predicate LexLe(a: string, b: string)
  {
    a == [] || (b != [] && (UnitRank(a[0]) < UnitRank(b[0]) || (a[0] == b[0] && LexLe(a[1..], b[1..]))))
  }

  predicate LexLt(a: string, b: string)
  {
    LexLe(a, b) && a != b
  }

  /** A common first unit leaves the comparison to the rest. */
  lemma {:induction false} UnitsLeCommon(p: seq<int>, x: seq<int>, y: seq<int>)
    ensures UnitsLe(p + x, p + y) <==> UnitsLe(x, y)
  {
    if p != [] {
      assert (p + x)[0] == p[0] && (p + x)[1..] == p[1..] + x;
      assert (p + y)[0] == p[0] && (p + y)[1..] == p[1..] + y;
      UnitsLeCommon(p[1..], x, y);
    } else {
      assert p + x == x && p + y == y;
    }
  }

  /** Two different characters are told apart within their own code units,
      whatever follows them, in the order of their ranks. */
  lemma {:induction false} UnitsDecide(c: char, d: char, x: seq<int>, y: seq<int>)
    requires UnitRank(c) < UnitRank(d)
    ensures UnitsLe(Units(c) + x, Units(d) + y)
    ensures !UnitsLe(Units(d) + y, Units(c) + x)
  {
    var u, w := Units(c) + x, Units(d) + y;
    var v, z := c as int, d as int;
    assert u[0] == Units(c)[0] && w[0] == Units(d)[0];
    if v >= 0x1_0000 && z >= 0x1_0000 {
      var p, q := v - 0x1_0000, z - 0x1_0000;
      assert p == 0x400 * (p / 0x400) + p % 0x400;
      assert q == 0x400 * (q / 0x400) + q % 0x400;
      if p / 0x400 == q / 0x400 {
        assert u[1] == Units(c)[1] && w[1] == Units(d)[1];
        assert u[1..][0] == u[1] && w[1..][0] == w[1];
      }
    }
  }

  /** The character order is the order in which `sort()` compares the UTF-16
      code units of two strings. */
  lemma {:induction false} LexLeIsUnitOrder(a: string, b: string)
    ensures LexLe(a, b) <==> UnitsLe(Utf16(a), Utf16(b))
  {
    if a != [] && b != [] {
      var x, y := Utf16(a[1..]), Utf16(b[1..]);
      assert Utf16(a) == Units(a[0]) + x;
      assert Utf16(b) == Units(b[0]) + y;
      if a[0] == b[0] {
        UnitsLeCommon(Units(a[0]), x, y);
        LexLeIsUnitOrder(a[1..], b[1..]);
      } else if UnitRank(a[0]) < UnitRank(b[0]) {
        UnitsDecide(a[0], b[0], x, y);
      } else {
        if UnitRank(a[0]) == UnitRank(b[0]) {
          UnitRankInjective(a[0], b[0]);
        }
        UnitsDecide(b[0], a[0], y, x);
      }
    } else if a != [] {
      assert Utf16(a) == Units(a[0]) + Utf16(a[1..]);
    }
  }

  lemma {:induction false} LexLeTotal(a: string, b: string)
    ensures LexLe(a, b) || LexLe(b, a)
  {
    if a != [] && b != [] {
      if a[0] == b[0] {
        LexLeTotal(a[1..], b[1..]);
      } else if UnitRank(a[0]) == UnitRank(b[0]) {
        UnitRankInjective(a[0], b[0]);
      }
    }
  }

  lemma {:induction false} LexLeTransitive(a: string, b: string, c: string)
    requires LexLe(a, b) && LexLe(b, c)
    ensures LexLe(a, c)
  {
    if a != [] && b != [] && c != [] && a[0] == b[0] && b[0] == c[0] {
      LexLeTransitive(a[1..], b[1..], c[1..]);
    }
  }

  lemma {:induction false} LexLeAntisymmetric(a: string, b: string)
    requires LexLe(a, b) && LexLe(b, a)
    ensures a == b
  {
    if a != [] && b != [] {
      if UnitRank(a[0]) == UnitRank(b[0]) {
        UnitRankInjective(a[0], b[0]);
      }
      LexLeAntisymmetric(a[1..], b[1..]);
      assert a == [a[0]] + a[1..] && b == [b[0]] + b[1..];
    }
  }

  predicate StrictlySorted(xs: seq<string>)
  {
    forall i, j :: 0 <= i < j < |xs| ==> LexLt(xs[i], xs[j])
  }

  predicate Distinct<T(==)>(xs: seq<T>)
  {
    forall i, j :: 0 <= i < j < |xs| ==> xs[i] != xs[j]
  }

  /** Inserts a new string into a strictly sorted list. */
  function Insert(x: string, s: seq<string>): (r: seq<string>)
    requires StrictlySorted(s) && x !in s
    ensures StrictlySorted(r)
    ensures multiset(r) == multiset(s) + multiset{x}
  {
    if s == [] then [x]
    else if LexLe(x, s[0]) then
      forall j | 1 <= j < |s| ensures LexLe(x, s[j]) {
        LexLeTransitive(x, s[0], s[j]);
      }
      [x] + s
    else
      var t := Insert(x, s[1..]);
      assert s == [s[0]] + s[1..];
      LexLeTotal(x, s[0]);
      forall j | 0 <= j < |t| ensures LexLt(s[0], t[j]) {
        assert t[j] in multiset(s[1..]) + multiset{x};
        if t[j] != x {
          var k :| 1 <= k < |s| && s[k] == t[j];
        }
      }
      [s[0]] + t
  }

  /** `Array.from(set).sort()`: a list of distinct strings in code-unit order. */
  function SortDistinct(xs: seq<string>): (r: seq<string>)
    requires Distinct(xs)
    ensures StrictlySorted(r)
    ensures multiset(r) == multiset(xs)
  {
    if xs == [] then []
    else
      var init := xs[..|xs| - 1];
      var sorted := SortDistinct(init);
      assert xs[|xs| - 1] !in multiset(init);
      assert xs == init + [xs[|xs| - 1]];
      Insert(xs[|xs| - 1], sorted)
  }
}
