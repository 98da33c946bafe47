/** Derivation filters and the wildcard matcher behind them. */
module Glob {
  import opened Types

  // ---- The meaning of a pattern --------------------------------------------

  /** What one pattern character may stand for. */
  predicate Fits(p: char, part: string) {
    if p == '*' then true else if p == '?' then |part| == 1 else part == [p]
  }

  function Concat(parts: seq<string>): string {
    if parts == [] then [] else Concat(parts[..|parts| - 1]) + parts[|parts| - 1]
  }

  ghost predicate Splits(pattern: string, s: string, parts: seq<string>) {
    && |parts| == |pattern| && Concat(parts) == s
    && forall i :: 0 <= i < |pattern| ==> Fits(pattern[i], parts[i])
  }

  /** `s` can be cut into one piece for each pattern character. */
  ghost predicate GlobMatches(pattern: string, s: string) {
    exists parts :: Splits(pattern, s, parts)
  }

  // ---- The table's recurrences ---------------------------------------------

  function Front<T>(s: seq<T>): seq<T>
    requires s != []
  {
    s[..|s| - 1]
  }

  function Last<T>(s: seq<T>): T
    requires s != []
  {
    s[|s| - 1]
  }

  lemma {:induction false} ConcatSnoc(parts: seq<string>, part: string)
    ensures Concat(parts + [part]) == Concat(parts) + part
  {
    assert (parts + [part])[..|parts|] == parts;
  }

  lemma {:induction false} SplitSnoc(pattern: string, s: string, parts: seq<string>, p: char, part: string)
    requires Splits(pattern, s, parts) && Fits(p, part)
    ensures GlobMatches(pattern + [p], s + part)
  {
    ConcatSnoc(parts, part);
    assert Splits(pattern + [p], s + part, parts + [part]);
  }

  lemma {:induction false} SplitLast(pattern: string, s: string, parts: seq<string>)
    requires pattern != [] && Splits(pattern, s, parts)
    ensures s == Concat(Front(parts)) + Last(parts) && Fits(Last(pattern), Last(parts))
    ensures GlobMatches(Front(pattern), Concat(Front(parts)))
  {
    assert Splits(Front(pattern), Concat(Front(parts)), Front(parts));
  }

  lemma {:induction false} EmptyPattern(s: string)
    ensures GlobMatches([], s) <==> s == []
  {
    if s == [] {
      assert Splits([], s, []);
    }
  }

  lemma {:induction false} StarShrinks(pattern: string, s: string)
    requires pattern != [] && Last(pattern) == '*' && GlobMatches(pattern, s)
    ensures GlobMatches(Front(pattern), s) || (s != [] && GlobMatches(pattern, Front(s)))
  {
    var parts :| Splits(pattern, s, parts);
    SplitLast(pattern, s, parts);
    var start, part := Concat(Front(parts)), Last(parts);
    if part == [] {
      assert start == s;
    } else {
      var kept :| Splits(Front(pattern), start, kept);
      SplitSnoc(Front(pattern), start, kept, '*', Front(part));
      assert start + Front(part) == Front(s);
      assert pattern == Front(pattern) + ['*'];
    }
  }

  lemma {:induction false} StarSkips(pattern: string, s: string)
    requires pattern != [] && Last(pattern) == '*' && GlobMatches(Front(pattern), s)
    ensures GlobMatches(pattern, s)
  {
    var parts :| Splits(Front(pattern), s, parts);
    SplitSnoc(Front(pattern), s, parts, '*', []);
    assert s + [] == s && pattern == Front(pattern) + ['*'];
  }

  lemma {:induction false} GrowLast(pattern: string, s: string, parts: seq<string>, c: char)
    requires pattern != [] && Last(pattern) == '*' && Splits(pattern, s, parts)
    ensures GlobMatches(pattern, s + [c])
  {
    var longer := parts[|parts| - 1 := Last(parts) + [c]];
    assert Front(longer) == Front(parts);
    assert Concat(longer) == Concat(parts) + [c];
    assert Splits(pattern, s + [c], longer);
  }

  lemma {:induction false} StarGrows(pattern: string, s: string)
    requires pattern != [] && Last(pattern) == '*' && s != [] && GlobMatches(pattern, Front(s))
    ensures GlobMatches(pattern, s)
  {
    var parts :| Splits(pattern, Front(s), parts);
    GrowLast(pattern, Front(s), parts, Last(s));
    assert Front(s) + [Last(s)] == s;
  }

  lemma {:induction false} StarMatches(pattern: string, s: string)
    requires pattern != [] && Last(pattern) == '*'
    ensures GlobMatches(pattern, s) <==>
              GlobMatches(Front(pattern), s) || (s != [] && GlobMatches(pattern, Front(s)))
  {
    if GlobMatches(pattern, s) {
      StarShrinks(pattern, s);
    } else if GlobMatches(Front(pattern), s) {
      StarSkips(pattern, s);
    } else if s != [] && GlobMatches(pattern, Front(s)) {
      StarGrows(pattern, s);
    }
  }

  lemma {:induction false} CharMatches(pattern: string, s: string)
    requires pattern != [] && Last(pattern) != '*'
    ensures GlobMatches(pattern, s) <==>
              s != [] && Fits(Last(pattern), [Last(s)]) && GlobMatches(Front(pattern), Front(s))
  {
    assert pattern == Front(pattern) + [Last(pattern)];
    if GlobMatches(pattern, s) {
      var parts :| Splits(pattern, s, parts);
      SplitLast(pattern, s, parts);
      assert Last(parts) == [Last(s)] && Front(s) == Concat(Front(parts));
    }
    if s != [] && Fits(Last(pattern), [Last(s)]) && GlobMatches(Front(pattern), Front(s)) {
      var kept :| Splits(Front(pattern), Front(s), kept);
      SplitSnoc(Front(pattern), Front(s), kept, Last(pattern), [Last(s)]);
      assert Front(s) + [Last(s)] == s;
    }
  }

  // ---- The table -----------------------------------------------------------

  /** Cell (i, j): the first `i` pattern characters match the first `j` of `s`. */
  ghost predicate Cell(pattern: string, s: string, i: nat, j: nat)
    requires i <= |pattern| && j <= |s|
  {
    GlobMatches(pattern[..i], s[..j])
  }

  lemma {:induction false} CellStep(pattern: string, s: string, i: nat, j: nat)
    requires 0 < i <= |pattern| && 0 < j <= |s|
    ensures Cell(pattern, s, i, j) <==>
      match pattern[i - 1]
      case '*' => Cell(pattern, s, i - 1, j) || Cell(pattern, s, i, j - 1)
      case '?' => Cell(pattern, s, i - 1, j - 1)
      case c => c == s[j - 1] && Cell(pattern, s, i - 1, j - 1)
  {
    assert Front(pattern[..i]) == pattern[..i - 1] && Last(pattern[..i]) == pattern[i - 1];
    assert Front(s[..j]) == s[..j - 1] && Last(s[..j]) == s[j - 1];
    if pattern[i - 1] == '*' {
      StarMatches(pattern[..i], s[..j]);
    } else {
      CharMatches(pattern[..i], s[..j]);
    }
  }

  lemma {:induction false} CellBorder(pattern: string, s: string, i: nat)
    requires i <= |pattern|
    ensures Cell(pattern, s, i, 0) <==> i == 0 || (pattern[i - 1] == '*' && Cell(pattern, s, i - 1, 0))
  {
    if i == 0 {
      EmptyPattern([]);
    } else {
      assert Front(pattern[..i]) == pattern[..i - 1] && Last(pattern[..i]) == pattern[i - 1];
      if pattern[i - 1] == '*' {
        StarMatches(pattern[..i], []);
      } else {
        CharMatches(pattern[..i], []);
      }
    }
  }

  /** Row `i` agrees with the meaning of its cells up to column `n`. */
  ghost predicate RowRight(pattern: string, s: string, matches: array2<bool>, i: nat, n: nat)
    requires matches.Length0 == |pattern| + 1 && matches.Length1 == |s| + 1
    requires i <= |pattern| && n <= |s|
    reads matches
  {
    forall j {:trigger Cell(pattern, s, i, j)} {:trigger matches[i, j]} ::
      0 <= j <= n ==> (matches[i, j] <==> Cell(pattern, s, i, j))
  }

  method FillBorder(pattern: string, s: string, matches: array2<bool>)
    requires matches.Length0 == |pattern| + 1 && matches.Length1 == |s| + 1
    requires forall i, j :: 0 <= i <= |pattern| && 0 <= j <= |s| ==> !matches[i, j]
    modifies matches
    ensures forall i :: 0 <= i <= |pattern| ==> (matches[i, 0] <==> Cell(pattern, s, i, 0))
    ensures forall j :: 0 < j <= |s| ==> !matches[0, j]
  {
    matches[0, 0] := true;
    CellBorder(pattern, s, 0);
    for i := 1 to |pattern| + 1
      invariant forall k :: 0 <= k < i ==> (matches[k, 0] <==> Cell(pattern, s, k, 0))
      invariant forall k :: i <= k <= |pattern| ==> !matches[k, 0]
      invariant forall j :: 0 < j <= |s| ==> !matches[0, j]
    {
      if pattern[i - 1] == '*' {
        matches[i, 0] := matches[i - 1, 0];
      }
      CellBorder(pattern, s, i);
    }
  }

  method FillRow(pattern: string, s: string, matches: array2<bool>, i: nat)
    requires matches.Length0 == |pattern| + 1 && matches.Length1 == |s| + 1
    requires 0 < i <= |pattern|
    requires RowRight(pattern, s, matches, i - 1, |s|) && (matches[i, 0] <==> Cell(pattern, s, i, 0))
    modifies matches
    ensures RowRight(pattern, s, matches, i, |s|)
    ensures forall k :: 0 <= k <= |pattern| && k != i ==> matches[k, 0] == old(matches[k, 0])
  {
    for j := 1 to |s| + 1
      invariant RowRight(pattern, s, matches, i - 1, |s|)
      invariant RowRight(pattern, s, matches, i, j - 1)
      invariant forall k :: 0 <= k <= |pattern| && k != i ==> matches[k, 0] == old(matches[k, 0])
    {
      CellStep(pattern, s, i, j);
      matches[i, j] := match pattern[i - 1]
        case '*' => matches[i - 1, j] || matches[i, j - 1]
        case '?' => matches[i - 1, j - 1]
        case c => c == s[j - 1] && matches[i - 1, j - 1];
    }
  }

  /** The matcher decides the relation. */
  method WildcardMatches(pattern: string, s: string) returns (r: bool)
    ensures r <==> GlobMatches(pattern, s)
  {
    var matches := new bool[|pattern| + 1, |s| + 1]((i, j) => false);
    FillBorder(pattern, s, matches);
    forall j | 0 < j <= |s| ensures !Cell(pattern, s, 0, j) {
      EmptyPattern(s[..j]);
    }
    for i := 1 to |pattern| + 1
      invariant RowRight(pattern, s, matches, i - 1, |s|)
      invariant forall k :: 0 <= k <= |pattern| ==> (matches[k, 0] <==> Cell(pattern, s, k, 0))
    {
      FillRow(pattern, s, matches, i);
    }
    assert pattern[..|pattern|] == pattern && s[..|s|] == s;
    assert Cell(pattern, s, |pattern|, |s|) <==> GlobMatches(pattern, s);
    r := matches[|pattern|, |s|];
  }

  // ---- Filters -------------------------------------------------------------

  datatype Filter = Filter(
    systems: Option<seq<string>>,
    attrPrefix: Option<Path>,
    attrPrefixes: Option<seq<Path>>,
    attrs: Option<seq<Path>>,
    names: Option<seq<string>>,
    drvPaths: Option<seq<string>>,
    includePatterns: Option<seq<string>>,
    excludePatterns: Option<seq<string>>)

  /** Every criterion that is present holds; an absent one holds of anything, and
      an empty list of alternatives of nothing. */
  ghost predicate Selects(f: Filter, d: Derivation) {
    && (f.systems.Some? ==> d.system in f.systems.value)
    && (f.attrPrefix.Some? ==> f.attrPrefix.value <= d.attrPath)
    && (f.attrPrefixes.Some? ==> exists p :: p in f.attrPrefixes.value && p <= d.attrPath)
    && (f.attrs.Some? ==> d.attrPath in f.attrs.value)
    && (f.names.Some? ==> d.name in f.names.value)
    && (f.drvPaths.Some? ==> d.drvPath in f.drvPaths.value)
    && (f.includePatterns.Some? ==> exists p :: p in f.includePatterns.value && GlobMatches(p, d.attr))
    && (f.excludePatterns.Some? ==> forall p :: p in f.excludePatterns.value ==> !GlobMatches(p, d.attr))
  }

  method AttrPathStartsWith(attrPath: Path, prefix: Path) returns (r: bool)
    ensures r <==> prefix <= attrPath
  {
    if |attrPath| < |prefix| {
      return false;
    }
    for i := 0 to |prefix|
      invariant attrPath[..i] == prefix[..i]
    {
      if attrPath[i] != prefix[i] {
        return false;
      }
    }
    return true;
  }

  method AnyPrefix(attrPath: Path, prefixes: seq<Path>) returns (r: bool)
    ensures r <==> exists p :: p in prefixes && p <= attrPath
  {
    for i := 0 to |prefixes|
      invariant forall k :: 0 <= k < i ==> !(prefixes[k] <= attrPath)
    {
      var starts := AttrPathStartsWith(attrPath, prefixes[i]);
      if starts {
        assert prefixes[i] in prefixes;
        return true;
      }
    }
    return false;
  }

  method AnyPattern(patterns: seq<string>, attr: string) returns (r: bool)
    ensures r <==> exists p :: p in patterns && GlobMatches(p, attr)
  {
    for i := 0 to |patterns|
      invariant forall k :: 0 <= k < i ==> !GlobMatches(patterns[k], attr)
    {
      var found := WildcardMatches(patterns[i], attr);
      if found {
        return true;
      }
    }
    return false;
  }

  method MatchesFilter(d: Derivation, f: Filter) returns (r: bool)
    ensures r <==> Selects(f, d)
  {
    var attrPrefixMatches, attrPrefixesMatch, included, excluded := true, true, true, false;
    if f.attrPrefix.Some? {
      attrPrefixMatches := AttrPathStartsWith(d.attrPath, f.attrPrefix.value);
    }
    if f.attrPrefixes.Some? {
      attrPrefixesMatch := AnyPrefix(d.attrPath, f.attrPrefixes.value);
    }
    if f.includePatterns.Some? {
      included := AnyPattern(f.includePatterns.value, d.attr);
    }
    if f.excludePatterns.Some? {
      excluded := AnyPattern(f.excludePatterns.value, d.attr);
    }
    r := (f.systems.None? || d.system in f.systems.value)
      && attrPrefixMatches
      && attrPrefixesMatch
      && (f.attrs.None? || d.attrPath in f.attrs.value)
      && (f.names.None? || d.name in f.names.value)
      && (f.drvPaths.None? || d.drvPath in f.drvPaths.value)
      && included
      && !excluded;
  }

  // ---- Consequences for pattern authors ------------------------------------

  /** A pattern without wildcards matches itself and nothing else. */
  lemma {:induction false} LiteralPattern(pattern: string, s: string)
    requires forall i :: 0 <= i < |pattern| ==> pattern[i] != '*' && pattern[i] != '?'
    ensures GlobMatches(pattern, s) <==> s == pattern
    decreases |pattern|
  {
    if pattern == [] {
      EmptyPattern(s);
    } else {
      CharMatches(pattern, s);
      if s != [] {
        LiteralPattern(Front(pattern), Front(s));
        assert s == Front(s) + [Last(s)] && pattern == Front(pattern) + [Last(pattern)];
      }
    }
  }

  lemma {:induction false} ConcatAppend(a: seq<string>, b: seq<string>)
    ensures Concat(a + b) == Concat(a) + Concat(b)
    decreases |b|
  {
    if b == [] {
      assert a + b == a;
    } else {
      ConcatAppend(a, Front(b));
      assert Front(a + b) == a + Front(b);
    }
  }

  ghost predicate CutAt(a: string, b: string, s: string, k: nat) {
    k <= |s| && GlobMatches(a, s[..k]) && GlobMatches(b, s[k..])
  }

  /** Patterns compose: a concatenation matches exactly the concatenations of
      what its halves match. */
  lemma {:induction false} ConcatMatches(a: string, b: string, s: string)
    ensures GlobMatches(a + b, s) <==> exists k: nat :: CutAt(a, b, s, k)
  {
    if GlobMatches(a + b, s) {
      var parts :| Splits(a + b, s, parts);
      var first, second := parts[..|a|], parts[|a|..];
      assert first + second == parts;
      ConcatAppend(first, second);
      var k := |Concat(first)|;
      SplitsHalves(a, b, parts);
      assert s[..k] == Concat(first) && s[k..] == Concat(second);
      assert CutAt(a, b, s, k);
    }
    if exists k: nat :: CutAt(a, b, s, k) {
      var k: nat :| CutAt(a, b, s, k);
      var first :| Splits(a, s[..k], first);
      var second :| Splits(b, s[k..], second);
      ConcatAppend(first, second);
      assert s == s[..k] + s[k..];
      assert Splits(a + b, s, first + second);
    }
  }

  lemma {:induction false} SplitsHalves(a: string, b: string, parts: seq<string>)
    requires |parts| == |a| + |b| && forall i :: 0 <= i < |parts| ==> Fits((a + b)[i], parts[i])
    ensures Splits(a, Concat(parts[..|a|]), parts[..|a|]) && Splits(b, Concat(parts[|a|..]), parts[|a|..])
  {
    forall i | 0 <= i < |b| ensures Fits(b[i], parts[|a|..][i]) {
      assert (a + b)[|a| + i] == b[i];
    }
    forall i | 0 <= i < |a| ensures Fits(a[i], parts[..|a|][i]) {
      assert (a + b)[i] == a[i];
    }
  }

  /** A literal followed by a star selects by prefix. */
  lemma {:induction false} PrefixPattern(literal: string, s: string)
    requires forall i :: 0 <= i < |literal| ==> literal[i] != '*' && literal[i] != '?'
    ensures GlobMatches(literal + "*", s) <==> literal <= s
  {
    ConcatMatches(literal, "*", s);
    forall k | 0 <= k <= |s| ensures CutAt(literal, "*", s, k) <==> s[..k] == literal {
      LiteralPattern(literal, s[..k]);
      assert Splits("*", s[k..], [s[k..]]) by {
        ConcatSnoc([], s[k..]);
        assert [] + [s[k..]] == [s[k..]];
      }
    }
    if literal <= s {
      assert CutAt(literal, "*", s, |literal|);
    }
  }
}
