/** The JavaScript string and array built-ins the scraper relies on, on
    strings as sequences of characters: `split` on one character and its
    inverse `join`, `Array.prototype.indexOf`, `replaceAll` with a string
    pattern, and the default `sort` order with `new Set` de-duplication. */
module JsText {

  // ---------------------------------------------------------------------------
  // split / join
  // ---------------------------------------------------------------------------

  /** `s.split(sep)`: the pieces between separators, always at least one
      (`"".split('|')` is `[""]`, a trailing separator gives a trailing ""). */
  function Split(s: string, sep: char): (r: seq<string>)
    ensures |r| >= 1
    ensures forall i :: 0 <= i < |r| ==> sep !in r[i]
  {
    if s == [] then [""]
    else
      var rest := Split(s[1..], sep);
      if s[0] == sep then [""] + rest else [[s[0]] + rest[0]] + rest[1..]
  }

  /** `pieces.join(sep)`. */
  function Join(pieces: seq<string>, sep: char): string
    requires |pieces| >= 1
  {
    if |pieces| == 1 then pieces[0] else pieces[0] + [sep] + Join(pieces[1..], sep)
  }

  /** Splitting and joining again gives back the string. */
  lemma {:induction false} JoinSplit(s: string, sep: char)
    ensures Join(Split(s, sep), sep) == s
  {
    if s != [] {
      var rest := Split(s[1..], sep);
      JoinSplit(s[1..], sep);
      if s[0] == sep {
        assert Split(s, sep) == [""] + rest;
        assert ([""] + rest)[1..] == rest;
      } else {
        var r := Split(s, sep);
        assert r == [[s[0]] + rest[0]] + rest[1..];
        if |rest| == 1 {
          assert r == [[s[0]] + rest[0]];
        } else {
          assert r[1..] == rest[1..];
          assert Join(rest, sep) == rest[0] + [sep] + Join(rest[1..], sep);
        }
      }
    }
  }

  lemma {:induction false} SplitNoSeparator(s: string, sep: char)
    requires sep !in s
    ensures Split(s, sep) == [s]
    decreases |s|
  {
    if s != [] {
      SplitNoSeparator(s[1..], sep);
      assert [s[0]] + s[1..] == s;
    }
  }

  lemma {:induction false} SplitPrefix(a: string, b: string, sep: char)
    requires sep !in a
    ensures Split(a + [sep] + b, sep) == [a] + Split(b, sep)
    decreases |a|
  {
    if a == [] {
      assert a + [sep] + b == [sep] + b;
      assert ([sep] + b)[1..] == b;
    } else {
      assert (a + [sep] + b)[1..] == a[1..] + [sep] + b;
      SplitPrefix(a[1..], b, sep);
      assert [a[0]] + a[1..] == a;
    }
  }

  /** Joining pieces free of the separator and splitting again gives back the
      pieces: every `|`-field of a well-formed body is recovered exactly. */
  lemma {:induction false} SplitJoin(pieces: seq<string>, sep: char)
    requires |pieces| >= 1
    requires forall i :: 0 <= i < |pieces| ==> sep !in pieces[i]
    ensures Split(Join(pieces, sep), sep) == pieces
  {
    if |pieces| == 1 {
      SplitNoSeparator(pieces[0], sep);
    } else {
      SplitJoin(pieces[1..], sep);
      SplitPrefix(pieces[0], Join(pieces[1..], sep), sep);
      assert [pieces[0]] + pieces[1..] == pieces;
    }
  }

  // ---------------------------------------------------------------------------
  // indexOf
  // ---------------------------------------------------------------------------

  /** `xs.indexOf(x)`: the first position holding `x`, or -1. */
  function IndexOf(xs: seq<string>, x: string): (r: int)
    ensures -1 <= r < |xs|
    ensures r == -1 <==> x !in xs
    ensures r >= 0 ==> xs[r] == x && x !in xs[..r]
  {
    if xs == [] then -1
    else if xs[0] == x then 0
    else
      var k := IndexOf(xs[1..], x);
      assert xs[1..] == xs[1..][..] && (k >= 0 ==> xs[..k + 1] == [xs[0]] + xs[1..][..k]);
      if k == -1 then -1 else k + 1
  }

  // ---------------------------------------------------------------------------
  // replaceAll with a string pattern and replacement
  // ---------------------------------------------------------------------------

  predicate StartsWith(s: string, prefix: string) {
    |prefix| <= |s| && s[..|prefix|] == prefix
  }

  /** The text that replaces one match, as the GetSubstitution operation of
      ECMA-262 expands a string replacement: `$$` gives a dollar, `$&` the
      match, `` $` `` the text before the match and `$'` the text after it. A
      string pattern has no capture groups, so every other `$` is copied
      as it is. */
  function Substitute(rep: string, matched: string, before: string, after: string): string
    decreases |rep|
  {
    if |rep| >= 2 && rep[0] == '$' && rep[1] == '$' then "$" + Substitute(rep[2..], matched, before, after)
    else if |rep| >= 2 && rep[0] == '$' && rep[1] == '&' then matched + Substitute(rep[2..], matched, before, after)
    else if |rep| >= 2 && rep[0] == '$' && rep[1] == '`' then before + Substitute(rep[2..], matched, before, after)
    else if |rep| >= 2 && rep[0] == '$' && rep[1] == '\'' then after + Substitute(rep[2..], matched, before, after)
    else if rep == [] then []
    else [rep[0]] + Substitute(rep[1..], matched, before, after)
  }

  /** A replacement without a dollar is inserted literally. */
  lemma {:induction false} SubstituteLiteral(rep: string, matched: string, before: string, after: string)
    requires '$' !in rep
    ensures Substitute(rep, matched, before, after) == rep
    decreases |rep|
  {
    if rep != [] {
      assert rep[0] != '$';
      SubstituteLiteral(rep[1..], matched, before, after);
      assert [rep[0]] + rep[1..] == rep;
    }
  }

  /** The scan of `replaceAll` over `s`, after the part `done` of the subject
      has been consumed: occurrences of `pat` are replaced left to right and
      without overlap. The inserted text is not scanned again. */
  function ReplaceFrom(done: string, s: string, pat: string, rep: string): string
    requires pat != []
    decreases |s|
  {
    if s == [] then []
    else if StartsWith(s, pat) then
      Substitute(rep, pat, done, s[|pat|..]) + ReplaceFrom(done + pat, s[|pat|..], pat, rep)
    else [s[0]] + ReplaceFrom(done + [s[0]], s[1..], pat, rep)
  }

  /** `s.replaceAll(pat, rep)` with a string pattern and a string
      replacement. */
  function ReplaceAll(s: string, pat: string, rep: string): string
    requires pat != []
  {
    ReplaceFrom([], s, pat, rep)
  }

  /** A stretch that cannot start an occurrence (it lacks the pattern's first
      character) is copied unchanged. */
  lemma {:induction false} ReplaceAllSkips(done: string, a: string, b: string, pat: string, rep: string)
    requires pat != [] && pat[0] !in a
    ensures ReplaceFrom(done, a + b, pat, rep) == a + ReplaceFrom(done + a, b, pat, rep)
    decreases |a|
  {
    if a == [] {
      assert a + b == b && done + a == done;
    } else {
      assert (a + b)[0] == a[0] && (a + b)[1..] == a[1..] + b;
      ReplaceAllSkips(done + [a[0]], a[1..], b, pat, rep);
      calc {
        ReplaceFrom(done, a + b, pat, rep);
        [a[0]] + ReplaceFrom(done + [a[0]], a[1..] + b, pat, rep);
        [a[0]] + (a[1..] + ReplaceFrom(done + [a[0]] + a[1..], b, pat, rep));
        { assert [a[0]] + a[1..] == a && done + [a[0]] + a[1..] == done + a; }
        a + ReplaceFrom(done + a, b, pat, rep);
      }
    }
  }

  /** A character that does not start an occurrence is copied unchanged. */
  lemma ReplaceAllMiss(done: string, c: char, b: string, pat: string, rep: string)
    requires |pat| >= 2 && pat[0] == c && (b == [] || b[0] != pat[1])
    ensures ReplaceFrom(done, [c] + b, pat, rep) == [c] + ReplaceFrom(done + [c], b, pat, rep)
  {
    assert ([c] + b)[1..] == b && ([c] + b)[0] == c;
    if |b| >= 1 {
      assert ([c] + b)[1] == b[0];
    }
  }

  /** An occurrence at the front is replaced by the expanded replacement, and
      the scan resumes after it. */
  lemma ReplaceAllHit(done: string, b: string, pat: string, rep: string)
    requires pat != []
    ensures ReplaceFrom(done, pat + b, pat, rep) == Substitute(rep, pat, done, b) + ReplaceFrom(done + pat, b, pat, rep)
  {
    assert (pat + b)[..|pat|] == pat;
    assert (pat + b)[|pat|..] == b;
  }

  // ---------------------------------------------------------------------------
  // Default sort order and Array.from(new Set(xs)).sort()
  // ---------------------------------------------------------------------------

  /** The comparison of the default `Array.prototype.sort`: lexicographic by
      character code, a proper prefix first. */
  predicate Less(a: string, b: string) {
    if a == [] then b != []
    else if b == [] then false
    else if a[0] != b[0] then a[0] < b[0]
    else Less(a[1..], b[1..])
  }

  lemma {:induction false} LessIrreflexive(a: string)
    ensures !Less(a, a)
  {
    if a != [] {
      LessIrreflexive(a[1..]);
    }
  }

  lemma {:induction false} LessTransitive(a: string, b: string, c: string)
    requires Less(a, b) && Less(b, c)
    ensures Less(a, c)
  {
    if a != [] && b != [] && c != [] && a[0] == b[0] && b[0] == c[0] {
      LessTransitive(a[1..], b[1..], c[1..]);
    }
  }

  lemma {:induction false} LessTotal(a: string, b: string)
    ensures a == b || Less(a, b) || Less(b, a)
  {
    if a != [] && b != [] && a[0] == b[0] {
      LessTotal(a[1..], b[1..]);
      if a[1..] == b[1..] {
        assert a == [a[0]] + a[1..] && b == [b[0]] + b[1..];
      }
    }
  }

  lemma LessAsymmetric(a: string, b: string)
    requires Less(a, b)
    ensures !Less(b, a)
  {
    if Less(b, a) {
      LessTransitive(a, b, a);
      LessIrreflexive(a);
    }
  }

  /** Strictly ascending: sorted, and so free of duplicates. */
  predicate StrictlyAscending(xs: seq<string>) {
    forall i, j :: 0 <= i < j < |xs| ==> Less(xs[i], xs[j])
  }

  /** The strings a list holds, as a set. */
  function Elems(xs: seq<string>): set<string> {
    set x | x in xs
  }

  lemma ConsAscending(h: string, rest: seq<string>)
    requires StrictlyAscending(rest)
    requires forall y :: y in rest ==> Less(h, y)
    ensures StrictlyAscending([h] + rest)
  {
    var r := [h] + rest;
    forall i, j | 0 <= i < j < |r| ensures Less(r[i], r[j]) {
      assert r[j] == rest[j - 1];
      if i > 0 { assert r[i] == rest[i - 1]; }
    }
  }

  lemma HeadBelowAll(xs: seq<string>, x: string)
    requires StrictlyAscending(xs) && xs != [] && Less(x, xs[0])
    ensures forall y :: y in xs ==> Less(x, y)
  {
    forall y | y in xs ensures Less(x, y) {
      var k :| 0 <= k < |xs| && xs[k] == y;
      if k > 0 { LessTransitive(x, xs[0], y); }
    }
  }

  lemma ElemsEmpty(xs: seq<string>)
    ensures Elems(xs) == {} <==> xs == []
  {
    if xs != [] { assert xs[0] in Elems(xs); }
  }

  /** Puts `x` into a strictly ascending list, unless it is already there. */
  function Insert(x: string, xs: seq<string>): (r: seq<string>)
    requires StrictlyAscending(xs)
    ensures StrictlyAscending(r)
    ensures Elems(r) == {x} + Elems(xs)
  {
    if xs == [] then [x]
    else if x == xs[0] then xs
    else if Less(x, xs[0]) then
      HeadBelowAll(xs, x);
      ConsAscending(x, xs);
      [x] + xs
    else
      LessTotal(x, xs[0]);
      assert xs == [xs[0]] + xs[1..];
      var rest := Insert(x, xs[1..]);
      assert forall y :: y in rest ==> Less(xs[0], y) by {
        forall y | y in rest ensures Less(xs[0], y) {
          assert y in Elems(rest);
          if y != x {
            var k :| 0 <= k < |xs[1..]| && xs[1..][k] == y;
            assert xs[k + 1] == y;
          }
        }
      }
      ConsAscending(xs[0], rest);
      assert Elems([xs[0]] + rest) == {xs[0]} + Elems(rest);
      assert Elems(xs) == {xs[0]} + Elems(xs[1..]);
      [xs[0]] + rest
  }

  /** `Array.from(new Set(xs)).sort()`. */
  function SortedUnique(xs: seq<string>): (r: seq<string>)
    ensures StrictlyAscending(r)
    ensures Elems(r) == Elems(xs)
  {
    if xs == [] then []
    else
      var rest := SortedUnique(xs[..|xs| - 1]);
      assert xs == xs[..|xs| - 1] + [xs[|xs| - 1]];
      assert Elems(xs) == Elems(xs[..|xs| - 1]) + {xs[|xs| - 1]};
      Insert(xs[|xs| - 1], rest)
  }

  /** Two strictly ascending lists holding the same strings are equal: the
      outcome of de-duplicating and sorting depends only on the set of
      strings, not on their order or repetitions in the input. */
  lemma {:induction false} AscendingUnique(a: seq<string>, b: seq<string>)
    requires StrictlyAscending(a) && StrictlyAscending(b)
    requires Elems(a) == Elems(b)
    ensures a == b
  {
    ElemsEmpty(a);
    ElemsEmpty(b);
    if a != [] && b != [] {
      assert a[0] in Elems(b) && b[0] in Elems(a);
      var ka :| 0 <= ka < |b| && b[ka] == a[0];
      var kb :| 0 <= kb < |a| && a[kb] == b[0];
      if ka > 0 && kb > 0 {
        LessAsymmetric(b[0], a[0]);
      }
      if ka > 0 && kb == 0 { LessIrreflexive(b[0]); }
      if ka == 0 && kb > 0 { LessIrreflexive(a[0]); }
      assert a[0] == b[0];
      var a', b' := a[1..], b[1..];
      assert Elems(a') == Elems(b') by {
        forall y | y in Elems(a') ensures y in Elems(b') {
          var k :| 0 <= k < |a'| && a'[k] == y;
          assert a[k + 1] == y && Less(a[0], y);
          assert y in Elems(b);
          var m :| 0 <= m < |b| && b[m] == y;
          if m == 0 { LessIrreflexive(y); }
          assert b'[m - 1] == y;
        }
        forall y | y in Elems(b') ensures y in Elems(a') {
          var k :| 0 <= k < |b'| && b'[k] == y;
          assert b[k + 1] == y && Less(b[0], y);
          assert y in Elems(a);
          var m :| 0 <= m < |a| && a[m] == y;
          if m == 0 { LessIrreflexive(y); }
          assert a'[m - 1] == y;
        }
      }
      AscendingUnique(a', b');
      assert a == [a[0]] + a' && b == [b[0]] + b';
    }
  }

  /** De-duplicating and sorting is idempotent and ignores input order. */
  lemma SortedUniqueCanonical(xs: seq<string>, ys: seq<string>)
    requires Elems(xs) == Elems(ys)
    ensures SortedUnique(xs) == SortedUnique(ys)
    ensures SortedUnique(SortedUnique(xs)) == SortedUnique(xs)
  {
    AscendingUnique(SortedUnique(xs), SortedUnique(ys));
    AscendingUnique(SortedUnique(SortedUnique(xs)), SortedUnique(xs));
  }
}
