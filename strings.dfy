/** ASCII string primitives used by the name normaliser: case mapping,
    prefix/suffix tests, substring occurrence and Python's `str.replace`,
    with the facts about underscores that the cleanup steps rely on. */
module Strings {

  // ---------------------------------------------------------------------
  // Characters
  // ---------------------------------------------------------------------

  predicate IsUpper(c: char) { 'A' <= c <= 'Z' }

  predicate IsLetter(c: char) { 'a' <= c <= 'z' || 'A' <= c <= 'Z' }

  predicate IsDigit(c: char) { '0' <= c <= '9' }

  /** `\w` of a regular expression, restricted to ASCII. */
  predicate IsWordChar(c: char) { IsLetter(c) || IsDigit(c) || c == '_' }

  /** `[a-z0-9_]`: the characters of a lower-case identifier. */
  predicate IsLowerWordChar(c: char) { 'a' <= c <= 'z' || IsDigit(c) || c == '_' }

  /** Every character of `s` is in the class `cls`. */
  predicate AllIn(s: string, cls: char -> bool)
  {
    forall j :: 0 <= j < |s| ==> cls(s[j])
  }

  function LowerChar(c: char): char
  {
    if IsUpper(c) then (c as int - 'A' as int + 'a' as int) as char else c
  }

  /** `str.lower()` on ASCII text. */
  function Lower(s: string): (r: string)
    ensures |r| == |s|
    ensures forall i :: 0 <= i < |s| ==> r[i] == LowerChar(s[i])
  {
    if s == [] then [] else [LowerChar(s[0])] + Lower(s[1..])
  }

  /** Lower-casing never creates or removes an underscore. */
  lemma {:induction false} LowerKeepsUnderscores(s: string)
    ensures forall i :: 0 <= i < |s| ==> (Lower(s)[i] == '_' <==> s[i] == '_')
    ensures HasNonUnderscore(Lower(s)) <==> HasNonUnderscore(s)
  {
    forall i | 0 <= i < |s| ensures Lower(s)[i] == '_' <==> s[i] == '_' {
      assert Lower(s)[i] == LowerChar(s[i]);
    }
    if HasNonUnderscore(s) {
      var i :| 0 <= i < |s| && s[i] != '_';
      assert Lower(s)[i] != '_';
    }
    if HasNonUnderscore(Lower(s)) {
      var i :| 0 <= i < |Lower(s)| && Lower(s)[i] != '_';
      assert s[i] != '_';
    }
  }

  /** Lower-casing a text of word characters gives `[a-z0-9_]` only, and
      keeps every character that is not an upper-case letter. */
  lemma LowerOfWordChars(s: string)
    ensures AllIn(s, IsWordChar) ==> AllIn(Lower(s), IsLowerWordChar)
    ensures forall c :: c in s && !IsUpper(c) ==> c in Lower(s)
  {
    forall c | c in s && !IsUpper(c) ensures c in Lower(s) {
      var i :| 0 <= i < |s| && s[i] == c;
      assert Lower(s)[i] == c;
    }
  }

  // ---------------------------------------------------------------------
  // Prefixes, suffixes, occurrences
  // ---------------------------------------------------------------------

  /** `str.startswith`. */
  predicate StartsWith(s: string, p: string) { |p| <= |s| && s[..|p|] == p }

  /** `str.endswith`. */
  predicate EndsWith(s: string, p: string) { |p| <= |s| && s[|s| - |p|..] == p }

  /** `p` occurs in `s` starting at index `i`. */
  predicate OccursAt(s: string, p: string, i: int)
  {
    0 <= i && i + |p| <= |s| && s[i..i + |p|] == p
  }

  /** Python's `p in s` for strings. */
  predicate Occurs(s: string, p: string)
  {
    exists i :: 0 <= i <= |s| - |p| && OccursAt(s, p, i)
  }

  // ---------------------------------------------------------------------
  // Underscore shape
  // ---------------------------------------------------------------------

  predicate HasNonUnderscore(s: string)
  {
    exists i :: 0 <= i < |s| && s[i] != '_'
  }

  /** No two consecutive underscores. */
  predicate NoDoubleUnderscore(s: string)
  {
    forall i :: 0 <= i < |s| - 1 ==> !(s[i] == '_' && s[i + 1] == '_')
  }

  /** The separator shape of a canonical name: non-empty, no `_` at either
      end and no run of two or more `_`. */
  predicate IsCanonicalShape(s: string)
  {
    |s| > 0 && s[0] != '_' && s[|s| - 1] != '_' && NoDoubleUnderscore(s)
  }

  lemma NoDoubleUnderscoreConcat(a: string, b: string)
    ensures NoDoubleUnderscore(a + b) <==>
      NoDoubleUnderscore(a) && NoDoubleUnderscore(b) &&
      !(|a| > 0 && |b| > 0 && a[|a| - 1] == '_' && b[0] == '_')
  {
    var ab := a + b;
    if NoDoubleUnderscore(a + b) {
      forall i | 0 <= i < |a| - 1 ensures !(a[i] == '_' && a[i + 1] == '_') {
        assert ab[i] == a[i] && ab[i + 1] == a[i + 1];
      }
      forall i | 0 <= i < |b| - 1 ensures !(b[i] == '_' && b[i + 1] == '_') {
        assert ab[|a| + i] == b[i] && ab[|a| + i + 1] == b[i + 1];
      }
      if |a| > 0 && |b| > 0 {
        assert ab[|a| - 1] == a[|a| - 1] && ab[|a|] == b[0];
      }
    }
  }

  lemma HasNonUnderscoreConcat(a: string, b: string)
    ensures HasNonUnderscore(a + b) <==> HasNonUnderscore(a) || HasNonUnderscore(b)
  {
    var ab := a + b;
    if HasNonUnderscore(a) {
      var i :| 0 <= i < |a| && a[i] != '_';
      assert ab[i] == a[i];
    }
    if HasNonUnderscore(b) {
      var i :| 0 <= i < |b| && b[i] != '_';
      assert ab[|a| + i] == b[i];
    }
    if HasNonUnderscore(ab) {
      var i :| 0 <= i < |ab| && ab[i] != '_';
      if i < |a| { assert a[i] == ab[i]; } else { assert b[i - |a|] == ab[i]; }
    }
  }

  // ---------------------------------------------------------------------
  // Python's str.replace
  // ---------------------------------------------------------------------

  /** `s.replace(p, r)`: every non-overlapping occurrence of `p`, scanned
      from the left, is replaced by `r`. An empty `p` matches before every
      character and at the end, as in Python. */
  function ReplaceAll(s: string, p: string, r: string): string
    decreases |s|
  {
    if |p| == 0 then
      (if s == [] then r else r + [s[0]] + ReplaceAll(s[1..], p, r))
    else if |s| < |p| then s
    else if s[..|p|] == p then r + ReplaceAll(s[|p|..], p, r)
    else [s[0]] + ReplaceAll(s[1..], p, r)
  }

  /** A pattern that does not occur leaves the string unchanged. */
  lemma {:induction false} ReplaceAbsent(s: string, p: string, r: string)
    requires |p| > 0 && !Occurs(s, p)
    ensures ReplaceAll(s, p, r) == s
  {
    if |s| >= |p| {
      assert s[..|p|] != p by { assert OccursAt(s, p, 0) ==> Occurs(s, p); }
      forall i | 0 <= i <= |s| - 1 - |p| ensures !OccursAt(s[1..], p, i) {
        assert s[1..][i..i + |p|] == s[i + 1..i + 1 + |p|];
        assert !OccursAt(s, p, i + 1);
      }
      ReplaceAbsent(s[1..], p, r);
    }
  }

  /** Every character of `s.replace(p, r)` comes from `s` or from `r`,
      and a character of `s` that `p` does not contain survives. */
  lemma {:induction false} ReplaceKeepsChars(s: string, p: string, r: string)
    ensures forall c :: c in ReplaceAll(s, p, r) ==> c in s || c in r
    ensures forall c :: c in s && c !in p ==> c in ReplaceAll(s, p, r)
    decreases |s|
  {
    if |p| == 0 {
      if s != [] {
        ReplaceKeepsChars(s[1..], p, r);
        assert s == [s[0]] + s[1..];
      }
    } else if |s| >= |p| {
      if s[..|p|] == p {
        ReplaceKeepsChars(s[|p|..], p, r);
        assert s == s[..|p|] + s[|p|..];
      } else {
        ReplaceKeepsChars(s[1..], p, r);
        assert s == [s[0]] + s[1..];
      }
    }
  }

  /** A replacement whose text is in a character class keeps a text in
      that class. */
  lemma ReplaceKeepsClass(s: string, p: string, r: string, cls: char -> bool)
    requires AllIn(s, cls) && AllIn(r, cls)
    ensures AllIn(ReplaceAll(s, p, r), cls)
  {
    var t := ReplaceAll(s, p, r);
    ReplaceKeepsChars(s, p, r);
    forall j | 0 <= j < |t| ensures cls(t[j]) {
      assert t[j] in t;
      if t[j] in s {
        var i :| 0 <= i < |s| && s[i] == t[j];
      } else {
        var i :| 0 <= i < |r| && r[i] == t[j];
      }
    }
  }

  /** When both the pattern and its replacement have a character other
      than `_`, a replacement neither creates nor destroys such a
      character. */
  lemma {:induction false} ReplaceKeepsNonUnderscore(s: string, p: string, r: string)
    requires HasNonUnderscore(p) && HasNonUnderscore(r)
    ensures HasNonUnderscore(ReplaceAll(s, p, r)) <==> HasNonUnderscore(s)
  {
    if |s| < |p| {
    } else if s[..|p|] == p {
      ReplaceKeepsNonUnderscore(s[|p|..], p, r);
      HasNonUnderscoreConcat(r, ReplaceAll(s[|p|..], p, r));
      HasNonUnderscoreConcat(p, s[|p|..]);
      assert s == p + s[|p|..];
    } else {
      ReplaceKeepsNonUnderscore(s[1..], p, r);
      HasNonUnderscoreConcat([s[0]], ReplaceAll(s[1..], p, r));
      HasNonUnderscoreConcat([s[0]], s[1..]);
      assert s == [s[0]] + s[1..];
    }
  }

  /** A rule keeps the separator shape when neither text is empty, the
      replacement has no `__`, and each end of the replacement is an
      underscore exactly when the same end of the pattern is. */
  predicate KeepsShape(p: string, r: string)
  {
    |p| > 0 && |r| > 0 && NoDoubleUnderscore(r) &&
    ((p[0] == '_') <==> (r[0] == '_')) &&
    ((p[|p| - 1] == '_') <==> (r[|r| - 1] == '_'))
  }

  /** `o` starts and ends with `_` where `s` does, and is empty where `s` is. */
  predicate SameEnds(s: string, o: string)
  {
    (|o| == 0 <==> |s| == 0) &&
    (|s| > 0 ==> ((o[0] == '_') <==> (s[0] == '_'))) &&
    (|s| > 0 ==> ((o[|o| - 1] == '_') <==> (s[|s| - 1] == '_')))
  }

  /** Swapping the head `a` for a shape-keeping `b` and the tail `t` for a
      tail `ot` with the same ends keeps the whole shape. */
  lemma JoinKeepsShape(a: string, b: string, t: string, ot: string)
    requires KeepsShape(a, b) && NoDoubleUnderscore(a + t)
    requires NoDoubleUnderscore(ot) && SameEnds(t, ot)
    ensures NoDoubleUnderscore(b + ot) && SameEnds(a + t, b + ot)
  {
    NoDoubleUnderscoreConcat(a, t);
    NoDoubleUnderscoreConcat(b, ot);
    assert (a + t)[0] == a[0] && (b + ot)[0] == b[0];
    if |t| == 0 {
      assert a + t == a && b + ot == b;
    } else {
      assert (a + t)[|a + t| - 1] == t[|t| - 1];
      assert (b + ot)[|b + ot| - 1] == ot[|ot| - 1];
    }
  }

  /** A shape-keeping replacement preserves "no `__`", emptiness and
      whether each end of the string is an underscore. */
  lemma {:induction false} ReplaceKeepsShape(s: string, p: string, r: string)
    requires KeepsShape(p, r) && NoDoubleUnderscore(s)
    ensures NoDoubleUnderscore(ReplaceAll(s, p, r)) && SameEnds(s, ReplaceAll(s, p, r))
  {
    if |s| < |p| {
    } else if s[..|p|] == p {
      var t := s[|p|..];
      assert s == p + t;
      NoDoubleUnderscoreConcat(p, t);
      ReplaceKeepsShape(t, p, r);
      JoinKeepsShape(p, r, t, ReplaceAll(t, p, r));
    } else {
      var t := s[1..];
      assert s == [s[0]] + t;
      NoDoubleUnderscoreConcat([s[0]], t);
      ReplaceKeepsShape(t, p, r);
      JoinKeepsShape([s[0]], [s[0]], t, ReplaceAll(t, p, r));
    }
  }
}
