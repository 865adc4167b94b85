/** The rewriting steps of `MAPITagsScraper/nameNormalizer.py` that sit
    around the rule banks: numeral reattachment, underscore cleanup and
    trimming, the word splitter and the whole `convertName` pipeline.
    `inflection.underscore`, a library function whose source is not part of
    this model, is a parameter of every operation that calls it. */
module NameNormalizer {
  import opened Strings
  import opened Classifier
  import opened FilterBanks
  import opened RuleTables

  // ---------------------------------------------------------------------
  // attachNumber
  // ---------------------------------------------------------------------

  /** `[h-zH-Z]`. */
  predicate IsLateLetter(c: char) { 'h' <= c <= 'z' || 'H' <= c <= 'Z' }

  /** Where `$` can match a digit group: the end of the string, or just
      before a final newline. */
  function MatchEnd(s: string): (e: nat)
    ensures e <= |s|
    ensures e == |s| || (e == |s| - 1 && s[e] == '\n')
  {
    if |s| > 0 && s[|s| - 1] == '\n' then |s| - 1 else |s|
  }

  /** The start of the longest run of `inClass` characters that ends just
      before index `e`. */
  function RunStart(s: string, e: nat, inClass: char -> bool): (d: nat)
    requires e <= |s|
    ensures d <= e
    ensures forall j :: d <= j < e ==> inClass(s[j])
    ensures d == 0 || !inClass(s[d - 1])
    decreases e
  {
    if e > 0 && inClass(s[e - 1]) then RunStart(s, e - 1, inClass) else e
  }

  /** A run boundary is determined by its end: any `x` with the two
      properties of `RunStart` is `RunStart`. */
  lemma RunStartUnique(s: string, e: nat, inClass: char -> bool, x: nat)
    requires x <= e <= |s|
    requires forall j :: x <= j < e ==> inClass(s[j])
    ensures RunStart(s, e, inClass) <= x
    ensures x == 0 || !inClass(s[x - 1]) ==> RunStart(s, e, inClass) == x
  {
  }

  /** The regular expression `numUnderscoreSeparatedStr` matches
      `s[i..MatchEnd(s)]` with its `_` at index `k`: a letter run `s[i..k]`
      of length at least two that starts with `[h-zH-Z]` (first
      alternative) or ends with one (second alternative), the `_`, and a
      non-empty digit group reaching `$`. */
  predicate PatternMatchesAt(s: string, i: int, k: int)
  {
    0 <= i && i + 2 <= k && k + 1 < MatchEnd(s) &&
    (forall j :: i <= j < k ==> IsLetter(s[j])) &&
    (IsLateLetter(s[i]) || IsLateLetter(s[k - 1])) &&
    s[k] == '_' &&
    (forall j :: k < j < MatchEnd(s) ==> IsDigit(s[j]))
  }

  /** The scan that replaces the regular expression: the `_` must be the
      first character before the trailing digit group, and the letter run
      before it must be at least two long and hold a letter in `h`..`z`. */
  function NumberSeparator(s: string): Option<nat>
  {
    var e := MatchEnd(s);
    var d := RunStart(s, e, IsDigit);
    if 0 < d < e && s[d - 1] == '_' then
      var m := RunStart(s, d - 1, IsLetter);
      if d - 1 - m >= 2 && exists j :: m <= j < d - 1 && IsLateLetter(s[j]) then Some(d - 1)
      else None
    else None
  }

  /** `attachNumber`. */
  function AttachNumber(s: string): string
  {
    match NumberSeparator(s)
    case None => s
    case Some(k) => s[..k] + s[k + 1..]
  }

  /** `attachNumber` removes at most one character, an underscore. */
  lemma AttachNumberDropsAtMostOneUnderscore(s: string)
    ensures AttachNumber(s) == s ||
      exists k :: 0 <= k < |s| && s[k] == '_' && AttachNumber(s) == s[..k] + s[k + 1..]
  {
  }

  /** Where the pattern matches, the scan finds the same `_`. */
  lemma MatchFoundByScan(s: string, i: int, k: int)
    requires PatternMatchesAt(s, i, k)
    ensures NumberSeparator(s) == Some(k)
  {
    RunStartUnique(s, MatchEnd(s), IsDigit, k + 1);
    RunStartUnique(s, k, IsLetter, i);
    if IsLateLetter(s[i]) { assert i < k; } else { assert k - 1 < k; }
  }

  /** Where the scan finds a `_`, the pattern matches with that `_`. */
  lemma ScanFindsMatch(s: string) returns (i: int)
    requires NumberSeparator(s).Some?
    ensures PatternMatchesAt(s, i, NumberSeparator(s).value)
  {
    var k := NumberSeparator(s).value;
    var m := RunStart(s, k, IsLetter);
    var j :| m <= j < k && IsLateLetter(s[j]);
    i := if j + 2 <= k then j else m;
  }

  /** The substitution happens exactly when the pattern matches
      somewhere. */
  lemma AttachNumberMatchesPattern(s: string)
    ensures (exists i, k :: PatternMatchesAt(s, i, k)) <==> NumberSeparator(s).Some?
  {
    if NumberSeparator(s).Some? {
      var i := ScanFindsMatch(s);
    } else if exists i, k :: PatternMatchesAt(s, i, k) {
      var i, k :| PatternMatchesAt(s, i, k);
      MatchFoundByScan(s, i, k);
    }
  }

  /** Where the pattern matches, `attachNumber` removes the pattern's `_`
      and nothing else. */
  lemma AttachNumberRemovesMatchedUnderscore(s: string, i: int, k: int)
    requires PatternMatchesAt(s, i, k)
    ensures AttachNumber(s) == s[..k] + s[k + 1..]
  {
    MatchFoundByScan(s, i, k);
    AttachNumberAtSeparator(s);
  }

  lemma AttachNumberAtSeparator(s: string)
    requires NumberSeparator(s).Some?
    ensures NumberSeparator(s).value < |s|
    ensures AttachNumber(s) == s[..NumberSeparator(s).value] + s[NumberSeparator(s).value + 1..]
  {
  }

  /** A one-letter run before the `_` is not enough. */
  lemma AttachNumberShortRun()
    ensures AttachNumber("x_400") == "x_400"
  {
    assert RunStart("x_400", 5, IsDigit) == 2;
    assert RunStart("x_400", 1, IsLetter) == 0;
  }

  /** A run without a letter in `h`..`z` is not enough either. */
  lemma AttachNumberEarlyLetters()
    ensures AttachNumber("abc_1") == "abc_1"
  {
    assert RunStart("abc_1", 5, IsDigit) == 4;
    assert RunStart("abc_1", 3, IsLetter) == 0;
    assert !IsLateLetter("abc_1"[0]) && !IsLateLetter("abc_1"[1]) && !IsLateLetter("abc_1"[2]);
  }

  /** `fax_1` becomes `fax1`. */
  lemma AttachNumberJoins()
    ensures AttachNumber("fax_1") == "fax1"
  {
    var s := "fax_1";
    assert RunStart(s, 5, IsDigit) == 4;
    assert RunStart(s, 3, IsLetter) == 0;
    assert IsLateLetter(s[2]);
    assert NumberSeparator(s) == Some(3);
    assert s[..3] + s[4..] == "fax1";
  }

  /** The digit group may end just before a final newline. */
  lemma AttachNumberBeforeNewline()
    ensures AttachNumber("fax_1\n") == "fax1\n"
  {
    var s := "fax_1\n";
    assert MatchEnd(s) == 5;
    assert RunStart(s, 5, IsDigit) == 4;
    assert RunStart(s, 3, IsLetter) == 0;
    assert IsLateLetter(s[2]);
    assert NumberSeparator(s) == Some(3);
    assert s[..3] + s[4..] == "fax1\n";
  }

  /** Removing an underscore keeps the characters other than `_`. */
  lemma AttachNumberKeepsNonUnderscore(s: string)
    ensures HasNonUnderscore(AttachNumber(s)) <==> HasNonUnderscore(s)
  {
    if NumberSeparator(s).Some? {
      var k := NumberSeparator(s).value;
      assert s == s[..k] + [s[k]] + s[k + 1..];
      HasNonUnderscoreConcat(s[..k], s[k + 1..]);
      HasNonUnderscoreConcat(s[..k] + [s[k]], s[k + 1..]);
      HasNonUnderscoreConcat(s[..k], [s[k]]);
    }
  }

  /** Removing one character keeps a text inside any character class. */
  lemma AttachNumberKeepsClass(s: string, cls: char -> bool)
    requires AllIn(s, cls)
    ensures AllIn(AttachNumber(s), cls)
  {
    if NumberSeparator(s).Some? {
      AttachNumberAtSeparator(s);
      var k := NumberSeparator(s).value;
      var t := AttachNumber(s);
      forall j | 0 <= j < |t| ensures cls(t[j]) {
        if j < k { assert t[j] == s[j]; } else { assert t[j] == s[j + 1]; }
      }
    }
  }

  // ---------------------------------------------------------------------
  // fixMultipleUnderscores
  // ---------------------------------------------------------------------

  /** The characters of `s` other than `_`, in order. */
  function WithoutUnderscores(s: string): (r: string)
    ensures |r| <= |s|
  {
    if s == [] then []
    else (if s[0] == '_' then [] else [s[0]]) + WithoutUnderscores(s[1..])
  }

  lemma {:induction false} WithoutUnderscoresEmpty(s: string)
    ensures WithoutUnderscores(s) == [] <==> !HasNonUnderscore(s)
  {
    if s != [] {
      WithoutUnderscoresEmpty(s[1..]);
      HasNonUnderscoreConcat([s[0]], s[1..]);
      assert s == [s[0]] + s[1..];
    }
  }

  /** `fixMultipleUnderscores`: every run of `_` becomes a single `_`. */
  function FixMultipleUnderscores(s: string): (r: string)
    ensures NoDoubleUnderscore(r)
    ensures WithoutUnderscores(r) == WithoutUnderscores(s)
    ensures |r| <= |s| && (|r| == 0 <==> |s| == 0)
    ensures |s| > 0 ==> (r[0] == '_' <==> s[0] == '_')
    ensures |s| > 0 ==> (r[|r| - 1] == '_' <==> s[|s| - 1] == '_')
  {
    if |s| < 2 then s
    else if s[0] == '_' && s[1] == '_' then FixMultipleUnderscores(s[1..])
    else
      var t := FixMultipleUnderscores(s[1..]);
      NoDoubleUnderscoreConcat([s[0]], t);
      assert ([s[0]] + t)[1..] == t;
      [s[0]] + t
  }

  /** The collapse changes nothing exactly on strings without `__`. */
  lemma {:induction false} FixMultipleUnderscoresFixpoint(s: string)
    ensures FixMultipleUnderscores(s) == s <==> NoDoubleUnderscore(s)
  {
    if |s| >= 2 {
      NoDoubleUnderscoreConcat([s[0]], s[1..]);
      assert s == [s[0]] + s[1..];
      FixMultipleUnderscoresFixpoint(s[1..]);
      if s[0] == '_' && s[1] == '_' {
        assert |FixMultipleUnderscores(s)| < |s|;
      }
    }
  }

  lemma FixMultipleUnderscoresKeepsNonUnderscore(s: string)
    ensures HasNonUnderscore(FixMultipleUnderscores(s)) <==> HasNonUnderscore(s)
  {
    WithoutUnderscoresEmpty(s);
    WithoutUnderscoresEmpty(FixMultipleUnderscores(s));
  }

  /** Two underscores in a row collapse like one. With
      `FixMultipleUnderscoresFixpoint` this pins the collapse down: it
      removes the extra `_` of each run and nothing else, so `a__b` gives
      `a_b`. */
  lemma {:induction false} FixMultipleUnderscoresCollapsesPair(a: string, b: string)
    ensures FixMultipleUnderscores(a + "__" + b) == FixMultipleUnderscores(a + "_" + b)
    decreases |a|
  {
    if a == [] {
      assert ("__" + b)[1..] == "_" + b;
    } else {
      var s, t := a + "__" + b, a + "_" + b;
      assert s[1..] == a[1..] + "__" + b;
      assert t[1..] == a[1..] + "_" + b;
      assert s[0] == t[0] && s[1] == t[1];
      FixMultipleUnderscoresCollapsesPair(a[1..], b);
    }
  }

  /** The collapse only removes characters, so it keeps a text inside any
      character class. */
  lemma {:induction false} FixMultipleUnderscoresKeepsClass(s: string, cls: char -> bool)
    requires AllIn(s, cls)
    ensures AllIn(FixMultipleUnderscores(s), cls)
    decreases |s|
  {
    if |s| >= 2 {
      assert AllIn(s[1..], cls) by {
        forall j | 0 <= j < |s| - 1 ensures cls(s[1..][j]) { assert s[1..][j] == s[j + 1]; }
      }
      FixMultipleUnderscoresKeepsClass(s[1..], cls);
    }
  }

  // ---------------------------------------------------------------------
  // The trimming loops of splitJoinedWords
  // ---------------------------------------------------------------------

  /** `s` without its trailing underscores. */
  function StripTrailing(s: string): (r: string)
    ensures r <= s
    ensures r == [] || r[|r| - 1] != '_'
    ensures forall j :: |r| <= j < |s| ==> s[j] == '_'
  {
    if |s| > 0 && s[|s| - 1] == '_' then StripTrailing(s[..|s| - 1]) else s
  }

  /** `s` without its leading underscores. */
  function StripLeading(s: string): (r: string)
    ensures |r| <= |s| && r == s[|s| - |r|..]
    ensures r == [] || r[0] != '_'
    ensures forall j :: 0 <= j < |s| - |r| ==> s[j] == '_'
  {
    if |s| > 0 && s[0] == '_' then StripLeading(s[1..]) else s
  }

  /** `v` is `n[a..]` cut where only underscores follow. */
  predicate IsTrimOf(n: string, a: int, v: string)
  {
    0 <= a && a + |v| <= |n| && v == n[a..a + |v|] &&
    (forall j :: 0 <= j < a ==> n[j] == '_') &&
    (forall j :: a + |v| <= j < |n| ==> n[j] == '_')
  }

  /** What the two loops leave of `n`: `None` when the first loop runs the
      string empty and `n[-1]` raises. */
  function Trimmed(n: string): Option<string>
  {
    var t := StripTrailing(n);
    if t == [] then None else Some(StripLeading(t))
  }

  /** Trimming fails exactly on strings made of underscores only. */
  lemma TrimmedFailsExactly(n: string)
    ensures Trimmed(n).None? <==> !HasNonUnderscore(n)
  {
    var t := StripTrailing(n);
    if t == [] {
      assert forall j :: 0 <= j < |n| ==> n[j] == '_';
    } else {
      assert n[|t| - 1] != '_';
    }
  }

  /** Otherwise it cuts the underscores off both ends and nothing else. */
  lemma TrimmedCutsUnderscores(n: string)
    requires Trimmed(n).Some?
    ensures |Trimmed(n).value| > 0
    ensures Trimmed(n).value[0] != '_' && Trimmed(n).value[|Trimmed(n).value| - 1] != '_'
    ensures exists a :: IsTrimOf(n, a, Trimmed(n).value)
  {
    var t := StripTrailing(n);
    var v := StripLeading(t);
    var a := |t| - |v|;
    assert v == n[a..a + |v|];
    assert v[|v| - 1] == t[|t| - 1];
    assert IsTrimOf(n, a, v);
  }

  /** The loops themselves, the first dropping the last character while it
      is `_`, the second dropping the first. */
  method TrimUnderscores(n: string) returns (r: Option<string>)
    ensures r == Trimmed(n)
  {
    var m := n;
    while |m| > 0 && m[|m| - 1] == '_'
      invariant StripTrailing(m) == StripTrailing(n)
      decreases |m|
    {
      m := m[..|m| - 1];
    }
    if |m| == 0 {
      return None;
    }
    var t := m;
    while m[0] == '_'
      invariant |m| > 0 && m[|m| - 1] != '_'
      invariant StripLeading(m) == StripLeading(t)
      decreases |m|
    {
      m := m[1..];
    }
    return Some(m);
  }

  /** A piece of a string without `__` has none either. */
  lemma NoDoubleUnderscoreSlice(s: string, a: nat, b: nat)
    requires a <= b <= |s| && NoDoubleUnderscore(s)
    ensures NoDoubleUnderscore(s[a..b])
  {
    forall i | 0 <= i < b - a - 1 ensures !(s[a..b][i] == '_' && s[a..b][i + 1] == '_') {
      assert s[a..b][i] == s[a + i] && s[a..b][i + 1] == s[a + i + 1];
    }
  }

  /** Trimming a string without `__` that has a character other than `_`
      gives a canonical shape. */
  lemma TrimmedShape(n: string)
    requires NoDoubleUnderscore(n) && HasNonUnderscore(n)
    ensures Trimmed(n).Some? && IsCanonicalShape(Trimmed(n).value)
  {
    TrimmedFailsExactly(n);
    TrimmedCutsUnderscores(n);
    var v := Trimmed(n).value;
    var a :| IsTrimOf(n, a, v);
    NoDoubleUnderscoreSlice(n, a, a + |v|);
  }

  /** Trimming keeps a text inside any character class. */
  lemma TrimmedKeepsClass(n: string, cls: char -> bool)
    requires AllIn(n, cls) && Trimmed(n).Some?
    ensures AllIn(Trimmed(n).value, cls)
  {
    TrimmedCutsUnderscores(n);
    var v := Trimmed(n).value;
    var a :| IsTrimOf(n, a, v);
    forall j | 0 <= j < |v| ensures cls(v[j]) { assert v[j] == n[a + j]; }
  }

  // ---------------------------------------------------------------------
  // splitJoinedWords
  // ---------------------------------------------------------------------

  /** The middle fixer of `splitJoinedWords` with word segmentation
      switched off: it returns its argument. */
  function NoSegmentation(n: string): Option<string>
  {
    Some(n)
  }

  /** `splitJoinedWords`: the word-splitter bundle, the underscore collapse
      and the two trimming loops. */
  function SplitJoinedWords(tp: OrigIdType, n: string): Option<string>
  {
    match ProcessFilterBundle(tp, n, WordsSplitterFilters, NoSegmentation)
    case None => None
    case Some(m) => Trimmed(FixMultipleUnderscores(m))
  }

  /** The result exists exactly when the input has a character other than
      `_`, and then it has no `__` and no `_` at either end. */
  lemma SplitJoinedWordsShape(tp: OrigIdType, n: string)
    ensures SplitJoinedWords(tp, n).Some? <==> HasNonUnderscore(n)
    ensures SplitJoinedWords(tp, n).Some? ==> IsCanonicalShape(SplitJoinedWords(tp, n).value)
  {
    var bundle := WordsSplitterFilters;
    var bank := ScopedBank(bundle, tp) + bundle.any;
    TablesAreLettered();
    AllLetteredConcat(ScopedBank(bundle, tp), bundle.any);
    assert ProcessFilterBundle(tp, n, bundle, NoSegmentation) == Some(ApplyBank(n, bank)) by {
      BundleWithoutFixer(tp, n, bundle, NoSegmentation);
    }
    var m := ApplyBank(n, bank);
    ApplyBankKeepsNonUnderscore(n, bank);
    FixMultipleUnderscoresKeepsNonUnderscore(m);
    TrimmedFailsExactly(FixMultipleUnderscores(m));
    if HasNonUnderscore(n) {
      TrimmedShape(FixMultipleUnderscores(m));
    }
  }

  /** A text made of `[a-z0-9_]` stays so through the word splitter. */
  lemma SplitJoinedWordsIsLowerWord(tp: OrigIdType, n: string)
    requires AllIn(n, IsLowerWordChar)
    ensures SplitJoinedWords(tp, n).Some? ==> AllIn(SplitJoinedWords(tp, n).value, IsLowerWordChar)
  {
    var bundle := WordsSplitterFilters;
    var bank := ScopedBank(bundle, tp) + bundle.any;
    WordsSplitterFiltersFacts();
    LowerWordReplacementsConcat(ScopedBank(bundle, tp), bundle.any);
    BundleWithoutFixer(tp, n, bundle, NoSegmentation);
    var m := ApplyBank(n, bank);
    ApplyBankKeepsClass(n, bank, IsLowerWordChar);
    FixMultipleUnderscoresKeepsClass(m, IsLowerWordChar);
    if Trimmed(FixMultipleUnderscores(m)).Some? {
      TrimmedKeepsClass(FixMultipleUnderscores(m), IsLowerWordChar);
    }
  }

  // ---------------------------------------------------------------------
  // convertName
  // ---------------------------------------------------------------------

  /** The case step: a `PR_` remainder is lower-cased, every other kind
      goes through `inflection.underscore`. */
  function Cased(tp: OrigIdType, rest: string, underscore: string -> string): string
  {
    if tp != PrTag then underscore(rest) else Lower(rest)
  }

  /** The middle fixer of `convertName`: `attachNumber` for `PR_` names,
      the `MTA` expansion for `ptag` names, lower-casing, then
      `splitJoinedWords`. The `has_attach` replacement discards its result
      and so does nothing. */
  function MiddleFixer(tp: OrigIdType, n: string): Option<string>
  {
    var fixed :=
      if tp == PrTag then AttachNumber(n)
      else if tp == PTag then ReplaceAll(n, "MTA", "MessageTransferAgent")
      else n;
    SplitJoinedWords(tp, Lower(fixed))
  }

  /** `convertName`: classify, case, then the abbreviation bundle with the
      middle fixer between its two banks. `None` is the `IndexError` of
      the trimming loop. */
  function ConvertName(n: string, underscore: string -> string): Option<string>
  {
    var (tp, rest) := Classify(n);
    ProcessFilterBundle(tp, Cased(tp, rest, underscore), Filters, m => MiddleFixer(tp, m))
  }

  /** The middle fixer fails exactly on inputs made of underscores only. */
  lemma MiddleFixerShape(tp: OrigIdType, n: string)
    ensures MiddleFixer(tp, n).Some? <==> HasNonUnderscore(n)
    ensures MiddleFixer(tp, n).Some? ==> IsCanonicalShape(MiddleFixer(tp, n).value)
  {
    var fixed :=
      if tp == PrTag then AttachNumber(n)
      else if tp == PTag then ReplaceAll(n, "MTA", "MessageTransferAgent")
      else n;
    if tp == PrTag {
      AttachNumberKeepsNonUnderscore(n);
    } else if tp == PTag {
      assert "MTA"[0] != '_' && "MessageTransferAgent"[0] != '_';
      ReplaceKeepsNonUnderscore(n, "MTA", "MessageTransferAgent");
    }
    LowerKeepsUnderscores(fixed);
    SplitJoinedWordsShape(tp, Lower(fixed));
  }

  /** `convertName` raises exactly when the cased remainder of the name
      has no character other than `_` (for instance `PR_` or `PR___`); it
      never raises otherwise. */
  lemma ConvertNameFailsExactly(n: string, underscore: string -> string)
    ensures ConvertName(n, underscore).None? <==>
      !HasNonUnderscore(Cased(Classify(n).0, Classify(n).1, underscore))
  {
    var (tp, rest) := Classify(n);
    var c := Cased(tp, rest, underscore);
    TablesAreLettered();
    var s := ApplyBank(c, ScopedBank(Filters, tp));
    ApplyBankKeepsNonUnderscore(c, ScopedBank(Filters, tp));
    MiddleFixerShape(tp, s);
  }

  /** Every name `convertName` returns has no `__` and no `_` at either
      end. */
  lemma ConvertNameShape(n: string, underscore: string -> string)
    ensures ConvertName(n, underscore).Some? ==> IsCanonicalShape(ConvertName(n, underscore).value)
  {
    var (tp, rest) := Classify(n);
    var s := ApplyBank(Cased(tp, rest, underscore), ScopedBank(Filters, tp));
    MiddleFixerShape(tp, s);
    if MiddleFixer(tp, s).Some? {
      AbbreviationsAnyKeepShape();
      ApplyBankKeepsShape(MiddleFixer(tp, s).value, Filters.any);
    }
  }

  /** `PR_` names never reach `inflection.underscore`. */
  lemma ConvertNamePrIgnoresInflection(n: string, u1: string -> string, u2: string -> string)
    requires Classify(n).0 == PrTag
    ensures ConvertName(n, u1) == ConvertName(n, u2)
  {
  }

  /** A text of word characters leaves the middle fixer as `[a-z0-9_]`. */
  lemma MiddleFixerIsLowerWord(tp: OrigIdType, n: string)
    requires AllIn(n, IsWordChar)
    ensures MiddleFixer(tp, n).Some? ==> AllIn(MiddleFixer(tp, n).value, IsLowerWordChar)
  {
    var fixed :=
      if tp == PrTag then AttachNumber(n)
      else if tp == PTag then ReplaceAll(n, "MTA", "MessageTransferAgent")
      else n;
    if tp == PrTag {
      AttachNumberKeepsClass(n, IsWordChar);
    } else if tp == PTag {
      assert AllIn("MessageTransferAgent", IsWordChar);
      ReplaceKeepsClass(n, "MTA", "MessageTransferAgent", IsWordChar);
    }
    LowerOfWordChars(fixed);
    SplitJoinedWordsIsLowerWord(tp, Lower(fixed));
  }

  /** When the cased remainder is made of word characters, the converted
      name is made of `[a-z0-9_]`: every rule replacement is. */
  lemma ConvertNameIsLowerWord(n: string, underscore: string -> string)
    requires AllIn(Cased(Classify(n).0, Classify(n).1, underscore), IsWordChar)
    ensures ConvertName(n, underscore).Some? ==> AllIn(ConvertName(n, underscore).value, IsLowerWordChar)
  {
    var (tp, rest) := Classify(n);
    var c := Cased(tp, rest, underscore);
    FiltersFacts();
    ApplyBankKeepsClass(c, ScopedBank(Filters, tp), IsWordChar);
    var s := ApplyBank(c, ScopedBank(Filters, tp));
    MiddleFixerIsLowerWord(tp, s);
    if MiddleFixer(tp, s).Some? {
      ApplyBankKeepsClass(MiddleFixer(tp, s).value, Filters.any, IsLowerWordChar);
    }
  }

  /** A `PR_` name made of word characters converts to `[a-z0-9_]` only,
      whatever `inflection.underscore` does. */
  lemma ConvertNamePrIsLowerWord(n: string, underscore: string -> string)
    requires Classify(n).0 == PrTag && AllIn(n, IsWordChar)
    ensures ConvertName(n, underscore).Some? ==> AllIn(ConvertName(n, underscore).value, IsLowerWordChar)
  {
    var rest := Classify(n).1;
    var j :| 0 <= j < |PrefixTable| && PrefixTable[j].0 == PrTag && PrefixTable[j].1 + rest == n;
    forall i | 0 <= i < |rest| ensures IsWordChar(rest[i]) {
      assert rest[i] == n[|PrefixTable[j].1| + i];
    }
    LowerOfWordChars(rest);
    ConvertNameIsLowerWord(n, underscore);
  }

  /** The word splitter passes a text of one or two characters without
      `_` untouched: every one of its patterns is longer. */
  lemma SplitJoinedWordsKeepsShortText(tp: OrigIdType, c: string)
    requires 0 < |c| <= 2 && forall j :: 0 <= j < |c| ==> c[j] != '_'
    ensures SplitJoinedWords(tp, c) == Some(c)
  {
    WordsSplitterFiltersFacts();
    var bank := ScopedBank(WordsSplitterFilters, tp) + WordsSplitterFilters.any;
    PatternsLongerThanConcat(ScopedBank(WordsSplitterFilters, tp), WordsSplitterFilters.any, 2);
    BundleWithoutFixer(tp, c, WordsSplitterFilters, NoSegmentation);
    ApplyBankShort(c, bank);
    assert FixMultipleUnderscores(c) == c;
    assert StripTrailing(c) == c;
  }

  /** So does the middle fixer: there is no digit group to reattach. */
  lemma MiddleFixerKeepsShortText()
    ensures MiddleFixer(PrTag, "x\n") == Some("x\n")
  {
    var c := "x\n";
    assert RunStart(c, 1, IsDigit) == 1;
    assert AttachNumber(c) == c;
    assert Lower(c) == c;
    SplitJoinedWordsKeepsShortText(PrTag, c);
  }

  /** A name that ends in a newline keeps it: `PR_X` followed by a newline
      converts to `x` followed by the same newline, since every rule
      pattern is longer than the two characters left. */
  lemma ConvertNameKeepsFinalNewline(underscore: string -> string)
    ensures ConvertName("PR_X\n", underscore) == Some("x\n")
  {
    ClassifyByAnyMatchingPrefix("PR_X\n", 2);
    var c := "x\n";
    assert Lower("X\n") == c;
    FiltersFacts();
    ApplyBankShort(c, ScopedBank(Filters, PrTag));
    MiddleFixerKeepsShortText();
    ApplyBankShort(c, Filters.any);
  }
}
