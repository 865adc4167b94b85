/** The last stage of `MAPITagsScraper/nameNormalizer.py`: turning the raw
    ids gathered for one tag into its distinct canonical ids and its
    candidate names (`selectAndConvertNamesAdmissibleToId`,
    `prepareNamesAndOrigIds`), with `dedupPreservingOrder` and
    `sorted(set(...))` written out. The conversion these call is a
    parameter `convert`; in the system it is `NameNormalizer.ConvertName`
    with the library's `inflection.underscore` (see `ConvertWith`), and
    `None` is a conversion that raises. */
module Aggregation {
  import opened Strings
  import opened Classifier
  import opened FilterBanks
  import opened NameNormalizer

  /** `convertName` as the converter the aggregation functions take. */
  function ConvertWith(underscore: string -> string): (convert: string -> Option<string>)
    ensures forall n :: convert(n) == ConvertName(n, underscore)
  {
    n => ConvertName(n, underscore)
  }

  // ---------------------------------------------------------------------
  // dedupPreservingOrder
  // ---------------------------------------------------------------------

  predicate Distinct<T(==)>(xs: seq<T>)
  {
    forall i, j :: 0 <= i < j < |xs| ==> xs[i] != xs[j]
  }

  /** Where `x` first occurs in `xs`. */
  function FirstIndex<T(==)>(xs: seq<T>, x: T): (i: nat)
    requires x in xs
    ensures i < |xs| && xs[i] == x && x !in xs[..i]
  {
    if xs[0] == x then 0 else 1 + FirstIndex(xs[1..], x)
  }

  lemma {:induction false} FirstIndexInPrefix<T>(xs: seq<T>, ys: seq<T>, x: T)
    requires x in xs
    ensures FirstIndex(xs + ys, x) == FirstIndex(xs, x)
  {
    if xs[0] != x {
      assert (xs + ys)[1..] == xs[1..] + ys;
      FirstIndexInPrefix(xs[1..], ys, x);
    }
  }

  /** `dedupPreservingOrder`: the first occurrence of every element. */
  function Dedup<T(==, !new)>(xs: seq<T>): (r: seq<T>)
    ensures Distinct(r)
    ensures forall x :: x in r <==> x in xs
    ensures |r| <= |xs|
  {
    if xs == [] then []
    else
      var init := xs[..|xs| - 1];
      assert xs == init + [xs[|xs| - 1]];
      var d := Dedup(init);
      if xs[|xs| - 1] in d then d else d + [xs[|xs| - 1]]
  }

  /** The kept elements come in the order of their first occurrences. */
  lemma {:induction false} DedupKeepsFirstSeenOrder<T(!new)>(xs: seq<T>)
    ensures forall i, j :: 0 <= i < j < |Dedup(xs)| ==>
      FirstIndex(xs, Dedup(xs)[i]) < FirstIndex(xs, Dedup(xs)[j])
  {
    if xs != [] {
      var init := xs[..|xs| - 1];
      var last := xs[|xs| - 1];
      assert xs == init + [last];
      DedupKeepsFirstSeenOrder(init);
      var d := Dedup(init);
      forall y | y in d ensures FirstIndex(xs, y) == FirstIndex(init, y) {
        FirstIndexInPrefix(init, [last], y);
      }
      if last !in d {
        assert FirstIndex(xs, last) == |init| by {
          assert xs[..|init|] == init;
        }
        var r := d + [last];
        forall i, j | 0 <= i < j < |r| ensures FirstIndex(xs, r[i]) < FirstIndex(xs, r[j]) {
          assert r[i] == d[i];
          if j < |d| { assert r[j] == d[j]; }
        }
      }
    }
  }

  /** A sequence without repeats is its own deduplication. */
  lemma {:induction false} DedupOfDistinct<T(!new)>(xs: seq<T>)
    requires Distinct(xs)
    ensures Dedup(xs) == xs
  {
    if xs != [] {
      var init := xs[..|xs| - 1];
      assert Distinct(init);
      DedupOfDistinct(init);
      assert xs[|xs| - 1] !in init;
      assert xs == init + [xs[|xs| - 1]];
    }
  }

  // ---------------------------------------------------------------------
  // sorted(set(...))
  // ---------------------------------------------------------------------

  /** Python's `<` on `str`: code points compared left to right, and a
      proper prefix comes first. */
  predicate StrLess(a: string, b: string)
    decreases |a|
  {
    |b| > 0 && (|a| == 0 || a[0] < b[0] || (a[0] == b[0] && StrLess(a[1..], b[1..])))
  }

  lemma {:induction false} StrLessIrreflexive(a: string)
    ensures !StrLess(a, a)
    decreases |a|
  {
    if |a| > 0 { StrLessIrreflexive(a[1..]); }
  }

  lemma {:induction false} StrLessTransitive(a: string, b: string, c: string)
    requires StrLess(a, b) && StrLess(b, c)
    ensures StrLess(a, c)
    decreases |a|
  {
    if |a| > 0 && a[0] == b[0] && b[0] == c[0] {
      StrLessTransitive(a[1..], b[1..], c[1..]);
    }
  }

  lemma {:induction false} StrLessTotal(a: string, b: string)
    ensures a == b || StrLess(a, b) || StrLess(b, a)
    decreases |a|
  {
    if |a| > 0 && |b| > 0 && a[0] == b[0] {
      StrLessTotal(a[1..], b[1..]);
      if a[1..] == b[1..] {
        assert a == [a[0]] + a[1..] && b == [b[0]] + b[1..];
      }
    }
  }

  predicate StrictlySorted(xs: seq<string>)
  {
    forall i, j :: 0 <= i < j < |xs| ==> StrLess(xs[i], xs[j])
  }

  /** `x` put into its place in a strictly sorted sequence, unless there. */
  function Insert(x: string, xs: seq<string>): (r: seq<string>)
    requires StrictlySorted(xs)
    ensures StrictlySorted(r)
    ensures forall y :: y in r <==> y == x || y in xs
  {
    if xs == [] then [x]
    else if x == xs[0] then xs
    else if StrLess(x, xs[0]) then
      assert forall j :: 0 <= j < |xs| ==> StrLess(x, xs[j]) by {
        forall j | 0 < j < |xs| ensures StrLess(x, xs[j]) {
          StrLessTransitive(x, xs[0], xs[j]);
        }
      }
      [x] + xs
    else
      StrLessTotal(x, xs[0]);
      var t := Insert(x, xs[1..]);
      assert forall y :: y in t ==> StrLess(xs[0], y);
      [xs[0]] + t
  }

  /** `sorted(set(xs))`. */
  function SortedUnique(xs: seq<string>): (r: seq<string>)
    ensures StrictlySorted(r)
    ensures forall y :: y in r <==> y in xs
  {
    if xs == [] then []
    else
      var init := xs[..|xs| - 1];
      assert xs == init + [xs[|xs| - 1]];
      Insert(xs[|xs| - 1], SortedUnique(init))
  }

  /** The head of a strictly sorted sequence is below every other element. */
  lemma SortedHeadIsLeast(a: seq<string>, y: string)
    requires StrictlySorted(a) && y in a
    ensures y == a[0] || StrLess(a[0], y)
  {
  }

  /** There is only one strictly sorted listing of a set of strings, so
      `SortedUnique` is `sorted(set(xs))` whatever way it is computed. */
  lemma {:induction false} StrictlySortedUnique(a: seq<string>, b: seq<string>)
    requires StrictlySorted(a) && StrictlySorted(b)
    requires forall y :: y in a <==> y in b
    ensures a == b
  {
    if a != [] { assert a[0] in a; }
    if b != [] { assert b[0] in b; }
    if a != [] && b != [] {
      SortedHeadIsLeast(b, a[0]);
      SortedHeadIsLeast(a, b[0]);
      if a[0] != b[0] {
        StrLessTransitive(a[0], b[0], a[0]);
        StrLessIrreflexive(a[0]);
      }
      forall y ensures y in a[1..] <==> y in b[1..] {
        StrLessIrreflexive(y);
        if y in a[1..] {
          var i :| 0 <= i < |a| - 1 && a[1..][i] == y;
          assert a[i + 1] == y && StrLess(a[0], a[i + 1]);
          assert y in a;
          var k :| 0 <= k < |b| && b[k] == y;
          assert k != 0;
          assert b[1..][k - 1] == y;
        }
        if y in b[1..] {
          var i :| 0 <= i < |b| - 1 && b[1..][i] == y;
          assert b[i + 1] == y && StrLess(b[0], b[i + 1]);
          assert y in b;
          var k :| 0 <= k < |a| && a[k] == y;
          assert k != 0;
          assert a[1..][k - 1] == y;
        }
      }
      StrictlySortedUnique(a[1..], b[1..]);
      assert a == [a[0]] + a[1..] && b == [b[0]] + b[1..];
    }
  }

  lemma StrictlySortedIsDistinct(xs: seq<string>)
    requires StrictlySorted(xs)
    ensures Distinct(xs)
  {
    forall i, j | 0 <= i < j < |xs| ensures xs[i] != xs[j] {
      StrLessIrreflexive(xs[i]);
    }
  }

  // ---------------------------------------------------------------------
  // selectAndConvertNamesAdmissibleToId
  // ---------------------------------------------------------------------

  /** A non-empty run of `\w` characters. */
  predicate AllWordChars(w: string)
  {
    |w| > 0 && forall j :: 0 <= j < |w| ==> IsWordChar(w[j])
  }

  /** `allowedKSIdRx.match`, `^\w+$`: word characters only, possibly
      followed by one final newline, before which `$` also matches. */
  predicate Admissible(s: string)
  {
    AllWordChars(s) || (|s| > 0 && s[|s| - 1] == '\n' && AllWordChars(s[..|s| - 1]))
  }

  /** The generator drained: the names of the admissible ids up to the
      first conversion that raises, and whether none raised. */
  datatype Converted = Converted(names: seq<string>, complete: bool)

  /** `selectAndConvertNamesAdmissibleToId`. */
  function SelectAndConvert(ids: seq<string>, convert: string -> Option<string>): (c: Converted)
    ensures |c.names| <= |ids|
    ensures c.complete <==>
      forall i :: 0 <= i < |ids| && Admissible(ids[i]) ==> convert(ids[i]).Some?
    ensures forall x :: x in c.names ==> exists i :: ConvertsTo(ids, i, convert, x)
  {
    if ids == [] then Converted([], true)
    else
      var rest := SelectAndConvert(ids[1..], convert);
      assert forall x :: x in rest.names ==> exists i :: ConvertsTo(ids, i, convert, x) by {
        forall x | x in rest.names ensures exists i :: ConvertsTo(ids, i, convert, x) {
          var i :| ConvertsTo(ids[1..], i, convert, x);
          assert ConvertsTo(ids, i + 1, convert, x);
        }
      }
      if !Admissible(ids[0]) then rest
      else
        match convert(ids[0])
        case None => Converted([], false)
        case Some(x) =>
          assert ConvertsTo(ids, 0, convert, x);
          Converted([x] + rest.names, rest.complete)
  }

  /** The admissible id `ids[i]` converts to `x`. */
  predicate ConvertsTo(ids: seq<string>, i: int, convert: string -> Option<string>, x: string)
  {
    0 <= i < |ids| && Admissible(ids[i]) && convert(ids[i]) == Some(x)
  }

  /** The generator works id by id: draining a concatenation drains the
      first part, and goes on to the second only if the first did not
      raise. */
  lemma {:induction false} SelectAndConvertConcat(a: seq<string>, b: seq<string>, convert: string -> Option<string>)
    ensures var ca := SelectAndConvert(a, convert);
      SelectAndConvert(a + b, convert) ==
        if ca.complete then
          Converted(ca.names + SelectAndConvert(b, convert).names, SelectAndConvert(b, convert).complete)
        else ca
  {
    if a == [] {
      assert a + b == b;
    } else {
      assert (a + b)[1..] == a[1..] + b;
      SelectAndConvertConcat(a[1..], b, convert);
      var cb := SelectAndConvert(b, convert);
      var rest := SelectAndConvert(a[1..], convert);
      if Admissible(a[0]) && convert(a[0]).Some? && rest.complete {
        assert [convert(a[0]).value] + (rest.names + cb.names) ==
          ([convert(a[0]).value] + rest.names) + cb.names;
      }
    }
  }

  /** When nothing raises, every admissible id contributes its name. */
  lemma {:induction false} SelectAndConvertCovers(ids: seq<string>, convert: string -> Option<string>)
    requires SelectAndConvert(ids, convert).complete
    ensures forall i :: 0 <= i < |ids| && Admissible(ids[i]) ==>
      convert(ids[i]).value in SelectAndConvert(ids, convert).names
  {
    if ids != [] {
      SelectAndConvertCovers(ids[1..], convert);
      forall i | 1 <= i < |ids| && Admissible(ids[i])
        ensures convert(ids[i]).value in SelectAndConvert(ids, convert).names
      {
        assert ids[i] == ids[1..][i - 1];
      }
    }
  }

  /** `$` also matches just before a final newline, so `re.match` admits
      `PR_X` followed by a newline, which the full match rejects. */
  lemma NewlineAdmitted()
    ensures Admissible("PR_X\n") && !FullmatchAdmissible("PR_X\n")
  {
    var s := "PR_X\n";
    assert s[..4] == "PR_X";
    assert AllWordChars("PR_X") by {
      assert IsWordChar('P') && IsWordChar('R') && IsWordChar('_') && IsWordChar('X');
    }
    assert !IsWordChar(s[4]);
  }

  /** The newline `re.match` lets through reaches the name: `convertName`
      hands it on, and the name yielded is not an identifier. */
  lemma AdmissibleLetsNewlineThrough(underscore: string -> string)
    ensures Admissible("PR_X\n") && !FullmatchAdmissible("PR_X\n")
    ensures ConvertName("PR_X\n", underscore) == Some("x\n")
    ensures !AllIn("x\n", IsLowerWordChar)
  {
    NewlineAdmitted();
    ConvertNameKeepsFinalNewline(underscore);
    assert !IsLowerWordChar("x\n"[1]);
  }

  /** The test `allowedKSIdRx` evidently stands for, `re.fullmatch`: word
      characters from the first to the last. */
  predicate FullmatchAdmissible(s: string)
  {
    AllWordChars(s)
  }

  /** Under the full-match test every admitted `PR_` id yields a name made
      of `[a-z0-9_]` only, and the test admits nothing `re.match` rejects. */
  lemma FullmatchAdmissibleYieldsIdentifier(n: string, underscore: string -> string)
    requires FullmatchAdmissible(n) && Classify(n).0 == PrTag
    ensures Admissible(n)
    ensures ConvertName(n, underscore).Some? ==> AllIn(ConvertName(n, underscore).value, IsLowerWordChar)
  {
    ConvertNamePrIsLowerWord(n, underscore);
  }

  // ---------------------------------------------------------------------
  // prepareNamesAndOrigIds
  // ---------------------------------------------------------------------

  /** What `prepareNamesAndOrigIds` returns when nothing raises: the
      distinct canonical ids, the names, and whether every admissible id
      converted (with `sort` false a raising conversion ends the names
      early instead of aborting the call). */
  datatype Prepared = Prepared(origIds: seq<string>, names: seq<string>, complete: bool)

  /** The raw ids after `canonicalizeOrigName`, in order, with repeats. */
  function CanonicalizeAll(ids: seq<string>): (r: seq<string>)
    ensures |r| == |ids|
    ensures forall i :: 0 <= i < |ids| ==> r[i] == CanonicalizeOrigName(ids[i])
  {
    seq(|ids|, i requires 0 <= i < |ids| => CanonicalizeOrigName(ids[i]))
  }

  /** `prepareNamesAndOrigIds`; `None` is a conversion raising while
      `sorted(set(...))` drains the generator. */
  function PrepareNamesAndOrigIds(ids: seq<string>, sort: bool, convert: string -> Option<string>): Option<Prepared>
  {
    var origIds := Dedup(CanonicalizeAll(ids));
    var c := SelectAndConvert(origIds, convert);
    if sort then
      if c.complete then Some(Prepared(origIds, SortedUnique(c.names), true)) else None
    else Some(Prepared(origIds, Dedup(c.names), c.complete))
  }

  /** The canonical ids are distinct, in first-seen order, and are exactly
      the canonicalized raw ids; every name comes from an admissible one
      of them; the call fails only when sorting and some admissible id
      fails to convert. */
  lemma PrepareNamesAndOrigIdsIds(ids: seq<string>, sort: bool, convert: string -> Option<string>)
    ensures var r := PrepareNamesAndOrigIds(ids, sort, convert);
      var origIds := Dedup(CanonicalizeAll(ids));
      (r.None? <==> (sort && exists i :: 0 <= i < |origIds| && Admissible(origIds[i]) &&
                                          convert(origIds[i]).None?)) &&
      (r.Some? ==>
        r.value.origIds == origIds &&
        Distinct(r.value.origIds) &&
        (forall x :: x in r.value.origIds <==> exists i :: 0 <= i < |ids| && x == CanonicalizeOrigName(ids[i])) &&
        (forall x :: x in r.value.names ==> exists i :: ConvertsTo(r.value.origIds, i, convert, x)) &&
        Distinct(r.value.names))
  {
    var origIds := Dedup(CanonicalizeAll(ids));
    var c := SelectAndConvert(origIds, convert);
    if sort && c.complete {
      StrictlySortedIsDistinct(SortedUnique(c.names));
    }
    forall x ensures x in origIds <==> exists i :: 0 <= i < |ids| && x == CanonicalizeOrigName(ids[i]) {
      if x in origIds {
        var i :| 0 <= i < |ids| && CanonicalizeAll(ids)[i] == x;
      }
    }
  }

  /** The canonical ids keep the order in which they first appear among
      the canonicalized raw ids. */
  lemma PrepareNamesAndOrigIdsOrder(ids: seq<string>, sort: bool, convert: string -> Option<string>)
    requires PrepareNamesAndOrigIds(ids, sort, convert).Some?
    ensures var o := PrepareNamesAndOrigIds(ids, sort, convert).value.origIds;
      forall i, j :: 0 <= i < j < |o| ==>
        FirstIndex(CanonicalizeAll(ids), o[i]) < FirstIndex(CanonicalizeAll(ids), o[j])
  {
    DedupKeepsFirstSeenOrder(CanonicalizeAll(ids));
  }

  /** Sorting: the names are strictly increasing, so without repeats, and
      every admissible canonical id contributes its name. */
  lemma PrepareNamesAndOrigIdsSorted(ids: seq<string>, convert: string -> Option<string>)
    requires PrepareNamesAndOrigIds(ids, true, convert).Some?
    ensures var r := PrepareNamesAndOrigIds(ids, true, convert).value;
      StrictlySorted(r.names) && r.complete &&
      forall i :: 0 <= i < |r.origIds| && Admissible(r.origIds[i]) ==>
        convert(r.origIds[i]).value in r.names
  {
    SelectAndConvertCovers(Dedup(CanonicalizeAll(ids)), convert);
  }

  /** Without sorting: the names keep the order in which the generator
      first yields them. */
  lemma PrepareNamesAndOrigIdsUnsorted(ids: seq<string>, convert: string -> Option<string>)
    ensures var r := PrepareNamesAndOrigIds(ids, false, convert);
      var yielded := SelectAndConvert(Dedup(CanonicalizeAll(ids)), convert).names;
      r.Some? &&
      (forall x :: x in r.value.names <==> x in yielded) &&
      forall i, j :: 0 <= i < j < |r.value.names| ==>
        FirstIndex(yielded, r.value.names[i]) < FirstIndex(yielded, r.value.names[j])
  {
    DedupKeepsFirstSeenOrder(SelectAndConvert(Dedup(CanonicalizeAll(ids)), convert).names);
  }
}
