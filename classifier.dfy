/** The origin classifier and the decoration stripper of
    `MAPITagsScraper/nameNormalizer.py`: which naming convention a raw
    identifier follows, the remainder after its fixed prefix, and the
    removal of the `_W` / `_A` width markers from `PR_` names. */
module Classifier {
  import opened Strings

  /** `OrigIdType`: the naming convention of a raw identifier. */
  datatype OrigIdType = Unknown | PidTag | PTag | PrTag | IntSchTag

  const PrTagPrefix: string := "PR_"

  /** `origIdTypeToPrefixMapping`, in the order the classifier tries it. */
  const PrefixTable: seq<(OrigIdType, string)> := [
    (PidTag, "PidTag"),
    (PTag, "ptag"),
    (PrTag, PrTagPrefix),
    (IntSchTag, "InternalSchema")
  ]

  /** No prefix in `PrefixTable[..i]` starts `name`. */
  predicate NoPrefixBefore(name: string, i: int)
    requires 0 <= i <= |PrefixTable|
  {
    forall j :: 0 <= j < i ==> !StartsWith(name, PrefixTable[j].1)
  }

  /** The classification by the table entries from index `i` on, given
      that no earlier entry matched. */
  function ClassifyFrom(name: string, i: nat): (r: (OrigIdType, string))
    requires i <= |PrefixTable|
    ensures r.0 == Unknown ==>
      r.1 == name && forall j :: i <= j < |PrefixTable| ==> !StartsWith(name, PrefixTable[j].1)
    ensures r.0 != Unknown ==>
      exists j :: i <= j < |PrefixTable| && PrefixTable[j].0 == r.0 &&
        PrefixTable[j].1 + r.1 == name &&
        forall m :: i <= m < j ==> !StartsWith(name, PrefixTable[m].1)
    decreases |PrefixTable| - i
  {
    if i == |PrefixTable| then (Unknown, name)
    else if StartsWith(name, PrefixTable[i].1) then
      (PrefixTable[i].0, name[|PrefixTable[i].1|..])
    else ClassifyFrom(name, i + 1)
  }

  /** `detectOrigIdTypeAndSplitFromRestOfName` as a function: the first
      table prefix that starts `name` decides the kind, and the remainder
      is what follows it; when none does, the kind is `Unknown` and the
      remainder is the whole name. */
  function Classify(name: string): (r: (OrigIdType, string))
    ensures r.0 == Unknown <==> NoPrefixBefore(name, |PrefixTable|)
    ensures r.0 == Unknown ==> r.1 == name
    ensures r.0 != Unknown ==>
      exists j :: 0 <= j < |PrefixTable| && PrefixTable[j].0 == r.0 &&
        PrefixTable[j].1 + r.1 == name && NoPrefixBefore(name, j)
  {
    ClassifyFrom(name, 0)
  }

  /** The loop of `detectOrigIdTypeAndSplitFromRestOfName`, with its early
      return. */
  method DetectOrigIdTypeAndSplit(name: string) returns (kind: OrigIdType, rest: string)
    ensures (kind, rest) == Classify(name)
  {
    var i := 0;
    while i < |PrefixTable|
      invariant 0 <= i <= |PrefixTable|
      invariant ClassifyFrom(name, i) == ClassifyFrom(name, 0)
    {
      var (k, v) := PrefixTable[i];
      if StartsWith(name, v) {
        return k, name[|v|..];
      }
      i := i + 1;
    }
    return Unknown, name;
  }

  /** No string starts with two different prefixes of the table, so the
      priority order never decides between two candidates: a name that
      starts with any table prefix is classified by that entry. */
  lemma ClassifyByAnyMatchingPrefix(name: string, j: nat)
    requires j < |PrefixTable| && StartsWith(name, PrefixTable[j].1)
    ensures Classify(name) == (PrefixTable[j].0, name[|PrefixTable[j].1|..])
  {
    var p := PrefixTable[j].1;
    assert name[..|p|] == p;
    forall m | 0 <= m < j ensures !StartsWith(name, PrefixTable[m].1) {
      var q := PrefixTable[m].1;
      // the prefixes of the table already differ in their first two characters
      assert m == 0 || m == 1 || m == 2;
      assert j == 1 || j == 2 || j == 3;
      assert q[0] != p[0] || q[1] != p[1];
      assert name[0] == p[0] && name[1] == p[1];
      if |q| <= |name| {
        assert name[..|q|][0] == name[0] && name[..|q|][1] == name[1];
      }
    }
    ClassifyFromSkips(name, 0, j);
  }

  /** Entries that do not match are passed over. */
  lemma {:induction false} ClassifyFromSkips(name: string, i: nat, j: nat)
    requires i <= j <= |PrefixTable|
    requires forall m :: i <= m < j ==> !StartsWith(name, PrefixTable[m].1)
    ensures ClassifyFrom(name, i) == ClassifyFrom(name, j)
    decreases j - i
  {
    if i < j {
      assert !StartsWith(name, PrefixTable[i].1);
      ClassifyFromSkips(name, i + 1, j);
    }
  }

  /** The remainder of a prefixed name may itself carry a prefix: the
      classifier strips exactly one. */
  lemma RemainderMayClassifyAgain()
    ensures Classify("PR_PR_X") == (PrTag, "PR_X")
    ensures Classify("PR_X") == (PrTag, "X")
  {
    ClassifyByAnyMatchingPrefix("PR_PR_X", 2);
    ClassifyByAnyMatchingPrefix("PR_X", 2);
  }

  const WidePostfix: string := "_W"
  const NarrowPostfix: string := "_A"

  /** `clearPostfixes`: drop one trailing `_W`, or else one trailing `_A`. */
  function ClearPostfixes(n: string): (r: string)
    ensures EndsWith(n, WidePostfix) ==> r + WidePostfix == n
    ensures !EndsWith(n, WidePostfix) && EndsWith(n, NarrowPostfix) ==> r + NarrowPostfix == n
    ensures !EndsWith(n, WidePostfix) && !EndsWith(n, NarrowPostfix) ==> r == n
  {
    if EndsWith(n, WidePostfix) then n[..|n| - |WidePostfix|]
    else if EndsWith(n, NarrowPostfix) then n[..|n| - |NarrowPostfix|]
    else n
  }

  /** `canonicalizeOrigName`: only `PR_` names lose a width marker. */
  function CanonicalizeOrigName(n: string): (r: string)
    ensures !StartsWith(n, PrTagPrefix) ==> r == n
    ensures StartsWith(n, PrTagPrefix) ==> r == ClearPostfixes(n)
  {
    if StartsWith(n, PrTagPrefix) then ClearPostfixes(n) else n
  }

  /** The canonical form is a prefix of the raw id, at most two characters
      shorter, and it differs from it only by a removed `_W` or `_A`. */
  lemma CanonicalizeIsShortPrefix(n: string)
    ensures var r := CanonicalizeOrigName(n);
      r <= n && |n| - 2 <= |r| &&
      (r != n ==> n[|r|..] in {WidePostfix, NarrowPostfix})
  {
    var r := CanonicalizeOrigName(n);
    if StartsWith(n, PrTagPrefix) {
      if EndsWith(n, WidePostfix) {
        assert n == r + WidePostfix;
        assert n[|r|..] == WidePostfix;
      } else if EndsWith(n, NarrowPostfix) {
        assert n == r + NarrowPostfix;
        assert n[|r|..] == NarrowPostfix;
      }
    }
  }

  /** Only one marker is removed: `_A_W` loses its `_W` and keeps `_A`. */
  lemma ClearPostfixesStripsOnce()
    ensures CanonicalizeOrigName("PR_SUBJECT_A_W") == "PR_SUBJECT_A"
    ensures CanonicalizeOrigName("PR_SUBJECT_W") == "PR_SUBJECT"
    ensures CanonicalizeOrigName("PR_SUBJECT_A") == "PR_SUBJECT"
    ensures CanonicalizeOrigName("PidTagSubject_W") == "PidTagSubject_W"
  {
    assert EndsWith("PR_SUBJECT_A_W", WidePostfix);
    assert EndsWith("PR_SUBJECT_W", WidePostfix);
    assert !EndsWith("PR_SUBJECT_A", WidePostfix) && EndsWith("PR_SUBJECT_A", NarrowPostfix);
    assert "PidTagSubject_W"[..3][1] != PrTagPrefix[1];
  }
}
