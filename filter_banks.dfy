/** The filter-bank engine of `MAPITagsScraper/nameNormalizer.py`: an
    ordered list of literal substring rewrites (`processFilterBank`) and a
    bundle of such lists keyed by origin kind, with a mandatory list for
    every kind that runs last (`processFilterBundle`). */
module FilterBanks {
  import opened Strings
  import opened Classifier

  datatype Option<T> = None | Some(value: T)

  /** One rewrite: every occurrence of `pattern` becomes `replacement`. */
  datatype Rule = Rule(pattern: string, replacement: string)

  /** A bundle: the kind-scoped lists, and the list under the `None` key,
      which every kind gets. */
  datatype Bundle = Bundle(scoped: map<OrigIdType, seq<Rule>>, any: seq<Rule>)

  /** `bundle.get(tp, ())`. */
  function ScopedBank(bundle: Bundle, tp: OrigIdType): seq<Rule>
  {
    if tp in bundle.scoped then bundle.scoped[tp] else []
  }

  /** The rules of `bank` applied one after another, in declaration order. */
  function ApplyBank(s: string, bank: seq<Rule>): string
    decreases |bank|
  {
    if bank == [] then s
    else ApplyBank(ReplaceAll(s, bank[0].pattern, bank[0].replacement), bank[1..])
  }

  /** `processFilterBank`: the loop that reassigns `s` once per rule. */
  method ProcessFilterBank(s: string, bank: seq<Rule>) returns (r: string)
    ensures r == ApplyBank(s, bank)
  {
    r := s;
    for i := 0 to |bank|
      invariant ApplyBank(r, bank[i..]) == ApplyBank(s, bank)
    {
      assert bank[i..][1..] == bank[i + 1..];
      r := ReplaceAll(r, bank[i].pattern, bank[i].replacement);
    }
    assert bank[|bank|..] == [];
  }

  /** Running two banks one after the other is running their
      concatenation: later rules see the output of earlier ones. */
  lemma {:induction false} ApplyBankConcat(s: string, a: seq<Rule>, b: seq<Rule>)
    ensures ApplyBank(s, a + b) == ApplyBank(ApplyBank(s, a), b)
    decreases |a|
  {
    if a != [] {
      assert (a + b)[1..] == a[1..] + b;
      ApplyBankConcat(ReplaceAll(s, a[0].pattern, a[0].replacement), a[1..], b);
    } else {
      assert a + b == b;
    }
  }

  /** Rules whose patterns do not occur change nothing. */
  lemma {:induction false} ApplyBankAbsent(s: string, bank: seq<Rule>)
    requires forall i :: 0 <= i < |bank| ==> |bank[i].pattern| > 0 && !Occurs(s, bank[i].pattern)
    ensures ApplyBank(s, bank) == s
  {
    if bank != [] {
      ReplaceAbsent(s, bank[0].pattern, bank[0].replacement);
      ApplyBankAbsent(s, bank[1..]);
    }
  }

  /** Both texts of the rule contain a character other than `_`. */
  predicate Lettered(rule: Rule)
  {
    HasNonUnderscore(rule.pattern) && HasNonUnderscore(rule.replacement)
  }

  predicate AllLettered(bank: seq<Rule>)
  {
    forall i :: 0 <= i < |bank| ==> Lettered(bank[i])
  }

  predicate AllKeepShape(bank: seq<Rule>)
  {
    forall i :: 0 <= i < |bank| ==> KeepsShape(bank[i].pattern, bank[i].replacement)
  }

  /** Every bank of the bundle, scoped or common, is lettered. */
  predicate LetteredBundle(bundle: Bundle)
  {
    (forall tp :: AllLettered(ScopedBank(bundle, tp))) && AllLettered(bundle.any)
  }

  lemma AllLetteredConcat(a: seq<Rule>, b: seq<Rule>)
    requires AllLettered(a) && AllLettered(b)
    ensures AllLettered(a + b)
  {
    forall i | 0 <= i < |a + b| ensures Lettered((a + b)[i]) {
      if i < |a| { assert (a + b)[i] == a[i]; } else { assert (a + b)[i] == b[i - |a|]; }
    }
  }

  lemma AllKeepShapeConcat(a: seq<Rule>, b: seq<Rule>)
    requires AllKeepShape(a) && AllKeepShape(b)
    ensures AllKeepShape(a + b)
  {
    forall i | 0 <= i < |a + b| ensures KeepsShape((a + b)[i].pattern, (a + b)[i].replacement) {
      if i < |a| { assert (a + b)[i] == a[i]; } else { assert (a + b)[i] == b[i - |a|]; }
    }
  }

  /** The replacement text of every rule is made of `[a-z0-9_]`. */
  predicate LowerWordReplacements(bank: seq<Rule>)
  {
    forall i :: 0 <= i < |bank| ==> AllIn(bank[i].replacement, IsLowerWordChar)
  }

  /** Every bank of the bundle, scoped or common, has its replacements in
      `[a-z0-9_]`. */
  predicate LowerWordBundle(bundle: Bundle)
  {
    (forall tp :: LowerWordReplacements(ScopedBank(bundle, tp))) && LowerWordReplacements(bundle.any)
  }

  lemma LowerWordReplacementsConcat(a: seq<Rule>, b: seq<Rule>)
    requires LowerWordReplacements(a) && LowerWordReplacements(b)
    ensures LowerWordReplacements(a + b)
  {
    forall i | 0 <= i < |a + b| ensures AllIn((a + b)[i].replacement, IsLowerWordChar) {
      if i < |a| { assert (a + b)[i] == a[i]; } else { assert (a + b)[i] == b[i - |a|]; }
    }
  }

  /** A bank whose replacements are in `[a-z0-9_]` keeps a text inside any
      character class that contains `[a-z0-9_]`. */
  lemma {:induction false} ApplyBankKeepsClass(s: string, bank: seq<Rule>, cls: char -> bool)
    requires LowerWordReplacements(bank)
    requires forall c :: IsLowerWordChar(c) ==> cls(c)
    requires AllIn(s, cls)
    ensures AllIn(ApplyBank(s, bank), cls)
    decreases |bank|
  {
    if bank != [] {
      assert AllIn(bank[0].replacement, IsLowerWordChar);
      ReplaceKeepsClass(s, bank[0].pattern, bank[0].replacement, cls);
      assert LowerWordReplacements(bank[1..]) by {
        forall i | 0 <= i < |bank| - 1 ensures AllIn(bank[1..][i].replacement, IsLowerWordChar) {
          assert bank[1..][i] == bank[i + 1];
        }
      }
      ApplyBankKeepsClass(ReplaceAll(s, bank[0].pattern, bank[0].replacement), bank[1..], cls);
    }
  }

  /** Every pattern of the bank is longer than `k` characters. */
  predicate PatternsLongerThan(bank: seq<Rule>, k: nat)
  {
    forall i :: 0 <= i < |bank| ==> |bank[i].pattern| > k
  }

  lemma PatternsLongerThanConcat(a: seq<Rule>, b: seq<Rule>, k: nat)
    requires PatternsLongerThan(a, k) && PatternsLongerThan(b, k)
    ensures PatternsLongerThan(a + b, k)
  {
    forall i | 0 <= i < |a + b| ensures |(a + b)[i].pattern| > k {
      if i < |a| { assert (a + b)[i] == a[i]; } else { assert (a + b)[i] == b[i - |a|]; }
    }
  }

  /** A text shorter than every pattern of the bank goes through it
      unchanged. */
  lemma {:induction false} ApplyBankShort(s: string, bank: seq<Rule>)
    requires PatternsLongerThan(bank, |s|)
    ensures ApplyBank(s, bank) == s
    decreases |bank|
  {
    if bank != [] {
      assert |bank[0].pattern| > |s|;
      assert ReplaceAll(s, bank[0].pattern, bank[0].replacement) == s;
      assert PatternsLongerThan(bank[1..], |s|) by {
        forall i | 0 <= i < |bank| - 1 ensures |bank[1..][i].pattern| > |s| {
          assert bank[1..][i] == bank[i + 1];
        }
      }
      ApplyBankShort(s, bank[1..]);
    }
  }

  /** A bank of lettered rules keeps "has a character other than `_`". */
  lemma {:induction false} ApplyBankKeepsNonUnderscore(s: string, bank: seq<Rule>)
    requires AllLettered(bank)
    ensures HasNonUnderscore(ApplyBank(s, bank)) <==> HasNonUnderscore(s)
    decreases |bank|
  {
    if bank != [] {
      ReplaceKeepsNonUnderscore(s, bank[0].pattern, bank[0].replacement);
      ApplyBankKeepsNonUnderscore(ReplaceAll(s, bank[0].pattern, bank[0].replacement), bank[1..]);
    }
  }

  /** A bank of shape-keeping rules keeps a canonical shape. */
  lemma {:induction false} ApplyBankKeepsShape(s: string, bank: seq<Rule>)
    requires AllKeepShape(bank) && IsCanonicalShape(s)
    ensures IsCanonicalShape(ApplyBank(s, bank))
    decreases |bank|
  {
    if bank != [] {
      ReplaceKeepsShape(s, bank[0].pattern, bank[0].replacement);
      ApplyBankKeepsShape(ReplaceAll(s, bank[0].pattern, bank[0].replacement), bank[1..]);
    }
  }

  /** `processFilterBundle`: the kind-scoped bank, then the middle fixer,
      then the bank every kind gets. The middle fixer answers `None` when
      it raises, and the exception propagates. */
  function ProcessFilterBundle(tp: OrigIdType, name: string, bundle: Bundle,
                               middle: string -> Option<string>): Option<string>
  {
    match middle(ApplyBank(name, ScopedBank(bundle, tp)))
    case None => None
    case Some(m) => Some(ApplyBank(m, bundle.any))
  }

  /** With a middle fixer that changes nothing, a bundle is the plain
      concatenation of the kind's bank and the common bank, and a kind with
      no entry of its own gets the common bank alone. */
  lemma BundleWithoutFixer(tp: OrigIdType, name: string, bundle: Bundle,
                            middle: string -> Option<string>)
    requires forall s :: middle(s) == Some(s)
    ensures ProcessFilterBundle(tp, name, bundle, middle) ==
      Some(ApplyBank(name, ScopedBank(bundle, tp) + bundle.any))
    ensures tp !in bundle.scoped ==>
      ProcessFilterBundle(tp, name, bundle, middle) == Some(ApplyBank(name, bundle.any))
  {
    ApplyBankConcat(name, ScopedBank(bundle, tp), bundle.any);
  }
}
