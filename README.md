# MAPITagsScraper name normaliser, modelled in Dafny

MAPITagsScraper collects MAPI property tags from several sources. Each source
spells a tag in its own way: `PR_ENTRYID`, `PidTagEntryId`, `ptagEntryId`,
`InternalSchemaFoo`. The name normaliser turns each such raw id
(`-orig-id`) into one readable snake-case name. The tag table then fills in
the names that are still the placeholder `unkn` when all the raw ids of the
tag agree.

This project models that core and proves what it promises:

- **Classification.** The raw id is split into its kind and the rest, using
  the prefix table `origIdTypeToPrefixMapping`. The prefixes are `PidTag`,
  `ptag`, `PR_` and `InternalSchema`, tried in that order.
- **Width markers.** A trailing `_W` or `_A` is stripped from `PR_` ids
  (`clearPostfixes`, `canonicalizeOrigName`).
- **Filter banks.** A filter bank is an ordered list of literal
  `str.replace` rules. A bundle of banks is keyed by kind, with a common
  bank that runs last and an optional middle step in between. Both bundles
  of the source are transcribed rule for rule, in order:
  - the word splitter `wordsSplitterFilters`, which separates joined words;
  - the abbreviation expander `filters`.
- **`convertName`.** The pipeline runs in this order:
  1. classification;
  2. lower-casing for `PR_` names, or `inflection.underscore` for every
     other kind;
  3. the abbreviation bundle, whose middle step does the following:
     - `attachNumber` joins a trailing digit group to its word for `PR_`
       names;
     - `MTA` becomes `MessageTransferAgent` for `ptag` names;
     - the name is lower-cased;
     - `splitJoinedWords` runs the word-splitter bundle, collapses runs
       of `_` and trims `_` from both ends.
- **Aggregation.** `selectAndConvertNamesAdmissibleToId` and
  `prepareNamesAndOrigIds` do the following:
  - deduplicate the canonical raw ids in first-seen order;
  - convert the ids that match `^\w+$`;
  - return the names either sorted and unique, or deduplicated in the
    order the generator yields them.
- **Tag table.**
  - `normalizeUniqueNames` is an in-place pass over a dictionary of
    entries. It is modelled as a class whose method rewrites a `map` field.
  - `getTagsWithNonUniqueNames` filters the parsed tags whose id contains
    `_or_`.

Modules:

| module | content |
|---|---|
| `Strings` | ASCII predicates, `str.lower`, Python's `str.replace` (`ReplaceAll`), and the facts about `_` the cleanup relies on. |
| `Classifier` | The kinds, the prefix table, the classifier, and the postfix stripping. |
| `FilterBanks` | Rules, banks, bundles, `processFilterBank` and `processFilterBundle`. |
| `RuleTables` | The two bundles, written as consecutive runs of a few rules, with the per-rule facts checked run by run. |
| `NameNormalizer` | `attachNumber`, `fixMultipleUnderscores`, trimming, `splitJoinedWords` and `convertName`. |
| `Aggregation` | Deduplication, sorting, admissibility, and name preparation. |
| `TagTable` | The tag table and its two operations. |
| `EntryIdExample` | The worked example `PR_ENTRYID` ↦ `entry_id`, derived from the tables. |

Three conventions run through the model:

- **Exceptions become `None`.** In the conversion pipeline, the only
  exception the code raises is the `IndexError` of `n[-1]` in the trimming
  loop of `splitJoinedWords`. It happens when a name is made only of
  underscores, and it is modelled as `None`. Outside the pipeline,
  `getTagsWithNonUniqueNames` reads the unassigned name `parsed`; see
  "Left out".
- **`inflection.underscore` is a parameter.** It is a third-party library
  function, so every member that reaches it takes it as
  `underscore: string -> string`.
- **Aggregation and the table take a converter.** They take
  `convert: string -> Option<string>`, and `Aggregation.ConvertWith` states
  that `convertName` is such a converter.

## Model

| member | source | states |
|---|---|---|
| Classifier.Classify | MAPITagsScraper/nameNormalizer.py:48-53 | The kind is `Unknown` iff no table prefix starts the name, and then the rest is the whole name. Otherwise the first matching entry gives the kind, and prefix + rest is the name. |
| Classifier.DetectOrigIdTypeAndSplit | MAPITagsScraper/nameNormalizer.py:412-418 | The loop with its early return yields exactly the classification `Classify`. |
| Classifier.ClassifyFrom | MAPITagsScraper/nameNormalizer.py:413-418 | The classification by the entries from `i` on: either no prefix from `i` on starts the name, or the first one that does decides the kind and the rest. |
| Classifier.ClassifyByAnyMatchingPrefix | MAPITagsScraper/nameNormalizer.py:48-53 | The prefixes already differ in their first two characters, so a name starting with any table prefix is classified by that entry. Table order never decides. |
| Classifier.ClassifyFromSkips | MAPITagsScraper/nameNormalizer.py:413-416 | Entries whose prefix does not start the name are passed over. |
| Classifier.RemainderMayClassifyAgain | MAPITagsScraper/nameNormalizer.py:412-418 | Only one prefix is stripped: `PR_PR_X` gives `(PR_TAG, "PR_X")`, which would classify again. |
| Classifier.ClearPostfixes | MAPITagsScraper/nameNormalizer.py:34-39 | A trailing `_W` is removed. Otherwise a trailing `_A` is removed. Otherwise the name is unchanged. |
| Classifier.ClearPostfixesStripsOnce | MAPITagsScraper/nameNormalizer.py:34-39 | Only one marker goes: `PR_SUBJECT_A_W` gives `PR_SUBJECT_A`. A non-`PR_` name such as `PidTagSubject_W` keeps its marker. |
| Classifier.CanonicalizeOrigName | MAPITagsScraper/nameNormalizer.py:58-62 | Only names starting with `PR_` lose a marker. Every other name is returned unchanged. |
| Classifier.CanonicalizeIsShortPrefix | MAPITagsScraper/nameNormalizer.py:58-62 | The canonical id is a prefix of the raw id, at most two characters shorter, and the dropped part is `_W` or `_A`. |
| Strings.Lower | MAPITagsScraper/nameNormalizer.py:472 | `str.lower` keeps the length and maps every character through ASCII lower-casing. |
| Strings.LowerKeepsUnderscores | MAPITagsScraper/nameNormalizer.py:482 | Lower-casing creates and removes no `_`. |
| Strings.LowerOfWordChars | MAPITagsScraper/nameNormalizer.py:472 | Lower-casing a text of `\w` characters gives `[a-z0-9_]` only, and every character that is not an upper-case letter stays. |
| Strings.ReplaceAbsent | MAPITagsScraper/nameNormalizer.py:275-278 | A replace whose non-empty pattern does not occur leaves the text unchanged. |
| Strings.ReplaceKeepsNonUnderscore | MAPITagsScraper/nameNormalizer.py:275-278 | When both texts of a rule contain a non-`_` character, the result has one iff the input had one. |
| Strings.ReplaceKeepsShape | MAPITagsScraper/nameNormalizer.py:275-278 | A shape-keeping rule applied to a text without `__` gives a text without `__`, with `_` at the same ends. |
| Strings.ReplaceAll | MAPITagsScraper/nameNormalizer.py:275-278 | Python's `str.replace`, left to right without overlaps, including the empty pattern. Its properties are in `ReplaceAbsent`, `ReplaceKeepsChars`, `ReplaceKeepsNonUnderscore` and `ReplaceKeepsShape`. |
| Strings.ReplaceKeepsChars | MAPITagsScraper/nameNormalizer.py:275-278 | Every character of the result comes from the text or from the replacement, and a character of the text that the pattern lacks survives. |
| Strings.ReplaceKeepsClass | MAPITagsScraper/nameNormalizer.py:275-278 | When the text and the replacement lie in a character class, so does the result. |
| FilterBanks.ProcessFilterBank | MAPITagsScraper/nameNormalizer.py:275-278 | The loop applies the rules one after another in declaration order, which is `ApplyBank`. |
| FilterBanks.ApplyBank | MAPITagsScraper/nameNormalizer.py:275-278 | The rules applied one after another in declaration order, each to the output of the one before. Its properties are in `ProcessFilterBank`, `ApplyBankConcat`, `ApplyBankAbsent`, `ApplyBankShort` and the keeps lemmas. |
| FilterBanks.ApplyBankConcat | MAPITagsScraper/nameNormalizer.py:275-278 | Running a bank is running its parts in sequence: later rules see the output of earlier ones. |
| FilterBanks.ApplyBankAbsent | MAPITagsScraper/nameNormalizer.py:275-278 | A bank none of whose patterns occurs changes nothing. |
| FilterBanks.ApplyBankKeepsNonUnderscore | MAPITagsScraper/nameNormalizer.py:275-278 | A bank of lettered rules keeps "has a non-`_` character" in both directions. |
| FilterBanks.ApplyBankKeepsShape | MAPITagsScraper/nameNormalizer.py:275-278 | A bank of shape-keeping rules keeps the canonical shape. |
| FilterBanks.ApplyBankKeepsClass | MAPITagsScraper/nameNormalizer.py:275-278 | A bank whose replacements are all in `[a-z0-9_]` keeps a text inside any character class that contains `[a-z0-9_]`. |
| FilterBanks.ApplyBankShort | MAPITagsScraper/nameNormalizer.py:275-278 | A text shorter than every pattern of a bank goes through it unchanged. |
| FilterBanks.ProcessFilterBundle | MAPITagsScraper/nameNormalizer.py:421-430 | The kind's own bank (`bundle.get(tp, ())`), then the middle step, whose failure is passed on, then the common bank. `BundleWithoutFixer` states it for an identity middle step. |
| FilterBanks.BundleWithoutFixer | MAPITagsScraper/nameNormalizer.py:421-430 | With an identity middle step, a bundle is the kind's bank followed by the common bank. A kind without its own bank (`bundle.get(tp, ())`) gets the common bank alone. |
| RuleTables.TablesAreLettered | MAPITagsScraper/nameNormalizer.py:65-272 | Every pattern and replacement of the word splitter, and of the kind-scoped abbreviation banks, has a character other than `_`. |
| RuleTables.AbbreviationsAnyKeepShape | MAPITagsScraper/nameNormalizer.py:244-271 | Every rule of the common abbreviation bank keeps the canonical shape. |
| RuleTables.WordsSplitterFiltersFacts | MAPITagsScraper/nameNormalizer.py:65-213 | The word-splitter table `wordsSplitterFilters`, transcribed rule for rule, has every replacement in `[a-z0-9_]` and every pattern at least three characters long, in its three kind-scoped banks and its common bank. |
| RuleTables.FiltersFacts | MAPITagsScraper/nameNormalizer.py:215-272 | The abbreviation table `filters`, transcribed rule for rule, has every replacement in `[a-z0-9_]` and every pattern at least three characters long, in its two kind-scoped banks and its common bank. |
| NameNormalizer.AttachNumberMatchesPattern | MAPITagsScraper/nameNormalizer.py:18-24 | The regular expression has a match somewhere, read as `PatternMatchesAt`, iff the scan `NumberSeparator` finds a separator. |
| NameNormalizer.PatternMatchesAt | MAPITagsScraper/nameNormalizer.py:18 | `numUnderscoreSeparatedStr` matches with its `_` at `k`: a letter run of two or more starting or ending with `[h-zH-Z]`, the `_`, and a digit group that reaches `$`. Tied to the scan by `AttachNumberMatchesPattern`. |
| NameNormalizer.NumberSeparator | MAPITagsScraper/nameNormalizer.py:18-24 | The scan that finds the `_` the regular expression removes. `MatchFoundByScan` and `ScanFindsMatch` prove the two agree. |
| NameNormalizer.AttachNumber | MAPITagsScraper/nameNormalizer.py:23-24 | `attachNumber` removes the separator the scan found, or returns the text unchanged. Its properties are in `AttachNumberRemovesMatchedUnderscore`, `AttachNumberDropsAtMostOneUnderscore` and the worked examples. |
| NameNormalizer.MatchFoundByScan | MAPITagsScraper/nameNormalizer.py:18-24 | Any match of the regular expression has its `_` at the index the scan finds. |
| NameNormalizer.ScanFindsMatch | MAPITagsScraper/nameNormalizer.py:18-24 | A separator found by the scan is the `_` of a real match of the regular expression. |
| NameNormalizer.AttachNumberRemovesMatchedUnderscore | MAPITagsScraper/nameNormalizer.py:18-24 | When the pattern matches with its `_` at `k`, `attachNumber` removes exactly that `_` (`\1\2`). |
| NameNormalizer.AttachNumberAtSeparator | MAPITagsScraper/nameNormalizer.py:23-24 | The substitution drops the character at the separator the scan found, and nothing else. |
| NameNormalizer.AttachNumberDropsAtMostOneUnderscore | MAPITagsScraper/nameNormalizer.py:23-24 | The result is the input, or the input with one `_` removed. |
| NameNormalizer.AttachNumberKeepsNonUnderscore | MAPITagsScraper/nameNormalizer.py:23-24 | `attachNumber` keeps "has a non-`_` character" in both directions. |
| NameNormalizer.AttachNumberKeepsClass | MAPITagsScraper/nameNormalizer.py:23-24 | `attachNumber` keeps a text inside any character class. |
| NameNormalizer.AttachNumberJoins | MAPITagsScraper/nameNormalizer.py:18-24 | `fax_1` becomes `fax1`. |
| NameNormalizer.AttachNumberBeforeNewline | MAPITagsScraper/nameNormalizer.py:18-24 | `$` also matches before a final newline: `fax_1\n` becomes `fax1\n`. |
| NameNormalizer.AttachNumberShortRun | MAPITagsScraper/nameNormalizer.py:18 | The letter group needs two letters: `x_400` is unchanged. |
| NameNormalizer.AttachNumberEarlyLetters | MAPITagsScraper/nameNormalizer.py:18 | The letter group needs a letter in `h`..`z`: `abc_1` is unchanged. |
| NameNormalizer.RunStartUnique | MAPITagsScraper/nameNormalizer.py:18 | A maximal run of a character class ending at `e` is unique, so the greedy groups of the regular expression have one reading. |
| NameNormalizer.FixMultipleUnderscores | MAPITagsScraper/nameNormalizer.py:20-27 | The result has no `__` and the same non-`_` characters in order. It is empty iff the input is, and it starts and ends with `_` iff the input does. |
| NameNormalizer.FixMultipleUnderscoresFixpoint | MAPITagsScraper/nameNormalizer.py:26-27 | The collapse changes its input iff the input contains `__`. |
| NameNormalizer.FixMultipleUnderscoresCollapsesPair | MAPITagsScraper/nameNormalizer.py:20-27 | `a__b` and `a_b` collapse to the same text. With `FixMultipleUnderscoresFixpoint`, this means the collapse only removes the extra `_` of each run: `a__b` gives `a_b`. |
| NameNormalizer.FixMultipleUnderscoresKeepsClass | MAPITagsScraper/nameNormalizer.py:26-27 | The collapse keeps a text inside any character class. |
| NameNormalizer.FixMultipleUnderscoresKeepsNonUnderscore | MAPITagsScraper/nameNormalizer.py:26-27 | The collapse keeps "has a non-`_` character" in both directions. |
| NameNormalizer.WithoutUnderscoresEmpty | MAPITagsScraper/nameNormalizer.py:26-27 | The non-`_` characters of a text are none iff the text is all `_`. |
| NameNormalizer.StripTrailing | MAPITagsScraper/nameNormalizer.py:448-449 | The result is a prefix of the input, does not end in `_`, and only `_` was removed. |
| NameNormalizer.StripLeading | MAPITagsScraper/nameNormalizer.py:451-452 | The result is a suffix of the input, does not start with `_`, and only `_` was removed. |
| NameNormalizer.TrimUnderscores | MAPITagsScraper/nameNormalizer.py:448-452 | The two `while` loops compute `Trimmed`. Indexing an emptied string gives `None`. |
| NameNormalizer.Trimmed | MAPITagsScraper/nameNormalizer.py:448-452 | What the two trimming loops leave, or `None` when the first loop empties the text. Its properties are in `TrimmedFailsExactly`, `TrimmedCutsUnderscores` and `TrimUnderscores`. |
| NameNormalizer.TrimmedFailsExactly | MAPITagsScraper/nameNormalizer.py:448-452 | The trimming loops raise iff the text is made only of `_`, including the empty text. |
| NameNormalizer.TrimmedCutsUnderscores | MAPITagsScraper/nameNormalizer.py:448-452 | A trimmed text is non-empty, has no `_` at either end, and is a slice of the input with only `_` cut from both sides. |
| NameNormalizer.TrimmedShape | MAPITagsScraper/nameNormalizer.py:446-452 | Trimming a collapsed text that has a non-`_` character gives the canonical shape. |
| NameNormalizer.TrimmedKeepsClass | MAPITagsScraper/nameNormalizer.py:448-452 | Trimming keeps a text inside any character class. |
| NameNormalizer.SplitJoinedWordsShape | MAPITagsScraper/nameNormalizer.py:433-454 | `splitJoinedWords` succeeds iff its input has a non-`_` character, and then the result has no `__` and no `_` at either end. |
| NameNormalizer.SplitJoinedWords | MAPITagsScraper/nameNormalizer.py:433-454 | The word-splitter bundle, the `_` collapse and the trimming loops. Its properties are in `SplitJoinedWordsShape`, `SplitJoinedWordsIsLowerWord` and `SplitJoinedWordsKeepsShortText`. |
| NameNormalizer.SplitJoinedWordsIsLowerWord | MAPITagsScraper/nameNormalizer.py:433-454 | A text in `[a-z0-9_]` stays in `[a-z0-9_]`. |
| NameNormalizer.SplitJoinedWordsKeepsShortText | MAPITagsScraper/nameNormalizer.py:433-454 | A text of one or two characters without `_` comes out unchanged. |
| NameNormalizer.MiddleFixerShape | MAPITagsScraper/nameNormalizer.py:474-487 | The middle step of `convertName` fails iff its input is all `_`, and otherwise yields the canonical shape. |
| NameNormalizer.MiddleFixer | MAPITagsScraper/nameNormalizer.py:474-487 | `attachNumber` for `PR_`, the `MTA` expansion for `ptag`, lower-casing, then `splitJoinedWords`. Its properties are in `MiddleFixerShape`, `MiddleFixerIsLowerWord` and `MiddleFixerKeepsShortText`. |
| NameNormalizer.MiddleFixerIsLowerWord | MAPITagsScraper/nameNormalizer.py:474-487 | A text of `\w` characters comes out in `[a-z0-9_]`. |
| NameNormalizer.MiddleFixerKeepsShortText | MAPITagsScraper/nameNormalizer.py:474-487 | `x` followed by a newline passes unchanged. |
| NameNormalizer.Cased | MAPITagsScraper/nameNormalizer.py:468-472 | A `PR_` rest is lower-cased, and any other kind goes through `inflection.underscore`. `ConvertNamePrIgnoresInflection` states the consequence. |
| NameNormalizer.ConvertName | MAPITagsScraper/nameNormalizer.py:461-491 | Classification, casing, then the abbreviation bundle with the middle step between its banks. Its properties are in `ConvertNameFailsExactly`, `ConvertNameShape`, `ConvertNameIsLowerWord`, `ConvertNamePrIsLowerWord`, `ConvertNamePrIgnoresInflection` and `ConvertNameEntryId`. |
| NameNormalizer.ConvertNameFailsExactly | MAPITagsScraper/nameNormalizer.py:461-491 | `convertName` raises iff the cased rest of the name has no character other than `_`. |
| NameNormalizer.ConvertNameShape | MAPITagsScraper/nameNormalizer.py:461-491 | Every name `convertName` returns is non-empty and has no `__` and no `_` at either end. |
| NameNormalizer.ConvertNamePrIgnoresInflection | MAPITagsScraper/nameNormalizer.py:468-472 | `PR_` names never reach `inflection.underscore`: the result does not depend on it. |
| NameNormalizer.ConvertNameIsLowerWord | MAPITagsScraper/nameNormalizer.py:461-491 | When the cased rest of a name is made of `\w` characters, the converted name is made of `[a-z0-9_]`. |
| NameNormalizer.ConvertNamePrIsLowerWord | MAPITagsScraper/nameNormalizer.py:461-491 | A `PR_` name made of `\w` characters converts to `[a-z0-9_]` only, whatever `inflection.underscore` does. |
| NameNormalizer.ConvertNameKeepsFinalNewline | MAPITagsScraper/nameNormalizer.py:461-491 | `PR_X` followed by a newline converts to `x` followed by the newline. |
| EntryIdExample.WordsSplitterPrTagSplitsEntryid | MAPITagsScraper/nameNormalizer.py:66-174 | The `PR_` word-splitter bank turns `entryid` into `entry_id`. Only the rule `entryid` fires. |
| EntryIdExample.WordsSplitterFiltersEntryid | MAPITagsScraper/nameNormalizer.py:421-430 | The word-splitter bundle turns `entryid` into `entry_id`. |
| EntryIdExample.SplitJoinedWordsEntryid | MAPITagsScraper/nameNormalizer.py:433-454 | `splitJoinedWords(PR_TAG, "entryid")` is `entry_id`. |
| EntryIdExample.ClassifyPrEntryId | MAPITagsScraper/nameNormalizer.py:412-418 | `PR_ENTRYID` is a `PR_` name with rest `ENTRYID`. |
| EntryIdExample.ConvertNameEntryId | MAPITagsScraper/nameNormalizer.py:461-491 | `convertName("PR_ENTRYID")` is `entry_id`, whatever `inflection.underscore` does. |
| Aggregation.Dedup | MAPITagsScraper/nameNormalizer.py:501 | `dedupPreservingOrder` gives a list without repeats, with the same members, and no longer than its input. |
| Aggregation.DedupKeepsFirstSeenOrder | MAPITagsScraper/nameNormalizer.py:501 | The kept elements come in the order of their first occurrences in the input. |
| Aggregation.DedupOfDistinct | MAPITagsScraper/nameNormalizer.py:501 | A list without repeats is its own deduplication. |
| Aggregation.FirstIndexInPrefix | MAPITagsScraper/nameNormalizer.py:501 | Appending to a list does not move the first occurrence of an element it already holds. |
| Aggregation.StrLessTotal | MAPITagsScraper/nameNormalizer.py:504 | Python's `<` on `str` is a strict total order: total here, with irreflexivity in `StrLessIrreflexive`. |
| Aggregation.StrLessTransitive | MAPITagsScraper/nameNormalizer.py:504 | Python's `<` on `str` is transitive. |
| Aggregation.StrLessIrreflexive | MAPITagsScraper/nameNormalizer.py:504 | No string is below itself. |
| Aggregation.Insert | MAPITagsScraper/nameNormalizer.py:504 | Inserting into a strictly sorted list keeps it strictly sorted and adds exactly the new element. |
| Aggregation.SortedUnique | MAPITagsScraper/nameNormalizer.py:504 | `sorted(set(xs))` is strictly increasing and has exactly the members of `xs`. |
| Aggregation.StrictlySortedUnique | MAPITagsScraper/nameNormalizer.py:504 | Two strictly sorted lists with the same members are equal, so `sorted(set(xs))` is determined by the set. |
| Aggregation.SortedHeadIsLeast | MAPITagsScraper/nameNormalizer.py:504 | The head of a strictly sorted list is below every other member. |
| Aggregation.StrictlySortedIsDistinct | MAPITagsScraper/nameNormalizer.py:504 | A strictly sorted list has no repeats. |
| Aggregation.SelectAndConvert | MAPITagsScraper/nameNormalizer.py:494-497 | The drained generator yields at most one name per id, and every name comes from an admissible id in the list. It runs to the end iff no admissible id's conversion raises. |
| Aggregation.SelectAndConvertConcat | MAPITagsScraper/nameNormalizer.py:494-497 | The generator works id by id. Draining a concatenation drains the first part, and then the second part only if the first completed. |
| Aggregation.SelectAndConvertCovers | MAPITagsScraper/nameNormalizer.py:494-497 | When nothing raises, every admissible id contributes its converted name. |
| Aggregation.Admissible | MAPITagsScraper/nameNormalizer.py:19 | `allowedKSIdRx.match`: `^\w+$` matches a non-empty run of `\w` characters, optionally followed by one final newline, before which `$` also matches. |
| Aggregation.NewlineAdmitted | MAPITagsScraper/nameNormalizer.py:19 | `PR_X` followed by a newline passes `re.match` but not a full match. |
| Aggregation.AdmissibleLetsNewlineThrough | MAPITagsScraper/nameNormalizer.py:494-497 | That id is selected, and `convertName` turns it into `x` followed by a newline, which is not an identifier. |
| Aggregation.FullmatchAdmissibleYieldsIdentifier | MAPITagsScraper/nameNormalizer.py:494-497 | Under the full-match test, every admitted `PR_` id converts to `[a-z0-9_]` only, and the test admits nothing `re.match` rejects. |
| Aggregation.PrepareNamesAndOrigIdsIds | MAPITagsScraper/nameNormalizer.py:500-508 | The call fails iff sorting is on and some admissible canonical id's conversion raises. The returned ids are distinct and are exactly the canonicalized raw ids. Every name comes from an admissible id, and the names have no repeats. |
| Aggregation.PrepareNamesAndOrigIdsOrder | MAPITagsScraper/nameNormalizer.py:501 | The canonical ids keep their first-seen order. |
| Aggregation.PrepareNamesAndOrigIdsSorted | MAPITagsScraper/nameNormalizer.py:503-504 | With sorting, the names are strictly increasing and every admissible canonical id contributes its name. |
| Aggregation.PrepareNamesAndOrigIdsUnsorted | MAPITagsScraper/nameNormalizer.py:505-506 | Without sorting, the call never fails. The names are those the generator yields, in the order of their first yield. |
| Aggregation.PrepareNamesAndOrigIds | MAPITagsScraper/nameNormalizer.py:500-508 | Canonicalize, deduplicate, select and convert, then sort-and-unique or deduplicate. Its properties are in the four `PrepareNamesAndOrigIds…` lemmas. |
| TagTable.ResolveEntry | MAPITagsScraper/__init__.py:30-37 | The loop body for one entry, branch by branch, computes `Resolve`. |
| TagTable.Resolve | MAPITagsScraper/__init__.py:30-37 | The resolution of one entry. Its three cases are in `ResolveLeavesSettled`, `ResolveAgreeing` and `ResolveLeavesConflicts`, and `ResolveEntry` computes it. |
| TagTable.ResolveLeavesSettled | MAPITagsScraper/__init__.py:30-31 | Plain strings, and tags whose id is not `unkn`, are left as they are. |
| TagTable.ResolveAgreeing | MAPITagsScraper/__init__.py:31-37 | An `unkn` tag whose orig ids all equal `v` gets id `convertName(v)` and orig id `v`, or the pass raises. |
| TagTable.ResolveLeavesConflicts | MAPITagsScraper/__init__.py:32-33 | An `unkn` tag with no orig ids, or with two different ones, is left as it is. |
| TagTable.DedupSingle | MAPITagsScraper/__init__.py:32-34 | Deduplication leaves one element iff the list is non-empty and constant, and that element is the first one. |
| TagTable.NormalizePass | MAPITagsScraper/__init__.py:29-37 | The pass keeps the set of keys. |
| TagTable.NormalizePassResolvesAll | MAPITagsScraper/__init__.py:29-37 | The pass finishes iff no entry's resolution raises. Then every entry is its resolution, and keys outside the snapshot are untouched. |
| TagTable.NormalizePassStops | MAPITagsScraper/__init__.py:29-37 | An unfinished pass stopped at some key: the keys before it are resolved, and it and the keys after it keep their old values. |
| TagTable.Table.constructor | MAPITagsScraper/__init__.py:26 | A table is a dictionary whose insertion-ordered keys are distinct. |
| TagTable.Table.NormalizeUniqueNames | MAPITagsScraper/__init__.py:26-37 | The in-place loop over a snapshot of the keys leaves exactly what `NormalizePass` describes. The keys are unchanged, and `ok` is false iff a conversion raised. |
| TagTable.GetTagsWithNonUniqueNames | MAPITagsScraper/__init__.py:22-23 | The result is no longer than the list of parsed tags. |
| TagTable.GetTagsWithNonUniqueNamesSelects | MAPITagsScraper/__init__.py:22-23 | A pair is in the result iff it is `(id, origIds)` of a parsed tag whose id contains `_or_`. |
| TagTable.GetTagsWithNonUniqueNamesConcat | MAPITagsScraper/__init__.py:22-23 | The filter keeps the order of the tags: it distributes over concatenation. |

## Left out

- Word segmentation with `wordninja` (nameNormalizer.py:12-16, 281-409, 438-441) is switched off in the source (`useWordNinja = False`). The middle step of `splitJoinedWords` is therefore the identity (`NoSegmentation`), and `fix_after_wordninja` and its false-positive table are not modelled.
- `inflection.underscore` is a third-party function and is a parameter. Properties that depend on what it returns are stated in terms of its result (`ConvertNameFailsExactly`).
- `\w` and `str.lower` are modelled on ASCII only. Python's Unicode word characters and case mapping beyond ASCII are not captured.
- `n.replace("has_attach", "has_attachments")` at nameNormalizer.py:483-484 discards its result. The model does nothing there, as the code does.
- `from icecream import ic` and `typesConversionToUnderscoredRequired` (nameNormalizer.py:456-458) have no effect on the computation.
- `getTagsWithNonUniqueNames` reads the module-level `parsed`, which is never assigned in the source. The model takes the parsed tags as a parameter.
- The tag table keeps only `id` and `-orig-id` of an entry, and a missing key (a `KeyError`) is not modelled. Entries are values, so two keys sharing one dictionary object, with an update through one seen through the other, is not captured.
- `convertName` raising inside the lazy generator is modelled as a `complete` flag with the names yielded before it. A `sort=False` caller that drains the generator later would see the exception at that point.
- `fullPipeline`, `mergeSourceIntoContext`, the module-level `warn` (__init__.py:18, 40-53) and the command line (`__main__.py`) are I/O around the core.
- The classifier strips one prefix only: `PR_PR_X` gives `(PR_TAG, "PR_X")`, whose rest would classify again (`RemainderMayClassifyAgain`).
- TagTable.GetTagsWithNonUniqueNames: its own contract is only a length bound; the selection and the order are stated in `GetTagsWithNonUniqueNamesSelects` and `GetTagsWithNonUniqueNamesConcat`.

## Findings

| source | as written | input that shows it | evidently intended | confidence | as-written member | corrected member |
|---|---|---|---|---|---|---|
| MAPITagsScraper/nameNormalizer.py:19 | `allowedKSIdRx.match` with `^\w+$` also accepts a final newline, because `$` matches before it. `convertName` keeps the newline, so the name yielded is not an identifier. | `PR_X` followed by a newline: admitted, and converted to `x` followed by a newline. | Only ids made of `\w` characters from end to end are admitted (`re.fullmatch`), so every `PR_` name yielded is made of `[a-z0-9_]`. | medium, not executed | Aggregation.AdmissibleLetsNewlineThrough | Aggregation.FullmatchAdmissibleYieldsIdentifier |

The selection `SelectAndConvert` keeps the test as written, because that is
what the code runs. `FullmatchAdmissible` is the corrected test, and
`FullmatchAdmissibleYieldsIdentifier` proves the intended property under it.
