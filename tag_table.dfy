/** The tag-table passes of `MAPITagsScraper/__init__.py`: the in-place
    resolution of placeholder ids (`normalizeUniqueNames`) and the query
    for ids that still name several candidates
    (`getTagsWithNonUniqueNames`). The conversion is a parameter
    `convert`, as in `Aggregation`; `None` is a conversion that raises. */
module TagTable {
  import opened Strings
  import opened FilterBanks
  import opened Aggregation

  /** The `-orig-id` of a tag: a list of raw ids, or, once resolved, the
      one raw id as a string. */
  datatype OrigIds = Many(ids: seq<string>) | One(id: string)

  /** A value of the tag table: a plain string, or a record with its `id`
      and `-orig-id`. */
  datatype Entry = Plain(text: string) | Tag(id: string, origIds: OrigIds)

  /** The id of a tag whose sources disagree on its name. */
  const Placeholder: string := "unkn"

  /** What `dedupPreservingOrder` iterates over: the strings of a list, or
      the characters of a string. */
  function Elements(o: OrigIds): (r: seq<string>)
    ensures o.Many? ==> r == o.ids
    ensures o.One? ==> |r| == |o.id| && forall i :: 0 <= i < |r| ==> r[i] == [o.id[i]]
  {
    match o
    case Many(ids) => ids
    case One(s) => seq(|s|, i requires 0 <= i < |s| => [s[i]])
  }

  /** What the pass does to one entry; `None` when the conversion raises. */
  function Resolve(e: Entry, convert: string -> Option<string>): Option<Entry>
  {
    if e.Plain? || e.id != Placeholder then Some(e)
    else
      var oids := Dedup(Elements(e.origIds));
      if |oids| != 1 then Some(e)
      else
        match convert(oids[0])
        case None => None
        case Some(fv) => Some(e.(id := fv).(origIds := One(oids[0])))
  }

  /** The body of the loop of `normalizeUniqueNames` for one entry, branch
      by branch: the entry with `id` and `-orig-id` overwritten, the entry
      as it was, or `None` when the conversion raises. */
  method ResolveEntry(e: Entry, convert: string -> Option<string>) returns (r: Option<Entry>)
    ensures r == Resolve(e, convert)
  {
    r := Some(e);
    if e.Tag? {
      if e.id == Placeholder {
        var oids := Dedup(Elements(e.origIds));
        if |oids| == 1 {
          var v := oids[0];
          var fv := convert(v);
          if fv.None? {
            return None;
          }
          var updated := e.(id := fv.value);
          updated := updated.(origIds := One(v));
          r := Some(updated);
        }
      }
    }
  }

  /** Deduplication leaves exactly one element iff the sequence is
      non-empty and all its elements are equal. */
  lemma DedupSingle(xs: seq<string>)
    ensures |Dedup(xs)| == 1 <==> |xs| > 0 && forall i :: 0 <= i < |xs| ==> xs[i] == xs[0]
    ensures |Dedup(xs)| == 1 ==> Dedup(xs)[0] == xs[0]
  {
    var d := Dedup(xs);
    if |xs| > 0 {
      assert xs[0] in xs;
      if |d| == 1 {
        forall i | 0 <= i < |xs| ensures xs[i] == xs[0] {
          assert xs[i] in d;
        }
      }
      assert xs[0] in d;
      assert |d| < 2 || (d[0] in xs && d[1] in xs && d[0] != d[1]);
    }
  }

  /** Plain strings and tags whose id is not the placeholder are left
      exactly as they were. */
  lemma ResolveLeavesSettled(e: Entry, convert: string -> Option<string>)
    requires e.Plain? || e.id != Placeholder
    ensures Resolve(e, convert) == Some(e)
  {
  }

  /** A placeholder tag whose orig ids are all the same `v` gets the
      converted `v` as its id and `v` as its orig id, or the pass raises. */
  lemma ResolveAgreeing(e: Entry, v: string, convert: string -> Option<string>)
    requires e.Tag? && e.id == Placeholder
    requires |Elements(e.origIds)| > 0
    requires forall i :: 0 <= i < |Elements(e.origIds)| ==> Elements(e.origIds)[i] == v
    ensures convert(v).None? ==> Resolve(e, convert).None?
    ensures convert(v).Some? ==> Resolve(e, convert) == Some(Tag(convert(v).value, One(v)))
  {
    DedupSingle(Elements(e.origIds));
  }

  /** A placeholder tag with no orig ids, or with two different ones, is a
      real conflict and is left as it was. */
  lemma ResolveLeavesConflicts(e: Entry, i: nat, j: nat, convert: string -> Option<string>)
    requires e.Tag? && e.id == Placeholder
    requires |Elements(e.origIds)| == 0 ||
      (i < j < |Elements(e.origIds)| && Elements(e.origIds)[i] != Elements(e.origIds)[j])
    ensures Resolve(e, convert) == Some(e)
  {
    DedupSingle(Elements(e.origIds));
  }

  /** The whole pass over `keys` in order, stopping at the first
      conversion that raises: the table it leaves and whether it
      finished. */
  function NormalizePass(entries: map<string, Entry>, keys: seq<string>,
                         convert: string -> Option<string>): (r: (map<string, Entry>, bool))
    requires forall i :: 0 <= i < |keys| ==> keys[i] in entries
    ensures r.0.Keys == entries.Keys
  {
    if keys == [] then (entries, true)
    else
      match Resolve(entries[keys[0]], convert)
      case None => (entries, false)
      case Some(e) => NormalizePass(entries[keys[0] := e], keys[1..], convert)
  }

  /** One step of the pass. */
  lemma NormalizePassStep(entries: map<string, Entry>, keys: seq<string>,
                          convert: string -> Option<string>)
    requires keys != [] && forall i :: 0 <= i < |keys| ==> keys[i] in entries
    ensures Resolve(entries[keys[0]], convert).None? ==>
      NormalizePass(entries, keys, convert) == (entries, false)
    ensures Resolve(entries[keys[0]], convert).Some? ==>
      NormalizePass(entries, keys, convert) ==
      NormalizePass(entries[keys[0] := Resolve(entries[keys[0]], convert).value], keys[1..], convert)
  {
  }

  /** Every key is visited once, so on a finished pass every entry is the
      resolution of its old value, and the pass finishes iff no
      resolution raises. */
  lemma {:induction false} NormalizePassResolvesAll(entries: map<string, Entry>, keys: seq<string>,
                                                    convert: string -> Option<string>)
    requires Distinct(keys) && forall i :: 0 <= i < |keys| ==> keys[i] in entries
    ensures var r := NormalizePass(entries, keys, convert);
      (r.1 <==> forall i :: 0 <= i < |keys| ==> Resolve(entries[keys[i]], convert).Some?) &&
      (r.1 ==> forall i :: 0 <= i < |keys| ==> Some(r.0[keys[i]]) == Resolve(entries[keys[i]], convert)) &&
      (forall k :: k in entries && k !in keys ==> r.0[k] == entries[k])
  {
    if keys != [] {
      var k := keys[0];
      assert forall i :: 1 <= i < |keys| ==> keys[i] != k;
      assert Distinct(keys[1..]);
      match Resolve(entries[k], convert)
      case None =>
      case Some(e) =>
        var next := entries[k := e];
        NormalizePassResolvesAll(next, keys[1..], convert);
        forall i | 1 <= i < |keys| ensures next[keys[i]] == entries[keys[i]] && keys[i] in keys[1..] {
          assert keys[1..][i - 1] == keys[i];
        }
        forall i | 0 <= i < |keys| && Resolve(entries[keys[i]], convert).None?
          ensures !NormalizePass(entries, keys, convert).1
        {
          assert keys[1..][i - 1] == keys[i];
        }
    }
  }

  /** An unfinished pass stopped at some key: the keys before it are
      resolved, it and the keys after it keep their old values. */
  lemma {:induction false} NormalizePassStops(entries: map<string, Entry>, keys: seq<string>,
                                              convert: string -> Option<string>)
    requires Distinct(keys) && forall i :: 0 <= i < |keys| ==> keys[i] in entries
    requires !NormalizePass(entries, keys, convert).1
    ensures exists n :: StoppedAt(entries, keys, convert, n, NormalizePass(entries, keys, convert).0)
  {
    var k := keys[0];
    assert forall i :: 1 <= i < |keys| ==> keys[i] != k;
    assert Distinct(keys[1..]);
    var r := NormalizePass(entries, keys, convert).0;
    match Resolve(entries[k], convert)
    case None =>
      assert StoppedAt(entries, keys, convert, 0, r);
    case Some(e) =>
      var next := entries[k := e];
      NormalizePassStops(next, keys[1..], convert);
      var n :| StoppedAt(next, keys[1..], convert, n, r);
      forall i | 1 <= i < |keys| ensures next[keys[i]] == entries[keys[i]] {
        assert keys[1..][i - 1] == keys[i];
      }
      NormalizePassResolvesAll(next, keys[1..], convert);
      assert r[k] == e by { assert k !in keys[1..]; }
      forall i | n + 1 <= i < |keys| ensures r[keys[i]] == entries[keys[i]] {
        assert keys[1..][i - 1] == keys[i];
      }
      forall i | 1 <= i < n + 1 ensures Some(r[keys[i]]) == Resolve(entries[keys[i]], convert) {
        assert keys[1..][i - 1] == keys[i];
      }
      assert StoppedAt(entries, keys, convert, n + 1, r);
  }

  /** `r` is what a pass over `keys` leaves when it raises at `keys[n]`. */
  predicate StoppedAt(entries: map<string, Entry>, keys: seq<string>,
                      convert: string -> Option<string>, n: int, r: map<string, Entry>)
    requires forall i :: 0 <= i < |keys| ==> keys[i] in entries
    requires r.Keys == entries.Keys
  {
    0 <= n < |keys| &&
    Resolve(entries[keys[n]], convert).None? &&
    (forall i :: 0 <= i < n ==> Some(r[keys[i]]) == Resolve(entries[keys[i]], convert)) &&
    (forall i :: n <= i < |keys| ==> r[keys[i]] == entries[keys[i]])
  }

  /** The tag table: a dictionary with its keys in insertion order. */
  class Table {
    var keys: seq<string>
    var entries: map<string, Entry>

    /** The keys are the dictionary's keys, each once. */
    ghost predicate Valid()
      reads this
    {
      Distinct(keys) && forall k :: k in entries <==> k in keys
    }

    constructor (keys0: seq<string>, entries0: map<string, Entry>)
      requires Distinct(keys0) && forall k :: k in entries0 <==> k in keys0
      ensures Valid() && keys == keys0 && entries == entries0
    {
      keys := keys0;
      entries := entries0;
    }

    /** `normalizeUniqueNames`: visits a snapshot of the keys in order and
        overwrites `id` and `-orig-id` of each placeholder tag whose orig
        ids agree. `ok` is false when a conversion raised; the entries
        visited before it keep their new values. No key is added or
        removed. */
    method NormalizeUniqueNames(convert: string -> Option<string>) returns (ok: bool)
      requires Valid()
      modifies this
      ensures Valid() && keys == old(keys) && entries.Keys == old(entries.Keys)
      ensures (entries, ok) == NormalizePass(old(entries), keys, convert)
    {
      ghost var keys0 := keys;
      var snapshot := keys;
      var i := 0;
      while i < |snapshot|
        invariant 0 <= i <= |snapshot| && snapshot == keys == keys0
        invariant entries.Keys == old(entries.Keys)
        invariant NormalizePass(entries, snapshot[i..], convert) == NormalizePass(old(entries), keys0, convert)
      {
        var k := snapshot[i];
        var e := entries[k];
        NormalizePassStep(entries, snapshot[i..], convert);
        assert snapshot[i..][0] == k && snapshot[i..][1..] == snapshot[i + 1..];
        var r := ResolveEntry(e, convert);
        if r.None? {
          return false;
        }
        entries := entries[k := r.value];
        i := i + 1;
      }
      return true;
    }
  }

  // ---------------------------------------------------------------------
  // getTagsWithNonUniqueNames
  // ---------------------------------------------------------------------

  /** A parsed tag: its normalized id and the raw ids it came from. */
  datatype ParsedTag = ParsedTag(id: string, origIds: seq<string>)

  /** An id built by joining candidate names with `_or_`. */
  predicate IsNonUnique(id: string)
  {
    Occurs(id, "_or_")
  }

  /** `getTagsWithNonUniqueNames` over the given parsed tags. */
  function GetTagsWithNonUniqueNames(parsed: seq<ParsedTag>): (r: seq<(string, seq<string>)>)
    ensures |r| <= |parsed|
  {
    if parsed == [] then []
    else
      (if IsNonUnique(parsed[0].id) then [(parsed[0].id, parsed[0].origIds)] else []) +
      GetTagsWithNonUniqueNames(parsed[1..])
  }

  /** The query returns exactly the `(id, origIds)` pairs of the tags whose
      id contains `_or_`. */
  lemma {:induction false} GetTagsWithNonUniqueNamesSelects(parsed: seq<ParsedTag>)
    ensures forall p :: p in GetTagsWithNonUniqueNames(parsed) <==>
      (exists i :: 0 <= i < |parsed| && IsNonUnique(parsed[i].id) && p == (parsed[i].id, parsed[i].origIds))
  {
    if parsed != [] {
      GetTagsWithNonUniqueNamesSelects(parsed[1..]);
      forall p ensures p in GetTagsWithNonUniqueNames(parsed) <==>
        (exists i :: 0 <= i < |parsed| && IsNonUnique(parsed[i].id) && p == (parsed[i].id, parsed[i].origIds))
      {
        if p in GetTagsWithNonUniqueNames(parsed[1..]) {
          var i :| 0 <= i < |parsed| - 1 && IsNonUnique(parsed[1..][i].id) &&
            p == (parsed[1..][i].id, parsed[1..][i].origIds);
          assert parsed[1..][i] == parsed[i + 1];
        }
        if exists i :: 0 <= i < |parsed| && IsNonUnique(parsed[i].id) && p == (parsed[i].id, parsed[i].origIds) {
          var i :| 0 <= i < |parsed| && IsNonUnique(parsed[i].id) && p == (parsed[i].id, parsed[i].origIds);
          if i > 0 { assert parsed[1..][i - 1] == parsed[i]; }
        }
      }
    }
  }

  /** The query keeps the order of the tags: it distributes over
      concatenation. */
  lemma {:induction false} GetTagsWithNonUniqueNamesConcat(a: seq<ParsedTag>, b: seq<ParsedTag>)
    ensures GetTagsWithNonUniqueNames(a + b) ==
      GetTagsWithNonUniqueNames(a) + GetTagsWithNonUniqueNames(b)
  {
    if a == [] {
      assert a + b == b;
    } else {
      var head := if IsNonUnique(a[0].id) then [(a[0].id, a[0].origIds)] else [];
      assert (a + b)[0] == a[0] && (a + b)[1..] == a[1..] + b;
      GetTagsWithNonUniqueNamesConcat(a[1..], b);
      calc {
        GetTagsWithNonUniqueNames(a + b);
        head + GetTagsWithNonUniqueNames(a[1..] + b);
        head + (GetTagsWithNonUniqueNames(a[1..]) + GetTagsWithNonUniqueNames(b));
        (head + GetTagsWithNonUniqueNames(a[1..])) + GetTagsWithNonUniqueNames(b);
      }
    }
  }
}
