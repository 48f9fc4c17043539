/**
 * The plain value tree a pydantic `model_dump()` produces, with the
 * `MISSING` sentinel as a value of its own, and the recursive filter
 * `_remove_all_missing` that deletes every key bound to it.
 *
 * A dict is a sequence of fields in insertion order; the dumps this filter
 * receives never repeat a key.
 */
module Json {
  import opened Wrappers

  datatype Value =
    | Null
    | Bool(b: bool)
    | Int(i: int)
    | Str(s: string)
    | Missing
    | List(items: seq<Value>)
    | Dict(fields: seq<Field>)

  datatype Field = Field(key: string, val: Value)

  predicate IsScalar(v: Value) {
    v.Null? || v.Bool? || v.Int? || v.Str?
  }

  // ----- the filter, as a specification -----

  /** `_remove_all_missing` on a dict: `MISSING` keys are dropped, every other value filtered. */
  function FilterFields(fs: seq<Field>): Option<seq<Field>>
    decreases fs, 1
  {
    if fs == [] then Some([])
    else
      var init :- FilterFields(fs[..|fs| - 1]);
      var f := fs[|fs| - 1];
      if f.val.Missing? then Some(init)
      else
        var v :- FilterValue(f.val);
        Some(init + [Field(f.key, v)])
  }

  /** What one entry's value becomes: a dict or a list is filtered, anything else stays. */
  function FilterValue(v: Value): Option<Value>
    decreases v, 0
  {
    match v
    case Dict(inner) =>
      var g :- FilterFields(inner);
      Some(Dict(g))
    case List(items) =>
      var g :- FilterItems(items);
      Some(List(g))
    case _ => Some(v)
  }

  /**
   * `[self._remove_all_missing(e) for e in v]`: every element must be a dict;
   * `None` stands for the `AttributeError` any other element raises.
   */
  function FilterItems(items: seq<Value>): Option<seq<Value>>
    decreases items, 1
  {
    if items == [] then Some([])
    else
      var init :- FilterItems(items[..|items| - 1]);
      var e := items[|items| - 1];
      if e.Dict? then
        var g :- FilterFields(e.fields);
        Some(init + [Dict(g)])
      else None
  }

  // ----- the filter, as the source runs it -----

  /**
   * Walks a snapshot of the dict's items and rewrites the dict in place:
   * a nested dict or list is replaced by its filtered copy, a `MISSING`
   * entry is deleted, anything else stays.
   */
  method RemoveAllMissing(d0: seq<Field>) returns (r: Option<seq<Field>>)
    ensures r == FilterFields(d0)
    decreases d0, 2
  {
    var d := d0;
    var i, k := 0, 0;
    ghost var done: seq<Field> := [];
    while i < |d0|
      invariant 0 <= i <= |d0|
      invariant FilterFields(d0[..i]) == Some(done)
      invariant k == |done| && d == done + d0[i..]
    {
      var f := d0[i];
      ghost var rest := d0[i + 1..];
      assert d0[..i + 1][..i] == d0[..i] && d0[..i + 1][i] == f;
      assert d0[i..] == [f] + rest;
      assert d == done + [f] + rest;
      if f.val.Dict? {
        var g := RemoveAllMissing(f.val.fields);
        if g.None? {
          FilterFailPrefix(d0, i + 1);
          return None;
        }
        ReplaceAt(done, f, Field(f.key, Dict(g.value)), rest);
        d := d[k := Field(f.key, Dict(g.value))];
      } else if f.val.List? {
        var g := RemoveAllMissingInList(f.val.items);
        if g.None? {
          FilterFailPrefix(d0, i + 1);
          return None;
        }
        ReplaceAt(done, f, Field(f.key, List(g.value)), rest);
        d := d[k := Field(f.key, List(g.value))];
      }
      if f.val.Missing? {
        DeleteAt(done, f, rest);
        d := d[..k] + d[k + 1..];
      } else {
        ghost var nf := d[k];
        assert d == done + [nf] + rest;
        assert nf.key == f.key && FilterValue(f.val) == Some(nf.val);
        FilterSnoc(d0, i);
        done := done + [nf];
        k := k + 1;
      }
      i := i + 1;
    }
    assert d0[..|d0|] == d0 && d == done;
    return Some(d);
  }

  lemma ReplaceAt<T>(pre: seq<T>, x: T, y: T, rest: seq<T>)
    ensures (pre + [x] + rest)[|pre| := y] == pre + [y] + rest
  {
  }

  lemma DeleteAt<T>(pre: seq<T>, x: T, rest: seq<T>)
    ensures (pre + [x] + rest)[..|pre|] + (pre + [x] + rest)[|pre| + 1..] == pre + rest
  {
    assert (pre + [x] + rest)[..|pre|] == pre;
    assert (pre + [x] + rest)[|pre| + 1..] == rest;
  }

  /** One more entry of the snapshot: the filter so far, plus that entry's filtered value. */
  lemma FilterSnoc(fs: seq<Field>, i: nat)
    requires i < |fs| && FilterFields(fs[..i]).Some? && !fs[i].val.Missing? && FilterValue(fs[i].val).Some?
    ensures FilterFields(fs[..i + 1])
         == Some(FilterFields(fs[..i]).value + [Field(fs[i].key, FilterValue(fs[i].val).value)])
  {
    assert fs[..i + 1][..i] == fs[..i];
  }

  /** The list comprehension over a list value. */
  method RemoveAllMissingInList(items: seq<Value>) returns (r: Option<seq<Value>>)
    ensures r == FilterItems(items)
    decreases items, 2
  {
    var out: seq<Value> := [];
    var j := 0;
    while j < |items|
      invariant 0 <= j <= |items|
      invariant FilterItems(items[..j]) == Some(out)
    {
      assert items[..j + 1][..j] == items[..j] && items[..j + 1][j] == items[j];
      var e := items[j];
      if !e.Dict? {
        ItemsFailPrefix(items, j + 1);
        return None;
      }
      var g := RemoveAllMissing(e.fields);
      if g.None? {
        ItemsFailPrefix(items, j + 1);
        return None;
      }
      out := out + [Dict(g.value)];
      j := j + 1;
    }
    assert items[..|items|] == items;
    return Some(out);
  }

  /** A failure on a prefix of the items is a failure of the whole dict. */
  lemma {:induction false} FilterFailPrefix(fs: seq<Field>, n: nat)
    requires n <= |fs| && FilterFields(fs[..n]).None?
    ensures FilterFields(fs) == None
    decreases |fs|
  {
    if n < |fs| {
      assert fs[..|fs| - 1][..n] == fs[..n];
      FilterFailPrefix(fs[..|fs| - 1], n);
    } else {
      assert fs[..n] == fs;
    }
  }

  lemma {:induction false} ItemsFailPrefix(items: seq<Value>, n: nat)
    requires n <= |items| && FilterItems(items[..n]).None?
    ensures FilterItems(items) == None
    decreases |items|
  {
    if n < |items| {
      assert items[..|items| - 1][..n] == items[..n];
      ItemsFailPrefix(items[..|items| - 1], n);
    } else {
      assert items[..n] == items;
    }
  }

  // ----- what the filter promises -----

  /** No `MISSING` at any depth, and every list holds dicts only. */
  predicate CleanFields(fs: seq<Field>)
    decreases fs, 1
  {
    forall i :: 0 <= i < |fs| ==> CleanValue(fs[i].val)
  }

  predicate CleanValue(v: Value)
    decreases v, 0
  {
    match v
    case Missing => false
    case Dict(fs) => CleanFields(fs)
    case List(items) => CleanItems(items)
    case _ => true
  }

  predicate CleanItems(items: seq<Value>)
    decreases items, 1
  {
    forall j :: 0 <= j < |items| ==> items[j].Dict? && CleanFields(items[j].fields)
  }

  /** Every list, at any depth, holds dicts only: the dumps the filter can handle. */
  predicate ListsOfDicts(fs: seq<Field>)
    decreases fs, 1
  {
    forall i :: 0 <= i < |fs| ==> ListsOfDictsIn(fs[i].val)
  }

  predicate ListsOfDictsIn(v: Value)
    decreases v, 0
  {
    match v
    case Dict(fs) => ListsOfDicts(fs)
    case List(items) => forall j :: 0 <= j < |items| ==> items[j].Dict? && ListsOfDicts(items[j].fields)
    case _ => true
  }

  /** The keys of a dict, in order. */
  function Keys(fs: seq<Field>): (ks: seq<string>)
    ensures |ks| == |fs| && forall i :: 0 <= i < |fs| ==> ks[i] == fs[i].key
  {
    if fs == [] then [] else Keys(fs[..|fs| - 1]) + [fs[|fs| - 1].key]
  }

  /** The keys whose value is not `MISSING`, in order. */
  function KeptKeys(fs: seq<Field>): seq<string> {
    if fs == [] then []
    else if fs[|fs| - 1].val.Missing? then KeptKeys(fs[..|fs| - 1])
    else KeptKeys(fs[..|fs| - 1]) + [fs[|fs| - 1].key]
  }

  /** The kept keys of two dicts laid end to end. */
  lemma {:induction false} KeptKeysAppend(a: seq<Field>, b: seq<Field>)
    ensures KeptKeys(a + b) == KeptKeys(a) + KeptKeys(b)
    decreases |b|
  {
    if b != [] {
      KeptKeysAppend(a, b[..|b| - 1]);
      assert (a + b)[..|a + b| - 1] == a + b[..|b| - 1];
    } else {
      assert a + b == a;
    }
  }

  lemma KeptKeysOne(f: Field)
    ensures KeptKeys([f]) == if f.val.Missing? then [] else [f.key]
  {
    assert [f][..0] == [];
  }

  /** One more entry of a prefix. */
  lemma KeptKeysPrefix(fs: seq<Field>, n: nat)
    requires 0 < n <= |fs|
    ensures KeptKeys(fs[..n])
         == KeptKeys(fs[..n - 1]) + if fs[n - 1].val.Missing? then [] else [fs[n - 1].key]
  {
    assert fs[..n][..n - 1] == fs[..n - 1];
  }

  /** A key is kept exactly when some entry binds it to something other than `MISSING`. */
  lemma {:induction false} KeptKeysMember(fs: seq<Field>, k: string)
    ensures k in KeptKeys(fs) <==> exists i :: 0 <= i < |fs| && fs[i].key == k && !fs[i].val.Missing?
    decreases |fs|
  {
    if fs != [] {
      var init := fs[..|fs| - 1];
      KeptKeysMember(init, k);
      assert forall i :: 0 <= i < |init| ==> init[i] == fs[i];
    }
  }

  /** A key that occurs once is kept exactly when its value is not `MISSING`. */
  lemma UniqueKeyKept(fs: seq<Field>, i: nat)
    requires i < |fs| && forall j :: 0 <= j < |fs| && j != i ==> fs[j].key != fs[i].key
    ensures fs[i].key in KeptKeys(fs) <==> !fs[i].val.Missing?
  {
    KeptKeysMember(fs, fs[i].key);
  }

  /** With no `MISSING` value, every key is kept. */
  lemma {:induction false} KeptKeysAllSet(fs: seq<Field>)
    requires forall i :: 0 <= i < |fs| ==> !fs[i].val.Missing?
    ensures KeptKeys(fs) == Keys(fs)
    decreases |fs|
  {
    if fs != [] {
      KeptKeysAllSet(fs[..|fs| - 1]);
    }
  }

  /** After the filter nothing anywhere is `MISSING`. */
  lemma {:induction false} FilterIsClean(fs: seq<Field>)
    requires FilterFields(fs).Some?
    ensures CleanFields(FilterFields(fs).value)
    decreases fs, 0
  {
    if fs != [] {
      var init := fs[..|fs| - 1];
      FilterIsClean(init);
      var f := fs[|fs| - 1];
      var g := FilterFields(fs).value;
      var gi := FilterFields(init).value;
      match f.val {
        case Dict(inner) =>
          FilterIsClean(inner);
          assert g == gi + [Field(f.key, Dict(FilterFields(inner).value))];
        case List(items) =>
          ItemsAreClean(items);
          assert g == gi + [Field(f.key, List(FilterItems(items).value))];
        case Missing =>
        case _ =>
          assert g == gi + [f];
      }
    }
  }

  lemma {:induction false} ItemsAreClean(items: seq<Value>)
    requires FilterItems(items).Some?
    ensures CleanItems(FilterItems(items).value)
    decreases items, 0
  {
    if items != [] {
      ItemsAreClean(items[..|items| - 1]);
      FilterIsClean(items[|items| - 1].fields);
    }
  }

  /** A clean dict passes through the filter unchanged. */
  lemma {:induction false} CleanIsFixed(fs: seq<Field>)
    requires CleanFields(fs)
    ensures FilterFields(fs) == Some(fs)
    decreases fs, 0
  {
    if fs != [] {
      var init := fs[..|fs| - 1];
      CleanIsFixed(init);
      var f := fs[|fs| - 1];
      assert CleanValue(f.val);
      match f.val {
        case Dict(inner) => CleanIsFixed(inner);
        case List(items) => CleanItemsFixed(items);
        case _ =>
      }
      assert init + [f] == fs;
    }
  }

  lemma {:induction false} CleanItemsFixed(items: seq<Value>)
    requires CleanItems(items)
    ensures FilterItems(items) == Some(items)
    decreases items, 0
  {
    if items != [] {
      var init := items[..|items| - 1];
      CleanItemsFixed(init);
      var e := items[|items| - 1];
      CleanIsFixed(e.fields);
      assert init + [Dict(e.fields)] == items;
    }
  }

  /** Filtering twice is filtering once. */
  lemma FilterIdempotent(fs: seq<Field>)
    requires FilterFields(fs).Some?
    ensures FilterFields(FilterFields(fs).value) == FilterFields(fs)
  {
    FilterIsClean(fs);
    CleanIsFixed(FilterFields(fs).value);
  }

  /** The filter succeeds exactly when every list in the dict holds dicts only. */
  lemma {:induction false} FilterOkIff(fs: seq<Field>)
    ensures FilterFields(fs).Some? <==> ListsOfDicts(fs)
    decreases fs, 0
  {
    if fs != [] {
      var init := fs[..|fs| - 1];
      FilterOkIff(init);
      var f := fs[|fs| - 1];
      assert ListsOfDicts(fs) <==> ListsOfDicts(init) && ListsOfDictsIn(f.val) by {
        assert forall i :: 0 <= i < |init| ==> init[i] == fs[i];
      }
      match f.val {
        case Dict(inner) => FilterOkIff(inner);
        case List(items) => ItemsOkIff(items);
        case _ =>
      }
    }
  }

  lemma {:induction false} ItemsOkIff(items: seq<Value>)
    ensures FilterItems(items).Some? <==>
      forall j :: 0 <= j < |items| ==> items[j].Dict? && ListsOfDicts(items[j].fields)
    decreases items, 0
  {
    if items != [] {
      var init := items[..|items| - 1];
      ItemsOkIff(init);
      var e := items[|items| - 1];
      if e.Dict? {
        FilterOkIff(e.fields);
      }
      assert forall j :: 0 <= j < |init| ==> init[j] == items[j];
    }
  }

  /** Only the keys bound to `MISSING` go; the others stay, in their order. */
  lemma {:induction false} FilterKeys(fs: seq<Field>)
    requires FilterFields(fs).Some?
    ensures Keys(FilterFields(fs).value) == KeptKeys(fs)
    decreases |fs|
  {
    if fs != [] {
      FilterKeys(fs[..|fs| - 1]);
    }
  }

  /** A scalar entry is kept with its key and value. */
  lemma {:induction false} FilterKeepsScalars(fs: seq<Field>)
    requires FilterFields(fs).Some?
    ensures forall i :: 0 <= i < |fs| && IsScalar(fs[i].val) ==> fs[i] in FilterFields(fs).value
    decreases |fs|
  {
    if fs != [] {
      var init := fs[..|fs| - 1];
      FilterKeepsScalars(init);
      assert forall i :: 0 <= i < |init| ==> init[i] == fs[i];
    }
  }

  /** A list keeps its length and order; each element is the filtered dict it was. */
  lemma {:induction false} FilterItemsPointwise(items: seq<Value>)
    requires FilterItems(items).Some?
    ensures |FilterItems(items).value| == |items|
    ensures forall j :: 0 <= j < |items| ==>
      items[j].Dict? && FilterItems(items).value[j].Dict?
      && FilterFields(items[j].fields) == Some(FilterItems(items).value[j].fields)
    decreases |items|
  {
    if items != [] {
      var init := items[..|items| - 1];
      FilterItemsPointwise(init);
      assert forall j :: 0 <= j < |init| ==> init[j] == items[j];
    }
  }
}
