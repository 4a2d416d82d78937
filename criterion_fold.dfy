/** The fold inside `build_criterion_for_filter` (table.py): the columns of a
    filter mapping in sorted order, each column's entries in list order, each
    entry turned into a criterion, unknown operators skipped, the rest
    combined with AND (or OR) from the left. */
module CriterionFold {
  import opened Wrappers
  import opened Values
  import opened StringOrder
  import opened Criteria

  /** Lines 307-312: a dictionary entry supplies its `op` (looked up first)
      and its `value`; any other entry is a value compared with `==`. */
  function EntryOperation(entry: Value): (r: Result<(Value, Value), Error>)
    ensures !entry.DictV? ==> r == Ok((StrV("=="), entry))
    ensures entry.DictV? ==> (r.Ok? <==> "op" in entry.fields && "value" in entry.fields)
    ensures entry.DictV? && r.Ok? ==> r.value == (entry.fields["op"], entry.fields["value"])
    ensures entry.DictV? && "op" !in entry.fields ==> r == Err(KeyError(StrV("op")))
    ensures entry.DictV? && "op" in entry.fields && "value" !in entry.fields ==> r == Err(KeyError(StrV("value")))
  {
    match entry
    case DictV(m) =>
      var op :- Lookup(m, "op");
      var value :- Lookup(m, "value");
      Ok((op, value))
    case _ => Ok((StrV("=="), entry))
  }

  /** The criterion one entry of `column` stands for, `None` when its
      operator is not recognised. */
  function EntryCriterion(column: string, entry: Value): Result<Option<Criterion>, Error> {
    var (op, value) :- EntryOperation(entry);
    OperatorToCriterion(op, column, value)
  }

  /** One pass of the inner loop body (lines 307-325). */
  function Step(acc: Option<Criterion>, column: string, entry: Value, byAnd: bool): Result<Option<Criterion>, Error> {
    var c :- EntryCriterion(column, entry);
    Ok(if c.None? then acc else Some(Join(acc, c.value, byAnd)))
  }

  /** The inner loop over one column's entries, from accumulator `acc`. */
  function FoldEntries(acc: Option<Criterion>, column: string, entries: seq<Value>, byAnd: bool): Result<Option<Criterion>, Error>
    decreases |entries|
  {
    if entries == [] then Ok(acc)
    else
      var before :- FoldEntries(acc, column, entries[..|entries| - 1], byAnd);
      Step(before, column, entries[|entries| - 1], byAnd)
  }

  /** The outer loop over the columns `keys`, in the order given. */
  function FoldColumns(acc: Option<Criterion>, keys: seq<string>, filters: map<string, seq<Value>>, byAnd: bool): Result<Option<Criterion>, Error>
    requires forall k :: k in keys ==> k in filters
    decreases |keys|
  {
    if keys == [] then Ok(acc)
    else
      var column := keys[|keys| - 1];
      var before :- FoldColumns(acc, keys[..|keys| - 1], filters, byAnd);
      FoldEntries(before, column, filters[column], byAnd)
  }

  /** One more column: the fold over `keys[..i + 1]` continues the fold over
      `keys[..i]` with the entries of `keys[i]`. */
  lemma FoldColumnsSnoc(acc: Option<Criterion>, keys: seq<string>, filters: map<string, seq<Value>>, i: nat, byAnd: bool)
    requires i < |keys|
    requires forall k :: k in keys ==> k in filters
    requires FoldColumns(acc, keys[..i], filters, byAnd).Ok?
    ensures FoldColumns(acc, keys[..i + 1], filters, byAnd)
            == FoldEntries(FoldColumns(acc, keys[..i], filters, byAnd).value, keys[i], filters[keys[i]], byAnd)
  {
    assert keys[..i + 1][..i] == keys[..i];
  }

  /** `build_criterion_for_filter(column_filters, concatenate_by_and)`. */
  function CriterionForFilter(columnFilters: PyDict<seq<Value>>, byAnd: bool): Result<Option<Criterion>, Error> {
    var keys := Sort(columnFilters.keys);
    assert forall k :: k in keys ==> k in multiset(columnFilters.keys);
    FoldColumns(None, keys, columnFilters.values, byAnd)
  }

  // ---- The reference: the surviving criteria, then one left fold ----

  /** The criteria the entries of one column stand for, in list order, with
      those of unrecognised operators left out. */
  function Survivors(column: string, entries: seq<Value>): Result<seq<Criterion>, Error>
    decreases |entries|
  {
    if entries == [] then Ok([])
    else
      var before :- Survivors(column, entries[..|entries| - 1]);
      var c :- EntryCriterion(column, entries[|entries| - 1]);
      Ok(before + (if c.None? then [] else [c.value]))
  }

  /** The surviving criteria of all the columns `keys`, column after column. */
  function ColumnSurvivors(keys: seq<string>, filters: map<string, seq<Value>>): Result<seq<Criterion>, Error>
    requires forall k :: k in keys ==> k in filters
    decreases |keys|
  {
    if keys == [] then Ok([])
    else
      var before :- ColumnSurvivors(keys[..|keys| - 1], filters);
      var last :- Survivors(keys[|keys| - 1], filters[keys[|keys| - 1]]);
      Ok(before + last)
  }

  function JoinResult(acc: Option<Criterion>, cs: Result<seq<Criterion>, Error>, byAnd: bool): Result<Option<Criterion>, Error> {
    match cs
    case Ok(xs) => Ok(JoinAll(acc, xs, byAnd))
    case Err(e) => Err(e)
  }

  /** The inner loop is the left fold of the column's surviving criteria. */
  lemma {:induction false} FoldEntriesIsJoin(acc: Option<Criterion>, column: string, entries: seq<Value>, byAnd: bool)
    ensures FoldEntries(acc, column, entries, byAnd) == JoinResult(acc, Survivors(column, entries), byAnd)
    decreases |entries|
  {
    if entries != [] {
      var init := entries[..|entries| - 1];
      FoldEntriesIsJoin(acc, column, init, byAnd);
      var s := Survivors(column, init);
      if s.Ok? {
        var c := EntryCriterion(column, entries[|entries| - 1]);
        if c.Ok? && c.value.Some? {
          assert (s.value + [c.value.value])[..|s.value|] == s.value;
        } else if c.Ok? {
          assert s.value + [] == s.value;
        }
      }
    }
  }

  /** The nested loops fold onto `acc` the criteria that survive, column
      after column. */
  lemma {:induction false} FoldColumnsIsJoin(acc: Option<Criterion>, keys: seq<string>, filters: map<string, seq<Value>>, byAnd: bool)
    requires forall k :: k in keys ==> k in filters
    ensures FoldColumns(acc, keys, filters, byAnd) == JoinResult(acc, ColumnSurvivors(keys, filters), byAnd)
    decreases |keys|
  {
    if keys != [] {
      var init := keys[..|keys| - 1];
      var column := keys[|keys| - 1];
      FoldColumnsIsJoin(acc, init, filters, byAnd);
      var s := ColumnSurvivors(init, filters);
      if s.Ok? {
        FoldEntriesIsJoin(JoinAll(acc, s.value, byAnd), column, filters[column], byAnd);
        var last := Survivors(column, filters[column]);
        if last.Ok? {
          JoinAllAppend(acc, s.value, last.value, byAnd);
        }
      }
    }
  }

  /** `build_criterion_for_filter` is the left fold, with AND or with OR, of
      the criteria that survive when the columns are visited in sorted order
      and each column's entries in list order; it is `None` exactly when no
      criterion survives. */
  lemma CriterionForFilterIsJoin(columnFilters: PyDict<seq<Value>>, byAnd: bool)
    ensures forall k :: k in Sort(columnFilters.keys) ==> k in columnFilters.values
    ensures CriterionForFilter(columnFilters, byAnd)
            == JoinResult(None, ColumnSurvivors(Sort(columnFilters.keys), columnFilters.values), byAnd)
    ensures CriterionForFilter(columnFilters, byAnd) == Ok(None)
            <==> ColumnSurvivors(Sort(columnFilters.keys), columnFilters.values) == Ok([])
  {
    var keys := Sort(columnFilters.keys);
    assert forall k :: k in keys ==> k in multiset(columnFilters.keys);
    FoldColumnsIsJoin(None, keys, columnFilters.values, byAnd);
  }

  /** In a sequence without repeats every member occurs once. */
  lemma {:induction false} DistinctMultiplicity(s: seq<string>, x: string)
    requires forall i, j :: 0 <= i < j < |s| ==> s[i] != s[j]
    ensures multiset(s)[x] == if x in s then 1 else 0
  {
    if s != [] {
      var n := |s| - 1;
      assert s == s[..n] + [s[n]];
      DistinctMultiplicity(s[..n], x);
      assert s[n] !in s[..n];
    }
  }

  /** The result depends only on the mapping's contents: two dictionaries
      with the same bindings, whatever order their keys were inserted in,
      give the same criterion. */
  lemma CriterionForFilterDeterministic(d1: PyDict<seq<Value>>, d2: PyDict<seq<Value>>, byAnd: bool)
    requires d1.values == d2.values
    ensures CriterionForFilter(d1, byAnd) == CriterionForFilter(d2, byAnd)
  {
    forall x ensures multiset(d1.keys)[x] == multiset(d2.keys)[x] {
      DistinctMultiplicity(d1.keys, x);
      DistinctMultiplicity(d2.keys, x);
    }
    assert multiset(d1.keys) == multiset(d2.keys);
    SortedUnique(Sort(d1.keys), Sort(d2.keys));
  }

  /** Once a prefix of a column's entries raises, the whole column raises
      the same error. */
  lemma {:induction false} FoldEntriesErrPrefix(acc: Option<Criterion>, column: string, entries: seq<Value>, j: nat, byAnd: bool)
    requires j <= |entries|
    requires FoldEntries(acc, column, entries[..j], byAnd).Err?
    ensures FoldEntries(acc, column, entries, byAnd) == FoldEntries(acc, column, entries[..j], byAnd)
    decreases |entries| - j
  {
    if j < |entries| {
      assert entries[..j + 1][..j] == entries[..j];
      FoldEntriesErrPrefix(acc, column, entries, j + 1, byAnd);
    } else {
      assert entries[..j] == entries;
    }
  }

  /** Once a prefix of the columns raises, the whole fold raises the same
      error. */
  lemma {:induction false} FoldColumnsErrPrefix(acc: Option<Criterion>, keys: seq<string>, filters: map<string, seq<Value>>, i: nat, byAnd: bool)
    requires i <= |keys|
    requires forall k :: k in keys ==> k in filters
    requires FoldColumns(acc, keys[..i], filters, byAnd).Err?
    ensures FoldColumns(acc, keys, filters, byAnd) == FoldColumns(acc, keys[..i], filters, byAnd)
    decreases |keys| - i
  {
    if i < |keys| {
      assert keys[..i + 1][..i] == keys[..i];
      FoldColumnsErrPrefix(acc, keys, filters, i + 1, byAnd);
    } else {
      assert keys[..i] == keys;
    }
  }
}
