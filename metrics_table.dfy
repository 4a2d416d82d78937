/** The dimension-and-metrics table (metrics_table.py, class `MetricsTable`):
    a `Table` whose catalogue is the union of three partitions, which
    selects `*` once every dimension and metric is selected, filters on a
    default date-time column, and parses bulk filter configurations. The
    subclass is modelled by composition: a `MetricsTable` owns the `Table`
    it extends. */
module MetricsTables {
  import opened Wrappers
  import opened Values
  import opened StringOrder
  import opened Criteria
  import opened Terms
  import opened QueryBuilder

  // ---- Building the catalogue (lines 17-33) ----

  /** The date-time partition as a column catalogue: each column's value
      type, in the partition's order. */
  function DataTypes(dates: PyDict<DateField>): (r: PyDict<PyType>)
    ensures r.keys == dates.keys
    ensures r.values.Keys == dates.values.Keys
    ensures forall k :: k in dates.values ==> r.values[k] == dates.values[k].dataType
  {
    Dict(dates.keys, map k | k in dates.values :: dates.values[k].dataType)
  }

  /** The loop of lines 22-25. */
  method ConvertDateColumns(dates: PyDict<DateField>) returns (converted: PyDict<PyType>)
    ensures converted == DataTypes(dates)
  {
    converted := EmptyDict();
    for i := 0 to |dates.keys|
      invariant converted.keys == dates.keys[..i]
      invariant forall k :: k in converted.values ==> k in dates.values && converted.values[k] == dates.values[k].dataType
    {
      var name := dates.keys[i];
      assert name !in converted.keys;
      assert dates.keys[..i + 1] == converted.keys + [name];
      converted := Insert(converted, name, dates.values[name].dataType);
    }
    assert dates.keys[..|dates.keys|] == dates.keys;
    DataTypesUnique(dates, converted);
  }

  /** A catalogue with the partition's keys, in order, and each column's
      value type is `DataTypes` of the partition. */
  lemma DataTypesUnique(dates: PyDict<DateField>, converted: PyDict<PyType>)
    requires converted.keys == dates.keys
    requires forall k :: k in converted.values ==> k in dates.values && converted.values[k] == dates.values[k].dataType
    ensures converted == DataTypes(dates)
  {
    assert converted.values.Keys == dates.values.Keys;
    assert converted.values == DataTypes(dates).values;
  }

  /** `**src` inside a `dict(...)` call: the keys of `src`, in order, added
      after those already given; a key given twice is a `TypeError`. */
  function Spread(d: PyDict<PyType>, keys: seq<string>, src: map<string, PyType>): Result<PyDict<PyType>, Error>
    requires forall k :: k in keys ==> k in src
    decreases |keys|
  {
    if keys == [] then Ok(d)
    else
      var before :- Spread(d, keys[..|keys| - 1], src);
      var k := keys[|keys| - 1];
      if k in before.values then Err(TypeError) else Ok(Insert(before, k, src[k]))
  }

  /** Spreading distinct keys succeeds exactly when none is already given;
      a key given twice is a `TypeError`. */
  lemma {:induction false} SpreadOk(d: PyDict<PyType>, keys: seq<string>, src: map<string, PyType>)
    requires forall k :: k in keys ==> k in src
    requires forall i, j :: 0 <= i < j < |keys| ==> keys[i] != keys[j]
    ensures Spread(d, keys, src).Ok? <==> forall k :: k in keys ==> k !in d.values
    ensures Spread(d, keys, src).Err? ==> Spread(d, keys, src).error == TypeError
    decreases |keys|
  {
    if keys != [] {
      var n := |keys| - 1;
      var init := keys[..n];
      assert forall k :: k in init ==> k in keys;
      SpreadOk(d, init, src);
      SpreadValues(d, init, src);
      assert keys[n] !in init by {
        forall i | 0 <= i < n ensures init[i] != keys[n] {
          assert init[i] == keys[i];
        }
      }
      forall k | k in keys ensures k in init || k == keys[n] {
        var i :| 0 <= i < |keys| && keys[i] == k;
        if i < n {
          assert init[i] == k;
        }
      }
    }
  }

  /** The spread keys come after those already given, in order. */
  lemma {:induction false} SpreadKeys(d: PyDict<PyType>, keys: seq<string>, src: map<string, PyType>)
    requires forall k :: k in keys ==> k in src
    ensures Spread(d, keys, src).Ok? ==> Spread(d, keys, src).value.keys == d.keys + keys
    decreases |keys|
  {
    if keys != [] {
      var n := |keys| - 1;
      var init := keys[..n];
      assert forall k :: k in init ==> k in keys;
      SpreadKeys(d, init, src);
      assert keys == init + [keys[n]];
      assert (d.keys + init) + [keys[n]] == d.keys + keys;
    }
  }

  /** The bindings a successful spread leaves, as a plain map. */
  function SpreadBindings(m: map<string, PyType>, keys: seq<string>, src: map<string, PyType>): map<string, PyType>
    requires forall k :: k in keys ==> k in src
    decreases |keys|
  {
    if keys == [] then m
    else
      assert forall k :: k in keys[..|keys| - 1] ==> k in keys;
      SpreadBindings(m, keys[..|keys| - 1], src)[keys[|keys| - 1] := src[keys[|keys| - 1]]]
  }

  lemma {:induction false} SpreadIsBindings(d: PyDict<PyType>, keys: seq<string>, src: map<string, PyType>)
    requires forall k :: k in keys ==> k in src
    requires Spread(d, keys, src).Ok?
    ensures Spread(d, keys, src).value.values == SpreadBindings(d.values, keys, src)
    decreases |keys|
  {
    if keys != [] {
      var n := |keys| - 1;
      assert forall k :: k in keys[..n] ==> k in keys;
      SpreadIsBindings(d, keys[..n], src);
    }
  }

  /** The spread result holds the keys already given and the spread ones. */
  lemma {:induction false} SpreadDomain(m: map<string, PyType>, keys: seq<string>, src: map<string, PyType>, k: string)
    requires forall k :: k in keys ==> k in src
    ensures k in SpreadBindings(m, keys, src) <==> k in m || k in keys
    decreases |keys|
  {
    if keys != [] {
      var n := |keys| - 1;
      assert forall k :: k in keys[..n] ==> k in keys;
      SpreadDomain(m, keys[..n], src, k);
      assert keys == keys[..n] + [keys[n]];
    }
  }

  /** Each spread key is bound to its value in `src`. */
  lemma {:induction false} SpreadNew(m: map<string, PyType>, keys: seq<string>, src: map<string, PyType>, k: string)
    requires forall k :: k in keys ==> k in src
    requires k in keys
    ensures k in SpreadBindings(m, keys, src) && SpreadBindings(m, keys, src)[k] == src[k]
    decreases |keys|
  {
    var n := |keys| - 1;
    if keys[n] != k {
      assert keys == keys[..n] + [keys[n]];
      assert forall k :: k in keys[..n] ==> k in keys;
      SpreadNew(m, keys[..n], src, k);
    }
  }

  /** The bindings already given are kept, when no spread key repeats them. */
  lemma {:induction false} SpreadKept(m: map<string, PyType>, keys: seq<string>, src: map<string, PyType>, k: string)
    requires forall k :: k in keys ==> k in src
    requires k in m && k !in keys
    ensures k in SpreadBindings(m, keys, src) && SpreadBindings(m, keys, src)[k] == m[k]
    decreases |keys|
  {
    if keys != [] {
      var n := |keys| - 1;
      assert forall k :: k in keys[..n] ==> k in keys;
      SpreadKept(m, keys[..n], src, k);
    }
  }

  /** The spread keys are bound to their values and the bindings already
      given are kept. */
  lemma SpreadValues(d: PyDict<PyType>, keys: seq<string>, src: map<string, PyType>)
    requires forall k :: k in keys ==> k in src
    ensures Spread(d, keys, src).Ok? ==> forall k :: k in Spread(d, keys, src).value.values <==> k in d.values || k in keys
    ensures Spread(d, keys, src).Ok? ==> forall k :: k in keys ==> Spread(d, keys, src).value.values[k] == src[k]
    ensures Spread(d, keys, src).Ok? ==> forall k :: k in d.values ==> Spread(d, keys, src).value.values[k] == d.values[k]
  {
    if Spread(d, keys, src).Ok? {
      SpreadIsBindings(d, keys, src);
      forall k ensures k in Spread(d, keys, src).value.values <==> k in d.values || k in keys {
        SpreadDomain(d.values, keys, src, k);
      }
      forall k | k in keys ensures Spread(d, keys, src).value.values[k] == src[k] {
        SpreadNew(d.values, keys, src, k);
      }
      forall k | k in d.values ensures Spread(d, keys, src).value.values[k] == d.values[k] {
        SpreadNoClash(d, keys, src, k);
        SpreadKept(d.values, keys, src, k);
      }
    }
  }

  /** A successful spread ended on a key the spread before it lacked. */
  lemma SpreadLast(d: PyDict<PyType>, keys: seq<string>, src: map<string, PyType>)
    requires forall k :: k in keys ==> k in src
    requires keys != [] && Spread(d, keys, src).Ok?
    ensures forall k :: k in keys[..|keys| - 1] ==> k in src
    ensures Spread(d, keys[..|keys| - 1], src).Ok?
    ensures keys[|keys| - 1] !in Spread(d, keys[..|keys| - 1], src).value.values
  {
    assert forall k :: k in keys[..|keys| - 1] ==> k in keys;
  }

  /** Absent from a list's front and unequal to its last element. */
  lemma NotInSnoc(keys: seq<string>, k: string)
    requires keys != [] && k !in keys[..|keys| - 1] && k != keys[|keys| - 1]
    ensures k !in keys
  {
    var n := |keys| - 1;
    forall i | 0 <= i < |keys| ensures keys[i] != k {
      if i < n {
        assert keys[..n][i] == keys[i];
      }
    }
  }

  /** A successful spread repeats no key already given. */
  lemma {:induction false} SpreadNoClash(d: PyDict<PyType>, keys: seq<string>, src: map<string, PyType>, k: string)
    requires forall k :: k in keys ==> k in src
    requires Spread(d, keys, src).Ok? && k in d.values
    ensures k !in keys
    decreases |keys|
  {
    if keys != [] {
      var n := |keys| - 1;
      assert forall k :: k in keys[..n] ==> k in keys;
      SpreadLast(d, keys, src);
      SpreadNoClash(d, keys[..n], src, k);
      SpreadIsBindings(d, keys[..n], src);
      SpreadDomain(d.values, keys[..n], src, k);
      NotInSnoc(keys, k);
    }
  }

  /** `dict(**dimension_columns, **metrics_columns, **converted_date_columns)`. */
  function MergePartitions(dimensions: PyDict<PyType>, metrics: PyDict<PyType>, dates: PyDict<PyType>): Result<PyDict<PyType>, Error> {
    var withDimensions :- Spread(EmptyDict(), dimensions.keys, dimensions.values);
    var withMetrics :- Spread(withDimensions, metrics.keys, metrics.values);
    Spread(withMetrics, dates.keys, dates.values)
  }

  /** The merge succeeds exactly when the partitions are disjoint; a
      repeated column is a `TypeError`. */
  lemma MergePartitionsOk(dimensions: PyDict<PyType>, metrics: PyDict<PyType>, dates: PyDict<PyType>)
    ensures MergePartitions(dimensions, metrics, dates).Ok?
            <==> dimensions.values.Keys !! metrics.values.Keys
                 && dimensions.values.Keys !! dates.values.Keys
                 && metrics.values.Keys !! dates.values.Keys
    ensures MergePartitions(dimensions, metrics, dates).Err? ==> MergePartitions(dimensions, metrics, dates).error == TypeError
  {
    var e: PyDict<PyType> := EmptyDict();
    SpreadOk(e, dimensions.keys, dimensions.values);
    SpreadValues(e, dimensions.keys, dimensions.values);
    var withDimensions := Spread(e, dimensions.keys, dimensions.values);
    if withDimensions.Ok? {
      var d1 := withDimensions.value;
      SpreadOk(d1, metrics.keys, metrics.values);
      SpreadValues(d1, metrics.keys, metrics.values);
      if !(dimensions.values.Keys !! metrics.values.Keys) {
        var k :| k in dimensions.values.Keys && k in metrics.values.Keys;
        assert k in metrics.keys && k in d1.values;
      }
      var withMetrics := Spread(d1, metrics.keys, metrics.values);
      if withMetrics.Ok? {
        var d2 := withMetrics.value;
        SpreadOk(d2, dates.keys, dates.values);
        if !(dimensions.values.Keys !! dates.values.Keys && metrics.values.Keys !! dates.values.Keys) {
          var k :| k in dates.values.Keys && (k in dimensions.values.Keys || k in metrics.values.Keys);
          assert k in dates.keys && k in d2.values;
        }
      }
    }
  }

  /** The merged catalogue lists the dimensions, the metrics and the
      date-time columns, in that order. */
  lemma MergePartitionsKeys(dimensions: PyDict<PyType>, metrics: PyDict<PyType>, dates: PyDict<PyType>)
    ensures MergePartitions(dimensions, metrics, dates).Ok? ==>
              MergePartitions(dimensions, metrics, dates).value.keys == dimensions.keys + metrics.keys + dates.keys
  {
    var e: PyDict<PyType> := EmptyDict();
    SpreadKeys(e, dimensions.keys, dimensions.values);
    var withDimensions := Spread(e, dimensions.keys, dimensions.values);
    if withDimensions.Ok? {
      var d1 := withDimensions.value;
      assert d1.keys == dimensions.keys;
      SpreadKeys(d1, metrics.keys, metrics.values);
      var withMetrics := Spread(d1, metrics.keys, metrics.values);
      if withMetrics.Ok? {
        SpreadKeys(withMetrics.value, dates.keys, dates.values);
      }
    }
  }

  /** Each column of the merged catalogue keeps the type its partition
      gave it. */
  lemma MergePartitionsValues(dimensions: PyDict<PyType>, metrics: PyDict<PyType>, dates: PyDict<PyType>)
    ensures MergePartitions(dimensions, metrics, dates).Ok? ==>
              MergePartitions(dimensions, metrics, dates).value.values == dimensions.values + metrics.values + dates.values
  {
    var e: PyDict<PyType> := EmptyDict();
    SpreadValues(e, dimensions.keys, dimensions.values);
    var withDimensions := Spread(e, dimensions.keys, dimensions.values);
    if withDimensions.Ok? {
      var d1 := withDimensions.value;
      SpreadValues(d1, metrics.keys, metrics.values);
      var withMetrics := Spread(d1, metrics.keys, metrics.values);
      if withMetrics.Ok? {
        var d2 := withMetrics.value;
        SpreadValues(d2, dates.keys, dates.values);
        var all := Spread(d2, dates.keys, dates.values);
        if all.Ok? {
          var m := all.value.values;
          assert forall k :: k in dates.values ==> m[k] == dates.values[k];
          assert forall k :: k in metrics.values && k !in dates.values ==> m[k] == metrics.values[k];
          UnionOfParts(m, dimensions.values, metrics.values, dates.values);
        }
      }
    }
  }

  lemma UnionOfParts(m: map<string, PyType>, a: map<string, PyType>, b: map<string, PyType>, c: map<string, PyType>)
    requires forall k :: k in m <==> k in a || k in b || k in c
    requires forall k :: k in c ==> m[k] == c[k]
    requires forall k :: k in b && k !in c ==> m[k] == b[k]
    requires forall k :: k in a && k !in b && k !in c ==> m[k] == a[k]
    ensures m == a + b + c
  {
  }

  // ---- Choosing what to select (lines 35-47) ----

  /** Two finite sets, one inside the other, with the same size are equal. */
  lemma SameSizeSubset(small: set<string>, large: set<string>)
    requires small <= large && |small| == |large|
    ensures small == large
  {
    assert large * small == small;
    assert |large - small| == |large| - |large * small| == 0;
    assert large - small == {};
  }

  /** `_selected_column_strings`: `*` once every dimension and metric is
      selected (also when there are none), the selection itself otherwise. */
  function SelectionTokens(dimensionsAndMetrics: set<string>, selected: set<string>): (r: set<string>)
    ensures dimensionsAndMetrics <= selected ==> r == {"*"}
    ensures !(dimensionsAndMetrics <= selected) ==> r == selected
  {
    var intersection := selected * dimensionsAndMetrics;
    assert dimensionsAndMetrics <= selected ==> intersection == dimensionsAndMetrics;
    if |dimensionsAndMetrics| == |intersection| then
      SameSizeSubset(intersection, dimensionsAndMetrics);
      {"*"}
    else
      selected
  }

  /** A selection covering every dimension and metric renders as
      `SELECT *`; otherwise the query is the one the plain table builds. */
  lemma StarWhenAllSelected(s: TableState, dimensionsAndMetrics: set<string>)
    ensures dimensionsAndMetrics <= s.selected && QueryOf(s, SelectionTokens(dimensionsAndMetrics, s.selected)).Ok? ==>
              QueryOf(s, SelectionTokens(dimensionsAndMetrics, s.selected)).value.select == [Star]
    ensures !(dimensionsAndMetrics <= s.selected) ==>
              QueryOf(s, SelectionTokens(dimensionsAndMetrics, s.selected)) == QueryOf(s, s.selected)
  {
    SortedSetMembers({"*"});
    var r := SortedSet({"*"});
    assert r[0] in {"*"};
    assert r == ["*"];
    assert TermsOf(["*"]) == [Star] by {
      assert ["*"][..0] == [];
    }
  }

  // ---- Date filters (lines 65-87) ----

  /** One `filter_column_by_value(column, value, operator=...)` call. */
  datatype FilterCall = FilterCall(column: string, value: Value, operator: string)

  /** The calls lines 79-85 make on a string column. */
  function DateBounds(column: string, start: Value, end: Value): seq<FilterCall> {
    if Truthy(start) && Truthy(end) then [FilterCall(column, ListV([start, end]), "between")]
    else (if Truthy(start) then [FilterCall(column, start, ">=")] else [])
         + (if Truthy(end) then [FilterCall(column, end, "<=")] else [])
  }

  /** The calls the bounds make on `column`: none without a bound; an
      unhashable column raises at the first filter call; a column that is
      not a string is in no catalogue, so its filters are dropped. */
  function BoundCalls(column: Value, start: Value, end: Value): Result<seq<FilterCall>, Error> {
    if !Truthy(start) && !Truthy(end) then Ok([])
    else
      match column
      case StrV(c) => Ok(DateBounds(c, start, end))
      case ListV(_) => Err(TypeError)
      case DictV(_) => Err(TypeError)
      case _ => Ok([])
  }

  /** What `filter_dates_between` does: an `IndexError` when there is no
      date-time column, whatever else is given; otherwise the bounds' calls
      on the override when it is truthy and on the first date-time column
      when it is not. */
  function DateFilterCalls(dateColumns: seq<string>, start: Value, end: Value, override: Value): Result<seq<FilterCall>, Error> {
    if dateColumns == [] then Err(IndexError)
    else BoundCalls(if Truthy(override) then override else StrV(dateColumns[0]), start, end)
  }

  /** The filter calls applied in order. */
  function ApplyCalls(columns: PyDict<PyType>, filters: PyDict<seq<Value>>, calls: seq<FilterCall>): PyDict<seq<Value>>
    decreases |calls|
  {
    if calls == [] then filters
    else
      var c := calls[|calls| - 1];
      AddFilter(columns, ApplyCalls(columns, filters, calls[..|calls| - 1]), c.column, c.value, StrV(c.operator))
  }

  /** Applying one call is one `filter_column_by_value`. */
  lemma ApplySingle(columns: PyDict<PyType>, filters: PyDict<seq<Value>>, c: FilterCall)
    ensures ApplyCalls(columns, filters, [c]) == AddFilter(columns, filters, c.column, c.value, StrV(c.operator))
  {
    assert [c][..0] == [];
  }

  /** Both bounds give one `between` filter, one bound a `>=` or `<=`
      filter, and none nothing; the column is the override when truthy and
      the first date-time column otherwise. */
  lemma DateFilterCases(dateColumns: seq<string>, start: Value, end: Value, override: string)
    requires dateColumns != []
    ensures var column := if override != "" then override else dateColumns[0];
            && (Truthy(start) && Truthy(end) ==>
                  DateFilterCalls(dateColumns, start, end, StrV(override)) == Ok([FilterCall(column, ListV([start, end]), "between")]))
            && (Truthy(start) && !Truthy(end) ==>
                  DateFilterCalls(dateColumns, start, end, StrV(override)) == Ok([FilterCall(column, start, ">=")]))
            && (!Truthy(start) && Truthy(end) ==>
                  DateFilterCalls(dateColumns, start, end, StrV(override)) == Ok([FilterCall(column, end, "<=")]))
            && (!Truthy(start) && !Truthy(end) ==> DateFilterCalls(dateColumns, start, end, StrV(override)) == Ok([]))
  {
    var column := if override != "" then override else dateColumns[0];
    assert [FilterCall(column, start, ">=")] + [] == [FilterCall(column, start, ">=")];
    assert [] + [FilterCall(column, end, "<=")] == [FilterCall(column, end, "<=")];
  }

  /** Without any date-time column the call raises `IndexError`, even with
      an override and even with no bounds. */
  lemma NoDateColumnRaises(start: Value, end: Value, override: Value)
    ensures DateFilterCalls([], start, end, override) == Err(IndexError)
  {
  }

  /** Both bounds on a fresh table give `WHERE column >= start AND column
      <= end` when the column is in the catalogue, and no WHERE clause when
      it is not. */
  lemma DatesBetweenQuery(s: TableState, column: string, start: Value, end: Value, tokens: set<string>)
    requires s.filters == EmptyDict() && s.customFilters == []
    ensures var t := s.(filters := ApplyCalls(s.columns, s.filters, [FilterCall(column, ListV([start, end]), "between")]));
            && QueryOf(t, tokens).Ok?
            && (column in s.columns.values ==>
                  QueryOf(t, tokens).value.where == Some(And(Cmp(Ge, column, start), Cmp(Le, column, end))))
            && (column !in s.columns.values ==> QueryOf(t, tokens).value.where == None)
  {
    var calls := [FilterCall(column, ListV([start, end]), "between")];
    assert calls[..0] == [];
    assert ApplyCalls(s.columns, s.filters, calls[..0]) == s.filters;
    var t := s.(filters := ApplyCalls(s.columns, s.filters, calls));
    assert t.filters == AddFilter(s.columns, EmptyDict(), column, ListV([start, end]), StrV("between"));
    BetweenOnList(column, [start, end]);
    if column in s.columns.values {
      SingleFilterWhere(t, column, StrV("between"), ListV([start, end]), tokens);
    } else {
      var e: PyDict<seq<Value>> := EmptyDict();
      assert Sort(e.keys) == [];
    }
  }

  class MetricsTable {
    const base: Table
    const dimensions: PyDict<PyType>
    const metrics: PyDict<PyType>
    const datetimeColumns: PyDict<DateField>

    /** The table's catalogue is the merge of the three partitions. */
    ghost predicate Valid() {
      MergePartitions(dimensions, metrics, DataTypes(datetimeColumns)) == Ok(base.columns)
    }

    constructor(tableName: string, dimensions: PyDict<PyType>, metrics: PyDict<PyType>,
                datetimeColumns: PyDict<DateField>, allColumns: PyDict<PyType>)
      requires MergePartitions(dimensions, metrics, DataTypes(datetimeColumns)) == Ok(allColumns)
      ensures Valid() && fresh(base)
      ensures this.dimensions == dimensions && this.metrics == metrics && this.datetimeColumns == datetimeColumns
      ensures base.State() == TableState(tableName, allColumns, {}, EmptyDict(), [], [], [], None, None)
    {
      base := new Table(tableName, allColumns);
      this.dimensions := dimensions;
      this.metrics := metrics;
      this.datetimeColumns := datetimeColumns;
    }

    /** The tokens `get_query` selects. */
    function SelectedColumnStrings(): set<string>
      reads base
    {
      SelectionTokens(dimensions.values.Keys + metrics.values.Keys, base.selected)
    }

    /** Every dimension and every date-time column is in the catalogue;
        the first date-time column is the default filter target. */
    lemma CatalogueCovers()
      requires Valid()
      ensures dimensions.values.Keys + metrics.values.Keys <= base.columns.values.Keys
      ensures forall k :: k in datetimeColumns.values ==> k in base.columns.values
      ensures datetimeColumns.keys != [] ==> datetimeColumns.keys[0] in base.columns.values
    {
      MergePartitionsValues(dimensions, metrics, DataTypes(datetimeColumns));
    }

    /** `select_all_dimensions()`. */
    method SelectAllDimensions()
      modifies base`selected
      ensures base.selected == old(base.selected) + dimensions.values.Keys
    {
      base.SelectColumns(dimensions.keys);
      assert (set c | c in dimensions.keys) == dimensions.values.Keys;
    }

    /** `select_all_metrics()`. */
    method SelectAllMetrics()
      modifies base`selected
      ensures base.selected == old(base.selected) + metrics.values.Keys
    {
      base.SelectColumns(metrics.keys);
      assert (set c | c in metrics.keys) == metrics.values.Keys;
    }

    /** One filter call on a column given as any value: only a string can
        be a catalogue column; an unhashable one raises. */
    method FilterAt(column: Value, value: Value, operator: string) returns (r: Result<(), Error>)
      modifies base`filters
      ensures (column.ListV? || column.DictV?) <==> r.Err?
      ensures r.Err? ==> r.error == TypeError && base.filters == old(base.filters)
      ensures column.StrV? ==> base.filters == AddFilter(base.columns, old(base.filters), column.s, value, StrV(operator))
      ensures !column.StrV? ==> base.filters == old(base.filters)
    {
      match column
      case StrV(c) =>
        base.FilterColumnByValue(c, value, StrV(operator));
        r := Ok(());
      case ListV(_) => r := Err(TypeError);
      case DictV(_) => r := Err(TypeError);
      case _ => r := Ok(());
    }

    /** The bounds part of `filter_dates_between` on a chosen column: one
        `between` filter for both bounds, else a `>=` and a `<=` filter for
        whichever bound is given. */
    method FilterBounds(column: Value, start: Value, end: Value) returns (r: Result<(), Error>)
      modifies base`filters
      ensures r.Err? <==> BoundCalls(column, start, end).Err?
      ensures r.Err? ==> r.error == BoundCalls(column, start, end).error && base.filters == old(base.filters)
      ensures r.Ok? ==> base.filters == ApplyCalls(base.columns, old(base.filters), BoundCalls(column, start, end).value)
    {
      if Truthy(start) && Truthy(end) {
        r := FilterAt(column, ListV([start, end]), "between");
        if column.StrV? {
          ApplySingle(base.columns, old(base.filters), FilterCall(column.s, ListV([start, end]), "between"));
        }
      } else {
        r := Ok(());
        if Truthy(start) {
          r := FilterAt(column, start, ">=");
          if column.StrV? {
            assert DateBounds(column.s, start, end) == [FilterCall(column.s, start, ">=")];
            ApplySingle(base.columns, old(base.filters), FilterCall(column.s, start, ">="));
          }
          if r.Err? {
            return;
          }
        }
        if Truthy(end) {
          r := FilterAt(column, end, "<=");
          if column.StrV? {
            assert DateBounds(column.s, start, end) == [FilterCall(column.s, end, "<=")];
            ApplySingle(base.columns, old(base.filters), FilterCall(column.s, end, "<="));
          }
        }
      }
    }

    /** `filter_dates_between(start, end, date_column_override)`. */
    method FilterDatesBetween(start: Value, end: Value, override: Value) returns (r: Result<(), Error>)
      modifies base`filters
      ensures r.Err? <==> DateFilterCalls(datetimeColumns.keys, start, end, override).Err?
      ensures r.Err? ==> r.error == DateFilterCalls(datetimeColumns.keys, start, end, override).error
                         && base.filters == old(base.filters)
      ensures r.Ok? ==> base.filters == ApplyCalls(base.columns, old(base.filters),
                                                  DateFilterCalls(datetimeColumns.keys, start, end, override).value)
    {
      if datetimeColumns.keys == [] {
        return Err(IndexError);
      }
      var column := StrV(datetimeColumns.keys[0]);
      if Truthy(override) {
        column := override;
      }
      r := FilterBounds(column, start, end);
    }

    /** `get_query()` with this class's selection hook. */
    method GetQuery() returns (r: Result<Query, Error>)
      ensures r == QueryOf(base.State(), SelectedColumnStrings())
    {
      r := base.BuildQuery(SelectedColumnStrings());
    }
  }

  /** `MetricsTable(table_name, dimension_columns, metrics_columns,
      datetime_columns)`: a `TypeError` when two partitions share a column,
      a fresh table over the merged catalogue otherwise. */
  method NewMetricsTable(tableName: string, dimensions: PyDict<PyType>, metrics: PyDict<PyType>, datetimeColumns: PyDict<DateField>)
    returns (r: Result<MetricsTable, Error>)
    ensures r.Err? <==> !(dimensions.values.Keys !! metrics.values.Keys
                          && dimensions.values.Keys !! datetimeColumns.values.Keys
                          && metrics.values.Keys !! datetimeColumns.values.Keys)
    ensures r.Err? ==> r.error == TypeError
    ensures r.Ok? ==> && fresh(r.value) && fresh(r.value.base) && r.value.Valid()
                      && r.value.dimensions == dimensions && r.value.metrics == metrics
                      && r.value.datetimeColumns == datetimeColumns
                      && r.value.base.columns.keys == dimensions.keys + metrics.keys + datetimeColumns.keys
    ensures r.Ok? ==> r.value.base.State() == TableState(tableName, r.value.base.columns, {}, EmptyDict(), [], [], [], None, None)
  {
    var converted := ConvertDateColumns(datetimeColumns);
    var allColumns := MergePartitions(dimensions, metrics, converted);
    MergePartitionsOk(dimensions, metrics, converted);
    MergePartitionsKeys(dimensions, metrics, converted);
    if allColumns.Err? {
      return Err(allColumns.error);
    }
    var t := new MetricsTable(tableName, dimensions, metrics, datetimeColumns, allColumns.value);
    r := Ok(t);
  }

  // ---- Bulk filters (lines 89-134) ----

  /** One parsed filter: its column, value and operator, the operator as
      given (nothing checks it). */
  datatype BulkFilter = BulkFilter(column: string, value: Value, op: Value)

  /** `config['value']` then `config['op']`. */
  function ConfigFilter(column: string, config: Value): (r: Result<BulkFilter, Error>)
    ensures r.Ok? <==> config.DictV? && "value" in config.fields && "op" in config.fields
    ensures r.Ok? ==> r.value == BulkFilter(column, config.fields["value"], config.fields["op"])
    ensures config.DictV? && "value" !in config.fields ==> r == Err(KeyError(StrV("value")))
    ensures config.DictV? && "value" in config.fields && "op" !in config.fields ==> r == Err(KeyError(StrV("op")))
    ensures !config.DictV? ==> r == Err(TypeError)
  {
    var value :- Subscript(config, "value");
    var op :- Subscript(config, "op");
    Ok(BulkFilter(column, value, op))
  }

  /** The configurations of a list, in order; the first failure wins. */
  function ConfigFilters(column: string, configs: seq<Value>): (r: Result<seq<BulkFilter>, Error>)
    ensures r.Ok? ==> |r.value| == |configs| && forall i :: 0 <= i < |configs| ==> ConfigFilter(column, configs[i]) == Ok(r.value[i])
    decreases |configs|
  {
    if configs == [] then Ok([])
    else
      var before :- ConfigFilters(column, configs[..|configs| - 1]);
      var last :- ConfigFilter(column, configs[|configs| - 1]);
      Ok(before + [last])
  }

  /** The filters one column's information stands for (lines 121-133): a
      list of configurations, one configuration, or a bare value compared
      with `==`. */
  function ColumnFilters(column: string, info: Value): Result<seq<BulkFilter>, Error> {
    match info
    case ListV(configs) => ConfigFilters(column, configs)
    case DictV(_) =>
      var f :- ConfigFilter(column, info);
      Ok([f])
    case _ => Ok([BulkFilter(column, info, StrV("=="))])
  }

  /** The columns `keys` in order, their filters one after another. */
  function BulkFilters(keys: seq<string>, filters: map<string, Value>): Result<seq<BulkFilter>, Error>
    requires forall k :: k in keys ==> k in filters
    decreases |keys|
  {
    if keys == [] then Ok([])
    else
      var before :- BulkFilters(keys[..|keys| - 1], filters);
      var last :- ColumnFilters(keys[|keys| - 1], filters[keys[|keys| - 1]]);
      Ok(before + last)
  }

  /** How many filters a column's information stands for. */
  function FilterCount(info: Value): nat {
    if info.ListV? then |info.items| else 1
  }

  function TotalCount(keys: seq<string>, filters: map<string, Value>): nat
    requires forall k :: k in keys ==> k in filters
    decreases |keys|
  {
    if keys == [] then 0 else TotalCount(keys[..|keys| - 1], filters) + FilterCount(filters[keys[|keys| - 1]])
  }

  lemma ColumnFiltersCount(column: string, info: Value)
    requires ColumnFilters(column, info).Ok?
    ensures |ColumnFilters(column, info).value| == FilterCount(info)
    ensures forall f :: f in ColumnFilters(column, info).value ==> f.column == column
  {
    if info.ListV? {
      var fs := ColumnFilters(column, info).value;
      forall f | f in fs ensures f.column == column {
        var i :| 0 <= i < |fs| && fs[i] == f;
        assert ConfigFilter(column, info.items[i]) == Ok(f);
      }
    }
  }

  /** `parse_bulk_filters` succeeds exactly when every column's
      information parses; it then yields one filter per bare value or
      configuration, each naming a column of the mapping. */
  lemma {:induction false} BulkFiltersShape(keys: seq<string>, filters: map<string, Value>)
    requires forall k :: k in keys ==> k in filters
    ensures BulkFilters(keys, filters).Ok? <==> forall k :: k in keys ==> ColumnFilters(k, filters[k]).Ok?
    ensures BulkFilters(keys, filters).Ok? ==> |BulkFilters(keys, filters).value| == TotalCount(keys, filters)
    ensures BulkFilters(keys, filters).Ok? ==> forall f :: f in BulkFilters(keys, filters).value ==> f.column in keys
    decreases |keys|
  {
    if keys != [] {
      var n := |keys| - 1;
      var init := keys[..n];
      assert keys == init + [keys[n]];
      assert forall k :: k in init ==> k in keys;
      BulkFiltersShape(init, filters);
      if BulkFilters(init, filters).Ok? && ColumnFilters(keys[n], filters[keys[n]]).Ok? {
        ColumnFiltersCount(keys[n], filters[keys[n]]);
      }
    }
  }

  /** The loop of lines 122-125: one column's list of configurations. */
  method ParseConfigs(column: string, configs: seq<Value>) returns (r: Result<seq<BulkFilter>, Error>)
    ensures r == ConfigFilters(column, configs)
  {
    var parsed: seq<BulkFilter> := [];
    for i := 0 to |configs|
      invariant ConfigFilters(column, configs[..i]) == Ok(parsed)
    {
      assert configs[..i + 1][..i] == configs[..i];
      var config := configs[i];
      var value := Subscript(config, "value");
      if value.Err? {
        ConfigFiltersErrAt(column, configs, i);
        return Err(value.error);
      }
      var op := Subscript(config, "op");
      if op.Err? {
        ConfigFiltersErrAt(column, configs, i);
        return Err(op.error);
      }
      parsed := parsed + [BulkFilter(column, value.value, op.value)];
    }
    assert configs[..|configs|] == configs;
    r := Ok(parsed);
  }

  lemma {:induction false} ConfigFiltersErrAt(column: string, configs: seq<Value>, i: nat)
    requires i < |configs|
    requires ConfigFilters(column, configs[..i]).Ok? && ConfigFilter(column, configs[i]).Err?
    ensures ConfigFilters(column, configs) == Err(ConfigFilter(column, configs[i]).error)
    decreases |configs|
  {
    if i + 1 < |configs| {
      var init := configs[..|configs| - 1];
      assert init[..i] == configs[..i] && init[i] == configs[i];
      ConfigFiltersErrAt(column, init, i);
    } else {
      assert configs[..|configs| - 1] == configs[..i];
    }
  }

  lemma {:induction false} BulkFiltersErrAt(keys: seq<string>, filters: map<string, Value>, i: nat)
    requires forall k :: k in keys ==> k in filters
    requires i < |keys|
    requires BulkFilters(keys[..i], filters).Ok? && ColumnFilters(keys[i], filters[keys[i]]).Err?
    ensures BulkFilters(keys, filters) == Err(ColumnFilters(keys[i], filters[keys[i]]).error)
    decreases |keys|
  {
    if i + 1 < |keys| {
      var init := keys[..|keys| - 1];
      assert init[..i] == keys[..i] && init[i] == keys[i];
      assert forall k :: k in init ==> k in keys;
      BulkFiltersErrAt(init, filters, i);
    } else {
      assert keys[..|keys| - 1] == keys[..i];
    }
  }

  /** `parse_bulk_filters(filters)`: the columns in the mapping's order. */
  method ParseBulkFilters(filters: PyDict<Value>) returns (r: Result<seq<BulkFilter>, Error>)
    ensures r == BulkFilters(filters.keys, filters.values)
  {
    var parsed: seq<BulkFilter> := [];
    for i := 0 to |filters.keys|
      invariant BulkFilters(filters.keys[..i], filters.values) == Ok(parsed)
    {
      assert filters.keys[..i + 1][..i] == filters.keys[..i];
      var column := filters.keys[i];
      var filterInfo := filters.values[column];
      var these: Result<seq<BulkFilter>, Error>;
      if filterInfo.ListV? {
        these := ParseConfigs(column, filterInfo.items);
      } else if filterInfo.DictV? {
        var value := Subscript(filterInfo, "value");
        var op := if value.Ok? then Subscript(filterInfo, "op") else Err(TypeError);
        these := if value.Err? then Err(value.error) else if op.Err? then Err(op.error)
                 else Ok([BulkFilter(column, value.value, op.value)]);
      } else {
        these := Ok([BulkFilter(column, filterInfo, StrV("=="))]);
      }
      assert these == ColumnFilters(column, filterInfo);
      if these.Err? {
        BulkFiltersErrAt(filters.keys, filters.values, i);
        return Err(these.error);
      }
      parsed := parsed + these.value;
    }
    assert filters.keys[..|filters.keys|] == filters.keys;
    r := Ok(parsed);
  }

  /** Bare values give one `==` filter each, in the mapping's key order. */
  lemma {:induction false} BulkScalarsInKeyOrder(keys: seq<string>, filters: map<string, Value>)
    requires forall k :: k in keys ==> k in filters && !filters[k].ListV? && !filters[k].DictV?
    ensures BulkFilters(keys, filters).Ok?
    ensures |BulkFilters(keys, filters).value| == |keys|
    ensures forall i :: 0 <= i < |keys| ==>
              BulkFilters(keys, filters).value[i] == BulkFilter(keys[i], filters[keys[i]], StrV("=="))
    decreases |keys|
  {
    if keys != [] {
      var n := |keys| - 1;
      var init := keys[..n];
      assert forall k :: k in init ==> k in keys;
      BulkScalarsInKeyOrder(init, filters);
    }
  }

  /** A configuration missing both keys reports `value`, which is read
      first; the operator is never checked. */
  lemma BulkFilterLookupOrder(column: string, fields: map<string, Value>, value: Value, op: Value)
    ensures "value" !in fields ==> ColumnFilters(column, DictV(fields)) == Err(KeyError(StrV("value")))
    ensures ColumnFilters(column, DictV(map["value" := value, "op" := op])) == Ok([BulkFilter(column, value, op)])
  {
  }
}
