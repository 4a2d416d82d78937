/** The table query builder (table.py, class `Table`): the state a query is
    assembled in, the fluent mutators that change it, and `get_query`, which
    folds that state, clause by clause, into one query. The SQL library's
    query object is modelled by the `Query` value. */
module QueryBuilder {
  import opened Wrappers
  import opened Values
  import opened StringOrder
  import opened Criteria
  import opened CriterionFold
  import opened Terms

  /** The shared ORDER BY direction. */
  datatype Order = Asc | Desc

  /** `ORDER BY <terms> <direction>`. */
  datatype OrderClause = OrderClause(terms: seq<Term>, order: Option<Order>)

  /** The query `get_query` returns: the SELECT terms from the table, the
      WHERE criterion, and the LIMIT, GROUP BY and ORDER BY clauses, each
      absent (None or empty) when not applied. */
  datatype Query = Query(
    table: string,
    select: seq<Term>,
    where: Option<Criterion>,
    limit: Option<int>,
    groupBy: seq<string>,
    orderBy: Option<OrderClause>)

  /** The fields of a `Table`, as one value. */
  datatype TableState = TableState(
    tableName: string,
    columns: PyDict<PyType>,
    selected: set<string>,
    filters: PyDict<seq<Value>>,
    customFilters: seq<Criterion>,
    groupBy: seq<string>,
    orderBy: seq<string>,
    order: Option<Order>,
    limit: Option<int>)

  /** The terms of a list of tokens, one each, in order. */
  function TermsOf(tokens: seq<string>): (r: seq<Term>)
    ensures |r| == |tokens| && forall i :: 0 <= i < |r| ==> r[i] == GenerateTerm(tokens[i])
  {
    if tokens == [] then [] else TermsOf(tokens[..|tokens| - 1]) + [GenerateTerm(tokens[|tokens| - 1])]
  }

  /** The filter entry `{'op': operator, 'value': value}`. */
  function FilterEntry(operator: Value, value: Value): Value {
    DictV(map["op" := operator, "value" := value])
  }

  /** `filters[column].append(entry)` on a `defaultdict(list)`: the entry goes
      to the end of the column's list (a new column's list starts empty and
      its key goes last); no other column changes. */
  function AppendFilter(filters: PyDict<seq<Value>>, column: string, entry: Value): (r: PyDict<seq<Value>>)
    ensures column in r.values
    ensures r.values[column] == (if column in filters.values then filters.values[column] else []) + [entry]
    ensures forall k :: k != column ==> (k in r.values <==> k in filters.values)
    ensures forall k :: k != column && k in filters.values ==> r.values[k] == filters.values[k]
    ensures column in filters.values ==> r.keys == filters.keys
    ensures column !in filters.values ==> r.keys == filters.keys + [column]
  {
    var old_ := if column in filters.values then filters.values[column] else [];
    Insert(filters, column, old_ + [entry])
  }

  /** `filter_column_by_value` on the filter mapping: recorded for a
      catalogue column, ignored otherwise. */
  function AddFilter(columns: PyDict<PyType>, filters: PyDict<seq<Value>>, column: string, value: Value, operator: Value): PyDict<seq<Value>> {
    if column in columns.values then AppendFilter(filters, column, FilterEntry(operator, value)) else filters
  }

  /** `query.where(criterion)`: ANDed onto any WHERE criterion already there. */
  function Where(q: Query, c: Criterion): Query {
    q.(where := Some(Join(q.where, c, true)))
  }

  /** Python's `if self._limit:`. */
  predicate LimitApplies(limit: Option<int>) {
    limit.Some? && limit.value != 0
  }

  /** The query `get_query` assembles from state `s`, the SELECT terms and
      the primary filters' criterion: the custom criteria ANDed on after the
      primary one, the limit when truthy, the GROUP BY list, and the ORDER BY
      terms with the shared direction when any were recorded. */
  function Assemble(s: TableState, select: seq<Term>, primary: Option<Criterion>): Query {
    Query(
      table := s.tableName,
      select := select,
      where := JoinAll(primary, s.customFilters, true),
      limit := if LimitApplies(s.limit) then s.limit else None,
      groupBy := s.groupBy,
      orderBy := if s.orderBy == [] then None else Some(OrderClause(TermsOf(s.orderBy), s.order)))
  }

  /** What `get_query` builds from state `s` when the selection hook yields
      `tokens` (lines 98-126). */
  ghost function QueryOf(s: TableState, tokens: set<string>): Result<Query, Error> {
    var primary :- CriterionForFilter(s.filters, true);
    Ok(Assemble(s, TermsOf(SortedSet(tokens)), primary))
  }

  /** `query = query.where(c)` for each criterion in turn (lines 122-124):
      only the WHERE criterion changes, to the left AND fold of `cs` onto it. */
  method WhereAll(q: Query, cs: seq<Criterion>) returns (r: Query)
    ensures r == q.(where := JoinAll(q.where, cs, true))
  {
    r := q;
    for k := 0 to |cs|
      invariant r == q.(where := JoinAll(q.where, cs[..k], true))
    {
      assert cs[..k + 1][..k] == cs[..k];
      r := Where(r, cs[k]);
    }
    assert cs[..|cs|] == cs;
  }

  class Table {
    const tableName: string
    const columns: PyDict<PyType>
    var selected: set<string>
    var filters: PyDict<seq<Value>>
    var customFilters: seq<Criterion>
    var groupBy: seq<string>
    var orderBy: seq<string>
    var order: Option<Order>
    var limit: Option<int>

    /** The builder's fields as one value. */
    function State(): TableState
      reads this
    {
      TableState(tableName, columns, selected, filters, customFilters, groupBy, orderBy, order, limit)
    }

    constructor(tableName: string, columns: PyDict<PyType>)
      ensures State() == TableState(tableName, columns, {}, EmptyDict(), [], [], [], None, None)
    {
      this.tableName := tableName;
      this.columns := columns;
      selected := {};
      filters := EmptyDict();
      customFilters := [];
      groupBy := [];
      orderBy := [];
      order := None;
      limit := None;
    }

    /** `group_by(column)`: appended, then the whole list re-sorted; a
        repeated column is kept twice. */
    method GroupBy(column: string)
      modifies this`groupBy
      ensures groupBy == Sort(old(groupBy) + [column])
      ensures Sorted(groupBy) && multiset(groupBy) == multiset(old(groupBy)) + multiset{column}
    {
      groupBy := groupBy + [column];
      groupBy := Sort(groupBy);
    }

    /** `group_by_columns(columns)`: the list replaced by a sorted copy. */
    method GroupByColumns(cols: seq<string>)
      modifies this`groupBy
      ensures groupBy == Sort(cols)
      ensures Sorted(groupBy) && multiset(groupBy) == multiset(cols)
    {
      groupBy := Sort(cols);
    }

    /** `order_by(*fields, order=order)`: the fields appended in argument
        order, and the one shared direction overwritten (None included). */
    method OrderBy(fields: seq<string>, order: Option<Order>)
      modifies this`orderBy, this`order
      ensures orderBy == old(orderBy) + fields
      ensures this.order == order
    {
      for i := 0 to |fields|
        invariant orderBy == old(orderBy) + fields[..i]
      {
        orderBy := orderBy + [fields[i]];
      }
      this.order := order;
    }

    /** `limit(value)`. */
    method Limit(value: int)
      modifies this`limit
      ensures limit == Some(value)
    {
      limit := Some(value);
    }

    /** `select(column)`: set insertion, so selecting again changes nothing. */
    method Select(column: string)
      modifies this`selected
      ensures selected == old(selected) + {column}
    {
      selected := selected + {column};
    }

    /** `select_columns(columns)`: `select` for each. */
    method SelectColumns(names: seq<string>)
      modifies this`selected
      ensures selected == old(selected) + (set c | c in names)
    {
      for i := 0 to |names|
        invariant selected == old(selected) + (set c | c in names[..i])
      {
        var before, after := names[..i], names[..i + 1];
        assert after == before + [names[i]];
        assert (set c | c in after) == (set c | c in before) + {names[i]};
        Select(names[i]);
      }
      assert names[..|names|] == names;
    }

    /** `select_all_columns()`: every catalogue column selected. */
    method SelectAllColumns()
      modifies this`selected
      ensures selected == old(selected) + columns.values.Keys
    {
      SelectColumns(columns.keys);
      assert (set c | c in columns.keys) == columns.values.Keys;
    }

    /** `filter_column_by_value(column, value, operator)`: the entry is
        recorded only for a catalogue column; otherwise nothing changes. */
    method FilterColumnByValue(column: string, value: Value, operator: Value)
      modifies this`filters
      ensures column in columns.values ==> filters == AppendFilter(old(filters), column, FilterEntry(operator, value))
      ensures column !in columns.values ==> filters == old(filters)
      ensures filters == AddFilter(columns, old(filters), column, value, operator)
    {
      if column in columns.values {
        filters := AppendFilter(filters, column, FilterEntry(operator, value));
      }
    }

    /** `add_custom_filter(criterion)`. */
    method AddCustomFilter(criterion: Criterion)
      modifies this`customFilters
      ensures customFilters == old(customFilters) + [criterion]
    {
      customFilters := customFilters + [criterion];
    }

    /** The inner loop of `build_criterion_for_filter` (lines 305-325): one
        column's entries folded, in list order, onto `start`. */
    method CombineEntries(start: Option<Criterion>, column: string, entries: seq<Value>, concatenateByAnd: bool)
      returns (r: Result<Option<Criterion>, Error>)
      ensures r == FoldEntries(start, column, entries, concatenateByAnd)
    {
      var finalCriterion := start;
      for j := 0 to |entries|
        invariant FoldEntries(start, column, entries[..j], concatenateByAnd) == Ok(finalCriterion)
      {
        assert entries[..j + 1][..j] == entries[..j];
        var operation := EntryOperation(entries[j]);
        if operation.Err? {
          FoldEntriesErrPrefix(start, column, entries, j + 1, concatenateByAnd);
          return Err(operation.error);
        }
        var criterion := OperatorToCriterion(operation.value.0, column, operation.value.1);
        if criterion.Err? {
          FoldEntriesErrPrefix(start, column, entries, j + 1, concatenateByAnd);
          return Err(criterion.error);
        }
        if criterion.value.Some? {
          if finalCriterion.None? {
            finalCriterion := criterion.value;
          } else if concatenateByAnd {
            finalCriterion := Some(And(finalCriterion.value, criterion.value.value));
          } else {
            finalCriterion := Some(Or(finalCriterion.value, criterion.value.value));
          }
        }
      }
      assert entries[..|entries|] == entries;
      r := Ok(finalCriterion);
    }

    /** The outer loop of `build_criterion_for_filter` over the columns
        `keys`, in the order given (lines 304-325). */
    method CombineColumns(keys: seq<string>, m: map<string, seq<Value>>, concatenateByAnd: bool)
      returns (r: Result<Option<Criterion>, Error>)
      requires forall k :: k in keys ==> k in m
      ensures r == FoldColumns(None, keys, m, concatenateByAnd)
    {
      var finalCriterion: Option<Criterion> := None;
      for i := 0 to |keys|
        invariant FoldColumns(None, keys[..i], m, concatenateByAnd) == Ok(finalCriterion)
      {
        FoldColumnsSnoc(None, keys, m, i, concatenateByAnd);
        var combined := CombineEntries(finalCriterion, keys[i], m[keys[i]], concatenateByAnd);
        if combined.Err? {
          FoldColumnsErrPrefix(None, keys, m, i + 1, concatenateByAnd);
          return combined;
        }
        finalCriterion := combined.value;
      }
      assert keys[..|keys|] == keys;
      r := Ok(finalCriterion);
    }

    /** `build_criterion_for_filter(column_filters, concatenate_by_and)`:
        the columns in sorted order (lines 284-327). */
    method BuildCriterionForFilter(columnFilters: PyDict<seq<Value>>, concatenateByAnd: bool)
      returns (r: Result<Option<Criterion>, Error>)
      ensures r == CriterionForFilter(columnFilters, concatenateByAnd)
    {
      var keys := Sort(columnFilters.keys);
      assert forall k :: k in keys ==> k in multiset(columnFilters.keys);
      r := CombineColumns(keys, columnFilters.values, concatenateByAnd);
    }

    /** The loops of `get_query` that turn strings into terms (lines
        100-104 and 118-120), one term per string in order. */
    method GenerateTerms(tokens: seq<string>) returns (r: seq<Term>)
      ensures r == TermsOf(tokens)
    {
      r := [];
      for i := 0 to |tokens|
        invariant r == TermsOf(tokens[..i])
      {
        assert tokens[..i + 1][..i] == tokens[..i];
        r := r + [GenerateTerm(tokens[i])];
      }
      assert tokens[..|tokens|] == tokens;
    }

    /** `get_query()` with the selection hook `_selected_column_strings`
        yielding `tokens`; reads the builder and changes nothing. */
    method BuildQuery(tokens: set<string>) returns (r: Result<Query, Error>)
      ensures r == QueryOf(State(), tokens)
    {
      var fields := SortedElements(tokens);
      var parsedTerms := GenerateTerms(fields);
      var query := Query(tableName, parsedTerms, None, None, [], None);

      var criterionForBasicOps := BuildCriterionForFilter(filters, true);
      if criterionForBasicOps.Err? {
        return Err(criterionForBasicOps.error);
      }
      ghost var primary := criterionForBasicOps.value;
      ghost var expected := Assemble(State(), parsedTerms, primary);
      if criterionForBasicOps.value.Some? {
        query := Where(query, criterionForBasicOps.value.value);
      }

      if LimitApplies(limit) {
        query := query.(limit := limit);
      }

      if groupBy != [] {
        query := query.(groupBy := groupBy);
      }

      if orderBy != [] {
        var parsedOrderBy := GenerateTerms(orderBy);
        query := query.(orderBy := Some(OrderClause(parsedOrderBy, order)));
      }

      assert query == expected.(where := primary);
      query := WhereAll(query, customFilters);
      r := Ok(query);
      assert parsedTerms == TermsOf(SortedSet(tokens));
    }

    /** `get_query()`: the selection hook is the selected set itself. */
    method GetQuery() returns (r: Result<Query, Error>)
      ensures r == QueryOf(State(), selected)
    {
      r := BuildQuery(selected);
    }
  }

  // ---- What `get_query` promises ----

  /** The SELECT list has one term per selected token, in Python string
      order: the star exactly when `*` is selected, and a column of the same
      name for every other token. */
  lemma QuerySelect(s: TableState, tokens: set<string>)
    requires QueryOf(s, tokens).Ok?
    ensures |QueryOf(s, tokens).value.select| == |tokens|
    ensures Star in QueryOf(s, tokens).value.select <==> "*" in tokens
    ensures forall t :: t in tokens && t != "*" ==> Field(t) in QueryOf(s, tokens).value.select
    ensures forall i, j :: 0 <= i < j < |QueryOf(s, tokens).value.select| ==>
              var sel := QueryOf(s, tokens).value.select;
              sel[i].Field? && sel[j].Field? ==> Less(sel[i].name, sel[j].name)
  {
    assert QueryOf(s, tokens).value.select == TermsOf(SortedSet(tokens));
    SelectTerms(tokens);
  }

  /** The terms of a sorted selection: one per token, the star exactly for
      `*`, a field for every other token, in strictly increasing order. */
  lemma SelectTerms(tokens: set<string>)
    ensures |TermsOf(SortedSet(tokens))| == |tokens|
    ensures Star in TermsOf(SortedSet(tokens)) <==> "*" in tokens
    ensures forall t :: t in tokens && t != "*" ==> Field(t) in TermsOf(SortedSet(tokens))
    ensures forall i, j :: 0 <= i < j < |TermsOf(SortedSet(tokens))| ==>
              var sel := TermsOf(SortedSet(tokens));
              sel[i].Field? && sel[j].Field? ==> Less(sel[i].name, sel[j].name)
  {
    var sorted := SortedSet(tokens);
    SortedSetMembers(tokens);
    var sel := TermsOf(sorted);
    if "*" in tokens {
      var k :| 0 <= k < |sorted| && sorted[k] == "*";
      assert sel[k] == Star;
    }
    if Star in sel {
      var k :| 0 <= k < |sel| && sel[k] == Star;
      assert sorted[k] in tokens;
    }
    forall t | t in tokens && t != "*" ensures Field(t) in sel {
      var k :| 0 <= k < |sorted| && sorted[k] == t;
      assert sel[k] == GenerateTerm(t);
    }
    forall i, j | 0 <= i < j < |sel| && sel[i].Field? && sel[j].Field?
      ensures Less(sel[i].name, sel[j].name)
    {
      assert sel[i].name == sorted[i] && sel[j].name == sorted[j];
    }
  }

  /** `get_query` fails exactly when the primary filters raise, with their
      error. */
  lemma QueryError(s: TableState, tokens: set<string>)
    ensures QueryOf(s, tokens).Err? <==> CriterionForFilter(s.filters, true).Err?
    ensures QueryOf(s, tokens).Err? ==> QueryOf(s, tokens).error == CriterionForFilter(s.filters, true).error
  {
  }

  /** The WHERE criterion ANDs, from the left, the surviving primary
      criteria (columns in sorted order) and then the custom criteria in the
      order they were added; there is no WHERE clause exactly when neither
      contributes anything. */
  lemma QueryWhere(s: TableState, tokens: set<string>)
    requires QueryOf(s, tokens).Ok?
    ensures forall k :: k in Sort(s.filters.keys) ==> k in s.filters.values
    ensures ColumnSurvivors(Sort(s.filters.keys), s.filters.values).Ok?
    ensures QueryOf(s, tokens).value.where
            == JoinAll(None, ColumnSurvivors(Sort(s.filters.keys), s.filters.values).value + s.customFilters, true)
    ensures QueryOf(s, tokens).value.where.None?
            <==> ColumnSurvivors(Sort(s.filters.keys), s.filters.values).value == [] && s.customFilters == []
  {
    CriterionForFilterIsJoin(s.filters, true);
    var survivors := ColumnSurvivors(Sort(s.filters.keys), s.filters.values);
    JoinAllAppend(None, survivors.value, s.customFilters, true);
  }

  /** LIMIT, GROUP BY and ORDER BY: a limit of 0 (like no limit) emits no
      LIMIT clause, the GROUP BY columns are the stored ones, and ORDER BY
      lists the recorded fields in call order with the one shared direction,
      or is absent when no field was recorded. */
  lemma QueryClauses(s: TableState, tokens: set<string>)
    requires QueryOf(s, tokens).Ok?
    ensures QueryOf(s, tokens).value.table == s.tableName
    ensures (s.limit == None || s.limit == Some(0)) ==> QueryOf(s, tokens).value.limit == None
    ensures s.limit.Some? && s.limit.value != 0 ==> QueryOf(s, tokens).value.limit == s.limit
    ensures QueryOf(s, tokens).value.groupBy == s.groupBy
    ensures QueryOf(s, tokens).value.orderBy.None? <==> s.orderBy == []
    ensures s.orderBy != [] ==>
              && QueryOf(s, tokens).value.orderBy.value.order == s.order
              && |QueryOf(s, tokens).value.orderBy.value.terms| == |s.orderBy|
              && forall i :: 0 <= i < |s.orderBy| ==>
                   QueryOf(s, tokens).value.orderBy.value.terms[i] == GenerateTerm(s.orderBy[i])
  {
  }

  /** The query depends on the filter mapping's contents only, not on the
      order its columns were first filtered in, and not on the column
      catalogue. */
  lemma QueryDeterministic(s1: TableState, s2: TableState, tokens: set<string>)
    requires s1.filters.values == s2.filters.values
    requires s1.(filters := s2.filters, columns := s2.columns) == s2
    ensures QueryOf(s1, tokens) == QueryOf(s2, tokens)
  {
    CriterionForFilterDeterministic(s1.filters, s2.filters, true);
  }

  /** With a single filter entry and no custom filters, WHERE is the
      criterion that entry's operator makes, and the query raises what
      that operator raises. */
  lemma SingleFilterWhere(s: TableState, column: string, operator: Value, value: Value, tokens: set<string>)
    requires s.filters == AppendFilter(EmptyDict(), column, FilterEntry(operator, value))
    requires s.customFilters == []
    ensures QueryOf(s, tokens).Ok? <==> OperatorToCriterion(operator, column, value).Ok?
    ensures QueryOf(s, tokens).Ok? ==> QueryOf(s, tokens).value.where == OperatorToCriterion(operator, column, value).value
  {
    SingleFilterCriterion(column, operator, value);
  }

  /** The primary criterion of a single filter entry. */
  lemma SingleFilterCriterion(column: string, operator: Value, value: Value)
    ensures CriterionForFilter(AppendFilter(EmptyDict(), column, FilterEntry(operator, value)), true)
            == OperatorToCriterion(operator, column, value)
  {
    var f := AppendFilter(EmptyDict(), column, FilterEntry(operator, value));
    assert f.keys == [column];
    assert Sort(f.keys) == [column];
    assert f.values[column] == [FilterEntry(operator, value)];
    SingleEntryFold(column, f.values, operator, value);
  }

  /** Folding one column with one entry gives that entry's criterion. */
  lemma SingleEntryFold(column: string, m: map<string, seq<Value>>, operator: Value, value: Value)
    requires column in m && m[column] == [FilterEntry(operator, value)]
    ensures FoldColumns(None, [column], m, true) == OperatorToCriterion(operator, column, value)
  {
    var entry := FilterEntry(operator, value);
    assert EntryOperation(entry) == Ok((operator, value));
    assert [entry][..0] == [];
    assert FoldEntries(None, column, [entry], true) == OperatorToCriterion(operator, column, value);
    assert [column][..0] == [];
  }

  /** A single `==` filter on a catalogue column of a fresh table gives
      `WHERE column = value`. */
  lemma SingleEqualityFilter(tableName: string, columns: PyDict<PyType>, column: string, value: Value, tokens: set<string>)
    requires column in columns.values
    ensures var s := TableState(tableName, columns, {}, AddFilter(columns, EmptyDict(), column, value, StrV("==")),
                                [], [], [], None, None);
            QueryOf(s, tokens).Ok? && QueryOf(s, tokens).value.where == Some(Cmp(Eq, column, value))
  {
    var s := TableState(tableName, columns, {}, AddFilter(columns, EmptyDict(), column, value, StrV("==")),
                        [], [], [], None, None);
    SingleFilterWhere(s, column, StrV("=="), value, tokens);
  }

  /** A filter on a column outside the catalogue leaves the query without a
      WHERE clause. */
  lemma UnknownColumnIgnored(tableName: string, columns: PyDict<PyType>, column: string, value: Value, operator: Value, tokens: set<string>)
    requires column !in columns.values
    ensures var s := TableState(tableName, columns, {}, AddFilter(columns, EmptyDict(), column, value, operator),
                                [], [], [], None, None);
            QueryOf(s, tokens).Ok? && QueryOf(s, tokens).value.where == None
  {
    var e: PyDict<seq<Value>> := EmptyDict();
    assert Sort(e.keys) == [];
  }
}
