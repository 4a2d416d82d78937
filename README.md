# pinot-sommelier query builder, modelled in Dafny

pinot-sommelier builds SQL queries for Apache Pinot tables. This model covers:

- **`Table`:** a query builder object. The caller selects columns, records
  filters, groups, orders and limits. Then `get_query` folds that state into
  one query.
- **`MetricsTable`:** a table whose column catalogue is the union of
  dimension, metric and date-time partitions. It selects `*` once every
  dimension and metric is selected, filters on a default date-time column,
  and parses bulk filter configurations.
- **The regex filter:** a `regexp_like(...)` filter node.
- **The schema parser:** turns a Pinot schema configuration into the three
  column partitions.

The modules follow the source files:

| module | file | what it holds |
|---|---|---|
| `Wrappers` | wrappers.dfy | `Option` and `Result` |
| `Values` | values.dfy | Python values and errors, truthiness, `d[key]`, insertion-ordered dictionaries (`PyDict`), the column types |
| `StringOrder` | string_order.dfy | Python's string order (`sorted`), an insertion sort, and sorted sets |
| `RegexLikes` | regex_like.dfy | `RegexLike` and its SQL text |
| `Criteria` | criteria.dfy | the criterion algebra, `operator_to_criterion`, the AND/OR fold |
| `Terms` | terms.dfy | `generate_term` and the aggregate resolution it discards |
| `CriterionFold` | criterion_fold.dfy | the fold inside `build_criterion_for_filter`, and its reference definition |
| `QueryBuilder` | table.dfy | the `Table` class, its mutators, `build_criterion_for_filter` as a nested loop, and `get_query` |
| `MetricsTables` | metrics_table.dfy | the `MetricsTable` class, the partition merge, date filters and `parse_bulk_filters` |
| `SchemaParser` | schema_parser.dfy | the type table and `get_table_information_from_schema` |

How the model is organised:

- Methods that change a builder's fields are `Table` or `MetricsTable`
  methods. Each one `modifies` just the fields it changes.
- `build_criterion_for_filter`, `get_query`, the constructor's conversion
  loop, `parse_bulk_filters` and the schema parser's loops are methods with
  loops. Each is proved equal to a specification function.
- The properties the source promises are proved about those functions.
- The SQL library's query object becomes the `Query` value: its table, SELECT
  terms, WHERE criterion, LIMIT, GROUP BY and ORDER BY.
- Python exceptions become values: `Err(KeyError(k))`, `Err(IndexError)` and
  `Err(TypeError)`.

The code, its docstrings and its tests disagree in places. The model follows
the code:

- The regex pattern is not escaped. `format_quotes` only wraps the pattern in
  single quotes (src/sommelier/query_builder/fields/regex_like.py:17). So a
  quote inside the pattern reaches the SQL text unchanged.
- `generate_term` always returns `Field(column_string)` for an aggregate
  token. The resolved aggregate is computed and then discarded
  (src/sommelier/query_builder/table.py:205). The tests that expect upper-cased
  `SUM(price)` contradict this.
- The docstring of `build_criterion_for_filter` shows a bare string as a
  column's filter list. The code would iterate that string character by
  character. The model takes lists only, which is what `filter_column_by_value`
  builds.
- The docstring of `parse_bulk_filters` shows a `bt` operator. The parser
  passes it through unchecked, and `operator_to_criterion` ignores it.

How Python behaviour is modelled:

- Python's evaluation order decides which `KeyError` is raised.
  - In `d[k] = rhs` the right-hand side is evaluated first. So the schema
    parser looks up `dataType` (and `format`, `granularity`) before `name`.
  - `build_criterion_for_filter` reads `op` before `value`.
  - `parse_bulk_filters` reads `value` before `op`.
- A Python `dict` keeps insertion order. The model tracks that order where it
  matters: the first date-time column, the partition merge, bulk-filter
  output and the schema catalogues.

## Model

| member | source | states |
|---|---|---|
| RegexLikes.NewRegexLike | src/sommelier/query_builder/fields/regex_like.py:10-13 | the column and pattern are stored unchanged; the `alias` keyword's value (None when absent) is kept as the base function's first argument and never rendered |
| RegexLikes.GetSql | src/sommelier/query_builder/fields/regex_like.py:15-18 | every scalar pattern renders; a string pattern renders as `regexp_like(<column>, '<pattern>')`, with the column by bare name and unquoted |
| RegexLikes.GetSqlIgnoresNameAndQuote | src/sommelier/query_builder/fields/regex_like.py:11-18 | neither the `alias` keyword's value nor the requested quote character changes the text |
| RegexLikes.RenderRoundTrip | src/sommelier/query_builder/fields/regex_like.py:18 | column and pattern can be read back from the rendered text when the column contains no comma |
| RegexLikes.ParseRenderedSound | src/sommelier/query_builder/fields/regex_like.py:18 | every text the reader accepts is the rendering of what it reads |
| Values.Insert | src/sommelier/query_builder/table.py:253-254 | `d[k] = v`: binds k; a new key goes last, an existing key keeps its place |
| Values.Subscript | src/sommelier/query_builder/metrics_table.py:123-124 | `v[key]`: a dictionary lookup (KeyError naming a missing key), TypeError on any other value |
| Values.Lookup | src/sommelier/query_builder/metrics_table.py:123-124 | `d[key]` on a dictionary: the bound value when the key is present, KeyError naming the key otherwise |
| Values.Truthy | src/sommelier/query_builder/metrics_table.py:76-85 | Python's `bool(v)`: None, False, 0 and empty strings, lists and dictionaries are false |
| Values.PyStr | src/sommelier/query_builder/fields/regex_like.py:17 | `str(v)` of a pattern: defined exactly for scalars, a string being its own text |
| Criteria.OperatorToCriterion | src/sommelier/query_builder/table.py:50-81 | no criterion exactly when the operator is not one of the twelve strings; only `between` can raise; every single-column node tests the given column |
| Criteria.Index | src/sommelier/query_builder/table.py:76-77 | `value[0]` and `value[1]` of `between`: a list element when the index is in range, IndexError past its end |
| Criteria.OperatorNodes | src/sommelier/query_builder/table.py:59-70 | `==`, `!=`, `>`, `>=`, `<`, `<=` give their comparison node; `regex` gives a regex node holding the column and value |
| Criteria.MembershipSynonyms | src/sommelier/query_builder/table.py:71-74 | `in` and `isin` both give IN; `nin` and `notin` both give NOT IN |
| Criteria.BetweenOnList | src/sommelier/query_builder/table.py:75-78 | `between` gives `col >= v[0] AND col <= v[1]`, low bound first and not swapped; fewer than two elements raise IndexError; further elements are ignored |
| Criteria.Join | src/sommelier/query_builder/table.py:319-325 | the first criterion is taken as it is; a later one becomes `And(acc, c)`, or `Or(acc, c)` when OR is requested |
| Criteria.JoinAll | src/sommelier/query_builder/table.py:304-325 | folding gives no criterion exactly when there was none and nothing is added |
| Criteria.JoinAllAppend | src/sommelier/query_builder/table.py:121-124 | folding a concatenation is folding the second part onto the fold of the first |
| CriterionFold.EntryOperation | src/sommelier/query_builder/table.py:307-312 | a dictionary entry supplies `op` and `value` (KeyError for `op` first, then for `value`); any other entry is a value compared with `==` |
| CriterionFold.FoldEntries | src/sommelier/query_builder/table.py:306-325 | the inner loop as a function: each entry in list order is stepped onto the accumulator, the first error ending the fold; related to the survivors by FoldEntriesIsJoin |
| CriterionFold.FoldColumns | src/sommelier/query_builder/table.py:304-325 | the outer loop as a function: the columns in the given order, each column's entries folded onto what came before; related to the survivors by FoldColumnsIsJoin |
| CriterionFold.CriterionForFilter | src/sommelier/query_builder/table.py:284-327 | `build_criterion_for_filter` as a function: the column fold over the sorted keys from no criterion; its meaning is stated by CriterionForFilterIsJoin and CriterionForFilterDeterministic |
| CriterionFold.FoldEntriesIsJoin | src/sommelier/query_builder/table.py:305-325 | the inner loop is the left fold of the column's surviving criteria, in list order |
| CriterionFold.FoldColumnsIsJoin | src/sommelier/query_builder/table.py:304-325 | the nested loops fold the survivors of each column, column after column |
| CriterionFold.CriterionForFilterIsJoin | src/sommelier/query_builder/table.py:284-327 | the result is the AND (or OR) left fold of the survivors, with columns in sorted order; it is None exactly when no entry survives |
| CriterionFold.CriterionForFilterDeterministic | src/sommelier/query_builder/table.py:304 | two mappings with the same contents give the same criterion, whatever order their keys were inserted in |
| StringOrder.Sort | src/sommelier/query_builder/table.py:99 | the result is sorted in Python's string order and is a permutation of the input |
| StringOrder.SortedUnique | src/sommelier/query_builder/table.py:304 | two sorted permutations of the same elements are equal |
| StringOrder.SortedSetMembers | src/sommelier/query_builder/table.py:99 | the sorted selection lists every token exactly once, in strictly increasing order |
| StringOrder.SortedElements | src/sommelier/query_builder/table.py:99 | `sorted(set)` computed by a loop equals the sorted set |
| StringOrder.LessTotal | src/sommelier/query_builder/table.py:99 | any two distinct strings are ordered one way or the other |
| Terms.MatchAggregation | src/sommelier/query_builder/table.py:179-180 | `(.+)\((.+)\)\Z`: the token is `name(argument)`, both parts non-empty, split at the last possible `(`, with no newline; no match otherwise |
| Terms.PercentileExtraction | src/sommelier/query_builder/table.py:192-195 | `(\D+)(\d+)`: the leading non-digits, then every digit right after them; no match exactly when the name is empty, starts with a digit or has no digit |
| Terms.PercentileNameExtraction | src/sommelier/query_builder/table.py:192-195 | a kind name of non-digits followed by all of its digits is split into exactly that kind and those digits |
| Terms.ResolvePercentile | src/sommelier/query_builder/table.py:191-201 | each of the three kinds followed by all of its digits resolves to that kind with those digits, and nothing else resolves |
| Terms.ResolveAggregate | src/sommelier/query_builder/table.py:181-203 | the argument is the star for `*` and a field otherwise; a percentile aggregate carries all the digits after its kind name; a non-percentile aggregate only for a registry name; no aggregate only outside the registry |
| Terms.ResolveFunction | src/sommelier/query_builder/table.py:188-203 | the same, stated on the capitalised name: registry names first, then percentile names, then `Distinctcount` |
| Terms.RegistryFunctions | src/sommelier/query_builder/table.py:188-190 | each of Sum, Avg, Count, Min, Max and Distinctcount gives its own aggregate over the argument |
| Terms.RegistryNames | src/sommelier/query_builder/table.py:181-203 | a name that capitalises to a registry name resolves to that aggregate over the argument |
| Terms.PercentileNames | src/sommelier/query_builder/table.py:191-201 | a name that capitalises to `Percentile`, `Percentiletdigest` or `Percentileest` followed by all its digits resolves to that kind, carrying the digits |
| Terms.Capitalize | src/sommelier/query_builder/table.py:186 | `str.capitalize()` keeps the length |
| Terms.ResolveCaseInsensitive | src/sommelier/query_builder/table.py:186 | names that agree ignoring case resolve alike |
| Terms.GenerateTerm | src/sommelier/query_builder/table.py:172-210 | the star exactly for `*`, and otherwise a field named by the whole token, aggregate tokens included |
| Terms.CountStarExample | src/sommelier/query_builder/table.py:179-205 | `COUNT(*)` matches, resolves to a count over the star, and still becomes the field `COUNT(*)` |
| QueryBuilder.TermsOf | src/sommelier/query_builder/table.py:100-104 | one term per token, in order |
| QueryBuilder.Assemble | src/sommelier/query_builder/table.py:106-124 | the query from a state, its SELECT terms and the primary criterion: custom criteria ANDed after the primary one, the limit when truthy, the GROUP BY list, ORDER BY when fields were recorded; stated by QueryWhere and QueryClauses |
| QueryBuilder.QueryOf | src/sommelier/query_builder/table.py:91-126 | `get_query` as a function of the state and the selection hook's tokens, raising with the primary filters; stated by QuerySelect, QueryError, QueryWhere, QueryClauses and QueryDeterministic |
| QueryBuilder.AppendFilter | src/sommelier/query_builder/table.py:253-254 | the entry goes to the end of the column's list (a new column starts empty and goes last); no other column changes |
| QueryBuilder.Table.constructor | src/sommelier/query_builder/table.py:28-39 | name and catalogue stored; nothing selected, filtered, grouped, ordered or limited |
| QueryBuilder.Table.GroupBy | src/sommelier/query_builder/table.py:128-137 | the column is appended and the list re-sorted, without removing duplicates |
| QueryBuilder.Table.GroupByColumns | src/sommelier/query_builder/table.py:139-147 | the list is replaced by a sorted permutation of the argument |
| QueryBuilder.Table.OrderBy | src/sommelier/query_builder/table.py:149-160 | the fields are appended in argument order; the one direction is overwritten, None included |
| QueryBuilder.Table.Limit | src/sommelier/query_builder/table.py:162-170 | the limit is replaced |
| QueryBuilder.Table.Select | src/sommelier/query_builder/table.py:212-221 | set insertion, so selecting twice is selecting once |
| QueryBuilder.Table.SelectColumns | src/sommelier/query_builder/table.py:223-232 | the selection becomes the old one together with the given columns |
| QueryBuilder.Table.SelectAllColumns | src/sommelier/query_builder/table.py:234-242 | the selection becomes the old one together with every catalogue column |
| QueryBuilder.Table.FilterColumnByValue | src/sommelier/query_builder/table.py:244-256 | `{op, value}` is appended to the column's list only when the column is in the catalogue; otherwise nothing changes |
| QueryBuilder.Table.AddCustomFilter | src/sommelier/query_builder/table.py:258-282 | the criterion is appended |
| QueryBuilder.Table.CombineEntries | src/sommelier/query_builder/table.py:305-325 | the inner loop computes the fold over one column's entries, errors included |
| QueryBuilder.Table.CombineColumns | src/sommelier/query_builder/table.py:304-325 | the outer loop over the sorted columns computes the fold over all of their entries, errors included |
| QueryBuilder.Table.BuildCriterionForFilter | src/sommelier/query_builder/table.py:284-327 | the nested loop computes the sorted-column fold, errors included |
| QueryBuilder.Table.BuildQuery | src/sommelier/query_builder/table.py:91-126 | `get_query` builds exactly the query defined by the state and the selection hook's tokens, and changes nothing |
| QueryBuilder.Table.GenerateTerms | src/sommelier/query_builder/table.py:100-104 | the term loop gives one term per field, in order |
| QueryBuilder.WhereAll | src/sommelier/query_builder/table.py:122-124 | each custom criterion is ANDed onto the WHERE clause in insertion order; nothing else in the query changes |
| QueryBuilder.Table.GetQuery | src/sommelier/query_builder/table.py:83-89 | the plain table's selection hook is the selected set itself |
| QueryBuilder.QuerySelect | src/sommelier/query_builder/table.py:99-106 | one SELECT term per selected token, in string order; the star exactly when `*` is selected; a field for every other token |
| QueryBuilder.QueryError | src/sommelier/query_builder/table.py:108 | the query raises exactly when the primary filters raise, with their error |
| QueryBuilder.QueryWhere | src/sommelier/query_builder/table.py:108-124 | WHERE is the AND left fold of the primary survivors and then the custom criteria in insertion order; no WHERE exactly when both are empty |
| QueryBuilder.QueryClauses | src/sommelier/query_builder/table.py:112-120 | no LIMIT for no limit or a limit of 0; the stored GROUP BY; ORDER BY present exactly when fields were recorded, with their terms in call order and the one direction |
| QueryBuilder.QueryDeterministic | src/sommelier/query_builder/table.py:304 | the query does not depend on the order in which filter columns were first used, nor on the catalogue |
| QueryBuilder.SingleFilterWhere | src/sommelier/query_builder/table.py:107-110 | with one filter entry, WHERE is that entry's criterion |
| QueryBuilder.SingleEqualityFilter | src/sommelier/query_builder/table.py:244-256 | a single `==` filter on a catalogue column gives `WHERE column = value` |
| QueryBuilder.UnknownColumnIgnored | src/sommelier/query_builder/table.py:253 | a filter on a column outside the catalogue gives no WHERE clause |
| MetricsTables.DataTypes | src/sommelier/query_builder/metrics_table.py:22-25 | the date-time columns as a catalogue: same keys in the same order, each mapped to its value type |
| MetricsTables.ConvertDateColumns | src/sommelier/query_builder/metrics_table.py:22-25 | the conversion loop computes that catalogue |
| MetricsTables.SpreadOk | src/sommelier/query_builder/metrics_table.py:27 | spreading distinct keys into a `dict(...)` call succeeds exactly when none is already given; otherwise TypeError |
| MetricsTables.SpreadKeys | src/sommelier/query_builder/metrics_table.py:27 | spread keys come after the ones already given, in order |
| MetricsTables.SpreadValues | src/sommelier/query_builder/metrics_table.py:27 | spread keys are bound to their values; bindings already given are kept |
| MetricsTables.SpreadNoClash | src/sommelier/query_builder/metrics_table.py:27 | when the spread succeeds, no spread key was already given |
| MetricsTables.MergePartitions | src/sommelier/query_builder/metrics_table.py:27 | `dict(**dimensions, **metrics, **dates)` as three spreads in turn; stated by MergePartitionsOk, MergePartitionsKeys and MergePartitionsValues |
| MetricsTables.MergePartitionsOk | src/sommelier/query_builder/metrics_table.py:27 | the merge succeeds exactly when the three partitions are pairwise disjoint; a shared column raises TypeError |
| MetricsTables.MergePartitionsKeys | src/sommelier/query_builder/metrics_table.py:27 | the catalogue lists dimensions, then metrics, then date-time columns, each in its own order |
| MetricsTables.MergePartitionsValues | src/sommelier/query_builder/metrics_table.py:27 | each column keeps the type its partition gave it |
| MetricsTables.SelectionTokens | src/sommelier/query_builder/metrics_table.py:35-47 | `*` exactly when every dimension and metric is selected (also when there are none); otherwise the selection unchanged |
| MetricsTables.MetricsTable.SelectedColumnStrings | src/sommelier/query_builder/metrics_table.py:41-47 | the table's `_selected_column_strings`: the selection tokens over its dimension and metric names; stated by SelectionTokens |
| MetricsTables.StarWhenAllSelected | src/sommelier/query_builder/metrics_table.py:41-47 | covering every dimension and metric gives `SELECT *`; otherwise the plain table's query |
| MetricsTables.DateFilterCases | src/sommelier/query_builder/metrics_table.py:74-85 | both bounds give one `between` with `[start, end]`, start alone `>=`, end alone `<=`, neither nothing; on the override when it is non-empty, else on the first date-time column |
| MetricsTables.DateFilterCalls | src/sommelier/query_builder/metrics_table.py:74-85 | the filter calls of `filter_dates_between`: IndexError without a date-time column, else the bound calls on the truthy override or the first date-time column; stated by DateFilterCases and NoDateColumnRaises |
| MetricsTables.BoundCalls | src/sommelier/query_builder/metrics_table.py:79-85 | no call without a truthy bound; the planned `between`, `>=` or `<=` calls on a string column; TypeError for an unhashable column; no call on any other value, which is in no catalogue |
| MetricsTables.NoDateColumnRaises | src/sommelier/query_builder/metrics_table.py:74 | no date-time column raises IndexError, even with an override or without bounds |
| MetricsTables.DatesBetweenQuery | src/sommelier/query_builder/metrics_table.py:79-80 | both bounds on a fresh table give `WHERE col >= start AND col <= end` for a catalogue column, and no WHERE for any other |
| MetricsTables.MetricsTable.constructor | src/sommelier/query_builder/metrics_table.py:29-33 | the partitions are stored; the base table is fresh over the merged catalogue |
| MetricsTables.MetricsTable.CatalogueCovers | src/sommelier/query_builder/metrics_table.py:27-29 | every dimension, metric and date-time column is in the catalogue, the first date-time column in particular |
| MetricsTables.MetricsTable.SelectAllDimensions | src/sommelier/query_builder/metrics_table.py:49-55 | exactly the dimension names are added to the selection |
| MetricsTables.MetricsTable.SelectAllMetrics | src/sommelier/query_builder/metrics_table.py:57-63 | exactly the metric names are added to the selection |
| MetricsTables.MetricsTable.FilterAt | src/sommelier/query_builder/metrics_table.py:80-85 | a filter call on a string column is `filter_column_by_value`; an unhashable column raises TypeError without change; any other column is in no catalogue |
| MetricsTables.MetricsTable.FilterBounds | src/sommelier/query_builder/metrics_table.py:79-85 | the bound branches add the planned `between`, `>=` or `<=` filters, or raise with the filters unchanged |
| MetricsTables.MetricsTable.FilterDatesBetween | src/sommelier/query_builder/metrics_table.py:65-87 | the filters become the planned calls applied in order, or the call raises and nothing changes |
| MetricsTables.MetricsTable.GetQuery | src/sommelier/query_builder/metrics_table.py:35-47 | `get_query` with the `*`-or-selection hook |
| MetricsTables.NewMetricsTable | src/sommelier/query_builder/metrics_table.py:17-33 | TypeError exactly when two partitions share a column; otherwise a fresh table over the merged catalogue, listing the three partitions in order, with the name stored and nothing selected, filtered, grouped, ordered or limited |
| MetricsTables.ConfigFilter | src/sommelier/query_builder/metrics_table.py:123-129 | a configuration gives `(column, value, op)`, with op passed through unchecked; KeyError for `value` first, then KeyError for `op`; TypeError for a non-dictionary |
| MetricsTables.ConfigFilters | src/sommelier/query_builder/metrics_table.py:122-125 | one filter per configuration, in list order |
| MetricsTables.ColumnFiltersCount | src/sommelier/query_builder/metrics_table.py:120-133 | a list gives one filter per configuration, anything else one filter; all name the column |
| MetricsTables.ColumnFilters | src/sommelier/query_builder/metrics_table.py:121-133 | one column's filters: a list of configurations, one configuration, or a bare value with `==`; stated by ColumnFiltersCount |
| MetricsTables.BulkFilters | src/sommelier/query_builder/metrics_table.py:119-134 | the columns in key order, their filters one after another, the first error ending the parse; stated by BulkFiltersShape and BulkScalarsInKeyOrder |
| MetricsTables.BulkFiltersShape | src/sommelier/query_builder/metrics_table.py:119-134 | parsing succeeds exactly when every column parses; the output length is the sum of the per-column counts; every filter names a key of the mapping |
| MetricsTables.BulkScalarsInKeyOrder | src/sommelier/query_builder/metrics_table.py:130-133 | bare values give `(column, value, '==')`, in the mapping's key order |
| MetricsTables.BulkFilterLookupOrder | src/sommelier/query_builder/metrics_table.py:128-129 | a configuration missing `value` reports `value`; any operator passes through |
| MetricsTables.ParseConfigs | src/sommelier/query_builder/metrics_table.py:122-125 | the inner loop computes the list's filters |
| MetricsTables.ParseBulkFilters | src/sommelier/query_builder/metrics_table.py:89-134 | the loop computes the bulk filters, in the mapping's key order |
| SchemaParser.PythonTypePreimage | src/sommelier/schema_parser.py:3-14 | INT and LONG map to int; FLOAT, DOUBLE and BIG_DECIMAL to float; BOOLEAN to bool; TIMESTAMP, STRING and JSON to str; BYTES to bytes; no other name is known |
| SchemaParser.PythonTypeFor | src/sommelier/schema_parser.py:3-14 | the `pinot_type_to_python_type` table; stated by PythonTypePreimage |
| SchemaParser.LookupPinotType | src/sommelier/schema_parser.py:29 | a known type name gives its type; an unknown key raises KeyError naming it; an unhashable one raises TypeError |
| SchemaParser.SpecList | src/sommelier/schema_parser.py:28 | a list gives its specs; an empty string or dictionary gives none; anything else raises TypeError |
| SchemaParser.NameKey | src/sommelier/schema_parser.py:29 | a string name is the key |
| SchemaParser.ColumnSpec | src/sommelier/schema_parser.py:28-32 | one dimension or metric spec as a (name, type) pair, `dataType` looked up before `name`; stated by ColumnSpecCases |
| SchemaParser.DateSpec | src/sommelier/schema_parser.py:34-39 | one date-time spec as a (name, field) pair, `dataType`, `format` and `granularity` looked up before `name`; stated by DateSpecCases |
| SchemaParser.ColumnSpecCases | src/sommelier/schema_parser.py:28-32 | a spec maps its name to the type of its `dataType`; a missing or unknown `dataType`, then a missing `name`, raises KeyError |
| SchemaParser.DateSpecCases | src/sommelier/schema_parser.py:34-39 | a date-time spec keeps the mapped type and, verbatim, its format and granularity; a missing one raises KeyError |
| SchemaParser.DateSpecOf | src/sommelier/schema_parser.py:34-39 | a well-formed date-time spec gives its name with the mapped type, format and granularity |
| SchemaParser.ParseColumns | src/sommelier/schema_parser.py:28-32 | when the list parses, it gives one pair per spec, in order |
| SchemaParser.ParseColumnsAllOk | src/sommelier/schema_parser.py:28-32 | conversely, a list whose specs all parse parses to their pairs |
| SchemaParser.ParseDates | src/sommelier/schema_parser.py:34-39 | when the list parses, it gives one pair per date-time spec, in order |
| SchemaParser.ParseDatesAllOk | src/sommelier/schema_parser.py:34-39 | conversely, a date-time list whose specs all parse parses to their pairs |
| SchemaParser.CollectColumns | src/sommelier/schema_parser.py:28-29 | the loop builds the catalogue of the specs, or raises the first spec's error |
| SchemaParser.CollectDates | src/sommelier/schema_parser.py:34-39 | the loop builds the date-time catalogue, or raises the first spec's error |
| SchemaParser.GetTableInformationFromSchema | src/sommelier/schema_parser.py:17-41 | dimensions, then metrics, then date-time columns, each looked up (KeyError if missing) after the previous one is parsed |
| SchemaParser.TableInformation | src/sommelier/schema_parser.py:17-41 | `get_table_information_from_schema` as a function; stated by TableInformationOfLists |
| SchemaParser.TableInformationOfLists | src/sommelier/schema_parser.py:17-41 | a schema whose three spec lists parse gives exactly their three catalogues |
| SchemaParser.ColumnsOfKeys | src/sommelier/schema_parser.py:28-32 | a column is in the catalogue exactly when some spec names it |
| SchemaParser.InsertAllKeys | src/sommelier/schema_parser.py:28-29 | after assigning the pairs, a key is present exactly when some pair gave it |
| SchemaParser.ColumnsOfLastWins | src/sommelier/schema_parser.py:28-32 | on a repeated name the later spec overwrites the earlier |
| SchemaParser.ColumnsOfDistinct | src/sommelier/schema_parser.py:28-32 | with distinct names the catalogue has one column per spec |
| SchemaParser.FlightsSchemaExample | tests/test_schema_parser.py:47-55 | the flights schema gives 2 dimensions, 1 metric and 3 date-time columns; `price` is a float and `flightNumber` an int |

## Left out

- SQL text rendering by pypika:
  - the spellings `=`, `<>` and `NOT IN (...)`;
  - identifier quoting and its suppression by `quote_char=None`;
  - clause placement.

  Queries and criteria stay `Query` and `Criterion` values. Only the regex filter's own text is modelled.
- The lazy pypika table cache, `get_pypika_table`, `get_sql_query` and `__repr__`: these do I/O-free formatting through the library, and the cache does not change the query.
- The fluent `return self` of every mutator: the methods return nothing, or a `Result` where Python could raise.
- src/sommelier/query_builder/date_types.py and the aggregate classes in src/sommelier/functions.py are not part of this model. `generate_term` discards the aggregates anyway. src/sommelier/types.py holds type aliases only.
- Floats: values are `None`, booleans, integers, strings, lists and string-keyed dictionaries.
- Python's `__eq__` across types, for example `1 == True`, is not modelled. Operators match only as strings.
- Terms.ResolveAggregate: the `hasattr(functions, name)` reflection is a closed registry of Sum, Avg, Count, Min, Max and Distinctcount, because pypika's function module is not part of the model. Capitalisation and digit tests are ASCII only.
- Terms.ResolveAggregate: `PercentileEst` is built as an ordinary value. Its broken `super(Percentile, self)` call, which would raise, is not modelled.
- QueryBuilder.Table.BuildCriterionForFilter: `getattr(table, column)` is modelled as a plain field reference. A column name that clashes with a pypika `Table` attribute is not modelled.
- QueryBuilder.Table.BuildCriterionForFilter: filter lists are sequences. A bare string in the mapping, which Python would iterate character by character, is not accepted.
- RegexLikes.GetSql: a list or dictionary pattern gives `None` instead of its Python `str()` text.
- SchemaParser.NameKey: a name that is a hashable non-string (a number, a boolean, None) is reported as `NonStringName`, because catalogues are keyed by strings. Python would key the dictionary by that value.
- SchemaParser.SpecList: iterating a non-empty string or dictionary is reported as the `TypeError` of its first element's lookup, without modelling the element iteration.
- The date-time column record: the schema parser gives each date-time column as a dictionary with a `data_type` key (src/sommelier/schema_parser.py:35-39), but `MetricsTable` reads the attribute `column_info.data_type` (src/sommelier/query_builder/metrics_table.py:25), so passing the parser's output straight to `MetricsTable` raises AttributeError. The model gives both sides one `DateField` record and does not model that AttributeError.
- Custom filters: `add_custom_filter` accepts any pypika criterion. The model's `Criterion` has only the comparison, membership, regex, AND and OR shapes, so NOT, LIKE, IS NULL and other library criteria cannot be added; `get_query` only ANDs custom criteria together, whatever they are.
- `truthy` selection terms: `if parsed_term:` is taken to hold for every term, as pypika terms do not define falsiness.
