/** `get_table_information_from_schema` (schema_parser.py): a Pinot schema
    configuration turned into the three column catalogues a metrics table is
    built from, with Pinot's type names mapped to Python types. */
module SchemaParser {
  import opened Wrappers
  import opened Values

  /** `pinot_type_to_python_type` (lines 3-14). */
  function PythonTypeFor(pinotType: string): Option<PyType> {
    if pinotType == "INT" || pinotType == "LONG" then Some(IntType)
    else if pinotType == "FLOAT" || pinotType == "DOUBLE" || pinotType == "BIG_DECIMAL" then Some(FloatType)
    else if pinotType == "BOOLEAN" then Some(BoolType)
    else if pinotType == "TIMESTAMP" || pinotType == "STRING" || pinotType == "JSON" then Some(StrType)
    else if pinotType == "BYTES" then Some(BytesType)
    else None
  }

  /** The type table, read backwards: which Pinot names give which type,
      and that no other name is known. */
  lemma PythonTypePreimage(pinotType: string)
    ensures PythonTypeFor(pinotType) == Some(IntType) <==> pinotType in ["INT", "LONG"]
    ensures PythonTypeFor(pinotType) == Some(FloatType) <==> pinotType in ["FLOAT", "DOUBLE", "BIG_DECIMAL"]
    ensures PythonTypeFor(pinotType) == Some(BoolType) <==> pinotType == "BOOLEAN"
    ensures PythonTypeFor(pinotType) == Some(StrType) <==> pinotType in ["TIMESTAMP", "STRING", "JSON"]
    ensures PythonTypeFor(pinotType) == Some(BytesType) <==> pinotType == "BYTES"
    ensures PythonTypeFor(pinotType).None?
            <==> pinotType !in ["INT", "LONG", "FLOAT", "DOUBLE", "BIG_DECIMAL", "BOOLEAN", "TIMESTAMP", "STRING", "JSON", "BYTES"]
  {
  }

  /** `pinot_type_to_python_type[v]`: a `KeyError` naming an unknown key,
      a `TypeError` for an unhashable one. */
  function LookupPinotType(v: Value): (r: Result<PyType, Error>)
    ensures r.Ok? <==> v.StrV? && PythonTypeFor(v.s).Some?
    ensures r.Ok? ==> r.value == PythonTypeFor(v.s).value
    ensures (v.ListV? || v.DictV?) <==> r == Err(TypeError)
    ensures r.Err? && !v.ListV? && !v.DictV? ==> r.error == KeyError(v)
  {
    match v
    case StrV(s) => if PythonTypeFor(s).Some? then Ok(PythonTypeFor(s).value) else Err(KeyError(v))
    case ListV(_) => Err(TypeError)
    case DictV(_) => Err(TypeError)
    case _ => Err(KeyError(v))
  }

  /** A field name used as a dictionary key: strings only in this model;
      an unhashable name is Python's `TypeError`. */
  function NameKey(v: Value): (r: Result<string, Error>)
    ensures r.Ok? <==> v.StrV?
    ensures r.Ok? ==> r.value == v.s
  {
    match v
    case StrV(s) => Ok(s)
    case ListV(_) => Err(TypeError)
    case DictV(_) => Err(TypeError)
    case _ => Err(NonStringName)
  }

  /** `for spec in v` followed by `spec[...]`: a list gives its items; an
      empty string or dictionary gives no iterations; a non-empty one yields
      strings, which cannot be subscripted by a string; anything else is not
      iterable. */
  function SpecList(v: Value): (r: Result<seq<Value>, Error>)
    ensures v.ListV? ==> r == Ok(v.items)
    ensures r.Ok? && !v.ListV? ==> r == Ok([])
    ensures r.Err? ==> r.error == TypeError
  {
    match v
    case ListV(items) => Ok(items)
    case StrV(s) => if s == "" then Ok([]) else Err(TypeError)
    case DictV(m) => if m == map[] then Ok([]) else Err(TypeError)
    case _ => Err(TypeError)
  }

  /** One dimension or metric spec (lines 29 and 32): the right-hand side,
      the type of `dataType`, is looked up before `name`. */
  function ColumnSpec(config: Value): Result<(string, PyType), Error> {
    var dataType :- Subscript(config, "dataType");
    var t :- LookupPinotType(dataType);
    var name :- Subscript(config, "name");
    var key :- NameKey(name);
    Ok((key, t))
  }

  /** One date-time spec (lines 35-39): the dictionary literal's entries in
      order, then `name`. */
  function DateSpec(config: Value): Result<(string, DateField), Error> {
    var dataType :- Subscript(config, "dataType");
    var t :- LookupPinotType(dataType);
    var format :- Subscript(config, "format");
    var granularity :- Subscript(config, "granularity");
    var name :- Subscript(config, "name");
    var key :- NameKey(name);
    Ok((key, DateField(t, format, granularity)))
  }

  /** A dimension or metric spec maps its name to the Python type of its
      `dataType`; a missing `dataType`, an unknown one, or a missing `name`
      raises `KeyError`, in that order of precedence. */
  lemma ColumnSpecCases(fields: map<string, Value>)
    ensures "dataType" !in fields ==> ColumnSpec(DictV(fields)) == Err(KeyError(StrV("dataType")))
    ensures "dataType" in fields && fields["dataType"].StrV? && PythonTypeFor(fields["dataType"].s).None? ==>
              ColumnSpec(DictV(fields)) == Err(KeyError(fields["dataType"]))
    ensures "dataType" in fields && LookupPinotType(fields["dataType"]).Ok? && "name" !in fields ==>
              ColumnSpec(DictV(fields)) == Err(KeyError(StrV("name")))
    ensures ColumnSpec(DictV(fields)).Ok? <==>
              "dataType" in fields && LookupPinotType(fields["dataType"]).Ok? && "name" in fields && fields["name"].StrV?
    ensures ColumnSpec(DictV(fields)).Ok? ==>
              ColumnSpec(DictV(fields)).value == (fields["name"].s, PythonTypeFor(fields["dataType"].s).value)
  {
  }

  /** A date-time spec keeps the mapped type and, verbatim, its `format`
      and `granularity`; a missing one raises `KeyError`. */
  lemma DateSpecCases(fields: map<string, Value>)
    ensures "dataType" !in fields ==> DateSpec(DictV(fields)) == Err(KeyError(StrV("dataType")))
    ensures "dataType" in fields && LookupPinotType(fields["dataType"]).Ok? && "format" !in fields ==>
              DateSpec(DictV(fields)) == Err(KeyError(StrV("format")))
    ensures "dataType" in fields && LookupPinotType(fields["dataType"]).Ok? && "format" in fields && "granularity" !in fields ==>
              DateSpec(DictV(fields)) == Err(KeyError(StrV("granularity")))
    ensures DateSpec(DictV(fields)).Ok? <==>
              && "dataType" in fields && LookupPinotType(fields["dataType"]).Ok?
              && "format" in fields && "granularity" in fields && "name" in fields && fields["name"].StrV?
    ensures DateSpec(DictV(fields)).Ok? ==>
              DateSpec(DictV(fields)).value
              == (fields["name"].s, DateField(PythonTypeFor(fields["dataType"].s).value, fields["format"], fields["granularity"]))
  {
  }

  /** The specs of a list parsed in order; the first failure wins. */
  function ParseColumns(specs: seq<Value>): (r: Result<seq<(string, PyType)>, Error>)
    ensures r.Ok? ==> |r.value| == |specs| && forall i :: 0 <= i < |specs| ==> ColumnSpec(specs[i]) == Ok(r.value[i])
    decreases |specs|
  {
    if specs == [] then Ok([])
    else
      var before :- ParseColumns(specs[..|specs| - 1]);
      var last :- ColumnSpec(specs[|specs| - 1]);
      Ok(before + [last])
  }

  function ParseDates(specs: seq<Value>): (r: Result<seq<(string, DateField)>, Error>)
    ensures r.Ok? ==> |r.value| == |specs| && forall i :: 0 <= i < |specs| ==> DateSpec(specs[i]) == Ok(r.value[i])
    decreases |specs|
  {
    if specs == [] then Ok([])
    else
      var before :- ParseDates(specs[..|specs| - 1]);
      var last :- DateSpec(specs[|specs| - 1]);
      Ok(before + [last])
  }

  /** `d[name] = value` for each pair, in order. */
  function InsertAll<V>(d: PyDict<V>, ps: seq<(string, V)>): PyDict<V>
    decreases |ps|
  {
    if ps == [] then d else Insert(InsertAll(d, ps[..|ps| - 1]), ps[|ps| - 1].0, ps[|ps| - 1].1)
  }

  /** The catalogue a list of dimension or metric specs builds. */
  function ColumnsOf(specs: seq<Value>): Result<PyDict<PyType>, Error> {
    var ps :- ParseColumns(specs);
    Ok(InsertAll(EmptyDict(), ps))
  }

  /** The catalogue a list of date-time specs builds. */
  function DatesOf(specs: seq<Value>): Result<PyDict<DateField>, Error> {
    var ps :- ParseDates(specs);
    Ok(InsertAll(EmptyDict(), ps))
  }

  /** The three catalogues, each keyed by column name in first-occurrence
      order. */
  datatype SchemaInfo = SchemaInfo(dimensions: PyDict<PyType>, metrics: PyDict<PyType>, timeColumns: PyDict<DateField>)

  /** What `get_table_information_from_schema` returns or raises: the
      dimension specs are read and parsed before the metric specs are
      looked up, and those before the date-time specs. */
  function TableInformation(schema: map<string, Value>): Result<SchemaInfo, Error> {
    var dimensionSpecs :- Lookup(schema, "dimensionFieldSpecs");
    var dimensionList :- SpecList(dimensionSpecs);
    var dimensions :- ColumnsOf(dimensionList);
    var metricSpecs :- Lookup(schema, "metricFieldSpecs");
    var metricList :- SpecList(metricSpecs);
    var metrics :- ColumnsOf(metricList);
    var timeSpecs :- Lookup(schema, "dateTimeFieldSpecs");
    var timeList :- SpecList(timeSpecs);
    var timeColumns :- DatesOf(timeList);
    Ok(SchemaInfo(dimensions, metrics, timeColumns))
  }

  /** Once spec `i` of a list fails after the ones before it parsed, the
      whole list fails with its error. */
  lemma {:induction false} ParseColumnsErrAt(specs: seq<Value>, i: nat)
    requires i < |specs|
    requires ParseColumns(specs[..i]).Ok? && ColumnSpec(specs[i]).Err?
    ensures ParseColumns(specs) == Err(ColumnSpec(specs[i]).error)
    decreases |specs|
  {
    if i + 1 < |specs| {
      var init := specs[..|specs| - 1];
      assert init[..i] == specs[..i] && init[i] == specs[i];
      ParseColumnsErrAt(init, i);
    } else {
      assert specs[..|specs| - 1] == specs[..i];
    }
  }

  lemma {:induction false} ParseDatesErrAt(specs: seq<Value>, i: nat)
    requires i < |specs|
    requires ParseDates(specs[..i]).Ok? && DateSpec(specs[i]).Err?
    ensures ParseDates(specs) == Err(DateSpec(specs[i]).error)
    decreases |specs|
  {
    if i + 1 < |specs| {
      var init := specs[..|specs| - 1];
      assert init[..i] == specs[..i] && init[i] == specs[i];
      ParseDatesErrAt(init, i);
    } else {
      assert specs[..|specs| - 1] == specs[..i];
    }
  }

  /** The loop of lines 28-29 (and, on the metric specs, of lines 31-32). */
  method CollectColumns(specs: seq<Value>) returns (r: Result<PyDict<PyType>, Error>)
    ensures r == ColumnsOf(specs)
  {
    var columns: PyDict<PyType> := EmptyDict();
    ghost var pairs: seq<(string, PyType)> := [];
    for i := 0 to |specs|
      invariant ParseColumns(specs[..i]) == Ok(pairs)
      invariant columns == InsertAll(EmptyDict(), pairs)
    {
      assert specs[..i + 1][..i] == specs[..i];
      var spec := ColumnSpec(specs[i]);
      if spec.Err? {
        ParseColumnsErrAt(specs, i);
        return Err(spec.error);
      }
      columns := Insert(columns, spec.value.0, spec.value.1);
      pairs := pairs + [spec.value];
      assert pairs[..|pairs| - 1] == pairs[..i];
    }
    assert specs[..|specs|] == specs;
    r := Ok(columns);
  }

  /** The loop of lines 34-39. */
  method CollectDates(specs: seq<Value>) returns (r: Result<PyDict<DateField>, Error>)
    ensures r == DatesOf(specs)
  {
    var columns: PyDict<DateField> := EmptyDict();
    ghost var pairs: seq<(string, DateField)> := [];
    for i := 0 to |specs|
      invariant ParseDates(specs[..i]) == Ok(pairs)
      invariant columns == InsertAll(EmptyDict(), pairs)
    {
      assert specs[..i + 1][..i] == specs[..i];
      var spec := DateSpec(specs[i]);
      if spec.Err? {
        ParseDatesErrAt(specs, i);
        return Err(spec.error);
      }
      columns := Insert(columns, spec.value.0, spec.value.1);
      pairs := pairs + [spec.value];
      assert pairs[..|pairs| - 1] == pairs[..i];
    }
    assert specs[..|specs|] == specs;
    r := Ok(columns);
  }

  /** `get_table_information_from_schema(schema_configuration)`. */
  method GetTableInformationFromSchema(schema: map<string, Value>) returns (r: Result<SchemaInfo, Error>)
    ensures r == TableInformation(schema)
  {
    var dimensionSpecs :- Lookup(schema, "dimensionFieldSpecs");
    var dimensionList :- SpecList(dimensionSpecs);
    var dimensions :- CollectColumns(dimensionList);
    var metricSpecs :- Lookup(schema, "metricFieldSpecs");
    var metricList :- SpecList(metricSpecs);
    var metrics :- CollectColumns(metricList);
    var timeSpecs :- Lookup(schema, "dateTimeFieldSpecs");
    var timeList :- SpecList(timeSpecs);
    var timeColumns :- CollectDates(timeList);
    r := Ok(SchemaInfo(dimensions, metrics, timeColumns));
  }

  // ---- What the catalogues hold ----

  /** The bindings `d[name] = value` leaves, as a plain map. */
  function Bindings<V>(ps: seq<(string, V)>): map<string, V>
    decreases |ps|
  {
    if ps == [] then map[] else Bindings(ps[..|ps| - 1])[ps[|ps| - 1].0 := ps[|ps| - 1].1]
  }

  lemma {:induction false} InsertAllBindings<V>(ps: seq<(string, V)>)
    ensures InsertAll(EmptyDict(), ps).values == Bindings(ps)
    decreases |ps|
  {
    if ps != [] {
      InsertAllBindings(ps[..|ps| - 1]);
    }
  }

  lemma {:induction false} BindingsHas<V>(ps: seq<(string, V)>, i: nat)
    requires i < |ps|
    ensures ps[i].0 in Bindings(ps)
    decreases |ps|
  {
    var n := |ps| - 1;
    if i < n {
      BindingsHas(ps[..n], i);
      assert ps[..n][i] == ps[i];
    }
  }

  /** Every name a spec gives is in the catalogue. */
  lemma InsertAllHas<V>(ps: seq<(string, V)>, i: nat)
    requires i < |ps|
    ensures ps[i].0 in InsertAll(EmptyDict(), ps).values
  {
    InsertAllBindings(ps);
    BindingsHas(ps, i);
  }

  /** Every column of the catalogue is named by some spec. */
  lemma {:induction false} InsertAllOnly<V>(ps: seq<(string, V)>, k: string) returns (i: nat)
    requires k in InsertAll(EmptyDict(), ps).values
    ensures i < |ps| && ps[i].0 == k
    decreases |ps|
  {
    var n := |ps| - 1;
    if ps[n].0 == k {
      i := n;
    } else {
      i := InsertAllOnly(ps[..n], k);
      assert ps[..n][i] == ps[i];
    }
  }

  /** A column is in the catalogue exactly when some spec names it. */
  lemma InsertAllKeys<V>(ps: seq<(string, V)>, k: string)
    ensures k in InsertAll(EmptyDict(), ps).values <==> exists i :: 0 <= i < |ps| && ps[i].0 == k
  {
    if k in InsertAll(EmptyDict(), ps).values {
      var i := InsertAllOnly(ps, k);
    }
    if exists i :: 0 <= i < |ps| && ps[i].0 == k {
      var i :| 0 <= i < |ps| && ps[i].0 == k;
      InsertAllHas(ps, i);
    }
  }

  /** A later spec with the same name overwrites an earlier one: a column
      holds the type of the last spec naming it. */
  lemma {:induction false} InsertAllLastWins<V>(ps: seq<(string, V)>, i: nat)
    requires i < |ps|
    requires forall j :: i < j < |ps| ==> ps[j].0 != ps[i].0
    ensures ps[i].0 in InsertAll(EmptyDict(), ps).values
    ensures InsertAll(EmptyDict(), ps).values[ps[i].0] == ps[i].1
    decreases |ps|
  {
    if i + 1 < |ps| {
      var init := ps[..|ps| - 1];
      assert init[i] == ps[i];
      forall j | i < j < |init| ensures init[j].0 != init[i].0 {
        assert init[j] == ps[j];
      }
      InsertAllLastWins(init, i);
    } else {
      assert ps[..|ps| - 1] == ps[..i];
    }
  }

  /** The names, in order. */
  function Names<V>(ps: seq<(string, V)>): (r: seq<string>)
    ensures |r| == |ps| && forall i :: 0 <= i < |ps| ==> r[i] == ps[i].0
    decreases |ps|
  {
    if ps == [] then [] else Names(ps[..|ps| - 1]) + [ps[|ps| - 1].0]
  }

  /** With distinct names the catalogue lists them in spec order, one entry
      per spec. */
  lemma {:induction false} InsertAllDistinct<V>(ps: seq<(string, V)>)
    requires forall i, j :: 0 <= i < j < |ps| ==> ps[i].0 != ps[j].0
    ensures InsertAll(EmptyDict(), ps).keys == Names(ps)
    ensures |InsertAll(EmptyDict(), ps).values| == |ps|
    decreases |ps|
  {
    if ps != [] {
      var init := ps[..|ps| - 1];
      InsertAllDistinct(init);
      InsertAllKeys(init, ps[|ps| - 1].0);
      assert Names(ps[..|ps| - 1]) == Names(init);
    }
    DistinctKeysCard(InsertAll(EmptyDict(), ps));
  }

  /** A column is in a parsed catalogue exactly when some spec names it,
      and it holds the type of the last spec naming it. */
  lemma ColumnsOfLastWins(specs: seq<Value>, i: nat)
    requires ColumnsOf(specs).Ok?
    requires i < |specs|
    requires forall j :: i < j < |specs| ==> ColumnSpec(specs[j]).value.0 != ColumnSpec(specs[i]).value.0
    ensures ColumnSpec(specs[i]).value.0 in ColumnsOf(specs).value.values
    ensures ColumnsOf(specs).value.values[ColumnSpec(specs[i]).value.0] == ColumnSpec(specs[i]).value.1
  {
    InsertAllLastWins(ParseColumns(specs).value, i);
  }

  /** No column appears that no spec names. */
  lemma ColumnsOfKeys(specs: seq<Value>, k: string)
    requires ColumnsOf(specs).Ok?
    ensures k in ColumnsOf(specs).value.values <==> exists i :: 0 <= i < |specs| && ColumnSpec(specs[i]).value.0 == k
  {
    var ps := ParseColumns(specs).value;
    InsertAllKeys(ps, k);
    if exists i :: 0 <= i < |ps| && ps[i].0 == k {
      var i :| 0 <= i < |ps| && ps[i].0 == k;
      assert ColumnSpec(specs[i]).value.0 == k;
    }
  }

  /** With distinct names there is one column per spec. */
  lemma ColumnsOfDistinct(specs: seq<Value>)
    requires ColumnsOf(specs).Ok?
    requires forall i, j :: 0 <= i < j < |specs| ==> ColumnSpec(specs[i]).value.0 != ColumnSpec(specs[j]).value.0
    ensures |ColumnsOf(specs).value.values| == |specs|
  {
    var ps := ParseColumns(specs).value;
    InsertAllDistinct(ps);
  }

  /** A list in which every spec parses parses to those specs' pairs. */
  lemma {:induction false} ParseColumnsAllOk(specs: seq<Value>, ps: seq<(string, PyType)>)
    requires |ps| == |specs| && forall i :: 0 <= i < |specs| ==> ColumnSpec(specs[i]) == Ok(ps[i])
    ensures ParseColumns(specs) == Ok(ps)
    decreases |specs|
  {
    if specs != [] {
      var n := |specs| - 1;
      ParseColumnsAllOk(specs[..n], ps[..n]);
      assert ps == ps[..n] + [ps[n]];
    }
  }

  lemma {:induction false} ParseDatesAllOk(specs: seq<Value>, ps: seq<(string, DateField)>)
    requires |ps| == |specs| && forall i :: 0 <= i < |specs| ==> DateSpec(specs[i]) == Ok(ps[i])
    ensures ParseDates(specs) == Ok(ps)
    decreases |specs|
  {
    if specs != [] {
      var n := |specs| - 1;
      ParseDatesAllOk(specs[..n], ps[..n]);
      assert ps == ps[..n] + [ps[n]];
    }
  }

  // ---- The flights example ----

  const FlightNumberSpec := DictV(map["name" := StrV("flightNumber"), "dataType" := StrV("LONG")])
  const TagsSpec := DictV(map["name" := StrV("tags"), "dataType" := StrV("STRING"),
                              "singleValueField" := BoolV(false), "defaultNullValue" := StrV("null")])
  const PriceSpec := DictV(map["name" := StrV("price"), "dataType" := StrV("DOUBLE"), "defaultNullValue" := IntV(0)])
  const MillisSpec := DictV(map["name" := StrV("millisSinceEpoch"), "dataType" := StrV("LONG"),
                                "format" := StrV("1:MILLISECONDS:EPOCH"), "granularity" := StrV("15:MINUTES")])
  const HoursSpec := DictV(map["name" := StrV("hoursSinceEpoch"), "dataType" := StrV("INT"),
                               "format" := StrV("1:HOURS:EPOCH"), "granularity" := StrV("1:HOURS")])
  const DateStringSpec := DictV(map["name" := StrV("dateString"), "dataType" := StrV("STRING"),
                                    "format" := StrV("1:DAYS:SIMPLE_DATE_FORMAT:yyyy-MM-dd"), "granularity" := StrV("1:DAYS")])
  const FlightsSchema := map[
    "schemaName" := StrV("flights"),
    "dimensionFieldSpecs" := ListV([FlightNumberSpec, TagsSpec]),
    "metricFieldSpecs" := ListV([PriceSpec]),
    "dateTimeFieldSpecs" := ListV([MillisSpec, HoursSpec, DateStringSpec])]

  lemma FlightsColumnSpecs()
    ensures ColumnSpec(FlightNumberSpec) == Ok(("flightNumber", IntType))
    ensures ColumnSpec(TagsSpec) == Ok(("tags", StrType))
    ensures ColumnSpec(PriceSpec) == Ok(("price", FloatType))
  {
    assert "dataType" != "name";
    assert PythonTypeFor("LONG") == Some(IntType);
    assert FlightNumberSpec.fields["name"] == StrV("flightNumber");
    assert FlightNumberSpec.fields["dataType"] == StrV("LONG");
    ColumnSpecCases(FlightNumberSpec.fields);
    assert PythonTypeFor("STRING") == Some(StrType);
    assert TagsSpec.fields["name"] == StrV("tags");
    assert TagsSpec.fields["dataType"] == StrV("STRING");
    ColumnSpecCases(TagsSpec.fields);
    assert PythonTypeFor("DOUBLE") == Some(FloatType);
    assert PriceSpec.fields["name"] == StrV("price");
    assert PriceSpec.fields["dataType"] == StrV("DOUBLE");
    ColumnSpecCases(PriceSpec.fields);
  }

  const MillisField := ("millisSinceEpoch", DateField(IntType, StrV("1:MILLISECONDS:EPOCH"), StrV("15:MINUTES")))
  const HoursField := ("hoursSinceEpoch", DateField(IntType, StrV("1:HOURS:EPOCH"), StrV("1:HOURS")))
  const DateStringField := ("dateString", DateField(StrType, StrV("1:DAYS:SIMPLE_DATE_FORMAT:yyyy-MM-dd"), StrV("1:DAYS")))

  /** A date-time spec with the four keys it needs. */
  lemma DateSpecOf(name: string, dataType: string, format: string, granularity: string)
    requires PythonTypeFor(dataType).Some?
    ensures DateSpec(DictV(map["name" := StrV(name), "dataType" := StrV(dataType),
                                "format" := StrV(format), "granularity" := StrV(granularity)]))
            == Ok((name, DateField(PythonTypeFor(dataType).value, StrV(format), StrV(granularity))))
  {
    var fields := map["name" := StrV(name), "dataType" := StrV(dataType),
                      "format" := StrV(format), "granularity" := StrV(granularity)];
    assert "dataType" != "name" && "format" != "name" && "granularity" != "name";
    assert "format" != "dataType" && "granularity" != "dataType" && "granularity" != "format";
    assert fields["name"] == StrV(name) && fields["dataType"] == StrV(dataType);
    assert fields["format"] == StrV(format) && fields["granularity"] == StrV(granularity);
    DateSpecCases(fields);
  }

  lemma FlightsDateSpecs()
    ensures DateSpec(MillisSpec) == Ok(MillisField)
    ensures DateSpec(HoursSpec) == Ok(HoursField)
    ensures DateSpec(DateStringSpec) == Ok(DateStringField)
  {
    assert PythonTypeFor("LONG") == Some(IntType);
    DateSpecOf("millisSinceEpoch", "LONG", "1:MILLISECONDS:EPOCH", "15:MINUTES");
    assert PythonTypeFor("INT") == Some(IntType);
    DateSpecOf("hoursSinceEpoch", "INT", "1:HOURS:EPOCH", "1:HOURS");
    assert PythonTypeFor("STRING") == Some(StrType);
    DateSpecOf("dateString", "STRING", "1:DAYS:SIMPLE_DATE_FORMAT:yyyy-MM-dd", "1:DAYS");
  }

  lemma FlightsDimensions()
    ensures ColumnsOf([FlightNumberSpec, TagsSpec]).Ok?
    ensures |ColumnsOf([FlightNumberSpec, TagsSpec]).value.values| == 2
    ensures "flightNumber" in ColumnsOf([FlightNumberSpec, TagsSpec]).value.values
    ensures ColumnsOf([FlightNumberSpec, TagsSpec]).value.values["flightNumber"] == IntType
  {
    FlightsColumnSpecs();
    var pairs := [("flightNumber", IntType), ("tags", StrType)];
    ParseColumnsAllOk([FlightNumberSpec, TagsSpec], pairs);
    InsertAllDistinct(pairs);
    InsertAllLastWins(pairs, 0);
  }

  lemma FlightsMetrics()
    ensures ColumnsOf([PriceSpec]).Ok?
    ensures |ColumnsOf([PriceSpec]).value.values| == 1
    ensures "price" in ColumnsOf([PriceSpec]).value.values
    ensures ColumnsOf([PriceSpec]).value.values["price"] == FloatType
  {
    FlightsColumnSpecs();
    ParseColumnsAllOk([PriceSpec], [("price", FloatType)]);
    InsertAllDistinct([("price", FloatType)]);
    InsertAllLastWins([("price", FloatType)], 0);
  }

  lemma FlightsTimes()
    ensures DatesOf([MillisSpec, HoursSpec, DateStringSpec]).Ok?
    ensures |DatesOf([MillisSpec, HoursSpec, DateStringSpec]).value.values| == 3
  {
    FlightsDateSpecs();
    var specs := [MillisSpec, HoursSpec, DateStringSpec];
    var ps := [MillisField, HoursField, DateStringField];
    forall i | 0 <= i < |specs| ensures DateSpec(specs[i]) == Ok(ps[i]) {
      if i == 0 {
        assert specs[i] == MillisSpec && ps[i] == MillisField;
      } else if i == 1 {
        assert specs[i] == HoursSpec && ps[i] == HoursField;
      } else {
        assert specs[i] == DateStringSpec && ps[i] == DateStringField;
      }
    }
    ParseDatesAllOk(specs, ps);
    FlightsTimeCatalogue();
  }

  /** The three date-time columns have distinct names. */
  lemma FlightsTimeCatalogue()
    ensures |InsertAll(EmptyDict(), [MillisField, HoursField, DateStringField]).values| == 3
  {
    var ps := [MillisField, HoursField, DateStringField];
    assert |ps[0].0| == 16 && |ps[1].0| == 15 && |ps[2].0| == 10;
    forall i, j | 0 <= i < j < |ps| ensures ps[i].0 != ps[j].0 {
      assert |ps[i].0| != |ps[j].0|;
    }
    InsertAllDistinct(ps);
  }

  /** A schema whose three spec entries are lists that parse gives their
      three catalogues. */
  lemma TableInformationOfLists(schema: map<string, Value>, d: seq<Value>, m: seq<Value>, t: seq<Value>)
    requires "dimensionFieldSpecs" in schema && schema["dimensionFieldSpecs"] == ListV(d)
    requires "metricFieldSpecs" in schema && schema["metricFieldSpecs"] == ListV(m)
    requires "dateTimeFieldSpecs" in schema && schema["dateTimeFieldSpecs"] == ListV(t)
    requires ColumnsOf(d).Ok? && ColumnsOf(m).Ok? && DatesOf(t).Ok?
    ensures TableInformation(schema) == Ok(SchemaInfo(ColumnsOf(d).value, ColumnsOf(m).value, DatesOf(t).value))
  {
  }

  /** The flights schema: two dimensions, one metric, three date-time
      columns; `price` is a float and `flightNumber` an int. */
  lemma FlightsSchemaExample()
    ensures TableInformation(FlightsSchema).Ok?
    ensures |TableInformation(FlightsSchema).value.dimensions.values| == 2
    ensures |TableInformation(FlightsSchema).value.metrics.values| == 1
    ensures |TableInformation(FlightsSchema).value.timeColumns.values| == 3
    ensures "price" in TableInformation(FlightsSchema).value.metrics.values
    ensures TableInformation(FlightsSchema).value.metrics.values["price"] == FloatType
    ensures "flightNumber" in TableInformation(FlightsSchema).value.dimensions.values
    ensures TableInformation(FlightsSchema).value.dimensions.values["flightNumber"] == IntType
  {
    FlightsDimensions();
    FlightsMetrics();
    FlightsTimes();
    assert "dimensionFieldSpecs" != "metricFieldSpecs" && "dimensionFieldSpecs" != "dateTimeFieldSpecs";
    assert "metricFieldSpecs" != "dateTimeFieldSpecs" && "schemaName" != "dateTimeFieldSpecs";
    TableInformationOfLists(FlightsSchema, [FlightNumberSpec, TagsSpec], [PriceSpec], [MillisSpec, HoursSpec, DateStringSpec]);
  }
}
