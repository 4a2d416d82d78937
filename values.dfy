/** The Python values the query builder is handed (filter values, filter
    configurations, schema documents), Python truthiness, the exceptions the
    source can raise, and insertion-ordered Python dictionaries. */
module Values {
  import opened Wrappers

  /** A JSON-like Python value. Floats are not modelled. Nested dictionaries
      are only ever looked up by key, never iterated, so they are plain maps. */
  datatype Value =
    | NoneV
    | BoolV(b: bool)
    | IntV(i: int)
    | StrV(s: string)
    | ListV(items: seq<Value>)
    | DictV(fields: map<string, Value>)

  /** The Python types a column catalogue maps its columns to. */
  datatype PyType = IntType | FloatType | BoolType | StrType | BytesType

  /** What is known about a date-time column: its value type, and its format
      and granularity exactly as the schema gave them. */
  datatype DateField = DateField(dataType: PyType, format: Value, granularity: Value)

  /** Python's `bool(v)`. */
  predicate Truthy(v: Value) {
    match v
    case NoneV => false
    case BoolV(b) => b
    case IntV(i) => i != 0
    case StrV(s) => s != ""
    case ListV(xs) => xs != []
    case DictV(m) => m != map[]
  }

  /** The exceptions the modelled code can raise. `NonStringName` stands for a
      column name that is not a string, which the model's string-keyed
      catalogues cannot hold. */
  datatype Error =
    | KeyError(key: Value)
    | IndexError
    | TypeError
    | NonStringName

  /** Python's `d[key]` on a dictionary with string keys. */
  function Lookup(d: map<string, Value>, key: string): (r: Result<Value, Error>)
    ensures r.Ok? <==> key in d
    ensures r.Ok? ==> r.value == d[key]
    ensures r.Err? ==> r.error == KeyError(StrV(key))
  {
    if key in d then Ok(d[key]) else Err(KeyError(StrV(key)))
  }

  /** Python's `v[key]` with a string key: a dictionary lookup, and a
      `TypeError` for anything else (lists and strings need integer indices,
      scalars are not subscriptable). */
  function Subscript(v: Value, key: string): (r: Result<Value, Error>)
    ensures !v.DictV? ==> r == Err(TypeError)
    ensures v.DictV? ==> r == Lookup(v.fields, key)
  {
    match v
    case DictV(m) => Lookup(m, key)
    case _ => Err(TypeError)
  }

  /** Decimal text of an integer, as Python's `str(int)`. */
  function IntToString(i: int): (s: string)
    ensures s != []
    ensures i >= 0 ==> s[0] != '-'
    decreases if i < 0 then 1 - i else i
  {
    if i < 0 then "-" + NatToString(-i) else NatToString(i)
  }

  function NatToString(n: nat): (s: string)
    ensures s != [] && s[0] != '-'
    ensures forall k :: 0 <= k < |s| ==> '0' <= s[k] <= '9'
  {
    if n < 10 then [Digit(n)] else NatToString(n / 10) + [Digit(n % 10)]
  }

  function Digit(d: nat): (c: char)
    requires d < 10
    ensures '0' <= c <= '9'
  {
    (48 + d) as char
  }

  /** Python's `str(v)` for the scalar values; containers render their
      `repr`, which the model does not spell out (None). */
  function PyStr(v: Value): (r: Option<string>)
    ensures r.Some? <==> !(v.ListV? || v.DictV?)
    ensures v.StrV? ==> r == Some(v.s)
  {
    match v
    case NoneV => Some("None")
    case BoolV(b) => Some(if b then "True" else "False")
    case IntV(i) => Some(IntToString(i))
    case StrV(s) => Some(s)
    case ListV(_) => None
    case DictV(_) => None
  }

  /** An insertion-ordered Python dictionary with string keys: `keys` is the
      iteration order of `dict.keys()`, `values` the key-value binding. */
  datatype Dict<V> = Dict(keys: seq<string>, values: map<string, V>) {
    predicate Valid() {
      && (forall i, j :: 0 <= i < j < |keys| ==> keys[i] != keys[j])
      && (forall k :: k in keys ==> k in values)
      && (forall k :: k in values ==> k in keys)
    }
  }

  type PyDict<V> = d: Dict<V> | d.Valid() witness Dict([], map[])

  function EmptyDict<V>(): (d: PyDict<V>)
    ensures d.keys == [] && d.values == map[]
  {
    Dict([], map[])
  }

  /** Python's `d[k] = v`: a new key goes to the end of the iteration order,
      an existing key keeps its place and takes the new value. */
  function Insert<V>(d: PyDict<V>, k: string, v: V): (r: PyDict<V>)
    ensures r.values == d.values[k := v]
    ensures k in d.values ==> r.keys == d.keys
    ensures k !in d.values ==> r.keys == d.keys + [k]
    ensures |r.keys| == |r.values|
  {
    DistinctKeysCard(d);
    var r: Dict<V> := if k in d.values then Dict(d.keys, d.values[k := v])
                      else Dict(d.keys + [k], d.values[k := v]);
    DistinctKeysCard(r);
    r
  }

  /** Distinct keys: the iteration order has one entry per binding. */
  lemma DistinctKeysCard<V>(d: Dict<V>)
    requires d.Valid()
    ensures |d.keys| == |d.values|
  {
    DistinctCard(d.keys);
    assert (set k | k in d.keys) == d.values.Keys;
  }

  lemma {:induction false} DistinctCard(s: seq<string>)
    requires forall i, j :: 0 <= i < j < |s| ==> s[i] != s[j]
    ensures |set k | k in s| == |s|
  {
    if s != [] {
      var n := |s| - 1;
      DistinctCard(s[..n]);
      assert (set k | k in s) == (set k | k in s[..n]) + {s[n]};
      assert s[n] !in (set k | k in s[..n]);
    }
  }
}
