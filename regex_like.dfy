/** The `regexp_like(column, 'pattern')` criterion, the one filter whose SQL
    text the builder writes itself rather than leaving to the SQL library. */
module RegexLikes {
  import opened Wrappers
  import opened Values

  /** A regex-match criterion: the column (by name), the pattern as given,
      and the value of the constructor's `alias` keyword. `__init__` hands
      that value to the base `Function` as its first positional argument,
      the function's name, so it never becomes an alias of the criterion. */
  datatype RegexLike = RegexLike(column: string, pattern: Value, functionName: Value)

  /** `RegexLike(column, pattern, **kwargs)`: column and pattern are stored
      unchanged; the base function receives `kwargs.get('alias')`. */
  function NewRegexLike(column: string, pattern: Value, kwargs: map<string, Value>): (r: RegexLike)
    ensures r.column == column && r.pattern == pattern
    ensures "alias" in kwargs ==> r.functionName == kwargs["alias"]
    ensures "alias" !in kwargs ==> r.functionName == NoneV
  {
    RegexLike(column, pattern, if "alias" in kwargs then kwargs["alias"] else NoneV)
  }

  const Prefix: string := "regexp_like("
  const Separator: string := ", '"
  const Suffix: string := "')"

  /** The text of `regexp_like(<column>, '<pattern>')`, the column bare and
      the pattern between single quotes, inserted without escaping. */
  function Render(column: string, pattern: string): string {
    Prefix + column + Separator + pattern + Suffix
  }

  /** `get_sql(**kwargs)`. The keyword arguments, among them the quote
      character the caller asks for, play no part, and neither does the
      name the base function was given. A container pattern would render Python's `repr`, which is not
      spelled out here (None). */
  function GetSql(r: RegexLike, quoteChar: Option<char>): (sql: Option<string>)
    ensures sql.Some? <==> !(r.pattern.ListV? || r.pattern.DictV?)
    ensures r.pattern.StrV? ==> sql == Some(Render(r.column, r.pattern.s))
  {
    match PyStr(r.pattern)
    case Some(p) => Some(Render(r.column, p))
    case None => None
  }

  /** The rendered text depends on neither the base function's name (the
      `alias` keyword's value) nor the quote character:
      the column is never quoted. */
  lemma GetSqlIgnoresNameAndQuote(r: RegexLike, name: Value, q1: Option<char>, q2: Option<char>)
    ensures GetSql(r.(functionName := name), q1) == GetSql(r, q2)
  {
  }

  /** Index of the first occurrence of `c` in `s`. */
  function FirstIndex(s: string, c: char): (r: Option<nat>)
    ensures r.Some? ==> r.value < |s| && s[r.value] == c && c !in s[..r.value]
    ensures r.None? ==> c !in s
  {
    if s == [] then None
    else if s[0] == c then Some(0)
    else match FirstIndex(s[1..], c)
      case None => None
      case Some(k) => assert s[..k + 1] == [s[0]] + s[1..][..k]; Some(k + 1)
  }

  /** Reads a rendered criterion back into column and pattern; the column is
      taken to end at the first comma. */
  function ParseRendered(sql: string): Option<(string, string)> {
    if |sql| < |Prefix| + |Suffix| || sql[..|Prefix|] != Prefix || sql[|sql| - |Suffix|..] != Suffix then None
    else
      var body := sql[|Prefix|..|sql| - |Suffix|];
      match FirstIndex(body, ',')
      case None => None
      case Some(k) =>
        if k + |Separator| <= |body| && body[k..k + |Separator|] == Separator
        then Some((body[..k], body[k + |Separator|..]))
        else None
  }

  /** For a column name without a comma, the rendered text determines the
      column and the pattern: the column is written out verbatim, with no
      quoting, and the pattern follows between the quotes. */
  lemma {:induction false} RenderRoundTrip(column: string, pattern: string)
    requires ',' !in column
    ensures ParseRendered(Render(column, pattern)) == Some((column, pattern))
  {
    var sql := Render(column, pattern);
    var body := column + Separator + pattern;
    assert sql == Prefix + body + Suffix;
    assert sql[..|Prefix|] == Prefix;
    assert sql[|sql| - |Suffix|..] == Suffix;
    assert sql[|Prefix|..|sql| - |Suffix|] == body;
    assert body[|column|] == ',';
    assert body[..|column|] == column;
    var k := FirstIndex(body, ',');
    assert k == Some(|column|);
    assert body[|column|..|column| + |Separator|] == Separator;
    assert body[|column| + |Separator|..] == pattern;
  }

  /** A sequence is the concatenation of its five pieces between four cuts. */
  lemma Cuts<T>(s: seq<T>, a: nat, b: nat, c: nat, d: nat)
    requires a <= b <= c <= d <= |s|
    ensures s == s[..a] + s[a..b] + s[b..c] + s[c..d] + s[d..]
  {
  }

  /** A slice of a slice is a slice of the whole. */
  lemma SliceOfSlice<T>(s: seq<T>, a: nat, d: nat, i: nat, j: nat)
    requires a <= d <= |s| && i <= j <= d - a
    ensures s[a..d][i..j] == s[a + i..a + j]
  {
    var u := s[a..d];
    assert |u[i..j]| == |s[a + i..a + j]|;
    forall t | 0 <= t < j - i
      ensures u[i..j][t] == s[a + i..a + j][t]
    {
      assert u[i..j][t] == u[i + t] == s[a + i + t];
    }
  }

  /** Whatever reads back was rendered from what it reads back as. */
  lemma ParseRenderedSound(sql: string)
    requires ParseRendered(sql).Some?
    ensures ',' !in ParseRendered(sql).value.0
    ensures sql == Render(ParseRendered(sql).value.0, ParseRendered(sql).value.1)
  {
    var a, d := |Prefix|, |sql| - |Suffix|;
    assert a <= d && sql[..a] == Prefix && sql[d..] == Suffix;
    var body := sql[a..d];
    assert FirstIndex(body, ',').Some?;
    var k := FirstIndex(body, ',').value;
    assert k + |Separator| <= |body| && body[k..k + |Separator|] == Separator;
    var b, c := a + k, a + k + |Separator|;
    assert ParseRendered(sql) == Some((body[..k], body[k + |Separator|..]));
    SliceOfSlice(sql, a, d, 0, k);
    SliceOfSlice(sql, a, d, k, k + |Separator|);
    SliceOfSlice(sql, a, d, k + |Separator|, |body|);
    assert body[k + |Separator|..] == body[k + |Separator|..|body|];
    Cuts(sql, a, b, c, d);
    assert sql == Prefix + body[..k] + Separator + body[k + |Separator|..] + Suffix;
  }
}
