/** The term generator (table.py, `generate_term`): a selected or ordered
    token becomes a wildcard or a field; tokens shaped `name(argument)` also
    have their aggregate function resolved, and that result is then dropped. */
module Terms {
  import opened Wrappers

  /** A SELECT / ORDER BY term. */
  datatype Term = Field(name: string) | Star

  /** The aggregate a `name(argument)` token resolves to; the percentile kinds
      carry the digits that followed their name. */
  datatype Aggregate =
    | Sum(arg: Term)
    | Avg(arg: Term)
    | Count(arg: Term)
    | Min(arg: Term)
    | Max(arg: Term)
    | DistinctCount(arg: Term)
    | Percentile(arg: Term, percentile: string)
    | PercentileTDigest(arg: Term, percentile: string)
    | PercentileEst(arg: Term, percentile: string)

  /** Index of the last `(` at a position `i` with `lo <= i < hi`. */
  function LastOpenParen(s: string, lo: nat, hi: nat): (r: Option<nat>)
    requires hi <= |s|
    ensures r.Some? ==> lo <= r.value < hi && s[r.value] == '('
    ensures r.Some? ==> forall j :: r.value < j < hi ==> s[j] != '('
    ensures r.None? ==> forall j :: lo <= j < hi ==> s[j] != '('
    decreases hi
  {
    if hi <= lo then None
    else if s[hi - 1] == '(' then Some(hi - 1)
    else LastOpenParen(s, lo, hi - 1)
  }

  /** `FIELD_AGGREGATION_PATTERN.match(s)`, the pattern `(.+)\((.+)\)\Z`:
      both groups non-empty, no newline anywhere (`.` does not match one),
      and, the first group being greedy, the split is at the last `(` that
      leaves a non-empty second group. */
  function MatchAggregation(s: string): (r: Option<(string, string)>)
    ensures r.Some? ==> s == r.value.0 + "(" + r.value.1 + ")"
    ensures r.Some? ==> r.value.0 != [] && r.value.1 != [] && '\n' !in s
    ensures r.Some? ==> forall j :: |r.value.0| < j < |s| - 2 ==> s[j] != '('
    ensures r.None? ==> '\n' in s || |s| < 4 || s[|s| - 1] != ')'
                        || forall j :: 1 <= j < |s| - 2 ==> s[j] != '('
  {
    if '\n' in s || |s| < 4 || s[|s| - 1] != ')' then None
    else
      match LastOpenParen(s, 1, |s| - 2)
      case None => None
      case Some(i) =>
        assert s == s[..i] + "(" + s[i + 1..|s| - 1] + ")";
        Some((s[..i], s[i + 1..|s| - 1]))
  }

  function Upper(c: char): char {
    if 'a' <= c <= 'z' then (c as int - 32) as char else c
  }

  function Lower(c: char): char {
    if 'A' <= c <= 'Z' then (c as int + 32) as char else c
  }

  function LowerAll(s: string): (r: string)
    ensures |r| == |s| && forall k :: 0 <= k < |s| ==> r[k] == Lower(s[k])
  {
    if s == [] then [] else [Lower(s[0])] + LowerAll(s[1..])
  }

  /** Python's `str.capitalize()` on ASCII text: the first character upper
      case, the rest lower case. */
  function Capitalize(s: string): (r: string)
    ensures |r| == |s|
  {
    if s == [] then [] else [Upper(s[0])] + LowerAll(s[1..])
  }

  predicate IsDigit(c: char) {
    '0' <= c <= '9'
  }

  /** Length of the longest prefix of `s` whose characters satisfy (or, with
      `digits` false, fail) `IsDigit`. */
  function RunLength(s: string, digits: bool): (n: nat)
    ensures n <= |s|
    ensures forall k :: 0 <= k < n ==> IsDigit(s[k]) == digits
    ensures n < |s| ==> IsDigit(s[n]) != digits
  {
    if s == [] || IsDigit(s[0]) != digits then 0 else 1 + RunLength(s[1..], digits)
  }

  /** `PERCENTILE_EXTRACTION.match(f)`, the pattern `(\D+)(\d+)`: the leading
      non-digits, then every digit right after them; no match when `f` is
      empty, starts with a digit or has no digit at all. */
  function PercentileExtraction(f: string): (r: Option<(string, string)>)
    ensures r.Some? ==> r.value.0 != [] && r.value.1 != []
    ensures r.Some? ==> StartsWith(f, r.value.0 + r.value.1)
    ensures r.Some? ==> (forall k :: 0 <= k < |r.value.0| ==> !IsDigit(r.value.0[k]))
                        && (forall k :: 0 <= k < |r.value.1| ==> IsDigit(r.value.1[k]))
    ensures r.Some? ==> |r.value.0| + |r.value.1| == |f| || !IsDigit(f[|r.value.0| + |r.value.1|])
    ensures r.None? <==> f == [] || IsDigit(f[0]) || forall k :: 0 <= k < |f| ==> !IsDigit(f[k])
  {
    var n := RunLength(f, false);
    var d := RunLength(f[n..], true);
    if n == 0 || d == 0 then None
    else
      assert f[..n + d] == f[..n] + f[n..][..d];
      Some((f[..n], f[n..][..d]))
  }

  predicate StartsWith(s: string, prefix: string) {
    |prefix| <= |s| && s[..|prefix|] == prefix
  }

  /** The function names that resolve whatever their argument. */
  predicate InRegistry(fn: string) {
    fn == "Sum" || fn == "Avg" || fn == "Count" || fn == "Min" || fn == "Max" || fn == "Distinctcount"
  }

  /** `f` is the kind's name followed by the digits `percentile` (and perhaps
      more after them). */
  predicate IsPercentile(f: string, kind: string, percentile: string) {
    && percentile != []
    && (forall k :: 0 <= k < |percentile| ==> IsDigit(percentile[k]))
    && StartsWith(f, kind + percentile)
  }

  /** `f` is the kind's name followed by the digits `percentile`, which are
      all the digits there: no digit comes right after them. */
  predicate PercentileName(f: string, kind: string, percentile: string) {
    && IsPercentile(f, kind, percentile)
    && (|kind| + |percentile| == |f| || !IsDigit(f[|kind| + |percentile|]))
  }

  /** A name of non-digits followed by all its digits is what
      `(\D+)(\d+)` splits it into. */
  lemma PercentileNameExtraction(f: string, kind: string, percentile: string)
    requires kind != [] && forall k :: 0 <= k < |kind| ==> !IsDigit(kind[k])
    requires PercentileName(f, kind, percentile)
    ensures PercentileExtraction(f) == Some((kind, percentile))
  {
    assert f[..|kind|] == kind && f[|kind|..|kind| + |percentile|] == percentile by {
      assert f[..|kind| + |percentile|] == kind + percentile;
    }
    var n := RunLength(f, false);
    assert forall k :: 0 <= k < |kind| ==> f[k] == kind[k];
    assert n == |kind| by {
      assert IsDigit(f[|kind|]);
    }
    var rest := f[n..];
    var d := RunLength(rest, true);
    assert forall k :: 0 <= k < |percentile| ==> rest[k] == percentile[k];
    assert d == |percentile| by {
      assert |percentile| == |rest| || !IsDigit(rest[|percentile|]);
    }
    assert rest[..d] == percentile;
  }

  /** Lines 191-201 of table.py: a percentile function name resolves exactly
      when one of the three kind names is followed by digits and nothing
      else comes between them. */
  function ResolvePercentile(fn: string, column: Term): (r: Option<Aggregate>)
    ensures r.Some? ==> r.value.arg == column
    ensures r.Some? ==> r.value.Percentile? || r.value.PercentileTDigest? || r.value.PercentileEst?
    ensures r.Some? && r.value.Percentile? ==> PercentileName(fn, "Percentile", r.value.percentile)
    ensures r.Some? && r.value.PercentileTDigest? ==> PercentileName(fn, "Percentiletdigest", r.value.percentile)
    ensures r.Some? && r.value.PercentileEst? ==> PercentileName(fn, "Percentileest", r.value.percentile)
    ensures forall p :: PercentileName(fn, "Percentile", p) ==> r == Some(Percentile(column, p))
    ensures forall p :: PercentileName(fn, "Percentiletdigest", p) ==> r == Some(PercentileTDigest(column, p))
    ensures forall p :: PercentileName(fn, "Percentileest", p) ==> r == Some(PercentileEst(column, p))
  {
    forall p | PercentileName(fn, "Percentile", p) ensures PercentileExtraction(fn) == Some(("Percentile", p)) {
      PercentileNameExtraction(fn, "Percentile", p);
    }
    forall p | PercentileName(fn, "Percentiletdigest", p) ensures PercentileExtraction(fn) == Some(("Percentiletdigest", p)) {
      PercentileNameExtraction(fn, "Percentiletdigest", p);
    }
    forall p | PercentileName(fn, "Percentileest", p) ensures PercentileExtraction(fn) == Some(("Percentileest", p)) {
      PercentileNameExtraction(fn, "Percentileest", p);
    }
    match PercentileExtraction(fn)
    case None => None
    case Some((kind, percentile)) =>
      if kind == "Percentile" then Some(Percentile(column, percentile))
      else if kind == "Percentiletdigest" then Some(PercentileTDigest(column, percentile))
      else if kind == "Percentileest" then Some(PercentileEst(column, percentile))
      else None
  }

  /** The term an aggregate's argument stands for. */
  function ArgumentTerm(argument: string): Term {
    if argument == "*" then Star else Field(argument)
  }

  /** Lines 188-203 of table.py: the dispatch on the capitalised function
      name. The function registry is the closed set Sum, Avg, Count, Min,
      Max; then the three percentile kinds, which need digits after their
      name; then distinct count. */
  function ResolveFunction(fn: string, column: Term): (r: Option<Aggregate>)
    ensures r.Some? ==> r.value.arg == column
    ensures r.Some? && r.value.Percentile? ==> PercentileName(fn, "Percentile", r.value.percentile)
    ensures r.Some? && r.value.PercentileTDigest? ==> PercentileName(fn, "Percentiletdigest", r.value.percentile)
    ensures r.Some? && r.value.PercentileEst? ==> PercentileName(fn, "Percentileest", r.value.percentile)
    ensures r.Some? && !(r.value.Percentile? || r.value.PercentileTDigest? || r.value.PercentileEst?) ==> InRegistry(fn)
    ensures r.None? ==> !InRegistry(fn)
  {
    if fn == "Sum" then Some(Sum(column))
    else if fn == "Avg" then Some(Avg(column))
    else if fn == "Count" then Some(Count(column))
    else if fn == "Min" then Some(Min(column))
    else if fn == "Max" then Some(Max(column))
    else if StartsWith(fn, "Percentile") then ResolvePercentile(fn, column)
    else if fn == "Distinctcount" then Some(DistinctCount(column))
    else None
  }

  /** Lines 181-203 of table.py: the aggregate a function name and its
      argument resolve to, the name compared once capitalised. */
  function ResolveAggregate(name: string, argument: string): (r: Option<Aggregate>)
    ensures r.Some? ==> r.value.arg == ArgumentTerm(argument)
    ensures r.Some? && r.value.Percentile? ==> PercentileName(Capitalize(name), "Percentile", r.value.percentile)
    ensures r.Some? && r.value.PercentileTDigest? ==> PercentileName(Capitalize(name), "Percentiletdigest", r.value.percentile)
    ensures r.Some? && r.value.PercentileEst? ==> PercentileName(Capitalize(name), "Percentileest", r.value.percentile)
    ensures r.Some? && !(r.value.Percentile? || r.value.PercentileTDigest? || r.value.PercentileEst?)
            ==> InRegistry(Capitalize(name))
    ensures r.None? ==> !InRegistry(Capitalize(name))
  {
    ResolveFunction(Capitalize(name), ArgumentTerm(argument))
  }

  /** The registry names, each resolving to its own aggregate. */
  lemma RegistryFunctions(column: Term)
    ensures ResolveFunction("Sum", column) == Some(Sum(column))
    ensures ResolveFunction("Avg", column) == Some(Avg(column))
    ensures ResolveFunction("Count", column) == Some(Count(column))
    ensures ResolveFunction("Min", column) == Some(Min(column))
    ensures ResolveFunction("Max", column) == Some(Max(column))
    ensures ResolveFunction("Distinctcount", column) == Some(DistinctCount(column))
  {
    assert !StartsWith("Distinctcount", "Percentile") by {
      assert "Distinctcount"[0] != "Percentile"[0];
    }
  }

  /** Each registry name resolves to its own aggregate over the argument. */
  lemma RegistryNames(name: string, argument: string)
    ensures Capitalize(name) == "Sum" ==> ResolveAggregate(name, argument) == Some(Sum(ArgumentTerm(argument)))
    ensures Capitalize(name) == "Avg" ==> ResolveAggregate(name, argument) == Some(Avg(ArgumentTerm(argument)))
    ensures Capitalize(name) == "Count" ==> ResolveAggregate(name, argument) == Some(Count(ArgumentTerm(argument)))
    ensures Capitalize(name) == "Min" ==> ResolveAggregate(name, argument) == Some(Min(ArgumentTerm(argument)))
    ensures Capitalize(name) == "Max" ==> ResolveAggregate(name, argument) == Some(Max(ArgumentTerm(argument)))
    ensures Capitalize(name) == "Distinctcount" ==> ResolveAggregate(name, argument) == Some(DistinctCount(ArgumentTerm(argument)))
  {
    RegistryFunctions(ArgumentTerm(argument));
  }

  /** Each percentile kind followed by all of its digits resolves to that
      kind, carrying the digits. */
  lemma PercentileNames(name: string, argument: string, p: string)
    ensures PercentileName(Capitalize(name), "Percentile", p)
            ==> ResolveAggregate(name, argument) == Some(Percentile(ArgumentTerm(argument), p))
    ensures PercentileName(Capitalize(name), "Percentiletdigest", p)
            ==> ResolveAggregate(name, argument) == Some(PercentileTDigest(ArgumentTerm(argument), p))
    ensures PercentileName(Capitalize(name), "Percentileest", p)
            ==> ResolveAggregate(name, argument) == Some(PercentileEst(ArgumentTerm(argument), p))
  {
    var fn := Capitalize(name);
    if PercentileName(fn, "Percentile", p) {
      PercentileKind(fn, "", p);
    }
    if PercentileName(fn, "Percentiletdigest", p) {
      assert "Percentiletdigest" == "Percentile" + "tdigest";
      PercentileKind(fn, "tdigest", p);
    }
    if PercentileName(fn, "Percentileest", p) {
      assert "Percentileest" == "Percentile" + "est";
      PercentileKind(fn, "est", p);
    }
  }

  /** A name that starts with `Percentile` is none of the registry names
      and is handed to the percentile resolution. */
  lemma PercentileKind(fn: string, suffix: string, p: string)
    requires StartsWith(fn, "Percentile" + suffix + p)
    ensures StartsWith(fn, "Percentile") && !InRegistry(fn)
  {
    assert fn[..10] == ("Percentile" + suffix + p)[..10] == "Percentile";
    assert fn[0] == 'P';
  }

  /** `generate_term(s)`: the wildcard exactly for `*`, otherwise the field
      named by the whole token, function call or not. */
  function GenerateTerm(s: string): (t: Term)
    ensures t == Star <==> s == "*"
    ensures t.Field? ==> t.name == s
  {
    match MatchAggregation(s)
    case Some((name, argument)) =>
      var discarded := ResolveAggregate(name, argument);
      Field(s)
    case None =>
      if s == "*" then Star else Field(s)
  }

  /** Function names resolve case-insensitively: names that agree once lower
      cased resolve to the same aggregate. */
  lemma {:induction false} ResolveCaseInsensitive(name1: string, name2: string, argument: string)
    requires LowerAll(name1) == LowerAll(name2)
    ensures ResolveAggregate(name1, argument) == ResolveAggregate(name2, argument)
  {
    if name1 != [] {
      assert Lower(name1[0]) == LowerAll(name1)[0] == LowerAll(name2)[0] == Lower(name2[0]);
      assert Upper(name1[0]) == Upper(name2[0]);
      assert LowerAll(name1[1..]) == LowerAll(name2[1..]) by {
        forall k | 0 <= k < |name1| - 1 ensures LowerAll(name1[1..])[k] == LowerAll(name2[1..])[k] {
          assert LowerAll(name1)[k + 1] == LowerAll(name2)[k + 1];
        }
      }
      assert Capitalize(name1) == Capitalize(name2);
    } else {
      assert name2 == [];
    }
  }

  /** `COUNT(*)`, as the table tests select it: the pattern splits off the
      function and the argument, the function resolves to a count over the
      wildcard, and the term generated is still the verbatim field. */
  lemma CountStarExample()
    ensures MatchAggregation("COUNT(*)") == Some(("COUNT", "*"))
    ensures ResolveAggregate("COUNT", "*") == Some(Count(Star))
    ensures GenerateTerm("COUNT(*)") == Field("COUNT(*)")
  {
    var s := "COUNT(*)";
    assert forall k :: 0 <= k < |s| ==> s[k] != '\n';
    assert s[7] == ')' && s[6] != '(' && s[5] == '(';
    assert LastOpenParen(s, 1, 6) == Some(5);
    assert s[..5] == "COUNT" && s[6..7] == "*";
    assert Capitalize("COUNT") == "Count";
  }
}
