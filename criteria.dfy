/** The criterion algebra: boolean-expression nodes for a WHERE clause,
    built from an (operator, column, value) triple and combined with AND/OR
    (table.py, `operator_to_criterion` and the `&=` / `|=` combinations). */
module Criteria {
  import opened Wrappers
  import opened Values
  import opened RegexLikes

  datatype CmpOp = Eq | Ne | Gt | Ge | Lt | Le

  /** A WHERE-clause node. Columns are table fields, referred to by name. */
  datatype Criterion =
    | Cmp(op: CmpOp, column: string, value: Value)
    | IsIn(column: string, values: Value)
    | NotIn(column: string, values: Value)
    | Regex(like: RegexLike)
    | And(left: Criterion, right: Criterion)
    | Or(left: Criterion, right: Criterion)

  /** The operator strings `operator_to_criterion` recognises. */
  const Operators: set<string> :=
    {"==", "!=", ">", ">=", "<", "<=", "in", "isin", "notin", "nin", "between", "regex"}

  /** Python's `value[i]` for the two subscripts `between` takes: lists and
      strings are indexed (a string yields a one-character string), a
      dictionary lacks the integer key, anything else is not subscriptable. */
  function Index(v: Value, i: nat): (r: Result<Value, Error>)
    ensures v.ListV? ==> (r.Ok? <==> i < |v.items|)
    ensures v.ListV? && i < |v.items| ==> r.value == v.items[i]
  {
    match v
    case ListV(xs) => if i < |xs| then Ok(xs[i]) else Err(IndexError)
    case StrV(s) => if i < |s| then Ok(StrV([s[i]])) else Err(IndexError)
    case DictV(_) => Err(KeyError(IntV(i)))
    case _ => Err(TypeError)
  }

  /** `operator_to_criterion(operator, column, value)`: the node for a
      recognised operator, `None` for any other operator value; only
      `between` can raise, when its value has no elements 0 and 1. */
  function OperatorToCriterion(operator: Value, column: string, value: Value): (r: Result<Option<Criterion>, Error>)
    ensures r == Ok(None) <==> !(operator.StrV? && operator.s in Operators)
    ensures r.Err? ==> operator == StrV("between")
    ensures r.Ok? && r.value.Some? && operator != StrV("between") ==> ColumnOf(r.value.value) == column
  {
    if operator == StrV("==") then Ok(Some(Cmp(Eq, column, value)))
    else if operator == StrV("!=") then Ok(Some(Cmp(Ne, column, value)))
    else if operator == StrV(">") then Ok(Some(Cmp(Gt, column, value)))
    else if operator == StrV(">=") then Ok(Some(Cmp(Ge, column, value)))
    else if operator == StrV("<") then Ok(Some(Cmp(Lt, column, value)))
    else if operator == StrV("<=") then Ok(Some(Cmp(Le, column, value)))
    else if operator == StrV("isin") || operator == StrV("in") then Ok(Some(IsIn(column, value)))
    else if operator == StrV("notin") || operator == StrV("nin") then Ok(Some(NotIn(column, value)))
    else if operator == StrV("between") then
      var low :- Index(value, 0);
      var high :- Index(value, 1);
      Ok(Some(And(Cmp(Ge, column, low), Cmp(Le, column, high))))
    else if operator == StrV("regex") then Ok(Some(Regex(NewRegexLike(column, value, map[]))))
    else Ok(None)
  }

  /** The column a single-column node tests. */
  function ColumnOf(c: Criterion): string {
    match c
    case Cmp(_, col, _) => col
    case IsIn(col, _) => col
    case NotIn(col, _) => col
    case Regex(like) => like.column
    case And(l, _) => ColumnOf(l)
    case Or(l, _) => ColumnOf(l)
  }

  /** `between` on a list: the low bound (element 0) is tested with `>=` and
      comes first, the high bound (element 1) with `<=`; the bounds are not
      swapped, fewer than two elements raise IndexError and further elements
      are ignored. */
  lemma BetweenOnList(column: string, xs: seq<Value>)
    ensures |xs| < 2 ==> OperatorToCriterion(StrV("between"), column, ListV(xs)) == Err(IndexError)
    ensures |xs| >= 2 ==> OperatorToCriterion(StrV("between"), column, ListV(xs))
                          == Ok(Some(And(Cmp(Ge, column, xs[0]), Cmp(Le, column, xs[1]))))
    ensures |xs| >= 2 ==> OperatorToCriterion(StrV("between"), column, ListV(xs))
                          == OperatorToCriterion(StrV("between"), column, ListV(xs[..2]))
  {
  }

  /** Each comparison operator yields its comparison node on the given
      column and value, and `regex` a regex-like node storing both as given. */
  lemma OperatorNodes(column: string, value: Value)
    ensures OperatorToCriterion(StrV("=="), column, value) == Ok(Some(Cmp(Eq, column, value)))
    ensures OperatorToCriterion(StrV("!="), column, value) == Ok(Some(Cmp(Ne, column, value)))
    ensures OperatorToCriterion(StrV(">"), column, value) == Ok(Some(Cmp(Gt, column, value)))
    ensures OperatorToCriterion(StrV(">="), column, value) == Ok(Some(Cmp(Ge, column, value)))
    ensures OperatorToCriterion(StrV("<"), column, value) == Ok(Some(Cmp(Lt, column, value)))
    ensures OperatorToCriterion(StrV("<="), column, value) == Ok(Some(Cmp(Le, column, value)))
    ensures OperatorToCriterion(StrV("regex"), column, value) == Ok(Some(Regex(RegexLike(column, value, NoneV))))
  {
  }

  /** The two spellings of set membership, and of its negation, agree. */
  lemma MembershipSynonyms(column: string, value: Value)
    ensures OperatorToCriterion(StrV("in"), column, value) == OperatorToCriterion(StrV("isin"), column, value)
                                                              == Ok(Some(IsIn(column, value)))
    ensures OperatorToCriterion(StrV("nin"), column, value) == OperatorToCriterion(StrV("notin"), column, value)
                                                               == Ok(Some(NotIn(column, value)))
  {
  }

  /** `final_criterion &= criterion` (or `|=`), starting from nothing. */
  function Join(acc: Option<Criterion>, c: Criterion, byAnd: bool): (r: Criterion)
    ensures acc.None? ==> r == c
    ensures acc.Some? ==> (r.And? <==> byAnd) && (r.Or? <==> !byAnd) && r.left == acc.value && r.right == c
  {
    match acc
    case None => c
    case Some(a) => if byAnd then And(a, c) else Or(a, c)
  }

  /** The left fold of `cs` onto `acc`: each criterion is combined onto what
      came before it, in order. */
  function JoinAll(acc: Option<Criterion>, cs: seq<Criterion>, byAnd: bool): (r: Option<Criterion>)
    ensures r.None? <==> acc.None? && cs == []
    decreases |cs|
  {
    if cs == [] then acc
    else Some(Join(JoinAll(acc, cs[..|cs| - 1], byAnd), cs[|cs| - 1], byAnd))
  }

  /** Folding a concatenation is folding the second part onto the fold of the
      first. */
  lemma {:induction false} JoinAllAppend(acc: Option<Criterion>, a: seq<Criterion>, b: seq<Criterion>, byAnd: bool)
    ensures JoinAll(acc, a + b, byAnd) == JoinAll(JoinAll(acc, a, byAnd), b, byAnd)
    decreases |b|
  {
    if b == [] {
      assert a + b == a;
    } else {
      assert (a + b)[..|a + b| - 1] == a + b[..|b| - 1];
      JoinAllAppend(acc, a, b[..|b| - 1], byAnd);
    }
  }
}
