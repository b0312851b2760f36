/** The filter condition compiler of `backend/internal/providers/sql/filter_query.go`: the revision
    whose operator resolution consults the filter's `Mode` and which binds every value as a string. */
module ModeFilterQuery {
  import opened Wrappers
  import opened Config
  import opened Providers
  import opened Sql
  import opened Text

  /** The operator a filter is compiled with: the explicit request operator, else the spec's
      `Mode`, else `in` for `select_multi`, else the sole allowed operator, else `eq`. */
  function ResolveOperator(spec: FilterSpec, value: Filter): string
  {
    if value.operator != "" then value.operator
    else if spec.mode != "" then spec.mode
    else if spec.ftype == "select_multi" then "in"
    else if |spec.operators| == 1 then spec.operators[0]
    else "eq"
  }

  predicate IsJsonArray(hint: Option<DataType>)
  {
    hint == Some(JsonArray)
  }

  /** Whether the compiler may index the first value: the Go code panics otherwise. */
  predicate Compilable(spec: FilterSpec, value: Filter)
  {
    |value.values| > 0 || !BindsFirstValue(ResolveOperator(spec, value))
  }

  /** `makeContainsFilterCond`: a `%v%` pattern over the column, or over its JSON elements on
      SQLite when the column is typed as a JSON array. */
  function ContainsFilterCond(spec: FilterSpec, value: Filter, driver: string, hint: Option<DataType>): (p: Predicate)
    requires |value.values| > 0
    ensures p.column == spec.target
    ensures Render(p).args == [VText("%" + value.values[0] + "%")]
    ensures p.JsonExistsLike? <==> IsJsonArray(hint) && driver == "sqlite3"
    ensures !p.JsonExistsLike? ==> p.Like? && (p.op == "ILIKE" <==> driver == "postgres")
  {
    var pattern := VText("%" + value.values[0] + "%");
    if IsJsonArray(hint) && driver == "sqlite3" then JsonExistsLike(spec.target, pattern)
    else Like(spec.target, LikeOperator(driver), pattern)
  }

  /** The predicate `makeInFilterCond` returns. */
  function InFilterCond(spec: FilterSpec, values: seq<string>, driver: string, hint: Option<DataType>): (p: Predicate)
    ensures p.column == spec.target
    ensures Render(p).args == Texts(values)
    ensures p.JsonExistsIn? <==> IsJsonArray(hint) && driver == "sqlite3"
    ensures !p.JsonExistsIn? ==> p.In?
  {
    if IsJsonArray(hint) && driver == "sqlite3" then JsonExistsIn(spec.target, Texts(values))
    else In(spec.target, Texts(values))
  }

  /** `makeInFilterCond`: for a JSON-array column it collects one placeholder and one argument per
      value; only SQLite uses them, every other case is a plain `IN` over all values. */
  method MakeInFilterCond(spec: FilterSpec, value: Filter, driver: string, hint: Option<DataType>)
    returns (p: Predicate)
    ensures p == InFilterCond(spec, value.values, driver, hint)
  {
    if IsJsonArray(hint) {
      var parts: seq<string> := [];
      var args: seq<Value> := [];
      for i := 0 to |value.values|
        invariant |parts| == i && forall k :: 0 <= k < i ==> parts[k] == "?"
        invariant args == Texts(value.values[..i])
      {
        parts := parts + ["?"];
        args := args + [VText(value.values[i])];
      }
      if driver == "sqlite3" {
        assert value.values[..|value.values|] == value.values;
        JoinMarks(parts);
        assert Join(parts, ",") == Placeholders(|args|);
        return JsonExistsIn(spec.target, args);
      }
    }
    return In(spec.target, Texts(value.values));
  }

  /** The result of `makeFilterCond`. */
  function FilterCond(spec: FilterSpec, value: Filter, driver: string, hint: Option<DataType>): (r: Result<Predicate>)
    requires Compilable(spec, value)
    ensures r.Ok? ==> r.value.column == spec.target
    ensures r.Err? <==>
      var op := ResolveOperator(spec, value);
      !IsKnownOperator(op) || (op == "between" && |value.values| < 2)
  {
    var op := ResolveOperator(spec, value);
    var column := spec.target;
    if op == "eq" then Ok(Eq(column, VText(value.values[0])))
    else if op == "gt" then Ok(Gt(column, VText(value.values[0])))
    else if op == "lt" then Ok(Lt(column, VText(value.values[0])))
    else if op == "after" then Ok(Gt(column, VText(value.values[0])))
    else if op == "before" then Ok(Lt(column, VText(value.values[0])))
    else if op == "contains" then Ok(ContainsFilterCond(spec, value, driver, hint))
    else if op == "between" then
      if |value.values| < 2 then Err(TooFewValuesError(op))
      else Ok(Between(column, VText(value.values[0]), VText(value.values[1])))
    else if op == "in" then Ok(InFilterCond(spec, value.values, driver, hint))
    else Err(UnknownOperatorError(value.name, op))
  }

  /** `makeFilterCond`: resolve the operator, then dispatch over the closed operator set. */
  method MakeFilterCond(spec: FilterSpec, value: Filter, driver: string, hint: Option<DataType>)
    returns (r: Result<Predicate>)
    requires Compilable(spec, value)
    ensures r == FilterCond(spec, value, driver, hint)
  {
    var operator := value.operator;
    if operator == "" {
      if spec.mode != "" {
        operator := spec.mode;
      } else if spec.ftype == "select_multi" {
        operator := "in";
      } else if |spec.operators| == 1 {
        operator := spec.operators[0];
      } else {
        operator := "eq";
      }
    }
    var column := spec.target;
    match operator
    case "eq" => return Ok(Eq(column, VText(value.values[0])));
    case "gt" => return Ok(Gt(column, VText(value.values[0])));
    case "lt" => return Ok(Lt(column, VText(value.values[0])));
    case "after" => return Ok(Gt(column, VText(value.values[0])));
    case "before" => return Ok(Lt(column, VText(value.values[0])));
    case "contains" => return Ok(ContainsFilterCond(spec, value, driver, hint));
    case "between" =>
      if |value.values| < 2 {
        return Err(TooFewValuesError(operator));
      }
      return Ok(Between(column, VText(value.values[0]), VText(value.values[1])));
    case "in" =>
      var p := MakeInFilterCond(spec, value, driver, hint);
      return Ok(p);
    case _ =>
      return Err(UnknownOperatorError(value.name, operator));
  }

  // ---------------------------------------------------------------- properties

  /** A non-empty request operator is used whatever the spec's mode, type and allowed operators. */
  lemma ExplicitOperatorWins(spec: FilterSpec, other: FilterSpec, value: Filter, driver: string, hint: Option<DataType>)
    requires value.operator != ""
    requires other.target == spec.target
    requires Compilable(spec, value)
    ensures Compilable(other, value)
    ensures FilterCond(spec, value, driver, hint) == FilterCond(other, value, driver, hint)
  {
  }

  /** With no request operator: `Mode` first, then `in` for `select_multi`, then the sole allowed
      operator, then `eq`. */
  lemma ResolutionOrder(spec: FilterSpec, value: Filter)
    requires value.operator == ""
    ensures spec.mode != "" ==> ResolveOperator(spec, value) == spec.mode
    ensures spec.mode == "" && spec.ftype == "select_multi" ==> ResolveOperator(spec, value) == "in"
    ensures spec.mode == "" && spec.ftype != "select_multi" && |spec.operators| == 1
      ==> ResolveOperator(spec, value) == spec.operators[0]
    ensures spec.mode == "" && spec.ftype != "select_multi" && |spec.operators| != 1
      ==> ResolveOperator(spec, value) == "eq"
  {
  }

  /** The comparison operators bind exactly the first value; `after` is `gt` and `before` is `lt`. */
  lemma ComparisonsBindFirstValue(spec: FilterSpec, value: Filter, driver: string, hint: Option<DataType>)
    requires |value.values| > 0
    ensures var op := ResolveOperator(spec, value);
      op in {"eq", "gt", "lt", "after", "before"} ==>
        FilterCond(spec, value, driver, hint).Ok? &&
        Render(FilterCond(spec, value, driver, hint).value).args == [VText(value.values[0])]
    ensures ResolveOperator(spec, value) == "after" ==>
      FilterCond(spec, value, driver, hint) == Ok(Gt(spec.target, VText(value.values[0])))
    ensures ResolveOperator(spec, value) == "before" ==>
      FilterCond(spec, value, driver, hint) == Ok(Lt(spec.target, VText(value.values[0])))
  {
  }

  /** `between` needs two values and binds the first two, in order, ignoring any others. */
  lemma BetweenBindsTwoValues(spec: FilterSpec, value: Filter, driver: string, hint: Option<DataType>)
    requires ResolveOperator(spec, value) == "between"
    ensures |value.values| < 2 ==>
      FilterCond(spec, value, driver, hint) == Err(TooFewValuesError("between"))
    ensures |value.values| >= 2 ==>
      FilterCond(spec, value, driver, hint)
        == Ok(Between(spec.target, VText(value.values[0]), VText(value.values[1])))
        == FilterCond(spec, value.(values := value.values[..2]), driver, hint)
  {
    if |value.values| >= 2 {
      var shorter := value.(values := value.values[..2]);
      assert ResolveOperator(spec, shorter) == "between";
    }
  }

  /** `in` on a JSON-array column under SQLite tests the column's elements, one placeholder per value. */
  lemma JsonInOnSqlite(spec: FilterSpec, value: Filter)
    requires ResolveOperator(spec, value) == "in"
    ensures var r := FilterCond(spec, value, "sqlite3", Some(JsonArray));
      r.Ok? && Render(r.value) == Fragment(
        "EXISTS(select 1 from json_each(" + spec.target + ") where value in (" + Placeholders(|value.values|) + "))",
        Texts(value.values))
  {
  }

  /** Without the JSON-array hint, or on a driver other than SQLite, `in` is a plain column `IN`
      over all values in order. */
  lemma InDegradesToPlainIn(spec: FilterSpec, value: Filter, driver: string, hint: Option<DataType>)
    requires ResolveOperator(spec, value) == "in"
    requires !IsJsonArray(hint) || driver != "sqlite3"
    ensures FilterCond(spec, value, driver, hint) == Ok(In(spec.target, Texts(value.values)))
  {
  }

  /** Any other token is rejected, naming the filter and the operator. */
  lemma UnknownOperatorRejected(spec: FilterSpec, value: Filter, driver: string, hint: Option<DataType>)
    requires !IsKnownOperator(ResolveOperator(spec, value))
    ensures FilterCond(spec, value, driver, hint)
      == Err(UnknownOperatorError(value.name, ResolveOperator(spec, value)))
  {
  }
}
