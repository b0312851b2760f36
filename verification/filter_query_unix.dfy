/** The filter condition compiler of `providers/sql/filter_query.go`: the revision without `Mode`,
    which tries the sole allowed operator before `select_multi`, and which coerces the values of a
    `datetime` filter to int64 unix timestamps before dispatching on the operator. */
module UnixFilterQuery {
  import opened Wrappers
  import opened Config
  import opened Providers
  import opened Sql
  import opened Text

  /** The explicit request operator, else the sole allowed operator, else `in` for
      `select_multi`, else `eq`. */
  function ResolveOperator(spec: FilterSpec, value: Filter): string
  {
    if value.operator != "" then value.operator
    else if |spec.operators| == 1 then spec.operators[0]
    else if spec.ftype == "select_multi" then "in"
    else "eq"
  }

  predicate IsJsonArray(hint: Option<DataType>)
  {
    hint == Some(JsonArray)
  }

  predicate Compilable(spec: FilterSpec, value: Filter)
  {
    |value.values| > 0 || !BindsFirstValue(ResolveOperator(spec, value))
  }

  /** `parseUnixValues` on one value: trimmed, then parsed as a base-10 int64. */
  function ParseTimestamp(v: string): Option<int>
  {
    ParseInt64(TrimSpace(v))
  }

  predicate IsTimestamp(v: string)
  {
    ParseTimestamp(v).Some?
  }

  function TimestampError(v: string): string
  {
    "invalid unix timestamp " + Quote(v)
  }

  /** The loop of `parseUnixValues`, for any per-value parser: every value parsed, in order,
      or the error naming the first value the parser rejects. */
  function ParseEach(values: seq<string>, parse: string -> Option<int>): (r: Result<seq<int>>)
    ensures r.Ok? ==> |r.value| == |values|
    ensures r.Ok? ==> forall i :: 0 <= i < |values| ==> parse(values[i]) == Some(r.value[i])
    ensures r.Err? ==> exists i :: 0 <= i < |values| && parse(values[i]).None?
  {
    if |values| == 0 then Ok([])
    else
      match parse(values[0])
      case None => Err(TimestampError(values[0]))
      case Some(t) =>
        match ParseEach(values[1..], parse)
        case Err(e) =>
          var i :| 0 <= i < |values[1..]| && parse(values[1..][i]).None?;
          assert values[1..][i] == values[i + 1];
          Err(e)
        case Ok(ts) =>
          assert forall i :: 1 <= i < |values| ==> values[i] == values[1..][i - 1];
          Ok([t] + ts)
  }

  /** The loop fails exactly on the first value the parser rejects, quoting it as given. */
  lemma {:induction false} ParseEachFailsOnFirst(values: seq<string>, parse: string -> Option<int>, i: nat)
    requires i < |values| && parse(values[i]).None?
    requires forall j :: 0 <= j < i ==> parse(values[j]).Some?
    ensures ParseEach(values, parse) == Err(TimestampError(values[i]))
  {
    if i > 0 {
      assert forall j :: 0 <= j < i - 1 ==> values[1..][j] == values[j + 1];
      ParseEachFailsOnFirst(values[1..], parse, i - 1);
    }
  }

  /** When the parser accepts every value, the loop returns exactly their parses. */
  lemma {:induction false} ParseEachAccepts(values: seq<string>, parse: string -> Option<int>, parsed: seq<int>)
    requires |parsed| == |values|
    requires forall k :: 0 <= k < |values| ==> parse(values[k]) == Some(parsed[k])
    ensures ParseEach(values, parse) == Ok(parsed)
  {
    if |values| > 0 {
      assert forall k :: 0 <= k < |values| - 1 ==> values[1..][k] == values[k + 1] && parsed[1..][k] == parsed[k + 1];
      ParseEachAccepts(values[1..], parse, parsed[1..]);
      assert parsed == [parsed[0]] + parsed[1..];
    }
  }

  /** The result of `parseUnixValues`. */
  function Timestamps(values: seq<string>): Result<seq<int>>
  {
    ParseEach(values, ParseTimestamp)
  }

  /** `parseUnixValues`: trims and parses each value, stopping at the first failure. */
  method ParseUnixValues(values: seq<string>) returns (r: Result<seq<int>>)
    ensures r == Timestamps(values)
  {
    var parsed: seq<int> := [];
    for i := 0 to |values|
      invariant |parsed| == i
      invariant forall k :: 0 <= k < i ==> ParseTimestamp(values[k]) == Some(parsed[k])
    {
      var number := ParseUnixValue(values[i]);
      if number.None? {
        ParseEachFailsOnFirst(values, ParseTimestamp, i);
        return Err(TimestampError(values[i]));
      }
      parsed := parsed + [number.value];
    }
    ParseEachAccepts(values, ParseTimestamp, parsed);
    return Ok(parsed);
  }

  /** One iteration of `parseUnixValues`: a blank value is refused before it reaches the parser. */
  method ParseUnixValue(value: string) returns (number: Option<int>)
    ensures number == ParseTimestamp(value)
  {
    var trimmed := TrimSpace(value);
    if trimmed == "" {
      return None;
    }
    number := ParseInt64(trimmed);
  }

  /** Integer arguments, one per timestamp, in order. */
  function Ints(ns: seq<int>): (vs: seq<Value>)
    ensures |vs| == |ns|
    ensures forall i :: 0 <= i < |ns| ==> vs[i] == VInt(ns[i])
  {
    seq(|ns|, i requires 0 <= i < |ns| => VInt(ns[i]))
  }

  /** The bound values `makeFilterCond` builds before dispatching: int64s for `datetime`
      filters, the strings unchanged otherwise. */
  function Coerced(ftype: string, values: seq<string>): (r: Result<seq<Value>>)
    ensures ftype != "datetime" ==> r == Ok(Texts(values))
    ensures ftype == "datetime" ==> (r.Ok? <==> forall i :: 0 <= i < |values| ==> IsTimestamp(values[i]))
    ensures r.Ok? ==> |r.value| == |values|
    ensures ftype == "datetime" && r.Ok? ==>
      forall i :: 0 <= i < |values| ==> r.value[i].VInt? && ParseTimestamp(values[i]) == Some(r.value[i].n)
  {
    if ftype == "datetime" then
      match Timestamps(values)
      case Err(e) => Err(e)
      case Ok(ns) => Ok(Ints(ns))
    else Ok(Texts(values))
  }

  /** The part of `makeFilterCond` that fills `vals`: timestamps for a `datetime` filter, the
      strings otherwise. */
  method CoerceValues(ftype: string, values: seq<string>) returns (r: Result<seq<Value>>)
    ensures r == Coerced(ftype, values)
  {
    if ftype == "datetime" {
      var ts := ParseUnixValues(values);
      if ts.Err? {
        return Err(ts.error);
      }
      var vals := IntValues(ts.value);
      return Ok(vals);
    }
    var vals := TextValues(values);
    return Ok(vals);
  }

  /** The loop appending each timestamp as an int64 argument. */
  method IntValues(ns: seq<int>) returns (vals: seq<Value>)
    ensures vals == Ints(ns)
  {
    vals := [];
    for i := 0 to |ns|
      invariant |vals| == i && forall k :: 0 <= k < i ==> vals[k] == VInt(ns[k])
    {
      vals := vals + [VInt(ns[i])];
    }
  }

  /** The loop appending each value as a string argument. */
  method TextValues(values: seq<string>) returns (vals: seq<Value>)
    ensures vals == Texts(values)
  {
    vals := [];
    for i := 0 to |values|
      invariant |vals| == i && forall k :: 0 <= k < i ==> vals[k] == VText(values[k])
    {
      vals := vals + [VText(values[i])];
    }
  }

  /** `makeContainsFilterCond` over the coerced values: the first value printed inside `%...%`. */
  function ContainsFilterCond(column: string, vals: seq<Value>, driver: string, hint: Option<DataType>): (p: Predicate)
    requires |vals| > 0
    ensures p.column == column
    ensures Render(p).args == [VText("%" + Sprint(vals[0]) + "%")]
    ensures p.JsonExistsLike? <==> IsJsonArray(hint) && driver == "sqlite3"
    ensures !p.JsonExistsLike? ==> p.Like? && (p.op == "ILIKE" <==> driver == "postgres")
  {
    var pattern := VText("%" + Sprint(vals[0]) + "%");
    if IsJsonArray(hint) && driver == "sqlite3" then JsonExistsLike(column, pattern)
    else Like(column, LikeOperator(driver), pattern)
  }

  function InFilterCond(column: string, vals: seq<Value>, driver: string, hint: Option<DataType>): (p: Predicate)
    ensures p.column == column
    ensures Render(p).args == vals
    ensures p.JsonExistsIn? <==> IsJsonArray(hint) && driver == "sqlite3"
    ensures !p.JsonExistsIn? ==> p.In?
  {
    if IsJsonArray(hint) && driver == "sqlite3" then JsonExistsIn(column, vals)
    else In(column, vals)
  }

  /** `makeInFilterCond`: one placeholder per coerced value for the SQLite JSON form. */
  method MakeInFilterCond(column: string, vals: seq<Value>, driver: string, hint: Option<DataType>)
    returns (p: Predicate)
    ensures p == InFilterCond(column, vals, driver, hint)
  {
    if IsJsonArray(hint) {
      var parts: seq<string> := [];
      for i := 0 to |vals|
        invariant |parts| == i && forall k :: 0 <= k < i ==> parts[k] == "?"
      {
        parts := parts + ["?"];
      }
      if driver == "sqlite3" {
        JoinMarks(parts);
        assert Join(parts, ",") == Placeholders(|vals|);
        return JsonExistsIn(column, vals);
      }
    }
    return In(column, vals);
  }

  /** The `switch` of `makeFilterCond`, on already coerced values. */
  function Dispatch(op: string, column: string, name: string, vals: seq<Value>, driver: string, hint: Option<DataType>): (r: Result<Predicate>)
    requires |vals| > 0 || !BindsFirstValue(op)
    ensures r.Ok? ==> r.value.column == column
    ensures r.Err? <==> !IsKnownOperator(op) || (op == "between" && |vals| < 2)
  {
    if op == "eq" then Ok(Eq(column, vals[0]))
    else if op == "gt" then Ok(Gt(column, vals[0]))
    else if op == "lt" then Ok(Lt(column, vals[0]))
    else if op == "after" then Ok(Gt(column, vals[0]))
    else if op == "before" then Ok(Lt(column, vals[0]))
    else if op == "contains" then Ok(ContainsFilterCond(column, vals, driver, hint))
    else if op == "between" then
      if |vals| < 2 then Err(TooFewValuesError(op))
      else Ok(Between(column, vals[0], vals[1]))
    else if op == "in" then Ok(InFilterCond(column, vals, driver, hint))
    else Err(UnknownOperatorError(name, op))
  }

  /** The result of `makeFilterCond`: coercion first, then dispatch. */
  function FilterCond(spec: FilterSpec, value: Filter, driver: string, hint: Option<DataType>): (r: Result<Predicate>)
    requires Compilable(spec, value)
  {
    match Coerced(spec.ftype, value.values)
    case Err(e) => Err(e)
    case Ok(vals) => Dispatch(ResolveOperator(spec, value), spec.target, value.name, vals, driver, hint)
  }

  /** `makeFilterCond`: resolves the operator, fills the bound values, then dispatches. */
  method MakeFilterCond(spec: FilterSpec, value: Filter, driver: string, hint: Option<DataType>)
    returns (r: Result<Predicate>)
    requires Compilable(spec, value)
    ensures r == FilterCond(spec, value, driver, hint)
  {
    var operator := value.operator;
    if operator == "" {
      if |spec.operators| == 1 {
        operator := spec.operators[0];
      } else if spec.ftype == "select_multi" {
        operator := "in";
      } else {
        operator := "eq";
      }
    }
    var coerced := CoerceValues(spec.ftype, value.values);
    if coerced.Err? {
      return Err(coerced.error);
    }
    var vals := coerced.value;
    var column := spec.target;
    match operator
    case "eq" => return Ok(Eq(column, vals[0]));
    case "gt" => return Ok(Gt(column, vals[0]));
    case "lt" => return Ok(Lt(column, vals[0]));
    case "after" => return Ok(Gt(column, vals[0]));
    case "before" => return Ok(Lt(column, vals[0]));
    case "contains" => return Ok(ContainsFilterCond(column, vals, driver, hint));
    case "between" =>
      if |vals| < 2 {
        return Err(TooFewValuesError(operator));
      }
      return Ok(Between(column, vals[0], vals[1]));
    case "in" =>
      var p := MakeInFilterCond(column, vals, driver, hint);
      return Ok(p);
    case _ =>
      return Err(UnknownOperatorError(value.name, operator));
  }

  // ---------------------------------------------------------------- properties

  /** `Mode` is never consulted: two specs that differ only in it compile alike. */
  lemma ModeIgnored(spec: FilterSpec, mode: string, value: Filter, driver: string, hint: Option<DataType>)
    requires Compilable(spec, value)
    ensures Compilable(spec.(mode := mode), value)
    ensures FilterCond(spec, value, driver, hint) == FilterCond(spec.(mode := mode), value, driver, hint)
  {
    assert ResolveOperator(spec, value) == ResolveOperator(spec.(mode := mode), value);
  }

  /** With no request operator, the sole allowed operator beats `select_multi`. */
  lemma SoleOperatorBeforeSelectMulti(spec: FilterSpec, value: Filter)
    requires value.operator == ""
    ensures |spec.operators| == 1 ==> ResolveOperator(spec, value) == spec.operators[0]
    ensures |spec.operators| != 1 && spec.ftype == "select_multi" ==> ResolveOperator(spec, value) == "in"
    ensures |spec.operators| != 1 && spec.ftype != "select_multi" ==> ResolveOperator(spec, value) == "eq"
  {
  }

  /** A `datetime` filter whose values are all timestamps binds them as int64s, in order,
      whatever the operator: the comparisons bind the first, `between` the first two, `in` all
      of them and `contains` prints the first inside `%...%`. */
  lemma DatetimeValuesBoundAsInts(spec: FilterSpec, value: Filter, driver: string, hint: Option<DataType>)
    requires spec.ftype == "datetime" && Compilable(spec, value)
    requires forall i :: 0 <= i < |value.values| ==> IsTimestamp(value.values[i])
    ensures var op := ResolveOperator(spec, value);
      var ts := Ints(ParsedTimestamps(value.values));
      var r := FilterCond(spec, value, driver, hint);
      && (op == "eq" ==> r == Ok(Eq(spec.target, ts[0])))
      && (op == "gt" || op == "after" ==> r == Ok(Gt(spec.target, ts[0])))
      && (op == "lt" || op == "before" ==> r == Ok(Lt(spec.target, ts[0])))
      && (op == "between" ==>
            r == if |ts| < 2 then Err(TooFewValuesError(op)) else Ok(Between(spec.target, ts[0], ts[1])))
      && (op == "in" ==> r == Ok(InFilterCond(spec.target, ts, driver, hint)))
      && (op == "contains" ==> r == Ok(ContainsFilterCond(spec.target, ts, driver, hint)))
  {
    var parsed := ParsedTimestamps(value.values);
    ParseEachAccepts(value.values, ParseTimestamp, parsed);
    assert Coerced(spec.ftype, value.values) == Ok(Ints(parsed));
  }

  /** The timestamps of values that all parse, in order. */
  function ParsedTimestamps(values: seq<string>): (ns: seq<int>)
    requires forall i :: 0 <= i < |values| ==> IsTimestamp(values[i])
    ensures |ns| == |values|
    ensures forall i :: 0 <= i < |values| ==> ParseTimestamp(values[i]) == Some(ns[i])
  {
    seq(|values|, i requires 0 <= i < |values| && IsTimestamp(values[i]) => ParseTimestamp(values[i]).value)
  }

  /** A value that is not a timestamp rejects a `datetime` filter before the operator is looked
      at: even an unknown operator reports the timestamp, quoted as given. */
  lemma CoercionBeforeDispatch(spec: FilterSpec, value: Filter, driver: string, hint: Option<DataType>, i: nat)
    requires spec.ftype == "datetime" && Compilable(spec, value)
    requires i < |value.values| && !IsTimestamp(value.values[i])
    requires forall j :: 0 <= j < i ==> IsTimestamp(value.values[j])
    ensures FilterCond(spec, value, driver, hint) == Err(TimestampError(value.values[i]))
  {
    ParseEachFailsOnFirst(value.values, ParseTimestamp, i);
  }

  /** A blank value is refused and quoted with Go's escapes: a lone no-break space, which
      `strings.TrimSpace` removes, is reported as `"\u00a0"`. */
  lemma NoBreakSpaceIsNotATimestamp()
    ensures !IsTimestamp("\U{00A0}")
    ensures TimestampError("\U{00A0}") == "invalid unix timestamp \"\\u00a0\""
  {
    NoBreakSpaceTrimsAway();
    NoBreakSpaceError();
  }

  lemma NoBreakSpaceTrimsAway()
    ensures TrimSpace("\U{00A0}") == ""
  {
    assert IsGoSpace('\U{00A0}');
    assert "\U{00A0}"[1..] == "";
  }

  lemma NoBreakSpaceError()
    ensures TimestampError("\U{00A0}") == "invalid unix timestamp \"\\u00a0\""
  {
    QuoteNoBreakSpace();
  }

  /** Other filters bind their values unchanged, as strings, in order. */
  lemma NonDatetimeValuesPassThrough(spec: FilterSpec, value: Filter, driver: string, hint: Option<DataType>)
    requires spec.ftype != "datetime"
    requires ResolveOperator(spec, value) == "in"
    ensures FilterCond(spec, value, driver, hint) == Ok(InFilterCond(spec.target, Texts(value.values), driver, hint))
  {
  }

  /** `between` needs two values and binds the first two coerced values in order. */
  lemma BetweenBindsTwoValues(spec: FilterSpec, value: Filter, driver: string, hint: Option<DataType>)
    requires ResolveOperator(spec, value) == "between"
    requires Coerced(spec.ftype, value.values).Ok?
    ensures var vals := Coerced(spec.ftype, value.values).value;
      if |vals| < 2 then
        FilterCond(spec, value, driver, hint) == Err(TooFewValuesError("between"))
      else
        FilterCond(spec, value, driver, hint) == Ok(Between(spec.target, vals[0], vals[1]))
  {
  }

  /** `contains` on a JSON-array column under SQLite matches the column's elements. */
  lemma JsonContainsOnSqlite(spec: FilterSpec, value: Filter)
    requires ResolveOperator(spec, value) == "contains" && spec.ftype != "datetime"
    requires |value.values| > 0
    ensures FilterCond(spec, value, "sqlite3", Some(JsonArray))
      == Ok(JsonExistsLike(spec.target, VText("%" + value.values[0] + "%")))
  {
  }

  lemma UnknownOperatorRejected(spec: FilterSpec, value: Filter, driver: string, hint: Option<DataType>)
    requires Compilable(spec, value) && Coerced(spec.ftype, value.values).Ok?
    requires !IsKnownOperator(ResolveOperator(spec, value))
    ensures FilterCond(spec, value, driver, hint)
      == Err(UnknownOperatorError(value.name, ResolveOperator(spec, value)))
  {
  }
}
