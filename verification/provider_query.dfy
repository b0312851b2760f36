/** The query planner of the SQL provider (`backend/internal/providers/sql/provider.go`): it
    splits a configured query at its top-level ORDER BY, compiles the request filters with the
    filter compiler, adds a keyset-pagination predicate and composes the final
    `SELECT * FROM (<base>) AS src ...` statement with `LIMIT n+1` overfetch. */
module ProviderQuery {
  import opened Wrappers
  import opened Text
  import opened Config
  import opened Providers
  import opened Sql
  import ModeFilterQuery

  // ---------------------------------------------------------------- splitByOrderBy

  /** The parenthesis depth after reading `c` at depth `depth`; a `)` at depth 0 stays at 0. */
  function Step(depth: nat, c: char): nat
  {
    if c == '(' then depth + 1
    else if c == ')' then (if depth > 0 then depth - 1 else 0)
    else depth
  }

  /** The depth the scanner holds before index `i`. */
  function DepthBefore(s: string, i: nat): nat
    requires i <= |s|
  {
    if i == 0 then 0 else Step(DepthBefore(s, i - 1), s[i - 1])
  }

  /** A ` order by ` (already lower-cased) starting at `i`, outside every parenthesis. */
  predicate TopLevelOrderByAt(s: string, i: nat)
    requires i < |s|
  {
    DepthBefore(s, i) == 0 && " order by " <= s[i..]
  }

  /** The last top-level ` order by ` starting before `n`, or -1. */
  function LastOrderBy(s: string, n: nat): (k: int)
    requires n <= |s|
    ensures -1 <= k < n
    ensures k >= 0 ==> TopLevelOrderByAt(s, k)
    ensures forall j :: k < j < n ==> !TopLevelOrderByAt(s, j)
  {
    if n == 0 then -1
    else if TopLevelOrderByAt(s, n - 1) then n - 1
    else LastOrderBy(s, n - 1)
  }

  /** What `splitByOrderBy` returns: the query unchanged with no ORDER BY when it has no
      top-level ` order by ` (in any letter case), else the trimmed text before the last one and
      the trimmed text from its `order` on. */
  function SplitOrderBy(query: string): (string, string)
  {
    var k := LastOrderBy(ToLower(query), |query|);
    if k < 0 then (query, "") else (TrimSpace(query[..k]), TrimSpace(query[k + 1..]))
  }

  /** `splitByOrderBy`: one pass over the lower-cased query, counting parentheses and
      remembering the position after the last top-level ` order by `. */
  method SplitByOrderBy(query: string) returns (base: string, orderBy: string)
    ensures (base, orderBy) == SplitOrderBy(query)
  {
    var lower := ToLower(query);
    var depth: nat := 0;
    var orderIdx := -1;
    for i := 0 to |lower|
      invariant depth == DepthBefore(lower, i)
      invariant orderIdx == if LastOrderBy(lower, i) < 0 then -1 else LastOrderBy(lower, i) + 1
    {
      LastOrderByStep(lower, i);
      var c := lower[i];
      if c == '(' {
        NoOrderByAt(lower, i);
        depth := depth + 1;
      } else if c == ')' {
        NoOrderByAt(lower, i);
        if depth > 0 {
          depth := depth - 1;
        }
      } else {
        if depth != 0 {
          continue;
        }
        if " order by " <= lower[i..] {
          orderIdx := i + 1;
        }
      }
    }
    if orderIdx == -1 {
      return query, "";
    }
    return TrimSpace(query[..orderIdx - 1]), TrimSpace(query[orderIdx..]);
  }

  lemma LastOrderByStep(s: string, i: nat)
    requires i < |s|
    ensures LastOrderBy(s, i + 1) == if TopLevelOrderByAt(s, i) then i else LastOrderBy(s, i)
  {
  }

  /** No ` order by ` starts at a character other than a space. */
  lemma NoOrderByAt(s: string, i: nat)
    requires i < |s| && s[i] != ' '
    ensures !(" order by " <= s[i..])
  {
    assert s[i..][0] == s[i];
  }

  /** Without a top-level ` order by ` the query comes back whole. */
  lemma NoTopLevelOrderBy(query: string)
    requires forall i :: 0 <= i < |query| ==> !TopLevelOrderByAt(ToLower(query), i)
    ensures SplitOrderBy(query) == (query, "")
  {
  }

  /** With one, the query is cut at the space before the last top-level ` order by `: the
      halves are the trimmed text on either side of that space, and every later ` order by `
      sits inside parentheses. */
  lemma SplitAtLastTopLevelOrderBy(query: string, k: nat)
    requires k < |query| && TopLevelOrderByAt(ToLower(query), k)
    requires forall j :: k < j < |query| ==> !TopLevelOrderByAt(ToLower(query), j)
    ensures query[k] == ' '
    ensures SplitOrderBy(query) == (TrimSpace(query[..k]), TrimSpace(query[k + 1..]))
  {
    var lower := ToLower(query);
    assert lower[k] == " order by "[0];
    LastOrderByIs(lower, |query|, k);
  }

  /** The last top-level occurrence is the one after which there are none. */
  lemma {:induction false} LastOrderByIs(s: string, n: nat, k: nat)
    requires k < n <= |s| && TopLevelOrderByAt(s, k)
    requires forall j :: k < j < n ==> !TopLevelOrderByAt(s, j)
    ensures LastOrderBy(s, n) == k
  {
    if n - 1 > k {
      LastOrderByIs(s, n - 1, k);
    }
  }

  /** A `)` read at depth 0 leaves the depth at 0. */
  lemma UnmatchedCloseKeepsDepthZero(s: string, i: nat)
    requires i < |s| && s[i] == ')' && DepthBefore(s, i) == 0
    ensures DepthBefore(s, i + 1) == 0
  {
  }

  // ---------------------------------------------------------------- trimOrderByPrefix

  /** `trimOrderByPrefix`: the trimmed text, without a leading `order by ` in any letter case. */
  function TrimOrderByPrefix(orderBy: string): (r: string)
  {
    var trimmed := TrimSpace(orderBy);
    if "order by " <= ToLower(trimmed) then TrimSpace(trimmed[9..]) else trimmed
  }

  /** The keyword in any letter case is stripped, leaving the ordering terms. */
  lemma TrimOrderByPrefixStrips(keyword: string, terms: string)
    requires ToLower(keyword) == "order by "
    requires |terms| > 0 && !IsGoSpace(terms[0]) && !IsGoSpace(terms[|terms| - 1])
    ensures TrimOrderByPrefix(keyword + terms) == terms
  {
    var s := keyword + terms;
    assert s[0] == keyword[0] && ToLower(keyword)[0] == 'o';
    assert s[|s| - 1] == terms[|terms| - 1];
    TrimOfTrimmed(s, IsGoSpace);
    TrimOfTrimmed(terms, IsGoSpace);
    assert ToLower(s)[..9] == ToLower(keyword);
    assert s[9..] == terms;
  }

  /** Text that does not start with the keyword only loses its surrounding whitespace. */
  lemma TrimOrderByPrefixKeeps(orderBy: string)
    requires !("order by " <= ToLower(TrimSpace(orderBy)))
    ensures TrimOrderByPrefix(orderBy) == TrimSpace(orderBy)
  {
  }

  // ---------------------------------------------------------------- buildPagination

  /** `desc` after trimming and lower-casing; every other order means ascending. */
  predicate IsDescending(order: string)
  {
    ToLower(TrimSpace(order)) == "desc"
  }

  /** `buildPagination`: the keyset predicate after the cursor and the ordering that goes with it. */
  function BuildPagination(pagination: Option<PaginationSpec>, cursor: string): (Option<Predicate>, string)
  {
    if pagination.None? || pagination.value.column == "" || cursor == "" then (None, "")
    else
      var column := pagination.value.column;
      if IsDescending(pagination.value.order) then (Some(Lt(column, VText(cursor))), column + " DESC")
      else (Some(Gt(column, VText(cursor))), column + " ASC")
  }

  /** Paging is strict keyset paging: `col < ?` descending and `col > ?` otherwise, the cursor
      the one argument, the ordering in the same direction; nothing at all without a spec,
      a column or a cursor. */
  lemma PaginationIsStrictKeyset(pagination: Option<PaginationSpec>, cursor: string)
    ensures var (cond, order) := BuildPagination(pagination, cursor);
      (cond.None? <==> pagination.None? || pagination.value.column == "" || cursor == "") &&
      (cond.None? ==> order == "") &&
      (cond.Some? ==>
        var column := pagination.value.column;
        Render(cond.value).args == [VText(cursor)] &&
        (IsDescending(pagination.value.order) ==>
          Render(cond.value).sql == column + " < ?" && order == column + " DESC") &&
        (!IsDescending(pagination.value.order) ==>
          Render(cond.value).sql == column + " > ?" && order == column + " ASC"))
  {
  }

  /** The descending page of the pagination test: `created_at < ?` on the cursor, newest first. */
  lemma DescendingPageExample()
    ensures BuildPagination(Some(PaginationSpec("created_at", "desc")), "2024-02-01")
      == (Some(Lt("created_at", VText("2024-02-01"))), "created_at DESC")
  {
    DescIsDescending();
    assert "created_at" + " DESC" == "created_at DESC";
  }

  lemma DescIsDescending()
    ensures IsDescending("desc")
  {
    TrimOfTrimmed("desc", IsGoSpace);
    assert ToLower("desc") == "desc";
  }

  /** An unknown order word such as `invalid` is not `desc`, so by `PaginationIsStrictKeyset`
      it pages ascending with `col > ?` and `col ASC`. */
  lemma InvalidIsAscending()
    ensures !IsDescending("invalid")
  {
    TrimOfTrimmed("invalid", IsGoSpace);
    assert |ToLower("invalid")| == 7;
  }

  /** `paginationColumn`: the configured column, `""` without a pagination spec. */
  function PaginationColumn(pagination: Option<PaginationSpec>): string
  {
    if pagination.None? then "" else pagination.value.column
  }

  // ---------------------------------------------------------------- buildFilterConditions

  /** A request filter the loop compiles: it names a spec with a target and carries values. */
  predicate Applicable(index: map<string, FilterSpec>, f: Filter)
  {
    f.name in index && index[f.name].target != "" && |f.values| > 0
  }

  /** The type hint of a target column (`Types[spec.Target]`, when present). */
  function TypeHint(types: map<string, DataType>, target: string): Option<DataType>
  {
    if target in types then Some(types[target]) else None
  }

  /** One applicable filter compiled against its spec. */
  function Compile(index: map<string, FilterSpec>, f: Filter, driver: string, types: map<string, DataType>): Result<Predicate>
    requires Applicable(index, f)
  {
    var spec := index[f.name];
    ModeFilterQuery.FilterCond(spec, f, driver, TypeHint(types, spec.target))
  }

  /** The loop over request filters, read from the end: skipped filters add nothing and the
      first compile error ends it. */
  function Conditions(index: map<string, FilterSpec>, filters: seq<Filter>, driver: string, types: map<string, DataType>): (r: Result<seq<Predicate>>)
    ensures r.Ok? ==> |r.value| <= |filters|
  {
    if |filters| == 0 then Ok([])
    else
      match Conditions(index, filters[..|filters| - 1], driver, types)
      case Err(e) => Err(e)
      case Ok(conds) =>
        var f := filters[|filters| - 1];
        if !Applicable(index, f) then Ok(conds)
        else
          match Compile(index, f, driver, types)
          case Err(e) => Err(e)
          case Ok(p) => Ok(conds + [p])
  }

  /** What `buildFilterConditions` returns: nothing without a table, else the conditions. */
  function FilterConditions(widget: Widget, filters: seq<Filter>, driver: string): Result<seq<Predicate>>
    requires widget.provider.sql.Some?
  {
    if widget.table.None? then Ok([])
    else Conditions(FilterIndex(widget.table.value.filters), filters, driver, widget.provider.sql.value.types)
  }

  /** An error in a prefix of the request filters is the result for all of them. */
  lemma {:induction false} ConditionsErrorSticks(index: map<string, FilterSpec>, filters: seq<Filter>, n: nat, driver: string, types: map<string, DataType>)
    requires n <= |filters| && Conditions(index, filters[..n], driver, types).Err?
    ensures Conditions(index, filters, driver, types) == Conditions(index, filters[..n], driver, types)
    decreases |filters| - n
  {
    if n < |filters| {
      assert filters[..n + 1][..n] == filters[..n];
      ConditionsErrorSticks(index, filters, n + 1, driver, types);
    } else {
      assert filters[..n] == filters;
    }
  }

  /** `buildFilterConditions`: indexes the specs by id in one loop, then compiles the request
      filters in order in another, skipping the inapplicable ones. */
  method BuildFilterConditions(widget: Widget, filters: seq<Filter>, driver: string) returns (r: Result<seq<Predicate>>)
    requires widget.provider.sql.Some?
    ensures r == FilterConditions(widget, filters, driver)
  {
    if widget.table.None? {
      return Ok([]);
    }
    var specs := widget.table.value.filters;
    var types := widget.provider.sql.value.types;
    var index: map<string, FilterSpec> := map[];
    for i := 0 to |specs|
      invariant index == FilterIndex(specs[..i])
    {
      assert specs[..i + 1][..i] == specs[..i];
      index := index[specs[i].id := specs[i]];
    }
    assert specs[..|specs|] == specs;
    var conds: seq<Predicate> := [];
    for i := 0 to |filters|
      invariant Conditions(index, filters[..i], driver, types) == Ok(conds)
    {
      assert filters[..i + 1][..i] == filters[..i];
      var filter := filters[i];
      if !(filter.name in index) || index[filter.name].target == "" {
        continue;
      }
      if |filter.values| == 0 {
        continue;
      }
      var spec := index[filter.name];
      var targetType := TypeHint(types, spec.target);
      var cond := ModeFilterQuery.MakeFilterCond(spec, filter, driver, targetType);
      if cond.Err? {
        ConditionsErrorSticks(index, filters, i + 1, driver, types);
        return Err(cond.error);
      }
      conds := conds + [cond.value];
    }
    assert filters[..|filters|] == filters;
    return Ok(conds);
  }

  /** The request filters the loop keeps, in request order. */
  function ApplicableFilters(index: map<string, FilterSpec>, filters: seq<Filter>): (kept: seq<Filter>)
    ensures |kept| <= |filters|
    ensures forall j :: 0 <= j < |kept| ==> Applicable(index, kept[j])
  {
    if |filters| == 0 then []
    else
      var init := ApplicableFilters(index, filters[..|filters| - 1]);
      if Applicable(index, filters[|filters| - 1]) then init + [filters[|filters| - 1]] else init
  }

  /** A successful loop yields exactly one condition per applicable filter, in request order:
      the same as keeping the applicable filters and compiling each. */
  lemma {:induction false} ConditionsFollowRequestOrder(index: map<string, FilterSpec>, filters: seq<Filter>, driver: string, types: map<string, DataType>)
    requires Conditions(index, filters, driver, types).Ok?
    ensures var conds := Conditions(index, filters, driver, types).value;
      var kept := ApplicableFilters(index, filters);
      |conds| == |kept| &&
      forall j :: 0 <= j < |kept| ==> Compile(index, kept[j], driver, types) == Ok(conds[j])
  {
    if |filters| > 0 {
      ConditionsFollowRequestOrder(index, filters[..|filters| - 1], driver, types);
    }
  }

  /** The loop fails exactly when some applicable filter does not compile. */
  lemma {:induction false} ConditionsFailIffSomeFails(index: map<string, FilterSpec>, filters: seq<Filter>, driver: string, types: map<string, DataType>)
    ensures Conditions(index, filters, driver, types).Err? <==>
      exists j :: 0 <= j < |filters| && Applicable(index, filters[j]) && Compile(index, filters[j], driver, types).Err?
  {
    if |filters| > 0 {
      var init := filters[..|filters| - 1];
      ConditionsFailIffSomeFails(index, init, driver, types);
      assert forall i :: 0 <= i < |init| ==> init[i] == filters[i];
      if Conditions(index, init, driver, types).Ok? && Conditions(index, filters, driver, types).Err? {
        var j := |filters| - 1;
        assert Applicable(index, filters[j]) && Compile(index, filters[j], driver, types).Err?;
      }
    }
  }

  /** When it fails, it reports the error of the first applicable filter that does not compile. */
  lemma {:induction false} ConditionsFailOnFirstError(index: map<string, FilterSpec>, filters: seq<Filter>, driver: string, types: map<string, DataType>)
    requires Conditions(index, filters, driver, types).Err?
    ensures FirstFailure(index, filters, driver, types, Conditions(index, filters, driver, types).error)
  {
    var init := filters[..|filters| - 1];
    if Conditions(index, init, driver, types).Ok? {
      FailureAtLast(index, filters, driver, types);
    } else {
      ConditionsFailOnFirstError(index, init, driver, types);
      FailureCarries(index, filters, driver, types);
    }
  }

  /** Some applicable filter does not compile, with error `e`, and every applicable filter
      before it compiles. */
  ghost predicate FirstFailure(index: map<string, FilterSpec>, filters: seq<Filter>, driver: string,
                               types: map<string, DataType>, e: string)
  {
    exists j :: 0 <= j < |filters| && Applicable(index, filters[j]) &&
      Compile(index, filters[j], driver, types) == Err(e) &&
      forall i :: 0 <= i < j && Applicable(index, filters[i]) ==> Compile(index, filters[i], driver, types).Ok?
  }

  lemma FailureAtLast(index: map<string, FilterSpec>, filters: seq<Filter>, driver: string, types: map<string, DataType>)
    requires |filters| > 0 && Conditions(index, filters[..|filters| - 1], driver, types).Ok?
    requires Conditions(index, filters, driver, types).Err?
    ensures FirstFailure(index, filters, driver, types, Conditions(index, filters, driver, types).error)
  {
    var init := filters[..|filters| - 1];
    var j := |filters| - 1;
    ConditionsFollowRequestOrderOk(index, init, driver, types);
    assert forall i :: 0 <= i < j ==> filters[i] == init[i];
    assert Applicable(index, filters[j]) && Compile(index, filters[j], driver, types) == Err(Conditions(index, filters, driver, types).error);
  }

  lemma FailureCarries(index: map<string, FilterSpec>, filters: seq<Filter>, driver: string, types: map<string, DataType>)
    requires |filters| > 0 && Conditions(index, filters[..|filters| - 1], driver, types).Err?
    requires FirstFailure(index, filters[..|filters| - 1], driver, types, Conditions(index, filters[..|filters| - 1], driver, types).error)
    ensures FirstFailure(index, filters, driver, types, Conditions(index, filters, driver, types).error)
  {
    var init := filters[..|filters| - 1];
    var e := Conditions(index, init, driver, types).error;
    var j :| 0 <= j < |init| && Applicable(index, init[j]) && Compile(index, init[j], driver, types) == Err(e) &&
      forall i :: 0 <= i < j && Applicable(index, init[i]) ==> Compile(index, init[i], driver, types).Ok?;
    assert forall i :: 0 <= i <= j ==> filters[i] == init[i];
  }

  /** After a successful loop every applicable filter compiled. */
  lemma ConditionsFollowRequestOrderOk(index: map<string, FilterSpec>, filters: seq<Filter>, driver: string, types: map<string, DataType>)
    requires Conditions(index, filters, driver, types).Ok?
    ensures forall i :: 0 <= i < |filters| && Applicable(index, filters[i]) ==> Compile(index, filters[i], driver, types).Ok?
  {
    ConditionsFailIffSomeFails(index, filters, driver, types);
  }

  /** Filters whose name has no spec, whose spec has no target, or which carry no values never
      reach the compiler. */
  lemma SkippedFiltersAddNothing(index: map<string, FilterSpec>, filters: seq<Filter>, f: Filter, driver: string, types: map<string, DataType>)
    requires f.name !in index || index[f.name].target == "" || |f.values| == 0
    ensures Conditions(index, filters + [f], driver, types) == Conditions(index, filters, driver, types)
  {
    assert (filters + [f])[..|filters|] == filters;
  }

  // ---------------------------------------------------------------- buildQuery

  /** `uint64(req.Limit + 1)`, with Go's 64-bit `int` wrap-around written out. */
  function OverfetchLimit(limit: int): (n: nat)
    requires 0 < limit <= MaxInt64
    ensures n == limit + 1
  {
    var sum := limit + 1;
    var wrapped := if sum > MaxInt64 then sum - 0x1_0000_0000_0000_0000 else sum;
    if wrapped < 0 then wrapped + 0x1_0000_0000_0000_0000 else wrapped
  }

  /** The configured query without surrounding whitespace and one trailing `;`. */
  function TrimmedQuery(query: string): string
  {
    TrimSuffix(TrimSpace(query), ";")
  }

  /** The builder steps of `buildQuery` once the query is split, the conditions are compiled
      and the pagination is built: the base as the `src` subquery, the conditions then the
      pagination predicate, the pagination ordering or else the base ordering, the overfetch. */
  function Assemble(base: string, baseOrderBy: string, conds: seq<Predicate>,
                    pagination: (Option<Predicate>, string), limit: int): Select
    requires limit <= MaxInt64
  {
    var (paginationCond, paginationOrder) := pagination;
    var orderBy := if paginationOrder != "" then paginationOrder else TrimOrderByPrefix(baseOrderBy);
    Select("(" + base + ") AS src",
      if paginationCond.Some? then conds + [paginationCond.value] else conds,
      if orderBy != "" then [orderBy] else [],
      if limit > 0 then Some(OverfetchLimit(limit)) else None)
  }

  /** The builder state `buildQuery` reaches before `ToSql`. */
  function Plan(widget: Widget, req: DataRequest, driver: string): Result<Select>
    requires widget.provider.sql.Some?
    requires req.limit <= MaxInt64
  {
    var sql := widget.provider.sql.value;
    var (base, baseOrderBy) := SplitOrderBy(TrimmedQuery(sql.query));
    match FilterConditions(widget, req.filters, driver)
    case Err(e) => Err(e)
    case Ok(conds) => Ok(Assemble(base, baseOrderBy, conds, BuildPagination(sql.pagination, req.cursor), req.limit))
  }

  /** What `buildQuery` returns: the statement and its arguments, or the filter error. */
  function Query(widget: Widget, req: DataRequest, driver: string): Result<Fragment>
    requires widget.provider.sql.Some?
    requires req.limit <= MaxInt64
  {
    match Plan(widget, req, driver)
    case Err(e) => Err(e)
    case Ok(b) => Ok(ToSql(b))
  }

  /** `buildQuery`: trims the query, splits off its ORDER BY, then adds the filter conditions,
      the pagination predicate, the ordering and the limit to the builder one step at a time. */
  method BuildQuery(widget: Widget, req: DataRequest, driver: string) returns (r: Result<Fragment>)
    requires widget.provider.sql.Some?
    requires req.limit <= MaxInt64
    ensures r == Query(widget, req, driver)
  {
    var sql := widget.provider.sql.value;
    var trimmed := TrimSuffix(TrimSpace(sql.query), ";");
    var base, baseOrderBy := SplitByOrderBy(trimmed);
    var conds := BuildFilterConditions(widget, req.filters, driver);
    if conds.Err? {
      return Err(conds.error);
    }
    var pagination := BuildPagination(sql.pagination, req.cursor);
    var builder := AssembleSteps(base, baseOrderBy, conds.value, pagination, req.limit);
    return Ok(ToSql(builder));
  }

  /** The builder reassignments of `buildQuery`, one `Where` per condition. */
  method AssembleSteps(base: string, baseOrderBy: string, conds: seq<Predicate>,
                       pagination: (Option<Predicate>, string), limit: int) returns (builder: Select)
    requires limit <= MaxInt64
    ensures builder == Assemble(base, baseOrderBy, conds, pagination, limit)
  {
    builder := Select("(" + base + ") AS src", [], [], None);
    for i := 0 to |conds|
      invariant builder == Select("(" + base + ") AS src", conds[..i], [], None)
    {
      builder := builder.(wheres := builder.wheres + [conds[i]]);
      assert conds[..i + 1] == conds[..i] + [conds[i]];
    }
    assert conds[..|conds|] == conds;
    var (paginationCond, paginationOrder) := pagination;
    if paginationCond.Some? {
      builder := builder.(wheres := builder.wheres + [paginationCond.value]);
    }
    var orderBy := TrimOrderByPrefix(baseOrderBy);
    if paginationOrder != "" {
      orderBy := paginationOrder;
    }
    if orderBy != "" {
      builder := builder.(orderBys := builder.orderBys + [orderBy]);
    }
    if limit > 0 {
      builder := builder.(limit := Some(OverfetchLimit(limit)));
    }
  }

  // ---------------------------------------------------------------- properties of buildQuery

  /** The base query becomes the `src` subquery at the head of the statement. */
  lemma QueryWrapsBase(base: string, baseOrderBy: string, conds: seq<Predicate>,
                       pagination: (Option<Predicate>, string), limit: int)
    requires limit <= MaxInt64
    ensures "SELECT * FROM (" + base + ") AS src" <= ToSql(Assemble(base, baseOrderBy, conds, pagination, limit)).sql
  {
    var b := Assemble(base, baseOrderBy, conds, pagination, limit);
    SelectStartsWithFrom(b);
    assert "SELECT * FROM (" + base + ") AS src" == "SELECT * FROM " + b.from;
  }

  lemma SelectStartsWithFrom(b: Select)
    ensures "SELECT * FROM " + b.from <= ToSql(b).sql
  {
    PrefixOfSum("SELECT * FROM " + b.from, WhereClause(b).sql, OrderClause(b), LimitClause(b));
  }

  lemma PrefixOfSum(head: string, x: string, y: string, z: string)
    ensures head <= head + x + y + z
  {
    assert (head + x + y + z)[..|head|] == head;
  }

  /** The arguments are those of the conditions, in order, then the cursor of the pagination
      predicate, when there is one. */
  lemma QueryArgsOrder(widget: Widget, req: DataRequest, driver: string)
    requires widget.provider.sql.Some? && req.limit <= MaxInt64
    requires Query(widget, req, driver).Ok?
    ensures var conds := FilterConditions(widget, req.filters, driver).value;
      var (cond, _) := BuildPagination(widget.provider.sql.value.pagination, req.cursor);
      Query(widget, req, driver).value.args == AllArgs(conds) + (if cond.Some? then [VText(req.cursor)] else [])
  {
    var sql := widget.provider.sql.value;
    var (base, baseOrderBy) := SplitOrderBy(TrimmedQuery(sql.query));
    var conds := FilterConditions(widget, req.filters, driver).value;
    var pagination := BuildPagination(sql.pagination, req.cursor);
    AssembleArgs(base, baseOrderBy, conds, pagination, req.limit);
    PaginationIsStrictKeyset(sql.pagination, req.cursor);
  }

  lemma AssembleArgs(base: string, baseOrderBy: string, conds: seq<Predicate>,
                     pagination: (Option<Predicate>, string), limit: int)
    requires limit <= MaxInt64
    ensures ToSql(Assemble(base, baseOrderBy, conds, pagination, limit)).args
      == AllArgs(conds) + (if pagination.0.Some? then Render(pagination.0.value).args else [])
  {
    var b := Assemble(base, baseOrderBy, conds, pagination, limit);
    ConjunctionArgs(b.wheres);
    if pagination.0.Some? {
      AllArgsAppend(conds, pagination.0.value);
    }
  }

  lemma {:induction false} ConjunctionArgs(ps: seq<Predicate>)
    ensures Conjunction(ps).args == AllArgs(ps)
  {
    if |ps| > 1 {
      ConjunctionArgs(ps[..|ps| - 1]);
    } else if |ps| == 1 {
      assert ps[..0] == [];
    }
  }

  lemma AllArgsAppend(ps: seq<Predicate>, p: Predicate)
    ensures AllArgs(ps + [p]) == AllArgs(ps) + Render(p).args
  {
    assert (ps + [p])[..|ps|] == ps;
  }

  /** A paged request is ordered by the pagination ordering, whatever the base query's ORDER BY
      said; otherwise that ORDER BY, without its keyword, is kept when there is one. */
  lemma PaginationOrderOverrides(base: string, baseOrderBy: string, conds: seq<Predicate>,
                                 pagination: Option<PaginationSpec>, cursor: string, limit: int)
    requires limit <= MaxInt64
    ensures var (cond, order) := BuildPagination(pagination, cursor);
      var b := Assemble(base, baseOrderBy, conds, (cond, order), limit);
      var baseOrder := TrimOrderByPrefix(baseOrderBy);
      (cond.Some? ==> b.orderBys == [order] && OrderClause(b) == " ORDER BY " + order) &&
      (cond.None? ==> b.orderBys == (if baseOrder != "" then [baseOrder] else []))
  {
    var (cond, order) := BuildPagination(pagination, cursor);
    PaginationIsStrictKeyset(pagination, cursor);
    if cond.Some? {
      assert order[|order| - 1] == 'C';
    }
  }

  /** A positive limit fetches one row more than asked, to detect a further page; zero or
      less fetches everything. */
  lemma QueryOverfetches(base: string, baseOrderBy: string, conds: seq<Predicate>,
                         pagination: (Option<Predicate>, string), limit: int)
    requires limit <= MaxInt64
    ensures var b := Assemble(base, baseOrderBy, conds, pagination, limit);
      b.limit == (if limit > 0 then Some(limit + 1) else None) &&
      (limit > 0 ==> HasSuffix(ToSql(b).sql, " LIMIT " + NatToDecimal(limit + 1)))
  {
    var b := Assemble(base, baseOrderBy, conds, pagination, limit);
    if limit > 0 {
      var head := "SELECT * FROM " + b.from + WhereClause(b).sql + OrderClause(b);
      assert ToSql(b).sql == head + LimitClause(b);
    }
  }

  /** Every `?` of the WHERE clause stands for one argument, when no condition's column and no
      match operator holds a `?` of its own. */
  lemma QueryPlaceholdersMatchArgs(base: string, baseOrderBy: string, conds: seq<Predicate>,
                                   pagination: (Option<Predicate>, string), limit: int)
    requires limit <= MaxInt64
    requires forall p :: p in conds ==> PlaceholderFree(p)
    requires pagination.0.Some? ==> PlaceholderFree(pagination.0.value)
    ensures var b := Assemble(base, baseOrderBy, conds, pagination, limit);
      Count(WhereClause(b).sql, '?') == |ToSql(b).args|
  {
    var b := Assemble(base, baseOrderBy, conds, pagination, limit);
    forall i | 0 <= i < |b.wheres|
      ensures PlaceholderFree(b.wheres[i])
    {
      if i < |conds| {
        assert b.wheres[i] in conds;
      }
    }
    WherePlaceholders(b);
  }
}
