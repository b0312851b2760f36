/** The configuration entities a widget is declared with (Go package `config`), mirrored with the
    fields the SQL provider reads: a filter's `Target`, `Mode` and `Operators`, a SQL spec's `Types`. */
module Config {
  import opened Wrappers

  /** Per-column type hint; only `JsonArray` changes behaviour. */
  datatype DataType = JsonArray | Scalar(name: string)

  /** A declared filter: request-facing `id`, target column expression, declared type
      (`text`, `number`, `date`, `datetime`, `select_multi`, ...), forced `mode` and allowed `operators`.
      The front end reads the same record from `/api/config`. */
  datatype FilterSpec = FilterSpec(
    id: string,
    ftype: string,
    target: string,
    mode: string,
    operators: seq<string>)

  /** Keyset pagination column and its sort order (`asc`/`desc`). */
  datatype PaginationSpec = PaginationSpec(column: string, order: string)

  datatype SqlSpec = SqlSpec(
    query: string,
    pagination: Option<PaginationSpec>,
    types: map<string, DataType>)

  datatype ProviderSpec = ProviderSpec(name: string, sql: Option<SqlSpec>)

  datatype TableSpec = TableSpec(filters: seq<FilterSpec>)

  datatype Widget = Widget(id: string, provider: ProviderSpec, table: Option<TableSpec>)

  datatype Page = Page(slug: string, widgets: seq<Widget>)

  datatype AppConfig = AppConfig(pathPrefix: string, pages: seq<Page>)

  /** The closed set of filter operator tokens (`config.FilterOperator` constants). */
  predicate IsKnownOperator(op: string)
  {
    op in {"eq", "gt", "lt", "after", "before", "contains", "between", "in"}
  }

  /** The filter specs by id, a later spec replacing an earlier one with the same id: the
      `filterIndex` of the SQL provider, and the `filterIndex` reduce of the front end. */
  function FilterIndex(specs: seq<FilterSpec>): map<string, FilterSpec>
  {
    if |specs| == 0 then map[]
    else FilterIndex(specs[..|specs| - 1])[specs[|specs| - 1].id := specs[|specs| - 1]]
  }

  /** Every spec id is indexed. */
  lemma {:induction false} FilterIndexCovers(specs: seq<FilterSpec>)
    ensures forall k :: 0 <= k < |specs| ==> specs[k].id in FilterIndex(specs)
  {
    if |specs| > 0 {
      var init := specs[..|specs| - 1];
      FilterIndexCovers(init);
      assert forall k :: 0 <= k < |init| ==> init[k] == specs[k];
    }
  }

  /** Every entry is one of the specs, filed under its own id. */
  lemma {:induction false} FilterIndexFromSpecs(specs: seq<FilterSpec>)
    ensures forall id :: id in FilterIndex(specs) ==> FilterIndex(specs)[id] in specs && FilterIndex(specs)[id].id == id
  {
    if |specs| > 0 {
      var init := specs[..|specs| - 1];
      FilterIndexFromSpecs(init);
      assert forall f :: f in init ==> f in specs;
    }
  }

  /** For an id declared more than once, the last declaration wins. */
  lemma {:induction false} FilterIndexLastWins(specs: seq<FilterSpec>, k: nat)
    requires k < |specs|
    requires forall j :: k < j < |specs| ==> specs[j].id != specs[k].id
    ensures specs[k].id in FilterIndex(specs) && FilterIndex(specs)[specs[k].id] == specs[k]
  {
    if k < |specs| - 1 {
      var init := specs[..|specs| - 1];
      FilterIndexLastWins(init, k);
    }
  }

  /** Operators whose compilation reads the first value (`Values[0]`), which the Go code
      indexes without a length check. */
  predicate BindsFirstValue(op: string)
  {
    op in {"eq", "gt", "lt", "after", "before", "contains"}
  }
}

/** The request and response values exchanged with a data provider (Go package `providers`). */
module Providers {

  /** One runtime filter: the filter id, an explicit operator (`""` when none) and its values. */
  datatype Filter = Filter(name: string, operator: string, values: seq<string>)

  /** `limit` 0 or less means unlimited; an empty `cursor` asks for the first page. */
  datatype DataRequest = DataRequest(limit: int, cursor: string, filters: seq<Filter>)

  /** A decoded JSON document, as `encoding/json` decodes into `any`. */
  datatype Json =
    | JNull
    | JBool(b: bool)
    | JNumber(n: real)
    | JString(s: string)
    | JArray(items: seq<Json>)
    | JObject(members: seq<(string, Json)>)

  /** A scanned column value: SQL NULL, a string, a `[]byte` (given by the text it converts to),
      an integer, a decoded JSON array or object, or any other driver value. */
  datatype Cell =
    | Null
    | Str(s: string)
    | Bytes(text: string)
    | Int(i: int)
    | Decoded(json: Json)
    | Other(tag: string)

  type Row = map<string, Cell>

  datatype DataResponse = DataResponse(data: seq<Row>, total: int, nextCursor: string, hasMore: bool)
}
