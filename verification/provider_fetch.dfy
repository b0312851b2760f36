/** The result side of the SQL provider (`backend/internal/providers/sql/provider.go`): the
    scanned rows are normalised (`[]byte` becomes a string, JSON-array columns are decoded),
    the overfetched row is cut off, and the response carries the row count, the next cursor and
    whether more rows exist. The database itself is a `Connection`: its driver name and a
    function from the composed statement to the scanned rows or an error. */
module ProviderFetch {
  import opened Wrappers
  import opened Text
  import opened Config
  import opened Providers
  import opened Sql
  import ProviderQuery

  // ---------------------------------------------------------------- normalizeRow

  /** The text a string or `[]byte` cell holds. */
  function TextOf(c: Cell): Option<string>
  {
    match c
    case Str(s) => Some(s)
    case Bytes(t) => Some(t)
    case _ => None
  }

  /** The JSON documents `normalizeRow` keeps: arrays and objects. */
  predicate IsContainer(j: Json)
  {
    j.JArray? || j.JObject?
  }

  /** The type hint the widget's SQL spec gives a column, if any. */
  function Hint(types: map<string, DataType>, key: string): Option<DataType>
  {
    if key in types then Some(types[key]) else None
  }

  /** The cell is replaced by its decoded value: the column is typed `JsonArray` and its
      non-empty text decodes to an array or an object. */
  predicate Decodes(c: Cell, hint: Option<DataType>, decode: string -> Option<Json>)
  {
    hint == Some(JsonArray) && TextOf(c).Some? && TextOf(c).value != ""
    && decode(TextOf(c).value).Some? && IsContainer(decode(TextOf(c).value).value)
  }

  /** What `normalizeRow` leaves in one column. `decode` stands for `json.Unmarshal` (`None` on a
      syntax error). No `[]byte` survives; a decodable JSON-array column becomes its document;
      anything else keeps its text and, unless it was a `[]byte`, is the very same value. */
  function NormalizeCell(c: Cell, hint: Option<DataType>, decode: string -> Option<Json>): (r: Cell)
    ensures !r.Bytes?
    ensures Decodes(c, hint, decode) ==> r == Decoded(decode(TextOf(c).value).value)
    ensures !Decodes(c, hint, decode) ==> TextOf(r) == TextOf(c) && (c.Bytes? || r == c)
  {
    var v := if c.Bytes? then Str(c.text) else c;
    if hint != Some(JsonArray) || !v.Str? || v.s == "" then v
    else
      match decode(v.s)
      case None => v
      case Some(j) => if j.JArray? || j.JObject? then Decoded(j) else v
  }

  /** The row after `normalizeRow`: the same columns, each normalised on its own. */
  function NormalizedRow(row: Row, types: map<string, DataType>, decode: string -> Option<Json>): (r: Row)
    ensures r.Keys == row.Keys
    ensures forall k :: k in r ==> !r[k].Bytes?
  {
    map k | k in row :: NormalizeCell(row[k], Hint(types, k), decode)
  }

  /** Normalising a normalised cell changes nothing. */
  lemma NormalizeCellIdempotent(c: Cell, hint: Option<DataType>, decode: string -> Option<Json>)
    ensures NormalizeCell(NormalizeCell(c, hint, decode), hint, decode) == NormalizeCell(c, hint, decode)
  {
    var r := NormalizeCell(c, hint, decode);
    if Decodes(c, hint, decode) {
      assert TextOf(r).None?;
    } else {
      assert !Decodes(r, hint, decode);
    }
  }

  /** Normalising a normalised row changes nothing. */
  lemma NormalizedRowIdempotent(row: Row, types: map<string, DataType>, decode: string -> Option<Json>)
    ensures NormalizedRow(NormalizedRow(row, types, decode), types, decode) == NormalizedRow(row, types, decode)
  {
    var once := NormalizedRow(row, types, decode);
    forall k | k in once
      ensures NormalizeCell(once[k], Hint(types, k), decode) == once[k]
    {
      NormalizeCellIdempotent(row[k], Hint(types, k), decode);
    }
  }

  /** A scanned row, which `normalizeRow` rewrites in place. */
  class ScannedRow {
    var cells: Row

    constructor (cells: Row)
      ensures this.cells == cells
    {
      this.cells := cells;
    }

    /** `normalizeRow`: one pass over the columns, overwriting the ones that change. */
    method Normalize(types: map<string, DataType>, decode: string -> Option<Json>)
      modifies this
      ensures cells == NormalizedRow(old(cells), types, decode)
    {
      ghost var original := cells;
      var pending := cells.Keys;
      while pending != {}
        invariant pending <= original.Keys && cells.Keys == original.Keys
        invariant forall k :: k in original ==>
          cells[k] == if k in pending then original[k] else NormalizeCell(original[k], Hint(types, k), decode)
        decreases pending
      {
        var key :| key in pending;
        pending := pending - {key};
        var value := cells[key];
        if value.Bytes? {
          value := Str(value.text);
          cells := cells[key := value];
        }
        if key !in types || types[key] != JsonArray {
          continue;
        }
        if !value.Str? || value.s == "" {
          continue;
        }
        var parsed := decode(value.s);
        if parsed.None? {
          continue;
        }
        if parsed.value.JArray? || parsed.value.JObject? {
          cells := cells[key := Decoded(parsed.value)];
        }
      }
    }
  }

  /** Every scanned row normalised, in order. */
  function NormalizedRows(rows: seq<Row>, types: map<string, DataType>, decode: string -> Option<Json>): (r: seq<Row>)
    ensures |r| == |rows|
    ensures forall i :: 0 <= i < |rows| ==> r[i] == NormalizedRow(rows[i], types, decode)
  {
    seq(|rows|, i requires 0 <= i < |rows| => NormalizedRow(rows[i], types, decode))
  }

  // ---------------------------------------------------------------- cursorValue

  /** `fmt.Sprint` of a cell: strings as they are, integers in decimal; `sprint` stands for the
      formatting of every other kind of value. */
  function SprintCell(c: Cell, sprint: Cell -> string): string
  {
    match c
    case Str(s) => s
    case Int(i) => IntToDecimal(i)
    case _ => sprint(c)
  }

  /** `cursorValue`: the printed value of the column, `""` when it is missing or NULL. */
  function CursorValue(row: Row, column: string, sprint: Cell -> string): (r: string)
    ensures column !in row || row[column].Null? ==> r == ""
    ensures column in row && row[column].Str? ==> r == row[column].s
  {
    if column !in row || row[column].Null? then "" else SprintCell(row[column], sprint)
  }

  /** An integer cursor is printed so that `strconv` reads the same integer back. */
  lemma IntCursorRoundTrips(row: Row, column: string, sprint: Cell -> string)
    requires column in row && row[column].Int?
    requires MinInt64 <= row[column].i <= MaxInt64
    ensures ParseInt64(CursorValue(row, column, sprint)) == Some(row[column].i)
  {
    ParseIntToDecimal(row[column].i);
  }

  // ---------------------------------------------------------------- Fetch

  /** The tail of `Fetch`: more rows exist exactly when the limit is positive and exceeded, and
      then the rows are cut to the limit; a limit of zero or less returns every row. The total
      is the number of rows returned; the next cursor is the pagination column of the last
      returned row. */
  function Page(data: seq<Row>, limit: int, column: string, sprint: Cell -> string): (r: DataResponse)
    ensures r.hasMore <==> limit > 0 && |data| > limit
    ensures r.data == if r.hasMore then data[..limit] else data
    ensures r.data <= data
    ensures limit > 0 ==> |r.data| <= limit
    ensures r.hasMore <==> |r.data| < |data|
    ensures r.total == |r.data|
    ensures r.nextCursor != "" ==> column != "" && |r.data| > 0
  {
    var hasMore := limit > 0 && |data| > limit;
    var rows := if hasMore then data[..limit] else data;
    var nextCursor := if |rows| > 0 && column != "" then CursorValue(rows[|rows| - 1], column, sprint) else "";
    DataResponse(rows, |rows|, nextCursor, hasMore)
  }

  /** The statement overfetches one row (`LIMIT n+1`), so when the database honours it the page
      has more rows exactly when the extra row came back, and holds all the others. */
  lemma OverfetchRevealsMore(data: seq<Row>, limit: int, column: string, sprint: Cell -> string)
    requires limit > 0 && |data| <= limit + 1
    ensures Page(data, limit, column, sprint).hasMore <==> |data| == limit + 1
    ensures Page(data, limit, column, sprint).data == data[..if |data| == limit + 1 then limit else |data|]
  {
  }

  /** The next cursor is the pagination column of the last row returned (or `""`). */
  lemma NextCursorIsLastRow(data: seq<Row>, limit: int, column: string, sprint: Cell -> string)
    requires column != ""
    ensures var r := Page(data, limit, column, sprint);
      |r.data| > 0 ==> r.nextCursor == CursorValue(r.data[|r.data| - 1], column, sprint)
  {
  }

  /** The database behind a provider: its driver name and what running a statement yields
      (the `?` placeholders rebound for the driver, the rows scanned, or an error). */
  datatype Connection = Connection(driverName: string, run: Fragment -> Result<seq<Row>>)

  function NotConfiguredError(): string { "sql provider not configured" }
  function MissingQueryError(): string { "sql provider missing query" }

  /** What `Fetch` answers. */
  function FetchResult(db: Option<Connection>, widget: Widget, req: DataRequest,
                       decode: string -> Option<Json>, sprint: Cell -> string): Result<DataResponse>
    requires req.limit <= MaxInt64
  {
    if db.None? then Err(NotConfiguredError())
    else if widget.provider.sql.None? then Err(MissingQueryError())
    else
      var sql := widget.provider.sql.value;
      match ProviderQuery.Query(widget, req, db.value.driverName)
      case Err(e) => Err(e)
      case Ok(q) =>
        match db.value.run(q)
        case Err(e) => Err(e)
        case Ok(rows) =>
          Ok(Page(NormalizedRows(rows, sql.types, decode), req.limit,
                  ProviderQuery.PaginationColumn(sql.pagination), sprint))
  }

  /** `Fetch`: check the provider and the widget, compose and run the statement, normalise each
      scanned row, then trim the overfetch and fill in the response. */
  method Fetch(db: Option<Connection>, widget: Widget, req: DataRequest,
               decode: string -> Option<Json>, sprint: Cell -> string) returns (r: Result<DataResponse>)
    requires req.limit <= MaxInt64
    ensures r == FetchResult(db, widget, req, decode, sprint)
  {
    if db.None? {
      return Err(NotConfiguredError());
    }
    if widget.provider.sql.None? {
      return Err(MissingQueryError());
    }
    var conn := db.value;
    var query := ProviderQuery.BuildQuery(widget, req, conn.driverName);
    if query.Err? {
      return Err(query.error);
    }
    var rows := conn.run(query.value);
    if rows.Err? {
      return Err(rows.error);
    }
    var sql := widget.provider.sql.value;
    var data := NormalizeAll(rows.value, sql.types, decode);
    var page := TrimPage(data, req.limit, ProviderQuery.PaginationColumn(sql.pagination), sprint);
    return Ok(page);
  }

  /** The scan loop of `Fetch`: each row normalised in place and appended. */
  method NormalizeAll(rows: seq<Row>, types: map<string, DataType>, decode: string -> Option<Json>)
    returns (data: seq<Row>)
    ensures data == NormalizedRows(rows, types, decode)
  {
    data := [];
    for i := 0 to |rows|
      invariant |data| == i
      invariant forall j :: 0 <= j < i ==> data[j] == NormalizedRow(rows[j], types, decode)
    {
      var row := new ScannedRow(rows[i]);
      row.Normalize(types, decode);
      data := data + [row.cells];
    }
  }

  /** The post-processing of `Fetch`: trim the overfetched row, then read the next cursor. */
  method TrimPage(rows: seq<Row>, limit: int, cursorColumn: string, sprint: Cell -> string)
    returns (r: DataResponse)
    ensures r == Page(rows, limit, cursorColumn, sprint)
  {
    var data := rows;
    var nextCursor := "";
    var hasMore := false;
    if limit > 0 && |data| > limit {
      hasMore := true;
      data := data[..limit];
    }
    if |data| > 0 {
      if cursorColumn != "" {
        nextCursor := CursorValue(data[|data| - 1], cursorColumn, sprint);
      }
    }
    return DataResponse(data, |data|, nextCursor, hasMore);
  }

  /** The provider and the widget are checked before anything else happens. */
  lemma FetchGuardsFirst(db: Option<Connection>, widget: Widget, req: DataRequest,
                         decode: string -> Option<Json>, sprint: Cell -> string)
    requires req.limit <= MaxInt64
    ensures db.None? ==> FetchResult(db, widget, req, decode, sprint) == Err("sql provider not configured")
    ensures db.Some? && widget.provider.sql.None? ==>
      FetchResult(db, widget, req, decode, sprint) == Err("sql provider missing query")
  {
  }

  /** A successful fetch returns normalised rows, no more than a positive limit, its total is
      their count, and it reports more rows exactly when the database returned more than it
      passed on. */
  lemma FetchReturnsNormalizedPage(db: Option<Connection>, widget: Widget, req: DataRequest,
                                   decode: string -> Option<Json>, sprint: Cell -> string)
    requires req.limit <= MaxInt64
    requires FetchResult(db, widget, req, decode, sprint).Ok?
    ensures var resp := FetchResult(db, widget, req, decode, sprint).value;
      && resp.total == |resp.data|
      && (req.limit > 0 ==> |resp.data| <= req.limit)
      && (forall i, k :: 0 <= i < |resp.data| && k in resp.data[i] ==> !resp.data[i][k].Bytes?)
  {
    var sql := widget.provider.sql.value;
    var q := ProviderQuery.Query(widget, req, db.value.driverName).value;
    var rows := NormalizedRows(db.value.run(q).value, sql.types, decode);
    var resp := Page(rows, req.limit, ProviderQuery.PaginationColumn(sql.pagination), sprint);
    assert resp.data <= rows;
    forall i | 0 <= i < |resp.data|
      ensures resp.data[i] == rows[i]
    {
    }
  }
}
