# rapidmin query engine — a Dafny model

rapidmin serves admin dashboards described in a configuration file. A widget's SQL query,
its filters and its keyset pagination are combined with a runtime request (filter values,
a cursor, a page size) into one parameterised `SELECT`. The rows that come back are
normalised and cut into a page with a next cursor. Around that engine sit the request side
of the HTTP handler (widget id, `id.op=value` filters, limit and offset), the server's and
the client's path-prefix normalisation, and the front end's filter panel, which reads the
same `id.op=value` convention from the page URL and writes it into data requests.

Modules, one per source file, plus shared ones:

- `ModeFilterQuery` (`backend/internal/providers/sql/filter_query.go`) and `UnixFilterQuery`
  (`providers/sql/filter_query.go`) are the two revisions of the filter compiler. The first
  resolves the operator through the spec's `Mode`. The second has no `Mode` and coerces
  `datetime` values to int64.
- `ProviderQuery` and `ProviderFetch` (`backend/internal/providers/sql/provider.go`) cover
  query planning (`splitByOrderBy`, `trimOrderByPrefix`, `buildPagination`,
  `buildFilterConditions`, `buildQuery`) and the result side (`normalizeRow`, `cursorValue`,
  `Fetch`).
- `Handlers` (`backend/internal/server/handlers.go`) and `ServerPaths`
  (`backend/internal/server/server.go`) model the server.
- `PathPrefix` (`frontend/src/pathPrefix.ts`) and `FilterPanel`
  (`frontend/src/components/FilterPanel.tsx`) model the front end.
- `Sql` is the part of the squirrel builder the provider relies on: predicates, their
  rendering with `?` placeholders, and `SELECT … WHERE … ORDER BY … LIMIT …`.
- `Text` holds Go/JavaScript string functions: trimming, lower-casing, `LastIndex`, and
  decimal int64 parsing and printing.
- `Config` holds the configuration and request types and the id-to-spec index.
- `Wrappers` holds `Option` and `Result`.

Where the Go or TypeScript code changes state step by step, the model does so too:
- `splitByOrderBy`, `parseFilters`, `findWidget`, `parseUnixValues`, `buildFilterConditions`,
  `buildQuery`, `Fetch`, `parseFilterParams`, `emptyFilterState` and `appendFilters` are
  methods with loops;
- a scanned row (`ProviderFetch.ScannedRow`), the server (`ServerPaths.Server`), the
  client's prefix variable (`PathPrefix.PrefixStore`) and `URLSearchParams`
  (`FilterPanel.SearchParams`) are classes.

Each method is proved equal to a function, and the properties are proved about that function.
One loop departs from the code on purpose: the `parseFilters` loop (`Handlers.ParseFilters`)
keys its map by the (name, operator) pair. handlers.go keys it by the joined string
`name + "|" + operator`, and that is modelled separately (`Handlers.ParsedFiltersAsWritten`);
see "Findings". `Handlers.AsWrittenAgreesWithoutPipes` proves the two give the same filters
whenever no filter name contains `|`.

Three behaviours of the code worth knowing:
- `between` accepts two or more values and binds the first two; extra values are ignored,
  not rejected.
- The client's and the server's `normalizePrefix` are not equal on every input. Go's
  `strings.TrimSpace` treats NEL (U+0085) as white space and JavaScript's `trim` does not.
  JavaScript treats the byte-order mark (U+FEFF) as white space and Go does not.
  `PathPrefix.AgreesWithServer` proves they agree on every input without those two
  characters. `PathPrefix.DiffersOnNel` gives an input on which they differ.
- `normalizePrefix` is not idempotent: `a//` becomes `/a/`, which becomes `/a`.

## Model

| member | source | states |
|---|---|---|
| Config.FilterIndexCovers | backend/internal/providers/sql/provider.go:153-156 | every filter spec's id is a key of the id-to-spec index |
| Config.FilterIndexFromSpecs | backend/internal/providers/sql/provider.go:153-156 | every indexed spec is one of the configured specs, stored under its own id |
| Config.FilterIndexLastWins | backend/internal/providers/sql/provider.go:153-156 | a spec whose id no later spec repeats is the one the index holds; later specs overwrite earlier ones |
| Sql.Texts | providers/sql/filter_query.go:38-42 | one string argument per value, in input order |
| Sql.RenderPlaceholders | backend/internal/providers/sql/filter_query.go:29-84 | every rendered predicate has exactly as many `?` as arguments, when the column holds no `?` |
| Sql.InMarks | backend/internal/providers/sql/filter_query.go:84 | `col IN (?,…,?)` carries one `?` per value |
| Sql.JsonInMarks | backend/internal/providers/sql/filter_query.go:69-81 | the `json_each … value in (…)` text carries one `?` per value |
| Sql.JsonLikeMarks | backend/internal/providers/sql/filter_query.go:56-59 | the `json_each … value like ?` text carries exactly one `?` |
| Sql.JoinMarks | backend/internal/providers/sql/filter_query.go:70-80 | joining n `?` parts with `,` gives the n-placeholder list |
| Sql.ConjunctionPlaceholders | backend/internal/providers/sql/provider.go:119-126 | the conjoined WHERE conditions carry the predicates' arguments in order, one `?` per argument |
| Sql.WherePlaceholders | backend/internal/providers/sql/provider.go:119-141 | the `?` in the WHERE clause match the statement's arguments in number |
| Text.TrimLeft | backend/internal/server/server.go:82 | the result is a suffix of the input that does not start with a dropped character |
| Text.TrimLeftDropsOnly | backend/internal/server/server.go:82 | only dropped characters were removed on the left |
| Text.TrimRight | backend/internal/server/server.go:82 | the result is a prefix of the input that does not end with a dropped character |
| Text.TrimRightDropsOnly | backend/internal/server/server.go:82 | only dropped characters were removed on the right |
| Text.TrimOfTrimmed | backend/internal/server/server.go:82 | a string that neither starts nor ends with white space is its own trim |
| Text.ToLower | backend/internal/providers/sql/provider.go:223 | same length, every character lower-cased (ASCII letters) |
| Text.TrimPrefix | backend/internal/server/handlers.go:72 | the prefix plus the result gives the input when the prefix is present, else the input is returned |
| Text.TrimSuffix | backend/internal/providers/sql/provider.go:110 | the result plus the suffix gives the input when the suffix is present, else the input is returned |
| Text.LastIndexOf | backend/internal/server/handlers.go:97 | -1 exactly when the character is absent; otherwise its position, with no occurrence after it |
| Text.Placeholders | backend/internal/providers/sql/filter_query.go:70-80 | n comma-separated `?`, empty exactly when n is 0 |
| Text.ParseInt64 | providers/sql/filter_query.go:78 | a parsed value lies in the int64 range and comes from non-empty text |
| Text.AllDigitsIff | providers/sql/filter_query.go:78 | the digit check holds exactly when every character is a decimal digit |
| Text.ParseInt64Reads | providers/sql/filter_query.go:78 | an optional `+`/`-` then one or more digits is read as the digits' value, negated after `-`, and refused outside the int64 range |
| Text.ParseInt64RejectsNonDigit | providers/sql/filter_query.go:78 | a text with a non-digit after the optional sign is refused |
| Text.ParseInt64RejectsNoDigits | providers/sql/filter_query.go:78 | the empty text and a lone sign are refused |
| Text.ParseInt64Examples | backend/internal/server/handlers.go:131-142 | `+7` and `007` read as 7, `-0` as 0; `7a`, ` 7` and `0x7` are refused |
| Text.NatToDecimal | backend/internal/providers/sql/provider.go:137 | a non-empty string of decimal digits |
| Text.NatToDecimalValue | backend/internal/providers/sql/provider.go:137 | the printed digits denote the number |
| Text.ParseIntToDecimal | backend/internal/server/handlers.go:131-142 | parsing the decimal form of an int64 gives it back |
| Text.ParseNatDecimal | backend/internal/server/handlers.go:131-142 | the same for non-negative values |
| Text.ParseNegativeDecimal | backend/internal/server/handlers.go:131-142 | the same for negative values, down to the int64 minimum |
| Text.HexChar | providers/sql/filter_query.go:76 | a hexadecimal digit, printable |
| Text.Hex | providers/sql/filter_query.go:76 | exactly `width` printable digits |
| Text.HexRoundTrip | providers/sql/filter_query.go:76 | the digits read back as the number when it fits in `width` digits |
| Text.EscapeChar | providers/sql/filter_query.go:76 | `%q` of one character: the character alone exactly when it is printable and not `"` or `\`, else an escape led by `\`; every written character printable |
| Text.HexEscapeText | providers/sql/filter_query.go:76 | the `\x`/`\u`/`\U` escape: led by `\`, printable |
| Text.Escape | providers/sql/filter_query.go:76 | the escaped body holds only printable characters |
| Text.Quote | providers/sql/filter_query.go:76-80 | `%q`: enclosed in `"`, only printable characters |
| Text.NextOfEscape | providers/sql/filter_query.go:76 | each escape reads back as the character it was written for, consuming exactly its length |
| Text.NextOfShortEscape | providers/sql/filter_query.go:76 | the same for the character itself, `\"`, `\\` and the seven named escapes |
| Text.NextOfHexEscape | providers/sql/filter_query.go:76 | the same for the hexadecimal escapes |
| Text.HexEscapeOf | providers/sql/filter_query.go:76 | `\x`, `\u` or `\U` with the character's digits reads back as it |
| Text.UnescapeEscape | providers/sql/filter_query.go:76 | the escaped body reads back as the string |
| Text.QuoteRoundTrip | providers/sql/filter_query.go:76-80 | `strconv.Unquote` of the `%q` form of any string gives the string back |
| Text.QuoteNoBreakSpace | providers/sql/filter_query.go:76 | U+00A0 is quoted as `"\u00a0"` |
| Text.EscapeNoBreakSpace | providers/sql/filter_query.go:76 | U+00A0 is escaped as `\u00a0` |
| Text.HexOfNoBreakSpace | providers/sql/filter_query.go:76 | 0xA0 in four digits is `00a0` |
| ModeFilterQuery.ContainsFilterCond | backend/internal/providers/sql/filter_query.go:54-65 | binds `%v0%` only, on the target column; `json_each … like` exactly for a JsonArray hint on `sqlite3`, else LIKE, ILIKE exactly for `postgres` |
| ModeFilterQuery.InFilterCond | backend/internal/providers/sql/filter_query.go:67-85 | binds all values in order; `json_each … in` exactly for a JsonArray hint on `sqlite3`, else a plain IN |
| ModeFilterQuery.MakeInFilterCond | backend/internal/providers/sql/filter_query.go:67-85 | the append loop builds that predicate |
| ModeFilterQuery.FilterCond | backend/internal/providers/sql/filter_query.go:12-52 | fails exactly for an unknown operator or `between` with fewer than two values; otherwise a predicate on the target |
| ModeFilterQuery.MakeFilterCond | backend/internal/providers/sql/filter_query.go:12-52 | the compiler returns exactly that result |
| ModeFilterQuery.ExplicitOperatorWins | backend/internal/providers/sql/filter_query.go:14-15 | a non-empty request operator gives the same result whatever the spec's mode, type and operators |
| ModeFilterQuery.ResolutionOrder | backend/internal/providers/sql/filter_query.go:16-24 | without one: `Mode`, then `in` for `select_multi`, then the sole operator, then `eq` |
| ModeFilterQuery.ComparisonsBindFirstValue | backend/internal/providers/sql/filter_query.go:29-38 | `eq gt lt after before` succeed binding exactly `Values[0]`; `after` is `>` and `before` is `<` |
| ModeFilterQuery.BetweenBindsTwoValues | backend/internal/providers/sql/filter_query.go:41-46 | fewer than two values give the error naming `between`; otherwise the first two are bound in order and extras ignored |
| ModeFilterQuery.JsonInOnSqlite | backend/internal/providers/sql/filter_query.go:69-81 | the exact `EXISTS(select 1 from json_each(col) where value in (?,…))` text, one `?` per value, values in order |
| ModeFilterQuery.InDegradesToPlainIn | backend/internal/providers/sql/filter_query.go:84 | without a JsonArray hint on `sqlite3`, `in` is a plain IN over all values |
| ModeFilterQuery.UnknownOperatorRejected | backend/internal/providers/sql/filter_query.go:51 | any other token fails with `unknown operator in filter '<name>':<op>` |
| UnixFilterQuery.ParseEach | providers/sql/filter_query.go:71-86 | on success, one parsed number per value, each the parse of its value |
| UnixFilterQuery.ParseEachFailsOnFirst | providers/sql/filter_query.go:73-81 | the error quotes the first value that fails to parse |
| UnixFilterQuery.ParseEachAccepts | providers/sql/filter_query.go:71-86 | when every value parses, the result is exactly those numbers in order |
| UnixFilterQuery.ParseUnixValues | providers/sql/filter_query.go:71-86 | the loop with early exit computes that result |
| UnixFilterQuery.ParseUnixValue | providers/sql/filter_query.go:74-81 | one value trimmed, then blank is rejected and the rest parsed as base-10 int64 |
| UnixFilterQuery.Ints | providers/sql/filter_query.go:35-37 | one int argument per number, in order |
| UnixFilterQuery.Coerced | providers/sql/filter_query.go:27-42 | non-datetime values pass through as strings; a datetime filter fails exactly when some value is not a timestamp, and otherwise binds, position by position, the int64 each value parses to |
| UnixFilterQuery.CoerceValues | providers/sql/filter_query.go:27-42 | the append loops compute that coercion |
| UnixFilterQuery.IntValues | providers/sql/filter_query.go:35-37 | the loop over parsed timestamps gives their int arguments |
| UnixFilterQuery.TextValues | providers/sql/filter_query.go:38-42 | the loop over the strings gives their string arguments |
| UnixFilterQuery.ContainsFilterCond | providers/sql/filter_query.go:88-104 | binds `%v0%` (the `%v` form of the first value); `json_each … like` exactly for a JsonArray hint on `sqlite3`, else LIKE/ILIKE by driver |
| UnixFilterQuery.InFilterCond | providers/sql/filter_query.go:106-122 | binds all coerced values in order; `json_each` exactly for a JsonArray hint on `sqlite3` |
| UnixFilterQuery.MakeInFilterCond | providers/sql/filter_query.go:106-122 | the placeholder loop builds that predicate |
| UnixFilterQuery.Dispatch | providers/sql/filter_query.go:44-68 | fails exactly for an unknown operator or `between` with fewer than two values |
| UnixFilterQuery.MakeFilterCond | providers/sql/filter_query.go:13-69 | the compiler (resolve, coerce, dispatch) returns exactly the specified result |
| UnixFilterQuery.ModeIgnored | providers/sql/filter_query.go:15-25 | the spec's `Mode` never changes the result |
| UnixFilterQuery.SoleOperatorBeforeSelectMulti | providers/sql/filter_query.go:17-25 | without an explicit operator: the sole operator, then `in` for `select_multi`, then `eq` |
| UnixFilterQuery.DatetimeValuesBoundAsInts | providers/sql/filter_query.go:29-66 | for every operator a datetime filter binds the parsed int64s: `eq`/`gt`/`after`/`lt`/`before` the first, `between` the first two, `in` all in order, `contains` the first inside `%...%` |
| UnixFilterQuery.ParsedTimestamps | providers/sql/filter_query.go:71-86 | one parse per value, in order |
| UnixFilterQuery.NoBreakSpaceIsNotATimestamp | providers/sql/filter_query.go:74-76 | a lone no-break space is refused and reported as `invalid unix timestamp "\u00a0"` |
| UnixFilterQuery.NoBreakSpaceTrimsAway | providers/sql/filter_query.go:74-75 | `strings.TrimSpace` removes a lone no-break space |
| UnixFilterQuery.NoBreakSpaceError | providers/sql/filter_query.go:76 | its error message, with Go's escape |
| UnixFilterQuery.CoercionBeforeDispatch | providers/sql/filter_query.go:29-33 | the first bad datetime value is reported whatever the operator, even an unknown one |
| UnixFilterQuery.NonDatetimeValuesPassThrough | providers/sql/filter_query.go:38-42 | other values are bound unchanged as strings, in order |
| UnixFilterQuery.BetweenBindsTwoValues | providers/sql/filter_query.go:58-63 | fewer than two values give the error naming `between`; otherwise the first two coerced values in order |
| UnixFilterQuery.JsonContainsOnSqlite | providers/sql/filter_query.go:90-95 | `contains` on a JsonArray column on `sqlite3` is the `json_each … like` predicate binding `%v0%` |
| UnixFilterQuery.UnknownOperatorRejected | providers/sql/filter_query.go:68 | any other token fails with `unknown operator in filter '<name>':<op>` |
| ProviderQuery.LastOrderBy | backend/internal/providers/sql/provider.go:226-242 | the last position before n where a top-level ` order by ` starts, or -1 when there is none |
| ProviderQuery.SplitByOrderBy | backend/internal/providers/sql/provider.go:222-248 | the depth-counting scan returns the specified split |
| ProviderQuery.LastOrderByStep | backend/internal/providers/sql/provider.go:226-242 | one scan step moves the found index exactly when a top-level ` order by ` starts there |
| ProviderQuery.NoOrderByAt | backend/internal/providers/sql/provider.go:228-233 | no ` order by ` starts at a parenthesis |
| ProviderQuery.NoTopLevelOrderBy | backend/internal/providers/sql/provider.go:244-245 | without a top-level ` order by ` the query is returned whole with no ordering |
| ProviderQuery.SplitAtLastTopLevelOrderBy | backend/internal/providers/sql/provider.go:238-247 | otherwise the last one splits the query at its leading space, both halves trimmed |
| ProviderQuery.LastOrderByIs | backend/internal/providers/sql/provider.go:226-242 | the scan finds the last top-level occurrence |
| ProviderQuery.UnmatchedCloseKeepsDepthZero | backend/internal/providers/sql/provider.go:230-233 | a `)` at depth 0 leaves the depth at 0 |
| ProviderQuery.TrimOrderByPrefixStrips | backend/internal/providers/sql/provider.go:213-218 | a case-insensitive leading `order by ` is removed, leaving the terms |
| ProviderQuery.TrimOrderByPrefixKeeps | backend/internal/providers/sql/provider.go:213-220 | otherwise the trimmed input is returned |
| ProviderQuery.PaginationIsStrictKeyset | backend/internal/providers/sql/provider.go:186-203 | no predicate and no ordering exactly when the spec, its column or the cursor is missing; otherwise `col < ?`/`DESC` for `desc`, `col > ?`/`ASC` for anything else, binding the cursor alone |
| ProviderQuery.DescendingPageExample | backend/internal/providers/sql/provider.go:191-203 | `created_at`, `desc` and a cursor give `created_at < ?` ordered `created_at DESC` |
| ProviderQuery.DescIsDescending | backend/internal/providers/sql/provider.go:191-194 | the order `desc` is descending |
| ProviderQuery.InvalidIsAscending | backend/internal/providers/sql/provider.go:191-194 | an unrecognised order counts as ascending |
| ProviderQuery.Conditions | backend/internal/providers/sql/provider.go:158-181 | on success, no more conditions than request filters |
| ProviderQuery.ConditionsErrorSticks | backend/internal/providers/sql/provider.go:174-177 | an error among the first filters is the result for all of them |
| ProviderQuery.BuildFilterConditions | backend/internal/providers/sql/provider.go:148-184 | the loops compute the specified conditions; nothing without a table |
| ProviderQuery.ApplicableFilters | backend/internal/providers/sql/provider.go:159-167 | the kept filters are a subset, each naming a spec with a target and carrying values |
| ProviderQuery.ConditionsFollowRequestOrder | backend/internal/providers/sql/provider.go:158-181 | the conditions are the compiled applicable filters, one each, in request order |
| ProviderQuery.ConditionsFollowRequestOrderOk | backend/internal/providers/sql/provider.go:158-181 | on success every applicable filter compiled |
| ProviderQuery.ConditionsFailIffSomeFails | backend/internal/providers/sql/provider.go:174-177 | the loop fails exactly when some applicable filter fails to compile |
| ProviderQuery.ConditionsFailOnFirstError | backend/internal/providers/sql/provider.go:159-177 | the error is the first failing applicable filter's, and all earlier ones compiled |
| ProviderQuery.SkippedFiltersAddNothing | backend/internal/providers/sql/provider.go:160-167 | a filter without a spec, a target or values adds nothing |
| ProviderQuery.OverfetchLimit | backend/internal/providers/sql/provider.go:136-138 | `uint64(Limit+1)` is Limit+1 for every positive int64 limit, wrap-around included |
| ProviderQuery.BuildQuery | backend/internal/providers/sql/provider.go:109-146 | the step-by-step builder gives the specified statement or the filter error |
| ProviderQuery.AssembleSteps | backend/internal/providers/sql/provider.go:112-138 | the successive builder calls reach the specified builder state |
| ProviderQuery.QueryWrapsBase | backend/internal/providers/sql/provider.go:110-112 | the statement starts `SELECT * FROM (<base>) AS src` |
| ProviderQuery.SelectStartsWithFrom | backend/internal/providers/sql/provider.go:112 | any built statement starts with `SELECT * FROM` and its source |
| ProviderQuery.QueryArgsOrder | backend/internal/providers/sql/provider.go:119-141 | the arguments are the filter arguments in request order, then the cursor when paginating |
| ProviderQuery.AssembleArgs | backend/internal/providers/sql/provider.go:119-126 | the builder's arguments are the conditions' then the pagination predicate's |
| ProviderQuery.ConjunctionArgs | backend/internal/providers/sql/provider.go:119-126 | conjoined conditions carry their arguments in order |
| ProviderQuery.PaginationOrderOverrides | backend/internal/providers/sql/provider.go:128-134 | the pagination ordering replaces the base ORDER BY; without it the stripped base ordering is kept |
| ProviderQuery.QueryOverfetches | backend/internal/providers/sql/provider.go:136-138 | `LIMIT Limit+1` exactly when Limit > 0 |
| ProviderQuery.QueryPlaceholdersMatchArgs | backend/internal/providers/sql/provider.go:119-141 | the statement's WHERE clause has one `?` per argument |
| ProviderFetch.NormalizeCell | backend/internal/providers/sql/provider.go:252-272 | bytes become text; a JsonArray-typed non-empty text that decodes to an array or object is replaced by it; everything else keeps its text |
| ProviderFetch.NormalizedRow | backend/internal/providers/sql/provider.go:250-273 | the same keys, none holding bytes |
| ProviderFetch.NormalizeCellIdempotent | backend/internal/providers/sql/provider.go:250-273 | normalising a cell twice is normalising it once |
| ProviderFetch.NormalizedRowIdempotent | backend/internal/providers/sql/provider.go:250-273 | normalising a row twice is normalising it once |
| ProviderFetch.ScannedRow.constructor | backend/internal/providers/sql/provider.go:77-78 | a scanned row holds the scanned cells |
| ProviderFetch.ScannedRow.Normalize | backend/internal/providers/sql/provider.go:250-273 | the in-place loop leaves the normalised row |
| ProviderFetch.NormalizedRows | backend/internal/providers/sql/provider.go:76-83 | each row normalised, in order |
| ProviderFetch.CursorValue | backend/internal/providers/sql/provider.go:275-281 | `""` for a missing or NULL value; a string value as it is |
| ProviderFetch.IntCursorRoundTrips | backend/internal/providers/sql/provider.go:275-281 | an int64 cursor is printed so that it parses back to itself |
| ProviderFetch.Page | backend/internal/providers/sql/provider.go:89-106 | `HasMore` exactly when the limit is positive and exceeded, the rows then cut to exactly the limit and otherwise all returned (a limit of zero or less included); `Total` the returned count; a cursor only with a column and rows |
| ProviderFetch.OverfetchRevealsMore | backend/internal/providers/sql/provider.go:89-92 | with the `LIMIT n+1` overfetch, more rows exist exactly when the extra row came back, and it is dropped |
| ProviderFetch.NextCursorIsLastRow | backend/internal/providers/sql/provider.go:94-99 | the cursor is the pagination column of the last returned row |
| ProviderFetch.Fetch | backend/internal/providers/sql/provider.go:52-107 | checks, query, run, normalise, page: exactly the specified response or error |
| ProviderFetch.NormalizeAll | backend/internal/providers/sql/provider.go:76-83 | the scan loop yields every row normalised, in order |
| ProviderFetch.TrimPage | backend/internal/providers/sql/provider.go:89-106 | the post-processing yields the specified page |
| ProviderFetch.FetchGuardsFirst | backend/internal/providers/sql/provider.go:53-58 | no database gives `sql provider not configured`; no SQL spec gives `sql provider missing query` |
| ProviderFetch.FetchReturnsNormalizedPage | backend/internal/providers/sql/provider.go:76-106 | a response counts its rows, respects a positive limit and holds no bytes |
| Handlers.ParseWidgetID | backend/internal/server/handlers.go:66-82 | an id is found only under the widgets prefix, is non-empty and free of `/`, and is what follows the prefix with only slashes around it |
| Handlers.SlashesAroundTrim | backend/internal/server/handlers.go:72-73 | trimming slashes off what follows the prefix removes only slashes, at the two ends |
| Handlers.WidgetPathTrimsSlashes | backend/internal/server/handlers.go:72-82 | an id free of `/` with any slashes before and after it, under the prefix, is read back: the converse of `ParseWidgetID`'s contract |
| Handlers.WidgetPathRejectsInnerSlash | backend/internal/server/handlers.go:72-79 | text after the prefix that neither starts nor ends with `/` but holds one names no widget |
| Handlers.WidgetPathExamples | backend/internal/server/handlers.go:72-79 | `<prefix>//a/` gives `a`, and `<prefix>a/b` is refused |
| Handlers.WidgetPathRoundTrip | backend/internal/server/handlers.go:66-82 | the prefix plus an id, with or without a trailing `/`, yields that id |
| Handlers.NoWidgetOutsidePrefix | backend/internal/server/handlers.go:67-76 | no id outside the prefix, nor for the bare prefix |
| Handlers.FirstMatch | backend/internal/server/handlers.go:144-154 | the first widget with that id, or -1 when none has it |
| Handlers.FindWidget | backend/internal/server/handlers.go:144-154 | the nested search returns the first match in page-then-widget order, or not found |
| Handlers.FoundAt | backend/internal/server/handlers.go:144-151 | the widget the nested loops stop at is that first match |
| Handlers.SplitKey | backend/internal/server/handlers.go:95-100 | a key splits at its last `.` into name and operator; without a dot the operator is `""` |
| Text.NonEmpty | backend/internal/server/handlers.go:112-117 | exactly the non-empty values of the input; the same filter is the client's `.filter(item => item !== "")` |
| Handlers.FilterKeys | backend/internal/server/handlers.go:105-111 | distinct (name, operator) pairs, no more than keys, covering every accepted key |
| Handlers.FilterKeysFromEntries | backend/internal/server/handlers.go:105-111 | every pair comes from an accepted key |
| Handlers.Gathered | backend/internal/server/handlers.go:112-117 | a pair's values are all non-empty |
| Handlers.ParsedFilters | backend/internal/server/handlers.go:120-128 | keyed by the (name, operator) pair (the corrected key of "Findings"): one filter per distinct pair, so no more filters than keys |
| Handlers.ParseFilters | backend/internal/server/handlers.go:84-129 | the map-and-order loops, keyed by the pair, compute those filters |
| Handlers.ReadEntry | backend/internal/server/handlers.go:90-117 | one turn of the loop keeps the map and the order equal to what the entries read so far specify |
| Handlers.AddValues | backend/internal/server/handlers.go:105-116 | the pair's filter, created on first sight, gains the entry's non-empty values; the order gains a new pair |
| Handlers.InOrder | backend/internal/server/handlers.go:120-127 | the filters are read out of the map in first-seen order |
| Handlers.IndexedFilters | backend/internal/server/handlers.go:84-129 | the map and order the loop leaves give the specified filters |
| Handlers.AppendValues | backend/internal/server/handlers.go:112-117 | the non-empty values are appended in order |
| Handlers.SkipEntry | backend/internal/server/handlers.go:88-103 | a reserved, empty or nameless key leaves the loop state as it was |
| Handlers.AddEntry | backend/internal/server/handlers.go:105-117 | an accepted key extends its filter, creating it on first sight, keeping the loop invariant |
| Handlers.ParsedFiltersWellFormed | backend/internal/server/handlers.go:88-117 | pairs are distinct, names non-empty, values non-empty, and every filter comes from a key other than `limit`/`offset` |
| Handlers.AcceptedEntriesBecomeFilters | backend/internal/server/handlers.go:105-111 | every accepted key yields a filter with its name and operator |
| Handlers.StringKeys | backend/internal/server/handlers.go:105-111 | the `name&#124;operator` strings, at most one per key |
| Handlers.ParsedFiltersAsWritten | backend/internal/server/handlers.go:84-129 | the code as written: one filter per joined string |
| Handlers.CollidingKeys | backend/internal/server/handlers.go:95-105 | `x&#124;y` and `x.y&#124;` split differently but join to the same string |
| Handlers.JoinedKeysCollide | backend/internal/server/handlers.go:105-117 | as written, those two keys end up as one filter `x&#124;y` holding both values |
| Handlers.PairKeysKeptApart | backend/internal/server/handlers.go:105-117 | keyed by the pair, they stay two filters |
| Handlers.StringKeyInjective | backend/internal/server/handlers.go:105 | with no `&#124;` in the names, equal joined keys come from equal pairs |
| Handlers.PipeInLongerName | backend/internal/server/handlers.go:105 | of two different-length names joined to the same key, the longer holds a `&#124;` |
| Handlers.KeyNameWithoutPipe | backend/internal/server/handlers.go:97-105 | every pair of such a query has a name without `&#124;` |
| Handlers.StringKeysArePairKeys | backend/internal/server/handlers.go:105-116 | then the joined keys are the pair keys joined, in the same first-seen order |
| Handlers.GatheredByStringIsGathered | backend/internal/server/handlers.go:105-116 | then the values under a joined key are those under its pair |
| Handlers.FirstSplitFindsPair | backend/internal/server/handlers.go:106-112 | then the first entry with a joined key names its pair |
| Handlers.AsWrittenAgreesWithoutPipes | backend/internal/server/handlers.go:84-129 | when no filter name contains `&#124;`, the code as written and the pair-keyed model give the same filters, and so does the handler's request |
| Handlers.ParseInt | backend/internal/server/handlers.go:131-142 | the parsed int64 when the text is one, the fallback otherwise (empty included) |
| Handlers.ParseIntRoundTrip | backend/internal/server/handlers.go:131-142 | the decimal form of an int64 parses back to it |
| Handlers.Get | backend/internal/server/handlers.go:51-52 | the first value of the key's first entry, `""` when that entry has no values or the key is absent |
| Handlers.MakeDataRequest | backend/internal/server/handlers.go:50-54 | the limit is the `limit` value when it reads as an int64, else 50; the cursor is the `offset` value; the filters are the pair-keyed parsed filters |
| Handlers.RequestReadsFirstValues | backend/internal/server/handlers.go:50-54 | a first `limit` value printed from an int64 gives that limit, and a first `offset` value becomes the cursor |
| Handlers.RequestDefaults | backend/internal/server/handlers.go:50-54 | limit 50 when `limit` is absent or not a number; no `offset` gives an empty cursor |
| ServerPaths.NormalizePrefix | backend/internal/server/server.go:81-90 | empty, or starting with `/` |
| ServerPaths.NoPrefixIffBlankOrRoot | backend/internal/server/server.go:82-85 | empty exactly when the trimmed input is blank or `/` |
| ServerPaths.TrimsOneTrailingSlash | backend/internal/server/server.go:86-89 | the slash-led trimmed input, at most one trailing `/` dropped |
| ServerPaths.DoubleTrailingSlashKeepsOne | backend/internal/server/server.go:89 | `w//` gives `/w/`, which normalises again to `/w`: not idempotent |
| ServerPaths.NormalizeUntrimmable | backend/internal/server/server.go:81-90 | input with nothing to trim only has its slashes adjusted |
| ServerPaths.NormalFormIsFixed | backend/internal/server/server.go:81-90 | a prefix already in normal form is returned unchanged |
| ServerPaths.Server.constructor | backend/internal/server/server.go:42-47 | the server stores the configuration and its normalised prefix |
| ServerPaths.Server.WithPathPrefix | backend/internal/server/server.go:30-34 | the option stores the normalised prefix and nothing else |
| ServerPaths.ApiPathsNest | backend/internal/server/server.go:69-79 | the API paths are the prefix followed by `/api/`, `/api/config` and `/api/widgets/` |
| PathPrefix.NormalizePrefix | frontend/src/pathPrefix.ts:3-8 | empty or starting with `/`; empty for null/undefined |
| PathPrefix.TrimsExactlyOneSlash | frontend/src/pathPrefix.ts:6-7 | one trailing `/` is removed when present, else the slash-led text is kept |
| PathPrefix.SpacesAgree | frontend/src/pathPrefix.ts:4 | JavaScript and Go white space differ only on NEL and the byte-order mark |
| PathPrefix.TrimsAgreeOn | frontend/src/pathPrefix.ts:4 | without those characters, JavaScript `trim` and Go `TrimSpace` agree |
| PathPrefix.SlashStepsAgree | frontend/src/pathPrefix.ts:5-7 | after trimming, both sides adjust slashes alike |
| PathPrefix.AgreesWithServer | frontend/src/pathPrefix.ts:3-8 | the client's and the server's normalisation agree on every input without NEL or the byte-order mark |
| PathPrefix.DiffersOnNel | frontend/src/pathPrefix.ts:3-8 | a lone NEL: the server gives `""`, the client `/` + NEL |
| PathPrefix.NelIsBlankToServer | backend/internal/server/server.go:82-85 | NEL alone is blank to Go |
| PathPrefix.NelIsKeptByClient | frontend/src/pathPrefix.ts:3-8 | NEL alone becomes a one-character prefix on the client |
| PathPrefix.PrefixStore.constructor | frontend/src/pathPrefix.ts:10-16 | the initial prefix is the normalised `<meta>` content |
| PathPrefix.PrefixStore.SetPathPrefix | frontend/src/pathPrefix.ts:22-24 | stores the normalised prefix |
| PathPrefix.PrefixStore.WithPathPrefix | frontend/src/pathPrefix.ts:26-31 | the current prefix, then exactly one `/`, then the path without its leading `/` |
| PathPrefix.ClientPathsMatchServerRoutes | frontend/src/pathPrefix.ts:26-31 | with the server's prefix, `withPathPrefix` applied to `/api/config` or `/api/widgets/<id>` gives the server's route |
| PathPrefix.UnprefixedPathsNeedRoot | frontend/src/api.ts:4-16 | the unprefixed paths `api.ts` requests are the server's routes exactly when the server has no prefix |
| FilterPanel.WithoutEq | frontend/src/components/FilterPanel.tsx:203 | exactly the operators other than `eq` |
| FilterPanel.WithoutEqKeepsOthers | frontend/src/components/FilterPanel.tsx:203 | a list without `eq` is kept as it is, in order |
| FilterPanel.ResolveOperators | frontend/src/components/FilterPanel.tsx:200-210 | never empty and never `eq`; with operators, `""` replaces `eq` first; without, `["in"]` for `select_multi` else `[""]` |
| FilterPanel.Lookup | frontend/src/components/FilterPanel.tsx:235 | an entry exists exactly for the ids in the state |
| FilterPanel.Put | frontend/src/components/FilterPanel.tsx:240-243 | sets one id, leaves the others, appends a new id at the end |
| FilterPanel.BuildFilterIndex | frontend/src/components/FilterPanel.tsx:220-223 | the reduce builds the id-to-spec index, later specs winning |
| FilterPanel.EmptyStateLookup | frontend/src/components/FilterPanel.tsx:212-217 | each spec id maps to its first resolved operator with no values; no other id has an entry |
| FilterPanel.EmptyStateDistinct | frontend/src/components/FilterPanel.tsx:212-217 | one entry per id |
| FilterPanel.EmptyStateShape | frontend/src/components/FilterPanel.tsx:212-217 | exactly one entry per spec id, with the default operator and no values |
| FilterPanel.EmptyFilterState | frontend/src/components/FilterPanel.tsx:212-217 | the reduce builds that state |
| FilterPanel.KeyParts | frontend/src/components/FilterPanel.tsx:229-231 | split at the last `.`; no operator without a dot |
| FilterPanel.NormalizeFilterValue | frontend/src/components/FilterPanel.tsx:294-299 | non-datetime values are kept as they are |
| Text.NonEmptyKeeps | frontend/src/components/FilterPanel.tsx:242 | values that are all non-empty are kept whole |
| FilterPanel.ParseFilterParams | frontend/src/components/FilterPanel.tsx:219-249 | the loop with its `hasFilters` flag computes the specified state |
| FilterPanel.Collected | frontend/src/components/FilterPanel.tsx:236-243 | the values collected for a filter are non-empty |
| FilterPanel.ParseStepFlag | frontend/src/components/FilterPanel.tsx:228-234 | the flag is set exactly by a key naming a known filter; other keys change nothing |
| FilterPanel.ParseStepHit | frontend/src/components/FilterPanel.tsx:235-243 | a known key appends its normalised non-empty value and takes the key's operator if it has one |
| FilterPanel.ParseStepMiss | frontend/src/components/FilterPanel.tsx:228-232 | other keys leave the entry as it was |
| FilterPanel.ParseFoldIds | frontend/src/components/FilterPanel.tsx:227-244 | the loop keeps exactly the ids of the empty state |
| FilterPanel.ParseFoldTracks | frontend/src/components/FilterPanel.tsx:227-244 | each filter ends with the last key-given operator (else the default) and its non-empty values in order |
| FilterPanel.ParsedStateShape | frontend/src/components/FilterPanel.tsx:219-249 | the parsed state has the empty state's ids and those entries |
| FilterPanel.NoFilterKeys | frontend/src/components/FilterPanel.tsx:245-247 | when no key named a filter, the loop left the empty state |
| FilterPanel.NoFilterKeyGivesEmptyState | frontend/src/components/FilterPanel.tsx:245-247 | with only `limit`, `offset` and unknown keys, the result is the empty state |
| FilterPanel.SearchParams.constructor | frontend/src/components/FilterPanel.tsx:252 | new parameters are empty |
| FilterPanel.SearchParams.Append | frontend/src/components/FilterPanel.tsx:272 | appends one pair at the end |
| FilterPanel.SerializeFilterValue | frontend/src/components/FilterPanel.tsx:301-309 | non-datetime or all-digit values are written unchanged |
| FilterPanel.ParamKey | frontend/src/components/FilterPanel.tsx:264-266 | the bare id exactly for an empty operator or `in` on `select_multi`; otherwise `id.op` |
| FilterPanel.AllValues | frontend/src/components/FilterPanel.tsx:267-277 | every pair has the filter's key and a non-empty value |
| FilterPanel.FilterParams | frontend/src/components/FilterPanel.tsx:260-284 | nothing for a filter with no values or no spec |
| FilterPanel.AppendFilters | frontend/src/components/FilterPanel.tsx:251-285 | appends exactly the parameters of every filter, in state order |
| FilterPanel.AppendFilter | frontend/src/components/FilterPanel.tsx:260-284 | appends exactly one filter's parameters |
| FilterPanel.AppendAll | frontend/src/components/FilterPanel.tsx:268-275 | the `forEach` appends every serialised non-empty value in order |
| FilterPanel.FilterParamsCount | frontend/src/components/FilterPanel.tsx:260-284 | one key; at most one parameter, from `values[0]`, unless `between` or `select_multi`, which emit every non-empty value in order |
| FilterPanel.AllValuesPlain | frontend/src/components/FilterPanel.tsx:267-275 | non-datetime: the emitted values are the non-empty values in order |
| FilterPanel.ParamKeysReadBack | frontend/src/components/FilterPanel.tsx:264-266 | a key the client writes is split back by the client and by the server into the same id and operator |

## Left out

- Database I/O: `Init` and `sqlx.Open`, `Rebind`, `QueryxContext`, `MapScan` and `rows.Err`.
  The database is a `Connection` value, a driver name plus a function from the statement to
  the rows or an error. The debug `fmt.Println` is not modelled.
- JSON decoding in `normalizeRow` is a function parameter (`decode`) that answers an array,
  an object, a scalar, or nothing.
- ProviderFetch.CursorValue: `fmt.Sprint` is exact only for strings and integers. Every
  other kind of value is printed by a parameter (`sprint`).
- squirrel is modelled only as far as the statements the provider builds: the predicates, successive `Where` calls joined by `AND`, one `ORDER BY`, `LIMIT`, and `?` placeholders.
- Text.ToLower: lower-cases ASCII letters only. `splitByOrderBy` indexes the original
  string by byte offsets of its lower-cased copy, which is only sound for ASCII.
- Handlers.ParseFilters: the loop and `Handlers.MakeDataRequest` key filters by the
  (name, operator) pair, not by the joined string `name + "|" + operator` of
  handlers.go:105. They differ from the code only when a filter name contains `|`
  (`Handlers.AsWrittenAgreesWithoutPipes`); the code as written is
  `Handlers.ParsedFiltersAsWritten`.
- Handlers.ParseFilters: `url.Values` is a Go map, whose iteration order is not fixed. The
  model reads the query string as a sequence of keys in the order the loop visits them.
- HTTP plumbing is not modelled: handler writes and status codes, the mux in `Server.Handler`, `renderIndexHTML`, `handleConfig`, and the provider registry lookup.
- ServerPaths.Server.WithPathPrefix: the Go functional option is a method on the server,
  not a closure that `New` applies.
- ModeFilterQuery.FilterCond and UnixFilterQuery.FilterCond require a first value whenever
  the operator reads `Values[0]`. The Go code panics there. `buildFilterConditions` never
  calls it without values.
- ProviderQuery.BuildQuery, ProviderFetch.Fetch: require the request limit to fit in an
  int64, which Go's `int` guarantees.
- Date conversions of `datetime` filters in `FilterPanel.tsx` are the parameters
  `fromUnix` and `toUnix`: `fromUnixTimestamp`, `toUnixTimestamp`, the local timezone
  offset, and the `console.log`. Only the non-datetime and all-digit paths are exact.
- URL encoding and decoding by `URLSearchParams` is not modelled: query strings are lists of decoded (key, value) pairs.
- FilterPanel state records are lists of entries in insertion order. The model does not capture two JavaScript object behaviours:
  - integer-like keys, which JavaScript enumerates first;
  - inherited prototype names such as `toString`, which `filterIndex[id]` would find.
- Text.Quote: Go's `strconv.IsPrint` table is reduced to ASCII, the C1 controls, the Unicode
  white space, the soft hyphen, the common invisible format characters and the private-use
  areas. Other code points Go escapes (unassigned ones, rarer format characters) are
  written as they are. Strings are sequences of characters, so the `\x` escapes Go writes
  for bytes that are not valid UTF-8 do not arise.
- The client's requests in `frontend/src/api.ts` go to `/api/config` and `/api/widgets/<id>`
  without `withPathPrefix`. `PathPrefix.UnprefixedPathsNeedRoot` states when they reach the
  server's routes; the model does not say that the client prefixes them.
- `readMetaPrefix` reads from the DOM. Its result is the constructor parameter of
  `PathPrefix.PrefixStore`.
- Configuration loading, the React components and the build configuration are not part of this model.

## Findings

| source | as written | input that shows it | evidently intended | confidence | as-written member | corrected member |
|---|---|---|---|---|---|---|
| backend/internal/server/handlers.go:105 | filters are merged under the string `name + "&#124;" + operator`, so two different (name, operator) pairs that join to the same string share one filter | query keys `x&#124;y=1` (name `x&#124;y`, no operator) and `x.y&#124;=2` (name `x`, operator `y&#124;`) give one filter `x&#124;y` with values `1`, `2` | one filter per (name, operator) pair: `x&#124;y` with `1`, and `x` / `y&#124;` with `2` | low, not executed | Handlers.JoinedKeysCollide | Handlers.PairKeysKeptApart |
