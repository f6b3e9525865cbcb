# SQL grid builder: allow-list, type mapping and data source rewriting in Dafny

This project models the server of the SQL grid builder sample. The server reads an allow-list of tables and named queries (`schemas/allowedTables.json`) and describes the columns of one of them. From those columns it builds a dashboard document with one grid. A data source provider rewrites the SQL Server data sources and items of that dashboard before they reach the database.

What is modelled:

- **Type mapping.** `MapSqlDataTypeToRevealDataType` upper-cases a SQL type name and runs it through a switch of six arms. The first matching arm wins, and unlisted names give `"String"`. "BIT" is listed under both Boolean and Unsupported, and the Boolean arm comes first.
- **Columns and fields.** The two SQL readers become input sequences of rows (`DescribedColumn`, `SchemaColumn`). Each row becomes a `ColumnInfo` record. `MapColumnsToRevealFields` turns the columns into number, date or text fields.
- **Endpoints.** The three endpoints are modelled with the SQL server replaced by a `Database` value and the allow-list file replaced by its load outcome (`AllowListLoad`): `GET /tables`, `GET /tables/{tableName}/columns` and `GET /dashboard/{tableName}`. The dashboard endpoint looks the name up ignoring case and chooses between describing the stored query and reading INFORMATION_SCHEMA. Zero columns gives 404. `CreateDashboard` picks the title, the Ids and the Table.
- **Allow-list cache.** `GetTablesWithCaching` keeps `(_cachedTables, _lastCacheRefresh)` in static fields with a five-minute freshness window. It is modelled twice:
  - as a pure state machine (`TableCache`), with lemmas about sequences of calls;
  - as a class (`Provider.DataSourceProvider`) whose method is proved against that state machine.
- **Data source rewriting.** `ChangeDataSourceAsync` applies configured host and database values that are neither missing nor empty. `ChangeDataSourceItemAsync` looks the item Id up as a QUERY entry. When the entry has query text, the method sets `CustomQuery` and clears `Table`.

Case-insensitive comparison (`StringComparison.OrdinalIgnoreCase`, `ToUpper()`) is modelled by `Text.Upper` and `Text.EqIgnoreCase` on ASCII letters. Clock readings are integer ticks of 100 ns, and `DateTime.MinValue` is tick 0.

Where the code and the design intent differ, the model follows the code:

- A failed reload of a stale cache returns null. It does not return the last good list. The state is left as it was, so the next call attempts to load it again (`TableCache.StaleFailureReturnsNull`).
- Deserialised `null` counts as a successful load. It empties the cache and stamps the refresh time, so the next call reloads because nothing is cached (`TableCache.NullLoadEmptiesCache`).

One behaviour the lemmas bring out (`QueryDashboards.QueryWithoutText`): take a QUERY entry with no query text. The dashboard endpoint reads that name's columns from INFORMATION_SCHEMA. It still builds a query-style item, with Id equal to the name and an empty Table. The provider finds the entry but has no text to substitute, so the item reaches the data layer with an empty Table.

## Model

| member | source | states |
|---|---|---|
| Text.EqIgnoreCase | sql-grid-builder/server/net-core/Program.cs:146 | ordinal ignore-case equality, compared character by character, holds exactly when the upper-case forms are equal |
| AllowList.IsQueryType | sql-grid-builder/server/net-core/Program.cs:154 | `isQuery`, and the TYPE test of the provider's lookup (Reveal/DataSourceProvider.cs:87): holds iff TYPE is present and equals QUERY ignoring case |
| AllowList.FirstWhere | sql-grid-builder/server/net-core/Program.cs:146 | `FirstOrDefault`: none iff no element satisfies the predicate; otherwise the result is an element that satisfies it and no earlier element does |
| AllowList.FindByName | sql-grid-builder/server/net-core/Program.cs:146-151 | the dashboard lookup returns the first entry whose TABLE_NAME equals the name ignoring case, of any TYPE; it returns none (404) iff no entry matches |
| AllowList.FindQuery | sql-grid-builder/server/net-core/Reveal/DataSourceProvider.cs:85-87 | the provider lookup returns the first entry whose TABLE_NAME matches ignoring case and whose TYPE is "QUERY" ignoring case; it returns none iff there is no such entry |
| AllowList.FindQueryAgreesWithFindByName | sql-grid-builder/server/net-core/Reveal/DataSourceProvider.cs:84-87 | when the first entry with a given name is a QUERY, the provider's query lookup returns that same entry |
| TypeMapping.MapSqlDataTypeToRevealDataType | sql-grid-builder/server/net-core/Program.cs:334-350 | total: every type name maps to one of String, Number, Date, Time, Boolean, Unsupported |
| TypeMapping.Categories | sql-grid-builder/server/net-core/Program.cs:336-347 | both directions, per display type: Number, Date, Time and Boolean each come from exactly the names of their arm; Unsupported from its arm minus "BIT"; String from the String arm or any unlisted name (upper-cased) |
| TypeMapping.CaseInsensitive | sql-grid-builder/server/net-core/Program.cs:336 | names equal ignoring case map to the same display type |
| TypeMapping.BitIsBoolean | sql-grid-builder/server/net-core/Program.cs:344-346 | "BIT" in any case maps to Boolean, because the Boolean arm precedes the Unsupported arm that also lists it |
| TypeMapping.Examples | sql-grid-builder/server/net-core/Program.cs:338-342 | "varchar" gives String, "INT" gives Number, "datetime" gives Date |
| TypeMapping.MoreExamples | sql-grid-builder/server/net-core/Program.cs:343-347 | "time" gives Time, "bit" gives Boolean, "blob" gives Unsupported, and the unlisted "xml" gives String |
| Columns.QueryColumn | sql-grid-builder/server/net-core/Program.cs:177-189 | a described row gives an empty table name; a null name or type reads as ""; MaxLength is present iff the `short` max_length is positive, and then equals it; Nullable is "Yes"/"No" from the flag; the display type comes from the mapping |
| Columns.TableColumn | sql-grid-builder/server/net-core/Program.cs:221-229 | an INFORMATION_SCHEMA row keeps its table name, column name, type, maximum length (null stays null) and Yes/No; its display type comes from the mapping |
| Columns.ReadQueryColumns | sql-grid-builder/server/net-core/Program.cs:174-190 | the reader loop gives exactly one column per described row, in row order |
| Columns.ReadTableColumns | sql-grid-builder/server/net-core/Program.cs:218-231 | the reader loop gives exactly one column per INFORMATION_SCHEMA row, in row order |
| Columns.FieldKindOf | sql-grid-builder/server/net-core/Program.cs:310-328 | number field iff "Number"; date field iff "Date" or "Time"; text field for everything else, null included |
| Columns.MapColumnsToRevealFields | sql-grid-builder/server/net-core/Program.cs:303-333 | one field per column, in order, each named and labelled by the column name, with the kind its display type selects |
| Columns.FieldKindFollowsSqlType | sql-grid-builder/server/net-core/Program.cs:310-347 | for a column typed by the mapping: a number field iff the upper-cased SQL type is in the Number arm; a date field iff it is in the Date or Time arm |
| Endpoints.GetTables | sql-grid-builder/server/net-core/Program.cs:47-67 | a missing file gives 404 and a read or parse failure gives a problem response; otherwise the parsed list, possibly null, is returned |
| Endpoints.GetTableColumns | sql-grid-builder/server/net-core/Program.cs:74-120 | the columns endpoint reads schema "dbo" and the requested table, one column per row, in order |
| Endpoints.ChooseColumnSource | sql-grid-builder/server/net-core/Program.cs:154-195 | the result-set description runs iff TYPE is QUERY ignoring case and QUERY is non-empty, and it describes that text; otherwise INFORMATION_SCHEMA is read with TABLE_SCHEMA, or "dbo" when none, and the requested name |
| Endpoints.CreateDashboard | sql-grid-builder/server/net-core/Program.cs:245-300 | title is the friendly name, else "Dynamic Grid - name"; for a query, item Id and grid Id are the name and Table is ""; for a table they are "myTable", "myGrid" and the name; one field and one grid column per column; host and database come from the settings or their fallbacks |
| Endpoints.GetDashboard | sql-grid-builder/server/net-core/Program.cs:128-242 | a missing file gives 404; a parse failure gives a server error; a null list or a name not in the list gives 404; zero columns from the chosen command gives 404 tagged query or table; otherwise the document is the one `CreateDashboard` promises for those columns, with `isQuery` from TYPE and the entry's friendly name |
| TableCache.LockedRefresh | sql-grid-builder/server/net-core/Reveal/DataSourceProvider.cs:105-134 | a fresh cache is returned with no load attempt and no change; otherwise a load is attempted (a missing file is only checked for); a successful parse, null included, replaces the state wholesale and stamps `now`; a missing file or a parse failure returns null and leaves the state untouched |
| TableCache.IsFresh | sql-grid-builder/server/net-core/Reveal/DataSourceProvider.cs:102-108 | the freshness test of both checks: holds iff a list is cached and `now - lastCacheRefresh` is under five minutes, a negative difference (a clock set back) included |
| TableCache.GetTablesWithCaching | sql-grid-builder/server/net-core/Reveal/DataSourceProvider.cs:102-103 | fast path: while the list is cached and less than five minutes old, it is returned with no load attempt and no state change |
| TableCache.FastPathIsOnlyAShortcut | sql-grid-builder/server/net-core/Reveal/DataSourceProvider.cs:102-109 | for calls one after another, the unsynchronised check never changes the outcome of the locked re-check |
| TableCache.Run | sql-grid-builder/server/net-core/Reveal/DataSourceProvider.cs:99-135 | a driver for the lemmas below: a sequence of calls returns one list per call and attempts at most one load per call (a missing file counts as an attempt, though it is only checked for, not read) |
| TableCache.NoReloadWithinWindow | sql-grid-builder/server/net-core/Reveal/DataSourceProvider.cs:102-103 | any number of calls inside the freshness window read nothing, change nothing and all return the cached list |
| TableCache.LoadServesWindow | sql-grid-builder/server/net-core/Reveal/DataSourceProvider.cs:117-127 | a successful load at `now` is read once and then served to every call in the next five minutes |
| TableCache.FailuresKeepState | sql-grid-builder/server/net-core/Reveal/DataSourceProvider.cs:111-133 | however many calls fail to read or parse, the cached list and refresh time stay as they were |
| TableCache.NullLoadEmptiesCache | sql-grid-builder/server/net-core/Reveal/DataSourceProvider.cs:116-126 | a stale call whose file deserialises to null returns null and leaves nothing cached, so the next call, however soon, attempts a load again from the emptied state stamped `now` |
| TableCache.StaleFailureReturnsNull | sql-grid-builder/server/net-core/Reveal/DataSourceProvider.cs:129-133 | a failed reload of a stale cache returns null, not the previous list, and leaves the cache stale for later calls |
| TableCache.LockQueue | sql-grid-builder/server/net-core/Reveal/DataSourceProvider.cs:105-109 | a driver for the lemmas below: callers queued on the lock each get one result |
| TableCache.QueueBehindFreshList | sql-grid-builder/server/net-core/Reveal/DataSourceProvider.cs:107-109 | callers that take the lock after the list became fresh read nothing and all get that list |
| TableCache.RacingCallersReloadOnce | sql-grid-builder/server/net-core/Reveal/DataSourceProvider.cs:105-127 | of any number of callers that raced past the fast path, only the first reads the file when its read succeeds; every caller gets that list |
| Provider.QueryInfo | sql-grid-builder/server/net-core/Reveal/DataSourceProvider.cs:79-87 | no result for a null or empty list; otherwise the result is the first entry of the list that is a QUERY of that name, and there is none iff no entry is |
| Provider.DataSourceProvider.constructor | sql-grid-builder/server/net-core/Reveal/DataSourceProvider.cs:16-24 | at process start nothing is cached, the last refresh is `DateTime.MinValue` and the file has not been read |
| Provider.DataSourceProvider.GetTablesWithCaching | sql-grid-builder/server/net-core/Reveal/DataSourceProvider.cs:99-135 | the static fields, the returned list and the count of load attempts follow the cache state machine, step by step |
| Provider.DataSourceProvider.GetQueryInfoFromJson | sql-grid-builder/server/net-core/Reveal/DataSourceProvider.cs:72-94 | a null or empty id returns null without touching the cache; otherwise the cache takes one step and the result is the QUERY entry of that name in the returned list |
| Provider.DataSourceProvider.ChangeDataSourceAsync | sql-grid-builder/server/net-core/Reveal/DataSourceProvider.cs:49-65 | a SQL Server data source takes each of host and database from the settings only when that value is neither missing nor empty; nothing else changes |
| Provider.DataSourceProvider.ChangeDataSourceItemAsync | sql-grid-builder/server/net-core/Reveal/DataSourceProvider.cs:26-47 | non-SQL-Server items, their data sources and the cache are untouched; a SQL Server item has its data source updated, and the cache takes one step unless its Id is null or empty; when its Id names a QUERY entry with non-empty text, CustomQuery becomes that text and Table is cleared; otherwise both are kept; Id and title never change |
| QueryDashboards.QueryDashboardIdResolves | sql-grid-builder/server/net-core/Program.cs:264-267 | a dashboard built for a QUERY entry has an item Id under which the provider finds that same entry, when the provider's list is the one the endpoint read (the provider's cache can be up to five minutes older and is parsed ignoring property-name case) |
| QueryDashboards.QueryWithoutText | sql-grid-builder/server/net-core/Program.cs:154-195 | a QUERY entry without query text gets its columns from INFORMATION_SCHEMA, yet its item has an empty Table, and the provider finds the entry with no text to substitute |

## Left out

- HTTP hosting, routing, CORS, Swagger and `async`/`Task` wrapping are framework plumbing. Each endpoint is a method from its inputs to a response value.
- Opening the SQL connection and running the commands is not modelled. The reader rows are inputs, given by the `Database` value. Exceptions from the database (a failed connection, a DBNull read with `GetString`) are not modelled.
- File access and `JsonSerializer` are not modelled: `AllowListLoad` is the outcome of reading and parsing the allow-list. `Program.cs` parses without case-insensitive property names and the provider parses with them. Both are given the same abstract outcome.
- Deleting `dashboards/underlyingdata.rdash` before a dashboard is built, and `document.Save`, are file I/O.
- The dashboard library's object model is not modelled. Only the values the code chooses are kept in `DashboardDocument`. Fixed presentation settings are left out because they are constants passed to the library: the data source title "NorthwindCloud" and empty subtitle, column span 3, `IsTitleVisible = true`, row span 4, font size, page size 30, paging and fixed first column. The grid constructor's title "Dynamic Grid" is overwritten by `Title = title`, which the model keeps.
- The `lock` and the sharing of static fields between threads are not modelled. The lock serialises the locked sections, and `TableCache.LockQueue` models callers that pass the fast path and then enter the lock one after another.
- TableCache.GetTablesWithCaching: one call reads the clock once. The source reads `DateTime.Now` up to three times: the fast check, the locked re-check and the refresh stamp.
- Text.EqIgnoreCase: case mapping covers ASCII letters only. Culture-dependent upper-casing by `ToUpper()` and non-ASCII case folding are not modelled.
- Provider.DataSourceProvider.GetQueryInfoFromJson: the `catch` is not modelled. `GetTablesWithCaching` catches its own read and parse failures, but a `null` element of the allow-list makes the lookup's lambda throw, which this `catch` turns into a null result.
- A `null` element of the allow-list array (`[null, {...}]`) is not modelled: `AllowListLoad.Loaded` holds a list of entries, none of them null. In the source, such an element reached before the first match throws in the lookup; the provider then returns null and the dashboard endpoint fails with a server error, since its lookup is outside any `try`.
- The `Console.WriteLine` logging in both `catch` blocks of the provider is output only and is not modelled; the failures themselves are (a null result).
- The static cache is one `DataSourceProvider` object. The object stands for the process-wide fields, and its settings stand for the injected configuration.
- `AuthenticationProvider.cs` and the `basic-load-dashboards` sample are not part of this model. They pass credentials and files to the library and contain no logic of their own.
- The `DOM - SqlTableGenerator` sample is not part of this model. It is an earlier copy of the same endpoints and mapping, with its own type switch, `MapColumnsToRevealFields` and `/dashboard/{tableName}` handler, but without the allow-list: it fixes the schema to "dbo", hardcodes host and database and uses grid Id "GridVS".
