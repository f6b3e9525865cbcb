/**
 * The HTTP endpoints of the server, with the SQL connection replaced by a
 * `Database` value and the allow-list file by its load outcome: the
 * allow-list listing, the table column listing, and the dashboard endpoint
 * with its helper `CreateDashboard`.
 */
module Endpoints {
  import opened Wrappers
  import opened Text
  import opened Configuration
  import opened AllowList
  import opened Columns

  /**
   * What the two SQL commands return: `sys.sp_describe_first_result_set` for
   * a query text, and the INFORMATION_SCHEMA join for a schema and table name.
   */
  datatype Database = Database(
    describeFirstResultSet: string -> seq<DescribedColumn>,
    informationSchemaColumns: (string, string) -> seq<SchemaColumn>)

  /** Schema used when an allow-list entry names none. */
  const DefaultSchema := "dbo"
  /** Fallbacks for a missing `DatabaseSettings:Host` / `DatabaseSettings:Database`. */
  const DefaultHost := "jberes.database.windows.net"
  const DefaultDatabase := "NorthwindCloud"

  /** `GET /tables`: the allow-list as parsed (possibly null), or the error response. */
  datatype TablesResponse = TablesFileNotFound | TablesProblem | TablesOk(tables: Option<seq<TableInfo>>)

  function GetTables(load: AllowListLoad): (r: TablesResponse)
    ensures r.TablesFileNotFound? <==> load.Missing?
    ensures r.TablesProblem? <==> load.ParseError?
    ensures r.TablesOk? ==> r.tables == (if load.Loaded? then Some(load.tables) else None)
  {
    match load
    case Missing => TablesFileNotFound
    case ParseError => TablesProblem
    case LoadedNull => TablesOk(None)
    case Loaded(tables) => TablesOk(Some(tables))
  }

  /** `GET /tables/{tableName}/columns`: the columns of `tableName` in schema "dbo", in the reader's order. */
  method GetTableColumns(tableName: string, db: Database) returns (columns: seq<ColumnInfo>)
    ensures var rows := db.informationSchemaColumns(DefaultSchema, tableName);
      |columns| == |rows| && forall i :: 0 <= i < |rows| ==> columns[i] == TableColumn(rows[i])
  {
    columns := ReadTableColumns(db.informationSchemaColumns(DefaultSchema, tableName));
  }

  /** Which SQL command collects an entry's columns. */
  datatype ColumnSource =
    | DescribeResultSet(tsql: string)
    | InformationSchema(schema: string, table: string)

  /**
   * The branch of the dashboard endpoint: describe the stored query when the
   * entry is a QUERY with non-empty query text, otherwise read the table's
   * columns from INFORMATION_SCHEMA under the entry's schema, "dbo" when it
   * has none, and the requested name.
   */
  function ChooseColumnSource(entry: TableInfo, tableName: string): (s: ColumnSource)
    ensures s.DescribeResultSet? <==> IsQueryType(entry.kind) && !IsNullOrEmpty(entry.query)
    ensures s.DescribeResultSet? ==> Some(s.tsql) == entry.query && s.tsql != ""
    ensures s.InformationSchema? ==>
      && s.table == tableName
      && s.schema == (if entry.tableSchema.Some? then entry.tableSchema.value else DefaultSchema)
  {
    if IsQueryType(entry.kind) && !IsNullOrEmpty(entry.query) then DescribeResultSet(entry.query.value)
    else InformationSchema(if entry.tableSchema.Some? then entry.tableSchema.value else DefaultSchema, tableName)
  }

  /** The number of rows the chosen command returns. */
  function RowCount(db: Database, source: ColumnSource): nat
  {
    match source
    case DescribeResultSet(tsql) => |db.describeFirstResultSet(tsql)|
    case InformationSchema(schema, table) => |db.informationSchemaColumns(schema, table)|
  }

  /** The values the dashboard document is built from (the library's object model is not modelled). */
  datatype DashboardDocument = DashboardDocument(
    title: string,
    host: string,
    database: string,
    itemTitle: string,
    itemId: string,
    itemTable: string,
    itemSubtitle: string,
    fields: seq<Field>,
    gridTitle: string,
    gridId: string,
    gridDescription: string,
    gridColumns: seq<string>)

  /**
   * `CreateDashboard`'s choices: the friendly name or "Dynamic Grid - <name>"
   * as title; for a query, Id and grid Id are the requested name and Table is
   * empty; for a table, Id "myTable", grid Id "myGrid" and Table the name;
   * one field and one grid column per column, in order; host and database
   * from the settings or their fallbacks.
   */
  ghost predicate IsDashboardFor(doc: DashboardDocument, columns: seq<ColumnInfo>, tableName: string,
                                 isQuery: bool, friendlyName: Option<string>, settings: Settings)
  {
    && doc.title == (if friendlyName.Some? then friendlyName.value else "Dynamic Grid - " + tableName)
    && doc.itemTitle == doc.title && doc.gridTitle == doc.title
    && doc.itemId == (if isQuery then tableName else "myTable")
    && doc.itemTable == (if isQuery then "" else tableName)
    && doc.gridId == (if isQuery then tableName else "myGrid")
    && doc.itemSubtitle == "Data from " + tableName
    && doc.gridDescription == "Grid visualization for " + tableName
    && doc.host == (if settings.host.Some? then settings.host.value else DefaultHost)
    && doc.database == (if settings.database.Some? then settings.database.value else DefaultDatabase)
    && |doc.fields| == |columns| == |doc.gridColumns|
    && forall i :: 0 <= i < |columns| ==>
         && doc.fields[i] == FieldOf(columns[i])
         && doc.gridColumns[i] == columns[i].columnName
  }

  method CreateDashboard(columns: seq<ColumnInfo>, tableName: string, isQuery: bool,
                         friendlyName: Option<string>, settings: Settings)
    returns (doc: DashboardDocument)
    ensures IsDashboardFor(doc, columns, tableName, isQuery, friendlyName, settings)
  {
    var title := if friendlyName.Some? then friendlyName.value else "Dynamic Grid - " + tableName;
    var host := if settings.host.Some? then settings.host.value else DefaultHost;
    var database := if settings.database.Some? then settings.database.value else DefaultDatabase;
    var fields := MapColumnsToRevealFields(columns);
    var names := [];
    for k := 0 to |columns|
      invariant |names| == k
      invariant forall i :: 0 <= i < k ==> names[i] == columns[i].columnName
    {
      names := names + [columns[k].columnName];
    }
    doc := DashboardDocument(
      title, host, database,
      title,
      if isQuery then tableName else "myTable",
      if isQuery then "" else tableName,
      "Data from " + tableName,
      fields,
      title,
      if isQuery then tableName else "myGrid",
      "Grid visualization for " + tableName,
      names);
  }

  /** `GET /dashboard/{tableName}`. */
  datatype DashboardResponse =
    | AllowListNotFound          // 404: the allow-list file is missing
    | ServerError                // the JSON parse throws and nothing catches it
    | EntryNotFound              // 404: no entry of that name
    | NoColumns(isQuery: bool)   // 404: the command returned no columns
    | DashboardOk(document: DashboardDocument)

  method GetDashboard(tableName: string, load: AllowListLoad, db: Database, settings: Settings)
    returns (response: DashboardResponse)
    ensures response == AllowListNotFound <==> load.Missing?
    ensures response == ServerError <==> load.ParseError?
    ensures response == EntryNotFound <==>
      load.LoadedNull? || (load.Loaded? && FindByName(load.tables, tableName).None?)
    ensures response.NoColumns? || response.DashboardOk? ==>
      && load.Loaded? && FindByName(load.tables, tableName).Some?
      && var entry := FindByName(load.tables, tableName).value;
         var source := ChooseColumnSource(entry, tableName);
         && (response.NoColumns? <==> RowCount(db, source) == 0)
         && (response.NoColumns? ==> response.isQuery == IsQueryType(entry.kind))
         && (response.DashboardOk? ==>
               IsDashboardFor(response.document, ColumnsOf(db, source), tableName,
                              IsQueryType(entry.kind), entry.friendlyName, settings))
  {
    if load.Missing? {
      return AllowListNotFound;
    }
    if load.ParseError? {
      return ServerError;
    }
    var found := if load.Loaded? then FindByName(load.tables, tableName) else None;
    if found.None? {
      return EntryNotFound;
    }
    var entry := found.value;
    var isQuery := IsQueryType(entry.kind);
    var columns;
    if isQuery && !IsNullOrEmpty(entry.query) {
      columns := ReadQueryColumns(db.describeFirstResultSet(entry.query.value));
    } else {
      var schemaName := if entry.tableSchema.Some? then entry.tableSchema.value else DefaultSchema;
      columns := ReadTableColumns(db.informationSchemaColumns(schemaName, tableName));
    }
    assert columns == ColumnsOf(db, ChooseColumnSource(entry, tableName));
    if |columns| == 0 {
      return NoColumns(isQuery);
    }
    var doc := CreateDashboard(columns, tableName, isQuery, entry.friendlyName, settings);
    return DashboardOk(doc);
  }

  /** The columns the chosen command yields, row by row. */
  function ColumnsOf(db: Database, source: ColumnSource): (columns: seq<ColumnInfo>)
    ensures |columns| == RowCount(db, source)
  {
    match source
    case DescribeResultSet(tsql) =>
      var rows := db.describeFirstResultSet(tsql);
      seq(|rows|, i requires 0 <= i < |rows| => QueryColumn(rows[i]))
    case InformationSchema(schema, table) =>
      var rows := db.informationSchemaColumns(schema, table);
      seq(|rows|, i requires 0 <= i < |rows| => TableColumn(rows[i]))
  }
}
