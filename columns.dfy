/**
 * Column metadata as the dashboard endpoint collects it: the rows the two SQL
 * readers produce, the `ColumnInfo` record built from each row, and
 * `MapColumnsToRevealFields`, which turns the columns into dashboard fields.
 */
module Columns {
  import opened Wrappers
  import opened Text
  import opened TypeMapping

  /** C# `short`. */
  newtype Int16 = x: int | -0x8000 <= x < 0x8000
  /** C# `int`. */
  newtype Int32 = x: int | -0x8000_0000 <= x < 0x8000_0000

  /**
   * One row of `sys.sp_describe_first_result_set`: `name` and
   * `system_type_name` may be DBNull, `max_length` is `Some` when it reads as a
   * `short`.
   */
  datatype DescribedColumn = DescribedColumn(
    name: Option<string>,
    systemTypeName: Option<string>,
    isNullable: bool,
    maxLength: Option<Int16>)

  /**
   * One row of the INFORMATION_SCHEMA query: TABLE_NAME, COLUMN_NAME,
   * DATA_TYPE, CHARACTER_MAXIMUM_LENGTH (possibly DBNull) and the
   * "Yes"/"No" computed by the query's CASE.
   */
  datatype SchemaColumn = SchemaColumn(
    tableName: string,
    columnName: string,
    dataType: string,
    characterMaximumLength: Option<Int32>,
    isNullable: string)

  /** The `ColumnInfo` record the endpoints build and return. */
  datatype ColumnInfo = ColumnInfo(
    tableName: Option<string>,
    columnName: string,
    dataType: string,
    revealDataType: Option<string>,
    maxLength: Option<Int32>,
    nullable: Option<string>)

  /**
   * The column a described result-set row becomes: empty table name, null
   * name and type read as "", a length only when the `short` is positive,
   * and "Yes"/"No" from the nullability flag.
   */
  function QueryColumn(row: DescribedColumn): (c: ColumnInfo)
    ensures c.tableName == Some("")
    ensures c.columnName == (if row.name.Some? then row.name.value else "")
    ensures c.dataType == (if row.systemTypeName.Some? then row.systemTypeName.value else "")
    ensures c.revealDataType == Some(MapSqlDataTypeToRevealDataType(c.dataType))
    ensures c.maxLength.Some? <==> row.maxLength.Some? && row.maxLength.value > 0
    ensures c.maxLength.Some? ==> 0 < c.maxLength.value as int == row.maxLength.value as int < 0x8000
    ensures c.nullable == Some(if row.isNullable then "Yes" else "No")
  {
    var dataType := if row.systemTypeName.Some? then row.systemTypeName.value else "";
    ColumnInfo(
      Some(""),
      if row.name.Some? then row.name.value else "",
      dataType,
      Some(MapSqlDataTypeToRevealDataType(dataType)),
      if row.maxLength.Some? && row.maxLength.value > 0 then Some(row.maxLength.value as int as Int32) else None,
      Some(if row.isNullable then "Yes" else "No"))
  }

  /** The column an INFORMATION_SCHEMA row becomes: every value carried over, the type mapped. */
  function TableColumn(row: SchemaColumn): (c: ColumnInfo)
    ensures c.tableName == Some(row.tableName) && c.columnName == row.columnName && c.dataType == row.dataType
    ensures c.revealDataType == Some(MapSqlDataTypeToRevealDataType(row.dataType))
    ensures c.maxLength == row.characterMaximumLength && c.nullable == Some(row.isNullable)
  {
    ColumnInfo(
      Some(row.tableName), row.columnName, row.dataType,
      Some(MapSqlDataTypeToRevealDataType(row.dataType)),
      row.characterMaximumLength, Some(row.isNullable))
  }

  /** The `while (reader.ReadAsync())` loop of the query branch: one column per row, in order. */
  method ReadQueryColumns(rows: seq<DescribedColumn>) returns (columns: seq<ColumnInfo>)
    ensures |columns| == |rows|
    ensures forall i :: 0 <= i < |rows| ==> columns[i] == QueryColumn(rows[i])
  {
    columns := [];
    var k := 0;
    while k < |rows|
      invariant 0 <= k <= |rows|
      invariant |columns| == k
      invariant forall i :: 0 <= i < k ==> columns[i] == QueryColumn(rows[i])
    {
      columns := columns + [QueryColumn(rows[k])];
      k := k + 1;
    }
  }

  /** The `while (reader.ReadAsync())` loop over INFORMATION_SCHEMA rows: one column per row, in order. */
  method ReadTableColumns(rows: seq<SchemaColumn>) returns (columns: seq<ColumnInfo>)
    ensures |columns| == |rows|
    ensures forall i :: 0 <= i < |rows| ==> columns[i] == TableColumn(rows[i])
  {
    columns := [];
    var k := 0;
    while k < |rows|
      invariant 0 <= k <= |rows|
      invariant |columns| == k
      invariant forall i :: 0 <= i < k ==> columns[i] == TableColumn(rows[i])
    {
      columns := columns + [TableColumn(rows[k])];
      k := k + 1;
    }
  }

  /** The three field classes of the dashboard library the server uses. */
  datatype FieldKind = NumberField | DateField | TextField

  /** A dashboard field: its kind, its name and its label. */
  datatype Field = Field(kind: FieldKind, name: string, fieldLabel: string)

  /**
   * The switch on `RevealDataType`: "Number" gives a number field, "Date" and
   * "Time" a date field, and everything else (including null) a text field.
   */
  function FieldKindOf(revealDataType: Option<string>): (k: FieldKind)
    ensures k == NumberField <==> revealDataType == Some("Number")
    ensures k == DateField <==> revealDataType == Some("Date") || revealDataType == Some("Time")
    ensures k == TextField <==> !(revealDataType in {Some("Number"), Some("Date"), Some("Time")})
  {
    match revealDataType
    case Some("Number") => NumberField
    case Some("Date") => DateField
    case Some("Time") => DateField
    case _ => TextField
  }

  /** The field one column becomes: named and labelled by its column name. */
  function FieldOf(column: ColumnInfo): Field
  {
    Field(FieldKindOf(column.revealDataType), column.columnName, column.columnName)
  }

  /** `MapColumnsToRevealFields`: one field per column, in column order. */
  method MapColumnsToRevealFields(columns: seq<ColumnInfo>) returns (result: seq<Field>)
    ensures |result| == |columns|
    ensures forall i :: 0 <= i < |columns| ==>
      && result[i].name == columns[i].columnName
      && result[i].fieldLabel == columns[i].columnName
      && result[i].kind == FieldKindOf(columns[i].revealDataType)
  {
    result := [];
    for k := 0 to |columns|
      invariant |result| == k
      invariant forall i :: 0 <= i < k ==> result[i] == FieldOf(columns[i])
    {
      result := result + [FieldOf(columns[k])];
    }
  }

  /**
   * A column typed by the mapping never yields a number or date field unless
   * its SQL type is in the Number, Date or Time category.
   */
  lemma FieldKindFollowsSqlType(dataType: string)
    ensures var k := FieldKindOf(Some(MapSqlDataTypeToRevealDataType(dataType)));
      var u := Upper(dataType);
      && (k == NumberField <==> u in NumberTypes)
      && (k == DateField <==> u in DateTypes + TimeTypes)
  {
    Categories(dataType);
  }
}
