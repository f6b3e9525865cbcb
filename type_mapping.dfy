/**
 * `MapSqlDataTypeToRevealDataType`: the SQL column type name, upper-cased,
 * selects one of six display types through a switch whose first matching arm
 * wins; names the switch does not list fall through to "String".
 */
module TypeMapping {
  import opened Text

  /** The six display types the mapping can produce. */
  const RevealDataTypes: set<string> := {"String", "Number", "Date", "Time", "Boolean", "Unsupported"}

  // The switch arms, in source order.
  const StringTypes: set<string> :=
    {"CHAR", "VARCHAR", "NVARCHAR", "NCHAR", "TEXT", "TINYTEXT", "MEDIUMTEXT", "LONGTEXT", "ENUM", "SET", "JSON"}
  const NumberTypes: set<string> :=
    {"INT", "SMALLINT", "TINYINT", "MEDIUMINT", "BIGINT", "FLOAT", "DOUBLE", "DECIMAL", "MONEY", "REAL"}
  const DateTypes: set<string> := {"DATE", "DATETIME", "TIMESTAMP"}
  const TimeTypes: set<string> := {"TIME"}
  const BooleanTypes: set<string> := {"BOOLEAN", "BIT"}
  // "BIT" is listed here as well, after the Boolean arm, so this occurrence never applies.
  const UnsupportedTypes: set<string> :=
    {"BINARY", "VARBINARY", "BLOB", "TINYBLOB", "MEDIUMBLOB", "LONGBLOB", "GEOMETRY", "POINT", "LINESTRING", "POLYGON", "BIT"}

  /** Every type name the switch lists in some arm. */
  const ListedTypes: set<string> := StringTypes + NumberTypes + DateTypes + TimeTypes + BooleanTypes + UnsupportedTypes

  /** The switch itself, applied to the upper-cased name: the first arm listing `upper` decides. */
  function RevealTypeSwitch(upper: string): string
  {
    if upper in StringTypes then "String"
    else if upper in NumberTypes then "Number"
    else if upper in DateTypes then "Date"
    else if upper in TimeTypes then "Time"
    else if upper in BooleanTypes then "Boolean"
    else if upper in UnsupportedTypes then "Unsupported"
    else "String"
  }

  /** Total: every input maps to one of the six display types. */
  function MapSqlDataTypeToRevealDataType(dataType: string): (r: string)
    ensures r in RevealDataTypes
  {
    RevealTypeSwitch(Upper(dataType))
  }

  /**
   * The mapping by category, in both directions: each display type is
   * produced for exactly the names of its category, where "BIT" belongs to
   * Boolean only and "String" also covers every unlisted name.
   */
  lemma Categories(dataType: string)
    ensures var r, u := MapSqlDataTypeToRevealDataType(dataType), Upper(dataType);
      && (r == "String" <==> u in StringTypes || u !in ListedTypes)
      && (r == "Number" <==> u in NumberTypes)
      && (r == "Date" <==> u in DateTypes)
      && (r == "Time" <==> u in TimeTypes)
      && (r == "Boolean" <==> u in BooleanTypes)
      && (r == "Unsupported" <==> u in UnsupportedTypes - {"BIT"})
  {
    var u := Upper(dataType);
    StringArm(u);
    NumberArm(u);
    DateArm(u);
    TimeArm(u);
    BooleanArm(u);
    UnsupportedArm(u);
  }

  // One lemma per arm, each small enough for the solver: the names of a later
  // arm are not caught by an earlier one.

  lemma StringArm(u: string)
    ensures RevealTypeSwitch(u) == "String" <==> u in StringTypes || u !in ListedTypes
  {
  }

  lemma NumberArm(u: string)
    ensures RevealTypeSwitch(u) == "Number" <==> u in NumberTypes
  {
  }

  lemma DateArm(u: string)
    ensures RevealTypeSwitch(u) == "Date" <==> u in DateTypes
  {
  }

  lemma TimeArm(u: string)
    ensures RevealTypeSwitch(u) == "Time" <==> u in TimeTypes
  {
  }

  lemma BooleanArm(u: string)
    ensures RevealTypeSwitch(u) == "Boolean" <==> u in BooleanTypes
  {
  }

  lemma UnsupportedArm(u: string)
    ensures RevealTypeSwitch(u) == "Unsupported" <==> u in UnsupportedTypes - {"BIT"}
  {
  }

  /** Only the upper-case form matters: names equal ignoring case map alike. */
  lemma CaseInsensitive(a: string, b: string)
    requires EqIgnoreCase(a, b)
    ensures MapSqlDataTypeToRevealDataType(a) == MapSqlDataTypeToRevealDataType(b)
  {
  }

  /** "BIT", in any case, is Boolean: the earlier Boolean arm shadows the Unsupported one. */
  lemma BitIsBoolean(dataType: string)
    requires Upper(dataType) == "BIT"
    ensures MapSqlDataTypeToRevealDataType(dataType) == "Boolean"
  {
  }

  /** Sample names in mixed case. */
  lemma Examples()
    ensures MapSqlDataTypeToRevealDataType("varchar") == "String"
    ensures MapSqlDataTypeToRevealDataType("INT") == "Number"
    ensures MapSqlDataTypeToRevealDataType("datetime") == "Date"
  {
    assert MapSqlDataTypeToRevealDataType("varchar") == "String" by { assert Upper("varchar") == "VARCHAR"; }
    assert MapSqlDataTypeToRevealDataType("INT") == "Number" by { assert Upper("INT") == "INT"; }
    assert MapSqlDataTypeToRevealDataType("datetime") == "Date" by { assert Upper("datetime") == "DATETIME"; }
  }

  /** More sample names; "xml" is a SQL Server type the switch does not list. */
  lemma MoreExamples()
    ensures MapSqlDataTypeToRevealDataType("time") == "Time"
    ensures MapSqlDataTypeToRevealDataType("bit") == "Boolean"
    ensures MapSqlDataTypeToRevealDataType("blob") == "Unsupported"
    ensures MapSqlDataTypeToRevealDataType("xml") == "String"
  {
    assert MapSqlDataTypeToRevealDataType("time") == "Time" by { assert Upper("time") == "TIME"; }
    assert MapSqlDataTypeToRevealDataType("bit") == "Boolean" by { assert Upper("bit") == "BIT"; }
    assert MapSqlDataTypeToRevealDataType("blob") == "Unsupported" by { assert Upper("blob") == "BLOB"; }
    assert MapSqlDataTypeToRevealDataType("xml") == "String" by { assert Upper("xml") == "XML"; }
  }
}
