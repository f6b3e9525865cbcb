/**
 * The allow-list `schemas/allowedTables.json`: its records, the outcome of
 * loading it, and the two case-insensitive lookups the server performs on it.
 */
module AllowList {
  import opened Wrappers
  import opened Text

  /** One record of the allow-list; every property may be absent (null) in the JSON. */
  datatype TableInfo = TableInfo(
    tableSchema: Option<string>,   // TABLE_SCHEMA
    tableName: Option<string>,     // TABLE_NAME
    columnName: Option<string>,    // COLUMN_NAME
    kind: Option<string>,          // TYPE
    friendlyName: Option<string>,  // FRIENDLY_NAME
    query: Option<string>)         // QUERY

  /**
   * What reading and deserialising the allow-list file yields: the file is
   * absent, reading or parsing throws, the JSON is the literal `null`, or a list.
   */
  datatype AllowListLoad = Missing | ParseError | LoadedNull | Loaded(tables: seq<TableInfo>)

  /** The record's TABLE_NAME equals `name` ignoring case (a null TABLE_NAME never does). */
  predicate NameIs(t: TableInfo, name: string)
  {
    NullableEqIgnoreCase(t.tableName, name)
  }

  /** A TYPE of "QUERY" in any letter case marks a query; anything else, or none, is a table. */
  predicate IsQueryType(kind: Option<string>): (r: bool)
    ensures r <==> kind.Some? && Upper(kind.value) == "QUERY"
  {
    NullableEqIgnoreCase(kind, "QUERY")
  }

  /** Record `t` is one the data source provider treats as the query named `id`. */
  predicate IsQueryNamed(t: TableInfo, id: string)
  {
    NameIs(t, id) && IsQueryType(t.kind)
  }

  /** LINQ `FirstOrDefault(p)`: the first element satisfying `p`, if any. */
  function FirstWhere<T>(s: seq<T>, p: T -> bool): (r: Option<T>)
    ensures r.None? <==> forall i :: 0 <= i < |s| ==> !p(s[i])
    ensures r.Some? ==> exists i :: 0 <= i < |s| && s[i] == r.value && p(s[i]) &&
                                    forall j :: 0 <= j < i ==> !p(s[j])
  {
    if s == [] then None
    else if p(s[0]) then Some(s[0])
    else
      var r := FirstWhere(s[1..], p);
      assert r.Some? ==> exists i :: 0 <= i < |s[1..]| && s[1..][i] == r.value && p(s[1..][i]) &&
                                     forall j :: 0 <= j < i ==> !p(s[1..][j]);
      assert r.Some? ==> exists i :: 1 <= i < |s| && s[i] == r.value && p(s[i]) &&
                                     forall j :: 0 <= j < i ==> !p(s[j]);
      r
  }

  /** The allow-list lookup of the dashboard endpoint: first record whose TABLE_NAME matches, of any TYPE. */
  function FindByName(tables: seq<TableInfo>, name: string): (r: Option<TableInfo>)
    ensures r.None? <==> forall i :: 0 <= i < |tables| ==> !NameIs(tables[i], name)
    ensures r.Some? ==> exists i :: 0 <= i < |tables| && tables[i] == r.value && NameIs(tables[i], name) &&
                                    forall j :: 0 <= j < i ==> !NameIs(tables[j], name)
  {
    FirstWhere(tables, t => NameIs(t, name))
  }

  /** The data source provider's lookup: first record whose TABLE_NAME matches `id` and whose TYPE is QUERY. */
  function FindQuery(tables: seq<TableInfo>, id: string): (r: Option<TableInfo>)
    ensures r.None? <==> forall i :: 0 <= i < |tables| ==> !IsQueryNamed(tables[i], id)
    ensures r.Some? ==> exists i :: 0 <= i < |tables| && tables[i] == r.value && IsQueryNamed(tables[i], id) &&
                                    forall j :: 0 <= j < i ==> !IsQueryNamed(tables[j], id)
  {
    FirstWhere(tables, t => IsQueryNamed(t, id))
  }

  /**
   * When the first record named `name` is a query, the provider's query
   * lookup finds that same record: the two lookups agree on query entries.
   */
  lemma FindQueryAgreesWithFindByName(tables: seq<TableInfo>, name: string)
    requires FindByName(tables, name).Some? && IsQueryType(FindByName(tables, name).value.kind)
    ensures FindQuery(tables, name) == FindByName(tables, name)
  {
  }
}
