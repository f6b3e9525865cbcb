/**
 * How the dashboard endpoint and the data source provider meet: a dashboard
 * built for a QUERY entry carries the entry's name as its data source item
 * Id, and the provider looks that Id up again to substitute the query text.
 */
module QueryDashboards {
  import opened Wrappers
  import opened Text
  import opened Configuration
  import opened AllowList
  import opened Columns
  import opened Endpoints
  import opened Provider

  /**
   * For a query dashboard, when the provider's list is the one the endpoint
   * read, the provider's lookup of the item Id finds exactly the entry the
   * endpoint resolved, so with non-empty query text the item is rewritten to
   * run that query. The provider's cached list can be up to five minutes
   * older than the endpoint's.
   */
  lemma QueryDashboardIdResolves(tables: seq<TableInfo>, tableName: string, doc: DashboardDocument,
                                 columns: seq<ColumnInfo>, settings: Settings)
    requires tableName != ""
    requires FindByName(tables, tableName).Some? && IsQueryType(FindByName(tables, tableName).value.kind)
    requires IsDashboardFor(doc, columns, tableName, true, FindByName(tables, tableName).value.friendlyName, settings)
    ensures QueryInfo(Some(tables), doc.itemId) == FindByName(tables, tableName)
  {
    FindQueryAgreesWithFindByName(tables, tableName);
  }

  /**
   * A QUERY entry without query text: the endpoint reads the columns of the
   * table of that name, yet builds a query-style item (Id the name, Table
   * empty), and the provider finds the entry but has no text to substitute,
   * so the item keeps its empty Table.
   */
  lemma QueryWithoutText(tables: seq<TableInfo>, tableName: string, doc: DashboardDocument,
                         columns: seq<ColumnInfo>, settings: Settings)
    requires tableName != ""
    requires FindByName(tables, tableName).Some?
    requires var e := FindByName(tables, tableName).value; IsQueryType(e.kind) && IsNullOrEmpty(e.query)
    requires IsDashboardFor(doc, columns, tableName, true, FindByName(tables, tableName).value.friendlyName, settings)
    ensures var e := FindByName(tables, tableName).value;
      && ChooseColumnSource(e, tableName).InformationSchema?
      && doc.itemTable == ""
      && QueryInfo(Some(tables), doc.itemId) == Some(e)
      && IsNullOrEmpty(QueryInfo(Some(tables), doc.itemId).value.query)
  {
    FindQueryAgreesWithFindByName(tables, tableName);
  }
}
