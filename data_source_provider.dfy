/**
 * `DataSourceProvider` of the SQL grid builder: it points SQL Server data
 * sources at the configured host and database, and turns a data source item
 * whose Id names a QUERY entry of the allow-list into a custom-query item.
 * The allow-list is read through a cache held in the provider's static fields.
 */
module Provider {
  import opened Wrappers
  import opened Text
  import opened Configuration
  import opened AllowList
  import TableCache

  /** A dashboard data source; only SQL Server ones have their host and database rewritten. */
  class DataSource {
    const isSqlServer: bool
    var host: string
    var database: string

    constructor (isSqlServer: bool, host: string, database: string)
      ensures this.isSqlServer == isSqlServer && this.host == host && this.database == database
    {
      this.isSqlServer := isSqlServer;
      this.host := host;
      this.database := database;
    }
  }

  /** A data source item with the properties the provider reads or writes. */
  class DataSourceItem {
    const isSqlServer: bool
    const dataSource: DataSource
    var id: Option<string>
    var title: Option<string>
    var table: Option<string>
    var customQuery: Option<string>

    constructor (isSqlServer: bool, dataSource: DataSource, id: Option<string>, title: Option<string>, table: Option<string>)
      ensures this.isSqlServer == isSqlServer && this.dataSource == dataSource
      ensures this.id == id && this.title == title && this.table == table && customQuery == None
    {
      this.isSqlServer := isSqlServer;
      this.dataSource := dataSource;
      this.id := id;
      this.title := title;
      this.table := table;
      customQuery := None;
    }
  }

  /**
   * The lookup of `GetQueryInfoFromJson` once the list is at hand: nothing
   * for a null or empty list, else the first QUERY entry named `id`.
   */
  function QueryInfo(tables: Option<seq<TableInfo>>, id: string): (r: Option<TableInfo>)
    ensures r.Some? ==> tables.Some? && r.value in tables.value && IsQueryNamed(r.value, id)
    ensures r.None? <==> tables.None? || forall i :: 0 <= i < |tables.value| ==> !IsQueryNamed(tables.value[i], id)
    ensures r.Some? ==> exists i :: 0 <= i < |tables.value| && tables.value[i] == r.value &&
                                    forall j :: 0 <= j < i ==> !IsQueryNamed(tables.value[j], id)
  {
    if tables.None? || tables.value == [] then None else FindQuery(tables.value, id)
  }

  class DataSourceProvider {
    /** The configuration the provider was created with. */
    const settings: Settings

    // The static cache fields; one provider object stands for the process-wide state.
    var cachedTables: Option<seq<TableInfo>>
    var lastCacheRefresh: int
    /** How many calls got past both freshness checks and attempted to load the allow-list. */
    ghost var loadAttempts: nat

    function State(): TableCache.CacheState
      reads this
    {
      TableCache.CacheState(cachedTables, lastCacheRefresh)
    }

    /** Process start: nothing cached, last refresh at `DateTime.MinValue`. */
    constructor (settings: Settings)
      ensures this.settings == settings
      ensures State() == TableCache.InitialState && loadAttempts == 0
    {
      this.settings := settings;
      cachedTables := None;
      lastCacheRefresh := TableCache.MinValueTicks;
      loadAttempts := 0;
    }

    /**
     * Returns the cached allow-list while it is fresh, otherwise reads the
     * file under the lock after checking freshness again; `now` is the clock
     * reading and `load` what reading the file yields at that moment.
     */
    method GetTablesWithCaching(now: int, load: AllowListLoad) returns (tables: Option<seq<TableInfo>>)
      modifies this
      ensures var r := TableCache.GetTablesWithCaching(old(State()), now, load);
        && State() == r.state && tables == r.tables
        && loadAttempts == old(loadAttempts) + (if r.attemptedLoad then 1 else 0)
    {
      if cachedTables.Some? && now - lastCacheRefresh < TableCache.CacheTimeout {
        return cachedTables;
      }
      // Inside the lock: check again before reading the file.
      if cachedTables.Some? && now - lastCacheRefresh < TableCache.CacheTimeout {
        return cachedTables;
      }
      loadAttempts := loadAttempts + 1;
      match load {
        case Missing =>
          return None;
        case ParseError =>
          return None;
        case LoadedNull =>
          cachedTables := None;
          lastCacheRefresh := now;
          return cachedTables;
        case Loaded(list) =>
          cachedTables := Some(list);
          lastCacheRefresh := now;
          return cachedTables;
      }
    }

    /**
     * `GetQueryInfoFromJson`: a null or empty id is answered without
     * consulting the cache; otherwise the cached (or reloaded) allow-list is
     * searched for a QUERY entry of that name.
     */
    method GetQueryInfoFromJson(id: Option<string>, now: int, load: AllowListLoad) returns (info: Option<TableInfo>)
      modifies this
      ensures IsNullOrEmpty(id) ==> info == None && unchanged(this)
      ensures !IsNullOrEmpty(id) ==>
        var r := TableCache.GetTablesWithCaching(old(State()), now, load);
        && State() == r.state && loadAttempts == old(loadAttempts) + (if r.attemptedLoad then 1 else 0)
        && info == QueryInfo(r.tables, id.value)
    {
      if IsNullOrEmpty(id) {
        return None;
      }
      var tables := GetTablesWithCaching(now, load);
      if tables.None? || tables.value == [] {
        return None;
      }
      info := FindQuery(tables.value, id.value);
    }

    /** `ChangeDataSourceAsync`: a SQL Server data source takes each setting that is neither missing nor empty. */
    method ChangeDataSourceAsync(dataSource: DataSource) returns (result: DataSource)
      modifies dataSource
      ensures result == dataSource
      ensures dataSource.host ==
        if dataSource.isSqlServer && !IsNullOrEmpty(settings.host) then settings.host.value else old(dataSource.host)
      ensures dataSource.database ==
        if dataSource.isSqlServer && !IsNullOrEmpty(settings.database) then settings.database.value else old(dataSource.database)
    {
      if dataSource.isSqlServer {
        if !IsNullOrEmpty(settings.host) {
          dataSource.host := settings.host.value;
        }
        if !IsNullOrEmpty(settings.database) {
          dataSource.database := settings.database.value;
        }
      }
      return dataSource;
    }

    /**
     * `ChangeDataSourceItemAsync`: non-SQL-Server items are returned
     * untouched. A SQL Server item has its data source updated; if its Id
     * names a QUERY entry with non-empty query text, that text becomes the
     * item's custom query and its table is cleared, and nothing else changes.
     */
    method ChangeDataSourceItemAsync(item: DataSourceItem, now: int, load: AllowListLoad) returns (result: DataSourceItem)
      modifies this, item, item.dataSource
      ensures result == item
      ensures item.id == old(item.id) && item.title == old(item.title)
      ensures !item.isSqlServer ==> unchanged(this, item, item.dataSource)
      ensures item.isSqlServer && IsNullOrEmpty(item.id) ==> unchanged(this)
      ensures item.isSqlServer && !IsNullOrEmpty(item.id) ==>
        var r := TableCache.GetTablesWithCaching(old(State()), now, load);
        State() == r.state && loadAttempts == old(loadAttempts) + (if r.attemptedLoad then 1 else 0)
      ensures item.isSqlServer ==>
        && item.dataSource.host ==
             (if item.dataSource.isSqlServer && !IsNullOrEmpty(settings.host) then settings.host.value else old(item.dataSource.host))
        && item.dataSource.database ==
             (if item.dataSource.isSqlServer && !IsNullOrEmpty(settings.database) then settings.database.value else old(item.dataSource.database))
        && var info := if IsNullOrEmpty(item.id) then None
                       else QueryInfo(TableCache.GetTablesWithCaching(old(State()), now, load).tables, item.id.value);
           if info.Some? && !IsNullOrEmpty(info.value.query)
           then item.customQuery == info.value.query && item.table == None
           else item.customQuery == old(item.customQuery) && item.table == old(item.table)
    {
      if !item.isSqlServer {
        return item;
      }
      var _ := ChangeDataSourceAsync(item.dataSource);
      var queryInfo := GetQueryInfoFromJson(item.id, now, load);
      if queryInfo.Some? && !IsNullOrEmpty(queryInfo.value.query) {
        item.customQuery := queryInfo.value.query;
        item.table := None;
        return item;
      }
      return item;
    }
  }
}
