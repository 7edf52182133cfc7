/**
 * The query tools over the business databases: which database a call
 * uses (the argument, else the tools' default, else the first configured
 * database), the guard against a database without an engine, and the
 * shaping of the table information, table list and row count.
 *
 * The registry is reached through its operations, passed as functions:
 * the configured names (`list_business_databases`), the engine lookup
 * (`get_engine`) and the query runner (`execute_query`); each may raise.
 * Table reflection is an oracle as well.
 */
module BusinessQueryTools {
  import opened Wrappers
  import OrderedDict
  import QueryTools
  import BusinessDb

  /** A tools object: the shared registry and an optional default database. */
  datatype Tools = Tools(defaultDatabase: Option<string>)

  const NoDatabasesConfigured: string := "未配置业务数据库（BUSINESS_MYSQL_DATABASES）"

  predicate Truthy(s: Option<string>)
  {
    s.Some? && s.value != []
  }

  /**
   * `_get_database_name`: a truthy argument, else a truthy default, else
   * the first configured database; with none configured it raises.
   */
  function DatabaseName(tools: Tools, databaseName: Option<string>, databases: Result<seq<string>>): (r: Result<string>)
    ensures Truthy(databaseName) ==> r == Ok(databaseName.value)
    ensures !Truthy(databaseName) && Truthy(tools.defaultDatabase) ==> r == Ok(tools.defaultDatabase.value)
    ensures !Truthy(databaseName) && !Truthy(tools.defaultDatabase) ==>
              match databases
              case Err(e) => r == Err(e)
              case Ok(names) => r == if names == [] then Err(NoDatabasesConfigured) else Ok(names[0])
  {
    if Truthy(databaseName) then Ok(databaseName.value)
    else if Truthy(tools.defaultDatabase) then Ok(tools.defaultDatabase.value)
    else
      match databases
      case Err(e) => Err(e)
      case Ok(names) => if names == [] then Err(NoDatabasesConfigured) else Ok(names[0])
  }

  /**
   * Against a registry that lists only non-empty names, the chosen name is
   * never empty and is the argument, the default or a configured database;
   * the `ValueError` comes only when all three are missing.
   */
  lemma ChosenNameIsUsable(tools: Tools, databaseName: Option<string>, databases: seq<string>)
    requires forall i :: 0 <= i < |databases| ==> databases[i] != []
    ensures var r := DatabaseName(tools, databaseName, Ok(databases));
            && (r.Ok? ==> r.value != []
                          && (r.value == databaseName.GetOr([]) || r.value == tools.defaultDatabase.GetOr([])
                              || r.value in databases))
            && (r == Err(NoDatabasesConfigured) <==>
                  !Truthy(databaseName) && !Truthy(tools.defaultDatabase) && databases == [])
  {
  }

  // ----- Engine guard -----

  /** `f"业务数据库 {db_name} 不存在或未配置"`. */
  function NotConfigured(name: string): string
  {
    "业务数据库 " + name + " 不存在或未配置"
  }

  /**
   * The name and engine `get_table_info` and `list_tables` work on: the
   * chosen name, and the `ValueError` when the registry has no engine for it.
   */
  function ChosenEngine(tools: Tools, databaseName: Option<string>, databases: Result<seq<string>>,
                        getEngine: string -> Result<Option<BusinessDb.Engine>>): (r: Result<(string, BusinessDb.Engine)>)
    ensures r.Ok? ==> DatabaseName(tools, databaseName, databases) == Ok(r.value.0)
                      && getEngine(r.value.0) == Ok(Some(r.value.1))
    ensures DatabaseName(tools, databaseName, databases).Ok? ==>
              var name := DatabaseName(tools, databaseName, databases).value;
              && (getEngine(name) == Ok(None) ==> r == Err(NotConfigured(name)))
              && (getEngine(name).Err? ==> r == Err(getEngine(name).error))
  {
    match DatabaseName(tools, databaseName, databases)
    case Err(e) => Err(e)
    case Ok(name) =>
      match getEngine(name)
      case Err(e) => Err(e)
      case Ok(None) => Err(NotConfigured(name))
      case Ok(Some(engine)) => Ok((name, engine))
  }

  /** A reflected column. */
  datatype Column = Column(name: string, columnType: string, nullable: bool, primaryKey: bool)

  /** A reflected table: its name, its columns and the names of its primary-key columns. */
  datatype Table = Table(name: string, columns: seq<Column>, primaryKeyColumns: seq<string>)

  /** The dict `get_table_info` returns. */
  datatype TableInfo = TableInfo(name: string, database: string, columns: seq<Column>, primaryKeys: seq<string>)

  /** `get_table_info`: the reflected table, labelled with the database it came from. */
  function GetTableInfo(tools: Tools, tableName: string, databaseName: Option<string>, databases: Result<seq<string>>,
                        getEngine: string -> Result<Option<BusinessDb.Engine>>,
                        reflect: (BusinessDb.Engine, string) -> Result<Table>): Result<TableInfo>
  {
    match ChosenEngine(tools, databaseName, databases, getEngine)
    case Err(e) => Err(e)
    case Ok((name, engine)) =>
      match reflect(engine, tableName)
      case Err(e) => Err(e)
      case Ok(table) => Ok(TableInfo(table.name, name, table.columns, table.primaryKeyColumns))
  }

  /** `list_tables`: the tables reflected from the chosen database's engine. */
  function ListTables(tools: Tools, databaseName: Option<string>, databases: Result<seq<string>>,
                      getEngine: string -> Result<Option<BusinessDb.Engine>>,
                      tables: BusinessDb.Engine -> Result<seq<string>>): Result<seq<string>>
  {
    match ChosenEngine(tools, databaseName, databases, getEngine)
    case Err(e) => Err(e)
    case Ok((_, engine)) => tables(engine)
  }

  /**
   * A database without an engine makes both calls raise the `ValueError`
   * whatever reflection would have returned: nothing is reflected. When
   * reflection happens, the table information names the chosen database.
   */
  lemma GuardPrecedesReflection(tools: Tools, tableName: string, databaseName: Option<string>,
                                databases: Result<seq<string>>,
                                getEngine: string -> Result<Option<BusinessDb.Engine>>,
                                reflect: (BusinessDb.Engine, string) -> Result<Table>,
                                tables: BusinessDb.Engine -> Result<seq<string>>)
    requires DatabaseName(tools, databaseName, databases).Ok?
    ensures var name := DatabaseName(tools, databaseName, databases).value;
            && (getEngine(name) == Ok(None) ==>
                  GetTableInfo(tools, tableName, databaseName, databases, getEngine, reflect) == Err(NotConfigured(name))
                  && ListTables(tools, databaseName, databases, getEngine, tables) == Err(NotConfigured(name)))
            && (GetTableInfo(tools, tableName, databaseName, databases, getEngine, reflect).Ok? ==>
                  GetTableInfo(tools, tableName, databaseName, databases, getEngine, reflect).value.database == name)
  {
  }

  // ----- Queries -----

  /** `execute_query`: the statement run on the chosen database; a failed choice raises before anything runs. */
  function ExecuteQuery(tools: Tools, query: string, params: Option<OrderedDict.Dict<string, string>>,
                        databaseName: Option<string>, databases: Result<seq<string>>,
                        execute: (string, string, Option<OrderedDict.Dict<string, string>>) -> Result<seq<QueryTools.Row>>)
    : (r: Result<seq<QueryTools.Row>>)
    ensures DatabaseName(tools, databaseName, databases).Err? ==> r == Err(DatabaseName(tools, databaseName, databases).error)
    ensures DatabaseName(tools, databaseName, databases).Ok? ==>
              r == execute(DatabaseName(tools, databaseName, databases).value, query, params)
  {
    match DatabaseName(tools, databaseName, databases)
    case Err(e) => Err(e)
    case Ok(name) => execute(name, query, params)
  }

  /** `get_table_count`: the count query on the chosen database, without parameters; no rows count as 0. */
  function GetTableCount(tools: Tools, tableName: string, databaseName: Option<string>, databases: Result<seq<string>>,
                         execute: (string, string, Option<OrderedDict.Dict<string, string>>) -> Result<seq<QueryTools.Row>>)
    : Result<int>
  {
    match ExecuteQuery(tools, QueryTools.CountSql(tableName), None, databaseName, databases, execute)
    case Err(e) => Err(e)
    case Ok(rows) => QueryTools.FirstValue(rows, "count")
  }

  /**
   * The count is the first row's `count` on the chosen database, 0 when the
   * query returns no rows.
   */
  lemma TableCountSpec(tools: Tools, tableName: string, databaseName: Option<string>, databases: Result<seq<string>>,
                       execute: (string, string, Option<OrderedDict.Dict<string, string>>) -> Result<seq<QueryTools.Row>>)
    requires DatabaseName(tools, databaseName, databases).Ok?
    ensures var name := DatabaseName(tools, databaseName, databases).value;
            var rows := execute(name, QueryTools.CountSql(tableName), None);
            var r := GetTableCount(tools, tableName, databaseName, databases, execute);
            && (rows == Ok([]) ==> r == Ok(0))
            && (rows.Ok? && rows.value != [] && "count" in rows.value[0] ==> r == Ok(rows.value[0]["count"]))
            && (rows.Err? ==> r == Err(rows.error))
  {
  }

  // ----- Instances -----

  /** Which instance `get_business_query_tools` hands out. */
  datatype Instance = Shared | Fresh(tools: Tools)

  /** `get_business_query_tools`: a fresh instance for a truthy default, the shared one otherwise. */
  function GetBusinessQueryTools(defaultDatabase: Option<string>): (r: Instance)
    ensures r.Fresh? <==> Truthy(defaultDatabase)
    ensures r.Fresh? ==> r.tools.defaultDatabase == defaultDatabase
  {
    if Truthy(defaultDatabase) then Fresh(Tools(defaultDatabase)) else Shared
  }

  /** The shared instance has no default, so it uses the first configured database. */
  const SharedTools: Tools := Tools(None)

  /**
   * Either way the instance handed out picks the database the default asks
   * for: the default when it is truthy, the first configured one otherwise.
   */
  lemma InstanceChoosesDefault(defaultDatabase: Option<string>, databases: seq<string>)
    ensures var tools := match GetBusinessQueryTools(defaultDatabase)
                         case Shared => SharedTools
                         case Fresh(t) => t;
            DatabaseName(tools, None, Ok(databases)) ==
              if Truthy(defaultDatabase) then Ok(defaultDatabase.value)
              else if databases == [] then Err(NoDatabasesConfigured)
              else Ok(databases[0])
  {
  }
}
