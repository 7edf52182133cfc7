/**
 * The agent tool that lists the business databases and their tables as
 * text: a header with the count, then three lines per database (its name,
 * its tables or the error listing them raised, a blank line), joined with
 * newlines. The tool never raises: a failure to list the databases becomes
 * a message.
 */
module DatabaseTools {
  import opened Wrappers
  import Text
  import BusinessDb
  import BusinessQueryTools

  /** The header line, without the newline it ends with. */
  function HeaderText(n: nat): string
  {
    "业务数据库列表（共 " + Text.NatToString(n) + " 个）："
  }

  function DatabaseLine(db: string): string
  {
    "数据库: " + db
  }

  const NoTables: string := "  表: （无）"

  function TablesLine(tables: seq<string>): string
  {
    "  表 (" + Text.NatToString(|tables|) + " 个): " + Text.Join(tables, ", ")
  }

  function ErrorLine(e: string): string
  {
    "  错误: 获取表列表失败 - " + e
  }

  function ListingFailed(e: string): string
  {
    "获取数据库和表列表失败: " + e
  }

  /** The second line of a database's block: its tables, `（无）`, or the error. */
  function ListingLine(tables: Result<seq<string>>): string
  {
    match tables
    case Err(e) => ErrorLine(e)
    case Ok(ts) => if ts == [] then NoTables else TablesLine(ts)
  }

  /** The three lines one database contributes. */
  function Block(db: string, tables: Result<seq<string>>): seq<string>
  {
    [DatabaseLine(db), ListingLine(tables), ""]
  }

  /** The blocks of the databases, in order. */
  function Blocks(dbs: seq<string>, tablesOf: string -> Result<seq<string>>): (lines: seq<string>)
    ensures |lines| == 3 * |dbs|
  {
    if dbs == [] then []
    else Blocks(dbs[..|dbs| - 1], tablesOf) + Block(dbs[|dbs| - 1], tablesOf(dbs[|dbs| - 1]))
  }

  /**
   * The tables of one database: `get_business_query_tools(default_database=db)`
   * then `list_tables(database_name=db)`, against the configured names.
   */
  function TablesOf(db: string, dbs: seq<string>, getEngine: string -> Result<Option<BusinessDb.Engine>>,
                    tables: BusinessDb.Engine -> Result<seq<string>>): Result<seq<string>>
  {
    var tools := match BusinessQueryTools.GetBusinessQueryTools(Some(db))
                 case Shared => BusinessQueryTools.SharedTools
                 case Fresh(t) => t;
    BusinessQueryTools.ListTables(tools, Some(db), Ok(dbs), getEngine, tables)
  }

  function TablesLister(dbs: seq<string>, getEngine: string -> Result<Option<BusinessDb.Engine>>,
                        tables: BusinessDb.Engine -> Result<seq<string>>): string -> Result<seq<string>>
  {
    db => TablesOf(db, dbs, getEngine, tables)
  }

  /** For a named database, the listing is its engine's tables, or the error that no engine is registered. */
  lemma TablesOfNamed(db: string, dbs: seq<string>, getEngine: string -> Result<Option<BusinessDb.Engine>>,
                      tables: BusinessDb.Engine -> Result<seq<string>>)
    requires db != []
    ensures TablesOf(db, dbs, getEngine, tables) ==
              match getEngine(db)
              case Err(e) => Err(e)
              case Ok(None) => Err(BusinessQueryTools.NotConfigured(db))
              case Ok(Some(engine)) => tables(engine)
  {
  }

  /** What the tool returns. */
  function Report(databases: Result<seq<string>>, getEngine: string -> Result<Option<BusinessDb.Engine>>,
                  tables: BusinessDb.Engine -> Result<seq<string>>): string
  {
    match databases
    case Err(e) => ListingFailed(e)
    case Ok(dbs) =>
      if dbs == [] then BusinessQueryTools.NoDatabasesConfigured
      else Text.Join([HeaderText(|dbs|) + "\n"] + Blocks(dbs, TablesLister(dbs, getEngine, tables)), "\n")
  }

  /** `list_databases_and_tables`, the loop appending to `result_parts`. */
  method ListDatabasesAndTables(databases: Result<seq<string>>, getEngine: string -> Result<Option<BusinessDb.Engine>>,
                                tables: BusinessDb.Engine -> Result<seq<string>>) returns (out: string)
    ensures out == Report(databases, getEngine, tables)
  {
    if databases.Err? {
      return ListingFailed(databases.error);
    }
    var dbs := databases.value;
    if dbs == [] {
      return BusinessQueryTools.NoDatabasesConfigured;
    }
    var tablesOf := TablesLister(dbs, getEngine, tables);
    var parts := [HeaderText(|dbs|) + "\n"];
    for i := 0 to |dbs|
      invariant parts == [HeaderText(|dbs|) + "\n"] + Blocks(dbs[..i], tablesOf)
    {
      assert dbs[..i + 1][..i] == dbs[..i];
      ghost var before := parts;
      var listed := tablesOf(dbs[i]);
      match listed {
        case Ok(ts) =>
          parts := parts + [DatabaseLine(dbs[i])];
          if ts == [] {
            parts := parts + [NoTables];
          } else {
            parts := parts + [TablesLine(ts)];
          }
          parts := parts + [""];
        case Err(e) =>
          parts := parts + [DatabaseLine(dbs[i])];
          parts := parts + [ErrorLine(e)];
          parts := parts + [""];
      }
      assert parts == before + Block(dbs[i], tablesOf(dbs[i]));
      assert Blocks(dbs[..i + 1], tablesOf) == Blocks(dbs[..i], tablesOf) + Block(dbs[i], tablesOf(dbs[i]));
    }
    assert dbs[..|dbs|] == dbs;
    out := Text.Join(parts, "\n");
  }

  /**
   * Database `i` owns lines `3i` to `3i + 2` of the blocks, and what they
   * say depends only on its own listing: a failure for one database leaves
   * the others' lines as they are.
   */
  lemma {:induction false} BlockAt(dbs: seq<string>, tablesOf: string -> Result<seq<string>>, i: nat)
    requires i < |dbs|
    ensures Blocks(dbs, tablesOf)[3 * i..3 * i + 3] == Block(dbs[i], tablesOf(dbs[i]))
    decreases |dbs|
  {
    var n := |dbs| - 1;
    if i < n {
      BlockAt(dbs[..n], tablesOf, i);
      assert dbs[..n][i] == dbs[i];
      var prefix := Blocks(dbs[..n], tablesOf);
      assert Blocks(dbs, tablesOf) == prefix + Block(dbs[n], tablesOf(dbs[n]));
      assert Blocks(dbs, tablesOf)[3 * i..3 * i + 3] == prefix[3 * i..3 * i + 3];
    } else {
      assert Blocks(dbs, tablesOf)[3 * n..] == Block(dbs[n], tablesOf(dbs[n]));
    }
  }

  /** No database name, table name or listing error holds a newline. */
  predicate SingleLine(dbs: seq<string>, tablesOf: string -> Result<seq<string>>)
  {
    forall i :: 0 <= i < |dbs| ==>
      && '\n' !in dbs[i]
      && match tablesOf(dbs[i])
         case Err(e) => '\n' !in e
         case Ok(ts) => forall j :: 0 <= j < |ts| ==> '\n' !in ts[j]
  }

  /** A listing line holds no newline when neither the table names nor the error do. */
  lemma ListingSingleLine(tables: Result<seq<string>>)
    requires match tables
             case Err(e) => '\n' !in e
             case Ok(ts) => forall j :: 0 <= j < |ts| ==> '\n' !in ts[j]
    ensures '\n' !in ListingLine(tables)
  {
    if tables.Ok? && tables.value != [] {
      var count := Text.NatToString(|tables.value|);
      var names := Text.Join(tables.value, ", ");
      Text.JoinAvoids(tables.value, ", ", '\n');
      Text.NatSingleLine(|tables.value|);
      assert '\n' !in "  表 (" && '\n' !in " 个): ";
      assert '\n' !in "  表 (" + count + " 个): " + names;
    }
  }

  lemma {:induction false} BlocksSingleLine(dbs: seq<string>, tablesOf: string -> Result<seq<string>>)
    requires SingleLine(dbs, tablesOf)
    ensures forall k :: 0 <= k < |Blocks(dbs, tablesOf)| ==> '\n' !in Blocks(dbs, tablesOf)[k]
    decreases |dbs|
  {
    if dbs != [] {
      var n := |dbs| - 1;
      var prefix := dbs[..n];
      assert SingleLine(prefix, tablesOf) by {
        forall i | 0 <= i < n ensures prefix[i] == dbs[i] { }
      }
      BlocksSingleLine(prefix, tablesOf);
      ListingSingleLine(tablesOf(dbs[n]));
      var last := Block(dbs[n], tablesOf(dbs[n]));
      assert '\n' !in dbs[n];
      assert forall k :: 0 <= k < 3 ==> '\n' !in last[k];
      var blocks := Blocks(dbs, tablesOf);
      assert blocks == Blocks(prefix, tablesOf) + last;
      forall k | 3 * n <= k < |blocks| ensures '\n' !in blocks[k] {
        assert blocks[k] == last[k - 3 * n];
      }
    }
  }

  /**
   * The tool's text, split at newlines: with no configured database the
   * fixed message; otherwise the header with the count, a blank line, and
   * each database's three lines in order. A failure to list the databases
   * is reported, not raised.
   */
  lemma ReportLines(databases: Result<seq<string>>, getEngine: string -> Result<Option<BusinessDb.Engine>>,
                    tables: BusinessDb.Engine -> Result<seq<string>>)
    ensures databases.Err? ==> Report(databases, getEngine, tables) == ListingFailed(databases.error)
    ensures databases == Ok([]) ==> Report(databases, getEngine, tables) == BusinessQueryTools.NoDatabasesConfigured
    ensures databases.Ok? && databases.value != [] &&
            SingleLine(databases.value, TablesLister(databases.value, getEngine, tables)) ==>
              var dbs := databases.value;
              Text.Split(Report(databases, getEngine, tables), '\n') ==
                [HeaderText(|dbs|), ""] + Blocks(dbs, TablesLister(dbs, getEngine, tables))
  {
    if databases.Ok? && databases.value != [] &&
       SingleLine(databases.value, TablesLister(databases.value, getEngine, tables)) {
      var dbs := databases.value;
      var blocks := Blocks(dbs, TablesLister(dbs, getEngine, tables));
      BlocksSingleLine(dbs, TablesLister(dbs, getEngine, tables));
      Text.JoinCons(HeaderText(|dbs|) + "\n", blocks, "\n");
      Text.JoinCons("", blocks, "\n");
      assert Text.Join([HeaderText(|dbs|) + "\n"] + blocks, "\n") == Text.Join([HeaderText(|dbs|), ""] + blocks, "\n") by {
        assert [HeaderText(|dbs|), ""] + blocks == [HeaderText(|dbs|)] + ([""] + blocks);
        Text.JoinCons(HeaderText(|dbs|), [""] + blocks, "\n");
      }
      Text.NatSingleLine(|dbs|);
      Text.JoinSplit([HeaderText(|dbs|), ""] + blocks, '\n');
    }
  }
}
