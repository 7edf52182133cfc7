/**
 * The business-database registry: the comma-separated list of database
 * names, the one-shot registration of an engine per name, the lookups of
 * engines, sessions and names, the query guard, the health aggregation and
 * the reset.
 *
 * Engines are opaque tokens. Creating one is an oracle that may fail
 * (`None`); connecting to a database is an oracle too (`ping` for the
 * health check, `run` for a query). The environment is a parameter of
 * every operation that may trigger the initialisation, because it is read
 * at that moment.
 */
module BusinessDb {
  import opened Wrappers
  import Text
  import OrderedDict
  import opened Environment
  import QueryTools
  import DbConfig

  /** An opaque engine token. */
  type Engine = nat

  /** A session, bound to the engine its session maker was created for. */
  datatype Session = Session(engine: Engine)

  // ----- The database list -----

  /** The stripped pieces that are not empty, in order. */
  function NonEmptyStripped(pieces: seq<string>): (names: seq<string>)
    ensures |names| <= |pieces|
    ensures forall i :: 0 <= i < |names| ==> names[i] != [] && Text.Strip(names[i]) == names[i]
  {
    if pieces == [] then []
    else
      var name := Text.Strip(pieces[0]);
      var rest := NonEmptyStripped(pieces[1..]);
      if name == [] then rest
      else
        Text.StripKeeps(name);
        [name] + rest
  }

  /** `[db.strip() for db in s.split(",") if db.strip()]`. */
  function DatabaseNames(s: string): seq<string>
  {
    NonEmptyStripped(Text.Split(s, ','))
  }

  /** A name is listed exactly when some piece strips to it and it is not empty. */
  lemma {:induction false} NonEmptyStrippedMembers(pieces: seq<string>, x: string)
    ensures x in NonEmptyStripped(pieces) <==> x != [] && exists i :: 0 <= i < |pieces| && Text.Strip(pieces[i]) == x
  {
    if pieces != [] {
      NonEmptyStrippedMembers(pieces[1..], x);
      if x != [] && Text.Strip(pieces[0]) != x && exists i :: 0 <= i < |pieces| && Text.Strip(pieces[i]) == x {
        var i :| 0 <= i < |pieces| && Text.Strip(pieces[i]) == x;
        assert pieces[1..][i - 1] == pieces[i];
      }
      if exists i :: 0 <= i < |pieces[1..]| && Text.Strip(pieces[1..][i]) == x {
        var i :| 0 <= i < |pieces[1..]| && Text.Strip(pieces[1..][i]) == x;
        assert pieces[i + 1] == pieces[1..][i];
      }
    }
  }

  /** No listed name contains a comma. */
  lemma NamesHaveNoComma(s: string)
    ensures forall i :: 0 <= i < |DatabaseNames(s)| ==> ',' !in DatabaseNames(s)[i]
  {
    var pieces := Text.Split(s, ',');
    var names := DatabaseNames(s);
    forall i | 0 <= i < |names| ensures ',' !in names[i] {
      NonEmptyStrippedMembers(pieces, names[i]);
      var j :| 0 <= j < |pieces| && Text.Strip(pieces[j]) == names[i];
      Text.StripKeepsAbsent(pieces[j], ',');
    }
  }

  /**
   * The listed names are the comma-separated pieces, stripped, without the
   * empty ones: none is empty, none has surrounding whitespace or a comma,
   * and an empty variable lists nothing.
   */
  lemma DatabaseNamesSpec(s: string, x: string)
    ensures var names := DatabaseNames(s);
            && (forall i :: 0 <= i < |names| ==> names[i] != [] && Text.Strip(names[i]) == names[i] && ',' !in names[i])
            && (x in names <==> x != [] && exists i :: 0 <= i < |Text.Split(s, ',')| && Text.Strip(Text.Split(s, ',')[i]) == x)
            && (s == [] ==> names == [])
  {
    var pieces := Text.Split(s, ',');
    assert DatabaseNames(s) == NonEmptyStripped(pieces);
    NonEmptyStrippedMembers(pieces, x);
    if x in DatabaseNames(s) {
      var i :| 0 <= i < |pieces| && Text.Strip(pieces[i]) == x;
      assert 0 <= i < |Text.Split(s, ',')| && Text.Strip(Text.Split(s, ',')[i]) == x;
    } else {
      assert !(x != [] && exists i :: 0 <= i < |pieces| && Text.Strip(pieces[i]) == x);
    }
    NamesHaveNoComma(s);
    if s == [] {
      assert pieces == [""];
    }
  }

  // ----- Connection settings -----

  /** What every engine of one initialisation is created with. */
  datatype Settings = Settings(baseUrl: string, poolSize: int, poolRecycle: int, echo: bool)

  /** The port variable's text, with its fallbacks. */
  function PortText(env: Env): string
  {
    GetEnv(env, "BUSINESS_MYSQL_PORT", GetEnv(env, "MYSQL_PORT", "3306"))
  }

  /**
   * `_get_base_url`: each field from its `BUSINESS_MYSQL_*` variable, else
   * the `MYSQL_*` one, else the default; the port goes through `int()`, so
   * text that is not an integer raises (and `"03306"` becomes `3306`).
   */
  function BaseUrl(env: Env): (r: Result<string>)
    ensures r.Ok? <==> Text.ParseInt(PortText(env)).Some?
    ensures r.Ok? ==>
      r.value == DbConfig.ServerUrl(
        if "BUSINESS_MYSQL_USER" in env then env["BUSINESS_MYSQL_USER"]
        else if "MYSQL_USER" in env then env["MYSQL_USER"] else "root",
        if "BUSINESS_MYSQL_PASSWORD" in env then env["BUSINESS_MYSQL_PASSWORD"]
        else if "MYSQL_PASSWORD" in env then env["MYSQL_PASSWORD"] else "password",
        if "BUSINESS_MYSQL_HOST" in env then env["BUSINESS_MYSQL_HOST"]
        else if "MYSQL_HOST" in env then env["MYSQL_HOST"] else "localhost",
        Text.ParseInt(if "BUSINESS_MYSQL_PORT" in env then env["BUSINESS_MYSQL_PORT"]
                      else if "MYSQL_PORT" in env then env["MYSQL_PORT"] else "3306").value)
  {
    var host := GetEnv(env, "BUSINESS_MYSQL_HOST", GetEnv(env, "MYSQL_HOST", "localhost"));
    var port := Text.IntValue(PortText(env));
    var user := GetEnv(env, "BUSINESS_MYSQL_USER", GetEnv(env, "MYSQL_USER", "root"));
    var password := GetEnv(env, "BUSINESS_MYSQL_PASSWORD", GetEnv(env, "MYSQL_PASSWORD", "password"));
    match port
    case Err(e) => Err(e)
    case Ok(p) => Ok(DbConfig.ServerUrl(user, password, host, p))
  }

  /** The base URL, then `int()` of the pool size and recycle time, in that order; the first failure raises. */
  function LoadSettings(env: Env): Result<Settings>
  {
    match BaseUrl(env)
    case Err(e) => Err(e)
    case Ok(url) =>
      match Text.IntValue(GetEnv(env, "MYSQL_POOL_SIZE", "20"))
      case Err(e) => Err(e)
      case Ok(size) =>
        match Text.IntValue(GetEnv(env, "MYSQL_POOL_RECYCLE", "3600"))
        case Err(e) => Err(e)
        case Ok(recycle) =>
          Ok(Settings(url, size, recycle, Text.AsciiLower(GetEnv(env, "MYSQL_ECHO", "false")) == "true"))
  }

  /** What `create_engine` is asked for one database. */
  datatype EngineRequest = EngineRequest(url: string, poolSize: int, poolRecycle: int, echo: bool)

  function RequestFor(s: Settings, name: string): EngineRequest
  {
    EngineRequest(s.baseUrl + "/" + name + "?charset=utf8mb4", s.poolSize, s.poolRecycle, s.echo)
  }

  // ----- Registration -----

  /**
   * The engines after trying each name in turn: a successful creation is
   * stored under its name (replacing an earlier one in place), a failed one
   * is skipped.
   */
  function Register(names: seq<string>, s: Settings, create: EngineRequest -> Option<Engine>)
    : OrderedDict.Dict<string, Engine>
  {
    if names == [] then []
    else
      var engines := Register(names[..|names| - 1], s, create);
      var name := names[|names| - 1];
      match create(RequestFor(s, name))
      case None => engines
      case Some(e) => OrderedDict.Put(engines, name, e)
  }

  /** The names whose engine creation succeeds, in order. */
  function Created(names: seq<string>, s: Settings, create: EngineRequest -> Option<Engine>): seq<string>
  {
    if names == [] then []
    else
      var earlier := Created(names[..|names| - 1], s, create);
      if create(RequestFor(s, names[|names| - 1])).Some? then earlier + [names[|names| - 1]] else earlier
  }

  /** Each element at its first occurrence only. */
  function Distinct(xs: seq<string>): (ds: seq<string>)
    ensures forall x :: x in ds <==> x in xs
    ensures forall i, j :: 0 <= i < j < |ds| ==> ds[i] != ds[j]
  {
    if xs == [] then []
    else
      var earlier := Distinct(xs[..|xs| - 1]);
      assert xs == xs[..|xs| - 1] + [xs[|xs| - 1]];
      if xs[|xs| - 1] in earlier then earlier else earlier + [xs[|xs| - 1]]
  }

  /**
   * The registered names are the names whose creation succeeded, each once,
   * in the order of its first success; no key is registered twice.
   */
  lemma {:induction false} RegisterKeys(names: seq<string>, s: Settings, create: EngineRequest -> Option<Engine>)
    ensures OrderedDict.Keys(Register(names, s, create)) == Distinct(Created(names, s, create))
    ensures OrderedDict.NoDupKeys(Register(names, s, create))
  {
    if names != [] {
      var earlier := names[..|names| - 1];
      RegisterKeys(earlier, s, create);
      var name := names[|names| - 1];
      var created := Created(names, s, create);
      if create(RequestFor(s, name)).Some? {
        assert created[..|created| - 1] == Created(earlier, s, create);
        OrderedDict.PutNoDup(Register(earlier, s, create), name, create(RequestFor(s, name)).value);
      }
    }
  }

  /** A name is registered exactly when it is listed and the creation of its engine succeeds. */
  lemma {:induction false} CreatedMembers(names: seq<string>, s: Settings, create: EngineRequest -> Option<Engine>,
                                          x: string)
    ensures x in Created(names, s, create) <==> x in names && create(RequestFor(s, x)).Some?
  {
    if names != [] {
      var earlier := names[..|names| - 1];
      CreatedMembers(earlier, s, create, x);
      assert names == earlier + [names[|names| - 1]];
    }
  }

  /**
   * `_initialize_databases` on a manager that is not yet initialised: no
   * names means nothing to register; otherwise the settings are read (and
   * may raise), then every name is tried.
   */
  function Initialization(env: Env, create: EngineRequest -> Option<Engine>): Result<OrderedDict.Dict<string, Engine>>
  {
    var names := DatabaseNames(GetEnv(env, "BUSINESS_MYSQL_DATABASES", ""));
    if names == [] then Ok([])
    else
      match LoadSettings(env)
      case Err(e) => Err(e)
      case Ok(s) => Ok(Register(names, s, create))
  }

  /**
   * What the initialisation registers: distinct, non-empty names, each one
   * listed in the variable and created successfully, in the order of first
   * success; an unset or empty variable registers nothing and reads no other
   * setting; it raises only when a setting is not an integer.
   */
  lemma InitializationSpec(env: Env, create: EngineRequest -> Option<Engine>, x: string)
    ensures var text := GetEnv(env, "BUSINESS_MYSQL_DATABASES", "");
            var r := Initialization(env, create);
            && (r.Err? <==> DatabaseNames(text) != [] && LoadSettings(env).Err?)
            && (text == [] ==> r == Ok([]))
            && (r.Ok? ==> OrderedDict.NoDupKeys(r.value))
            && (r.Ok? ==> forall i :: 0 <= i < |r.value| ==> r.value[i].0 != [])
            && (r.Ok? && DatabaseNames(text) != [] ==>
                  OrderedDict.Keys(r.value) == Distinct(Created(DatabaseNames(text), LoadSettings(env).value, create))
                  && (x in OrderedDict.Keys(r.value) <==>
                        x in DatabaseNames(text) && create(RequestFor(LoadSettings(env).value, x)).Some?))
  {
    var text := GetEnv(env, "BUSINESS_MYSQL_DATABASES", "");
    var names := DatabaseNames(text);
    DatabaseNamesSpec(text, x);
    if names != [] && LoadSettings(env).Ok? {
      var s := LoadSettings(env).value;
      RegisterKeys(names, s, create);
      CreatedMembers(names, s, create, x);
      var d := Register(names, s, create);
      forall i | 0 <= i < |d| ensures d[i].0 != [] {
        assert OrderedDict.Keys(d)[i] == d[i].0;
        CreatedMembers(names, s, create, d[i].0);
      }
    }
  }

  // ----- Health -----

  /**
   * `health_check`'s answer: for a name, whether it is registered and its
   * ping succeeds; without a name, whether every registered engine's ping
   * succeeds (true when none is registered).
   */
  function Healthy(engines: OrderedDict.Dict<string, Engine>, name: Option<string>, ping: Engine -> bool): bool
  {
    if name.Some? && name.value != [] then
      match OrderedDict.Get(engines, name.value)
      case None => false
      case Some(e) => ping(e)
    else forall i :: 0 <= i < |engines| ==> ping(engines[i].1)
  }

  /**
   * The overall check is the conjunction of the checks of each registered
   * name, and an unknown name is unhealthy.
   */
  lemma HealthyAggregates(engines: OrderedDict.Dict<string, Engine>, ping: Engine -> bool, name: string)
    requires OrderedDict.NoDupKeys(engines)
    requires forall i :: 0 <= i < |engines| ==> engines[i].0 != []
    ensures Healthy(engines, None, ping) <==>
              forall i :: 0 <= i < |engines| ==> Healthy(engines, Some(engines[i].0), ping)
    ensures name != [] && name !in OrderedDict.Keys(engines) ==> !Healthy(engines, Some(name), ping)
  {
    forall i | 0 <= i < |engines| ensures Healthy(engines, Some(engines[i].0), ping) == ping(engines[i].1) {
      OrderedDict.GetAt(engines, i);
    }
  }

  // ----- The manager -----

  /** Every registered name has its session maker, bound to the same engine, and nothing else has one. */
  ghost predicate SessionsMatch(engines: OrderedDict.Dict<string, Engine>, sessions: map<string, Engine>)
  {
    && (forall k :: k in sessions ==> OrderedDict.Get(engines, k) == Some(sessions[k]))
    && (forall k :: k in OrderedDict.Keys(engines) ==> k in sessions)
  }

  /** Distinct, non-empty names, and one session per engine. */
  ghost predicate WellKeyed(engines: OrderedDict.Dict<string, Engine>, sessions: map<string, Engine>)
  {
    && OrderedDict.NoDupKeys(engines)
    && (forall i :: 0 <= i < |engines| ==> engines[i].0 != [])
    && SessionsMatch(engines, sessions)
  }

  /** One more name: its engine is assigned when its creation succeeds, else nothing changes. */
  lemma RegisterNext(names: seq<string>, i: nat, s: Settings, create: EngineRequest -> Option<Engine>)
    requires i < |names|
    ensures Register(names[..i + 1], s, create) ==
              match create(RequestFor(s, names[i]))
              case None => Register(names[..i], s, create)
              case Some(e) => OrderedDict.Put(Register(names[..i], s, create), names[i], e)
  {
    assert names[..i + 1][..i] == names[..i];
  }

  /** Registering an engine under a non-empty name keeps the sessions in step and the names non-empty and distinct. */
  lemma RegisterOne(engines: OrderedDict.Dict<string, Engine>, sessions: map<string, Engine>, name: string, e: Engine)
    requires WellKeyed(engines, sessions) && name != []
    ensures WellKeyed(OrderedDict.Put(engines, name, e), sessions[name := e])
  {
    OrderedDict.PutNoDup(engines, name, e);
    PutSessionsMatch(engines, sessions, name, e);
    PutNamesNonEmpty(engines, name, e);
  }

  lemma PutSessionsMatch(engines: OrderedDict.Dict<string, Engine>, sessions: map<string, Engine>, name: string, e: Engine)
    requires SessionsMatch(engines, sessions)
    ensures SessionsMatch(OrderedDict.Put(engines, name, e), sessions[name := e])
  {
    var d := OrderedDict.Put(engines, name, e);
    forall k | k in sessions[name := e] ensures OrderedDict.Get(d, k) == Some(sessions[name := e][k]) {
      OrderedDict.GetPut(engines, name, e, k);
    }
  }

  lemma PutNamesNonEmpty(engines: OrderedDict.Dict<string, Engine>, name: string, e: Engine)
    requires (forall i :: 0 <= i < |engines| ==> engines[i].0 != []) && name != []
    ensures var d := OrderedDict.Put(engines, name, e); forall i :: 0 <= i < |d| ==> d[i].0 != []
  {
    var d := OrderedDict.Put(engines, name, e);
    forall i | 0 <= i < |d| ensures d[i].0 != [] {
      assert OrderedDict.Keys(d)[i] == d[i].0;
    }
  }

  class BusinessDatabaseManager {
    var engines: OrderedDict.Dict<string, Engine>
    var sessions: map<string, Engine>
    var initialized: bool

    /**
     * The registry's invariant: distinct, non-empty names; sessions in step
     * with engines; nothing registered before initialisation.
     */
    ghost predicate Valid()
      reads this
    {
      && WellKeyed(engines, sessions)
      && (!initialized ==> engines == [] && sessions == map[])
    }

    constructor ()
      ensures Valid()
      ensures engines == [] && sessions == map[] && !initialized
    {
      engines := [];
      sessions := map[];
      initialized := false;
    }

    /**
     * The effect of `_initialize_databases` on this manager, reporting the
     * error it raised (if any): nothing once initialised; otherwise the
     * outcome of `Initialization`, which leaves the manager uninitialised
     * when it raises.
     */
    twostate predicate InitStep(env: Env, create: EngineRequest -> Option<Engine>, new err: Option<string>)
      reads this
    {
      if old(initialized) then
        err.None? && initialized && engines == old(engines) && sessions == old(sessions)
      else
        match Initialization(env, create)
        case Err(e) => err == Some(e) && !initialized && engines == old(engines) && sessions == old(sessions)
        case Ok(d) => err.None? && initialized && engines == d
    }

    /** `_initialize_databases`. */
    method InitializeDatabases(env: Env, create: EngineRequest -> Option<Engine>) returns (err: Option<string>)
      requires Valid()
      modifies this
      ensures Valid()
      ensures InitStep(env, create, err)
    {
      if initialized {
        return None;
      }
      var databasesStr := GetEnv(env, "BUSINESS_MYSQL_DATABASES", "");
      if databasesStr == [] {
        DatabaseNamesSpec(databasesStr, "");
        assert Initialization(env, create) == Ok([]);
        initialized := true;
        return None;
      }
      var names := DatabaseNames(databasesStr);
      if names == [] {
        assert Initialization(env, create) == Ok([]);
        initialized := true;
        return None;
      }
      var settings := LoadSettings(env);
      if settings.Err? {
        assert Initialization(env, create) == Err(settings.error);
        return Some(settings.error);
      }
      var s := settings.value;
      assert Initialization(env, create) == Ok(Register(names, s, create));
      DatabaseNamesSpec(databasesStr, "");
      RegisterAll(names, s, create);
      initialized := true;
      err := None;
    }

    /** The loop of `_initialize_databases`: try each name in turn, skipping the ones whose engine cannot be created. */
    method RegisterAll(names: seq<string>, s: Settings, create: EngineRequest -> Option<Engine>)
      requires engines == [] && sessions == map[]
      requires forall i :: 0 <= i < |names| ==> names[i] != []
      modifies this
      ensures engines == Register(names, s, create)
      ensures WellKeyed(engines, sessions)
      ensures initialized == old(initialized)
    {
      var i := 0;
      while i < |names|
        invariant 0 <= i <= |names|
        invariant engines == Register(names[..i], s, create)
        invariant WellKeyed(engines, sessions)
        invariant initialized == old(initialized)
      {
        var name := names[i];
        var created := create(RequestFor(s, name));
        RegisterNext(names, i, s, create);
        if created.Some? {
          AddEngine(name, created.value);
        }
        i := i + 1;
      }
      assert names[..i] == names;
    }

    /** One successful creation in the loop: `self.engines[name] = engine` and its session factory. */
    method AddEngine(name: string, e: Engine)
      requires WellKeyed(engines, sessions) && name != []
      modifies this
      ensures engines == OrderedDict.Put(old(engines), name, e)
      ensures sessions == old(sessions)[name := e]
      ensures WellKeyed(engines, sessions)
      ensures initialized == old(initialized)
    {
      RegisterOne(engines, sessions, name, e);
      engines := OrderedDict.Put(engines, name, e);
      sessions := sessions[name := e];
    }

    /** `get_engine`: the engine registered under the name, if any. */
    method GetEngine(name: string, env: Env, create: EngineRequest -> Option<Engine>) returns (r: Result<Option<Engine>>)
      requires Valid()
      modifies this
      ensures Valid()
      ensures InitStep(env, create, if r.Err? then Some(r.error) else None)
      ensures r.Ok? ==> r.value == OrderedDict.Get(engines, name)
    {
      var err := InitializeDatabases(env, create);
      if err.Some? {
        return Err(err.value);
      }
      return Ok(OrderedDict.Get(engines, name));
    }

    /** `get_session`: a new session on the name's engine, if the name is registered. */
    method GetSession(name: string, env: Env, create: EngineRequest -> Option<Engine>) returns (r: Result<Option<Session>>)
      requires Valid()
      modifies this
      ensures Valid()
      ensures InitStep(env, create, if r.Err? then Some(r.error) else None)
      ensures r.Ok? ==> r.value == match OrderedDict.Get(engines, name)
                                   case None => None
                                   case Some(e) => Some(Session(e))
    {
      var err := InitializeDatabases(env, create);
      if err.Some? {
        return Err(err.value);
      }
      if name in sessions {
        return Ok(Some(Session(sessions[name])));
      }
      return Ok(None);
    }

    /**
     * `execute_query`: an unregistered name raises the `ValueError` before
     * anything is run; otherwise `run` executes the statement, with the
     * parameters only when there are some.
     */
    method ExecuteQuery(name: string, sql: string, params: Option<OrderedDict.Dict<string, string>>, env: Env,
                        create: EngineRequest -> Option<Engine>,
                        run: (Engine, string, Option<OrderedDict.Dict<string, string>>) -> Result<seq<QueryTools.Row>>)
      returns (r: Result<seq<QueryTools.Row>>)
      requires Valid()
      modifies this
      ensures Valid()
      ensures !old(initialized) && Initialization(env, create).Err? ==>
                InitStep(env, create, Some(Initialization(env, create).error))
                && r == Err(Initialization(env, create).error)
      ensures (old(initialized) || Initialization(env, create).Ok?) ==>
                InitStep(env, create, None)
                && r == match OrderedDict.Get(engines, name)
                        case None => Err("业务数据库 " + name + " 不存在或未配置")
                        case Some(e) => run(e, sql, if params.Some? && params.value != [] then params else None)
    {
      var engine := GetEngine(name, env, create);
      if engine.Err? {
        return Err(engine.error);
      }
      if engine.value.None? {
        return Err("业务数据库 " + name + " 不存在或未配置");
      }
      if params.Some? && params.value != [] {
        r := run(engine.value.value, sql, params);
      } else {
        r := run(engine.value.value, sql, None);
      }
    }

    /** `list_databases`: the registered names, in registration order. */
    method ListDatabases(env: Env, create: EngineRequest -> Option<Engine>) returns (r: Result<seq<string>>)
      requires Valid()
      modifies this
      ensures Valid()
      ensures InitStep(env, create, if r.Err? then Some(r.error) else None)
      ensures r.Ok? ==> r.value == OrderedDict.Keys(engines)
    {
      var err := InitializeDatabases(env, create);
      if err.Some? {
        return Err(err.value);
      }
      return Ok(OrderedDict.Keys(engines));
    }

    /** `database_exists`: whether the name is among the registered names. */
    method DatabaseExists(name: string, env: Env, create: EngineRequest -> Option<Engine>) returns (r: Result<bool>)
      requires Valid()
      modifies this
      ensures Valid()
      ensures InitStep(env, create, if r.Err? then Some(r.error) else None)
      ensures r.Ok? ==> (r.value <==> name in OrderedDict.Keys(engines))
    {
      var err := InitializeDatabases(env, create);
      if err.Some? {
        return Err(err.value);
      }
      return Ok(name in OrderedDict.Keys(engines));
    }

    /** The check of one named database: registered, and its ping succeeds. */
    method CheckOne(name: string, ping: Engine -> bool) returns (healthy: bool)
      requires Valid() && name != []
      ensures healthy == Healthy(engines, Some(name), ping)
    {
      var engine := OrderedDict.Get(engines, name);
      if engine.None? {
        return false;
      }
      healthy := ping(engine.value);
    }

    /**
     * `health_check`: one database when a non-empty name is given,
     * otherwise every registered one, true when none is.
     */
    method HealthCheck(name: Option<string>, env: Env, create: EngineRequest -> Option<Engine>, ping: Engine -> bool)
      returns (r: Result<bool>)
      requires Valid()
      modifies this
      ensures Valid()
      ensures InitStep(env, create, if r.Err? then Some(r.error) else None)
      ensures r.Ok? ==> r.value == Healthy(engines, name, ping)
    {
      var err := InitializeDatabases(env, create);
      if err.Some? {
        return Err(err.value);
      }
      if name.Some? && name.value != [] {
        var healthy := CheckOne(name.value, ping);
        return Ok(healthy);
      }
      if engines == [] {
        return Ok(true);
      }
      var healthy := CheckAll(ping);
      return Ok(healthy);
    }

    /** The loop over every registered database, each checked by name. */
    method CheckAll(ping: Engine -> bool) returns (allHealthy: bool)
      requires Valid()
      ensures allHealthy == Healthy(engines, None, ping)
    {
      allHealthy := true;
      var i := 0;
      while i < |engines|
        invariant 0 <= i <= |engines|
        invariant allHealthy <==> forall j :: 0 <= j < i ==> ping(engines[j].1)
      {
        var healthy := CheckOne(engines[i].0, ping);
        OrderedDict.GetAt(engines, i);
        if !healthy {
          allHealthy := false;
        }
        i := i + 1;
      }
    }

    /** `close_all`: forget every engine and session and clear the flag, so the next lookup initialises again. */
    method CloseAll()
      requires Valid()
      modifies this
      ensures Valid()
      ensures engines == [] && sessions == map[] && !initialized
    {
      engines := [];
      sessions := map[];
      initialized := false;
    }
  }
}
