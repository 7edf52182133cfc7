/**
 * The configuration of the framework's own MySQL database: each setting
 * from its environment variable with its fallbacks, the server and
 * database URLs, and the pool settings.
 */
module DbConfig {
  import opened Wrappers
  import Text
  import opened Environment

  /** The configuration dict, one field per key. */
  datatype Config = Config(host: string, port: int, user: string, password: string, database: string,
                           charset: string, poolSize: int, poolRecycle: int, echo: bool)

  /** The pool settings `pool_config` hands to the engine: exactly these three. */
  datatype PoolConfig = PoolConfig(poolSize: int, poolRecycle: int, echo: bool)

  const DefaultDatabase: string := "agno_backend"
  const Charset: string := "utf8mb4"

  /** `AGNO_MYSQL_DB_SCHEMA`, else `AGNO_MYSQL_DATABASE`, else `MYSQL_DATABASE`, else the default name. */
  function DatabaseName(env: Env): string
  {
    GetEnv(env, "AGNO_MYSQL_DB_SCHEMA", GetEnv(env, "AGNO_MYSQL_DATABASE", GetEnv(env, "MYSQL_DATABASE", DefaultDatabase)))
  }

  /** `os.getenv("MYSQL_ECHO", "false").lower() == "true"`. */
  function Echo(env: Env): bool
  {
    Text.AsciiLower(GetEnv(env, "MYSQL_ECHO", "false")) == "true"
  }

  /**
   * `_load_config`: the dict's entries in order; the port, the pool size
   * and the recycle time go through `int()`, and the first that is not an
   * integer raises.
   */
  function LoadConfig(env: Env): Result<Config>
  {
    var host := GetEnv(env, "AGNO_MYSQL_HOST", GetEnv(env, "MYSQL_HOST", "localhost"));
    match Text.IntValue(GetEnv(env, "AGNO_MYSQL_PORT", GetEnv(env, "MYSQL_PORT", "3306")))
    case Err(e) => Err(e)
    case Ok(port) =>
      var user := GetEnv(env, "AGNO_MYSQL_USER", GetEnv(env, "MYSQL_USER", "root"));
      var password := GetEnv(env, "AGNO_MYSQL_PASSWORD", GetEnv(env, "MYSQL_PASSWORD", "password"));
      match Text.IntValue(GetEnv(env, "MYSQL_POOL_SIZE", "20"))
      case Err(e) => Err(e)
      case Ok(poolSize) =>
        match Text.IntValue(GetEnv(env, "MYSQL_POOL_RECYCLE", "3600"))
        case Err(e) => Err(e)
        case Ok(poolRecycle) =>
          Ok(Config(host, port, user, password, DatabaseName(env), Charset, poolSize, poolRecycle, Echo(env)))
  }

  /**
   * Each connection field comes from its `AGNO_*` variable when that is
   * set, else its `MYSQL_*` variable, else the literal; the database name
   * has one more level; the three numbers are the integers their texts
   * parse to; `echo` holds exactly for "true" in any case; and loading
   * fails exactly when one of the three numbers is not an integer.
   */
  lemma LoadConfigSpec(env: Env)
    ensures var r := LoadConfig(env);
            && (r.Ok? <==> (&& Text.ParseInt(GetEnv(env, "AGNO_MYSQL_PORT", GetEnv(env, "MYSQL_PORT", "3306"))).Some?
                            && Text.ParseInt(GetEnv(env, "MYSQL_POOL_SIZE", "20")).Some?
                            && Text.ParseInt(GetEnv(env, "MYSQL_POOL_RECYCLE", "3600")).Some?))
            && (r.Ok? ==>
                  && r.value.port == Text.ParseInt(GetEnv(env, "AGNO_MYSQL_PORT", GetEnv(env, "MYSQL_PORT", "3306"))).value
                  && r.value.poolSize == Text.ParseInt(GetEnv(env, "MYSQL_POOL_SIZE", "20")).value
                  && r.value.poolRecycle == Text.ParseInt(GetEnv(env, "MYSQL_POOL_RECYCLE", "3600")).value
                  && r.value.host == (if "AGNO_MYSQL_HOST" in env then env["AGNO_MYSQL_HOST"]
                                      else if "MYSQL_HOST" in env then env["MYSQL_HOST"] else "localhost")
                  && r.value.user == (if "AGNO_MYSQL_USER" in env then env["AGNO_MYSQL_USER"]
                                      else if "MYSQL_USER" in env then env["MYSQL_USER"] else "root")
                  && r.value.password == (if "AGNO_MYSQL_PASSWORD" in env then env["AGNO_MYSQL_PASSWORD"]
                                          else if "MYSQL_PASSWORD" in env then env["MYSQL_PASSWORD"] else "password")
                  && r.value.database == (if "AGNO_MYSQL_DB_SCHEMA" in env then env["AGNO_MYSQL_DB_SCHEMA"]
                                          else if "AGNO_MYSQL_DATABASE" in env then env["AGNO_MYSQL_DATABASE"]
                                          else if "MYSQL_DATABASE" in env then env["MYSQL_DATABASE"]
                                          else DefaultDatabase)
                  && r.value.charset == Charset
                  && (r.value.echo <==> var text := GetEnv(env, "MYSQL_ECHO", "false");
                                        |text| == 4 && text[0] in "tT" && text[1] in "rR"
                                        && text[2] in "uU" && text[3] in "eE"))
  {
    Text.LowerIsTrue(GetEnv(env, "MYSQL_ECHO", "false"));
  }

  /** The default numbers read back as themselves. */
  lemma DefaultNumbersParse()
    ensures Text.ParseInt("3306") == Some(3306)
    ensures Text.ParseInt("20") == Some(20)
    ensures Text.ParseInt("3600") == Some(3600)
  {
    DefaultPortValue();
    DefaultPoolValues();
    Text.DigitsParse("3306");
    Text.DigitsParse("20");
    Text.DigitsParse("3600");
  }

  lemma DefaultPortValue()
    ensures Text.AllDigits("3306") && Text.DigitsValue("3306") == 3306
  {
    assert "3306"[..3] == "330";
    assert "330"[..2] == "33";
    assert "33"[..1] == "3";
    assert "3"[..0] == "";
  }

  lemma DefaultPoolValues()
    ensures Text.AllDigits("20") && Text.DigitsValue("20") == 20
    ensures Text.AllDigits("3600") && Text.DigitsValue("3600") == 3600
  {
    assert "20"[..1] == "2";
    assert "2"[..0] == "";
    assert "3600"[..3] == "360";
    assert "360"[..2] == "36";
    assert "36"[..1] == "3";
    assert "3"[..0] == "";
  }

  /** With no variable set, every setting takes its default. */
  lemma DefaultConfig()
    ensures LoadConfig(map[]) == Ok(Config("localhost", 3306, "root", "password", DefaultDatabase, Charset, 20, 3600, false))
  {
    DefaultNumbersParse();
    assert Text.IntValue("3306") == Ok(3306);
    assert Text.IntValue("20") == Ok(20);
    assert Text.IntValue("3600") == Ok(3600);
    assert Echo(map[]) == false by {
      Text.LowerIsTrue("false");
    }
  }

  /**
   * `f"mysql+pymysql://{user}:{password}@{host}:{port}"`: it names the
   * driver and ends with the port as an integer prints, with no database.
   */
  function ServerUrl(user: string, password: string, host: string, port: int): (url: string)
    ensures var tail := ":" + Text.IntToString(port);
            && |"mysql+pymysql://"| + |tail| <= |url|
            && url[..|"mysql+pymysql://"|] == "mysql+pymysql://"
            && url[|url| - |tail|..] == tail
  {
    "mysql+pymysql://" + user + ":" + password + "@" + host + ":" + Text.IntToString(port)
  }

  /**
   * The URL parses back into its fields: after the scheme, `@` separates
   * the credentials from the address, `:` separates user from password and
   * host from port, and no `/` follows, so the URL selects no database.
   * This holds whenever the fields contain none of these separators.
   */
  lemma ServerUrlFields(user: string, password: string, host: string, port: int)
    requires '@' !in user && '@' !in password && '@' !in host
    requires ':' !in user && ':' !in password && ':' !in host
    requires '/' !in user && '/' !in password && '/' !in host
    ensures var rest := ServerUrl(user, password, host, port)[|"mysql+pymysql://"|..];
            var portText := Text.IntToString(port);
            && Text.Split(rest, '@') == [user + ":" + password, host + ":" + portText]
            && Text.Split(user + ":" + password, ':') == [user, password]
            && Text.Split(host + ":" + portText, ':') == [host, portText]
            && '/' !in rest
  {
    var portText := Text.IntToString(port);
    Text.IntToStringChars(port);
    assert '@' !in portText && ':' !in portText && '/' !in portText;
    var creds := user + ":" + password;
    var address := host + ":" + portText;
    var rest := ServerUrl(user, password, host, port)[|"mysql+pymysql://"|..];
    assert rest == creds + "@" + address;
    Text.SplitPrefix(creds, '@', address);
    Text.SplitNoSep(address, '@');
    Text.SplitPrefix(user, ':', password);
    Text.SplitNoSep(password, ':');
    Text.SplitPrefix(host, ':', portText);
    Text.SplitNoSep(portText, ':');
  }

  /** `connection_string`. */
  function ConnectionString(c: Config): string
  {
    ServerUrl(c.user, c.password, c.host, c.port)
  }

  /** `database_url`: the connection string, then the database and the charset. */
  function DatabaseUrl(c: Config): (url: string)
    ensures var tail := "/" + c.database + "?charset=" + c.charset;
            && |url| == |ConnectionString(c)| + |tail|
            && url[..|ConnectionString(c)|] == ConnectionString(c)
            && url[|ConnectionString(c)|..] == tail
  {
    ConnectionString(c) + "/" + c.database + "?charset=" + c.charset
  }

  /** `pool_config`. */
  function Pool(c: Config): (p: PoolConfig)
    ensures p.poolSize == c.poolSize && p.poolRecycle == c.poolRecycle && p.echo == c.echo
  {
    PoolConfig(c.poolSize, c.poolRecycle, c.echo)
  }
}
