/**
 * The configuration loader: the server IP lists (with their defaults), the
 * environment type detected from the machine's IP, the priority chain that
 * decides the environment type, the choice of the dotenv file to load, and
 * the in-place additions to the IP lists.
 *
 * The process environment is an `Environ` object holding a map; the
 * command line, the files present in the project root and the machine's IP
 * are inputs. What the dotenv files contain is not modelled.
 */
module ConfigLoader {
  import opened Wrappers

  // ----- The IP lists -----

  /** The lists an `ip_env_mapping` module may define; `None` is an attribute it lacks. */
  datatype MappingModule = MappingModule(prodList: Option<seq<string>>, previewList: Option<seq<string>>,
                                         devList: Option<seq<string>>)

  const DefaultDevList: seq<string> := ["127.0.0.1", "localhost"]

  /** The three lists, in the order production, preview, development. */
  datatype IpLists = IpLists(prod: seq<string>, preview: seq<string>, dev: seq<string>)

  /**
   * `_load_ip_mapping`: the defaults, each replaced by the mapping module's
   * list where it defines one; a module that cannot be imported (`None`)
   * leaves the defaults.
   */
  function IpMapping(mapping: Option<MappingModule>): (lists: IpLists)
    ensures mapping.None? ==> lists == IpLists([], [], DefaultDevList)
    ensures mapping.Some? && mapping.value.prodList.Some? ==> lists.prod == mapping.value.prodList.value
    ensures mapping.Some? && mapping.value.previewList.Some? ==> lists.preview == mapping.value.previewList.value
    ensures mapping.Some? && mapping.value.devList.Some? ==> lists.dev == mapping.value.devList.value
    ensures mapping.Some? && mapping.value.devList.None? ==> lists.dev == DefaultDevList
  {
    match mapping
    case None => IpLists([], [], DefaultDevList)
    case Some(m) => IpLists(m.prodList.GetOr([]), m.previewList.GetOr([]), m.devList.GetOr(DefaultDevList))
  }

  /** `if ip not in lst: lst.append(ip)`, as a value. */
  function AppendAbsent(list: seq<string>, ip: string): seq<string>
  {
    if ip in list then list else list + [ip]
  }

  predicate NoDuplicates(list: seq<string>)
  {
    forall i, j :: 0 <= i < j < |list| ==> list[i] != list[j]
  }

  /**
   * After adding, the IP is a member, the earlier entries keep their order
   * as a prefix, at most one entry was added, nothing but `ip` was added,
   * and a duplicate-free list stays duplicate-free.
   */
  lemma AppendAbsentSpec(list: seq<string>, ip: string)
    ensures var r := AppendAbsent(list, ip);
            && ip in r
            && list <= r
            && |r| == (if ip in list then |list| else |list| + 1)
            && (forall x :: x in r <==> x in list || x == ip)
            && (NoDuplicates(list) ==> NoDuplicates(r))
  {
    var r := AppendAbsent(list, ip);
    if ip !in list {
      assert r[|list|] == ip;
      forall x | x in r ensures x in list || x == ip {
        var k :| 0 <= k < |r| && r[k] == x;
        if k < |list| { assert list[k] == x; }
      }
    }
  }

  // ----- The environment type -----

  /** The process environment (`os.environ`), which `load_config` writes. */
  class Environ {
    var vars: map<string, string>

    constructor (vars: map<string, string>)
      ensures this.vars == vars
    {
      this.vars := vars;
    }
  }

  /** Where the configuration was read from. */
  datatype EnvFile =
    | GivenFile(path: string)  // the `config_file` argument
    | LocalEnv                 // `.env`
    | TypedEnv(name: string)   // `.env.{type}` or `env.{type}`
    | SystemEnv                // no file: the system environment only

  /** `load_from_env_type`: `.env.{type}` if it exists, else `env.{type}` if that exists, else nothing. */
  function EnvTypeFile(envType: string, existing: set<string>): (f: Option<string>)
    ensures f == Some(".env." + envType) <==> ".env." + envType in existing
    ensures f == Some("env." + envType) <==> ".env." + envType !in existing && "env." + envType in existing
    ensures f.None? <==> ".env." + envType !in existing && "env." + envType !in existing
  {
    assert |".env." + envType| != |"env." + envType|;
    if ".env." + envType in existing then Some(".env." + envType)
    else if "env." + envType in existing then Some("env." + envType)
    else None
  }

  /** The file `load_config` loads when no `config_file` is given: `.env` first, then the typed file, then none. */
  function EnvFileChoice(envType: string, existing: set<string>): (f: EnvFile)
    ensures f == LocalEnv <==> ".env" in existing
    ensures f.TypedEnv? <==> ".env" !in existing && EnvTypeFile(envType, existing).Some?
    ensures f.TypedEnv? ==> f.name in existing
    ensures f == SystemEnv <==> ".env" !in existing && EnvTypeFile(envType, existing).None?
  {
    if ".env" in existing then LocalEnv
    else match EnvTypeFile(envType, existing)
      case Some(name) => TypedEnv(name)
      case None => SystemEnv
  }

  predicate Truthy(s: Option<string>)
  {
    s.Some? && s.value != ""
  }

  /** The command-line environment type: `argv[1]`, only when it is one of the three known names. */
  function ArgvEnvType(argv: seq<string>): Option<string>
  {
    if |argv| > 1 && argv[1] in {"dev", "show", "prod"} then Some(argv[1]) else None
  }

  /**
   * The priority chain of `load_config`: the command line, the `env_type`
   * argument, `APP_ENV_TYPE`, IP detection when enabled (`ipEnv` is what
   * detection gives), and finally `"dev"`.
   */
  function ResolveEnvType(argv: seq<string>, envType: Option<string>, appEnvType: Option<string>,
                          autoDetectIp: bool, ipEnv: string): (r: string)
    ensures r != ""
  {
    var fromArgv := ArgvEnvType(argv);
    var detected :=
      if Truthy(fromArgv) then fromArgv
      else if Truthy(envType) then envType
      else appEnvType;
    var detected' := if !Truthy(detected) && autoDetectIp then Some(ipEnv) else detected;
    if !Truthy(detected') then "dev" else detected'.value
  }

  /** The first non-empty candidate, or `""` when there is none. */
  function FirstNonEmpty(candidates: seq<string>): (r: string)
    ensures r == "" <==> forall i :: 0 <= i < |candidates| ==> candidates[i] == ""
    ensures r != "" ==> exists i :: 0 <= i < |candidates| && r == candidates[i]
                                    && forall k :: 0 <= k < i ==> candidates[k] == ""
  {
    if candidates == [] then ""
    else if candidates[0] != "" then candidates[0]
    else
      var r := FirstNonEmpty(candidates[1..]);
      if r != "" then
        ghost var i :| 0 <= i < |candidates[1..]| && r == candidates[1..][i]
                       && forall k :: 0 <= k < i ==> candidates[1..][k] == "";
        assert forall k :: 0 <= k < i + 1 ==> candidates[k] == "" by {
          forall k | 0 <= k < i + 1 ensures candidates[k] == "" {
            if k > 0 { assert candidates[k] == candidates[1..][k - 1]; }
          }
        }
        r
      else
        assert forall i :: 0 <= i < |candidates| ==> candidates[i] == "" by {
          forall i | 0 <= i < |candidates| ensures candidates[i] == "" {
            if i > 0 { assert candidates[i] == candidates[1..][i - 1]; }
          }
        }
        r
  }

  /**
   * The chain is "the first source that gives a non-empty type", over the
   * sources in priority order, with `"dev"` as the last source.
   */
  lemma ResolveIsFirstNonEmpty(argv: seq<string>, envType: Option<string>, appEnvType: Option<string>,
                               autoDetectIp: bool, ipEnv: string)
    ensures ResolveEnvType(argv, envType, appEnvType, autoDetectIp, ipEnv)
         == FirstNonEmpty([ArgvEnvType(argv).GetOr(""), envType.GetOr(""), appEnvType.GetOr(""),
                           if autoDetectIp then ipEnv else "", "dev"])
  {
    var a, b, c, d := ArgvEnvType(argv).GetOr(""), envType.GetOr(""), appEnvType.GetOr(""),
                      if autoDetectIp then ipEnv else "";
    FirstOfFive(a, b, c, d, "dev");
    var r := ResolveEnvType(argv, envType, appEnvType, autoDetectIp, ipEnv);
    if a != "" {
      assert r == a;
    } else if b != "" {
      assert r == b;
    } else if c != "" {
      assert r == c;
    } else if d != "" {
      assert r == d;
    } else {
      assert r == "dev";
    }
  }

  /** The first non-empty of five candidates, written out. */
  lemma FirstOfFive(a: string, b: string, c: string, d: string, e: string)
    ensures FirstNonEmpty([a, b, c, d, e]) ==
              if a != "" then a else if b != "" then b else if c != "" then c else if d != "" then d
              else FirstNonEmpty([e])
  {
    assert [d, e][1..] == [e];
    assert FirstNonEmpty([d, e]) == if d != "" then d else FirstNonEmpty([e]);
    assert [c, d, e][1..] == [d, e];
    assert FirstNonEmpty([c, d, e]) == if c != "" then c else FirstNonEmpty([d, e]);
    assert [b, c, d, e][1..] == [c, d, e];
    assert FirstNonEmpty([b, c, d, e]) == if b != "" then b else FirstNonEmpty([c, d, e]);
    assert [a, b, c, d, e][1..] == [b, c, d, e];
  }

  // ----- The loader -----

  class ConfigLoader {
    var prodList: seq<string>
    var previewList: seq<string>
    var devList: seq<string>

    /** `__init__`, which runs `_load_ip_mapping`. */
    constructor (mapping: Option<MappingModule>)
      ensures IpLists(prodList, previewList, devList) == IpMapping(mapping)
    {
      prodList := [];
      previewList := [];
      devList := DefaultDevList;
      if mapping.Some? {
        if mapping.value.prodList.Some? {
          prodList := mapping.value.prodList.value;
        }
        if mapping.value.previewList.Some? {
          previewList := mapping.value.previewList.value;
        }
        if mapping.value.devList.Some? {
          devList := mapping.value.devList.value;
        }
      }
    }

    /**
     * `detect_env_by_ip(ip)`; without an argument the machine's address
     * `localIp` is used. Production is checked before preview, and the
     * development list is never consulted.
     */
    function DetectEnvByIp(ip: Option<string>, localIp: string): (env: string)
      reads this
      ensures var a := ip.GetOr(localIp);
              && (env == "prod" <==> a in prodList)
              && (env == "show" <==> a !in prodList && a in previewList)
              && (env == "dev" <==> a !in prodList && a !in previewList)
    {
      var a := ip.GetOr(localIp);
      if a in prodList then "prod"
      else if a in previewList then "show"
      else "dev"
    }

    /**
     * `load_config`: resolve the environment type, then either load the
     * given file and return, or load `.env`, the typed file or nothing, and
     * record the type in `APP_ENV_TYPE`. The variables a loaded file brings
     * are not modelled, so `environ` changes only by the loader's own
     * write of `APP_ENV_TYPE`.
     */
    method LoadConfig(argv: seq<string>, envType: Option<string>, configFile: Option<string>, autoDetectIp: bool,
                      environ: Environ, existing: set<string>, localIp: string)
      returns (detected: string, loaded: EnvFile)
      modifies environ
      ensures detected == ResolveEnvType(argv, envType,
                                         if "APP_ENV_TYPE" in old(environ.vars) then Some(old(environ.vars)["APP_ENV_TYPE"]) else None,
                                         autoDetectIp, DetectEnvByIp(None, localIp))
      ensures Truthy(configFile) ==> loaded == GivenFile(configFile.value) && environ.vars == old(environ.vars)
      ensures !Truthy(configFile) ==> loaded == EnvFileChoice(detected, existing)
                                      && environ.vars == old(environ.vars)["APP_ENV_TYPE" := detected]
    {
      var detectedEnv: Option<string> := None;
      if |argv| > 1 {
        var arg := argv[1];
        if arg in ["dev", "show", "prod"] {
          detectedEnv := Some(arg);
        }
      }
      if !Truthy(detectedEnv) && Truthy(envType) {
        detectedEnv := envType;
      }
      if !Truthy(detectedEnv) {
        detectedEnv := if "APP_ENV_TYPE" in environ.vars then Some(environ.vars["APP_ENV_TYPE"]) else None;
      }
      if !Truthy(detectedEnv) && autoDetectIp {
        detectedEnv := Some(DetectEnvByIp(None, localIp));
      }
      if !Truthy(detectedEnv) {
        detectedEnv := Some("dev");
      }
      detected := detectedEnv.value;

      if Truthy(configFile) {
        loaded := GivenFile(configFile.value);
        return;
      }

      if ".env" in existing {
        loaded := LocalEnv;
      } else {
        var typed := EnvTypeFile(detected, existing);
        if typed.Some? {
          loaded := TypedEnv(typed.value);
        } else {
          loaded := SystemEnv;
        }
      }
      environ.vars := environ.vars["APP_ENV_TYPE" := detected];
    }

    /** `add_prod_ip`. */
    method AddProdIp(ip: string)
      modifies this
      ensures prodList == AppendAbsent(old(prodList), ip)
      ensures previewList == old(previewList) && devList == old(devList)
    {
      if ip !in prodList {
        prodList := prodList + [ip];
      }
    }

    /** `add_preview_ip`. */
    method AddPreviewIp(ip: string)
      modifies this
      ensures previewList == AppendAbsent(old(previewList), ip)
      ensures prodList == old(prodList) && devList == old(devList)
    {
      if ip !in previewList {
        previewList := previewList + [ip];
      }
    }

    /** `add_dev_ip`. */
    method AddDevIp(ip: string)
      modifies this
      ensures devList == AppendAbsent(old(devList), ip)
      ensures prodList == old(prodList) && previewList == old(previewList)
    {
      if ip !in devList {
        devList := devList + [ip];
      }
    }
  }
}
