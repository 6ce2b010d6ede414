/** `fujin init`: the sample `fujin.toml` it generates. The file system is
    seen through its inputs: whether `fujin.toml` and `.python-version` exist,
    the stem of the working directory, and `pyproject.toml` already parsed
    (or absent). The result is the dict that would be serialised. */
module Init {
  import opened Common

  /** A TOML value as the generator handles it: a string, a table, or any
      other value, of which only its truthiness matters. */
  datatype Toml = TStr(s: string) | TTable(entries: Dict<string, Toml>) | TOther(truthy: bool)

  /** The `--profile` choices. */
  datatype Profile = Simple | Falco

  /** Python truthiness of a TOML value. */
  predicate TomlTruthy(v: Toml)
  {
    match v
    case TStr(s) => s != ""
    case TTable(e) => e != []
    case TOther(t) => t
  }

  /** The application name derived from the working directory's stem:
      dashes and spaces become underscores, then the name is lower-cased. */
  function DeriveAppName(stem: string): (r: string)
    ensures |r| == |stem|
    ensures forall i :: 0 <= i < |r| ==>
      r[i] == (if stem[i] == '-' || stem[i] == ' ' then '_' else LowerChar(stem[i]))
    ensures '-' !in r && ' ' !in r
    ensures forall i :: 0 <= i < |r| ==> !('A' <= r[i] <= 'Z')
  {
    Lower(ReplaceChar(ReplaceChar(stem, '-', '_'), ' ', '_'))
  }

  /** Deriving the name again changes nothing. */
  lemma DeriveAppNameIdempotent(stem: string)
    ensures DeriveAppName(DeriveAppName(stem)) == DeriveAppName(stem)
  {
    var r := DeriveAppName(stem);
    forall i | 0 <= i < |r|
      ensures DeriveAppName(r)[i] == r[i]
    {
      if stem[i] != '-' && stem[i] != ' ' {
        assert r[i] == LowerChar(stem[i]);
      }
    }
  }

  /** The top-level keys of both sample configurations, in order. */
  const SimpleKeys: seq<string> :=
    ["app", "version", "build_command", "distfile", "webserver",
     "release_command", "processes", "aliases", "host"]

  lemma SimpleKeysDistinct()
    ensures Distinct(SimpleKeys)
    ensures "python_version" !in SimpleKeys
  {
  }

  /** The values of the "simple" profile, key by key. */
  function SimpleValues(app: string): seq<Toml>
  {
    [ TStr(app),
      TStr("0.1.0"),
      TStr("uv build && uv pip compile pyproject.toml -o requirements.txt"),
      TStr(Distfile(app)),
      TTable([("upstream", TStr("localhost:8000")), ("type", TStr("fujin.proxies.caddy"))]),
      TStr(app + " migrate"),
      TTable([("web", TStr(".venv/bin/gunicorn " + app + ".wsgi:application --bind 0.0.0.0:8000"))]),
      TTable([("shell", TStr("server exec --appenv -i bash"))]),
      TTable([("ip", TStr("127.0.0.1")), ("user", TStr("root")),
              ("domain_name", TStr(app + ".com")), ("envfile", TStr(".env.prod"))])
    ]
  }

  /** The sample distfile, with the `{version}` placeholder left for the
      configuration to fill in. */
  function Distfile(app: string): string
  {
    "dist/" + app + "-" + "{version}" + "-py3-none-any.whl"
  }

  /** The "simple" profile's sample configuration: the nine keys in order,
      each once. */
  function SimpleConfig(app: string): (c: Dict<string, Toml>)
    ensures Keys(c) == SimpleKeys
    ensures UniqueKeys(c)
  {
    SimpleKeysDistinct();
    ZipLookup(SimpleKeys, SimpleValues(app), 0);
    Zip(SimpleKeys, SimpleValues(app))
  }

  const FalcoAliases: Dict<string, Toml> :=
    [ ("console", TStr("app exec -i shell_plus")),
      ("dbconsole", TStr("app exec -i dbshell")),
      ("print_settings", TStr("app exec print_settings --format=pprint")),
      ("shell", TStr("server exec --appenv -i bash")) ]

  function FalcoProcesses(app: string): Toml
  {
    TTable([("web", TStr(".venv/bin/" + app + " prodserver")),
            ("worker", TStr(".venv/bin/" + app + " qcluster"))])
  }

  /** The "falco" profile: the simple configuration with three keys
      overwritten in place by `dict.update`, so it keeps the simple one's
      keys, in the same order, each once. */
  function FalcoConfig(app: string): (r: Dict<string, Toml>)
    ensures Keys(r) == SimpleKeys
    ensures UniqueKeys(r)
  {
    var c := SimpleConfig(app);
    var c1 := Put(c, "release_command", TStr(app + " setup"));
    var c2 := Put(c1, "processes", FalcoProcesses(app));
    PutKeys(c, "release_command", TStr(app + " setup"));
    PutUnique(c, "release_command", TStr(app + " setup"));
    PutKeys(c1, "processes", FalcoProcesses(app));
    PutUnique(c1, "processes", FalcoProcesses(app));
    PutKeys(c2, "aliases", TTable(FalcoAliases));
    PutUnique(c2, "aliases", TTable(FalcoAliases));
    Put(c2, "aliases", TTable(FalcoAliases))
  }

  function ProfileConfig(profile: Profile, app: string): Dict<string, Toml>
  {
    match profile
    case Simple => SimpleConfig(app)
    case Falco => FalcoConfig(app)
  }

  /** The simple configuration has the nine keys in order, each once; "app"
      is the given name; its distfile keeps a literal `{version}` placeholder
      after the app name, and its only process is "web". */
  lemma SimpleConfigShape(app: string)
    ensures Keys(SimpleConfig(app)) == SimpleKeys
    ensures UniqueKeys(SimpleConfig(app))
    ensures Lookup(SimpleConfig(app), "app") == TStr(app)
    ensures Lookup(SimpleConfig(app), "distfile").TStr?
    ensures StartsWith(Lookup(SimpleConfig(app), "distfile").s, "dist/" + app + "-")
    ensures Contains(Lookup(SimpleConfig(app), "distfile").s, "{version}")
    ensures Lookup(SimpleConfig(app), "processes").TTable?
    ensures Keys(Lookup(SimpleConfig(app), "processes").entries) == ["web"]
  {
    SimpleKeysDistinct();
    var vs := SimpleValues(app);
    ZipLookup(SimpleKeys, vs, 0);
    ZipLookup(SimpleKeys, vs, 3);
    ZipLookup(SimpleKeys, vs, 6);
    var p := "dist/" + app + "-";
    var d := Distfile(app);
    assert d == p + "{version}" + "-py3-none-any.whl";
    assert d[|p|..|p| + 9] == "{version}";
    ContainsAt(d, "{version}", |p|);
  }

  /** Every falco value other than `release_command`, `processes` and
      `aliases` is the simple one. */
  lemma FalcoKeepsOthers(app: string, k: string)
    requires k in SimpleKeys && k != "release_command" && k != "processes" && k != "aliases"
    ensures k in Keys(FalcoConfig(app)) && k in Keys(SimpleConfig(app))
    ensures Lookup(FalcoConfig(app), k) == Lookup(SimpleConfig(app), k)
  {
    var c := SimpleConfig(app);
    var c1 := Put(c, "release_command", TStr(app + " setup"));
    var c2 := Put(c1, "processes", FalcoProcesses(app));
    LookupPut(c, "release_command", TStr(app + " setup"), k);
    LookupPut(c1, "processes", FalcoProcesses(app), k);
    LookupPut(c2, "aliases", TTable(FalcoAliases), k);
  }

  lemma FalcoProcessNames(app: string)
    ensures Keys(FalcoProcesses(app).entries) == ["web", "worker"]
  {
  }

  /** The three replaced falco values: the `setup` release command, the
      processes "web" and "worker", and the four aliases. */
  lemma FalcoReplaced(app: string)
    ensures "release_command" in Keys(FalcoConfig(app)) && "processes" in Keys(FalcoConfig(app))
      && "aliases" in Keys(FalcoConfig(app))
    ensures Lookup(FalcoConfig(app), "release_command") == TStr(app + " setup")
    ensures Lookup(FalcoConfig(app), "processes") == FalcoProcesses(app)
    ensures Keys(FalcoProcesses(app).entries) == ["web", "worker"]
    ensures Lookup(FalcoConfig(app), "aliases") == TTable(FalcoAliases)
  {
    FalcoProcessNames(app);
    var c := SimpleConfig(app);
    var c1 := Put(c, "release_command", TStr(app + " setup"));
    var c2 := Put(c1, "processes", FalcoProcesses(app));
    assert SimpleKeys[5] == "release_command" && SimpleKeys[6] == "processes" && SimpleKeys[7] == "aliases";
    LookupPut(c, "release_command", TStr(app + " setup"), "release_command");
    LookupPut(c1, "processes", FalcoProcesses(app), "release_command");
    LookupPut(c2, "aliases", TTable(FalcoAliases), "release_command");
    LookupPut(c1, "processes", FalcoProcesses(app), "processes");
    LookupPut(c2, "aliases", TTable(FalcoAliases), "processes");
    LookupPut(c2, "aliases", TTable(FalcoAliases), "aliases");
  }

  /** Either profile's configuration has the nine keys, each once, and "app"
      holds the given name. */
  lemma ProfileConfigShape(profile: Profile, app: string)
    ensures Keys(ProfileConfig(profile, app)) == SimpleKeys
    ensures UniqueKeys(ProfileConfig(profile, app))
    ensures "app" in Keys(ProfileConfig(profile, app)) && "version" in Keys(ProfileConfig(profile, app))
    ensures "python_version" !in Keys(ProfileConfig(profile, app))
    ensures Lookup(ProfileConfig(profile, app), "app") == TStr(app)
  {
    SimpleKeysDistinct();
    assert SimpleKeys[1] == "version";
    SimpleConfigShape(app);
    FalcoKeepsOthers(app, "app");
  }

  /** The table `pyproject.get("project", {})`, or the AttributeError raised
      when `project` holds something other than a table. */
  function ProjectOf(pyproject: Dict<string, Toml>): (r: Result<Dict<string, Toml>>)
    ensures r.Err? <==> "project" in Keys(pyproject) && !Lookup(pyproject, "project").TTable?
    ensures r.Err? ==> r.error.AttributeError?
  {
    if "project" !in Keys(pyproject) then Ok([])
    else match Lookup(pyproject, "project")
      case TTable(e) => Ok(e)
      case _ => Err(AttributeError("object has no attribute 'get'"))
  }

  /** The value stored under "app": the project's name when `pyproject.toml`
      has one, else the derived name. */
  function AppValue(app: string, pyproject: Option<Dict<string, Toml>>): Toml
  {
    if pyproject.Some? && ProjectOf(pyproject.value).Ok?
       && "name" in Keys(ProjectOf(pyproject.value).value)
    then Lookup(ProjectOf(pyproject.value).value, "name")
    else TStr(app)
  }

  /** `pyproject.toml` gives a truthy `project.version`. */
  predicate VersionGiven(pyproject: Option<Dict<string, Toml>>)
  {
    pyproject.Some? && ProjectOf(pyproject.value).Ok?
    && "version" in Keys(ProjectOf(pyproject.value).value)
    && TomlTruthy(Lookup(ProjectOf(pyproject.value).value, "version"))
  }

  /** `Init.__call__`: refuses to overwrite `fujin.toml`, builds the profile's
      configuration for the derived name, adds `python_version` when there is
      no `.python-version`, and takes the name and version from
      `pyproject.toml` when it exists. */
  method Generate(tomlExists: bool, stem: string, profile: Profile, pythonVersionExists: bool,
                  pyproject: Option<Dict<string, Toml>>) returns (r: Result<Dict<string, Toml>>)
    ensures tomlExists ==> r == Err(Exit(1, "fujin.toml file already exists"))
    ensures !tomlExists && pyproject.Some? && ProjectOf(pyproject.value).Err? ==>
      r == Err(ProjectOf(pyproject.value).error)
    ensures !tomlExists && (pyproject.None? || ProjectOf(pyproject.value).Ok?) ==> r.Ok?
    ensures r.Ok? ==> UniqueKeys(r.value)
    ensures r.Ok? ==>
      ("app" in Keys(r.value) && Lookup(r.value, "app") == AppValue(DeriveAppName(stem), pyproject))
    ensures r.Ok? ==> ("python_version" in Keys(r.value) <==> !pythonVersionExists)
    ensures r.Ok? && !pythonVersionExists ==> Lookup(r.value, "python_version") == TStr("3.12")
    ensures r.Ok? ==> ("version" in Keys(r.value) <==> !VersionGiven(pyproject))
    ensures r.Ok? ==> forall k :: k in Keys(r.value) ==>
      k in Keys(ProfileConfig(profile, DeriveAppName(stem))) || k == "python_version"
    ensures r.Ok? ==> forall k ::
      k in Keys(ProfileConfig(profile, DeriveAppName(stem))) && k != "app" && k != "version" ==>
      k in Keys(r.value) && Lookup(r.value, k) == Lookup(ProfileConfig(profile, DeriveAppName(stem)), k)
  {
    if tomlExists {
      return Err(Exit(1, "fujin.toml file already exists"));
    }
    var app := DeriveAppName(stem);
    var config := ProfileConfig(profile, app);
    ProfileConfigShape(profile, app);
    r := Customise(config, app, pythonVersionExists, pyproject);
  }

  /** The edits `Init.__call__` makes to the profile's configuration `base`:
      `python_version` when there is no `.python-version`, then the name and
      version taken from `pyproject.toml` when it exists. */
  method Customise(base: Dict<string, Toml>, app: string, pythonVersionExists: bool,
                   pyproject: Option<Dict<string, Toml>>) returns (r: Result<Dict<string, Toml>>)
    requires UniqueKeys(base) && "app" in Keys(base) && "version" in Keys(base)
    requires "python_version" !in Keys(base) && Lookup(base, "app") == TStr(app)
    ensures pyproject.Some? && ProjectOf(pyproject.value).Err? ==> r == Err(ProjectOf(pyproject.value).error)
    ensures pyproject.None? || ProjectOf(pyproject.value).Ok? ==> r.Ok?
    ensures r.Ok? ==> UniqueKeys(r.value)
    ensures r.Ok? ==> ("app" in Keys(r.value) && Lookup(r.value, "app") == AppValue(app, pyproject))
    ensures r.Ok? ==> ("python_version" in Keys(r.value) <==> !pythonVersionExists)
    ensures r.Ok? && !pythonVersionExists ==> Lookup(r.value, "python_version") == TStr("3.12")
    ensures r.Ok? ==> ("version" in Keys(r.value) <==> !VersionGiven(pyproject))
    ensures r.Ok? ==> forall k :: k in Keys(r.value) ==> k in Keys(base) || k == "python_version"
    ensures r.Ok? ==> forall k :: k in Keys(base) && k != "app" && k != "version" ==>
      k in Keys(r.value) && Lookup(r.value, k) == Lookup(base, k)
  {
    var config := base;
    if !pythonVersionExists {
      config := AddPythonVersion(config);
    }
    assert "version" in Keys(config) && "app" in Keys(config);
    if pyproject.Some? {
      var project := ProjectOf(pyproject.value);
      if project.Err? {
        return Err(project.error);
      }
      config := SetApp(config, AppValue(app, pyproject));
      assert "version" in Keys(config);
      if VersionGiven(pyproject) {
        config := DropVersion(config);
      }
    }
    return Ok(config);
  }

  /** `config["python_version"] = "3.12"` on a configuration without it. */
  function AddPythonVersion(config: Dict<string, Toml>): (r: Dict<string, Toml>)
    requires UniqueKeys(config) && "python_version" !in Keys(config)
    ensures UniqueKeys(r)
    ensures forall k :: k in Keys(r) <==> k in Keys(config) || k == "python_version"
    ensures "python_version" in Keys(r) && Lookup(r, "python_version") == TStr("3.12")
    ensures forall k :: k in Keys(config) ==> Lookup(r, k) == Lookup(config, k)
  {
    var r := Put(config, "python_version", TStr("3.12"));
    PutKeys(config, "python_version", TStr("3.12"));
    PutUnique(config, "python_version", TStr("3.12"));
    LookupPut(config, "python_version", TStr("3.12"), "python_version");
    forall k | k in Keys(config)
      ensures Lookup(r, k) == Lookup(config, k)
    {
      LookupPut(config, "python_version", TStr("3.12"), k);
    }
    r
  }

  /** `config["app"] = v` on a configuration that has an "app" key. */
  function SetApp(config: Dict<string, Toml>, v: Toml): (r: Dict<string, Toml>)
    requires UniqueKeys(config) && "app" in Keys(config)
    ensures UniqueKeys(r)
    ensures forall k :: k in Keys(r) <==> k in Keys(config)
    ensures Lookup(r, "app") == v
    ensures forall k :: k in Keys(config) && k != "app" ==> Lookup(r, k) == Lookup(config, k)
  {
    var r := Put(config, "app", v);
    PutKeys(config, "app", v);
    PutUnique(config, "app", v);
    forall k | k in Keys(config)
      ensures Lookup(r, k) == if k == "app" then v else Lookup(config, k)
    {
      LookupPut(config, "app", v, k);
    }
    r
  }

  /** `config.pop("version")`. */
  function DropVersion(config: Dict<string, Toml>): (r: Dict<string, Toml>)
    requires UniqueKeys(config)
    ensures UniqueKeys(r)
    ensures forall k :: k in Keys(r) <==> k in Keys(config) && k != "version"
    ensures forall k :: k in Keys(config) && k != "version" ==> Lookup(r, k) == Lookup(config, k)
  {
    var r := Pop(config, "version");
    PopUnique(config, "version");
    forall k
      ensures k in Keys(r) <==> k in Keys(config) && k != "version"
    {
      PopKeys(config, "version", k);
    }
    forall k | k in Keys(config) && k != "version"
      ensures Lookup(r, k) == Lookup(config, k)
    {
      PopLookup(config, "version", k);
    }
    r
  }
}
