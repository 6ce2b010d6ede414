/** The project configuration (fujin.toml) after decoding: the post-decode
    checks and rewrites, and the deterministic naming and layout rules derived
    from it. Values are taken as decoded; TOML parsing is not modelled. */
module Config {
  import opened Common

  datatype InstallationMode = PyPackage | Binary

  datatype SecretAdapter = Bitwarden | OnePassword | Doppler | System

  datatype SecretConfig = SecretConfig(adapter: SecretAdapter, passwordEnv: Option<string>)

  /** One entry of `[processes]`. */
  datatype ProcessConfig = ProcessConfig(command: string, replicas: int, socket: bool, timer: Option<string>)

  datatype Webserver = Webserver(upstream: string, enabled: bool, statics: Dict<string, string>)

  /** `[host]` after `HostConfig.__post_init__`: `ip` is filled in, the env text
      is loaded and stripped, and `appsDir` is absolute. */
  datatype HostConfig = HostConfig(
    ip: string,
    domainName: string,
    user: string,
    envContent: string,
    appsDir: string,
    passwordEnv: Option<string>,
    sshPort: int,
    keyFilename: Option<string>)

  datatype Config = Config(
    appName: string,
    version: string,
    versionsToKeep: Option<nat>,
    pythonVersion: Option<string>,
    buildCommand: string,
    releaseCommand: Option<string>,
    installationMode: InstallationMode,
    distfile: string,
    aliases: Dict<string, string>,
    host: HostConfig,
    processes: Dict<string, ProcessConfig>,
    webserver: Webserver,
    requirements: Option<string>,
    localConfigDir: string,
    secretConfig: Option<SecretConfig>)

  const DefaultAppsDir := ".local/share/fujin"
  const DefaultSshPort := 22
  const DefaultVersionsToKeep := 5

  // ---------------------------------------------------------------------
  // Post-decode validation

  /** `ProcessConfig(...)` with its `__post_init__` check. */
  function NewProcessConfig(command: string, replicas: int, socket: bool, timer: Option<string>): (r: Result<ProcessConfig>)
    ensures r.Err? <==> socket && Truthy(timer)
    ensures r.Err? ==> r.error.ImproperlyConfigured?
    ensures r.Ok? ==> r.value == ProcessConfig(command, replicas, socket, timer)
  {
    if socket && Truthy(timer) then
      Err(ImproperlyConfigured("A process cannot have both 'socket' and 'timer' enabled."))
    else
      Ok(ProcessConfig(command, replicas, socket, timer))
  }

  /** `HostConfig(...)` with its `__post_init__`; `localFiles` stands for the
      local file system (path to contents) that the envfile is read from. */
  function NewHostConfig(
    ip: Option<string>, domainName: string, user: string,
    envFile: Option<string>, env: Option<string>, appsDir: string,
    passwordEnv: Option<string>, sshPort: int, keyFilename: Option<string>,
    localFiles: map<string, string>): (r: Result<HostConfig>)
    ensures Truthy(envFile) && Truthy(env) ==> r.Err?
    ensures Truthy(envFile) && envFile.value !in localFiles ==> r.Err?
    ensures r.Err? ==> r.error.ImproperlyConfigured?
    ensures r.Ok? <==> !(Truthy(envFile) && (Truthy(env) || envFile.value !in localFiles))
    ensures r.Ok? ==>
      && r.value.ip == (if Truthy(ip) then ip.value else domainName)
      && r.value.appsDir == "/home/" + user + "/" + appsDir
      && r.value.envContent == (if Truthy(envFile) then Strip(localFiles[envFile.value])
                                else if Truthy(env) then Strip(env.value) else "")
      && r.value.domainName == domainName && r.value.user == user
      && r.value.passwordEnv == passwordEnv && r.value.sshPort == sshPort
      && r.value.keyFilename == keyFilename
  {
    if Truthy(envFile) && Truthy(env) then
      Err(ImproperlyConfigured("Cannot set both 'env' and 'envfile' properties."))
    else if Truthy(envFile) && envFile.value !in localFiles then
      Err(ImproperlyConfigured(envFile.value + " not found"))
    else
      var content := if Truthy(envFile) then Some(localFiles[envFile.value]) else env;
      assert Strip("") == "";
      Ok(HostConfig(
        ip := OrElse(ip, domainName),
        domainName := domainName,
        user := user,
        envContent := if Truthy(content) then Strip(content.value) else "",
        appsDir := "/home/" + user + "/" + appsDir,
        passwordEnv := passwordEnv,
        sshPort := sshPort,
        keyFilename := keyFilename))
  }

  /** The stripped env text has no surrounding whitespace. */
  lemma StrippedHasNoSurroundingSpace(s: string)
    ensures var t := Strip(s); t == [] || (!IsSpace(t[0]) && !IsSpace(t[|t| - 1]))
  {
    var l := TrimLeft(s);
    var t := TrimRight(l);
    if t != [] {
      assert t[0] == l[0];
    }
  }

  /** `HostConfig.password`: `environ` stands for the process environment. */
  function Password(host: HostConfig, environ: map<string, string>): (r: Result<Option<string>>)
    ensures !Truthy(host.passwordEnv) <==> r == Ok(None)
    ensures r.Ok? && r.value.Some? ==>
      host.passwordEnv.value in environ && r.value.value == environ[host.passwordEnv.value] != ""
    ensures Truthy(host.passwordEnv) && (host.passwordEnv.value !in environ || environ[host.passwordEnv.value] == "")
      ==> r.Err? && r.error.ImproperlyConfigured?
    ensures Truthy(host.passwordEnv) && host.passwordEnv.value in environ && environ[host.passwordEnv.value] != ""
      ==> r == Ok(Some(environ[host.passwordEnv.value]))
  {
    if !Truthy(host.passwordEnv) then Ok(None)
    else
      var name := host.passwordEnv.value;
      if name !in environ || environ[name] == "" then
        Err(ImproperlyConfigured("Env " + name + " can not be found"))
      else Ok(Some(environ[name]))
  }

  /** `Config.__post_init__`; `pythonVersionFile` is the contents of
      `.python-version`, when that file exists. */
  function NewConfig(c: Config, pythonVersionFile: Option<string>): (r: Result<Config>)
    ensures r.Ok? ==> "web" in Keys(c.processes) || !c.webserver.enabled
    ensures r.Ok? ==> r.value == c.(pythonVersion := r.value.pythonVersion)
    ensures r.Ok? && c.installationMode == PyPackage && !Truthy(c.pythonVersion) ==>
      pythonVersionFile.Some? && r.value.pythonVersion == Some(Strip(pythonVersionFile.value))
    ensures (c.installationMode != PyPackage || Truthy(c.pythonVersion)) && r.Ok? ==>
      r.value.pythonVersion == c.pythonVersion
    ensures c.installationMode == PyPackage && !Truthy(c.pythonVersion) && pythonVersionFile.None?
      ==> r.Err? && r.error.ValidationError?
    ensures (c.installationMode != PyPackage || Truthy(c.pythonVersion) || pythonVersionFile.Some?)
      ==> (r.Ok? <==> "web" in Keys(c.processes) || !c.webserver.enabled)
  {
    if c.installationMode == PyPackage && !Truthy(c.pythonVersion) && pythonVersionFile.None? then
      Err(ValidationError("Add a python_version key or a .python-version file"))
    else
      var pv := if c.installationMode == PyPackage && !Truthy(c.pythonVersion)
                then Some(Strip(pythonVersionFile.value)) else c.pythonVersion;
      if "web" !in Keys(c.processes) && c.webserver.enabled then
        Err(ImproperlyConfigured("Missing web process or set the proxy enabled to False to disable the use of a proxy"))
      else Ok(c.(pythonVersion := pv))
  }

  // ---------------------------------------------------------------------
  // Layout on the host

  /** The program to run, relative to the app directory. */
  function AppBin(c: Config): (r: string)
    ensures c.installationMode == PyPackage ==> r == ".venv/bin/" + c.appName
    ensures c.installationMode == Binary ==> r == c.appName
    ensures EndsWith(r, c.appName)
  {
    if c.installationMode == PyPackage then ".venv/bin/" + c.appName else c.appName
  }

  function AppDir(c: Config): string
  {
    c.host.appsDir + "/" + c.appName
  }

  /** `get_release_dir(version)`: a falsy version means the configured one. */
  function ReleaseDir(c: Config, version: Option<string>): string
  {
    AppDir(c) + "/v" + OrElse(version, c.version)
  }

  /** A release dir is `v{version}` inside the app dir, the configured version
      standing in for a falsy one. */
  lemma ReleaseDirShape(c: Config, version: Option<string>)
    ensures StartsWith(ReleaseDir(c, version), AppDir(c) + "/v")
    ensures EndsWith(ReleaseDir(c, version), OrElse(version, c.version))
    ensures !Truthy(version) ==> ReleaseDir(c, version) == ReleaseDir(c, Some(c.version))
  {
  }

  /** Release directories are distinct per version and all sit in the app dir. */
  lemma ReleaseDirInjective(c: Config, v: string, w: string)
    requires v != "" && w != ""
    ensures StartsWith(ReleaseDir(c, Some(v)), AppDir(c) + "/v")
    ensures ReleaseDir(c, Some(v)) == ReleaseDir(c, Some(w)) <==> v == w
  {
    var p := AppDir(c) + "/v";
    assert ReleaseDir(c, Some(v)) == p + v;
    assert ReleaseDir(c, Some(w)) == p + w;
    if p + v == p + w {
      assert v == (p + v)[|p|..];
      assert w == (p + w)[|p|..];
    }
  }

  /** The release dir is `/home/{user}/{apps_dir}/{app}/v{version}` for the
      host config built from the raw `apps_dir`. */
  lemma ReleaseDirLayout(c: Config, rawAppsDir: string, version: Option<string>)
    requires c.host.appsDir == "/home/" + c.host.user + "/" + rawAppsDir
    ensures ReleaseDir(c, version)
      == "/home/" + c.host.user + "/" + rawAppsDir + "/" + c.appName + "/v" + OrElse(version, c.version)
  {
  }

  /** Position of the first character of `s` that is in `cs`. */
  function FindAny(s: string, cs: set<char>): (r: Option<nat>)
    ensures r.Some? ==> r.value < |s| && s[r.value] in cs
  {
    if s == [] then None
    else if s[0] in cs then Some(0)
    else match FindAny(s[1..], cs)
      case None => None
      case Some(j) => Some(j + 1)
  }

  /** The first match is found after a prefix with none. */
  lemma {:induction false} FindAnyAppend(a: string, b: string, cs: set<char>)
    requires forall i :: 0 <= i < |a| ==> a[i] !in cs
    requires b != [] && b[0] in cs
    ensures FindAny(a + b, cs) == Some(|a|)
  {
    if a != [] {
      assert (a + b)[1..] == a[1..] + b;
      FindAnyAppend(a[1..], b, cs);
    }
  }

  /** `p + t` on a successful result, the error passed through otherwise. */
  function PrefixOk(p: string, r: Result<string>): Result<string>
  {
    match r
    case Ok(t) => Ok(p + t)
    case Err(e) => Err(e)
  }

  /** Python's `s.format(version=v)`: `{{` and `}}` are literal braces,
      `{version}` is the version, any other field is a KeyError and a lone
      brace a ValueError. */
  function FormatVersion(s: string, v: string): (r: Result<string>)
    ensures r.Err? ==> r.error.ValueError? || (r.error.KeyError? && r.error.key != "version")
    decreases |s|
  {
    if s == [] then Ok([])
    else if |s| >= 2 && s[..2] == "{{" then PrefixOk("{", FormatVersion(s[2..], v))
    else if |s| >= 2 && s[..2] == "}}" then PrefixOk("}", FormatVersion(s[2..], v))
    else if s[0] == '}' then Err(ValueError("Single '}' encountered in format string"))
    else if s[0] == '{' then
      match FindAny(s[1..], {'}'})
      case None => Err(ValueError("expected '}' before end of string"))
      case Some(j) =>
        var field := s[1..j + 1];
        if field != "version" then Err(KeyError(field))
        else PrefixOk(v, FormatVersion(s[j + 2..], v))
    else PrefixOk([s[0]], FormatVersion(s[1..], v))
  }

  predicate BraceFree(s: string)
  {
    '{' !in s && '}' !in s
  }

  /** A brace-free prefix is copied through as is. */
  lemma {:induction false} FormatPrefix(p: string, q: string, v: string)
    requires BraceFree(p)
    ensures FormatVersion(p + q, v) == PrefixOk(p, FormatVersion(q, v))
  {
    if p == [] {
      assert p + q == q;
      match FormatVersion(q, v) {
        case Ok(t) => assert p + t == t;
        case Err(_) =>
      }
    } else {
      var s := p + q;
      assert s[0] == p[0] && p[0] in p;
      assert BraceFree(p[1..]) by {
        assert forall ch :: ch in p[1..] ==> ch in p;
      }
      assert s[1..] == p[1..] + q;
      assert |s| >= 2 ==> s[..2] != "{{" && s[..2] != "}}" by {
        if |s| >= 2 { assert s[..2][0] == p[0]; }
      }
      FormatPrefix(p[1..], q, v);
      match FormatVersion(q, v) {
        case Ok(t) => assert [p[0]] + (p[1..] + t) == p + t;
        case Err(_) =>
      }
    }
  }

  /** A pattern without braces formats to itself. */
  lemma FormatBraceFree(s: string, v: string)
    ensures BraceFree(s) ==> FormatVersion(s, v) == Ok(s)
  {
    if BraceFree(s) {
      FormatPrefix(s, [], v);
      assert s + [] == s;
    }
  }

  /** `get_distfile_path(version)`: the distfile pattern formatted with the
      version; a falsy version means the configured one. */
  function DistfilePath(c: Config, version: Option<string>): (r: Result<string>)
    ensures BraceFree(c.distfile) ==> r == Ok(c.distfile)
    ensures r.Err? ==> r.error.ValueError? || r.error.KeyError?
  {
    FormatBraceFree(c.distfile, OrElse(version, c.version));
    FormatVersion(c.distfile, OrElse(version, c.version))
  }

  /** One replacement field followed by the rest of the pattern. */
  lemma FormatField(field: string, rest: string, v: string)
    requires BraceFree(field)
    ensures FormatVersion("{" + field + "}" + rest, v)
      == if field == "version" then PrefixOk(v, FormatVersion(rest, v)) else Err(KeyError(field))
  {
    var s := "{" + field + "}" + rest;
    assert s[0] == '{';
    assert s[..2] != "{{" by {
      if field != [] { assert s[1] == field[0] && field[0] in field; } else { assert s[1] == '}'; }
    }
    assert s[1..] == field + ("}" + rest);
    assert forall i :: 0 <= i < |field| ==> field[i] in field;
    FindAnyAppend(field, "}" + rest, {'}'});
    assert s[1..|field| + 1] == field;
    assert s[|field| + 2..] == rest;
  }

  /** A pattern `prefix{version}suffix` with braces nowhere else yields
      `prefix<version>suffix`. */
  lemma DistfilePathSubstitutes(c: Config, prefix: string, suffix: string, version: Option<string>)
    requires c.distfile == prefix + "{version}" + suffix
    requires BraceFree(prefix) && BraceFree(suffix)
    ensures DistfilePath(c, version) == Ok(prefix + OrElse(version, c.version) + suffix)
  {
    var v := OrElse(version, c.version);
    var q := "{" + "version" + "}" + suffix;
    assert c.distfile == prefix + q;
    FormatPrefix(prefix, q, v);
    FormatField("version", suffix, v);
    FormatBraceFree(suffix, v);
    assert prefix + (v + suffix) == prefix + v + suffix;
  }

  /** A pattern with an unknown field, such as `{name}`, fails with a KeyError. */
  lemma DistfileUnknownField(c: Config, prefix: string, field: string, version: Option<string>)
    requires c.distfile == prefix + "{" + field + "}"
    requires BraceFree(prefix) && BraceFree(field) && field != "version"
    ensures DistfilePath(c, version) == Err(KeyError(field))
  {
    var v := OrElse(version, c.version);
    var q := "{" + field + "}" + "";
    assert c.distfile == prefix + q;
    FormatPrefix(prefix, q, v);
    FormatField(field, "", v);
  }

  // ---------------------------------------------------------------------
  // Unit naming

  /** No '.' and no '@': the names the naming rules are stated for. */
  predicate PlainName(s: string)
  {
    '.' !in s && '@' !in s
  }

  /** A decoded configuration: a TOML table has unique keys. */
  predicate WellFormed(c: Config)
  {
    UniqueKeys(c.processes)
  }

  predicate PlainNames(c: Config)
  {
    PlainName(c.appName) && forall i :: 0 <= i < |c.processes| ==> PlainName(c.processes[i].0)
  }

  function Process(c: Config, name: string): ProcessConfig
    requires name in Keys(c.processes)
  {
    Lookup(c.processes, name)
  }

  /** The stem every unit of a process shares: the app name for "web",
      `{app}-{name}` otherwise. */
  function UnitStem(app: string, name: string): string
  {
    if name == "web" then app else app + "-" + name
  }

  /** The service file name of process `name` of `app` with `replicas` replicas. */
  function ServiceFileName(app: string, name: string, replicas: int): string
  {
    var suffix := if replicas > 1 then "@.service" else ".service";
    if name == "web" then app + suffix else app + "-" + name + suffix
  }

  /** `get_service_name`. */
  function GetServiceName(c: Config, name: string): string
    requires name in Keys(c.processes)
  {
    ServiceFileName(c.appName, name, Process(c, name).replicas)
  }

  /** The instance names of a process: `base@1.service` .. `base@N.service`
      when replicated, else the service name alone. */
  function InstanceNames(app: string, name: string, replicas: int): seq<string>
  {
    var serviceName := ServiceFileName(app, name, replicas);
    if replicas > 1 then
      var base := ReplaceAll(serviceName, "@.service", "");
      seq(replicas, i requires 0 <= i < replicas => base + "@" + NatToString(i + 1) + ".service")
    else [serviceName]
  }

  /** `get_process_service_names`. */
  function GetProcessServiceNames(c: Config, name: string): seq<string>
    requires name in Keys(c.processes)
  {
    InstanceNames(c.appName, name, Process(c, name).replicas)
  }

  /** A process's service is named after the app, with "@.service" exactly
      when it is replicated; a replicated process has one instance per
      replica, any other just its service. */
  lemma ProcessServiceNames(c: Config, name: string)
    requires name in Keys(c.processes)
    ensures StartsWith(GetServiceName(c, name), c.appName)
    ensures EndsWith(GetServiceName(c, name), if Process(c, name).replicas > 1 then "@.service" else ".service")
    ensures |GetProcessServiceNames(c, name)| == if Process(c, name).replicas > 1 then Process(c, name).replicas else 1
    ensures Process(c, name).replicas <= 1 ==> GetProcessServiceNames(c, name) == [GetServiceName(c, name)]
  {
  }

  /** The timer unit of a process: its service name without ".service", then ".timer". */
  function TimerFileName(app: string, name: string, replicas: int): string
  {
    ReplaceAll(ServiceFileName(app, name, replicas), ".service", "") + ".timer"
  }

  function SocketName(app: string): string
  {
    app + ".socket"
  }

  /** The timer of a process is named after its service, and the socket
      after the app. */
  lemma CompanionNameShape(app: string, name: string, replicas: int)
    ensures StartsWith(SocketName(app), app) && EndsWith(SocketName(app), ".socket")
    ensures EndsWith(TimerFileName(app, name, replicas), ".timer")
  {
  }

  /** The name shape: stem then "@.service" exactly when replicated. */
  lemma ServiceNameShape(app: string, name: string, replicas: int)
    ensures ServiceFileName(app, name, replicas)
      == UnitStem(app, name) + (if replicas > 1 then "@.service" else ".service")
    ensures StartsWith(ServiceFileName(app, name, replicas), app)
    ensures EndsWith(ServiceFileName(app, name, replicas), ".service")
  {
    var stem := UnitStem(app, name);
    var suffix := if replicas > 1 then "@.service" else ".service";
    assert (stem + suffix)[..|app|] == app;
    assert (stem + suffix)[|stem + suffix| - 8..] == ".service";
  }

  function InstanceName(stem: string, i: nat): string
  {
    stem + "@" + NatToString(i) + ".service"
  }

  lemma InstanceNameInjective(stem: string, i: nat, j: nat)
    requires InstanceName(stem, i) == InstanceName(stem, j)
    ensures i == j
  {
    var a, b := NatToString(i), NatToString(j);
    assert |a| == |b|;
    assert a == InstanceName(stem, i)[|stem| + 1..|stem| + 1 + |a|];
    assert b == InstanceName(stem, j)[|stem| + 1..|stem| + 1 + |b|];
    NatToStringInjective(i, j);
  }

  /** With plain names the instances are exactly `stem@1.service` ..
      `stem@N.service`, pairwise distinct and never the `@.service` template;
      an unreplicated process has its service name alone. */
  lemma InstanceNamesExact(app: string, name: string, replicas: int)
    requires PlainName(app) && PlainName(name)
    ensures var r := InstanceNames(app, name, replicas);
      && (replicas > 1 ==>
            |r| == replicas && forall i :: 0 <= i < replicas ==> r[i] == InstanceName(UnitStem(app, name), i + 1))
      && (replicas <= 1 ==> r == [UnitStem(app, name) + ".service"])
      && (replicas > 1 ==> forall i :: 0 <= i < |r| ==> r[i] != ServiceFileName(app, name, replicas))
      && (forall i, j :: 0 <= i < j < |r| ==> r[i] != r[j])
  {
    ServiceNameShape(app, name, replicas);
    if replicas > 1 {
      ReplicatedInstances(app, name, replicas);
      var r := InstanceNames(app, name, replicas);
      var stem := UnitStem(app, name);
      forall i | 0 <= i < replicas
        ensures r[i] != ServiceFileName(app, name, replicas)
      {
        assert |r[i]| > |stem + "@.service"|;
      }
      forall i, j | 0 <= i < j < |r|
        ensures r[i] != r[j]
      {
        if r[i] == r[j] {
          InstanceNameInjective(stem, i + 1, j + 1);
        }
      }
    }
  }

  /** A replicated process's instances are `stem@1.service` .. `stem@N.service`. */
  lemma ReplicatedInstances(app: string, name: string, replicas: int)
    requires PlainName(app) && PlainName(name) && replicas > 1
    ensures var r := InstanceNames(app, name, replicas);
      |r| == replicas && forall i :: 0 <= i < replicas ==> r[i] == InstanceName(UnitStem(app, name), i + 1)
  {
    var stem := UnitStem(app, name);
    ServiceNameShape(app, name, replicas);
    assert '@' !in stem;
    ReplaceAllSuffix(stem, "@.service", "");
    assert stem + "" == stem;
  }

  lemma TimerNameShape(app: string, name: string, replicas: int)
    requires PlainName(app) && PlainName(name)
    ensures TimerFileName(app, name, replicas)
      == UnitStem(app, name) + (if replicas > 1 then "@" else "") + ".timer"
    ensures StartsWith(TimerFileName(app, name, replicas), app)
  {
    var stem := UnitStem(app, name);
    ServiceNameShape(app, name, replicas);
    assert '.' !in stem;
    if replicas > 1 {
      assert ServiceFileName(app, name, replicas) == (stem + "@") + ".service";
      ReplaceAllSuffix(stem + "@", ".service", "");
    } else {
      ReplaceAllSuffix(stem, ".service", "");
    }
    var t := TimerFileName(app, name, replicas);
    assert t[..|app|] == stem[..|app|];
  }

  /** A service file name is neither the socket nor a timer name. */
  lemma ServiceNotCompanion(app: string, name: string, replicas: int, other: string, otherReplicas: int)
    requires PlainName(app) && PlainName(other)
    ensures ServiceFileName(app, name, replicas) != SocketName(app)
    ensures ServiceFileName(app, name, replicas) != TimerFileName(app, other, otherReplicas)
  {
    ServiceNameShape(app, name, replicas);
    TimerNameShape(app, other, otherReplicas);
    var s := ServiceFileName(app, name, replicas);
    assert s[|s| - 8..] == ".service";
    var sock := SocketName(app);
    assert sock[|sock| - 7..] == ".socket";
    var t := TimerFileName(app, other, otherReplicas);
    assert t[|t| - 6..] == ".timer";
    assert s[|s| - 1] == 'e' && sock[|sock| - 1] == 't' && t[|t| - 1] == 'r';
  }

  /** Distinct plain process names give distinct service file names. */
  lemma ServiceNamesDistinct(app: string, a: string, ra: int, b: string, rb: int)
    requires PlainName(app) && PlainName(a) && PlainName(b) && a != b
    ensures ServiceFileName(app, a, ra) != ServiceFileName(app, b, rb)
  {
    ServiceNameShape(app, a, ra);
    ServiceNameShape(app, b, rb);
    var sa, sb := UnitStem(app, a), UnitStem(app, b);
    var xa := if ra > 1 then "@.service" else ".service";
    var xb := if rb > 1 then "@.service" else ".service";
    assert sa != sb by {
      if a != "web" && b != "web" {
        assert sa[|app| + 1..] == a;
        assert sb[|app| + 1..] == b;
      }
    }
    if sa + xa == sb + xb {
      StemSuffixSplit(sa, xa, sb, xb);
    }
  }

  /** Splitting `stem + suffix` where neither stem holds '@' or '.' and each
      suffix starts with one of them. */
  lemma StemSuffixSplit(sa: string, xa: string, sb: string, xb: string)
    requires '@' !in sa && '.' !in sa && '@' !in sb && '.' !in sb
    requires xa in {"@.service", ".service"} && xb in {"@.service", ".service"}
    requires sa + xa == sb + xb
    ensures sa == sb && xa == xb
  {
    var s := sa + xa;
    assert forall i :: 0 <= i < |sa| ==> sa[i] in sa;
    assert forall i :: 0 <= i < |sb| ==> sb[i] in sb;
    FindAnyAppend(sa, xa, {'@', '.'});
    FindAnyAppend(sb, xb, {'@', '.'});
    assert sa == s[..|sa|] == sb;
    assert xa == s[|sa|..] == xb;
  }

  // ---------------------------------------------------------------------
  // service_names

  /** All instance names of the first `k` processes, in process order. */
  function InstancesOf(c: Config, k: nat): seq<string>
    requires k <= |c.processes|
  {
    if k == 0 then []
    else
      var e := c.processes[k - 1];
      InstancesOf(c, k - 1) + InstanceNames(c.appName, e.0, e.1.replicas)
  }

  /** The companion units listed after the instances: per process, the app's
      socket when socket-activated and its timer when scheduled. */
  function CompanionsOf(c: Config, k: nat): seq<string>
    requires k <= |c.processes|
  {
    if k == 0 then []
    else
      var e := c.processes[k - 1];
      CompanionsOf(c, k - 1) + ProcessCompanions(c.appName, e.0, e.1)
  }

  /** The companions one process contributes: the app's socket when it is
      socket-activated, then its timer when it is scheduled. */
  function ProcessCompanions(app: string, name: string, p: ProcessConfig): seq<string>
  {
    (if p.socket then [SocketName(app)] else [])
      + (if Truthy(p.timer) then [TimerFileName(app, name, p.replicas)] else [])
  }

  /** The value of the `service_names` property. */
  function ServiceNameList(c: Config): seq<string>
  {
    InstancesOf(c, |c.processes|) + CompanionsOf(c, |c.processes|)
  }

  /** `service_names`, built as the source builds it: one loop over the
      process names for the instance names, a second one over the entries for
      sockets and timers. */
  method ServiceNames(c: Config) returns (services: seq<string>)
    requires WellFormed(c)
    ensures services == ServiceNameList(c)
  {
    services := [];
    var i := 0;
    while i < |c.processes|
      invariant 0 <= i <= |c.processes|
      invariant services == InstancesOf(c, i)
    {
      var name := c.processes[i].0;
      LookupEntry(c.processes, i);
      services := services + GetProcessServiceNames(c, name);
      i := i + 1;
    }
    var companions := CompanionNames(c);
    services := services + companions;
  }

  /** The second loop of `service_names`: sockets and timers, per entry. */
  method CompanionNames(c: Config) returns (companions: seq<string>)
    requires WellFormed(c)
    ensures companions == CompanionsOf(c, |c.processes|)
  {
    companions := [];
    var i := 0;
    while i < |c.processes|
      invariant 0 <= i <= |c.processes|
      invariant companions == CompanionsOf(c, i)
    {
      var (name, config) := c.processes[i];
      ghost var before := companions;
      ghost var socketName, timerName := SocketName(c.appName), TimerFileName(c.appName, name, config.replicas);
      if config.socket {
        companions := companions + [SocketName(c.appName)];
      }
      if Truthy(config.timer) {
        LookupEntry(c.processes, i);
        var serviceName := GetServiceName(c, name);
        companions := companions + [ReplaceAll(serviceName, ".service", "") + ".timer"];
      }
      AppendTwo(before, config.socket, socketName, Truthy(config.timer), timerName);
      i := i + 1;
    }
  }

  lemma {:induction false} InstancesMembers(c: Config, k: nat, x: string)
    requires k <= |c.processes|
    ensures x in InstancesOf(c, k) <==>
      exists i :: 0 <= i < k && x in InstanceNames(c.appName, c.processes[i].0, c.processes[i].1.replicas)
  {
    if x in InstancesOf(c, k) {
      InstanceOfSome(c, k, x);
    }
    if exists i :: 0 <= i < k && x in InstanceNames(c.appName, c.processes[i].0, c.processes[i].1.replicas) {
      var i :| 0 <= i < k && x in InstanceNames(c.appName, c.processes[i].0, c.processes[i].1.replicas);
      InstancesInclude(c, k, i, x);
    }
  }

  lemma {:induction false} InstanceOfSome(c: Config, k: nat, x: string)
    requires k <= |c.processes|
    requires x in InstancesOf(c, k)
    ensures exists i :: 0 <= i < k && x in InstanceNames(c.appName, c.processes[i].0, c.processes[i].1.replicas)
  {
    var prev, last := InstancesOf(c, k - 1), InstanceNames(c.appName, c.processes[k - 1].0, c.processes[k - 1].1.replicas);
    assert InstancesOf(c, k) == prev + last;
    if x in last {
      assert 0 <= k - 1 < k && x in InstanceNames(c.appName, c.processes[k - 1].0, c.processes[k - 1].1.replicas);
    } else {
      assert x in prev;
      InstanceOfSome(c, k - 1, x);
    }
  }

  lemma {:induction false} InstancesInclude(c: Config, k: nat, i: nat, x: string)
    requires i < k <= |c.processes|
    requires x in InstanceNames(c.appName, c.processes[i].0, c.processes[i].1.replicas)
    ensures x in InstancesOf(c, k)
  {
    var last := InstanceNames(c.appName, c.processes[k - 1].0, c.processes[k - 1].1.replicas);
    assert InstancesOf(c, k) == InstancesOf(c, k - 1) + last;
    if i < k - 1 {
      InstancesInclude(c, k - 1, i, x);
    }
  }

  lemma {:induction false} CompanionsMembers(c: Config, k: nat, x: string)
    requires k <= |c.processes|
    ensures x in CompanionsOf(c, k) <==>
      exists i :: 0 <= i < k && x in ProcessCompanions(c.appName, c.processes[i].0, c.processes[i].1)
  {
    if x in CompanionsOf(c, k) {
      CompanionOfSome(c, k, x);
    }
    if exists i :: 0 <= i < k && x in ProcessCompanions(c.appName, c.processes[i].0, c.processes[i].1) {
      var i :| 0 <= i < k && x in ProcessCompanions(c.appName, c.processes[i].0, c.processes[i].1);
      CompanionsInclude(c, k, i, x);
    }
  }

  lemma {:induction false} CompanionOfSome(c: Config, k: nat, x: string)
    requires k <= |c.processes|
    requires x in CompanionsOf(c, k)
    ensures exists i :: 0 <= i < k && x in ProcessCompanions(c.appName, c.processes[i].0, c.processes[i].1)
  {
    var prev, last := CompanionsOf(c, k - 1), ProcessCompanions(c.appName, c.processes[k - 1].0, c.processes[k - 1].1);
    assert CompanionsOf(c, k) == prev + last;
    if x in prev {
      CompanionOfSome(c, k - 1, x);
    } else {
      assert 0 <= k - 1 < k && x in last;
    }
  }

  lemma {:induction false} CompanionsInclude(c: Config, k: nat, i: nat, x: string)
    requires i < k <= |c.processes|
    requires x in ProcessCompanions(c.appName, c.processes[i].0, c.processes[i].1)
    ensures x in CompanionsOf(c, k)
  {
    CompanionsUpTo(c, i, x);
    CompanionsPrefix(c, i + 1, k);
    InPrefix(CompanionsOf(c, i + 1), CompanionsOf(c, k), x);
  }

  lemma CompanionsUpTo(c: Config, i: nat, x: string)
    requires i < |c.processes|
    requires x in ProcessCompanions(c.appName, c.processes[i].0, c.processes[i].1)
    ensures x in CompanionsOf(c, i + 1)
  {
    InAppend(CompanionsOf(c, i), ProcessCompanions(c.appName, c.processes[i].0, c.processes[i].1), x);
  }

  lemma {:induction false} CompanionsPrefix(c: Config, j: nat, k: nat)
    requires j <= k <= |c.processes|
    ensures CompanionsOf(c, j) <= CompanionsOf(c, k)
  {
    if j < k {
      CompanionsPrefix(c, j, k - 1);
      var prev := CompanionsOf(c, k - 1);
      PrefixAppend(CompanionsOf(c, j), prev, ProcessCompanions(c.appName, c.processes[k - 1].0, c.processes[k - 1].1));
    }
  }

  /** What `service_names` contains: the instance names of some process, or
      one of its companions (the socket, the timer). */
  lemma ServiceNameListMembers(c: Config, x: string)
    ensures x in ServiceNameList(c) <==>
      exists i :: 0 <= i < |c.processes|
        && (x in InstanceNames(c.appName, c.processes[i].0, c.processes[i].1.replicas)
            || x in ProcessCompanions(c.appName, c.processes[i].0, c.processes[i].1))
  {
    InstancesMembers(c, |c.processes|, x);
    CompanionsMembers(c, |c.processes|, x);
  }

  // ---------------------------------------------------------------------
  // get_systemd_units

  /** What a unit template is rendered with. */
  datatype RenderContext = RenderContext(
    appName: string, user: string, appDir: string,
    command: Option<string>, processName: Option<string>, process: Option<ProcessConfig>)

  /** Template lookup: `{name}.{kind}.j2` when the search path has it, else
      the packaged `default.{kind}.j2`. */
  function ChooseTemplate(templates: set<string>, name: string, kind: string): (t: string)
    ensures t in {name + "." + kind + ".j2", "default." + kind + ".j2"}
    ensures name + "." + kind + ".j2" in templates ==> t == name + "." + kind + ".j2"
    ensures name + "." + kind + ".j2" !in templates ==> t == "default." + kind + ".j2"
  {
    var own := name + "." + kind + ".j2";
    if own in templates then own else "default." + kind + ".j2"
  }

  function BaseContext(c: Config): RenderContext
  {
    RenderContext(c.appName, c.host.user, AppDir(c), None, None, None)
  }

  function ServiceContext(c: Config, name: string, p: ProcessConfig): RenderContext
  {
    BaseContext(c).(command := Some(p.command),
                    processName := Some(ReplaceAll(ServiceFileName(c.appName, name, p.replicas), ".service", "")),
                    process := Some(p))
  }

  function TimerContext(c: Config, name: string, p: ProcessConfig): RenderContext
  {
    BaseContext(c).(processName := Some(ReplaceAll(ServiceFileName(c.appName, name, p.replicas), ".service", "")),
                    process := Some(p))
  }

  function ServiceBody(c: Config, templates: set<string>, render: (string, RenderContext) -> string,
                       name: string, p: ProcessConfig): string
  {
    render(ChooseTemplate(templates, name, "service"), ServiceContext(c, name, p))
  }

  function SocketBody(c: Config, templates: set<string>, render: (string, RenderContext) -> string, name: string): string
  {
    render(ChooseTemplate(templates, name, "socket"), BaseContext(c))
  }

  function TimerBody(c: Config, templates: set<string>, render: (string, RenderContext) -> string,
                     name: string, p: ProcessConfig): string
  {
    render(ChooseTemplate(templates, name, "timer"), TimerContext(c, name, p))
  }

  /** The files one process adds to the unit dict, in order. */
  function AddProcessUnits(c: Config, templates: set<string>, render: (string, RenderContext) -> string,
                           files: Dict<string, string>, name: string, p: ProcessConfig): Dict<string, string>
  {
    var f1 := Put(files, ServiceFileName(c.appName, name, p.replicas), ServiceBody(c, templates, render, name, p));
    var f2 := if p.socket then Put(f1, SocketName(c.appName), SocketBody(c, templates, render, name)) else f1;
    if Truthy(p.timer) then Put(f2, TimerFileName(c.appName, name, p.replicas), TimerBody(c, templates, render, name, p))
    else f2
  }

  /** The unit dict for the first `k` processes, in process order. */
  function UnitsOf(c: Config, templates: set<string>, render: (string, RenderContext) -> string, k: nat): Dict<string, string>
    requires k <= |c.processes|
  {
    if k == 0 then []
    else
      var e := c.processes[k - 1];
      AddProcessUnits(c, templates, render, UnitsOf(c, templates, render, k - 1), e.0, e.1)
  }

  /** `get_systemd_units`: unit file name to rendered body. Rendering (Jinja)
      is the opaque `render`; `templates` is what the search path holds. */
  method GetSystemdUnits(c: Config, templates: set<string>, render: (string, RenderContext) -> string)
    returns (files: Dict<string, string>)
    requires WellFormed(c)
    ensures files == UnitsOf(c, templates, render, |c.processes|)
    ensures UniqueKeys(files)
  {
    files := [];
    var i := 0;
    while i < |c.processes|
      invariant 0 <= i <= |c.processes|
      invariant files == UnitsOf(c, templates, render, i)
      invariant UniqueKeys(files)
    {
      var (name, config) := c.processes[i];
      ghost var before := files;
      UnitsOfStep(c, templates, render, i);
      LookupEntry(c.processes, i);
      var serviceName := GetServiceName(c, name);
      assert serviceName == ServiceFileName(c.appName, name, config.replicas);
      var body := ServiceBody(c, templates, render, name, config);
      PutUnique(files, serviceName, body);
      files := Put(files, serviceName, body);
      if config.socket {
        var socketBody := SocketBody(c, templates, render, name);
        PutUnique(files, SocketName(c.appName), socketBody);
        files := Put(files, SocketName(c.appName), socketBody);
      }
      if Truthy(config.timer) {
        var timerBody := TimerBody(c, templates, render, name, config);
        var timerName := ReplaceAll(serviceName, ".service", "") + ".timer";
        PutUnique(files, timerName, timerBody);
        files := Put(files, timerName, timerBody);
      }
      assert files == AddProcessUnits(c, templates, render, before, name, config);
      i := i + 1;
    }
  }

  lemma UnitsOfStep(c: Config, templates: set<string>, render: (string, RenderContext) -> string, i: nat)
    requires i < |c.processes|
    ensures UnitsOf(c, templates, render, i + 1)
      == AddProcessUnits(c, templates, render, UnitsOf(c, templates, render, i), c.processes[i].0, c.processes[i].1)
  {
  }

  /** The unit file names of the first `k` processes: one service file per
      process (the `@.service` template when replicated), the app socket for
      socket-activated processes and a timer for scheduled ones. */
  function UnitNamesOf(c: Config, k: nat): set<string>
    requires k <= |c.processes|
  {
    if k == 0 then {}
    else UnitNamesOf(c, k - 1) + ProcessUnitNames(c.appName, c.processes[k - 1].0, c.processes[k - 1].1)
  }

  /** The unit file names one process contributes. */
  function ProcessUnitNames(app: string, name: string, p: ProcessConfig): set<string>
  {
    {ServiceFileName(app, name, p.replicas)}
      + (if p.socket then {SocketName(app)} else {})
      + (if Truthy(p.timer) then {TimerFileName(app, name, p.replicas)} else {})
  }

  /** `AddProcessUnits` adds exactly the process's unit names as keys. */
  lemma AddProcessUnitsKeys(c: Config, templates: set<string>, render: (string, RenderContext) -> string,
                            files: Dict<string, string>, name: string, p: ProcessConfig)
    ensures KeySet(AddProcessUnits(c, templates, render, files, name, p)) == KeySet(files) + ProcessUnitNames(c.appName, name, p)
  {
    PutKeySetOptional(files, ServiceFileName(c.appName, name, p.replicas), ServiceBody(c, templates, render, name, p),
      p.socket, SocketName(c.appName), SocketBody(c, templates, render, name),
      Truthy(p.timer), TimerFileName(c.appName, name, p.replicas), TimerBody(c, templates, render, name, p));
  }

  /** A unit name is one of the names some process contributes. */
  lemma {:induction false} UnitNamesMembers(c: Config, k: nat, x: string)
    requires k <= |c.processes|
    ensures x in UnitNamesOf(c, k) <==>
      exists i :: 0 <= i < k && x in ProcessUnitNames(c.appName, c.processes[i].0, c.processes[i].1)
  {
    if k > 0 {
      UnitNamesMembers(c, k - 1, x);
      if x in ProcessUnitNames(c.appName, c.processes[k - 1].0, c.processes[k - 1].1) {
        assert 0 <= k - 1 < k && x in ProcessUnitNames(c.appName, c.processes[k - 1].0, c.processes[k - 1].1);
      }
    }
  }

  lemma {:induction false} UnitsOfKeys(c: Config, templates: set<string>, render: (string, RenderContext) -> string, k: nat)
    requires k <= |c.processes|
    ensures KeySet(UnitsOf(c, templates, render, k)) == UnitNamesOf(c, k)
  {
    if k > 0 {
      var e := c.processes[k - 1];
      UnitsOfKeys(c, templates, render, k - 1);
      AddProcessUnitsKeys(c, templates, render, UnitsOf(c, templates, render, k - 1), e.0, e.1);
    }
  }

  /** `get_systemd_units`'s keys are exactly the unit names. */
  lemma SystemdUnitKeys(c: Config, templates: set<string>, render: (string, RenderContext) -> string)
    ensures KeySet(UnitsOf(c, templates, render, |c.processes|)) == UnitNamesOf(c, |c.processes|)
  {
    UnitsOfKeys(c, templates, render, |c.processes|);
  }

  /** Every unit name starts with the app name when names are plain. */
  lemma UnitNamesStartWithApp(c: Config, f: string)
    requires PlainNames(c)
    requires f in UnitNamesOf(c, |c.processes|)
    ensures StartsWith(f, c.appName)
  {
    UnitNamesMembers(c, |c.processes|, f);
    var i :| 0 <= i < |c.processes| && f in ProcessUnitNames(c.appName, c.processes[i].0, c.processes[i].1);
    ProcessUnitNamesStartWithApp(c.appName, c.processes[i].0, c.processes[i].1, f);
  }

  lemma ProcessUnitNamesStartWithApp(app: string, name: string, p: ProcessConfig, f: string)
    requires PlainName(app) && PlainName(name)
    requires f in ProcessUnitNames(app, name, p)
    ensures StartsWith(f, app)
  {
    if f == SocketName(app) {
      assert f[..|app|] == app;
    } else if f == ServiceFileName(app, name, p.replicas) {
      ServiceNameShape(app, name, p.replicas);
    } else {
      TimerNameShape(app, name, p.replicas);
    }
  }

  /** Every name `service_names` lists is backed by a unit file: it is a unit
      name itself, or it is an instance of a replicated process whose
      `@.service` template is a unit name. */
  lemma ServiceNamesBackedByUnits(c: Config, x: string)
    requires x in ServiceNameList(c)
    ensures || x in UnitNamesOf(c, |c.processes|)
            || exists i :: 0 <= i < |c.processes| && c.processes[i].1.replicas > 1
                 && x in InstanceNames(c.appName, c.processes[i].0, c.processes[i].1.replicas)
                 && ServiceFileName(c.appName, c.processes[i].0, c.processes[i].1.replicas) in UnitNamesOf(c, |c.processes|)
  {
    ServiceNameListMembers(c, x);
    var ps := c.processes;
    var i :| 0 <= i < |ps|
      && (x in InstanceNames(c.appName, ps[i].0, ps[i].1.replicas) || x in ProcessCompanions(c.appName, ps[i].0, ps[i].1));
    var sn := ServiceFileName(c.appName, ps[i].0, ps[i].1.replicas);
    assert sn in ProcessUnitNames(c.appName, ps[i].0, ps[i].1);
    UnitNamesMembers(c, |ps|, sn);
    if x in ProcessCompanions(c.appName, ps[i].0, ps[i].1) || ps[i].1.replicas <= 1 {
      assert x in ProcessUnitNames(c.appName, ps[i].0, ps[i].1);
      UnitNamesMembers(c, |ps|, x);
    }
  }

  /** Adding one process's units changes only that process's service file
      among the service file names. */
  lemma AddUnitsLookup(c: Config, templates: set<string>, render: (string, RenderContext) -> string,
                       files: Dict<string, string>, name: string, p: ProcessConfig,
                       otherName: string, otherReplicas: int)
    requires PlainName(c.appName) && PlainName(name) && PlainName(otherName)
    requires var target := ServiceFileName(c.appName, otherName, otherReplicas);
      target == ServiceFileName(c.appName, name, p.replicas) || target in Keys(files)
    ensures var target := ServiceFileName(c.appName, otherName, otherReplicas);
      var g := AddProcessUnits(c, templates, render, files, name, p);
      target in Keys(g) &&
      Lookup(g, target) == if target == ServiceFileName(c.appName, name, p.replicas)
                           then ServiceBody(c, templates, render, name, p) else Lookup(files, target)
  {
    var app := c.appName;
    var target := ServiceFileName(app, otherName, otherReplicas);
    var sn := ServiceFileName(app, name, p.replicas);
    var f1 := Put(files, sn, ServiceBody(c, templates, render, name, p));
    var f2 := if p.socket then Put(f1, SocketName(app), SocketBody(c, templates, render, name)) else f1;
    ServiceNotCompanion(app, otherName, otherReplicas, name, p.replicas);
    LookupPut(files, sn, ServiceBody(c, templates, render, name, p), target);
    if p.socket {
      LookupPut(f1, SocketName(app), SocketBody(c, templates, render, name), target);
    }
    if Truthy(p.timer) {
      LookupPut(f2, TimerFileName(app, name, p.replicas), TimerBody(c, templates, render, name, p), target);
    }
  }

  /** Each process's service file is rendered from its own template when the
      search path has `{name}.service.j2`, else from the default one. */
  lemma {:induction false} ServiceUnitTemplate(c: Config, templates: set<string>, render: (string, RenderContext) -> string,
                                               k: nat, j: nat)
    requires WellFormed(c) && PlainNames(c)
    requires j < k <= |c.processes|
    ensures var units := UnitsOf(c, templates, render, k);
      var e := c.processes[j];
      ServiceFileName(c.appName, e.0, e.1.replicas) in Keys(units) &&
      Lookup(units, ServiceFileName(c.appName, e.0, e.1.replicas)) == ServiceBody(c, templates, render, e.0, e.1)
  {
    var e := c.processes[k - 1];
    var ej := c.processes[j];
    if j < k - 1 {
      ServiceUnitTemplate(c, templates, render, k - 1, j);
      ServiceNamesDistinct(c.appName, ej.0, ej.1.replicas, e.0, e.1.replicas);
    }
    AddUnitsLookup(c, templates, render, UnitsOf(c, templates, render, k - 1), e.0, e.1, ej.0, ej.1.replicas);
  }
}
