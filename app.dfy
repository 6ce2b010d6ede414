/** `fujin app`: running the app binary and controlling its services by name.
    The list of service names is an input, as the configuration the
    dispatcher reads (`config.services`) is not part of this model's `Config`. */
module App {
  import opened Common
  import Config

  /** Python's `repr` of a list of strings, as an f-string prints it. */
  function ReprList(xs: seq<string>): string
  {
    "[" + Join(seq(|xs|, i requires 0 <= i < |xs| => "'" + xs[i] + "'"), ", ") + "]"
  }

  function ServicePrefix(action: string): string
  {
    "systemctl " + action + " "
  }

  /** What `App._service_run(action, name)` asks the host to run, or the exit
      it raises: a truthy name must be a service or "all"; "all" acts on every
      service; anything else, a missing name included, is passed on. */
  function ServiceCalls(services: seq<string>, action: string, name: Option<string>): (r: Result<seq<Call>>)
    ensures r.Err? ==> r.error.Exit? && r.error.code == 1
    ensures r.Ok? ==> forall k :: 0 <= k < |r.value| ==>
      r.value[k].RunSudo? && StartsWith(r.value[k].command, ServicePrefix(action))
  {
    var options := services + ["all"];
    if Truthy(name) && name.value !in options then
      Err(Exit(1, name.value + " is not a valid service name, available options: " + ReprList(options)))
    else if name == Some("all") then
      Ok(EachSudo(ServicePrefix(action), services))
    else
      Ok([RunSudo(ServicePrefix(action) + Show(name))])
  }

  /** `_service_run`: validates the name, then issues the commands one by one. */
  method ServiceRun(services: seq<string>, action: string, name: Option<string>) returns (r: Result<seq<Call>>)
    ensures r == ServiceCalls(services, action, name)
  {
    var options := services + ["all"];
    if Truthy(name) && name.value !in options {
      return Err(Exit(1, name.value + " is not a valid service name, available options: " + ReprList(options)));
    }
    var prefix := ServicePrefix(action);
    if name == Some("all") {
      var calls: seq<Call> := [];
      var i := 0;
      while i < |services|
        invariant 0 <= i <= |services|
        invariant calls == EachSudo(prefix, services[..i])
      {
        EachSudoSnoc(prefix, services[..i], services[i]);
        assert services[..i + 1] == services[..i] + [services[i]];
        calls := calls + [RunSudo(prefix + services[i])];
        i := i + 1;
      }
      assert services[..i] == services;
      return Ok(calls);
    }
    return Ok([RunSudo(prefix + Show(name))]);
  }

  /** A name is refused exactly when it is truthy and neither a service nor
      "all"; the refusal exits with code 1, names the offending name and runs
      nothing. */
  lemma ServiceCallsRejects(services: seq<string>, action: string, name: Option<string>)
    ensures ServiceCalls(services, action, name).Err? <==>
      Truthy(name) && name.value !in services && name.value != "all"
    ensures ServiceCalls(services, action, name).Err? ==>
      (ServiceCalls(services, action, name).error.Exit? &&
       ServiceCalls(services, action, name).error.code == 1 &&
       StartsWith(ServiceCalls(services, action, name).error.message, name.value + " is not a valid service name"))
  {
    if Truthy(name) && name.value !in services && name.value != "all" {
      assert name.value !in services + ["all"];
      var m := ServiceCalls(services, action, name).error.message;
      assert m[..|name.value + " is not a valid service name"|] == name.value + " is not a valid service name";
    }
  }

  /** "all" issues one `systemctl {action} {s}` per service, in service order. */
  lemma ServiceCallsAll(services: seq<string>, action: string)
    ensures ServiceCalls(services, action, Some("all")).Ok?
    ensures |ServiceCalls(services, action, Some("all")).value| == |services|
    ensures forall i :: 0 <= i < |services| ==>
      ServiceCalls(services, action, Some("all")).value[i] == RunSudo("systemctl " + action + " " + services[i])
  {
    assert "all" in services + ["all"];
  }

  /** Any accepted name other than "all" issues exactly one command, for that
      name as printed; a missing name prints as "None". */
  lemma ServiceCallsSingle(services: seq<string>, action: string, name: Option<string>)
    requires name != Some("all") && ServiceCalls(services, action, name).Ok?
    ensures ServiceCalls(services, action, name).value == [RunSudo("systemctl " + action + " " + Show(name))]
    ensures name.Some? ==> ServiceCalls(services, action, name).value == [RunSudo("systemctl " + action + " " + name.value)]
  {
  }

  /** The commands as written: with no name the dispatcher does not act on
      all services, it runs `systemctl {action} None` (the two agree only for
      a single service that is itself called "None"). */
  lemma NoNameRunsNone(services: seq<string>, action: string)
    requires services != ["None"]
    ensures ServiceCalls(services, action, None) == Ok([RunSudo("systemctl " + action + " " + "None")])
    ensures ServiceCalls(services, action, None) != Ok(EachSudo(ServicePrefix(action), services))
  {
    var all := EachSudo(ServicePrefix(action), services);
    if |services| == 1 {
      assert all[0] == RunSudo(ServicePrefix(action) + services[0]);
      assert services == [services[0]];
      var p := ServicePrefix(action);
      assert (p + services[0])[|p|..] == services[0];
      assert (p + "None")[|p|..] == "None";
    }
  }

  /** The documented behaviour ("no value means all"): a missing or empty name
      selects every service, any other name is dispatched as before. */
  function IntendedServiceCalls(services: seq<string>, action: string, name: Option<string>): (r: Result<seq<Call>>)
    ensures Truthy(name) ==> r == ServiceCalls(services, action, name)
  {
    ServiceCalls(services, action, if Truthy(name) then name else Some("all"))
  }

  /** With the intended reading no name acts on every service, in order. */
  lemma NoNameMeansAll(services: seq<string>, action: string, name: Option<string>)
    requires !Truthy(name)
    ensures IntendedServiceCalls(services, action, name).Ok?
    ensures IntendedServiceCalls(services, action, name).value == EachSudo("systemctl " + action + " ", services)
  {
    ServiceCallsAll(services, action);
  }

  /** `fujin app start [name]`, with no name meaning every service. */
  method Start(services: seq<string>, name: Option<string>) returns (r: Result<seq<Call>>)
    ensures r == IntendedServiceCalls(services, "start", name)
  {
    r := ServiceRun(services, "start", if Truthy(name) then name else Some("all"));
  }

  /** `fujin app restart [name]`, with no name meaning every service. */
  method Restart(services: seq<string>, name: Option<string>) returns (r: Result<seq<Call>>)
    ensures r == IntendedServiceCalls(services, "restart", name)
  {
    r := ServiceRun(services, "restart", if Truthy(name) then name else Some("all"));
  }

  /** `fujin app stop [name]`, with no name meaning every service. */
  method Stop(services: seq<string>, name: Option<string>) returns (r: Result<seq<Call>>)
    ensures r == IntendedServiceCalls(services, "stop", name)
  {
    r := ServiceRun(services, "stop", if Truthy(name) then name else Some("all"));
  }

  /** `fujin app exec command [-i]`: the app binary with the command appended,
      run inside the project directory `{projects_dir}/{app}`, with a pty only
      when interactive. */
  function Exec(c: Config.Config, projectsDir: string, command: string, interactive: bool): (r: (string, Call))
    ensures r.0 == projectsDir + "/" + c.appName
    ensures r.1.Run? && r.1.pty == interactive
    ensures r.1.command == Config.AppBin(c) + " " + command
  {
    (projectsDir + "/" + c.appName, Run(Config.AppBin(c) + " " + command, interactive))
  }

  /** The command line starts with the app binary, which for a Python package
      lives in the virtualenv, and ends with the requested command. */
  lemma ExecCommandShape(c: Config.Config, projectsDir: string, command: string, interactive: bool)
    ensures StartsWith(Exec(c, projectsDir, command, interactive).1.command, Config.AppBin(c) + " ")
    ensures EndsWith(Exec(c, projectsDir, command, interactive).1.command, command)
    ensures c.installationMode == Config.PyPackage ==>
      StartsWith(Exec(c, projectsDir, command, interactive).1.command, ".venv/bin/" + c.appName + " ")
  {
    var s := Exec(c, projectsDir, command, interactive).1.command;
    var p := Config.AppBin(c) + " ";
    assert s == p + command;
    assert s[..|p|] == p;
    assert s[|s| - |command|..] == command;
  }
}
