/** The older systemd process manager: one plain unit per process (no
    replicas), the configuration files it writes, and the systemctl commands
    it issues to install, uninstall, start, restart and stop its units.
    The manager is a frozen value; every operation returns the calls it makes
    on the connection and, where systemd's state changes, the new state. */
module Systemd {
  import opened Common

  /** A unit file: its name under /etc/systemd/system and its body. */
  datatype SystemdFile = SystemdFile(name: string, body: string)

  /** The manager's fields: the app name, the process table (process name to
      command, in declaration order), the project directory and the user. */
  datatype ProcessManager = ProcessManager(appName: string, processes: Dict<string, string>, projectDir: string, user: string)

  /** The three unit templates read from the package's template folder. */
  datatype Templates = Templates(webService: string, webSocket: string, otherService: string)

  /** The keyword arguments given to `str.format`: the manager's context and,
      for a service file, the process command. */
  datatype FormatArgs = FormatArgs(appName: string, user: string, projectDir: string, command: Option<string>)

  /** What systemd holds for the app: unit files in /etc/systemd/system,
      enabled units and running units. */
  datatype Systemctl = Systemctl(files: map<string, string>, enabled: set<string>, running: set<string>)

  // ---------------------------------------------------------------------
  // Naming

  /** `get_service_name`: the web process owns the bare `{app}.service`. */
  function GetServiceName(app: string, process: string): (r: string)
    ensures StartsWith(r, app) && EndsWith(r, ".service")
    ensures r == app + ".service" <==> process == "web"
  {
    if process == "web" then app + ".service" else app + "-" + process + ".service"
  }

  /** Different processes never share a unit. */
  lemma ServiceNameInjective(app: string, p: string, q: string)
    requires GetServiceName(app, p) == GetServiceName(app, q)
    ensures p == q
  {
    if p != "web" && q != "web" {
      var s := GetServiceName(app, p);
      assert p == s[|app| + 1..|s| - 8];
      assert q == s[|app| + 1..|s| - 8];
    }
  }

  /** The service names of a process table, one per process, in order. */
  function ServiceNamesOf(app: string, ps: Dict<string, string>): (r: seq<string>)
    ensures |r| == |ps|
    ensures forall i :: 0 <= i < |ps| ==> r[i] == GetServiceName(app, ps[i].0)
  {
    if ps == [] then [] else ServiceNamesOf(app, ps[..|ps| - 1]) + [GetServiceName(app, ps[|ps| - 1].0)]
  }

  /** The `service_names` property. */
  function ServiceNames(pm: ProcessManager): seq<string>
  {
    ServiceNamesOf(pm.appName, pm.processes)
  }

  /** Distinct process names give distinct service names. */
  lemma ServiceNamesDistinct(pm: ProcessManager)
    requires UniqueKeys(pm.processes)
    ensures forall i, j :: 0 <= i < j < |ServiceNames(pm)| ==> ServiceNames(pm)[i] != ServiceNames(pm)[j]
  {
    var sn := ServiceNames(pm);
    forall i, j | 0 <= i < j < |sn|
      ensures sn[i] != sn[j]
    {
      if sn[i] == sn[j] {
        ServiceNameInjective(pm.appName, pm.processes[i].0, pm.processes[j].0);
      }
    }
  }

  /** The web process's socket unit. */
  function SocketUnit(pm: ProcessManager): string
  {
    pm.appName + ".socket"
  }

  // ---------------------------------------------------------------------
  // get_configuration_files

  function Context(pm: ProcessManager, command: Option<string>): FormatArgs
  {
    FormatArgs(pm.appName, pm.user, pm.projectDir, command)
  }

  /** The files one process contributes: the web process gives its socket
      first and then its service from the web template; any other process
      gives one service from the other template. */
  function ProcessFiles(pm: ProcessManager, t: Templates, format: (string, FormatArgs) -> string,
                        name: string, command: string): seq<SystemdFile>
  {
    var service := GetServiceName(pm.appName, name);
    if name == "web" then
      [SystemdFile(SocketUnit(pm), format(t.webSocket, Context(pm, None))),
       SystemdFile(service, format(t.webService, Context(pm, Some(command))))]
    else
      [SystemdFile(service, format(t.otherService, Context(pm, Some(command))))]
  }

  /** The files of a process table, process by process. */
  function ConfigFilesOf(pm: ProcessManager, t: Templates, format: (string, FormatArgs) -> string,
                         ps: Dict<string, string>): seq<SystemdFile>
  {
    if ps == [] then []
    else ConfigFilesOf(pm, t, format, ps[..|ps| - 1]) + ProcessFiles(pm, t, format, ps[|ps| - 1].0, ps[|ps| - 1].1)
  }

  method GetConfigurationFiles(pm: ProcessManager, t: Templates, format: (string, FormatArgs) -> string)
    returns (files: seq<SystemdFile>)
    ensures files == ConfigFilesOf(pm, t, format, pm.processes)
  {
    var ps := pm.processes;
    files := [];
    var i := 0;
    while i < |ps|
      invariant 0 <= i <= |ps|
      invariant files == ConfigFilesOf(pm, t, format, ps[..i])
    {
      ConfigFilesStep(pm, t, format, ps, i);
      ghost var before := files;
      var name, command := ps[i].0, ps[i].1;
      var serviceName := GetServiceName(pm.appName, name);
      var body;
      if name == "web" {
        body := format(t.webService, Context(pm, Some(command)));
        files := files + [SystemdFile(SocketUnit(pm), format(t.webSocket, Context(pm, None)))];
      } else {
        body := format(t.otherService, Context(pm, Some(command)));
      }
      files := files + [SystemdFile(serviceName, body)];
      assert files == before + ProcessFiles(pm, t, format, name, command);
      i := i + 1;
    }
    assert ps[..i] == ps;
  }

  lemma ConfigFilesStep(pm: ProcessManager, t: Templates, format: (string, FormatArgs) -> string,
                        ps: Dict<string, string>, i: nat)
    requires i < |ps|
    ensures ConfigFilesOf(pm, t, format, ps[..i + 1])
      == ConfigFilesOf(pm, t, format, ps[..i]) + ProcessFiles(pm, t, format, ps[i].0, ps[i].1)
  {
    assert ps[..i + 1][..i] == ps[..i];
  }

  /** The names of some unit files. */
  function NameSet(files: seq<SystemdFile>): set<string>
  {
    set f | f in files :: f.name
  }

  lemma NameSetAppend(a: seq<SystemdFile>, b: seq<SystemdFile>)
    ensures NameSet(a + b) == NameSet(a) + NameSet(b)
  {
  }

  /** The names a process table's files should have. */
  function ExpectedNames(pm: ProcessManager, ps: Dict<string, string>): set<string>
  {
    (set n | n in ServiceNamesOf(pm.appName, ps)) + (if "web" in Keys(ps) then {SocketUnit(pm)} else {})
  }

  lemma ProcessFileNames(pm: ProcessManager, t: Templates, format: (string, FormatArgs) -> string, name: string, command: string)
    ensures NameSet(ProcessFiles(pm, t, format, name, command))
         == {GetServiceName(pm.appName, name)} + (if name == "web" then {SocketUnit(pm)} else {})
  {
  }

  lemma ExpectedNamesSnoc(pm: ProcessManager, ps: Dict<string, string>)
    requires ps != []
    ensures var last := ps[|ps| - 1];
      ExpectedNames(pm, ps)
      == ExpectedNames(pm, ps[..|ps| - 1]) + ({GetServiceName(pm.appName, last.0)} + (if last.0 == "web" then {SocketUnit(pm)} else {}))
  {
    var init, last := ps[..|ps| - 1], ps[|ps| - 1];
    assert ps == init + [last];
    KeysAppend(init, [last]);
    SeqSetSnoc(ServiceNamesOf(pm.appName, init), GetServiceName(pm.appName, last.0));
  }

  /** The files are named after exactly the service names, plus the socket
      when there is a web process. */
  lemma {:induction false} ConfigFileNames(pm: ProcessManager, t: Templates, format: (string, FormatArgs) -> string,
                                           ps: Dict<string, string>)
    ensures NameSet(ConfigFilesOf(pm, t, format, ps)) == ExpectedNames(pm, ps)
  {
    if ps != [] {
      var init, last := ps[..|ps| - 1], ps[|ps| - 1];
      ConfigFileNames(pm, t, format, init);
      NameSetAppend(ConfigFilesOf(pm, t, format, init), ProcessFiles(pm, t, format, last.0, last.1));
      ProcessFileNames(pm, t, format, last.0, last.1);
      ExpectedNamesSnoc(pm, ps);
    }
  }

  /** One service file per process, plus the socket of the web process. */
  lemma {:induction false} ConfigFilesCount(pm: ProcessManager, t: Templates, format: (string, FormatArgs) -> string,
                                            ps: Dict<string, string>)
    requires UniqueKeys(ps)
    ensures |ConfigFilesOf(pm, t, format, ps)| == |ps| + (if "web" in Keys(ps) then 1 else 0)
  {
    if ps != [] {
      var init, last := ps[..|ps| - 1], ps[|ps| - 1];
      assert UniqueKeys(init);
      ConfigFilesCount(pm, t, format, init);
      assert ps == init + [last];
      KeysAppend(init, [last]);
      if last.0 == "web" {
        assert "web" !in Keys(init);
      }
    }
  }

  /** A prefix of the process table gives a prefix of the files. */
  lemma {:induction false} ConfigFilesPrefix(pm: ProcessManager, t: Templates, format: (string, FormatArgs) -> string,
                                             ps: Dict<string, string>, k: nat)
    requires k <= |ps|
    ensures ConfigFilesOf(pm, t, format, ps[..k]) <= ConfigFilesOf(pm, t, format, ps)
  {
    if k < |ps| {
      ConfigFilesPrefix(pm, t, format, ps[..|ps| - 1], k);
      assert ps[..|ps| - 1][..k] == ps[..k];
    } else {
      assert ps[..k] == ps;
    }
  }

  /** Each process's files appear together, in their own order, right after
      those of the processes before it: the web socket sits immediately before
      the web service. */
  lemma ProcessFilesAt(pm: ProcessManager, t: Templates, format: (string, FormatArgs) -> string, i: nat)
    requires i < |pm.processes|
    ensures var files := ConfigFilesOf(pm, t, format, pm.processes);
      var j := |ConfigFilesOf(pm, t, format, pm.processes[..i])|;
      var own := ProcessFiles(pm, t, format, pm.processes[i].0, pm.processes[i].1);
      j + |own| <= |files| && files[j..j + |own|] == own
  {
    var ps := pm.processes;
    ConfigFilesPrefix(pm, t, format, ps, i + 1);
    assert ps[..i + 1][..i] == ps[..i];
  }

  // ---------------------------------------------------------------------
  // install_services and uninstall_services

  /** Every name except `skip`, in order. */
  function Except(names: seq<string>, skip: string): seq<string>
  {
    if names == [] then []
    else Except(names[..|names| - 1], skip) + (if names[|names| - 1] == skip then [] else [names[|names| - 1]])
  }

  /** The services install enables separately: all but the web service,
      which its socket starts. */
  function NonWebServices(pm: ProcessManager): seq<string>
  {
    Except(ServiceNames(pm), pm.appName + ".service")
  }

  lemma ExceptStep(names: seq<string>, i: nat, skip: string)
    requires i < |names|
    ensures Except(names[..i + 1], skip) == Except(names[..i], skip) + (if names[i] == skip then [] else [names[i]])
  {
    assert names[..i + 1][..i] == names[..i];
  }

  lemma {:induction false} ExceptMembers(names: seq<string>, skip: string, x: string)
    ensures x in Except(names, skip) <==> x in names && x != skip
  {
    if names != [] {
      ExceptMembers(names[..|names| - 1], skip, x);
      assert names == names[..|names| - 1] + [names[|names| - 1]];
    }
  }

  /** The separately enabled services are exactly those of the non-web processes. */
  lemma NonWebServicesMembers(pm: ProcessManager, x: string)
    ensures x in NonWebServices(pm)
        <==> exists i :: 0 <= i < |pm.processes| && pm.processes[i].0 != "web" && x == GetServiceName(pm.appName, pm.processes[i].0)
  {
    var sn := ServiceNames(pm);
    ExceptMembers(sn, pm.appName + ".service", x);
    if x in NonWebServices(pm) {
      var i :| 0 <= i < |sn| && sn[i] == x;
      assert pm.processes[i].0 != "web";
    }
  }

  /** The units install enables, and uninstall disables. */
  function InstallEnabled(pm: ProcessManager): set<string>
  {
    {SocketUnit(pm)} + (set n | n in NonWebServices(pm))
  }

  /** `m` after writing `files` one after the other. */
  function Written(m: map<string, string>, files: seq<SystemdFile>): map<string, string>
  {
    if files == [] then m
    else Written(m, files[..|files| - 1])[files[|files| - 1].name := files[|files| - 1].body]
  }

  lemma {:induction false} WrittenKeys(m: map<string, string>, files: seq<SystemdFile>)
    ensures Written(m, files).Keys == m.Keys + NameSet(files)
  {
    if files != [] {
      var init := files[..|files| - 1];
      WrittenKeys(m, init);
      assert files == init + [files[|files| - 1]];
      assert NameSet(files) == NameSet(init) + {files[|files| - 1].name};
    }
  }

  function WriteCall(f: SystemdFile): Call
  {
    Call.Run("echo '" + f.body + "' | sudo tee /etc/systemd/system/" + f.name, true)
  }

  function WriteCalls(files: seq<SystemdFile>): seq<Call>
  {
    seq(|files|, i requires 0 <= i < |files| => WriteCall(files[i]))
  }

  /** systemd after install. */
  function InstalledState(pm: ProcessManager, t: Templates, format: (string, FormatArgs) -> string, s: Systemctl): Systemctl
  {
    Systemctl(Written(s.files, ConfigFilesOf(pm, t, format, pm.processes)),
              s.enabled + InstallEnabled(pm),
              s.running + {SocketUnit(pm)})
  }

  /** The calls of install: one write per file, `enable --now` on the socket,
      then a plain enable per non-web service. */
  function InstallCalls(pm: ProcessManager, t: Templates, format: (string, FormatArgs) -> string): seq<Call>
  {
    WriteCalls(ConfigFilesOf(pm, t, format, pm.processes))
    + [Call.Run("sudo systemctl enable --now " + SocketUnit(pm), true)]
    + EachSudo("sudo systemctl enable ", NonWebServices(pm))
  }

  method WriteFiles(s: Systemctl, files: seq<SystemdFile>) returns (s': Systemctl, calls: seq<Call>)
    ensures s' == s.(files := Written(s.files, files))
    ensures calls == WriteCalls(files)
  {
    s', calls := s, [];
    var i := 0;
    while i < |files|
      invariant 0 <= i <= |files|
      invariant s' == s.(files := Written(s.files, files[..i]))
      invariant calls == WriteCalls(files[..i])
    {
      assert files[..i + 1][..i] == files[..i];
      calls := calls + [WriteCall(files[i])];
      s' := s'.(files := s'.files[files[i].name := files[i].body]);
      i := i + 1;
    }
    assert files[..i] == files;
  }

  method EnableNonWeb(pm: ProcessManager, s: Systemctl) returns (s': Systemctl, calls: seq<Call>)
    ensures s' == s.(enabled := s.enabled + (set n | n in NonWebServices(pm)))
    ensures calls == EachSudo("sudo systemctl enable ", NonWebServices(pm))
  {
    var names := ServiceNames(pm);
    var web := pm.appName + ".service";
    calls := [];
    var done: seq<string> := [];
    var i := 0;
    while i < |names|
      invariant 0 <= i <= |names|
      invariant done == Except(names[..i], web)
      invariant calls == EachSudo("sudo systemctl enable ", done)
    {
      ExceptStep(names, i, web);
      if names[i] != web {
        EachSudoSnoc("sudo systemctl enable ", done, names[i]);
        calls := calls + [Call.RunSudo("sudo systemctl enable " + names[i])];
        done := done + [names[i]];
      }
      i := i + 1;
    }
    assert names[..i] == names;
    s' := s.(enabled := s.enabled + (set n | n in done));
  }

  method InstallServices(pm: ProcessManager, t: Templates, format: (string, FormatArgs) -> string, s: Systemctl)
    returns (s': Systemctl, calls: seq<Call>)
    ensures s' == InstalledState(pm, t, format, s)
    ensures calls == InstallCalls(pm, t, format)
  {
    var files := GetConfigurationFiles(pm, t, format);
    var c1, c2;
    s', c1 := WriteFiles(s, files);
    s' := s'.(enabled := s'.enabled + {SocketUnit(pm)}, running := s'.running + {SocketUnit(pm)});
    s', c2 := EnableNonWeb(pm, s');
    calls := c1 + [Call.Run("sudo systemctl enable --now " + SocketUnit(pm), true)] + c2;
  }

  /** After install every process's service file is in place and the web
      service is not enabled on its own. */
  lemma InstallWritesEveryService(pm: ProcessManager, t: Templates, format: (string, FormatArgs) -> string,
                                  s: Systemctl, i: nat)
    requires i < |pm.processes|
    ensures GetServiceName(pm.appName, pm.processes[i].0) in InstalledState(pm, t, format, s).files
  {
    var files := ConfigFilesOf(pm, t, format, pm.processes);
    ConfigFileNames(pm, t, format, pm.processes);
    WrittenKeys(s.files, files);
    assert ServiceNames(pm)[i] == GetServiceName(pm.appName, pm.processes[i].0);
  }

  /** Uninstall stops every service, then disables what install enabled. */
  function UninstalledState(pm: ProcessManager, s: Systemctl): Systemctl
  {
    s.(running := s.running - (set n | n in ServiceNames(pm)), enabled := s.enabled - InstallEnabled(pm))
  }

  function UninstallCalls(pm: ProcessManager): seq<Call>
  {
    EachCommand("sudo systemctl stop ", ServiceNames(pm), true)
    + [Call.Run("sudo systemctl disable " + SocketUnit(pm), false)]
    + EachCommand("sudo systemctl disable ", NonWebServices(pm), true)
  }

  method DisableNonWeb(pm: ProcessManager, s: Systemctl) returns (s': Systemctl, calls: seq<Call>)
    ensures s' == s.(enabled := s.enabled - (set n | n in NonWebServices(pm)))
    ensures calls == EachCommand("sudo systemctl disable ", NonWebServices(pm), true)
  {
    var names := ServiceNames(pm);
    var web := pm.appName + ".service";
    calls := [];
    var done: seq<string> := [];
    var i := 0;
    while i < |names|
      invariant 0 <= i <= |names|
      invariant done == Except(names[..i], web)
      invariant calls == EachCommand("sudo systemctl disable ", done, true)
    {
      ExceptStep(names, i, web);
      if names[i] != web {
        EachCommandSnoc("sudo systemctl disable ", done, names[i], true);
        calls := calls + [Call.Run("sudo systemctl disable " + names[i], true)];
        done := done + [names[i]];
      }
      i := i + 1;
    }
    assert names[..i] == names;
    s' := s.(enabled := s.enabled - (set n | n in done));
  }

  method UninstallServices(pm: ProcessManager, s: Systemctl) returns (s': Systemctl, calls: seq<Call>)
    ensures s' == UninstalledState(pm, s)
    ensures calls == UninstallCalls(pm)
  {
    var c1, c2;
    s', c1 := StopServices(pm, s, []);
    AllServicesTargeted(pm);
    s' := s'.(enabled := s'.enabled - {SocketUnit(pm)});
    s', c2 := DisableNonWeb(pm, s');
    calls := c1 + [Call.Run("sudo systemctl disable " + SocketUnit(pm), false)] + c2;
  }

  /** Uninstall after install leaves the enabled set as it was before (when
      none of the app's units was enabled), leaves no service running, and
      leaves the socket running, since it is disabled but not stopped. */
  lemma UninstallUndoesInstall(pm: ProcessManager, t: Templates, format: (string, FormatArgs) -> string, s: Systemctl)
    requires s.enabled !! InstallEnabled(pm)
    ensures var s2 := UninstalledState(pm, InstalledState(pm, t, format, s));
      s2.enabled == s.enabled
      && (forall n :: n in ServiceNames(pm) ==> n !in s2.running)
      && SocketUnit(pm) in s2.running
  {
    var socket := SocketUnit(pm);
    assert socket[|socket| - 1] == 't';
    forall n | n in ServiceNames(pm)
      ensures n != socket
    {
      var i :| 0 <= i < |ServiceNames(pm)| && ServiceNames(pm)[i] == n;
      assert EndsWith(n, ".service");
      assert n[|n| - 1] == ".service"[7];
    }
  }

  // ---------------------------------------------------------------------
  // start_services, restart_services, stop_services

  /** The names in `valid`, in the order given. */
  function Keep(names: seq<string>, valid: seq<string>): seq<string>
  {
    if names == [] then []
    else Keep(names[..|names| - 1], valid) + (if names[|names| - 1] in valid then [names[|names| - 1]] else [])
  }

  lemma KeepStep(names: seq<string>, i: nat, valid: seq<string>)
    requires i < |names|
    ensures Keep(names[..i + 1], valid) == Keep(names[..i], valid) + (if names[i] in valid then [names[i]] else [])
  {
    assert names[..i + 1][..i] == names[..i];
  }

  /** A name is acted on exactly when it is given and valid. */
  lemma {:induction false} KeepMembers(names: seq<string>, valid: seq<string>, x: string)
    ensures x in Keep(names, valid) <==> x in names && x in valid
  {
    if names != [] {
      KeepMembers(names[..|names| - 1], valid, x);
      assert names == names[..|names| - 1] + [names[|names| - 1]];
    }
  }

  lemma {:induction false} KeepAll(names: seq<string>, valid: seq<string>)
    requires forall x :: x in names ==> x in valid
    ensures Keep(names, valid) == names
  {
    if names != [] {
      KeepAll(names[..|names| - 1], valid);
      assert names[|names| - 1] in names;
      assert names[..|names| - 1] + [names[|names| - 1]] == names;
    }
  }

  /** The units a start, restart or stop acts on: the given names that are
      service names, or every service name when none is given. */
  function Targets(pm: ProcessManager, names: seq<string>): seq<string>
  {
    var sn := ServiceNames(pm);
    Keep(if names == [] then sn else names, sn)
  }

  /** With no names, every service, in order. */
  lemma AllServicesTargeted(pm: ProcessManager)
    ensures Targets(pm, []) == ServiceNames(pm)
  {
    KeepAll(ServiceNames(pm), ServiceNames(pm));
  }

  /** The shared loop of start, restart and stop: one `prefix + name`
      command per target (the prefix is `sudo systemctl {verb} `). Returns
      the targets. */
  method Control(pm: ProcessManager, prefix: string, names: seq<string>) returns (acted: seq<string>, calls: seq<Call>)
    ensures acted == Targets(pm, names)
    ensures calls == EachCommand(prefix, acted, true)
  {
    var sn := ServiceNames(pm);
    var todo := if names == [] then sn else names;
    acted, calls := [], [];
    var i := 0;
    while i < |todo|
      invariant 0 <= i <= |todo|
      invariant acted == Keep(todo[..i], sn)
      invariant calls == EachCommand(prefix, acted, true)
    {
      KeepStep(todo, i, sn);
      if todo[i] in sn {
        EachCommandSnoc(prefix, acted, todo[i], true);
        calls := calls + [Call.Run(prefix + todo[i], true)];
        acted := acted + [todo[i]];
      }
      i := i + 1;
    }
    assert todo[..i] == todo;
  }

  method StartServices(pm: ProcessManager, s: Systemctl, names: seq<string>) returns (s': Systemctl, calls: seq<Call>)
    ensures s' == s.(running := s.running + (set n | n in Targets(pm, names)))
    ensures calls == EachCommand("sudo systemctl start ", Targets(pm, names), true)
  {
    var acted;
    acted, calls := Control(pm, "sudo systemctl start ", names);
    s' := s.(running := s.running + (set n | n in acted));
  }

  method RestartServices(pm: ProcessManager, s: Systemctl, names: seq<string>) returns (s': Systemctl, calls: seq<Call>)
    ensures s' == s.(running := s.running + (set n | n in Targets(pm, names)))
    ensures calls == EachCommand("sudo systemctl restart ", Targets(pm, names), true)
  {
    var acted;
    acted, calls := Control(pm, "sudo systemctl restart ", names);
    s' := s.(running := s.running + (set n | n in acted));
  }

  method StopServices(pm: ProcessManager, s: Systemctl, names: seq<string>) returns (s': Systemctl, calls: seq<Call>)
    ensures s' == s.(running := s.running - (set n | n in Targets(pm, names)))
    ensures calls == EachCommand("sudo systemctl stop ", Targets(pm, names), true)
  {
    var acted;
    acted, calls := Control(pm, "sudo systemctl stop ", names);
    s' := s.(running := s.running - (set n | n in acted));
  }

  /** Given names that are all services are acted on exactly as given,
      duplicates and order included. */
  lemma GivenServicesTargeted(pm: ProcessManager, names: seq<string>)
    requires names != []
    requires forall x :: x in names ==> x in ServiceNames(pm)
    ensures Targets(pm, names) == names
  {
    KeepAll(names, ServiceNames(pm));
  }
}
