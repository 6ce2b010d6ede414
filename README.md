# fujin deploy core in Dafny

This project models the core of fujin, a tool that deploys a Python package or a
binary to a Linux host over SSH and runs it under systemd. The model covers:

- **Naming and layout** (`Config`). This is the decoded `fujin.toml` after its
  post-decode checks. It derives the service, instance, socket and timer unit
  names, the `get_systemd_units` keys and template choice, the release
  directory, the distfile path and the app binary.
- **The deploy engine** (`Deploy`). The remote host is a value (`Host`) made of:
  - the `.versions` history, newest first;
  - the directories and files;
  - the symlinks;
  - the unit files in `/etc/systemd/system`;
  - the enabled and loaded units.

  Every step of `Deploy.__call__` is a method from one host value to the next.
  Each method also returns the commands it sends, in order. This covers the
  fail-fast checks, the release upload, the venv-rebuild decision, the history
  update, `install_services` with its two stale sweeps, the restart, and the
  prune.
- **The older systemd process manager** (`Systemd`). This covers plain service
  names, the configuration-file list, install and uninstall, and the
  start/restart/stop filters.
- **The pssh session wrapper** (`Pssh`). It is a class whose `cwd` field nests
  under `cd` and is restored afterwards. The model covers command prefixing,
  the result record and the mapping of failures to exit codes.
- **Secret substitution** (`Secrets`). This starts after dotenv parsing, with a
  reader function per adapter.
- **The proxy configurations**:
  - the Caddy admin JSON document, with its setup and teardown (`Caddy`);
  - the Nginx server block and where its configuration comes from (`Nginx`).
- **Sample-config generation** (`Init`), the **service dispatcher** (`App`) and
  **host selection** (`Base`).

Opaque parts of the system become parameters:

| Opaque part | Parameter |
|---|---|
| Jinja rendering | `render: (template, context) -> body`, plus the set of templates present |
| The old systemd templates' `str.format` | `format` |
| MD5 | `md5: content -> digest` |
| Secret readers | `read` |
| The dotenv parser | `parse` |
| `json.dumps` | `dumps` |
| The certbot rewrite of the nginx site | `certbot` |
| Remote command outcomes | `reply: (command, pty) -> output` |
| Local files | a `map` from path to content |
| Environment variables | `environ` |
| The build command | `buildError`: None when it succeeds, else the text of its `CalledProcessError` |

## Model

| member | source | states |
|---|---|---|
| Config.NewProcessConfig | src/fujin/config.py:245-255 | A process is rejected (ImproperlyConfigured) exactly when `socket` is set and `timer` is truthy; otherwise the fields are kept as given. |
| Config.NewHostConfig | src/fujin/config.py:417-440 | The result is Ok exactly when neither error applies. The errors are setting both `envfile` and `env`, and a missing envfile. The env text is the stripped envfile or `env` content, or "". `apps_dir` becomes `/home/{user}/{apps_dir}`. `ip` defaults to `domain_name`. The other fields are unchanged. |
| Config.StrippedHasNoSurroundingSpace | src/fujin/config.py:438 | `strip()` leaves no whitespace at either end, whitespace being what Python's `str.isspace()` accepts: tab to carriage return, 0x1C to 0x1F, space, 0x85, no-break space and the Unicode space separators. |
| Config.Password | src/fujin/config.py:447-455 | The result is None exactly when `password_env` is not truthy. A returned password is the non-empty value of that variable. An unset or empty variable is an ImproperlyConfigured error, and a set, non-empty variable's value is returned. |
| Config.NewConfig | src/fujin/config.py:278-286 | For a python package without `python_version`, the version is the stripped `.python-version` file: an error when that file is missing, and otherwise the only field that changes. The config is accepted exactly when there is a "web" process or the webserver is disabled. |
| Config.AppBin | src/fujin/config.py:288-292 | The binary is `.venv/bin/{app}` for a python package and `{app}` for a binary. It always ends with the app name. |
| Config.ReleaseDirInjective | src/fujin/config.py:294-299 | Release directories lie under `{app_dir}/v`, and two non-empty versions give the same directory only if they are equal. |
| Config.ReleaseDirLayout | src/fujin/config.py:294-299 | The release dir is `/home/{user}/{apps_dir}/{app}/v{version or self.version}`. |
| Config.ReleaseDirShape | src/fujin/config.py:298-299 | `get_release_dir` is `{app_dir}/v` followed by the version. A falsy version gives the configured version's directory. |
| Config.FindAny | src/fujin/config.py:303 | The brace scanner behind `str.format` returns only an index whose character is one of the braces searched for. |
| Config.FormatBraceFree | src/fujin/config.py:303 | A format string without braces formats to itself. |
| Config.FormatPrefix | src/fujin/config.py:303 | Formatting passes a brace-free prefix through unchanged. |
| Config.FormatField | src/fujin/config.py:303 | A `{version}` field is replaced by the version. Any other field name is a KeyError naming the field. |
| Config.FormatVersion | src/fujin/config.py:303 | `distfile.format(version=…)` fails only with a ValueError (a lone or unclosed brace) or with a KeyError naming a field other than `version`. |
| Config.DistfilePath | src/fujin/config.py:301-303 | A distfile without braces is its own path for every version. A failure is a ValueError or a KeyError. |
| Config.DistfilePathSubstitutes | src/fujin/config.py:301-303 | A distfile with one `{version}` placeholder becomes prefix + (version or self.version) + suffix. |
| Config.DistfileUnknownField | src/fujin/config.py:301-303 | A distfile with any other placeholder fails with a KeyError. |
| Config.ServiceNameShape | src/fujin/config.py:317-322 | The service name is `{app}` for "web" and `{app}-{name}` otherwise, then "@.service" when replicas > 1 and ".service" otherwise. It starts with the app and ends with ".service". |
| Config.InstanceNameInjective | src/fujin/config.py:329 | Instance names `{base}@{i}.service` with different indices differ. |
| Config.InstanceNamesExact | src/fujin/config.py:324-330 | With replicas N > 1, the instances are exactly `base@1.service … base@N.service` in order. They are pairwise distinct and none is the "@.service" template name. Otherwise the list is the single service name. |
| Config.ReplicatedInstances | src/fujin/config.py:327-329 | The replicated case of the instance list: N names, the i-th is `base@{i+1}.service`. |
| Config.TimerNameShape | src/fujin/config.py:388-389 | The timer is the service name with ".service" removed plus ".timer", so `{stem}@.timer` when replicated. It starts with the app. |
| Config.CompanionNameShape | src/fujin/config.py:338-342 | The socket is named `{app}.socket`, and a timer name ends with ".timer". |
| Config.ProcessServiceNames | src/fujin/config.py:317-330 | `get_service_name` starts with the app and ends with "@.service" exactly when the process is replicated, else with ".service". `get_process_service_names` gives one name per replica when replicated, and otherwise just the service name. |
| Config.ServiceNotCompanion | src/fujin/config.py:338-342 | A service name is never the socket name and never a timer name. |
| Config.ServiceNamesDistinct | src/fujin/config.py:317-322 | Different process names give different service names. |
| Config.ServiceNames | src/fujin/config.py:332-343 | The loop builds exactly the `service_names` list: every instance name in process order, then the companions. |
| Config.CompanionNames | src/fujin/config.py:337-342 | The second loop appends, process by process, `{app}.socket` when `socket` is set, then the timer name when `timer` is truthy. |
| Config.InstancesMembers | src/fujin/config.py:334-336 | A name is among the instance names exactly when it is an instance of some process. |
| Config.CompanionsMembers | src/fujin/config.py:337-342 | A name is among the companions exactly when it is a companion of some process. |
| Config.ServiceNameListMembers | src/fujin/config.py:332-343 | `service_names` contains exactly the instance names and companions of the processes. |
| Config.ChooseTemplate | src/fujin/config.py:366-393 | The template is `{name}.{kind}.j2` when present, else `default.{kind}.j2`. |
| Config.GetSystemdUnits | src/fujin/config.py:345-401 | The loop builds, process by process, the service file, then the socket, then the timer entry, each with its rendered body. The keys are unique. The key set and bodies are pinned by the lemmas below. |
| Config.AddProcessUnitsKeys | src/fujin/config.py:359-399 | One process adds its service file, its socket when `socket` is set and its timer when `timer` is truthy, and no other key. |
| Config.UnitNamesMembers | src/fujin/config.py:358-401 | A unit key is one of the service, socket or timer files of some process, and each of those is a key. |
| Config.UnitsOfKeys | src/fujin/config.py:358-401 | The keys of the unit dict built so far are the unit names of the processes seen so far. |
| Config.SystemdUnitKeys | src/fujin/config.py:345-401 | The keys of `get_systemd_units` are exactly the unit names of all processes. |
| Config.UnitNamesStartWithApp | src/fujin/config.py:358-399 | Every unit key starts with the app name. |
| Config.ServiceNamesBackedByUnits | src/fujin/config.py:332-401 | Every entry of `service_names` is a unit key, or an instance of a replicated process whose "@.service" template is a unit key. |
| Config.AddUnitsLookup | src/fujin/config.py:371-377 | After a process is added, its service file holds the body rendered from its own template and context, and earlier files keep theirs. |
| Config.ServiceUnitTemplate | src/fujin/config.py:359-377 | In the final dict, each process's service file holds the body rendered for that process. |
| Deploy.GlobLiteral | src/fujin/commands/deploy.py:109 | A `systemctl disable` pattern without `*` matches only itself. |
| Deploy.DisableTargetTemplate | src/fujin/commands/deploy.py:104-108 | A stale "@.service" file is disabled through its "@*.service" pattern. |
| Deploy.StripClean | src/fujin/commands/deploy.py:169-171 | A stripped `head` line is a clean version. |
| Deploy.HeadShape | src/fujin/commands/deploy.py:169-171 | `Head`, the stripped `head -n 1 .versions`: "" for an empty history, and the first entry itself when that is clean. |
| Deploy.HistoryHead | src/fujin/commands/deploy.py:169-177 | After the history update (`NewHistory`), the first line of `.versions` is the version. |
| Deploy.HistoryFront | src/fujin/commands/deploy.py:172-177 | The new history is non-empty and starts with the version. |
| Deploy.HistoryIdempotent | src/fujin/commands/deploy.py:172-173 | Recording the same version twice changes nothing the second time. |
| Deploy.HistoryPrepends | src/fujin/commands/deploy.py:172-177 | The history either stays as it is (same head) or is the old history with the version in front; a later duplicate is not removed. |
| Deploy.UpdateHistory | src/fujin/commands/deploy.py:168-177 | `head -n 1`, then `echo > .versions` on an empty history or `sed '1i'` on a different head. The new `.versions` is the prepended history. |
| Deploy.PruneDirOfRelease | src/fujin/commands/deploy.py:64 | The directory prune removes for a version is that version's release directory. |
| Deploy.KeepOut | src/fujin/commands/deploy.py:56-69 | The filter keeps exactly the entries not among the kept versions. |
| Deploy.PruneBounds | src/fujin/commands/deploy.py:66-69 | `sed -i 'K+1,$d'` (`Truncate`) keeps the first K entries. With at most K entries the history is unchanged. |
| Deploy.PrunedAsWrittenExact | src/fujin/commands/deploy.py:57-65 | As written, prune selects exactly the directories of the entries after position K. With at most K entries it selects none. |
| Deploy.PruneDirInjective | src/fujin/commands/deploy.py:64 | Different versions give different prune directories. |
| Deploy.PruneAsWrittenRemovesHead | src/fujin/commands/deploy.py:55-69 | Deploying a, then b, then a gives the history [a, b, a]. With K = 2, as-written prune removes the directory of a, which is the head release. |
| Deploy.PrunedCorrectedKeepsKept | src/fujin/commands/deploy.py:55-69 | The corrected prune never removes a version still among the first K entries, and removes every other listed version. |
| Deploy.PrunedCorrectedSparesKeptTree | src/fujin/commands/deploy.py:64-65 | No directory removed by the corrected prune contains a kept release. |
| Deploy.RemoveNothing | src/fujin/commands/deploy.py:62-65 | Removing no tree leaves the host unchanged. |
| Deploy.PruneAsWritten | src/fujin/commands/deploy.py:55-69 | With a truthy K, the source's prune removes the trees of the entries after K and truncates `.versions` to K, and emits its commands. With K None or 0 it does nothing. |
| Deploy.Prune | src/fujin/commands/deploy.py:55-69 | The corrected prune is the same, except that it spares every version still among the first K entries. |
| Deploy.PruneKeepsHead | src/fujin/commands/deploy.py:55-69 | The corrected prune keeps the head version in `.versions`, and keeps its release directory on the host. |
| Deploy.WriteUnits | src/fujin/commands/deploy.py:76-82 | Each new unit is written with `tee`. The unit files become the old ones overridden by the new dict. |
| Deploy.WriteStep | src/fujin/commands/deploy.py:77-82 | Writing one more unit overrides one more file and adds one more `tee`. |
| Deploy.EnableServices | src/fujin/commands/deploy.py:84-89 | `daemon-reload`, then one `enable --now` per entry of `service_names`. All of them become enabled and loaded. |
| Deploy.SweepStaleFiles | src/fujin/commands/deploy.py:91-110 | The removed files are exactly the app-prefixed unit files not among the new units. Each is disabled through its pattern and deleted, and the units its pattern matches are no longer enabled or loaded. |
| Deploy.SweepStaleUnits | src/fujin/commands/deploy.py:112-123 | Exactly the loaded app-prefixed units not in `service_names` are disabled and stopped. |
| Deploy.SweepsReachOtherApp | src/fujin/commands/deploy.py:91-123 | Both sweeps select by bare name prefix: deploying `blog` selects `blog2.service` of another app for disabling and removal, when it is not among blog's own units. |
| Deploy.InstallServices | src/fujin/commands/deploy.py:75-123 | Write, enable, then the two sweeps, with the resulting host and commands. Afterwards every loaded app-prefixed unit is in `service_names`. |
| Deploy.InstalledUnitFiles | src/fujin/commands/deploy.py:75-110 | After `install_services`, the app-prefixed unit files are exactly the `get_systemd_units` keys, with their new bodies. Files outside the app prefix are untouched. |
| Deploy.InstalledUnitAt | src/fujin/commands/deploy.py:75-110 | The per-file form of the statement above. |
| Deploy.ReinstallUnitsIdempotent | src/fujin/commands/deploy.py:91-110 | Running `install_services` again with the same config finds no stale file, and leaves the unit files unchanged. |
| Deploy.RestartServices | src/fujin/commands/deploy.py:125-131 | One `systemctl restart` per entry of `service_names`. Those units are loaded afterwards. |
| Deploy.RequirementsStep | src/fujin/commands/deploy.py:197-227 | Reports a rebuild exactly when the venv cannot be reused, where reuse means all of: requirements are configured, there is a previous head, its requirements file exists, and its digest equals the local one. On reuse the previous file is copied when the paths differ; otherwise the local file is uploaded. A missing local file is a FileNotFound error. |
| Deploy.RequirementsDigest | src/fujin/commands/deploy.py:219-227 | Either way, the new release's `requirements.txt` has the local file's digest. |
| Deploy.RebuildWithoutHistory | src/fujin/commands/deploy.py:198-220 | Without requirements or without a previous head, the venv is rebuilt. |
| Deploy.InstallPythonPackage | src/fujin/commands/deploy.py:179-241 | Writes `.appenv` first, then the requirements step, then rm/`uv python install`/`uv venv`/`-r` only on a rebuild. It always ends with `uv pip install` of the package. |
| Deploy.InstallBinary | src/fujin/commands/deploy.py:243-253 | Writes `.appenv`, removes the old link tolerantly, and links the app binary to the release package. |
| Deploy.InstallPackage | src/fujin/commands/deploy.py:152-161 | Chooses by installation mode. It fails exactly for a python package whose configured requirements file is missing locally. A binary install leaves the link in place. Neither branch touches the history or the units. |
| Deploy.PlaceRelease | src/fujin/commands/deploy.py:140-149 | The release dir is always created. The result is Ok exactly when the distfile path formats and the local distfile exists, or the release is a rollback. The distfile is uploaded to `{release_dir}/{name}` only when not rolling back. A distfile error or a missing local distfile is reported. |
| Deploy.StageRelease | src/fujin/commands/deploy.py:140-161 | Places the release and installs the package, starting with `mkdir -p` of the release dir. It succeeds exactly when the distfile is ready, as for PlaceRelease, and the requirements file is not missing. |
| Deploy.InstallProject | src/fujin/commands/deploy.py:133-177 | Always creates the release dir. The upload is skipped when rolling back. It succeeds exactly when StageRelease does. On success the history is the updated history of the version, and the history commands come last. The units are untouched. |
| Deploy.PreFlight | src/fujin/commands/deploy.py:21-39 | Fails before any connection exactly when the adapter has no reader, the build fails, or the configured requirements file is missing. The errors are, in that order: a KeyError naming the adapter, Exit 1 with "build command failed: " and the build error's text, and Exit 1 with "{requirements} not found". On success it yields the `.env` text. |
| Deploy.Activate | src/fujin/commands/deploy.py:48-69 | Installs the services, restarts, and runs the corrected prune. The unit files are the installed ones. The head is kept, and so is the head's release dir. |
| Deploy.Deliver | src/fujin/commands/deploy.py:41-46 | `mkdir -p {app_dir}`, then the `.env` write, then `install_project`. It succeeds exactly when the distfile is ready and the requirements file is not missing. On success the head is the deployed version and its release dir exists. |
| Deploy.Run | src/fujin/commands/deploy.py:21-69 | A fail-fast case sends nothing and changes nothing. The deploy succeeds exactly when nothing fails fast and the distfile path formats to an existing local file. Otherwise it sends the app-dir and `.env` commands first. On success the head is the version and, with the corrected prune, its release dir survives the prune. The unit files are as `install_services` leaves them, and no stale app unit stays loaded. |
| Deploy.Release | src/fujin/commands/deploy.py:41-69 | The remote part of `Run`, with the same guarantees. It succeeds exactly when Deliver does. It activates through the corrected prune. |
| Deploy.EndsWithExtend | src/fujin/commands/deploy.py:142-177 | Commands sent earlier do not change which commands come last. |
| Deploy.SurvivorsSnoc | src/fujin/commands/deploy.py:104-109 | One more disabled pattern removes exactly the units it matches. |
| Deploy.DisabledByAnySnoc | src/fujin/commands/deploy.py:96-109 | A unit is disabled by some removed file's pattern exactly when it was already, or the new pattern matches it. |
| Deploy.SweepCommandsSnoc | src/fujin/commands/deploy.py:109-110 | Each stale file adds a `disable --now` and an `rm`, in that order. |
| Deploy.WithoutSnoc | src/fujin/commands/deploy.py:110 | Removing files one at a time equals removing them all. |
| Systemd.GetServiceName | src/fujin/process_managers/systemd.py:40-43 | The name is `{app}.service` exactly for "web", and `{app}-{name}.service` otherwise. |
| Systemd.ServiceNameInjective | src/fujin/process_managers/systemd.py:40-43 | Different processes give different service names. |
| Systemd.ServiceNamesOf | src/fujin/process_managers/systemd.py:36-38 | One service name per process, in process order. |
| Systemd.ServiceNamesDistinct | src/fujin/process_managers/systemd.py:36-43 | `service_names` (`ServiceNames`) has no duplicates. |
| Systemd.GetConfigurationFiles | src/fujin/process_managers/systemd.py:62-89 | The loop builds the list of its specification: per process, `{app}.socket` and then its service file for "web", and just the service file for any other process. |
| Systemd.ConfigFilesStep | src/fujin/process_managers/systemd.py:76-88 | Each process appends its own files. |
| Systemd.ProcessFileNames | src/fujin/process_managers/systemd.py:76-88 | A process yields its service file, plus the socket for "web". |
| Systemd.ConfigFileNames | src/fujin/process_managers/systemd.py:62-89 | The file names are the service names plus the socket when there is a web process. |
| Systemd.ConfigFilesCount | src/fujin/process_managers/systemd.py:75-89 | There is one file per process, plus one for the web socket. |
| Systemd.ConfigFilesPrefix | src/fujin/process_managers/systemd.py:75-89 | The files of the first k processes come first. |
| Systemd.ProcessFilesAt | src/fujin/process_managers/systemd.py:75-89 | Each process's files sit contiguously, at the position after those of the earlier processes. |
| Systemd.ExceptMembers | src/fujin/process_managers/systemd.py:57-60 | The filter drops exactly the skipped name. |
| Systemd.NonWebServicesMembers | src/fujin/process_managers/systemd.py:57-60 | The services besides `{app}.service` are those of the non-web processes. |
| Systemd.WrittenKeys | src/fujin/process_managers/systemd.py:50-54 | Writing the files adds exactly their names. |
| Systemd.WriteFiles | src/fujin/process_managers/systemd.py:50-54 | One `tee` per file, in order, storing each body. |
| Systemd.EnableNonWeb | src/fujin/process_managers/systemd.py:57-60 | One sudo `enable` per non-web service. |
| Systemd.InstallServices | src/fujin/process_managers/systemd.py:48-60 | Writes every file, runs `enable --now` on the socket, and enables every service except `{app}.service`. |
| Systemd.InstallWritesEveryService | src/fujin/process_managers/systemd.py:48-54 | Every process's service file is written. |
| Systemd.DisableNonWeb | src/fujin/process_managers/systemd.py:94-97 | One `disable` per non-web service. |
| Systemd.UninstallServices | src/fujin/process_managers/systemd.py:91-97 | Stops all services, disables the socket, then disables every non-web service. |
| Systemd.UninstallUndoesInstall | src/fujin/process_managers/systemd.py:91-97 | Uninstall after install restores the enabled set, and no service runs. The socket keeps running, because it is disabled but never stopped. |
| Systemd.KeepMembers | src/fujin/process_managers/systemd.py:101-103 | The filter keeps exactly the given names that are services. |
| Systemd.KeepAll | src/fujin/process_managers/systemd.py:101-103 | Names that are all valid pass unchanged. |
| Systemd.AllServicesTargeted | src/fujin/process_managers/systemd.py:100 | No names means all `service_names`. |
| Systemd.Control | src/fujin/process_managers/systemd.py:99-115 | One command per target, in the given order. |
| Systemd.StartServices | src/fujin/process_managers/systemd.py:99-103 | The targets are started. |
| Systemd.RestartServices | src/fujin/process_managers/systemd.py:105-109 | The targets are restarted. |
| Systemd.StopServices | src/fujin/process_managers/systemd.py:111-115 | The targets are stopped. |
| Systemd.GivenServicesTargeted | src/fujin/process_managers/systemd.py:100-103 | Valid given names are acted on exactly, in the given order. |
| Pssh.SplitLines | src/fujin/pssh_connection.py:21 | Splitting on "\n" yields at least one line. |
| Pssh.JoinLinesSplit | src/fujin/pssh_connection.py:21 | Joining lines with "\n" and splitting again gives back the lines. |
| Pssh.ResultFields | src/fujin/pssh_connection.py:19-24 | `PSSHResult` is ok exactly on exit code 0 and keeps the code. No output lines give "", and a single line is kept as it is. |
| Pssh.SplitNoNewline | src/fujin/pssh_connection.py:21 | Text without a newline is one line. |
| Pssh.SplitAtNewline | src/fujin/pssh_connection.py:21 | Text splits at its first newline. |
| Pssh.Prefixed | src/fujin/pssh_connection.py:40-41 | `cd {cwd} && ` is prefixed exactly when `_cwd` is truthy, and the command itself always comes last. |
| Pssh.Outcome | src/fujin/pssh_connection.py:55-64 | A non-zero (or missing) exit code without `warn` is an Exit with code `return_code or 1`, never 0, whose message starts with "Command failed: {command}". Otherwise the result is returned. |
| Pssh.CdCompose | src/fujin/pssh_connection.py:73-76 | The `cd` target (`CdTarget`): entering p and then a relative q equals entering `p/q`. |
| Pssh.CdAbsolute | src/fujin/pssh_connection.py:73-76 | The `cd` target of an absolute path is that path, whatever the current directory. |
| Pssh.NestedCd | src/fujin/pssh_connection.py:70-80 | A nested `cd` sends the same commands as the composed one. |
| Pssh.Session.constructor | src/fujin/pssh_connection.py:28-31 | A new session has no `_cwd` and has sent nothing. |
| Pssh.Session.Run | src/fujin/pssh_connection.py:33-64 | Sends the prefixed command with its pty flag, and maps the reply to its outcome. `_cwd` is unchanged. |
| Pssh.Session.EnterCd | src/fujin/pssh_connection.py:72-76 | Saves the previous directory and moves to the `cd` target. |
| Pssh.Session.Exec | src/fujin/pssh_connection.py:70-80 | A script of commands and nested `cd` blocks sends the commands of its trace. `_cwd` is restored afterwards, also when a command fails. |
| Pssh.Session.ExecStep | src/fujin/pssh_connection.py:70-80 | The same statement for one step. |
| Pssh.ConnectionError | src/fujin/pssh_connection.py:96-103 | Every failure is Exit code 1. An authentication failure names `user@ip -p port`, and the other errors start with the error text. |
| Secrets.AdapterName | src/fujin/config.py:233-237 | Each adapter has its own spelling: "bitwarden", "1password", "doppler", "system". |
| Secrets.HasReader | src/fujin/secrets/__init__.py:18-21 | `adapter_to_context` has a reader exactly for "bitwarden" and "1password". |
| Secrets.SecretEntries | src/fujin/secrets/__init__.py:27 | Every selected entry's value starts with "$", and there are no more selected entries than env entries. |
| Secrets.Substituted | src/fujin/secrets/__init__.py:27-34 | Keys and order are kept. Values without "$" pass through, and "$" values become the reader's answer for the value without its first character. |
| Secrets.ResolveSecrets | src/fujin/secrets/__init__.py:24-35 | An adapter without a reader fails the table lookup with a KeyError and looks nothing up. Otherwise each secret name is looked up once, in order, and the result is the `key="value"` lines of the substituted dict. |
| Secrets.UpdateSecrets | src/fujin/secrets/__init__.py:34 | `env_dict.update(parsed)` gives the substituted dict. |
| Secrets.SubstitutedPrefixes | src/fujin/secrets/__init__.py:31-34 | Updating with the answers for the first k secrets substitutes exactly those. |
| Secrets.SecretsReadOnce | src/fujin/secrets/__init__.py:30-32 | There is one lookup per secret entry. |
| Secrets.SecretEntriesComplete | src/fujin/secrets/__init__.py:27 | Every env entry whose value starts with "$" is selected, with its key. |
| Secrets.SecretEntriesOrdered | src/fujin/secrets/__init__.py:27 | The selection keeps env order: selecting from a prefix of the env gives a prefix of the selection. |
| Secrets.SecretEntriesKeys | src/fujin/secrets/__init__.py:27 | Secret keys are keys of the env. |
| Secrets.ReadAllKeys | src/fujin/secrets/__init__.py:31-32 | Parsed secrets only use secret keys. |
| Secrets.PartlyKeys | src/fujin/secrets/__init__.py:34 | Partial substitution keeps the keys and their order. |
| Caddy.Create | src/fujin/proxies/caddy.py:17-24 | The proxy takes the domain from the host, the upstream from the webserver section and the name from the app. |
| Caddy.GenerateConfig | src/fujin/proxies/caddy.py:47-71 | At `apps.http.servers` the document holds one entry, the app's server. |
| Caddy.TeardownConfig | src/fujin/proxies/caddy.py:41 | At `apps.http.servers` the document holds the app's name with an empty object. |
| Caddy.Setup | src/fujin/proxies/caddy.py:34-38 | Two commands: `echo '{generated document}' > caddy.json`, then the load through `localhost:2019/load`. |
| Caddy.Teardown | src/fujin/proxies/caddy.py:40-45 | Two commands: `echo '{emptied document}' > caddy.json`, then the same load. |
| Caddy.OneServer | src/fujin/proxies/caddy.py:40-52 | Both documents have exactly one server under `apps.http.servers`, keyed by the app name. |
| Caddy.ServerShape | src/fujin/proxies/caddy.py:52-66 | The server listens on `[":443"]` and has a single route. |
| Caddy.RouteShape | src/fujin/proxies/caddy.py:55-65 | The route matches host `[domain]` and has a single handler. |
| Caddy.HandlerShape | src/fujin/proxies/caddy.py:58-63 | The handler is `reverse_proxy` with a single upstream dialing the upstream. |
| Caddy.TeardownEmptiesServer | src/fujin/proxies/caddy.py:40-41 | Teardown empties this app's server, leaving no routes and no listen. |
| Caddy.CreateRoutesDomain | src/fujin/proxies/caddy.py:17-24 | `create` takes the domain from the host and the upstream from the webserver config. |
| Caddy.SetupTeardownDiffer | src/fujin/proxies/caddy.py:34-45 | Setup and teardown load the same way, and the two documents differ. |
| Caddy.AtAppend | src/fujin/proxies/caddy.py:47-71 | A path lookup in the document composes. |
| Caddy.RootServers | src/fujin/proxies/caddy.py:48-51 | The servers sit at `apps.http.servers`. |
| Nginx.Create | src/fujin/proxies/nginx.py:28-36 | The proxy takes the domain from the host, the upstream from the webserver section, the name from the app and the local configuration directory from the configuration's `local_config_dir`. |
| Nginx.ConfigFile | src/fujin/proxies/nginx.py:24-26 | `config_file` is `{app}.conf` inside the local configuration directory. |
| Nginx.GetConfig | src/fujin/proxies/nginx.py:93-108 | The text starts with a "None" line, contains `listen 80;`, `server_name {domain};` and `proxy_pass {upstream};`, and ends with "}" and a blank line. |
| Nginx.GetConfigEnd | src/fujin/proxies/nginx.py:106-108 | The text ends with "}" and a blank line. |
| Nginx.Setup | src/fujin/proxies/nginx.py:48-75 | Sends the seven commands in order: tee to `sites-available/{app}.conf`, `ln -sf` into `sites-enabled`, restart, certbot, download into the local `config_file`, then the timer enable and start. |
| Nginx.SetupLinkResolves | src/fujin/proxies/nginx.py:55-63 | The enabled link resolves to the available file written by setup. |
| Nginx.ExportConfig | src/fujin/proxies/nginx.py:90-91 | `export_config` writes the generated config to `config_file` and leaves other local files alone. |
| Nginx.ExportThenSetup | src/fujin/proxies/nginx.py:50-54 | After `export_config`, setup uses the generated config. |
| Nginx.ChosenConfig | src/fujin/proxies/nginx.py:50-54 | An existing local `config_file` is installed as is; otherwise the generated block is. |
| Init.DeriveAppName | src/fujin/commands/init.py:24 | "-" and " " become "_", and the rest is lowercased, character by character. The result has no "-", no " " and no upper-case letter. |
| Init.DeriveAppNameIdempotent | src/fujin/commands/init.py:24 | Deriving a name from a derived name changes nothing. |
| Init.SimpleConfig | src/fujin/commands/init.py:41-62 | The simple profile has the nine top-level keys in order, without duplicates. |
| Init.SimpleConfigShape | src/fujin/commands/init.py:41-62 | The app is the name. The distfile starts with `dist/{app}-` and keeps a literal `{version}`. The processes contain only "web". |
| Init.FalcoConfig | src/fujin/commands/init.py:65-82 | The falco profile has the simple one's keys, in the same order, without duplicates. |
| Init.FalcoKeepsOthers | src/fujin/commands/init.py:65-82 | Every other key keeps its simple-profile value. |
| Init.FalcoReplaced | src/fujin/commands/init.py:67-81 | The release command is `{app} setup`. The processes are "web" and "worker". The aliases are the four falco aliases. |
| Init.ProfileConfigShape | src/fujin/commands/init.py:23-25 | Either profile has unique keys including "app" and "version", and no `python_version`. |
| Init.ProjectOf | src/fujin/commands/init.py:31-32 | `pyproject.get("project", {})` fails only when "project" is present and not a table. |
| Init.Generate | src/fujin/commands/init.py:19-35 | An existing `fujin.toml` exits with code 1. Otherwise the result is the profile config with: app from `project.name` or the derived name; `python_version = "3.12"` exactly when `.python-version` is absent; "version" dropped exactly when `project.version` is truthy; every other key kept. |
| Init.Customise | src/fujin/commands/init.py:26-34 | The same edits, on any base config with the profile's keys. |
| Init.AddPythonVersion | src/fujin/commands/init.py:27 | Adds `python_version` and keeps the other entries. |
| Init.SetApp | src/fujin/commands/init.py:31 | Sets "app" and keeps the other entries. |
| Init.DropVersion | src/fujin/commands/init.py:34 | Removes "version" and keeps the other entries. |
| App.ServiceRun | src/fujin/commands/app.py:32-43 | The loop returns the dispatcher's specification: the rejection for an unknown name, one sudo `systemctl {action} {s}` per service for "all", and one command otherwise. |
| App.ServiceCalls | src/fujin/commands/app.py:32-43 | `_service_run` as written: its only error is Exit code 1, and every command it sends is a sudo `systemctl {action} …`. |
| App.ServiceCallsRejects | src/fujin/commands/app.py:33-38 | A truthy name outside the services and "all" is rejected, and only such a name is. The rejection is Exit code 1 naming the name. |
| App.ServiceCallsAll | src/fujin/commands/app.py:39-41 | "all" runs one `systemctl {action} {s}` per service, in order. |
| App.ServiceCallsSingle | src/fujin/commands/app.py:42-43 | Any other accepted name runs one command for that name. |
| App.NoNameRunsNone | src/fujin/commands/app.py:34-43 | As written, no name runs `systemctl {action} None` and not the per-service commands. |
| App.IntendedServiceCalls | src/fujin/commands/app.py:45-70 | Treats no name as "all", as the argument help promises. Given names behave as in the source. |
| App.NoNameMeansAll | src/fujin/commands/app.py:45-52 | With the correction, no name acts on every service. |
| App.Start | src/fujin/commands/app.py:45-52 | Delegates with "start", through the corrected dispatcher: no name acts on every service, and a given name behaves as in the source. |
| App.Restart | src/fujin/commands/app.py:54-61 | Delegates with "restart", through the corrected dispatcher: no name acts on every service, and a given name behaves as in the source. |
| App.Stop | src/fujin/commands/app.py:63-70 | Delegates with "stop", through the corrected dispatcher: no name acts on every service, and a given name behaves as in the source. |
| App.Exec | src/fujin/commands/app.py:15-30 | Runs `{app_bin} {command}` in `{projects_dir}/{app}`, with a pty exactly when interactive. |
| App.ExecCommandShape | src/fujin/commands/app.py:23-28 | The command starts with the app binary and ends with the given command. |
| Base.SelectHost | src/fujin/commands/base.py:15-21 | No host name gives the primary host. A known name gives its host. An unknown name is Exit code 1 with "Host {name} does not exist". |
| Base.SelectHostFromMapping | src/fujin/commands/base.py:18-19 | The selected host is the primary host or a value of the hosts mapping. |
| Common.Lower | src/fujin/commands/init.py:24 | `lower()` keeps the length and lowercases letter by letter. |
| Common.ParseNatToString | src/fujin/config.py:329 | Decimal rendering of an index parses back to the index. |
| Common.NatToStringInjective | src/fujin/config.py:329 | Different indices render differently. |

## Left out

- Jinja rendering and template search. Unit bodies are `render(template, context)` for an opaque `render`. The Caddyfile is not modelled.
- TOML and msgspec decoding, `Config.read`, `read_version_from_pyproject` and `find_python_version`. Their results are inputs: a decoded `Config`, the `.python-version` text, the parsed `pyproject.toml`.
- File reads. The envfile content, the requirements and distfiles, and the nginx `config_file` come from a `map` of local files.
- `tomli_w.dumps` and `json.dumps` are opaque. Shell quoting of `echo '…'` payloads is not modelled.
- MD5 is an opaque function of the content. `md5sum` output parsing is not modelled, and a failed `md5sum` is a missing previous file.
- gevent's fan-out in enable, restart and secret reading is modelled as a sequential loop in source order.
- The Fabric, paramiko and pssh client libraries, `host.py` and `connection.py` are not modelled. A remote reply is a function of the command and the pty flag, and a connection failure is an input.
- Deploy calls are recorded relative to the app dir; the `cd {app_dir} && ` prefix is not written into them.
- In the deploy engine and the process managers, every remote command except `head`, `md5sum`, `ls` and `systemctl list-units` is assumed to succeed, while the source's `run` without `warn` raises on a non-zero exit. For example, `Systemd.InstallServices` without a "web" process runs `systemctl enable --now {app}.socket` on a unit file that was never written: the source stops there, and the model marks the socket enabled and running and goes on. The output of `ls` and `list-units` is read off the host state and not parsed.
- dotenv gives None for a line without `=`, and `resolve_secrets` then fails on `value.startswith`. The model's `parse` gives strings only, so that AttributeError is not modelled.
- A secret reader that raises inside its greenlet leaves the value None, and the source then writes `KEY="None"`. The model's `read` always answers.
- Deploy.PlaceRelease, Common.BaseName and Nginx.ConfigFile build paths by string concatenation. The source uses `pathlib`, which normalises: a directory with a trailing slash or a `.` component gives a different string in the model.
- The history file is assumed well formed: a version line holds no newline, and the stripped `head` line is the first entry.
- `caddy.setup` at the end of a deploy lives in `src/fujin/caddy.py`, which is not part of this model. That `setup` calls `config.render_caddyfile()` (src/fujin/caddy.py:73), which the shown `Config` lacks. So in the source a deploy with `webserver.enabled` (the default) raises AttributeError after the restart and before the prune. The model assumes, as `deploy.py` does, that the setup returns, and it sends no call for it.
- App.Exec: the output printing is not modelled, and `cd_project_dir` is taken to be `cd {projects_dir}/{app}`.
- The shown `Config` has no `hosts`, `primary_host`, `services` or `projects_dir`, which `app.py` and `base.py` use. They are parameters of those members.
- `app.py` reads `self.config.app`, a field the shown `Config` lacks: the model reads `app_name` (`appName`) there. `app.py` also imports `HostCommand`, which `base.py` does not define: the model takes `BaseCommand.host` as the host selection.
- The App `logs` command, the Systemd `service_logs` and `reload_configuration`, and the Caddy and Nginx `install`, `uninstall` and Nginx `teardown` are not modelled. They only send fixed commands.
- `CERTBOT_EMAIL` is a parameter, and certbot's rewrite of the site file is an opaque function.
- Rollback is not modelled beyond `install_project(rolling_back=True)`.
- `str.format` in the distfile path knows one field, `{version}`. The escapes `{{` and `}}` give literal braces. Any other field is a KeyError naming the field text, also where Python raises an IndexError (a positional `{}`) or applies a conversion or format spec (`{version!r}`, `{version:>5}`).
- The old systemd templates' `str.format` is an opaque `format` function.
- Init.DeriveAppName: the cwd stem is an input (`Path().resolve()` is not modelled), and `lower()` is ASCII-only.
- Common.Lower: lower-cases ASCII letters only and keeps every other character. Python's `lower()` also maps non-ASCII letters, and can change the length (`"İ".lower()` has two characters).
- App.ServiceCallsRejects: the message's list of options uses Python repr quoting only for names without quotes.
- Init.ProjectOf: the AttributeError text is an approximation of Python's.
- Some tests contradict the code, and the model follows the code in each case:
  - a replicated process with a socket or timer is accepted;
  - the App has no process-name resolution;
  - restarts go one unit per command.
- Config.NewConfig: a negative `versions_to_keep` is not modelled. It is a `nat` option.
- Config.InstanceNamesExact, Config.TimerNameShape and the other exact-name lemmas assume app and process names without "." or "@", because Python's replace-all would otherwise also rewrite those characters inside the names.

## Findings

| source | as written | input that shows it | evidently intended | confidence | as-written member | corrected member |
|---|---|---|---|---|---|---|
| src/fujin/commands/deploy.py:55-69 | prune removes `{app_dir}/v{v}` for every entry after position K, while the history update does not remove an earlier copy of a redeployed version | deploy a, b, a with `versions_to_keep = 2` and `webserver.enabled = false`: `.versions` is a, b, a, and prune removes `v{a}`, the release being served | never remove a release still among the first K entries | not executed | Deploy.PruneAsWritten, Deploy.PruneAsWrittenRemovesHead | Deploy.Prune, Deploy.PrunedCorrectedKeepsKept, Deploy.Run |
| src/fujin/commands/app.py:32-43 | with no name, `_service_run` skips validation and runs `systemctl {action} None` | `fujin app start` with no name | "no value means all": act on every service | not executed | App.ServiceCalls, App.NoNameRunsNone | App.IntendedServiceCalls, App.NoNameMeansAll |
