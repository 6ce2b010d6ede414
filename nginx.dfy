/** The Nginx proxy: the server block generated for the app, the choice
    between a locally kept configuration and the generated one, the remote
    paths it is installed at, and the export of the generated block. Local
    files are a map from path to content; certbot's rewriting of the
    installed configuration is a parameter. */
module Nginx {
  import opened Common
  import Config

  /** `WebProxy`'s fields (the connection aside). */
  datatype WebProxy = WebProxy(domainName: string, appName: string, upstream: string, localConfigDir: string)

  /** `WebProxy.create`: every field comes from the configuration. */
  function Create(config: Config.Config): (p: WebProxy)
    ensures p.domainName == config.host.domainName && p.appName == config.appName
    ensures p.upstream == config.webserver.upstream && p.localConfigDir == config.localConfigDir
  {
    WebProxy(config.host.domainName, config.appName, config.webserver.upstream, config.localConfigDir)
  }

  /** `config_file`: `{local_config_dir}/{app}.conf`. */
  function ConfigFile(p: WebProxy): (f: string)
    ensures StartsWith(f, p.localConfigDir + "/")
    ensures EndsWith(f, "/" + p.appName + ".conf")
  {
    p.localConfigDir + "/" + p.appName + ".conf"
  }

  function SitesAvailable(p: WebProxy): string
  {
    "/etc/nginx/sites-available/" + p.appName + ".conf"
  }

  function SitesEnabled(p: WebProxy): string
  {
    "/etc/nginx/sites-enabled/" + p.appName + ".conf"
  }

  /** The lines of the generated server block; the text opens with the
      literal line "None" and ends with an empty line. */
  function ConfigLines(p: WebProxy): seq<string>
  {
    ["None",
     "server {",
     "   listen 80;",
     "   server_name " + p.domainName + ";",
     "",
     "   location / {",
     "      proxy_pass " + p.upstream + ";",
     "      proxy_set_header Host $host;",
     "      proxy_set_header X-Real-IP $remote_addr;",
     "      proxy_set_header X-Forwarded-For $proxy_add_x_forwarded_for;",
     "      proxy_set_header X-Forwarded-Proto $scheme;",
     "   }",
     "}",
     "",
     ""]
  }

  /** `_get_config`: the generated block opens with the "None" line, listens
      on port 80, answers for the domain and proxies to the upstream. */
  function GetConfig(p: WebProxy): (text: string)
    ensures StartsWith(text, "None\n")
    ensures Contains(text, "   listen 80;")
    ensures Contains(text, "   server_name " + p.domainName + ";")
    ensures Contains(text, "      proxy_pass " + p.upstream + ";")
    ensures EndsWith(text, "}\n\n")
  {
    var lines := ConfigLines(p);
    JoinContains(lines, "\n", 2);
    JoinContains(lines, "\n", 3);
    JoinContains(lines, "\n", 6);
    assert Join(lines, "\n") == "None" + "\n" + Join(lines[1..], "\n");
    GetConfigEnd(p);
    Join(lines, "\n")
  }

  lemma GetConfigEnd(p: WebProxy)
    ensures EndsWith(Join(ConfigLines(p), "\n"), "}\n\n")
  {
    var lines := ConfigLines(p);
    var init := lines[..12];
    assert lines == init + ["}"] + [""] + [""];
    JoinSnoc(init, "}", "\n");
    JoinSnoc(init + ["}"], "", "\n");
    JoinSnoc(init + ["}"] + [""], "", "\n");
    var j := Join(init, "\n");
    assert Join(lines, "\n") == j + "\n}\n\n";
  }

  /** The configuration setup installs: the local copy when it exists,
      otherwise the generated block. */
  function ChosenConfig(p: WebProxy, local: map<string, string>): (conf: string)
    ensures ConfigFile(p) in local ==> conf == local[ConfigFile(p)]
    ensures ConfigFile(p) !in local ==> conf == GetConfig(p)
  {
    if ConfigFile(p) in local then local[ConfigFile(p)] else GetConfig(p)
  }

  /** The host's nginx configuration directories: file contents under
      sites-available and symlinks (name to target) under sites-enabled. */
  datatype NginxHost = NginxHost(available: map<string, string>, enabled: map<string, string>)

  /** `setup`: install the chosen configuration and link it, restart nginx,
      run certbot (which rewrites the installed file, as `certbot` says),
      fetch the rewritten file into the local copy, and turn on certificate
      renewal. `email` is the CERTBOT_EMAIL environment variable. */
  method Setup(p: WebProxy, h: NginxHost, local: map<string, string>, email: Option<string>, certbot: string -> string)
    returns (h': NginxHost, local': map<string, string>, calls: seq<Call>)
    ensures var conf := ChosenConfig(p, local);
      h' == NginxHost(h.available[SitesAvailable(p) := certbot(conf)], h.enabled[SitesEnabled(p) := SitesAvailable(p)])
      && local' == local[ConfigFile(p) := certbot(conf)]
    ensures |calls| == 7
    ensures calls[0] == Call.Run("sudo echo '" + ChosenConfig(p, local) + "' | sudo tee " + SitesAvailable(p), true)
    ensures calls[1] == Call.Run("sudo ln -sf " + SitesAvailable(p) + " " + SitesEnabled(p), true)
    ensures calls[2] == Call.Run("sudo systemctl restart nginx", true)
    ensures calls[3] == Call.Run("certbot --nginx -d " + p.domainName + " --non-interactive --agree-tos --email "
                                 + Show(email) + " --redirect", false)
    ensures calls[4] == Call.Download(SitesAvailable(p), ConfigFile(p))
    ensures calls[5..] == [Call.Run("sudo systemctl enable certbot.timer", true), Call.Run("sudo systemctl start certbot.timer", true)]
  {
    var conf;
    if ConfigFile(p) in local {
      conf := local[ConfigFile(p)];
    } else {
      conf := GetConfig(p);
    }
    var available := SitesAvailable(p);
    calls := [Call.Run("sudo echo '" + conf + "' | sudo tee " + available, true)];
    h' := h.(available := h.available[available := conf]);
    calls := calls + [Call.Run("sudo ln -sf " + available + " " + SitesEnabled(p), true)];
    h' := h'.(enabled := h'.enabled[SitesEnabled(p) := available]);
    calls := calls + [Call.Run("sudo systemctl restart nginx", true)];
    calls := calls + [Call.Run("certbot --nginx -d " + p.domainName + " --non-interactive --agree-tos --email "
                               + Show(email) + " --redirect", false)];
    h' := h'.(available := h'.available[available := certbot(conf)]);
    calls := calls + [Call.Download(available, ConfigFile(p))];
    local' := local[ConfigFile(p) := h'.available[available]];
    calls := calls + [Call.Run("sudo systemctl enable certbot.timer", true), Call.Run("sudo systemctl start certbot.timer", true)];
  }

  /** The link setup makes resolves to the installed configuration. */
  lemma SetupLinkResolves(p: WebProxy, h: NginxHost, local: map<string, string>, certbot: string -> string)
    ensures var conf := ChosenConfig(p, local);
      var h' := NginxHost(h.available[SitesAvailable(p) := certbot(conf)], h.enabled[SitesEnabled(p) := SitesAvailable(p)]);
      SitesEnabled(p) in h'.enabled && h'.enabled[SitesEnabled(p)] in h'.available
      && h'.available[h'.enabled[SitesEnabled(p)]] == certbot(conf)
  {
  }

  /** `export_config`: the local copy becomes the generated block. */
  function ExportConfig(p: WebProxy, local: map<string, string>): (local': map<string, string>)
    ensures ConfigFile(p) in local' && local'[ConfigFile(p)] == GetConfig(p)
    ensures forall f :: f in local && f != ConfigFile(p) ==> f in local' && local'[f] == local[f]
  {
    local[ConfigFile(p) := GetConfig(p)]
  }

  /** After an export, setup installs the generated block, whatever the
      local copy held before. */
  lemma ExportThenSetup(p: WebProxy, local: map<string, string>)
    ensures ChosenConfig(p, ExportConfig(p, local)) == GetConfig(p)
  {
  }
}
