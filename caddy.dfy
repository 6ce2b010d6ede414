/** The Caddy proxy: the JSON document posted to Caddy's admin endpoint for
    the app, the document that empties the app's server again, and the two
    commands that write and load a document. JSON serialisation is a
    parameter. */
module Caddy {
  import opened Common
  import Config

  /** A JSON value built from strings, arrays and objects (keys in order). */
  datatype Json = JStr(s: string) | JArr(items: seq<Json>) | JObj(fields: Dict<string, Json>)

  /** One step into a document: an object key or an array index. */
  datatype Seg = Key(k: string) | Index(i: nat)

  function Child(doc: Json, seg: Seg): Option<Json>
  {
    match seg
    case Key(k) => if doc.JObj? && k in Keys(doc.fields) then Some(Lookup(doc.fields, k)) else None
    case Index(i) => if doc.JArr? && i < |doc.items| then Some(doc.items[i]) else None
  }

  /** The value at a path, if there is one. */
  function At(doc: Json, path: seq<Seg>): Option<Json>
    decreases |path|
  {
    if path == [] then Some(doc)
    else
      var c := Child(doc, path[0]);
      if c.None? then None else At(c.value, path[1..])
  }

  /** Following a path and then another follows their concatenation. */
  lemma {:induction false} AtAppend(doc: Json, p: seq<Seg>, q: seq<Seg>)
    ensures At(doc, p + q) == (if At(doc, p).None? then None else At(At(doc, p).value, q))
    decreases |p|
  {
    if p != [] {
      assert (p + q)[0] == p[0] && (p + q)[1..] == p[1..] + q;
      var c := Child(doc, p[0]);
      if c.Some? {
        AtAppend(c.value, p[1..], q);
        assert At(doc, p + q) == At(c.value, p[1..] + q);
        assert At(doc, p) == At(c.value, p[1..]);
      }
    } else {
      assert p + q == q;
    }
  }

  lemma AtOne(doc: Json, seg: Seg)
    ensures At(doc, [seg]) == Child(doc, seg)
  {
    assert [seg][1..] == [];
  }

  /** `WebProxy`: the fields the documents are built from. */
  datatype WebProxy = WebProxy(domainName: string, appName: string, upstream: string)

  /** `WebProxy.create`: the domain comes from the host, the upstream from the
      webserver section, the name from the app. */
  function Create(config: Config.Config, host: Config.HostConfig): (p: WebProxy)
    ensures p.domainName == host.domainName && p.appName == config.appName
    ensures p.upstream == config.webserver.upstream
  {
    WebProxy(host.domainName, config.appName, config.webserver.upstream)
  }

  function Obj1(k: string, v: Json): Json
  {
    JObj([(k, v)])
  }

  function Obj2(a: string, va: Json, b: string, vb: Json): Json
  {
    JObj([(a, va), (b, vb)])
  }

  lemma Obj1Child(k: string, v: Json, j: string)
    ensures Child(Obj1(k, v), Key(j)) == if j == k then Some(v) else None
  {
    assert Keys([(k, v)]) == [k];
  }

  lemma Obj2Child(a: string, va: Json, b: string, vb: Json)
    requires a != b
    ensures Child(Obj2(a, va, b, vb), Key(a)) == Some(va)
    ensures Child(Obj2(a, va, b, vb), Key(b)) == Some(vb)
  {
    var d := [(a, va), (b, vb)];
    assert Keys(d) == [a, b];
    assert d[1..] == [(b, vb)];
    assert Keys(d[1..]) == [b];
    assert Lookup(d, b) == Lookup(d[1..], b);
  }

  /** A path of three steps, one step at a time. */
  lemma AtThree(doc: Json, s1: Seg, s2: Seg, s3: Seg)
    ensures At(doc, [s1, s2, s3])
         == (var c1 := Child(doc, s1);
             if c1.None? then None
             else var c2 := Child(c1.value, s2);
               if c2.None? then None else Child(c2.value, s3))
  {
    assert [s1, s2, s3][1..] == [s2, s3];
    assert [s2, s3][1..] == [s3];
    if Child(doc, s1).Some? && Child(Child(doc, s1).value, s2).Some? {
      AtOne(Child(Child(doc, s1).value, s2).value, s3);
    }
  }

  lemma AtTwo(doc: Json, s1: Seg, s2: Seg)
    ensures At(doc, [s1, s2])
         == (var c1 := Child(doc, s1); if c1.None? then None else Child(c1.value, s2))
  {
    assert [s1, s2][1..] == [s2];
    if Child(doc, s1).Some? {
      AtOne(Child(doc, s1).value, s2);
    }
  }

  /** The document root: `{"apps": {"http": {"servers": servers}}}`. */
  function Root(servers: Json): Json
  {
    Obj1("apps", Obj1("http", Obj1("servers", servers)))
  }

  /** The reverse proxy handler with its single upstream. */
  function Handler(p: WebProxy): Json
  {
    Obj2("handler", JStr("reverse_proxy"), "upstreams", JArr([Obj1("dial", JStr(p.upstream))]))
  }

  /** The route: match the domain, proxy to the upstream. */
  function Route(p: WebProxy): Json
  {
    Obj2("match", JArr([Obj1("host", JArr([JStr(p.domainName)]))]), "handle", JArr([Handler(p)]))
  }

  /** The app's server. */
  function Server(p: WebProxy): Json
  {
    Obj2("listen", JArr([JStr(":443")]), "routes", JArr([Route(p)]))
  }

  /** `_generate_config`. */
  function GenerateConfig(p: WebProxy): (doc: Json)
    ensures At(doc, ServersPath) == Some(Obj1(p.appName, Server(p)))
  {
    RootServers(Obj1(p.appName, Server(p)));
    Root(Obj1(p.appName, Server(p)))
  }

  /** The document `teardown` loads. */
  function TeardownConfig(p: WebProxy): (doc: Json)
    ensures At(doc, ServersPath) == Some(Obj1(p.appName, JObj([])))
  {
    RootServers(Obj1(p.appName, JObj([])));
    Root(Obj1(p.appName, JObj([])))
  }

  const ServersPath: seq<Seg> := [Key("apps"), Key("http"), Key("servers")]

  lemma RootServers(servers: Json)
    ensures At(Root(servers), ServersPath) == Some(servers)
  {
    AtThree(Root(servers), Key("apps"), Key("http"), Key("servers"));
    Obj1Child("apps", Obj1("http", Obj1("servers", servers)), "apps");
    Obj1Child("http", Obj1("servers", servers), "http");
    Obj1Child("servers", servers, "servers");
  }

  /** The value at `apps.http.servers.{app}` followed by `rest`. */
  lemma AtServer(servers: Json, app: string, rest: seq<Seg>)
    requires Child(servers, Key(app)).Some?
    ensures At(Root(servers), ServersPath + [Key(app)] + rest) == At(Child(servers, Key(app)).value, rest)
  {
    RootServers(servers);
    AtAppend(Root(servers), ServersPath + [Key(app)], rest);
    AtAppend(Root(servers), ServersPath, [Key(app)]);
    AtOne(servers, Key(app));
  }

  /** Both documents hold one server, keyed by the app name, under
      `apps.http.servers`. */
  lemma OneServer(p: WebProxy)
    ensures var g := At(GenerateConfig(p), ServersPath);
      g.Some? && g.value.JObj? && Keys(g.value.fields) == [p.appName]
    ensures var t := At(TeardownConfig(p), ServersPath);
      t.Some? && t.value.JObj? && Keys(t.value.fields) == [p.appName]
  {
    RootServers(Obj1(p.appName, Server(p)));
    RootServers(Obj1(p.appName, JObj([])));
  }

  /** The server listens on :443 only, and has the one route. */
  lemma ServerShape(p: WebProxy)
    ensures At(GenerateConfig(p), ServersPath + [Key(p.appName)] + [Key("listen")]) == Some(JArr([JStr(":443")]))
    ensures At(GenerateConfig(p), ServersPath + [Key(p.appName)] + [Key("routes")]) == Some(JArr([Route(p)]))
  {
    Obj1Child(p.appName, Server(p), p.appName);
    AtServer(Obj1(p.appName, Server(p)), p.appName, [Key("listen")]);
    AtServer(Obj1(p.appName, Server(p)), p.appName, [Key("routes")]);
    Obj2Child("listen", JArr([JStr(":443")]), "routes", JArr([Route(p)]));
    AtOne(Server(p), Key("listen"));
    AtOne(Server(p), Key("routes"));
  }

  /** The route matches exactly the domain and hands every request to the
      reverse proxy. */
  lemma RouteShape(p: WebProxy)
    ensures At(Route(p), [Key("match"), Index(0), Key("host")]) == Some(JArr([JStr(p.domainName)]))
    ensures At(Route(p), [Key("handle")]) == Some(JArr([Handler(p)]))
  {
    var m := JArr([Obj1("host", JArr([JStr(p.domainName)]))]);
    Obj2Child("match", m, "handle", JArr([Handler(p)]));
    AtThree(Route(p), Key("match"), Index(0), Key("host"));
    Obj1Child("host", JArr([JStr(p.domainName)]), "host");
    AtOne(Route(p), Key("handle"));
  }

  /** The handler is a reverse proxy with a single upstream dialled at the
      configured address. */
  lemma HandlerShape(p: WebProxy)
    ensures At(Handler(p), [Key("handler")]) == Some(JStr("reverse_proxy"))
    ensures At(Handler(p), [Key("upstreams"), Index(0), Key("dial")]) == Some(JStr(p.upstream))
    ensures At(Handler(p), [Key("upstreams"), Index(1)]).None?
  {
    var u := JArr([Obj1("dial", JStr(p.upstream))]);
    Obj2Child("handler", JStr("reverse_proxy"), "upstreams", u);
    AtOne(Handler(p), Key("handler"));
    AtThree(Handler(p), Key("upstreams"), Index(0), Key("dial"));
    AtTwo(Handler(p), Key("upstreams"), Index(1));
    Obj1Child("dial", JStr(p.upstream), "dial");
  }

  /** Teardown empties this app's server and nothing else: the same single
      key, now with no listener and no route. */
  lemma TeardownEmptiesServer(p: WebProxy)
    ensures At(TeardownConfig(p), ServersPath + [Key(p.appName)] + []) == Some(JObj([]))
    ensures At(TeardownConfig(p), ServersPath + [Key(p.appName)] + [Key("routes")]).None?
    ensures At(TeardownConfig(p), ServersPath + [Key(p.appName)] + [Key("listen")]).None?
  {
    var servers := Obj1(p.appName, JObj([]));
    Obj1Child(p.appName, JObj([]), p.appName);
    AtServer(servers, p.appName, []);
    AtServer(servers, p.appName, [Key("routes")]);
    AtServer(servers, p.appName, [Key("listen")]);
    AtOne(JObj([]), Key("routes"));
    AtOne(JObj([]), Key("listen"));
  }

  /** The document built from a config routes the host's domain to the
      webserver's upstream, under the app's name. */
  lemma CreateRoutesDomain(config: Config.Config, host: Config.HostConfig)
    ensures var p := Create(config, host);
      At(GenerateConfig(p), ServersPath + [Key(config.appName)] + [Key("routes")]) == Some(JArr([Route(p)]))
      && At(Route(p), [Key("match"), Index(0), Key("host")]) == Some(JArr([JStr(host.domainName)]))
      && At(Handler(p), [Key("upstreams"), Index(0), Key("dial")]) == Some(JStr(config.webserver.upstream))
  {
    var p := Create(config, host);
    ServerShape(p);
    RouteShape(p);
    HandlerShape(p);
  }

  /** Loading `caddy.json` into the running Caddy. */
  const LoadCommand: string := "curl localhost:2019/load -H 'Content-Type: application/json' -d @caddy.json"

  function WriteDocument(text: string): Call
  {
    Call.Run("echo '" + text + "' > caddy.json", false)
  }

  /** `setup`: write the generated document, then load it. */
  function Setup(p: WebProxy, dumps: Json -> string): (calls: seq<Call>)
    ensures |calls| == 2 && calls[1] == Call.Run(LoadCommand, false)
    ensures calls[0].Run? && StartsWith(calls[0].command, "echo '" + dumps(GenerateConfig(p)))
    ensures EndsWith(calls[0].command, "' > caddy.json")
  {
    [WriteDocument(dumps(GenerateConfig(p))), Call.Run(LoadCommand, false)]
  }

  /** `teardown`: write the emptied document, then load it. */
  function Teardown(p: WebProxy, dumps: Json -> string): (calls: seq<Call>)
    ensures |calls| == 2 && calls[1] == Call.Run(LoadCommand, false)
    ensures calls[0].Run? && StartsWith(calls[0].command, "echo '" + dumps(TeardownConfig(p)))
    ensures EndsWith(calls[0].command, "' > caddy.json")
  {
    [WriteDocument(dumps(TeardownConfig(p))), Call.Run(LoadCommand, false)]
  }

  /** Setup and teardown send the same load command; they differ only in the
      document written, and the two documents differ. */
  lemma SetupTeardownDiffer(p: WebProxy, dumps: Json -> string)
    ensures Setup(p, dumps)[1] == Teardown(p, dumps)[1]
    ensures GenerateConfig(p) != TeardownConfig(p)
  {
    var g := Obj1(p.appName, Server(p));
    var t := Obj1(p.appName, JObj([]));
    assert g.fields[0].1 != t.fields[0].1;
  }
}
