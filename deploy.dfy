/** The deploy command as transitions on an abstract host: the `.versions`
    history, the directories and files under the apps dir, the unit files in
    /etc/systemd/system, the enabled and loaded units, and the calls made on
    the connection. Remote commands succeed unless the source inspects their
    outcome (`head`, `md5sum`, `ls`, `systemctl list-units`). */
module Deploy {
  import opened Common
  import opened Config
  import Secrets

  const UnitDir := "/etc/systemd/system/"

  /** An MD5 hex digest: never empty. */
  type Digest = s: string | s != "" witness "0"

  /** `head -n 1 .versions`, stripped: the first line, or "" without one. */
  function Head(versions: seq<string>): string
  {
    if versions == [] then "" else Strip(versions[0])
  }

  /** `path` is `dir` or lies below it. */
  predicate Under(path: string, dir: string)
  {
    path == dir || StartsWith(path, dir + "/")
  }

  predicate UnderAny(path: string, roots: set<string>)
  {
    exists r :: r in roots && Under(path, r)
  }

  /** The unit files whose name starts with the app name: what
      `ls /etc/systemd/system/{app}*` lists. */
  function AppFiles(units: map<string, string>, app: string): set<string>
  {
    set f | f in units && StartsWith(f, app)
  }

  /** systemctl's unit-name globbing with `*` (other glob characters are not
      modelled). */
  predicate GlobMatch(pattern: string, name: string)
    decreases |pattern| + |name|
  {
    if pattern == [] then name == []
    else if pattern[0] == '*' then GlobMatch(pattern[1..], name) || (name != [] && GlobMatch(pattern, name[1..]))
    else name != [] && name[0] == pattern[0] && GlobMatch(pattern[1..], name[1..])
  }

  /** A pattern without `*` matches only itself. */
  lemma {:induction false} GlobLiteral(pattern: string, name: string)
    requires '*' !in pattern
    ensures GlobMatch(pattern, name) <==> name == pattern
  {
    if pattern != [] {
      assert pattern[0] in pattern;
      assert '*' !in pattern[1..] by {
        assert forall ch :: ch in pattern[1..] ==> ch in pattern;
      }
      if name != [] {
        GlobLiteral(pattern[1..], name[1..]);
        if name[0] == pattern[0] && name[1..] == pattern[1..] {
          assert name == [name[0]] + name[1..];
          assert pattern == [pattern[0]] + pattern[1..];
        }
      }
    }
  }

  /** The `systemctl disable` target for a stale unit file: a template's
      instances are reached by glob. */
  function DisableTarget(filename: string): string
  {
    if Contains(filename, "@.service") then ReplaceAll(filename, "@.service", "@*.service") else filename
  }

  /** The target of a template unit `stem@.service` is `stem@*.service`. */
  lemma DisableTargetTemplate(stem: string)
    requires '@' !in stem
    ensures DisableTarget(stem + "@.service") == stem + "@*.service"
  {
    ReplaceAllSuffix(stem, "@.service", "@*.service");
    var f := stem + "@.service";
    ContainsAt(f, "@.service", |stem|);
  }

  // ---------------------------------------------------------------------
  // The version history

  /** The history after `install_project` records `version`. */
  function NewHistory(versions: seq<string>, version: string): seq<string>
  {
    var head := Head(versions);
    if head == version then versions
    else if head == "" then [version]
    else [version] + versions
  }

  function HistoryCommands(versions: seq<string>, version: string): seq<Call>
  {
    var head := Head(versions);
    [Call.Run("head -n 1 .versions", false)]
    + (if head == version then []
       else if head == "" then [Call.Run("echo '" + version + "' > .versions", false)]
       else [Call.Run("sed -i '1i " + version + "' .versions", false)])
  }

  /** A version without surrounding whitespace reads back as itself. */
  predicate CleanVersion(v: string)
  {
    Strip(v) == v
  }

  lemma StripClean(v: string)
    requires v == [] || (!IsSpace(v[0]) && !IsSpace(v[|v| - 1]))
    ensures CleanVersion(v)
  {
    if v != [] {
      assert TrimLeft(v) == v;
    }
  }

  /** `head -n 1` of an empty history is "", and the first entry, when it
      is clean, is read back as written. */
  lemma HeadShape(versions: seq<string>)
    ensures versions == [] ==> Head(versions) == ""
    ensures versions != [] && CleanVersion(versions[0]) ==> Head(versions) == versions[0]
  {
  }

  /** After recording a clean version, it is the head of the history. */
  lemma HistoryHead(versions: seq<string>, version: string)
    requires CleanVersion(version)
    ensures Head(NewHistory(versions, version)) == version
  {
  }

  /** When the history's first line is clean, a recorded non-empty clean
      version ends up as that first line. */
  lemma HistoryFront(versions: seq<string>, version: string)
    requires CleanVersion(version) && version != ""
    requires versions == [] || CleanVersion(versions[0])
    ensures NewHistory(versions, version) != [] && NewHistory(versions, version)[0] == version
  {
  }

  /** Recording the same version twice changes nothing the second time. */
  lemma HistoryIdempotent(versions: seq<string>, version: string)
    requires CleanVersion(version)
    ensures NewHistory(NewHistory(versions, version), version) == NewHistory(versions, version)
  {
    HistoryHead(versions, version);
  }

  /** The history only ever grows at the front: the previous history is its
      tail (duplicates included) unless it had no head to keep. */
  lemma HistoryPrepends(versions: seq<string>, version: string)
    requires CleanVersion(version)
    ensures var h := NewHistory(versions, version);
      h != [] ==> h[0] == version || Head(versions) == version
    ensures var h := NewHistory(versions, version);
      Head(versions) != "" ==> h == versions || h[1..] == versions
  {
  }

  // ---------------------------------------------------------------------
  // Pruning

  /** `f"{app_dir}/v{v}"`: a release directory as prune names it. */
  function PruneDir(c: Config, v: string): string
  {
    AppDir(c) + "/v" + v
  }

  /** The directory prune removes for the configured version is its release dir. */
  lemma PruneDirOfRelease(c: Config)
    requires c.version != ""
    ensures PruneDir(c, c.version) == ReleaseDir(c, Some(c.version))
  {
  }

  function PruneDirs(c: Config, vs: seq<string>): seq<string>
  {
    seq(|vs|, i requires 0 <= i < |vs| => PruneDir(c, vs[i]))
  }

  /** What prune removes, as written: the release dir of every history entry
      after the first `k`. */
  function PrunedAsWritten(c: Config, versions: seq<string>, k: nat): seq<string>
  {
    if |versions| <= k then [] else PruneDirs(c, versions[k..])
  }

  /** What prune removes once corrected: the entries after the first `k`
      whose version is not also among the first `k`. */
  function PrunedCorrected(c: Config, versions: seq<string>, k: nat): seq<string>
  {
    if |versions| <= k then [] else PruneDirs(c, KeepOut(versions[k..], versions[..k]))
  }

  /** The entries of `vs` that are not in `kept`, in order. */
  function KeepOut(vs: seq<string>, kept: seq<string>): (r: seq<string>)
    ensures forall v :: v in r <==> v in vs && v !in kept
  {
    if vs == [] then []
    else KeepOut(vs[..|vs| - 1], kept) + (if vs[|vs| - 1] in kept then [] else [vs[|vs| - 1]])
  }

  function Truncate(versions: seq<string>, k: nat): seq<string>
  {
    if |versions| <= k then versions else versions[..k]
  }

  function PruneCommands(versions: seq<string>, k: nat, removed: seq<string>): seq<Call>
  {
    [Call.Run("sed -n '" + NatToString(k + 1) + ",$p' .versions", false)]
    + (if |versions| <= k then []
       else (if removed == [] then [] else [Call.Run("rm -r " + Join(removed, " "), false)])
            + [Call.Run("sed -i '" + NatToString(k + 1) + ",$d' .versions", false)])
  }

  /** The prune pass keeps the first `k` history entries, and only those. */
  lemma PruneBounds(versions: seq<string>, k: nat)
    ensures |Truncate(versions, k)| <= k || Truncate(versions, k) == versions
    ensures Truncate(versions, k) == versions[..if |versions| <= k then |versions| else k]
    ensures |versions| <= k ==> Truncate(versions, k) == versions
  {
  }

  /** As written, prune removes the release dir of exactly the entries after
      position `k`, and nothing with at most `k` entries. */
  lemma PrunedAsWrittenExact(c: Config, versions: seq<string>, k: nat, d: string)
    ensures d in PrunedAsWritten(c, versions, k) <==> exists i :: k <= i < |versions| && d == PruneDir(c, versions[i])
    ensures |versions| <= k ==> PrunedAsWritten(c, versions, k) == []
  {
    if |versions| > k {
      if d in PrunedAsWritten(c, versions, k) {
        var j :| 0 <= j < |versions| - k && PrunedAsWritten(c, versions, k)[j] == d;
        assert versions[k..][j] == versions[k + j];
      }
      if i :| k <= i < |versions| && d == PruneDir(c, versions[i]) {
        assert PrunedAsWritten(c, versions, k)[i - k] == d;
      }
    }
  }

  /** `PruneDir` tells versions apart. */
  lemma PruneDirInjective(c: Config, v: string, w: string)
    ensures PruneDir(c, v) == PruneDir(c, w) <==> v == w
  {
    var p := AppDir(c) + "/v";
    if p + v == p + w {
      assert v == (p + v)[|p|..];
      assert w == (p + w)[|p|..];
    }
  }

  /** The history `[a, b, a]` -- deploy `a`, then `b`, then `a` again -- kept
      to two entries: as written, prune removes the release dir of `a`, which
      is the head of the history and the release being served. */
  lemma PruneAsWrittenRemovesHead(c: Config, a: string, b: string)
    requires a != b && a != "" && CleanVersion(a) && CleanVersion(b) && b != ""
    ensures var h := NewHistory(NewHistory(NewHistory([], a), b), a);
      && h == [a, b, a]
      && Head(h) == a
      && PruneDir(c, a) in PrunedAsWritten(c, h, 2)
  {
    var h := NewHistory(NewHistory(NewHistory([], a), b), a);
    assert NewHistory([], a) == [a];
    assert NewHistory([a], b) == [b, a];
    assert NewHistory([b, a], a) == [a, b, a];
    assert PrunedAsWritten(c, h, 2) == PruneDirs(c, [a]);
    assert PruneDirs(c, [a])[0] == PruneDir(c, a);
  }

  /** Corrected prune never removes the release dir of a version it keeps in
      the history, and removes that of every version it drops. */
  lemma PrunedCorrectedKeepsKept(c: Config, versions: seq<string>, k: nat, v: string)
    ensures v in Truncate(versions, k) ==> PruneDir(c, v) !in PrunedCorrected(c, versions, k)
    ensures v in versions && v !in Truncate(versions, k) ==> PruneDir(c, v) in PrunedCorrected(c, versions, k)
  {
    if |versions| > k {
      var rest := KeepOut(versions[k..], versions[..k]);
      if PruneDir(c, v) in PrunedCorrected(c, versions, k) {
        var j :| 0 <= j < |rest| && PruneDirs(c, rest)[j] == PruneDir(c, v);
        PruneDirInjective(c, rest[j], v);
      }
      if v in versions && v !in versions[..k] {
        var i :| 0 <= i < |versions| && versions[i] == v;
        assert forall m :: 0 <= m < k ==> versions[..k][m] == versions[m];
        assert versions[k..][i - k] == v;
        assert v in rest;
        var j :| 0 <= j < |rest| && rest[j] == v;
        assert PruneDirs(c, rest)[j] == PruneDir(c, v);
      }
    }
  }

  /** No removed root is the release dir of a kept version whose name has no
      slash, nor an ancestor of it. */
  lemma PrunedCorrectedSparesKeptTree(c: Config, versions: seq<string>, k: nat, v: string, root: string)
    requires v in Truncate(versions, k) && '/' !in v
    requires root in PrunedCorrected(c, versions, k)
    ensures !Under(PruneDir(c, v), root)
  {
    PrunedCorrectedKeepsKept(c, versions, k, v);
    var rest := KeepOut(versions[k..], versions[..k]);
    var j :| 0 <= j < |rest| && PruneDirs(c, rest)[j] == root;
    var w := rest[j];
    var p := AppDir(c) + "/v";
    assert root == p + w;
    SlashBelow(p, v, w);
  }

  /** `p + v` lies strictly below `p + w` only when `v` has a slash. */
  lemma SlashBelow(p: string, v: string, w: string)
    ensures StartsWith(p + v, p + w + "/") ==> '/' in v
  {
    if StartsWith(p + v, p + w + "/") {
      assert (p + v)[|p| + |w|] == (p + w + "/")[|p| + |w|] == '/';
      assert v[|w|] == '/';
    }
  }

  // ---------------------------------------------------------------------
  // The host

  /** What a deploy reads and changes on the host. */
  datatype Host = Host(
    /** `.versions` in the app dir, newest first. */
    versions: seq<string>,
    /** Directories, by absolute path. */
    dirs: set<string>,
    /** Regular files, by absolute path. */
    files: map<string, string>,
    /** Symbolic links, by absolute path, to their target. */
    links: map<string, string>,
    /** The unit files in /etc/systemd/system, by file name. */
    units: map<string, string>,
    enabled: set<string>,
    /** The units `systemctl list-units --all` shows. */
    loaded: set<string>)

  /** `rm -r` of each root: the roots and everything below them go. */
  function RemoveTrees(h: Host, roots: set<string>): Host
  {
    h.(dirs := (set d | d in h.dirs && !UnderAny(d, roots)),
       files := (map p | p in h.files && !UnderAny(p, roots) :: h.files[p]),
       links := (map p | p in h.links && !UnderAny(p, roots) :: h.links[p]))
  }

  lemma RemoveNothing(h: Host)
    ensures RemoveTrees(h, {}) == h
  {
    assert RemoveTrees(h, {}).dirs == h.dirs;
    assert RemoveTrees(h, {}).files == h.files;
    assert RemoveTrees(h, {}).links == h.links;
  }

  /** A truthy `versions_to_keep`. */
  predicate Keeps(c: Config)
  {
    c.versionsToKeep.Some? && c.versionsToKeep.value != 0
  }

  /** The history update at the end of `install_project`. */
  method UpdateHistory(h: Host, version: string) returns (h': Host, calls: seq<Call>)
    ensures h' == h.(versions := NewHistory(h.versions, version))
    ensures calls == HistoryCommands(h.versions, version)
  {
    calls := [Call.Run("head -n 1 .versions", false)];
    h' := h;
    var result := Head(h.versions);
    if result == version {
      return;
    }
    if result == "" {
      calls := calls + [Call.Run("echo '" + version + "' > .versions", false)];
      h' := h.(versions := [version]);
    } else {
      calls := calls + [Call.Run("sed -i '1i " + version + "' .versions", false)];
      h' := h.(versions := [version] + h.versions);
    }
  }

  /** The prune pass of `Deploy.__call__` as written: with a truthy
      `versions_to_keep` K, the release dir of every history entry after
      the first K is removed and the history is cut to K entries. The sed
      output is taken to split back into exactly those entries. */
  method PruneAsWritten(h: Host, c: Config) returns (h': Host, calls: seq<Call>)
    ensures !Keeps(c) ==> h' == h && calls == []
    ensures Keeps(c) ==>
      var k := c.versionsToKeep.value;
      var removed := PrunedAsWritten(c, h.versions, k);
      && h' == RemoveTrees(h, set r | r in removed).(versions := Truncate(h.versions, k))
      && calls == PruneCommands(h.versions, k, removed)
  {
    h', calls := h, [];
    if !Keeps(c) {
      return;
    }
    var k := c.versionsToKeep.value;
    calls := [Call.Run("sed -n '" + NatToString(k + 1) + ",$p' .versions", false)];
    if |h.versions| > k {
      var toPrune := PruneDirs(c, h.versions[k..]);
      calls := calls + [Call.Run("rm -r " + Join(toPrune, " "), false)];
      h' := RemoveTrees(h, set r | r in toPrune);
      calls := calls + [Call.Run("sed -i '" + NatToString(k + 1) + ",$d' .versions", false)];
      h' := h'.(versions := h.versions[..k]);
    } else {
      RemoveNothing(h);
    }
  }

  /** Prune as intended: a version still in the kept history keeps its
      release dir, even when it also appears further down. */
  method Prune(h: Host, c: Config) returns (h': Host, calls: seq<Call>)
    ensures !Keeps(c) ==> h' == h && calls == []
    ensures Keeps(c) ==>
      var k := c.versionsToKeep.value;
      var removed := PrunedCorrected(c, h.versions, k);
      && h' == RemoveTrees(h, set r | r in removed).(versions := Truncate(h.versions, k))
      && calls == PruneCommands(h.versions, k, removed)
  {
    h', calls := h, [];
    if !Keeps(c) {
      return;
    }
    var k := c.versionsToKeep.value;
    calls := [Call.Run("sed -n '" + NatToString(k + 1) + ",$p' .versions", false)];
    if |h.versions| > k {
      var toPrune := PruneDirs(c, KeepOut(h.versions[k..], h.versions[..k]));
      if toPrune != [] {
        calls := calls + [Call.Run("rm -r " + Join(toPrune, " "), false)];
      }
      h' := RemoveTrees(h, set r | r in toPrune);
      calls := calls + [Call.Run("sed -i '" + NatToString(k + 1) + ",$d' .versions", false)];
      h' := h'.(versions := h.versions[..k]);
    } else {
      RemoveNothing(h);
    }
  }

  /** After a corrected prune, a clean version at the head of the history is
      still at its head and its release dir (no slash in its name) is still
      there. */
  lemma PruneKeepsHead(h: Host, c: Config, v: string)
    requires h.versions != [] && h.versions[0] == v && CleanVersion(v) && '/' !in v
    requires PruneDir(c, v) in h.dirs
    ensures Keeps(c) ==>
      var k := c.versionsToKeep.value;
      var h' := RemoveTrees(h, set r | r in PrunedCorrected(c, h.versions, k)).(versions := Truncate(h.versions, k));
      Head(h'.versions) == v && PruneDir(c, v) in h'.dirs
  {
    if Keeps(c) {
      var k := c.versionsToKeep.value;
      var roots := set r | r in PrunedCorrected(c, h.versions, k);
      assert Truncate(h.versions, k)[0] == v;
      forall r | r in roots
        ensures !Under(PruneDir(c, v), r)
      {
        PrunedCorrectedSparesKeptTree(c, h.versions, k, v, r);
      }
    }
  }

  // ---------------------------------------------------------------------
  // install_services

  /** Writes every unit file, in order. */
  method WriteUnits(h: Host, newUnits: Dict<string, string>) returns (h': Host, calls: seq<Call>)
    ensures h' == h.(units := h.units + ToMap(newUnits))
    ensures calls == WriteCommands(newUnits)
  {
    var units := h.units;
    calls := [];
    var i := 0;
    while i < |newUnits|
      invariant 0 <= i <= |newUnits|
      invariant units == h.units + ToMap(newUnits[..i])
      invariant calls == WriteCommands(newUnits[..i])
    {
      var (filename, content) := newUnits[i];
      WriteStep(h.units, newUnits, i);
      calls := calls + [WriteCommand(filename, content)];
      units := units[filename := content];
      i := i + 1;
    }
    assert newUnits[..i] == newUnits;
    h' := h.(units := units);
  }

  lemma WriteStep(units: map<string, string>, d: Dict<string, string>, i: nat)
    requires i < |d|
    ensures units + ToMap(d[..i + 1]) == (units + ToMap(d[..i]))[d[i].0 := d[i].1]
    ensures WriteCommands(d[..i + 1]) == WriteCommands(d[..i]) + [WriteCommand(d[i].0, d[i].1)]
  {
    assert d[..i + 1][..i] == d[..i];
  }

  /** `daemon-reload`, then `enable --now` for every name, in order. */
  method EnableServices(h: Host, names: seq<string>) returns (h': Host, calls: seq<Call>)
    ensures h' == h.(enabled := h.enabled + (set n | n in names), loaded := h.loaded + (set n | n in names))
    ensures calls == EnableCommands(names)
  {
    h', calls := h, [Call.Run("sudo systemctl daemon-reload", false)];
    var i := 0;
    while i < |names|
      invariant 0 <= i <= |names|
      invariant h' == h.(enabled := h.enabled + (set n | n in names[..i]), loaded := h.loaded + (set n | n in names[..i]))
      invariant calls == [Call.Run("sudo systemctl daemon-reload", false)] + EachCommand("sudo systemctl enable --now ", names[..i], true)
    {
      assert names[..i + 1] == names[..i] + [names[i]];
      calls := calls + [Call.Run("sudo systemctl enable --now " + names[i], true)];
      h' := h'.(enabled := h'.enabled + {names[i]}, loaded := h'.loaded + {names[i]});
      i := i + 1;
    }
    assert names[..i] == names;
  }

  /** The stale-file sweep: every app-prefixed unit file that is not to be
      kept is disabled (a template through its instances' glob) and removed.
      Returns the files removed; the host is a set of files, so the order
      here is arbitrary, not the order `ls` prints. */
  method SweepStaleFiles(h: Host, app: string, keep: set<string>) returns (h': Host, calls: seq<Call>, removed: seq<string>)
    ensures (set f | f in removed) == StaleFiles(h.units, app, keep)
    ensures h' == h.(units := Without(h.units, StaleFiles(h.units, app, keep)),
                     enabled := Survivors(h.enabled, removed),
                     loaded := Survivors(h.loaded, removed))
    ensures calls == SweepFileCommands(app, removed)
  {
    var listing := AppFiles(h.units, app);
    var rest := listing;
    removed := [];
    ghost var gone: set<string> := {};
    var units, enabled, loaded := h.units, h.enabled, h.loaded;
    var sweep: seq<Call> := [];
    assert Without(h.units, {}) == h.units;
    while rest != {}
      invariant rest <= listing
      invariant gone == (listing - rest) - keep
      invariant forall f :: f in removed <==> f in gone
      invariant units == Without(h.units, gone)
      invariant enabled == Survivors(h.enabled, removed)
      invariant loaded == Survivors(h.loaded, removed)
      invariant sweep == SweepCommands(removed)
      decreases rest
    {
      var filename :| filename in rest;
      if filename !in keep {
        var target := DisableTarget(filename);
        SweepCommandsSnoc(removed, filename);
        sweep := sweep + [Call.Run("sudo systemctl disable --now '" + target + "'", false),
                          Call.Run("sudo rm " + UnitDir + filename, false)];
        SurvivorsSnoc(h.enabled, removed, filename);
        SurvivorsSnoc(h.loaded, removed, filename);
        enabled := set x | x in enabled && !GlobMatch(target, x);
        loaded := set x | x in loaded && !GlobMatch(target, x);
        WithoutSnoc(h.units, gone, filename);
        units := Without(units, {filename});
        removed := removed + [filename];
        gone := gone + {filename};
      }
      rest := rest - {filename};
    }
    assert (set f | f in removed) == gone;
    h' := h.(units := units, enabled := enabled, loaded := loaded);
    calls := [Call.Run("ls " + UnitDir + app + "*", false)] + sweep;
  }

  /** The stale-instance sweep: every loaded app-prefixed unit that is not
      in `names` is disabled. Returns those units in an arbitrary order, not
      the order `list-units` prints. */
  method SweepStaleUnits(h: Host, app: string, names: seq<string>) returns (h': Host, calls: seq<Call>, stopped: seq<string>)
    ensures (set u | u in stopped) == StaleUnits(h.loaded, app, names)
    ensures h' == h.(enabled := h.enabled - StaleUnits(h.loaded, app, names),
                     loaded := h.loaded - StaleUnits(h.loaded, app, names))
    ensures calls == SweepUnitCommands(app, stopped)
  {
    var listing := set u | u in h.loaded && StartsWith(u, app);
    var rest := listing;
    stopped := [];
    ghost var gone: set<string> := {};
    var enabled, loaded := h.enabled, h.loaded;
    var sweep: seq<Call> := [];
    while rest != {}
      invariant rest <= listing
      invariant gone == (listing - rest) - (set n | n in names)
      invariant forall u :: u in stopped <==> u in gone
      invariant enabled == h.enabled - gone
      invariant loaded == h.loaded - gone
      invariant sweep == EachCommand("sudo systemctl disable --now ", stopped, false)
      decreases rest
    {
      var unit :| unit in rest;
      if unit !in names {
        assert EachCommand("sudo systemctl disable --now ", stopped + [unit], false)
          == EachCommand("sudo systemctl disable --now ", stopped, false) + [Call.Run("sudo systemctl disable --now " + unit, false)];
        sweep := sweep + [Call.Run("sudo systemctl disable --now " + unit, false)];
        enabled := enabled - {unit};
        loaded := loaded - {unit};
        stopped := stopped + [unit];
        gone := gone + {unit};
      }
      rest := rest - {unit};
    }
    assert (set u | u in stopped) == gone;
    assert gone == StaleUnits(h.loaded, app, names);
    h' := h.(enabled := enabled, loaded := loaded);
    calls := [Call.Run("systemctl list-units --full --all --plain --no-legend '" + app + "*'", false)] + sweep;
  }

  /** The unit files after `install_services` wrote `units0 + new` and swept. */
  function InstalledUnits(units0: map<string, string>, c: Config, templates: set<string>,
                          render: (string, RenderContext) -> string): map<string, string>
  {
    var written := units0 + ToMap(UnitsOf(c, templates, render, |c.processes|));
    Without(written, StaleFiles(written, c.appName, UnitNamesOf(c, |c.processes|)))
  }

  /** `install_services`: write every unit of `get_systemd_units`, enable
      `service_names`, then sweep stale unit files and stale instances. */
  method InstallServices(h: Host, c: Config, templates: set<string>, render: (string, RenderContext) -> string)
    returns (h': Host, calls: seq<Call>, removed: seq<string>, stopped: seq<string>)
    requires WellFormed(c)
    ensures var written := h.units + ToMap(UnitsOf(c, templates, render, |c.processes|));
      (set f | f in removed) == StaleFiles(written, c.appName, UnitNamesOf(c, |c.processes|))
    ensures var names := ServiceNameList(c);
      var l2 := Survivors(h.loaded + (set n | n in names), removed);
      && h' == h.(units := InstalledUnits(h.units, c, templates, render),
                  enabled := Survivors(h.enabled + (set n | n in names), removed) - StaleUnits(l2, c.appName, names),
                  loaded := l2 - StaleUnits(l2, c.appName, names))
      && (set u | u in stopped) == StaleUnits(l2, c.appName, names)
    ensures forall u :: u in h'.loaded && StartsWith(u, c.appName) ==> u in ServiceNameList(c)
    ensures calls == WriteCommands(UnitsOf(c, templates, render, |c.processes|))
      + EnableCommands(ServiceNameList(c)) + SweepFileCommands(c.appName, removed) + SweepUnitCommands(c.appName, stopped)
  {
    var newUnits := GetSystemdUnits(c, templates, render);
    SystemdUnitKeys(c, templates, render);
    var h1, c1 := WriteUnits(h, newUnits);
    var names := ServiceNames(c);
    var h2, c2 := EnableServices(h1, names);
    var h3, c3, rm := SweepStaleFiles(h2, c.appName, KeySet(newUnits));
    var h4, c4, st := SweepStaleUnits(h3, c.appName, names);
    h', calls, removed, stopped := h4, c1 + c2 + c3 + c4, rm, st;
  }

  /** After `install_services`, the app's unit files are exactly the
      `get_systemd_units` keys with their new bodies, and no other unit file
      changed. */
  lemma InstalledUnitFiles(units0: map<string, string>, c: Config, templates: set<string>,
                           render: (string, RenderContext) -> string)
    requires PlainNames(c)
    ensures var after := InstalledUnits(units0, c, templates, render);
      var newBodies := ToMap(UnitsOf(c, templates, render, |c.processes|));
      && AppFiles(after, c.appName) == UnitNamesOf(c, |c.processes|)
      && (forall f :: f in UnitNamesOf(c, |c.processes|) ==> f in newBodies && f in after && after[f] == newBodies[f])
      && (forall f :: !StartsWith(f, c.appName) ==> (f in after <==> f in units0))
      && (forall f :: f in after && !StartsWith(f, c.appName) ==> after[f] == units0[f])
  {
    var after := InstalledUnits(units0, c, templates, render);
    forall f
      ensures f in AppFiles(after, c.appName) <==> f in UnitNamesOf(c, |c.processes|)
      ensures f in UnitNamesOf(c, |c.processes|) ==>
        f in ToMap(UnitsOf(c, templates, render, |c.processes|)) && f in after
        && after[f] == ToMap(UnitsOf(c, templates, render, |c.processes|))[f]
      ensures !StartsWith(f, c.appName) ==> (f in after <==> f in units0)
      ensures f in after && !StartsWith(f, c.appName) ==> after[f] == units0[f]
    {
      InstalledUnitAt(units0, c, templates, render, f);
    }
  }

  /** One file name after `install_services`: a unit of the configuration
      holds its new body, any other app-prefixed file is gone, and a file
      outside the app's prefix is as it was. */
  lemma InstalledUnitAt(units0: map<string, string>, c: Config, templates: set<string>,
                        render: (string, RenderContext) -> string, f: string)
    requires PlainNames(c)
    ensures var after := InstalledUnits(units0, c, templates, render);
      var newBodies := ToMap(UnitsOf(c, templates, render, |c.processes|));
      && (f in newBodies <==> f in UnitNamesOf(c, |c.processes|))
      && (f in UnitNamesOf(c, |c.processes|) ==> f in after && after[f] == newBodies[f])
      && (f in after && StartsWith(f, c.appName) ==> f in UnitNamesOf(c, |c.processes|))
      && (f in UnitNamesOf(c, |c.processes|) ==> StartsWith(f, c.appName))
      && (!StartsWith(f, c.appName) ==> (f in after <==> f in units0))
      && (f in after && !StartsWith(f, c.appName) ==> after[f] == units0[f])
  {
    var us := UnitsOf(c, templates, render, |c.processes|);
    ToMapKeys(us);
    SystemdUnitKeys(c, templates, render);
    if f in UnitNamesOf(c, |c.processes|) {
      UnitNamesStartWithApp(c, f);
    }
  }

  /** Running `install_services` again with the same configuration removes
      no unit file and leaves the unit files as they are. */
  lemma ReinstallUnitsIdempotent(units0: map<string, string>, c: Config, templates: set<string>,
                                 render: (string, RenderContext) -> string)
    requires PlainNames(c)
    ensures var after := InstalledUnits(units0, c, templates, render);
      var written := after + ToMap(UnitsOf(c, templates, render, |c.processes|));
      && StaleFiles(written, c.appName, UnitNamesOf(c, |c.processes|)) == {}
      && InstalledUnits(after, c, templates, render) == after
  {
    var after := InstalledUnits(units0, c, templates, render);
    var newBodies := ToMap(UnitsOf(c, templates, render, |c.processes|));
    var names := UnitNamesOf(c, |c.processes|);
    forall f
      ensures f in after + newBodies <==> f in after
      ensures f in after ==> (after + newBodies)[f] == after[f]
      ensures f in after && StartsWith(f, c.appName) ==> f in names
    {
      InstalledUnitAt(units0, c, templates, render, f);
    }
    assert after + newBodies == after;
    assert StaleFiles(after, c.appName, names) == {};
    assert Without(after, {}) == after;
  }

  /** `restart_services`: one restart per service name, in order. */
  method RestartServices(h: Host, names: seq<string>) returns (h': Host, calls: seq<Call>)
    ensures h' == h.(loaded := h.loaded + (set n | n in names))
    ensures calls == EachCommand("sudo systemctl restart ", names, true)
  {
    h', calls := h, [];
    var i := 0;
    while i < |names|
      invariant 0 <= i <= |names|
      invariant h' == h.(loaded := h.loaded + (set n | n in names[..i]))
      invariant calls == EachCommand("sudo systemctl restart ", names[..i], true)
    {
      assert names[..i + 1] == names[..i] + [names[i]];
      calls := calls + [Call.Run("sudo systemctl restart " + names[i], true)];
      h' := h'.(loaded := h'.loaded + {names[i]});
      i := i + 1;
    }
    assert names[..i] == names;
  }

  // ---------------------------------------------------------------------
  // install_project

  /** The requirements step of `_install_python_package`, after the appenv
      is written: compare digests, then copy or upload. Returns whether the
      venv must be rebuilt. */
  method RequirementsStep(h: Host, c: Config, releaseDir: string, localFiles: map<string, string>, md5: string -> Digest)
    returns (r: Result<bool>, h': Host, calls: seq<Call>)
    ensures r.Err? <==> Truthy(c.requirements) && c.requirements.value !in localFiles
    ensures r.Err? ==> (r.error == FileNotFound(c.requirements.value) && h' == h
      && calls == [Call.Run("head -n 1 .versions", false)])
    ensures r.Ok? ==> (r.value <==> !ReuseVenv(c, h.versions, h.files, localFiles, md5))
    ensures r.Ok? ==> h' == h.(files := RequirementsFiles(c, h.versions, h.files, localFiles, md5, releaseDir))
    ensures r.Ok? ==> calls == RequirementsCommands(c, h.versions, h.files, localFiles, md5, releaseDir)
  {
    h', calls := h, [];
    if !Truthy(c.requirements) {
      return Ok(true), h', calls;
    }
    var localReqsPath := c.requirements.value;
    var currReleaseReqs := releaseDir + "/requirements.txt";
    calls := [Call.Run("head -n 1 .versions", false)];
    var prevVersion := Head(h.versions);
    var prevReleaseReqs := ReleaseDir(c, Some(prevVersion)) + "/requirements.txt";
    if localReqsPath !in localFiles {
      return Err(FileNotFound(localReqsPath)), h', calls;
    }
    var localHash: string := md5(localFiles[localReqsPath]);
    var remoteHash := "";
    if prevVersion != "" {
      calls := calls + [Call.Run("md5sum " + prevReleaseReqs, false)];
      if prevReleaseReqs in h.files {
        remoteHash := md5(h.files[prevReleaseReqs]);
      }
    }
    assert prevReleaseReqs == PrevReqs(c, h.versions);
    assert localHash == remoteHash <==> ReuseVenv(c, h.versions, h.files, localFiles, md5);
    if localHash == remoteHash {
      if prevReleaseReqs != currReleaseReqs {
        calls := calls + [Call.Run("cp " + prevReleaseReqs + " " + currReleaseReqs, false)];
      }
      h' := h.(files := h.files[currReleaseReqs := h.files[prevReleaseReqs]]);
      r := Ok(false);
    } else {
      calls := calls + [Call.Upload(localReqsPath, currReleaseReqs)];
      h' := h.(files := h.files[currReleaseReqs := localFiles[localReqsPath]]);
      r := Ok(true);
    }
  }

  /** With requirements configured, the release's requirements file ends up
      with the local file's digest, whether it was copied or uploaded. */
  lemma RequirementsDigest(c: Config, versions: seq<string>, files: map<string, string>,
                           localFiles: map<string, string>, md5: string -> Digest, releaseDir: string)
    requires Truthy(c.requirements) && c.requirements.value in localFiles
    ensures var f := RequirementsFiles(c, versions, files, localFiles, md5, releaseDir);
      releaseDir + "/requirements.txt" in f
      && md5(f[releaseDir + "/requirements.txt"]) == md5(localFiles[c.requirements.value])
  {
  }

  /** The venv is rebuilt whenever requirements are not configured or there
      is no previous release. */
  lemma RebuildWithoutHistory(c: Config, versions: seq<string>, files: map<string, string>,
                              localFiles: map<string, string>, md5: string -> Digest)
    requires !Truthy(c.requirements) || Head(versions) == ""
    ensures !ReuseVenv(c, versions, files, localFiles, md5)
  {
  }

  /** `_install_python_package`. Returns whether the venv was rebuilt; a
      configured requirements file that cannot be read locally is an error. */
  method InstallPythonPackage(h: Host, c: Config, releaseDir: string, remotePackagePath: string,
                              localFiles: map<string, string>, md5: string -> Digest)
    returns (r: Result<bool>, h': Host, calls: seq<Call>)
    ensures var h1 := h.(files := h.files[AppDir(c) + "/.appenv" := PythonAppEnv(c)]);
      && (r.Err? <==> Truthy(c.requirements) && c.requirements.value !in localFiles)
      && (r.Err? ==> r.error == FileNotFound(c.requirements.value) && h' == h1)
      && (r.Ok? ==> (r.value <==> !ReuseVenv(c, h.versions, h1.files, localFiles, md5)))
      && (r.Ok? ==> h' == h1.(files := RequirementsFiles(c, h.versions, h1.files, localFiles, md5, releaseDir)))
      && (r.Ok? ==> calls == [WriteAppEnv(c, PythonAppEnv(c))]
                             + RequirementsCommands(c, h.versions, h1.files, localFiles, md5, releaseDir)
                             + VenvCommands(c, releaseDir, r.value)
                             + [Call.Run("uv pip install " + remotePackagePath, false)])
    ensures calls != [] && calls[0] == WriteAppEnv(c, PythonAppEnv(c))
  {
    var h1 := h.(files := h.files[AppDir(c) + "/.appenv" := PythonAppEnv(c)]);
    var req;
    r, h', req := RequirementsStep(h1, c, releaseDir, localFiles, md5);
    calls := [WriteAppEnv(c, PythonAppEnv(c))] + req;
    if r.Err? {
      return;
    }
    var rebuildVenv := r.value;
    calls := calls + VenvCommands(c, releaseDir, rebuildVenv) + [Call.Run("uv pip install " + remotePackagePath, false)];
  }

  /** `_install_binary`: write the appenv, remove whatever sits at the app
      binary path, and link it to the release's package. */
  method InstallBinary(h: Host, c: Config, remotePackagePath: string) returns (h': Host, calls: seq<Call>)
    ensures var bin := AppDir(c) + "/" + AppBin(c);
      && h' == h.(files := h.files[AppDir(c) + "/.appenv" := BinaryAppEnv(c)] - {bin},
                  links := h.links[bin := remotePackagePath])
      && calls == [WriteAppEnv(c, BinaryAppEnv(c)), Call.Run("rm " + bin, false),
                   Call.Run("ln -s " + remotePackagePath + " " + bin, false)]
  {
    calls := [WriteAppEnv(c, BinaryAppEnv(c))];
    h' := h.(files := h.files[AppDir(c) + "/.appenv" := BinaryAppEnv(c)]);
    var fullPathAppBin := AppDir(c) + "/" + AppBin(c);
    calls := calls + [Call.Run("rm " + fullPathAppBin, false)];
    h' := h'.(files := h'.files - {fullPathAppBin}, links := h'.links - {fullPathAppBin});
    calls := calls + [Call.Run("ln -s " + remotePackagePath + " " + fullPathAppBin, false)];
    h' := h'.(links := h'.links[fullPathAppBin := remotePackagePath]);
    assert h'.links == h.links[fullPathAppBin := remotePackagePath] by {
      RelinkSame(h.links, fullPathAppBin, remotePackagePath);
    }
  }

  /** Removing a link and creating it again is creating it. */
  lemma RelinkSame(links: map<string, string>, path: string, target: string)
    ensures (links - {path})[path := target] == links[path := target]
  {
  }

  /** A python package whose configured requirements file is not on the
      local disk: the one way the install branch fails. */
  predicate RequirementsMissing(c: Config, localFiles: map<string, string>)
  {
    c.installationMode == PyPackage && Truthy(c.requirements) && c.requirements.value !in localFiles
  }

  /** The distfile path formats, and the file is on the local disk unless
      the release is a rollback (which uploads nothing). */
  predicate DistfileReady(c: Config, version: Option<string>, rollingBack: bool, localFiles: map<string, string>)
  {
    DistfilePath(c, version).Ok? && (rollingBack || DistfilePath(c, version).value in localFiles)
  }

  /** The install branch of `install_project`: a python package or a binary. */
  method InstallPackage(h: Host, c: Config, releaseDir: string, remotePackagePath: string,
                        localFiles: map<string, string>, md5: string -> Digest)
    returns (r: Result<bool>, h': Host, calls: seq<Call>)
    ensures r.Err? <==> RequirementsMissing(c, localFiles)
    ensures r.Err? ==> c.installationMode == PyPackage && c.requirements.Some? && r.error == FileNotFound(c.requirements.value)
    ensures calls != [] && calls[0].Run?
    ensures h'.versions == h.versions && h'.dirs == h.dirs
    ensures h'.units == h.units && h'.enabled == h.enabled && h'.loaded == h.loaded
    ensures c.installationMode == Binary ==>
      AppDir(c) + "/" + AppBin(c) in h'.links && h'.links[AppDir(c) + "/" + AppBin(c)] == remotePackagePath
  {
    if c.installationMode == PyPackage {
      r, h', calls := InstallPythonPackage(h, c, releaseDir, remotePackagePath, localFiles, md5);
    } else {
      h', calls := InstallBinary(h, c, remotePackagePath);
      r := Ok(true);
    }
  }

  /** The first part of `install_project`: create the release dir and,
      unless rolling back, upload the distfile into it. Returns the remote
      package path. */
  method PlaceRelease(h: Host, c: Config, version: Option<string>, rollingBack: bool, localFiles: map<string, string>)
    returns (r: Result<string>, h': Host, calls: seq<Call>)
    ensures r.Ok? <==> DistfileReady(c, version, rollingBack, localFiles)
    ensures var releaseDir := ReleaseDir(c, Some(OrElse(version, c.version)));
      var d := DistfilePath(c, version);
      && (d.Err? ==> r == Err(d.error))
      && (d.Ok? && !rollingBack && d.value !in localFiles ==> r == Err(FileNotFound(d.value)))
      && (r.Err? ==> h' == h.(dirs := h.dirs + {releaseDir}) && calls == [Mkdir(releaseDir)])
      && (r.Ok? ==> d.Ok? && r.value == releaseDir + "/" + BaseName(d.value))
      && (r.Ok? && rollingBack ==>
            h' == h.(dirs := h.dirs + {releaseDir}) && calls == [Mkdir(releaseDir)])
      && (r.Ok? && !rollingBack ==>
            && d.value in localFiles
            && h' == h.(dirs := h.dirs + {releaseDir}, files := h.files[r.value := localFiles[d.value]])
            && calls == [Mkdir(releaseDir), Call.Upload(d.value, r.value)])
  {
    var v := OrElse(version, c.version);
    var releaseDir := ReleaseDir(c, Some(v));
    calls := [Mkdir(releaseDir)];
    h' := h.(dirs := h.dirs + {releaseDir});
    var distfile := DistfilePath(c, Some(v));
    assert distfile == DistfilePath(c, version);
    if distfile.Err? {
      return Err(distfile.error), h', calls;
    }
    var distfilePath := distfile.value;
    var remotePackagePath := releaseDir + "/" + BaseName(distfilePath);
    if !rollingBack {
      if distfilePath !in localFiles {
        return Err(FileNotFound(distfilePath)), h', calls;
      }
      calls := calls + [Call.Upload(distfilePath, remotePackagePath)];
      h' := h'.(files := h'.files[remotePackagePath := localFiles[distfilePath]]);
    }
    r := Ok(remotePackagePath);
  }

  /** `install_project` up to the history update: create the release dir,
      upload the distfile unless rolling back, install it and run the
      release command. Returns the remote package path. */
  method StageRelease(h: Host, c: Config, version: Option<string>, rollingBack: bool,
                      localFiles: map<string, string>, md5: string -> Digest)
    returns (r: Result<string>, h': Host, calls: seq<Call>)
    ensures r.Ok? <==> DistfileReady(c, version, rollingBack, localFiles) && !RequirementsMissing(c, localFiles)
    ensures var releaseDir := ReleaseDir(c, Some(OrElse(version, c.version)));
      && releaseDir in h'.dirs
      && calls != [] && calls[0] == Mkdir(releaseDir)
    ensures DistfilePath(c, version).Err? ==> r == Err(DistfilePath(c, version).error)
    ensures var d := DistfilePath(c, version);
      d.Ok? && !rollingBack && d.value !in localFiles ==> r == Err(FileNotFound(d.value))
    ensures r.Ok? ==>
      var d := DistfilePath(c, version);
      && d.Ok?
      && r.value == ReleaseDir(c, Some(OrElse(version, c.version))) + "/" + BaseName(d.value)
      && |calls| > 1
      && (!rollingBack ==> calls[1] == Call.Upload(d.value, r.value))
      && (rollingBack ==> calls[1].Run?)
      && (c.installationMode == Binary ==> (AppDir(c) + "/" + AppBin(c) in h'.links
                                         && h'.links[AppDir(c) + "/" + AppBin(c)] == r.value))
    ensures h'.versions == h.versions
    ensures h'.units == h.units && h'.enabled == h.enabled && h'.loaded == h.loaded
  {
    var releaseDir := ReleaseDir(c, Some(OrElse(version, c.version)));
    var placed, h1, c1 := PlaceRelease(h, c, version, rollingBack, localFiles);
    if placed.Err? {
      return placed, h1, c1;
    }
    var installed, h2, c2 := InstallPackage(h1, c, releaseDir, placed.value, localFiles, md5);
    if installed.Err? {
      return Err(installed.error), h2, c1 + c2;
    }
    var c3 := if Truthy(c.releaseCommand) then [Call.Run("source .appenv && " + c.releaseCommand.value, false)] else [];
    calls := c1 + c2 + c3;
    assert calls[0] == c1[0];
    assert calls[1] == if |c1| == 2 then c1[1] else c2[0];
    r, h' := placed, h2;
  }

  /** `install_project`: stage the release, then record the version in the
      history. Returns the version installed. */
  method InstallProject(h: Host, c: Config, version: Option<string>, rollingBack: bool,
                        localFiles: map<string, string>, md5: string -> Digest)
    returns (r: Result<string>, h': Host, calls: seq<Call>)
    ensures r.Ok? <==> DistfileReady(c, version, rollingBack, localFiles) && !RequirementsMissing(c, localFiles)
    ensures var v := OrElse(version, c.version);
      && ReleaseDir(c, Some(v)) in h'.dirs
      && calls != [] && calls[0] == Mkdir(ReleaseDir(c, Some(v)))
    ensures DistfilePath(c, version).Err? ==> r == Err(DistfilePath(c, version).error)
    ensures var d := DistfilePath(c, version);
      d.Ok? && !rollingBack && d.value !in localFiles ==> r == Err(FileNotFound(d.value))
    ensures r.Err? ==> h'.versions == h.versions
    ensures r.Ok? ==>
      var v := OrElse(version, c.version);
      && r.value == v
      && h'.versions == NewHistory(h.versions, v)
      && EndsWithCalls(calls, HistoryCommands(h.versions, v))
    ensures r.Ok? ==>
      var remote := ReleaseDir(c, Some(r.value)) + "/" + BaseName(DistfilePath(c, version).value);
      && |calls| > 1
      && (!rollingBack ==> calls[1] == Call.Upload(DistfilePath(c, version).value, remote))
      && (rollingBack ==> calls[1].Run?)
      && (c.installationMode == Binary ==> (AppDir(c) + "/" + AppBin(c) in h'.links
                                         && h'.links[AppDir(c) + "/" + AppBin(c)] == remote))
    ensures h'.units == h.units && h'.enabled == h.enabled && h'.loaded == h.loaded
  {
    var v := OrElse(version, c.version);
    var staged, h1, c1 := StageRelease(h, c, version, rollingBack, localFiles, md5);
    if staged.Err? {
      return Err(staged.error), h1, c1;
    }
    var h2, c2 := UpdateHistory(h1, v);
    EndsWithExtend(c1, c2, c2);
    calls := c1 + c2;
    assert calls[..2] == c1[..2];
    r, h' := Ok(v), h2;
  }

  // ---------------------------------------------------------------------
  // The deploy command

  /** The `.env` text sent to the host: the configured env, with secrets
      resolved when a secret adapter is configured. */
  function EnvText(c: Config, parse: string -> Dict<string, string>, read: string -> string): string
  {
    if c.secretConfig.None? then c.host.envContent
    else Secrets.Serialize(Secrets.Substituted(parse(c.host.envContent), read))
  }

  /** The checks that run before any connection is opened. */
  predicate FailsFast(c: Config, buildError: Option<string>, localFiles: map<string, string>)
  {
    || (c.secretConfig.Some? && !Secrets.HasReader(c.secretConfig.value.adapter))
    || buildError.Some?
    || (Truthy(c.requirements) && c.requirements.value !in localFiles)
  }

  /** The local part of `Deploy.__call__`, before any connection: resolve
      secrets, run the build (`buildError` is its outcome: `None` when the
      command succeeds, else the text of the `CalledProcessError`) and check
      that the requirements file exists. Yields the `.env` text to send. */
  method PreFlight(c: Config, buildError: Option<string>, localFiles: map<string, string>,
                   parse: string -> Dict<string, string>, read: string -> string)
    returns (r: Result<string>)
    requires UniqueKeys(parse(c.host.envContent))
    ensures r.Err? <==> FailsFast(c, buildError, localFiles)
    ensures c.secretConfig.Some? && !Secrets.HasReader(c.secretConfig.value.adapter) ==>
      r == Err(KeyError(Secrets.AdapterName(c.secretConfig.value.adapter)))
    ensures (c.secretConfig.None? || Secrets.HasReader(c.secretConfig.value.adapter)) && buildError.Some? ==>
      r == Err(Exit(1, "build command failed: " + buildError.value))
    ensures ((c.secretConfig.None? || Secrets.HasReader(c.secretConfig.value.adapter)) && buildError.None?
      && Truthy(c.requirements) && c.requirements.value !in localFiles) ==>
      r == Err(Exit(1, c.requirements.value + " not found"))
    ensures r.Ok? ==> r.value == EnvText(c, parse, read)
  {
    var parsedEnv := c.host.envContent;
    if c.secretConfig.Some? {
      var resolved, _ := Secrets.ResolveSecrets(c.host.envContent, c.secretConfig.value, parse, read);
      if resolved.Err? {
        return Err(resolved.error);
      }
      parsedEnv := resolved.value;
    }
    if buildError.Some? {
      return Err(Exit(1, "build command failed: " + buildError.value));
    }
    if Truthy(c.requirements) && c.requirements.value !in localFiles {
      return Err(Exit(1, c.requirements.value + " not found"));
    }
    return Ok(parsedEnv);
  }

  /** The remote part of `Deploy.__call__` after the project is installed:
      install the services, restart them and prune old releases. The newest
      release (clean, slash-free name) survives all three. */
  method Activate(h: Host, c: Config, templates: set<string>, render: (string, RenderContext) -> string)
    returns (h': Host, calls: seq<Call>)
    requires WellFormed(c)
    ensures h'.units == InstalledUnits(h.units, c, templates, render)
    ensures forall u :: u in h'.loaded && StartsWith(u, c.appName) ==> u in ServiceNameList(c)
    ensures h'.versions == if Keeps(c) then Truncate(h.versions, c.versionsToKeep.value) else h.versions
    ensures Head(h'.versions) == Head(h.versions)
    ensures (h.versions != [] && CleanVersion(h.versions[0]) && '/' !in h.versions[0]
      && PruneDir(c, h.versions[0]) in h.dirs) ==>
      PruneDir(c, h.versions[0]) in h'.dirs
  {
    var h2, c2, _, _ := InstallServices(h, c, templates, render);
    var names := ServiceNames(c);
    var h3, c3 := RestartServices(h2, names);
    var h4, c4 := Prune(h3, c);
    if h.versions != [] && CleanVersion(h.versions[0]) && '/' !in h.versions[0] && PruneDir(c, h.versions[0]) in h.dirs {
      PruneKeepsHead(h3, c, h.versions[0]);
    }
    if Keeps(c) && h.versions != [] {
      assert h4.versions[0] == h.versions[0];
    }
    h', calls := h4, c2 + c3 + c4;
  }

  /** `mkdir -p {dir}`. */
  function Mkdir(dir: string): Call
  {
    Call.Run("mkdir -p " + dir, false)
  }

  /** `echo '{text}' > {app_dir}/.env`. */
  function WriteEnv(c: Config, text: string): Call
  {
    Call.Run("echo '" + text + "' > " + EnvFile(c), false)
  }

  function EnvFile(c: Config): string
  {
    AppDir(c) + "/.env"
  }

  /** The first remote steps of `Deploy.__call__`, given the `.env` text:
      the app dir, the `.env` file and the project. */
  method Deliver(h: Host, c: Config, env: string, localFiles: map<string, string>, md5: string -> Digest)
    returns (r: Result<string>, h': Host, calls: seq<Call>)
    ensures r.Ok? <==> DistfileReady(c, None, false, localFiles) && !RequirementsMissing(c, localFiles)
    ensures |calls| >= 2 && calls[..2] == [Mkdir(AppDir(c)), WriteEnv(c, env)]
    ensures r.Ok? ==> r.value == c.version && h'.units == h.units
    ensures r.Ok? && CleanVersion(c.version) ==> Head(h'.versions) == c.version
    ensures (r.Ok? && CleanVersion(c.version) && c.version != "" && (h.versions == [] || CleanVersion(h.versions[0]))) ==>
      h'.versions != [] && h'.versions[0] == c.version && ReleaseDir(c, Some(c.version)) in h'.dirs
  {
    calls := [Mkdir(AppDir(c)), WriteEnv(c, env)];
    var h0 := h.(dirs := h.dirs + {AppDir(c)}, files := h.files[EnvFile(c) := env]);
    var c1;
    r, h', c1 := InstallProject(h0, c, None, false, localFiles, md5);
    if r.Ok? && CleanVersion(c.version) {
      HistoryHead(h0.versions, c.version);
      if c.version != "" && (h.versions == [] || CleanVersion(h.versions[0])) {
        HistoryFront(h0.versions, c.version);
      }
    }
    assert (calls + c1)[..2] == calls;
    calls := calls + c1;
  }

  /** `Deploy.__call__`: the local checks, then the remote work. */
  method Run(h: Host, c: Config, templates: set<string>, render: (string, RenderContext) -> string,
             localFiles: map<string, string>, md5: string -> Digest, buildError: Option<string>,
             parse: string -> Dict<string, string>, read: string -> string)
    returns (r: Result<string>, h': Host, calls: seq<Call>)
    requires WellFormed(c)
    requires UniqueKeys(parse(c.host.envContent))
    ensures FailsFast(c, buildError, localFiles) ==> r.Err? && h' == h && calls == []
    ensures r.Ok? <==> !FailsFast(c, buildError, localFiles) && DistfileReady(c, None, false, localFiles)
    ensures !FailsFast(c, buildError, localFiles) ==>
      |calls| >= 2 && calls[..2] == [Mkdir(AppDir(c)), WriteEnv(c, EnvText(c, parse, read))]
    ensures r.Ok? ==> r.value == c.version
    ensures r.Ok? && CleanVersion(c.version) ==> Head(h'.versions) == c.version
    ensures (r.Ok? && CleanVersion(c.version) && c.version != "" && '/' !in c.version
      && (h.versions == [] || CleanVersion(h.versions[0]))) ==>
      ReleaseDir(c, Some(c.version)) in h'.dirs
    ensures r.Ok? ==> h'.units == InstalledUnits(h.units, c, templates, render)
    ensures r.Ok? ==> forall u :: u in h'.loaded && StartsWith(u, c.appName) ==> u in ServiceNameList(c)
  {
    var env := PreFlight(c, buildError, localFiles, parse, read);
    if env.Err? {
      return Err(env.error), h, [];
    }
    r, h', calls := Release(h, c, templates, render, env.value, localFiles, md5);
  }

  /** Everything `Deploy.__call__` does once the build passed: deliver the
      release, then activate it. */
  method Release(h: Host, c: Config, templates: set<string>, render: (string, RenderContext) -> string,
                 env: string, localFiles: map<string, string>, md5: string -> Digest)
    returns (r: Result<string>, h': Host, calls: seq<Call>)
    requires WellFormed(c)
    ensures r.Ok? <==> DistfileReady(c, None, false, localFiles) && !RequirementsMissing(c, localFiles)
    ensures |calls| >= 2 && calls[..2] == [Mkdir(AppDir(c)), WriteEnv(c, env)]
    ensures r.Ok? ==> r.value == c.version
    ensures r.Ok? && CleanVersion(c.version) ==> Head(h'.versions) == c.version
    ensures (r.Ok? && CleanVersion(c.version) && c.version != "" && '/' !in c.version
      && (h.versions == [] || CleanVersion(h.versions[0]))) ==>
      ReleaseDir(c, Some(c.version)) in h'.dirs
    ensures r.Ok? ==> h'.units == InstalledUnits(h.units, c, templates, render)
    ensures r.Ok? ==> forall u :: u in h'.loaded && StartsWith(u, c.appName) ==> u in ServiceNameList(c)
  {
    var h1, c1;
    r, h1, c1 := Deliver(h, c, env, localFiles, md5);
    if r.Err? {
      return r, h1, c1;
    }
    var h2, c2 := Activate(h1, c, templates, render);
    if c.version != "" {
      PruneDirOfRelease(c);
    }
    h' := h2;
    assert (c1 + c2)[..2] == c1[..2];
    calls := c1 + c2;
  }

  /** One line of an `.appenv` script. */
  datatype AppEnvLine = AutoExportOn | SourceDotEnv | AutoExportOff | Export(name: string, value: string)

  function AppEnvLineText(l: AppEnvLine): string
  {
    match l
    case AutoExportOn => "set -a  # Automatically export all variables"
    case SourceDotEnv => "source .env"
    case AutoExportOff => "set +a  # Stop automatic export"
    case Export(name, value) => "export " + name + "=" + value
  }

  /** A script: its lines joined by newlines. */
  function AppEnvScript(lines: seq<AppEnvLine>): string
  {
    if lines == [] then ""
    else if |lines| == 1 then AppEnvLineText(lines[0])
    else AppEnvLineText(lines[0]) + "\n" + AppEnvScript(lines[1..])
  }

  /** The appenv of a python-package install (the f-string, stripped). */
  function PythonAppEnv(c: Config): string
  {
    AppEnvScript([AutoExportOn, SourceDotEnv, AutoExportOff, Export("UV_COMPILE_BYTECODE", "1"),
                  Export("UV_PYTHON", "python" + Show(c.pythonVersion)), Export("PATH", "\".venv/bin:$PATH\"")])
  }

  /** The appenv of a binary install (the f-string, stripped). */
  function BinaryAppEnv(c: Config): string
  {
    AppEnvScript([AutoExportOn, SourceDotEnv, AutoExportOff, Export("PATH", "\"" + AppDir(c) + ":$PATH\"")])
  }

  function WriteAppEnv(c: Config, text: string): Call
  {
    Call.Run("echo '" + text + "' > " + AppDir(c) + "/.appenv", false)
  }

  /** The requirements file of the release at the head of the history. */
  function PrevReqs(c: Config, versions: seq<string>): string
  {
    ReleaseDir(c, Some(Head(versions))) + "/requirements.txt"
  }

  /** The venv is kept exactly when requirements are configured, there is a
      previous release, its requirements file exists, and its digest equals
      the local file's. */
  predicate ReuseVenv(c: Config, versions: seq<string>, files: map<string, string>,
                      localFiles: map<string, string>, md5: string -> Digest)
  {
    && Truthy(c.requirements) && c.requirements.value in localFiles
    && Head(versions) != ""
    && PrevReqs(c, versions) in files
    && md5(files[PrevReqs(c, versions)]) == md5(localFiles[c.requirements.value])
  }

  /** The remote files after the requirements step: the release receives the
      previous release's copy when the venv is reused, the local file
      otherwise. */
  function RequirementsFiles(c: Config, versions: seq<string>, files: map<string, string>,
                             localFiles: map<string, string>, md5: string -> Digest, releaseDir: string): map<string, string>
  {
    if !Truthy(c.requirements) || c.requirements.value !in localFiles then files
    else if ReuseVenv(c, versions, files, localFiles, md5) then files[releaseDir + "/requirements.txt" := files[PrevReqs(c, versions)]]
    else files[releaseDir + "/requirements.txt" := localFiles[c.requirements.value]]
  }

  /** The calls of the requirements step, as `RequirementsStep` makes them. */
  function RequirementsCommands(c: Config, versions: seq<string>, files: map<string, string>,
                                localFiles: map<string, string>, md5: string -> Digest, releaseDir: string): seq<Call>
  {
    if !Truthy(c.requirements) then []
    else if c.requirements.value !in localFiles then [Call.Run("head -n 1 .versions", false)]
    else
      var prev := PrevReqs(c, versions);
      var curr := releaseDir + "/requirements.txt";
      [Call.Run("head -n 1 .versions", false)]
      + (if Head(versions) != "" then [Call.Run("md5sum " + prev, false)] else [])
      + (if ReuseVenv(c, versions, files, localFiles, md5) then
           (if prev != curr then [Call.Run("cp " + prev + " " + curr, false)] else [])
         else [Call.Upload(c.requirements.value, curr)])
  }

  function EnableCommands(names: seq<string>): seq<Call>
  {
    [Call.Run("sudo systemctl daemon-reload", false)] + EachCommand("sudo systemctl enable --now ", names, true)
  }

  function SweepFileCommands(app: string, removed: seq<string>): seq<Call>
  {
    [Call.Run("ls " + UnitDir + app + "*", false)] + SweepCommands(removed)
  }

  function SweepUnitCommands(app: string, stopped: seq<string>): seq<Call>
  {
    [Call.Run("systemctl list-units --full --all --plain --no-legend '" + app + "*'", false)]
    + EachCommand("sudo systemctl disable --now ", stopped, false)
  }

  /** `t` is the tail of `s`. */
  predicate EndsWithCalls(s: seq<Call>, t: seq<Call>)
  {
    |t| <= |s| && s[|s| - |t|..] == t
  }

  lemma EndsWithExtend(a: seq<Call>, s: seq<Call>, t: seq<Call>)
    requires s == t || EndsWithCalls(s, t)
    ensures EndsWithCalls(a + s, t)
  {
    assert (a + s)[|a + s| - |s|..] == s;
    assert s[|s| - |t|..] == t;
  }

  /** The venv commands: a full rebuild, or nothing. */
  function VenvCommands(c: Config, releaseDir: string, rebuild: bool): seq<Call>
  {
    if !rebuild then []
    else
      [Call.Run("sudo rm -rf .venv", false), Call.Run("uv python install " + Show(c.pythonVersion), false), Call.Run("uv venv", false)]
      + (if Truthy(c.requirements) then [Call.Run("uv pip install -r " + releaseDir + "/requirements.txt", false)] else [])
  }

  function WriteCommand(filename: string, content: string): Call
  {
    Call.Run("echo '" + content + "' | sudo tee " + UnitDir + filename, true)
  }

  function WriteCommands(d: Dict<string, string>): seq<Call>
  {
    if d == [] then [] else WriteCommands(d[..|d| - 1]) + [WriteCommand(d[|d| - 1].0, d[|d| - 1].1)]
  }

  function SweepCommands(removed: seq<string>): seq<Call>
  {
    if removed == [] then []
    else
      var f := removed[|removed| - 1];
      SweepCommands(removed[..|removed| - 1])
        + [Call.Run("sudo systemctl disable --now '" + DisableTarget(f) + "'", false), Call.Run("sudo rm " + UnitDir + f, false)]
  }

  /** The app-prefixed unit files that are not to be kept. */
  function StaleFiles(units: map<string, string>, app: string, keep: set<string>): set<string>
  {
    AppFiles(units, app) - keep
  }

  /** The loaded app-prefixed units that are not in `names`. */
  function StaleUnits(loaded: set<string>, app: string, names: seq<string>): set<string>
  {
    set u | u in loaded && StartsWith(u, app) && u !in names
  }

  /** Both sweeps select units by a bare name prefix, so deploying an app
      `blog` also selects the service of an app `blog2` on the same host,
      when that is neither among blog's new unit files nor among its
      service names. */
  lemma SweepsReachOtherApp(units: map<string, string>, loaded: set<string>, keep: set<string>, names: seq<string>)
    requires "blog2.service" in units && "blog2.service" in loaded
    requires "blog2.service" !in keep && "blog2.service" !in names
    ensures "blog2.service" in StaleFiles(units, "blog", keep)
    ensures "blog2.service" in StaleUnits(loaded, "blog", names)
  {
    assert StartsWith("blog2.service", "blog");
  }

  lemma SweepCommandsSnoc(removed: seq<string>, f: string)
    ensures SweepCommands(removed + [f]) == SweepCommands(removed)
      + [Call.Run("sudo systemctl disable --now '" + DisableTarget(f) + "'", false), Call.Run("sudo rm " + UnitDir + f, false)]
  {
    assert (removed + [f])[..|removed|] == removed;
  }

  /** `units` without the files in `gone`. */
  function Without(units: map<string, string>, gone: set<string>): map<string, string>
  {
    map f | f in units && f !in gone :: units[f]
  }

  /** The units of `xs` that none of the `removed` files' targets match. */
  function Survivors(xs: set<string>, removed: seq<string>): set<string>
  {
    set x | x in xs && !DisabledByAny(removed, x)
  }

  lemma SurvivorsSnoc(xs: set<string>, removed: seq<string>, f: string)
    ensures Survivors(xs, removed + [f]) == set x | x in Survivors(xs, removed) && !GlobMatch(DisableTarget(f), x)
  {
    DisabledByAnySnoc(removed, f);
  }

  lemma WithoutSnoc(units: map<string, string>, gone: set<string>, f: string)
    ensures Without(Without(units, gone), {f}) == Without(units, gone + {f})
  {
  }

  predicate DisabledByAny(removed: seq<string>, x: string)
  {
    exists i :: 0 <= i < |removed| && GlobMatch(DisableTarget(removed[i]), x)
  }

  lemma DisabledByAnySnoc(removed: seq<string>, f: string)
    ensures forall x :: DisabledByAny(removed + [f], x) <==> DisabledByAny(removed, x) || GlobMatch(DisableTarget(f), x)
  {
    forall x | DisabledByAny(removed + [f], x) ensures DisabledByAny(removed, x) || GlobMatch(DisableTarget(f), x) {
      var i :| 0 <= i < |removed| + 1 && GlobMatch(DisableTarget((removed + [f])[i]), x);
      if i < |removed| {
        assert (removed + [f])[i] == removed[i];
      }
    }
    forall x | DisabledByAny(removed, x) || GlobMatch(DisableTarget(f), x) ensures DisabledByAny(removed + [f], x) {
      if DisabledByAny(removed, x) {
        var i :| 0 <= i < |removed| && GlobMatch(DisableTarget(removed[i]), x);
        assert (removed + [f])[i] == removed[i];
      } else {
        assert (removed + [f])[|removed|] == f;
      }
    }
  }
}
