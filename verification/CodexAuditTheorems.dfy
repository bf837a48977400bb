/** The verdict rests on what was recorded, and the worklist visits exactly what is reachable. */
module CodexAuditTheorems {
  import opened Lists
  import opened Json
  import opened Orders
  import opened SemVer
  import opened SemVerTheorems
  import opened Inspector
  import opened CodexAudit

  /** Distinct contents have distinct digests. */
  ghost predicate Faithful(tools: Tools) { forall a, b :: tools.hash(a) == tools.hash(b) ==> a == b }

  // ---------------------------------------------------------------------
  // Reads that agree
  // ---------------------------------------------------------------------

  /** A path whose recorded digest still holds reads the same. */
  lemma SameRead(tools: Tools, fs: FS, fs': FS, path: Path)
    requires Faithful(tools) && ReadText(tools, fs, path).Ok?
    requires CurrentDigest(tools, fs', path) == Ok(EntryFor(tools, fs, path).digest)
    ensures ReadText(tools, fs', path) == ReadText(tools, fs, path)
    ensures EntryFor(tools, fs', path) == EntryFor(tools, fs, path)
    ensures ReadJson(tools, fs', path) == ReadJson(tools, fs, path)
  {
  }

  /** Reading succeeds only on files whose digest was taken. */
  lemma ReadIsRecorded(tools: Tools, fs: FS, path: Path)
    requires ReadText(tools, fs, path).Ok?
    ensures CurrentDigest(tools, fs, path) == Ok(EntryFor(tools, fs, path).digest)
  {
  }

  lemma UnchangedPart(tools: Tools, fs: FS, a: seq<Entry>, b: seq<Entry>)
    requires FilesUnchanged(tools, fs, a + b)
    ensures FilesUnchanged(tools, fs, a) && FilesUnchanged(tools, fs, b)
  {
    hide CurrentDigest;
    assert forall i :: 0 <= i < |a| ==> (a + b)[i] == a[i];
    assert forall i :: 0 <= i < |b| ==> (a + b)[|a| + i] == b[i];
  }

  lemma {:induction false} FilesAgree(
    tools: Tools, fs: FS, fs': FS, audit: Audit, paths: seq<Path>, foreign: seq<string>)
    requires Faithful(tools) && InspectFiles(tools, fs, audit, paths, foreign).Ok?
    requires FilesUnchanged(tools, fs', EntriesFor(tools, fs, paths))
    ensures InspectFiles(tools, fs', audit, paths, foreign) == InspectFiles(tools, fs, audit, paths, foreign)
    ensures EntriesFor(tools, fs', paths) == EntriesFor(tools, fs, paths)
  {
    hide InspectSource, Faithful, EntryFor, CurrentDigest;
    if paths != [] {
      var n := |paths| - 1;
      var entries := EntriesFor(tools, fs, paths);
      assert entries[..n] == EntriesFor(tools, fs, paths[..n]);
      assert FilesUnchanged(tools, fs', entries[..n]);
      FilesAgree(tools, fs, fs', audit, paths[..n], foreign);
      assert entries[n] == EntryFor(tools, fs, paths[n]);
      assert EntriesFor(tools, fs', paths)[..n] == EntriesFor(tools, fs', paths[..n]);
      JsonIsRead(tools, fs, paths[n]);
      EntryPath(tools, fs, paths[n]);
      SameRead(tools, fs, fs', paths[n]);
      assert EntriesFor(tools, fs', paths)[n] == EntryFor(tools, fs', paths[n]);
      assert EntriesFor(tools, fs', paths) == EntriesFor(tools, fs', paths)[..n] + [EntryFor(tools, fs', paths[n])];
      assert entries == entries[..n] + [entries[n]];
    }
  }

  lemma JsonIsRead(tools: Tools, fs: FS, path: Path)
    requires ReadJson(tools, fs, path).Ok?
    ensures ReadText(tools, fs, path).Ok?
  {
  }

  lemma EntryPath(tools: Tools, fs: FS, path: Path)
    ensures EntryFor(tools, fs, path).path == path
  {
  }

  lemma {:induction false} FilesRecorded(tools: Tools, fs: FS, audit: Audit, paths: seq<Path>, foreign: seq<string>)
    requires InspectFiles(tools, fs, audit, paths, foreign).Ok?
    ensures FilesUnchanged(tools, fs, EntriesFor(tools, fs, paths))
  {
    hide InspectSource, EntryFor, CurrentDigest;
    if paths != [] {
      var n := |paths| - 1;
      var entries := EntriesFor(tools, fs, paths);
      FilesRecorded(tools, fs, audit, paths[..n], foreign);
      assert entries[..n] == EntriesFor(tools, fs, paths[..n]);
      JsonIsRead(tools, fs, paths[n]);
      ReadIsRecorded(tools, fs, paths[n]);
      EntryPath(tools, fs, paths[n]);
      forall i | 0 <= i < |entries| ensures CurrentDigest(tools, fs, entries[i].path) == Ok(entries[i].digest) {
        if i < n { assert entries[i] == entries[..n][i]; }
      }
    }
  }

  // ---------------------------------------------------------------------
  // Layers that agree
  // ---------------------------------------------------------------------

  lemma VisitAgrees(tools: Tools, fs: FS, fs': FS, site: Site, gateKeys: seq<string>, st: Layers)
    requires Faithful(tools) && st.index < |st.queue|
    requires VisitLayer(tools, fs, site, gateKeys, st).Ok?
    requires CurrentDigest(tools, fs', st.queue[st.index]) == Ok(EntryFor(tools, fs, st.queue[st.index]).digest)
    ensures VisitLayer(tools, fs', site, gateKeys, st) == VisitLayer(tools, fs, site, gateKeys, st)
  {
    hide Faithful, LayerRefused, Scanned;
    SameRead(tools, fs, fs', st.queue[st.index]);
    hide ReadText, EntryFor;
  }

  lemma VisitLogs(tools: Tools, fs: FS, site: Site, gateKeys: seq<string>, st: Layers)
    requires st.index < |st.queue| && VisitLayer(tools, fs, site, gateKeys, st).Ok?
    ensures VisitLayer(tools, fs, site, gateKeys, st).value.log == st.log + [EntryFor(tools, fs, st.queue[st.index])]
    ensures ReadText(tools, fs, st.queue[st.index]).Ok?
  {
    hide LayerRefused, AddAll, Queued;
  }

  lemma {:induction false} WalkLogs(tools: Tools, fs: FS, site: Site, gateKeys: seq<string>, st: Layers)
    requires Served(tools, fs, site, st) && WalkLayers(tools, fs, site, gateKeys, st).Ok?
    ensures st.log <= WalkLayers(tools, fs, site, gateKeys, st).value.log
    decreases |Unvisited(fs, st)|, |st.queue| - st.index
  {
    hide VisitLayer;
    if st.index < |st.queue| {
      var t := VisitLayer(tools, fs, site, gateKeys, st).value;
      VisitServes(tools, fs, site, gateKeys, st);
      WalkDecreases(tools, fs, site, gateKeys, st);
      VisitLogs(tools, fs, site, gateKeys, st);
      WalkLogs(tools, fs, site, gateKeys, t);
    }
  }

  lemma WalkDecreases(tools: Tools, fs: FS, site: Site, gateKeys: seq<string>, st: Layers)
    requires Served(tools, fs, site, st) && st.index < |st.queue|
    requires VisitLayer(tools, fs, site, gateKeys, st).Ok?
    ensures var t := VisitLayer(tools, fs, site, gateKeys, st).value;
      && t.index == st.index + 1 <= |t.queue|
      && |t.queue| + |Unvisited(fs, t)| <= |st.queue| + |Unvisited(fs, st)|
      && (|Unvisited(fs, t)| < |Unvisited(fs, st)|
          || (|Unvisited(fs, t)| == |Unvisited(fs, st)| && |t.queue| - t.index < |st.queue| - st.index))
  {
    VisitServes(tools, fs, site, gateKeys, st);
    var t := VisitLayer(tools, fs, site, gateKeys, st).value;
    hide VisitLayer, Served;
    if Unvisited(fs, t) != Unvisited(fs, st) { Shrinks(Unvisited(fs, t), Unvisited(fs, st)); }
  }

  /** An unfinished walk is one visit and the rest of the walk. */
  lemma WalkStep(tools: Tools, fs: FS, site: Site, gateKeys: seq<string>, st: Layers)
    requires Served(tools, fs, site, st) && WalkLayers(tools, fs, site, gateKeys, st).Ok? && st.index < |st.queue|
    ensures VisitLayer(tools, fs, site, gateKeys, st).Ok?
    ensures var t := VisitLayer(tools, fs, site, gateKeys, st).value;
      && Served(tools, fs, site, t) && t.index == st.index + 1 <= |t.queue| && st.queue <= t.queue
      && WalkLayers(tools, fs, site, gateKeys, t) == WalkLayers(tools, fs, site, gateKeys, st)
      && (|Unvisited(fs, t)| < |Unvisited(fs, st)|
          || (|Unvisited(fs, t)| == |Unvisited(fs, st)| && |t.queue| - t.index < |st.queue| - st.index))
  {
    hide VisitLayer;
    VisitServes(tools, fs, site, gateKeys, st);
    WalkDecreases(tools, fs, site, gateKeys, st);
  }

  lemma WalkDone(tools: Tools, fs: FS, site: Site, gateKeys: seq<string>, st: Layers)
    requires Served(tools, fs, site, st) && st.index == |st.queue|
    ensures WalkLayers(tools, fs, site, gateKeys, st) == Ok(st)
  {
  }

  /** The walk over another file system that agrees on everything recorded is the same walk. */
  lemma {:induction false} WalkAgrees(tools: Tools, fs: FS, fs': FS, site: Site, gateKeys: seq<string>, st: Layers)
    requires Faithful(tools) && Served(tools, fs, site, st) && Served(tools, fs', site, st)
    requires WalkLayers(tools, fs, site, gateKeys, st).Ok?
    requires FilesUnchanged(tools, fs', WalkLayers(tools, fs, site, gateKeys, st).value.log)
    ensures WalkLayers(tools, fs', site, gateKeys, st) == WalkLayers(tools, fs, site, gateKeys, st)
    decreases |Unvisited(fs, st)|, |st.queue| - st.index
  {
    hide VisitLayer, Faithful, CurrentDigest, EntryFor, ReadText;
    if st.index < |st.queue| {
      var t := VisitLayer(tools, fs, site, gateKeys, st).value;
      VisitServes(tools, fs, site, gateKeys, st);
      WalkDecreases(tools, fs, site, gateKeys, st);
      VisitLogs(tools, fs, site, gateKeys, st);
      WalkLogs(tools, fs, site, gateKeys, t);
      var end := WalkLayers(tools, fs, site, gateKeys, st).value;
      assert end.log[|st.log|] == EntryFor(tools, fs, st.queue[st.index]);
      EntryPath(tools, fs, st.queue[st.index]);
      VisitAgrees(tools, fs, fs', site, gateKeys, st);
      VisitServes(tools, fs', site, gateKeys, st);
      WalkAgrees(tools, fs, fs', site, gateKeys, t);
    }
  }

  // ---------------------------------------------------------------------
  // The verdict is stable
  // ---------------------------------------------------------------------

  lemma HookFilesAgree(tools: Tools, fs: FS, fs': FS, site: Site)
    requires Faithful(tools) && AuditHookFiles(tools, fs, site).Ok?
    requires FilesUnchanged(tools, fs', EntriesFor(tools, fs, [ProjectHooks(site), UserHooks(site)]))
    ensures AuditHookFiles(tools, fs', site) == AuditHookFiles(tools, fs, site)
    ensures EntriesFor(tools, fs', [ProjectHooks(site), UserHooks(site)])
         == EntriesFor(tools, fs, [ProjectHooks(site), UserHooks(site)])
  {
    hide Faithful, Inspect, CurrentDigest, EntryFor, InspectSource, Labelled;
    var paths := [ProjectHooks(site), UserHooks(site)];
    var entries := EntriesFor(tools, fs, paths);
    assert entries[0] == EntryFor(tools, fs, paths[0]) && entries[1] == EntryFor(tools, fs, paths[1]);
    EntryPath(tools, fs, paths[0]);
    EntryPath(tools, fs, paths[1]);
    JsonIsRead(tools, fs, paths[0]);
    SameRead(tools, fs, fs', paths[0]);
    SameRead(tools, fs, fs', paths[1]);
    assert EntriesFor(tools, fs', paths) == entries;
    if ReadText(tools, fs, paths[1]).value.Some? {
      var own := Labelled(paths[0], Inspect(site.audit, ReadJson(tools, fs, paths[0]).value).value.foreign);
      assert EntriesFor(tools, fs, [paths[1]]) == [entries[1]];
      FilesAgree(tools, fs, fs', site.audit, [paths[1]], own);
    }
    hide ReadText, ReadJson, InspectFiles;
  }

  lemma PluginsAgree(tools: Tools, fs: FS, fs': FS, site: Site, before: seq<Entry>, sec: Security, st: Layers)
    requires Faithful(tools) && AuditPlugins(tools, fs, site, before, sec, st).Ok?
    requires var snapshot := AuditPlugins(tools, fs, site, before, sec, st).value.1;
      FilesUnchanged(tools, fs', snapshot.files) && PluginsUnchanged(tools, fs', site, snapshot)
    ensures var v := AuditPlugins(tools, fs, site, before, sec, st);
      var v' := AuditPlugins(tools, fs', site, before, sec, st);
      v'.Ok? && v'.value.0 == v.value.0 && v'.value.1.hooks == v.value.1.hooks
  {
    hide Faithful, CollectAll, PluginsToLoad, CurrentScan, InspectFiles, InspectInline;
    hide CurrentDigest, EntryFor, EntriesFor;
    var snapshot := AuditPlugins(tools, fs, site, before, sec, st).value.1;
    var found := CollectAll(tools, fs, site, snapshot.enabled).value;
    UnchangedPart(tools, fs', before + st.log + found.log, EntriesFor(tools, fs, snapshot.hooks.files));
    FilesAgree(tools, fs, fs', site.audit, snapshot.hooks.files, st.foreign);
  }

  lemma InitialServed(tools: Tools, fs: FS, site: Site, foreign: seq<string>)
    ensures Served(tools, fs, site, InitialLayers(site, foreign))
  {
  }

  lemma SnapshotStartsWith(tools: Tools, fs: FS, site: Site, before: seq<Entry>, sec: Security, st: Layers)
    requires AuditPlugins(tools, fs, site, before, sec, st).Ok?
    ensures before + st.log <= AuditPlugins(tools, fs, site, before, sec, st).value.1.files
  {
    hide CollectAll, PluginsToLoad, InspectFiles, InspectInline, EntriesFor;
  }

  /** A snapshot found unchanged on another file system means the audit there gives the same verdict. */
  lemma VerdictIsStable(tools: Tools, fs: FS, fs': FS, site: Site)
    requires Faithful(tools) && AuditCodex(tools, fs, site).Ok?
    requires Unchanged(tools, fs', site, AuditCodex(tools, fs, site).value.1)
    ensures var v, v' := AuditCodex(tools, fs, site), AuditCodex(tools, fs', site);
      && v'.Ok?
      && v'.value.0.gate == v.value.0.gate
      && v'.value.0.gates == v.value.0.gates
      && v'.value.0.foreign == v.value.0.foreign
  {
    hide Faithful, AuditHookFiles, WalkLayers, AuditPlugins, FilesUnchanged, PluginsUnchanged, EntriesFor, Served;
    var sec := AuditHookFiles(tools, fs, site).value;
    var gateKeys := GateKeys(ProjectHooks(site), sec.gates);
    var first := InitialLayers(site, sec.foreign);
    InitialServed(tools, fs, site, sec.foreign);
    InitialServed(tools, fs', site, sec.foreign);
    var st := WalkLayers(tools, fs, site, gateKeys, first).value;
    var before := EntriesFor(tools, fs, [ProjectHooks(site), UserHooks(site)]);
    var snapshot := AuditCodex(tools, fs, site).value.1;
    SnapshotStartsWith(tools, fs, site, before, sec, st);
    var rest := snapshot.files[|before + st.log|..];
    assert snapshot.files == before + st.log + rest;
    UnchangedPart(tools, fs', before + st.log, rest);
    UnchangedPart(tools, fs', before, st.log);
    HookFilesAgree(tools, fs, fs', site);
    WalkAgrees(tools, fs, fs', site, gateKeys, first);
    PluginsAgree(tools, fs, fs', site, before, sec, st);
  }

  // ---------------------------------------------------------------------
  // A file system that did not change is found unchanged
  // ---------------------------------------------------------------------

  lemma {:induction false} WalkRecorded(tools: Tools, fs: FS, site: Site, gateKeys: seq<string>, st: Layers)
    requires Served(tools, fs, site, st) && WalkLayers(tools, fs, site, gateKeys, st).Ok?
    requires FilesUnchanged(tools, fs, st.log)
    ensures FilesUnchanged(tools, fs, WalkLayers(tools, fs, site, gateKeys, st).value.log)
    decreases |Unvisited(fs, st)|, |st.queue| - st.index
  {
    hide VisitLayer, CurrentDigest, EntryFor, ReadText;
    if st.index < |st.queue| {
      VisitServes(tools, fs, site, gateKeys, st);
      WalkDecreases(tools, fs, site, gateKeys, st);
      VisitLogs(tools, fs, site, gateKeys, st);
      ReadIsRecorded(tools, fs, st.queue[st.index]);
      EntryPath(tools, fs, st.queue[st.index]);
      WalkRecorded(tools, fs, site, gateKeys, VisitLayer(tools, fs, site, gateKeys, st).value);
    }
  }

  /** Once past the first layer, the recorded user scan is what scanning gives. */
  ghost predicate UserScanCurrent(tools: Tools, fs: FS, site: Site, st: Layers) {
    if st.index == 0 then st.queue != [] && st.queue[0] == UserConfig(site) && st.userScan == None
    else CurrentScan(tools, fs, site) == Ok(st.userScan)
  }

  lemma VisitKeepsUserScan(tools: Tools, fs: FS, site: Site, gateKeys: seq<string>, st: Layers)
    requires st.index < |st.queue| && VisitLayer(tools, fs, site, gateKeys, st).Ok?
    requires UserScanCurrent(tools, fs, site, st)
    ensures UserScanCurrent(tools, fs, site, VisitLayer(tools, fs, site, gateKeys, st).value)
  {
    hide LayerRefused, AddAll, Queued, ReadText;
  }

  lemma {:induction false} WalkKeepsUserScan(tools: Tools, fs: FS, site: Site, gateKeys: seq<string>, st: Layers)
    requires Served(tools, fs, site, st) && WalkLayers(tools, fs, site, gateKeys, st).Ok?
    requires UserScanCurrent(tools, fs, site, st)
    ensures UserScanCurrent(tools, fs, site, WalkLayers(tools, fs, site, gateKeys, st).value)
    ensures WalkLayers(tools, fs, site, gateKeys, st).value.index >= st.index
    ensures st.queue != [] ==> WalkLayers(tools, fs, site, gateKeys, st).value.index > 0
    decreases |Unvisited(fs, st)|, |st.queue| - st.index
  {
    hide VisitLayer, UserScanCurrent;
    if st.index < |st.queue| {
      VisitServes(tools, fs, site, gateKeys, st);
      WalkDecreases(tools, fs, site, gateKeys, st);
      VisitKeepsUserScan(tools, fs, site, gateKeys, st);
      WalkKeepsUserScan(tools, fs, site, gateKeys, VisitLayer(tools, fs, site, gateKeys, st).value);
    }
  }

  lemma PluginRecorded(tools: Tools, fs: FS, site: Site, plugin: Plugin, acc: Found)
    requires CollectPlugin(tools, fs, site, plugin, acc).Ok? && FilesUnchanged(tools, fs, acc.log)
    ensures FilesUnchanged(tools, fs, CollectPlugin(tools, fs, site, plugin, acc).value.log)
  {
    hide ActiveRoot, DeclaredHooks, CurrentDigest, EntryFor, ReadJson;
    var after := CollectPlugin(tools, fs, site, plugin, acc).value;
    if after != acc && |after.log| > |acc.log| {
      var root := ActiveRoot(tools, fs, site, plugin).value.value;
      var manifest := ManifestPath(fs, root).value.value;
      JsonIsRead(tools, fs, manifest);
      ReadIsRecorded(tools, fs, manifest);
      EntryPath(tools, fs, manifest);
    }
  }

  lemma {:induction false} CollectRecorded(tools: Tools, fs: FS, site: Site, plugins: seq<Plugin>)
    requires CollectAll(tools, fs, site, plugins).Ok?
    ensures FilesUnchanged(tools, fs, CollectAll(tools, fs, site, plugins).value.log)
  {
    hide CollectPlugin, FilesUnchanged;
    if plugins == [] {
      assert FilesUnchanged(tools, fs, []) by { NothingUnchanged(tools, fs); }
    } else {
      var n := |plugins| - 1;
      CollectRecorded(tools, fs, site, plugins[..n]);
      PluginRecorded(tools, fs, site, plugins[n], CollectAll(tools, fs, site, plugins[..n]).value);
    }
  }

  lemma NothingUnchanged(tools: Tools, fs: FS)
    ensures FilesUnchanged(tools, fs, [])
  {
  }

  lemma HookFilesRecorded(tools: Tools, fs: FS, site: Site)
    requires AuditHookFiles(tools, fs, site).Ok?
    ensures FilesUnchanged(tools, fs, EntriesFor(tools, fs, [ProjectHooks(site), UserHooks(site)]))
  {
    hide Inspect, CurrentDigest, EntryFor, InspectSource, Labelled;
    var paths := [ProjectHooks(site), UserHooks(site)];
    JsonIsRead(tools, fs, paths[0]);
    ReadIsRecorded(tools, fs, paths[0]);
    ReadIsRecorded(tools, fs, paths[1]);
    EntryPath(tools, fs, paths[0]);
    EntryPath(tools, fs, paths[1]);
  }

  lemma UnchangedJoin(tools: Tools, fs: FS, a: seq<Entry>, b: seq<Entry>)
    requires FilesUnchanged(tools, fs, a) && FilesUnchanged(tools, fs, b)
    ensures FilesUnchanged(tools, fs, a + b)
  {
    hide CurrentDigest;
  }

  lemma PluginsStillThere(tools: Tools, fs: FS, site: Site, before: seq<Entry>, sec: Security, st: Layers)
    requires AuditPlugins(tools, fs, site, before, sec, st).Ok?
    requires FilesUnchanged(tools, fs, before) && FilesUnchanged(tools, fs, st.log)
    requires CurrentScan(tools, fs, site) == Ok(st.userScan)
    ensures Unchanged(tools, fs, site, AuditPlugins(tools, fs, site, before, sec, st).value.1)
  {
    hide FilesUnchanged, CollectAll, PluginsToLoad, CurrentScan, InspectFiles, InspectInline, EntriesFor;
    var snapshot := AuditPlugins(tools, fs, site, before, sec, st).value.1;
    var found := CollectAll(tools, fs, site, snapshot.enabled).value;
    CollectRecorded(tools, fs, site, snapshot.enabled);
    FilesRecorded(tools, fs, site.audit, snapshot.hooks.files, st.foreign);
    UnchangedJoin(tools, fs, before, st.log);
    UnchangedJoin(tools, fs, before + st.log, found.log);
    UnchangedJoin(tools, fs, before + st.log + found.log, EntriesFor(tools, fs, snapshot.hooks.files));
  }

  /** Verifying against the very file system that was audited always succeeds. */
  lemma UntouchedVerifies(tools: Tools, fs: FS, site: Site)
    requires AuditCodex(tools, fs, site).Ok?
    ensures Unchanged(tools, fs, site, AuditCodex(tools, fs, site).value.1)
  {
    hide AuditHookFiles, WalkLayers, AuditPlugins, FilesUnchanged, EntriesFor, Served, Unchanged, CurrentScan;
    var sec := AuditHookFiles(tools, fs, site).value;
    var gateKeys := GateKeys(ProjectHooks(site), sec.gates);
    var first := InitialLayers(site, sec.foreign);
    InitialServed(tools, fs, site, sec.foreign);
    NothingUnchanged(tools, fs);
    WalkRecorded(tools, fs, site, gateKeys, first);
    WalkKeepsUserScan(tools, fs, site, gateKeys, first);
    HookFilesRecorded(tools, fs, site);
    PluginsStillThere(tools, fs, site, EntriesFor(tools, fs, [ProjectHooks(site), UserHooks(site)]), sec,
                      WalkLayers(tools, fs, site, gateKeys, first).value);
  }

  // ---------------------------------------------------------------------
  // The active plugin version
  // ---------------------------------------------------------------------

  function PluginBase(site: Site, plugin: Plugin): Path {
    Sub(Sub(Sub(site.home, "plugins/cache"), plugin.market), plugin.name)
  }

  /** With `local` installed its root is active; otherwise that of the one greatest version, however sorting works. */
  lemma ActiveRootIsGreatest(tools: Tools, fs: FS, site: Site, plugin: Plugin, v: string) returns (active: string)
    requires fs.list(PluginBase(site, plugin)).Entries?
    requires var versions := Versions(fs.list(PluginBase(site, plugin)).entries);
      && v in versions
      && SortedPermutation(versions, tools.sortVersions(versions))
      && NoStraddling((set x | x in versions))
    ensures var versions := Versions(fs.list(PluginBase(site, plugin)).entries);
      && active in versions
      && ActiveRoot(tools, fs, site, plugin) == Ok(Some(Sub(PluginBase(site, plugin), active)))
      && (if "local" in versions then active == "local" else v == active || Compare(v, active) == Less)
  {
    hide Compare, NoStraddling, SemVerTheorems.SortedPermutation, Versions;
    var versions := Versions(fs.list(PluginBase(site, plugin)).entries);
    var sorted := tools.sortVersions(versions);
    if "local" in versions {
      active := "local";
    } else {
      var found := if sorted == [] then None else Some(sorted[|sorted| - 1]);
      assert IsActive(versions, found);
      ActiveIsUniqueMaximum(versions, found, v);
      active := found.value;
    }
  }

  // ---------------------------------------------------------------------
  // The worklist visits exactly the reachable layers
  // ---------------------------------------------------------------------

  /** A chain of layers, from a root, each asking for the next. */
  ghost predicate Chain(tools: Tools, fs: FS, site: Site, chain: seq<Path>) {
    && chain != [] && chain[0] in RootLayers(site)
    && forall i :: 0 <= i < |chain| - 1 ==> Requests(tools, fs, site, chain[i]) == Some(chain[i + 1])
  }

  ghost predicate Reachable(tools: Tools, fs: FS, site: Site, p: Path) {
    exists chain :: Chain(tools, fs, site, chain) && chain[|chain| - 1] == p
  }

  lemma ReachableNext(tools: Tools, fs: FS, site: Site, p: Path)
    requires Reachable(tools, fs, site, p) && Requests(tools, fs, site, p).Some?
    ensures Reachable(tools, fs, site, Requests(tools, fs, site, p).value)
  {
    hide Requests, RootLayers;
    var chain :| Chain(tools, fs, site, chain) && chain[|chain| - 1] == p;
    var more := chain + [Requests(tools, fs, site, p).value];
    assert forall i :: 0 <= i < |chain| ==> more[i] == chain[i];
    assert Chain(tools, fs, site, more);
    assert more[|more| - 1] == Requests(tools, fs, site, p).value;
  }

  lemma RootReachable(tools: Tools, fs: FS, site: Site, p: Path)
    requires p in RootLayers(site)
    ensures Reachable(tools, fs, site, p)
  {
    hide Requests, RootLayers;
    assert Chain(tools, fs, site, [p]) && [p][|[p]| - 1] == p;
  }

  /** The queue starts with the roots and goes on with distinct other layers, all of them reachable. */
  ghost predicate QueueOrderly(tools: Tools, fs: FS, site: Site, queue: seq<Path>) {
    && |queue| >= 3 && queue[..3] == RootLayers(site)
    && (forall i, j :: 0 <= i < j < |queue| && 3 <= j ==> queue[i] != queue[j])
    && (forall i :: 0 <= i < |queue| ==> Reachable(tools, fs, site, queue[i]))
  }

  /** Exactly the layers up to the index have been read, in queue order. */
  ghost predicate Logged(log: seq<Entry>, queue: seq<Path>, index: nat) {
    |log| == index <= |queue| && forall i :: 0 <= i < |log| ==> log[i].path == queue[i]
  }

  ghost predicate Orderly(tools: Tools, fs: FS, site: Site, st: Layers) {
    QueueOrderly(tools, fs, site, st.queue) && Logged(st.log, st.queue, st.index)
  }

  lemma OrderlyPush(tools: Tools, fs: FS, site: Site, queue: seq<Path>, p: Path)
    requires QueueOrderly(tools, fs, site, queue) && p !in queue && Reachable(tools, fs, site, p)
    ensures QueueOrderly(tools, fs, site, queue + [p])
  {
    hide Reachable, RootLayers;
    assert (queue + [p])[..3] == queue[..3];
  }

  lemma LoggedNext(log: seq<Entry>, queue: seq<Path>, queue': seq<Path>, index: nat, e: Entry)
    requires Logged(log, queue, index) && index < |queue| && queue <= queue' && e.path == queue[index]
    ensures Logged(log + [e], queue', index + 1)
  {
  }

  lemma VisitQueues(tools: Tools, fs: FS, site: Site, gateKeys: seq<string>, st: Layers)
    requires st.index < |st.queue| && VisitLayer(tools, fs, site, gateKeys, st).Ok?
    ensures var t := VisitLayer(tools, fs, site, gateKeys, st).value;
      var asked := Requests(tools, fs, site, st.queue[st.index]);
      t.queue == if asked.Some? && asked.value !in st.queue then st.queue + [asked.value] else st.queue
  {
    hide LayerRefused, AddAll, ReadText;
  }

  lemma VisitOrderly(tools: Tools, fs: FS, site: Site, gateKeys: seq<string>, st: Layers)
    requires st.index < |st.queue| && VisitLayer(tools, fs, site, gateKeys, st).Ok?
    requires Served(tools, fs, site, st) && Orderly(tools, fs, site, st)
    ensures Orderly(tools, fs, site, VisitLayer(tools, fs, site, gateKeys, st).value)
  {
    VisitQueues(tools, fs, site, gateKeys, st);
    VisitLogs(tools, fs, site, gateKeys, st);
    VisitServes(tools, fs, site, gateKeys, st);
    EntryPath(tools, fs, st.queue[st.index]);
    var t := VisitLayer(tools, fs, site, gateKeys, st).value;
    hide VisitLayer, Requests, Reachable, Served, EntryFor, QueueOrderly, Logged;
    LoggedNext(st.log, st.queue, t.queue, st.index, EntryFor(tools, fs, st.queue[st.index]));
    var asked := Requests(tools, fs, site, st.queue[st.index]);
    if asked.Some? && asked.value !in st.queue {
      QueuedReachable(tools, fs, site, st.queue, st.index);
      ReachableNext(tools, fs, site, st.queue[st.index]);
      OrderlyPush(tools, fs, site, st.queue, asked.value);
    }
  }

  lemma QueuedReachable(tools: Tools, fs: FS, site: Site, queue: seq<Path>, i: nat)
    requires QueueOrderly(tools, fs, site, queue) && i < |queue|
    ensures Reachable(tools, fs, site, queue[i])
  {
  }

  lemma {:induction false} WalkOrderly(tools: Tools, fs: FS, site: Site, gateKeys: seq<string>, st: Layers)
    requires Served(tools, fs, site, st) && WalkLayers(tools, fs, site, gateKeys, st).Ok?
    requires Orderly(tools, fs, site, st)
    ensures var end := WalkLayers(tools, fs, site, gateKeys, st).value;
      && Orderly(tools, fs, site, end) && Served(tools, fs, site, end) && end.index == |end.queue|
      && |end.queue| <= |st.queue| + |Unvisited(fs, st)|
    decreases |Unvisited(fs, st)|, |st.queue| - st.index
  {
    hide VisitLayer, Orderly;
    if st.index < |st.queue| {
      VisitServes(tools, fs, site, gateKeys, st);
      WalkDecreases(tools, fs, site, gateKeys, st);
      VisitOrderly(tools, fs, site, gateKeys, st);
      WalkOrderly(tools, fs, site, gateKeys, VisitLayer(tools, fs, site, gateKeys, st).value);
    }
  }

  lemma InitialOrderly(tools: Tools, fs: FS, site: Site, foreign: seq<string>)
    ensures Orderly(tools, fs, site, InitialLayers(site, foreign))
  {
    var st := InitialLayers(site, foreign);
    assert st.queue[..3] == st.queue;
    forall i | 0 <= i < |st.queue| ensures Reachable(tools, fs, site, st.queue[i]) {
      RootReachable(tools, fs, site, st.queue[i]);
    }
  }

  /** A finished queue is closed under what its layers ask for. */
  lemma {:induction false} ChainQueued(tools: Tools, fs: FS, site: Site, st: Layers, chain: seq<Path>, n: nat)
    requires Orderly(tools, fs, site, st) && Served(tools, fs, site, st) && st.index == |st.queue|
    requires Chain(tools, fs, site, chain) && n < |chain|
    ensures chain[n] in st.queue
  {
    hide Requests, Reachable;
    if n == 0 {
      assert chain[0] in st.queue[..3];
    } else {
      ChainQueued(tools, fs, site, st, chain, n - 1);
      var i :| 0 <= i < |st.queue| && st.queue[i] == chain[n - 1];
    }
  }

  /**
   When no layer is refused, the worklist ends, however the selections cycle:
   it has visited the three roots and every layer reachable from them, in
   queue order, no profile layer twice and nothing else, and no more layers
   than the roots and the existing files together.
   */
  lemma LayersVisitedExactly(tools: Tools, fs: FS, site: Site, gateKeys: seq<string>, foreign: seq<string>, p: Path)
    requires Served(tools, fs, site, InitialLayers(site, foreign))
    requires WalkLayers(tools, fs, site, gateKeys, InitialLayers(site, foreign)).Ok?
    ensures var end := WalkLayers(tools, fs, site, gateKeys, InitialLayers(site, foreign)).value;
      && |end.queue| >= 3 && end.queue[..3] == RootLayers(site)
      && (forall i, j :: 0 <= i < j < |end.queue| && 3 <= j ==> end.queue[i] != end.queue[j])
      && (p in end.queue <==> Reachable(tools, fs, site, p))
      && |end.log| == |end.queue| <= 3 + |fs.files|
      && (forall i :: 0 <= i < |end.log| ==> end.log[i].path == end.queue[i])
  {
    hide Requests, WalkLayers, VisitLayer, RootLayers, Served, Reachable;
    var first := InitialLayers(site, foreign);
    InitialOrderly(tools, fs, site, foreign);
    WalkOrderly(tools, fs, site, gateKeys, first);
    InitialThree(site, foreign);
    assert Unvisited(fs, first) == fs.files.Keys;
    var end := WalkLayers(tools, fs, site, gateKeys, first).value;
    ReachableQueued(tools, fs, site, end, p);
    if p in end.queue {
      var i :| 0 <= i < |end.queue| && end.queue[i] == p;
      QueuedReachable(tools, fs, site, end.queue, i);
    }
  }

  lemma ReachableQueued(tools: Tools, fs: FS, site: Site, st: Layers, p: Path)
    requires Orderly(tools, fs, site, st) && Served(tools, fs, site, st) && st.index == |st.queue|
    ensures Reachable(tools, fs, site, p) ==> p in st.queue
  {
    hide Orderly, Served, Requests, RootLayers;
    if Reachable(tools, fs, site, p) {
      var chain :| Chain(tools, fs, site, chain) && chain[|chain| - 1] == p;
      ChainQueued(tools, fs, site, st, chain, |chain| - 1);
    }
  }

  lemma InitialThree(site: Site, foreign: seq<string>)
    ensures |InitialLayers(site, foreign).queue| == 3
  {
  }
}
