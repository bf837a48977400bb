/** What an accepted audit says about the hook sources it covers. */
module CodexAuditMeaning {
  import opened Lists
  import opened Json
  import Orders
  import opened Inspector
  import opened CodexAudit
  import opened CodexAuditTheorems
  import opened CodexPluginHooks
  import opened CodexLayers
  import InspectorTheorems
  import SemVer

  lemma {:induction false} AddAllMembers(list: seq<string>, more: seq<string>, d: string)
    ensures d in AddAll(list, more) <==> d in list || d in more
  {
    if more != [] {
      var n := |more| - 1;
      assert more == more[..n] + [more[n]];
      AddAllMembers(list, more[..n], d);
    }
  }

  // ---------------------------------------------------------------------
  // Hook files and inline hooks
  // ---------------------------------------------------------------------

  /** A hook of this file, reported under its path. */
  ghost predicate SourceForeign(tools: Tools, fs: FS, audit: Audit, path: Path, d: string) {
    var document := ReadJson(tools, fs, path);
    document.Ok?
    && var sec := Inspect(audit, document.value);
       sec.Ok? && exists f :: f in sec.value.foreign && d == path + ": " + f
  }

  /** A hook of an inline definition, reported under its manifest and its position there. */
  ghost predicate InlineForeign(audit: Audit, inline: Inline, d: string) {
    var sec := Inspect(audit, inline.settings);
    sec.Ok? && exists f :: f in sec.value.foreign
                 && d == inline.manifest + "#hooks[" + SemVer.Decimal(inline.index) + "]" + ": " + f
  }

  lemma LabelledAre(source: string, descriptors: seq<string>, d: string)
    ensures d in Labelled(source, descriptors) <==> exists f :: f in descriptors && d == source + ": " + f
  {
    var labelled := Labelled(source, descriptors);
    if d in labelled {
      var i :| 0 <= i < |labelled| && labelled[i] == d;
      assert descriptors[i] in descriptors;
    }
    if f :| f in descriptors && d == source + ": " + f {
      var i :| 0 <= i < |descriptors| && descriptors[i] == f;
      assert labelled[i] == d;
    }
  }

  /** Where the audit looks. */
  lemma Places(site: Site, profile: string)
    ensures ProjectHooks(site) == site.project + "/" + ".codex" + "/" + "hooks.json"
    ensures UserHooks(site) == site.home + "/" + "hooks.json"
    ensures RootLayers(site) == [site.home + "/" + "config.toml", site.project + "/" + ".codex" + "/" + "config.toml",
                                 site.home + "/" + "requirements.toml"]
    ensures ProfileLayer(site, profile) == site.home + "/" + (profile + ".config.toml")
  {
  }

  ghost predicate AnyFile(tools: Tools, fs: FS, audit: Audit, paths: seq<Path>, d: string) {
    exists p :: p in paths && SourceForeign(tools, fs, audit, p, d)
  }

  ghost predicate AnyInline(audit: Audit, inline: seq<Inline>, d: string) {
    exists h :: h in inline && InlineForeign(audit, h, d)
  }

  lemma AnyFileSnoc(tools: Tools, fs: FS, audit: Audit, paths: seq<Path>, d: string)
    requires paths != []
    ensures var n := |paths| - 1;
      AnyFile(tools, fs, audit, paths, d) <==>
      AnyFile(tools, fs, audit, paths[..n], d) || SourceForeign(tools, fs, audit, paths[n], d)
  {
    hide SourceForeign;
    var n := |paths| - 1;
    assert paths == paths[..n] + [paths[n]];
    assert paths[n] in paths;
  }

  lemma AnyInlineSnoc(audit: Audit, inline: seq<Inline>, d: string)
    requires inline != []
    ensures var n := |inline| - 1;
      AnyInline(audit, inline, d) <==> AnyInline(audit, inline[..n], d) || InlineForeign(audit, inline[n], d)
  {
    hide InlineForeign;
    var n := |inline| - 1;
    assert inline == inline[..n] + [inline[n]];
    assert inline[n] in inline;
  }

  lemma {:induction false} FilesForeign(
    tools: Tools, fs: FS, audit: Audit, paths: seq<Path>, foreign: seq<string>, d: string)
    requires InspectFiles(tools, fs, audit, paths, foreign).Ok?
    ensures d in InspectFiles(tools, fs, audit, paths, foreign).value <==>
            d in foreign || AnyFile(tools, fs, audit, paths, d)
  {
    hide Inspect, ReadJson, AddAll, Labelled, AnyFile;
    if paths == [] {
      NoFiles(tools, fs, audit, d);
    } else {
      var n := |paths| - 1;
      AnyFileSnoc(tools, fs, audit, paths, d);
      FilesForeign(tools, fs, audit, paths[..n], foreign, d);
      var before := InspectFiles(tools, fs, audit, paths[..n], foreign).value;
      var sec := Inspect(audit, ReadJson(tools, fs, paths[n]).value).value;
      AddAllMembers(before, Labelled(paths[n], sec.foreign), d);
      LabelledAre(paths[n], sec.foreign, d);
    }
  }

  lemma {:induction false} InlinesForeign(audit: Audit, inline: seq<Inline>, foreign: seq<string>, d: string)
    requires InspectInline(audit, inline, foreign).Ok?
    ensures d in InspectInline(audit, inline, foreign).value <==> d in foreign || AnyInline(audit, inline, d)
  {
    hide Inspect, AddAll, Labelled, AnyInline, SemVer.Decimal;
    if inline == [] {
      NoInline(audit, d);
    } else {
      var n := |inline| - 1;
      AnyInlineSnoc(audit, inline, d);
      InlinesForeign(audit, inline[..n], foreign, d);
      var before := InspectInline(audit, inline[..n], foreign).value;
      var sec := Inspect(audit, inline[n].settings).value;
      AddAllMembers(before, Labelled(InlineLabel(inline[n]), sec.foreign), d);
      LabelledAre(InlineLabel(inline[n]), sec.foreign, d);
    }
  }

  lemma NoFiles(tools: Tools, fs: FS, audit: Audit, d: string)
    ensures !AnyFile(tools, fs, audit, [], d)
  {
  }

  lemma NoInline(audit: Audit, d: string)
    ensures !AnyInline(audit, [], d)
  {
  }

  // ---------------------------------------------------------------------
  // Layers
  // ---------------------------------------------------------------------

  /** The layer as the audit reads it; nothing for an absent or refused one. */
  function LayerAt(tools: Tools, fs: FS, site: Site, path: Path): Option<Scan> {
    match ReadText(tools, fs, path)
    case Ok(Some(text)) => (match ScanLayer(tools, site, path, text) case Ok(scan) => Some(scan) case Err(_) => None)
    case _ => None
  }

  predicate LayerForeign(tools: Tools, fs: FS, site: Site, path: Path, d: string) {
    var scan := LayerAt(tools, fs, site, path);
    scan.Some? && d in scan.value.foreign
  }

  /** Absent, or scanned and found not to switch the gate off. */
  predicate LayerAllows(tools: Tools, fs: FS, site: Site, gateKeys: seq<string>, path: Path) {
    || path !in fs.files
    || (LayerAt(tools, fs, site, path).Some? && !LayerRefused(LayerAt(tools, fs, site, path).value, gateKeys))
  }

  lemma VisitMeans(tools: Tools, fs: FS, site: Site, gateKeys: seq<string>, st: Layers, d: string)
    requires st.index < |st.queue| && VisitLayer(tools, fs, site, gateKeys, st).Ok?
    ensures LayerAllows(tools, fs, site, gateKeys, st.queue[st.index])
    ensures d in VisitLayer(tools, fs, site, gateKeys, st).value.foreign <==>
            d in st.foreign || LayerForeign(tools, fs, site, st.queue[st.index], d)
  {
    hide LayerRefused, AddAll, Queued;
    var scan := LayerAt(tools, fs, site, st.queue[st.index]);
    if scan.Some? { AddAllMembers(st.foreign, scan.value.foreign, d); }
  }

  /** The layers from some position of the queue on. */
  ghost predicate AnyLayer(tools: Tools, fs: FS, site: Site, queue: seq<Path>, from: nat, d: string) {
    exists i :: from <= i < |queue| && LayerForeign(tools, fs, site, queue[i], d)
  }

  ghost predicate AllAllow(tools: Tools, fs: FS, site: Site, gateKeys: seq<string>, queue: seq<Path>, from: nat) {
    forall i :: from <= i < |queue| ==> LayerAllows(tools, fs, site, gateKeys, queue[i])
  }

  lemma FirstLayer(
    tools: Tools, fs: FS, site: Site, gateKeys: seq<string>, queue: seq<Path>, from: nat, d: string)
    requires from < |queue|
    ensures AnyLayer(tools, fs, site, queue, from, d) <==>
            LayerForeign(tools, fs, site, queue[from], d) || AnyLayer(tools, fs, site, queue, from + 1, d)
    ensures AllAllow(tools, fs, site, gateKeys, queue, from) <==>
            LayerAllows(tools, fs, site, gateKeys, queue[from]) && AllAllow(tools, fs, site, gateKeys, queue, from + 1)
  {
    hide LayerForeign, LayerAllows;
  }

  lemma LastLayer(tools: Tools, fs: FS, site: Site, gateKeys: seq<string>, queue: seq<Path>, d: string)
    ensures !AnyLayer(tools, fs, site, queue, |queue|, d) && AllAllow(tools, fs, site, gateKeys, queue, |queue|)
  {
  }

  lemma {:induction false} WalkMeans(tools: Tools, fs: FS, site: Site, gateKeys: seq<string>, st: Layers, d: string)
    requires Served(tools, fs, site, st) && WalkLayers(tools, fs, site, gateKeys, st).Ok?
    ensures var end := WalkLayers(tools, fs, site, gateKeys, st).value;
      && st.queue <= end.queue
      && AllAllow(tools, fs, site, gateKeys, end.queue, st.index)
      && (d in end.foreign <==> d in st.foreign || AnyLayer(tools, fs, site, end.queue, st.index, d))
    decreases |Unvisited(fs, st)|, |st.queue| - st.index
  {
    hide VisitLayer, WalkLayers, LayerForeign, LayerAllows, AnyLayer, AllAllow, Unvisited;
    if st.index == |st.queue| {
      WalkDone(tools, fs, site, gateKeys, st);
      LastLayer(tools, fs, site, gateKeys, st.queue, d);
    } else {
      WalkStep(tools, fs, site, gateKeys, st);
      var t := VisitLayer(tools, fs, site, gateKeys, st).value;
      VisitMeans(tools, fs, site, gateKeys, st, d);
      WalkMeans(tools, fs, site, gateKeys, t, d);
      var end := WalkLayers(tools, fs, site, gateKeys, t).value;
      assert end.queue[st.index] == st.queue[st.index];
      FirstLayer(tools, fs, site, gateKeys, end.queue, st.index, d);
    }
  }

  // ---------------------------------------------------------------------
  // Which layer decides whether plugins load
  // ---------------------------------------------------------------------

  function FeatureAt(tools: Tools, fs: FS, site: Site, path: Path): Option<bool> {
    match LayerAt(tools, fs, site, path) case Some(scan) => scan.pluginsFeature case None => None
  }

  /** The profile layer the user's configuration selects. */
  function Selected(tools: Tools, fs: FS, site: Site): Option<Path> { Requests(tools, fs, site, UserConfig(site)) }

  ghost predicate Visited(st: Layers, p: Path) { exists i :: 0 <= i < st.index && i < |st.queue| && st.queue[i] == p }

  /** What has been noted after the visits so far. */
  ghost predicate FeaturesNoted(tools: Tools, fs: FS, site: Site, st: Layers) {
    && (st.index == 0 ==> st.queue != [] && st.queue[0] == UserConfig(site) && st.selected == None)
    && (st.index > 0 ==> st.selected == Selected(tools, fs, site))
    && st.projectFeature
       == (if Visited(st, ProjectConfig(site)) then ProjectFeature(tools, fs, site) else None)
    && st.profileFeature
       == (if st.selected.Some? && Visited(st, st.selected.value) then ProfileFeature(tools, fs, site) else None)
  }

  /** The project's setting, unless the user's configuration is the same file. */
  function ProjectFeature(tools: Tools, fs: FS, site: Site): Option<bool> {
    if ProjectConfig(site) == UserConfig(site) then None else FeatureAt(tools, fs, site, ProjectConfig(site))
  }

  /** The selected profile's setting, unless its layer is one of the other two files. */
  function ProfileFeature(tools: Tools, fs: FS, site: Site): Option<bool> {
    match Selected(tools, fs, site)
    case Some(p) => if p == UserConfig(site) || p == ProjectConfig(site) then None else FeatureAt(tools, fs, site, p)
    case None => None
  }

  /** The project's setting wins, then the selected profile's, then the user's; plugins load unless it says no. */
  predicate PluginsLoad(tools: Tools, fs: FS, site: Site) {
    if ProjectFeature(tools, fs, site).Some? then ProjectFeature(tools, fs, site).value
    else if ProfileFeature(tools, fs, site).Some? then ProfileFeature(tools, fs, site).value
    else FeatureAt(tools, fs, site, UserConfig(site)) != Some(false)
  }

  lemma VisitedNext(st: Layers, t: Layers, p: Path)
    requires st.index < |st.queue| && t.index == st.index + 1 && st.queue <= t.queue
    ensures Visited(t, p) <==> Visited(st, p) || p == st.queue[st.index]
  {
    assert forall i :: 0 <= i < |st.queue| ==> t.queue[i] == st.queue[i];
    if p == st.queue[st.index] { assert t.queue[st.index] == p; }
  }

  lemma VisitNotes(tools: Tools, fs: FS, site: Site, gateKeys: seq<string>, st: Layers)
    requires FeaturesNoted(tools, fs, site, st)
    requires st.index < |st.queue| && VisitLayer(tools, fs, site, gateKeys, st).Ok?
    requires Served(tools, fs, site, st)
    ensures FeaturesNoted(tools, fs, site, VisitLayer(tools, fs, site, gateKeys, st).value)
  {
    hide VisitLayer, Served, Visited, UserConfig, ProjectConfig, Selected, FeatureAt, LayerAt;
    VisitServes(tools, fs, site, gateKeys, st);
    VisitFields(tools, fs, site, gateKeys, st);
    var t := VisitLayer(tools, fs, site, gateKeys, st).value;
    VisitedNext(st, t, ProjectConfig(site));
    if t.selected.Some? { VisitedNext(st, t, t.selected.value); }
    if st.index == 0 {
      NothingVisited(st, ProjectConfig(site));
      if t.selected.Some? { NothingVisited(st, t.selected.value); }
    }
  }

  /** What one visit notes, by which layer it is. */
  lemma VisitFields(tools: Tools, fs: FS, site: Site, gateKeys: seq<string>, st: Layers)
    requires st.index < |st.queue| && VisitLayer(tools, fs, site, gateKeys, st).Ok?
    ensures var t := VisitLayer(tools, fs, site, gateKeys, st).value;
      var path := st.queue[st.index];
      var here := LayerAt(tools, fs, site, path).Some?;
      && (here ==> FeatureAt(tools, fs, site, path) == LayerAt(tools, fs, site, path).value.pluginsFeature)
      && (!here ==> FeatureAt(tools, fs, site, path) == None)
      && t.selected == (if here && path == UserConfig(site) then Selected(tools, fs, site) else st.selected)
      && (!here && path == UserConfig(site) ==> Selected(tools, fs, site) == None)
      && t.projectFeature
         == (if here && path != UserConfig(site) && path == ProjectConfig(site) then FeatureAt(tools, fs, site, path)
             else st.projectFeature)
      && t.profileFeature
         == (if here && path != UserConfig(site) && path != ProjectConfig(site) && st.selected == Some(path)
             then FeatureAt(tools, fs, site, path) else st.profileFeature)
  {
    hide LayerRefused, AddAll, Queued, UserConfig, ProjectConfig, ProfileLayer;
  }

  lemma NothingVisited(st: Layers, p: Path)
    requires st.index == 0
    ensures !Visited(st, p)
  {
  }

  lemma {:induction false} WalkNotes(tools: Tools, fs: FS, site: Site, gateKeys: seq<string>, st: Layers)
    requires FeaturesNoted(tools, fs, site, st)
    requires Served(tools, fs, site, st) && WalkLayers(tools, fs, site, gateKeys, st).Ok?
    ensures var end := WalkLayers(tools, fs, site, gateKeys, st).value;
      FeaturesNoted(tools, fs, site, end) && end.index == |end.queue|
    decreases |Unvisited(fs, st)|, |st.queue| - st.index
  {
    hide VisitLayer, FeaturesNoted;
    if st.index < |st.queue| {
      VisitServes(tools, fs, site, gateKeys, st);
      WalkDecreases(tools, fs, site, gateKeys, st);
      VisitNotes(tools, fs, site, gateKeys, st);
      WalkNotes(tools, fs, site, gateKeys, VisitLayer(tools, fs, site, gateKeys, st).value);
    }
  }

  lemma QueuedIsVisited(st: Layers, p: Path)
    requires st.index == |st.queue|
    ensures Visited(st, p) <==> p in st.queue
  {
  }

  /** Whether plugins load is decided by the setting of highest precedence, whichever of the files coincide. */
  lemma PluginSwitchPrecedence(tools: Tools, fs: FS, site: Site)
    requires AuditCodex(tools, fs, site).Ok?
    ensures AuditCodex(tools, fs, site).value.1.loading == Some(PluginsLoad(tools, fs, site))
  {
    hide AuditHookFiles, WalkLayers, Served, PluginsLoad, LoadsPlugins;
    var sec := AuditHookFiles(tools, fs, site).value;
    InitialServed(tools, fs, site, sec.foreign);
    var gateKeys := GateKeys(ProjectHooks(site), sec.gates);
    WalkDecidesLoading(tools, fs, site, gateKeys, sec.foreign);
    AuditLoading(tools, fs, site, EntriesFor(tools, fs, [ProjectHooks(site), UserHooks(site)]), sec,
                 WalkLayers(tools, fs, site, gateKeys, InitialLayers(site, sec.foreign)).value);
  }

  lemma WalkDecidesLoading(tools: Tools, fs: FS, site: Site, gateKeys: seq<string>, foreign: seq<string>)
    requires Served(tools, fs, site, InitialLayers(site, foreign))
    requires WalkLayers(tools, fs, site, gateKeys, InitialLayers(site, foreign)).Ok?
    ensures var end := WalkLayers(tools, fs, site, gateKeys, InitialLayers(site, foreign)).value;
      && LoadsPlugins(end) == PluginsLoad(tools, fs, site)
      && end.userScan == LayerAt(tools, fs, site, UserConfig(site))
  {
    hide WalkLayers, Served, FeatureAt, ProjectFeature, ProfileFeature, FeaturesNoted, Visited, CurrentScan, LayerAt;
    var first := InitialLayers(site, foreign);
    InitialNotes(tools, fs, site, foreign);
    WalkNotes(tools, fs, site, gateKeys, first);
    WalkKeepsUserScan(tools, fs, site, gateKeys, first);
    ScanIsLayer(tools, fs, site, WalkLayers(tools, fs, site, gateKeys, first).value);
    FinalFeatures(tools, fs, site, gateKeys, foreign);
  }

  lemma AuditLoading(tools: Tools, fs: FS, site: Site, before: seq<Entry>, sec: Security, st: Layers)
    requires AuditPlugins(tools, fs, site, before, sec, st).Ok?
    ensures AuditPlugins(tools, fs, site, before, sec, st).value.1.loading == Some(LoadsPlugins(st))
  {
    hide CollectAll, PluginsToLoad, InspectFiles, InspectInline, EntriesFor, LoadsPlugins;
  }

  lemma InitialNotes(tools: Tools, fs: FS, site: Site, foreign: seq<string>)
    ensures FeaturesNoted(tools, fs, site, InitialLayers(site, foreign))
    ensures UserScanCurrent(tools, fs, site, InitialLayers(site, foreign))
  {
    hide FeatureAt, Selected;
  }

  /** The recorded user scan is the user's layer. */
  lemma ScanIsLayer(tools: Tools, fs: FS, site: Site, st: Layers)
    requires CurrentScan(tools, fs, site) == Ok(st.userScan)
    ensures st.userScan == LayerAt(tools, fs, site, UserConfig(site))
    ensures FeatureAt(tools, fs, site, UserConfig(site))
            == match st.userScan case Some(scan) => scan.pluginsFeature case None => None
  {
  }

  /** At the end both other layers have been visited. */
  lemma FinalFeatures(tools: Tools, fs: FS, site: Site, gateKeys: seq<string>, foreign: seq<string>)
    requires Served(tools, fs, site, InitialLayers(site, foreign))
    requires WalkLayers(tools, fs, site, gateKeys, InitialLayers(site, foreign)).Ok?
    requires var end := WalkLayers(tools, fs, site, gateKeys, InitialLayers(site, foreign)).value;
      FeaturesNoted(tools, fs, site, end) && end.index == |end.queue| > 0
    ensures var end := WalkLayers(tools, fs, site, gateKeys, InitialLayers(site, foreign)).value;
      && end.projectFeature == ProjectFeature(tools, fs, site)
      && end.profileFeature == ProfileFeature(tools, fs, site)
  {
    hide WalkLayers, Served, FeatureAt, Reachable, Requests;
    var end := WalkLayers(tools, fs, site, gateKeys, InitialLayers(site, foreign)).value;
    RootReachable(tools, fs, site, ProjectConfig(site));
    LayersVisitedExactly(tools, fs, site, gateKeys, foreign, ProjectConfig(site));
    QueuedIsVisited(end, ProjectConfig(site));
    var selected := Selected(tools, fs, site);
    if selected.Some? {
      RootReachable(tools, fs, site, UserConfig(site));
      ReachableNext(tools, fs, site, UserConfig(site));
      LayersVisitedExactly(tools, fs, site, gateKeys, foreign, selected.value);
      QueuedIsVisited(end, selected.value);
    }
    hide Visited;
  }

  // ---------------------------------------------------------------------
  // The whole audit
  // ---------------------------------------------------------------------

  /** A plugin the child would load: plugins load at all, and the user's configuration enables it. */
  ghost predicate EnabledPlugin(tools: Tools, fs: FS, site: Site, plugin: Plugin) {
    PluginsLoad(tools, fs, site) && Configured(ConfiguredPlugins(LayerAt(tools, fs, site, UserConfig(site))), plugin)
  }

  ghost predicate PluginFile(tools: Tools, fs: FS, site: Site, p: Path) {
    exists plugin :: EnabledPlugin(tools, fs, site, plugin) && Contributes(tools, fs, site, plugin, p)
  }

  ghost predicate PluginInline(tools: Tools, fs: FS, site: Site, h: Inline) {
    exists plugin :: EnabledPlugin(tools, fs, site, plugin) && ContributesInline(tools, fs, site, plugin, h)
  }

  /** Reported by one of the sources the child would load from. */
  ghost predicate FromSomeSource(tools: Tools, fs: FS, site: Site, d: string) {
    || SourceForeign(tools, fs, site.audit, ProjectHooks(site), d)
    || SourceForeign(tools, fs, site.audit, UserHooks(site), d)
    || (exists p :: Reachable(tools, fs, site, p) && LayerForeign(tools, fs, site, p, d))
    || (exists p :: PluginFile(tools, fs, site, p) && SourceForeign(tools, fs, site.audit, p, d))
    || (exists h :: PluginInline(tools, fs, site, h) && InlineForeign(site.audit, h, d))
  }

  /** The inventory holds exactly the hook sources of the plugins the child would load. */
  ghost predicate Complete(tools: Tools, fs: FS, site: Site, hooks: Inventory) {
    && (forall p :: p in hooks.files <==> PluginFile(tools, fs, site, p))
    && (forall h :: h in hooks.inline <==> PluginInline(tools, fs, site, h))
  }

  lemma PluginsComplete(tools: Tools, fs: FS, site: Site, before: seq<Entry>, sec: Security, st: Layers)
    requires Sorts(tools) && AuditPlugins(tools, fs, site, before, sec, st).Ok?
    requires LoadsPlugins(st) == PluginsLoad(tools, fs, site)
    requires st.userScan == LayerAt(tools, fs, site, UserConfig(site))
    ensures Complete(tools, fs, site, AuditPlugins(tools, fs, site, before, sec, st).value.1.hooks)
  {
    hide CollectAll, InspectFiles, InspectInline, EntriesFor, PluginsLoad, LoadsPlugins, LayerAt, Sorts, EnabledPlugin;
    hide Complete, PluginsToLoad, InventoryOf;
    var enabled := PluginsToLoad(LoadsPlugins(st), st.userScan).value;
    forall plugin ensures plugin in enabled <==> EnabledPlugin(tools, fs, site, plugin) {
      EnabledAre(tools, fs, site, st, plugin);
    }
    FoundComplete(tools, fs, site, enabled);
  }

  lemma SortsKeep(tools: Tools, found: Found)
    requires Sorts(tools)
    ensures forall p :: p in InventoryOf(tools, found).files <==> p in found.files
    ensures forall h :: h in InventoryOf(tools, found).inline <==> h in found.inline
  {
    var l := found.inline;
    assert multiset(tools.sortInline(l)) == multiset(l);
    assert forall h :: h in tools.sortInline(l) <==> h in multiset(tools.sortInline(l));
  }

  lemma HookFilesMean(tools: Tools, fs: FS, site: Site, d: string)
    requires AuditHookFiles(tools, fs, site).Ok?
    ensures var sec := AuditHookFiles(tools, fs, site).value;
      && ReadJson(tools, fs, ProjectHooks(site)).Ok?
      && var own := Inspect(site.audit, ReadJson(tools, fs, ProjectHooks(site)).value);
         && own.Ok? && sec.gate == own.value.gate && sec.gates == own.value.gates
         && (d in sec.foreign <==>
               SourceForeign(tools, fs, site.audit, ProjectHooks(site), d)
               || SourceForeign(tools, fs, site.audit, UserHooks(site), d))
  {
    hide Inspect, Labelled, InspectSource;
    var own := Inspect(site.audit, ReadJson(tools, fs, ProjectHooks(site)).value).value;
    LabelledAre(ProjectHooks(site), own.foreign, d);
    if UserHooks(site) in fs.files {
      FilesForeign(tools, fs, site.audit, [UserHooks(site)], Labelled(ProjectHooks(site), own.foreign), d);
    }
  }

  lemma PluginsMean(tools: Tools, fs: FS, site: Site, before: seq<Entry>, sec: Security, st: Layers, d: string)
    requires AuditPlugins(tools, fs, site, before, sec, st).Ok?
    ensures var v := AuditPlugins(tools, fs, site, before, sec, st).value;
      && v.0.gate == sec.gate && v.0.gates == sec.gates
      && (d in v.0.foreign <==>
            d in st.foreign
            || AnyFile(tools, fs, site.audit, v.1.hooks.files, d)
            || AnyInline(site.audit, v.1.hooks.inline, d))
  {
    hide CollectAll, PluginsToLoad, InspectFiles, InspectInline, AnyFile, AnyInline, EntriesFor;
    var v := AuditPlugins(tools, fs, site, before, sec, st).value;
    FilesForeign(tools, fs, site.audit, v.1.hooks.files, st.foreign, d);
    var withFiles := InspectFiles(tools, fs, site.audit, v.1.hooks.files, st.foreign).value;
    InlinesForeign(site.audit, v.1.hooks.inline, withFiles, d);
  }

  lemma LayersMean(tools: Tools, fs: FS, site: Site, gateKeys: seq<string>, foreign: seq<string>, d: string)
    requires Served(tools, fs, site, InitialLayers(site, foreign))
    requires WalkLayers(tools, fs, site, gateKeys, InitialLayers(site, foreign)).Ok?
    ensures var end := WalkLayers(tools, fs, site, gateKeys, InitialLayers(site, foreign)).value;
      && (forall p :: Reachable(tools, fs, site, p) ==> LayerAllows(tools, fs, site, gateKeys, p))
      && (d in end.foreign <==>
            d in foreign || exists p :: Reachable(tools, fs, site, p) && LayerForeign(tools, fs, site, p, d))
  {
    hide WalkLayers, Served, Reachable, LayerAllows, LayerForeign, RootLayers;
    WalkMeans(tools, fs, site, gateKeys, InitialLayers(site, foreign), d);
    var end := WalkLayers(tools, fs, site, gateKeys, InitialLayers(site, foreign)).value;
    forall p ensures p in end.queue <==> Reachable(tools, fs, site, p) {
      LayersVisitedExactly(tools, fs, site, gateKeys, foreign, p);
    }
    forall p | Reachable(tools, fs, site, p) ensures LayerAllows(tools, fs, site, gateKeys, p) {
      var i :| 0 <= i < |end.queue| && end.queue[i] == p;
    }
    if p :| Reachable(tools, fs, site, p) && LayerForeign(tools, fs, site, p, d) {
      var i :| 0 <= i < |end.queue| && end.queue[i] == p;
    }
  }

  // ---------------------------------------------------------------------
  // Which audits are accepted
  // ---------------------------------------------------------------------

  /** A hook file that is there, is JSON, and passes the inspection. */
  ghost predicate HookFileOk(tools: Tools, fs: FS, audit: Audit, p: Path) {
    var document := ReadJson(tools, fs, p);
    document.Ok? && InspectorTheorems.Acceptable(audit, document.value)
  }

  /** The gate positions of the project's file. */
  function ProjectGates(tools: Tools, fs: FS, site: Site): seq<(nat, nat)> {
    match ReadJson(tools, fs, ProjectHooks(site))
    case Ok(settings) => (match Inspect(site.audit, settings) case Ok(sec) => sec.gates case Err(_) => [])
    case Err(_) => []
  }

  /** An absent layer, or one that scans and lets the project's gate run. */
  ghost predicate LayerLets(tools: Tools, fs: FS, site: Site, p: Path) {
    p !in fs.files
    || (LayerAt(tools, fs, site, p).Some?
        && LetsGateRun(site, ProjectGates(tools, fs, site), LayerAt(tools, fs, site, p).value))
  }

  lemma LetsIff(tools: Tools, fs: FS, site: Site, p: Path)
    ensures LayerAllows(tools, fs, site, GateKeys(ProjectHooks(site), ProjectGates(tools, fs, site)), p) <==>
            LayerLets(tools, fs, site, p)
  {
    hide LayerRefused, LetsGateRun, LayerAt, GateKeys, ProjectGates;
    if LayerAt(tools, fs, site, p).Some? {
      RefusedIff(site, ProjectGates(tools, fs, site), LayerAt(tools, fs, site, p).value);
    }
  }

  lemma VisitOkIff(tools: Tools, fs: FS, site: Site, gateKeys: seq<string>, st: Layers)
    requires st.index < |st.queue|
    ensures VisitLayer(tools, fs, site, gateKeys, st).Ok? <==>
            LayerAllows(tools, fs, site, gateKeys, st.queue[st.index])
  {
    hide LayerRefused, AddAll, Queued;
  }

  /** If every reachable layer lets the gate run, the walk ends without a refusal. */
  lemma {:induction false} WalkAccepts(tools: Tools, fs: FS, site: Site, gateKeys: seq<string>, st: Layers)
    requires Served(tools, fs, site, st) && Orderly(tools, fs, site, st)
    requires forall p :: Reachable(tools, fs, site, p) ==> LayerAllows(tools, fs, site, gateKeys, p)
    ensures WalkLayers(tools, fs, site, gateKeys, st).Ok?
    decreases |Unvisited(fs, st)|, |st.queue| - st.index
  {
    hide VisitLayer, Orderly, LayerAllows, Reachable;
    if st.index < |st.queue| {
      OrderlyReachable(tools, fs, site, st);
      VisitOkIff(tools, fs, site, gateKeys, st);
      VisitServes(tools, fs, site, gateKeys, st);
      WalkDecreases(tools, fs, site, gateKeys, st);
      VisitOrderly(tools, fs, site, gateKeys, st);
      WalkAccepts(tools, fs, site, gateKeys, VisitLayer(tools, fs, site, gateKeys, st).value);
    }
  }

  lemma OrderlyReachable(tools: Tools, fs: FS, site: Site, st: Layers)
    requires Orderly(tools, fs, site, st) && st.index < |st.queue|
    ensures Reachable(tools, fs, site, st.queue[st.index])
  {
    hide Reachable, Logged;
    QueuedReachable(tools, fs, site, st.queue, st.index);
  }

  lemma SourceOkIff(audit: Audit, source: string, settings: Json, foreign: seq<string>)
    ensures InspectSource(audit, source, settings, foreign).Ok? <==> InspectorTheorems.Acceptable(audit, settings)
  {
    hide Inspect, InspectorTheorems.Acceptable, AddAll, Labelled;
    InspectorTheorems.AcceptedIff(audit, settings);
  }

  lemma {:induction false} FilesOkIff(tools: Tools, fs: FS, audit: Audit, paths: seq<Path>, foreign: seq<string>)
    ensures InspectFiles(tools, fs, audit, paths, foreign).Ok? <==>
            forall p :: p in paths ==> HookFileOk(tools, fs, audit, p)
  {
    hide InspectSource, ReadJson, InspectorTheorems.Acceptable;
    if paths != [] {
      var n := |paths| - 1;
      assert paths == paths[..n] + [paths[n]];
      FilesOkIff(tools, fs, audit, paths[..n], foreign);
      assert paths[n] in paths && forall p :: p in paths ==> p in paths[..n] || p == paths[n];
      var before, document := InspectFiles(tools, fs, audit, paths[..n], foreign), ReadJson(tools, fs, paths[n]);
      if before.Ok? && document.Ok? { SourceOkIff(audit, paths[n], document.value, before.value); }
    }
  }

  lemma {:induction false} InlinesOkIff(audit: Audit, inline: seq<Inline>, foreign: seq<string>)
    ensures InspectInline(audit, inline, foreign).Ok? <==>
            forall h :: h in inline ==> InspectorTheorems.Acceptable(audit, h.settings)
  {
    hide InspectSource, InlineLabel, InspectorTheorems.Acceptable;
    if inline != [] {
      var n := |inline| - 1;
      assert inline == inline[..n] + [inline[n]];
      InlinesOkIff(audit, inline[..n], foreign);
      var before := InspectInline(audit, inline[..n], foreign);
      if before.Ok? { SourceOkIff(audit, InlineLabel(inline[n]), inline[n].settings, before.value); }
    }
  }

  lemma HookFilesOkIff(tools: Tools, fs: FS, site: Site)
    ensures AuditHookFiles(tools, fs, site).Ok? <==>
      && HookFileOk(tools, fs, site.audit, ProjectHooks(site))
      && (UserHooks(site) in fs.files ==> HookFileOk(tools, fs, site.audit, UserHooks(site)))
    ensures AuditHookFiles(tools, fs, site).Ok? ==>
      AuditHookFiles(tools, fs, site).value.gates == ProjectGates(tools, fs, site)
  {
    hide Inspect, Labelled, InspectFiles, InspectorTheorems.Acceptable, UserHooks, ProjectHooks;
    var document := ReadJson(tools, fs, ProjectHooks(site));
    if document.Ok? {
      InspectorTheorems.AcceptedIff(site.audit, document.value);
      var own := Inspect(site.audit, document.value);
      if own.Ok? {
        FilesOkIff(tools, fs, site.audit, [UserHooks(site)], Labelled(ProjectHooks(site), own.value.foreign));
      }
    }
  }

  /** Everything the enabled plugins contribute can be collected and passes the inspection. */
  ghost predicate PluginsOk(tools: Tools, fs: FS, site: Site) {
    && (PluginsLoad(tools, fs, site) ==> AllKeys(ConfiguredPlugins(LayerAt(tools, fs, site, UserConfig(site)))))
    && (forall plugin :: EnabledPlugin(tools, fs, site, plugin) ==> Sound(tools, fs, site, plugin))
    && (forall p :: PluginFile(tools, fs, site, p) ==> HookFileOk(tools, fs, site.audit, p))
    && (forall h :: PluginInline(tools, fs, site, h) ==> InspectorTheorems.Acceptable(site.audit, h.settings))
  }

  lemma EnabledAre(tools: Tools, fs: FS, site: Site, st: Layers, plugin: Plugin)
    requires LoadsPlugins(st) == PluginsLoad(tools, fs, site)
    requires st.userScan == LayerAt(tools, fs, site, UserConfig(site))
    requires PluginsToLoad(LoadsPlugins(st), st.userScan).Ok?
    ensures plugin in PluginsToLoad(LoadsPlugins(st), st.userScan).value <==>
            EnabledPlugin(tools, fs, site, plugin)
  {
    hide EnabledPlugins, PluginsLoad, LoadsPlugins, LayerAt, Configured;
    if LoadsPlugins(st) { EnabledIff(ConfiguredPlugins(st.userScan), plugin); }
  }

  /** The inventory of what was found holds exactly what the plugins contribute. */
  lemma FoundComplete(tools: Tools, fs: FS, site: Site, enabled: seq<Plugin>)
    requires Sorts(tools) && CollectAll(tools, fs, site, enabled).Ok?
    requires forall plugin :: plugin in enabled <==> EnabledPlugin(tools, fs, site, plugin)
    ensures Complete(tools, fs, site, InventoryOf(tools, CollectAll(tools, fs, site, enabled).value))
  {
    hide CollectAll, EnabledPlugin, Sorts, Contributes, ContributesInline, InventoryOf;
    var found := CollectAll(tools, fs, site, enabled).value;
    var hooks := InventoryOf(tools, found);
    SortsKeep(tools, found);
    forall p ensures p in hooks.files <==> PluginFile(tools, fs, site, p) {
      CollectedIff(tools, fs, site, enabled, p, Inline("", 0, Null));
    }
    forall h ensures h in hooks.inline <==> PluginInline(tools, fs, site, h) {
      CollectedIff(tools, fs, site, enabled, "", h);
    }
  }

  lemma PluginsOkIff(tools: Tools, fs: FS, site: Site, before: seq<Entry>, sec: Security, st: Layers)
    requires Sorts(tools) && LoadsPlugins(st) == PluginsLoad(tools, fs, site)
    requires st.userScan == LayerAt(tools, fs, site, UserConfig(site))
    ensures AuditPlugins(tools, fs, site, before, sec, st).Ok? <==> PluginsOk(tools, fs, site)
  {
    hide CollectAll, InspectFiles, InspectInline, EntriesFor, PluginsLoad, LoadsPlugins, EnabledPlugins, LayerAt;
    hide EnabledPlugin, Sorts, PluginFile, PluginInline, HookFileOk, Sound, InspectorTheorems.Acceptable, AllKeys;
    EnabledOkIff(ConfiguredPlugins(st.userScan));
    var enabled := PluginsToLoad(LoadsPlugins(st), st.userScan);
    if enabled.Ok? {
      forall plugin ensures plugin in enabled.value <==> EnabledPlugin(tools, fs, site, plugin) {
        EnabledAre(tools, fs, site, st, plugin);
      }
      CollectAllOkIff(tools, fs, site, enabled.value);
      var found := CollectAll(tools, fs, site, enabled.value);
      if found.Ok? {
        FoundComplete(tools, fs, site, enabled.value);
        var hooks := InventoryOf(tools, found.value);
        hide InventoryOf;
        FilesOkIff(tools, fs, site.audit, hooks.files, st.foreign);
        var withFiles := InspectFiles(tools, fs, site.audit, hooks.files, st.foreign);
        if withFiles.Ok? { InlinesOkIff(site.audit, hooks.inline, withFiles.value); }
      }
    }
  }

  /**
   The audit accepts exactly when the project's hook file passes the inspection,
   so does the user's if there is one, every layer the child would read lets the
   project's gate run, and everything the enabled plugins contribute can be
   collected and passes too.
   */
  lemma AuditAcceptedIff(tools: Tools, fs: FS, site: Site)
    requires Sorts(tools)
    ensures AuditCodex(tools, fs, site).Ok? <==>
      && HookFileOk(tools, fs, site.audit, ProjectHooks(site))
      && (UserHooks(site) in fs.files ==> HookFileOk(tools, fs, site.audit, UserHooks(site)))
      && (forall p :: Reachable(tools, fs, site, p) ==> LayerLets(tools, fs, site, p))
      && PluginsOk(tools, fs, site)
  {
    hide AuditHookFiles, WalkLayers, AuditPlugins, Served, HookFileOk, LayerLets, LayerAllows, Reachable, Sorts;
    hide Orderly, PluginsOk, LayerAt, PluginsLoad, LoadsPlugins, ProjectGates, GateKeys;
    HookFilesOkIff(tools, fs, site);
    if AuditHookFiles(tools, fs, site).Ok? {
      var sec := AuditHookFiles(tools, fs, site).value;
      var gateKeys := GateKeys(ProjectHooks(site), sec.gates);
      forall p ensures LayerAllows(tools, fs, site, gateKeys, p) <==> LayerLets(tools, fs, site, p) {
        LetsIff(tools, fs, site, p);
      }
      InitialServed(tools, fs, site, sec.foreign);
      var walk := WalkLayers(tools, fs, site, gateKeys, InitialLayers(site, sec.foreign));
      if walk.Ok? {
        LayersMean(tools, fs, site, gateKeys, sec.foreign, "");
        WalkDecidesLoading(tools, fs, site, gateKeys, sec.foreign);
        var before := EntriesFor(tools, fs, [ProjectHooks(site), UserHooks(site)]);
        PluginsOkIff(tools, fs, site, before, sec, walk.value);
      } else if forall p :: Reachable(tools, fs, site, p) ==> LayerLets(tools, fs, site, p) {
        InitialOrderly(tools, fs, site, sec.foreign);
        WalkAccepts(tools, fs, site, gateKeys, InitialLayers(site, sec.foreign));
      }
    }
  }

  /**
   An accepted audit: its gate is the project file's, no layer the child would
   read switches that gate off, and its foreign list names exactly the foreign
   hooks of every source: the project file, the user file, the reachable layers,
   and the files and inline definitions the enabled plugins contribute.
   */
  lemma AcceptedAuditMeans(tools: Tools, fs: FS, site: Site, d: string)
    requires Sorts(tools) && AuditCodex(tools, fs, site).Ok?
    ensures var (sec, snapshot) := AuditCodex(tools, fs, site).value;
      && ReadJson(tools, fs, ProjectHooks(site)).Ok?
      && (var own := Inspect(site.audit, ReadJson(tools, fs, ProjectHooks(site)).value);
          own.Ok? && sec.gate == own.value.gate && sec.gates == own.value.gates)
      && (forall p :: Reachable(tools, fs, site, p) ==> LayerLets(tools, fs, site, p))
      && Complete(tools, fs, site, snapshot.hooks)
      && (d in sec.foreign <==> FromSomeSource(tools, fs, site, d))
  {
    hide AuditHookFiles, WalkLayers, AuditPlugins, Served, Inspect, ReadJson, SourceForeign, LayerForeign, LayerAllows;
    hide Reachable, Sorts, InlineForeign, PluginFile, PluginInline, LayerAt, PluginsLoad, LoadsPlugins, LayerLets;
    hide PluginsOk, HookFileOk, GateKeys;
    var sec := AuditHookFiles(tools, fs, site).value;
    var gateKeys := GateKeys(ProjectHooks(site), sec.gates);
    InitialServed(tools, fs, site, sec.foreign);
    var st := WalkLayers(tools, fs, site, gateKeys, InitialLayers(site, sec.foreign)).value;
    var before := EntriesFor(tools, fs, [ProjectHooks(site), UserHooks(site)]);
    HookFilesMean(tools, fs, site, d);
    LayersMean(tools, fs, site, gateKeys, sec.foreign, d);
    PluginsMean(tools, fs, site, before, sec, st, d);
    WalkDecidesLoading(tools, fs, site, gateKeys, sec.foreign);
    PluginsComplete(tools, fs, site, before, sec, st);
    AuditAcceptedIff(tools, fs, site);
  }

  // ---------------------------------------------------------------------
  // Each foreign hook is reported once
  // ---------------------------------------------------------------------

  ghost predicate Once(list: seq<string>) { forall i, j :: 0 <= i < j < |list| ==> list[i] != list[j] }

  lemma {:induction false} AddAllOnce(list: seq<string>, more: seq<string>)
    requires Once(list)
    ensures Once(AddAll(list, more))
  {
    if more != [] { AddAllOnce(list, more[..|more| - 1]); }
  }

  lemma {:induction false} FilesOnce(tools: Tools, fs: FS, audit: Audit, paths: seq<Path>, foreign: seq<string>)
    requires Once(foreign) && InspectFiles(tools, fs, audit, paths, foreign).Ok?
    ensures Once(InspectFiles(tools, fs, audit, paths, foreign).value)
  {
    hide Inspect, ReadJson, AddAll, Labelled, Once;
    if paths != [] {
      var n := |paths| - 1;
      FilesOnce(tools, fs, audit, paths[..n], foreign);
      var sec := Inspect(audit, ReadJson(tools, fs, paths[n]).value).value;
      AddAllOnce(InspectFiles(tools, fs, audit, paths[..n], foreign).value, Labelled(paths[n], sec.foreign));
    }
  }

  lemma {:induction false} InlinesOnce(audit: Audit, inline: seq<Inline>, foreign: seq<string>)
    requires Once(foreign) && InspectInline(audit, inline, foreign).Ok?
    ensures Once(InspectInline(audit, inline, foreign).value)
  {
    hide Inspect, AddAll, Labelled, Once, InlineLabel;
    if inline != [] {
      var n := |inline| - 1;
      InlinesOnce(audit, inline[..n], foreign);
      var sec := Inspect(audit, inline[n].settings).value;
      AddAllOnce(InspectInline(audit, inline[..n], foreign).value, Labelled(InlineLabel(inline[n]), sec.foreign));
    }
  }

  lemma VisitOnce(tools: Tools, fs: FS, site: Site, gateKeys: seq<string>, st: Layers)
    requires Once(st.foreign) && st.index < |st.queue| && VisitLayer(tools, fs, site, gateKeys, st).Ok?
    ensures Once(VisitLayer(tools, fs, site, gateKeys, st).value.foreign)
  {
    hide LayerRefused, AddAll, Queued, Once;
    var scan := LayerAt(tools, fs, site, st.queue[st.index]);
    if scan.Some? { AddAllOnce(st.foreign, scan.value.foreign); }
  }

  lemma {:induction false} WalkOnce(tools: Tools, fs: FS, site: Site, gateKeys: seq<string>, st: Layers)
    requires Served(tools, fs, site, st) && WalkLayers(tools, fs, site, gateKeys, st).Ok? && Once(st.foreign)
    ensures Once(WalkLayers(tools, fs, site, gateKeys, st).value.foreign)
    decreases |Unvisited(fs, st)|, |st.queue| - st.index
  {
    hide VisitLayer, Once;
    if st.index < |st.queue| {
      VisitServes(tools, fs, site, gateKeys, st);
      WalkDecreases(tools, fs, site, gateKeys, st);
      VisitOnce(tools, fs, site, gateKeys, st);
      WalkOnce(tools, fs, site, gateKeys, VisitLayer(tools, fs, site, gateKeys, st).value);
    }
  }

  lemma LabelledOnce(source: string, descriptors: seq<string>)
    requires Once(descriptors)
    ensures Once(Labelled(source, descriptors))
  {
    var labelled := Labelled(source, descriptors);
    forall i, j | 0 <= i < j < |labelled| ensures labelled[i] != labelled[j] {
      assert labelled[i][|source| + 2..] == descriptors[i] && labelled[j][|source| + 2..] == descriptors[j];
    }
  }

  lemma HookFilesOnce(tools: Tools, fs: FS, site: Site)
    requires AuditHookFiles(tools, fs, site).Ok?
    ensures Once(AuditHookFiles(tools, fs, site).value.foreign)
  {
    hide Inspect, Labelled, InspectFiles, ReadJson;
    var settings := ReadJson(tools, fs, ProjectHooks(site)).value;
    var own := Inspect(site.audit, settings).value;
    InspectorTheorems.InspectionMeans(site.audit, settings, own);
    assert Once(own.foreign);
    hide Once;
    LabelledOnce(ProjectHooks(site), own.foreign);
    if UserHooks(site) in fs.files {
      FilesOnce(tools, fs, site.audit, [UserHooks(site)], Labelled(ProjectHooks(site), own.foreign));
    }
  }

  lemma PluginsOnce(tools: Tools, fs: FS, site: Site, before: seq<Entry>, sec: Security, st: Layers)
    requires Once(st.foreign) && AuditPlugins(tools, fs, site, before, sec, st).Ok?
    ensures Once(AuditPlugins(tools, fs, site, before, sec, st).value.0.foreign)
  {
    hide CollectAll, PluginsToLoad, InspectFiles, InspectInline, EntriesFor, Once, InventoryOf;
    var hooks := AuditPlugins(tools, fs, site, before, sec, st).value.1.hooks;
    FilesOnce(tools, fs, site.audit, hooks.files, st.foreign);
    InlinesOnce(site.audit, hooks.inline, InspectFiles(tools, fs, site.audit, hooks.files, st.foreign).value);
  }

  /** However many sources report a hook, an accepted audit lists it once. */
  lemma ForeignListedOnce(tools: Tools, fs: FS, site: Site)
    requires AuditCodex(tools, fs, site).Ok?
    ensures var foreign := AuditCodex(tools, fs, site).value.0.foreign;
      forall i, j :: 0 <= i < j < |foreign| ==> foreign[i] != foreign[j]
  {
    hide AuditHookFiles, WalkLayers, AuditPlugins, Served;
    var sec := AuditHookFiles(tools, fs, site).value;
    var gateKeys := GateKeys(ProjectHooks(site), sec.gates);
    InitialServed(tools, fs, site, sec.foreign);
    HookFilesOnce(tools, fs, site);
    WalkOnce(tools, fs, site, gateKeys, InitialLayers(site, sec.foreign));
    var st := WalkLayers(tools, fs, site, gateKeys, InitialLayers(site, sec.foreign)).value;
    PluginsOnce(tools, fs, site, EntriesFor(tools, fs, [ProjectHooks(site), UserHooks(site)]), sec, st);
  }

  // ---------------------------------------------------------------------
  // Everything that was read is in the snapshot
  // ---------------------------------------------------------------------

  /** The log so far holds one entry for each layer visited. */
  ghost predicate LogsVisited(tools: Tools, fs: FS, st: Layers) {
    && |st.log| == st.index <= |st.queue|
    && forall i :: 0 <= i < |st.log| ==> st.log[i] == EntryFor(tools, fs, st.queue[i])
  }

  lemma {:induction false} WalkRecords(tools: Tools, fs: FS, site: Site, gateKeys: seq<string>, st: Layers)
    requires Served(tools, fs, site, st) && WalkLayers(tools, fs, site, gateKeys, st).Ok? && LogsVisited(tools, fs, st)
    ensures var end := WalkLayers(tools, fs, site, gateKeys, st).value;
      LogsVisited(tools, fs, end) && end.index == |end.queue|
    decreases |Unvisited(fs, st)|, |st.queue| - st.index
  {
    hide VisitLayer, LogsVisited;
    if st.index < |st.queue| {
      VisitServes(tools, fs, site, gateKeys, st);
      WalkDecreases(tools, fs, site, gateKeys, st);
      VisitRecords(tools, fs, site, gateKeys, st);
      WalkRecords(tools, fs, site, gateKeys, VisitLayer(tools, fs, site, gateKeys, st).value);
    }
  }

  lemma VisitRecords(tools: Tools, fs: FS, site: Site, gateKeys: seq<string>, st: Layers)
    requires Served(tools, fs, site, st) && LogsVisited(tools, fs, st)
    requires st.index < |st.queue| && VisitLayer(tools, fs, site, gateKeys, st).Ok?
    ensures LogsVisited(tools, fs, VisitLayer(tools, fs, site, gateKeys, st).value)
  {
    hide VisitLayer, EntryFor, Served;
    VisitServes(tools, fs, site, gateKeys, st);
    VisitLogs(tools, fs, site, gateKeys, st);
    var t := VisitLayer(tools, fs, site, gateKeys, st).value;
    assert forall i :: 0 <= i < |st.queue| ==> t.queue[i] == st.queue[i];
  }

  lemma LayersRecorded(tools: Tools, fs: FS, site: Site, gateKeys: seq<string>, foreign: seq<string>, p: Path)
    requires Served(tools, fs, site, InitialLayers(site, foreign)) && Reachable(tools, fs, site, p)
    requires WalkLayers(tools, fs, site, gateKeys, InitialLayers(site, foreign)).Ok?
    ensures EntryFor(tools, fs, p) in WalkLayers(tools, fs, site, gateKeys, InitialLayers(site, foreign)).value.log
  {
    hide WalkLayers, Served, Reachable, EntryFor, RootLayers;
    WalkRecords(tools, fs, site, gateKeys, InitialLayers(site, foreign));
    LayersVisitedExactly(tools, fs, site, gateKeys, foreign, p);
    var end := WalkLayers(tools, fs, site, gateKeys, InitialLayers(site, foreign)).value;
    var i :| 0 <= i < |end.queue| && end.queue[i] == p;
    assert end.log[i] == EntryFor(tools, fs, p);
  }

  /** Read in the course of an accepted audit. */
  ghost predicate ReadByAudit(tools: Tools, fs: FS, site: Site, p: Path) {
    || p == ProjectHooks(site)
    || p == UserHooks(site)
    || Reachable(tools, fs, site, p)
    || PluginFile(tools, fs, site, p)
    || (exists plugin, d :: EnabledPlugin(tools, fs, site, plugin) && Declares(tools, fs, site, plugin, d)
          && p == d.manifest)
  }

  lemma InFiles(tools: Tools, fs: FS, paths: seq<Path>, p: Path)
    requires p in paths
    ensures EntryFor(tools, fs, p) in EntriesFor(tools, fs, paths)
  {
    hide EntryFor;
    var i :| 0 <= i < |paths| && paths[i] == p;
    assert EntriesFor(tools, fs, paths)[i] == EntryFor(tools, fs, p);
  }

  lemma ManifestRecorded(
    tools: Tools, fs: FS, site: Site, before: seq<Entry>, sec: Security, st: Layers, plugin: Plugin, d: Declaration)
    requires AuditPlugins(tools, fs, site, before, sec, st).Ok?
    requires LoadsPlugins(st) == PluginsLoad(tools, fs, site)
    requires st.userScan == LayerAt(tools, fs, site, UserConfig(site))
    requires EnabledPlugin(tools, fs, site, plugin) && Declares(tools, fs, site, plugin, d)
    ensures EntryFor(tools, fs, d.manifest) in AuditPlugins(tools, fs, site, before, sec, st).value.1.files
  {
    hide CollectAll, InspectFiles, InspectInline, EntriesFor, PluginsLoad, LoadsPlugins, LayerAt, EnabledPlugin;
    hide Declares, EntryFor, InventoryOf, PluginsToLoad;
    var enabled := PluginsToLoad(LoadsPlugins(st), st.userScan).value;
    EnabledAre(tools, fs, site, st, plugin);
    ManifestLogged(tools, fs, site, enabled, plugin, d);
  }

  /** Every file the audit read is in its snapshot, with its digest or as absent. */
  lemma AuditRecordsReads(tools: Tools, fs: FS, site: Site, p: Path)
    requires Sorts(tools) && AuditCodex(tools, fs, site).Ok? && ReadByAudit(tools, fs, site, p)
    ensures Entry(p, if p in fs.files && fs.files[p].Data? then Some(tools.hash(fs.files[p].bytes)) else None)
            in AuditCodex(tools, fs, site).value.1.files
  {
    hide AuditHookFiles, WalkLayers, AuditPlugins, Served, Reachable, Sorts, PluginFile, EnabledPlugin, Declares;
    hide EntriesFor, Complete, LayerAt, PluginsLoad, LoadsPlugins, ProjectHooks, UserHooks, GateKeys;
    var sec := AuditHookFiles(tools, fs, site).value;
    var gateKeys := GateKeys(ProjectHooks(site), sec.gates);
    InitialServed(tools, fs, site, sec.foreign);
    var st := WalkLayers(tools, fs, site, gateKeys, InitialLayers(site, sec.foreign)).value;
    var before := EntriesFor(tools, fs, [ProjectHooks(site), UserHooks(site)]);
    var snapshot := AuditPlugins(tools, fs, site, before, sec, st).value.1;
    WalkDecidesLoading(tools, fs, site, gateKeys, sec.foreign);
    SnapshotParts(tools, fs, site, before, sec, st);
    PluginsComplete(tools, fs, site, before, sec, st);
    if p == ProjectHooks(site) || p == UserHooks(site) {
      InFiles(tools, fs, [ProjectHooks(site), UserHooks(site)], p);
    } else if Reachable(tools, fs, site, p) {
      LayersRecorded(tools, fs, site, gateKeys, sec.foreign, p);
    } else if PluginFile(tools, fs, site, p) {
      CompleteHolds(tools, fs, site, snapshot.hooks, p);
      InFiles(tools, fs, snapshot.hooks.files, p);
    } else {
      var plugin, d :|
        EnabledPlugin(tools, fs, site, plugin) && Declares(tools, fs, site, plugin, d) && p == d.manifest;
      ManifestRecorded(tools, fs, site, before, sec, st, plugin, d);
    }
  }

  lemma CompleteHolds(tools: Tools, fs: FS, site: Site, hooks: Inventory, p: Path)
    requires Complete(tools, fs, site, hooks) && PluginFile(tools, fs, site, p)
    ensures p in hooks.files
  {
    hide PluginFile, PluginInline;
  }

  lemma SnapshotParts(tools: Tools, fs: FS, site: Site, before: seq<Entry>, sec: Security, st: Layers)
    requires AuditPlugins(tools, fs, site, before, sec, st).Ok?
    ensures var snapshot := AuditPlugins(tools, fs, site, before, sec, st).value.1;
      forall e :: e in before || e in st.log || e in EntriesFor(tools, fs, snapshot.hooks.files) ==> e in snapshot.files
  {
    hide CollectAll, InspectFiles, InspectInline, EntriesFor, LoadsPlugins, PluginsToLoad, InventoryOf;
  }

  // ---------------------------------------------------------------------
  // A clean project is accepted
  // ---------------------------------------------------------------------

  /** A walk over absent layers finds nothing. */
  lemma {:induction false} AbsentLayers(tools: Tools, fs: FS, site: Site, gateKeys: seq<string>, st: Layers)
    requires Served(tools, fs, site, st) && forall p :: p in st.queue ==> p !in fs.files
    ensures WalkLayers(tools, fs, site, gateKeys, st).Ok?
    ensures var end := WalkLayers(tools, fs, site, gateKeys, st).value;
      && end.foreign == st.foreign && end.userScan == st.userScan
      && end.projectFeature == st.projectFeature && end.profileFeature == st.profileFeature
    decreases |st.queue| - st.index
  {
    if st.index < |st.queue| {
      var t := VisitLayer(tools, fs, site, gateKeys, st).value;
      VisitServes(tools, fs, site, gateKeys, st);
      AbsentLayers(tools, fs, site, gateKeys, t);
    }
  }

  lemma NothingEnabled()
    ensures EnabledPlugins([]) == Ok([])
  {
    var none: map<string, Plugin> := map[];
    assert EnabledMap([]) == Ok(none);
    assert none.Keys == {} && Orders.SortedKeys(none.Keys) == [];
    assert EnabledPlugins([]).Ok? && |EnabledPlugins([]).value| == 0;
  }

  lemma HasMember<T>(s: seq<T>)
    ensures s != [] ==> exists x :: x in s
  {
    if s != [] { assert s[0] in s; }
  }

  /** With nothing but an acceptable project hook file, the audit accepts, and reports that file's gate and hooks. */
  lemma BareProjectAccepted(tools: Tools, fs: FS, site: Site)
    requires ReadJson(tools, fs, ProjectHooks(site)).Ok?
    requires Inspect(site.audit, ReadJson(tools, fs, ProjectHooks(site)).value).Ok?
    requires UserHooks(site) !in fs.files && forall p :: p in RootLayers(site) ==> p !in fs.files
    requires Sorts(tools)
    ensures AuditCodex(tools, fs, site).Ok?
    ensures var own := Inspect(site.audit, ReadJson(tools, fs, ProjectHooks(site)).value).value;
      AuditCodex(tools, fs, site).value.0 == own.(foreign := Labelled(ProjectHooks(site), own.foreign))
  {
    hide Inspect, WalkLayers, Served, Labelled, ReadJson;
    var sec := AuditHookFiles(tools, fs, site).value;
    var gateKeys := GateKeys(ProjectHooks(site), sec.gates);
    InitialServed(tools, fs, site, sec.foreign);
    AbsentLayers(tools, fs, site, gateKeys, InitialLayers(site, sec.foreign));
    NothingEnabled();
    SortsKeep(tools, Found({}, [], []));
    var hooks := InventoryOf(tools, Found({}, [], []));
    HasMember(hooks.files);
    HasMember(hooks.inline);
  }
}
