/** Which hook sources the enabled plugins contribute, and that the collection finds exactly those. */
module CodexPluginHooks {
  import opened Lists
  import opened Json
  import Orders
  import opened Inspector
  import opened CodexAudit
  import SemVer
  import SemVerTheorems
  import PathNames

  /** The library sorts: an arrangement of a set of paths, a permutation of a list of inline hooks. */
  ghost predicate Sorts(tools: Tools) {
    && (forall s: set<Path>, p :: p in tools.sortPaths(s) <==> p in s)
    && (forall l: seq<Inline> :: multiset(tools.sortInline(l)) == multiset(l))
  }

  // ---------------------------------------------------------------------
  // What one plugin declares
  // ---------------------------------------------------------------------

  /** An active root, its manifest, and the hook entries that manifest lists. */
  datatype Declaration = Declaration(root: Path, manifest: Path, entries: seq<Json>)

  /** The entries that the `hooks` member of a manifest stands for. */
  function HookEntries(declared: Option<Json>): seq<Json> {
    if declared.None? || declared.value.Null? then []
    else if declared.value.Arr? then declared.value.items
    else [declared.value]
  }

  /** The Codex manifest governs if there is one, whatever it is; otherwise the Claude one. */
  ghost predicate IsManifest(fs: FS, root: Path, manifest: Path) {
    var primary, fallback := Sub(root, ".codex-plugin/plugin.json"), Sub(root, ".claude-plugin/plugin.json");
    || (manifest == primary && !fs.lstat(primary).Absent?)
    || (manifest == fallback && fs.lstat(primary).Absent? && !fs.lstat(fallback).Absent?)
  }

  ghost predicate Declares(tools: Tools, fs: FS, site: Site, plugin: Plugin, d: Declaration) {
    && ActiveRoot(tools, fs, site, plugin) == Ok(Some(d.root))
    && IsManifest(fs, d.root, d.manifest)
    && ReadJson(tools, fs, d.manifest).Ok?
    && d.entries == HookEntries(Get(ReadJson(tools, fs, d.manifest).value, "hooks"))
  }

  /** The default hook file of a plugin. */
  ghost predicate IsDefault(fs: FS, root: Path, p: Path) {
    var path := Sub(root, "hooks/hooks.json");
    fs.stat(path).IsFile? && fs.canonical(path) == Some(p)
  }

  /** A file the declaration names, by its real location; the default one if it names nothing. */
  ghost predicate Names(fs: FS, d: Declaration, p: Path) {
    || (exists i :: 0 <= i < |d.entries| && d.entries[i].Str?
                    && fs.canonical(Sub(d.root, d.entries[i].text)) == Some(p))
    || (d.entries == [] && IsDefault(fs, d.root, p))
  }

  /** An inline definition, identified by its manifest and its position there. */
  ghost predicate Carries(d: Declaration, h: Inline) {
    h.manifest == d.manifest && h.index < |d.entries| && h.settings == d.entries[h.index] && h.settings.Obj?
  }

  ghost predicate Contributes(tools: Tools, fs: FS, site: Site, plugin: Plugin, p: Path) {
    exists d :: Declares(tools, fs, site, plugin, d) && Names(fs, d, p)
  }

  ghost predicate ContributesInline(tools: Tools, fs: FS, site: Site, plugin: Plugin, h: Inline) {
    exists d :: Declares(tools, fs, site, plugin, d) && Carries(d, h)
  }

  lemma {:induction false} ResolvedIff(fs: FS, root: Path, canonicalRoot: Path, entries: seq<Json>, p: Path)
    requires ResolveAll(fs, root, canonicalRoot, entries).Ok?
    ensures p in ResolveAll(fs, root, canonicalRoot, entries).value <==>
            exists i :: 0 <= i < |entries| && entries[i].Str? && fs.canonical(Sub(root, entries[i].text)) == Some(p)
  {
    hide PathStartsWith, Sub;
    if entries != [] {
      var n := |entries| - 1;
      ResolvedIff(fs, root, canonicalRoot, entries[..n], p);
      assert forall i :: 0 <= i < n ==> entries[..n][i] == entries[i];
    }
  }

  lemma DeclaredFiles(fs: FS, root: Path, canonicalRoot: Path, manifest: Path, declared: Option<Json>, p: Path)
    requires DeclaredHooks(fs, root, canonicalRoot, manifest, declared).Ok?
    ensures p in DeclaredHooks(fs, root, canonicalRoot, manifest, declared).value.0 <==>
            Names(fs, Declaration(root, manifest, HookEntries(declared)), p)
  {
    hide PathStartsWith, ResolveAll, ValidInline, Sub;
    match declared {
      case Some(Arr(entries)) => {
        if entries != [] && entries[0].Str? { ResolvedIff(fs, root, canonicalRoot, entries, p); }
      }
      case Some(Str(text)) => { assert HookEntries(declared)[0] == Str(text); }
      case _ => {}
    }
  }

  lemma DeclaredInlines(fs: FS, root: Path, canonicalRoot: Path, manifest: Path, declared: Option<Json>, h: Inline)
    requires DeclaredHooks(fs, root, canonicalRoot, manifest, declared).Ok?
    ensures h in DeclaredHooks(fs, root, canonicalRoot, manifest, declared).value.1 <==>
            Carries(Declaration(root, manifest, HookEntries(declared)), h)
  {
    hide PathStartsWith, ResolveAll, ValidInline, Sub;
    match declared {
      case Some(Arr(entries)) => {
        if entries != [] && entries[0].Obj? {
          var found := InlineHooks(manifest, entries);
          if Carries(Declaration(root, manifest, entries), h) { assert found[h.index] == h; }
        }
      }
      case _ => {}
    }
  }

  // ---------------------------------------------------------------------
  // The collection
  // ---------------------------------------------------------------------

  lemma PluginIff(tools: Tools, fs: FS, site: Site, plugin: Plugin, acc: Found, p: Path, h: Inline)
    requires CollectPlugin(tools, fs, site, plugin, acc).Ok?
    ensures var found := CollectPlugin(tools, fs, site, plugin, acc).value;
      && (p in found.files <==> p in acc.files || Contributes(tools, fs, site, plugin, p))
      && (h in found.inline <==> h in acc.inline || ContributesInline(tools, fs, site, plugin, h))
  {
    hide ActiveRoot, DeclaredHooks, ReadJson, Names, Carries, Sub, HookEntries, Get;
    var active := ActiveRoot(tools, fs, site, plugin).value;
    if active.Some? && ManifestPath(fs, active.value).value.Some? {
      var root, manifest := active.value, ManifestPath(fs, active.value).value.value;
      var declared := Get(ReadJson(tools, fs, manifest).value, "hooks");
      var canonicalRoot := fs.canonical(root).value;
      DeclaredFiles(fs, root, canonicalRoot, manifest, declared, p);
      DeclaredInlines(fs, root, canonicalRoot, manifest, declared, h);
      assert forall d :: Declares(tools, fs, site, plugin, d) <==>
                         d == Declaration(root, manifest, HookEntries(declared));
    }
  }

  /** The collected files and inline definitions are exactly those the plugins contribute. */
  lemma {:induction false} CollectedIff(tools: Tools, fs: FS, site: Site, plugins: seq<Plugin>, p: Path, h: Inline)
    requires CollectAll(tools, fs, site, plugins).Ok?
    ensures var found := CollectAll(tools, fs, site, plugins).value;
      && (p in found.files <==> exists plugin :: plugin in plugins && Contributes(tools, fs, site, plugin, p))
      && (h in found.inline <==> exists plugin :: plugin in plugins && ContributesInline(tools, fs, site, plugin, h))
  {
    hide CollectPlugin, Contributes, ContributesInline;
    if plugins != [] {
      var n := |plugins| - 1;
      assert plugins == plugins[..n] + [plugins[n]];
      CollectedIff(tools, fs, site, plugins[..n], p, h);
      PluginIff(tools, fs, site, plugins[n], CollectAll(tools, fs, site, plugins[..n]).value, p, h);
      assert plugins[n] in plugins;
    }
  }

  // ---------------------------------------------------------------------
  // Installed versions
  // ---------------------------------------------------------------------

  /** Letters, digits and a few marks, and not one of the two directory links. */
  predicate IsVersionName(s: string) {
    && s !in {"", ".", ".."}
    && forall c :: c in s ==>
         'a' <= c <= 'z' || 'A' <= c <= 'Z' || '0' <= c <= '9' || c in {'.', '+', '_', '-'}
  }

  lemma VersionNameIff(s: string)
    ensures ValidVersion(s) <==> IsVersionName(s)
  {
    if IsVersionName(s) { assert forall i :: 0 <= i < |s| ==> s[i] in s; }
  }

  /** The installed versions are the subdirectories with a version's name. */
  lemma {:induction false} VersionsAre(entries: seq<DirEntry>, v: string)
    ensures v in Versions(entries) <==>
            IsVersionName(v) && exists i :: 0 <= i < |entries| && entries[i] == DirEntry(Some(v), true)
  {
    hide ValidVersion, IsVersionName;
    if entries != [] {
      var n := |entries| - 1;
      VersionsAre(entries[..n], v);
      VersionNameIff(v);
      assert forall i :: 0 <= i < n ==> entries[..n][i] == entries[i];
    }
  }

  // ---------------------------------------------------------------------
  // Which plugins can be collected
  // ---------------------------------------------------------------------

  /** A relative path that does not go up and leads to a regular file inside the root. */
  ghost predicate Permitted(fs: FS, root: Path, canonicalRoot: Path, text: string) {
    && "./" <= text && ".." !in SemVer.Split(text, '/')
    && fs.canonical(Sub(root, text)).Some? && Inside(fs, canonicalRoot, fs.canonical(Sub(root, text)).value)
  }

  /** An object with nothing in it but a description and hooks, of their types. */
  ghost predicate InlineShaped(j: Json) {
    && j.Obj? && j.fields.Keys <= {"description", "hooks"}
    && (match Get(j, "description") case Some(Str(_)) => true case Some(Null) => true case None => true case _ => false)
    && (match Get(j, "hooks") case Some(Obj(_)) => true case None => true case _ => false)
  }

  /** Nothing at the default place, or a file that can be resolved there. */
  ghost predicate DefaultSound(fs: FS, root: Path) {
    var path := Sub(root, "hooks/hooks.json");
    !fs.stat(path).StatError? && (fs.stat(path).IsFile? ==> fs.canonical(path).Some?)
  }

  /** Paths only, all permitted; or inline definitions only, all well formed; or nothing and a sound default. */
  ghost predicate EntriesSound(fs: FS, root: Path, canonicalRoot: Path, entries: seq<Json>) {
    if entries == [] then DefaultSound(fs, root)
    else
      || (forall i :: 0 <= i < |entries| ==> entries[i].Str? && Permitted(fs, root, canonicalRoot, entries[i].text))
      || (forall i :: 0 <= i < |entries| ==> InlineShaped(entries[i]))
  }

  ghost predicate ManifestSound(tools: Tools, fs: FS, root: Path, canonicalRoot: Path, manifest: Path) {
    var document := ReadJson(tools, fs, manifest);
    && document.Ok? && document.value.Obj?
    && EntriesSound(fs, root, canonicalRoot, HookEntries(Get(document.value, "hooks")))
  }

  /** A directory whose manifests can be looked for, and the one that governs, if any, is sound. */
  ghost predicate RootSound(tools: Tools, fs: FS, root: Path) {
    var primary, fallback := Sub(root, ".codex-plugin/plugin.json"), Sub(root, ".claude-plugin/plugin.json");
    && fs.canonical(root).Some? && fs.stat(fs.canonical(root).value).IsDir?
    && !fs.lstat(primary).StatError? && (fs.lstat(primary).Absent? ==> !fs.lstat(fallback).StatError?)
    && forall manifest :: IsManifest(fs, root, manifest) ==>
         ManifestSound(tools, fs, root, fs.canonical(root).value, manifest)
  }

  /** The plugin's place can be listed, or nothing is there. */
  ghost predicate Enumerable(fs: FS, site: Site, plugin: Plugin) {
    var base := Sub(Sub(Sub(site.home, "plugins/cache"), plugin.market), plugin.name);
    || fs.list(base).Entries?
    || (fs.list(base).NoSuchDir? && (fs.lstat(base).Absent? || fs.lstat(base).StatError?))
  }

  ghost predicate Sound(tools: Tools, fs: FS, site: Site, plugin: Plugin) {
    && Enumerable(fs, site, plugin)
    && forall root :: ActiveRoot(tools, fs, site, plugin) == Ok(Some(root)) ==> RootSound(tools, fs, root)
  }

  lemma StartsWithIff(p: Path, base: Path)
    ensures PathStartsWith(p, base) <==> PathNames.AtOrBelow(p, base)
  {
    hide PathNames.AtOrBelow;
    PathNames.AtOrBelowIff(p, base);
    if |base| < |p| && p[..|base|] == base && p[|base|] == '/' {
      assert p == base + "/" + p[|base| + 1..];
    }
    if rest :| p == base + "/" + rest {
      assert p[..|base|] == base && p[|base|] == '/';
    }
  }

  lemma PermittedIff(fs: FS, root: Path, canonicalRoot: Path, text: string)
    ensures ResolveHookPath(fs, root, canonicalRoot, text).Ok? <==> Permitted(fs, root, canonicalRoot, text)
  {
    hide PathStartsWith, PathNames.AtOrBelow, SemVer.Split, Sub;
    var resolved := fs.canonical(Sub(root, text));
    if resolved.Some? { StartsWithIff(resolved.value, canonicalRoot); }
  }

  lemma {:induction false} AllPermitted(fs: FS, root: Path, canonicalRoot: Path, entries: seq<Json>)
    ensures ResolveAll(fs, root, canonicalRoot, entries).Ok? <==>
            forall i :: 0 <= i < |entries| ==> entries[i].Str? && Permitted(fs, root, canonicalRoot, entries[i].text)
  {
    hide ResolveHookPath, Permitted;
    if entries != [] {
      var n := |entries| - 1;
      AllPermitted(fs, root, canonicalRoot, entries[..n]);
      assert forall i :: 0 <= i < n ==> entries[..n][i] == entries[i];
      if entries[n].Str? { PermittedIff(fs, root, canonicalRoot, entries[n].text); }
    }
  }

  lemma InlineIff(j: Json)
    ensures ValidInline(j) <==> InlineShaped(j)
  {
  }

  lemma DefaultIff(fs: FS, root: Path)
    ensures DefaultHooks(fs, root).Ok? <==> DefaultSound(fs, root)
  {
    hide Sub;
  }

  lemma DeclaredOkIff(fs: FS, root: Path, canonicalRoot: Path, manifest: Path, declared: Option<Json>)
    ensures DeclaredHooks(fs, root, canonicalRoot, manifest, declared).Ok? <==>
            EntriesSound(fs, root, canonicalRoot, HookEntries(declared))
  {
    hide ResolveHookPath, ResolveAll, ValidInline, DefaultHooks, Permitted, InlineShaped, DefaultSound;
    DefaultIff(fs, root);
    var entries := HookEntries(declared);
    AllPermitted(fs, root, canonicalRoot, entries);
    forall j ensures ValidInline(j) <==> InlineShaped(j) { InlineIff(j); }
    forall j ensures InlineShaped(j) ==> j.Obj? { InlineObject(j); }
    if declared.Some? && declared.value.Str? {
      PermittedIff(fs, root, canonicalRoot, declared.value.text);
      assert entries[0].Str?;
    }
    if entries != [] && entries[0].Obj? { assert !entries[0].Str?; }
  }

  lemma InlineObject(j: Json)
    ensures InlineShaped(j) ==> j.Obj?
  {
  }

  lemma ActiveOkIff(tools: Tools, fs: FS, site: Site, plugin: Plugin)
    ensures ActiveRoot(tools, fs, site, plugin).Ok? <==> Enumerable(fs, site, plugin)
  {
    hide Versions, Sub;
  }

  lemma ManifestIff(fs: FS, root: Path)
    ensures var primary, fallback := Sub(root, ".codex-plugin/plugin.json"), Sub(root, ".claude-plugin/plugin.json");
      ManifestPath(fs, root).Ok? <==>
      !fs.lstat(primary).StatError? && (fs.lstat(primary).Absent? ==> !fs.lstat(fallback).StatError?)
    ensures ManifestPath(fs, root).Ok? ==>
      forall manifest :: IsManifest(fs, root, manifest) <==> ManifestPath(fs, root).value == Some(manifest)
  {
    assert Sub(root, ".codex-plugin/plugin.json") != Sub(root, ".claude-plugin/plugin.json") by {
      assert Sub(root, ".codex-plugin/plugin.json")[|root| + 3] == 'o';
      assert Sub(root, ".claude-plugin/plugin.json")[|root| + 3] == 'l';
    }
  }

  lemma CollectOkIff(tools: Tools, fs: FS, site: Site, plugin: Plugin, acc: Found)
    ensures CollectPlugin(tools, fs, site, plugin, acc).Ok? <==> Sound(tools, fs, site, plugin)
  {
    hide ActiveRoot, ManifestPath, ReadJson, DeclaredHooks, EntriesSound, HookEntries, Get, IsManifest;
    hide Enumerable, EntryFor;
    ActiveOkIff(tools, fs, site, plugin);
    var active := ActiveRoot(tools, fs, site, plugin);
    if active.Ok? && active.value.Some? {
      var root := active.value.value;
      ManifestIff(fs, root);
      if fs.canonical(root).Some? && ManifestPath(fs, root).Ok? && ManifestPath(fs, root).value.Some? {
        var manifest := ManifestPath(fs, root).value.value;
        if ReadJson(tools, fs, manifest).Ok? {
          DeclaredOkIff(fs, root, fs.canonical(root).value, manifest,
                        Get(ReadJson(tools, fs, manifest).value, "hooks"));
        }
      }
    }
  }

  /** The collection succeeds exactly when every plugin is sound. */
  lemma {:induction false} CollectAllOkIff(tools: Tools, fs: FS, site: Site, plugins: seq<Plugin>)
    ensures CollectAll(tools, fs, site, plugins).Ok? <==>
            forall plugin :: plugin in plugins ==> Sound(tools, fs, site, plugin)
  {
    hide CollectPlugin, Sound;
    if plugins != [] {
      var n := |plugins| - 1;
      assert plugins == plugins[..n] + [plugins[n]];
      CollectAllOkIff(tools, fs, site, plugins[..n]);
      var before := CollectAll(tools, fs, site, plugins[..n]);
      if before.Ok? { CollectOkIff(tools, fs, site, plugins[n], before.value); }
    }
  }

  /** The manifest that governs a collected plugin is recorded as read. */
  lemma ManifestOfPlugin(tools: Tools, fs: FS, site: Site, plugin: Plugin, acc: Found, d: Declaration)
    requires CollectPlugin(tools, fs, site, plugin, acc).Ok? && Declares(tools, fs, site, plugin, d)
    ensures EntryFor(tools, fs, d.manifest) in CollectPlugin(tools, fs, site, plugin, acc).value.log
  {
    hide ActiveRoot, ReadJson, DeclaredHooks, HookEntries, Get, IsManifest, EntryFor, ManifestPath;
    ManifestIff(fs, d.root);
  }

  lemma LogGrows(tools: Tools, fs: FS, site: Site, plugin: Plugin, acc: Found)
    requires CollectPlugin(tools, fs, site, plugin, acc).Ok?
    ensures acc.log <= CollectPlugin(tools, fs, site, plugin, acc).value.log
  {
    hide ActiveRoot, ReadJson, DeclaredHooks, Get, EntryFor, ManifestPath;
  }

  lemma {:induction false} ManifestLogged(
    tools: Tools, fs: FS, site: Site, plugins: seq<Plugin>, plugin: Plugin, d: Declaration)
    requires CollectAll(tools, fs, site, plugins).Ok? && plugin in plugins && Declares(tools, fs, site, plugin, d)
    ensures EntryFor(tools, fs, d.manifest) in CollectAll(tools, fs, site, plugins).value.log
  {
    hide CollectPlugin, Declares, EntryFor;
    var n := |plugins| - 1;
    var before := CollectAll(tools, fs, site, plugins[..n]).value;
    LogGrows(tools, fs, site, plugins[n], before);
    if plugin in plugins[..n] {
      ManifestLogged(tools, fs, site, plugins[..n], plugin, d);
    } else {
      assert plugin == plugins[n];
      ManifestOfPlugin(tools, fs, site, plugin, before, d);
    }
  }

  // ---------------------------------------------------------------------
  // The enabled plugins
  // ---------------------------------------------------------------------

  predicate IsSegment(s: string) {
    s != "" && forall c :: c in s ==> 'a' <= c <= 'z' || 'A' <= c <= 'Z' || '0' <= c <= '9' || c == '-' || c == '_'
  }

  /** A plugin's key is its name and its marketplace, joined by an at sign. */
  predicate IsKeyOf(key: string, plugin: Plugin) {
    && plugin.key == key && key == plugin.name + "@" + plugin.market
    && IsSegment(plugin.name) && IsSegment(plugin.market)
  }

  lemma SegmentIff(s: string)
    ensures ValidSegment(s) <==> IsSegment(s)
    ensures IsSegment(s) ==> '@' !in s
  {
    if IsSegment(s) { assert forall i :: 0 <= i < |s| ==> s[i] in s; }
  }

  lemma PluginOfIff(key: string, plugin: Plugin)
    ensures PluginOf(key) == Some(plugin) <==> IsKeyOf(key, plugin)
  {
    hide SemVer.Split, SemVer.Join, ValidSegment, IsSegment;
    var parts := SemVer.Split(key, '@');
    var n := |parts|;
    SegmentIff(plugin.name);
    SegmentIff(plugin.market);
    if PluginOf(key) == Some(plugin) {
      SemVer.JoinSplit(key, '@');
      assert parts == parts[..n - 1] + [parts[n - 1]];
      JoinAt(parts[..n - 1], parts[n - 1]);
    }
    if IsKeyOf(key, plugin) {
      PathNames.SplitSnoc(plugin.name, plugin.market, '@');
      SemVerTheorems.SplitNone(plugin.name, '@');
      assert parts[..n - 1] == [plugin.name];
      JoinOne(plugin.name);
    }
  }

  lemma JoinOne(s: string)
    ensures SemVer.Join([s], '@') == s
  {
  }

  lemma {:induction false} JoinAt(parts: seq<string>, x: string)
    requires parts != []
    ensures SemVer.Join(parts + [x], '@') == SemVer.Join(parts, '@') + "@" + x
  {
    if |parts| == 1 {
      assert (parts + [x])[1..] == [x];
      JoinOne(x);
    } else {
      assert (parts + [x])[1..] == parts[1..] + [x];
      JoinAt(parts[1..], x);
    }
  }

  /** Configured under its key, by an entry that does not switch it off. */
  ghost predicate Configured(configured: seq<(string, Option<bool>)>, plugin: Plugin) {
    exists i :: 0 <= i < |configured| && configured[i].1 != Some(false) && IsKeyOf(configured[i].0, plugin)
  }

  /** Every entry that is not switched off names a plugin. */
  ghost predicate AllKeys(configured: seq<(string, Option<bool>)>) {
    forall i :: 0 <= i < |configured| && configured[i].1 != Some(false) ==>
      exists plugin :: IsKeyOf(configured[i].0, plugin)
  }

  lemma {:induction false} EnabledOkIff(configured: seq<(string, Option<bool>)>)
    ensures EnabledPlugins(configured).Ok? <==> AllKeys(configured)
  {
    hide PluginOf, IsKeyOf, Orders.SortedKeys;
    if configured != [] {
      var n := |configured| - 1;
      EnabledOkIff(configured[..n]);
      assert AllKeys(configured) <==>
        AllKeys(configured[..n])
        && (configured[n].1 != Some(false) ==> exists plugin :: IsKeyOf(configured[n].0, plugin));
      forall plugin ensures PluginOf(configured[n].0) == Some(plugin) <==> IsKeyOf(configured[n].0, plugin) {
        PluginOfIff(configured[n].0, plugin);
      }
    }
  }

  lemma {:induction false} EnabledMapIff(configured: seq<(string, Option<bool>)>, plugin: Plugin)
    requires EnabledMap(configured).Ok?
    ensures var enabled := EnabledMap(configured).value;
      && (Configured(configured, plugin) <==> plugin.key in enabled && enabled[plugin.key] == plugin)
      && (forall key :: key in enabled ==> PluginOf(key) == Some(enabled[key]))
  {
    hide PluginOf, IsKeyOf;
    if configured != [] {
      var n := |configured| - 1;
      EnabledMapIff(configured[..n], plugin);
      PluginOfIff(configured[n].0, plugin);
      ConfiguredSnoc(configured, plugin);
      PluginKey(configured[n].0);
      PluginKey(plugin.key);
    }
  }

  lemma PluginKey(key: string)
    ensures PluginOf(key).Some? ==> PluginOf(key).value.key == key
  {
    hide ValidSegment;
  }

  lemma ConfiguredSnoc(configured: seq<(string, Option<bool>)>, plugin: Plugin)
    requires configured != []
    ensures var n := |configured| - 1;
      Configured(configured, plugin) <==>
      || Configured(configured[..n], plugin)
      || (configured[n].1 != Some(false) && IsKeyOf(configured[n].0, plugin))
  {
    hide IsKeyOf;
    var n := |configured| - 1;
    assert forall i :: 0 <= i < n ==> configured[..n][i] == configured[i];
  }

  lemma EnabledIff(configured: seq<(string, Option<bool>)>, plugin: Plugin)
    requires EnabledPlugins(configured).Ok?
    ensures plugin in EnabledPlugins(configured).value <==> Configured(configured, plugin)
  {
    hide EnabledMap, Configured, Orders.SortedKeys;
    EnabledMapIff(configured, plugin);
    var enabled := EnabledMap(configured).value;
    var keys := Orders.SortedKeys(enabled.Keys);
    if Configured(configured, plugin) {
      var i :| 0 <= i < |keys| && keys[i] == plugin.key;
      assert EnabledPlugins(configured).value[i] == plugin;
    }
  }

  // ---------------------------------------------------------------------
  // Where the files are
  // ---------------------------------------------------------------------

  /** Declared by a manifest: a regular file below the root's real location, wherever links lead. */
  ghost predicate Inside(fs: FS, canonicalRoot: Path, p: Path) {
    PathNames.AtOrBelow(p, canonicalRoot) && fs.stat(p).IsFile?
  }

  lemma {:induction false} ResolvedInside(fs: FS, root: Path, canonicalRoot: Path, entries: seq<Json>, p: Path)
    requires ResolveAll(fs, root, canonicalRoot, entries).Ok? && p in ResolveAll(fs, root, canonicalRoot, entries).value
    ensures Inside(fs, canonicalRoot, p)
  {
    hide PathStartsWith, PathNames.AtOrBelow;
    StartsWithIff(p, canonicalRoot);
    if entries != [] {
      var n := |entries| - 1;
      var before := ResolveAll(fs, root, canonicalRoot, entries[..n]).value;
      if p in before { ResolvedInside(fs, root, canonicalRoot, entries[..n], p); }
    }
  }

  lemma DeclaredInside(fs: FS, root: Path, canonicalRoot: Path, manifest: Path, declared: Option<Json>, p: Path)
    requires DeclaredHooks(fs, root, canonicalRoot, manifest, declared).Ok?
    requires p in DeclaredHooks(fs, root, canonicalRoot, manifest, declared).value.0
    ensures Inside(fs, canonicalRoot, p) || IsDefault(fs, root, p)
  {
    hide PathStartsWith, PathNames.AtOrBelow, ResolveAll, ValidInline;
    StartsWithIff(p, canonicalRoot);
    match declared {
      case Some(Arr(entries)) => {
        if entries != [] { ResolvedInside(fs, root, canonicalRoot, entries, p); }
      }
      case _ => {}
    }
  }

  /** A hook file of the active root of this plugin. */
  ghost predicate OfPlugin(tools: Tools, fs: FS, site: Site, plugin: Plugin, p: Path) {
    var root := ActiveRoot(tools, fs, site, plugin);
    root.Ok? && root.value.Some? && fs.canonical(root.value.value).Some?
    && (Inside(fs, fs.canonical(root.value.value).value, p) || IsDefault(fs, root.value.value, p))
  }

  lemma PluginInside(tools: Tools, fs: FS, site: Site, plugin: Plugin, acc: Found, p: Path)
    requires CollectPlugin(tools, fs, site, plugin, acc).Ok?
    requires p in CollectPlugin(tools, fs, site, plugin, acc).value.files && p !in acc.files
    ensures OfPlugin(tools, fs, site, plugin, p)
  {
    hide ActiveRoot, DeclaredHooks, ReadJson, Inside, IsDefault, ManifestPath;
    var root := ActiveRoot(tools, fs, site, plugin).value.value;
    var canonicalRoot := fs.canonical(root).value;
    var manifest := ManifestPath(fs, root).value.value;
    var declared := Get(ReadJson(tools, fs, manifest).value, "hooks");
    DeclaredInside(fs, root, canonicalRoot, manifest, declared, p);
  }

  /** Every plugin hook file is inside the active root of an enabled plugin, or that root's default file. */
  lemma {:induction false} CollectedFilesInside(tools: Tools, fs: FS, site: Site, plugins: seq<Plugin>, p: Path)
    requires CollectAll(tools, fs, site, plugins).Ok? && p in CollectAll(tools, fs, site, plugins).value.files
    ensures exists plugin :: plugin in plugins && OfPlugin(tools, fs, site, plugin, p)
  {
    hide CollectPlugin, OfPlugin;
    var n := |plugins| - 1;
    assert plugins == plugins[..n] + [plugins[n]];
    var before := CollectAll(tools, fs, site, plugins[..n]).value;
    if p in before.files {
      CollectedFilesInside(tools, fs, site, plugins[..n], p);
    } else {
      PluginInside(tools, fs, site, plugins[n], before, p);
      assert plugins[n] in plugins;
    }
  }
}
