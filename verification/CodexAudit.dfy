/**
 The audit of everything a spawned Codex child would load hooks from: project
 and user hook files, a worklist of configuration layers, and the enabled
 plugins. Every file is read once and its digest recorded, so that the verdict
 can be checked again around the launch.

 Decoding, hashing, the scan of one configuration layer and library sorts are
 parameters (`Tools`); the file system is a finite map of files with arbitrary
 directory listings, file kinds and path resolution.
 */
module CodexAudit {
  import opened Lists
  import opened Json
  import opened Orders
  import opened SemVer
  import opened Inspector
  import ShellQuote

  type Path = string
  type Bytes = seq<nat>
  type Digest = nat

  function Sub(base: Path, name: string): Path { base + "/" + name }

  // ---------------------------------------------------------------------
  // The outside
  // ---------------------------------------------------------------------

  datatype File = Data(bytes: Bytes) | Unreadable

  /** A directory entry; the name is absent when it is not valid text. */
  datatype DirEntry = DirEntry(name: Option<string>, isDir: bool)

  datatype Listing = Entries(entries: seq<DirEntry>) | NoSuchDir | Unlistable

  datatype Stat = IsFile | IsDir | IsOther | Absent | StatError

  datatype FS = FS(
    files: map<Path, File>, list: Path -> Listing,
    lstat: Path -> Stat, stat: Path -> Stat, canonical: Path -> Option<Path>)

  /** The hook-relevant findings of one configuration layer. */
  datatype Scan = Scan(
    hooksDisabled: bool, managedOnly: bool, states: seq<(string, Option<bool>)>, foreign: seq<string>,
    profile: Option<string>, plugins: seq<(string, Option<bool>)>, pluginsFeature: Option<bool>)

  datatype Inline = Inline(manifest: Path, index: nat, settings: Json)

  datatype Tools = Tools(
    utf8: Bytes -> Option<string>, hash: Bytes -> Digest, json: string -> Option<Json>,
    scan: (Path, string, bool) -> Verdict<Scan>,
    sortVersions: seq<string> -> seq<string>, sortPaths: set<Path> -> seq<Path>, sortInline: seq<Inline> -> seq<Inline>)

  // ---------------------------------------------------------------------
  // Recorded reads
  // ---------------------------------------------------------------------

  /** An audited path and the digest of its bytes, or its confirmed absence. */
  datatype Entry = Entry(path: Path, digest: Option<Digest>)

  function CurrentDigest(tools: Tools, fs: FS, path: Path): Verdict<Option<Digest>> {
    if path !in fs.files then Ok(None)
    else match fs.files[path] case Data(bytes) => Ok(Some(tools.hash(bytes))) case Unreadable => Err(Refused)
  }

  /** What a recorded read returns: the text, or nothing for an absent file. */
  function ReadText(tools: Tools, fs: FS, path: Path): Verdict<Option<string>> {
    if path !in fs.files then Ok(None)
    else
      match fs.files[path]
      case Unreadable => Err(Refused)
      case Data(bytes) =>
        match tools.utf8(bytes) case Some(text) => Ok(Some(text)) case None => Err(Refused)
  }

  function EntryFor(tools: Tools, fs: FS, path: Path): Entry {
    Entry(path, match CurrentDigest(tools, fs, path) case Ok(d) => d case Err(_) => None)
  }

  /** A hook file or manifest that must be there and be JSON. */
  function ReadJson(tools: Tools, fs: FS, path: Path): Verdict<Json> {
    match ReadText(tools, fs, path)
    case Ok(Some(text)) => (match tools.json(text) case Some(j) => Ok(j) case None => Err(Refused))
    case _ => Err(Refused)
  }

  // ---------------------------------------------------------------------
  // Foreign lists
  // ---------------------------------------------------------------------

  function AddNew(list: seq<string>, d: string): seq<string> { if d in list then list else list + [d] }

  function AddAll(list: seq<string>, more: seq<string>): seq<string> {
    if more == [] then list else AddNew(AddAll(list, more[..|more| - 1]), more[|more| - 1])
  }

  function Labelled(source: string, descriptors: seq<string>): seq<string> {
    seq(|descriptors|, i requires 0 <= i < |descriptors| => source + ": " + descriptors[i])
  }

  // ---------------------------------------------------------------------
  // Configuration layers
  // ---------------------------------------------------------------------

  /** Where the audit looks. */
  datatype Site = Site(project: Path, home: Path, audit: Audit)

  function ProjectHooks(site: Site): Path { Sub(Sub(site.project, ".codex"), "hooks.json") }

  function UserHooks(site: Site): Path { Sub(site.home, "hooks.json") }

  function UserConfig(site: Site): Path { Sub(site.home, "config.toml") }

  function ProjectConfig(site: Site): Path { Sub(Sub(site.project, ".codex"), "config.toml") }

  function ProfileLayer(site: Site, profile: string): Path { Sub(site.home, profile + ".config.toml") }

  function RootLayers(site: Site): seq<Path> {
    [UserConfig(site), ProjectConfig(site), Sub(site.home, "requirements.toml")]
  }

  function GateKeys(path: Path, gates: seq<(nat, nat)>): seq<string> {
    seq(|gates|, i requires 0 <= i < |gates| =>
      path + ":pre_tool_use:" + Decimal(gates[i].0) + ":" + Decimal(gates[i].1))
  }

  predicate IsIndex(s: string) {
    var digits := if s != "" && s[0] == '+' then s[1..] else s;
    digits != "" && AllDigits(digits) && Value(digits) <= SemVer.U64_MAX
  }

  predicate IsSnakeCase(s: string) {
    s != "" && forall i :: 0 <= i < |s| ==> 'a' <= s[i] <= 'z' || IsDigit(s[i]) || s[i] == '_'
  }

  /** `<absolute path to a hooks.json>:<snake_case event>:<rule>:<hook>`, split from the right. */
  predicate StateKeyShaped(key: string) {
    var parts := Split(key, ':');
    var n := |parts|;
    n >= 4
    && var source := Join(parts[..n - 3], ':');
       && ShellQuote.StartsWith(source, '/') && ShellQuote.FileName(source) == Some("hooks.json")
       && IsSnakeCase(parts[n - 3]) && IsIndex(parts[n - 2]) && IsIndex(parts[n - 1])
  }

  /** A layer that would switch the gate off, or that cannot be confirmed not to. */
  predicate LayerRefused(scan: Scan, gateKeys: seq<string>) {
    || scan.hooksDisabled
    || scan.managedOnly
    || exists i :: 0 <= i < |scan.states|
         && ((scan.states[i].0 in gateKeys && scan.states[i].1 != Some(true)) || !StateKeyShaped(scan.states[i].0))
  }

  datatype Layers = Layers(
    queue: seq<Path>, index: nat, log: seq<Entry>, foreign: seq<string>,
    userScan: Option<Scan>, profileFeature: Option<bool>, projectFeature: Option<bool>, selected: Option<Path>)

  function InitialLayers(site: Site, foreign: seq<string>): Layers {
    Layers(RootLayers(site), 0, [], foreign, None, None, None, None)
  }

  function ScanLayer(tools: Tools, site: Site, path: Path, text: string): Verdict<Scan> {
    tools.scan(path, text, path == UserConfig(site))
  }

  /** The features a layer contributes, by which of the layers it is. */
  function Noted(site: Site, st: Layers, path: Path, scan: Scan): Layers {
    if path == UserConfig(site) then
      st.(userScan := Some(scan),
          selected := match scan.profile case Some(p) => Some(ProfileLayer(site, p)) case None => None)
    else if path == ProjectConfig(site) then st.(projectFeature := scan.pluginsFeature)
    else if st.selected == Some(path) then st.(profileFeature := scan.pluginsFeature)
    else st
  }

  function Queued(site: Site, queue: seq<Path>, profile: Option<string>): seq<Path> {
    if profile.Some? && ProfileLayer(site, profile.value) !in queue
    then queue + [ProfileLayer(site, profile.value)] else queue
  }

  function Scanned(site: Site, st: Layers, path: Path, scan: Scan): Layers {
    var noted := Noted(site, st, path, scan);
    noted.(foreign := AddAll(st.foreign, scan.foreign), queue := Queued(site, st.queue, scan.profile))
  }

  /** One turn of the worklist. */
  function VisitLayer(tools: Tools, fs: FS, site: Site, gateKeys: seq<string>, st: Layers): Verdict<Layers>
    requires st.index < |st.queue|
  {
    var path := st.queue[st.index];
    var moved := st.(index := st.index + 1, log := st.log + [EntryFor(tools, fs, path)]);
    match ReadText(tools, fs, path)
    case Err(_) => Err(Refused)
    case Ok(None) => Ok(moved)
    case Ok(Some(text)) =>
      match ScanLayer(tools, site, path, text)
      case Err(_) => Err(Refused)
      case Ok(scan) => if LayerRefused(scan, gateKeys) then Err(Refused) else Ok(Scanned(site, moved, path, scan))
  }

  /** The layer an existing layer asks for. */
  function Requests(tools: Tools, fs: FS, site: Site, path: Path): Option<Path> {
    match ReadText(tools, fs, path)
    case Ok(Some(text)) =>
      (match ScanLayer(tools, site, path, text)
       case Ok(scan) => (match scan.profile case Some(p) => Some(ProfileLayer(site, p)) case None => None)
       case Err(_) => None)
    case _ => None
  }

  /** Whatever a visited layer asks for is in the queue. */
  ghost predicate Served(tools: Tools, fs: FS, site: Site, st: Layers) {
    st.index <= |st.queue|
    && forall i :: 0 <= i < st.index && Requests(tools, fs, site, st.queue[i]).Some? ==>
         Requests(tools, fs, site, st.queue[i]).value in st.queue
  }

  /** Existing files not yet visited. */
  ghost function Unvisited(fs: FS, st: Layers): set<Path>
    requires st.index <= |st.queue|
  {
    fs.files.Keys - set i | 0 <= i < st.index :: st.queue[i]
  }

  lemma VisitServes(tools: Tools, fs: FS, site: Site, gateKeys: seq<string>, st: Layers)
    requires Served(tools, fs, site, st) && st.index < |st.queue|
    requires VisitLayer(tools, fs, site, gateKeys, st).Ok?
    ensures var t := VisitLayer(tools, fs, site, gateKeys, st).value;
      && Served(tools, fs, site, t) && t.index == st.index + 1 && st.queue <= t.queue
      && Unvisited(fs, t) <= Unvisited(fs, st)
      && (|t.queue| > |st.queue| ==> Unvisited(fs, t) != Unvisited(fs, st) && |t.queue| == |st.queue| + 1)
  {
    hide LayerRefused, AddAll;
    var t := VisitLayer(tools, fs, site, gateKeys, st).value;
    var path := st.queue[st.index];
    assert forall i :: 0 <= i < |st.queue| ==> t.queue[i] == st.queue[i];
    if |t.queue| > |st.queue| {
      assert Requests(tools, fs, site, path).Some? && Requests(tools, fs, site, path).value !in st.queue;
      assert forall i :: 0 <= i < st.index ==> st.queue[i] != path;
      assert path in Unvisited(fs, st);
      assert t.queue[st.index] == path;
    }
  }

  lemma Shrinks<T>(a: set<T>, b: set<T>)
    requires a <= b && a != b
    ensures |a| < |b|
  {
    var x :| x in b && x !in a;
    SubsetSize(a, b - {x});
  }

  /** The whole worklist. */
  function WalkLayers(tools: Tools, fs: FS, site: Site, gateKeys: seq<string>, st: Layers): Verdict<Layers>
    requires Served(tools, fs, site, st)
    decreases |Unvisited(fs, st)|, |st.queue| - st.index
  {
    if st.index == |st.queue| then Ok(st)
    else
      match VisitLayer(tools, fs, site, gateKeys, st)
      case Err(_) => Err(Refused)
      case Ok(t) =>
        VisitServes(tools, fs, site, gateKeys, st);
        assert |Unvisited(fs, t)| < |Unvisited(fs, st)|
            || (|Unvisited(fs, t)| == |Unvisited(fs, st)| && |t.queue| == |st.queue|) by {
          if Unvisited(fs, t) != Unvisited(fs, st) { Shrinks(Unvisited(fs, t), Unvisited(fs, st)); }
        }
        WalkLayers(tools, fs, site, gateKeys, t)
  }

  method ScanLayers(tools: Tools, fs: FS, site: Site, gateKeys: seq<string>, foreign: seq<string>)
    returns (result: Verdict<Layers>)
    ensures Served(tools, fs, site, InitialLayers(site, foreign))
    ensures result == WalkLayers(tools, fs, site, gateKeys, InitialLayers(site, foreign))
  {
    hide VisitLayer;
    var st := InitialLayers(site, foreign);
    while st.index < |st.queue|
      invariant Served(tools, fs, site, st)
      invariant WalkLayers(tools, fs, site, gateKeys, InitialLayers(site, foreign))
             == WalkLayers(tools, fs, site, gateKeys, st)
      decreases |Unvisited(fs, st)|, |st.queue| - st.index
    {
      var next := VisitLayer(tools, fs, site, gateKeys, st);
      if next.Err? {
        return Err(Refused);
      }
      VisitServes(tools, fs, site, gateKeys, st);
      if Unvisited(fs, next.value) != Unvisited(fs, st) {
        Shrinks(Unvisited(fs, next.value), Unvisited(fs, st));
      }
      st := next.value;
    }
    return Ok(st);
  }

  // ---------------------------------------------------------------------
  // Plugins
  // ---------------------------------------------------------------------

  datatype Plugin = Plugin(key: string, name: string, market: string)

  predicate ValidSegment(s: string) {
    s != "" && forall i :: 0 <= i < |s| ==> IsAlphanumeric(s[i]) || s[i] == '-' || s[i] == '_'
  }

  /** The parts around the last `@`. */
  function PluginOf(key: string): Option<Plugin> {
    var parts := Split(key, '@');
    var n := |parts|;
    if n < 2 || !ValidSegment(Join(parts[..n - 1], '@')) || !ValidSegment(parts[n - 1]) then None
    else Some(Plugin(key, Join(parts[..n - 1], '@'), parts[n - 1]))
  }

  /** Enabled entries by key; an entry that does not say is enabled. */
  function EnabledMap(configured: seq<(string, Option<bool>)>): Verdict<map<string, Plugin>> {
    if configured == [] then Ok(map[])
    else
      var n := |configured| - 1;
      var (key, state) := configured[n];
      match EnabledMap(configured[..n])
      case Err(_) => Err(Refused)
      case Ok(before) =>
        if state == Some(false) then Ok(before)
        else match PluginOf(key) case None => Err(Refused) case Some(plugin) => Ok(before[key := plugin])
  }

  function EnabledPlugins(configured: seq<(string, Option<bool>)>): Verdict<seq<Plugin>> {
    match EnabledMap(configured)
    case Err(_) => Err(Refused)
    case Ok(plugins) =>
      var keys := SortedKeys(plugins.Keys);
      Ok(seq(|keys|, i requires 0 <= i < |keys| => plugins[keys[i]]))
  }

  predicate ValidVersion(s: string) {
    s != "" && s != "." && s != ".."
    && forall i :: 0 <= i < |s| ==> IsAlphanumeric(s[i]) || s[i] == '.' || s[i] == '+' || s[i] == '_' || s[i] == '-'
  }

  function Versions(entries: seq<DirEntry>): seq<string> {
    if entries == [] then []
    else
      var n := |entries| - 1;
      Versions(entries[..n])
      + if entries[n].isDir && entries[n].name.Some? && ValidVersion(entries[n].name.value)
        then [entries[n].name.value] else []
  }

  function ActiveRoot(tools: Tools, fs: FS, site: Site, plugin: Plugin): Verdict<Option<Path>> {
    var base := Sub(Sub(Sub(site.home, "plugins/cache"), plugin.market), plugin.name);
    match fs.list(base)
    case Unlistable => Err(Refused)
    case NoSuchDir => if fs.lstat(base).Absent? || fs.lstat(base).StatError? then Ok(None) else Err(Refused)
    case Entries(entries) =>
      var versions := Versions(entries);
      var sorted := tools.sortVersions(versions);
      if "local" in versions then Ok(Some(Sub(base, "local")))
      else if sorted == [] then Ok(None)
      else Ok(Some(Sub(base, sorted[|sorted| - 1])))
  }

  predicate PathStartsWith(p: Path, base: Path) {
    p == base || (|base| < |p| && p[..|base|] == base && (base == "/" || p[|base|] == '/'))
  }

  function ResolveHookPath(fs: FS, root: Path, canonicalRoot: Path, declared: string): Verdict<Path> {
    if !("./" <= declared) || ".." in Split(declared, '/') then Err(Refused)
    else
      match fs.canonical(Sub(root, declared))
      case None => Err(Refused)
      case Some(resolved) =>
        if PathStartsWith(resolved, canonicalRoot) && fs.stat(resolved).IsFile? then Ok(resolved) else Err(Refused)
  }

  function ResolveAll(fs: FS, root: Path, canonicalRoot: Path, entries: seq<Json>): Verdict<set<Path>> {
    if entries == [] then Ok({})
    else
      var n := |entries| - 1;
      match ResolveAll(fs, root, canonicalRoot, entries[..n])
      case Err(_) => Err(Refused)
      case Ok(before) =>
        if !entries[n].Str? then Err(Refused)
        else
          match ResolveHookPath(fs, root, canonicalRoot, entries[n].text)
          case Err(_) => Err(Refused)
          case Ok(path) => Ok(before + {path})
  }

  predicate ValidInline(settings: Json) {
    && settings.Obj?
    && (forall key :: key in settings.fields ==> key == "description" || key == "hooks")
    && ("description" in settings.fields ==>
          settings.fields["description"].Null? || settings.fields["description"].Str?)
    && ("hooks" in settings.fields ==> settings.fields["hooks"].Obj?)
  }

  function InlineHooks(manifest: Path, entries: seq<Json>): seq<Inline> {
    seq(|entries|, i requires 0 <= i < |entries| => Inline(manifest, i, entries[i]))
  }

  /** Hook sources found so far, and the manifests read to find them. */
  datatype Found = Found(files: set<Path>, inline: seq<Inline>, log: seq<Entry>)

  function DefaultHooks(fs: FS, root: Path): Verdict<set<Path>> {
    var path := Sub(root, "hooks/hooks.json");
    match fs.stat(path)
    case IsFile => (match fs.canonical(path) case Some(p) => Ok({p}) case None => Err(Refused))
    case StatError => Err(Refused)
    case _ => Ok({})
  }

  /** The sources a manifest declares: a path, paths, an inline object, inline objects, or the default. */
  function DeclaredHooks(fs: FS, root: Path, canonicalRoot: Path, manifest: Path, declared: Option<Json>)
    : Verdict<(set<Path>, seq<Inline>)>
  {
    match declared
    case Some(Str(text)) =>
      (match ResolveHookPath(fs, root, canonicalRoot, text)
       case Ok(p) => Ok(({p}, [])) case Err(_) => Err(Refused))
    case Some(Obj(fields)) =>
      if ValidInline(Obj(fields)) then Ok(({}, [Inline(manifest, 0, Obj(fields))])) else Err(Refused)
    case Some(Arr(entries)) =>
      if entries != [] && (forall i :: 0 <= i < |entries| ==> entries[i].Str?) then
        match ResolveAll(fs, root, canonicalRoot, entries)
        case Ok(paths) => Ok((paths, []))
        case Err(_) => Err(Refused)
      else if entries != [] && (forall i :: 0 <= i < |entries| ==> entries[i].Obj?) then
        if forall i :: 0 <= i < |entries| ==> ValidInline(entries[i])
        then Ok(({}, InlineHooks(manifest, entries))) else Err(Refused)
      else if entries == [] then
        match DefaultHooks(fs, root) case Ok(paths) => Ok((paths, [])) case Err(_) => Err(Refused)
      else Err(Refused)
    case None => (match DefaultHooks(fs, root) case Ok(paths) => Ok((paths, [])) case Err(_) => Err(Refused))
    case Some(Null) => (match DefaultHooks(fs, root) case Ok(paths) => Ok((paths, [])) case Err(_) => Err(Refused))
    case _ => Err(Refused)
  }

  /** The Codex manifest, or the Claude one only in its absence. */
  function ManifestPath(fs: FS, root: Path): Verdict<Option<Path>> {
    var primary, fallback := Sub(root, ".codex-plugin/plugin.json"), Sub(root, ".claude-plugin/plugin.json");
    match fs.lstat(primary)
    case StatError => Err(Refused)
    case Absent =>
      (match fs.lstat(fallback)
       case StatError => Err(Refused)
       case Absent => Ok(None)
       case _ => Ok(Some(fallback)))
    case _ => Ok(Some(primary))
  }

  function CollectPlugin(tools: Tools, fs: FS, site: Site, plugin: Plugin, acc: Found): Verdict<Found> {
    match ActiveRoot(tools, fs, site, plugin)
    case Err(_) => Err(Refused)
    case Ok(None) => Ok(acc)
    case Ok(Some(root)) =>
      match fs.canonical(root)
      case None => Err(Refused)
      case Some(canonicalRoot) =>
        if !fs.stat(canonicalRoot).IsDir? then Err(Refused)
        else
          match ManifestPath(fs, root)
          case Err(_) => Err(Refused)
          case Ok(None) => Ok(acc)
          case Ok(Some(manifest)) =>
            match ReadJson(tools, fs, manifest)
            case Err(_) => Err(Refused)
            case Ok(document) =>
              if !document.Obj? then Err(Refused)
              else
                match DeclaredHooks(fs, root, canonicalRoot, manifest, Get(document, "hooks"))
                case Err(_) => Err(Refused)
                case Ok((files, inline)) =>
                  Ok(Found(acc.files + files, acc.inline + inline, acc.log + [EntryFor(tools, fs, manifest)]))
  }

  function CollectAll(tools: Tools, fs: FS, site: Site, plugins: seq<Plugin>): Verdict<Found> {
    if plugins == [] then Ok(Found({}, [], []))
    else
      match CollectAll(tools, fs, site, plugins[..|plugins| - 1])
      case Err(_) => Err(Refused)
      case Ok(acc) => CollectPlugin(tools, fs, site, plugins[|plugins| - 1], acc)
  }

  datatype Inventory = Inventory(files: seq<Path>, inline: seq<Inline>)

  function InventoryOf(tools: Tools, found: Found): Inventory {
    Inventory(tools.sortPaths(found.files), tools.sortInline(found.inline))
  }

  // ---------------------------------------------------------------------
  // The verdict
  // ---------------------------------------------------------------------

  datatype Snapshot = Snapshot(
    files: seq<Entry>, hooks: Inventory, enabled: seq<Plugin>, userScan: Option<Scan>, loading: Option<bool>)

  /** One audited source: what it adds to the foreign list. */
  function InspectSource(audit: Audit, source: string, settings: Json, foreign: seq<string>): Verdict<seq<string>> {
    match Inspect(audit, settings)
    case Err(_) => Err(Refused)
    case Ok(sec) => Ok(AddAll(foreign, Labelled(source, sec.foreign)))
  }

  function InspectFiles(tools: Tools, fs: FS, audit: Audit, paths: seq<Path>, foreign: seq<string>)
    : Verdict<seq<string>>
  {
    if paths == [] then Ok(foreign)
    else
      var n := |paths| - 1;
      match InspectFiles(tools, fs, audit, paths[..n], foreign)
      case Err(_) => Err(Refused)
      case Ok(before) =>
        match ReadJson(tools, fs, paths[n])
        case Err(_) => Err(Refused)
        case Ok(settings) => InspectSource(audit, paths[n], settings, before)
  }

  function EntriesFor(tools: Tools, fs: FS, paths: seq<Path>): seq<Entry> {
    seq(|paths|, i requires 0 <= i < |paths| => EntryFor(tools, fs, paths[i]))
  }

  function InlineLabel(inline: Inline): string { inline.manifest + "#hooks[" + Decimal(inline.index) + "]" }

  function InspectInline(audit: Audit, inline: seq<Inline>, foreign: seq<string>): Verdict<seq<string>> {
    if inline == [] then Ok(foreign)
    else
      var n := |inline| - 1;
      match InspectInline(audit, inline[..n], foreign)
      case Err(_) => Err(Refused)
      case Ok(before) => InspectSource(audit, InlineLabel(inline[n]), inline[n].settings, before)
  }

  function OrElse<T>(a: Option<T>, b: Option<T>): Option<T> { if a.Some? then a else b }

  function LoadsPlugins(st: Layers): bool {
    var user := match st.userScan case Some(scan) => scan.pluginsFeature case None => None;
    match OrElse(st.projectFeature, OrElse(st.profileFeature, user)) case Some(b) => b case None => true
  }

  function ConfiguredPlugins(userScan: Option<Scan>): seq<(string, Option<bool>)> {
    match userScan case Some(scan) => scan.plugins case None => []
  }

  function PluginsToLoad(loading: bool, userScan: Option<Scan>): Verdict<seq<Plugin>> {
    if loading then EnabledPlugins(ConfiguredPlugins(userScan)) else Ok([])
  }

  /** Steps one and two: the project's hook file must be there, the user's may be. */
  function AuditHookFiles(tools: Tools, fs: FS, site: Site): Verdict<Security> {
    match ReadJson(tools, fs, ProjectHooks(site))
    case Err(_) => Err(Refused)
    case Ok(settings) =>
      match Inspect(site.audit, settings)
      case Err(_) => Err(Refused)
      case Ok(sec) =>
        var own := sec.(foreign := Labelled(ProjectHooks(site), sec.foreign));
        match ReadText(tools, fs, UserHooks(site))
        case Err(_) => Err(Refused)
        case Ok(None) => Ok(own)
        case Ok(Some(_)) =>
          match InspectFiles(tools, fs, site.audit, [UserHooks(site)], own.foreign)
          case Err(_) => Err(Refused)
          case Ok(foreign) => Ok(own.(foreign := foreign))
  }

  /** Step four, given the layers. */
  function AuditPlugins(tools: Tools, fs: FS, site: Site, before: seq<Entry>, sec: Security, st: Layers)
    : Verdict<(Security, Snapshot)>
  {
    match PluginsToLoad(LoadsPlugins(st), st.userScan)
    case Err(_) => Err(Refused)
    case Ok(enabled) =>
      match CollectAll(tools, fs, site, enabled)
      case Err(_) => Err(Refused)
      case Ok(found) =>
        var inventory := InventoryOf(tools, found);
        match InspectFiles(tools, fs, site.audit, inventory.files, st.foreign)
        case Err(_) => Err(Refused)
        case Ok(withFiles) =>
          match InspectInline(site.audit, inventory.inline, withFiles)
          case Err(_) => Err(Refused)
          case Ok(foreign) =>
            Ok((sec.(foreign := foreign),
                Snapshot(before + st.log + found.log + EntriesFor(tools, fs, inventory.files),
                         inventory, enabled, st.userScan, Some(LoadsPlugins(st)))))
  }

  function AuditCodex(tools: Tools, fs: FS, site: Site): Verdict<(Security, Snapshot)> {
    match AuditHookFiles(tools, fs, site)
    case Err(_) => Err(Refused)
    case Ok(sec) =>
      var gateKeys := GateKeys(ProjectHooks(site), sec.gates);
      match WalkLayers(tools, fs, site, gateKeys, InitialLayers(site, sec.foreign))
      case Err(_) => Err(Refused)
      case Ok(st) =>
        AuditPlugins(tools, fs, site, EntriesFor(tools, fs, [ProjectHooks(site), UserHooks(site)]), sec, st)
  }

  // ---------------------------------------------------------------------
  // Checking the verdict again
  // ---------------------------------------------------------------------

  predicate FilesUnchanged(tools: Tools, fs: FS, files: seq<Entry>) {
    forall i :: 0 <= i < |files| ==> CurrentDigest(tools, fs, files[i].path) == Ok(files[i].digest)
  }

  /** The user configuration as it scans now. */
  function CurrentScan(tools: Tools, fs: FS, site: Site): Verdict<Option<Scan>> {
    match ReadText(tools, fs, UserConfig(site))
    case Err(_) => Err(Refused)
    case Ok(None) => Ok(None)
    case Ok(Some(text)) =>
      match tools.scan(UserConfig(site), text, true) case Ok(scan) => Ok(Some(scan)) case Err(_) => Err(Refused)
  }

  predicate PluginsUnchanged(tools: Tools, fs: FS, site: Site, snapshot: Snapshot) {
    && CurrentScan(tools, fs, site) == Ok(snapshot.userScan)
    && PluginsToLoad(match snapshot.loading case Some(b) => b case None => true, snapshot.userScan)
       == Ok(snapshot.enabled)
    && var found := CollectAll(tools, fs, site, snapshot.enabled);
       found.Ok? && InventoryOf(tools, found.value) == snapshot.hooks
  }

  predicate Unchanged(tools: Tools, fs: FS, site: Site, snapshot: Snapshot) {
    FilesUnchanged(tools, fs, snapshot.files) && PluginsUnchanged(tools, fs, site, snapshot)
  }

  class AuditSnapshot {
    var files: seq<Entry>
    var hooks: Inventory
    var enabled: seq<Plugin>
    var userScan: Option<Scan>
    var loading: Option<bool>

    ghost function View(): Snapshot
      reads this
    {
      Snapshot(files, hooks, enabled, userScan, loading)
    }

    constructor ()
      ensures View() == Snapshot([], Inventory([], []), [], None, None)
    {
      files, hooks, enabled, userScan, loading := [], Inventory([], []), [], None, None;
    }

    /** Reads once; what was found or found absent is recorded before it is decoded. */
    method RecordRead(tools: Tools, fs: FS, path: Path) returns (text: Verdict<Option<string>>)
      modifies this`files
      ensures text == ReadText(tools, fs, path)
      ensures files == old(files) + if CurrentDigest(tools, fs, path).Ok? then [EntryFor(tools, fs, path)] else []
    {
      if path !in fs.files {
        files := files + [Entry(path, None)];
        return Ok(None);
      }
      match fs.files[path] {
        case Unreadable => { return Err(Refused); }
        case Data(bytes) => {
          files := files + [Entry(path, Some(tools.hash(bytes)))];
          var decoded := tools.utf8(bytes);
          if decoded.None? {
            return Err(Refused);
          }
          return Ok(Some(decoded.value));
        }
      }
    }

    method VerifyUnchanged(tools: Tools, fs: FS, site: Site, codex: bool) returns (result: Verdict<()>)
      ensures result.Ok? <==>
        && (forall e :: e in files ==> CurrentDigest(tools, fs, e.path) == Ok(e.digest))
        && (codex ==>
              && CurrentScan(tools, fs, site) == Ok(userScan)
              && PluginsToLoad(loading != Some(false), userScan) == Ok(enabled)
              && CollectAll(tools, fs, site, enabled).Ok?
              && InventoryOf(tools, CollectAll(tools, fs, site, enabled).value) == hooks)
    {
      for i := 0 to |files|
        invariant FilesUnchanged(tools, fs, files[..i])
      {
        var current := CurrentDigest(tools, fs, files[i].path);
        if current != Ok(files[i].digest) {
          return Err(Refused);
        }
        assert files[..i + 1] == files[..i] + [files[i]];
      }
      assert files[..|files|] == files;
      if codex {
        hide CollectAll, PluginsToLoad, FilesUnchanged;
        var scan := CurrentScan(tools, fs, site);
        if scan.Err? || scan.value != userScan {
          return Err(Refused);
        }
        var plugins := PluginsToLoad(match loading case Some(b) => b case None => true, scan.value);
        if plugins.Err? || plugins.value != enabled {
          return Err(Refused);
        }
        var found := CollectAll(tools, fs, site, plugins.value);
        if found.Err? || InventoryOf(tools, found.value) != hooks {
          return Err(Refused);
        }
      }
      return Ok(());
    }
  }
}
