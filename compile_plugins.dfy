/** Finding and compiling the desktop app's plugins (desktop/static/compilePlugins.ts).
    Each plugin folder holds one directory per package; a package whose manifest is
    readable (and, here, tagged `flipper-plugin`) becomes a plugin keyed by its name, later
    folders overriding earlier ones. A plugin is then served from its pre-built bundle,
    from a cached build that is newer than its sources, or built afresh. The file system is
    a snapshot passed in: a folder listing per path, and per plugin what the compiler
    finds on disk. */
module CompilePlugins {
  import opened Wrappers
  import OrderedMap
  import Strings

  /** The fields of a package manifest the compiler reads. */
  datatype Manifest = Manifest(name: string, version: Option<string>, main: Option<string>,
                               bundleMain: Option<string>, keywords: Option<seq<string>>)

  /** What reading and parsing a package's `package.json` gives: no file, an empty file
      (falsy text), text that is not JSON, or a manifest. */
  datatype PackageJson = Unreadable | Blank | Invalid | Parsed(manifest: Manifest)

  /** One name in a plugin folder's listing. */
  datatype FolderEntry = FolderEntry(name: string, isDirectory: bool, packageJson: PackageJson)

  datatype PluginInfo = PluginInfo(rootDir: string, name: string, entry: string, manifest: Manifest)

  /** The additional plugin paths: an array, or a single path given as a string. */
  datatype PluginPaths = OnePath(path: string) | Paths(paths: seq<string>)

  function PathList(p: PluginPaths): (r: seq<string>)
    ensures p.OnePath? ==> r == [p.path]
  {
    match p
    case OnePath(path) => [path]
    case Paths(paths) => paths
  }

  /** `path.join(a, b)` for a relative `b`. */
  function PathJoin(a: string, b: string): string {
    a + "/" + b
  }

  const PluginKeyword: string := "flipper-plugin"

  /** `s || d` for an optional string: absent and empty both fall back to `d`. */
  function OrDefault(s: Option<string>, d: string): (r: string)
    ensures s.Some? && s.value != "" ==> r == s.value
    ensures s.None? || s.value == "" ==> r == d
  {
    if s.Some? && s.value != "" then s.value else d
  }

  /** Whether a manifest passes the keyword filter: its `keywords` include `flipper-plugin`. */
  predicate Tagged(m: Manifest) {
    m.keywords.Some? && PluginKeyword in m.keywords.value
  }

  /** The plugin a folder entry yields, if any. Only directories with a non-empty name are
      looked at; an unreadable, empty or invalid manifest yields nothing, and so does an
      untagged one when the tag is required. The entry file defaults to `index.js`. */
  function EntryPlugin(pluginPath: string, e: FolderEntry, requireKeyword: bool): (r: Option<PluginInfo>)
    ensures r.Some? <==> e.isDirectory && e.name != "" && e.packageJson.Parsed?
                         && (requireKeyword ==> Tagged(e.packageJson.manifest))
    ensures r.Some? ==> r.value.manifest == e.packageJson.manifest && r.value.name == r.value.manifest.name
    ensures r.Some? ==> (r.value.rootDir == PathJoin(pluginPath, e.name)
      && r.value.entry == PathJoin(r.value.rootDir, OrDefault(r.value.manifest.main, "index.js")))
  {
    if !e.isDirectory || e.name == "" || !e.packageJson.Parsed? then None
    else
      var m := e.packageJson.manifest;
      if requireKeyword && !Tagged(m) then None
      else
        var rootDir := PathJoin(pluginPath, e.name);
        Some(PluginInfo(rootDir, m.name, PathJoin(rootDir, OrDefault(m.main, "index.js")), m))
  }

  /** The `reduce` over what the entries of a listing yield: each plugin is stored under
      its name, a later one replacing an earlier one of the same name, so a name reads
      the plugin of the last entry that yields it. */
  function CollectBy(es: seq<FolderEntry>, f: FolderEntry -> Option<PluginInfo>): (r: OrderedMap.OMap<PluginInfo>)
    ensures forall k :: OrderedMap.Get(r, k) == LastNamed(es, f, k)
    decreases |es|
  {
    if |es| == 0 then []
    else
      var acc := CollectBy(es[..|es| - 1], f);
      match f(es[|es| - 1])
      case None => acc
      case Some(p) => OrderedMap.Put(acc, p.name, p)
  }

  /** A plugin named `k` was yielded. */
  predicate Named(p: Option<PluginInfo>, k: string) {
    p.Some? && p.value.name == k
  }

  /** The plugin named `k` yielded by the last entry that yields one, if any. */
  function LastNamed(es: seq<FolderEntry>, f: FolderEntry -> Option<PluginInfo>, k: string): Option<PluginInfo>
    decreases |es|
  {
    if |es| == 0 then None
    else if Named(f(es[|es| - 1]), k) then f(es[|es| - 1])
    else LastNamed(es[..|es| - 1], f, k)
  }

  /** A name is absent iff no entry yields a plugin of that name. */
  lemma {:induction false} CollectAbsent(es: seq<FolderEntry>, f: FolderEntry -> Option<PluginInfo>, k: string)
    ensures LastNamed(es, f, k).None? <==> forall j :: 0 <= j < |es| ==> !Named(f(es[j]), k)
    decreases |es|
  {
    if |es| > 0 {
      var n := |es| - 1;
      var init := es[..n];
      CollectAbsent(init, f, k);
      assert forall j :: 0 <= j < n ==> init[j] == es[j];
    }
  }

  /** When entry `i` is the last to yield a plugin named `k`, the name maps to that
      plugin: the later entry wins. */
  lemma {:induction false} CollectLastWins(es: seq<FolderEntry>, f: FolderEntry -> Option<PluginInfo>, k: string, i: int)
    requires 0 <= i < |es| && Named(f(es[i]), k)
    requires forall j :: i < j < |es| ==> !Named(f(es[j]), k)
    ensures LastNamed(es, f, k) == f(es[i])
    decreases |es|
  {
    var n := |es| - 1;
    if i < n {
      var init := es[..n];
      assert init[i] == es[i];
      assert forall j :: i < j < n ==> init[j] == es[j];
      CollectLastWins(init, f, k, i);
    }
  }

  /** `entryPointForPluginFolder`: nothing for a missing folder, otherwise the plugins of
      its listing by name. */
  function EntryPointsForFolder(pluginPath: string, listing: Option<seq<FolderEntry>>, requireKeyword: bool): OrderedMap.OMap<PluginInfo> {
    match listing
    case None => []
    case Some(es) => CollectBy(es, e => EntryPlugin(pluginPath, e, requireKeyword))
  }

  /** The folder's plugins by name: a name maps to the plugin of the last entry yielding
      that name, and is absent when none does. */
  lemma EntryPointsByName(pluginPath: string, es: seq<FolderEntry>, requireKeyword: bool, k: string)
    ensures var m := EntryPointsForFolder(pluginPath, Some(es), requireKeyword);
      (OrderedMap.Get(m, k).None? <==> forall j :: 0 <= j < |es| ==> !Named(EntryPlugin(pluginPath, es[j], requireKeyword), k))
      && forall i :: 0 <= i < |es| && Named(EntryPlugin(pluginPath, es[i], requireKeyword), k)
           && (forall j :: i < j < |es| ==> !Named(EntryPlugin(pluginPath, es[j], requireKeyword), k))
           ==> OrderedMap.Get(m, k) == EntryPlugin(pluginPath, es[i], requireKeyword)
  {
    var f := e => EntryPlugin(pluginPath, e, requireKeyword);
    CollectAbsent(es, f, k);
    forall i | 0 <= i < |es| && Named(f(es[i]), k) && (forall j :: i < j < |es| ==> !Named(f(es[j]), k))
      ensures OrderedMap.Get(CollectBy(es, f), k) == f(es[i])
    {
      CollectLastWins(es, f, k, i);
    }
  }

  /** `Object.assign` of each map in turn over `base`. */
  function AssignAll<V>(base: OrderedMap.OMap<V>, us: seq<OrderedMap.OMap<V>>): OrderedMap.OMap<V>
    decreases |us|
  {
    if |us| == 0 then base else OrderedMap.Assign(AssignAll(base, us[..|us| - 1]), us[|us| - 1])
  }

  /** One more map: its entry for `k` if it has one, else the entry so far. */
  lemma AssignAllSnoc<V>(base: OrderedMap.OMap<V>, us: seq<OrderedMap.OMap<V>>, k: string)
    requires |us| > 0
    ensures OrderedMap.Get(AssignAll(base, us), k) ==
      if OrderedMap.HasKey(us[|us| - 1], k) then OrderedMap.Get(us[|us| - 1], k)
      else OrderedMap.Get(AssignAll(base, us[..|us| - 1]), k)
  {
  }

  /** A key some map defines comes from the last map defining it. */
  lemma {:induction false} AssignAllLaterWins<V>(base: OrderedMap.OMap<V>, us: seq<OrderedMap.OMap<V>>, k: string, i: int)
    requires 0 <= i < |us| && OrderedMap.HasKey(us[i], k)
    requires forall j :: i < j < |us| ==> !OrderedMap.HasKey(us[j], k)
    ensures OrderedMap.Get(AssignAll(base, us), k) == OrderedMap.Get(us[i], k)
    decreases |us|
  {
    var n := |us| - 1;
    AssignAllSnoc(base, us, k);
    if i < n {
      var init := us[..n];
      assert init[i] == us[i];
      assert forall j :: i < j < n ==> init[j] == us[j];
      AssignAllLaterWins(base, init, k, i);
    }
  }

  /** A key no map defines keeps its entry in `base`. */
  lemma {:induction false} AssignAllBaseKept<V>(base: OrderedMap.OMap<V>, us: seq<OrderedMap.OMap<V>>, k: string)
    requires forall j :: 0 <= j < |us| ==> !OrderedMap.HasKey(us[j], k)
    ensures OrderedMap.Get(AssignAll(base, us), k) == OrderedMap.Get(base, k)
    decreases |us|
  {
    if |us| > 0 {
      var n := |us| - 1;
      AssignAllSnoc(base, us, k);
      assert forall j :: 0 <= j < n ==> us[..n][j] == us[j];
      AssignAllBaseKept(base, us[..n], k);
    }
  }

  /** The plugins of each additional path. */
  function Folders(paths: seq<string>, fs: string -> Option<seq<FolderEntry>>, requireKeyword: bool): (r: seq<OrderedMap.OMap<PluginInfo>>)
    ensures |r| == |paths|
    ensures forall i :: 0 <= i < |paths| ==> r[i] == EntryPointsForFolder(paths[i], fs(paths[i]), requireKeyword)
  {
    seq(|paths|, i requires 0 <= i < |paths| => EntryPointsForFolder(paths[i], fs(paths[i]), requireKeyword))
  }

  /** The plugins of the default folder, with each additional path's plugins assigned
      over them in turn: on a name clash the later path wins. */
  function MergeFolders(defaultPath: string, paths: seq<string>, fs: string -> Option<seq<FolderEntry>>,
                        requireKeyword: bool): OrderedMap.OMap<PluginInfo>
  {
    AssignAll(EntryPointsForFolder(defaultPath, fs(defaultPath), requireKeyword), Folders(paths, fs, requireKeyword))
  }

  /** Assigning one more map of a list over the maps assigned so far. */
  lemma AssignAllPrefix<V>(base: OrderedMap.OMap<V>, us: seq<OrderedMap.OMap<V>>, i: int)
    requires 0 <= i < |us|
    ensures AssignAll(base, us[..i + 1]) == OrderedMap.Assign(AssignAll(base, us[..i]), us[i])
  {
    assert us[..i + 1][..i] == us[..i];
  }

  /** `Object.keys(u).forEach(key => m[key] = u[key])`: `Object.assign(m, u)`. */
  method CopyKeys<V>(m: OrderedMap.OMap<V>, u: OrderedMap.OMap<V>) returns (r: OrderedMap.OMap<V>)
    ensures r == OrderedMap.Assign(m, u)
  {
    r := m;
    var j := 0;
    while j < |u|
      invariant 0 <= j <= |u|
      invariant OrderedMap.Assign(r, u[j..]) == OrderedMap.Assign(m, u)
    {
      AssignStep(r, u, j);
      r := OrderedMap.Put(r, u[j].0, u[j].1);
      j := j + 1;
    }
    assert u[j..] == [];
  }

  /** Assigning the entries from `j` on is putting entry `j`, then assigning the rest. */
  lemma AssignStep<V>(r: OrderedMap.OMap<V>, u: OrderedMap.OMap<V>, j: int)
    requires 0 <= j < |u|
    ensures OrderedMap.UniqueKeys(u[j..]) && OrderedMap.UniqueKeys(u[j + 1..])
    ensures OrderedMap.Assign(r, u[j..]) == OrderedMap.Assign(OrderedMap.Put(r, u[j].0, u[j].1), u[j + 1..])
  {
    var rest: OrderedMap.OMap<V> := u[j..];
    assert rest[0] == u[j] && rest[1..] == u[j + 1..];
  }

  /** `pluginEntryPoints`: the default folder `<home>/.flipper/node_modules`, then each
      additional path's plugins copied in, key by key, over the ones found so far. */
  method PluginEntryPoints(home: string, additionalPaths: PluginPaths, fs: string -> Option<seq<FolderEntry>>,
                           requireKeyword: bool) returns (entryPoints: OrderedMap.OMap<PluginInfo>)
    ensures entryPoints == MergeFolders(DefaultPluginPath(home), PathList(additionalPaths), fs, requireKeyword)
  {
    var defaultPath := DefaultPluginPath(home);
    var base := EntryPointsForFolder(defaultPath, fs(defaultPath), requireKeyword);
    entryPoints := base;
    var paths := PathList(additionalPaths);
    ghost var folders := Folders(paths, fs, requireKeyword);
    var i := 0;
    while i < |paths|
      invariant 0 <= i <= |paths|
      invariant entryPoints == AssignAll(base, folders[..i])
    {
      var additionalPlugins := EntryPointsForFolder(paths[i], fs(paths[i]), requireKeyword);
      entryPoints := CopyKeys(entryPoints, additionalPlugins);
      AssignAllPrefix(base, folders, i);
      i := i + 1;
    }
    assert folders[..i] == folders;
  }

  function DefaultPluginPath(home: string): string {
    PathJoin(PathJoin(home, ".flipper"), "node_modules")
  }

  // ---------------------------------------------------------------- compiling one plugin

  /** What the compiler finds on disk for one plugin, and whether a build would succeed. */
  datatype BuildEnv = BuildEnv(bundleExists: bool, outExists: bool, sourceCtimes: seq<int>, outCtime: int,
                               buildSucceeds: bool)

  /** The compiled plugin: its manifest and the bundle it is loaded from. */
  datatype CompiledPluginInfo = CompiledPluginInfo(manifest: Manifest, out: string)

  /** A compilation ends with a plugin (`built` when the bundler ran), with `null` when a
      failed build is ignored, or with the build error thrown. */
  datatype Outcome<T> = Ready(info: T, built: bool) | Ignored | Thrown

  /** `mostRecentlyChanged`: the newest change time of the plugin's files, starting from the
      epoch. */
  function MostRecentlyChanged(ctimes: seq<int>): (r: int)
    ensures r >= 0 && forall i :: 0 <= i < |ctimes| ==> ctimes[i] <= r
    ensures r == 0 || r in ctimes
    decreases |ctimes|
  {
    if |ctimes| == 0 then 0
    else
      var a := MostRecentlyChanged(ctimes[..|ctimes| - 1]);
      var b := ctimes[|ctimes| - 1];
      assert forall i :: 0 <= i < |ctimes| - 1 ==> ctimes[..|ctimes| - 1][i] == ctimes[i];
      if a > b then a else b
  }

  /** The cached build is used iff the compilation is not forced, the output exists, and
      every source file changed strictly before the output. */
  predicate CacheUsable(force: bool, env: BuildEnv) {
    !force && env.outExists && MostRecentlyChanged(env.sourceCtimes) < env.outCtime
  }

  lemma CacheUsableIff(force: bool, env: BuildEnv)
    ensures CacheUsable(force, env) <==>
      !force && env.outExists && 0 < env.outCtime && forall i :: 0 <= i < |env.sourceCtimes| ==> env.sourceCtimes[i] < env.outCtime
  {
    var m := MostRecentlyChanged(env.sourceCtimes);
    if m != 0 {
      var i :| 0 <= i < |env.sourceCtimes| && env.sourceCtimes[i] == m;
    }
  }

  /** The cached bundle's file name: `<name>@<version or 0.0.0>.js`. */
  function CacheFileName(name: string, version: Option<string>): (r: string)
    ensures Strings.EndsWith(r, ".js")
  {
    var r := name + "@" + OrDefault(version, "0.0.0") + ".js";
    assert r[|r| - 3..] == ".js";
    r
  }

  /** The file name gives back the plugin name and version: the version is what follows
      the last `@` (scoped names such as `@scope/x` hold an `@` of their own). */
  lemma CacheFileNameParts(name: string, version: string)
    requires version != "" && '@' !in version
    ensures var stem := CacheFileName(name, Some(version))[..|CacheFileName(name, Some(version))| - 3];
      Strings.PrefixBeforeLast(stem, '@') == name && Strings.LastPiece(stem, '@') == version
  {
    var stem := name + "@" + version;
    assert CacheFileName(name, Some(version))[..|CacheFileName(name, Some(version))| - 3] == stem;
    assert stem[|name|] == '@';
    Strings.PrefixAndLastPiece(stem, '@');
    var pre, last := Strings.PrefixBeforeLast(stem, '@'), Strings.LastPiece(stem, '@');
    assert '@' !in last by {
      assert forall k :: 0 <= k < |Strings.Split(stem, '@')| ==> '@' !in Strings.Split(stem, '@')[k];
    }
    LastSeparatorSplit(name, version, pre, last);
  }

  /** Two ways of cutting a string at a separator, both with a separator-free last part,
      are the same cut. */
  lemma LastSeparatorSplit(a: string, b: string, c: string, d: string)
    requires '@' !in b && '@' !in d
    requires a + "@" + b == c + "@" + d
    ensures a == c && b == d
  {
    var s := a + "@" + b;
    assert s[|s| - |b| - 1] == '@';
    assert s == c + "@" + d && s[|s| - |d| - 1] == '@';
    assert |b| == |d|;
    assert b == s[|s| - |b|..] == d;
    assert a == s[..|a|] == c;
  }

  /** `bundleMain`, by default `dist/index.js`. */
  function BundleMain(m: Manifest): string {
    match m.bundleMain
    case Some(b) => b
    case None => PathJoin("dist", "index.js")
  }

  /** `compilePlugin`: a pre-built bundle is used as is; otherwise the cached build is
      used when usable, else the plugin is built into the cache. A failed build is ignored
      when failing silently and thrown otherwise. */
  function CompilePlugin(plugin: PluginInfo, pluginCache: string, force: bool, failSilently: bool,
                         env: BuildEnv): (r: Outcome<CompiledPluginInfo>)
    ensures env.bundleExists ==>
      r == Ready(CompiledPluginInfo(plugin.manifest, PathJoin(plugin.rootDir, BundleMain(plugin.manifest))), false)
    ensures !env.bundleExists && r.Ready? ==>
      r.info == CompiledPluginInfo(plugin.manifest,
                                   PathJoin(pluginCache, CacheFileName(plugin.name, plugin.manifest.version)))
    ensures r.Ready? && !r.built <==> env.bundleExists || CacheUsable(force, env)
    ensures r.Ready? && r.built <==> !env.bundleExists && !CacheUsable(force, env) && env.buildSucceeds
    ensures r.Ignored? <==> !env.bundleExists && !CacheUsable(force, env) && !env.buildSucceeds && failSilently
  {
    var manifest := plugin.manifest;
    if env.bundleExists then
      Ready(CompiledPluginInfo(manifest, PathJoin(plugin.rootDir, BundleMain(manifest))), false)
    else
      var out := PathJoin(pluginCache, CacheFileName(plugin.name, manifest.version));
      var result := CompiledPluginInfo(manifest, out);
      if CacheUsable(force, env) then Ready(result, false)
      else if env.buildSucceeds then Ready(result, true)
      else if failSilently then Ignored
      else Thrown
  }

  // ---------------------------------------------------------------- compiling all plugins

  datatype CompileOptions = CompileOptions(force: bool, failSilently: bool, recompileOnChanges: bool)

  const DefaultCompileOptions: CompileOptions := CompileOptions(false, true, true)

  /** Options given by the caller; an absent field keeps its default. */
  datatype GivenOptions = GivenOptions(force: Option<bool>, failSilently: Option<bool>, recompileOnChanges: Option<bool>)

  /** `Object.assign({}, DEFAULT_COMPILE_OPTIONS, options)`. */
  function MergeOptions(given: Option<GivenOptions>): (r: CompileOptions)
    ensures given.None? ==> r == DefaultCompileOptions
    ensures given.Some? ==> (r.force == given.value.force.UnwrapOr(false)
      && r.failSilently == given.value.failSilently.UnwrapOr(true)
      && r.recompileOnChanges == given.value.recompileOnChanges.UnwrapOr(true))
  {
    match given
    case None => DefaultCompileOptions
    case Some(g) => CompileOptions(g.force.UnwrapOr(DefaultCompileOptions.force),
                                   g.failSilently.UnwrapOr(DefaultCompileOptions.failSilently),
                                   g.recompileOnChanges.UnwrapOr(DefaultCompileOptions.recompileOnChanges))
  }

  /** `filter(c => c !== null)` over the compilations: the compiled plugins in order. */
  function ReadyInfos<T(!new)>(outcomes: seq<Outcome<T>>): (r: seq<T>)
    ensures |r| <= |outcomes|
    ensures forall x :: x in r <==> exists i :: 0 <= i < |outcomes| && outcomes[i].Ready? && outcomes[i].info == x
    decreases |outcomes|
  {
    if |outcomes| == 0 then []
    else
      var rest := ReadyInfos(outcomes[1..]);
      assert forall i :: 1 <= i < |outcomes| ==> outcomes[i] == outcomes[1..][i - 1];
      if outcomes[0].Ready? then [outcomes[0].info] + rest else rest
  }

  /** Awaiting all compilations: a thrown error rejects the whole; otherwise the
      compiled plugins, the ignored ones dropped. */
  function Gather<T(!new)>(outcomes: seq<Outcome<T>>): (r: Result<seq<T>, ()>)
    ensures r.Err? <==> exists i :: 0 <= i < |outcomes| && outcomes[i].Thrown?
    ensures r.Ok? ==> r.value == ReadyInfos(outcomes)
  {
    if exists i :: 0 <= i < |outcomes| && outcomes[i].Thrown? then Err(()) else Ok(ReadyInfos(outcomes))
  }

  /** Each plugin's compilation, in the order the plugins were found. */
  function Compilations(plugins: OrderedMap.OMap<PluginInfo>, pluginCache: string, options: CompileOptions,
                        envOf: PluginInfo -> BuildEnv): (r: seq<Outcome<CompiledPluginInfo>>)
    ensures |r| == |plugins|
    ensures forall i :: 0 <= i < |r| ==>
      r[i] == CompilePlugin(plugins[i].1, pluginCache, options.force, options.failSilently, envOf(plugins[i].1))
  {
    seq(|plugins|, i requires 0 <= i < |plugins| =>
      CompilePlugin(plugins[i].1, pluginCache, options.force, options.failSilently, envOf(plugins[i].1)))
  }

  /** The default export: every plugin found (tagged ones only) compiled with the merged
      options. Failing silently, the result is never an error; it holds at most one plugin
      per name found. */
  function CompileAll(home: string, pluginPaths: PluginPaths, pluginCache: string, given: Option<GivenOptions>,
                      fs: string -> Option<seq<FolderEntry>>, envOf: PluginInfo -> BuildEnv): (r: Result<seq<CompiledPluginInfo>, ()>)
    ensures MergeOptions(given).failSilently ==> r.Ok?
    ensures r.Ok? ==> |r.value| <= |MergeFolders(DefaultPluginPath(home), PathList(pluginPaths), fs, true)|
  {
    var plugins := MergeFolders(DefaultPluginPath(home), PathList(pluginPaths), fs, true);
    var options := MergeOptions(given);
    var outcomes := Compilations(plugins, pluginCache, options, envOf);
    assert options.failSilently ==> forall i :: 0 <= i < |outcomes| ==> !outcomes[i].Thrown?;
    Gather(outcomes)
  }
}
