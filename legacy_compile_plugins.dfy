/** The older plugin compiler (static/compilePlugins.js). It finds plugins as the desktop
    compiler does, except that every package with a readable manifest counts (there is no
    keyword filter), it has no pre-built bundles, and it keeps the options in one shared
    object: before each initial compilation it sets that object's `force` to false, so the
    caller's `force` never reaches the initial compilations. */
module LegacyCompilePlugins {
  import opened Wrappers
  import OrderedMap
  import opened CompilePlugins

  /** The compiled plugin: its manifest, overlaid with where it lives and its bundle. */
  datatype LegacyCompiledInfo = LegacyCompiledInfo(packageJson: Manifest, rootDir: string, name: string,
                                                   entry: string, out: string)

  /** `compilePlugin`: the cached build when usable, else a build into the cache; a
      failed build is ignored when failing silently and thrown otherwise. */
  function CompilePlugin(plugin: PluginInfo, pluginCache: string, force: bool, failSilently: bool,
                         env: BuildEnv): (r: Outcome<LegacyCompiledInfo>)
    ensures r.Ready? ==> r.info == LegacyCompiledInfo(plugin.manifest, plugin.rootDir, plugin.name, plugin.entry,
                                                      PathJoin(pluginCache, CacheFileName(plugin.name, plugin.manifest.version)))
    ensures r.Ready? && !r.built <==> CacheUsable(force, env)
    ensures r.Ready? && r.built <==> !CacheUsable(force, env) && env.buildSucceeds
    ensures r.Ignored? <==> !CacheUsable(force, env) && !env.buildSucceeds && failSilently
  {
    var out := PathJoin(pluginCache, CacheFileName(plugin.name, plugin.manifest.version));
    var result := LegacyCompiledInfo(plugin.manifest, plugin.rootDir, plugin.name, plugin.entry, out);
    if CacheUsable(force, env) then Ready(result, false)
    else if env.buildSucceeds then Ready(result, true)
    else if failSilently then Ignored
    else Thrown
  }

  /** Each plugin compiled with the given `force`, in the order the plugins were found. */
  function Compilations(plugins: OrderedMap.OMap<PluginInfo>, pluginCache: string, force: bool, failSilently: bool,
                        envOf: PluginInfo -> BuildEnv): (r: seq<Outcome<LegacyCompiledInfo>>)
    ensures |r| == |plugins|
    ensures forall i :: 0 <= i < |r| ==> r[i] == CompilePlugin(plugins[i].1, pluginCache, force, failSilently, envOf(plugins[i].1))
  {
    seq(|plugins|, i requires 0 <= i < |plugins| => CompilePlugin(plugins[i].1, pluginCache, force, failSilently, envOf(plugins[i].1)))
  }

  /** The options object the export builds and then shares with every compilation. */
  class SharedOptions {
    var force: bool
    var failSilently: bool
    var recompileOnChanges: bool

    /** `Object.assign({}, DEFAULT_COMPILE_OPTIONS, options)`. */
    constructor (given: Option<GivenOptions>)
      ensures CompileOptions(force, failSilently, recompileOnChanges) == MergeOptions(given)
    {
      var o := MergeOptions(given);
      force := o.force;
      failSilently := o.failSilently;
      recompileOnChanges := o.recompileOnChanges;
    }

    /** `Object.assign(options, {force})`: only `force` changes. */
    method SetForce(value: bool)
      modifies this`force
      ensures force == value
    {
      force := value;
    }
  }

  /** The initial compilations: for each plugin in turn, `force` is set to false on the
      shared options and the plugin is compiled with them. */
  method CompileInitially(plugins: OrderedMap.OMap<PluginInfo>, pluginCache: string, options: SharedOptions,
                          envOf: PluginInfo -> BuildEnv) returns (r: Result<seq<LegacyCompiledInfo>, ()>)
    modifies options`force
    ensures |plugins| > 0 ==> !options.force
    ensures |plugins| == 0 ==> options.force == old(options.force)
    ensures r == Gather(Compilations(plugins, pluginCache, false, options.failSilently, envOf))
  {
    var outcomes: seq<Outcome<LegacyCompiledInfo>> := [];
    var i := 0;
    while i < |plugins|
      invariant 0 <= i <= |plugins|
      invariant i > 0 ==> !options.force
      invariant i == 0 ==> options.force == old(options.force)
      invariant outcomes == Compilations(plugins[..i], pluginCache, false, options.failSilently, envOf)
    {
      options.SetForce(false);
      var outcome := CompilePlugin(plugins[i].1, pluginCache, options.force, options.failSilently, envOf(plugins[i].1));
      outcomes := outcomes + [outcome];
      assert plugins[..i + 1][..i] == plugins[..i];
      i := i + 1;
    }
    assert plugins[..i] == plugins;
    r := Gather(outcomes);
  }

  /** The module's export: the options merged into a fresh object, the plugins found (no
      keyword filter), and each compiled unforced. */
  method CompileAll(home: string, pluginPaths: PluginPaths, pluginCache: string, given: Option<GivenOptions>,
                    fs: string -> Option<seq<FolderEntry>>, envOf: PluginInfo -> BuildEnv)
    returns (r: Result<seq<LegacyCompiledInfo>, ()>)
    ensures r == Result(MergeFolders(DefaultPluginPath(home), PathList(pluginPaths), fs, false), pluginCache,
                        MergeOptions(given).failSilently, envOf)
  {
    var options := new SharedOptions(given);
    var plugins := PluginEntryPoints(home, pluginPaths, fs, false);
    r := CompileInitially(plugins, pluginCache, options, envOf);
  }

  /** What the export yields for the plugins found: every plugin compiled without force. */
  function Result(plugins: OrderedMap.OMap<PluginInfo>, pluginCache: string, failSilently: bool,
                  envOf: PluginInfo -> BuildEnv): Result<seq<LegacyCompiledInfo>, ()>
  {
    Gather(Compilations(plugins, pluginCache, false, failSilently, envOf))
  }

  /** The caller's `force` has no effect on the export: two option sets that differ only
      in `force` give the same plugins. Failing silently, the result is never an error. */
  lemma ForceIgnored(plugins: OrderedMap.OMap<PluginInfo>, pluginCache: string, a: GivenOptions, b: GivenOptions,
                     envOf: PluginInfo -> BuildEnv)
    requires a.failSilently == b.failSilently
    ensures Result(plugins, pluginCache, MergeOptions(Some(a)).failSilently, envOf)
         == Result(plugins, pluginCache, MergeOptions(Some(b)).failSilently, envOf)
    ensures MergeOptions(Some(a)).failSilently ==> Result(plugins, pluginCache, true, envOf).Ok?
  {
    var outcomes := Compilations(plugins, pluginCache, false, true, envOf);
    assert forall i :: 0 <= i < |outcomes| ==> !outcomes[i].Thrown?;
  }

  /** Entries without the `flipper-plugin` keyword still count here, unlike in the
      desktop compiler. */
  lemma UntaggedPackagesCount(pluginPath: string, e: FolderEntry)
    requires e.isDirectory && e.name != "" && e.packageJson.Parsed? && !Tagged(e.packageJson.manifest)
    ensures EntryPlugin(pluginPath, e, false).Some? && EntryPlugin(pluginPath, e, true).None?
  {
  }
}
