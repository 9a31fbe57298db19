/**
 * The table of third-party audio sources the subscription and plugin-download
 * functions share: for each source, whether the user must supply an API key and
 * which plugin files it serves, each with either the plugin's own quality list
 * (`null`) or a list of quality tags that overrides it.
 */
module SourceConfig {
  import opened Wrappers
  import opened JsObject

  /** A plugin's entry: `None` is `null` (keep the plugin's defaults), `Some(tags)` overrides them. */
  type Override = Option<seq<string>>

  /**
   * One source. Its API address, built-in key, request style and per-platform URLs are
   * configuration data that no modelled function reads.
   */
  datatype Source = Source(name: string, requiresKey: bool, plugins: Dict<Override>)

  const Wy: string := "wy.js"
  const Qq: string := "qq.js"
  const Kg: string := "kg.js"
  const Kw: string := "kw.js"
  const Mg: string := "mg.js"

  const Low: seq<string> := ["128k", "320k"]
  const Lossless: seq<string> := ["128k", "320k", "flac"]
  const QqSuyin: seq<string> := ["128k", "320k", "flac", "hires", "atmos", "master"]
  const Wide: seq<string> := ["128k", "192k", "320k", "flac", "flac24bit"]
  const WideMg: seq<string> := ["128k", "192k", "320k", "flac"]

  /** The same override for all five source plugins, in the table's order. */
  function AllFive(q: Override): Dict<Override> {
    [(Wy, q), (Qq, q), (Kg, q), (Kw, q), (Mg, q)]
  }

  const Ikun: Source := Source("ikun 音源", true, [(Wy, None), (Qq, None), (Kg, None), (Kw, None)])
  const Linglan: Source := Source("聆澜音源", true, AllFive(None))
  const Suyin: Source :=
    Source("溯音音源", false, [(Wy, Some(Lossless)), (Qq, Some(QqSuyin)), (Kw, Some(Lossless)), (Mg, Some(Low))])
  const Xinghai: Source :=
    Source("GD音乐台", false, [(Wy, Some(Wide)), (Qq, Some(Wide)), (Kg, Some(Wide)), (Kw, Some(Wide)), (Mg, Some(WideMg))])
  const Huibq: Source := Source("Huibq 音源", false, AllFive(Some(Low)))
  const Nianxin: Source := Source("念心音源", false, AllFive(Some(Lossless)))
  const Changqing: Source := Source("长青音源", false, AllFive(Some(Lossless)))

  /** `SOURCE_CONFIG` */
  const Sources: Dict<Source> := [
    ("ikun", Ikun), ("linglan", Linglan), ("suyin", Suyin), ("xinghai", Xinghai),
    ("huibq", Huibq), ("nianxin", Nianxin), ("changqing", Changqing)
  ]

  /** `FREE_PLUGINS`: plugins that need neither a source nor a key. */
  const FreePlugins: seq<string> := ["bilibili.js", "qishui.js", "git.js"]

  /** `DEFAULT_SOURCE` */
  const DefaultSource: string := "ikun"

  /** `SOURCE_CONFIG[source]`, with None for a name that is not in the table. */
  function Config(source: string): (r: Option<Source>)
    ensures r.Some? <==> source in Keys(Sources)
  {
    Lookup(Sources, source)
  }

  predicate IsFree(plugin: string) {
    plugin in FreePlugins
  }

  /** `isSourcePlugin`: every plugin except the three free ones depends on a source. */
  function IsSourcePlugin(plugin: string): (r: bool)
    ensures r <==> plugin != "bilibili.js" && plugin != "qishui.js" && plugin != "git.js"
  {
    !IsFree(plugin)
  }

  /**
   * `sourceSupportsPlugin`: a free plugin is always supported, even under a source
   * that does not exist; any other plugin only when the source lists it.
   */
  function SourceSupportsPlugin(source: string, plugin: string): (r: bool)
    ensures IsFree(plugin) ==> r
    ensures Config(source).None? ==> (r <==> IsFree(plugin))
    ensures Config(source).Some? ==> (r <==> IsFree(plugin) || plugin in Keys(Config(source).value.plugins))
  {
    if IsFree(plugin) then true
    else
      match Config(source)
      case None => false
      case Some(c) => Has(c.plugins, plugin)
  }

  /**
   * `getQualityOverride`: `null` (None) unless the source exists and lists the plugin,
   * in which case its entry, itself `null` or a tag list.
   */
  function GetQualityOverride(source: string, plugin: string): (r: Override)
    ensures Config(source).None? ==> r.None?
    ensures Config(source).Some? ==> r == Lookup(Config(source).value.plugins, plugin).GetOr(None)
  {
    match Config(source)
    case None => None
    case Some(c) =>
      match Lookup(c.plugins, plugin)
      case None => None
      case Some(q) => q
  }

  /** The table read entry by entry: each of the seven names selects its own record. */
  lemma {:induction false} ConfigCases(source: string)
    ensures Config(source) ==
      if source == "ikun" then Some(Ikun)
      else if source == "linglan" then Some(Linglan)
      else if source == "suyin" then Some(Suyin)
      else if source == "xinghai" then Some(Xinghai)
      else if source == "huibq" then Some(Huibq)
      else if source == "nianxin" then Some(Nianxin)
      else if source == "changqing" then Some(Changqing)
      else None
  {
    var d := Sources;
    LookupCons(d[0], d[1..], source);
    LookupCons(d[1], d[2..], source);
    LookupCons(d[2], d[3..], source);
    LookupCons(d[3], d[4..], source);
    LookupCons(d[4], d[5..], source);
    LookupCons(d[5], d[6..], source);
    LookupCons(d[6], d[7..], source);
  }

  /** Every key of `ps` is one of the five source plugins. */
  predicate OnlySourcePlugins(ps: Dict<Override>) {
    forall i :: 0 <= i < |ps| ==> ps[i].0 in [Wy, Qq, Kg, Kw, Mg]
  }

  lemma {:induction false} AllFiveOnlySourcePlugins(q: Override)
    ensures OnlySourcePlugins(AllFive(q))
  {
  }

  /** Every source lists source plugins only. */
  lemma {:induction false} SourcesListOnlySourcePlugins(source: string)
    requires Config(source).Some?
    ensures OnlySourcePlugins(Config(source).value.plugins)
  {
    ConfigCases(source);
    AllFiveOnlySourcePlugins(None);
    AllFiveOnlySourcePlugins(Some(Low));
    AllFiveOnlySourcePlugins(Some(Lossless));
    RecordsOnlySourcePlugins();
  }

  /** The three records not built with AllFive list source plugins only. */
  lemma {:induction false} RecordsOnlySourcePlugins()
    ensures OnlySourcePlugins(Ikun.plugins)
    ensures OnlySourcePlugins(Suyin.plugins)
    ensures OnlySourcePlugins(Xinghai.plugins)
  {
  }

  /** None of the five source plugins is free. */
  lemma {:induction false} FiveAreSourcePlugins(plugin: string)
    requires plugin in [Wy, Qq, Kg, Kw, Mg]
    ensures IsSourcePlugin(plugin)
  {
  }

  /** Every plugin a source lists is one of the five source plugins. */
  lemma {:induction false} ListedPluginsAreSourcePlugins(source: string, plugin: string)
    requires Config(source).Some? && Has(Config(source).value.plugins, plugin)
    ensures plugin in [Wy, Qq, Kg, Kw, Mg]
    ensures IsSourcePlugin(plugin)
  {
    SourcesListOnlySourcePlugins(source);
    var ps := Config(source).value.plugins;
    var i :| 0 <= i < |ps| && Keys(ps)[i] == plugin;
    assert ps[i].0 == plugin;
    FiveAreSourcePlugins(plugin);
  }

  /** An override only ever replaces the qualities of a plugin its source supports. */
  lemma {:induction false} OverrideImpliesSupport(source: string, plugin: string)
    requires GetQualityOverride(source, plugin).Some?
    ensures SourceSupportsPlugin(source, plugin)
    ensures IsSourcePlugin(plugin)
  {
    ListedPluginsAreSourcePlugins(source, plugin);
  }

  /** The default source is in the table and requires a key; it serves every source plugin but Migu. */
  lemma {:induction false} DefaultSourceFacts()
    ensures Config(DefaultSource).Some? && Config(DefaultSource).value.requiresKey
    ensures !SourceSupportsPlugin(DefaultSource, Mg)
    ensures forall p :: p in [Wy, Qq, Kg, Kw] ==> SourceSupportsPlugin(DefaultSource, p)
  {
    ConfigCases(DefaultSource);
  }

  /** `suyin` needs no key from the user, does not serve KuGou and overrides QQ with six tags. */
  lemma {:induction false} SuyinFacts()
    ensures Config("suyin").Some? && !Config("suyin").value.requiresKey
    ensures !SourceSupportsPlugin("suyin", Kg)
    ensures GetQualityOverride("suyin", Qq) == Some(QqSuyin)
  {
    SuyinRecord();
    SuyinPlugins();
  }

  lemma {:induction false} SuyinRecord()
    ensures Config("suyin") == Some(Suyin)
  {
    ConfigCases("suyin");
  }

  /** The entries of `suyin`'s plugin table that the facts above read. */
  lemma {:induction false} SuyinPlugins()
    ensures Lookup(Suyin.plugins, Kg).None?
    ensures Lookup(Suyin.plugins, Qq) == Some(Some(QqSuyin))
  {
    var d := Suyin.plugins;
    LookupCons(d[0], d[1..], Kg);
    LookupCons(d[1], d[2..], Kg);
    LookupCons(d[2], d[3..], Kg);
    LookupCons(d[3], d[4..], Kg);
    LookupCons(d[0], d[1..], Qq);
    LookupCons(d[1], d[2..], Qq);
  }

  /** Exactly the two keyed sources require a key from the user. */
  lemma {:induction false} KeyedSources(source: string)
    requires Config(source).Some?
    ensures Config(source).value.requiresKey <==> source == "ikun" || source == "linglan"
  {
    ConfigCases(source);
  }
}
