/**
 * The subscription endpoint: MusicFree fetches it to learn which plugins to install
 * for one audio source. It scans the plugin directory, keeps the plugins the source
 * serves, and gives each a download address that carries the source and, for sources
 * that need one, the user's key.
 */
module Subscription {
  import opened Wrappers
  import opened JsString
  import opened JsObject
  import opened SourceConfig

  /** What a plugin file's `module.exports` declares, as `extractPluginMetadata` finds it. */
  datatype Metadata = Metadata(platform: string, version: string, author: string)

  /** One scanned plugin file. */
  datatype Plugin = Plugin(name: string, file: string, version: string, author: string, isFree: bool)

  /** One entry of the answer: the name shown to the user and the address to install from. */
  datatype Entry = Entry(name: string, url: string, version: string)

  datatype ClientInfo = ClientInfo(ip: string, ua: string)

  datatype Body = NoBody | Failure(error: string) | Listing(plugins: seq<Entry>, yourinfo: ClientInfo)

  datatype Response = Response(statusCode: int, body: Body)

  /** The parts of the request the handler reads; `query` is None when there is no query string. */
  datatype Event = Event(httpMethod: string, query: Option<Dict<string>>, headers: Dict<string>)

  /** A string parameter that is present and not empty, which is what a JavaScript test on it asks. */
  predicate Given(v: Option<string>) {
    v.Some? && v.value != []
  }

  /** `a || b` on optional strings. */
  function OrElse(v: Option<string>, fallback: string): (r: string)
    ensures Given(v) ==> r == v.value
    ensures !Given(v) ==> r == fallback
  {
    if Given(v) then v.value else fallback
  }

  /** `event.queryStringParameters?.[name]` */
  function Param(query: Option<Dict<string>>, name: string): Option<string> {
    match query
    case None => None
    case Some(d) => Lookup(d, name)
  }

  const JsonSuffix: string := ".json"

  /** `s.endsWith('.json') ? s.slice(0, -5) : s`: one trailing ".json" comes off. */
  function StripJson(s: string): (r: string)
    ensures EndsWith(s, JsonSuffix) ==> r + JsonSuffix == s
    ensures !EndsWith(s, JsonSuffix) ==> r == s
  {
    if EndsWith(s, JsonSuffix) then s[..|s| - 5] else s
  }

  /** The source name the handler works with: the parameter or the default, without ".json". */
  function SourceOf(query: Option<Dict<string>>): string {
    StripJson(OrElse(Param(query, "source"), DefaultSource))
  }

  /** The key the handler works with: an empty key stays as it was. */
  function KeyOf(query: Option<Dict<string>>): Option<string> {
    var key := Param(query, "key");
    if Given(key) then Some(StripJson(key.value)) else key
  }

  /** `process.env.BASE_URL || process.env.URL || 'https://musicfree-plugins.netlify.app'` */
  function BaseUrl(envBase: Option<string>, envUrl: Option<string>): (r: string)
    ensures Given(envBase) ==> r == envBase.value
    ensures !Given(envBase) && Given(envUrl) ==> r == envUrl.value
    ensures r != []
  {
    OrElse(envBase, OrElse(envUrl, "https://musicfree-plugins" + ".netlify.app"))
  }

  /** `getClientIP`: the first hop of `x-forwarded-for`, else `client-ip`, else "unknown". */
  function GetClientIP(headers: Dict<string>): (r: string)
    ensures Given(Lookup(headers, "x-forwarded-for")) ==> ',' !in r
    ensures Given(Lookup(headers, "x-forwarded-for")) && ',' !in Lookup(headers, "x-forwarded-for").value ==>
              r == Trim(Lookup(headers, "x-forwarded-for").value)
    ensures !Given(Lookup(headers, "x-forwarded-for")) ==> r == OrElse(Lookup(headers, "client-ip"), "unknown")
  {
    var forwarded := Lookup(headers, "x-forwarded-for");
    if Given(forwarded) && ',' !in forwarded.value then
      SplitNone(forwarded.value, ',');
      Trim(Split(forwarded.value, ',')[0])
    else if Given(forwarded) then Trim(Split(forwarded.value, ',')[0])
    else OrElse(Lookup(headers, "client-ip"), "unknown")
  }

  /** `getClientUA` */
  function GetClientUA(headers: Dict<string>): (r: string)
    ensures r != []
  {
    OrElse(Lookup(headers, "user-agent"), "unknown")
  }

  /** The record `scanPlugins` makes for one `.js` file. */
  function PluginOf(file: string, m: Metadata): (p: Plugin)
    ensures p.file == file && p.name == m.platform && p.version == m.version
    ensures p.isFree <==> IsFree(file)
  {
    Plugin(m.platform, file, m.version, m.author, IsFree(file))
  }

  predicate IsScript(file: string) {
    EndsWith(file, ".js")
  }

  function ScanEntry(meta: string -> Metadata): string -> Option<Plugin> {
    file => if IsScript(file) then Some(PluginOf(file, meta(file))) else None
  }

  /**
   * What `scanPlugins` returns for a directory listing (None when it cannot be read)
   * and the metadata each file declares.
   */
  function Scanned(listing: Option<seq<string>>, meta: string -> Metadata): seq<Plugin> {
    match listing
    case None => []
    case Some(files) => FilterMap(files, ScanEntry(meta))
  }

  /** `scanPlugins` */
  method ScanPlugins(listing: Option<seq<string>>, meta: string -> Metadata) returns (plugins: seq<Plugin>)
    ensures plugins == Scanned(listing, meta)
  {
    plugins := [];
    if listing.Some? {
      var files := listing.value;
      var i := 0;
      while i < |files|
        invariant 0 <= i <= |files|
        invariant plugins == FilterMap(files[..i], ScanEntry(meta))
      {
        assert files[..i + 1][..i] == files[..i];
        if IsScript(files[i]) {
          plugins := plugins + [PluginOf(files[i], meta(files[i]))];
        }
        i := i + 1;
      }
      assert files[..i] == files;
    }
  }

  /** The scan keeps exactly the `.js` files, in directory order, and marks the free ones. */
  lemma {:induction false} ScannedScripts(files: seq<string>, meta: string -> Metadata)
    ensures Scanned(Some(files), meta) == Map(Filter(files, IsScript), file => PluginOf(file, meta(file)))
  {
    FilterMapIsMapFilter(files, ScanEntry(meta), IsScript, file => PluginOf(file, meta(file)));
  }

  /** The download address and display name of a plugin the source serves. */
  function EntryFor(source: string, config: Source, key: Option<string>, baseUrl: string, p: Plugin): Entry {
    var url := baseUrl + "/plugins/" + p.file;
    if p.isFree then Entry(p.name, url, p.version)
    else
      var withSource := url + "?source=" + source;
      var full := if config.requiresKey && Given(key) then withSource + "&key=" + key.value else withSource;
      Entry(p.name + "[" + source + "]", full, p.version)
  }

  function Offer(source: string, config: Source, key: Option<string>, baseUrl: string): Plugin -> Option<Entry> {
    (p: Plugin) => if SourceSupportsPlugin(source, p.file) then Some(EntryFor(source, config, key, baseUrl, p)) else None
  }

  /** The list the handler answers with. */
  function Listed(source: string, config: Source, key: Option<string>, baseUrl: string, all: seq<Plugin>): seq<Entry> {
    FilterMap(all, Offer(source, config, key, baseUrl))
  }

  /** The filtering loop: skip what the source does not serve, push an entry for the rest. */
  method BuildList(source: string, config: Source, key: Option<string>, baseUrl: string, all: seq<Plugin>)
    returns (list: seq<Entry>)
    ensures list == Listed(source, config, key, baseUrl, all)
  {
    list := [];
    var i := 0;
    while i < |all|
      invariant 0 <= i <= |all|
      invariant list == FilterMap(all[..i], Offer(source, config, key, baseUrl))
    {
      assert all[..i + 1][..i] == all[..i];
      var p := all[i];
      if SourceSupportsPlugin(source, p.file) {
        var url := baseUrl + "/plugins/" + p.file;
        if !p.isFree {
          url := url + "?source=" + source;
          if config.requiresKey && Given(key) {
            url := url + "&key=" + key.value;
          }
        }
        var name := if p.isFree then p.name else p.name + "[" + source + "]";
        list := list + [Entry(name, url, p.version)];
      }
      i := i + 1;
    }
    assert all[..i] == all;
  }

  /** The handler's answer to an event, given the base address and the scanned plugins. */
  function Respond(e: Event, baseUrl: string, all: seq<Plugin>): (r: Response)
    ensures r.statusCode in {200, 400, 405}
    ensures r.body.Listing? ==> e.httpMethod == "GET" && Config(SourceOf(e.query)).Some? && r.statusCode == 200
  {
    if e.httpMethod == "OPTIONS" then Response(200, NoBody)
    else if e.httpMethod != "GET" then Response(405, Failure("Method Not Allowed"))
    else
      var source := SourceOf(e.query);
      match Config(source)
      case None => Response(400, Failure("Invalid source: " + source))
      case Some(c) =>
        var info := ClientInfo(GetClientIP(e.headers), GetClientUA(e.headers));
        Response(200, Listing(Listed(source, c, KeyOf(e.query), baseUrl, all), info))
  }

  /** `exports.handler` */
  method Handler(e: Event, envBase: Option<string>, envUrl: Option<string>,
                 listing: Option<seq<string>>, meta: string -> Metadata)
    returns (r: Response)
    ensures r == Respond(e, BaseUrl(envBase, envUrl), Scanned(listing, meta))
  {
    if e.httpMethod == "OPTIONS" {
      return Response(200, NoBody);
    }
    if e.httpMethod != "GET" {
      return Response(405, Failure("Method Not Allowed"));
    }
    var source := OrElse(Param(e.query, "source"), DefaultSource);
    if EndsWith(source, JsonSuffix) {
      source := source[..|source| - 5];
    }
    var config := Config(source);
    if config.None? {
      return Response(400, Failure("Invalid source: " + source));
    }
    var key := Param(e.query, "key");
    if Given(key) && EndsWith(key.value, JsonSuffix) {
      key := Some(key.value[..|key.value| - 5]);
    }
    var baseUrl := BaseUrl(envBase, envUrl);
    var all := ScanPlugins(listing, meta);
    var list := BuildList(source, config.value, key, baseUrl, all);
    var info := ClientInfo(GetClientIP(e.headers), GetClientUA(e.headers));
    r := Response(200, Listing(list, info));
  }

  /** Stripping undoes appending the suffix, and only one suffix comes off. */
  lemma {:induction false} StripJsonRoundTrip(s: string)
    ensures StripJson(s + JsonSuffix) == s
    ensures StripJson(s + JsonSuffix + JsonSuffix) == s + JsonSuffix
  {
    assert EndsWith(s + JsonSuffix, JsonSuffix);
    assert (s + JsonSuffix + JsonSuffix)[..|s| + 5] == s + JsonSuffix;
  }

  /** The status code names the outcome: preflight, wrong method, unknown source, or the listing. */
  lemma {:induction false} ResponseStatus(e: Event, baseUrl: string, all: seq<Plugin>)
    ensures var r := Respond(e, baseUrl, all);
      (r.statusCode == 200 && r.body == NoBody <==> e.httpMethod == "OPTIONS")
      && (r.statusCode == 405 <==> e.httpMethod != "OPTIONS" && e.httpMethod != "GET")
      && (r.statusCode == 400 <==> e.httpMethod == "GET" && Config(SourceOf(e.query)).None?)
      && (r.body.Listing? <==> e.httpMethod == "GET" && Config(SourceOf(e.query)).Some?)
  {
  }

  /** Without a source parameter the default source answers, and it is in the table. */
  lemma {:induction false} MissingSourceIsDefault(query: Option<Dict<string>>)
    requires !Given(Param(query, "source"))
    ensures SourceOf(query) == DefaultSource
    ensures Config(SourceOf(query)).Some?
  {
    assert !EndsWith(DefaultSource, JsonSuffix);
    DefaultSourceFacts();
  }

  /** "suyin.json" names the same source as "suyin", while ".json" alone names none. */
  lemma {:induction false} SourceSuffixIgnored(d: Dict<string>, s: string)
    requires Lookup(d, "source") == Some(s + JsonSuffix)
    ensures s != [] ==> SourceOf(Some(d)) == s
    ensures s == [] ==> Config(SourceOf(Some(d))).None?
  {
    StripJsonRoundTrip(s);
    if s == [] {
      ConfigCases([]);
    }
  }

  /** A key sent as "K.json" is used as "K". */
  lemma {:induction false} KeySuffixIgnored(d: Dict<string>, k: string)
    requires Lookup(d, "key") == Some(k + JsonSuffix)
    ensures KeyOf(Some(d)) == Some(k)
  {
    StripJsonRoundTrip(k);
  }

  /** The answer lists exactly the scanned plugins the source serves, in scan order. */
  lemma {:induction false} ListedExactlySupported(source: string, config: Source, key: Option<string>, baseUrl: string, all: seq<Plugin>)
    ensures Listed(source, config, key, baseUrl, all)
      == Map(Filter(all, (p: Plugin) => SourceSupportsPlugin(source, p.file)), (p: Plugin) => EntryFor(source, config, key, baseUrl, p))
  {
    FilterMapIsMapFilter(all, Offer(source, config, key, baseUrl),
      (p: Plugin) => SourceSupportsPlugin(source, p.file), (p: Plugin) => EntryFor(source, config, key, baseUrl, p));
  }

  /** A free plugin is listed under every source, with its plain name and an address without a query. */
  lemma {:induction false} FreeEntry(source: string, config: Source, key: Option<string>, baseUrl: string, p: Plugin)
    requires p.isFree && IsFree(p.file)
    requires '?' !in baseUrl && '?' !in p.file
    ensures Offer(source, config, key, baseUrl)(p) == Some(EntryFor(source, config, key, baseUrl, p))
    ensures EntryFor(source, config, key, baseUrl, p).name == p.name
    ensures Split(EntryFor(source, config, key, baseUrl, p).url, '?') == [baseUrl + "/plugins/" + p.file]
  {
    SplitNone(baseUrl + "/plugins/" + p.file, '?');
  }

  /** Every name in the table is a lower-case word. */
  predicate LowerWord(s: string) {
    forall j :: 0 <= j < |s| ==> 'a' <= s[j] <= 'z'
  }

  lemma {:induction false} TableNamesAreWords()
    ensures forall i :: 0 <= i < |Sources| ==> LowerWord(Sources[i].0)
  {
  }

  /** A table name contains neither separator of a query string. */
  lemma {:induction false} SourceNamesAreQuerySafe(source: string)
    requires Config(source).Some?
    ensures '?' !in source && '&' !in source
  {
    TableNamesAreWords();
    var i :| 0 <= i < |Sources| && Keys(Sources)[i] == source;
    assert LowerWord(Sources[i].0);
  }

  /** An address carrying the source and the key reads back into its three parts. */
  lemma {:induction false} UrlWithKey(path: string, source: string, k: string)
    requires '?' !in path && '?' !in source && '&' !in source && '?' !in k && '&' !in k
    ensures var q := "source=" + source + "&key=" + k;
      Split(path + "?source=" + source + "&key=" + k, '?') == [path, q]
      && Split(q, '&') == ["source=" + source, "key=" + k]
  {
    var first := "source=" + source;
    var second := "key=" + k;
    var q := first + "&" + second;
    assert q == "source=" + source + "&key=" + k;
    assert path + "?source=" + source + "&key=" + k == path + ['?'] + q;
    assert '?' !in q;
    SplitTwo(path, '?', q);
    assert q == first + ['&'] + second;
    SplitTwo(first, '&', second);
  }

  /** An address carrying only the source reads back into its two parts. */
  lemma {:induction false} UrlWithoutKey(path: string, source: string)
    requires '?' !in path && '?' !in source && '&' !in source
    ensures Split(path + "?source=" + source, '?') == [path, "source=" + source]
    ensures Split("source=" + source, '&') == ["source=" + source]
  {
    var first := "source=" + source;
    assert path + "?source=" + source == path + ['?'] + first;
    SplitTwo(path, '?', first);
    SplitNone(first, '&');
  }

  /**
   * The address of a source plugin, read back: the path, then the source, then the key
   * exactly when the source requires one and the user sent one.
   */
  lemma {:induction false} SourceEntryQuery(source: string, key: Option<string>, baseUrl: string, p: Plugin)
    requires Config(source).Some? && !p.isFree
    requires '?' !in baseUrl && '?' !in p.file
    requires key.Some? ==> '?' !in key.value && '&' !in key.value
    ensures var e := EntryFor(source, Config(source).value, key, baseUrl, p);
      e.name == p.name + "[" + source + "]"
      && |Split(e.url, '?')| == 2
      && Split(e.url, '?')[0] == baseUrl + "/plugins/" + p.file
      && Split(Split(e.url, '?')[1], '&') ==
        if Config(source).value.requiresKey && Given(key) then ["source=" + source, "key=" + key.value]
        else ["source=" + source]
  {
    SourceNamesAreQuerySafe(source);
    var path := baseUrl + "/plugins/" + p.file;
    if Config(source).value.requiresKey && Given(key) {
      UrlWithKey(path, source, key.value);
    } else {
      UrlWithoutKey(path, source);
    }
  }

  /** With several hops, the client address is the first hop of `x-forwarded-for`, trimmed. */
  lemma {:induction false} ClientIpFirstHop(headers: Dict<string>, first: string, rest: string)
    requires Lookup(headers, "x-forwarded-for") == Some(first + "," + rest)
    requires ',' !in first
    ensures GetClientIP(headers) == Trim(first)
  {
    assert first + "," + rest == first + [','] + rest;
    SplitCons(first, ',', rest);
  }
}
