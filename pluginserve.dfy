/**
 * The plugin-download endpoint: it serves one plugin file from the plugin directory
 * with every `YOUR_KEY` placeholder filled in with the caller's key. The plugin is
 * named by a query parameter or by the request path, and a name that could leave the
 * directory is refused before the file system is touched.
 */
module PluginServe {
  import opened Wrappers
  import opened JsString
  import opened JsObject

  /** `/YOUR_KEY/g` */
  const Placeholder: string := "YOUR_KEY"

  /**
   * `isValidPluginName`: a `.js` name with no "..", "/" or "\\" in it. Stated over the
   * characters: at least ".js" long, no separator anywhere and no two dots in a row.
   */
  function IsValidPluginName(name: string): (r: bool)
    ensures r <==> (|name| >= 3 && name[|name| - 3..] == ".js"
      && (forall i :: 0 <= i < |name| ==> name[i] != '/' && name[i] != '\\')
      && (forall i :: 0 <= i < |name| - 1 ==> !(name[i] == '.' && name[i + 1] == '.')))
  {
    ContainsChar(name, '/');
    ContainsChar(name, '\\');
    ContainsPair(name, '.', '.');
    name != [] && EndsWith(name, ".js") && !Contains(name, "..") && !Contains(name, "/") && !Contains(name, "\\")
  }

  /** What `[^/?]+` can consume at the start of `s`: the longest prefix without '/' or '?'. */
  function Run(s: string): (r: string)
    ensures |r| <= |s| && r == s[..|r|]
    ensures '/' !in r && '?' !in r
    ensures |r| < |s| ==> s[|r|] == '/' || s[|r|] == '?'
  {
    if s != [] && s[0] != '/' && s[0] != '?' then [s[0]] + Run(s[1..]) else []
  }

  /** The prefix `run[..e]` ends with ".js" and has at least one character before it. */
  predicate JsEndsAt(run: string, e: nat) {
    4 <= e <= |run| && run[e - 3] == '.' && run[e - 2] == 'j' && run[e - 1] == 's'
  }

  /**
   * Where `[^/?]+\.js` ends when matched greedily inside `run[..k]`: the last end of a
   * ".js" with a character before it, or 0 when there is none.
   */
  function LastJsEnd(run: string, k: nat): (e: nat)
    requires k <= |run|
    ensures e == 0 || (e <= k && JsEndsAt(run, e))
    ensures forall m :: e < m <= k ==> !JsEndsAt(run, m)
    decreases k
  {
    if k < 4 then 0 else if JsEndsAt(run, k) then k else LastJsEnd(run, k - 1)
  }

  /** The capture `[^/?]+\.js` takes from a run, if any. */
  function Capture(run: string): (r: Option<string>)
    ensures r.Some? ==> |r.value| >= 4 && |r.value| <= |run| && r.value == run[..|r.value|] && JsEndsAt(run, |r.value|)
  {
    var e := LastJsEnd(run, |run|);
    if e == 0 then None else Some(run[..e])
  }

  /** The regular expression `/\/plugins?\/([^/?]+\.js)/` tried at index `i` of the path. */
  function MatchAt(path: string, i: nat): (r: Option<string>)
    requires i <= |path|
  {
    var rest := path[i..];
    if StartsWith(rest, "/plugins/") then Capture(Run(rest[9..]))
    else if StartsWith(rest, "/plugin/") then Capture(Run(rest[8..]))
    else None
  }

  /** The first index from `i` on where the expression matches. Only one of the two prefixes can stand at an index. */
  function MatchFrom(path: string, i: nat): (r: Option<string>)
    requires i <= |path|
    ensures r.Some? ==> exists j :: i <= j <= |path| && MatchAt(path, j) == r
    decreases |path| - i
  {
    match MatchAt(path, i)
    case Some(n) => Some(n)
    case None => if i == |path| then None else MatchFrom(path, i + 1)
  }

  /** A prefix holds only characters of the whole. */
  lemma {:induction false} PrefixChars(n: string, run: string)
    requires |n| <= |run| && n == run[..|n|]
    ensures forall c :: c in n ==> c in run
  {
    forall c | c in n ensures c in run {
      var k :| 0 <= k < |n| && n[k] == c;
      assert run[k] == c;
    }
  }

  /** A prefix of `run` that ends at a ".js" end ends with ".js". */
  lemma {:induction false} JsSuffix(run: string, e: nat)
    requires JsEndsAt(run, e)
    ensures EndsWith(run[..e], ".js")
  {
    var n := run[..e];
    assert n[e - 3..] == [n[e - 3], n[e - 2], n[e - 1]];
  }

  /** `p` at `i` followed by a prefix `n` of what comes after it is an occurrence of `p + n`. */
  lemma {:induction false} OccursJoined(path: string, i: nat, p: string, n: string)
    requires i + |p| + |n| <= |path| && path[i..i + |p|] == p && n == path[i + |p|..][..|n|]
    ensures OccursAt(path, p + n, i)
  {
    assert path[i..i + |p| + |n|] == path[i..i + |p|] + path[i + |p|..][..|n|];
  }

  /** What the capture takes after a prefix `p` at index `i` is a one-segment ".js" name that follows `p` there. */
  lemma {:induction false} CaptureAfter(path: string, i: nat, p: string)
    requires i + |p| <= |path| && path[i..i + |p|] == p
    requires Capture(Run(path[i + |p|..])).Some?
    ensures var n := Capture(Run(path[i + |p|..])).value;
      |n| >= 4 && EndsWith(n, ".js") && '/' !in n && '?' !in n && OccursAt(path, p + n, i)
  {
    var after := path[i + |p|..];
    var run := Run(after);
    var n := Capture(run).value;
    PrefixChars(n, run);
    JsSuffix(run, |n|);
    assert n == after[..|n|] by {
      assert run == after[..|run|];
    }
    OccursJoined(path, i, p, n);
  }

  /** A name the path expression finds is a `.js` name of one path segment that follows "/plugin/" or "/plugins/". */
  lemma {:induction false} MatchAtShape(path: string, i: nat)
    requires i <= |path| && MatchAt(path, i).Some?
    ensures var n := MatchAt(path, i).value;
      |n| >= 4 && EndsWith(n, ".js") && '/' !in n && '?' !in n
      && (OccursAt(path, "/plugins/" + n, i) || OccursAt(path, "/plugin/" + n, i))
  {
    var rest := path[i..];
    if StartsWith(rest, "/plugins/") {
      assert path[i..i + 9] == rest[..9];
      assert rest[9..] == path[i + 9..];
      CaptureAfter(path, i, "/plugins/");
    } else {
      assert path[i..i + 8] == rest[..8];
      assert rest[8..] == path[i + 8..];
      CaptureAfter(path, i, "/plugin/");
    }
  }

  /** `match[1]` of the path expression, if it matches. */
  function ExtractPluginName(path: string): (r: Option<string>)
    ensures r.Some? ==> |r.value| >= 4 && EndsWith(r.value, ".js") && '/' !in r.value && '?' !in r.value
    ensures r.Some? ==> Contains(path, "/plugins/" + r.value) || Contains(path, "/plugin/" + r.value)
  {
    var r := MatchFrom(path, 0);
    if r.Some? then
      var j :| 0 <= j <= |path| && MatchAt(path, j) == r;
      MatchAtShape(path, j);
      ContainsOccurs(path, "/plugins/" + r.value);
      ContainsOccurs(path, "/plugin/" + r.value);
      r
    else r
  }

  /** A path of the form `/plugins/<name>` (optionally followed by `/...` or `?...`) yields that name. */
  lemma {:induction false} ExtractFromPluginsPath(name: string, tail: string)
    requires |name| >= 4 && EndsWith(name, ".js") && '/' !in name && '?' !in name
    requires tail == [] || tail[0] == '/' || tail[0] == '?'
    ensures ExtractPluginName("/plugins/" + name + tail) == Some(name)
  {
    var path := "/plugins/" + name + tail;
    assert StartsWith(path[0..], "/plugins/");
    var after := path[0..][9..];
    assert after == name + tail;
    RunOfSegment(name, tail);
    CaptureWhole(name);
  }

  /** The same through the singular "/plugin/" prefix. */
  lemma {:induction false} ExtractFromPluginPath(name: string, tail: string)
    requires |name| >= 4 && EndsWith(name, ".js") && '/' !in name && '?' !in name
    requires tail == [] || tail[0] == '/' || tail[0] == '?'
    ensures ExtractPluginName("/plugin/" + name + tail) == Some(name)
  {
    var path := "/plugin/" + name + tail;
    assert !StartsWith(path[0..], "/plugins/") by {
      assert path[7] == '/';
    }
    assert StartsWith(path[0..], "/plugin/");
    assert path[0..][8..] == name + tail;
    RunOfSegment(name, tail);
    CaptureWhole(name);
  }

  /** A name ending in ".js" is captured whole. */
  lemma {:induction false} CaptureWhole(name: string)
    requires |name| >= 4 && EndsWith(name, ".js")
    ensures Capture(name) == Some(name)
  {
    assert name[|name| - 3..] == ".js";
    assert JsEndsAt(name, |name|);
    assert name[..|name|] == name;
  }

  /** The run of a segment followed by a separator or the end is the segment. */
  lemma {:induction false} RunOfSegment(name: string, tail: string)
    requires '/' !in name && '?' !in name
    requires tail == [] || tail[0] == '/' || tail[0] == '?'
    ensures Run(name + tail) == name
    decreases |name|
  {
    if name != [] {
      assert (name + tail)[1..] == name[1..] + tail;
      RunOfSegment(name[1..], tail);
    } else {
      assert name + tail == tail;
    }
  }

  /** A name the expression finds stops at the last ".js" of its segment, even when more follows. */
  lemma {:induction false} ExtractStopsAtLastJs(name: string, c: char)
    requires |name| >= 4 && EndsWith(name, ".js") && '/' !in name && '?' !in name
    requires c != '/' && c != '?'
    ensures ExtractPluginName("/plugins/" + name + [c]) == Some(name)
  {
    var path := "/plugins/" + name + [c];
    var run := name + [c];
    assert StartsWith(path[0..], "/plugins/");
    assert path[0..][9..] == run + [];
    RunOfSegment(run, []);
    assert run[|name| - 2] == 'j';
    assert !JsEndsAt(run, |run|);
    assert name[|name| - 3..] == ".js";
    assert JsEndsAt(run, |name|);
    assert LastJsEnd(run, |run|) == |name|;
    assert run[..|name|] == name;
  }

  // ---------------------------------------------------------------------------
  // Filling in the key
  // ---------------------------------------------------------------------------

  /**
   * The text between the placeholders, scanning from `from`: what
   * `s.slice(from).split('YOUR_KEY')` returns.
   */
  function PiecesFrom(s: string, from: nat): (ps: seq<string>)
    requires from <= |s|
    ensures |ps| >= 1
    decreases |s| - from
  {
    var i := IndexOfFrom(s, Placeholder, from);
    if i == -1 then [s[from..]] else [s[from..i]] + PiecesFrom(s, i + |Placeholder|)
  }

  /** `s.split('YOUR_KEY')` */
  function Pieces(s: string): seq<string> {
    PiecesFrom(s, 0)
  }

  /**
   * The key substitution with the key taken literally: `s.split('YOUR_KEY').join(key)`.
   * This is the behaviour the handler below uses (see ReplaceAsWritten for the call in the source).
   */
  function FillKey(s: string, key: string): string {
    Join(Pieces(s), key)
  }

  /** An occurrence inside a slice is an occurrence in the whole string, within the slice. */
  lemma {:induction false} OccursInSlice(s: string, a: nat, b: nat, sub: string, j: nat)
    requires a <= b <= |s| && OccursAt(s[a..b], sub, j)
    ensures OccursAt(s, sub, a + j) && a + j + |sub| <= b
  {
    var t := s[a..b];
    assert j + |sub| <= |t| == b - a;
    assert forall m :: j <= m < j + |sub| ==> t[m] == s[a + m];
    assert t[j..j + |sub|] == s[a + j..a + j + |sub|];
  }

  /** An occurrence at `i` splits the text after `from` around it. */
  lemma {:induction false} AroundOccurrence(s: string, from: nat, i: nat)
    requires from <= i && OccursAt(s, Placeholder, i)
    ensures s[from..] == s[from..i] + Placeholder + s[i + |Placeholder|..]
  {
    assert s[from..] == s[from..i] + s[i..i + |Placeholder|] + s[i + |Placeholder|..];
  }

  /** Joining the pieces back with the placeholder restores the text: the split loses nothing. */
  lemma {:induction false} PiecesRejoin(s: string, from: nat)
    requires from <= |s|
    ensures Join(PiecesFrom(s, from), Placeholder) == s[from..]
    decreases |s| - from
  {
    var i := IndexOfFrom(s, Placeholder, from);
    if i != -1 {
      var rest := PiecesFrom(s, i + |Placeholder|);
      calc {
        Join(PiecesFrom(s, from), Placeholder);
        Join([s[from..i]] + rest, Placeholder);
        { JoinCons(s[from..i], rest, Placeholder); }
        s[from..i] + Placeholder + Join(rest, Placeholder);
        { PiecesRejoin(s, i + |Placeholder|); }
        s[from..i] + Placeholder + s[i + |Placeholder|..];
        { AroundOccurrence(s, from, i); }
        s[from..];
      }
    }
  }

  /** No piece contains the placeholder: the split finds every occurrence. */
  lemma {:induction false} PiecesClean(s: string, from: nat)
    requires from <= |s|
    ensures forall k :: 0 <= k < |PiecesFrom(s, from)| ==> !Contains(PiecesFrom(s, from)[k], Placeholder)
    decreases |s| - from
  {
    var i := IndexOfFrom(s, Placeholder, from);
    var ps := PiecesFrom(s, from);
    var end := if i == -1 then |s| else i;
    var head := s[from..end];
    assert ps[0] == head;
    ContainsOccurs(head, Placeholder);
    if exists j: nat :: OccursAt(head, Placeholder, j) {
      var j: nat :| OccursAt(head, Placeholder, j);
      OccursInSlice(s, from, end, Placeholder, j);
      assert false;
    }
    if i != -1 {
      PiecesClean(s, i + |Placeholder|);
      assert ps[1..] == PiecesFrom(s, i + |Placeholder|);
    }
  }

  /** The literal substitution changes the text only where the placeholder stood. */
  lemma {:induction false} FillKeyReplacesOnlyPlaceholders(s: string, key: string)
    ensures FillKey(s, key) == Join(Pieces(s), key)
    ensures Join(Pieces(s), Placeholder) == s
    ensures forall k :: 0 <= k < |Pieces(s)| ==> !Contains(Pieces(s)[k], Placeholder)
    ensures FillKey(s, Placeholder) == s
  {
    PiecesRejoin(s, 0);
    PiecesClean(s, 0);
  }

  /** Text without the placeholder is served unchanged. */
  lemma {:induction false} FillKeyNoPlaceholder(s: string, key: string)
    requires !Contains(s, Placeholder)
    ensures FillKey(s, key) == s
  {
  }

  /**
   * The replacement string as `String.prototype.replace` reads it for a match of the
   * placeholder at `p` (no capture groups): `$$` is "$", `$&` the match, `` $` `` the
   * text before it, `$'` the text after it; any other "$" stands for itself.
   */
  function Expand(rep: string, s: string, p: nat): (r: string)
    requires p + |Placeholder| <= |s|
    decreases |rep|
  {
    if rep == [] then []
    else if rep[0] == '$' && |rep| >= 2 && rep[1] == '$' then "$" + Expand(rep[2..], s, p)
    else if rep[0] == '$' && |rep| >= 2 && rep[1] == '&' then Placeholder + Expand(rep[2..], s, p)
    else if rep[0] == '$' && |rep| >= 2 && rep[1] == '`' then s[..p] + Expand(rep[2..], s, p)
    else if rep[0] == '$' && |rep| >= 2 && rep[1] == '\'' then s[p + |Placeholder|..] + Expand(rep[2..], s, p)
    else [rep[0]] + Expand(rep[1..], s, p)
  }

  /** `s.slice(from).replace(/YOUR_KEY/g, rep)`, with the positions `$` patterns refer to taken in all of `s`. */
  function GlobalReplaceFrom(s: string, from: nat, rep: string): string
    requires from <= |s|
    decreases |s| - from
  {
    var i := IndexOfFrom(s, Placeholder, from);
    if i == -1 then s[from..] else s[from..i] + Expand(rep, s, i) + GlobalReplaceFrom(s, i + |Placeholder|, rep)
  }

  /** `pluginContent.replace(/YOUR_KEY/g, key)`, as the source calls it. */
  function ReplaceAsWritten(s: string, key: string): string {
    GlobalReplaceFrom(s, 0, key)
  }

  /** A replacement without "$" is used literally. */
  lemma {:induction false} ExpandPlain(rep: string, s: string, p: nat)
    requires p + |Placeholder| <= |s| && '$' !in rep
    ensures Expand(rep, s, p) == rep
    decreases |rep|
  {
    if rep != [] {
      assert '$' !in rep[1..];
      ExpandPlain(rep[1..], s, p);
    }
  }

  /** For a key without "$" the call in the source and the literal substitution agree. */
  lemma {:induction false} AsWrittenAgreesWithoutDollar(s: string, from: nat, key: string)
    requires from <= |s| && '$' !in key
    ensures GlobalReplaceFrom(s, from, key) == Join(PiecesFrom(s, from), key)
    decreases |s| - from
  {
    var i := IndexOfFrom(s, Placeholder, from);
    if i != -1 {
      ExpandPlain(key, s, i);
      AsWrittenAgreesWithoutDollar(s, i + |Placeholder|, key);
      JoinCons(s[from..i], PiecesFrom(s, i + |Placeholder|), key);
    }
  }

  /** A key spelled "$&" is served as the placeholder itself, not as the key. */
  lemma {:induction false} DollarKeyIsExpanded()
    ensures ReplaceAsWritten(Placeholder, "$&") == Placeholder
    ensures FillKey(Placeholder, "$&") == "$&"
  {
    var s := Placeholder;
    assert OccursAt(s, Placeholder, 0);
    assert IndexOfFrom(s, Placeholder, 0) == 0;
    assert IndexOfFrom(s, Placeholder, 8) == -1;
    assert Expand("$&", s, 0) == Placeholder + Expand([], s, 0);
    assert Pieces(s) == [[]] + PiecesFrom(s, 8);
    assert s[8..] == [];
    assert PiecesFrom(s, 8) == [[]];
  }

  // ---------------------------------------------------------------------------
  // The handler
  // ---------------------------------------------------------------------------

  /** The parts of the request the handler reads. */
  datatype Event = Event(httpMethod: string, query: Option<Dict<string>>, path: Option<string>, rawUrl: Option<string>)

  /** The headers that vary between answers; all of them also carry the CORS headers. */
  datatype Headers = Headers(contentType: Option<string>, disposition: Option<string>, cacheControl: Option<string>)

  datatype Body = NoBody | Failure(error: string) | Script(text: string)

  datatype Response = Response(statusCode: int, headers: Headers, body: Body)

  /** The answer, and the plugin file the handler looked for, if it got that far. */
  datatype Outcome = Outcome(file: Option<string>, response: Response)

  const CorsOnly: Headers := Headers(None, None, None)
  const JsonHeaders: Headers := Headers(Some("application/json"), None, None)

  function ScriptHeaders(name: string): Headers {
    Headers(Some("application/javascript; charset=utf-8"), Some("inline; filename=" + name), Some("no-cache"))
  }

  predicate Given(v: Option<string>) {
    v.Some? && v.value != []
  }

  function Param(query: Option<Dict<string>>, name: string): Option<string> {
    match query
    case None => None
    case Some(d) => Lookup(d, name)
  }

  /** The plugin name: the `plugin` parameter if given, else what the path expression finds in `path || rawUrl || ''`. */
  function PluginName(e: Event): (r: Option<string>)
    ensures Given(Param(e.query, "plugin")) ==> r == Param(e.query, "plugin")
  {
    var q := Param(e.query, "plugin");
    if Given(q) then q
    else
      var path := if Given(e.path) then e.path.value else if Given(e.rawUrl) then e.rawUrl.value else "";
      ExtractPluginName(path)
  }

  /** `exports.handler`, with `files` standing for the plugin directory (None: no such file). */
  function Serve(e: Event, files: string -> Option<string>): (o: Outcome)
    ensures o.response.statusCode in {200, 400, 404, 405}
    ensures o.file.Some? ==> e.httpMethod == "GET" && IsValidPluginName(o.file.value)
    ensures o.response.body.Script? ==> o.file.Some? && files(o.file.value).Some? && o.response.statusCode == 200
  {
    if e.httpMethod == "OPTIONS" then Outcome(None, Response(200, CorsOnly, NoBody))
    else if e.httpMethod != "GET" then Outcome(None, Response(405, CorsOnly, Failure("Method Not Allowed")))
    else
      var key := Param(e.query, "key");
      if !Given(key) then Outcome(None, Response(400, JsonHeaders, Failure("Missing 'key' parameter")))
      else
        var name := PluginName(e);
        if name.None? then Outcome(None, Response(400, JsonHeaders, Failure("Missing plugin name")))
        else if !IsValidPluginName(name.value) then Outcome(None, Response(400, JsonHeaders, Failure("Invalid plugin name")))
        else
          match files(name.value)
          case None => Outcome(name, Response(404, JsonHeaders, Failure("Plugin '" + name.value + "' not found")))
          case Some(content) => Outcome(name, Response(200, ScriptHeaders(name.value), Script(FillKey(content, key.value))))
  }

  /** The file system is consulted only for a valid name on a GET request carrying a key. */
  lemma {:induction false} FileOpenedOnlyWhenValid(e: Event, files: string -> Option<string>)
    ensures var o := Serve(e, files);
      o.file.Some? <==> (e.httpMethod == "GET" && Given(Param(e.query, "key"))
        && PluginName(e).Some? && IsValidPluginName(PluginName(e).value))
    ensures Serve(e, files).file.Some? ==> Serve(e, files).file == PluginName(e)
  {
  }

  /** Until a file is opened, the answer does not depend on the plugin directory at all. */
  lemma {:induction false} AnswerBeforeFileAccess(e: Event, files: string -> Option<string>, other: string -> Option<string>)
    requires Serve(e, files).file.None?
    ensures Serve(e, other) == Serve(e, files)
  {
  }

  /** The key is checked first: without it the answer is 400 whatever the name. */
  lemma {:induction false} MissingKeyFirst(e: Event, files: string -> Option<string>)
    requires e.httpMethod == "GET" && !Given(Param(e.query, "key"))
    ensures Serve(e, files) == Outcome(None, Response(400, JsonHeaders, Failure("Missing 'key' parameter")))
  {
  }

  /** A plugin name holding `..`, `/` or a backslash is refused with 400, before any file is looked up. */
  lemma {:induction false} TraversalRefused(e: Event, files: string -> Option<string>, n: string)
    requires e.httpMethod == "GET" && Given(Param(e.query, "key"))
    requires Param(e.query, "plugin") == Some(n) && n != []
    requires Contains(n, "..") || '/' in n || '\\' in n
    ensures Serve(e, files).response.statusCode == 400 && Serve(e, files).file.None?
  {
    assert PluginName(e) == Some(n);
    assert !IsValidPluginName(n);
  }

  /** The status codes, one per outcome. */
  lemma {:induction false} ServeStatus(e: Event, files: string -> Option<string>)
    ensures var r := Serve(e, files).response;
      (r.statusCode == 405 <==> e.httpMethod != "OPTIONS" && e.httpMethod != "GET")
      && (r.statusCode == 404 <==> Serve(e, files).file.Some? && files(Serve(e, files).file.value).None?)
      && (r.body.Script? <==> Serve(e, files).file.Some? && files(Serve(e, files).file.value).Some?)
  {
  }

  /** A served plugin is its file with the caller's key filled in, sent as uncached JavaScript. */
  lemma {:induction false} ServedScript(e: Event, files: string -> Option<string>)
    requires Serve(e, files).response.body.Script?
    ensures var o := Serve(e, files);
      o.response.statusCode == 200
      && o.response.headers.contentType == Some("application/javascript; charset=utf-8")
      && o.response.headers.cacheControl == Some("no-cache")
      && o.response.body.text == FillKey(files(o.file.value).value, Param(e.query, "key").value)
  {
  }

  /** Without a `plugin` parameter the path `/plugins/<name>` names the plugin. */
  lemma {:induction false} NameFromPath(e: Event, name: string)
    requires !Given(Param(e.query, "plugin")) && e.path == Some("/plugins/" + name)
    requires |name| >= 4 && EndsWith(name, ".js") && '/' !in name && '?' !in name
    ensures PluginName(e) == Some(name)
  {
    assert "/plugins/" + name == "/plugins/" + name + [];
    ExtractFromPluginsPath(name, []);
  }
}
