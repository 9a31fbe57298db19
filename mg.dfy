/**
 * The Migu plugin (plugins/mg.js): cover URLs, singer names, the quality tables read
 * from Migu's format lists, MRC lyric decryption and conversion to LRC, the decision
 * `getMediaSource` takes before and after its one request, and the playlist page loop.
 */
module Mg {
  import opened Wrappers
  import opened JsString
  import opened JsObject
  import opened Quality
  import opened Vendor

  // ---------------------------------------------------------------- cover URLs

  /** `/^https?:/` */
  predicate IsHttpUrl(s: string) {
    StartsWith(s, "http:") || StartsWith(s, "https:")
  }

  const ImageHost: string := "http://d.musicapp.migu.cn"

  /**
   * `formatImgUrl`: nothing for an absent image; an http(s) URL unchanged; a
   * protocol-relative URL gets `http:`; a bare path gets Migu's image host.
   */
  function FormatImgUrl(img: string): (r: Option<string>)
    ensures r.None? <==> img == []
    ensures r.Some? ==> IsHttpUrl(r.value) && EndsWith(r.value, img)
    ensures IsHttpUrl(img) ==> r == Some(img)
    ensures !IsHttpUrl(img) && StartsWith(img, "//") ==> r == Some("http:" + img)
    ensures img != [] && !IsHttpUrl(img) && !StartsWith(img, "//") ==> r == Some(ImageHost + img)
  {
    if img == [] then None
    else if IsHttpUrl(img) then Some(img)
    else if StartsWith(img, "//") then
      assert ("http:" + img)[..5] == "http:" && ("http:" + img)[5..] == img;
      Some("http:" + img)
    else
      assert (ImageHost + img)[..5] == "http:" && (ImageHost + img)[|ImageHost|..] == img;
      Some(ImageHost + img)
  }

  /** Formatting an already formatted URL changes nothing. */
  lemma {:induction false} FormatImgUrlIdempotent(img: string)
    requires img != []
    ensures FormatImgUrl(FormatImgUrl(img).value) == FormatImgUrl(img)
  {
  }

  // ---------------------------------------------------------------- singer names

  /** An element of `singerList`; an absent name is the empty string. */
  datatype Singer = Singer(name: string, singerName: string)

  /** `singer.name || singer.singerName || ''` */
  function SingerLabel(s: Singer): string {
    if s.name != [] then s.name else s.singerName
  }

  /** The singers' labels with the empty ones filtered out, in list order. */
  function Labels(list: seq<Singer>): (r: seq<string>)
    ensures |r| <= |list|
    ensures forall i :: 0 <= i < |r| ==> r[i] != []
    ensures |r| == 0 <==> forall i :: 0 <= i < |list| ==> SingerLabel(list[i]) == []
    ensures (forall i :: 0 <= i < |list| ==> SingerLabel(list[i]) != []) ==>
              |r| == |list| && forall i :: 0 <= i < |list| ==> r[i] == SingerLabel(list[i])
  {
    if list == [] then []
    else
      var rest := Labels(list[1..]);
      if SingerLabel(list[0]) == [] then rest else [SingerLabel(list[0])] + rest
  }

  /** `formatSingerName`: the non-empty labels joined with ", "; empty when there is no list. */
  function FormatSingerName(list: Option<seq<Singer>>): (r: string)
    ensures r == [] <==> list.None? || forall i :: 0 <= i < |list.value| ==> SingerLabel(list.value[i]) == []
  {
    match list
    case None => []
    case Some(l) =>
      JoinEmpty(Labels(l), ", ");
      Join(Labels(l), ", ")
  }

  // ---------------------------------------------------------------- quality tables

  /**
   * An element of `audioFormats` (or `newRateFormats`): the vendor format type, the
   * three size fields in the order the plugin tries them, and the optional bitrate.
   */
  datatype AudioFormat = AudioFormat(formatType: string, size1: Val, size2: Val, size3: Val, bitRate: Val)

  /**
   * The tag and default bitrate of a Migu format type. `ZQ` is recognised only where
   * `acceptZq` holds (the playlist reader); every other type is ignored.
   */
  function FormatTier(formatType: string, acceptZq: bool): (r: Option<(string, int)>)
    ensures r.Some? ==> r.value.0 in {T128, T320, TFlac, THires}
  {
    if formatType == "PQ" then Some((T128, 128000))
    else if formatType == "HQ" then Some((T320, 320000))
    else if formatType == "SQ" then Some((TFlac, 1411000))
    else if formatType == "ZQ24" || (acceptZq && formatType == "ZQ") then Some((THires, 2304000))
    else None
  }

  /** `{size: sizeFormate(size1 || size2 || size3), bitrate: bitRate || default}` */
  function FormatDescriptor(f: AudioFormat, defaultRate: int): Descriptor {
    Sized(Formatted(Or(Or(f.size1, f.size2), f.size3)), Or(f.bitRate, Num(defaultRate)))
  }

  /** What one format contributes to the table. */
  function FormatEntry(f: AudioFormat, acceptZq: bool): Entry {
    match FormatTier(f.formatType, acceptZq)
    case None => None
    case Some(t) => Some((t.0, FormatDescriptor(f, t.1)))
  }

  function FormatEntries(fs: seq<AudioFormat>, acceptZq: bool): (es: seq<Entry>)
    ensures |es| == |fs| && forall i :: 0 <= i < |fs| ==> es[i] == FormatEntry(fs[i], acceptZq)
  {
    seq(|fs|, i requires 0 <= i < |fs| => FormatEntry(fs[i], acceptZq))
  }

  /** The forEach/switch over a format list. */
  method ParseFormats(fs: seq<AudioFormat>, acceptZq: bool) returns (q: Qualities)
    ensures q == Table(FormatEntries(fs, acceptZq))
  {
    ghost var es := FormatEntries(fs, acceptZq);
    q := [];
    var i := 0;
    while i < |fs|
      invariant 0 <= i <= |fs|
      invariant q == Table(es[..i])
    {
      assert es[..i + 1][..i] == es[..i];
      var tier := FormatTier(fs[i].formatType, acceptZq);
      if tier.Some? {
        var size := Or(Or(fs[i].size1, fs[i].size2), fs[i].size3);
        q := Put(q, tier.value.0, Sized(Formatted(size), Or(fs[i].bitRate, Num(tier.value.1))));
      }
      i := i + 1;
    }
    assert es[..|fs|] == es;
  }

  /** The format is of the tier that fills `tag`. */
  predicate OfTier(f: AudioFormat, acceptZq: bool, tag: string) {
    FormatTier(f.formatType, acceptZq).Some? && FormatTier(f.formatType, acceptZq).value.0 == tag
  }

  /**
   * A format table holds a tag exactly when some format of that tier is listed, and never
   * a tag outside 128k/320k/flac/hires.
   */
  lemma {:induction false} FormatTableHas(fs: seq<AudioFormat>, acceptZq: bool, tag: string)
    ensures Has(Table(FormatEntries(fs, acceptZq)), tag) <==> exists i :: 0 <= i < |fs| && OfTier(fs[i], acceptZq, tag)
    ensures Has(Table(FormatEntries(fs, acceptZq)), tag) ==> tag in {T128, T320, TFlac, THires}
  {
    var es := FormatEntries(fs, acceptZq);
    TableHas(es, tag);
    assert forall i :: 0 <= i < |fs| ==> (Fills(es[i], tag) <==> OfTier(fs[i], acceptZq, tag));
  }

  /** The tag holds the descriptor built from the last format of its tier: later formats win. */
  lemma {:induction false} FormatTableLast(fs: seq<AudioFormat>, acceptZq: bool, tag: string, i: nat)
    requires i < |fs| && OfTier(fs[i], acceptZq, tag)
    requires forall j :: i < j < |fs| ==> !OfTier(fs[j], acceptZq, tag)
    ensures Lookup(Table(FormatEntries(fs, acceptZq)), tag) ==
            Some(FormatDescriptor(fs[i], FormatTier(fs[i].formatType, acceptZq).value.1))
  {
    var es := FormatEntries(fs, acceptZq);
    assert forall j :: 0 <= j < |fs| ==> (Fills(es[j], tag) <==> OfTier(fs[j], acceptZq, tag));
    TableLast(es, tag, i);
  }

  /** The fields of a song record `getMiGuQualitiesFromSong` reads. */
  datatype SongRecord = SongRecord(
    audioFormats: Option<seq<AudioFormat>>,
    mp3: Val, listenUrl: Val, lisQq: Val, lisCr: Val, hqUrl: Val, sqUrl: Val)

  /** `musicCanPlayFilter` */
  predicate CanPlay(s: SongRecord) {
    Truthy(s.mp3) || Truthy(s.listenUrl) || Truthy(s.lisQq) || Truthy(s.lisCr)
  }

  /** `{size: 'N/A', bitrate}` */
  function Unsized(bitrate: int): Descriptor {
    Sized(Str("N/A"), Num(bitrate))
  }

  /**
   * The table the URL fields give when the format list gives nothing: exactly these keys,
   * in this order. The closing "playable but empty" fallback can never fire, since a
   * playable song already has 128k.
   */
  function UrlQualities(s: SongRecord): (q: Qualities)
    ensures Keys(q) == OptKey(CanPlay(s), T128) + OptKey(Truthy(s.lisQq) || Truthy(s.hqUrl), T320) +
                       OptKey(Truthy(s.lisCr) || Truthy(s.sqUrl), TFlac)
  {
    var a := Truthy(s.mp3) || Truthy(s.listenUrl) || CanPlay(s);
    var b := Truthy(s.lisQq) || Truthy(s.hqUrl);
    var c := Truthy(s.lisCr) || Truthy(s.sqUrl);
    KeysOpt3(a, T128, Unsized(128000), b, T320, Unsized(320000), c, TFlac, Unsized(1411000));
    var q := Opt(a, T128, Unsized(128000)) + Opt(b, T320, Unsized(320000)) + Opt(c, TFlac, Unsized(1411000));
    if |q| == 0 && CanPlay(s) then Put(q, T128, Unsized(128000)) else q
  }

  /**
   * `getMiGuQualitiesFromSong`: a non-empty table from the format list is returned as it
   * is, without looking at the URL fields; otherwise the URL fields decide.
   */
  method GetMiGuQualitiesFromSong(s: SongRecord) returns (q: Qualities)
    ensures s.audioFormats.Some? && |Table(FormatEntries(s.audioFormats.value, false))| > 0 ==>
              q == Table(FormatEntries(s.audioFormats.value, false))
    ensures !(s.audioFormats.Some? && |Table(FormatEntries(s.audioFormats.value, false))| > 0) ==>
              q == UrlQualities(s)
  {
    if s.audioFormats.Some? {
      var fromFormats := ParseFormats(s.audioFormats.value, false);
      if |fromFormats| > 0 {
        return fromFormats;
      }
    }
    q := UrlQualities(s);
  }

  /** The fields of a version-3 search hit that decide its qualities. */
  datatype SearchHit = SearchHit(audioFormats: Option<seq<AudioFormat>>, mp3: Val, listenUrl: Val, lisQq: Val, lisCr: Val)

  /** The search hit's table when its format list gives nothing: these keys in this order, else 128k alone. */
  function SearchUrlQualities(h: SearchHit): (q: Qualities)
    ensures |q| > 0
    ensures var ks := OptKey(Truthy(h.mp3) || Truthy(h.listenUrl), T128) + OptKey(Truthy(h.lisQq), T320) + OptKey(Truthy(h.lisCr), TFlac);
            Keys(q) == if ks == [] then [T128] else ks
  {
    var a := Truthy(h.mp3) || Truthy(h.listenUrl);
    KeysOpt3(a, T128, Unsized(128000), Truthy(h.lisQq), T320, Unsized(320000), Truthy(h.lisCr), TFlac, Unsized(1411000));
    var q := Opt(a, T128, Unsized(128000)) + Opt(Truthy(h.lisQq), T320, Unsized(320000)) + Opt(Truthy(h.lisCr), TFlac, Unsized(1411000));
    if |q| == 0 then [(T128, Unsized(128000))] else q
  }

  /** The qualities of a version-3 search hit: the format table if it is non-empty, and never empty. */
  method SearchHitQualities(h: SearchHit) returns (q: Qualities)
    ensures |q| > 0
    ensures h.audioFormats.Some? && |Table(FormatEntries(h.audioFormats.value, false))| > 0 ==>
              q == Table(FormatEntries(h.audioFormats.value, false))
    ensures !(h.audioFormats.Some? && |Table(FormatEntries(h.audioFormats.value, false))| > 0) ==>
              q == SearchUrlQualities(h)
  {
    q := [];
    if h.audioFormats.Some? {
      q := ParseFormats(h.audioFormats.value, false);
    }
    if |q| == 0 {
      q := SearchUrlQualities(h);
    }
  }

  /** The qualities of a hit of the older search answer: the URL fields' keys in order, else 128k alone. */
  function LegacySearchQualities(s: SongRecord): (q: Qualities)
    ensures |q| > 0
    ensures var ks := OptKey(CanPlay(s), T128) + OptKey(Truthy(s.lisQq) || Truthy(s.hqUrl), T320) +
                      OptKey(Truthy(s.lisCr) || Truthy(s.sqUrl), TFlac);
            Keys(q) == if ks == [] then [T128] else ks
  {
    var a := Truthy(s.mp3) || Truthy(s.listenUrl) || CanPlay(s);
    var b := Truthy(s.lisQq) || Truthy(s.hqUrl);
    var c := Truthy(s.lisCr) || Truthy(s.sqUrl);
    KeysOpt3(a, T128, Unsized(128000), b, T320, Unsized(320000), c, TFlac, Unsized(1411000));
    var q := Opt(a, T128, Unsized(128000)) + Opt(b, T320, Unsized(320000)) + Opt(c, TFlac, Unsized(1411000));
    if |q| == 0 then [(T128, Unsized(128000))] else q
  }

  /** The tag a name of the `|`-separated `rateFormats` text stands for. */
  function RateNameEntry(name: string): (e: Entry)
    ensures e.Some? ==> e.value.0 in {T128, T320, TFlac, THires}
  {
    if name == "PQ" then Some((T128, Unsized(128000)))
    else if name == "HQ" then Some((T320, Unsized(320000)))
    else if name == "SQ" then Some((TFlac, Unsized(1411000)))
    else if name == "ZQ" || name == "ZQ24" then Some((THires, Unsized(2304000)))
    else None
  }

  function RateNameEntries(names: seq<string>): (es: seq<Entry>)
    ensures |es| == |names| && forall i :: 0 <= i < |names| ==> es[i] == RateNameEntry(names[i])
  {
    seq(|names|, i requires 0 <= i < |names| => RateNameEntry(names[i]))
  }

  /** The forEach/switch over the names of `rateFormats`. */
  method ParseRateNames(names: seq<string>) returns (q: Qualities)
    ensures q == Table(RateNameEntries(names))
  {
    ghost var es := RateNameEntries(names);
    q := [];
    var i := 0;
    while i < |names|
      invariant 0 <= i <= |names|
      invariant q == Table(es[..i])
    {
      assert es[..i + 1][..i] == es[..i];
      var e := RateNameEntry(names[i]);
      if e.Some? {
        q := Put(q, e.value.0, e.value.1);
      }
      i := i + 1;
    }
    assert es[..|names|] == es;
  }

  /** The fields of a playlist track that decide its qualities; an absent `rateFormats` is empty. */
  datatype SheetTrack = SheetTrack(newRateFormats: Option<seq<AudioFormat>>, rateFormats: string)

  /**
   * The qualities of a playlist track: the `newRateFormats` table if non-empty, else the
   * `rateFormats` names if they give any, else 128k alone. Never empty.
   */
  method SheetTrackQualities(t: SheetTrack) returns (q: Qualities)
    ensures |q| > 0
    ensures t.newRateFormats.Some? && |Table(FormatEntries(t.newRateFormats.value, true))| > 0 ==>
              q == Table(FormatEntries(t.newRateFormats.value, true))
    ensures !(t.newRateFormats.Some? && |Table(FormatEntries(t.newRateFormats.value, true))| > 0) &&
            t.rateFormats != [] && |Table(RateNameEntries(Split(t.rateFormats, '|')))| > 0 ==>
              q == Table(RateNameEntries(Split(t.rateFormats, '|')))
    ensures !(t.newRateFormats.Some? && |Table(FormatEntries(t.newRateFormats.value, true))| > 0) &&
            !(t.rateFormats != [] && |Table(RateNameEntries(Split(t.rateFormats, '|')))| > 0) ==>
              q == [(T128, Unsized(128000))]
  {
    q := [];
    if t.newRateFormats.Some? {
      q := ParseFormats(t.newRateFormats.value, true);
    }
    if |q| == 0 && t.rateFormats != [] {
      q := ParseRateNames(Split(t.rateFormats, '|'));
    }
    if |q| == 0 {
      q := [(T128, Unsized(128000))];
    }
  }

  // ---------------------------------------------------------------- MRC decryption

  /** The 16-byte repeating key of Migu's MRC lyric files. */
  const MrcKey: seq<bv8> := [0x40, 0x47, 0x61, 0x77, 0x5E, 0x32, 0x74, 0x47,
                             0x51, 0x36, 0x31, 0x2D, 0xCE, 0xD2, 0x6E, 0x69]

  /** Every byte XOR-ed with the key byte at its position modulo 16. */
  function MrcXor(data: seq<bv8>): seq<bv8> {
    seq(|data|, i requires 0 <= i < |data| => data[i] ^ MrcKey[i % |MrcKey|])
  }

  /** The byte loop of `decryptMrc`, over the bytes the base64 text decodes to. */
  method DecryptMrc(encrypted: seq<bv8>) returns (decrypted: array<bv8>)
    ensures fresh(decrypted)
    ensures decrypted[..] == MrcXor(encrypted)
  {
    decrypted := new bv8[|encrypted|];
    var i := 0;
    while i < |encrypted|
      invariant 0 <= i <= |encrypted|
      invariant forall j :: 0 <= j < i ==> decrypted[j] == encrypted[j] ^ MrcKey[j % |MrcKey|]
    {
      decrypted[i] := encrypted[i] ^ MrcKey[i % |MrcKey|];
      i := i + 1;
    }
  }

  /** The transform keeps the length and, applied twice, gives back the input: it is its own inverse. */
  lemma {:induction false} MrcXorInvolution(data: seq<bv8>)
    ensures |MrcXor(data)| == |data|
    ensures MrcXor(MrcXor(data)) == data
  {
    var once := MrcXor(data);
    forall i | 0 <= i < |data| ensures MrcXor(once)[i] == data[i] {
      var k := MrcKey[i % |MrcKey|];
      assert once[i] == data[i] ^ k;
      assert (data[i] ^ k) ^ k == data[i];
    }
  }

  // ---------------------------------------------------------------- MRC to LRC

  /** `s.split(/\r\n|\r|\n/)` */
  function SplitLines(s: string): (lines: seq<string>)
    ensures |lines| >= 1
    ensures forall i :: 0 <= i < |lines| ==> '\r' !in lines[i] && '\n' !in lines[i]
  {
    if s == [] then [[]]
    else if s[0] == '\r' && |s| > 1 && s[1] == '\n' then [[]] + SplitLines(s[2..])
    else if s[0] == '\r' || s[0] == '\n' then [[]] + SplitLines(s[1..])
    else
      var rest := SplitLines(s[1..]);
      [[s[0]] + rest[0]] + rest[1..]
  }

  /** Without carriage returns, line splitting is splitting on '\n'. */
  lemma {:induction false} SplitLinesLf(s: string)
    requires '\r' !in s
    ensures SplitLines(s) == Split(s, '\n')
  {
    if s != [] {
      SplitLinesLf(s[1..]);
    }
  }

  /** The length of the run of decimal digits `s` starts with. */
  function LeadingDigits(s: string): (n: nat)
    ensures n <= |s| && AllDigits(s[..n])
    ensures n < |s| ==> !IsDigit(s[n])
  {
    if s != [] && IsDigit(s[0]) then
      var n := 1 + LeadingDigits(s[1..]);
      assert s[..n] == [s[0]] + s[1..][..n - 1];
      n
    else 0
  }

  /**
   * `open digits , digits close` at the start of `s`: the first digit run and the length
   * of the match, or nothing. The digit runs are greedy and a comma is not a digit, so
   * this is the only way the pattern can match there.
   */
  function PairAt(s: string, open: char, close: char): (r: Option<(string, nat)>)
    ensures r.Some? ==> 0 < r.value.1 <= |s| && r.value.0 != [] && AllDigits(r.value.0)
    ensures r.Some? ==> s[0] == open && s[r.value.1 - 1] == close
  {
    if |s| == 0 || s[0] != open then None
    else
      var d1 := LeadingDigits(s[1..]);
      if d1 == 0 || 1 + d1 >= |s| || s[1 + d1] != ',' then None
      else
        var d2 := LeadingDigits(s[2 + d1..]);
        if d2 == 0 || 2 + d1 + d2 >= |s| || s[2 + d1 + d2] != close then None
        else
          assert s[1..1 + d1] == s[1..][..d1];
          Some((s[1..1 + d1], 3 + d1 + d2))
  }

  /** `line.match(/^\s*\[(\d+),\d+\]/)`: the start-time digits and the matched prefix length. */
  function TimeTagMatch(line: string): (r: Option<(string, nat)>)
    ensures r.Some? ==> r.value.1 <= |line| && r.value.0 != [] && AllDigits(r.value.0)
  {
    var w := |line| - |TrimStart(line)|;
    match PairAt(line[w..], '[', ']')
    case None => None
    case Some(m) => Some((m.0, w + m.1))
  }

  /** The length of the word timing `(digits,digits)` at the start of `s`, or 0 when there is none. */
  function TimingLength(s: string): (n: nat)
    ensures n <= |s|
    ensures n > 0 ==> s[0] == '('
  {
    match PairAt(s, '(', ')')
    case Some(m) => m.1
    case None => 0
  }

  /** `s.replace(/\(\d+,\d+\)/g, '')`: each word timing is cut, scanning left to right. */
  function RemoveWordTimings(s: string): (r: string)
    ensures |r| <= |s|
    decreases |s|
  {
    if s == [] then []
    else
      var n := TimingLength(s);
      if n > 0 then RemoveWordTimings(s[n..]) else [s[0]] + RemoveWordTimings(s[1..])
  }

  /** One word of an MRC line followed by its `(start,duration)` timing. */
  datatype TimedWord = TimedWord(word: string, start: nat, duration: nat)

  function WordTiming(w: TimedWord): string {
    "(" + NatToString(w.start) + "," + NatToString(w.duration) + ")"
  }

  function RenderWords(ws: seq<TimedWord>): string {
    if ws == [] then [] else ws[0].word + WordTiming(ws[0]) + RenderWords(ws[1..])
  }

  function ConcatWords(ws: seq<TimedWord>): string {
    if ws == [] then [] else ws[0].word + ConcatWords(ws[1..])
  }

  /** A character other than '(' is kept and the scan moves on by one. */
  lemma {:induction false} PlainCons(c: char, t: string)
    requires c != '('
    ensures RemoveWordTimings([c] + t) == [c] + RemoveWordTimings(t)
  {
    var s := [c] + t;
    assert s[0] == c && s[1..] == t;
    assert TimingLength(s) == 0;
  }

  /** A character missing from a non-empty string is neither its first character nor in its tail. */
  lemma {:induction false} NotInParts(w: string, x: char)
    requires w != [] && x !in w
    ensures w[0] != x && x !in w[1..]
  {
    assert w[0] in w;
    assert forall y :: y in w[1..] ==> y in w;
  }

  /** Text without '(' passes through the timing removal unchanged. */
  lemma {:induction false} KeepPlainText(w: string, rest: string)
    requires '(' !in w
    ensures RemoveWordTimings(w + rest) == w + RemoveWordTimings(rest)
    decreases |w|
  {
    if w == [] {
      assert w + rest == rest;
    } else {
      var c, tail := w[0], w[1..];
      NotInParts(w, '(');
      calc {
        RemoveWordTimings(w + rest);
        { assert w + rest == [c] + (tail + rest); }
        RemoveWordTimings([c] + (tail + rest));
        { PlainCons(c, tail + rest); }
        [c] + RemoveWordTimings(tail + rest);
        { KeepPlainText(tail, rest); }
        [c] + (tail + RemoveWordTimings(rest));
        { assert w == [c] + tail; }
        w + RemoveWordTimings(rest);
      }
    }
  }

  /** The digit run of `a + t` is `a` when `t` does not start with a digit. */
  lemma {:induction false} LeadingDigitsOf(a: string, t: string)
    requires AllDigits(a) && (t == [] || !IsDigit(t[0]))
    ensures LeadingDigits(a + t) == |a|
  {
    if a != [] {
      assert (a + t)[1..] == a[1..] + t;
      LeadingDigitsOf(a[1..], t);
    }
  }

  /** The two places where the digit runs of `(a,b)rest` start. */
  lemma {:induction false} TimingSlices(a: string, b: string, rest: string)
    ensures var s := "(" + a + "," + b + ")" + rest;
            s[1..] == a + ([','] + b + ")" + rest) && s[2 + |a|..] == b + (")" + rest)
  {
  }

  /** `(a,b)` with both runs digits is a word timing of length `3 + |a| + |b|`, whatever follows. */
  lemma {:induction false} TimingOf(a: string, b: string, rest: string)
    requires a != [] && b != [] && AllDigits(a) && AllDigits(b)
    ensures TimingLength("(" + a + "," + b + ")" + rest) == 3 + |a| + |b|
  {
    TimingSlices(a, b, rest);
    LeadingDigitsOf(a, [','] + b + ")" + rest);
    LeadingDigitsOf(b, ")" + rest);
  }

  /** A word timing at the front is skipped as a whole. */
  lemma {:induction false} SkipTiming(s: string)
    requires TimingLength(s) > 0
    ensures RemoveWordTimings(s) == RemoveWordTimings(s[TimingLength(s)..])
  {
  }

  lemma {:induction false} CutTiming(w: TimedWord, rest: string)
    ensures RemoveWordTimings(WordTiming(w) + rest) == RemoveWordTimings(rest)
  {
    var a := NatToString(w.start);
    var b := NatToString(w.duration);
    var s := WordTiming(w) + rest;
    assert s == "(" + a + "," + b + ")" + rest;
    TimingOf(a, b, rest);
    SkipTiming(s);
    assert s[3 + |a| + |b|..] == rest;
  }

  /**
   * On a line body in MRC shape (words without '(' each followed by its timing), the
   * timing removal leaves exactly the words.
   */
  lemma {:induction false} WordTimingsRemoved(ws: seq<TimedWord>)
    requires forall i :: 0 <= i < |ws| ==> '(' !in ws[i].word
    ensures RemoveWordTimings(RenderWords(ws)) == ConcatWords(ws)
  {
    if ws != [] {
      var rest := RenderWords(ws[1..]);
      assert RenderWords(ws) == ws[0].word + (WordTiming(ws[0]) + rest);
      KeepPlainText(ws[0].word, WordTiming(ws[0]) + rest);
      CutTiming(ws[0], rest);
      WordTimingsRemoved(ws[1..]);
    }
  }

  function TwoDigits(n: nat): string {
    PadStartZero(NatToString(n), 2)
  }

  /** The LRC tag as the plugin writes it: the milliseconds are not padded. */
  function TimeTagAsWritten(start: nat): (r: string)
    ensures |r| >= 8 && r[0] == '[' && r[|r| - 1] == ']'
  {
    var seconds := start / 1000;
    "[" + TwoDigits(seconds / 60) + ":" + TwoDigits(seconds % 60) + "." + NatToString(start % 1000) + "]"
  }

  /** The LRC tag with the milliseconds padded to three digits. */
  function TimeTag(start: nat): (r: string)
    ensures |r| >= 10 && r[0] == '[' && r[|r| - 1] == ']'
  {
    var seconds := start / 1000;
    "[" + TwoDigits(seconds / 60) + ":" + TwoDigits(seconds % 60) + "." + PadStartZero(NatToString(start % 1000), 3) + "]"
  }

  /** `ss.f`: the digits after the point are a decimal fraction of a second, one to three of them. */
  function ReadSeconds(mm: string, rest: string): Option<nat> {
    var secs := Split(rest, '.');
    if |secs| != 2 then None
    else
      var ss := secs[0];
      var ff := secs[1];
      if mm == [] || ss == [] || !(1 <= |ff| <= 3) || !AllDigits(mm) || !AllDigits(ss) || !AllDigits(ff) then None
      else Some(Millis(DigitsValue(mm), DigitsValue(ss), DigitsValue(ff), |ff|))
  }

  /** Minutes, seconds and a fraction of `digits` decimal digits, in milliseconds. */
  function Millis(minutes: nat, seconds: nat, fraction: nat, digits: nat): nat
    requires digits <= 3
  {
    (minutes * 60 + seconds) * 1000 + fraction * Pow10(3 - digits)
  }

  /** The time in milliseconds an LRC reader takes from a tag `[mm:ss.f]`. */
  function ReadLrcTag(tag: string): Option<nat> {
    if |tag| < 2 || tag[0] != '[' || tag[|tag| - 1] != ']' then None
    else
      var parts := Split(tag[1..|tag| - 1], ':');
      if |parts| != 2 then None else ReadSeconds(parts[0], parts[1])
  }

  lemma {:induction false} DigitsLack(s: string, c: char)
    requires AllDigits(s) && !IsDigit(c)
    ensures c !in s
  {
    forall i | 0 <= i < |s| ensures s[i] != c {
      assert IsDigit(s[i]);
    }
  }

  /** A tag's brackets are stripped before its parts are split. */
  lemma {:induction false} TagInner(inner: string)
    ensures ReadLrcTag("[" + inner + "]") ==
            var parts := Split(inner, ':');
            if |parts| != 2 then None else ReadSeconds(parts[0], parts[1])
  {
    var tag := "[" + inner + "]";
    assert tag[1..|tag| - 1] == inner;
  }

  /** `ss.ff` with both parts digit strings reads as those minutes, seconds and fraction. */
  lemma {:induction false} ReadSecondsParts(mm: string, ss: string, ff: string)
    requires mm != [] && ss != [] && 1 <= |ff| <= 3 && AllDigits(mm) && AllDigits(ss) && AllDigits(ff)
    ensures ReadSeconds(mm, ss + "." + ff) == Some(Millis(DigitsValue(mm), DigitsValue(ss), DigitsValue(ff), |ff|))
  {
    DigitsLack(ss, '.');
    DigitsLack(ff, '.');
    SplitTwo(ss, '.', ff);
  }

  /** The tag's inner text splits at its one colon. */
  lemma {:induction false} SplitInner(mm: string, ss: string, ff: string)
    requires AllDigits(mm) && AllDigits(ss) && AllDigits(ff)
    ensures Split(mm + ":" + (ss + "." + ff), ':') == [mm, ss + "." + ff]
  {
    DigitsLack(mm, ':');
    DigitsLack(ss, ':');
    DigitsLack(ff, ':');
    var rest := ss + "." + ff;
    assert ':' !in rest by {
      assert forall i :: 0 <= i < |rest| ==> rest[i] == if i < |ss| then ss[i] else if i == |ss| then '.' else ff[i - |ss| - 1];
    }
    SplitTwo(mm, ':', rest);
  }

  lemma {:induction false} ReadTagParts(mm: string, ss: string, ff: string)
    requires mm != [] && ss != [] && 1 <= |ff| <= 3 && AllDigits(mm) && AllDigits(ss) && AllDigits(ff)
    ensures ReadLrcTag("[" + mm + ":" + ss + "." + ff + "]") ==
            Some(Millis(DigitsValue(mm), DigitsValue(ss), DigitsValue(ff), |ff|))
  {
    var inner := mm + ":" + (ss + "." + ff);
    assert "[" + mm + ":" + ss + "." + ff + "]" == "[" + inner + "]";
    TagInner(inner);
    SplitInner(mm, ss, ff);
    ReadSecondsParts(mm, ss, ff);
  }

  /** A two-digit field is a non-empty digit string that reads back as its number. */
  lemma {:induction false} TwoDigitsValue(n: nat)
    ensures TwoDigits(n) != [] && AllDigits(TwoDigits(n)) && DigitsValue(TwoDigits(n)) == n
  {
    PadStartZeroValue(NatToString(n), 2);
    NatToStringValue(n);
  }

  /** The padded millisecond field has exactly three digits and reads back as its number. */
  lemma {:induction false} PaddedMillisValue(ms: nat)
    requires ms < 1000
    ensures var f := PadStartZero(NatToString(ms), 3);
            |f| == 3 && AllDigits(f) && DigitsValue(f) == ms
  {
    PadStartZeroValue(NatToString(ms), 3);
    NatToStringValue(ms);
    NatToStringLength(ms, 3);
  }

  /** The minutes, seconds and three-digit milliseconds of a start time put back together give it. */
  lemma {:induction false} MillisOfStart(start: nat)
    ensures Millis(start / 1000 / 60, start / 1000 % 60, start % 1000, 3) == start
  {
    assert Pow10(0) == 1;
    TimeParts(start);
  }

  /** The seconds and milliseconds of the tag put back together give the start time. */
  lemma {:induction false} TimeParts(start: nat)
    ensures ((start / 1000 / 60) * 60 + start / 1000 % 60) * 1000 + start % 1000 == start
  {
  }

  /** An LRC reader recovers the MRC start time from the padded tag, for every start time. */
  lemma {:induction false} TimeTagRoundTrip(start: nat)
    ensures ReadLrcTag(TimeTag(start)) == Some(start)
  {
    var seconds := start / 1000;
    TwoDigitsValue(seconds / 60);
    TwoDigitsValue(seconds % 60);
    PaddedMillisValue(start % 1000);
    ReadTagParts(TwoDigits(seconds / 60), TwoDigits(seconds % 60), PadStartZero(NatToString(start % 1000), 3));
    MillisOfStart(start);
  }

  /** A fraction of one or two digits counts ten or a hundred times too much. */
  lemma {:induction false} MisreadMillis(start: nat, digits: nat)
    requires 0 < start % 1000 < 100 && 1 <= digits <= 2
    ensures Millis(start / 1000 / 60, start / 1000 % 60, start % 1000, digits) != start
  {
    if digits == 1 {
      assert Pow10(2) == 100 by { assert Pow10(1) == 10; }
    } else {
      assert Pow10(1) == 10;
    }
    TimeParts(start);
  }

  /**
   * With the milliseconds unpadded, every start time whose millisecond part is 1 to 99
   * is read back wrongly: 1005 ms is written `[00:01.5]`, which reads as 1.5 s.
   */
  lemma {:induction false} TimeTagAsWrittenMisread(start: nat)
    requires 0 < start % 1000 < 100
    ensures ReadLrcTag(TimeTagAsWritten(start)) != Some(start)
  {
    var seconds := start / 1000;
    var ms := start % 1000;
    TwoDigitsValue(seconds / 60);
    TwoDigitsValue(seconds % 60);
    NatToStringValue(ms);
    NatToStringLength(ms, 2);
    ReadTagParts(TwoDigits(seconds / 60), TwoDigits(seconds % 60), NatToString(ms));
    MisreadMillis(start, |NatToString(ms)|);
  }

  /** The LRC line of one MRC line, or nothing when the line carries no `[start,duration]` tag. */
  function MrcLine(line: string): (r: Option<string>)
    ensures r.Some? <==> TimeTagMatch(line).Some?
    ensures r.Some? ==> var m := TimeTagMatch(line).value;
              r.value == TimeTag(DigitsValue(m.0)) + RemoveWordTimings(line[m.1..])
  {
    match TimeTagMatch(line)
    case None => None
    case Some(m) => Some(TimeTag(DigitsValue(m.0)) + RemoveWordTimings(line[m.1..]))
  }

  /** The LRC lines of the tagged MRC lines, in order. */
  function MrcLines(lines: seq<string>): (r: seq<string>)
    ensures |r| <= |lines|
  {
    FilterMap(lines, MrcLine)
  }

  /** Untagged lines are all dropped. */
  lemma {:induction false} MrcLinesNoneTagged(lines: seq<string>)
    requires forall i :: 0 <= i < |lines| ==> TimeTagMatch(lines[i]).None?
    ensures MrcLines(lines) == []
  {
    FilterMapNone(lines, MrcLine);
  }

  /** When every line is tagged, line `i` of the LRC is the conversion of line `i`. */
  lemma {:induction false} MrcLinesAllTagged(lines: seq<string>)
    requires forall i :: 0 <= i < |lines| ==> TimeTagMatch(lines[i]).Some?
    ensures |MrcLines(lines)| == |lines|
    ensures forall i :: 0 <= i < |lines| ==> MrcLines(lines)[i] == MrcLine(lines[i]).value
  {
    FilterMapAll(lines, MrcLine);
  }

  /** `parseMrc`: the loop over the lines, pushing one LRC line per tagged MRC line. */
  method ParseMrc(content: string) returns (lrc: string)
    ensures lrc == Join(MrcLines(SplitLines(content)), "\n")
  {
    var lines := SplitLines(content);
    var lrcLines: seq<string> := [];
    var i := 0;
    while i < |lines|
      invariant 0 <= i <= |lines|
      invariant lrcLines == MrcLines(lines[..i])
    {
      assert lines[..i + 1][..i] == lines[..i];
      var line := MrcLine(lines[i]);
      if line.Some? {
        lrcLines := lrcLines + [line.value];
      }
      i := i + 1;
    }
    assert lines[..|lines|] == lines;
    lrc := Join(lrcLines, "\n");
  }

  // ---------------------------------------------------------------- getMediaSource

  /** The fields of a track `getMediaSource` reads; `qualities` is None when absent. */
  datatype Track = Track(copyrightId: Val, qualities: Option<Qualities>)

  /** `qualityLevels[quality]` */
  function QualityLevel(tag: string): (r: Option<string>)
    ensures r.Some? <==> tag in {T128, T320, TFlac, THires}
    ensures r.Some? ==> r.value == tag
  {
    if tag in {T128, T320, TFlac, THires} then Some(tag) else None
  }

  /**
   * `getMediaSource`: a track whose non-empty table lacks the tag is refused before any
   * request; otherwise the copyright id is sent, and only `code === 200` with a URL
   * resolves. A failed request is re-thrown.
   */
  function GetMediaSource(t: Track, quality: string, answer: Exchange): (a: Attempt)
    ensures a.sent.None? <==> t.qualities.Some? && !Listed(t.qualities.value, quality)
    ensures a.sent.None? ==> a.outcome == Raised
    ensures a.sent.Some? ==> a.sent.value == Request("mg", t.copyrightId, QualityLevel(quality).GetOr(UndefinedText))
    ensures a.outcome.Resolved? <==> a.sent.Some? && answer.Answered? && Succeeded(answer.reply)
    ensures a.outcome.Resolved? ==> a.outcome.media == Media(answer.reply.url, None)
    ensures a.sent.Some? && answer.Threw? ==> a.outcome == Raised
    ensures a.sent.Some? && answer.Answered? && !Succeeded(answer.reply) ==> a.outcome == NullResult
  {
    if t.qualities.Some? && |t.qualities.value| > 0 && !Has(t.qualities.value, quality) then
      Attempt(None, Raised)
    else
      var req := Request("mg", t.copyrightId, QualityLevel(quality).GetOr(UndefinedText));
      match answer
      case Threw => Attempt(Some(req), Raised)
      case Answered(r) =>
        if Succeeded(r) then Attempt(Some(req), Resolved(Media(r.url, None)))
        else Attempt(Some(req), NullResult)
  }

  // ---------------------------------------------------------------- importMusicSheet

  const SheetPageSize: nat := 20

  /** The song ids the scraped pages yield, page after page. */
  function ScrapedIds(pages: seq<nat>, scrape: nat -> seq<string>): seq<string> {
    if pages == [] then [] else ScrapedIds(pages[..|pages| - 1], scrape) + scrape(pages[|pages| - 1])
  }

  /**
   * The page loop of `importMusicSheet`: pages 1, 2, ... are fetched while the page's
   * first song lies below the playlist's `contentCount` (None when `parseInt` gives NaN,
   * in which case no page is fetched). `scrape(p)` is the list of ids page `p` shows.
   */
  method ImportPages(contentCount: Option<int>, scrape: nat -> seq<string>) returns (pages: seq<nat>, cids: seq<string>)
    ensures forall i :: 0 <= i < |pages| ==> pages[i] == i + 1
    ensures forall p: nat :: p in pages <==> 1 <= p && contentCount.Some? && (p - 1) * SheetPageSize < contentCount.value
    ensures cids == ScrapedIds(pages, scrape)
  {
    pages := [];
    cids := [];
    var pageNo: nat := 1;
    while contentCount.Some? && (pageNo - 1) * SheetPageSize < contentCount.value
      invariant pageNo >= 1 && |pages| == pageNo - 1
      invariant forall i :: 0 <= i < |pages| ==> pages[i] == i + 1
      invariant pageNo > 1 ==> contentCount.Some? && (pageNo - 2) * SheetPageSize < contentCount.value
      invariant cids == ScrapedIds(pages, scrape)
      decreases if contentCount.Some? then contentCount.value - (pageNo - 1) * SheetPageSize else 0
    {
      assert (pages + [pageNo])[..|pages|] == pages;
      cids := cids + scrape(pageNo);
      pages := pages + [pageNo];
      pageNo := pageNo + 1;
    }
    forall p: nat ensures p in pages <==> 1 <= p <= |pages| {
      if 1 <= p <= |pages| {
        assert pages[p - 1] == p;
      }
    }
  }
}
