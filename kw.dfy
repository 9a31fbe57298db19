/**
 * The KuWo plugin (plugins/kw.js): the cover-URL rewrite, the `N_MINFO` quality parser,
 * the translation split of a lyric list, the obfuscated lyric query (XOR with "yeelion",
 * then base64), the stream-URL request with its quality downgrade, and the qualities
 * `getMusicInfo` falls back to.
 */
module Kw {
  import opened Wrappers
  import opened JsString
  import opened JsObject
  import opened Quality
  import opened Vendor

  // ---------------------------------------------------------------- artworkShort2Long

  const AlbumCoverPrefix: string := "https://img4.kuwo.cn/star/albumcover/1080"

  /**
   * `artworkShort2Long`: undefined without a "/" (or without a value at all); otherwise the
   * 1080-pixel cover host followed by the short path from its first "/" on.
   */
  function ArtworkShort2Long(albumpicShort: Option<string>): (r: Option<string>)
    ensures r.Some? <==> albumpicShort.Some? && '/' in albumpicShort.value
    ensures r.Some? ==> exists i :: 0 <= i < |albumpicShort.value| && albumpicShort.value[i] == '/' &&
                          '/' !in albumpicShort.value[..i] && r.value == AlbumCoverPrefix + albumpicShort.value[i..]
  {
    match albumpicShort
    case None => None
    case Some(s) =>
      var i := IndexOfChar(s, '/');
      if i == -1 then None else Some(AlbumCoverPrefix + s[i..])
  }

  // ---------------------------------------------------------------- parseKuWoQualityInfo

  /**
   * The character classes of `/level:(\w+),bitrate:(\d+),format:(\w+),size:([\w.]+)/`.
   * Each group is followed by a literal that starts with ',' or by the end of the
   * pattern, and ',' is in none of the classes, so each greedy group takes exactly the
   * longest run of its class: the expression needs no backtracking.
   */
  datatype Class = Word | Digit | SizeChar

  predicate InClass(c: char, k: Class) {
    match k
    case Word => IsWordChar(c)
    case Digit => IsDigit(c)
    case SizeChar => IsWordChar(c) || c == '.'
  }

  /** The length of the longest run of class `k` at the start of `t`. */
  function RunLength(t: string, k: Class): (n: nat)
    ensures n <= |t|
    ensures forall i :: 0 <= i < n ==> InClass(t[i], k)
    ensures n < |t| ==> !InClass(t[n], k)
  {
    if t != [] && InClass(t[0], k) then 1 + RunLength(t[1..], k) else 0
  }

  predicate AllIn(s: string, k: Class) {
    forall i :: 0 <= i < |s| ==> InClass(s[i], k)
  }

  /**
   * The literal `lit` followed by a group of class `k` at the start of `t`: the group's
   * text and what follows it.
   */
  function Group(t: string, lit: string, k: Class): (r: Option<(string, string)>)
    ensures r.Some? ==> r.value.0 != [] && AllIn(r.value.0, k) && t == lit + r.value.0 + r.value.1
    ensures r.Some? ==> r.value.1 == [] || !InClass(r.value.1[0], k)
  {
    if !StartsWith(t, lit) then None
    else
      var u := t[|lit|..];
      var n := RunLength(u, k);
      if n == 0 then None
      else
        assert t == lit + u[..n] + u[n..];
        Some((u[..n], u[n..]))
  }

  /** The four groups of a match. */
  datatype InfoMatch = InfoMatch(level: string, bitrate: string, format: string, size: string)

  const LevelLit: string := "level:"
  const BitrateLit: string := ",bitrate:"
  const FormatLit: string := ",format:"
  const SizeLit: string := ",size:"

  /** The match of the expression at the very start of `t`, if there is one. */
  function MatchText(t: string): (r: Option<InfoMatch>)
    ensures r.Some? ==> r.value.bitrate != [] && AllIn(r.value.bitrate, Digit)
  {
    match Group(t, LevelLit, Word)
    case None => None
    case Some(g0) =>
      match Group(g0.1, BitrateLit, Digit)
      case None => None
      case Some(g1) =>
        match Group(g1.1, FormatLit, Word)
        case None => None
        case Some(g2) =>
          match Group(g2.1, SizeLit, SizeChar)
          case None => None
          case Some(g3) => Some(InfoMatch(g0.0, g1.0, g2.0, g3.0))
  }

  /** `info.match(regExp)`: the leftmost match at or after index `p`. */
  function FindFrom(s: string, p: nat): (r: Option<InfoMatch>)
    ensures r.Some? ==> exists i :: p <= i <= |s| && MatchText(s[i..]) == r
    ensures r.None? ==> forall i :: p <= i <= |s| ==> MatchText(s[i..]).None?
    ensures r.Some? ==> r.value.bitrate != [] && AllIn(r.value.bitrate, Digit)
    decreases |s| + 1 - p
  {
    if p > |s| then None
    else if MatchText(s[p..]).Some? then MatchText(s[p..])
    else FindFrom(s, p + 1)
  }

  function FindMatch(s: string): (r: Option<InfoMatch>)
    ensures r.Some? ==> r.value.bitrate != [] && AllDigits(r.value.bitrate)
  {
    FindFrom(s, 0)
  }

  /** The tag and bitrate of a `parseInt(bitrate)` the parser knows: 2000, 320 and 128 kbit/s. */
  function RateTier(bitrate: nat): (r: Option<(string, int)>)
    ensures r.Some? <==> bitrate in {2000, 320, 128}
  {
    if bitrate == 2000 then Some((TFlac, 1411000))
    else if bitrate == 320 then Some((T320, 320000))
    else if bitrate == 128 then Some((T128, 128000))
    else None
  }

  /** What one `;`-separated segment contributes to the table. */
  function InfoEntry(segment: string): Entry {
    match FindMatch(segment)
    case None => None
    case Some(m) =>
      match RateTier(DigitsValue(m.bitrate))
      case None => None
      case Some(t) => Some((t.0, Descriptor(Str(ToUpperAscii(m.size)), Num(t.1), Undefined, Str(m.format))))
  }

  function InfoEntries(segments: seq<string>): (es: seq<Entry>)
    ensures |es| == |segments| && forall i :: 0 <= i < |segments| ==> es[i] == InfoEntry(segments[i])
  {
    Map(segments, InfoEntry)
  }

  /** The table `parseKuWoQualityInfo` builds: `{}` for a missing or empty `N_MINFO`. */
  function KuWoQualities(nMInfo: Option<string>): (r: Qualities)
    ensures nMInfo.None? || nMInfo.value == [] ==> r == []
    ensures UniqueKeys(r)
  {
    match nMInfo
    case None => []
    case Some(s) => if s == [] then [] else TableUnique(InfoEntries(Split(s, ';'))); Table(InfoEntries(Split(s, ';')))
  }

  /** One pass of the loop in `parseKuWoQualityInfo`: match the segment and assign its tier, if any. */
  method AddSegment(qualities: Qualities, segment: string) returns (r: Qualities)
    ensures r == if InfoEntry(segment).Some? then Put(qualities, InfoEntry(segment).value.0, InfoEntry(segment).value.1) else qualities
  {
    r := qualities;
    var m := FindMatch(segment);
    if m.Some? {
      var bitrateNum := DigitsValue(m.value.bitrate);
      var tier := RateTier(bitrateNum);
      if tier.Some? {
        var d := Descriptor(Str(ToUpperAscii(m.value.size)), Num(tier.value.1), Undefined, Str(m.value.format));
        r := Put(r, tier.value.0, d);
      }
    }
  }

  /** `parseKuWoQualityInfo`: the loop over the segments of `N_MINFO`. */
  method ParseKuWoQualityInfo(nMInfo: Option<string>) returns (qualities: Qualities)
    ensures qualities == KuWoQualities(nMInfo)
  {
    if nMInfo.None? || nMInfo.value == [] {
      return [];
    }
    qualities := FoldSegments(Split(nMInfo.value, ';'));
  }

  /** The loop itself, over the segments of a non-empty `N_MINFO`. */
  method FoldSegments(infoArr: seq<string>) returns (qualities: Qualities)
    ensures qualities == Table(InfoEntries(infoArr))
  {
    qualities := [];
    ghost var done: seq<Entry> := [];
    var i := 0;
    while i < |infoArr|
      invariant 0 <= i <= |infoArr|
      invariant done == InfoEntries(infoArr[..i])
      invariant qualities == Table(done)
    {
      MapPrefix(infoArr, i, InfoEntry);
      TableSnoc(done, InfoEntry(infoArr[i]));
      qualities := AddSegment(qualities, infoArr[i]);
      done := done + [InfoEntry(infoArr[i])];
      i := i + 1;
    }
    assert infoArr[..|infoArr|] == infoArr;
  }

  /** The segment matches the pattern and its bitrate is one of the three tiers, `tag`. */
  predicate SegmentGives(segment: string, tag: string) {
    FindMatch(segment).Some? &&
    RateTier(DigitsValue(FindMatch(segment).value.bitrate)).Some? &&
    RateTier(DigitsValue(FindMatch(segment).value.bitrate)).value.0 == tag
  }

  lemma {:induction false} InfoEntryFills(segment: string, tag: string)
    ensures Fills(InfoEntry(segment), tag) <==> SegmentGives(segment, tag)
    ensures SegmentGives(segment, tag) ==> tag in {T128, T320, TFlac}
  {
  }

  /** Only 128k, 320k and flac are ever filled, and only by a segment with that bitrate. */
  lemma {:induction false} KuWoTableHas(s: string, tag: string)
    requires s != []
    ensures Has(KuWoQualities(Some(s)), tag) <==>
              exists i :: 0 <= i < |Split(s, ';')| && SegmentGives(Split(s, ';')[i], tag)
    ensures Has(KuWoQualities(Some(s)), tag) ==> tag in {T128, T320, TFlac}
  {
    var segs := Split(s, ';');
    var es := InfoEntries(segs);
    TableHas(es, tag);
    forall i | 0 <= i < |segs|
      ensures Fills(es[i], tag) <==> SegmentGives(segs[i], tag)
    {
      InfoEntryFills(segs[i], tag);
    }
    if Has(KuWoQualities(Some(s)), tag) {
      var i :| 0 <= i < |es| && Fills(es[i], tag);
      InfoEntryFills(segs[i], tag);
    }
  }

  /** A run of class `k` ended by the end of the text or by another character is read whole. */
  lemma {:induction false} RunExact(x: string, rest: string, k: Class)
    requires AllIn(x, k)
    requires rest == [] || !InClass(rest[0], k)
    ensures RunLength(x + rest, k) == |x|
  {
    if x != [] {
      assert (x + rest)[1..] == x[1..] + rest;
      RunExact(x[1..], rest, k);
    }
  }

  /** A literal followed by a whole run is read as that group. */
  lemma {:induction false} GroupReads(lit: string, x: string, rest: string, k: Class)
    requires x != [] && AllIn(x, k)
    requires rest == [] || !InClass(rest[0], k)
    ensures Group(lit + x + rest, lit, k) == Some((x, rest))
  {
    var t := lit + x + rest;
    assert t[..|lit|] == lit;
    assert t[|lit|..] == x + rest;
    RunExact(x, rest, k);
    assert (x + rest)[..|x|] == x && (x + rest)[|x|..] == rest;
  }

  /** The `N_MINFO` segment for four group values. */
  function Segment(m: InfoMatch): string {
    LevelLit + m.level + (BitrateLit + m.bitrate + (FormatLit + m.format + (SizeLit + m.size)))
  }

  predicate WellFormed(m: InfoMatch) {
    m.level != [] && AllIn(m.level, Word) && m.bitrate != [] && AllIn(m.bitrate, Digit) &&
    m.format != [] && AllIn(m.format, Word) && m.size != [] && AllIn(m.size, SizeChar)
  }

  /** The expression, tried at the start of a well-formed segment, reads back its four groups. */
  lemma {:induction false} MatchTextSegment(m: InfoMatch)
    requires WellFormed(m)
    ensures MatchText(Segment(m)) == Some(m)
  {
    var t3 := SizeLit + m.size;
    var t2 := FormatLit + m.format + t3;
    var t1 := BitrateLit + m.bitrate + t2;
    assert t1[0] == ',' && t2[0] == ',' && t3[0] == ',';
    GroupReads(LevelLit, m.level, t1, Word);
    assert Group(Segment(m), LevelLit, Word) == Some((m.level, t1));
    GroupReads(BitrateLit, m.bitrate, t2, Digit);
    assert Group(t1, BitrateLit, Digit) == Some((m.bitrate, t2));
    GroupReads(FormatLit, m.format, t3, Word);
    assert Group(t2, FormatLit, Word) == Some((m.format, t3));
    assert SizeLit + m.size + [] == t3;
    GroupReads(SizeLit, m.size, [], SizeChar);
    assert Group(t3, SizeLit, SizeChar) == Some((m.size, []));
  }

  /** The expression reads back the four groups of a well-formed segment. */
  lemma {:induction false} SegmentMatches(m: InfoMatch)
    requires WellFormed(m)
    ensures FindMatch(Segment(m)) == Some(m)
  {
    MatchTextSegment(m);
    assert Segment(m)[0..] == Segment(m);
  }

  /** A well-formed segment holds no ';', so it is one segment of its own. */
  lemma {:induction false} SegmentUnsplit(m: InfoMatch)
    requires WellFormed(m)
    ensures ';' !in Segment(m)
  {
    assert ';' !in m.level && ';' !in m.bitrate && ';' !in m.format && ';' !in m.size;
  }

  /** `N_MINFO` holding one well-formed segment of a known bitrate gives exactly that quality. */
  lemma {:induction false} SegmentQuality(m: InfoMatch)
    requires WellFormed(m) && RateTier(DigitsValue(m.bitrate)).Some?
    ensures var t := RateTier(DigitsValue(m.bitrate)).value;
            KuWoQualities(Some(Segment(m))) == [(t.0, Descriptor(Str(ToUpperAscii(m.size)), Num(t.1), Undefined, Str(m.format)))]
  {
    var seg := Segment(m);
    SegmentUnsplit(m);
    SplitNone(seg, ';');
    assert InfoEntries([seg]) == [InfoEntry(seg)];
    SegmentEntry(m);
    SingleEntryTable(InfoEntry(seg));
  }

  /** A well-formed segment of a known bitrate contributes its tag with the descriptor built from its groups. */
  lemma {:induction false} SegmentEntry(m: InfoMatch)
    requires WellFormed(m) && RateTier(DigitsValue(m.bitrate)).Some?
    ensures var t := RateTier(DigitsValue(m.bitrate)).value;
            InfoEntry(Segment(m)) == Some((t.0, Descriptor(Str(ToUpperAscii(m.size)), Num(t.1), Undefined, Str(m.format))))
  {
    SegmentMatches(m);
  }

  /** The table of a single filled entry holds just that entry. */
  lemma {:induction false} SingleEntryTable(e: Entry)
    requires e.Some?
    ensures Table([e]) == [e.value]
  {
    TableSnoc([], e);
    assert [] + [e] == [e];
  }

  // ---------------------------------------------------------------- sortLrcArr

  /** A line of KuWo's lyric list: its time text and its words. */
  datatype LrcItem = LrcItem(time: string, lineLyric: string)

  /** What `sortLrcArr` holds between items: `lrc`, `lrcT` and the set of times seen. */
  datatype LrcSplit = LrcSplit(lrc: seq<LrcItem>, lrcT: seq<LrcItem>, seen: set<string>)

  /**
   * One item: a new time is kept as an original line; a repeated time makes the line kept
   * last a translation, re-timed to the line before it, and takes its place; a repeated
   * time with fewer than two lines kept is dropped.
   */
  function LrcStep(st: LrcSplit, item: LrcItem): LrcSplit {
    if item.time in st.seen then
      if |st.lrc| < 2 then st
      else
        var n := |st.lrc|;
        LrcSplit(st.lrc[..n - 1] + [item], st.lrcT + [st.lrc[n - 1].(time := st.lrc[n - 2].time)], st.seen)
    else LrcSplit(st.lrc + [item], st.lrcT, st.seen + {item.time})
  }

  /** The state after the items of `arr` in order. */
  function SortLrc(arr: seq<LrcItem>): (r: LrcSplit)
    ensures r.lrc == [] <==> arr == []
    ensures r.seen == {} <==> arr == []
  {
    if arr == [] then LrcSplit([], [], {})
    else LrcStep(SortLrc(arr[..|arr| - 1]), arr[|arr| - 1])
  }

  /** `sortLrcArr`: the loop over the items with the set of times seen. */
  method SortLrcArr(arr: seq<LrcItem>) returns (lrc: seq<LrcItem>, lrcT: seq<LrcItem>)
    ensures lrc == SortLrc(arr).lrc && lrcT == SortLrc(arr).lrcT
  {
    var lrcSet: set<string> := {};
    lrc := [];
    lrcT := [];
    var i := 0;
    while i < |arr|
      invariant 0 <= i <= |arr|
      invariant LrcSplit(lrc, lrcT, lrcSet) == SortLrc(arr[..i])
    {
      var item := arr[i];
      assert arr[..i + 1][..i] == arr[..i];
      if item.time in lrcSet {
        if |lrc| < 2 {
          i := i + 1;
          continue;
        }
        var tItem := lrc[|lrc| - 1];
        lrc := lrc[..|lrc| - 1];
        tItem := tItem.(time := lrc[|lrc| - 1].time);
        lrcT := lrcT + [tItem];
        lrc := lrc + [item];
      } else {
        lrc := lrc + [item];
        lrcSet := lrcSet + {item.time};
      }
      i := i + 1;
    }
    assert arr[..|arr|] == arr;
  }

  predicate DistinctTimes(arr: seq<LrcItem>) {
    forall i, j :: 0 <= i < j < |arr| ==> arr[i].time != arr[j].time
  }

  function Times(arr: seq<LrcItem>): set<string> {
    set i | 0 <= i < |arr| :: arr[i].time
  }

  /** The times of the items, one more item at a time. */
  lemma {:induction false} TimesSnoc(arr: seq<LrcItem>)
    requires arr != []
    ensures Times(arr) == Times(arr[..|arr| - 1]) + {arr[|arr| - 1].time}
  {
    var n := |arr| - 1;
    var init := arr[..n];
    forall t | t in Times(arr) ensures t in Times(init) + {arr[n].time} {
      var j :| 0 <= j < |arr| && arr[j].time == t;
      if j < n {
        assert init[j] == arr[j];
      }
    }
    forall t | t in Times(init) ensures t in Times(arr) {
      var j :| 0 <= j < |init| && init[j].time == t;
      assert arr[j] == init[j];
    }
  }

  /** Lyrics without repeated times have no translation: every line stays, in order. */
  lemma {:induction false} SortLrcDistinct(arr: seq<LrcItem>)
    requires DistinctTimes(arr)
    ensures SortLrc(arr) == LrcSplit(arr, [], Times(arr))
  {
    if arr != [] {
      var n := |arr| - 1;
      var init := arr[..n];
      assert DistinctTimes(init) by {
        forall i, j | 0 <= i < j < |init| ensures init[i].time != init[j].time {
          assert init[i] == arr[i] && init[j] == arr[j];
        }
      }
      SortLrcDistinct(init);
      forall j | 0 <= j < |init| ensures init[j].time != arr[n].time {
        assert init[j] == arr[j];
      }
      TimesSnoc(arr);
      assert init + [arr[n]] == arr;
    }
  }

  /** No item is counted twice, and the set of times ends as the set of the items' times. */
  lemma {:induction false} SortLrcCount(arr: seq<LrcItem>)
    ensures |SortLrc(arr).lrc| + |SortLrc(arr).lrcT| <= |arr|
    ensures SortLrc(arr).seen == Times(arr)
  {
    if arr != [] {
      SortLrcCount(arr[..|arr| - 1]);
      TimesSnoc(arr);
    }
  }

  /** Lines only move: every kept line is an item, and every translation keeps an item's words. */
  lemma {:induction false} SortLrcFrom(arr: seq<LrcItem>)
    ensures forall x :: x in SortLrc(arr).lrc ==> x in arr
    ensures forall x :: x in SortLrc(arr).lrcT ==> exists y :: y in arr && y.lineLyric == x.lineLyric
  {
    if arr != [] {
      var n := |arr| - 1;
      var init := arr[..n];
      SortLrcFrom(init);
      assert forall x :: x in init ==> x in arr;
      var st := SortLrc(init);
      if arr[n].time in st.seen && |st.lrc| >= 2 {
        var m := |st.lrc|;
        assert st.lrc[m - 1] in st.lrc;
        assert forall x :: x in st.lrc[..m - 1] ==> x in st.lrc;
      }
    }
  }

  /** Every translation carries the time of an original line that stays kept before the last one. */
  lemma {:induction false} SortLrcRetimed(arr: seq<LrcItem>)
    ensures forall x :: x in SortLrc(arr).lrcT ==>
              exists j :: 0 <= j < |SortLrc(arr).lrc| - 1 && SortLrc(arr).lrc[j].time == x.time
  {
    if arr != [] {
      var n := |arr| - 1;
      var init := arr[..n];
      SortLrcRetimed(init);
      var st := SortLrc(init);
      var item := arr[n];
      if item.time in st.seen && |st.lrc| >= 2 {
        var m := |st.lrc|;
        var lrc' := st.lrc[..m - 1] + [item];
        var moved := st.lrc[m - 1].(time := st.lrc[m - 2].time);
        forall x | x in st.lrcT + [moved]
          ensures exists j :: 0 <= j < |lrc'| - 1 && lrc'[j].time == x.time
        {
          if x == moved {
            assert lrc'[m - 2] == st.lrc[m - 2];
          } else {
            var j :| 0 <= j < |st.lrc| - 1 && st.lrc[j].time == x.time;
            assert lrc'[j] == st.lrc[j];
          }
        }
      } else if item.time !in st.seen {
        var lrc' := st.lrc + [item];
        forall x | x in st.lrcT
          ensures exists j :: 0 <= j < |lrc'| - 1 && lrc'[j].time == x.time
        {
          var j :| 0 <= j < |st.lrc| - 1 && st.lrc[j].time == x.time;
          assert lrc'[j] == st.lrc[j];
        }
      }
    }
  }

  /** A repeated time arriving before two lines are kept is dropped and changes nothing. */
  lemma {:induction false} EarlyRepeatDropped(pre: seq<LrcItem>, item: LrcItem)
    requires item.time in Times(pre) && |SortLrc(pre).lrc| < 2
    ensures SortLrc(pre + [item]) == SortLrc(pre)
  {
    SortLrcCount(pre);
    assert (pre + [item])[..|pre|] == pre;
  }

  // ---------------------------------------------------------------- buildParams and base64

  /** `TextEncoder.encode` of one character: its UTF-8 bytes. */
  function Utf8Char(c: char): (r: seq<bv8>)
    ensures 1 <= |r| <= 4
    ensures c as int < 0x80 ==> r == [c as int as bv8]
  {
    var n := c as int;
    if n < 0x80 then [n as bv8]
    else if n < 0x800 then [(0xC0 + n / 64) as bv8, (0x80 + n % 64) as bv8]
    else if n < 0x10000 then [(0xE0 + n / 4096) as bv8, (0x80 + (n / 64) % 64) as bv8, (0x80 + n % 64) as bv8]
    else [(0xF0 + n / 262144) as bv8, (0x80 + (n / 4096) % 64) as bv8, (0x80 + (n / 64) % 64) as bv8, (0x80 + n % 64) as bv8]
  }

  /** `TextEncoder.encode(s)` */
  function Utf8(s: string): (r: seq<bv8>)
    ensures |r| >= |s|
  {
    if s == [] then [] else Utf8(s[..|s| - 1]) + Utf8Char(s[|s| - 1])
  }

  predicate IsAscii(s: string) {
    forall i :: 0 <= i < |s| ==> s[i] as int < 0x80
  }

  /** ASCII text encodes to one byte per character, the character's code. */
  lemma {:induction false} Utf8Ascii(s: string)
    requires IsAscii(s)
    ensures |Utf8(s)| == |s|
    ensures forall i :: 0 <= i < |s| ==> Utf8(s)[i] == s[i] as int as bv8
  {
    if s != [] {
      var init := s[..|s| - 1];
      assert IsAscii(init) by {
        forall i | 0 <= i < |init| ensures init[i] as int < 0x80 {
          assert init[i] == s[i];
        }
      }
      Utf8Ascii(init);
    }
  }

  const XorKeyText: string := "yeelion"

  /** The bytes of "yeelion". */
  function KeyBytes(): (r: seq<bv8>)
    ensures |r| == |XorKeyText|
  {
    Utf8Ascii(XorKeyText);
    Utf8(XorKeyText)
  }

  /** Each byte XOR-ed with the key byte at its index modulo the key's length. */
  function Obfuscated(bytes: seq<bv8>): (r: seq<bv8>)
    ensures |r| == |bytes|
  {
    seq(|bytes|, i requires 0 <= i < |bytes| => bytes[i] ^ KeyBytes()[i % |XorKeyText|])
  }

  /** XOR-ing twice with the same key gives the bytes back: the server's way of reading the query. */
  lemma {:induction false} ObfuscatedInvolution(bytes: seq<bv8>)
    ensures Obfuscated(Obfuscated(bytes)) == bytes
  {
    forall i | 0 <= i < |bytes| ensures Obfuscated(Obfuscated(bytes))[i] == bytes[i] {
      var k := KeyBytes()[i % |XorKeyText|];
      assert (bytes[i] ^ k) ^ k == bytes[i];
    }
  }

  /** The loop filling the `Uint8Array` of `buildParams`. */
  method Obfuscate(paramsBytes: seq<bv8>) returns (output: array<bv8>)
    ensures fresh(output)
    ensures output[..] == Obfuscated(paramsBytes)
  {
    var keyBytes := Utf8(XorKeyText);
    var keyLen := |XorKeyText|;
    assert keyBytes == KeyBytes();
    output := new bv8[|paramsBytes|];
    var i := 0;
    while i < |paramsBytes|
      invariant 0 <= i <= |paramsBytes|
      invariant forall j :: 0 <= j < i ==> output[j] == Obfuscated(paramsBytes)[j]
    {
      output[i] := paramsBytes[i] ^ keyBytes[i % keyLen];
      i := i + 1;
    }
  }

  /** The alphabet of `buildParams` and `arrayBufferToBase64`, written in three pieces. */
  const Base64Chars: string := "ABCDEFGHIJKLMNOPQRSTUVWXYZ" + "abcdefghijklmnopqrstuvwxyz" + "0123456789+/"

  /** `base64Chars[v]`, computed from the code points of the alphabet's three ranges. */
  function Sextet(v: nat): char
    requires v < 64
  {
    if v < 26 then (65 + v) as char
    else if v < 52 then (71 + v) as char
    else if v < 62 then (v - 4) as char
    else if v == 62 then '+' else '/'
  }

  lemma {:induction false} SextetIsAlphabet(v: nat)
    requires v < 64
    ensures Base64Chars[v] == Sextet(v)
  {
  }

  /** The index of a character in the alphabet. */
  function SextetValue(c: char): (v: nat)
    ensures v < 64
  {
    if 'A' <= c <= 'Z' then c as int - 65
    else if 'a' <= c <= 'z' then c as int - 71
    else if '0' <= c <= '9' then c as int + 4
    else if c == '+' then 62
    else 63
  }

  lemma {:induction false} SextetRoundTrip(v: nat)
    requires v < 64
    ensures SextetValue(Sextet(v)) == v && Sextet(v) != '='
  {
  }

  /** `(a >> 2) & 0x3F` */
  function Sext0(a: nat): (v: nat)
    requires a < 256
    ensures v < 64
  {
    a / 4
  }

  /** `((a << 4) | (b >> 4)) & 0x3F` */
  function Sext1(a: nat, b: nat): (v: nat)
    requires a < 256 && b < 256
    ensures v < 64
  {
    (a % 4) * 16 + b / 16
  }

  /** `((b << 2) | (c >> 6)) & 0x3F` */
  function Sext2(b: nat, c: nat): (v: nat)
    requires b < 256 && c < 256
    ensures v < 64
  {
    (b % 16) * 4 + c / 64
  }

  /** `c & 0x3F` */
  function Sext3(c: nat): (v: nat)
    requires c < 256
    ensures v < 64
  {
    c % 64
  }

  /** The four characters for the bytes `a b c`, of which the first `n` are real. */
  function Quad(a: nat, b: nat, c: nat, n: nat): (r: string)
    requires a < 256 && b < 256 && c < 256 && 1 <= n <= 3
    ensures |r| == 4
  {
    [Sextet(Sext0(a)), Sextet(Sext1(a, b)),
     if n > 1 then Sextet(Sext2(b, c)) else '=',
     if n > 2 then Sextet(Sext3(c)) else '=']
  }

  /** `i < bytes.length ? bytes[i] : 0` */
  function ByteAt(bytes: seq<bv8>, i: nat): (r: nat)
    ensures r < 256
  {
    if i < |bytes| then bytes[i] as int else 0
  }

  /** The number of real bytes in the group starting at `i`. */
  function GroupSize(bytes: seq<bv8>, i: nat): (n: nat)
    requires i < |bytes|
    ensures 1 <= n <= 3 && i + n <= |bytes|
    ensures n > 1 <==> i + 1 < |bytes|
    ensures n > 2 <==> i + 2 < |bytes|
  {
    if i + 2 < |bytes| then 3 else |bytes| - i
  }

  /** Base64 (section 4 of RFC 4648): each group of three bytes becomes four characters. */
  function Base64(bytes: seq<bv8>): string
    decreases |bytes|
  {
    if bytes == [] then []
    else
      var n := GroupSize(bytes, 0);
      Quad(ByteAt(bytes, 0), ByteAt(bytes, 1), ByteAt(bytes, 2), n) + Base64(bytes[n..])
  }

  /** The encoding of the bytes from `i` on starts with the group at `i`. */
  lemma {:induction false} Base64At(bytes: seq<bv8>, i: nat)
    requires i < |bytes|
    ensures Base64(bytes[i..]) ==
              Quad(ByteAt(bytes, i), ByteAt(bytes, i + 1), ByteAt(bytes, i + 2), GroupSize(bytes, i)) +
              Base64(bytes[i + GroupSize(bytes, i)..])
  {
    var t := bytes[i..];
    assert ByteAt(t, 0) == ByteAt(bytes, i) && ByteAt(t, 1) == ByteAt(bytes, i + 1) && ByteAt(t, 2) == ByteAt(bytes, i + 2);
    assert GroupSize(t, 0) == GroupSize(bytes, i);
    assert t[GroupSize(t, 0)..] == bytes[i + GroupSize(bytes, i)..];
  }

  /** The characters the loop pushes for the group at `i` are that group's quad. */
  lemma {:induction false} GroupChars(bytes: seq<bv8>, i: nat, c0: char, c1: char, c2: char, c3: char)
    requires i < |bytes|
    requires c0 == Sextet(Sext0(ByteAt(bytes, i)))
    requires c1 == Sextet(Sext1(ByteAt(bytes, i), ByteAt(bytes, i + 1)))
    requires c2 == if i + 1 < |bytes| then Sextet(Sext2(ByteAt(bytes, i + 1), ByteAt(bytes, i + 2))) else '='
    requires c3 == if i + 2 < |bytes| then Sextet(Sext3(ByteAt(bytes, i + 2))) else '='
    ensures Quad(ByteAt(bytes, i), ByteAt(bytes, i + 1), ByteAt(bytes, i + 2), GroupSize(bytes, i)) == [c0, c1, c2, c3]
  {
    var q := Quad(ByteAt(bytes, i), ByteAt(bytes, i + 1), ByteAt(bytes, i + 2), GroupSize(bytes, i));
    assert q[0] == c0 && q[1] == c1 && q[2] == c2 && q[3] == c3;
  }

  /** One turn of the encoder's loop: four characters pushed, three bytes consumed. */
  lemma {:induction false} Base64Step(bytes: seq<bv8>, i: nat, before: string, c0: char, c1: char, c2: char, c3: char)
    requires i < |bytes|
    requires before + Base64(bytes[i..]) == Base64(bytes)
    requires c0 == Sextet(Sext0(ByteAt(bytes, i)))
    requires c1 == Sextet(Sext1(ByteAt(bytes, i), ByteAt(bytes, i + 1)))
    requires c2 == if i + 1 < |bytes| then Sextet(Sext2(ByteAt(bytes, i + 1), ByteAt(bytes, i + 2))) else '='
    requires c3 == if i + 2 < |bytes| then Sextet(Sext3(ByteAt(bytes, i + 2))) else '='
    ensures i + 3 < |bytes| ==> before + [c0] + [c1] + [c2] + [c3] + Base64(bytes[i + 3..]) == Base64(bytes)
    ensures i + 3 >= |bytes| ==> before + [c0] + [c1] + [c2] + [c3] == Base64(bytes)
  {
    var n := GroupSize(bytes, i);
    var rest := Base64(bytes[i + n..]);
    Base64At(bytes, i);
    GroupChars(bytes, i, c0, c1, c2, c3);
    Regroup(before, [c0, c1, c2, c3], rest, Base64(bytes[i..]), Base64(bytes));
    Append4(before, c0, c1, c2, c3);
    if i + 3 >= |bytes| {
      assert bytes[i + n..] == [];
    }
  }

  lemma {:induction false} Regroup<T>(before: seq<T>, q: seq<T>, rest: seq<T>, tail: seq<T>, whole: seq<T>)
    requires before + tail == whole && tail == q + rest
    ensures before + q + rest == whole
  {
  }

  lemma {:induction false} Append4<T>(s: seq<T>, a: T, b: T, c: T, d: T)
    ensures s + [a] + [b] + [c] + [d] == s + [a, b, c, d]
  {
  }

  /** The hand-written encoder of `buildParams` and `arrayBufferToBase64`. */
  method Base64Encode(bytes: seq<bv8>) returns (result: string)
    ensures result == Base64(bytes)
  {
    result := [];
    var i := 0;
    while i < |bytes|
      invariant 0 <= i <= |bytes| + 2
      invariant i < |bytes| ==> result + Base64(bytes[i..]) == Base64(bytes)
      invariant i >= |bytes| ==> result == Base64(bytes)
    {
      var a := bytes[i] as int;
      var b := ByteAt(bytes, i + 1);
      var c := ByteAt(bytes, i + 2);
      ghost var before := result;
      result := result + [Sextet(Sext0(a))];
      result := result + [Sextet(Sext1(a, b))];
      result := result + [if i + 1 < |bytes| then Sextet(Sext2(b, c)) else '='];
      result := result + [if i + 2 < |bytes| then Sextet(Sext3(c)) else '='];
      Base64Step(bytes, i, before, Sextet(Sext0(a)), Sextet(Sext1(a, b)),
                 if i + 1 < |bytes| then Sextet(Sext2(b, c)) else '=', if i + 2 < |bytes| then Sextet(Sext3(c)) else '=');
      i := i + 3;
    }
  }

  /** The number of `=` an encoding of `n` bytes ends with. */
  function Pad(n: nat): (p: nat)
    ensures p <= 2
  {
    (3 - n % 3) % 3
  }

  /** A group of `n` bytes shifts the padding by nothing when more follow, else fixes it. */
  lemma {:induction false} PadStep(m: nat, n: nat)
    requires 1 <= n <= 3 && (n < 3 ==> m == 0)
    ensures n < 3 ==> Pad(m + n) == 3 - n
    ensures n == 3 && m == 0 ==> Pad(m + n) == 0
    ensures n == 3 ==> Pad(m + n) == Pad(m)
  {
  }

  lemma {:induction false} Base64Length(bytes: seq<bv8>)
    ensures |Base64(bytes)| == 4 * ((|bytes| + 2) / 3)
    decreases |bytes|
  {
    if bytes != [] {
      var n := GroupSize(bytes, 0);
      Base64Length(bytes[n..]);
      assert |Base64(bytes)| == 4 + |Base64(bytes[n..])|;
      var m := |bytes[n..]|;
      assert m + n == |bytes|;
      if n < 3 {
        assert m == 0 && (|bytes| + 2) / 3 == 1;
      } else {
        assert (m + 5) / 3 == (m + 2) / 3 + 1;
      }
    }
  }

  /** Where a quad holds `=`, and that its other characters are the alphabet's. */
  lemma {:induction false} QuadShape(a: nat, b: nat, c: nat, n: nat, k: nat)
    requires a < 256 && b < 256 && c < 256 && 1 <= n <= 3 && k < 4
    ensures Quad(a, b, c, n)[k] == '=' <==> k > n
    ensures Quad(a, b, c, n)[k] != '=' ==> Quad(a, b, c, n)[k] in Base64Chars
  {
    var q := Quad(a, b, c, n);
    if k == 0 {
      SextetIsAlphabet(Sext0(a));
      SextetRoundTrip(Sext0(a));
    } else if k == 1 {
      SextetIsAlphabet(Sext1(a, b));
      SextetRoundTrip(Sext1(a, b));
    } else if k == 2 && n > 1 {
      SextetIsAlphabet(Sext2(b, c));
      SextetRoundTrip(Sext2(b, c));
    } else if k == 3 && n > 2 {
      SextetIsAlphabet(Sext3(c));
      SextetRoundTrip(Sext3(c));
    }
  }

  /** `e` ends in exactly `pad` padding characters and is otherwise in the alphabet. */
  predicate PaddedShape(e: string, pad: nat) {
    pad <= |e| &&
    forall k :: 0 <= k < |e| ==> (e[k] == '=' <==> k >= |e| - pad) && (e[k] != '=' ==> e[k] in Base64Chars)
  }

  /** A quad without padding kept in front of a padded encoding keeps its shape. */
  lemma {:induction false} ShapeConcat(q: string, e: string, pad: nat)
    requires forall k :: 0 <= k < |q| ==> q[k] != '=' && q[k] in Base64Chars
    requires PaddedShape(e, pad)
    ensures PaddedShape(q + e, pad)
  {
    var r := q + e;
    forall k | 0 <= k < |r|
      ensures (r[k] == '=' <==> k >= |r| - pad) && (r[k] != '=' ==> r[k] in Base64Chars)
    {
      if k < |q| {
        assert r[k] == q[k];
      } else {
        assert r[k] == e[k - |q|];
      }
    }
  }

  /** A quad of a group of `n` bytes is padded in its last `3 - n` places. */
  lemma {:induction false} QuadPadded(a: nat, b: nat, c: nat, n: nat)
    requires a < 256 && b < 256 && c < 256 && 1 <= n <= 3
    ensures PaddedShape(Quad(a, b, c, n), 3 - n)
  {
    forall k | 0 <= k < 4 {
      QuadShape(a, b, c, n, k);
    }
  }

  /** The encoding is padded with `=` exactly in its last `Pad(|bytes|)` places. */
  lemma {:induction false} Base64Shape(bytes: seq<bv8>)
    ensures PaddedShape(Base64(bytes), Pad(|bytes|))
    decreases |bytes|
  {
    if bytes != [] {
      var n := GroupSize(bytes, 0);
      var rest := bytes[n..];
      var q := Quad(ByteAt(bytes, 0), ByteAt(bytes, 1), ByteAt(bytes, 2), n);
      assert Base64(bytes) == q + Base64(rest);
      QuadPadded(ByteAt(bytes, 0), ByteAt(bytes, 1), ByteAt(bytes, 2), n);
      PadStep(|rest|, n);
      assert |rest| + n == |bytes|;
      if n < 3 {
        assert Base64(rest) == [];
        assert Base64(bytes) == q;
      } else {
        Base64Shape(rest);
        ShapeConcat(q, Base64(rest), Pad(|rest|));
      }
    }
  }

  /**
   * The encoding is padded with `=` exactly in its last `Pad(|bytes|)` places, and every
   * other character belongs to the alphabet.
   */
  lemma {:induction false} Base64Padding(bytes: seq<bv8>, k: nat)
    requires k < |Base64(bytes)|
    ensures Base64(bytes)[k] == '=' <==> k >= |Base64(bytes)| - Pad(|bytes|)
    ensures Base64(bytes)[k] != '=' ==> Base64(bytes)[k] in Base64Chars
  {
    Base64Shape(bytes);
  }

  /** The byte a decoder rebuilds from the top of one sextet and the rest of the next. */
  function Unsext0(v0: nat, v1: nat): nat
    requires v0 < 64 && v1 < 64
  {
    (v0 * 4 + v1 / 16)
  }

  function Unsext1(v1: nat, v2: nat): nat
    requires v1 < 64 && v2 < 64
  {
    ((v1 % 16) * 16 + v2 / 4)
  }

  function Unsext2(v2: nat, v3: nat): nat
    requires v2 < 64 && v3 < 64
  {
    ((v2 % 4) * 64 + v3)
  }

  /**
   * `atob` on one group: the character codes a quad carries, one, two or three by its
   * padding.
   */
  function QuadBytes(s: string): (r: seq<nat>)
    requires |s| >= 4
    ensures 1 <= |r| <= 3
  {
    var v0 := SextetValue(s[0]);
    var v1 := SextetValue(s[1]);
    var v2 := SextetValue(s[2]);
    var v3 := SextetValue(s[3]);
    if s[2] == '=' then [Unsext0(v0, v1)]
    else if s[3] == '=' then [Unsext0(v0, v1), Unsext1(v1, v2)]
    else [Unsext0(v0, v1), Unsext1(v1, v2), Unsext2(v2, v3)]
  }

  /** Base64 decoding, as the receiving server applies it to `q`. */
  function Base64Decode(s: string): seq<nat>
    decreases |s|
  {
    if |s| < 4 then [] else QuadBytes(s) + Base64Decode(s[4..])
  }

  /** Each sextet carries its share of the three bytes back. */
  lemma {:induction false} SextetsCarry(a: nat, b: nat, c: nat)
    requires a < 256 && b < 256 && c < 256
    ensures Unsext0(Sext0(a), Sext1(a, b)) == a
    ensures Unsext1(Sext1(a, b), Sext2(b, c)) == b
    ensures Unsext2(Sext2(b, c), Sext3(c)) == c
  {
  }

  lemma {:induction false} QuadBytesOf(a: nat, b: nat, c: nat, n: nat)
    requires a < 256 && b < 256 && c < 256 && 1 <= n <= 3
    ensures QuadBytes(Quad(a, b, c, n)) == [a, b, c][..n]
  {
    var q := Quad(a, b, c, n);
    SextetsCarry(a, b, c);
    SextetRoundTrip(Sext0(a));
    SextetRoundTrip(Sext1(a, b));
    SextetRoundTrip(Sext2(b, c));
    SextetRoundTrip(Sext3(c));
    assert SextetValue(q[0]) == Sext0(a) && SextetValue(q[1]) == Sext1(a, b);
  }

  /** Only the first four characters decide a group. */
  lemma {:induction false} QuadBytesPrefix(q: string, rest: string)
    requires |q| == 4
    ensures QuadBytes(q + rest) == QuadBytes(q)
  {
    var s := q + rest;
    assert s[0] == q[0] && s[1] == q[1] && s[2] == q[2] && s[3] == q[3];
  }

  lemma {:induction false} QuadDecodes(a: nat, b: nat, c: nat, n: nat, rest: string)
    requires a < 256 && b < 256 && c < 256 && 1 <= n <= 3
    ensures Base64Decode(Quad(a, b, c, n) + rest) == [a, b, c][..n] + Base64Decode(rest)
  {
    var q := Quad(a, b, c, n);
    var s := q + rest;
    assert s[4..] == rest;
    QuadBytesPrefix(q, rest);
    QuadBytesOf(a, b, c, n);
  }

  /** The bytes as character codes, as `String.fromCharCode` reads them. */
  function Codes(bytes: seq<bv8>): (r: seq<nat>)
    ensures |r| == |bytes| && forall i :: 0 <= i < |bytes| ==> r[i] == bytes[i] as int
  {
    seq(|bytes|, i requires 0 <= i < |bytes| => bytes[i] as int)
  }

  /** The codes of the first group, then those of the rest. */
  lemma {:induction false} CodesFront(bytes: seq<bv8>)
    requires bytes != []
    ensures Codes(bytes) ==
              [ByteAt(bytes, 0), ByteAt(bytes, 1), ByteAt(bytes, 2)][..GroupSize(bytes, 0)] +
              Codes(bytes[GroupSize(bytes, 0)..])
  {
    var n := GroupSize(bytes, 0);
    var r := [ByteAt(bytes, 0), ByteAt(bytes, 1), ByteAt(bytes, 2)][..n] + Codes(bytes[n..]);
    forall j | 0 <= j < |bytes|
      ensures r[j] == Codes(bytes)[j]
    {
      if j >= n {
        assert r[j] == Codes(bytes[n..])[j - n];
      }
    }
  }

  /** Decoding undoes the encoder: the server reads back the bytes that were sent. */
  lemma {:induction false} Base64RoundTrip(bytes: seq<bv8>)
    ensures Base64Decode(Base64(bytes)) == Codes(bytes)
    decreases |bytes|
  {
    if bytes != [] {
      var n := GroupSize(bytes, 0);
      var a, b, c := ByteAt(bytes, 0), ByteAt(bytes, 1), ByteAt(bytes, 2);
      Base64RoundTrip(bytes[n..]);
      QuadDecodes(a, b, c, n, Base64(bytes[n..]));
      assert Base64(bytes) == Quad(a, b, c, n) + Base64(bytes[n..]);
      CodesFront(bytes);
    }
  }

  /* ---- buildParams: the lyric query ---- */

  const UserField: string := "user=12345,web,web,web"
  const RequesterField: string := "requester=localhost"
  const ReqField: string := "req=1"
  const RidKey: string := "rid=MUSIC_"
  const LyricxField: string := "lrcx=1"

  /** The query text of `buildParams` before it is encoded. */
  function ParamsText(id: string, isGetLyricx: bool): string {
    UserField + "&" + (RequesterField + "&" + (ReqField + "&" + (RidKey + id + (if isGetLyricx then "&" + LyricxField else ""))))
  }

  /** None of the fixed fields holds `&`. */
  lemma {:induction false} FieldsLackAmpersand()
    ensures '&' !in UserField && '&' !in RequesterField && '&' !in ReqField && '&' !in RidKey
  {
  }

  /**
   * Read as a query string, the text holds the three fixed fields, then `rid=MUSIC_<id>`,
   * then `lrcx=1` exactly when the lyricx variant was asked for (an id without `&`).
   */
  /** The `rid` field and, for the lyricx variant, the `lrcx` field after it. */
  lemma {:induction false} RidFields(id: string, isGetLyricx: bool)
    requires '&' !in id
    ensures Split(RidKey + id + (if isGetLyricx then "&" + LyricxField else ""), '&') ==
              [RidKey + id] + (if isGetLyricx then [LyricxField] else [])
  {
    var rid := RidKey + id;
    FieldsLackAmpersand();
    NotInConcat(RidKey, id, '&');
    if isGetLyricx {
      SplitTwo(rid, '&', LyricxField);
      assert rid + ("&" + LyricxField) == rid + ['&'] + LyricxField;
    } else {
      SplitNone(rid, '&');
      assert rid + "" == rid;
    }
  }

  lemma {:induction false} ParamsFields(id: string, isGetLyricx: bool)
    requires '&' !in id
    ensures Split(ParamsText(id, isGetLyricx), '&') ==
              [UserField, RequesterField, ReqField, RidKey + id] + (if isGetLyricx then [LyricxField] else [])
  {
    var tail := RidKey + id + (if isGetLyricx then "&" + LyricxField else "");
    RidFields(id, isGetLyricx);
    FieldsLackAmpersand();
    SplitCons(ReqField, '&', tail);
    SplitCons(RequesterField, '&', ReqField + "&" + tail);
    SplitCons(UserField, '&', RequesterField + "&" + (ReqField + "&" + tail));
  }

  /**
   * `buildParams`: the query text in UTF-8, XOR-ed with the key, in base64 (the
   * hand-written encoder; `btoa` and `Buffer` produce the same text).
   */
  method BuildParams(id: string, isGetLyricx: bool) returns (q: string)
    ensures q == Base64(Obfuscated(Utf8(ParamsText(id, isGetLyricx))))
  {
    var params := UserField + "&" + (RequesterField + "&" + (ReqField + "&" + (RidKey + id)));
    if isGetLyricx {
      params := params + "&" + LyricxField;
    }
    assert params == ParamsText(id, isGetLyricx);
    var paramsBytes := Utf8(params);
    var output := Obfuscate(paramsBytes);
    q := Base64Encode(output[..]);
  }

  /** The service undoes both steps: base64 back to bytes, XOR again, and it has the UTF-8 text. */
  lemma {:induction false} ParamsRecovered(id: string, isGetLyricx: bool)
    ensures Base64Decode(Base64(Obfuscated(Utf8(ParamsText(id, isGetLyricx))))) ==
              Codes(Obfuscated(Utf8(ParamsText(id, isGetLyricx))))
    ensures Obfuscated(Obfuscated(Utf8(ParamsText(id, isGetLyricx)))) == Utf8(ParamsText(id, isGetLyricx))
  {
    Base64RoundTrip(Obfuscated(Utf8(ParamsText(id, isGetLyricx))));
    ObfuscatedInvolution(Utf8(ParamsText(id, isGetLyricx)));
  }

  /* ---- arrayBufferToBase64 ---- */

  /** What `arrayBufferToBase64` may be handed; anything else is `Unsupported`. */
  datatype Binary = ArrayBuffer(buffer: seq<bv8>) | Uint8Array(view: seq<bv8>) | Text(text: string) | Unsupported

  /** `arrayBufferToBase64`: the bytes in base64, or a thrown "Unsupported data type". */
  method ArrayBufferToBase64(buffer: Binary) returns (r: Option<string>)
    ensures r.None? <==> buffer.Unsupported?
    ensures buffer.ArrayBuffer? ==> r == Some(Base64(buffer.buffer))
    ensures buffer.Uint8Array? ==> r == Some(Base64(buffer.view))
    ensures buffer.Text? ==> r == Some(Base64(Utf8(buffer.text)))
  {
    var uint8Array: seq<bv8>;
    match buffer {
      case ArrayBuffer(b) => uint8Array := b;
      case Uint8Array(v) => uint8Array := v;
      case Text(s) => uint8Array := Utf8(s);
      case Unsupported => return None;
    }
    var s := Base64Encode(uint8Array);
    r := Some(s);
  }

  /* ---- getMediaSource ---- */

  const MusicPrefix: string := "MUSIC_"

  /** The id sent: a string holding `MUSIC_` loses its first occurrence; other ids go as they are. */
  function SongId(id: Val): (r: Val)
    ensures !id.Str? ==> r == id
    ensures id.Str? && !Contains(id.s, MusicPrefix) ==> r == id
    ensures id.Str? && Contains(id.s, MusicPrefix) ==> r.Str? && |r.s| == |id.s| - |MusicPrefix|
  {
    if id.Str? && Contains(id.s, MusicPrefix) then Str(ReplaceFirst(id.s, MusicPrefix, "")) else id
  }

  /** A catalogue id `MUSIC_<n>` is sent as `<n>`. */
  lemma {:induction false} SongIdStripsPrefix(n: string)
    ensures SongId(Str(MusicPrefix + n)) == Str(n)
  {
    var s := MusicPrefix + n;
    assert s[..|MusicPrefix|] == MusicPrefix;
    assert OccursAt(s, MusicPrefix, 0);
    ReplaceFirstPrefix(s, MusicPrefix);
    assert s[|MusicPrefix|..] == n;
  }

  /**
   * The tag asked for after the downgrade: an empty table, or one listing the tag, keeps
   * it; otherwise flac if listed, else 320k if listed, else the table's first key.
   */
  function Downgraded(q: Qualities, quality: string): (r: string)
    ensures |q| == 0 || Has(q, quality) ==> r == quality
    ensures |q| > 0 ==> Has(q, r)
    ensures |q| > 0 && !Has(q, quality) ==>
              (Has(q, TFlac) ==> r == TFlac) &&
              (!Has(q, TFlac) && Has(q, T320) ==> r == T320) &&
              (!Has(q, TFlac) && !Has(q, T320) ==> r == Keys(q)[0])
  {
    if |q| > 0 && !Has(q, quality) then
      if Has(q, TFlac) then TFlac
      else if Has(q, T320) then T320
      else
        assert Has(q, q[0].0);
        Keys(q)[0]
    else quality
  }

  /** `qualityMap[quality] || '320k'` */
  function QualityParam(tag: string): (r: string)
    ensures r in {T128, T320, TFlac}
    ensures tag in {T128, T320, TFlac} ==> r == tag
    ensures tag !in {T128, T320, TFlac} ==> r == T320
  {
    if tag == T128 || tag == T320 || tag == TFlac then tag else T320
  }

  /** The track fields `getMediaSource` reads; an absent `qualities` is the empty table. */
  datatype Track = Track(id: Val, qualities: Qualities)

  /**
   * `getMediaSource`: the request always goes out; only `code === 200` with a URL
   * resolves, with the `ekey` when the reply carries a truthy one; any other reply and a
   * failed request settle as null, never as a throw.
   */
  function GetMediaSource(t: Track, quality: string, answer: Exchange): (a: Attempt)
    ensures a.sent == Some(Request("kw", SongId(t.id), QualityParam(Downgraded(t.qualities, quality))))
    ensures a.outcome != Raised
    ensures a.outcome.Resolved? <==> answer.Answered? && Succeeded(answer.reply)
    ensures a.outcome.Resolved? ==> a.outcome.media.url == answer.reply.url
    ensures a.outcome.Resolved? ==> (a.outcome.media.ekey.Some? <==> Truthy(answer.reply.ekey))
    ensures a.outcome.Resolved? && a.outcome.media.ekey.Some? ==> a.outcome.media.ekey.value == answer.reply.ekey
  {
    var req := Request("kw", SongId(t.id), QualityParam(Downgraded(t.qualities, quality)));
    match answer
    case Threw => Attempt(Some(req), NullResult)
    case Answered(r) =>
      if Succeeded(r) then
        Attempt(Some(req), Resolved(Media(r.url, if Truthy(r.ekey) then Some(r.ekey) else None)))
      else Attempt(Some(req), NullResult)
  }

  /** A track with a non-empty table is always asked for in a tag the table lists and the service knows. */
  lemma {:induction false} DowngradeListed(q: Qualities, quality: string)
    requires |q| > 0
    requires forall k :: k in Keys(q) ==> k in {T128, T320, TFlac}
    ensures Has(q, Downgraded(q, quality))
    ensures QualityParam(Downgraded(q, quality)) == Downgraded(q, quality)
  {
    var r := Downgraded(q, quality);
    assert r in Keys(q);
  }

  /* ---- formatMusicItem and getMusicInfo ---- */

  /** `formatMusicItem`'s table: the parsed `N_MINFO`, or the three placeholders when that is empty. */
  function SearchQualities(nMInfo: Option<string>): (q: Qualities)
    ensures |KuWoQualities(nMInfo)| > 0 ==> q == KuWoQualities(nMInfo)
    ensures |KuWoQualities(nMInfo)| == 0 ==> q == Basic3
    ensures |q| > 0
  {
    var parsed := KuWoQualities(nMInfo);
    if |parsed| == 0 then Basic3 else parsed
  }

  /** `MUSICRID.replace("MUSIC_", "")` */
  function MusicId(musicRid: string): (r: string)
    ensures !Contains(musicRid, MusicPrefix) ==> r == musicRid
    ensures Contains(musicRid, MusicPrefix) ==> |r| == |musicRid| - |MusicPrefix|
  {
    ReplaceFirst(musicRid, MusicPrefix, "")
  }

  /** A search hit's id is the catalogue number, and `getMediaSource` sends it unchanged. */
  lemma {:induction false} MusicIdStripsPrefix(n: string)
    requires !Contains(n, MusicPrefix)
    ensures MusicId(MusicPrefix + n) == n
    ensures SongId(Str(MusicId(MusicPrefix + n))) == Str(n)
  {
    SongIdStripsPrefix(n);
  }

  /**
   * `getQualityByMusicId`: the parsed `N_MINFO` of the first search hit; no hit, no
   * `N_MINFO` or a failed search give `{}`. `hits` is `None` when the request failed.
   */
  function QualityByMusicId(hits: Option<seq<Option<string>>>): (q: Qualities)
    ensures hits.None? || |hits.value| == 0 ==> q == []
    ensures hits.Some? && |hits.value| > 0 ==> q == KuWoQualities(hits.value[0])
  {
    if hits.Some? && |hits.value| > 0 then KuWoQualities(hits.value[0]) else []
  }

  /** `getMusicInfo`'s table: the search's, or `{128k, 320k}` with flac iff the song is lossless. */
  function MusicInfoQualities(found: Qualities, hasLossless: Val): (q: Qualities)
    ensures |found| > 0 ==> q == found
    ensures |found| == 0 ==> Keys(q) == [T128, T320] + OptKey(Truthy(hasLossless), TFlac)
    ensures |found| == 0 ==> forall i :: 0 <= i < |q| ==> q[i].1 == Empty
  {
    if |found| > 0 then found else [(T128, Empty), (T320, Empty)] + Opt(Truthy(hasLossless), TFlac, Empty)
  }

  /** The song-info answer: a failed request, no `songinfo`, or the `hasLossless` flag of one. */
  datatype SongInfoAnswer = InfoThrew | InfoMissing | SongInfo(hasLossless: Val)

  datatype MusicInfo = MusicInfo(id: Val, qualities: Qualities)

  /** A call of `getMusicInfo`: whether any request went out, and the result (`None` is null). */
  datatype InfoAttempt = InfoAttempt(requested: bool, result: Option<MusicInfo>)

  /**
   * `getMusicInfo`: `id || rid` must be truthy, or null comes back with no request; a
   * failed or empty song-info answer is null too.
   */
  function GetMusicInfo(id: Val, rid: Val, info: SongInfoAnswer, hits: Option<seq<Option<string>>>): (a: InfoAttempt)
    ensures a.requested <==> Truthy(Or(id, rid))
    ensures a.result.Some? <==> Truthy(Or(id, rid)) && info.SongInfo?
    ensures a.result.Some? ==> a.result.value.id == Or(id, rid)
    ensures a.result.Some? ==> a.result.value.qualities == MusicInfoQualities(QualityByMusicId(hits), info.hasLossless)
  {
    var r := Or(id, rid);
    if !Truthy(r) then InfoAttempt(false, None)
    else
      match info
      case SongInfo(hasLossless) =>
        InfoAttempt(true, Some(MusicInfo(r, MusicInfoQualities(QualityByMusicId(hits), hasLossless))))
      case _ => InfoAttempt(true, None)
  }
}
