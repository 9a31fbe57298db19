/**
 * The Qishui plugin (plugins/qishui.js): the VIP flag, the Douyin cover URL, the fixed
 * quality table every parsed track carries, the quality-to-level map and the decision
 * chain of `getMusicPlaybackSource`, the track filter of `importMusicPlaylist`, and the
 * paging flags and the `parseInt` of a tag id.
 */
module Qishui {
  import opened Wrappers
  import opened JsString
  import opened JsObject
  import opened Quality
  import opened Vendor

  const PageSize: nat := 20

  // ---------------------------------------------------------------- helpers

  /** `isVipOnly === true ? 1 : 0`: strict equality, so a truthy non-boolean gives 0. */
  function GetVipFee(isVipOnly: Val): (r: int)
    ensures r == 1 <==> isVipOnly == Bool(true)
    ensures r == 0 <==> isVipOnly != Bool(true)
  {
    if isVipOnly == Bool(true) then 1 else 0
  }

  const DouyinImageBase: string := "https://p3-luna" + ".douyinpic.com/img/"

  /** The size a cover is asked for when the caller gives none. */
  const DefaultSize: string := "960:960"

  /**
   * `buildDouyinImageUrl(uri, templatePrefix, size = '960:960')`; an `undefined` size
   * takes the default, as a JavaScript default parameter does.
   */
  function BuildDouyinImageUrl(uri: Prim, templatePrefix: Prim, size: Prim): (r: string)
    ensures StartsWith(r, DouyinImageBase) && EndsWith(r, ".png")
  {
    var sz := if size == Undefined then DefaultSize else Text(size);
    DouyinImageBase + Text(uri) + "~" + Text(templatePrefix) + "-resize:" + sz + ".png"
  }

  /** None of the fixed pieces of the cover URL holds a `~`. */
  lemma {:induction false} FixedPiecesTildeFree()
    ensures '~' !in DouyinImageBase && '~' !in "-resize:" && '~' !in ".png" && '~' !in DefaultSize
  {
    var p1 := "https://p3-luna";
    var p2 := ".douyinpic.com/img/";
    assert forall i :: 0 <= i < |p1| ==> p1[i] != '~';
    assert forall i :: 0 <= i < |p2| ==> p2[i] != '~';
    assert DouyinImageBase == p1 + p2;
  }

  /**
   * The cover URL comes apart at its one `~` into the base with the image URI and the
   * template with the size, and an absent size reads as "960:960".
   */
  lemma {:induction false} DouyinImageUrlParts(uri: Prim, templatePrefix: Prim, size: Prim)
    requires '~' !in Text(uri) && '~' !in Text(templatePrefix) && '~' !in Text(size)
    ensures var sz := if size == Undefined then DefaultSize else Text(size);
            Split(BuildDouyinImageUrl(uri, templatePrefix, size), '~') ==
              [DouyinImageBase + Text(uri), Text(templatePrefix) + "-resize:" + sz + ".png"]
    ensures BuildDouyinImageUrl(uri, templatePrefix, Undefined) == BuildDouyinImageUrl(uri, templatePrefix, Str(DefaultSize))
  {
    var sz := if size == Undefined then DefaultSize else Text(size);
    var a := DouyinImageBase + Text(uri);
    var b := Text(templatePrefix) + "-resize:" + sz + ".png";
    UrlPieces(Text(uri), Text(templatePrefix), sz);
    SplitTwo(a, '~', b);
  }

  /** The cover URL is its two `~`-free sides around one `~`. */
  lemma {:induction false} UrlPieces(uri: string, prefix: string, sz: string)
    requires '~' !in uri && '~' !in prefix && '~' !in sz
    ensures '~' !in DouyinImageBase + uri && '~' !in prefix + "-resize:" + sz + ".png"
    ensures DouyinImageBase + uri + "~" + prefix + "-resize:" + sz + ".png" ==
              (DouyinImageBase + uri) + ['~'] + (prefix + "-resize:" + sz + ".png")
  {
    FixedPiecesTildeFree();
  }

  // ---------------------------------------------------------------- parsed tracks

  /** `{128k: {bitrate: 128000}, 320k: {bitrate: 320000}, flac: {bitrate: 1411000}}` */
  const FixedQualities: Qualities := [(T128, RateOnly(128000)), (T320, RateOnly(320000)), (TFlac, RateOnly(1411000))]

  /** The fields of a formatted track this model follows. */
  datatype MusicItem = MusicItem(id: Prim, artwork: Val, qualities: Qualities, fee: int)

  /** A search hit: `item_id`, `cover_url` and `qishui_label_info.only_vip_playable`. */
  datatype SearchItem = SearchItem(itemId: Prim, coverUrl: Val, onlyVipPlayable: Val)

  /** `album.url_cover`: the image URI and its template prefix. */
  datatype Cover = Cover(uri: Prim, templatePrefix: Prim)

  /** A track object: `id`, `album.url_cover` and `label_info.only_vip_playable`. */
  datatype TrackRecord = TrackRecord(id: Prim, cover: Cover, onlyVipPlayable: Val)

  /** `parseSearchResultItem` */
  function ParseSearchResultItem(item: SearchItem): (r: MusicItem)
    ensures r.id == item.itemId && r.artwork == item.coverUrl
    ensures Keys(r.qualities) == [T128, T320, TFlac]
    ensures r.fee == 1 <==> item.onlyVipPlayable == Bool(true)
  {
    FixedQualitiesTags(T128);
    MusicItem(item.itemId, item.coverUrl, FixedQualities, GetVipFee(item.onlyVipPlayable))
  }

  /**
   * `parseTrackItem`; `parseRankTrackItem` and `parsePlaylistMediaResource` apply the same
   * body to `rankItem.track` and to `entity.track_wrapper.track`.
   */
  function ParseTrackItem(track: TrackRecord): (r: MusicItem)
    ensures r.id == track.id
    ensures Keys(r.qualities) == [T128, T320, TFlac]
    ensures r.fee == 1 <==> track.onlyVipPlayable == Bool(true)
  {
    FixedQualitiesTags(T128);
    MusicItem(track.id, Str(BuildDouyinImageUrl(track.cover.uri, track.cover.templatePrefix, Undefined)),
              FixedQualities, GetVipFee(track.onlyVipPlayable))
  }

  /** The fixed table lists exactly 128k, 320k and flac, in that order. */
  lemma {:induction false} FixedQualitiesTags(tag: string)
    ensures Keys(FixedQualities) == [T128, T320, TFlac]
    ensures Has(FixedQualities, tag) <==> tag == T128 || tag == T320 || tag == TFlac
  {
    assert Keys(FixedQualities) == [T128, T320, TFlac];
  }

  /**
   * Whatever the record, a parsed track offers exactly 128k, 320k and flac, and is a VIP
   * track exactly when `only_vip_playable` is `true`.
   */
  lemma {:induction false} ParsedTracksFixed(item: SearchItem, track: TrackRecord, tag: string)
    ensures Has(ParseSearchResultItem(item).qualities, tag) <==> tag == T128 || tag == T320 || tag == TFlac
    ensures Has(ParseTrackItem(track).qualities, tag) <==> tag == T128 || tag == T320 || tag == TFlac
    ensures ParseSearchResultItem(item).fee == 1 <==> item.onlyVipPlayable == Bool(true)
    ensures ParseTrackItem(track).fee == 1 <==> track.onlyVipPlayable == Bool(true)
  {
    FixedQualitiesTags(tag);
  }

  // ---------------------------------------------------------------- getMusicPlaybackSource

  /** `qualityToLevel[quality] || "standard"` */
  function QualityToLevel(quality: string): (level: string)
    ensures quality == T128 ==> level == "standard"
    ensures quality == T320 ==> level == "high"
    ensures quality == TFlac ==> level == "lossless"
    ensures quality != T128 && quality != T320 && quality != TFlac ==> level == "standard"
  {
    if quality == T128 then "standard"
    else if quality == T320 then "high"
    else if quality == TFlac then "lossless"
    else "standard"
  }

  /** The level read back as the tag it came from; "standard" reads as 128k. */
  function LevelTag(level: string): string {
    if level == "high" then T320 else if level == "lossless" then TFlac else T128
  }

  /**
   * Every level is one of three; each of the three fixed tags has its own level, and
   * any tag the table does not list is asked for at the 128k level.
   */
  lemma {:induction false} LevelsOfTags(quality: string)
    ensures QualityToLevel(quality) in {"standard", "high", "lossless"}
    ensures Has(FixedQualities, quality) ==> LevelTag(QualityToLevel(quality)) == quality
    ensures !Has(FixedQualities, quality) ==> QualityToLevel(quality) == QualityToLevel(T128)
  {
    FixedQualitiesTags(quality);
  }

  /** The first entry of the song reply: `url`, `ekey`. */
  datatype SongData = SongData(url: Val, ekey: Val)

  /** The song request threw, or answered with `data.data[0]` (None when there is none). */
  datatype SongAnswer = SongThrew | SongReply(first: Option<SongData>)

  /** The song request: `{act: "song", id, level}`. */
  datatype SongRequest = SongRequest(id: Prim, level: string)

  /** The proxy request: the song's URL and its key. */
  datatype ProxyRequest = ProxyRequest(url: Val, key: Val)

  /** What `getMusicPlaybackSource` resolves with. */
  datatype Playback = NoSource | Direct(url: Val) | NeedDecrypt(decryptKey: Val)

  /** A call of `getMusicPlaybackSource`: the requests it sent and its result. */
  datatype PlaybackAttempt = PlaybackAttempt(song: Option<SongRequest>, proxy: Option<ProxyRequest>, result: Playback)

  /**
   * `getMusicPlaybackSource(musicItem, quality = "128k")`: no id gives `null` without a
   * request; a failed song request gives the URL ""; no song URL gives `null`; a URL
   * without a key is returned as it is; a keyed URL goes through the proxy, whose URL
   * is returned on `code === 200`, and otherwise (or when it throws) the key is handed
   * back for local decryption.
   */
  function GetMusicPlaybackSource(id: Prim, quality: Option<string>, song: SongAnswer, proxy: Exchange): (a: PlaybackAttempt)
    ensures a.song.None? <==> !Truthy(id)
    ensures a.song.Some? ==> a.song.value == SongRequest(id, QualityToLevel(quality.GetOr(T128)))
    ensures a.proxy.Some? <==> a.song.Some? && song.SongReply? && song.first.Some? &&
                                Truthy(song.first.value.url) && Truthy(song.first.value.ekey)
    ensures a.proxy.Some? ==> a.proxy.value == ProxyRequest(song.first.value.url, song.first.value.ekey)
    ensures a.result.NoSource? <==> !Truthy(id) || (song.SongReply? && (song.first.None? || !Truthy(song.first.value.url)))
    ensures a.result.NeedDecrypt? <==> a.proxy.Some? && !(proxy.Answered? && Succeeded(proxy.reply))
    ensures a.result.NeedDecrypt? ==> a.result.decryptKey == song.first.value.ekey
    ensures a.song.Some? && song.SongThrew? ==> a.result == Direct(Str(""))
  {
    if !Truthy(id) then PlaybackAttempt(None, None, NoSource)
    else
      var req := SongRequest(id, QualityToLevel(quality.GetOr(T128)));
      match song
      case SongThrew => PlaybackAttempt(Some(req), None, Direct(Str("")))
      case SongReply(first) =>
        if first.None? || !Truthy(first.value.url) then PlaybackAttempt(Some(req), None, NoSource)
        else if !Truthy(first.value.ekey) then PlaybackAttempt(Some(req), None, Direct(first.value.url))
        else
          var preq := ProxyRequest(first.value.url, first.value.ekey);
          if proxy.Answered? && Succeeded(proxy.reply) then PlaybackAttempt(Some(req), Some(preq), Direct(proxy.reply.url))
          else PlaybackAttempt(Some(req), Some(preq), NeedDecrypt(first.value.ekey))
  }

  /**
   * Where a played URL comes from: the song reply itself when it has no key, the proxy
   * when it succeeded, and "" only when the song request failed.
   */
  lemma {:induction false} PlaybackUrlOrigin(id: Prim, quality: Option<string>, song: SongAnswer, proxy: Exchange)
    ensures var a := GetMusicPlaybackSource(id, quality, song, proxy);
            a.result.Direct? ==>
              (song.SongThrew? && a.result.url == Str("")) ||
              (a.proxy.None? && song.SongReply? && a.result.url == song.first.value.url && !Truthy(song.first.value.ekey)) ||
              (a.proxy.Some? && proxy.Answered? && Succeeded(proxy.reply) && a.result.url == proxy.reply.url)
    ensures var a := GetMusicPlaybackSource(id, quality, song, proxy);
            a.result.Direct? && a.result.url != Str("") ==> Truthy(a.result.url)
  {
  }

  // ---------------------------------------------------------------- importMusicPlaylist

  /** `entity`, with its `track_wrapper.track` when there is one. */
  datatype Entity = Entity(trackWrapper: Option<TrackRecord>)

  /** One media resource of a playlist: its `type` and its `entity`. */
  datatype Resource = Resource(kind: Val, entity: Option<Entity>)

  /** `r.type === "track" && r.entity && r.entity.track_wrapper` */
  predicate IsTrack(r: Resource) {
    r.kind == Str("track") && r.entity.Some? && r.entity.value.trackWrapper.Some?
  }

  function ImportEntry(r: Resource): Option<MusicItem> {
    if IsTrack(r) then Some(ParseTrackItem(r.entity.value.trackWrapper.value)) else None
  }

  /** `media_resources.filter(isTrack).map(parsePlaylistMediaResource)` */
  function ImportedTracks(resources: seq<Resource>): (r: seq<MusicItem>)
    ensures |r| <= |resources|
  {
    FilterMap(resources, ImportEntry)
  }

  /**
   * A track is imported exactly when some resource is a track that parses to it; with
   * no track resources nothing is imported, and with only tracks each resource gives
   * its track in order.
   */
  lemma {:induction false} ImportedExactlyTracks(resources: seq<Resource>, m: MusicItem)
    ensures m in ImportedTracks(resources) <==>
              exists i :: 0 <= i < |resources| && IsTrack(resources[i]) && ParseTrackItem(resources[i].entity.value.trackWrapper.value) == m
    ensures (forall i :: 0 <= i < |resources| ==> !IsTrack(resources[i])) ==> ImportedTracks(resources) == []
    ensures (forall i :: 0 <= i < |resources| ==> IsTrack(resources[i])) ==>
              |ImportedTracks(resources)| == |resources| &&
              forall i :: 0 <= i < |resources| ==> ImportedTracks(resources)[i] == ParseTrackItem(resources[i].entity.value.trackWrapper.value)
  {
    FilterMapIn(resources, ImportEntry, m);
    if forall i :: 0 <= i < |resources| ==> !IsTrack(resources[i]) {
      FilterMapNone(resources, ImportEntry);
    }
    if forall i :: 0 <= i < |resources| ==> IsTrack(resources[i]) {
      FilterMapAll(resources, ImportEntry);
    }
  }

  // ---------------------------------------------------------------- paging

  /** `list.length === 0 || list.length < PAGE_SIZE` in `searchMusic` */
  predicate SearchIsEnd(length: nat) {
    length == 0 || length < PageSize
  }

  /** The empty test adds nothing: a page ends the search exactly when it is short. */
  lemma {:induction false} SearchIsEndShort(length: nat)
    ensures SearchIsEnd(length) <==> length < PageSize
  {
  }

  /** `page * PAGE_SIZE > count` in `getMusicComments`; a missing count compares false. */
  predicate CommentsIsEnd(page: int, count: Option<int>) {
    count.Some? && page * PageSize as int > count.value
  }

  /** For a count of `c`, exactly the pages after `c / 20` are the end. */
  lemma {:induction false} CommentsEndPage(page: int, c: nat)
    ensures CommentsIsEnd(page, Some(c)) <==> page > c / PageSize
    ensures !CommentsIsEnd(page, None)
  {
    var q := c / PageSize;
    assert c == q * PageSize as int + c % PageSize;
    if page > q {
      assert page * PageSize as int >= (q + 1) * PageSize as int;
    } else {
      assert page * PageSize as int <= q * PageSize as int;
    }
  }

  /** The longest run of decimal digits at the start of `s`. */
  function DigitPrefix(s: string): (r: string)
    ensures AllDigits(r) && |r| <= |s| && r == s[..|r|]
    ensures |r| < |s| ==> !IsDigit(s[|r|])
  {
    if s != [] && IsDigit(s[0]) then [s[0]] + DigitPrefix(s[1..]) else []
  }

  /**
   * `parseInt(s, 10)`: leading white space skipped, an optional sign, then the longest run
   * of digits; None (NaN) when there is no digit.
   */
  function ParseInt(s: string): (r: Option<int>)
    ensures r.None? <==> DigitPrefix(if TrimStart(s) != [] && (TrimStart(s)[0] == '-' || TrimStart(s)[0] == '+') then TrimStart(s)[1..] else TrimStart(s)) == []
  {
    var t := TrimStart(s);
    var negative := t != [] && t[0] == '-';
    var body := if t != [] && (t[0] == '-' || t[0] == '+') then t[1..] else t;
    var digits := DigitPrefix(body);
    if digits == [] then None
    else
      var v: int := DigitsValue(digits);
      Some(if negative then -v else v)
  }

  /** `Number.isNaN(parseInt(tag.id, 10)) ? 0 : parseInt(tag.id, 10)` */
  function SubChannelId(tagId: Prim): int {
    ParseInt(Text(tagId)).GetOr(0)
  }

  /** Digits followed by anything else parse to the digits' value. */
  lemma {:induction false} ParseIntDigits(d: string, rest: string)
    requires d != [] && AllDigits(d)
    requires rest == [] || !IsDigit(rest[0])
    ensures ParseInt(d + rest) == Some(DigitsValue(d))
  {
    var s := d + rest;
    assert !IsWhiteSpace(s[0]) && s[0] != '-' && s[0] != '+';
    DigitPrefixOf(d, rest);
  }

  lemma {:induction false} DigitPrefixOf(d: string, rest: string)
    requires AllDigits(d)
    requires rest == [] || !IsDigit(rest[0])
    ensures DigitPrefix(d + rest) == d
  {
    if d != [] {
      assert (d + rest)[1..] == d[1..] + rest;
      DigitPrefixOf(d[1..], rest);
    } else {
      assert d + rest == rest;
    }
  }

  /** A minus sign before digits negates their value. */
  lemma {:induction false} ParseIntNegative(d: string)
    requires d != [] && AllDigits(d)
    ensures ParseInt("-" + d) == Some(-(DigitsValue(d) as int))
  {
    var s := "-" + d;
    assert !IsWhiteSpace(s[0]) && s[1..] == d;
    assert TrimStart(s) == s;
    assert d + [] == d;
    DigitPrefixOf(d, []);
  }

  /** A numeric tag id is its own sub-channel. */
  lemma {:induction false} SubChannelOfNumber(n: int)
    ensures SubChannelId(Num(n)) == n
  {
    var m: nat := if n < 0 then -n else n;
    NatToStringValue(m);
    if n < 0 {
      ParseIntNegative(NatToString(m));
    } else {
      assert NatToString(m) + [] == NatToString(m);
      ParseIntDigits(NatToString(m), []);
    }
  }

  /** A text id of digits followed by other text gives the digits' value. */
  lemma {:induction false} SubChannelOfDigits(d: string, rest: string)
    requires d != [] && AllDigits(d) && (rest == [] || !IsDigit(rest[0]))
    ensures SubChannelId(Str(d + rest)) == DigitsValue(d)
  {
    ParseIntDigits(d, rest);
  }

  /** `undefined`, `null` and the booleans give sub-channel 0. */
  lemma {:induction false} SubChannelOfNonNumeric(other: Prim)
    requires other == Undefined || other == Null || other.Bool?
    ensures SubChannelId(other) == 0
  {
    var t := Text(other);
    assert !IsWhiteSpace(t[0]) && !IsDigit(t[0]) && t[0] != '-' && t[0] != '+';
    assert TrimStart(t) == t;
  }
}
