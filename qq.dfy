/**
 * The QQ Music plugin (plugins/qq.js): the quality table read from a song's `file`
 * sizes, the batch table keyed by song id and its precedence over the record's own
 * `file`, the cover URL, the `getMusicInfo` short-circuit, the quality gate of the
 * stream-URL request, the query-string helpers, and the pinned recommendation tags.
 */
module Qq {
  import opened Wrappers
  import opened JsString
  import opened JsObject
  import opened Quality
  import opened Vendor

  // ---------------------------------------------------------------- parseQualities

  /**
   * The `file` object of a song record: the four size fields, and `size_new` when it is
   * present (an array; an absent or falsy `size_new` is `None`).
   */
  datatype File = File(size128mp3: Val, size320mp3: Val, sizeFlac: Val, sizeHires: Val, sizeNew: Option<seq<Val>>)

  /** `size_new[k]`: an index past the end of the array reads `undefined`. */
  function NewSize(f: File, k: nat): Val
    requires f.sizeNew.Some?
  {
    if k < |f.sizeNew.value| then f.sizeNew.value[k] else Undefined
  }

  /**
   * `if (x && x !== 0) qualities[tag] = {size: x, bitrate}`. The second test adds
   * nothing: the number 0 is already falsy.
   */
  function SizeEntry(x: Val, tag: string, bitrate: int): (e: Entry)
    ensures e.Some? <==> Truthy(x)
    ensures e.Some? ==> e.value == (tag, Sized(x, Num(bitrate)))
  {
    if Truthy(x) && x != Num(0) then Some((tag, Sized(x, Num(bitrate)))) else None
  }

  /**
   * `if (file.size_new && file.size_new[k] !== 0) qualities[tag] = {size: size_new[k], bitrate}`:
   * only the number 0 is refused, so a missing element passes with an undefined size.
   */
  function NewEntry(f: File, k: nat, tag: string, bitrate: int): (e: Entry)
    ensures e.Some? <==> f.sizeNew.Some? && NewSize(f, k) != Num(0)
    ensures e.Some? ==> e.value == (tag, Sized(NewSize(f, k), Num(bitrate)))
  {
    if f.sizeNew.Some? && NewSize(f, k) != Num(0) then Some((tag, Sized(NewSize(f, k), Num(bitrate)))) else None
  }

  /** The four size fields, in the order the source assigns them. */
  function SizeEntries(f: File): seq<Entry> {
    [SizeEntry(f.size128mp3, T128, 128000), SizeEntry(f.size320mp3, T320, 320000),
     SizeEntry(f.sizeFlac, TFlac, 1411000), SizeEntry(f.sizeHires, THires, 1536000)]
  }

  /** The three `size_new` elements. */
  function NewEntries(f: File): seq<Entry> {
    [NewEntry(f, 0, TMaster, 2304000), NewEntry(f, 1, TAtmos, 1411000), NewEntry(f, 2, TAtmosPlus, 1411000)]
  }

  function ParseEntries(f: File): (es: seq<Entry>)
    ensures |es| == 7
  {
    SizeEntries(f) + NewEntries(f)
  }

  /** The tag each assignment of `parseQualities` writes. */
  const ParseTags: seq<string> := [T128, T320, TFlac, THires, TMaster, TAtmos, TAtmosPlus]

  /** `parseQualities(file)`: `{}` for a missing file. */
  function ParseQualities(file: Option<File>): (r: Qualities)
    ensures file.None? ==> r == []
    ensures UniqueKeys(r)
  {
    if file.None? then [] else TableUnique(ParseEntries(file.value)); Table(ParseEntries(file.value))
  }

  /** Which tags `parseQualities` sets. */
  lemma {:induction false} ParseQualitiesTags(file: Option<File>, tag: string)
    ensures Has(ParseQualities(file), tag) <==>
              file.Some? &&
              ((tag == T128 && Truthy(file.value.size128mp3)) ||
               (tag == T320 && Truthy(file.value.size320mp3)) ||
               (tag == TFlac && Truthy(file.value.sizeFlac)) ||
               (tag == THires && Truthy(file.value.sizeHires)) ||
               (file.value.sizeNew.Some? &&
                ((tag == TMaster && NewSize(file.value, 0) != Num(0)) ||
                 (tag == TAtmos && NewSize(file.value, 1) != Num(0)) ||
                 (tag == TAtmosPlus && NewSize(file.value, 2) != Num(0)))))
  {
    if file.Some? {
      var f := file.value;
      TableHas(ParseEntries(f), tag);
      FilledConcat(SizeEntries(f), NewEntries(f), tag);
      FilledSmall(SizeEntries(f), tag);
      FilledSmall(NewEntries(f), tag);
    }
  }

  /** Every assignment writes its own tag, and no two assignments share one. */
  lemma {:induction false} ParseEntriesTags(f: File, i: nat, j: nat)
    requires i < 7 && j < 7
    ensures ParseEntries(f)[i].Some? ==> ParseEntries(f)[i].value.0 == ParseTags[i]
    ensures i != j ==> ParseTags[i] != ParseTags[j]
  {
    var es := ParseEntries(f);
    assert es[0] == SizeEntry(f.size128mp3, T128, 128000) && es[1] == SizeEntry(f.size320mp3, T320, 320000);
    assert es[2] == SizeEntry(f.sizeFlac, TFlac, 1411000) && es[3] == SizeEntry(f.sizeHires, THires, 1536000);
    assert es[4] == NewEntry(f, 0, TMaster, 2304000) && es[5] == NewEntry(f, 1, TAtmos, 1411000);
    assert es[6] == NewEntry(f, 2, TAtmosPlus, 1411000);
  }

  /** A tag that is set holds the descriptor of its one assignment. */
  lemma {:induction false} ParseLookup(f: File, i: nat)
    requires i < 7 && ParseEntries(f)[i].Some?
    ensures Lookup(ParseQualities(Some(f)), ParseTags[i]) == Some(ParseEntries(f)[i].value.1)
  {
    var es := ParseEntries(f);
    ParseEntriesTags(f, i, i);
    forall j | i < j < 7 ensures !Fills(es[j], ParseTags[i]) {
      ParseEntriesTags(f, j, i);
    }
    TableLast(es, ParseTags[i], i);
  }

  /**
   * The descriptors `parseQualities` writes: each size with its fixed bitrate, and each
   * `size_new` element that is not the number 0, so a missing element gives an
   * undefined size.
   */
  lemma {:induction false} ParseQualitiesDescriptors(f: File)
    ensures Truthy(f.size128mp3) ==> Lookup(ParseQualities(Some(f)), T128) == Some(Sized(f.size128mp3, Num(128000)))
    ensures Truthy(f.size320mp3) ==> Lookup(ParseQualities(Some(f)), T320) == Some(Sized(f.size320mp3, Num(320000)))
    ensures Truthy(f.sizeFlac) ==> Lookup(ParseQualities(Some(f)), TFlac) == Some(Sized(f.sizeFlac, Num(1411000)))
    ensures Truthy(f.sizeHires) ==> Lookup(ParseQualities(Some(f)), THires) == Some(Sized(f.sizeHires, Num(1536000)))
    ensures f.sizeNew.Some? && NewSize(f, 0) != Num(0) ==> Lookup(ParseQualities(Some(f)), TMaster) == Some(Sized(NewSize(f, 0), Num(2304000)))
    ensures f.sizeNew.Some? && NewSize(f, 1) != Num(0) ==> Lookup(ParseQualities(Some(f)), TAtmos) == Some(Sized(NewSize(f, 1), Num(1411000)))
    ensures f.sizeNew.Some? && NewSize(f, 2) != Num(0) ==> Lookup(ParseQualities(Some(f)), TAtmosPlus) == Some(Sized(NewSize(f, 2), Num(1411000)))
  {
    var es := ParseEntries(f);
    assert es[0] == SizeEntry(f.size128mp3, T128, 128000) && es[1] == SizeEntry(f.size320mp3, T320, 320000);
    assert es[2] == SizeEntry(f.sizeFlac, TFlac, 1411000) && es[3] == SizeEntry(f.sizeHires, THires, 1536000);
    assert es[4] == NewEntry(f, 0, TMaster, 2304000) && es[5] == NewEntry(f, 1, TAtmos, 1411000);
    assert es[6] == NewEntry(f, 2, TAtmosPlus, 1411000);
    forall i | 0 <= i < 7 && es[i].Some?
      ensures Lookup(ParseQualities(Some(f)), ParseTags[i]) == Some(es[i].value.1)
    {
      ParseLookup(f, i);
    }
  }

  /** An empty `size_new` array still yields master, atmos and atmos_plus, each without a size. */
  lemma {:induction false} EmptySizeNewPasses(f: File)
    requires f.sizeNew == Some([])
    ensures Lookup(ParseQualities(Some(f)), TMaster) == Some(Sized(Undefined, Num(2304000)))
    ensures Lookup(ParseQualities(Some(f)), TAtmos) == Some(Sized(Undefined, Num(1411000)))
    ensures Lookup(ParseQualities(Some(f)), TAtmosPlus) == Some(Sized(Undefined, Num(1411000)))
  {
    ParseQualitiesDescriptors(f);
  }

  // ---------------------------------------------------------------- getBatchQualities

  /** One track of the batch reply: its id and its `file`. */
  datatype TrackFile = TrackFile(id: Prim, file: Option<File>)

  /** The batch request threw, or answered with `data.req.data.tracks` (None when absent). */
  datatype BatchAnswer = BatchThrew | BatchReply(tracks: Option<seq<TrackFile>>)

  /** `qualityMap[track.id] = parseQualities(track.file)`, for each track in turn. */
  function BatchEntries(tracks: seq<TrackFile>): seq<Option<(string, Qualities)>> {
    Map(tracks, (t: TrackFile) => Some((Text(t.id), ParseQualities(t.file))))
  }

  /**
   * `getBatchQualities`: no request for an empty song list, `{}` when the request throws
   * or the reply has no tracks, and otherwise each track's table under its id.
   */
  method GetBatchQualities<S>(songList: seq<S>, answer: BatchAnswer) returns (m: Dict<Qualities>)
    ensures |songList| == 0 || answer.BatchThrew? || answer.tracks.None? ==> m == []
    ensures |songList| > 0 && answer.BatchReply? && answer.tracks.Some? ==> m == Table(BatchEntries(answer.tracks.value))
  {
    m := [];
    if |songList| == 0 || answer.BatchThrew? || answer.tracks.None? {
      return;
    }
    var tracks := answer.tracks.value;
    var i := 0;
    while i < |tracks|
      invariant 0 <= i <= |tracks|
      invariant m == Table(BatchEntries(tracks[..i]))
    {
      var f := (t: TrackFile) => Some((Text(t.id), ParseQualities(t.file)));
      MapPrefix(tracks, i, f);
      TableSnoc(BatchEntries(tracks[..i]), f(tracks[i]));
      m := Put(m, Text(tracks[i].id), ParseQualities(tracks[i].file));
      i := i + 1;
    }
    assert tracks[..i] == tracks;
  }

  /**
   * The batch table holds an id exactly when some track carries it, and then the table
   * parsed from the last such track's `file`.
   */
  lemma {:induction false} BatchLookup(tracks: seq<TrackFile>, key: string, i: nat)
    ensures Has(Table(BatchEntries(tracks)), key) <==> exists j :: 0 <= j < |tracks| && Text(tracks[j].id) == key
    ensures i < |tracks| && Text(tracks[i].id) == key && (forall j :: i < j < |tracks| ==> Text(tracks[j].id) != key) ==>
              Lookup(Table(BatchEntries(tracks)), key) == Some(ParseQualities(tracks[i].file))
  {
    var es := BatchEntries(tracks);
    TableHas(es, key);
    assert forall j :: 0 <= j < |es| ==> (Fills(es[j], key) <==> Text(tracks[j].id) == key);
    if i < |tracks| && Text(tracks[i].id) == key && (forall j :: i < j < |tracks| ==> Text(tracks[j].id) != key) {
      TableLast(es, key, i);
    }
  }

  // ---------------------------------------------------------------- formatMusicItem

  /** The nested `album` object: `id`, `mid`. */
  datatype Album = Album(id: Prim, mid: Prim)

  /** The fields of a song record `formatMusicItem` reads; an absent field is `Undefined`. */
  datatype Song = Song(id: Prim, songid: Prim, mid: Prim, songmid: Prim, albummid: Prim, album: Option<Album>, file: Option<File>)

  /** The fields of the formatted track this model follows. */
  datatype MusicItem = MusicItem(id: Prim, songmid: Prim, artwork: Val, albummid: Prim, qualities: Qualities)

  /** `x?.mid` */
  function AlbumMidOf(a: Option<Album>): Prim {
    if a.Some? then a.value.mid else Undefined
  }

  /** `_.albummid || _.album?.mid` */
  function AlbumMid(s: Song): Prim {
    Or(s.albummid, AlbumMidOf(s.album))
  }

  const ArtworkPrefix: string := "https://y.gtimg.cn/music" + "/photo_new/T002R800x800M000"

  /** The cover for an album mid, `undefined` when the mid is falsy. */
  function Artwork(albummid: Prim): (r: Val)
    ensures r.Undefined? <==> !Truthy(albummid)
  {
    if Truthy(albummid) then Str(ArtworkPrefix + Text(albummid) + ".jpg") else Undefined
  }

  /** The album mid can be read back from the cover URL between the fixed prefix and `.jpg`. */
  lemma {:induction false} ArtworkCarriesMid(albummid: Prim)
    requires Truthy(albummid)
    ensures var u := Artwork(albummid).s;
            StartsWith(u, ArtworkPrefix) && EndsWith(u, ".jpg") && u[|ArtworkPrefix|..|u| - 4] == Text(albummid)
  {
    var u := Artwork(albummid).s;
    assert u[..|ArtworkPrefix|] == ArtworkPrefix;
    assert u[|u| - 4..] == ".jpg";
    assert u[|ArtworkPrefix|..|u| - 4] == Text(albummid);
  }

  /**
   * `formatMusicItem(_, qualityInfo)`: the table the batch holds under the song's id,
   * which wins even when empty (every object is truthy), or else the one parsed from
   * the record's own `file`.
   */
  function FormatMusicItem(s: Song, qualityInfo: Dict<Qualities>): (r: MusicItem)
    ensures r.id == Or(s.id, s.songid) && r.songmid == Or(s.mid, s.songmid) && r.albummid == AlbumMid(s)
    ensures Has(qualityInfo, Text(r.id)) ==> r.qualities == Get(qualityInfo, Text(r.id))
    ensures !Has(qualityInfo, Text(r.id)) ==> r.qualities == ParseQualities(s.file)
    ensures r.artwork != Undefined <==> Truthy(AlbumMid(s))
  {
    var songId: Prim := Or(s.id, s.songid);
    var qualities := match Lookup(qualityInfo, Text(songId)) case Some(q) => q case None => ParseQualities(s.file);
    MusicItem(songId, Or(s.mid, s.songmid), Artwork(AlbumMid(s)), AlbumMid(s), qualities)
  }

  /**
   * A song listed in a batch reply takes the table parsed from the last reply track with
   * its id, not from its own `file`.
   */
  lemma {:induction false} FormatFromBatch(s: Song, tracks: seq<TrackFile>, i: nat)
    requires i < |tracks| && Text(tracks[i].id) == Text(Or(s.id, s.songid))
    requires forall j :: i < j < |tracks| ==> Text(tracks[j].id) != Text(Or(s.id, s.songid))
    ensures FormatMusicItem(s, Table(BatchEntries(tracks))).qualities == ParseQualities(tracks[i].file)
  {
    BatchLookup(tracks, Text(Or(s.id, s.songid)), i);
  }

  // ---------------------------------------------------------------- getMusicInfo

  /** The fields of the `musicBase` argument of `getMusicInfo`; an absent `qualities` is `None`. */
  datatype MusicBase = MusicBase(id: Prim, songid: Prim, songmid: Prim, mid: Prim, artwork: Val, qualities: Option<Qualities>)

  /** The identity, cover and table `getMusicInfo` resolves with. */
  datatype Info = Info(id: Prim, songid: Prim, songmid: Prim, mid: Prim, artwork: Val, qualities: Qualities)

  /** The first track of the track-info reply. */
  datatype TrackInfo = TrackInfo(id: Prim, mid: Prim, album: Option<Album>, file: Option<File>)

  /** The request threw, or answered with `tracks[0]` (None when there is none). */
  datatype InfoAnswer = InfoThrew | InfoReply(first: Option<TrackInfo>)

  /** The identifiers the track-info request is built from. */
  datatype InfoRequest = InfoRequest(songid: Prim, songmid: Prim)

  /** A call of `getMusicInfo`: the request it sent, if any, and the result (None for `null`). */
  datatype InfoAttempt = InfoAttempt(sent: Option<InfoRequest>, result: Option<Info>)

  /** A cover and a non-empty table are already there. */
  predicate Complete(b: MusicBase) {
    Truthy(b.artwork) && b.qualities.Some? && |b.qualities.value| > 0
  }

  /** `musicBase.songmid || musicBase.mid || musicBase.id` */
  function RequestMid(b: MusicBase): Prim {
    Or(Or(b.songmid, b.mid), b.id)
  }

  /** `musicBase.id || musicBase.songid` */
  function RequestId(b: MusicBase): Prim {
    Or(b.id, b.songid)
  }

  /** The info built from the reply's first track. */
  function FetchedInfo(t: TrackInfo): Info {
    Info(t.id, t.id, t.mid, t.mid, Artwork(AlbumMidOf(t.album)), ParseQualities(t.file))
  }

  /** The info returned as it is from a complete `musicBase`. */
  function KnownInfo(b: MusicBase): Info
    requires b.qualities.Some?
  {
    Info(b.id, Or(b.songid, b.id), Or(b.songmid, b.mid), Or(b.mid, b.songmid), b.artwork, b.qualities.value)
  }

  /**
   * `getMusicInfo(musicBase)`: a complete input comes back without any request; an input
   * with neither a mid nor an id gives `null` without a request; otherwise the reply's
   * first track decides, and a failed request or a reply without tracks gives `null`.
   */
  function GetMusicInfo(b: MusicBase, answer: InfoAnswer): (a: InfoAttempt)
    ensures a.sent.None? <==> Complete(b) || (!Truthy(RequestMid(b)) && !Truthy(RequestId(b)))
    ensures Complete(b) ==> a.result == Some(KnownInfo(b))
    ensures !Complete(b) ==> (a.result.Some? <==> a.sent.Some? && answer.InfoReply? && answer.first.Some?)
    ensures a.sent.Some? ==> a.sent.value == InfoRequest(RequestId(b), RequestMid(b))
    ensures !Complete(b) && a.result.Some? ==> a.result.value == FetchedInfo(answer.first.value)
  {
    if Complete(b) then InfoAttempt(None, Some(KnownInfo(b)))
    else if !Truthy(RequestMid(b)) && !Truthy(RequestId(b)) then InfoAttempt(None, None)
    else
      var req := InfoRequest(RequestId(b), RequestMid(b));
      match answer
      case InfoThrew => InfoAttempt(Some(req), None)
      case InfoReply(first) =>
        if first.Some? then InfoAttempt(Some(req), Some(FetchedInfo(first.value)))
        else InfoAttempt(Some(req), None)
  }

  /** An info handed back to `getMusicInfo` as its argument. */
  function AsBase(i: Info): MusicBase {
    MusicBase(i.id, i.songid, i.songmid, i.mid, i.artwork, Some(i.qualities))
  }

  /**
   * Feeding a result back: a fetched track with an album mid and a non-empty table, or a
   * short-circuited input that has a mid, comes back again without a request and unchanged.
   */
  lemma {:induction false} MusicInfoFeedsBack(b: MusicBase, answer: InfoAnswer, again: InfoAnswer)
    ensures var a := GetMusicInfo(b, answer);
            a.result.Some? && a.sent.Some? && Truthy(AlbumMidOf(answer.first.value.album)) && |a.result.value.qualities| > 0 ==>
              GetMusicInfo(AsBase(a.result.value), again) == InfoAttempt(None, Some(a.result.value))
    ensures Complete(b) && (Truthy(b.songmid) || Truthy(b.mid)) ==>
              GetMusicInfo(AsBase(KnownInfo(b)), again) == InfoAttempt(None, Some(KnownInfo(b)))
  {
    var a := GetMusicInfo(b, answer);
    if a.result.Some? && a.sent.Some? && Truthy(AlbumMidOf(answer.first.value.album)) && |a.result.value.qualities| > 0 {
      assert !Complete(b);
      FetchedFeedsBack(answer.first.value, again);
    }
  }

  /** A fetched info with a cover and a non-empty table is complete. */
  lemma {:induction false} FetchedFeedsBack(t: TrackInfo, again: InfoAnswer)
    requires Truthy(AlbumMidOf(t.album)) && |ParseQualities(t.file)| > 0
    ensures GetMusicInfo(AsBase(FetchedInfo(t)), again) == InfoAttempt(None, Some(FetchedInfo(t)))
  {
    assert Complete(AsBase(FetchedInfo(t)));
  }

  // ---------------------------------------------------------------- getMediaSource

  /** `qualityLevels[quality]` */
  function QualityLevel(tag: string): (r: Option<string>)
    ensures r.Some? <==> tag in {T128, T320, TFlac, "flac24bit", THires, TAtmos, TAtmosPlus, TMaster}
  {
    if tag in {T128, T320, TFlac, "flac24bit", THires, TAtmos, TAtmosPlus, TMaster} then Some(tag) else None
  }

  /** `qualityLevels[quality] || quality`: every mapped tag maps to itself, so any tag goes as it is. */
  lemma {:induction false} QualityParamVerbatim(tag: string)
    ensures QualityLevel(tag).GetOr(tag) == tag
  {
  }

  /** The track fields `getMediaSource` reads; an absent `qualities` is `None`. */
  datatype Track = Track(songmid: Prim, qualities: Option<Qualities>)

  /**
   * `getMediaSource`: a track whose non-empty table lacks the tag is refused before any
   * request; otherwise the songmid goes with the tag as given, only `code === 200` with a
   * URL resolves, and a failed request is re-thrown.
   */
  function GetMediaSource(t: Track, quality: string, answer: Exchange): (a: Attempt)
    ensures a.sent.None? <==> t.qualities.Some? && !Listed(t.qualities.value, quality)
    ensures a.sent.None? ==> a.outcome == Raised
    ensures a.sent.Some? ==> a.sent.value == Request("tx", t.songmid, quality)
    ensures a.outcome.Resolved? <==> a.sent.Some? && answer.Answered? && Succeeded(answer.reply)
    ensures a.outcome.Resolved? ==> a.outcome.media == Media(answer.reply.url, None)
    ensures a.sent.Some? && answer.Threw? ==> a.outcome == Raised
    ensures a.sent.Some? && answer.Answered? && !Succeeded(answer.reply) ==> a.outcome == NullResult
  {
    if t.qualities.Some? && |t.qualities.value| > 0 && !Has(t.qualities.value, quality) then
      Attempt(None, Raised)
    else
      var req := Request("tx", t.songmid, QualityLevel(quality).GetOr(quality));
      match answer
      case Threw => Attempt(Some(req), Raised)
      case Answered(r) =>
        if Succeeded(r) then Attempt(Some(req), Resolved(Media(r.url, None)))
        else Attempt(Some(req), NullResult)
  }

  // ---------------------------------------------------------------- getQueryFromUrl

  /** `decodeURIComponent`: None where it throws on a malformed escape. */
  type Decoder = string -> Option<string>

  /** `item.split("=")[0]` */
  function FieldName(item: string): string {
    Split(item, '=')[0]
  }

  /** `item.split("=")[1]`; a field without `=` gives `undefined`, which decodes as the text "undefined". */
  function FieldRaw(item: string): string {
    var parts := Split(item, '=');
    if |parts| > 1 then parts[1] else UndefinedText
  }

  /** Every field's value decodes. */
  predicate Decodable(items: seq<string>, decode: Decoder) {
    forall i :: 0 <= i < |items| ==> decode(FieldRaw(items[i])).Some?
  }

  /** `result[name] = decodeURIComponent(raw)` for each field in turn. */
  function FieldEntries(items: seq<string>, decode: Decoder): seq<Option<(string, string)>> {
    Map(items, (item: string) => Some((FieldName(item), decode(FieldRaw(item)).GetOr(""))))
  }

  /** One field more assigns its decoded value. */
  lemma {:induction false} FieldEntriesSnoc(items: seq<string>, i: nat, decode: Decoder)
    requires i < |items|
    ensures FieldEntries(items[..i + 1], decode) ==
              FieldEntries(items[..i], decode) + [Some((FieldName(items[i]), decode(FieldRaw(items[i])).GetOr("")))]
  {
    MapPrefix(items, i, (item: string) => Some((FieldName(item), decode(FieldRaw(item)).GetOr(""))));
  }

  /** Decodability, one field at a time. */
  lemma {:induction false} DecodableSnoc(items: seq<string>, i: nat, decode: Decoder)
    requires i < |items|
    ensures Decodable(items[..i + 1], decode) <==> Decodable(items[..i], decode) && decode(FieldRaw(items[i])).Some?
  {
    assert items[..i + 1][i] == items[i];
    assert forall j :: 0 <= j < i ==> items[..i + 1][j] == items[..i][j];
  }

  /** The `forEach` over the fields: None when a value fails to decode. */
  method ParseFields(items: seq<string>, decode: Decoder) returns (r: Option<Dict<string>>)
    ensures r.Some? <==> Decodable(items, decode)
    ensures r.Some? ==> r.value == Table(FieldEntries(items, decode))
  {
    var result: Dict<string> := [];
    var i := 0;
    while i < |items|
      invariant 0 <= i <= |items|
      invariant Decodable(items[..i], decode)
      invariant result == Table(FieldEntries(items[..i], decode))
    {
      var v := decode(FieldRaw(items[i]));
      DecodableSnoc(items, i, decode);
      if v.None? {
        assert !Decodable(items, decode) by {
          assert !decode(FieldRaw(items[i])).Some?;
        }
        return None;
      }
      FieldEntriesSnoc(items, i, decode);
      TableSnoc(FieldEntries(items[..i], decode), Some((FieldName(items[i]), v.value)));
      result := Put(result, FieldName(items[i]), v.value);
      i := i + 1;
    }
    assert items[..i] == items;
    return Some(result);
  }

  /** What `getQueryFromUrl` returns: `undefined`, one decoded value, or the parameter object. */
  datatype Query = Absent | Value(text: string) | Params(d: Dict<string>)

  /** `key ? ... : ...`: a key is given and is not the empty string. */
  predicate Named(key: Option<string>) {
    key.Some? && key.value != ""
  }

  /** The fields of the text between the first `?` and the next one. */
  function QueryFields(search: string): seq<string>
    requires |Split(search, '?')| > 1
  {
    Split(Split(search, '?')[1], '&')
  }

  /** `getQueryFromUrl(key, search)`; a decoding error falls to the `catch`. */
  function QueryOf(key: Option<string>, search: string, decode: Decoder): (r: Query)
    ensures Named(key) <==> !r.Params?
  {
    var parts := Split(search, '?');
    if |parts| <= 1 then
      if Named(key) then Absent else Params([])
    else
      var items := Split(parts[1], '&');
      if !Decodable(items, decode) then
        if Named(key) then Value("") else Params([])
      else
        var d := Table(FieldEntries(items, decode));
        if Named(key) then (if Has(d, key.value) then Value(Get(d, key.value)) else Absent)
        else Params(d)
  }

  method GetQueryFromUrl(key: Option<string>, search: string, decode: Decoder) returns (r: Query)
    ensures r == QueryOf(key, search, decode)
  {
    var sArr := Split(search, '?');
    if |sArr| <= 1 {
      return if Named(key) then Absent else Params([]);
    }
    var parsed := ParseFields(Split(sArr[1], '&'), decode);
    if parsed.None? {
      return if Named(key) then Value("") else Params([]);
    }
    var result := parsed.value;
    if Named(key) {
      r := if Has(result, key.value) then Value(Get(result, key.value)) else Absent;
    } else {
      r := Params(result);
    }
  }

  /**
   * Without a `?` a named lookup is `undefined` and the object is `{}`; with a value that
   * fails to decode they are `""` and `{}`.
   */
  lemma {:induction false} QueryFallbacks(key: Option<string>, search: string, decode: Decoder)
    ensures '?' !in search ==> QueryOf(key, search, decode) == if Named(key) then Absent else Params([])
    ensures |Split(search, '?')| > 1 && !Decodable(QueryFields(search), decode) ==>
              QueryOf(key, search, decode) == if Named(key) then Value("") else Params([])
  {
    if '?' !in search {
      SplitNone(search, '?');
    }
  }

  /** With a key and a decodable query, the answer is the key's entry in the table of fields. */
  lemma {:induction false} QueryOfNamed(key: string, search: string, decode: Decoder)
    requires key != "" && |Split(search, '?')| > 1
    requires Decodable(QueryFields(search), decode)
    ensures var d := Table(FieldEntries(QueryFields(search), decode));
            QueryOf(Some(key), search, decode) == if Has(d, key) then Value(Get(d, key)) else Absent
  {
  }

  /** Field `j` fills the key it names, with its decoded value. */
  lemma {:induction false} FieldEntriesFill(items: seq<string>, decode: Decoder, key: string)
    requires Decodable(items, decode)
    ensures forall j :: 0 <= j < |items| ==>
              (Fills(FieldEntries(items, decode)[j], key) <==> FieldName(items[j]) == key) &&
              FieldEntries(items, decode)[j].value.1 == decode(FieldRaw(items[j])).value
  {
  }

  /**
   * With every value decodable, a key is answered exactly when some field names it, and
   * then with the value of the last such field.
   */
  lemma {:induction false} QueryLastFieldWins(key: string, search: string, decode: Decoder, i: nat)
    requires key != "" && |Split(search, '?')| > 1
    requires Decodable(QueryFields(search), decode)
    ensures QueryOf(Some(key), search, decode) != Absent <==>
              exists j :: 0 <= j < |QueryFields(search)| && FieldName(QueryFields(search)[j]) == key
    ensures i < |QueryFields(search)| && FieldName(QueryFields(search)[i]) == key &&
            (forall j :: i < j < |QueryFields(search)| ==> FieldName(QueryFields(search)[j]) != key) ==>
              QueryOf(Some(key), search, decode) == Value(decode(FieldRaw(QueryFields(search)[i])).value)
  {
    var items := QueryFields(search);
    var es := FieldEntries(items, decode);
    QueryOfNamed(key, search, decode);
    FieldEntriesFill(items, decode, key);
    TableHas(es, key);
    if i < |items| && FieldName(items[i]) == key && (forall j :: i < j < |items| ==> FieldName(items[j]) != key) {
      TableLast(es, key, i);
    }
  }

  /** A plain piece of a URL: no `?`, `&` or `=` in it. */
  predicate Plain(s: string) {
    '?' !in s && '&' !in s && '=' !in s
  }

  /** A field `k=v` of plain pieces names `k` and carries `v`. */
  lemma {:induction false} PlainField(k: string, v: string)
    requires Plain(k) && Plain(v)
    ensures FieldName(k + "=" + v) == k && FieldRaw(k + "=" + v) == v
  {
    assert k + "=" + v == k + ['='] + v;
    SplitTwo(k, '=', v);
  }

  /** The query of `base?f1&f2` has the two fields `f1` and `f2`. */
  lemma {:induction false} TwoFields(base: string, f1: string, f2: string)
    requires '?' !in base && '?' !in f1 && '?' !in f2 && '&' !in f1 && '&' !in f2
    ensures |Split(base + "?" + f1 + "&" + f2, '?')| > 1
    ensures QueryFields(base + "?" + f1 + "&" + f2) == [f1, f2]
  {
    var rest := f1 + "&" + f2;
    assert base + "?" + f1 + "&" + f2 == base + ['?'] + rest;
    SplitTwo(base, '?', rest);
    assert rest == f1 + ['&'] + f2;
    SplitTwo(f1, '&', f2);
  }

  /** `getQueryFromUrl(k, base + "?k=v1&k=v2")` is `v2` decoded: the later field overwrites the earlier. */
  lemma {:induction false} DuplicateKeyLastWins(base: string, k: string, v1: string, v2: string, decode: Decoder)
    requires k != "" && Plain(base) && Plain(k) && Plain(v1) && Plain(v2)
    requires decode(v1).Some? && decode(v2).Some?
    ensures QueryOf(Some(k), base + "?" + k + "=" + v1 + "&" + k + "=" + v2, decode) == Value(decode(v2).value)
  {
    var f1 := k + "=" + v1;
    var f2 := k + "=" + v2;
    PlainField(k, v1);
    PlainField(k, v2);
    assert '?' !in f1 && '?' !in f2 && '&' !in f1 && '&' !in f2;
    TwoFields(base, f1, f2);
    var search := base + "?" + f1 + "&" + f2;
    assert search == base + "?" + k + "=" + v1 + "&" + k + "=" + v2;
    var items := QueryFields(search);
    assert Decodable(items, decode);
    QueryLastFieldWins(k, search, decode, 1);
  }

  // ---------------------------------------------------------------- changeUrlQuery

  /** `Object.assign(target, obj)`: each property of `obj` assigned onto `target` in turn. */
  function Assign(target: Dict<Prim>, obj: Dict<Prim>): Dict<Prim>
    decreases |obj|
  {
    if obj == [] then target else Assign(Put(target, obj[0].0, obj[0].1), obj[1..])
  }

  /** A property of `obj` wins; any other key keeps its value in `target`. */
  lemma {:induction false} AssignLookup(target: Dict<Prim>, obj: Dict<Prim>, k: string)
    requires UniqueKeys(obj)
    ensures Lookup(Assign(target, obj), k) == if Has(obj, k) then Lookup(obj, k) else Lookup(target, k)
    decreases |obj|
  {
    if obj != [] {
      UniqueTail(obj);
      AssignLookup(Put(target, obj[0].0, obj[0].1), obj[1..], k);
    }
  }

  /** Assigning onto a dictionary without repeated keys keeps it so. */
  lemma {:induction false} AssignUnique(target: Dict<Prim>, obj: Dict<Prim>)
    requires UniqueKeys(target)
    ensures UniqueKeys(Assign(target, obj))
    decreases |obj|
  {
    if obj != [] {
      PutUnique(target, obj[0].0, obj[0].1);
      AssignUnique(Put(target, obj[0].0, obj[0].1), obj[1..]);
    }
  }

  /** The parsed parameters, each value a string. */
  function Lifted(d: Dict<string>): (r: Dict<Prim>)
    ensures |r| == |d| && forall i :: 0 <= i < |d| ==> r[i] == (d[i].0, Str(d[i].1))
  {
    if d == [] then [] else [(d[0].0, Str(d[0].1))] + Lifted(d[1..])
  }

  lemma {:induction false} LiftedLookup(d: Dict<string>, k: string)
    ensures Lookup(Lifted(d), k) == if Has(d, k) then Some(Str(Get(d, k))) else None
  {
    if d != [] {
      LiftedLookup(d[1..], k);
    }
  }

  lemma {:induction false} LiftedUnique(d: Dict<string>)
    requires UniqueKeys(d)
    ensures UniqueKeys(Lifted(d))
  {
    var r := Lifted(d);
    forall a, b | 0 <= a < b < |r| ensures r[a].0 != r[b].0 {
      assert r[a].0 == d[a].0 && r[b].0 == d[b].0;
    }
  }

  /** The parameters of `baseUrl`, as `getQueryFromUrl(null, baseUrl)` reads them. */
  function Existing(baseUrl: string, decode: Decoder): Dict<string> {
    QueryOf(None, baseUrl, decode).d
  }

  /** `Object.assign(Object.assign({}, query), obj)` */
  function Merged(obj: Dict<Prim>, baseUrl: string, decode: Decoder): Dict<Prim> {
    Assign(Assign([], Lifted(Existing(baseUrl, decode))), obj)
  }

  /** A value the rebuilt query keeps: neither `undefined` nor the empty string. */
  predicate Kept(v: Prim) {
    v != Undefined && v != Str("")
  }

  /** `${key}=${encodeURIComponent(value)}` for a kept value. */
  function PairOf(e: (string, Prim), encode: string -> string): Option<string> {
    if Kept(e.1) then Some(e.0 + "=" + encode(Text(e.1))) else None
  }

  /** The texts pushed onto `queryArr`, in key order. */
  function Pairs(d: Dict<Prim>, encode: string -> string): seq<string> {
    FilterMap(d, (e: (string, Prim)) => PairOf(e, encode))
  }

  /** The `forEach` over `Object.keys(newQuery)` that fills `queryArr`. */
  method PushPairs(d: Dict<Prim>, encode: string -> string) returns (queryArr: seq<string>)
    ensures queryArr == Pairs(d, encode)
  {
    queryArr := [];
    var i := 0;
    while i < |d|
      invariant 0 <= i <= |d|
      invariant queryArr == Pairs(d[..i], encode)
    {
      assert d[..i + 1][..i] == d[..i] && d[..i + 1][i] == d[i];
      var key := d[i].0;
      var value := d[i].1;
      if value != Undefined && value != Str("") {
        queryArr := queryArr + [key + "=" + encode(Text(value))];
      }
      i := i + 1;
    }
    assert d[..i] == d;
  }

  /** `.replace(/\?$/, "")`: one trailing `?` removed. */
  function StripMark(s: string): (r: string)
    ensures |s| > 0 && s[|s| - 1] == '?' ==> s == r + "?"
    ensures (|s| == 0 || s[|s| - 1] != '?') ==> r == s
  {
    if |s| > 0 && s[|s| - 1] == '?' then s[..|s| - 1] else s
  }

  /** `changeUrlQuery(obj, baseUrl)` */
  function ChangedUrl(obj: Dict<Prim>, baseUrl: string, decode: Decoder, encode: string -> string): (r: string)
    ensures |Split(baseUrl, '?')[0]| <= |r| && r[..|Split(baseUrl, '?')[0]|] == Split(baseUrl, '?')[0]
  {
    StripMark(Split(baseUrl, '?')[0] + "?" + Join(Pairs(Merged(obj, baseUrl, decode), encode), "&"))
  }

  method ChangeUrlQuery(obj: Dict<Prim>, baseUrl: string, decode: Decoder, encode: string -> string) returns (r: string)
    ensures r == ChangedUrl(obj, baseUrl, decode, encode)
  {
    var query := GetQueryFromUrl(None, baseUrl, decode);
    var url := Split(baseUrl, '?')[0];
    var newQuery := Assign(Assign([], Lifted(query.d)), obj);
    var queryArr := PushPairs(newQuery, encode);
    r := StripMark(url + "?" + Join(queryArr, "&"));
  }

  /** The rebuilt query has no repeated keys. */
  lemma {:induction false} MergedUnique(obj: Dict<Prim>, baseUrl: string, decode: Decoder)
    ensures UniqueKeys(Merged(obj, baseUrl, decode))
  {
    var parts := Split(baseUrl, '?');
    if |parts| > 1 && Decodable(Split(parts[1], '&'), decode) {
      TableUnique(FieldEntries(Split(parts[1], '&'), decode));
    }
    LiftedUnique(Existing(baseUrl, decode));
    AssignUnique([], Lifted(Existing(baseUrl, decode)));
    AssignUnique(Assign([], Lifted(Existing(baseUrl, decode))), obj);
  }

  /** A new parameter overrides an existing one; an existing one not overridden stays. */
  lemma {:induction false} MergedLookup(obj: Dict<Prim>, baseUrl: string, decode: Decoder, k: string)
    requires UniqueKeys(obj)
    ensures var q := Existing(baseUrl, decode);
            Lookup(Merged(obj, baseUrl, decode), k) ==
              if Has(obj, k) then Lookup(obj, k)
              else if Has(q, k) then Some(Str(Get(q, k)))
              else None
  {
    var q := Existing(baseUrl, decode);
    var parts := Split(baseUrl, '?');
    if |parts| > 1 && Decodable(Split(parts[1], '&'), decode) {
      TableUnique(FieldEntries(Split(parts[1], '&'), decode));
    }
    LiftedUnique(q);
    AssignLookup(Assign([], Lifted(q)), obj, k);
    AssignLookup([], Lifted(q), k);
    LiftedLookup(q, k);
  }

  /** No pair is pushed exactly when every merged value is `undefined` or "". */
  lemma {:induction false} PairsEmpty(d: Dict<Prim>, encode: string -> string)
    ensures Pairs(d, encode) == [] <==> forall i :: 0 <= i < |d| ==> !Kept(d[i].1)
  {
    var f := (e: (string, Prim)) => PairOf(e, encode);
    if forall i :: 0 <= i < |d| ==> !Kept(d[i].1) {
      assert forall i :: 0 <= i < |d| ==> f(d[i]).None?;
      FilterMapNone(d, f);
    } else {
      var i :| 0 <= i < |d| && Kept(d[i].1);
      FilterMapIn(d, f, f(d[i]).value);
    }
  }

  /**
   * What the new URL says about one key: a kept value of `obj` is sent, a value of
   * `undefined` or "" in `obj` removes the key, and an existing parameter that `obj` does
   * not name is sent again with its decoded value.
   */
  lemma {:induction false} ChangeForKey(obj: Dict<Prim>, baseUrl: string, decode: Decoder, encode: string -> string, k: string)
    requires UniqueKeys(obj)
    ensures var m := Merged(obj, baseUrl, decode);
            Has(obj, k) && Kept(Get(obj, k)) ==> k + "=" + encode(Text(Get(obj, k))) in Pairs(m, encode)
    ensures var m := Merged(obj, baseUrl, decode);
            Has(obj, k) && !Kept(Get(obj, k)) ==> forall i :: 0 <= i < |m| && m[i].0 == k ==> PairOf(m[i], encode).None?
    ensures var m := Merged(obj, baseUrl, decode); var q := Existing(baseUrl, decode);
            !Has(obj, k) && Has(q, k) && Get(q, k) != "" ==> k + "=" + encode(Get(q, k)) in Pairs(m, encode)
  {
    MergedLookup(obj, baseUrl, decode, k);
    MergedUnique(obj, baseUrl, decode);
    PairsForKey(Merged(obj, baseUrl, decode), encode, k);
  }

  /** In a table without repeated keys, a key's value is sent exactly when it is kept. */
  lemma {:induction false} PairsForKey(m: Dict<Prim>, encode: string -> string, k: string)
    requires UniqueKeys(m)
    ensures Has(m, k) && Kept(Get(m, k)) ==> k + "=" + encode(Text(Get(m, k))) in Pairs(m, encode)
    ensures Has(m, k) && !Kept(Get(m, k)) ==> forall i :: 0 <= i < |m| && m[i].0 == k ==> PairOf(m[i], encode).None?
  {
    var f := (e: (string, Prim)) => PairOf(e, encode);
    forall i | 0 <= i < |m| && m[i].0 == k ensures Lookup(m, k) == Some(m[i].1) {
      UniqueLookup(m, i);
    }
    if Has(m, k) {
      var v := Get(m, k);
      var i :| 0 <= i < |m| && m[i].0 == k;
      assert m[i] == (k, v);
      FilterMapIn(m, f, k + "=" + encode(Text(v)));
      assert f(m[i]) == if Kept(v) then Some(k + "=" + encode(Text(v))) else None;
    }
  }

  /** With nothing to send, the URL is the part before the first `?`. */
  lemma {:induction false} ChangeWithoutParams(obj: Dict<Prim>, baseUrl: string, decode: Decoder, encode: string -> string)
    requires forall i :: 0 <= i < |Merged(obj, baseUrl, decode)| ==> !Kept(Merged(obj, baseUrl, decode)[i].1)
    ensures ChangedUrl(obj, baseUrl, decode, encode) == Split(baseUrl, '?')[0]
  {
    PairsEmpty(Merged(obj, baseUrl, decode), encode);
  }

  /**
   * With something to send, and `encodeURIComponent` never leaving a `?`, the URL is the
   * part before the first `?`, a `?`, and the pairs joined by `&`.
   */
  lemma {:induction false} ChangeWithParams(obj: Dict<Prim>, baseUrl: string, decode: Decoder, encode: string -> string)
    requires forall s :: '?' !in encode(s)
    requires Pairs(Merged(obj, baseUrl, decode), encode) != []
    ensures ChangedUrl(obj, baseUrl, decode, encode) ==
              Split(baseUrl, '?')[0] + "?" + Join(Pairs(Merged(obj, baseUrl, decode), encode), "&")
  {
    var m := Merged(obj, baseUrl, decode);
    var ps := Pairs(m, encode);
    var f := (e: (string, Prim)) => PairOf(e, encode);
    var last := ps[|ps| - 1];
    FilterMapIn(m, f, last);
    var i :| 0 <= i < |m| && f(m[i]) == Some(last);
    var enc := encode(Text(m[i].1));
    assert last == m[i].0 + "=" + enc;
    assert last[|last| - 1] != '?' by {
      if |enc| > 0 {
        assert last[|last| - 1] == enc[|enc| - 1];
      }
    }
    JoinEndsWith(ps, "&");
    var j := Join(ps, "&");
    assert j[|j| - 1] == last[|last| - 1];
    var whole := Split(baseUrl, '?')[0] + "?" + j;
    assert whole[|whole| - 1] == j[|j| - 1];
  }

  /**
   * A value in the existing query that fails to decode drops every existing parameter:
   * the result is as if the base URL had no query at all.
   */
  lemma {:induction false} MalformedQueryDropped(obj: Dict<Prim>, baseUrl: string, decode: Decoder, encode: string -> string)
    requires |Split(baseUrl, '?')| > 1 && !Decodable(QueryFields(baseUrl), decode)
    ensures ChangedUrl(obj, baseUrl, decode, encode) == ChangedUrl(obj, Split(baseUrl, '?')[0], decode, encode)
  {
    var url := Split(baseUrl, '?')[0];
    SplitNone(url, '?');
    QueryFallbacks(None, url, decode);
  }

  // ---------------------------------------------------------------- getRecommendSheetTags

  /** One tag: `{id: categoryId, title: categoryName}`. */
  datatype Tag = Tag(id: Val, title: Val)

  /** One category group with its tags. */
  datatype TagGroup = TagGroup(title: Val, items: seq<Tag>)

  predicate HasTags(g: TagGroup) {
    |g.items| > 0
  }

  /** The groups that hold at least one tag, in their order. */
  function NonEmptyGroups(data: seq<TagGroup>): (r: seq<TagGroup>)
    ensures |r| <= |data|
    ensures forall i :: 0 <= i < |r| ==> r[i] in data && |r[i].items| > 0
    ensures forall i :: 0 <= i < |data| && |data[i].items| > 0 ==> data[i] in r
  {
    Filter(data, HasTags)
  }

  /** When no group is empty, every group is kept. */
  lemma {:induction false} NonEmptyGroupsAll(data: seq<TagGroup>)
    requires forall i :: 0 <= i < |data| ==> |data[i].items| > 0
    ensures NonEmptyGroups(data) == data
  {
    FilterAll(data, HasTags);
  }

  /** The first tag of each group that has one, group by group. */
  function FirstTags(data: seq<TagGroup>): seq<Tag> {
    if data == [] then []
    else
      var last := data[|data| - 1];
      FirstTags(data[..|data| - 1]) + (if |last.items| > 0 then [last.items[0]] else [])
  }

  /** The first tags are those of the non-empty groups, one each and in the same order. */
  lemma {:induction false} FirstTagsOfNonEmpty(data: seq<TagGroup>)
    ensures |FirstTags(data)| == |NonEmptyGroups(data)|
    ensures forall j :: 0 <= j < |FirstTags(data)| ==> FirstTags(data)[j] == NonEmptyGroups(data)[j].items[0]
  {
    if data != [] {
      FirstTagsOfNonEmpty(data[..|data| - 1]);
    }
  }

  /** The `for` loop that pins the first tag of each non-empty group. */
  method PinnedTags(data: seq<TagGroup>) returns (pinned: seq<Tag>)
    ensures |pinned| == |NonEmptyGroups(data)|
    ensures forall j :: 0 <= j < |pinned| ==> pinned[j] == NonEmptyGroups(data)[j].items[0]
  {
    pinned := [];
    var i := 0;
    while i < |data|
      invariant 0 <= i <= |data|
      invariant pinned == FirstTags(data[..i])
    {
      assert data[..i + 1][..i] == data[..i] && data[..i + 1][i] == data[i];
      if |data[i].items| > 0 {
        pinned := pinned + [data[i].items[0]];
      }
      i := i + 1;
    }
    assert data[..i] == data;
    FirstTagsOfNonEmpty(data);
  }

  /**
   * `getRecommendSheetTags`: the first category is dropped, and each remaining group with
   * a tag pins its first tag, in group order.
   */
  method GetRecommendSheetTags(categories: seq<TagGroup>) returns (pinned: seq<Tag>, data: seq<TagGroup>)
    ensures data == if |categories| > 0 then categories[1..] else []
    ensures |pinned| == |NonEmptyGroups(data)|
    ensures forall j :: 0 <= j < |pinned| ==> pinned[j] == NonEmptyGroups(data)[j].items[0]
  {
    data := if |categories| > 0 then categories[1..] else [];
    pinned := PinnedTags(data);
  }
}
