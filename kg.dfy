/**
 * The KuGou plugin (plugins/kg.js): the privilege answer read into per-hash quality
 * tables, the track formatters and their fallbacks, the song-count chunking of a
 * collection playlist, local paging of an imported playlist and the stream-URL request.
 */
module Kg {
  import opened Wrappers
  import opened JsString
  import opened JsObject
  import opened Quality
  import opened Vendor
  import opened Paging

  // ---------------------------------------------------------------- getBatchMusicQualityInfo

  /**
   * An element of `relate_goods`: the vendor quality code, the file size (None when the
   * `info` object is missing, so that reading it throws) and the file hash.
   */
  datatype Good = Good(code: string, filesize: Option<Val>, hash: Val)

  /** An element of the answer's `data`: a song without `relate_goods`, or its goods. */
  datatype SongGoods = NoGoods | Goods(goods: seq<Good>)

  /**
   * The privilege endpoint's answer: whether `res.data && res.data.error_code == 0 &&
   * res.data.data` held, and the per-song data; or the request threw.
   */
  datatype PrivilegeAnswer = Privileges(accepted: bool, data: seq<SongGoods>) | PrivilegeThrew

  /** The tag and bitrate of a vendor quality code; `dolby`, `viper_tape` and the rest are ignored. */
  function GoodTier(code: string): (r: Option<(string, int)>)
    ensures r.Some? ==> r.value.0 in {T128, T320, TFlac, THires, TMaster, TAtmos}
  {
    if code == "128" then Some((T128, 128000))
    else if code == "320" then Some((T320, 320000))
    else if code == "flac" then Some((TFlac, 1411000))
    else if code == "high" then Some((THires, 2304000))
    else if code == "viper_clear" then Some((TMaster, 2304000))
    else if code == "viper_atmos" then Some((TAtmos, 1411000))
    else None
  }

  /** Reading this good throws. */
  predicate Broken(g: Good) {
    g.filesize.None?
  }

  /** What one good contributes: nothing when it is broken, its size falsy or its code unknown. */
  function GoodEntry(g: Good): Entry {
    if g.filesize.None? || !Truthy(g.filesize.value) then None
    else
      match GoodTier(g.code)
      case None => None
      case Some(t) => Some((t.0, Descriptor(g.filesize.value, Num(t.1), g.hash, Undefined)))
  }

  predicate AllIntact(gs: seq<Good>) {
    forall i :: 0 <= i < |gs| ==> !Broken(gs[i])
  }

  function GoodEntries(gs: seq<Good>): (es: seq<Entry>)
    ensures |es| == |gs| && forall i :: 0 <= i < |gs| ==> es[i] == GoodEntry(gs[i])
  {
    seq(|gs|, i requires 0 <= i < |gs| => GoodEntry(gs[i]))
  }

  /** The `for...of` over one song's goods: its table, or None when a good throws. */
  method ReadGoods(gs: seq<Good>) returns (q: Option<Qualities>)
    ensures q.Some? <==> AllIntact(gs)
    ensures q.Some? ==> q.value == Table(GoodEntries(gs))
  {
    var qualities: Qualities := [];
    var i := 0;
    while i < |gs|
      invariant 0 <= i <= |gs|
      invariant AllIntact(gs[..i])
      invariant qualities == Table(GoodEntries(gs[..i]))
    {
      if gs[i].filesize.None? {
        return None;
      }
      assert gs[..i + 1][..i] == gs[..i];
      assert GoodEntries(gs[..i + 1]) == GoodEntries(gs[..i]) + [GoodEntry(gs[i])];
      var size := gs[i].filesize.value;
      if Truthy(size) {
        var tier := GoodTier(gs[i].code);
        if tier.Some? {
          qualities := Put(qualities, tier.value.0, Descriptor(size, Num(tier.value.1), gs[i].hash, Undefined));
        }
      }
      i := i + 1;
    }
    assert gs[..|gs|] == gs;
    q := Some(qualities);
  }

  /** A tag is in a song's table exactly when some good of that tier has a truthy size. */
  lemma {:induction false} GoodTableHas(gs: seq<Good>, tag: string)
    requires AllIntact(gs)
    ensures Has(Table(GoodEntries(gs)), tag) <==>
              exists i :: 0 <= i < |gs| && Truthy(gs[i].filesize.value) && GoodTier(gs[i].code).Some? &&
                          GoodTier(gs[i].code).value.0 == tag
  {
    var es := GoodEntries(gs);
    TableHas(es, tag);
    assert forall i :: 0 <= i < |gs| ==> (Fills(es[i], tag) <==>
      Truthy(gs[i].filesize.value) && GoodTier(gs[i].code).Some? && GoodTier(gs[i].code).value.0 == tag);
  }

  /** `hashList[index]`: a song past the end of the hash list is keyed "undefined". */
  function HashAt(hashList: seq<string>, i: nat): string {
    if i < |hashList| then hashList[i] else UndefinedText
  }

  predicate SongIntact(s: SongGoods) {
    s.NoGoods? || AllIntact(s.goods)
  }

  /** What song `i` contributes to `qualityInfoMap`: nothing without goods, else its table under its hash. */
  function SongEntry(hashList: seq<string>, data: seq<SongGoods>, i: nat): Option<(string, Qualities)>
    requires i < |data|
  {
    match data[i]
    case NoGoods => None
    case Goods(gs) => Some((HashAt(hashList, i), Table(GoodEntries(gs))))
  }

  function SongEntries(hashList: seq<string>, data: seq<SongGoods>): (es: seq<Option<(string, Qualities)>>)
    ensures |es| == |data| && forall i :: 0 <= i < |data| ==> es[i] == SongEntry(hashList, data, i)
  {
    seq(|data|, i requires 0 <= i < |data| => SongEntry(hashList, data, i))
  }

  /** The map after one more song, or None when one of its goods throws. */
  function SongStep(m: Dict<Qualities>, hash: string, s: SongGoods): Dict<Qualities>
  {
    match s
    case NoGoods => m
    case Goods(gs) => Put(m, hash, Table(GoodEntries(gs)))
  }

  /** `qualityInfoMap` once every song of `data` has been read. */
  function Keyed(hashList: seq<string>, data: seq<SongGoods>): Dict<Qualities> {
    if data == [] then []
    else SongStep(Keyed(hashList, data[..|data| - 1]), HashAt(hashList, |data| - 1), data[|data| - 1])
  }

  /** The same map, as the table of the songs' entries. */
  lemma {:induction false} KeyedIsTable(hashList: seq<string>, data: seq<SongGoods>)
    ensures Keyed(hashList, data) == Table(SongEntries(hashList, data))
  {
    if data != [] {
      var n := |data| - 1;
      var es := SongEntries(hashList, data);
      KeyedIsTable(hashList, data[..n]);
      assert es[..n] == SongEntries(hashList, data[..n]);
    }
  }

  predicate AllSongsIntact(data: seq<SongGoods>) {
    forall i :: 0 <= i < |data| ==> SongIntact(data[i])
  }

  /** One turn of the loop over `res.data.data`. */
  method ReadSong(m: Dict<Qualities>, hash: string, s: SongGoods) returns (r: Option<Dict<Qualities>>)
    ensures r.Some? <==> SongIntact(s)
    ensures r.Some? ==> r.value == SongStep(m, hash, s)
  {
    if s.NoGoods? {
      return Some(m);
    }
    var q := ReadGoods(s.goods);
    if q.None? {
      return None;
    }
    r := Some(Put(m, hash, q.value));
  }

  /** The loop over `res.data.data`: the keyed tables, or None when some good throws. */
  method ReadSongs(hashList: seq<string>, data: seq<SongGoods>) returns (m: Option<Dict<Qualities>>)
    ensures m.Some? <==> AllSongsIntact(data)
    ensures m.Some? ==> m.value == Keyed(hashList, data)
  {
    var qualityInfoMap: Dict<Qualities> := [];
    var index := 0;
    while index < |data|
      invariant 0 <= index <= |data|
      invariant forall i :: 0 <= i < index ==> SongIntact(data[i])
      invariant qualityInfoMap == Keyed(hashList, data[..index])
    {
      var r := ReadSong(qualityInfoMap, HashAt(hashList, index), data[index]);
      if r.None? {
        return None;
      }
      KeyedStep(hashList, data, index);
      qualityInfoMap := r.value;
      index := index + 1;
    }
    assert data[..|data|] == data;
    m := Some(qualityInfoMap);
  }

  /** Reading song `i` puts its table, if it has goods, under its hash. */
  lemma {:induction false} KeyedStep(hashList: seq<string>, data: seq<SongGoods>, i: nat)
    requires i < |data|
    ensures Keyed(hashList, data[..i + 1]) == SongStep(Keyed(hashList, data[..i]), HashAt(hashList, i), data[i])
  {
    assert data[..i + 1][..i] == data[..i];
  }

  /**
   * `getBatchMusicQualityInfo`: no request for an empty list; a refused or failed answer,
   * or any good without `info`, gives `{}`; otherwise one table per song with goods.
   */
  method GetBatchMusicQualityInfo(hashList: seq<string>, answer: PrivilegeAnswer) returns (sent: bool, m: Dict<Qualities>)
    ensures sent <==> |hashList| > 0
    ensures !sent ==> m == []
    ensures sent && answer.Privileges? && answer.accepted && AllSongsIntact(answer.data) ==>
              m == Keyed(hashList, answer.data)
    ensures sent && !(answer.Privileges? && answer.accepted && AllSongsIntact(answer.data)) ==> m == []
  {
    if |hashList| == 0 {
      return false, [];
    }
    sent := true;
    if answer.PrivilegeThrew? || !answer.accepted {
      return true, [];
    }
    var r := ReadSongs(hashList, answer.data);
    m := r.GetOr([]);
  }

  /**
   * With the songs answered in hash-list order over distinct hashes, each hash of a song
   * with goods is a key holding that song's table, and a song without goods gets no key.
   */
  lemma {:induction false} KeyedByHash(hashList: seq<string>, data: seq<SongGoods>, i: nat)
    requires |data| <= |hashList| && i < |data|
    requires forall j, k :: 0 <= j < k < |hashList| ==> hashList[j] != hashList[k]
    ensures data[i].Goods? ==> Lookup(Keyed(hashList, data), hashList[i]) == Some(Table(GoodEntries(data[i].goods)))
    ensures data[i].NoGoods? ==> !Has(Keyed(hashList, data), hashList[i])
  {
    var es := SongEntries(hashList, data);
    KeyedIsTable(hashList, data);
    assert forall j :: 0 <= j < |es| && j != i ==> !Fills(es[j], hashList[i]) by {
      forall j | 0 <= j < |es| && j != i ensures !Fills(es[j], hashList[i]) {
        assert HashAt(hashList, j) == hashList[j];
      }
    }
    if data[i].Goods? {
      TableLast(es, hashList[i], i);
    } else {
      TableHas(es, hashList[i]);
    }
  }

  // ---------------------------------------------------------------- formatMusicItem

  /** The fields of a search hit `formatMusicItem` reads for its id and qualities. */
  datatype SearchSong = SearchSong(fileHash: Option<string>, groupFileHash: string)

  /** `_.FileHash ?? _.Grp[0].FileHash` */
  function SongId(s: SearchSong): string {
    s.fileHash.GetOr(s.groupFileHash)
  }

  /**
   * The qualities of a formatted hit: the batch table for its id when that table is
   * non-empty, and otherwise exactly 128k, 320k and flac with empty descriptors.
   */
  function SongQualities(s: SearchSong, info: Dict<Qualities>): (q: Qualities)
    ensures Lookup(info, SongId(s)).Some? && |Lookup(info, SongId(s)).value| > 0 ==> q == Lookup(info, SongId(s)).value
    ensures !(Lookup(info, SongId(s)).Some? && |Lookup(info, SongId(s)).value| > 0) ==> q == Basic3
  {
    var q := Lookup(info, SongId(s)).GetOr([]);
    if |q| == 0 then Basic3 else q
  }

  // ---------------------------------------------------------------- formatImportMusicItem

  /**
   * The title of an imported track: when the name contains the singer, what follows the
   * singer and two more characters, trimmed; the singer when that leaves nothing.
   */
  function ImportTitle(name: string, singer: string): (t: string)
    ensures singer == [] || name == [] || !Contains(name, singer) ==> t == name
    ensures singer != [] && name != [] ==> t != []
  {
    if singer != [] && name != [] then
      var index := IndexOf(name, singer);
      var title := if index != -1 then Trim(name[ClampIndex(index + |singer| + 2, |name|)..]) else name;
      if title == [] then singer else title
    else name
  }

  /** A name shaped `singer - title` gives back the title. */
  lemma {:induction false} ImportTitleOfShape(singer: string, title: string)
    requires singer != [] && title != [] && Trim(title) == title
    ensures ImportTitle(singer + " - " + title, singer) == title
  {
    var name := singer + " - " + title;
    assert OccursAt(name, singer, 0);
    assert IndexOf(name, singer) == 0;
    assert name[|singer| + 2..] == " " + title;
    TrimSpaceBefore(title);
  }

  /** A leading space is trimmed away. */
  lemma {:induction false} TrimSpaceBefore(t: string)
    requires Trim(t) == t
    ensures Trim(" " + t) == t
  {
    assert (" " + t)[1..] == t;
    assert TrimStart(" " + t) == TrimStart(t);
  }

  // ---------------------------------------------------------------- formatArtistSongItem

  /** Artist and title read from a `filename` such as "artist - title.mp3". */
  function FilenameParts(filename: string): (string, string) {
    if filename == [] then ([], [])
    else
      var parts := Split(filename, '-');
      if |parts| >= 2 then (Trim(parts[0]), Trim(StripMp3(Join(parts[1..], "-"))))
      else ([], Trim(StripMp3(filename)))
  }

  /**
   * The artist is the trimmed text before the first '-' and the title the trimmed rest
   * without its ".mp3"; a filename without '-' is all title.
   */
  lemma {:induction false} FilenameSplitsAtFirstDash(filename: string, i: nat)
    requires i <= |filename| && '-' !in filename[..i] && (i == |filename| || filename[i] == '-')
    ensures i < |filename| ==> FilenameParts(filename) == (Trim(filename[..i]), Trim(StripMp3(filename[i + 1..])))
    ensures i == |filename| ==> FilenameParts(filename) == ([], Trim(StripMp3(filename)))
  {
    SplitAtFirst(filename, '-', i);
    if i < |filename| {
      JoinSplit(filename[i + 1..], '-');
    }
  }

  const UnknownTitle: string := "未知歌曲"
  const UnknownArtist: string := "未知歌手"

  /** The title and artist of an artist-song entry, with the fallbacks: neither is ever empty. */
  function ArtistSongLabels(filename: string, songname: string, singername: string): (r: (string, string))
    ensures r.0 != [] && r.1 != []
    ensures FilenameParts(filename).0 != [] ==> r.1 == FilenameParts(filename).0
    ensures FilenameParts(filename).1 != [] ==> r.0 == FilenameParts(filename).1
  {
    var (artist, title) := FilenameParts(filename);
    (if title != [] then title else if songname != [] then songname else UnknownTitle,
     if artist != [] then artist else if singername != [] then singername else UnknownArtist)
  }

  // ---------------------------------------------------------------- getUserListDetail2

  const MaxCollectionIdLength: nat := 1000
  const ChunkSize: nat := 300

  function Sum(xs: seq<nat>): nat {
    if xs == [] then 0 else Sum(xs[..|xs| - 1]) + xs[|xs| - 1]
  }

  /**
   * The requests of `getUserListDetail2` up to the song pages: an id longer than 1000
   * characters throws before any request; without `info` nothing more is asked; otherwise
   * `info.songcount || 100` songs are asked for in pages 1, 2, ... of 300 but the last.
   */
  method SongChunks(id: string, info: Option<int>) returns (thrown: bool, limits: seq<nat>, pages: seq<nat>)
    ensures thrown <==> |id| > MaxCollectionIdLength
    ensures thrown || info.None? ==> limits == [] && pages == []
    ensures |limits| == |pages|
    ensures forall i :: 0 <= i < |pages| ==> pages[i] == i + 1
    ensures forall i :: 0 <= i < |limits| ==> 0 < limits[i] <= ChunkSize
    ensures forall i :: 0 <= i < |limits| - 1 ==> limits[i] == ChunkSize
    ensures !thrown && info.Some? ==>
              var n := if info.value != 0 then info.value else 100;
              Sum(limits) == (if n > 0 then n else 0) &&
              |limits| == if n > 0 then (n + ChunkSize - 1) / ChunkSize else 0
  {
    if |id| > MaxCollectionIdLength {
      return true, [], [];
    }
    thrown := false;
    limits := [];
    pages := [];
    if info.None? {
      return;
    }
    var songcount := if info.value != 0 then info.value else 100;
    var page := 0;
    var total := songcount;
    while total > 0
      invariant |limits| == |pages| == page
      invariant forall i :: 0 <= i < |pages| ==> pages[i] == i + 1
      invariant forall i :: 0 <= i < |limits| ==> 0 < limits[i] <= ChunkSize
      invariant forall i :: 0 <= i < |limits| ==> total > 0 || i < |limits| - 1 ==> limits[i] == ChunkSize
      invariant songcount > 0 ==> Sum(limits) + (if total > 0 then total else 0) == songcount
      invariant songcount > 0 ==> total > 0 ==> total == songcount - page * ChunkSize
      invariant songcount > 0 ==> total <= 0 ==> total == 0 && (page - 1) * ChunkSize < songcount <= page * ChunkSize
      invariant songcount <= 0 ==> page == 0 && total == songcount
      decreases total
    {
      var limit := if total > ChunkSize then ChunkSize else total;
      assert (limits + [limit])[..|limits|] == limits;
      total := total - limit;
      page := page + 1;
      limits := limits + [limit];
      pages := pages + [page];
    }
    if songcount > 0 {
      assert (page - 1) * ChunkSize < songcount <= page * ChunkSize;
      assert page == (songcount + ChunkSize - 1) / ChunkSize;
    }
  }

  /** The qualities given to an imported song: its batch table when there is one, else the three basic ones. */
  function MergedQualities(hash: string, info: Dict<Qualities>): (q: Qualities)
    ensures Has(info, hash) ==> q == Get(info, hash)
    ensures !Has(info, hash) ==> q == Basic3
  {
    match Lookup(info, hash)
    case Some(t) => t
    case None => Basic3
  }

  // ---------------------------------------------------------------- getMusicSheetInfo

  const SheetPageSize: nat := 100

  /** `sheetId.replace('id_', '')` after `startsWith('id_')`: the prefix is dropped. */
  function SheetId(sheetId: string): (r: string)
    ensures StartsWith(sheetId, "id_") ==> r == sheetId[3..]
    ensures !StartsWith(sheetId, "id_") ==> r == sheetId
  {
    if StartsWith(sheetId, "id_") then
      ReplaceFirstPrefix(sheetId, "id_");
      ReplaceFirst(sheetId, "id_", "")
    else sheetId
  }

  /** What `getMusicSheetInfo` returns for an imported list: a page of it and the `isEnd` flag. */
  datatype SheetPage<T> = SheetPage(isEnd: bool, musicList: seq<T>)

  /**
   * The imported branch: an empty import of a URL-looking id ends at once; otherwise
   * page `page` of the list, 100 per page, ending when the list ends within it.
   */
  function ImportedPage<T>(sheetId: string, imported: Option<seq<T>>, page: int): (r: SheetPage<T>)
    ensures imported.Some? && !(|imported.value| == 0 && Contains(sheetId, "http")) ==>
              r == SheetPage(LastPage(imported.value, page, SheetPageSize), Page(imported.value, page, SheetPageSize))
    ensures imported.None? ==> r.isEnd && r.musicList == []
  {
    if (imported.None? || |imported.value| == 0) && Contains(sheetId, "http") then SheetPage(true, [])
    else
      match imported
      case None => SheetPage(true, [])
      case Some(list) => SheetPage(LastPage(list, page, SheetPageSize), Page(list, page, SheetPageSize))
  }

  // ---------------------------------------------------------------- getMediaSource

  /** The fields of a track the stream request reads. */
  datatype Track = Track(id: Val, sqhash: Val)

  /** `qualityLevels[quality]` */
  function QualityLevel(tag: string): (r: Option<string>)
    ensures r.Some? <==> tag in {T128, T320, TFlac, "flac24bit", THires, TAtmos, TMaster}
    ensures r.Some? ==> r.value == tag
  {
    if tag in {T128, T320, TFlac, "flac24bit", THires, TAtmos, TMaster} then Some(tag) else None
  }

  /**
   * `getMediaSource`: no quality gate; the lossless hash is sent when present, else the
   * id; only `code === 200` with a URL resolves, and a failed request is re-thrown.
   */
  function GetMediaSource(t: Track, quality: string, answer: Exchange): (a: Attempt)
    ensures a.sent.Some?
    ensures a.sent.value.songId == (if Truthy(t.sqhash) then t.sqhash else t.id)
    ensures a.sent.value.quality == QualityLevel(quality).GetOr(UndefinedText)
    ensures a.outcome.Resolved? <==> answer.Answered? && Succeeded(answer.reply)
    ensures a.outcome.Resolved? ==> a.outcome.media == Media(answer.reply.url, None)
    ensures answer.Threw? ==> a.outcome == Raised
    ensures answer.Answered? && !Succeeded(answer.reply) ==> a.outcome == NullResult
  {
    var req := Request("kg", Or(t.sqhash, t.id), QualityLevel(quality).GetOr(UndefinedText));
    match answer
    case Threw => Attempt(Some(req), Raised)
    case Answered(r) =>
      if Succeeded(r) then Attempt(Some(req), Resolved(Media(r.url, None)))
      else Attempt(Some(req), NullResult)
  }
}
