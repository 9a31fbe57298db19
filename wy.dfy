/**
 * The NetEase plugin (plugins/wy.js): quality tables from the privilege bitrate and the
 * detailed audio fields, the per-id quality lookup and its merge into a track list, the
 * 200-id batches of a playlist, local paging of a sheet, the padding around the RSA step
 * of the request encryption, and the quality gate of the stream-URL request.
 */
module Wy {
  import opened Wrappers
  import opened JsString
  import opened JsObject
  import opened Quality
  import opened Vendor
  import opened Paging

  // ---------------------------------------------------------------- quality tables

  /** One detailed audio field of a song (`l`, `m`, `h`, `sq`, `hr`, `jm`, `je`): `{size, br}`. */
  datatype Audio = Audio(size: Val, br: Val)

  /** The `privilege` object: `maxbr` and `maxBrLevel`. */
  datatype Privilege = Privilege(maxbr: Val, maxBrLevel: Val)

  /** The fields of a song record `formatMusicItem` reads; an absent field is `None`. */
  datatype Song = Song(
    privilege: Option<Privilege>,
    l: Option<Audio>, m: Option<Audio>, h: Option<Audio>, sq: Option<Audio>,
    hr: Option<Audio>, jm: Option<Audio>, je: Option<Audio>)

  /** `x && x.size`: the field is present with a truthy size. */
  predicate Sized(a: Option<Audio>) {
    a.Some? && Truthy(a.value.size)
  }

  /** `maxbr || maxBrLevel` is truthy and at least `t`. */
  predicate Admits(p: Option<Privilege>, t: int) {
    p.Some? && Truthy(Or(p.value.maxbr, p.value.maxBrLevel)) && AtLeast(Or(p.value.maxbr, p.value.maxBrLevel), t)
  }

  /** One privilege tier: `tag` with `{bitrate}` when the maximum bitrate reaches `t`. */
  function TierEntry(p: Option<Privilege>, t: int, tag: string, bitrate: int): (e: Entry)
    ensures e.Some? <==> Admits(p, t)
    ensures e.Some? ==> e.value == (tag, RateOnly(bitrate))
  {
    if Admits(p, t) then Some((tag, RateOnly(bitrate))) else None
  }

  /** The four tiers of the privilege check, in the order the source assigns them. */
  function TierEntries(p: Option<Privilege>): seq<Entry> {
    [TierEntry(p, 128000, T128, 128000), TierEntry(p, 320000, T320, 320000),
     TierEntry(p, 999000, TFlac, 1411000), TierEntry(p, 1999000, THires, 2304000)]
  }

  /**
   * The 128k detail: `l` with a size, or `m` with a size when there is no `h`. The data
   * is then `l || m`, so a present `l` without a size is the one read.
   */
  predicate LowDetail(s: Song) {
    Sized(s.l) || (Sized(s.m) && s.h.None?)
  }

  function LowEntry(s: Song): (e: Entry)
    ensures e.Some? <==> LowDetail(s)
    ensures e.Some? && s.l.Some? ==> e.value == (T128, Descriptor(s.l.value.size, Or(s.l.value.br, Num(128000)), Undefined, Undefined))
    ensures e.Some? && s.l.None? ==> e.value == (T128, Descriptor(s.m.value.size, Or(s.m.value.br, Num(128000)), Undefined, Undefined))
  {
    if LowDetail(s) then
      var a := if s.l.Some? then s.l.value else s.m.value;
      Some((T128, Descriptor(a.size, Or(a.br, Num(128000)), Undefined, Undefined)))
    else None
  }

  /** A detail field with a size gives `tag` with its size and bitrate, the bitrate `br || fallback`. */
  function DetailEntry(a: Option<Audio>, tag: string, fallback: Val): (e: Entry)
    ensures e.Some? <==> Sized(a)
    ensures e.Some? ==> e.value == (tag, Descriptor(a.value.size, Or(a.value.br, fallback), Undefined, Undefined))
  {
    if Sized(a) then Some((tag, Descriptor(a.value.size, Or(a.value.br, fallback), Undefined, Undefined))) else None
  }

  /** A detail field with a size gives `tag` with its size and its `br` as it is, with no fallback. */
  function RawEntry(a: Option<Audio>, tag: string): (e: Entry)
    ensures e.Some? <==> Sized(a)
    ensures e.Some? ==> e.value == (tag, Descriptor(a.value.size, a.value.br, Undefined, Undefined))
  {
    if Sized(a) then Some((tag, Descriptor(a.value.size, a.value.br, Undefined, Undefined))) else None
  }

  /** The six detail assignments; master and atmos take `br` with no fallback. */
  function DetailEntries(s: Song): seq<Entry> {
    [LowEntry(s), DetailEntry(s.h, T320, Num(320000)), DetailEntry(s.sq, TFlac, Num(1411000)),
     DetailEntry(s.hr, THires, Num(2304000)), RawEntry(s.jm, TMaster),
     RawEntry(s.je, TAtmos)]
  }

  /** The entries of `formatMusicItem`, tiers first. */
  function FormatEntries(s: Song): (es: seq<Entry>)
    ensures |es| == 10
  {
    TierEntries(s.privilege) + DetailEntries(s)
  }

  /** `{128k: {bitrate: 128000}, 320k: {bitrate: 320000}}` */
  const TwoTiers: Qualities := [(T128, RateOnly(128000)), (T320, RateOnly(320000))]

  /** `formatMusicItem`'s table: tiers, then the details over them, then the default when empty. */
  function FormatQualities(s: Song): (r: Qualities)
    ensures |r| > 0 && UniqueKeys(r)
  {
    TableUnique(FormatEntries(s));
    var q := Table(FormatEntries(s));
    if |q| == 0 then TwoTiers else q
  }

  /** The tiers are cumulative: reaching a tier means reaching every one below it. */
  lemma {:induction false} TiersCumulative(p: Option<Privilege>)
    ensures Admits(p, 1999000) ==> Admits(p, 999000)
    ensures Admits(p, 999000) ==> Admits(p, 320000)
    ensures Admits(p, 320000) ==> Admits(p, 128000)
  {
  }

  /** Nothing from the privilege and nothing from the details. */
  predicate NoInfo(s: Song) {
    !Admits(s.privilege, 128000) && !LowDetail(s) && !Sized(s.h) && !Sized(s.sq) &&
    !Sized(s.hr) && !Sized(s.jm) && !Sized(s.je)
  }

  /** Which tags the entries of `formatMusicItem` fill. */
  lemma {:induction false} FormatFilled(s: Song, tag: string)
    ensures Filled(FormatEntries(s), tag) <==>
              (tag == T128 && (Admits(s.privilege, 128000) || LowDetail(s))) ||
              (tag == T320 && (Admits(s.privilege, 320000) || Sized(s.h))) ||
              (tag == TFlac && (Admits(s.privilege, 999000) || Sized(s.sq))) ||
              (tag == THires && (Admits(s.privilege, 1999000) || Sized(s.hr))) ||
              (tag == TMaster && Sized(s.jm)) ||
              (tag == TAtmos && Sized(s.je))
  {
    FilledConcat(TierEntries(s.privilege), DetailEntries(s), tag);
    FilledSmall(TierEntries(s.privilege), tag);
    FilledSmall(DetailEntries(s), tag);
  }

  /** The entry table is empty exactly when there is no information at all. */
  lemma {:induction false} FormatEmpty(s: Song)
    ensures Table(FormatEntries(s)) == [] <==> NoInfo(s)
  {
    var es := FormatEntries(s);
    TableEmpty(es);
    if NoInfo(s) {
      TiersCumulative(s.privilege);
      forall i | 0 <= i < |es| ensures es[i].None? {
        assert i < 4 || i - 4 < 6;
      }
    } else {
      TiersCumulative(s.privilege);
      var i: nat :| i < |es| && es[i].Some? by {
        if Admits(s.privilege, 128000) { assert es[0].Some?; }
        else if LowDetail(s) { assert es[4].Some?; }
        else if Sized(s.h) { assert es[5].Some?; }
        else if Sized(s.sq) { assert es[6].Some?; }
        else if Sized(s.hr) { assert es[7].Some?; }
        else if Sized(s.jm) { assert es[8].Some?; }
        else { assert es[9].Some?; }
      }
    }
  }

  /**
   * The tags of `formatMusicItem`'s table: each tier tag when the maximum bitrate
   * reaches it or its detail field has a size, master and atmos from their details only,
   * and 128k and 320k also when nothing at all is known.
   */
  lemma {:induction false} FormatTags(s: Song, tag: string)
    ensures Has(FormatQualities(s), tag) <==>
              (tag == T128 && (Admits(s.privilege, 128000) || LowDetail(s) || NoInfo(s))) ||
              (tag == T320 && (Admits(s.privilege, 320000) || Sized(s.h) || NoInfo(s))) ||
              (tag == TFlac && (Admits(s.privilege, 999000) || Sized(s.sq))) ||
              (tag == THires && (Admits(s.privilege, 1999000) || Sized(s.hr))) ||
              (tag == TMaster && Sized(s.jm)) ||
              (tag == TAtmos && Sized(s.je))
  {
    var es := FormatEntries(s);
    FormatEmpty(s);
    if !NoInfo(s) {
      TableHas(es, tag);
      FormatFilled(s, tag);
    }
  }

  /** A tag holds the descriptor of the last entry that fills it. */
  lemma {:induction false} FormatLookup(s: Song, tag: string, i: nat)
    requires i < 10 && Fills(FormatEntries(s)[i], tag)
    requires forall j :: i < j < 10 ==> !Fills(FormatEntries(s)[j], tag)
    ensures Lookup(FormatQualities(s), tag) == Some(FormatEntries(s)[i].value.1)
  {
    var es := FormatEntries(s);
    assert Has(Table(es), tag) by {
      TableHas(es, tag);
    }
    TableLast(es, tag, i);
  }

  /** A detail field with a size decides its tag's descriptor over the privilege tier. */
  lemma {:induction false} DetailOverridesTier(s: Song)
    ensures Sized(s.h) ==> Lookup(FormatQualities(s), T320) == Some(Descriptor(s.h.value.size, Or(s.h.value.br, Num(320000)), Undefined, Undefined))
    ensures Sized(s.sq) ==> Lookup(FormatQualities(s), TFlac) == Some(Descriptor(s.sq.value.size, Or(s.sq.value.br, Num(1411000)), Undefined, Undefined))
    ensures Sized(s.hr) ==> Lookup(FormatQualities(s), THires) == Some(Descriptor(s.hr.value.size, Or(s.hr.value.br, Num(2304000)), Undefined, Undefined))
    ensures Sized(s.jm) ==> Lookup(FormatQualities(s), TMaster) == Some(Descriptor(s.jm.value.size, s.jm.value.br, Undefined, Undefined))
    ensures Sized(s.je) ==> Lookup(FormatQualities(s), TAtmos) == Some(Descriptor(s.je.value.size, s.je.value.br, Undefined, Undefined))
  {
    var es := FormatEntries(s);
    assert es[5] == DetailEntry(s.h, T320, Num(320000)) && es[6] == DetailEntry(s.sq, TFlac, Num(1411000));
    assert es[7] == DetailEntry(s.hr, THires, Num(2304000)) && es[8] == RawEntry(s.jm, TMaster);
    assert es[9] == RawEntry(s.je, TAtmos);
    if Sized(s.h) {
      forall j | 5 < j < 10 ensures !Fills(es[j], T320) {
        assert j == 6 || j == 7 || j == 8 || j == 9;
      }
      FormatLookup(s, T320, 5);
    }
    if Sized(s.sq) {
      forall j | 6 < j < 10 ensures !Fills(es[j], TFlac) {
        assert j == 7 || j == 8 || j == 9;
      }
      FormatLookup(s, TFlac, 6);
    }
    if Sized(s.hr) {
      forall j | 7 < j < 10 ensures !Fills(es[j], THires) {
        assert j == 8 || j == 9;
      }
      FormatLookup(s, THires, 7);
    }
    if Sized(s.jm) {
      forall j | 8 < j < 10 ensures !Fills(es[j], TMaster) {
        assert j == 9;
      }
      FormatLookup(s, TMaster, 8);
    }
    if Sized(s.je) {
      FormatLookup(s, TAtmos, 9);
    }
  }

  /** Without a detail field, a reached tier holds the tier's fixed bitrate. */
  lemma {:induction false} TierWithoutDetail(s: Song)
    ensures Admits(s.privilege, 320000) && !Sized(s.h) ==> Lookup(FormatQualities(s), T320) == Some(RateOnly(320000))
    ensures Admits(s.privilege, 999000) && !Sized(s.sq) ==> Lookup(FormatQualities(s), TFlac) == Some(RateOnly(1411000))
  {
    var es := FormatEntries(s);
    assert es[1] == TierEntry(s.privilege, 320000, T320, 320000) && es[2] == TierEntry(s.privilege, 999000, TFlac, 1411000);
    assert es[3] == TierEntry(s.privilege, 1999000, THires, 2304000) && es[4] == LowEntry(s);
    assert es[5] == DetailEntry(s.h, T320, Num(320000)) && es[6] == DetailEntry(s.sq, TFlac, Num(1411000));
    assert es[7] == DetailEntry(s.hr, THires, Num(2304000)) && es[8] == RawEntry(s.jm, TMaster);
    assert es[9] == RawEntry(s.je, TAtmos);
    if Admits(s.privilege, 320000) && !Sized(s.h) {
      forall j | 1 < j < 10 ensures !Fills(es[j], T320) {
        assert j == 2 || j == 3 || j == 4 || j == 5 || j == 6 || j == 7 || j == 8 || j == 9;
      }
      FormatLookup(s, T320, 1);
    }
    if Admits(s.privilege, 999000) && !Sized(s.sq) {
      forall j | 2 < j < 10 ensures !Fills(es[j], TFlac) {
        assert j == 3 || j == 4 || j == 5 || j == 6 || j == 7 || j == 8 || j == 9;
      }
      FormatLookup(s, TFlac, 2);
    }
  }

  // ---------------------------------------------------------------- getMusicQualityInfo

  /** The `data` of a song-detail reply: the seven audio fields. */
  datatype Detail = Detail(
    l: Option<Audio>, m: Option<Audio>, h: Option<Audio>, sq: Option<Audio>,
    hr: Option<Audio>, jm: Option<Audio>, je: Option<Audio>)

  /** A song-detail request settled: it threw, or answered with an HTTP status, a `code` and data. */
  datatype DetailAnswer = DetailThrew | DetailReply(status: int, code: Val, data: Detail)

  /** A field with a size, its size rendered by `sizeFormate` and its bitrate `br || fallback`. */
  function InfoEntry(a: Option<Audio>, tag: string, fallback: int): (e: Entry)
    ensures e.Some? <==> Sized(a)
    ensures e.Some? ==> e.value == (tag, Descriptor(Formatted(a.value.size), Or(a.value.br, Num(fallback)), Undefined, Undefined))
  {
    if Sized(a) then Some((tag, Descriptor(Formatted(a.value.size), Or(a.value.br, Num(fallback)), Undefined, Undefined))) else None
  }

  /** The six assignments of `getMusicQualityInfo`; 128k reads `l`, else `m`. */
  function InfoEntries(d: Detail): seq<Entry> {
    [if Sized(d.l) then InfoEntry(d.l, T128, 128000) else InfoEntry(d.m, T128, 128000),
     InfoEntry(d.h, T320, 320000), InfoEntry(d.sq, TFlac, 1411000), InfoEntry(d.hr, THires, 2304000),
     InfoEntry(d.jm, TMaster, 4608000), InfoEntry(d.je, TAtmos, 1411000)]
  }

  /** `getMusicQualityInfo`: `{}` unless the reply has status 200 and code 200. */
  function MusicQualityInfo(answer: DetailAnswer): (r: Qualities)
    ensures !(answer.DetailReply? && answer.status == 200 && answer.code == Num(200)) ==> r == []
    ensures UniqueKeys(r)
  {
    if answer.DetailReply? && answer.status == 200 && answer.code == Num(200) then
      TableUnique(InfoEntries(answer.data));
      Table(InfoEntries(answer.data))
    else []
  }

  /**
   * A tag is present exactly when its field has a truthy size (`l` or `m` for 128k), and
   * a failed request or a non-200 reply gives `{}`.
   */
  lemma {:induction false} MusicQualityInfoTags(answer: DetailAnswer, tag: string)
    ensures !(answer.DetailReply? && answer.status == 200 && answer.code == Num(200)) ==> MusicQualityInfo(answer) == []
    ensures answer.DetailReply? && answer.status == 200 && answer.code == Num(200) ==>
              (Has(MusicQualityInfo(answer), tag) <==>
                (tag == T128 && (Sized(answer.data.l) || Sized(answer.data.m))) ||
                (tag == T320 && Sized(answer.data.h)) || (tag == TFlac && Sized(answer.data.sq)) ||
                (tag == THires && Sized(answer.data.hr)) || (tag == TMaster && Sized(answer.data.jm)) ||
                (tag == TAtmos && Sized(answer.data.je)))
  {
    if answer.DetailReply? && answer.status == 200 && answer.code == Num(200) {
      TableHas(InfoEntries(answer.data), tag);
      FilledSmall(InfoEntries(answer.data), tag);
    }
  }

  /** The 128k entry prefers `l`: `m` is read only when `l` has no size. */
  lemma {:induction false} LowPrefersL(d: Detail)
    requires Sized(d.l)
    ensures Lookup(Table(InfoEntries(d)), T128) == Some(Descriptor(Formatted(d.l.value.size), Or(d.l.value.br, Num(128000)), Undefined, Undefined))
  {
    var es := InfoEntries(d);
    forall j | 0 < j < |es| ensures !Fills(es[j], T128) {
      assert j == 1 || j == 2 || j == 3 || j == 4 || j == 5;
    }
    TableLast(es, T128, 0);
  }

  // ---------------------------------------------------------------- getBatchMusicQualityInfo

  /** `qualityInfoMap[id] = qualities of id`, for each id of the list in turn. */
  function BatchEntries(ids: seq<string>, detail: string -> DetailAnswer): seq<Option<(string, Qualities)>> {
    Map(ids, (id: string) => Some((id, MusicQualityInfo(detail(id)))))
  }

  /**
   * `getBatchMusicQualityInfo`: one detail request per id (none for an empty list), each
   * id keyed to its table; a failed request yields `{}` for that id.
   */
  method GetBatchMusicQualityInfo(idList: seq<string>, detail: string -> DetailAnswer) returns (m: Dict<Qualities>)
    ensures m == Table(BatchEntries(idList, detail))
  {
    m := [];
    var i := 0;
    while i < |idList|
      invariant 0 <= i <= |idList|
      invariant m == Table(BatchEntries(idList[..i], detail))
    {
      var f := (id: string) => Some((id, MusicQualityInfo(detail(id))));
      MapPrefix(idList, i, f);
      TableSnoc(BatchEntries(idList[..i], detail), f(idList[i]));
      m := Put(m, idList[i], MusicQualityInfo(detail(idList[i])));
      i := i + 1;
    }
    assert idList[..i] == idList;
  }

  /** The batch table has exactly one key per distinct id, each holding that id's table. */
  lemma {:induction false} BatchKeys(idList: seq<string>, detail: string -> DetailAnswer, id: string)
    ensures Has(Table(BatchEntries(idList, detail)), id) <==> id in idList
    ensures id in idList ==> Lookup(Table(BatchEntries(idList, detail)), id) == Some(MusicQualityInfo(detail(id)))
    ensures UniqueKeys(Table(BatchEntries(idList, detail)))
    ensures idList == [] ==> Table(BatchEntries(idList, detail)) == []
  {
    var es := BatchEntries(idList, detail);
    TableHas(es, id);
    TableUnique(es);
    assert forall i :: 0 <= i < |es| ==> (Fills(es[i], id) <==> idList[i] == id);
    if id in idList {
      var i :| 0 <= i < |idList| && idList[i] == id;
      assert Fills(es[i], id);
      TableConst(es, id, MusicQualityInfo(detail(id)));
    }
  }

  // ---------------------------------------------------------------- getValidMusicItems

  /** A formatted track: its id and its quality table. */
  datatype Item = Item(id: string, qualities: Qualities)

  /** A song record with the id it is listed under. */
  datatype Record = Record(id: string, song: Song)

  /**
   * The merge as written: `if (qualityInfo) item.qualities = qualityInfo`. The batch
   * always holds an object for the id, and `{}` is truthy, so the table is always replaced.
   */
  function MergeItemAsWritten(item: Item, m: Dict<Qualities>): (r: Item)
    ensures Has(m, item.id) ==> r == Item(item.id, Get(m, item.id))
  {
    if Has(m, item.id) then Item(item.id, Get(m, item.id)) else item
  }

  /** A track whose detail request failed loses the default table that `formatMusicItem` gave it. */
  lemma {:induction false} MergeAsWrittenDropsDefault()
    ensures var item := Item("1", FormatQualities(Song(None, None, None, None, None, None, None, None)));
            |item.qualities| == 2 && MergeItemAsWritten(item, [("1", MusicQualityInfo(DetailThrew))]).qualities == []
  {
    var s := Song(None, None, None, None, None, None, None, None);
    FormatEmpty(s);
  }

  /** The merge as intended: the looked-up table replaces the formatted one only when it is non-empty. */
  function MergeItem(item: Item, m: Dict<Qualities>): (r: Item)
    ensures r.id == item.id
    ensures Has(m, item.id) && |Get(m, item.id)| > 0 ==> r.qualities == Get(m, item.id)
    ensures !(Has(m, item.id) && |Get(m, item.id)| > 0) ==> r.qualities == item.qualities
  {
    if Has(m, item.id) && |Get(m, item.id)| > 0 then Item(item.id, Get(m, item.id)) else item
  }

  /** `formatMusicItem`, reduced to the id and the table. */
  function FormatItem(r: Record): Item {
    Item(r.id, FormatQualities(r.song))
  }

  /** Every formatted table is non-empty: the default fills an empty one. */
  lemma {:induction false} FormatNonEmpty(s: Song)
    ensures |FormatQualities(s)| > 0
  {
  }

  /** The table a listed track ends with: its detail table when non-empty, else the formatted one. */
  function ValidQualities(r: Record, detail: string -> DetailAnswer): (q: Qualities)
    ensures |q| > 0
  {
    var info := MusicQualityInfo(detail(r.id));
    if |info| > 0 then info else FormatQualities(r.song)
  }

  /** The merge of one formatted track with the batch table of all the listed ids. */
  lemma {:induction false} MergeListed(records: seq<Record>, idList: seq<string>, detail: string -> DetailAnswer, j: nat)
    requires |idList| == |records| && j < |records|
    requires forall i :: 0 <= i < |records| ==> idList[i] == records[i].id
    ensures MergeItem(FormatItem(records[j]), Table(BatchEntries(idList, detail))) == Item(records[j].id, ValidQualities(records[j], detail))
  {
    assert idList[j] == records[j].id;
    BatchKeys(idList, detail, records[j].id);
  }

  /**
   * `getValidMusicItems` after the song records are fetched: the formatted items, their
   * ids, the batch lookup, and the merge over each item in place. Every track ends with
   * a non-empty table.
   */
  method GetValidMusicItems(records: seq<Record>, detail: string -> DetailAnswer) returns (items: array<Item>)
    ensures fresh(items)
    ensures items[..] == seq(|records|, i requires 0 <= i < |records| => Item(records[i].id, ValidQualities(records[i], detail)))
  {
    items := new Item[|records|](i requires 0 <= i < |records| => FormatItem(records[i]));
    var idList := seq(|records|, i requires 0 <= i < |records| => records[i].id);
    var qualityInfoMap := GetBatchMusicQualityInfo(idList, detail);
    MergeInPlace(items, qualityInfoMap);
    forall j | 0 <= j < |records|
      ensures items[j] == Item(records[j].id, ValidQualities(records[j], detail))
    {
      MergeListed(records, idList, detail, j);
    }
  }

  /** `validMusicItems.forEach(...)`: each item merged with the batch table, in place. */
  method MergeInPlace(items: array<Item>, m: Dict<Qualities>)
    modifies items
    ensures forall j :: 0 <= j < items.Length ==> items[j] == MergeItem(old(items[j]), m)
  {
    var i := 0;
    while i < items.Length
      invariant 0 <= i <= items.Length
      invariant forall j :: 0 <= j < i ==> items[j] == MergeItem(old(items[j]), m)
      invariant forall j :: i <= j < items.Length ==> items[j] == old(items[j])
    {
      items[i] := MergeItem(items[i], m);
      i := i + 1;
    }
  }

  // ---------------------------------------------------------------- getSheetMusicById

  const BatchSize: nat := 200

  /** `trackIds.slice(idx * 200, (idx + 1) * 200)` */
  function ChunkAt(ids: seq<string>, idx: nat): (c: seq<string>)
    ensures |c| <= BatchSize
    ensures idx * BatchSize < |ids| ==> |c| > 0
  {
    Slice(ids, idx * BatchSize, (idx + 1) * BatchSize)
  }

  /** The results for the first `n` chunks, concatenated. */
  function Fetched<T>(ids: seq<string>, n: nat, fetch: seq<string> -> seq<T>): seq<T> {
    if n == 0 then [] else Fetched(ids, n - 1, fetch) + fetch(ChunkAt(ids, n - 1))
  }

  /** How many chunks the loop reads: the first `idx` with `idx * 200 >= length`. */
  function ChunkCount(len: nat): (n: nat)
    ensures n * BatchSize >= len
    ensures n > 0 ==> (n - 1) * BatchSize < len
  {
    (len + BatchSize - 1) / BatchSize
  }

  /** `getSheetMusicById`: the track ids in chunks of 200, each chunk's items appended in order. */
  method GetSheetMusicById(trackIds: seq<string>, fetch: seq<string> -> seq<Item>) returns (result: seq<Item>)
    ensures result == Fetched(trackIds, ChunkCount(|trackIds|), fetch)
  {
    result := [];
    var idx := 0;
    while idx * BatchSize < |trackIds|
      invariant idx <= ChunkCount(|trackIds|)
      invariant result == Fetched(trackIds, idx, fetch)
    {
      var res := fetch(Slice(trackIds, idx * BatchSize, (idx + 1) * BatchSize));
      result := result + res;
      idx := idx + 1;
    }
  }

  /** The first `n` chunks laid end to end are the list's first `n * 200` ids. */
  lemma {:induction false} ChunksPrefix(ids: seq<string>, n: nat)
    ensures Fetched(ids, n, (c: seq<string>) => c) == ids[..if n * BatchSize <= |ids| then n * BatchSize else |ids|]
  {
    if n > 0 {
      ChunksPrefix(ids, n - 1);
      var lo := (n - 1) * BatchSize;
      var hi := n * BatchSize;
      if lo <= |ids| {
        var top := if hi <= |ids| then hi else |ids|;
        SliceWithin(ids, lo, top);
        assert ChunkAt(ids, n - 1) == ids[lo..top];
        assert ids[..top] == ids[..lo] + ids[lo..top];
      } else {
        assert ChunkAt(ids, n - 1) == [];
      }
    }
  }

  /** The chunks cover the whole list, in order, each id once. */
  lemma {:induction false} ChunksCover(ids: seq<string>)
    ensures Fetched(ids, ChunkCount(|ids|), (c: seq<string>) => c) == ids
    ensures forall idx :: 0 <= idx < ChunkCount(|ids|) ==> 0 < |ChunkAt(ids, idx)| <= BatchSize
  {
    ChunksPrefix(ids, ChunkCount(|ids|));
    assert ids[..|ids|] == ids;
  }

  // ---------------------------------------------------------------- getMusicSheetInfo

  const SheetPageSize: nat := 40

  /** The ids of the page, `isEnd`, and `_trackIds` when it is attached. */
  datatype SheetInfo = SheetInfo(isEnd: bool, pageIds: seq<string>, trackIds: Option<seq<string>>)

  /**
   * `getMusicSheetInfo`: the sheet's cached `_trackIds`, or the fetched ones; page `page`
   * of 40 is looked up, it is the last when the list ends within it, and the whole id
   * list is handed back for reuse only on the first page.
   */
  function GetMusicSheetInfo(cached: Option<seq<string>>, fetched: seq<string>, page: int): (r: SheetInfo)
    ensures var ids := if cached.Some? then cached.value else fetched;
            r.pageIds == Page(ids, page, SheetPageSize) && (r.isEnd <==> |ids| <= page * SheetPageSize)
    ensures r.trackIds.Some? <==> page <= 1
    ensures r.trackIds.Some? ==> r.trackIds.value == (if cached.Some? then cached.value else fetched)
  {
    var trackIds := if cached.Some? then cached.value else fetched;
    SheetInfo(LastPage(trackIds, page, SheetPageSize), Page(trackIds, page, SheetPageSize),
              if page <= 1 then Some(trackIds) else None)
  }

  /** Reading pages from the first until `isEnd` yields every id once, in order. */
  lemma {:induction false} SheetPagesCover(trackIds: seq<string>)
    ensures PagesFrom(trackIds, 1, SheetPageSize) == trackIds
  {
    PagesCoverList(trackIds, SheetPageSize);
  }

  // ---------------------------------------------------------------- Rsa

  function HexDigit(d: nat): (c: char)
    requires d < 16
  {
    if d < 10 then (d + '0' as int) as char else (d - 10 + 'a' as int) as char
  }

  /** `n.toString(16)` */
  function NatToHex(n: nat): (r: string)
    ensures |r| >= 1
  {
    if n < 16 then [HexDigit(n)] else NatToHex(n / 16) + [HexDigit(n % 16)]
  }

  /** The character codes in hex, each without padding, joined. */
  function HexText(s: string): string {
    if s == [] then [] else HexText(s[..|s| - 1]) + NatToHex(s[|s| - 1] as int)
  }

  /** A character from U+0010 to U+00FF takes exactly two hex digits. */
  lemma {:induction false} HexTextLength(s: string)
    requires forall i :: 0 <= i < |s| ==> 16 <= s[i] as int < 256
    ensures |HexText(s)| == 2 * |s|
  {
    if s != [] {
      HexTextLength(s[..|s| - 1]);
      assert |NatToHex((s[|s| - 1] as int) / 16)| == 1;
    }
  }

  const RsaWidth: nat := 256

  /**
   * `Rsa(text)`: the reversed text in hex goes through `modPow` (a parameter here); the
   * result is left-padded with '0' to 256 characters. A longer result would make
   * `Array(256 - length)` throw, which is `None`.
   */
  function Rsa(text: string, modPow: string -> string): (r: Option<string>)
    ensures var res := modPow(HexText(Reverse(text)));
            (r.Some? <==> |res| <= RsaWidth) &&
            (r.Some? ==> |r.value| == RsaWidth && r.value[RsaWidth - |res|..] == res &&
                         forall i :: 0 <= i < RsaWidth - |res| ==> r.value[i] == '0')
  {
    var res := modPow(HexText(Reverse(text)));
    if |res| <= RsaWidth then Some(PadStartZero(res, RsaWidth)) else None
  }

  /** What enters `modPow` is the text reversed: reversing the argument first gives the text's own hex. */
  lemma {:induction false} RsaReversesText(text: string, modPow: string -> string)
    ensures Rsa(Reverse(text), modPow) == (var res := modPow(HexText(text)); if |res| <= RsaWidth then Some(PadStartZero(res, RsaWidth)) else None)
  {
    ReverseReverse(text);
  }

  // ---------------------------------------------------------------- getMediaSource

  /** `qualityLevels[quality]` */
  function QualityLevel(tag: string): (r: Option<string>)
    ensures r.Some? <==> tag in {T128, T320, TFlac, "flac24bit", THires, TAtmos, TMaster}
  {
    if tag in {T128, T320, TFlac, "flac24bit", THires, TAtmos, TMaster} then Some(tag) else None
  }

  /** `qualityLevels[quality] || quality`: every mapped tag maps to itself, so any tag goes as it is. */
  lemma {:induction false} QualityParamVerbatim(tag: string)
    ensures QualityLevel(tag).GetOr(tag) == tag
  {
  }

  /** The track fields `getMediaSource` reads; an absent `qualities` is `None`. */
  datatype Track = Track(id: Val, qualities: Option<Qualities>)

  /**
   * `getMediaSource`: a track whose non-empty table lacks the tag is refused before any
   * request; otherwise the id goes with the tag as given, only `code === 200` with a URL
   * resolves, and a failed request is re-thrown.
   */
  function GetMediaSource(t: Track, quality: string, answer: Exchange): (a: Attempt)
    ensures a.sent.None? <==> t.qualities.Some? && !Listed(t.qualities.value, quality)
    ensures a.sent.None? ==> a.outcome == Raised
    ensures a.sent.Some? ==> a.sent.value == Request("wy", t.id, quality)
    ensures a.outcome.Resolved? <==> a.sent.Some? && answer.Answered? && Succeeded(answer.reply)
    ensures a.outcome.Resolved? ==> a.outcome.media == Media(answer.reply.url, None)
    ensures a.sent.Some? && answer.Threw? ==> a.outcome == Raised
    ensures a.sent.Some? && answer.Answered? && !Succeeded(answer.reply) ==> a.outcome == NullResult
  {
    if t.qualities.Some? && |t.qualities.value| > 0 && !Has(t.qualities.value, quality) then
      Attempt(None, Raised)
    else
      var req := Request("wy", t.id, QualityLevel(quality).GetOr(quality));
      match answer
      case Threw => Attempt(Some(req), Raised)
      case Answered(r) =>
        if Succeeded(r) then Attempt(Some(req), Resolved(Media(r.url, None)))
        else Attempt(Some(req), NullResult)
  }
}
