# MusicFree plugins: a Dafny model

This project models the core of a repository of MusicFree plugins. It also models the
serverless functions that hand those plugins out.

**The plugins.** Each plugin adapts one music service to the player:
- Migu (`mg.js`), KuGou (`kg.js`), KuWo (`kw.js`), NetEase (`wy.js`), QQ Music (`qq.js`) and Qishui (`qishui.js`).
- A plugin turns the service's answers into tracks. Each track carries a quality table: quality tags such as `128k`, `320k`, `flac` and `hires`, each with a size and a bitrate.
- A plugin asks a stream-URL service for a playable address at one of those tags.
- The plugins also decode lyric formats, build obfuscated query strings and page through playlists.

**The functions.**
- `source-config.js` holds the table of third-party audio sources.
- `subscription.js` answers MusicFree's subscription request with the plugins one source serves.
- `plugin.js` serves one plugin file with the caller's key filled in.

**How the model is built.**
- Every network answer, directory listing, file read and environment variable is a parameter. Most are `Vendor.Exchange` values or oracle functions.
- Each function states what the plugin does with any answer.
- Loops in the source are methods with `while` loops. Each is proved equal to a recursive specification function, and the properties are proved as lemmas about that function.
- JavaScript values the code tests for truthiness are `Quality.Val`: `undefined`, `null`, booleans, numbers and strings.
- Objects used as dictionaries are `JsObject.Dict`: a sequence of key/value pairs with JavaScript's insertion-order semantics. `Table` builds one from a list of optional assignments, where a later assignment of a key overwrites an earlier one.
- Standard algorithms are cited by their own specification: base64 is section 4 of RFC 4648.

Shared modules:
- `Wrappers`: `Option`.
- `JsString`: `split`, `join`, `trim`, `indexOf`, `startsWith`, `endsWith` and `replace` on strings.
- `JsObject`: ordered dictionaries.
- `Quality`: values, descriptors and the quality tags.
- `Vendor`: one stream-URL request and its outcome. Only a reply with `code === 200` and a URL resolves.
- `Paging`: local paging of a list already fetched in full.

## Model

| member | source | states |
|---|---|---|
| Paging.Page | plugins/wy.js:917-918 | a page is never longer than the page size, and a full page is exactly the slice `[(page-1)*size, page*size)` of the list |
| Paging.PagesFromRest | plugins/kg.js:917-924 | reading pages from `page` on, until the last page, gives back everything from that page's start to the end of the list |
| Paging.PagesCoverList | plugins/kg.js:917-924 | reading from page 1 until `isEnd` yields the whole list, in order, each item once |
| Paging.PastLastPageEmpty | plugins/wy.js:917-927 | a page requested after the last page is empty |
| Mg.FormatImgUrl | plugins/mg.js:15-23 | absent image gives nothing; otherwise the result is an http(s) URL ending with the input; http(s) kept, `//` gets `http:`, a bare path gets Migu's image host |
| Mg.FormatImgUrlIdempotent | plugins/mg.js:15-23 | formatting a formatted cover URL changes nothing |
| Mg.Labels | plugins/mg.js:352-355 | the labels are the non-empty singer labels, no more than the singers; empty exactly when every label is empty; all kept when none is |
| Mg.FormatSingerName | plugins/mg.js:352-355 | the joined name is empty exactly when there is no list or every singer's label is empty |
| Mg.FormatTier | plugins/mg.js:112-143 | a Migu format type gives only 128k, 320k, flac or hires; ZQ only in the playlist reader |
| Mg.FormatEntries | plugins/mg.js:112-143 | one entry per format, each the entry of that format |
| Mg.ParseFormats | plugins/mg.js:112-143 | the loop over the format list builds the table of the formats' entries |
| Mg.FormatTableHas | plugins/mg.js:112-143 | a tag is in the table exactly when some listed format is of its tier, and only the four Migu tags ever are |
| Mg.FormatTableLast | plugins/mg.js:112-143 | a tag holds the descriptor of the last format of its tier: later formats overwrite earlier ones |
| Mg.UrlQualities | plugins/mg.js:151-180 | without formats the keys are exactly 128k if playable, 320k if an HQ URL, flac if an SQ URL, in that order |
| Mg.GetMiGuQualitiesFromSong | plugins/mg.js:108-183 | a non-empty format table is returned as is; otherwise the URL fields decide |
| Mg.SearchUrlQualities | plugins/mg.js:238-265 | never empty: the URL fields' keys in order, or 128k alone when none is set |
| Mg.SearchHitQualities | plugins/mg.js:204-265 | a search hit's table is never empty: its format table when non-empty, else the URL fields' table |
| Mg.LegacySearchQualities | plugins/mg.js:297-323 | the older search answer's table is never empty and lists the URL fields' keys in order, else 128k |
| Mg.RateNameEntry | plugins/mg.js:733-752 | a `rateFormats` name gives only one of the four Migu tags |
| Mg.RateNameEntries | plugins/mg.js:733-752 | one entry per name, each the entry of that name |
| Mg.ParseRateNames | plugins/mg.js:733-752 | the loop over the names builds the table of their entries |
| Mg.SheetTrackQualities | plugins/mg.js:698-757 | a playlist track's table is never empty: `newRateFormats`, with ZQ and ZQ24 read as hires, if non-empty; else the `rateFormats` names; else 128k |
| Mg.DecryptMrc | plugins/mg.js:516-530 | the output array holds each input byte XOR the MRC key byte at its index mod 16 |
| Mg.MrcXorInvolution | plugins/mg.js:511-523 | the key transform keeps the length and is its own inverse |
| Mg.SplitLines | plugins/mg.js:534 | at least one line, and no line holds a CR or LF |
| Mg.SplitLinesLf | plugins/mg.js:534 | without CR, splitting lines is splitting on LF |
| Mg.TimeTagMatch | plugins/mg.js:538 | a match gives a non-empty digit string for the start time and a prefix length within the line |
| Mg.TimeTagAsWritten | plugins/mg.js:539-545 | the tag as the plugin writes it, with unpadded milliseconds, is bracketed |
| Mg.TimeTag | plugins/mg.js:539-545 | the tag with the milliseconds padded to three digits is bracketed and at least ten characters long |
| Mg.RemoveWordTimings | plugins/mg.js:546 | removing word timings never lengthens the text |
| Mg.KeepPlainText | plugins/mg.js:546 | text without `(` passes through the removal unchanged |
| Mg.SkipTiming | plugins/mg.js:546 | a word timing at the front is removed as a whole |
| Mg.CutTiming | plugins/mg.js:546 | a rendered `(start,duration)` timing is removed whatever follows it |
| Mg.WordTimingsRemoved | plugins/mg.js:546 | on an MRC line body the removal leaves exactly the words, concatenated |
| Mg.TimeTagRoundTrip | plugins/mg.js:539-545 | an LRC reader gets the MRC start time back from the padded tag, for every start time |
| Mg.MisreadMillis | plugins/mg.js:539-545 | a millisecond part of 1-99 read as a one- or two-digit fraction is not the start time |
| Mg.TimeTagAsWrittenMisread | plugins/mg.js:539-545 | with the milliseconds unpadded, every start time with 1-99 ms is read back wrongly |
| Mg.MrcLine | plugins/mg.js:537-548 | a line converts exactly when it carries a `[start,duration]` tag, into the tag and the line without its word timings |
| Mg.MrcLines | plugins/mg.js:537-548 | never more LRC lines than MRC lines |
| Mg.MrcLinesNoneTagged | plugins/mg.js:537-548 | untagged lines are all dropped |
| Mg.MrcLinesAllTagged | plugins/mg.js:537-548 | when every line is tagged, LRC line i is the conversion of MRC line i |
| Mg.ParseMrc | plugins/mg.js:532-556 | the loop's output is the tagged lines' conversions joined by LF |
| Mg.QualityLevel | plugins/mg.js:1334-1339 | exactly the four Migu tags are mapped, each to itself |
| Mg.GetMediaSource | plugins/mg.js:1340-1376 | no request exactly when a non-empty table lacks the tag, which throws; otherwise the copyright id and level are sent; resolves exactly on a successful reply; a sent request whose reply is not a success (not code 200 with a URL) gives null; a failed request is re-thrown |
| Mg.ImportPages | plugins/mg.js:1060-1077 | pages 1, 2, ... are fetched exactly while the page's first song lies below `contentCount`; none for NaN; the ids are the pages' ids in order |
| Kg.GoodTier | plugins/kg.js:67-109 | a vendor quality code gives only 128k, 320k, flac, hires, master or atmos |
| Kg.GoodEntries | plugins/kg.js:63-110 | one entry per good, each the entry of that good |
| Kg.ReadGoods | plugins/kg.js:63-110 | the loop gives a table exactly when no good lacks `info`, and then the table of the goods' entries |
| Kg.GoodTableHas | plugins/kg.js:63-110 | a tag is in a song's table exactly when some good of that tier has a truthy size |
| Kg.SongEntries | plugins/kg.js:57-113 | one entry per song, each that song's table under its hash |
| Kg.KeyedIsTable | plugins/kg.js:57-113 | the map built song by song equals the table of the songs' entries |
| Kg.ReadSong | plugins/kg.js:57-113 | one song gives a map exactly when none of its goods throws, and then the map with its table added |
| Kg.ReadSongs | plugins/kg.js:57-113 | the loop gives a map exactly when every song is intact, and then the keyed map |
| Kg.KeyedStep | plugins/kg.js:57-113 | reading song i adds its table under its hash to the map of the songs before it |
| Kg.GetBatchMusicQualityInfo | plugins/kg.js:14-122 | a request goes out exactly for a non-empty list; a refused, failed or broken answer gives `{}`; otherwise the keyed map |
| Kg.KeyedByHash | plugins/kg.js:57-113 | with distinct hashes, a song with goods is keyed by its hash to its table, and a song without goods gets no key |
| Kg.SongQualities | plugins/kg.js:124-137 | a search hit takes its non-empty batch table, else exactly 128k, 320k and flac |
| Kg.ImportTitle | plugins/kg.js:216-230 | a name without the singer is kept; with a singer and a name the title is never empty |
| Kg.ImportTitleOfShape | plugins/kg.js:216-230 | a name `singer - title` gives back the title |
| Kg.FilenameSplitsAtFirstDash | plugins/kg.js:647-658 | the artist is the trimmed text before the first `-`, the title the trimmed rest without `.mp3`; without `-` it is all title |
| Kg.ArtistSongLabels | plugins/kg.js:636-676 | title and artist are never empty, and the filename's parts win when present |
| Kg.SongChunks | plugins/kg.js:686-747 | an id over 1000 characters throws; without `info` nothing is asked; otherwise pages 1, 2, ... of 300 songs, all full but the last, summing to `songcount` or 100 |
| Kg.MergedQualities | plugins/kg.js:805-819 | an imported song takes its batch table when there is one, else the three basic tags |
| Kg.SheetId | plugins/kg.js:889-891 | the `id_` prefix is dropped when present, and any other id is unchanged |
| Kg.ImportedPage | plugins/kg.js:896-924 | an empty import of a URL id, or none, ends at once with nothing; otherwise page `page` of 100 and `isEnd` when the list ends within it |
| Kg.QualityLevel | plugins/kg.js:432-440 | exactly the seven KuGou tags are mapped, each to itself |
| Kg.GetMediaSource | plugins/kg.js:441-470 | always sent, with the lossless hash when present, else the id; resolves exactly on a successful reply; a sent request whose reply is not a success (not code 200 with a URL) gives null; a failed request is re-thrown |
| Kw.ArtworkShort2Long | plugins/kw.js:11-26 | a cover exactly when the short path holds `/`: the 1080 host, then the path from its first `/` |
| Kw.RunLength | plugins/kw.js:71-111 | the run is the longest prefix of the character class |
| Kw.Group | plugins/kw.js:71-111 | a group is a non-empty run of its class after the literal, and is not followed by its class |
| Kw.MatchText | plugins/kw.js:71-111 | a match at the start has a non-empty digit bitrate |
| Kw.FindFrom | plugins/kw.js:71-111 | the match at or after p comes from some index; none exactly when no index matches |
| Kw.FindMatch | plugins/kw.js:71-111 | a match has a non-empty digit bitrate |
| Kw.RateTier | plugins/kw.js:71-111 | exactly bitrates 2000, 320 and 128 have a tier |
| Kw.InfoEntries | plugins/kw.js:71-111 | one entry per segment, each the entry of that segment |
| Kw.AddSegment | plugins/kw.js:71-111 | one pass assigns the segment's tier when it has one, else changes nothing |
| Kw.ParseKuWoQualityInfo | plugins/kw.js:71-111 | the parsed table; `{}` for a missing or empty `N_MINFO` |
| Kw.KuWoQualities | plugins/kw.js:71-111 | `{}` for a missing or empty `N_MINFO`, and no tag twice in the table |
| Kw.FoldSegments | plugins/kw.js:71-111 | the loop builds the table of the segments' entries |
| Kw.InfoEntryFills | plugins/kw.js:71-111 | a segment fills a tag exactly when it matches with that tier's bitrate; only 128k, 320k or flac |
| Kw.KuWoTableHas | plugins/kw.js:71-111 | a tag is in the table exactly when some segment gives it, and only 128k, 320k and flac ever are |
| Kw.MatchTextSegment | plugins/kw.js:71-111 | the expression at the start of a well-formed segment reads back its four groups |
| Kw.SegmentMatches | plugins/kw.js:71-111 | the expression finds the four groups of a well-formed segment |
| Kw.SegmentQuality | plugins/kw.js:71-111 | `N_MINFO` holding one well-formed segment of a known bitrate gives exactly that quality |
| Kw.SegmentEntry | plugins/kw.js:71-111 | a well-formed segment of a known bitrate contributes its tag with its groups' descriptor |
| Kw.SortLrcArr | plugins/kw.js:386-409 | the loop's lyric lines and translations are those of the fold `SortLrc`, about which the lemmas below speak |
| Kw.SortLrc | plugins/kw.js:386-409 | no lyric line is kept, and no time is seen, exactly when the list is empty |
| Kw.SortLrcDistinct | plugins/kw.js:386-409 | lyrics without repeated times have no translation and keep every line in order |
| Kw.SortLrcCount | plugins/kw.js:386-409 | no item is counted twice, and the times seen are the items' times |
| Kw.SortLrcFrom | plugins/kw.js:386-409 | every kept line is an item, and every translation keeps an item's words |
| Kw.SortLrcRetimed | plugins/kw.js:386-409 | every translation carries the time of an original line kept before the last one |
| Kw.EarlyRepeatDropped | plugins/kw.js:391-404 | a repeated time arriving before two lines are kept is dropped |
| Kw.Utf8 | plugins/kw.js:425-426 | UTF-8 never has fewer bytes than characters |
| Kw.Utf8Ascii | plugins/kw.js:425-426 | ASCII text encodes to one byte per character, the character's code |
| Kw.Obfuscated | plugins/kw.js:437-440 | the XOR with "yeelion" keeps the length |
| Kw.ObfuscatedInvolution | plugins/kw.js:437-440 | XOR-ing twice with the key gives the bytes back |
| Kw.Obfuscate | plugins/kw.js:437-440 | the output array holds the obfuscated bytes |
| Kw.Sext0 | plugins/kw.js:450-463 | the first sextet of a group is below 64 |
| Kw.Sext1 | plugins/kw.js:450-463 | the second sextet of a group is below 64 |
| Kw.Sext2 | plugins/kw.js:450-463 | the third sextet of a group is below 64 |
| Kw.Sext3 | plugins/kw.js:450-463 | the fourth sextet of a group is below 64 |
| Kw.Quad | plugins/kw.js:450-463 | each group of bytes becomes four characters |
| Kw.Base64Encode | plugins/kw.js:450-463 | the hand-written encoder's output is the base64 of RFC 4648 section 4 |
| Kw.Base64Length | plugins/kw.js:450-463 | the encoding of n bytes has 4 * ceil(n / 3) characters |
| Kw.Base64Shape | plugins/kw.js:450-463 | the encoding holds `=` exactly in its last Pad(n) places, and alphabet characters elsewhere |
| Kw.Base64Padding | plugins/kw.js:450-463 | position k is `=` exactly when it is among the last Pad(n), and is otherwise in the alphabet |
| Kw.Base64RoundTrip | plugins/kw.js:450-463 | decoding the encoding gives back the bytes |
| Kw.ParamsFields | plugins/kw.js:425-426 | split on `&`, the query text is the three fixed fields, `rid=MUSIC_<id>`, then `lrcx=1` exactly for the lyricx variant |
| Kw.BuildParams | plugins/kw.js:423-470 | the result is the query text in UTF-8, XOR-ed with the key, in base64 |
| Kw.ParamsRecovered | plugins/kw.js:423-470 | the service gets the UTF-8 query text back by decoding base64 and XOR-ing again |
| Kw.ArrayBufferToBase64 | plugins/kw.js:473-519 | buffers and views give their bytes in base64, strings their UTF-8 in base64; anything else throws |
| Kw.SongId | plugins/kw.js:938-941 | a string holding `MUSIC_` loses that prefix's length; any other id goes unchanged |
| Kw.SongIdStripsPrefix | plugins/kw.js:938-941 | `MUSIC_<n>` is sent as `<n>` |
| Kw.Downgraded | plugins/kw.js:946-961 | an empty table or a listed tag keeps the tag; otherwise the tag asked for is listed, preferring flac, then 320k, then the first key |
| Kw.QualityParam | plugins/kw.js:964-970 | only 128k, 320k and flac are sent; each of them as is, any other tag as 320k |
| Kw.GetMediaSource | plugins/kw.js:935-1012 | always sent with the stripped id and downgraded tag; never throws; resolves exactly on a successful reply, with the `ekey` exactly when the reply's is truthy |
| Kw.DowngradeListed | plugins/kw.js:946-970 | a non-empty table of KuWo tags is always asked for in a tag it lists and the service knows |
| Kw.SearchQualities | plugins/kw.js:113-130 | a hit's table is the parsed `N_MINFO` if non-empty, else the three placeholders; never empty |
| Kw.MusicId | plugins/kw.js:131 | an id without `MUSIC_` is kept; one with it is shorter by the prefix |
| Kw.MusicIdStripsPrefix | plugins/kw.js:131 | a search hit's id is the catalogue number, which getMediaSource sends unchanged |
| Kw.QualityByMusicId | plugins/kw.js:38-69 | the first hit's parsed `N_MINFO`; `{}` for no hit or a failed search |
| Kw.MusicInfoQualities | plugins/kw.js:1044-1057 | the search's table if non-empty, else 128k and 320k, with flac exactly when the song is lossless |
| Kw.GetMusicInfo | plugins/kw.js:1014-1085 | a request only when `id` or `rid` is truthy; a result exactly when the song info answers, with that id and table |
| Wy.TierEntry | plugins/wy.js:178-210 | a tier is assigned exactly when the maximum bitrate reaches it, with the tier's fixed bitrate |
| Wy.LowEntry | plugins/wy.js:214-260 | 128k comes from `l` with a size, or `m` with a size when there is no `h`, and `l` is preferred |
| Wy.DetailEntry | plugins/wy.js:214-244 | a detail field with a size gives its tag with its size and `br` or the fallback |
| Wy.RawEntry | plugins/wy.js:246-260 | the master or atmos field with a size gives its tag with its size and its `br` exactly as it is, so 0 or null stay |
| Wy.FormatEntries | plugins/wy.js:170-266 | ten entries: the four tiers, then the six details |
| Wy.TiersCumulative | plugins/wy.js:178-210 | reaching a tier means reaching every tier below it |
| Wy.FormatFilled | plugins/wy.js:178-260 | which tags the entries fill, from the privilege and the detail fields |
| Wy.FormatEmpty | plugins/wy.js:170-266 | the entry table is empty exactly when neither privilege nor details say anything |
| Wy.FormatTags | plugins/wy.js:170-280 | a tag is present exactly when its tier is reached or its detail has a size, for master and atmos only the details, and 128k and 320k also when nothing is known |
| Wy.FormatQualities | plugins/wy.js:170-266 | `formatMusicItem`'s table is never empty and lists no tag twice |
| Wy.FormatLookup | plugins/wy.js:170-266 | a tag holds the descriptor of the last entry filling it |
| Wy.DetailOverridesTier | plugins/wy.js:214-260 | a detail field with a size decides its tag's descriptor over the privilege tier; master and atmos carry the field's own `br`, with no fallback |
| Wy.TierWithoutDetail | plugins/wy.js:178-260 | without the detail field, a reached tier holds the tier's fixed bitrate |
| Wy.InfoEntry | plugins/wy.js:90-140 | a field with a size gives its tag with the formatted size and `br` or the fallback |
| Wy.MusicQualityInfoTags | plugins/wy.js:68-147 | a failed or non-200 reply gives `{}`; otherwise a tag exactly when its field has a size |
| Wy.MusicQualityInfo | plugins/wy.js:68-147 | a failed request, a non-200 status or a non-200 code gives `{}`; the table lists no tag twice |
| Wy.LowPrefersL | plugins/wy.js:90-140 | 128k reads `l` when `l` has a size |
| Wy.GetBatchMusicQualityInfo | plugins/wy.js:150-168 | the loop keys each id to its own detail table |
| Wy.BatchKeys | plugins/wy.js:150-168 | exactly the listed ids are keys, each once and holding its own table; `{}` for no ids |
| Wy.MergeItemAsWritten | plugins/wy.js:657-662 | as written, a listed id's table always replaces the formatted one |
| Wy.MergeAsWrittenDropsDefault | plugins/wy.js:657-662 | a failed detail request replaces a track's default table with `{}` |
| Wy.MergeItem | plugins/wy.js:657-662 | the id is kept; only a non-empty looked-up table replaces the formatted one |
| Wy.FormatNonEmpty | plugins/wy.js:263-266 | every formatted table is non-empty |
| Wy.ValidQualities | plugins/wy.js:650-662 | the table a listed track ends with is never empty |
| Wy.MergeListed | plugins/wy.js:650-662 | a formatted track merged with the batch of all listed ids gets its detail table if non-empty, else its own |
| Wy.GetValidMusicItems | plugins/wy.js:602-669 | each output item keeps its record's id and a non-empty table: detail if non-empty, else formatted |
| Wy.MergeInPlace | plugins/wy.js:657-662 | each array element becomes its merge with the table, in place |
| Wy.ChunkAt | plugins/wy.js:688-696 | a chunk has at most 200 ids, and is non-empty while it starts inside the list |
| Wy.ChunkCount | plugins/wy.js:688-696 | the loop reads the fewest chunks that reach the end of the list |
| Wy.GetSheetMusicById | plugins/wy.js:671-698 | the result is the chunks' fetched items laid end to end, in order |
| Wy.ChunksPrefix | plugins/wy.js:688-696 | the first n chunks are the list's first n * 200 ids |
| Wy.ChunksCover | plugins/wy.js:688-696 | the chunks cover the list in order, each id once, none empty |
| Wy.GetMusicSheetInfo | plugins/wy.js:896-930 | the page of 40 ids from the cached or fetched list; `isEnd` when the list ends within it; the id list returned only on page 1 |
| Wy.SheetPagesCover | plugins/wy.js:917-927 | paging from 1 until `isEnd` yields every id once, in order |
| Wy.NatToHex | plugins/wy.js:37-40 | the hexadecimal text has at least one digit |
| Wy.HexTextLength | plugins/wy.js:37-40 | characters U+0010 to U+00FF each take two hex digits |
| Wy.Rsa | plugins/wy.js:32-48 | the reversed text's hex goes through modPow, and the result is zero-padded to 256 characters, or throws when longer |
| Wy.RsaReversesText | plugins/wy.js:32-48 | reversing the argument first hands the text's own hex to modPow |
| Wy.QualityLevel | plugins/wy.js:757-765 | exactly the seven NetEase tags are mapped, each to itself |
| Wy.QualityParamVerbatim | plugins/wy.js:779 | the level falls back to the tag, and any tag goes unchanged |
| Wy.GetMediaSource | plugins/wy.js:767-807 | no request exactly when a non-empty table lacks the tag, which throws; otherwise the id and tag are sent; resolves exactly on a successful reply; a sent request whose reply is not a success (not code 200 with a URL) gives null; a failed request is re-thrown |
| Qq.SizeEntry | plugins/qq.js:13-39 | a size field sets its tag exactly when truthy, with its fixed bitrate |
| Qq.NewEntry | plugins/qq.js:13-39 | a `size_new` element sets its tag unless it is the number 0, so a missing element passes |
| Qq.ParseEntries | plugins/qq.js:13-39 | seven assignments |
| Qq.ParseQualitiesTags | plugins/qq.js:13-39 | which tags `parseQualities` sets; none for a missing file |
| Qq.ParseQualities | plugins/qq.js:13-39 | `{}` for a missing file, and no tag twice in the table |
| Qq.ParseEntriesTags | plugins/qq.js:13-39 | every assignment writes its own tag, and no two assignments share a tag |
| Qq.ParseLookup | plugins/qq.js:13-39 | a set tag holds its one assignment's descriptor |
| Qq.ParseQualitiesDescriptors | plugins/qq.js:13-39 | the descriptor of each tag: its size with its fixed bitrate |
| Qq.EmptySizeNewPasses | plugins/qq.js:28-38 | an empty `size_new` array still yields master, atmos and atmos_plus, without sizes |
| Qq.GetBatchQualities | plugins/qq.js:42-81 | `{}` for no songs, a failure or no tracks; otherwise each track's table under its id |
| Qq.BatchLookup | plugins/qq.js:71-75 | an id is a key exactly when some track carries it, holding the last such track's table |
| Qq.Artwork | plugins/qq.js:102-104 | no cover exactly when the album mid is falsy |
| Qq.ArtworkCarriesMid | plugins/qq.js:102-104 | the album mid reads back from the cover URL |
| Qq.FormatMusicItem | plugins/qq.js:83-111 | ids by fallback; the batch table for the id wins even when empty, else the record's own; a cover exactly with an album mid |
| Qq.FormatFromBatch | plugins/qq.js:71-111 | a song in a batch reply takes the last matching track's table, not its own `file` |
| Qq.GetMusicInfo | plugins/qq.js:753-840 | a complete input comes back without a request; no mid and no id give null without a request; otherwise the first track decides |
| Qq.MusicInfoFeedsBack | plugins/qq.js:755-770 | a complete result fed back comes back unchanged without a request |
| Qq.FetchedFeedsBack | plugins/qq.js:755-831 | a fetched track with a cover and a non-empty table is complete when fed back |
| Qq.QualityLevel | plugins/qq.js:652-661 | exactly the eight QQ tags are mapped, each to itself |
| Qq.QualityParamVerbatim | plugins/qq.js:675 | the level falls back to the tag, and any tag goes unchanged |
| Qq.GetMediaSource | plugins/qq.js:663-702 | no request exactly when a non-empty table lacks the tag, which throws; otherwise the songmid and tag are sent; resolves exactly on a successful reply; a sent request whose reply is not a success (not code 200 with a URL) gives null; a failed request is re-thrown |
| Qq.ParseFields | plugins/qq.js:227-246 | the loop gives a table exactly when every value decodes, and then the table of the fields |
| Qq.QueryOf | plugins/qq.js:227-246 | a named lookup never returns the object, and an unnamed one always does |
| Qq.GetQueryFromUrl | plugins/qq.js:227-246 | the loop-built answer equals `QueryOf`, for which the fallbacks and last-field-wins are proved below |
| Qq.QueryFallbacks | plugins/qq.js:227-246 | without `?`: `undefined` or `{}`; with an undecodable value: `""` or `{}` |
| Qq.QueryOfNamed | plugins/qq.js:227-246 | a named lookup is the key's entry in the table of fields |
| Qq.FieldEntriesFill | plugins/qq.js:227-246 | field j fills the key it names with its decoded value |
| Qq.QueryLastFieldWins | plugins/qq.js:227-246 | a key is answered exactly when some field names it, with the last such field's value |
| Qq.PlainField | plugins/qq.js:227-246 | a field `k=v` of plain pieces names k and carries v |
| Qq.TwoFields | plugins/qq.js:227-246 | the query of `base?f1&f2` has the two fields f1 and f2 |
| Qq.DuplicateKeyLastWins | plugins/qq.js:227-246 | for `?k=v1&k=v2` the answer is v2 |
| Qq.AssignLookup | plugins/qq.js:247-258 | after `Object.assign` a property of the source wins, and any other key keeps its target value |
| Qq.AssignUnique | plugins/qq.js:247-258 | assigning keeps the keys unique |
| Qq.PushPairs | plugins/qq.js:247-258 | the loop pushes the kept values' pairs in key order |
| Qq.StripMark | plugins/qq.js:247-258 | exactly one trailing `?` comes off |
| Qq.ChangeUrlQuery | plugins/qq.js:247-258 | the loop-built URL equals `ChangedUrl`, for which the override, removal and rebuild lemmas below hold |
| Qq.ChangedUrl | plugins/qq.js:247-258 | the rebuilt URL starts with the part of the base URL before its first `?` |
| Qq.MergedUnique | plugins/qq.js:247-258 | the rebuilt query has no repeated keys |
| Qq.MergedLookup | plugins/qq.js:247-258 | a new parameter overrides an existing one, and an existing one not overridden stays |
| Qq.PairsEmpty | plugins/qq.js:247-258 | no pair is pushed exactly when every value is `undefined` or empty |
| Qq.ChangeForKey | plugins/qq.js:247-258 | a kept new value is sent; an `undefined` or empty new value removes the key; an untouched existing parameter is sent again |
| Qq.PairsForKey | plugins/qq.js:247-258 | with unique keys, a key is sent exactly when its value is kept |
| Qq.ChangeWithoutParams | plugins/qq.js:247-258 | with nothing to send, the URL is the part before the first `?` |
| Qq.ChangeWithParams | plugins/qq.js:247-258 | with something to send, the URL is the base, `?`, and the pairs joined by `&` |
| Qq.MalformedQueryDropped | plugins/qq.js:227-258 | an undecodable existing value drops every existing parameter |
| Qq.NonEmptyGroups | plugins/qq.js:586-591 | exactly the groups with a tag, no more than there are |
| Qq.NonEmptyGroupsAll | plugins/qq.js:586-591 | with no empty group, every group is kept |
| Qq.FirstTagsOfNonEmpty | plugins/qq.js:586-591 | one first tag per non-empty group, in group order |
| Qq.PinnedTags | plugins/qq.js:586-591 | the loop pins each non-empty group's first tag, in order |
| Qq.GetRecommendSheetTags | plugins/qq.js:568-596 | the first category is dropped, and each remaining group with a tag pins its first tag, in order |
| Qishui.GetVipFee | plugins/qishui.js:77-79 | the fee is 1 exactly when the flag is the boolean true, else 0 |
| Qishui.BuildDouyinImageUrl | plugins/qishui.js:68-70 | the cover URL starts with the Douyin image base and ends with `.png` |
| Qishui.DouyinImageUrlParts | plugins/qishui.js:68-70 | the URL splits at its one `~` into base plus URI and template plus size; no size means 960:960 |
| Qishui.FixedQualitiesTags | plugins/qishui.js:98-102 | the fixed table lists exactly 128k, 320k and flac, in that order |
| Qishui.ParsedTracksFixed | plugins/qishui.js:94-251 | every parsed track offers exactly 128k, 320k and flac, and is VIP exactly when `only_vip_playable` is true |
| Qishui.ParseSearchResultItem | plugins/qishui.js:94-121 | a search hit keeps its `item_id` and `cover_url`, offers exactly 128k, 320k and flac, and is VIP exactly when `only_vip_playable` is true |
| Qishui.ParseTrackItem | plugins/qishui.js:175-204 | a track keeps its id, offers exactly 128k, 320k and flac, and is VIP exactly when `only_vip_playable` is true |
| Qishui.QualityToLevel | plugins/qishui.js:464-469 | 128k is standard, 320k high, flac lossless, anything else standard |
| Qishui.LevelsOfTags | plugins/qishui.js:464-469 | every level is one of three, each fixed tag has its own level, and unknown tags get 128k's |
| Qishui.GetMusicPlaybackSource | plugins/qishui.js:460-521 | the decision chain: no id, no request; song request failed, URL ""; no URL, null; keyed URL goes through the proxy; proxy failure returns the key for decryption |
| Qishui.PlaybackUrlOrigin | plugins/qishui.js:477-514 | a played URL is the song's when unkeyed, the proxy's when it succeeded, and "" only when the song request failed |
| Qishui.ImportedTracks | plugins/qishui.js:638-640 | never more tracks than resources |
| Qishui.ImportedExactlyTracks | plugins/qishui.js:638-640 | a track is imported exactly when a track resource parses to it; none without tracks; all in order when all are tracks |
| Qishui.SearchIsEndShort | plugins/qishui.js:328 | a page ends the search exactly when it is shorter than a full page |
| Qishui.CommentsEndPage | plugins/qishui.js:853 | for count c, exactly the pages after c / 20 end; a missing count never ends |
| Qishui.DigitPrefix | plugins/qishui.js:803 | the longest run of digits at the start |
| Qishui.ParseInt | plugins/qishui.js:803 | NaN exactly when no digit follows the blanks and the sign |
| Qishui.ParseIntDigits | plugins/qishui.js:803 | digits followed by other text parse to the digits' value |
| Qishui.ParseIntNegative | plugins/qishui.js:803 | a minus sign negates the digits' value |
| Qishui.SubChannelOfNumber | plugins/qishui.js:803 | a numeric id is its own sub-channel |
| Qishui.SubChannelOfDigits | plugins/qishui.js:803 | a text id starting with digits gives their value |
| Qishui.SubChannelOfNonNumeric | plugins/qishui.js:803 | `undefined`, `null` and booleans give 0 |
| SourceConfig.Config | netlify/functions/source-config.js:25-128 | a record exactly for the seven names in the table |
| SourceConfig.IsSourcePlugin | netlify/functions/source-config.js:138-140 | every plugin but bilibili, qishui and git depends on a source |
| SourceConfig.SourceSupportsPlugin | netlify/functions/source-config.js:145-150 | free plugins always, even for an unknown source; other plugins exactly when the source lists them |
| SourceConfig.GetQualityOverride | netlify/functions/source-config.js:156-160 | null for an unknown source or unlisted plugin; otherwise the plugin's entry |
| SourceConfig.ConfigCases | netlify/functions/source-config.js:25-128 | each of the seven names selects its own record, and any other none |
| SourceConfig.SourcesListOnlySourcePlugins | netlify/functions/source-config.js:25-128 | every source lists only the five source plugins |
| SourceConfig.ListedPluginsAreSourcePlugins | netlify/functions/source-config.js:25-140 | a listed plugin is one of the five and is a source plugin |
| SourceConfig.OverrideImpliesSupport | netlify/functions/source-config.js:145-160 | an override is only given for a supported source plugin |
| SourceConfig.DefaultSourceFacts | netlify/functions/source-config.js:26-38 | the default source exists, requires a key and serves all source plugins but Migu |
| SourceConfig.SuyinFacts | netlify/functions/source-config.js:52-65 | suyin needs no key, does not serve KuGou and gives QQ six tags |
| SourceConfig.KeyedSources | netlify/functions/source-config.js:25-128 | exactly ikun and linglan require a key |
| Subscription.OrElse | netlify/functions/subscription.js:108-111 | a given value wins over the fallback |
| Subscription.StripJson | netlify/functions/subscription.js:108-127 | a trailing `.json` comes off, and other text is kept |
| Subscription.StripJsonRoundTrip | netlify/functions/subscription.js:108-127 | stripping undoes appending, and strips only one suffix |
| Subscription.BaseUrl | netlify/functions/subscription.js:129 | `BASE_URL`, else `URL`, else the default; never empty |
| Subscription.GetClientIP | netlify/functions/subscription.js:76-80 | a given `x-forwarded-for` gives an address with no comma, and a header with a single hop gives that hop trimmed; without the header, `client-ip` or "unknown" |
| Subscription.ClientIpFirstHop | netlify/functions/subscription.js:76-80 | for a header with several hops, the address is the text before its first comma, trimmed; with GetClientIP's single-hop case this covers every given header |
| Subscription.GetClientUA | netlify/functions/subscription.js:82-84 | the user agent is never empty |
| Subscription.PluginOf | netlify/functions/subscription.js:55-67 | the record carries the file, its metadata, and is free exactly for a free plugin |
| Subscription.ScanPlugins | netlify/functions/subscription.js:50-74 | the loop gives the scanned records of the listing |
| Subscription.ScannedScripts | netlify/functions/subscription.js:50-74 | the scan keeps exactly the `.js` files, in directory order |
| Subscription.BuildList | netlify/functions/subscription.js:135-158 | the filtering loop equals `Listed`, which lists exactly the supported plugins in scan order |
| Subscription.ListedExactlySupported | netlify/functions/subscription.js:135-158 | the answer lists exactly the supported scanned plugins, in scan order |
| Subscription.FreeEntry | netlify/functions/subscription.js:135-158 | a free plugin is listed under every source, under its plain name, with an address without a query |
| Subscription.SourceEntryQuery | netlify/functions/subscription.js:142-151 | a source plugin's address reads back as path, source, and key exactly when required and sent |
| Subscription.SourceNamesAreQuerySafe | netlify/functions/subscription.js:142-151 | no source name holds `?` or `&` |
| Subscription.Handler | netlify/functions/subscription.js:86-185 | the handler answers as the response function does, for the scanned directory and base address |
| Subscription.Respond | netlify/functions/subscription.js:86-185 | the status is 200, 400 or 405, and a listing is sent only for a GET naming a configured source |
| Subscription.ResponseStatus | netlify/functions/subscription.js:94-175 | the status names the outcome: an empty 200 exactly for OPTIONS, 405 exactly for other non-GET methods, 400 exactly for an unknown source, the listing exactly for a known one |
| Subscription.MissingSourceIsDefault | netlify/functions/subscription.js:108-111 | without a source the default answers, and it exists |
| Subscription.SourceSuffixIgnored | netlify/functions/subscription.js:108-111 | `s.json` names s, and `.json` alone names no source |
| Subscription.KeySuffixIgnored | netlify/functions/subscription.js:124-127 | a key `K.json` is used as K |
| PluginServe.IsValidPluginName | netlify/functions/plugin.js:13-20 | valid exactly for a name ending in `.js` with no `/`, `\` or `..` |
| PluginServe.Run | netlify/functions/plugin.js:90 | the longest prefix without `/` or `?` |
| PluginServe.LastJsEnd | netlify/functions/plugin.js:90 | the greedy match ends at the last `.js` end |
| PluginServe.Capture | netlify/functions/plugin.js:90 | a capture is a prefix of the run that ends with `.js` after one character or more |
| PluginServe.MatchFrom | netlify/functions/plugin.js:90 | a found match comes from some index |
| PluginServe.MatchAtShape | netlify/functions/plugin.js:90 | a found name is a one-segment `.js` name after `/plugin/` or `/plugins/` |
| PluginServe.ExtractPluginName | netlify/functions/plugin.js:82-95 | a found name ends with `.js`, holds no `/` or `?`, and follows one of the two prefixes in the path |
| PluginServe.ExtractFromPluginsPath | netlify/functions/plugin.js:82-95 | `/plugins/<name>` followed by nothing, `/` or `?` gives that name |
| PluginServe.ExtractFromPluginPath | netlify/functions/plugin.js:82-95 | `/plugin/<name>` gives the name too |
| PluginServe.ExtractStopsAtLastJs | netlify/functions/plugin.js:90 | the name stops at the last `.js` of its segment even when more follows |
| PluginServe.PiecesFrom | netlify/functions/plugin.js:130 | splitting gives at least one piece |
| PluginServe.PiecesRejoin | netlify/functions/plugin.js:130 | joining the pieces with the placeholder restores the text |
| PluginServe.PiecesClean | netlify/functions/plugin.js:130 | no piece contains the placeholder |
| PluginServe.FillKeyReplacesOnlyPlaceholders | netlify/functions/plugin.js:130 | filling the key changes the text only where `YOUR_KEY` stood |
| PluginServe.FillKeyNoPlaceholder | netlify/functions/plugin.js:130 | text without the placeholder is served unchanged |
| PluginServe.ExpandPlain | netlify/functions/plugin.js:130 | a replacement without `$` is used literally |
| PluginServe.AsWrittenAgreesWithoutDollar | netlify/functions/plugin.js:130 | for a key without `$`, the source's replace and the literal substitution agree |
| PluginServe.DollarKeyIsExpanded | netlify/functions/plugin.js:130 | a key `$&` is served as the placeholder itself, where the literal substitution gives `$&` |
| PluginServe.PluginName | netlify/functions/plugin.js:82-95 | a given `plugin` parameter wins over the path |
| PluginServe.FileOpenedOnlyWhenValid | netlify/functions/plugin.js:68-127 | a file is consulted only for a valid name on a GET with a key, and it is the requested name |
| PluginServe.AnswerBeforeFileAccess | netlify/functions/plugin.js:40-127 | until a file is opened the answer does not depend on the directory |
| PluginServe.MissingKeyFirst | netlify/functions/plugin.js:68-78 | without a key the answer is 400 whatever the name |
| PluginServe.TraversalRefused | netlify/functions/plugin.js:107-114 | on a GET with a key, any plugin name holding `..`, `/` or a backslash is refused with 400 and no file is looked up |
| PluginServe.ServeStatus | netlify/functions/plugin.js:40-154 | 405 exactly for a method other than OPTIONS and GET; 404 exactly when the named file is missing; the script exactly when it exists |
| PluginServe.Serve | netlify/functions/plugin.js:40-154 | the status is 200, 400, 404 or 405; a file is looked up only on a GET with a valid plugin name; a script is sent only when that file exists, with 200 |
| PluginServe.ServedScript | netlify/functions/plugin.js:117-144 | a served plugin is its file with the key filled in, sent as uncached JavaScript |
| PluginServe.NameFromPath | netlify/functions/plugin.js:82-95 | without a parameter, the path `/plugins/<name>` names the plugin |

## Left out

- Network requests: every vendor answer, reply code and thrown error is a parameter of the function that reads it.
- HTML scraping with cheerio: the scraped values are parameters.
- MD5 signatures, AES decryption and `he.decode`: foreign library code.
- Mg.DecryptMrc: works on the bytes the base64 text decodes to. The base64 decoding, the `pako` decompression and the UTF-8 decoding around the byte loop are library code.
- Kw.ArrayBufferToBase64: only the hand-written encoder is modelled. The `btoa` and `Buffer` branches give the same text by RFC 4648.
- Kw.BuildParams: the same holds for its `btoa`/`Buffer` branches.
- Wy.Rsa: `modPow` on big integers is a parameter, not computed.
- `sizeFormate` and the other size renderings: a descriptor holds `Formatted(raw)`, which stands for the rendered text without computing it, because it uses floating point.
- `transformLrc` and any other floating-point time arithmetic: floating point.
- `Math.random`, `Date.now` and the sleep between retries: clocks and randomness.
- `Promise.all`: concurrent requests are modelled one after another, in list order.
- Wy.GetValidMusicItems: the lookup and merge of the `privileges` records (wy.js:647) is not modelled; only the quality merge is.
- Mg.MrcLine: models the intended tag, with the milliseconds padded to three digits (`Mg.TimeTag`); mg.js:540-545 writes them unpadded, as `Mg.TimeTagAsWritten` does (see Findings).
- Mg.ParseMrc: its output uses the intended padded tag of `Mg.MrcLine`, not the unpadded tag mg.js:540-545 writes (see Findings).
- Mg.MrcLines: built on `Mg.MrcLine`, so it carries the intended padded tag too (see Findings).
- Wy.ValidQualities: models the intended merge, which replaces the table only with a non-empty detail table; wy.js:657-662 always replaces it, so after a failed detail request the source's track gets `{}` (see Findings).
- Wy.MergeListed: proved for the intended merge, not the always-replace merge of wy.js:657-662 (see Findings).
- Wy.GetValidMusicItems: its tables are those of the intended merge; the source gives `{}` where a detail request failed (see Findings).
- PluginServe.ServedScript: the key is inserted literally (`FillKey`), the intended behaviour; plugin.js:130 passes the key to `replace` as a replacement pattern, so `$&`, `$$`, `` $` `` and `$'` in a key are expanded (see Findings).
- PluginServe.Serve: serves the literal fill of `PluginServe.ServedScript`, not the pattern expansion of plugin.js:130 (see Findings).
- Strings are sequences of Dafny characters, not UTF-16 code units, so surrogate pairs are not modelled.
- JsObject.Dict: JavaScript lists integer-like keys first in `Object.keys`; dictionaries here keep plain insertion order.
- Prototype lookups, such as `SOURCE_CONFIG["constructor"]`: the table holds its own keys only.
- `encodeURIComponent` and `decodeURIComponent`: parameters, with a decoding error as `None`.
- Qq.GetMusicInfo: the `Number(songid)` conversion and the `isNaN` test of the request ids are not modelled; the ids are sent as given.
- The regular expressions that pull a playlist id out of a shared URL in the import functions: not modelled.
- Singer and artist name formatting other than Mg.Labels and Kg.ArtistSongLabels.
- Subscription.ScanPlugins: the regular-expression reading of a plugin file's `platform` and `version` is a parameter (`meta`).
- PluginServe.ServedScript: `path.join` and `existsSync` are the `files` parameter, which returns a file's text or nothing.
- `process.env`: parameters.
- JSON bodies and the CORS header constants: the response keeps the fields the handlers vary, not their serialised form.
- Subscription.Handler: the `catch` that answers 500 is not modelled, because no modelled step throws.
- PluginServe.ServeStatus: the `catch` that answers 500 is not modelled, because no modelled step throws; a file that is missing or cannot be read makes `readPluginFile` throw, which the handler answers with 404.
- Console logging.
- Kg.SongQualities: the mutation of a shared empty `qualities` object in `formatMusicItem` is modelled on values, so aliasing is not captured.
- Kw.SortLrcArr: the in-place change of a kept item's `time` is modelled on values, so aliasing between items is not captured.
- `'N/A'` sizes are kept as the string value `"N/A"`.
- `server.js`: a development server outside the core.
- The KuWo `importMusicSheet`, whose id extraction is regular-expression behaviour: not modelled.

## Findings

| source | as written | input that shows it | evidently intended | confidence | as-written member | corrected member |
|---|---|---|---|---|---|---|
| plugins/mg.js:540-545 | the LRC tag writes the milliseconds without padding | a start time of 1005 ms is written `[00:01.5]`, which reads as 1.5 s | milliseconds padded to three digits | not executed | Mg.TimeTagAsWrittenMisread | Mg.TimeTagRoundTrip |
| plugins/wy.js:657-662 | `if (qualityInfo)` is always true, since `{}` is truthy | a failed detail request replaces the track's default table with `{}` | replace only with a non-empty table | not executed | Wy.MergeAsWrittenDropsDefault | Wy.MergeItem |
| netlify/functions/plugin.js:130 | `replace(/YOUR_KEY/g, key)` expands `$` patterns in the key | the key `$&` serves the text `YOUR_KEY` itself | the key inserted literally | not executed | PluginServe.DollarKeyIsExpanded | PluginServe.FillKeyReplacesOnlyPlaceholders |
