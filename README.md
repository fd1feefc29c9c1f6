# data-collector, modelled in Dafny

data-collector is a NestJS service with two jobs:

- It harvests the week's airing anime from the AniList GraphQL API into a MongoDB `media` collection. Each airing entry becomes a media document, keyed by a unique slug. Each related title becomes a stub document, and the owner's `related` list points at the stubs. Cover and banner images are downloaded, and the stored paths replace the URLs.
- For a requested episode of a stored media, it searches the Nyaa torrent index, keeps the results whose names carry that episode number, and classifies each one by quality and codecs. It then merges them into the media's `episodes` list and saves the document.

This project models the core of both jobs and proves properties about them.

Modules:

- **`Wrappers`**: `Option` and `Result`.
- **`Schema`**: the documents of `src/schemas/media.ts`.
  - An optional `Media` record stands for both a document and an update.
  - `Overlay` is how a `$set` lands on a document.
  - `Inserted` gives the defaults an insert receives.
- **`Errors`**: `unwrapError` from `src/utils.ts`, using an error record with AggregateError `errors` and `cause`.
- **`Store`**: the collection, as a map from slug to document plus the next `_id`.
  - `Wf` is the unique slug index together with distinct `_id`s.
  - The functions are `findOneAndUpdate` with upsert, `$setOnInsert`, the `related` update and `save`.
  - The class `MediaStore` holds the same state as fields and updates it in place.
- **`Projection`**: how one airing entry becomes the `$set` fields. This covers the `||` defaults, the dates, the next airing and the studios.
- **`Images`**: `updateImage` and `downloadImage`.
  - The HTTP fetch is an oracle `fetchOk: string -> bool`: the download of that URL succeeds or it does not.
  - The stored name is the POSIX base name of the URL.
- **`Harvester`**: the `fetchAirings` page loop.
  - It comes in two variants, `Processor` and `Cron`. `Processor` is the queue processor, `src/processors/anilist-info-collector.processor.ts`. `Cron` is the older cron copy, `src/task.service.ts`.
  - The API is a sequence of page replies. Each reply says how many attempts fail and the last error before the response.
  - `slugify` is a function parameter.
- **`Classifier`**: `filterEpisode` and `extractMediaInfo`.
  - The regular expressions are written out as scanners: the episode marker, quality, and the codec token match.
  - Each scanner comes with a declarative reading of its pattern and a lemma connecting the two.
- **`TorrentMerge`**: `downloadNyaaTorrent`.
  - The torrent search is a parameter of type `Result<seq<Torrent>, ThrownError>`.
  - The episode lookup takes a `Lookup` parameter. `AsWritten` is the source's comparison, which never matches; `ByNumber` is the intended one (see Findings).
  - The class `MediaDocument` holds the loaded document's `episodes` and performs the in-place push and merge.

Where the written description of the system and the code disagree, this model follows the code:

- **Codecs.** The codecs of a torrent are described as a set of normalised names. The code removes duplicates from the raw matches and only then normalises them. So a name with both `x265` and `HEVC` yields `X265` twice (`Classifier.DifferentSpellingsSameCodec`).
- **Related titles.** The schema declares `relateds`, but both harvesters write `related`. The model writes `related`.
- **A failing entry.** The description has an entry that throws abort only that entry. In the code, one `try` wraps the whole page loop, so the first throw ends the run: the rest of the page and all later pages are skipped, and the error is reported (anilist-info-collector.processor.ts:348-353). The model follows the code (`Harvester.ProcessEntriesStopAtError`, `Harvester.WalkOnePage`).

## Model

| member | source | states |
|---|---|---|
| Schema.CopyEnriched | src/schemas/media.ts:41-44 | the constructor copies the raw result and its quality, codecs and provider unchanged |
| Schema.NewEpisodeItem | src/schemas/media.ts:54-70 | a new episode item has no `subtitles` and no `url` key, because episodes are stored in an untyped array (media.ts:157-158) where the declared defaults never apply; it keeps the quality, codecs and torrent it is given |
| Schema.Pick | src/processors/anilist-info-collector.processor.ts:293-297 | a `$set` key that is present replaces the stored value; an absent key leaves it |
| Schema.OverlayEmpty | src/processors/anilist-info-collector.processor.ts:293-297 | an update with no keys leaves the document as it was |
| Schema.OverlayIdempotent | src/processors/anilist-info-collector.processor.ts:293-297 | applying the same `$set` twice gives what applying it once gives |
| Schema.Inserted | src/schemas/media.ts:123-258 | an upserted document starts with its slug, `has_published` false, `relateds` and `recommendations` empty, and no episodes or `related` |
| Errors.PlainError | src/utils.ts:10 | an error without nested errors or cause is a root cause with the given name and message |
| Errors.UnwrapError | src/utils.ts:1-11 | the result is always a root cause (not an AggregateError with errors, nor one with such a cause), and a root cause is returned unchanged |
| Errors.UnwrapFixpoint | src/utils.ts:1-11 | an error is its own unwrapping exactly when it is a root cause |
| Errors.UnwrapIdempotent | src/utils.ts:1-11 | unwrapping twice equals unwrapping once |
| Errors.UnwrapFollowsFirstErrors | src/utils.ts:3-9 | the result is reached by following `errors[0]` of the error or of its cause, some finite number of times |
| Errors.UnwrapIsFirstRootCause | src/utils.ts:3-9 | any root cause reached by such a chain of first errors is the unwrapped result, so unwrapping stops at the first root cause |
| Errors.UnwrapAggregateOfPlain | src/utils.ts:3-5 | an AggregateError whose first error is a root cause unwraps to that first error, whatever the others are |
| Store.SlugIsUnique | src/schemas/media.ts:129-130 | in a well-formed store, two documents with the same slug are the same document |
| Store.DocWithId | src/processors/nyaa-torrent.processor.ts:26-31 | `findOne({_id})` finds a document exactly when one has that `_id`, and the found document is the one stored under its own slug |
| Store.UpsertSet | src/processors/anilist-info-collector.processor.ts:293-297 | with upsert, the slug's document is the old one overlaid with the update, or a new document with the next `_id` and the insert defaults; every other document is unchanged |
| Store.SetOnInsert | src/processors/anilist-info-collector.processor.ts:315-322 | with `$setOnInsert`, an existing document and the whole store are left as they were; a missing slug gets a new document with the next `_id` |
| Store.SetRelated | src/processors/anilist-info-collector.processor.ts:326-335 | `updateOne({_id}, {related})` replaces only that document's `related`; keys, other documents and the id counter are unchanged |
| Store.UpsertSetKeepsWf | src/schemas/media.ts:129-130 | an upsert keyed by slug keeps the unique slug index and the distinct ids |
| Store.SetOnInsertKeepsWf | src/schemas/media.ts:129-130 | an insert-only upsert keeps the unique slug index and the distinct ids |
| Store.SetRelatedKeepsWf | src/schemas/media.ts:129-130 | setting `related` keeps the unique slug index and the distinct ids |
| Store.Save | src/processors/nyaa-torrent.processor.ts:92 | `media.save()` replaces the loaded document in place and keeps the store well-formed; no other document changes |
| Store.MediaStore.constructor | src/schemas/media.ts:123-130 | an empty collection |
| Store.MediaStore.FindById | src/processors/nyaa-torrent.processor.ts:26 | the lookup by `_id` on the live collection returns what `DocWithId` does |
| Store.MediaStore.FindOneAndUpdate | src/processors/anilist-info-collector.processor.ts:293-297 | the collection's new state and the returned document are those of `UpsertSet` |
| Store.MediaStore.FindOneAndSetOnInsert | src/processors/anilist-info-collector.processor.ts:315-322 | the collection's new state and the returned document are those of `SetOnInsert` |
| Store.MediaStore.UpdateRelated | src/processors/anilist-info-collector.processor.ts:326-335 | the collection's new state is that of `SetRelated` |
| Store.MediaStore.SaveDocument | src/processors/nyaa-torrent.processor.ts:92 | the collection's new state is that of `Save` |
| Projection.SlugifyError | src/processors/anilist-info-collector.processor.ts:247 | `slugify(undefined)` throws a plain error that unwrapping leaves as it is |
| Projection.DateOfSetWhenNonZero | src/processors/anilist-info-collector.processor.ts:283-289 | a date is written exactly when its year, month or day is truthy, as `new Date(year, month - 1, day)` with missing parts read as 0 |
| Projection.StudiosOf | src/processors/anilist-info-collector.processor.ts:233-281 | studios are present exactly when the API's studio nodes are, one per node, with the node's name, in order |
| Projection.Project | src/processors/anilist-info-collector.processor.ts:232-289 | the projection fails, with slugify's error, exactly when the romaji title is missing; otherwise the slug is `slugify(romaji)` |
| Projection.ProjectionDefaults | src/processors/anilist-info-collector.processor.ts:259-279 | missing description and banner become `''`; missing numbers become 0 (`total_episodes` from `episodes`); `isAdult` becomes false; `nextAiringEpisode` is always written, with `airingAt` kept only when truthy |
| Projection.ProjectionLeavesLocalFields | src/processors/anilist-info-collector.processor.ts:233-289 | the projection never writes episodes, `has_published`, `relateds`, `recommendations`, `related` or the stub owner; it copies title and details, sets the provider to AniList with the site URL and id, and turns the airing time into milliseconds |
| Images.StripTrailingSlashes | src/processors/anilist-info-collector.processor.ts:430 | the result is a prefix of the path that does not end in `/`, and only slashes were removed |
| Images.AfterLastSlash | src/processors/anilist-info-collector.processor.ts:430 | the result is a slash-free suffix of the path, preceded by `/` whenever it is not the whole path |
| Images.BasenameIsLastSegment | src/processors/anilist-info-collector.processor.ts:430 | the base name holds no `/` and is the last segment of the path, followed only by slashes |
| Images.DownloadImage | src/processors/anilist-info-collector.processor.ts:421-447 | a successful download returns the URL's base name; a failed one returns `''` |
| Images.WithField | src/processors/anilist-info-collector.processor.ts:366-368 | writing one cover key sets that key and leaves the other three |
| Images.UpdatedCover | src/processors/anilist-info-collector.processor.ts:359-370 | every cover key except `color` that holds a truthy URL is replaced by its download; `color` is kept |
| Images.UpdatedImages | src/processors/anilist-info-collector.processor.ts:357-377 | only the cover and banner change; the cover is updated key by key, and a truthy banner is replaced by its download |
| Images.EmptyImagesUntouched | src/processors/anilist-info-collector.processor.ts:363-372 | `color`, missing or empty cover keys, and a missing or empty banner are left as they were |
| Images.NoImagesNoChange | src/processors/anilist-info-collector.processor.ts:357-377 | a media with neither cover nor banner is returned unchanged |
| Images.UpdateCover | src/processors/anilist-info-collector.processor.ts:359-370 | the loop over the cover's keys computes `UpdatedCover` |
| Images.UpdateImage | src/processors/anilist-info-collector.processor.ts:357-377 | updating the media in place computes `UpdatedImages` |
| Harvester.WindowEnd | src/processors/anilist-info-collector.processor.ts:211-213 | the processor's window ends at the midnight after the week's last day; the cron copy's (src/task.service.ts lines 204-206) ends at that day's own midnight |
| Harvester.FetchPage | src/processors/anilist-info-collector.processor.ts:390-395 | a page costs 1 to 4 attempts; it succeeds exactly when at most 3 attempts fail, and otherwise fails with the last error |
| Harvester.NamedEdges | src/processors/anilist-info-collector.processor.ts:299-301 | only edges whose node has a romaji title are kept, so there are no more named edges than edges |
| Harvester.SlugsOf | src/processors/anilist-info-collector.processor.ts:302-313 | the set of slugs of the named edges: each edge's slug is in it, and nothing else is |
| Harvester.Stub | src/processors/anilist-info-collector.processor.ts:302-313 | a related stub has the edge's title and slug, the owner's id, the AniList provider, no cover and an empty description; it has no banner, episodes or `related`. The query selects only the node's title, so the node's `siteUrl`, `id` and `coverImage` that the stub copies are undefined. The cron copy's stub (src/task.service.ts lines 288-298) instead takes the owner's cover image and has no description |
| Harvester.LinkRelatedReconciles | src/processors/anilist-info-collector.processor.ts:298-324 | the edge loop collects one id per named edge, in order, each the `_id` stored under that edge's slug; it adds documents only under those slugs and changes no existing document |
| Harvester.LinkRelatedInsertsStubs | src/processors/anilist-info-collector.processor.ts:302-322 | every document the edge loop creates is the insert defaults overlaid with the stub of one of the named edges |
| Harvester.LinkRelatedKeepsEpisodes | src/processors/anilist-info-collector.processor.ts:298-324 | the edge loop changes no document's episodes, and its new stubs have none |
| Harvester.LinkRelatedKeepsWf | src/processors/anilist-info-collector.processor.ts:298-324 | the edge loop keeps the unique slug index |
| Harvester.Written | src/processors/anilist-info-collector.processor.ts:291 | the image update before the upsert keeps the slug, episodes and `related` |
| Harvester.ProcessEntry | src/processors/anilist-info-collector.processor.ts:232-337 | an entry fails exactly when its projection fails, and then it writes nothing |
| Harvester.ProcessEntryWritesProjection | src/processors/anilist-info-collector.processor.ts:232-337 | a projected entry upserts the image-updated projection under its slug, then links its relations, and reports no error |
| Harvester.WriteEntryUpdatesOwner | src/processors/anilist-info-collector.processor.ts:293-335 | the owner keeps its `_id` or receives the next one, and gets the projected fields; with edges, its `related` lists the named edges' ids in order, and without edges it is unchanged |
| Harvester.WriteEntryLinksOwner | src/processors/anilist-info-collector.processor.ts:298-335 | with edges, the owner is the upserted document with `related` set to the ids of the documents under the named slugs, in edge order |
| Harvester.WriteEntryKeepsOthers | src/processors/anilist-info-collector.processor.ts:293-335 | an entry adds only its own slug and its related slugs, and changes no document but its own |
| Harvester.WriteEntryKeepsEpisodes | src/processors/anilist-info-collector.processor.ts:293-335 | the harvest never touches the episodes the torrent job stores |
| Harvester.ProcessEntryKeepsEpisodes | src/processors/anilist-info-collector.processor.ts:232-337 | one entry keeps every stored document's episodes |
| Harvester.WriteEntryKeepsWf | src/schemas/media.ts:129-130 | the writes of an entry keep the unique slug index |
| Harvester.ProcessEntryKeepsWf | src/schemas/media.ts:129-130 | processing an entry keeps the unique slug index |
| Harvester.ProcessEntriesStopAtError | src/processors/anilist-info-collector.processor.ts:232-348 | once an entry throws, the remaining entries of the page are not processed |
| Harvester.ProcessEntriesKeepEpisodes | src/processors/anilist-info-collector.processor.ts:232-337 | a page of entries keeps every document's episodes |
| Harvester.ProcessEntriesKeepWf | src/schemas/media.ts:129-130 | a page of entries keeps the unique slug index |
| Harvester.Reported | src/processors/anilist-info-collector.processor.ts:348-353 | the processor reports the unwrapped root cause of a run's error; the cron copy (src/task.service.ts lines 316-318) reports it raw |
| Harvester.WalkOnePage | src/processors/anilist-info-collector.processor.ts:219-347 | one pass of the loop: a failed fetch aborts, an empty page ends, a thrown entry aborts, the last page completes, and otherwise the next page is requested |
| Harvester.WalkRequestsPagesInOrder | src/processors/anilist-info-collector.processor.ts:219-347 | pages are requested as 1, 2, 3, … with the same window, each within its retry budget; every page but the last had entries and a next page, and the run ends for the reason the last reply gives |
| Harvester.HarvestWalksPages | src/processors/anilist-info-collector.processor.ts:211-347 | a run starts at page 1 with the variant's window and requests pages in order |
| Harvester.ProcessorReportsRootCause | src/processors/anilist-info-collector.processor.ts:348-353 | an aborted processor run reports a root cause |
| Harvester.WalkKeepsWf | src/processors/anilist-info-collector.processor.ts:219-347 | the loop keeps the unique slug index whenever each page's step does |
| Harvester.WalkKeepsEpisodes | src/processors/anilist-info-collector.processor.ts:219-347 | the loop keeps every document's episodes whenever each page's step does |
| Harvester.HarvestKeepsWf | src/schemas/media.ts:129-130 | a whole run keeps the unique slug index |
| Harvester.HarvestKeepsEpisodes | src/processors/anilist-info-collector.processor.ts:211-353 | a whole run keeps every document's episodes |
| Harvester.ProcessAiring | src/processors/anilist-info-collector.processor.ts:232-337 | processing one entry against the live collection ends in the state and error of `ProcessEntry` |
| Harvester.LinkEdges | src/processors/anilist-info-collector.processor.ts:298-324 | the edge loop against the live collection ends in the state and ids of `LinkRelated` |
| Harvester.ProcessPage | src/processors/anilist-info-collector.processor.ts:232-338 | the entry loop against the live collection ends in the state and error of `ProcessEntries` |
| Harvester.HarvestPage | src/processors/anilist-info-collector.processor.ts:220-346 | one page against the live collection either ends the walk with its report, or leaves the rest of the walk to be done from the next page |
| Harvester.FetchAirings | src/processors/anilist-info-collector.processor.ts:211-353 | the page loop against the live collection ends in the state and report of `Harvest`, for either variant (the cron copy's loop is src/task.service.ts lines 204-318) |
| Classifier.UpperChar | src/processors/nyaa-torrent.processor.ts:120 | `toUpperCase` maps `a`–`z` to `A`–`Z` and leaves other characters |
| Classifier.Upper | src/processors/nyaa-torrent.processor.ts:128 | upper-casing works character by character and keeps the length |
| Classifier.DigitsEnd | src/processors/nyaa-torrent.processor.ts:105 | greedy `\d*` stops after the whole run of digits |
| Classifier.SpacesEnd | src/processors/nyaa-torrent.processor.ts:105 | greedy `\s*` stops after the whole run of ECMAScript white space |
| Classifier.DigitsEndUnique | src/processors/nyaa-torrent.processor.ts:105 | a maximal digit run found any way is the one the scanner finds |
| Classifier.SpacesEndUnique | src/processors/nyaa-torrent.processor.ts:105 | a maximal white-space run found any way is the one the scanner finds |
| Classifier.FirstMatchIsLeftmost | src/processors/nyaa-torrent.processor.ts:108 | `match` succeeds exactly when some position matches, and returns the leftmost match |
| Classifier.EpisodeMarkerAt | src/processors/nyaa-torrent.processor.ts:105 | a match of the episode pattern captures a non-empty digit string |
| Classifier.DashMarkerCorrect | src/processors/nyaa-torrent.processor.ts:105 | the `-\s*(\d+)` alternative matches at a dash exactly when the dash is followed by white space and then a maximal digit run, which is the capture |
| Classifier.SeasonMarkerCorrect | src/processors/nyaa-torrent.processor.ts:105 | the ` [Ss]\d+[Ee](\d+)` alternative matches exactly when a season number and `E` are followed by a maximal digit run, which is the capture |
| Classifier.EpisodeMarkerAtCorrect | src/processors/nyaa-torrent.processor.ts:105 | the scanner at a position agrees, in both directions, with the declarative reading of the whole pattern |
| Classifier.EpisodeCapture | src/processors/nyaa-torrent.processor.ts:108 | the captured episode is a non-empty digit string |
| Classifier.FilterEpisode | src/processors/nyaa-torrent.processor.ts:104-111 | filtering never adds results |
| Classifier.FilterEpisodeKeeps | src/processors/nyaa-torrent.processor.ts:104-111 | a result is kept exactly when it was given and its captured episode equals the request, padded to two digits when it has one |
| Classifier.FilterEpisodeIsSubsequence | src/processors/nyaa-torrent.processor.ts:107 | the kept results are in their original order |
| Classifier.FilterEpisodeIdempotent | src/processors/nyaa-torrent.processor.ts:104-111 | filtering twice for the same episode equals filtering once |
| Classifier.FilterEpisodeNeedsDigits | src/processors/nyaa-torrent.processor.ts:104-111 | if anything is kept, the request is a non-empty digit string, so `+episode` later reads it exactly |
| Classifier.DecimalValueLeadingZero | src/processors/nyaa-torrent.processor.ts:106 | padding with a leading zero does not change the decimal value |
| Classifier.KeptNameCarriesRequestedNumber | src/processors/nyaa-torrent.processor.ts:104-111 | a kept name's captured number has the value of the request |
| Classifier.PaddedEpisodeExample | src/processors/nyaa-torrent.processor.ts:105-106 | `"Show - 05 [1080p]"` captures `05` and matches request `5`; `"Show - 5 [720p]"` captures `5`, which does not |
| Classifier.QualityAt | src/processors/nyaa-torrent.processor.ts:114 | a quality match is one of `4K`, `1080`, `720`, `480` |
| Classifier.Quality | src/processors/nyaa-torrent.processor.ts:119-120 | the quality is absent exactly when no position matches, and otherwise is one of the four tags, upper-cased |
| Classifier.CodecLenAt | src/processors/nyaa-torrent.processor.ts:115 | a codec token is 3 to 6 characters long and lies within the name |
| Classifier.CodecSliceIsToken | src/processors/nyaa-torrent.processor.ts:115 | the text a codec match covers is itself a whole codec token |
| Classifier.CodecMatches | src/processors/nyaa-torrent.processor.ts:123 | every global match is a codec token |
| Classifier.CodecMatchesBound | src/processors/nyaa-torrent.processor.ts:123 | there are no more matches than characters |
| Classifier.ReplaceFirstNoInitial | src/processors/nyaa-torrent.processor.ts:125-127 | `replace` leaves a string without the pattern's first letter as it is |
| Classifier.ReplaceFirstWhole | src/processors/nyaa-torrent.processor.ts:125-127 | a string the pattern covers whole is replaced by the replacement |
| Classifier.NormaliseUntouched | src/processors/nyaa-torrent.processor.ts:124-129 | a token without `H` or `M` normalises to its upper-case spelling |
| Classifier.NormaliseHevc | src/processors/nyaa-torrent.processor.ts:125 | `HEVC` in any case normalises to `X265` |
| Classifier.NormaliseH264 | src/processors/nyaa-torrent.processor.ts:126 | `H264` and `H.264` in any case normalise to `H.264` |
| Classifier.NormaliseMpeg2 | src/processors/nyaa-torrent.processor.ts:127 | `MPEG2` and `MPEG-2` in any case normalise to `MPEG2` |
| Classifier.NormaliseCodecName | src/processors/nyaa-torrent.processor.ts:124-129 | every codec token normalises to one of `X264`, `X265`, `H.264`, `MPEG2`, `AAC` |
| Classifier.Dedup | src/processors/nyaa-torrent.processor.ts:123 | `[...new Set(xs)]` has no duplicates, the same members as `xs`, keeps their relative order (a subsequence of `xs`), and has no more elements |
| Classifier.DedupKeepsFirstOccurrenceOrder | src/processors/nyaa-torrent.processor.ts:123 | the set of every prefix of `xs` is a prefix of the set of `xs`: each value is placed at its first occurrence, and later repeats do not move it |
| Classifier.DedupOrderExample | src/processors/nyaa-torrent.processor.ts:123 | `["b", "a", "b"]` gives `["b", "a"]` |
| Classifier.CodecsAreNamed | src/processors/nyaa-torrent.processor.ts:123-129 | every codec is one of the five names, and there are no more codecs than raw matches |
| Classifier.NormaliseX265 | src/processors/nyaa-torrent.processor.ts:124-129 | `x265` normalises to `X265` |
| Classifier.DifferentSpellingsSameCodec | src/processors/nyaa-torrent.processor.ts:123-129 | `x265` and `HEVC` survive the dedup as two entries and both normalise to `X265` |
| Classifier.Classify | src/processors/nyaa-torrent.processor.ts:117-136 | a classified result keeps every raw field, has no provider yet, and its quality is a tag |
| Classifier.ExtractMediaInfo | src/processors/nyaa-torrent.processor.ts:113-137 | one classified item per result, in order, each keeping its result and with no provider |
| Classifier.ExtractMediaInfoCodecs | src/processors/nyaa-torrent.processor.ts:113-137 | every codec of every item is one of the five names |
| TorrentMerge.ToEpisodeItem | src/processors/nyaa-torrent.processor.ts:46-52 | an episode item copies the result's quality and codecs, has no `subtitles` or `url` key, and its torrent is the result tagged `NyaaSi` |
| TorrentMerge.NewEpisode | src/processors/nyaa-torrent.processor.ts:46-57 | a new episode has the requested number and one download per result, in order, each tagged `NyaaSi` |
| TorrentMerge.AddDownloads | src/processors/nyaa-torrent.processor.ts:65-76 | merging only appends, and afterwards every result's torrent id is among the downloads |
| TorrentMerge.AddDownloadsPrefixes | src/processors/nyaa-torrent.processor.ts:65-76 | the merge of a prefix of the results is a prefix of the whole merge, so downloads are pushed in the order of the results |
| TorrentMerge.AddDownloadsPushesNew | src/processors/nyaa-torrent.processor.ts:69-75 | a result whose torrent is not yet present, in the downloads given or among those pushed for earlier results, is pushed right after them; of two results with the same torrent, the first is kept |
| TorrentMerge.AddDownloadsSkipsPresent | src/processors/nyaa-torrent.processor.ts:69-72 | a result whose torrent is already present adds nothing |
| TorrentMerge.AddDownloadsFromResults | src/processors/nyaa-torrent.processor.ts:65-76 | everything appended is the episode item of one of the results |
| TorrentMerge.MergedEpisode | src/processors/nyaa-torrent.processor.ts:64-76 | merging keeps the episode number, and an episode without downloads stays without (`downloads?.push`) |
| TorrentMerge.AddDownloadsKeepsIdsUnique | src/processors/nyaa-torrent.processor.ts:69-75 | downloads free of repeated torrents stay free of them, with repeats inside one batch included |
| TorrentMerge.AddDownloadsPresent | src/processors/nyaa-torrent.processor.ts:69-72 | results already present are all skipped |
| TorrentMerge.AddDownloadsIdempotent | src/processors/nyaa-torrent.processor.ts:65-76 | merging the same results twice equals merging once |
| TorrentMerge.UnaryPlusOfEpisode | src/processors/nyaa-torrent.processor.ts:63 | `+episode` on the arrow's episode object is `NaN` |
| TorrentMerge.FindFrom | src/processors/nyaa-torrent.processor.ts:63 | `find` returns the first matching position, and none exactly when nothing matches |
| TorrentMerge.FindEpisode | src/processors/nyaa-torrent.processor.ts:63 | a found position is within the list |
| TorrentMerge.AsWrittenLookupNeverMatches | src/processors/nyaa-torrent.processor.ts:63 | as written, comparing with `NaN` finds no episode, whatever the list |
| TorrentMerge.ByNumberFindsFirst | src/processors/nyaa-torrent.processor.ts:63 | the lookup by number finds an episode exactly when one has that number, and finds the first one |
| TorrentMerge.MergeEpisodes | src/processors/nyaa-torrent.processor.ts:44-91 | a media without episodes gets exactly the new episode built from the results; otherwise the list grows by at most one and keeps its numbers in place; either way the requested number is present |
| TorrentMerge.AsWrittenMergeAppends | src/processors/nyaa-torrent.processor.ts:62-90 | as written, the list always gets a new episode appended |
| TorrentMerge.AsWrittenMergeDuplicatesEpisode | src/processors/nyaa-torrent.processor.ts:63-89 | as written, requesting an episode the media already has gives it two entries with that number |
| TorrentMerge.ByNumberMergeKeepsNumbersUnique | src/processors/nyaa-torrent.processor.ts:63-89 | with the lookup by number, episode numbers stay unique |
| TorrentMerge.ByNumberMergeKeepsDownloadsUnique | src/processors/nyaa-torrent.processor.ts:63-89 | with the lookup by number and distinct results, no episode gets a repeated torrent |
| TorrentMerge.ByNumberMergeIdempotent | src/processors/nyaa-torrent.processor.ts:63-89 | with the lookup by number, repeating the same request changes nothing more |
| TorrentMerge.TitleTypeError | src/processors/nyaa-torrent.processor.ts:32 | reading `media.title.romaji` on a document without a title throws a `TypeError` |
| TorrentMerge.Download | src/processors/nyaa-torrent.processor.ts:22-101 | only a save changes the store; "not found" happens exactly when no document has the id; "no torrents" exactly when the search succeeds and nothing is kept; a run fails exactly when the media exists and has no title (with the `TypeError`) or the search throws (with the search's own error); it saves exactly when the media exists with a title, the search succeeds and some result is kept; the store stays well-formed |
| TorrentMerge.WriteEpisodes | src/processors/nyaa-torrent.processor.ts:92 | saving the merged episodes keeps the store well-formed |
| TorrentMerge.WriteEpisodesTouchesOnlyEpisodes | src/processors/nyaa-torrent.processor.ts:92 | the save sets that document's episodes and changes nothing else in the collection |
| TorrentMerge.DownloadChangesOnlyEpisodes | src/processors/nyaa-torrent.processor.ts:22-101 | a job changes at most the episodes of the requested document |
| TorrentMerge.SavedRunHasRequestedEpisode | src/processors/nyaa-torrent.processor.ts:36-92 | after a save, the request was a digit string and the document lists an episode with its number |
| TorrentMerge.ByNumberRunKeepsNumbersUnique | src/processors/nyaa-torrent.processor.ts:22-101 | with the lookup by number, a job keeps every document's episode numbers unique |
| TorrentMerge.EpisodeFiveRequestedTwice | src/processors/nyaa-torrent.processor.ts:63-89 | for a media already listing episode 5, a request for `5` with a result `Show - 05 [1080p]` appends a second episode 5 as written, but keeps one episode with the lookup by number |
| TorrentMerge.MediaDocument.constructor | src/processors/nyaa-torrent.processor.ts:26 | the loaded document's id, fields and episodes |
| TorrentMerge.MediaDocument.PushEpisode | src/processors/nyaa-torrent.processor.ts:89 | `media.episodes.push` appends the new episode in place |
| TorrentMerge.MediaDocument.MergeDownloads | src/processors/nyaa-torrent.processor.ts:64-76 | the `forEach` updates the found episode in place to `MergedEpisode` and leaves the other episodes |
| TorrentMerge.DownloadNyaaTorrent | src/processors/nyaa-torrent.processor.ts:22-101 | the job against the live collection ends in the state and outcome of `Download` |

## Left out

- Mongoose strict mode is not modelled. Writes keep the fields the code writes: `related` instead of the schema's `relateds`, `total_episodes` that has no `@Prop`, and the stub's `media` key (`owner` here).
- The mongoose array default for `episodes` is not modelled. Because of it, a loaded document's `episodes` is in practice never missing and the `!media?.episodes` branch is hard to reach; the model keeps both branches.
- `undefined` and `null` are one case, `None`.
- GraphQL payloads with a `null` `trends`, `startDate`, `endDate` or `title` are not modelled. These would throw a `TypeError`; the API types them as present.
- A `null` `coverImage` in the payload is not modelled: the model takes the cover as always present. The program does not throw on it. The processor's `$set` writes `coverImage: null` over the stored cover, and `updateImage` skips it. The cron copy writes it too, and gives the same null to every `$setOnInsert` stub.
- `Date` calendar normalisation (month 13, day 0), time zones and `toISOString` are not modelled; a date is its three numbers.
- `dayjs` week arithmetic is not modelled. The window is given by the UTC midnights of its first and last day; only the difference between the two variants' window ends is kept.
- `slugify` is a function parameter; its option handling (`lower`, `trim`) is not modelled.
- Images.DownloadImage: the HTTP fetch, the file write and the directory creation are one oracle per URL. POSIX `basename` details beyond trailing slashes are not modelled.
- The Bull queue wiring, `job.retry()`, job logs, the logger and the Watchman error reports are not modelled; "no torrents" and "error" are outcomes.
- The retry delay and the request timing are not modelled, only the attempt count.
- The torrent search (`si.search`) is a parameter; its query options are not modelled.
- Numbers above 2^53 are not modelled. `+episode` is read as an exact natural number, because the filter only keeps results for a digit string.
- Unicode case mapping beyond ASCII letters is not modelled: `toUpperCase` here maps only `a`–`z`.
- The cover image object is shared between the projection and the related stub in the cron copy; that aliasing is not modelled, since the model passes values.
- An `_id` string that is not a valid ObjectId makes `findOne` throw a cast error; ids here are numbers.
- Errors thrown by `save`, `findOneAndUpdate` or `updateOne` are not modelled: every database write succeeds.
- Store.Save: `save()` here writes the whole loaded document. Mongoose change tracking is not modelled. `episodes` is an untyped array (media.ts:157-158), so Mongoose tracks `media.episodes = [...]` and `media.episodes.push(...)`, but not the in-place `downloads?.push` inside an element (nyaa-torrent.processor.ts:75). As written that branch is never taken (see Findings). Under the corrected `ByNumber` lookup, the merged downloads would reach the database only with a `markModified('episodes')` before the save; `TorrentMerge.MediaDocument.MergeDownloads` and `TorrentMerge.Download` assume they are persisted.
- Harvester.FetchAirings: the API is modelled as finite. Past the pages it is given, it answers an empty page, so every run ends; the `decreases` of `Walk` and of the method's loop rests on that. The source's `while (true)` ends only on an empty page, a last page or an error. An API that keeps answering non-empty pages with `hasNextPage: true` would keep it looping forever, and that run is not modelled.
- The controller, configuration, module wiring and the GraphQL query text are not part of this model.

## Findings

| source | as written | input that shows it | evidently intended | confidence | as-written member | corrected member |
|---|---|---|---|---|---|---|
| src/processors/nyaa-torrent.processor.ts:63 | the arrow parameter `episode` shadows the requested episode, so `+episode` is `NaN` and `find` never matches; every request appends a new `Episode` | a media whose `episodes` holds episode 5, a request for episode `"5"`, and a search result named `Show - 05 [1080p]`: the media ends with two entries for episode 5 | find the existing entry by the requested number and merge the new downloads into it, keeping one entry per episode number (persisting that in-place merge also needs `markModified`, see the `Store.Save` line under Left out) | not executed | TorrentMerge.AsWrittenMergeDuplicatesEpisode | TorrentMerge.ByNumberMergeKeepsNumbersUnique |
