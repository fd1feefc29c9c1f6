/**
 * The persisted media document and its embedded records (src/schemas/media.ts),
 * with the store-side defaults the schema declares.
 */
module Schema {
  import opened Wrappers

  /** A document's `_id`. */
  type ObjectId = nat

  /** An opaque JSON value copied verbatim from the upstream API. */
  datatype Json =
    | JNull
    | JBool(b: bool)
    | JNumber(n: int)
    | JString(s: string)
    | JArray(items: seq<Json>)
    | JObject(members: seq<(string, Json)>)

  /** One raw search result of the torrent index (`si.Torrent`). */
  datatype Torrent = Torrent(
    id: string,
    name: string,
    date: string,
    magnet: string,
    torrent: string,
    hash: string,
    filesize: string,
    category: string,
    seeders: int,
    leechers: int,
    completed: int)

  datatype TorrentProvider = NyaaSi

  /**
   * `EnrichedTorrentItem`: every field of the raw result (`item`, spread or
   * `Object.assign`ed in the source), plus the classification and the provider tag.
   */
  datatype EnrichedTorrentItem = EnrichedTorrentItem(
    item: Torrent,
    quality: Option<string>,
    codecs: seq<string>,
    provide: Option<TorrentProvider>)
  {
    /** The torrent's external id, `torrent.id` in the source. */
    function Id(): string { item.id }
  }

  /** `new EnrichedTorrentItem(t)`: copies every field of `t`. */
  function CopyEnriched(t: EnrichedTorrentItem): (r: EnrichedTorrentItem)
    ensures r.item == t.item && r.quality == t.quality && r.codecs == t.codecs && r.provide == t.provide
  {
    EnrichedTorrentItem(t.item, t.quality, t.codecs, t.provide)
  }

  datatype Subtitles = Subtitles(language: string, path: string)

  /**
   * One download candidate of an episode; `None` is a key the stored item
   * does not have. Episodes live in an untyped array of the media schema,
   * so the `@Prop` defaults declared on this class are never applied.
   */
  datatype EpisodeItem = EpisodeItem(
    subtitles: Option<seq<Subtitles>>,
    quality: Option<string>,
    codecs: seq<string>,
    url: Option<string>,
    torrent: EnrichedTorrentItem)

  /**
   * `new EpisodeItem()` with `quality`, `codecs` and `torrent` assigned: the
   * declared defaults `subtitles: []` and `url: ''` do not apply, so the
   * item has neither key.
   */
  function NewEpisodeItem(quality: Option<string>, codecs: seq<string>, torrent: EnrichedTorrentItem): (r: EpisodeItem)
    ensures r.subtitles.None? && r.url.None?
    ensures r.quality == quality && r.codecs == codecs && r.torrent == torrent
  {
    EpisodeItem(None, quality, codecs, None, torrent)
  }

  /** One episode of a media and its download list (absent until set). */
  datatype Episode = Episode(episode: int := 0, downloads: Option<seq<EpisodeItem>> := None)

  datatype ProviderName = AniList

  datatype Provider = Provider(name: ProviderName, siteUrl: Option<string>, mediaId: Option<int>)

  datatype Studio = Studio(name: string)

  /** An airing entry; `airingAt` is an epoch in milliseconds, `None` is `null`. */
  datatype Airing = Airing(airingAt: Option<int>, timeUntilAiring: int, episode: int)

  /** `new Date(year, monthIndex, day)` in local time; calendar normalisation is not modelled. */
  datatype LocalDate = LocalDate(year: int, monthIndex: int, day: int)

  datatype MediaTitle = MediaTitle(
    romaji: Option<string>,
    english: Option<string>,
    native: Option<string>,
    userPreferred: Option<string>)

  /** `MediaCoverImage`; `None` is a `null` field. */
  datatype CoverImage = CoverImage(
    extraLarge: Option<string>,
    large: Option<string>,
    medium: Option<string>,
    color: Option<string>)

  /**
   * The descriptive fields the harvest copies verbatim from the API, always
   * all of them together: genres, status, season, countryOfOrigin, source,
   * updatedAt, synonyms, tags, externalLinks, rankings, type, format,
   * trailer and stats.
   */
  datatype Details = Details(
    genres: Json,
    status: Json,
    season: Json,
    countryOfOrigin: Json,
    source: Json,
    updatedAt: Json,
    synonyms: Json,
    tags: Json,
    externalLinks: Json,
    rankings: Json,
    mediaType: Json,
    mediaFormat: Json,
    trailer: Json,
    stats: Json)

  /**
   * A media document, and equally an update written to one: every field is
   * optional and `None` means the key is absent. `related` is the field the
   * harvesters write and `owner` the `media` key of a related stub.
   */
  datatype Media = Media(
    title: Option<MediaTitle> := None,
    slug: Option<string> := None,
    coverImage: Option<CoverImage> := None,
    provider: Option<Provider> := None,
    description: Option<string> := None,
    details: Option<Details> := None,
    duration: Option<int> := None,
    hasPublished: Option<bool> := None,
    episodes: Option<seq<Episode>> := None,
    totalEpisodes: Option<int> := None,
    idMal: Option<int> := None,
    startDate: Option<LocalDate> := None,
    endDate: Option<LocalDate> := None,
    seasonYear: Option<int> := None,
    chapters: Option<int> := None,
    volumes: Option<int> := None,
    bannerImage: Option<string> := None,
    averageScore: Option<int> := None,
    meanScore: Option<int> := None,
    popularity: Option<int> := None,
    trending: Option<int> := None,
    relateds: Option<seq<ObjectId>> := None,
    studios: Option<seq<Studio>> := None,
    isAdult: Option<bool> := None,
    nextAiringEpisode: Option<Airing> := None,
    airingSchedule: Option<Airing> := None,
    trends: Option<seq<Json>> := None,
    recommendations: Option<seq<ObjectId>> := None,
    related: Option<seq<ObjectId>> := None,
    owner: Option<ObjectId> := None)

  /** A stored document: its `_id` and its fields. */
  datatype Document = Document(id: ObjectId, media: Media)

  /** `b` if it is set, else `a`: how one `$set` key lands on a document. */
  function Pick<T>(a: Option<T>, b: Option<T>): (r: Option<T>)
    ensures b.Some? ==> r == b
    ensures b.None? ==> r == a
  {
    if b.Some? then b else a
  }

  /**
   * `$set` of every key the update carries: keys present in `update`
   * replace the document's, every other key of the document is kept.
   */
  function Overlay(m: Media, update: Media): (r: Media)
  {
    Media(
      title := Pick(m.title, update.title),
      slug := Pick(m.slug, update.slug),
      coverImage := Pick(m.coverImage, update.coverImage),
      provider := Pick(m.provider, update.provider),
      description := Pick(m.description, update.description),
      details := Pick(m.details, update.details),
      duration := Pick(m.duration, update.duration),
      hasPublished := Pick(m.hasPublished, update.hasPublished),
      episodes := Pick(m.episodes, update.episodes),
      totalEpisodes := Pick(m.totalEpisodes, update.totalEpisodes),
      idMal := Pick(m.idMal, update.idMal),
      startDate := Pick(m.startDate, update.startDate),
      endDate := Pick(m.endDate, update.endDate),
      seasonYear := Pick(m.seasonYear, update.seasonYear),
      chapters := Pick(m.chapters, update.chapters),
      volumes := Pick(m.volumes, update.volumes),
      bannerImage := Pick(m.bannerImage, update.bannerImage),
      averageScore := Pick(m.averageScore, update.averageScore),
      meanScore := Pick(m.meanScore, update.meanScore),
      popularity := Pick(m.popularity, update.popularity),
      trending := Pick(m.trending, update.trending),
      relateds := Pick(m.relateds, update.relateds),
      studios := Pick(m.studios, update.studios),
      isAdult := Pick(m.isAdult, update.isAdult),
      nextAiringEpisode := Pick(m.nextAiringEpisode, update.nextAiringEpisode),
      airingSchedule := Pick(m.airingSchedule, update.airingSchedule),
      trends := Pick(m.trends, update.trends),
      recommendations := Pick(m.recommendations, update.recommendations),
      related := Pick(m.related, update.related),
      owner := Pick(m.owner, update.owner))
  }

  /** An update that sets nothing leaves the document as it is. */
  lemma OverlayEmpty(m: Media)
    ensures Overlay(m, Media()) == m
  {
  }

  /** Writing an update twice is writing it once. */
  lemma OverlayIdempotent(m: Media, update: Media)
    ensures Overlay(Overlay(m, update), update) == Overlay(m, update)
  {
  }

  /**
   * The fields a new document starts with when an upsert inserts it: the
   * filter's slug and the schema defaults `has_published: false`,
   * `relateds: []` and `recommendations: []`.
   */
  function Inserted(slug: string): (r: Media)
    ensures r.slug == Some(slug) && r.hasPublished == Some(false)
    ensures r.relateds == Some([]) && r.recommendations == Some([])
    ensures r.episodes.None? && r.related.None?
  {
    Media(slug := Some(slug), hasPublished := Some(false), relateds := Some([]), recommendations := Some([]))
  }
}
