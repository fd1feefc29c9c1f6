/**
 * One airing entry of the upstream schedule API and how both harvesters
 * turn it into the fields they write to its media document
 * (src/processors/anilist-info-collector.processor.ts:233-289 and
 * src/task.service.ts:217-273, which are identical).
 */
module Projection {
  import opened Wrappers
  import opened Schema
  import opened Errors

  /** A `FuzzyDate`; each component may be `null`. */
  datatype FuzzyDate = FuzzyDate(year: Option<int>, month: Option<int>, day: Option<int>)

  /** The media's `nextAiringEpisode`, each field possibly `null`. */
  datatype NextAiring = NextAiring(airingAt: Option<int>, timeUntilAiring: Option<int>, episode: Option<int>)

  /** The node of a relation edge, of which only the title is queried. */
  datatype RelatedNode = RelatedNode(title: Option<MediaTitle>)

  datatype RelationEdge = RelationEdge(relationType: Json, node: Option<RelatedNode>)

  /**
   * The media of an airing entry as the query returns it. `studioNames`
   * is `studios?.nodes` mapped to names, `trendNodes` is `trends.nodes`
   * and `relations` is `relations?.edges`; any of them may be missing.
   */
  datatype ApiMedia = ApiMedia(
    id: int,
    idMal: Option<int>,
    title: MediaTitle,
    siteUrl: Option<string>,
    details: Details,
    coverImage: CoverImage,
    description: Option<string>,
    duration: Option<int>,
    seasonYear: Option<int>,
    chapters: Option<int>,
    volumes: Option<int>,
    bannerImage: Option<string>,
    averageScore: Option<int>,
    meanScore: Option<int>,
    popularity: Option<int>,
    trending: Option<int>,
    isAdult: Option<bool>,
    studioNames: Option<seq<string>>,
    startDate: FuzzyDate,
    endDate: FuzzyDate,
    nextAiringEpisode: Option<NextAiring>,
    trendNodes: Option<seq<Json>>,
    episodes: Option<int>,
    relations: Option<seq<Option<RelationEdge>>>)

  /** One `airingSchedules` entry; `airingAt` is an epoch in seconds. */
  datatype AiringSchedule = AiringSchedule(episode: int, airingAt: int, timeUntilAiring: int, media: ApiMedia)

  /** JavaScript truthiness of a nullable number. */
  predicate Truthy(n: Option<int>) {
    n.Some? && n.value != 0
  }

  /** `slugify(undefined)` throws this. */
  function SlugifyError(): (e: ThrownError)
    ensures IsRootCause(e)
  {
    PlainError("Error", "slugify: string argument expected")
  }

  /**
   * `new Date(year, month - 1, day)` when some component is non-zero,
   * else no date at all; `null` components count as 0.
   */
  function DateOf(d: FuzzyDate): Option<LocalDate>
  {
    if Truthy(d.year) || Truthy(d.month) || Truthy(d.day) then
      Some(LocalDate(d.year.GetOr(0), d.month.GetOr(0) - 1, d.day.GetOr(0)))
    else None
  }

  /** A date is written exactly when some component is non-zero, with the month made 0-based. */
  lemma DateOfSetWhenNonZero(d: FuzzyDate)
    ensures DateOf(d).Some? <==> exists c :: c in [d.year, d.month, d.day] && Truthy(c)
    ensures DateOf(d).Some? ==>
      && DateOf(d).value.year == (if d.year.Some? then d.year.value else 0)
      && DateOf(d).value.monthIndex == (if d.month.Some? then d.month.value else 0) - 1
      && DateOf(d).value.day == (if d.day.Some? then d.day.value else 0)
  {
    if Truthy(d.year) {
      assert d.year in [d.year, d.month, d.day];
    } else if Truthy(d.month) {
      assert d.month in [d.year, d.month, d.day];
    } else if Truthy(d.day) {
      assert d.day in [d.year, d.month, d.day];
    }
  }

  /** `nextAiringEpisode` of the projection: a falsy `airingAt` becomes `null`, the rest default to 0. */
  function NextAiringOf(n: Option<NextAiring>): Airing
  {
    if n.None? then Airing(None, 0, 0)
    else Airing(
      if Truthy(n.value.airingAt) then Some(n.value.airingAt.value * 1000) else None,
      n.value.timeUntilAiring.GetOr(0),
      n.value.episode.GetOr(0))
  }

  /** `studios?.nodes?.map((studio) => new Studio(studio.name))`. */
  function StudiosOf(names: Option<seq<string>>): (r: Option<seq<Studio>>)
    ensures r.Some? <==> names.Some?
    ensures r.Some? ==> |r.value| == |names.value|
    ensures r.Some? ==> forall k :: 0 <= k < |names.value| ==> r.value[k].name == names.value[k]
  {
    if names.None? then None
    else Some(seq(|names.value|, k requires 0 <= k < |names.value| => Studio(names.value[k])))
  }

  /**
   * `mediaData` of one airing entry. `slugify(title.romaji)` throws when
   * the romaji title is missing, and the harvest run is then aborted.
   */
  function Project(air: AiringSchedule, slugify: string -> string): (r: Result<Media, ThrownError>)
    ensures r.Failure? <==> air.media.title.romaji.None?
    ensures r.Failure? ==> r.error == SlugifyError()
    ensures r.Success? ==> r.value.slug == Some(slugify(air.media.title.romaji.value))
  {
    if air.media.title.romaji.None? then Failure(SlugifyError())
    else
      var m := air.media;
      Success(Media(
        provider := Some(Provider(AniList, m.siteUrl, Some(m.id))),
        airingSchedule := Some(Airing(Some(air.airingAt * 1000), air.timeUntilAiring, air.episode)),
        title := Some(m.title),
        details := Some(m.details),
        slug := Some(slugify(m.title.romaji.value)),
        coverImage := Some(m.coverImage),
        description := Some(m.description.GetOr("")),
        duration := Some(m.duration.GetOr(0)),
        idMal := Some(m.idMal.GetOr(0)),
        seasonYear := Some(m.seasonYear.GetOr(0)),
        chapters := Some(m.chapters.GetOr(0)),
        volumes := Some(m.volumes.GetOr(0)),
        bannerImage := Some(m.bannerImage.GetOr("")),
        averageScore := Some(m.averageScore.GetOr(0)),
        meanScore := Some(m.meanScore.GetOr(0)),
        popularity := Some(m.popularity.GetOr(0)),
        trending := Some(m.trending.GetOr(0)),
        isAdult := Some(m.isAdult.GetOr(false)),
        studios := StudiosOf(m.studioNames),
        nextAiringEpisode := Some(NextAiringOf(m.nextAiringEpisode)),
        totalEpisodes := Some(m.episodes.GetOr(0)),
        trends := m.trendNodes,
        startDate := DateOf(m.startDate),
        endDate := DateOf(m.endDate)))
  }

  /** `written` is the upstream number, or 0 when it is missing. */
  predicate ZeroDefault(written: Option<int>, upstream: Option<int>) {
    written == Some(if upstream.Some? then upstream.value else 0)
  }

  /**
   * The default-filling rules: a missing text becomes `""`, a missing
   * number 0, a missing `isAdult` false, and a present value is kept.
   */
  lemma ProjectionDefaults(air: AiringSchedule, slugify: string -> string, m: Media)
    requires Project(air, slugify) == Success(m)
    ensures m.description == Some(if air.media.description.Some? then air.media.description.value else "")
    ensures m.bannerImage == Some(if air.media.bannerImage.Some? then air.media.bannerImage.value else "")
    ensures ZeroDefault(m.duration, air.media.duration) && ZeroDefault(m.idMal, air.media.idMal)
    ensures ZeroDefault(m.seasonYear, air.media.seasonYear) && ZeroDefault(m.chapters, air.media.chapters)
    ensures ZeroDefault(m.volumes, air.media.volumes) && ZeroDefault(m.averageScore, air.media.averageScore)
    ensures ZeroDefault(m.meanScore, air.media.meanScore) && ZeroDefault(m.popularity, air.media.popularity)
    ensures ZeroDefault(m.trending, air.media.trending) && ZeroDefault(m.totalEpisodes, air.media.episodes)
    ensures m.isAdult == Some(air.media.isAdult.Some? && air.media.isAdult.value)
    ensures m.nextAiringEpisode.Some?
    ensures (air.media.nextAiringEpisode.None? ==> m.nextAiringEpisode.value == Airing(None, 0, 0))
    ensures (air.media.nextAiringEpisode.Some? ==>
        && (m.nextAiringEpisode.value.airingAt.None? <==> !Truthy(air.media.nextAiringEpisode.value.airingAt))
        && m.nextAiringEpisode.value.timeUntilAiring == air.media.nextAiringEpisode.value.timeUntilAiring.GetOr(0)
        && m.nextAiringEpisode.value.episode == air.media.nextAiringEpisode.value.episode.GetOr(0))
  {
  }

  /**
   * The projection writes the upstream fields and nothing the harvest
   * does not own: never `episodes`, `has_published`, `relateds`,
   * `recommendations`, `related` or a stub's owner.
   */
  lemma ProjectionLeavesLocalFields(air: AiringSchedule, slugify: string -> string, m: Media)
    requires Project(air, slugify) == Success(m)
    ensures m.episodes.None? && m.hasPublished.None? && m.relateds.None?
    ensures m.recommendations.None? && m.related.None? && m.owner.None?
    ensures m.title == Some(air.media.title) && m.details == Some(air.media.details)
    ensures m.provider == Some(Provider(AniList, air.media.siteUrl, Some(air.media.id)))
    ensures m.airingSchedule == Some(Airing(Some(air.airingAt * 1000), air.timeUntilAiring, air.episode))
    ensures m.startDate == DateOf(air.media.startDate) && m.endDate == DateOf(air.media.endDate)
  {
  }
}
