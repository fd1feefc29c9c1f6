/**
 * The weekly airing harvest: the sequential page walk, the upsert of each
 * entry's projection by slug and the reconciliation of its related
 * media. One model covers both copies of the loop, the queue processor
 * (src/processors/anilist-info-collector.processor.ts:31-355) and the
 * older cron service (src/task.service.ts:23-320); `Variant` selects
 * where they differ.
 */
module Harvester {
  import opened Wrappers
  import opened Schema
  import opened Errors
  import opened Store
  import opened Projection
  import opened Images

  /** The queue processor, or the cron copy. */
  datatype Variant = Processor | Cron

  const SecondsPerDay: int := 86400

  /** `retry({ count: 3 })` on every page request. */
  const MaxRetries: nat := 3

  /**
   * The exclusive end of the airing window, in epoch seconds, given the
   * UTC midnight of the week's last day: the processor ends at the
   * following midnight, the cron copy at that day's own midnight.
   */
  function WindowEnd(v: Variant, lastDay: int): (r: int)
    ensures v == Processor ==> r == lastDay + SecondsPerDay
    ensures v == Cron ==> r == lastDay
  {
    match v
    case Processor => lastDay + SecondsPerDay
    case Cron => lastDay
  }

  /** The `Page` of one successful reply. */
  datatype PageResponse = PageResponse(schedules: Option<seq<AiringSchedule>>, hasNextPage: bool)

  /**
   * How the API answers one page request: the first `failedAttempts`
   * attempts fail and the next one answers `response`. When more than 3
   * fail, the retries stop after the 4th attempt and `error` is what that
   * 4th attempt threw.
   */
  datatype PageReply = PageReply(failedAttempts: nat, error: ThrownError, response: PageResponse)

  /** The answer to page `page` (1-based); past the pages given, an empty page. */
  function ReplyAt(pages: seq<PageReply>, page: nat): PageReply
  {
    if 1 <= page <= |pages| then pages[page - 1]
    else PageReply(0, PlainError("Error", ""), PageResponse(Some([]), false))
  }

  /** The outcome of one page request and how many times it was sent. */
  datatype Fetched = Fetched(result: Result<PageResponse, ThrownError>, attempts: nat)

  /** One page POST with its retry budget: at most 1 + 3 attempts. */
  function FetchPage(reply: PageReply): (r: Fetched)
    ensures 1 <= r.attempts <= MaxRetries + 1
    ensures r.result.Success? <==> reply.failedAttempts <= MaxRetries
    ensures r.result.Success? ==> r.result.value == reply.response && r.attempts == reply.failedAttempts + 1
    ensures r.result.Failure? ==> r.result.error == reply.error
  {
    if reply.failedAttempts <= MaxRetries then Fetched(Success(reply.response), reply.failedAttempts + 1)
    else Fetched(Failure(reply.error), MaxRetries + 1)
  }

  /** `element?.node?.title?.romaji` is truthy: the edge's title and the slug of its romaji title. */
  function NamedEdge(e: Option<RelationEdge>, slugify: string -> string): Option<(MediaTitle, string)>
  {
    if && e.Some? && e.value.node.Some? && e.value.node.value.title.Some?
       && e.value.node.value.title.value.romaji.Some? && e.value.node.value.title.value.romaji.value != ""
    then Some((e.value.node.value.title.value, slugify(e.value.node.value.title.value.romaji.value)))
    else None
  }

  /** The edges with a romaji title, in order. */
  function NamedEdges(edges: seq<Option<RelationEdge>>, slugify: string -> string): (r: seq<(MediaTitle, string)>)
    ensures |r| <= |edges|
    decreases |edges|
  {
    if edges == [] then []
    else
      var prev := NamedEdges(edges[..|edges| - 1], slugify);
      match NamedEdge(edges[|edges| - 1], slugify)
      case None => prev
      case Some(named) => prev + [named]
  }

  /** The slugs of named edges. */
  function SlugsOf(named: seq<(MediaTitle, string)>): (r: set<string>)
    ensures forall k :: 0 <= k < |named| ==> named[k].1 in r
    ensures forall s :: s in r ==> exists k :: 0 <= k < |named| && named[k].1 == s
  {
    set k | 0 <= k < |named| :: named[k].1
  }

  /**
   * The stub written for a related media that has no document yet. The
   * processor gives it an empty description and no cover image (the node
   * carries none); the cron copy gives it the owner's cover image. The
   * node's `siteUrl` and `id` are not queried, so the provider has neither.
   */
  function Stub(v: Variant, title: MediaTitle, slug: string, owner: ObjectId, ownerCover: CoverImage): (r: Media)
    ensures r.slug == Some(slug) && r.title == Some(title) && r.owner == Some(owner)
    ensures r.provider == Some(Provider(AniList, None, None))
    ensures v == Processor ==> r.coverImage.None? && r.description == Some("")
    ensures v == Cron ==> r.coverImage == Some(ownerCover) && r.description.None?
    ensures r.bannerImage.None? && r.episodes.None? && r.related.None?
  {
    match v
    case Processor =>
      Media(provider := Some(Provider(AniList, None, None)), title := Some(title), slug := Some(slug),
            description := Some(""), owner := Some(owner))
    case Cron =>
      Media(provider := Some(Provider(AniList, None, None)), title := Some(title), slug := Some(slug),
            coverImage := Some(ownerCover), owner := Some(owner))
  }

  /**
   * The edge loop: for each named edge in order, `$setOnInsert` its stub
   * and collect the `_id` of the document under its slug.
   */
  function LinkRelated(v: Variant, st: StoreState, edges: seq<Option<RelationEdge>>, owner: ObjectId,
                       ownerCover: CoverImage, slugify: string -> string): (r: (StoreState, seq<ObjectId>))
    decreases |edges|
  {
    if edges == [] then (st, [])
    else
      var prev := LinkRelated(v, st, edges[..|edges| - 1], owner, ownerCover, slugify);
      match NamedEdge(edges[|edges| - 1], slugify)
      case None => prev
      case Some(named) =>
        var inserted := SetOnInsert(prev.0, named.1, Stub(v, named.0, named.1, owner, ownerCover));
        (inserted.0, prev.1 + [inserted.1.id])
  }

  /** Every document keeps its episodes, and a new document has none. */
  predicate EpisodesKept(before: StoreState, after: StoreState) {
    && (forall s :: s in before.docs ==> s in after.docs && after.docs[s].media.episodes == before.docs[s].media.episodes)
    && (forall s :: s in after.docs && s !in before.docs ==> after.docs[s].media.episodes.None?)
  }

  lemma EpisodesKeptTransitive(a: StoreState, b: StoreState, c: StoreState)
    requires EpisodesKept(a, b) && EpisodesKept(b, c)
    ensures EpisodesKept(a, c)
  {
  }

  /** `d` is the stub the `k`-th named edge inserts under slug `s`. */
  ghost predicate StubOf(v: Variant, named: seq<(MediaTitle, string)>, k: int, s: string, owner: ObjectId,
                         ownerCover: CoverImage, d: Document) {
    0 <= k < |named| && named[k].1 == s && d.media == Overlay(Inserted(s), Stub(v, named[k].0, s, owner, ownerCover))
  }

  /**
   * What the edge loop does: one id per named edge, in order, each the
   * `_id` of the document under that edge's slug; it creates documents
   * only under those slugs and never modifies one that existed.
   */
  lemma {:induction false} LinkRelatedReconciles(v: Variant, st: StoreState, edges: seq<Option<RelationEdge>>,
                                                 owner: ObjectId, ownerCover: CoverImage, slugify: string -> string)
    ensures var r := LinkRelated(v, st, edges, owner, ownerCover, slugify);
      var named := NamedEdges(edges, slugify);
      && |r.1| == |named|
      && (forall k :: 0 <= k < |named| ==> named[k].1 in r.0.docs && r.0.docs[named[k].1].id == r.1[k])
      && r.0.docs.Keys == st.docs.Keys + SlugsOf(named)
      && (forall s :: s in st.docs ==> r.0.docs[s] == st.docs[s])
    decreases |edges|
  {
    if edges != [] {
      var init := edges[..|edges| - 1];
      LinkRelatedReconciles(v, st, init, owner, ownerCover, slugify);
      var pnamed := NamedEdges(init, slugify);
      match NamedEdge(edges[|edges| - 1], slugify)
      case None =>
      case Some(named) =>
        var all := pnamed + [named];
        assert NamedEdges(edges, slugify) == all;
        assert SlugsOf(all) == SlugsOf(pnamed) + {named.1} by {
          assert forall k :: 0 <= k < |pnamed| ==> all[k] == pnamed[k];
          assert all[|pnamed|] == named;
        }
    }
  }

  /** A document the edge loop creates is the stub of a named edge with its slug. */
  lemma {:induction false} LinkRelatedInsertsStubs(v: Variant, st: StoreState, edges: seq<Option<RelationEdge>>,
                                                   owner: ObjectId, ownerCover: CoverImage, slugify: string -> string)
    ensures var r := LinkRelated(v, st, edges, owner, ownerCover, slugify);
      forall s :: s in r.0.docs && s !in st.docs ==>
        exists k :: StubOf(v, NamedEdges(edges, slugify), k, s, owner, ownerCover, r.0.docs[s])
    decreases |edges|
  {
    if edges != [] {
      var init := edges[..|edges| - 1];
      LinkRelatedInsertsStubs(v, st, init, owner, ownerCover, slugify);
      var prev := LinkRelated(v, st, init, owner, ownerCover, slugify);
      var pnamed := NamedEdges(init, slugify);
      match NamedEdge(edges[|edges| - 1], slugify)
      case None =>
        assert NamedEdges(edges, slugify) == pnamed;
      case Some(named) =>
        var inserted := SetOnInsert(prev.0, named.1, Stub(v, named.0, named.1, owner, ownerCover));
        var all := pnamed + [named];
        assert NamedEdges(edges, slugify) == all;
        forall s | s in inserted.0.docs && s !in st.docs
          ensures exists k :: StubOf(v, all, k, s, owner, ownerCover, inserted.0.docs[s])
        {
          if s in prev.0.docs {
            var k :| StubOf(v, pnamed, k, s, owner, ownerCover, prev.0.docs[s]);
            assert all[k] == pnamed[k];
            assert StubOf(v, all, k, s, owner, ownerCover, inserted.0.docs[s]);
          } else {
            assert s == named.1 && all[|all| - 1] == named;
            assert StubOf(v, all, |all| - 1, s, owner, ownerCover, inserted.0.docs[s]);
          }
        }
    }
  }

  /** The edge loop keeps every document's episodes, and its stubs have none. */
  lemma {:induction false} LinkRelatedKeepsEpisodes(v: Variant, st: StoreState, edges: seq<Option<RelationEdge>>,
                                                    owner: ObjectId, ownerCover: CoverImage, slugify: string -> string)
    ensures EpisodesKept(st, LinkRelated(v, st, edges, owner, ownerCover, slugify).0)
    decreases |edges|
  {
    if edges != [] {
      var init := edges[..|edges| - 1];
      LinkRelatedKeepsEpisodes(v, st, init, owner, ownerCover, slugify);
    }
  }

  /** The fields the projection writes once the processor has downloaded its images. */
  function Written(v: Variant, projected: Media, fetchOk: string -> bool): (r: Media)
    ensures r.slug == projected.slug && r.episodes == projected.episodes && r.related == projected.related
  {
    if v == Processor then UpdatedImages(projected, fetchOk) else projected
  }

  /** The state of the store, and the first error thrown if any. */
  datatype Progress = Progress(state: StoreState, error: Option<ThrownError>)

  /**
   * The writes of one entry whose fields `data` go under `slug`: upsert
   * them, then, when there are relation edges, link them and set the
   * owner's `related` to the collected ids.
   */
  function WriteEntry(v: Variant, st: StoreState, slug: string, data: Media,
                      relations: Option<seq<Option<RelationEdge>>>, ownerCover: CoverImage,
                      slugify: string -> string): StoreState
  {
    var upserted := UpsertSet(st, slug, data);
    if relations.Some? && |relations.value| > 0 then
      var linked := LinkRelated(v, upserted.0, relations.value, upserted.1.id, ownerCover, slugify);
      SetRelated(linked.0, upserted.1.id, linked.1)
    else upserted.0
  }

  /**
   * One airing entry: project it (the processor also downloads its
   * images) and write it; a projection that throws aborts with nothing
   * written.
   */
  function ProcessEntry(v: Variant, st: StoreState, air: AiringSchedule, slugify: string -> string,
                        fetchOk: string -> bool): (r: Progress)
    ensures r.error.Some? <==> Project(air, slugify).Failure?
    ensures r.error.Some? ==> r.state == st
  {
    match Project(air, slugify)
    case Failure(e) => Progress(st, Some(e))
    case Success(projected) =>
      var data := Written(v, projected, fetchOk);
      Progress(WriteEntry(v, st, projected.slug.value, data, air.media.relations, air.media.coverImage, slugify), None)
  }

  /**
   * The owner of one entry: under its slug it keeps its `_id` (or takes the
   * next one) and every field the entry does not write; its `related`
   * becomes exactly the ids of the named edges' documents, in edge order,
   * when it has edges, and is untouched when it has none.
   */
  lemma WriteEntryUpdatesOwner(v: Variant, st: StoreState, slug: string, data: Media,
                               relations: Option<seq<Option<RelationEdge>>>, ownerCover: CoverImage,
                               slugify: string -> string)
    requires data.related.None?
    ensures var r := WriteEntry(v, st, slug, data, relations, ownerCover, slugify);
      var named := if relations.Some? then NamedEdges(relations.value, slugify) else [];
      var base := if slug in st.docs then st.docs[slug].media else Inserted(slug);
      && slug in r.docs
      && r.docs[slug].id == (if slug in st.docs then st.docs[slug].id else st.nextId)
      && r.docs[slug].media.(related := base.related) == Overlay(base, data)
      && (forall k :: 0 <= k < |named| ==> named[k].1 in r.docs)
      && (relations.Some? && |relations.value| > 0 ==>
            && r.docs[slug].media.related.Some? && |r.docs[slug].media.related.value| == |named|
            && forall k :: 0 <= k < |named| ==> r.docs[slug].media.related.value[k] == r.docs[named[k].1].id)
      && (relations.None? || |relations.value| == 0 ==> r.docs[slug].media.related == base.related)
  {
    var base := if slug in st.docs then st.docs[slug].media else Inserted(slug);
    var upserted := UpsertSet(st, slug, data);
    assert upserted.1.media == Overlay(base, data);
    OverlayKeepsRelated(base, data);
    if relations.Some? && |relations.value| > 0 {
      WriteEntryLinksOwner(v, st, slug, data, relations.value, ownerCover, slugify);
    }
  }

  /** `$set` of an update without `related` keeps the document's `related`. */
  lemma OverlayKeepsRelated(m: Media, update: Media)
    requires update.related.None?
    ensures Overlay(m, update).related == m.related
    ensures Overlay(m, update).(related := m.related) == Overlay(m, update)
  {
  }

  /** `$set` of an update without `episodes` keeps the document's `episodes`. */
  lemma OverlayKeepsEpisodes(m: Media, update: Media)
    requires update.episodes.None?
    ensures Overlay(m, update).episodes == m.episodes
  {
  }

  /** With relation edges, the owner's `related` is the named edges' ids, in edge order. */
  lemma WriteEntryLinksOwner(v: Variant, st: StoreState, slug: string, data: Media,
                             edges: seq<Option<RelationEdge>>, ownerCover: CoverImage, slugify: string -> string)
    requires |edges| > 0
    ensures var r := WriteEntry(v, st, slug, data, Some(edges), ownerCover, slugify);
      var named := NamedEdges(edges, slugify);
      var upserted := UpsertSet(st, slug, data);
      && slug in r.docs
      && (forall k :: 0 <= k < |named| ==> named[k].1 in r.docs)
      && r.docs[slug].id == upserted.1.id
      && r.docs[slug].media.related.Some?
      && r.docs[slug].media == upserted.1.media.(related := r.docs[slug].media.related)
      && |r.docs[slug].media.related.value| == |named|
      && (forall k :: 0 <= k < |named| ==> r.docs[slug].media.related.value[k] == r.docs[named[k].1].id)
  {
    var upserted := UpsertSet(st, slug, data);
    LinkRelatedReconciles(v, upserted.0, edges, upserted.1.id, ownerCover, slugify);
    var linked := LinkRelated(v, upserted.0, edges, upserted.1.id, ownerCover, slugify);
    var named := NamedEdges(edges, slugify);
    var r := SetRelated(linked.0, upserted.1.id, linked.1);
    assert r == WriteEntry(v, st, slug, data, Some(edges), ownerCover, slugify);
    assert r.docs[slug] == Document(upserted.1.id, upserted.1.media.(related := Some(linked.1)));
    forall k | 0 <= k < |named|
      ensures r.docs[named[k].1].id == linked.1[k]
    {
      assert linked.0.docs[named[k].1].id == linked.1[k];
    }
  }

  /**
   * The rest of the store after one entry: documents are added only under
   * the entry's slug and its named edges' slugs, and in a well-formed
   * store no document that existed, other than the owner, changes.
   */
  lemma WriteEntryKeepsOthers(v: Variant, st: StoreState, slug: string, data: Media,
                              relations: Option<seq<Option<RelationEdge>>>, ownerCover: CoverImage,
                              slugify: string -> string)
    requires Wf(st)
    ensures var r := WriteEntry(v, st, slug, data, relations, ownerCover, slugify);
      var named := if relations.Some? && |relations.value| > 0 then NamedEdges(relations.value, slugify) else [];
      && r.docs.Keys == st.docs.Keys + {slug} + SlugsOf(named)
      && (forall s :: s in st.docs && s != slug ==> r.docs[s] == st.docs[s])
  {
    var upserted := UpsertSet(st, slug, data);
    if relations.Some? && |relations.value| > 0 {
      LinkRelatedReconciles(v, upserted.0, relations.value, upserted.1.id, ownerCover, slugify);
      var linked := LinkRelated(v, upserted.0, relations.value, upserted.1.id, ownerCover, slugify);
      var r := SetRelated(linked.0, upserted.1.id, linked.1);
      forall s | s in st.docs && s != slug
        ensures r.docs[s] == st.docs[s]
      {
        assert linked.0.docs[s] == upserted.0.docs[s] == st.docs[s];
        assert st.docs[s].id != upserted.1.id;
      }
    }
  }

  /**
   * One entry whose romaji title is present writes its projection, images
   * downloaded by the processor, under the slug of that title.
   */
  lemma ProcessEntryWritesProjection(v: Variant, st: StoreState, air: AiringSchedule, slugify: string -> string,
                                     fetchOk: string -> bool, projected: Media)
    requires Project(air, slugify) == Success(projected)
    ensures ProcessEntry(v, st, air, slugify, fetchOk) ==
      Progress(WriteEntry(v, st, slugify(air.media.title.romaji.value), Written(v, projected, fetchOk),
                          air.media.relations, air.media.coverImage, slugify), None)
    ensures Written(v, projected, fetchOk).related.None? && Written(v, projected, fetchOk).episodes.None?
  {
    ProjectionLeavesLocalFields(air, slugify, projected);
  }

  /** The harvest never writes episodes: one entry keeps every document's episodes. */
  lemma ProcessEntryKeepsEpisodes(v: Variant, st: StoreState, air: AiringSchedule, slugify: string -> string,
                                  fetchOk: string -> bool)
    ensures EpisodesKept(st, ProcessEntry(v, st, air, slugify, fetchOk).state)
  {
    match Project(air, slugify)
    case Failure(_) =>
    case Success(projected) =>
      ProcessEntryWritesProjection(v, st, air, slugify, fetchOk, projected);
      WriteEntryKeepsEpisodes(v, st, projected.slug.value, Written(v, projected, fetchOk),
                              air.media.relations, air.media.coverImage, slugify);
  }

  /** Writing an entry that carries no episodes keeps every document's episodes. */
  lemma WriteEntryKeepsEpisodes(v: Variant, st: StoreState, slug: string, data: Media,
                                relations: Option<seq<Option<RelationEdge>>>, ownerCover: CoverImage,
                                slugify: string -> string)
    requires data.episodes.None?
    ensures EpisodesKept(st, WriteEntry(v, st, slug, data, relations, ownerCover, slugify))
  {
    var upserted := UpsertSet(st, slug, data);
    UpsertSetKeepsEpisodes(st, slug, data);
    if relations.Some? && |relations.value| > 0 {
      LinkRelatedKeepsEpisodes(v, upserted.0, relations.value, upserted.1.id, ownerCover, slugify);
      var linked := LinkRelated(v, upserted.0, relations.value, upserted.1.id, ownerCover, slugify);
      SetRelatedKeepsEpisodes(linked.0, upserted.1.id, linked.1);
      EpisodesKeptTransitive(st, upserted.0, linked.0);
      EpisodesKeptTransitive(st, linked.0, SetRelated(linked.0, upserted.1.id, linked.1));
    }
  }

  /** An upsert of fields without `episodes` keeps every document's episodes. */
  lemma UpsertSetKeepsEpisodes(st: StoreState, slug: string, data: Media)
    requires data.episodes.None?
    ensures EpisodesKept(st, UpsertSet(st, slug, data).0)
  {
    var base := if slug in st.docs then st.docs[slug].media else Inserted(slug);
    assert UpsertSet(st, slug, data).1.media == Overlay(base, data);
    OverlayKeepsEpisodes(base, data);
  }

  /** Setting `related` keeps every document's episodes. */
  lemma SetRelatedKeepsEpisodes(st: StoreState, id: ObjectId, ids: seq<ObjectId>)
    ensures EpisodesKept(st, SetRelated(st, id, ids))
  {
    var r := SetRelated(st, id, ids);
    forall s | s in st.docs
      ensures s in r.docs && r.docs[s].media.episodes == st.docs[s].media.episodes
    {
      if st.docs[s].id == id {
        assert r.docs[s] == Document(id, st.docs[s].media.(related := Some(ids)));
      }
    }
  }

  /** The entries of one page in order, stopping at the first error. */
  function ProcessEntries(v: Variant, st: StoreState, entries: seq<AiringSchedule>, slugify: string -> string,
                          fetchOk: string -> bool): (r: Progress)
    decreases |entries|
  {
    if entries == [] then Progress(st, None)
    else
      var prev := ProcessEntries(v, st, entries[..|entries| - 1], slugify, fetchOk);
      if prev.error.Some? then prev
      else ProcessEntry(v, prev.state, entries[|entries| - 1], slugify, fetchOk)
  }

  /** Once an entry has failed, the later entries of the page are not processed. */
  lemma {:induction false} ProcessEntriesStopAtError(v: Variant, st: StoreState, entries: seq<AiringSchedule>, i: nat,
                                                     slugify: string -> string, fetchOk: string -> bool)
    requires i <= |entries|
    requires ProcessEntries(v, st, entries[..i], slugify, fetchOk).error.Some?
    ensures ProcessEntries(v, st, entries, slugify, fetchOk) == ProcessEntries(v, st, entries[..i], slugify, fetchOk)
    decreases |entries|
  {
    if i < |entries| {
      var init := entries[..|entries| - 1];
      assert init[..i] == entries[..i];
      ProcessEntriesStopAtError(v, st, init, i, slugify, fetchOk);
    } else {
      assert entries[..i] == entries;
    }
  }

  lemma {:induction false} ProcessEntriesKeepEpisodes(v: Variant, st: StoreState, entries: seq<AiringSchedule>,
                                                      slugify: string -> string, fetchOk: string -> bool)
    ensures EpisodesKept(st, ProcessEntries(v, st, entries, slugify, fetchOk).state)
    decreases |entries|
  {
    if entries != [] {
      var init := entries[..|entries| - 1];
      ProcessEntriesKeepEpisodes(v, st, init, slugify, fetchOk);
      var prev := ProcessEntries(v, st, init, slugify, fetchOk);
      if prev.error.None? {
        ProcessEntryKeepsEpisodes(v, prev.state, entries[|entries| - 1], slugify, fetchOk);
        EpisodesKeptTransitive(st, prev.state, ProcessEntries(v, st, entries, slugify, fetchOk).state);
      }
    }
  }

  /** One page request as logged: its number, the window and how many times it was sent. */
  datatype PageRequest = PageRequest(page: nat, weekStart: int, weekEnd: int, attempts: nat)

  /** How a run ends: no airing on a page, the last page done, or an error reported. */
  datatype RunEnd = NoAiring | Completed | Aborted(reported: ThrownError)

  datatype Report = Report(requests: seq<PageRequest>, end: RunEnd)

  /** The error a run reports: the processor unwraps it, the cron copy reports it raw. */
  function Reported(v: Variant, e: ThrownError): (r: ThrownError)
    ensures v == Processor ==> r == UnwrapError(e) && IsRootCause(r)
    ensures v == Cron ==> r == e
  {
    if v == Processor then UnwrapError(e) else e
  }

  /** Link an entry's edges keeps the store well formed. */
  lemma {:induction false} LinkRelatedKeepsWf(v: Variant, st: StoreState, edges: seq<Option<RelationEdge>>,
                                              owner: ObjectId, ownerCover: CoverImage, slugify: string -> string)
    requires Wf(st)
    ensures Wf(LinkRelated(v, st, edges, owner, ownerCover, slugify).0)
    decreases |edges|
  {
    if edges != [] {
      var init := edges[..|edges| - 1];
      LinkRelatedKeepsWf(v, st, init, owner, ownerCover, slugify);
      var prev := LinkRelated(v, st, init, owner, ownerCover, slugify);
      match NamedEdge(edges[|edges| - 1], slugify)
      case None =>
      case Some(named) =>
        SetOnInsertKeepsWf(prev.0, named.1, Stub(v, named.0, named.1, owner, ownerCover));
    }
  }

  /** One entry keeps the store well formed: slugs stay unique. */
  lemma ProcessEntryKeepsWf(v: Variant, st: StoreState, air: AiringSchedule, slugify: string -> string,
                            fetchOk: string -> bool)
    requires Wf(st)
    ensures Wf(ProcessEntry(v, st, air, slugify, fetchOk).state)
  {
    match Project(air, slugify)
    case Failure(_) =>
    case Success(projected) =>
      WriteEntryKeepsWf(v, st, projected.slug.value, Written(v, projected, fetchOk),
                        air.media.relations, air.media.coverImage, slugify);
  }

  lemma WriteEntryKeepsWf(v: Variant, st: StoreState, slug: string, data: Media,
                          relations: Option<seq<Option<RelationEdge>>>, ownerCover: CoverImage,
                          slugify: string -> string)
    requires Wf(st) && data.slug == Some(slug)
    ensures Wf(WriteEntry(v, st, slug, data, relations, ownerCover, slugify))
  {
    var upserted := UpsertSet(st, slug, data);
    UpsertSetKeepsWf(st, slug, data);
    if relations.Some? && |relations.value| > 0 {
      LinkRelatedKeepsWf(v, upserted.0, relations.value, upserted.1.id, ownerCover, slugify);
      var linked := LinkRelated(v, upserted.0, relations.value, upserted.1.id, ownerCover, slugify);
      SetRelatedKeepsWf(linked.0, upserted.1.id, linked.1);
    }
  }

  lemma {:induction false} ProcessEntriesKeepWf(v: Variant, st: StoreState, entries: seq<AiringSchedule>,
                                                slugify: string -> string, fetchOk: string -> bool)
    requires Wf(st)
    ensures Wf(ProcessEntries(v, st, entries, slugify, fetchOk).state)
    decreases |entries|
  {
    if entries != [] {
      var init := entries[..|entries| - 1];
      ProcessEntriesKeepWf(v, st, init, slugify, fetchOk);
      var prev := ProcessEntries(v, st, init, slugify, fetchOk);
      if prev.error.None? {
        ProcessEntryKeepsWf(v, prev.state, entries[|entries| - 1], slugify, fetchOk);
      }
    }
  }

  /** What is done with the entries of one page. */
  type PageStep = (StoreState, seq<AiringSchedule>) -> Progress

  /** The entries of a page are processed in order, stopping at the first error. */
  function EntriesStep(v: Variant, slugify: string -> string, fetchOk: string -> bool): PageStep
  {
    (st: StoreState, entries: seq<AiringSchedule>) => ProcessEntries(v, st, entries, slugify, fetchOk)
  }

  /**
   * The page walk from page `page` on, `requested` being the requests
   * already sent and `step` what is done with a page's entries; the store
   * state and the report when the run ends.
   */
  function Walk(v: Variant, st: StoreState, pages: seq<PageReply>, page: nat, weekStart: int, weekEnd: int,
                step: PageStep, requested: seq<PageRequest>): (r: (StoreState, Report))
    requires page >= 1
    decreases |pages| + 1 - page
  {
    var fetched := FetchPage(ReplyAt(pages, page));
    var sent := requested + [PageRequest(page, weekStart, weekEnd, fetched.attempts)];
    if fetched.result.Failure? then (st, Report(sent, Aborted(Reported(v, fetched.result.error))))
    else
      var response := fetched.result.value;
      if response.schedules.None? || |response.schedules.value| == 0 then (st, Report(sent, NoAiring))
      else
        var done := step(st, response.schedules.value);
        if done.error.Some? then (done.state, Report(sent, Aborted(Reported(v, done.error.value))))
        else if !response.hasNextPage then (done.state, Report(sent, Completed))
        else Walk(v, done.state, pages, page + 1, weekStart, weekEnd, step, sent)
  }

  /** The answer carries airing entries. */
  predicate HasEntries(response: PageResponse) {
    response.schedules.Some? && |response.schedules.value| > 0
  }

  /** One page of the walk: how `Walk` ends, or goes on, on the answer to page `page`. */
  lemma WalkOnePage(v: Variant, st: StoreState, pages: seq<PageReply>, page: nat, weekStart: int, weekEnd: int,
                    step: PageStep, requested: seq<PageRequest>)
    requires page >= 1
    ensures var fetched := FetchPage(ReplyAt(pages, page));
      var sent := requested + [PageRequest(page, weekStart, weekEnd, fetched.attempts)];
      var w := Walk(v, st, pages, page, weekStart, weekEnd, step, requested);
      && (fetched.result.Failure? ==> w == (st, Report(sent, Aborted(Reported(v, fetched.result.error)))))
      && (fetched.result.Success? && !HasEntries(fetched.result.value) ==> w == (st, Report(sent, NoAiring)))
      && (fetched.result.Success? && HasEntries(fetched.result.value) ==>
            var response := fetched.result.value;
            var done := step(st, response.schedules.value);
            && (done.error.Some? ==> w == (done.state, Report(sent, Aborted(Reported(v, done.error.value)))))
            && (done.error.None? && !response.hasNextPage ==> w == (done.state, Report(sent, Completed)))
            && (done.error.None? && response.hasNextPage ==>
                  w == Walk(v, done.state, pages, page + 1, weekStart, weekEnd, step, sent)))
  {
  }

  /** A whole run of `fetchAirings` against the API answers `pages`. */
  function Harvest(v: Variant, st: StoreState, pages: seq<PageReply>, weekStart: int, lastDay: int,
                   slugify: string -> string, fetchOk: string -> bool): (r: (StoreState, Report))
  {
    Walk(v, st, pages, 1, weekStart, WindowEnd(v, lastDay), EntriesStep(v, slugify, fetchOk), [])
  }

  /** Page `p` was answered with airing entries and `hasNextPage`. */
  predicate Continued(pages: seq<PageReply>, p: nat) {
    var reply := ReplyAt(pages, p);
    && reply.failedAttempts <= MaxRetries
    && reply.response.schedules.Some? && |reply.response.schedules.value| > 0
    && reply.response.hasNextPage
  }

  /** Why the run stopped after requesting page `p`. */
  predicate StoppedAt(v: Variant, pages: seq<PageReply>, p: nat, end: RunEnd) {
    var reply := ReplyAt(pages, p);
    var ok := reply.failedAttempts <= MaxRetries;
    var entries := reply.response.schedules;
    match end
    case NoAiring => ok && (entries.None? || |entries.value| == 0)
    case Completed => ok && entries.Some? && |entries.value| > 0 && !reply.response.hasNextPage
    case Aborted(e) =>
      || (!ok && e == Reported(v, reply.error))
      || (ok && entries.Some? && |entries.value| > 0)
  }

  /** The report of a walk: the pages it requested and why it stopped. */
  ghost predicate WalkedPages(v: Variant, pages: seq<PageReply>, weekStart: int, weekEnd: int, from: nat, r: Report) {
    && |r.requests| > from
    && (forall k :: from <= k < |r.requests| ==>
          r.requests[k] == PageRequest(k + 1, weekStart, weekEnd, r.requests[k].attempts)
          && 1 <= r.requests[k].attempts <= MaxRetries + 1)
    && (forall k :: from <= k < |r.requests| - 1 ==> Continued(pages, r.requests[k].page))
    && StoppedAt(v, pages, |r.requests|, r.end)
    && (r.end.Aborted? ==> exists e :: r.end.reported == Reported(v, e))
  }

  lemma {:induction false} WalkRequestsPagesInOrder(v: Variant, st: StoreState, pages: seq<PageReply>, page: nat,
                                                    weekStart: int, weekEnd: int, step: PageStep,
                                                    requested: seq<PageRequest>)
    requires page >= 1 && |requested| == page - 1
    ensures var r := Walk(v, st, pages, page, weekStart, weekEnd, step, requested).1;
      WalkedPages(v, pages, weekStart, weekEnd, |requested|, r) && r.requests[..|requested|] == requested
    decreases |pages| + 1 - page
  {
    var fetched := FetchPage(ReplyAt(pages, page));
    var sent := requested + [PageRequest(page, weekStart, weekEnd, fetched.attempts)];
    var r := Walk(v, st, pages, page, weekStart, weekEnd, step, requested).1;
    if fetched.result.Success? {
      var response := fetched.result.value;
      if response.schedules.Some? && |response.schedules.value| > 0 {
        var done := step(st, response.schedules.value);
        if done.error.None? && response.hasNextPage {
          WalkRequestsPagesInOrder(v, done.state, pages, page + 1, weekStart, weekEnd, step, sent);
          assert r.requests[..|sent|] == sent;
          assert r.requests[..|requested|] == sent[..|requested|];
          assert r.requests[|requested|] == sent[|requested|];
        } else if done.error.Some? {
          assert r.end.reported == Reported(v, done.error.value);
        }
      }
    } else {
      assert r.end.reported == Reported(v, fetched.result.error);
    }
  }

  /**
   * The page walk: pages are requested one at a time, 1, 2, 3, ...,
   * each over the same window and sent at most 1 + 3 times; the next page
   * is requested only after a page that had entries, all processed, and
   * `hasNextPage`; and the run stops for the reason the last page gives.
   */
  lemma HarvestWalksPages(v: Variant, st: StoreState, pages: seq<PageReply>, weekStart: int, lastDay: int,
                          slugify: string -> string, fetchOk: string -> bool)
    ensures WalkedPages(v, pages, weekStart, WindowEnd(v, lastDay), 0,
                        Harvest(v, st, pages, weekStart, lastDay, slugify, fetchOk).1)
  {
    WalkRequestsPagesInOrder(v, st, pages, 1, weekStart, WindowEnd(v, lastDay), EntriesStep(v, slugify, fetchOk), []);
  }

  /** The processor reports root causes only. */
  lemma ProcessorReportsRootCause(st: StoreState, pages: seq<PageReply>, weekStart: int, lastDay: int,
                                  slugify: string -> string, fetchOk: string -> bool)
    ensures var r := Harvest(Processor, st, pages, weekStart, lastDay, slugify, fetchOk).1;
      r.end.Aborted? ==> IsRootCause(r.end.reported)
  {
    HarvestWalksPages(Processor, st, pages, weekStart, lastDay, slugify, fetchOk);
  }

  lemma {:induction false} WalkKeepsWf(v: Variant, st: StoreState, pages: seq<PageReply>, page: nat,
                                       weekStart: int, weekEnd: int, step: PageStep, requested: seq<PageRequest>)
    requires page >= 1 && Wf(st)
    requires forall s, entries :: Wf(s) ==> Wf(step(s, entries).state)
    ensures Wf(Walk(v, st, pages, page, weekStart, weekEnd, step, requested).0)
    decreases |pages| + 1 - page
  {
    var fetched := FetchPage(ReplyAt(pages, page));
    var sent := requested + [PageRequest(page, weekStart, weekEnd, fetched.attempts)];
    if fetched.result.Success? {
      var response := fetched.result.value;
      if response.schedules.Some? && |response.schedules.value| > 0 {
        var done := step(st, response.schedules.value);
        if done.error.None? && response.hasNextPage {
          WalkKeepsWf(v, done.state, pages, page + 1, weekStart, weekEnd, step, sent);
        }
      }
    }
  }

  lemma {:induction false} WalkKeepsEpisodes(v: Variant, st: StoreState, pages: seq<PageReply>, page: nat,
                                             weekStart: int, weekEnd: int, step: PageStep, requested: seq<PageRequest>)
    requires page >= 1
    requires forall s, entries :: EpisodesKept(s, step(s, entries).state)
    ensures EpisodesKept(st, Walk(v, st, pages, page, weekStart, weekEnd, step, requested).0)
    decreases |pages| + 1 - page
  {
    var fetched := FetchPage(ReplyAt(pages, page));
    var sent := requested + [PageRequest(page, weekStart, weekEnd, fetched.attempts)];
    if fetched.result.Success? {
      var response := fetched.result.value;
      if response.schedules.Some? && |response.schedules.value| > 0 {
        var done := step(st, response.schedules.value);
        if done.error.None? && response.hasNextPage {
          WalkKeepsEpisodes(v, done.state, pages, page + 1, weekStart, weekEnd, step, sent);
          EpisodesKeptTransitive(st, done.state, Walk(v, st, pages, page, weekStart, weekEnd, step, requested).0);
        }
      }
    }
  }

  /** A harvest keeps slugs unique. */
  lemma HarvestKeepsWf(v: Variant, st: StoreState, pages: seq<PageReply>, weekStart: int, lastDay: int,
                       slugify: string -> string, fetchOk: string -> bool)
    requires Wf(st)
    ensures Wf(Harvest(v, st, pages, weekStart, lastDay, slugify, fetchOk).0)
  {
    var step := EntriesStep(v, slugify, fetchOk);
    forall s, entries | Wf(s)
      ensures Wf(step(s, entries).state)
    {
      ProcessEntriesKeepWf(v, s, entries, slugify, fetchOk);
    }
    WalkKeepsWf(v, st, pages, 1, weekStart, WindowEnd(v, lastDay), step, []);
  }

  /**
   * A harvest never deletes a document and never touches episodes: every
   * document keeps its `episodes`, and a document it creates has none.
   */
  lemma HarvestKeepsEpisodes(v: Variant, st: StoreState, pages: seq<PageReply>, weekStart: int, lastDay: int,
                             slugify: string -> string, fetchOk: string -> bool)
    ensures EpisodesKept(st, Harvest(v, st, pages, weekStart, lastDay, slugify, fetchOk).0)
  {
    var step := EntriesStep(v, slugify, fetchOk);
    forall s, entries
      ensures EpisodesKept(s, step(s, entries).state)
    {
      ProcessEntriesKeepEpisodes(v, s, entries, slugify, fetchOk);
    }
    WalkKeepsEpisodes(v, st, pages, 1, weekStart, WindowEnd(v, lastDay), step, []);
  }

  /**
   * One entry of a page against the live collection: project it, upsert
   * it by slug, then link its relation edges one by one.
   */
  method ProcessAiring(store: MediaStore, v: Variant, air: AiringSchedule, slugify: string -> string,
                       fetchOk: string -> bool) returns (error: Option<ThrownError>)
    requires store.Valid()
    modifies store
    ensures store.Valid()
    ensures Progress(store.State(), error) == ProcessEntry(v, old(store.State()), air, slugify, fetchOk)
  {
    var projected := Project(air, slugify);
    if projected.Failure? {
      return Some(projected.error);
    }
    var mediaData := projected.value;
    if v == Processor {
      mediaData := UpdateImage(mediaData, fetchOk);
    }
    assert mediaData == Written(v, projected.value, fetchOk);
    var media := store.FindOneAndUpdate(projected.value.slug.value, mediaData);
    var edges := air.media.relations;
    if edges.Some? && |edges.value| > 0 {
      var relatedIds := LinkEdges(store, v, edges.value, media.id, air.media.coverImage, slugify, fetchOk);
      store.UpdateRelated(media.id, relatedIds);
    }
    return None;
  }

  /** The loop over one entry's relation edges: one stub per named edge, kept if it exists. */
  method LinkEdges(store: MediaStore, v: Variant, edges: seq<Option<RelationEdge>>, owner: ObjectId,
                   ownerCover: CoverImage, slugify: string -> string, fetchOk: string -> bool)
    returns (relatedIds: seq<ObjectId>)
    requires store.Valid()
    modifies store
    ensures store.Valid()
    ensures (store.State(), relatedIds) == LinkRelated(v, old(store.State()), edges, owner, ownerCover, slugify)
  {
    relatedIds := [];
    for i := 0 to |edges|
      invariant store.Valid()
      invariant (store.State(), relatedIds) == LinkRelated(v, old(store.State()), edges[..i], owner, ownerCover, slugify)
    {
      assert edges[..i + 1][..i] == edges[..i];
      var named := NamedEdge(edges[i], slugify);
      if named.Some? {
        var relatedData := Stub(v, named.value.0, named.value.1, owner, ownerCover);
        if v == Processor {
          NoImagesNoChange(relatedData, fetchOk);
          relatedData := UpdateImage(relatedData, fetchOk);
        }
        var related := store.FindOneAndSetOnInsert(named.value.1, relatedData);
        relatedIds := relatedIds + [related.id];
      }
    }
    assert edges[..|edges|] == edges;
  }

  /** The loop over one page's entries, which stops at the first error. */
  method ProcessPage(store: MediaStore, v: Variant, schedules: seq<AiringSchedule>, slugify: string -> string,
                     fetchOk: string -> bool) returns (error: Option<ThrownError>)
    requires store.Valid()
    modifies store
    ensures store.Valid()
    ensures Progress(store.State(), error) == ProcessEntries(v, old(store.State()), schedules, slugify, fetchOk)
    ensures Progress(store.State(), error) == EntriesStep(v, slugify, fetchOk)(old(store.State()), schedules)
  {
    for i := 0 to |schedules|
      invariant store.Valid()
      invariant ProcessEntries(v, old(store.State()), schedules[..i], slugify, fetchOk) == Progress(store.State(), None)
    {
      assert schedules[..i + 1][..i] == schedules[..i];
      error := ProcessAiring(store, v, schedules[i], slugify, fetchOk);
      if error.Some? {
        ProcessEntriesStopAtError(v, old(store.State()), schedules, i + 1, slugify, fetchOk);
        return;
      }
    }
    assert schedules[..|schedules|] == schedules;
    error := None;
  }

  /**
   * One turn of the page loop: request page `page`, process its entries,
   * and say how the run ends here, if it does.
   */
  method HarvestPage(store: MediaStore, v: Variant, pages: seq<PageReply>, page: nat, weekStart: int, weekEnd: int,
                     slugify: string -> string, fetchOk: string -> bool, requested: seq<PageRequest>)
    returns (sent: seq<PageRequest>, end: Option<RunEnd>)
    requires store.Valid() && page >= 1
    modifies store
    ensures store.Valid()
    ensures end.Some? ==>
      Walk(v, old(store.State()), pages, page, weekStart, weekEnd, EntriesStep(v, slugify, fetchOk), requested)
        == (store.State(), Report(sent, end.value))
    ensures end.None? ==> page <= |pages|
    ensures end.None? ==>
      Walk(v, old(store.State()), pages, page, weekStart, weekEnd, EntriesStep(v, slugify, fetchOk), requested)
        == Walk(v, store.State(), pages, page + 1, weekStart, weekEnd, EntriesStep(v, slugify, fetchOk), sent)
  {
    WalkOnePage(v, store.State(), pages, page, weekStart, weekEnd, EntriesStep(v, slugify, fetchOk), requested);
    var airing := FetchPage(ReplyAt(pages, page));
    sent := requested + [PageRequest(page, weekStart, weekEnd, airing.attempts)];
    if airing.result.Failure? {
      return sent, Some(Aborted(Reported(v, airing.result.error)));
    }
    var response := airing.result.value;
    if !HasEntries(response) {
      return sent, Some(NoAiring);
    }
    var error := ProcessPage(store, v, response.schedules.value, slugify, fetchOk);
    if error.Some? {
      return sent, Some(Aborted(Reported(v, error.value)));
    }
    if !response.hasNextPage {
      return sent, Some(Completed);
    }
    end := None;
  }

  /**
   * `fetchAirings`: walk the pages from 1, process every entry of a page
   * in order, and stop on an empty page, on a page without a next one or
   * at the first error, which is reported and not rethrown.
   */
  method FetchAirings(store: MediaStore, v: Variant, pages: seq<PageReply>, weekStart: int, lastDay: int,
                      slugify: string -> string, fetchOk: string -> bool) returns (report: Report)
    requires store.Valid()
    modifies store
    ensures store.Valid()
    ensures (store.State(), report) == Harvest(v, old(store.State()), pages, weekStart, lastDay, slugify, fetchOk)
  {
    var weekEnd := WindowEnd(v, lastDay);
    ghost var target := Harvest(v, store.State(), pages, weekStart, lastDay, slugify, fetchOk);
    var page: nat := 1;
    var requested: seq<PageRequest> := [];
    while true
      invariant store.Valid() && page >= 1
      invariant Walk(v, store.State(), pages, page, weekStart, weekEnd, EntriesStep(v, slugify, fetchOk), requested) == target
      decreases |pages| + 1 - page
    {
      var end;
      requested, end := HarvestPage(store, v, pages, page, weekStart, weekEnd, slugify, fetchOk, requested);
      if end.Some? {
        return Report(requested, end.value);
      }
      page := page + 1;
    }
  }
}
