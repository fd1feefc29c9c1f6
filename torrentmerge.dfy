/**
 * The torrent-search job (src/processors/nyaa-torrent.processor.ts,
 * `downloadNyaaTorrent`): load a media by id, search the tracker for its
 * romaji title, keep the results of the requested episode, classify them
 * and merge them into the media's episode list before saving it.
 *
 * The lookup of an existing episode is modelled twice: `AsWritten`, where
 * the arrow parameter shadows the requested episode so that the comparison
 * is made with `NaN` and never holds, and `ByNumber`, the lookup the
 * surrounding code evidently intends.
 */
module TorrentMerge {
  import opened Wrappers
  import opened Schema
  import opened Errors
  import opened Store
  import opened Classifier

  // ---------------------------------------------------------------------
  // Building download entries

  /** One enriched search result as a download entry, tagged with its provider. */
  function ToEpisodeItem(t: EnrichedTorrentItem): (r: EpisodeItem)
    ensures r.subtitles.None? && r.url.None?
    ensures r.quality == t.quality && r.codecs == t.codecs
    ensures r.torrent.item == t.item && r.torrent.Id() == t.Id()
    ensures r.torrent.quality == t.quality && r.torrent.codecs == t.codecs
    ensures r.torrent.provide == Some(NyaaSi)
  {
    NewEpisodeItem(t.quality, t.codecs, CopyEnriched(t).(provide := Some(NyaaSi)))
  }

  /** A new episode numbered `n` holding one download per result, in order. */
  function NewEpisode(n: int, items: seq<EnrichedTorrentItem>): (r: Episode)
    ensures r.episode == n && r.downloads.Some? && |r.downloads.value| == |items|
    ensures forall k :: 0 <= k < |items| ==> r.downloads.value[k].torrent.Id() == items[k].Id()
    ensures forall k :: 0 <= k < |items| ==> r.downloads.value[k].torrent.provide == Some(NyaaSi)
  {
    Episode(n, Some(seq(|items|, k requires 0 <= k < |items| => ToEpisodeItem(items[k]))))
  }

  /** Some download of `ds` is the torrent with this id. */
  predicate HasTorrent(ds: seq<EpisodeItem>, id: string) {
    exists j :: 0 <= j < |ds| && ds[j].torrent.Id() == id
  }

  /** No two downloads of `ds` are the same torrent. */
  predicate UniqueTorrentIds(ds: seq<EpisodeItem>) {
    forall i, j :: 0 <= i < j < |ds| ==> ds[i].torrent.Id() != ds[j].torrent.Id()
  }

  /** No two items of a search result are the same torrent. */
  predicate DistinctResults(items: seq<EnrichedTorrentItem>) {
    forall i, j :: 0 <= i < j < |items| ==> items[i].Id() != items[j].Id()
  }

  /**
   * The `forEach` over the results on a matched episode: a result whose
   * torrent id is already among the downloads (including downloads pushed
   * by earlier results of the same batch) is skipped, any other is pushed.
   */
  function AddDownloads(ds: seq<EpisodeItem>, items: seq<EnrichedTorrentItem>): (r: seq<EpisodeItem>)
    decreases |items|
    ensures ds <= r
    ensures forall k :: 0 <= k < |items| ==> HasTorrent(r, items[k].Id())
  {
    if items == [] then ds
    else
      var prev := AddDownloads(ds, items[..|items| - 1]);
      var last := items[|items| - 1];
      assert forall k :: 0 <= k < |items| - 1 ==> items[..|items| - 1][k] == items[k];
      if HasTorrent(prev, last.Id()) then prev
      else
        var r := prev + [ToEpisodeItem(last)];
        assert r[|r| - 1].torrent.Id() == last.Id();
        assert forall k :: 0 <= k < |items| - 1 ==> HasTorrent(r, items[k].Id()) by {
          forall k | 0 <= k < |items| - 1 ensures HasTorrent(r, items[k].Id()) {
            var j :| 0 <= j < |prev| && prev[j].torrent.Id() == items[k].Id();
            assert r[j] == prev[j];
          }
        }
        r
  }

  /** Every download of `r` past `ds` is one of the results, tagged with its provider. */
  ghost predicate PushedFrom(ds: seq<EpisodeItem>, r: seq<EpisodeItem>, items: seq<EnrichedTorrentItem>) {
    forall j :: |ds| <= j < |r| ==> exists k :: 0 <= k < |items| && r[j] == ToEpisodeItem(items[k])
  }

  /** Merging pushes nothing but the results. */
  lemma {:induction false} AddDownloadsFromResults(ds: seq<EpisodeItem>, items: seq<EnrichedTorrentItem>)
    ensures PushedFrom(ds, AddDownloads(ds, items), items)
    decreases |items|
  {
    if items != [] {
      var init := items[..|items| - 1];
      AddDownloadsFromResults(ds, init);
      var prev := AddDownloads(ds, init);
      var r := AddDownloads(ds, items);
      forall j | |ds| <= j < |r| ensures exists k :: 0 <= k < |items| && r[j] == ToEpisodeItem(items[k]) {
        if j < |prev| {
          var k :| 0 <= k < |init| && prev[j] == ToEpisodeItem(init[k]);
          assert r[j] == prev[j] && init[k] == items[k];
        } else {
          assert r[j] == ToEpisodeItem(items[|items| - 1]);
        }
      }
    }
  }

  /**
   * The merge of a prefix of the results is a prefix of the whole merge:
   * downloads are pushed in the order of the results.
   */
  lemma {:induction false} AddDownloadsPrefixes(ds: seq<EpisodeItem>, items: seq<EnrichedTorrentItem>, n: nat)
    requires n <= |items|
    ensures AddDownloads(ds, items[..n]) <= AddDownloads(ds, items)
    decreases |items|
  {
    if n == |items| {
      assert items[..n] == items;
    } else {
      var init := items[..|items| - 1];
      assert items[..n] == init[..n];
      AddDownloadsPrefixes(ds, init, n);
    }
  }

  /**
   * Result `k` whose torrent is not yet among the downloads (those given
   * and those pushed for earlier results) is pushed right after them;
   * so of two results with the same torrent the first is kept.
   */
  lemma AddDownloadsPushesNew(ds: seq<EpisodeItem>, items: seq<EnrichedTorrentItem>, k: nat)
    requires k < |items| && !HasTorrent(AddDownloads(ds, items[..k]), items[k].Id())
    ensures AddDownloads(ds, items[..k]) + [ToEpisodeItem(items[k])] <= AddDownloads(ds, items)
  {
    assert items[..k + 1][..k] == items[..k];
    assert items[..k + 1][k] == items[k];
    AddDownloadsPrefixes(ds, items, k + 1);
  }

  /** Result `k` whose torrent is already among the downloads adds nothing. */
  lemma AddDownloadsSkipsPresent(ds: seq<EpisodeItem>, items: seq<EnrichedTorrentItem>, k: nat)
    requires k < |items| && HasTorrent(AddDownloads(ds, items[..k]), items[k].Id())
    ensures AddDownloads(ds, items[..k + 1]) == AddDownloads(ds, items[..k])
  {
    assert items[..k + 1][..k] == items[..k];
    assert items[..k + 1][k] == items[k];
  }

  /** A matched episode after the merge: without a download list nothing is pushed (`downloads?.push`). */
  function MergedEpisode(e: Episode, items: seq<EnrichedTorrentItem>): (r: Episode)
    ensures r.episode == e.episode && r.downloads.None? == e.downloads.None?
  {
    if e.downloads.None? then e else e.(downloads := Some(AddDownloads(e.downloads.value, items)))
  }

  /** Merging keeps the downloads free of repeated torrents. */
  lemma {:induction false} AddDownloadsKeepsIdsUnique(ds: seq<EpisodeItem>, items: seq<EnrichedTorrentItem>)
    requires UniqueTorrentIds(ds)
    ensures UniqueTorrentIds(AddDownloads(ds, items))
    decreases |items|
  {
    if items != [] {
      var prev := AddDownloads(ds, items[..|items| - 1]);
      AddDownloadsKeepsIdsUnique(ds, items[..|items| - 1]);
      var last := items[|items| - 1];
      if !HasTorrent(prev, last.Id()) {
        var r := prev + [ToEpisodeItem(last)];
        assert AddDownloads(ds, items) == r;
        forall i, j | 0 <= i < j < |r| ensures r[i].torrent.Id() != r[j].torrent.Id() {
          if j == |r| - 1 {
            assert r[i] == prev[i];
          } else {
            assert r[i] == prev[i] && r[j] == prev[j];
          }
        }
      }
    }
  }

  /** Results whose torrents are all present already change nothing. */
  lemma {:induction false} AddDownloadsPresent(ds: seq<EpisodeItem>, items: seq<EnrichedTorrentItem>)
    requires forall k :: 0 <= k < |items| ==> HasTorrent(ds, items[k].Id())
    ensures AddDownloads(ds, items) == ds
    decreases |items|
  {
    if items != [] {
      assert forall k :: 0 <= k < |items| - 1 ==> items[..|items| - 1][k] == items[k];
      AddDownloadsPresent(ds, items[..|items| - 1]);
      assert HasTorrent(ds, items[|items| - 1].Id());
    }
  }

  /** Merging the same results twice is merging them once. */
  lemma AddDownloadsIdempotent(ds: seq<EpisodeItem>, items: seq<EnrichedTorrentItem>)
    ensures AddDownloads(AddDownloads(ds, items), items) == AddDownloads(ds, items)
  {
    AddDownloadsPresent(AddDownloads(ds, items), items);
  }

  // ---------------------------------------------------------------------
  // Finding the episode to merge into

  /** A JavaScript number, as far as the lookup needs one. */
  datatype JsNumber = Num(value: int) | NaN

  /** `===` on numbers: `NaN` equals nothing, itself included. */
  predicate StrictEquals(a: JsNumber, b: JsNumber) {
    a.Num? && b.Num? && a.value == b.value
  }

  /**
   * `+episode` where `episode` is the arrow parameter, an episode object:
   * an object converts to `NaN`.
   */
  function UnaryPlusOfEpisode(e: Episode): (r: JsNumber)
    ensures !r.Num?
  {
    NaN
  }

  /** How an existing episode is looked up. */
  datatype Lookup =
    | AsWritten  // the comparison as the source writes it
    | ByNumber   // the comparison with the requested episode number

  function EpisodeMatcher(lookup: Lookup, n: int): Episode -> bool {
    match lookup
    case AsWritten => (e: Episode) => StrictEquals(Num(e.episode), UnaryPlusOfEpisode(e))
    case ByNumber => (e: Episode) => e.episode == n
  }

  /** `Array.prototype.find` from position `i`: the first matching index. */
  function FindFrom(eps: seq<Episode>, matches: Episode -> bool, i: nat): (r: Option<nat>)
    requires i <= |eps|
    decreases |eps| - i
    ensures r.Some? ==> i <= r.value < |eps| && matches(eps[r.value])
    ensures r.Some? ==> forall k :: i <= k < r.value ==> !matches(eps[k])
    ensures r.None? ==> forall k :: i <= k < |eps| ==> !matches(eps[k])
  {
    if i == |eps| then None
    else if matches(eps[i]) then Some(i)
    else FindFrom(eps, matches, i + 1)
  }

  function FindEpisode(eps: seq<Episode>, n: int, lookup: Lookup): (r: Option<nat>)
    ensures r.Some? ==> r.value < |eps|
  {
    FindFrom(eps, EpisodeMatcher(lookup, n), 0)
  }

  /** As written, the lookup finds nothing, whatever the episodes and the request. */
  lemma AsWrittenLookupNeverMatches(eps: seq<Episode>, n: int)
    ensures FindEpisode(eps, n, AsWritten).None?
  {
    assert forall e :: !EpisodeMatcher(AsWritten, n)(e);
  }

  /** Looked up by number, the first episode with that number is found, if any. */
  lemma ByNumberFindsFirst(eps: seq<Episode>, n: int)
    ensures FindEpisode(eps, n, ByNumber).Some? <==> exists k :: 0 <= k < |eps| && eps[k].episode == n
    ensures FindEpisode(eps, n, ByNumber).Some? ==> eps[FindEpisode(eps, n, ByNumber).value].episode == n
    ensures FindEpisode(eps, n, ByNumber).Some? ==>
      forall k :: 0 <= k < FindEpisode(eps, n, ByNumber).value ==> eps[k].episode != n
  {
    var m := EpisodeMatcher(ByNumber, n);
    assert forall e :: m(e) == (e.episode == n);
  }

  // ---------------------------------------------------------------------
  // Merging into the episode list

  /**
   * The episode list after the merge: a media without one gets a single new
   * episode; otherwise the found episode takes the results, or a new
   * episode is appended when none is found.
   */
  function MergeEpisodes(episodes: Option<seq<Episode>>, n: int, items: seq<EnrichedTorrentItem>, lookup: Lookup): (r: seq<Episode>)
    ensures episodes.None? ==> r == [NewEpisode(n, items)]
    ensures episodes.Some? ==> |episodes.value| <= |r| <= |episodes.value| + 1
    ensures episodes.Some? ==> forall k :: 0 <= k < |episodes.value| ==> r[k].episode == episodes.value[k].episode
    ensures exists k :: 0 <= k < |r| && r[k].episode == n
  {
    if episodes.None? then
      var r := [NewEpisode(n, items)];
      assert r[0].episode == n;
      r
    else
      var eps := episodes.value;
      match FindEpisode(eps, n, lookup)
      case Some(i) =>
        assert lookup.ByNumber? by {
          if lookup.AsWritten? { AsWrittenLookupNeverMatches(eps, n); }
        }
        assert EpisodeMatcher(ByNumber, n)(eps[i]);
        var r := eps[i := MergedEpisode(eps[i], items)];
        assert r[i].episode == n;
        r
      case None =>
        var r := eps + [NewEpisode(n, items)];
        assert r[|eps|].episode == n;
        r
  }

  /** As written, an existing list always grows by one new episode and keeps every old entry. */
  lemma AsWrittenMergeAppends(eps: seq<Episode>, n: int, items: seq<EnrichedTorrentItem>)
    ensures MergeEpisodes(Some(eps), n, items, AsWritten) == eps + [NewEpisode(n, items)]
  {
    AsWrittenLookupNeverMatches(eps, n);
  }

  /** At most one episode carries each number. */
  predicate UniqueEpisodeNumbers(eps: seq<Episode>) {
    forall i, j :: 0 <= i < j < |eps| ==> eps[i].episode != eps[j].episode
  }

  /** Every episode's downloads are free of repeated torrents. */
  predicate UniqueDownloads(eps: seq<Episode>) {
    forall i :: 0 <= i < |eps| && eps[i].downloads.Some? ==> UniqueTorrentIds(eps[i].downloads.value)
  }

  /** As written, asking again for an episode the media already has gives it a second entry. */
  lemma AsWrittenMergeDuplicatesEpisode(eps: seq<Episode>, n: int, items: seq<EnrichedTorrentItem>)
    requires exists k :: 0 <= k < |eps| && eps[k].episode == n
    ensures !UniqueEpisodeNumbers(MergeEpisodes(Some(eps), n, items, AsWritten))
  {
    AsWrittenMergeAppends(eps, n, items);
    var r := eps + [NewEpisode(n, items)];
    var k :| 0 <= k < |eps| && eps[k].episode == n;
    assert r[k].episode == r[|eps|].episode;
  }

  /** Looked up by number, the merge keeps the episode numbers unique. */
  lemma ByNumberMergeKeepsNumbersUnique(episodes: Option<seq<Episode>>, n: int, items: seq<EnrichedTorrentItem>)
    requires episodes.Some? ==> UniqueEpisodeNumbers(episodes.value)
    ensures UniqueEpisodeNumbers(MergeEpisodes(episodes, n, items, ByNumber))
  {
    if episodes.Some? {
      var eps := episodes.value;
      ByNumberFindsFirst(eps, n);
      var r := MergeEpisodes(episodes, n, items, ByNumber);
      if FindEpisode(eps, n, ByNumber).None? {
        assert r == eps + [NewEpisode(n, items)];
        forall i, j | 0 <= i < j < |r| ensures r[i].episode != r[j].episode {
          if j < |eps| {
            assert r[i] == eps[i] && r[j] == eps[j];
          } else {
            assert r[i] == eps[i];
          }
        }
      }
    }
  }

  /** Looked up by number, the merge never repeats a torrent within an episode's downloads. */
  lemma ByNumberMergeKeepsDownloadsUnique(episodes: Option<seq<Episode>>, n: int, items: seq<EnrichedTorrentItem>)
    requires episodes.Some? ==> UniqueDownloads(episodes.value)
    requires DistinctResults(items)
    ensures UniqueDownloads(MergeEpisodes(episodes, n, items, ByNumber))
  {
    var added := NewEpisode(n, items);
    assert UniqueTorrentIds(added.downloads.value);
    var r := MergeEpisodes(episodes, n, items, ByNumber);
    if episodes.Some? {
      var eps := episodes.value;
      match FindEpisode(eps, n, ByNumber)
      case Some(i) =>
        assert r == eps[i := MergedEpisode(eps[i], items)];
        if eps[i].downloads.Some? {
          AddDownloadsKeepsIdsUnique(eps[i].downloads.value, items);
        }
        forall j | 0 <= j < |r| && r[j].downloads.Some? ensures UniqueTorrentIds(r[j].downloads.value) {
          if j != i { assert r[j] == eps[j]; }
        }
      case None =>
        assert r == eps + [added];
        forall j | 0 <= j < |r| && r[j].downloads.Some? ensures UniqueTorrentIds(r[j].downloads.value) {
          if j < |eps| { assert r[j] == eps[j]; }
        }
    } else {
      assert r == [added];
    }
  }

  /** Looked up by number, merging the same results twice is merging them once. */
  lemma ByNumberMergeIdempotent(episodes: Option<seq<Episode>>, n: int, items: seq<EnrichedTorrentItem>)
    requires episodes.Some? ==> UniqueEpisodeNumbers(episodes.value)
    ensures var once := MergeEpisodes(episodes, n, items, ByNumber);
      MergeEpisodes(Some(once), n, items, ByNumber) == once
  {
    var once := MergeEpisodes(episodes, n, items, ByNumber);
    ByNumberMergeKeepsNumbersUnique(episodes, n, items);
    ByNumberFindsFirst(once, n);
    var i := FindEpisode(once, n, ByNumber).value;
    var e := once[i];
    if e.downloads.Some? {
      if episodes.None? {
        assert e == NewEpisode(n, items);
        forall k | 0 <= k < |items| ensures HasTorrent(e.downloads.value, items[k].Id()) {
          assert e.downloads.value[k].torrent.Id() == items[k].Id();
        }
        AddDownloadsPresent(e.downloads.value, items);
      } else {
        var eps := episodes.value;
        ByNumberFindsFirst(eps, n);
        match FindEpisode(eps, n, ByNumber)
        case Some(i0) =>
          assert once == eps[i0 := MergedEpisode(eps[i0], items)];
          assert i == i0;
          AddDownloadsIdempotent(eps[i0].downloads.value, items);
        case None =>
          assert once == eps + [NewEpisode(n, items)];
          assert i == |eps|;
          forall k | 0 <= k < |items| ensures HasTorrent(e.downloads.value, items[k].Id()) {
            assert e.downloads.value[k].torrent.Id() == items[k].Id();
          }
          AddDownloadsPresent(e.downloads.value, items);
      }
    }
    assert MergeEpisodes(Some(once), n, items, ByNumber) == once[i := MergedEpisode(e, items)];
  }

  // ---------------------------------------------------------------------
  // The job

  /** How a run of the job ends. */
  datatype DownloadOutcome =
    | MediaNotFound            // no document with that id: logged, nothing saved
    | NoTorrents               // nothing matched: the job is put back for a retry
    | Saved                    // the merged document was saved
    | Failed(error: ThrownError)  // a thrown error, caught and reported

  /** Reading `media.title.romaji` when the document has no title. */
  function TitleTypeError(): (e: ThrownError)
    ensures e.name == "TypeError" && IsRootCause(e)
  {
    PlainError("TypeError", "Cannot read properties of undefined (reading 'romaji')")
  }

  /**
   * One run of the job on the store `st`, for the media `id` and the
   * requested `episode`; `search` is the tracker's answer to the search for
   * the media's romaji title (its results, or the error it threw).
   */
  function Download(st: StoreState, id: ObjectId, episode: string,
                    search: Result<seq<Torrent>, ThrownError>, lookup: Lookup): (r: (StoreState, DownloadOutcome))
    requires Wf(st)
    ensures !r.1.Saved? ==> r.0 == st
    ensures r.1 == MediaNotFound <==> DocWithId(st, id).None?
    ensures r.1 == NoTorrents <==>
      && DocWithId(st, id).Some? && DocWithId(st, id).value.media.title.Some?
      && search.Success? && FilterEpisode(search.value, episode) == []
    ensures r.1.Failed? && DocWithId(st, id).Some? && DocWithId(st, id).value.media.title.Some? ==>
      search.Failure? && r.1.error == search.error
    ensures r.1.Failed? <==>
      DocWithId(st, id).Some? && (DocWithId(st, id).value.media.title.None? || search.Failure?)
    ensures DocWithId(st, id).Some? && DocWithId(st, id).value.media.title.None? ==> r.1 == Failed(TitleTypeError())
    ensures DocWithId(st, id).Some? && DocWithId(st, id).value.media.title.Some? && search.Failure? ==>
      r.1 == Failed(search.error)
    ensures r.1.Saved? <==>
      && DocWithId(st, id).Some? && DocWithId(st, id).value.media.title.Some?
      && search.Success? && FilterEpisode(search.value, episode) != []
    ensures Wf(r.0)
  {
    match DocWithId(st, id)
    case None => (st, MediaNotFound)
    case Some(d) =>
      if d.media.title.None? then (st, Failed(TitleTypeError()))
      else if search.Failure? then (st, Failed(search.error))
      else
        var items := ExtractMediaInfo(FilterEpisode(search.value, episode));
        if items == [] then (st, NoTorrents)
        else
          FilterEpisodeNeedsDigits(search.value, episode);
          (WriteEpisodes(st, d, MergeEpisodes(d.media.episodes, DecimalValue(episode), items, lookup)), Saved)
  }

  /** `media.save()` after the job replaced the episode list of the loaded document `d`. */
  function WriteEpisodes(st: StoreState, d: Document, eps: seq<Episode>): (r: StoreState)
    requires Wf(st) && DocWithId(st, d.id) == Some(d)
    ensures Wf(r)
  {
    Save(st, Document(d.id, d.media.(episodes := Some(eps))))
  }

  /** Saving the episode list changes that list in that document and nothing else. */
  lemma WriteEpisodesTouchesOnlyEpisodes(st: StoreState, d: Document, eps: seq<Episode>)
    requires Wf(st) && DocWithId(st, d.id) == Some(d)
    ensures var after := WriteEpisodes(st, d, eps);
      && after.docs.Keys == st.docs.Keys && after.nextId == st.nextId
      && after.docs[d.media.slug.value].media.episodes == Some(eps)
      && (forall s :: s in st.docs ==> after.docs[s].id == st.docs[s].id)
      && (forall s :: s in st.docs ==>
            after.docs[s].media.(episodes := st.docs[s].media.episodes) == st.docs[s].media)
      && (forall s :: s in st.docs && st.docs[s].id != d.id ==> after.docs[s] == st.docs[s])
  {
    assert forall s :: s in st.docs && s != d.media.slug.value ==> st.docs[s].id != d.id;
  }

  /** A run changes nothing but the episode list of the one media it loaded. */
  lemma DownloadChangesOnlyEpisodes(st: StoreState, id: ObjectId, episode: string,
                                    search: Result<seq<Torrent>, ThrownError>, lookup: Lookup)
    requires Wf(st)
    ensures var after := Download(st, id, episode, search, lookup).0;
      && after.docs.Keys == st.docs.Keys && after.nextId == st.nextId
      && (forall s :: s in st.docs ==> after.docs[s].id == st.docs[s].id)
      && (forall s :: s in st.docs ==>
            after.docs[s].media.(episodes := st.docs[s].media.episodes) == st.docs[s].media)
      && (forall s :: s in st.docs && st.docs[s].id != id ==> after.docs[s] == st.docs[s])
  {
    if Download(st, id, episode, search, lookup).1.Saved? {
      var d := DocWithId(st, id).value;
      FilterEpisodeNeedsDigits(search.value, episode);
      var items := ExtractMediaInfo(FilterEpisode(search.value, episode));
      WriteEpisodesTouchesOnlyEpisodes(st, d, MergeEpisodes(d.media.episodes, DecimalValue(episode), items, lookup));
    }
  }

  /** A saved run leaves the requested episode among the media's episodes. */
  lemma SavedRunHasRequestedEpisode(st: StoreState, id: ObjectId, episode: string,
                                    search: Result<seq<Torrent>, ThrownError>, lookup: Lookup)
    requires Wf(st)
    requires Download(st, id, episode, search, lookup).1.Saved?
    ensures AllDigits(episode) && DocWithId(st, id).Some?
    ensures var d := DocWithId(st, id).value;
      var after := Download(st, id, episode, search, lookup).0.docs[d.media.slug.value].media.episodes;
      after.Some? && exists k :: 0 <= k < |after.value| && after.value[k].episode == DecimalValue(episode)
  {
    var d := DocWithId(st, id).value;
    FilterEpisodeNeedsDigits(search.value, episode);
  }

  /** Looked up by number, a saved run keeps the media's episode numbers unique. */
  lemma ByNumberRunKeepsNumbersUnique(st: StoreState, id: ObjectId, episode: string,
                                      search: Result<seq<Torrent>, ThrownError>)
    requires Wf(st)
    requires forall s :: s in st.docs && st.docs[s].media.episodes.Some? ==>
      UniqueEpisodeNumbers(st.docs[s].media.episodes.value)
    ensures var after := Download(st, id, episode, search, ByNumber).0;
      forall s :: s in after.docs && after.docs[s].media.episodes.Some? ==>
        UniqueEpisodeNumbers(after.docs[s].media.episodes.value)
  {
    var r := Download(st, id, episode, search, ByNumber);
    if r.1.Saved? {
      var d := DocWithId(st, id).value;
      FilterEpisodeNeedsDigits(search.value, episode);
      var items := ExtractMediaInfo(FilterEpisode(search.value, episode));
      ByNumberMergeKeepsNumbersUnique(d.media.episodes, DecimalValue(episode), items);
    }
  }

  // ---------------------------------------------------------------------
  // The finding, on a concrete run

  /** A tracker result named with the zero-padded episode 5. */
  function EpisodeFiveTorrent(): Torrent {
    Torrent("1", "Show - 05 [1080p]", "", "", "", "", "", "", 0, 0, 0)
  }

  /**
   * Asking for episode "5" of a media that already lists episode 5: the
   * padded name is kept by the filter, and the merge as written then gives
   * the media two entries for episode 5, while the lookup by number keeps one.
   */
  lemma EpisodeFiveRequestedTwice(existing: Episode)
    requires existing.episode == 5
    ensures DecimalValue("5") == 5
    ensures var items := ExtractMediaInfo(FilterEpisode([EpisodeFiveTorrent()], "5"));
      && |items| == 1
      && MergeEpisodes(Some([existing]), 5, items, AsWritten) == [existing, NewEpisode(5, items)]
      && |MergeEpisodes(Some([existing]), 5, items, ByNumber)| == 1
  {
    PaddedEpisodeExample();
    var t := EpisodeFiveTorrent();
    FilterEpisodeKeeps([t], "5", t);
    assert DecimalValue("5") == 10 * DecimalValue("") + 5;
    var items := ExtractMediaInfo(FilterEpisode([t], "5"));
    AsWrittenMergeAppends([existing], 5, items);
    assert EpisodeMatcher(ByNumber, 5)(existing);
  }

  // ---------------------------------------------------------------------
  // The job, step by step on a loaded document

  /** A document as loaded by `findOne`: the job only changes its episode list. */
  class MediaDocument {
    const id: ObjectId
    const fields: Media
    var episodes: Option<seq<Episode>>

    constructor (d: Document)
      ensures id == d.id && fields == d.media && episodes == d.media.episodes
    {
      id := d.id;
      fields := d.media;
      episodes := d.media.episodes;
    }

    /** The document `save` writes back. */
    function Snapshot(): Document
      reads this
    {
      Document(id, fields.(episodes := episodes))
    }

    /** `media.episodes.push(e)`. */
    method PushEpisode(e: Episode)
      requires episodes.Some?
      modifies this
      ensures episodes == Some(old(episodes.value) + [e])
    {
      episodes := Some(episodes.value + [e]);
    }

    /** The `forEach` over the results, on the episode at `index`. */
    method MergeDownloads(index: nat, items: seq<EnrichedTorrentItem>)
      requires episodes.Some? && index < |episodes.value|
      modifies this
      ensures episodes == Some(old(episodes.value)[index := MergedEpisode(old(episodes.value[index]), items)])
    {
      ghost var eps := episodes.value;
      assert eps[index := MergedEpisode(eps[index], items[..0])] == eps;
      for i := 0 to |items|
        invariant episodes == Some(eps[index := MergedEpisode(eps[index], items[..i])])
      {
        assert items[..i + 1][..i] == items[..i] && items[..i + 1][i] == items[i];
        var ep := episodes.value[index];
        assert ep == MergedEpisode(eps[index], items[..i]);
        if ep.downloads.Some? && HasTorrent(ep.downloads.value, items[i].Id()) {
          assert MergedEpisode(eps[index], items[..i + 1]) == ep;
          continue;
        }
        if ep.downloads.Some? {
          assert MergedEpisode(eps[index], items[..i + 1])
            == ep.(downloads := Some(ep.downloads.value + [ToEpisodeItem(items[i])]));
          ghost var merged := ep.(downloads := Some(ep.downloads.value + [ToEpisodeItem(items[i])]));
          assert episodes.value[index := merged] == eps[index := merged];
          episodes := Some(episodes.value[index := ep.(downloads := Some(ep.downloads.value + [ToEpisodeItem(items[i])]))]);
        } else {
          assert ep == eps[index] && MergedEpisode(eps[index], items[..i + 1]) == ep;
        }
      }
      assert items[..|items|] == items;
    }
  }

  /** `downloadNyaaTorrent` on the shared store. */
  method DownloadNyaaTorrent(store: MediaStore, id: ObjectId, episode: string,
                             search: Result<seq<Torrent>, ThrownError>, lookup: Lookup)
    returns (outcome: DownloadOutcome)
    requires store.Valid()
    modifies store
    ensures store.Valid()
    ensures (store.State(), outcome) == Download(old(store.State()), id, episode, search, lookup)
  {
    var found := store.FindById(id);
    if found.None? {
      return MediaNotFound;
    }
    var media := new MediaDocument(found.value);
    if media.fields.title.None? {
      return Failed(TitleTypeError());
    }
    if search.Failure? {
      return Failed(search.error);
    }
    var torrentItems := ExtractMediaInfo(FilterEpisode(search.value, episode));
    if torrentItems == [] {
      return NoTorrents;
    }
    FilterEpisodeNeedsDigits(search.value, episode);
    var n := DecimalValue(episode);
    if media.episodes.None? {
      media.episodes := Some([NewEpisode(n, torrentItems)]);
    } else {
      var existed := FindEpisode(media.episodes.value, n, lookup);
      if existed.Some? {
        media.MergeDownloads(existed.value, torrentItems);
      } else {
        media.PushEpisode(NewEpisode(n, torrentItems));
      }
    }
    store.SaveDocument(media.Snapshot());
    return Saved;
  }
}
