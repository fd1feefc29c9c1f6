/**
 * `updateImage` and `downloadImage` of the airing collector
 * (src/processors/anilist-info-collector.processor.ts:357-377,421-447).
 * The download itself is an oracle: `fetchOk(url)` says whether fetching
 * `url` (with its retries) succeeds and the file is written.
 */
module Images {
  import opened Wrappers
  import opened Schema

  /** `p` without its trailing `/` characters. */
  function StripTrailingSlashes(p: string): (r: string)
    ensures |r| <= |p| && r == p[..|r|]
    ensures r == [] || r[|r| - 1] != '/'
    ensures forall k :: |r| <= k < |p| ==> p[k] == '/'
  {
    if |p| > 0 && p[|p| - 1] == '/' then StripTrailingSlashes(p[..|p| - 1]) else p
  }

  /** The part of `p` after its last `/` (all of `p` when it has none). */
  function AfterLastSlash(p: string): (r: string)
    ensures |r| <= |p| && r == p[|p| - |r|..]
    ensures '/' !in r
    ensures |r| < |p| ==> p[|p| - |r| - 1] == '/'
  {
    if p == [] then []
    else if p[|p| - 1] == '/' then []
    else AfterLastSlash(p[..|p| - 1]) + [p[|p| - 1]]
  }

  /** POSIX `path.basename(p)`: the last `/`-free segment, trailing slashes ignored. */
  function Basename(p: string): string
  {
    AfterLastSlash(StripTrailingSlashes(p))
  }

  /**
   * `b` sits at `i` in `p` as its last segment: a `/` or the start of `p`
   * comes before it and only slashes follow it.
   */
  ghost predicate LastSegmentAt(p: string, i: int, b: string) {
    && 0 <= i <= i + |b| <= |p| && p[i..i + |b|] == b
    && (forall k :: i + |b| <= k < |p| ==> p[k] == '/')
    && (i == 0 || p[i - 1] == '/')
  }

  /** The base name holds no `/` and is the last segment of the path. */
  lemma BasenameIsLastSegment(p: string)
    ensures '/' !in Basename(p)
    ensures exists i :: LastSegmentAt(p, i, Basename(p))
  {
    var t := StripTrailingSlashes(p);
    var b := AfterLastSlash(t);
    var i := |t| - |b|;
    assert p[i..i + |b|] == t[i..] by {
      assert t == p[..|t|];
    }
    assert LastSegmentAt(p, i, b);
  }

  /** `downloadImage(url)`: the file name on success, `""` on any failure; it never throws. */
  function DownloadImage(url: string, fetchOk: string -> bool): (r: string)
    ensures fetchOk(url) ==> r == Basename(url)
    ensures !fetchOk(url) ==> r == ""
    ensures '/' !in r
  {
    if fetchOk(url) then Basename(url) else ""
  }

  /** One image field after `updateImage`: a non-empty value is replaced by its download. */
  function Downloaded(v: Option<string>, fetchOk: string -> bool): (r: Option<string>)
  {
    if v.Some? && v.value != "" then Some(DownloadImage(v.value, fetchOk)) else v
  }

  /** The keys of a cover image, in the order the API returns them. */
  datatype CoverKey = ExtraLarge | Large | Medium | Color

  const CoverKeys: seq<CoverKey> := [ExtraLarge, Large, Medium, Color]

  function Field(c: CoverImage, key: CoverKey): Option<string>
  {
    match key
    case ExtraLarge => c.extraLarge
    case Large => c.large
    case Medium => c.medium
    case Color => c.color
  }

  function WithField(c: CoverImage, key: CoverKey, v: Option<string>): (r: CoverImage)
    ensures Field(r, key) == v
    ensures forall k :: k != key ==> Field(r, k) == Field(c, k)
  {
    match key
    case ExtraLarge => c.(extraLarge := v)
    case Large => c.(large := v)
    case Medium => c.(medium := v)
    case Color => c.(color := v)
  }

  /** A cover image after `updateImage`: every key but `color` replaced by its download. */
  function UpdatedCover(c: CoverImage, fetchOk: string -> bool): (r: CoverImage)
    ensures r.extraLarge == Downloaded(c.extraLarge, fetchOk)
    ensures r.large == Downloaded(c.large, fetchOk)
    ensures r.medium == Downloaded(c.medium, fetchOk)
    ensures r.color == c.color
  {
    c.(extraLarge := Downloaded(c.extraLarge, fetchOk),
       large := Downloaded(c.large, fetchOk),
       medium := Downloaded(c.medium, fetchOk))
  }

  /**
   * The document `updateImage` leaves behind: every cover image except
   * `color`, and the banner, replaced by its download when it is
   * non-empty; every other field as it was.
   */
  function UpdatedImages(m: Media, fetchOk: string -> bool): (r: Media)
    ensures r.(coverImage := m.coverImage, bannerImage := m.bannerImage) == m
    ensures r.coverImage.Some? <==> m.coverImage.Some?
    ensures r.coverImage.Some? ==> r.coverImage.value == UpdatedCover(m.coverImage.value, fetchOk)
    ensures r.bannerImage == Downloaded(m.bannerImage, fetchOk)
  {
    var cover := if m.coverImage.Some? then Some(UpdatedCover(m.coverImage.value, fetchOk)) else None;
    m.(coverImage := cover, bannerImage := Downloaded(m.bannerImage, fetchOk))
  }

  /** Empty and absent image fields, and `color`, are never touched. */
  lemma EmptyImagesUntouched(m: Media, fetchOk: string -> bool)
    ensures var r := UpdatedImages(m, fetchOk);
      && (m.bannerImage.None? || m.bannerImage == Some("") ==> r.bannerImage == m.bannerImage)
      && (m.coverImage.Some? ==> r.coverImage.value.color == m.coverImage.value.color)
      && (m.coverImage.Some? ==> forall key :: Field(m.coverImage.value, key) in {None, Some("")} ==>
            Field(r.coverImage.value, key) == Field(m.coverImage.value, key))
  {
    if m.coverImage.Some? {
      var c := m.coverImage.value;
      var rc := UpdatedImages(m, fetchOk).coverImage.value;
      forall key | Field(c, key) in {None, Some("")} ensures Field(rc, key) == Field(c, key) {
        match key
        case ExtraLarge => assert rc.extraLarge == Downloaded(c.extraLarge, fetchOk);
        case Large => assert rc.large == Downloaded(c.large, fetchOk);
        case Medium => assert rc.medium == Downloaded(c.medium, fetchOk);
        case Color =>
      }
    }
  }

  /** A document with no images is left as it is. */
  lemma NoImagesNoChange(m: Media, fetchOk: string -> bool)
    requires m.coverImage.None? && m.bannerImage.None?
    ensures UpdatedImages(m, fetchOk) == m
  {
  }

  /** Two cover images that agree on every key are equal. */
  lemma CoverFieldsDetermine(a: CoverImage, b: CoverImage)
    requires forall j :: 0 <= j < |CoverKeys| ==> Field(a, CoverKeys[j]) == Field(b, CoverKeys[j])
    ensures a == b
  {
    assert Field(a, CoverKeys[0]) == Field(b, CoverKeys[0]);
    assert Field(a, CoverKeys[1]) == Field(b, CoverKeys[1]);
    assert Field(a, CoverKeys[2]) == Field(b, CoverKeys[2]);
    assert Field(a, CoverKeys[3]) == Field(b, CoverKeys[3]);
  }

  /** The cover loop: every key but `color` whose value is truthy is replaced by its download. */
  method UpdateCover(c: CoverImage, fetchOk: string -> bool) returns (cover: CoverImage)
    ensures cover == UpdatedCover(c, fetchOk)
  {
    cover := c;
    for i := 0 to |CoverKeys|
      invariant forall j :: 0 <= j < |CoverKeys| ==>
        Field(cover, CoverKeys[j]) ==
          if j < i && CoverKeys[j] != Color then Downloaded(Field(c, CoverKeys[j]), fetchOk)
          else Field(c, CoverKeys[j])
    {
      var key := CoverKeys[i];
      if key == Color {
        continue;
      }
      var v := Field(cover, key);
      if v.Some? && v.value != "" {
        var localPath := DownloadImage(v.value, fetchOk);
        cover := WithField(cover, key, Some(localPath));
      }
    }
    CoverFieldsDetermine(cover, UpdatedCover(c, fetchOk));
  }

  /** `updateImage(mediaData)`: the cover loop, then the banner. */
  method UpdateImage(m: Media, fetchOk: string -> bool) returns (r: Media)
    ensures r == UpdatedImages(m, fetchOk)
  {
    r := m;
    if r.coverImage.Some? {
      var cover := UpdateCover(r.coverImage.value, fetchOk);
      r := r.(coverImage := Some(cover));
    }
    if r.bannerImage.Some? && r.bannerImage.value != "" {
      var localPath := DownloadImage(r.bannerImage.value, fetchOk);
      r := r.(bannerImage := Some(localPath));
    }
  }
}
