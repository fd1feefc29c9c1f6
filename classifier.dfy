/**
 * The lexical torrent classifier of the torrent-search job
 * (src/processors/nyaa-torrent.processor.ts, `filterEpisode` and
 * `extractMediaInfo`). Each regular expression is written out as a scanner
 * with the leftmost-match, greedy and case-insensitive semantics of a
 * non-unicode JavaScript RegExp.
 */
module Classifier {
  import opened Wrappers
  import opened Schema

  // ---------------------------------------------------------------------
  // Character classes

  /** `\d`: an ASCII decimal digit. */
  predicate IsDigit(c: char) {
    '0' <= c <= '9'
  }

  predicate AllDigits(s: seq<char>) {
    forall k :: 0 <= k < |s| ==> IsDigit(s[k])
  }

  /** `\s`: the white space and line terminator characters of ECMAScript. */
  predicate IsRegExpSpace(c: char) {
    c == '\t' || c == '\n' || c == '\U{000B}' || c == '\U{000C}' || c == '\r' || c == ' '
    || c == '\U{00A0}' || c == '\U{1680}' || ('\U{2000}' <= c <= '\U{200A}')
    || c == '\U{2028}' || c == '\U{2029}' || c == '\U{202F}' || c == '\U{205F}'
    || c == '\U{3000}' || c == '\U{FEFF}'
  }

  predicate AllSpace(s: seq<char>) {
    forall k :: 0 <= k < |s| ==> IsRegExpSpace(s[k])
  }

  /** The characters `.` does not match. */
  predicate IsLineTerminator(c: char) {
    c == '\n' || c == '\r' || c == '\U{2028}' || c == '\U{2029}'
  }

  /** `toUpperCase` on one character, ASCII letters only. */
  function UpperChar(c: char): (r: char)
    ensures 'a' <= c <= 'z' ==> r as int == c as int - 32
    ensures !('a' <= c <= 'z') ==> r == c
  {
    if 'a' <= c <= 'z' then (c as int - 32) as char else c
  }

  /** `toUpperCase` on a string whose characters are ASCII. */
  function Upper(s: string): (r: string)
    ensures |r| == |s| && forall k :: 0 <= k < |s| ==> r[k] == UpperChar(s[k])
  {
    seq(|s|, k requires 0 <= k < |s| => UpperChar(s[k]))
  }

  /**
   * The character at `i` matches `u` under the `i` flag: `u` is an
   * upper-case ASCII letter or a character without case, and ASCII
   * letters compare without case (a non-unicode RegExp never folds a
   * non-ASCII character onto an ASCII one).
   */
  predicate At(s: seq<char>, i: nat, u: char) {
    i < |s| && UpperChar(s[i]) == u
  }

  // ---------------------------------------------------------------------
  // Greedy runs

  /** The end of the run of digits that starts at `j` (greedy `\d*`). */
  function DigitsEnd(s: seq<char>, j: nat): (k: nat)
    requires j <= |s|
    ensures j <= k <= |s| && AllDigits(s[j..k])
    ensures k == |s| || !IsDigit(s[k])
    decreases |s| - j
  {
    if j < |s| && IsDigit(s[j]) then
      var k := DigitsEnd(s, j + 1);
      assert s[j..k] == [s[j]] + s[j + 1..k];
      k
    else j
  }

  /** The end of the run of `\s` characters that starts at `j` (greedy `\s*`). */
  function SpacesEnd(s: seq<char>, j: nat): (k: nat)
    requires j <= |s|
    ensures j <= k <= |s| && AllSpace(s[j..k])
    ensures k == |s| || !IsRegExpSpace(s[k])
    decreases |s| - j
  {
    if j < |s| && IsRegExpSpace(s[j]) then
      var k := SpacesEnd(s, j + 1);
      assert s[j..k] == [s[j]] + s[j + 1..k];
      k
    else j
  }

  /** A maximal digit run is where every digit run from `j` that cannot be extended ends. */
  lemma {:induction false} DigitsEndUnique(s: seq<char>, j: nat, k: nat)
    requires j <= k <= |s| && AllDigits(s[j..k]) && (k == |s| || !IsDigit(s[k]))
    ensures DigitsEnd(s, j) == k
    decreases k - j
  {
    if j < k {
      assert s[j] == s[j..k][0];
      assert s[j + 1..k] == s[j..k][1..];
      DigitsEndUnique(s, j + 1, k);
    }
  }

  lemma {:induction false} SpacesEndUnique(s: seq<char>, j: nat, k: nat)
    requires j <= k <= |s| && AllSpace(s[j..k]) && (k == |s| || !IsRegExpSpace(s[k]))
    ensures SpacesEnd(s, j) == k
    decreases k - j
  {
    if j < k {
      assert s[j] == s[j..k][0];
      assert s[j + 1..k] == s[j..k][1..];
      SpacesEndUnique(s, j + 1, k);
    }
  }

  // ---------------------------------------------------------------------
  // Leftmost match

  /** The match of the first position, from `i` on, at which `at` matches. */
  function FirstMatch<T>(at: (seq<char>, nat) -> Option<T>, s: seq<char>, i: nat): Option<T>
    decreases |s| - i
  {
    if i >= |s| then None
    else if at(s, i).Some? then at(s, i)
    else FirstMatch(at, s, i + 1)
  }

  /**
   * `FirstMatch` finds a match exactly when some position from `i` on
   * matches, and then it is the match at the leftmost such position.
   */
  lemma {:induction false} FirstMatchIsLeftmost<T>(at: (seq<char>, nat) -> Option<T>, s: seq<char>, i: nat)
    ensures FirstMatch(at, s, i).Some? <==> exists p :: i <= p < |s| && at(s, p).Some?
    ensures FirstMatch(at, s, i).Some? ==>
      exists p :: i <= p < |s| && at(s, p) == FirstMatch(at, s, i)
        && forall k :: i <= k < p ==> at(s, k).None?
    decreases |s| - i
  {
    if i < |s| && at(s, i).None? {
      FirstMatchIsLeftmost(at, s, i + 1);
      if FirstMatch(at, s, i).Some? {
        var p :| i + 1 <= p < |s| && at(s, p) == FirstMatch(at, s, i + 1)
          && forall k :: i + 1 <= k < p ==> at(s, k).None?;
        assert forall k :: i <= k < p ==> at(s, k).None?;
      }
    }
  }

  // ---------------------------------------------------------------------
  // filterEpisode: /(?:-\s*| [Ss]\d+[Ee])(\d+)/i

  /** The group `(\d+)` captured by the episode pattern when a match starts at `i`. */
  function EpisodeMarkerAt(s: seq<char>, i: nat): (r: Option<seq<char>>)
    ensures r.Some? ==> |r.value| > 0 && AllDigits(r.value)
  {
    if i < |s| && s[i] == '-' then
      var j := SpacesEnd(s, i + 1);
      if j < |s| && IsDigit(s[j]) then Some(s[j..DigitsEnd(s, j)]) else None
    else if i + 1 < |s| && s[i] == ' ' && (s[i + 1] == 'S' || s[i + 1] == 's') then
      var j := DigitsEnd(s, i + 2);
      if j > i + 2 && j + 1 < |s| && (s[j] == 'E' || s[j] == 'e') && IsDigit(s[j + 1]) then
        Some(s[j + 1..DigitsEnd(s, j + 1)])
      else None
    else None
  }

  /** `d` is a whole digit run that starts at `j`. */
  ghost predicate DigitRunAt(s: seq<char>, j: nat, d: seq<char>) {
    j + |d| <= |s| && |d| > 0 && s[j..j + |d|] == d && AllDigits(d)
    && (j + |d| == |s| || !IsDigit(s[j + |d|]))
  }

  /**
   * The episode pattern read declaratively: `-`, any white space, then a
   * digit run; or a space, `S`, digits, `E`, then a digit run. The group
   * is the whole final run, since `\d+` is greedy and nothing follows it.
   */
  ghost predicate EpisodeMarker(s: seq<char>, i: nat, d: seq<char>) {
    (i < |s| && s[i] == '-'
      && exists j :: i < j <= |s| && AllSpace(s[i + 1..j]) && DigitRunAt(s, j, d))
    || (i + 1 < |s| && s[i] == ' ' && (s[i + 1] == 'S' || s[i + 1] == 's')
      && exists j :: SeasonMarkerVia(s, i, j, d))
  }

  /** The dash alternative, scanner to declarative reading. */
  lemma DashMarkerSound(s: seq<char>, i: nat, d: seq<char>)
    requires i < |s| && s[i] == '-' && EpisodeMarkerAt(s, i) == Some(d)
    ensures exists j :: i < j <= |s| && AllSpace(s[i + 1..j]) && DigitRunAt(s, j, d)
  {
    var j := SpacesEnd(s, i + 1);
    assert DigitRunAt(s, j, d);
  }

  /** The dash alternative, declarative reading to scanner. */
  lemma DashMarkerComplete(s: seq<char>, i: nat, j: nat, d: seq<char>)
    requires i < |s| && s[i] == '-'
    requires i < j <= |s| && AllSpace(s[i + 1..j]) && DigitRunAt(s, j, d)
    ensures EpisodeMarkerAt(s, i) == Some(d)
  {
    assert s[j] == s[j..j + |d|][0] == d[0];
    SpacesEndUnique(s, i + 1, j);
    DigitsEndUnique(s, j, j + |d|);
  }

  /** The dash alternative: the scanner and the declarative reading agree. */
  lemma DashMarkerCorrect(s: seq<char>, i: nat, d: seq<char>)
    requires i < |s| && s[i] == '-'
    ensures EpisodeMarkerAt(s, i) == Some(d) <==>
      exists j :: i < j <= |s| && AllSpace(s[i + 1..j]) && DigitRunAt(s, j, d)
  {
    if EpisodeMarkerAt(s, i) == Some(d) {
      DashMarkerSound(s, i, d);
    }
    if exists j :: i < j <= |s| && AllSpace(s[i + 1..j]) && DigitRunAt(s, j, d) {
      var j :| i < j <= |s| && AllSpace(s[i + 1..j]) && DigitRunAt(s, j, d);
      DashMarkerComplete(s, i, j, d);
    }
  }

  /** A season marker whose episode digits start at `j + 1`. */
  ghost predicate SeasonMarkerVia(s: seq<char>, i: nat, j: nat, d: seq<char>) {
    i + 2 < j < |s| && AllDigits(s[i + 2..j]) && (s[j] == 'E' || s[j] == 'e') && DigitRunAt(s, j + 1, d)
  }

  /** Any way of reading a season marker is the scanner's greedy one. */
  lemma SeasonMarkerViaScanned(s: seq<char>, i: nat, j: nat, d: seq<char>)
    requires i + 1 < |s| && s[i] == ' ' && (s[i + 1] == 'S' || s[i + 1] == 's')
    requires SeasonMarkerVia(s, i, j, d)
    ensures EpisodeMarkerAt(s, i) == Some(d)
  {
    DigitsEndUnique(s, i + 2, j);
    assert s[j + 1] == s[j + 1..j + 1 + |d|][0] == d[0];
    DigitsEndUnique(s, j + 1, j + 1 + |d|);
  }

  /** The season alternative: the scanner and the declarative reading agree. */
  lemma SeasonMarkerCorrect(s: seq<char>, i: nat, d: seq<char>)
    requires i + 1 < |s| && s[i] == ' ' && (s[i + 1] == 'S' || s[i + 1] == 's')
    ensures EpisodeMarkerAt(s, i) == Some(d) <==> exists j :: SeasonMarkerVia(s, i, j, d)
  {
    if EpisodeMarkerAt(s, i) == Some(d) {
      var j := DigitsEnd(s, i + 2);
      assert SeasonMarkerVia(s, i, j, d);
    }
    if exists j :: SeasonMarkerVia(s, i, j, d) {
      var j :| SeasonMarkerVia(s, i, j, d);
      SeasonMarkerViaScanned(s, i, j, d);
    }
  }

  /** The scanner captures `d` at `i` exactly when the declarative reading does. */
  lemma EpisodeMarkerAtCorrect(s: seq<char>, i: nat, d: seq<char>)
    ensures EpisodeMarkerAt(s, i) == Some(d) <==> EpisodeMarker(s, i, d)
  {
    if i < |s| && s[i] == '-' {
      DashMarkerCorrect(s, i, d);
    } else if i + 1 < |s| && s[i] == ' ' && (s[i + 1] == 'S' || s[i + 1] == 's') {
      SeasonMarkerCorrect(s, i, d);
    }
  }

  /** The group of the leftmost match of the episode pattern in `name`, if any. */
  function EpisodeCapture(name: string): (r: Option<string>)
    ensures r.Some? ==> |r.value| > 0 && AllDigits(r.value)
  {
    FirstMatchIsLeftmost(EpisodeMarkerAt, name, 0);
    FirstMatch(EpisodeMarkerAt, name, 0)
  }

  /** The digits a name must carry: a one-character request is padded with `0`. */
  function EpisodeDigits(episode: string): string {
    if |episode| == 1 then "0" + episode else episode
  }

  predicate KeepsEpisode(t: Torrent, episode: string) {
    EpisodeCapture(t.name) == Some(EpisodeDigits(episode))
  }

  /** `filterEpisode(items, episode)`. */
  function FilterEpisode(items: seq<Torrent>, episode: string): (r: seq<Torrent>)
    ensures |r| <= |items|
  {
    if items == [] then []
    else (if KeepsEpisode(items[0], episode) then [items[0]] else []) + FilterEpisode(items[1..], episode)
  }

  /** An item is kept exactly when its name carries the requested episode digits. */
  lemma {:induction false} FilterEpisodeKeeps(items: seq<Torrent>, episode: string, t: Torrent)
    ensures t in FilterEpisode(items, episode) <==> t in items && KeepsEpisode(t, episode)
  {
    if items != [] {
      FilterEpisodeKeeps(items[1..], episode, t);
      assert items == [items[0]] + items[1..];
    }
  }

  /** `a` is `b` with some elements left out, in the same order. */
  predicate IsSubsequence<T(==)>(a: seq<T>, b: seq<T>)
    decreases |b|
  {
    if a == [] then true
    else if b == [] then false
    else (a[0] == b[0] && IsSubsequence(a[1..], b[1..])) || IsSubsequence(a, b[1..])
  }

  /** The kept items keep their relative order. */
  lemma {:induction false} FilterEpisodeIsSubsequence(items: seq<Torrent>, episode: string)
    ensures IsSubsequence(FilterEpisode(items, episode), items)
  {
    if items != [] {
      FilterEpisodeIsSubsequence(items[1..], episode);
      var rest := FilterEpisode(items[1..], episode);
      if KeepsEpisode(items[0], episode) {
        assert FilterEpisode(items, episode) == [items[0]] + rest;
        assert ([items[0]] + rest)[1..] == rest;
      } else {
        assert FilterEpisode(items, episode) == rest;
      }
    }
  }

  /** Filtering twice is filtering once. */
  lemma {:induction false} FilterEpisodeIdempotent(items: seq<Torrent>, episode: string)
    ensures FilterEpisode(FilterEpisode(items, episode), episode) == FilterEpisode(items, episode)
  {
    if items != [] {
      FilterEpisodeIdempotent(items[1..], episode);
      var rest := FilterEpisode(items[1..], episode);
      var r := FilterEpisode(items, episode);
      if KeepsEpisode(items[0], episode) {
        assert r == [items[0]] + rest;
        assert r[0] == items[0] && r[1..] == rest;
        assert FilterEpisode(r, episode) == [items[0]] + FilterEpisode(rest, episode);
      } else {
        assert r == rest;
      }
    }
  }

  /**
   * Something survives the filter only when the request is a non-empty
   * string of digits, so `+episode` is then its decimal value.
   */
  lemma FilterEpisodeNeedsDigits(items: seq<Torrent>, episode: string)
    requires FilterEpisode(items, episode) != []
    ensures |episode| > 0 && AllDigits(episode)
  {
    var t := FilterEpisode(items, episode)[0];
    FilterEpisodeKeeps(items, episode, t);
    var d := EpisodeCapture(t.name).value;
    if |episode| == 1 {
      assert episode[0] == d[1];
    }
  }

  /** The decimal value of a digit string, the value of `+s` for such strings. */
  function DecimalValue(s: string): (n: nat)
    requires AllDigits(s)
    decreases |s|
  {
    if s == [] then 0
    else 10 * DecimalValue(s[..|s| - 1]) + (s[|s| - 1] as int - '0' as int)
  }

  /** A leading zero does not change the value. */
  lemma {:induction false} DecimalValueLeadingZero(s: string)
    requires AllDigits(s)
    ensures AllDigits("0" + s) && DecimalValue("0" + s) == DecimalValue(s)
    decreases |s|
  {
    assert AllDigits("0" + s);
    if s != [] {
      DecimalValueLeadingZero(s[..|s| - 1]);
      assert ("0" + s)[..|"0" + s| - 1] == "0" + s[..|s| - 1];
    }
  }

  /**
   * The episode number later stored, `+episode`, is the value of the
   * digits captured in every kept name.
   */
  lemma KeptNameCarriesRequestedNumber(t: Torrent, episode: string)
    requires KeepsEpisode(t, episode)
    ensures AllDigits(episode) && AllDigits(EpisodeCapture(t.name).value)
    ensures DecimalValue(EpisodeCapture(t.name).value) == DecimalValue(episode)
  {
    var d := EpisodeCapture(t.name).value;
    if |episode| == 1 {
      assert episode[0] == d[1] && d == "0" + episode;
      DecimalValueLeadingZero(episode);
    }
  }

  /** No match starts before `p` and one starts at `p`: the leftmost match is at `p`. */
  lemma {:induction false} FirstMatchAt<T>(at: (seq<char>, nat) -> Option<T>, s: seq<char>, i: nat, p: nat)
    requires i <= p < |s| && at(s, p).Some?
    requires forall k :: i <= k < p ==> at(s, k).None?
    ensures FirstMatch(at, s, i) == at(s, p)
    decreases p - i
  {
    if i < p {
      FirstMatchAt(at, s, i + 1, p);
    }
  }

  /** The zero-padding rule on two names: "5" keeps "Show - 05 [1080p]" and drops "Show - 5 [720p]". */
  lemma PaddedEpisodeExample()
    ensures EpisodeCapture("Show - 05 [1080p]") == Some("05")
    ensures EpisodeCapture("Show - 5 [720p]") == Some("5")
    ensures EpisodeDigits("5") == "05"
  {
    PaddedNameCapture();
    UnpaddedNameCapture();
  }

  lemma PaddedNameCapture()
    ensures EpisodeCapture("Show - 05 [1080p]") == Some("05")
  {
    var a := "Show - 05 [1080p]";
    assert a[4] == ' ' && a[5] == '-' && a[6] == ' ' && a[7] == '0' && a[8] == '5' && a[9] == ' ';
    assert SpacesEnd(a, 6) == 7 by { SpacesEndUnique(a, 6, 7); }
    assert a[7..9] == "05";
    assert DigitsEnd(a, 7) == 9 by { DigitsEndUnique(a, 7, 9); }
    assert EpisodeMarkerAt(a, 5) == Some("05");
    assert forall k :: 0 <= k < 5 ==> EpisodeMarkerAt(a, k).None?;
    FirstMatchAt(EpisodeMarkerAt, a, 0, 5);
  }

  lemma UnpaddedNameCapture()
    ensures EpisodeCapture("Show - 5 [720p]") == Some("5")
  {
    var b := "Show - 5 [720p]";
    assert b[4] == ' ' && b[5] == '-' && b[6] == ' ' && b[7] == '5' && b[8] == ' ';
    assert SpacesEnd(b, 6) == 7 by { SpacesEndUnique(b, 6, 7); }
    assert b[7..8] == "5";
    assert DigitsEnd(b, 7) == 8 by { DigitsEndUnique(b, 7, 8); }
    assert EpisodeMarkerAt(b, 5) == Some("5");
    assert forall k :: 0 <= k < 5 ==> EpisodeMarkerAt(b, k).None?;
    FirstMatchAt(EpisodeMarkerAt, b, 0, 5);
  }

  // ---------------------------------------------------------------------
  // Quality: /(4k|1080|720|480)/i

  /** The quality tokens the classifier can produce. */
  const QualityTags: set<string> := {"4K", "1080", "720", "480"}

  /**
   * The upper-cased match of the quality pattern starting at `i`; the
   * alternatives are tried in their written order.
   */
  function QualityAt(s: seq<char>, i: nat): (r: Option<string>)
    ensures r.Some? ==> r.value in QualityTags
  {
    if At(s, i, '4') && At(s, i + 1, 'K') then Some("4K")
    else if At(s, i, '1') && At(s, i + 1, '0') && At(s, i + 2, '8') && At(s, i + 3, '0') then Some("1080")
    else if At(s, i, '7') && At(s, i + 1, '2') && At(s, i + 2, '0') then Some("720")
    else if At(s, i, '4') && At(s, i + 1, '8') && At(s, i + 2, '0') then Some("480")
    else None
  }

  /** `quality`: the upper-cased leftmost quality match, or undefined. */
  function Quality(name: string): (r: Option<string>)
    ensures r.Some? ==> r.value in QualityTags
    ensures r.None? <==> forall p :: 0 <= p < |name| ==> QualityAt(name, p).None?
  {
    FirstMatchIsLeftmost(QualityAt, name, 0);
    FirstMatch(QualityAt, name, 0)
  }

  // ---------------------------------------------------------------------
  // Codecs: /(x26[45]|HEVC|H\.?264|MPEG-?2|AAC)/gi

  predicate HevcAt(s: seq<char>, i: nat) {
    At(s, i, 'H') && At(s, i + 1, 'E') && At(s, i + 2, 'V') && At(s, i + 3, 'C')
  }

  predicate Digits264At(s: seq<char>, i: nat) {
    At(s, i, '2') && At(s, i + 1, '6') && At(s, i + 2, '4')
  }

  predicate MpegAt(s: seq<char>, i: nat) {
    At(s, i, 'M') && At(s, i + 1, 'P') && At(s, i + 2, 'E') && At(s, i + 3, 'G')
  }

  /** The length of the codec pattern's match at `i`, 0 when there is none. */
  function CodecLenAt(s: seq<char>, i: nat): (n: nat)
    ensures n > 0 ==> i + n <= |s|
    ensures n in {0, 3, 4, 5, 6}
  {
    if At(s, i, 'X') && At(s, i + 1, '2') && At(s, i + 2, '6') && (At(s, i + 3, '4') || At(s, i + 3, '5')) then 4
    else if HevcAt(s, i) then 4
    else if At(s, i, 'H') && At(s, i + 1, '.') && Digits264At(s, i + 2) then 5
    else if At(s, i, 'H') && Digits264At(s, i + 1) then 4
    else if MpegAt(s, i) && At(s, i + 4, '-') && At(s, i + 5, '2') then 6
    else if MpegAt(s, i) && At(s, i + 4, '2') then 5
    else if At(s, i, 'A') && At(s, i + 1, 'A') && At(s, i + 2, 'C') then 3
    else 0
  }

  /** A whole match of the codec pattern. */
  predicate IsCodecToken(c: string) {
    |c| > 0 && CodecLenAt(c, 0) == |c|
  }

  /** The text a match covers is itself matched whole from its first character. */
  lemma CodecSliceIsToken(s: seq<char>, i: nat)
    requires CodecLenAt(s, i) > 0
    ensures IsCodecToken(s[i..i + CodecLenAt(s, i)])
  {
    var n := CodecLenAt(s, i);
    var c := s[i..i + n];
    assert forall k :: 0 <= k < n ==> c[k] == s[i + k];
    assert forall k, u :: At(c, k, u) <==> k < n && At(s, i + k, u);
  }

  /** `name.match(codecPattern)` with the `g` flag: every match, left to right, not overlapping. */
  function CodecMatches(s: string, i: nat): (r: seq<string>)
    ensures forall c :: c in r ==> IsCodecToken(c)
    decreases |s| - i
  {
    if i >= |s| then []
    else
      var n := CodecLenAt(s, i);
      if n > 0 then
        CodecSliceIsToken(s, i);
        [s[i..i + n]] + CodecMatches(s, i + n)
      else CodecMatches(s, i + 1)
  }

  /** The global match returns no more matches than the name has characters. */
  lemma {:induction false} CodecMatchesBound(s: string, i: nat)
    requires i <= |s|
    ensures |CodecMatches(s, i)| <= |s| - i
    decreases |s| - i
  {
    if i < |s| {
      var n := CodecLenAt(s, i);
      if n > 0 { CodecMatchesBound(s, i + n); } else { CodecMatchesBound(s, i + 1); }
    }
  }

  // The rewrites applied to each codec: replace(/HEVC/i, 'x265'),
  // replace(/H.?264/i, 'H.264'), replace(/MPEG-?2/i, 'MPEG2').

  datatype Rewrite = HevcToX265 | H264ToDotted | Mpeg2ToPlain

  /** The length of the rewrite pattern's match at `i`, 0 when there is none. */
  function RewriteLenAt(p: Rewrite, s: seq<char>, i: nat): (n: nat)
    ensures n > 0 ==> i + n <= |s|
  {
    match p
    case HevcToX265 => if HevcAt(s, i) then 4 else 0
    case H264ToDotted =>
      if At(s, i, 'H') && i + 1 < |s| && !IsLineTerminator(s[i + 1]) && Digits264At(s, i + 2) then 5
      else if At(s, i, 'H') && Digits264At(s, i + 1) then 4
      else 0
    case Mpeg2ToPlain =>
      if MpegAt(s, i) && At(s, i + 4, '-') && At(s, i + 5, '2') then 6
      else if MpegAt(s, i) && At(s, i + 4, '2') then 5
      else 0
  }

  function Replacement(p: Rewrite): string {
    match p
    case HevcToX265 => "x265"
    case H264ToDotted => "H.264"
    case Mpeg2ToPlain => "MPEG2"
  }

  /** `s.replace(pattern, replacement)`: the leftmost match from `i` on is replaced, if any. */
  function ReplaceFirst(p: Rewrite, s: string, i: nat): string
    decreases |s| - i
  {
    if i >= |s| then s
    else
      var n := RewriteLenAt(p, s, i);
      if n > 0 then s[..i] + Replacement(p) + s[i + n..] else ReplaceFirst(p, s, i + 1)
  }

  /** The upper-case first letter every match of a rewrite pattern starts with. */
  function Initial(p: Rewrite): char {
    match p
    case HevcToX265 => 'H'
    case H264ToDotted => 'H'
    case Mpeg2ToPlain => 'M'
  }

  /** A string without the pattern's initial letter from `i` on is left as it is. */
  lemma {:induction false} ReplaceFirstNoInitial(p: Rewrite, s: string, i: nat)
    requires forall k :: i <= k < |s| ==> UpperChar(s[k]) != Initial(p)
    ensures ReplaceFirst(p, s, i) == s
    decreases |s| - i
  {
    if i < |s| {
      assert !At(s, i, Initial(p));
      ReplaceFirstNoInitial(p, s, i + 1);
    }
  }

  /** A string matched whole from its start is replaced whole. */
  lemma ReplaceFirstWhole(p: Rewrite, s: string)
    requires |s| > 0 && RewriteLenAt(p, s, 0) == |s|
    ensures ReplaceFirst(p, s, 0) == Replacement(p)
  {
    assert s[..0] == [] && s[|s|..] == [];
  }

  /** The normalisation of one raw codec match. */
  function NormaliseCodec(c: string): string {
    Upper(ReplaceFirst(Mpeg2ToPlain, ReplaceFirst(H264ToDotted, ReplaceFirst(HevcToX265, c, 0), 0), 0))
  }

  /** The codec names the classifier can produce. */
  const CodecNames: set<string> := {"X264", "X265", "H.264", "MPEG2", "AAC"}

  /** A token none of the rewrites touches normalises to its upper-case spelling. */
  lemma NormaliseUntouched(c: string)
    requires forall k :: 0 <= k < |c| ==> UpperChar(c[k]) != 'H' && UpperChar(c[k]) != 'M'
    ensures NormaliseCodec(c) == Upper(c)
  {
    ReplaceFirstNoInitial(HevcToX265, c, 0);
    ReplaceFirstNoInitial(H264ToDotted, c, 0);
    ReplaceFirstNoInitial(Mpeg2ToPlain, c, 0);
  }

  /** An HEVC match normalises to "X265". */
  lemma NormaliseHevc(c: string)
    requires |c| == 4 && HevcAt(c, 0)
    ensures NormaliseCodec(c) == "X265"
  {
    ReplaceFirstWhole(HevcToX265, c);
    var x := "x265";
    NormaliseUntouched(x);
    ReplaceFirstNoInitial(H264ToDotted, x, 0);
    ReplaceFirstNoInitial(Mpeg2ToPlain, x, 0);
    assert Upper(x) == "X265";
  }

  /** "H.264" survives the last rewrite and the upper-casing. */
  lemma DottedH264Fixed()
    ensures Upper(ReplaceFirst(Mpeg2ToPlain, "H.264", 0)) == "H.264"
  {
    var h := "H.264";
    ReplaceFirstNoInitial(Mpeg2ToPlain, h, 0);
    assert Upper(h) == "H.264";
  }

  /** An H264 or H.264 match is no HEVC match and is left alone by the first rewrite. */
  lemma H264NotHevc(c: string)
    requires (|c| == 5 && At(c, 0, 'H') && At(c, 1, '.') && Digits264At(c, 2))
          || (|c| == 4 && At(c, 0, 'H') && Digits264At(c, 1))
    ensures ReplaceFirst(HevcToX265, c, 0) == c
  {
    assert !HevcAt(c, 0);
    assert forall k :: 1 <= k < |c| ==> UpperChar(c[k]) != 'H';
    ReplaceFirstNoInitial(HevcToX265, c, 1);
  }

  /** An H264 or H.264 match normalises to "H.264". */
  lemma NormaliseH264(c: string)
    requires (|c| == 5 && At(c, 0, 'H') && At(c, 1, '.') && Digits264At(c, 2))
          || (|c| == 4 && At(c, 0, 'H') && Digits264At(c, 1))
    ensures NormaliseCodec(c) == "H.264"
  {
    H264NotHevc(c);
    ReplaceFirstWhole(H264ToDotted, c);
    DottedH264Fixed();
  }

  /** An MPEG2 or MPEG-2 match is left alone by the first two rewrites. */
  lemma Mpeg2Untouched(c: string)
    requires (|c| == 6 && MpegAt(c, 0) && At(c, 4, '-') && At(c, 5, '2'))
          || (|c| == 5 && MpegAt(c, 0) && At(c, 4, '2'))
    ensures ReplaceFirst(H264ToDotted, ReplaceFirst(HevcToX265, c, 0), 0) == c
  {
    assert forall k :: 0 <= k < |c| ==> UpperChar(c[k]) != 'H';
    ReplaceFirstNoInitial(HevcToX265, c, 0);
    ReplaceFirstNoInitial(H264ToDotted, c, 0);
  }

  /** An MPEG2 or MPEG-2 match normalises to "MPEG2". */
  lemma NormaliseMpeg2(c: string)
    requires (|c| == 6 && MpegAt(c, 0) && At(c, 4, '-') && At(c, 5, '2'))
          || (|c| == 5 && MpegAt(c, 0) && At(c, 4, '2'))
    ensures NormaliseCodec(c) == "MPEG2"
  {
    Mpeg2Untouched(c);
    ReplaceFirstWhole(Mpeg2ToPlain, c);
    UpperFixed("MPEG2");
  }

  /** A string without lower-case ASCII letters is its own upper-case spelling. */
  lemma UpperFixed(s: string)
    requires forall k :: 0 <= k < |s| ==> !('a' <= s[k] <= 'z')
    ensures Upper(s) == s
  {
  }

  /** Every raw codec match normalises into one of the five codec names. */
  lemma NormaliseCodecName(c: string)
    requires IsCodecToken(c)
    ensures NormaliseCodec(c) in CodecNames
  {
    if At(c, 0, 'X') && At(c, 1, '2') && At(c, 2, '6') && (At(c, 3, '4') || At(c, 3, '5')) {
      NormaliseUntouched(c);
      assert Upper(c) == ['X', '2', '6', c[3]];
    } else if HevcAt(c, 0) {
      NormaliseHevc(c);
    } else if At(c, 0, 'H') && At(c, 1, '.') && Digits264At(c, 2) {
      NormaliseH264(c);
    } else if At(c, 0, 'H') && Digits264At(c, 1) {
      NormaliseH264(c);
    } else if MpegAt(c, 0) && ((At(c, 4, '-') && At(c, 5, '2')) || At(c, 4, '2')) {
      NormaliseMpeg2(c);
    } else {
      NormaliseUntouched(c);
      assert Upper(c) == "AAC";
    }
  }

  predicate NoDuplicates<T(==)>(xs: seq<T>) {
    forall a, b :: 0 <= a < b < |xs| ==> xs[a] != xs[b]
  }

  /** A subsequence stays one when both sides, or only the longer, grow by one element. */
  lemma {:induction false} SubsequenceExtend<T>(a: seq<T>, b: seq<T>, x: T)
    requires IsSubsequence(a, b)
    ensures IsSubsequence(a, b + [x]) && IsSubsequence(a + [x], b + [x])
    decreases |b|
  {
    if b == [] {
      assert a == [];
      assert ([x] + [])[1..] == [];
    } else {
      assert (b + [x])[1..] == b[1..] + [x];
      if a == [] {
        SubsequenceExtend(a, b[1..], x);
      } else {
        assert (a + [x])[1..] == a[1..] + [x];
        if a[0] == b[0] && IsSubsequence(a[1..], b[1..]) {
          SubsequenceExtend(a[1..], b[1..], x);
        } else {
          SubsequenceExtend(a, b[1..], x);
        }
      }
    }
  }

  /** `[...new Set(xs)]`: the first occurrence of every distinct value, in order. */
  function Dedup(xs: seq<string>): (r: seq<string>)
    ensures NoDuplicates(r)
    ensures forall x :: x in r <==> x in xs
    ensures IsSubsequence(r, xs)
    ensures |r| <= |xs|
    decreases |xs|
  {
    if xs == [] then []
    else
      var r := Dedup(xs[..|xs| - 1]);
      var x := xs[|xs| - 1];
      assert xs == xs[..|xs| - 1] + [x];
      assert forall y :: y in xs <==> y in xs[..|xs| - 1] || y == x;
      SubsequenceExtend(r, xs[..|xs| - 1], x);
      if x in r then r else r + [x]
  }

  /**
   * The set of every prefix of `xs` is a prefix of the set of `xs`: each
   * value takes its place at its first occurrence, and a later repeat does
   * not move it.
   */
  lemma {:induction false} DedupKeepsFirstOccurrenceOrder(xs: seq<string>, n: nat)
    requires n <= |xs|
    ensures Dedup(xs[..n]) <= Dedup(xs)
    decreases |xs|
  {
    if n == |xs| {
      assert xs[..n] == xs;
    } else {
      var init := xs[..|xs| - 1];
      assert xs[..n] == init[..n];
      DedupKeepsFirstOccurrenceOrder(init, n);
    }
  }

  /** A repeated value keeps the place of its first occurrence. */
  lemma DedupOrderExample()
    ensures Dedup(["b", "a", "b"]) == ["b", "a"]
  {
    assert ["b", "a", "b"][..2] == ["b", "a"];
    assert ["b", "a"][..1] == ["b"];
    assert ["b"][..0] == [];
  }

  /** The normalised codec list of a name. */
  function Codecs(name: string): seq<string> {
    var raw := Dedup(CodecMatches(name, 0));
    seq(|raw|, k requires 0 <= k < |raw| => NormaliseCodec(raw[k]))
  }

  /**
   * Every codec is one of the five names, and there are no more of them
   * than raw, case-sensitive matches.
   */
  lemma CodecsAreNamed(name: string)
    ensures forall c :: c in Codecs(name) ==> c in CodecNames
    ensures |Codecs(name)| <= |CodecMatches(name, 0)|
  {
    var raw := Dedup(CodecMatches(name, 0));
    forall k | 0 <= k < |raw| ensures NormaliseCodec(raw[k]) in CodecNames {
      assert raw[k] in CodecMatches(name, 0);
      NormaliseCodecName(raw[k]);
    }
  }

  /** "x265" and "HEVC" are both whole codec matches. */
  lemma SpellingsAreTokens()
    ensures IsCodecToken("x265") && IsCodecToken("HEVC")
  {
    var x := "x265";
    assert x[0] == 'x' && x[1] == '2' && x[2] == '6' && x[3] == '5';
    var h := "HEVC";
    assert h[0] == 'H' && h[1] == 'E' && h[2] == 'V' && h[3] == 'C';
  }

  /** "x265" normalises to "X265". */
  lemma NormaliseX265()
    ensures NormaliseCodec("x265") == "X265"
  {
    var x := "x265";
    assert x[0] == 'x' && x[1] == '2' && x[2] == '6' && x[3] == '5';
    NormaliseUntouched(x);
    assert Upper(x) == "X265";
  }

  /**
   * Deduplication is by exact spelling and comes before normalisation:
   * "x265" and "HEVC" stay two entries, and both read "X265".
   */
  lemma DifferentSpellingsSameCodec()
    ensures Dedup(["x265", "HEVC"]) == ["x265", "HEVC"]
    ensures NormaliseCodec("x265") == "X265" && NormaliseCodec("HEVC") == "X265"
  {
    NormaliseX265();
    var h := "HEVC";
    assert h[0] == 'H' && h[1] == 'E' && h[2] == 'V' && h[3] == 'C';
    NormaliseHevc(h);
    var xs := ["x265", "HEVC"];
    assert xs[..1] == ["x265"];
    assert Dedup(xs[..1]) == ["x265"] by {
      assert xs[..1][..0] == [];
    }
    assert "HEVC" != "x265" by { assert h[0] != 'x'; }
  }

  // ---------------------------------------------------------------------
  // extractMediaInfo

  /** One classified item: the raw fields, the quality and the codec list. */
  function Classify(t: Torrent): (r: EnrichedTorrentItem)
    ensures r.item == t && r.provide.None?
    ensures r.quality.Some? ==> r.quality.value in QualityTags
  {
    EnrichedTorrentItem(t, Quality(t.name), Codecs(t.name), None)
  }

  /** `extractMediaInfo(items)`: one enriched item per input, in input order. */
  function ExtractMediaInfo(items: seq<Torrent>): (r: seq<EnrichedTorrentItem>)
    ensures |r| == |items|
    ensures forall k :: 0 <= k < |items| ==> r[k].item == items[k] && r[k].provide.None?
    ensures forall k :: 0 <= k < |items| ==> r[k].quality.Some? ==> r[k].quality.value in QualityTags
  {
    seq(|items|, k requires 0 <= k < |items| => Classify(items[k]))
  }

  /** Every codec of every classified item is one of the five names. */
  lemma ExtractMediaInfoCodecs(items: seq<Torrent>)
    ensures forall k, c :: 0 <= k < |items| && c in ExtractMediaInfo(items)[k].codecs ==> c in CodecNames
  {
    forall k | 0 <= k < |items| ensures forall c :: c in ExtractMediaInfo(items)[k].codecs ==> c in CodecNames {
      CodecsAreNamed(items[k].name);
    }
  }
}
