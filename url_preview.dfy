/**
 * The link-preview metadata selection of src/services/urlPreview.js. The network fetch,
 * the CORS relay and DOM parsing are abstracted: a parsed page is its meta-tag contents (by
 * `name` or `property`) plus the `<title>` text, and URL parsing gives an optional hostname.
 */
module UrlPreview {
  import opened Common

  datatype Preview = Preview(
    title: string,
    description: string,
    image: string,
    siteName: string,
    url: string,
    kind: string,               // the `type` field: "video", "music" or "link"
    domain: string)

  /** A fetched and parsed page. */
  datatype Page = Page(meta: map<string, string>, titleText: Option<string>)

  /** `getMetaContent(name)`. */
  function Meta(page: Page, name: string): Option<string>
  {
    if name in page.meta then Some(page.meta[name]) else None
  }

  function Title(page: Page, hostname: string): string
  {
    OrElse(Meta(page, "og:title"), OrElse(Meta(page, "twitter:title"),
      OrElse(page.titleText, hostname)))
  }

  function Description(page: Page): string
  {
    OrElse(Meta(page, "og:description"), OrElse(Meta(page, "twitter:description"),
      OrElse(Meta(page, "description"), "")))
  }

  function Image(page: Page): string
  {
    OrElse(Meta(page, "og:image"), OrElse(Meta(page, "twitter:image"), ""))
  }

  function SiteName(page: Page, hostname: string): string
  {
    OrElse(Meta(page, "og:site_name"), hostname)
  }

  function YouTubeThumbnail(id: string): string
  {
    "https://img.youtube.com/vi/" + id + "/maxresdefault.jpg"
  }

  /** The fallback after a failed fetch: only the hostname is known. */
  function Minimal(url: string, hostname: string): Preview
  {
    Preview(hostname, "", "", hostname, url, "link", hostname)
  }

  predicate IsYouTubeLink(url: string)
  {
    Contains(url, "youtube.com/watch") || Contains(url, "youtu.be/")
  }

  /**
   * The preview of a fetched page at `url`, hostname `host`, once the YouTube id the
   * extractor found, if any, is known: the body of `fetchUrlPreview` after the fetch.
   */
  function PagePreview(url: string, host: string, p: Page, videoId: Option<string>): Preview
  {
    var title := Title(p, host);
    var description := Description(p);
    var image := Image(p);
    var siteName := SiteName(p, host);
    if videoId.Some? then
      Preview(title, description, YouTubeThumbnail(videoId.value), "YouTube", url, "video", host)
    else if Contains(url, "spotify.com") then
      Preview(title, description, image, "Spotify", url, "music", host)
    else if Contains(url, "soundcloud.com") then
      Preview(title, description, image, "SoundCloud", url, "music", host)
    else
      Preview(OrElse(Some(title), "Shared Link"), description, image, siteName, url, "link", host)
  }

  /**
   * `fetchUrlPreview(url)`, with `extractYouTubeId` as written. `hostname` is
   * `new URL(url).hostname`, None when `url` does not parse; `page` is the parsed response,
   * None when the fetch, the status or the body failed.
   */
  function FetchUrlPreview(url: string, hostname: Option<string>, page: Option<Page>)
    : Option<Preview>
  {
    if hostname.None? then None
    else if page.None? then Some(Minimal(url, hostname.value))
    else
      var videoId := if IsYouTubeLink(url) then ExtractYouTubeId(url) else None;
      Some(PagePreview(url, hostname.value, page.value, videoId))
  }

  /** `fetchUrlPreview(url)` once the extractor is corrected (see `ExtractYouTubeIdCorrected`). */
  function FetchUrlPreviewCorrected(url: string, hostname: Option<string>, page: Option<Page>)
    : Option<Preview>
  {
    if hostname.None? then None
    else if page.None? then Some(Minimal(url, hostname.value))
    else
      var videoId := if IsYouTubeLink(url) then ExtractYouTubeIdCorrected(url) else None;
      Some(PagePreview(url, hostname.value, page.value, videoId))
  }

  // ---------------------------------------------------------------------------------------
  // Properties of the selection

  /** An invalid URL gives null; a failed fetch of a valid one the hostname-only preview. */
  lemma ErrorFallbacks(url: string, host: string)
    ensures FetchUrlPreview(url, None, None).None?
    ensures FetchUrlPreview(url, Some(host), None) ==
      Some(Preview(host, "", "", host, url, "link", host))
  {
  }

  /** og:title, then twitter:title, then `<title>`, then the hostname. */
  lemma TitlePrecedence(page: Page, host: string)
    ensures Truthy(Meta(page, "og:title")) ==> Title(page, host) == page.meta["og:title"]
    ensures !Truthy(Meta(page, "og:title")) && Truthy(Meta(page, "twitter:title")) ==>
      Title(page, host) == page.meta["twitter:title"]
    ensures (!Truthy(Meta(page, "og:title")) && !Truthy(Meta(page, "twitter:title"))
             && Truthy(page.titleText)) ==> Title(page, host) == page.titleText.value
    ensures (!Truthy(Meta(page, "og:title")) && !Truthy(Meta(page, "twitter:title"))
             && !Truthy(page.titleText)) ==> Title(page, host) == host
  {
  }

  /** og, twitter, plain description, else empty; og, twitter image, else empty. */
  lemma DescriptionAndImagePrecedence(page: Page)
    ensures Truthy(Meta(page, "og:description")) ==>
      Description(page) == page.meta["og:description"]
    ensures !Truthy(Meta(page, "og:description")) && Truthy(Meta(page, "twitter:description")) ==>
      Description(page) == page.meta["twitter:description"]
    ensures !Truthy(Meta(page, "og:description")) && !Truthy(Meta(page, "twitter:description"))
            ==> Description(page) == OrElse(Meta(page, "description"), "")
    ensures Truthy(Meta(page, "og:image")) ==> Image(page) == page.meta["og:image"]
    ensures !Truthy(Meta(page, "og:image")) ==> Image(page) == OrElse(Meta(page, "twitter:image"), "")
  {
  }

  /** siteName is og:site_name, else the hostname. */
  lemma SiteNamePrecedence(page: Page, host: string)
    ensures Truthy(Meta(page, "og:site_name")) ==> SiteName(page, host) == page.meta["og:site_name"]
    ensures !Truthy(Meta(page, "og:site_name")) ==> SiteName(page, host) == host
  {
  }

  /** A successful fetch always yields a preview carrying the URL and its hostname. */
  lemma ValidUrlAlwaysPreviews(url: string, host: string, page: Option<Page>)
    ensures FetchUrlPreview(url, Some(host), page).Some?
    ensures FetchUrlPreview(url, Some(host), page).value.domain == host
    ensures FetchUrlPreview(url, Some(host), page).value.url == url
  {
  }

  /** A YouTube link with an id is a video with the id's thumbnail, before any music rule. */
  lemma YouTubeFirst(url: string, host: string, page: Page)
    requires IsYouTubeLink(url) && ExtractYouTubeId(url).Some?
    ensures var r := FetchUrlPreview(url, Some(host), Some(page)).value;
      && r.kind == "video" && r.siteName == "YouTube"
      && r.image == YouTubeThumbnail(ExtractYouTubeId(url).value)
      && r.title == Title(page, host) && r.description == Description(page)
  {
  }

  /** Spotify and SoundCloud links are music; the rest are plain links titled non-empty. */
  lemma PlatformKinds(url: string, host: string, page: Page)
    requires !(IsYouTubeLink(url) && ExtractYouTubeId(url).Some?)
    ensures var r := FetchUrlPreview(url, Some(host), Some(page)).value;
      && (Contains(url, "spotify.com") ==> r.kind == "music" && r.siteName == "Spotify")
      && (!Contains(url, "spotify.com") && Contains(url, "soundcloud.com") ==>
            r.kind == "music" && r.siteName == "SoundCloud")
      && (!Contains(url, "spotify.com") && !Contains(url, "soundcloud.com") ==>
            && r.kind == "link" && r.siteName == SiteName(page, host) && r.title != ""
            && r.image == Image(page))
  {
  }

  // ---------------------------------------------------------------------------------------
  // extractYouTubeId: the regular expression
  //   /^.*((youtu.be\/)|(v\/)|(\/u\/\w\/)|(embed\/)|(watch\?))\??v?=?([^#&?]*).*/
  // run as JavaScript runs it, on UTF-16 code units (no `u` flag). The rest of the pattern after group 1 always matches, so the
  // greedy `^.*` settles on the rightmost start of an alternative within the first line (`.`
  // does not cross a line terminator), trying the alternatives in order there; group 7 is then
  // the longest run without '#', '&' or '?' after the optional '?', 'v' and '='.

  predicate IsLineTerminator(c: char)
  {
    c == '\n' || c == '\r' || c == '\U{2028}' || c == '\U{2029}'
  }

  /** `\w`. */
  predicate IsWordChar(c: char)
  {
    ('a' <= c <= 'z') || ('A' <= c <= 'Z') || ('0' <= c <= '9') || c == '_'
  }

  /** Length of the first alternative of group 1 matching at `p`, 0 if none does. */
  function MarkerAt(s: string, p: nat): (n: nat)
    ensures n > 0 ==> p + n <= |s|
  {
    if p + 9 <= |s| && s[p] == 'y' && s[p + 1] == 'o' && s[p + 2] == 'u' && s[p + 3] == 't'
       && s[p + 4] == 'u' && !IsLineTerminator(s[p + 5]) && s[p + 5] as int < 0x1_0000
       && s[p + 6] == 'b' && s[p + 7] == 'e' && s[p + 8] == '/' then 9
    else if p + 2 <= |s| && s[p] == 'v' && s[p + 1] == '/' then 2
    else if p + 5 <= |s| && s[p] == '/' && s[p + 1] == 'u' && s[p + 2] == '/'
       && IsWordChar(s[p + 3]) && s[p + 4] == '/' then 5
    else if p + 6 <= |s| && s[p] == 'e' && s[p + 1] == 'm' && s[p + 2] == 'b' && s[p + 3] == 'e'
       && s[p + 4] == 'd' && s[p + 5] == '/' then 6
    else if p + 6 <= |s| && s[p] == 'w' && s[p + 1] == 'a' && s[p + 2] == 't' && s[p + 3] == 'c'
       && s[p + 4] == 'h' && s[p + 5] == '?' then 6
    else 0
  }

  /** Where `^.*` can end: the first line terminator, or the end. */
  function FirstLineEnd(s: string, i: nat): (e: nat)
    requires i <= |s|
    ensures i <= e <= |s|
    ensures forall k :: i <= k < e ==> !IsLineTerminator(s[k])
    ensures e < |s| ==> IsLineTerminator(s[e])
    decreases |s| - i
  {
    if i == |s| || IsLineTerminator(s[i]) then i else FirstLineEnd(s, i + 1)
  }

  /** The rightmost `p <= hi` where an alternative matches. */
  function RightmostMarker(s: string, hi: nat): (r: Option<nat>)
    ensures r.Some? ==> r.value <= hi && MarkerAt(s, r.value) > 0
    ensures r.Some? ==> forall q :: r.value < q <= hi ==> MarkerAt(s, q) == 0
    ensures r.None? ==> forall q :: 0 <= q <= hi ==> MarkerAt(s, q) == 0
  {
    if MarkerAt(s, hi) > 0 then Some(hi)
    else if hi == 0 then None
    else RightmostMarker(s, hi - 1)
  }

  /** `\??v?=?`, each taken when present. */
  function SkipOptional(s: string, q: nat): (r: nat)
    requires q <= |s|
    ensures q <= r <= |s|
  {
    var q1 := if q < |s| && s[q] == '?' then q + 1 else q;
    var q2 := if q1 < |s| && s[q1] == 'v' then q1 + 1 else q1;
    if q2 < |s| && s[q2] == '=' then q2 + 1 else q2
  }

  predicate IsIdChar(c: char)
  {
    c != '#' && c != '&' && c != '?'
  }

  /** `([^#&?]*)`, greedy. */
  function IdRun(s: string, q: nat): (r: string)
    requires q <= |s|
    ensures |r| <= |s| - q && r == s[q..q + |r|]
    ensures forall k :: 0 <= k < |r| ==> IsIdChar(r[k])
    ensures q + |r| == |s| || !IsIdChar(s[q + |r|])
    decreases |s| - q
  {
    if q < |s| && IsIdChar(s[q]) then [s[q]] + IdRun(s, q + 1) else []
  }

  /** Where group 1 ends, or None when the pattern does not match at all. */
  function MarkerEnd(url: string): (r: Option<nat>)
    ensures r.Some? ==> r.value <= |url|
  {
    var marker := RightmostMarker(url, FirstLineEnd(url, 0));
    if marker.None? then None else Some(marker.value + MarkerAt(url, marker.value))
  }

  /** Group 7 of the match, or None when the pattern does not match at all. */
  function YouTubeGroup(url: string): Option<string>
  {
    var e := MarkerEnd(url);
    if e.None? then None else Some(IdRun(url, SkipOptional(url, e.value)))
  }

  /** `(match && match[7].length === 11) ? match[7] : null`; the length is in UTF-16 units. */
  function ExtractYouTubeId(url: string): (r: Option<string>)
    ensures r.Some? ==> Utf16Length(r.value) == 11 && 6 <= |r.value| <= 11
    ensures r.Some? ==> forall k :: 0 <= k < |r.value| ==> IsIdChar(r.value[k])
    ensures r.Some? ==> r == YouTubeGroup(url)
  {
    var g := YouTubeGroup(url);
    if g.Some? && Utf16Length(g.value) == 11 then g else None
  }

  /** `[\??(v=)?]`: the evidently intended prefix, where 'v' is skipped only as part of "v=". */
  function SkipQueryKey(s: string, q: nat): (r: nat)
    requires q <= |s|
    ensures q <= r <= |s|
  {
    var q1 := if q < |s| && s[q] == '?' then q + 1 else q;
    if q1 + 2 <= |s| && s[q1] == 'v' && s[q1 + 1] == '=' then q1 + 2 else q1
  }

  /** Group 7 of the corrected pattern. */
  function YouTubeGroupCorrected(url: string): Option<string>
  {
    var e := MarkerEnd(url);
    if e.None? then None else Some(IdRun(url, SkipQueryKey(url, e.value)))
  }

  /** `extractYouTubeId` with the corrected pattern; this is what the preview uses. */
  function ExtractYouTubeIdCorrected(url: string): (r: Option<string>)
    ensures r.Some? ==> Utf16Length(r.value) == 11
    ensures r.Some? ==> forall k :: 0 <= k < |r.value| ==> IsIdChar(r.value[k])
  {
    var g := YouTubeGroupCorrected(url);
    if g.Some? && Utf16Length(g.value) == 11 then g else None
  }

  /** The characters of a YouTube video id. */
  predicate IsVideoIdChar(c: char)
  {
    ('a' <= c <= 'z') || ('A' <= c <= 'Z') || ('0' <= c <= '9') || c == '-' || c == '_'
  }

  predicate IsVideoId(id: string)
  {
    |id| == 11 && forall k :: 0 <= k < 11 ==> IsVideoIdChar(id[k])
  }

  predicate SingleLine(s: string)
  {
    forall k :: 0 <= k < |s| ==> !IsLineTerminator(s[k])
  }

  lemma {:induction false} SingleLineEnd(s: string, i: nat)
    requires i <= |s| && SingleLine(s)
    ensures FirstLineEnd(s, i) == |s|
    decreases |s| - i
  {
    if i < |s| {
      SingleLineEnd(s, i + 1);
    }
  }

  lemma {:induction false} RightmostIs(s: string, hi: nat, p: nat)
    requires p <= hi && MarkerAt(s, p) > 0
    requires forall q :: p < q <= hi ==> MarkerAt(s, q) == 0
    ensures RightmostMarker(s, hi) == Some(p)
    decreases hi - p
  {
    if p < hi {
      RightmostIs(s, hi - 1, p);
    }
  }

  lemma {:induction false} MarkerEndIs(s: string, p: nat, n: nat)
    requires RightmostMarker(s, FirstLineEnd(s, 0)) == Some(p) && MarkerAt(s, p) == n
    ensures MarkerEnd(s) == Some(p + n)
  {
  }

  /** Every alternative ends in '/' or '?', and its first character is fixed by its length. */
  lemma MarkerShape(s: string, q: nat)
    ensures var n := MarkerAt(s, q);
      n == 0 ||
      (&& (n == 2 || n == 5 || n == 6 || n == 9)
       && (s[q + n - 1] == '/' || (n == 6 && s[q + n - 1] == '?'))
       && (n == 2 ==> s[q] == 'v')
       && (n == 5 ==> s[q] == '/')
       && (n == 6 ==> s[q] == 'e' || s[q] == 'w'))
  {
  }

  lemma IdRunToEnd(s: string, q: nat)
    requires q <= |s| && forall k :: q <= k < |s| ==> IsIdChar(s[k])
    ensures IdRun(s, q) == s[q..]
  {
  }

  lemma {:induction false} Utf16OfVideoId(id: string)
    requires forall k :: 0 <= k < |id| ==> IsVideoIdChar(id[k])
    ensures Utf16Length(id) == |id|
  {
    if id != [] {
      Utf16OfVideoId(id[1..]);
    }
  }

  /** In `pre + "youtu.be/" + id`, no alternative starts after the marker. */
  lemma ShortLinkMarker(pre: string, id: string)
    requires IsVideoId(id)
    ensures var s := pre + "youtu.be/" + id;
      && MarkerAt(s, |pre|) == 9
      && forall q :: |pre| < q <= |s| ==> MarkerAt(s, q) == 0
  {
    var s := pre + "youtu.be/" + id;
    var P := |pre|;
    assert forall k :: P <= k < P + 9 ==> s[k] == "youtu.be/"[k - P];
    assert forall k :: P + 9 <= k < |s| ==> s[k] == id[k - P - 9];
    forall q | P < q <= |s|
      ensures MarkerAt(s, q) == 0
    {
      MarkerShape(s, q);
    }
  }

  /** In `pre + "watch?v=" + id`, no alternative starts after the marker. */
  lemma WatchLinkMarker(pre: string, id: string)
    requires IsVideoId(id)
    ensures var s := pre + "watch?v=" + id;
      && MarkerAt(s, |pre|) == 6
      && forall q :: |pre| < q <= |s| ==> MarkerAt(s, q) == 0
  {
    var s := pre + "watch?v=" + id;
    var P := |pre|;
    assert forall k :: P <= k < P + 8 ==> s[k] == "watch?v="[k - P];
    assert forall k :: P + 8 <= k < |s| ==> s[k] == id[k - P - 8];
    forall q | P < q <= |s|
      ensures MarkerAt(s, q) == 0
    {
      MarkerShape(s, q);
    }
  }

  /** The pattern's marker in a short link on one line is the `youtu.be/` before the id. */
  lemma ShortLinkMatch(pre: string, id: string)
    requires SingleLine(pre) && IsVideoId(id)
    ensures var s := pre + "youtu.be/" + id;
      && MarkerEnd(s) == Some(|pre| + 9)
      && s[|pre| + 9..] == id
  {
    var s := pre + "youtu.be/" + id;
    var P := |pre|;
    assert SingleLine(s) by {
      forall k | 0 <= k < |s| ensures !IsLineTerminator(s[k]) {
        if k >= P + 9 { assert s[k] == id[k - P - 9]; }
        else if k < P { assert s[k] == pre[k]; }
      }
    }
    SingleLineEnd(s, 0);
    ShortLinkMarker(pre, id);
    RightmostIs(s, |s|, P);
    MarkerEndIs(s, P, 9);
  }

  /** The pattern's marker in a watch link on one line is the `watch?` before `v=`. */
  lemma WatchLinkMatch(pre: string, id: string)
    requires SingleLine(pre) && IsVideoId(id)
    ensures var s := pre + "watch?v=" + id;
      && MarkerEnd(s) == Some(|pre| + 6)
      && s[|pre| + 6] == 'v' && s[|pre| + 7] == '=' && s[|pre| + 8..] == id
  {
    var s := pre + "watch?v=" + id;
    var P := |pre|;
    assert SingleLine(s) by {
      forall k | 0 <= k < |s| ensures !IsLineTerminator(s[k]) {
        if k >= P + 8 { assert s[k] == id[k - P - 8]; }
        else if k < P { assert s[k] == pre[k]; }
      }
    }
    SingleLineEnd(s, 0);
    WatchLinkMarker(pre, id);
    RightmostIs(s, |s|, P);
    MarkerEndIs(s, P, 6);
  }

  /** Group 7 once the end of group 1 is known. */
  lemma {:induction false} GroupAt(s: string, q: nat)
    requires MarkerEnd(s) == Some(q)
    ensures q <= |s| && YouTubeGroup(s) == Some(IdRun(s, SkipOptional(s, q)))
  {
  }

  /** Group 7 of the corrected pattern once the end of group 1 is known. */
  lemma {:induction false} GroupAtCorrected(s: string, q: nat)
    requires MarkerEnd(s) == Some(q)
    ensures q <= |s| && YouTubeGroupCorrected(s) == Some(IdRun(s, SkipQueryKey(s, q)))
  {
  }

  /** A video id running to the end of the string is all of group 7, and 11 code units long. */
  lemma IdAtEnd(s: string, q: nat, id: string)
    requires q <= |s| && s[q..] == id
    requires forall k :: 0 <= k < |id| ==> IsVideoIdChar(id[k])
    ensures IdRun(s, q) == id && Utf16Length(id) == |id|
  {
    assert forall k :: q <= k < |s| ==> s[k] == id[k - q];
    IdRunToEnd(s, q);
    Utf16OfVideoId(id);
  }

  /** As written, when group 1 is followed by an id starting with 'v' and running to the end. */
  lemma {:induction false} ShortLinkAt(s: string, q: nat, id: string)
    requires MarkerEnd(s) == Some(q) && q <= |s| && s[q..] == id && IsVideoId(id) && id[0] == 'v'
    ensures ExtractYouTubeId(s) == None
  {
    GroupAt(s, q);
    assert s[q + 1] == id[1];
    assert SkipOptional(s, q) == q + 1;
    assert s[q + 1..] == id[1..];
    IdAtEnd(s, q + 1, id[1..]);
  }

  /** Corrected, when group 1 is followed by an id running to the end. */
  lemma {:induction false} ShortLinkAtCorrected(s: string, q: nat, id: string)
    requires MarkerEnd(s) == Some(q) && q <= |s| && s[q..] == id && IsVideoId(id)
    ensures ExtractYouTubeIdCorrected(s) == Some(id)
  {
    GroupAtCorrected(s, q);
    assert s[q] == id[0] && s[q + 1] == id[1];
    assert SkipQueryKey(s, q) == q;
    IdAtEnd(s, q, id);
  }

  /** As written, when group 1 is followed by `v=` and an id running to the end. */
  lemma {:induction false} WatchLinkAt(s: string, q: nat, id: string)
    requires MarkerEnd(s) == Some(q) && q + 2 <= |s| && s[q] == 'v' && s[q + 1] == '='
    requires s[q + 2..] == id && IsVideoId(id)
    ensures ExtractYouTubeId(s) == Some(id)
  {
    GroupAt(s, q);
    assert SkipOptional(s, q) == q + 2;
    IdAtEnd(s, q + 2, id);
  }

  /** Corrected, when group 1 is followed by `v=` and an id running to the end. */
  lemma {:induction false} WatchLinkAtCorrected(s: string, q: nat, id: string)
    requires MarkerEnd(s) == Some(q) && q + 2 <= |s| && s[q] == 'v' && s[q + 1] == '='
    requires s[q + 2..] == id && IsVideoId(id)
    ensures ExtractYouTubeIdCorrected(s) == Some(id)
  {
    GroupAtCorrected(s, q);
    assert SkipQueryKey(s, q) == q + 2;
    IdAtEnd(s, q + 2, id);
  }

  /**
   * As written, `v?` swallows a leading 'v' of the id after `youtu.be/`, so group 7 is ten
   * characters long and no id is found.
   */
  lemma ShortLinkIdStartingWithV(pre: string, id: string)
    requires SingleLine(pre) && IsVideoId(id) && id[0] == 'v'
    ensures ExtractYouTubeId(pre + "youtu.be/" + id) == None
  {
    ShortLinkMatch(pre, id);
    ShortLinkAt(pre + "youtu.be/" + id, |pre| + 9, id);
  }

  /** Corrected: a short link yields its id, whatever its first character. */
  lemma ShortLinkIdCorrected(pre: string, id: string)
    requires SingleLine(pre) && IsVideoId(id)
    ensures ExtractYouTubeIdCorrected(pre + "youtu.be/" + id) == Some(id)
  {
    ShortLinkMatch(pre, id);
    ShortLinkAtCorrected(pre + "youtu.be/" + id, |pre| + 9, id);
  }

  /** The input that shows it: `https://youtu.be/v1234567890`. */
  lemma ShortLinkExample()
    ensures ExtractYouTubeId("https://youtu.be/v1234567890") == None
    ensures ExtractYouTubeIdCorrected("https://youtu.be/v1234567890") == Some("v1234567890")
  {
    var pre, id := "https://", "v1234567890";
    assert pre + "youtu.be/" + id == "https://youtu.be/v1234567890";
    ShortLinkIdStartingWithV(pre, id);
    ShortLinkIdCorrected(pre, id);
  }

  /**
   * The corrected preview of a short link is the video with the id's thumbnail; as written,
   * an id starting with 'v' leaves the link to the music and plain-link rules.
   */
  lemma ShortLinkPreviews(pre: string, id: string, host: string, page: Page)
    requires SingleLine(pre) && IsVideoId(id)
    ensures var c := FetchUrlPreviewCorrected(pre + "youtu.be/" + id, Some(host), Some(page)).value;
      c.kind == "video" && c.siteName == "YouTube" && c.image == YouTubeThumbnail(id)
    ensures id[0] == 'v' ==>
      var url := pre + "youtu.be/" + id;
      var r := FetchUrlPreview(url, Some(host), Some(page)).value;
      && r.kind != "video" && r.image == Image(page)
      && (!Contains(url, "spotify.com") && !Contains(url, "soundcloud.com") ==>
            r.kind == "link" && r.siteName == SiteName(page, host))
  {
    ContainsInfix(pre, "youtu.be/", id);
    ShortLinkIdCorrected(pre, id);
    if id[0] == 'v' {
      ShortLinkIdStartingWithV(pre, id);
    }
  }

  /** As written, the id after `watch?v=` is found. */
  lemma WatchLinkId(pre: string, id: string)
    requires SingleLine(pre) && IsVideoId(id)
    ensures ExtractYouTubeId(pre + "watch?v=" + id) == Some(id)
  {
    WatchLinkMatch(pre, id);
    WatchLinkAt(pre + "watch?v=" + id, |pre| + 6, id);
  }

  /** The correction keeps watch links as they were. */
  lemma WatchLinkIdCorrected(pre: string, id: string)
    requires SingleLine(pre) && IsVideoId(id)
    ensures ExtractYouTubeIdCorrected(pre + "watch?v=" + id) == Some(id)
  {
    WatchLinkMatch(pre, id);
    WatchLinkAtCorrected(pre + "watch?v=" + id, |pre| + 6, id);
  }

  // ---------------------------------------------------------------------------------------
  // isImageUrl / isVideoUrl:  /\.(e1|e2|...)(\?.*)?$/i

  const ImageExtensions: seq<string> := ["jpg", "jpeg", "png", "gif", "webp", "bmp", "svg"]
  const VideoExtensions: seq<string> := ["mp4", "webm", "ogg", "avi", "mov", "wmv", "flv", "mkv"]

  /** `(\?.*)?$`: nothing left, or '?' and the rest of a single line. */
  predicate QueryTail(t: string)
  {
    t == [] || (t[0] == '?' && forall k :: 1 <= k < |t| ==> !IsLineTerminator(t[k]))
  }

  /** A match of the dotted extension starting at `i` (case-insensitive on ASCII letters). */
  predicate ExtensionAt(s: string, i: nat, exts: seq<string>)
  {
    i < |s| && s[i] == '.' &&
    exists e :: e in exts && i + 1 + |e| <= |s| && Lower(s[i + 1..i + 1 + |e|]) == e
                && QueryTail(s[i + 1 + |e|..])
  }

  /** Some start position at or after `i` matches. */
  predicate ExtensionFrom(s: string, i: nat, exts: seq<string>)
    decreases |s| - i
  {
    i < |s| && (ExtensionAt(s, i, exts) || ExtensionFrom(s, i + 1, exts))
  }

  predicate IsImageUrl(url: string)
  {
    ExtensionFrom(url, 0, ImageExtensions)
  }

  predicate IsVideoUrl(url: string)
  {
    ExtensionFrom(url, 0, VideoExtensions) || Contains(url, "youtube.com")
    || Contains(url, "youtu.be") || Contains(url, "vimeo.com")
  }

  lemma {:induction false} ExtensionFromBelow(s: string, i: nat, j: nat, exts: seq<string>)
    requires i <= j && ExtensionAt(s, j, exts)
    ensures ExtensionFrom(s, i, exts)
    decreases j - i
  {
    if i < j {
      ExtensionFromBelow(s, i + 1, j, exts);
    }
  }

  lemma LowerOfLower(e: string)
    requires forall k :: 0 <= k < |e| ==> 'a' <= e[k] <= 'z'
    ensures Lower(e) == e
  {
  }

  /** Any URL ending in '.' and an image extension, lower-case, is an image URL. */
  lemma ImageSuffix(s: string, e: string)
    requires e in ImageExtensions
    ensures IsImageUrl(s + "." + e)
  {
    var t: string := [];
    assert QueryTail(t);
    assert s + "." + e + t == s + "." + e;
    ImageSuffixWithTail(s, e, t);
  }

  /** The witness step shared by the two suffix lemmas. */
  lemma ImageSuffixWithTail(s: string, e: string, t: string)
    requires e in ImageExtensions && QueryTail(t)
    ensures IsImageUrl(s + "." + e + t)
  {
    var u := s + "." + e + t;
    var i := |s|;
    assert u[i] == '.';
    assert u[i + 1..i + 1 + |e|] == e;
    assert u[i + 1 + |e|..] == t;
    assert forall k :: 0 <= k < |e| ==> 'a' <= e[k] <= 'z';
    LowerOfLower(e);
    assert ExtensionAt(u, i, ImageExtensions);
    ExtensionFromBelow(u, 0, i, ImageExtensions);
  }

  /** A query string after the extension is still accepted. */
  lemma ImageSuffixWithQuery(s: string, e: string, query: string)
    requires e in ImageExtensions
    requires forall k :: 0 <= k < |query| ==> !IsLineTerminator(query[k])
    ensures IsImageUrl(s + "." + e + "?" + query)
  {
    var t := "?" + query;
    assert t[1..] == query;
    ImageSuffixWithTail(s, e, t);
    assert s + "." + e + t == s + "." + e + "?" + query;
  }

  /** A URL with no '.' is never an image URL. */
  lemma {:induction false} NoDotNoImage(s: string, i: nat)
    requires forall k :: 0 <= k < |s| ==> s[k] != '.'
    ensures !ExtensionFrom(s, i, ImageExtensions)
    decreases |s| - i
  {
    if i < |s| {
      NoDotNoImage(s, i + 1);
    }
  }

  /** Every URL the preview takes for a YouTube link the media check takes for a video. */
  lemma YouTubeLinkIsVideo(url: string)
    requires IsYouTubeLink(url)
    ensures IsVideoUrl(url)
  {
    if Contains(url, "youtube.com/watch") {
      assert "youtube.com" + "/watch" == "youtube.com/watch";
      ContainsPrefixOf(url, "youtube.com", "/watch");
    } else {
      assert "youtu.be" + "/" == "youtu.be/";
      ContainsPrefixOf(url, "youtu.be", "/");
    }
  }
}
